/**
  What every history keeps about sessions and devices: which tokens the bearer
  check still honours, and how a device came to be trusted.
 */
module AccountSafety {
  import opened Accounts
  import Codes
  import Tokens

  // ------------------------------------------------------------------- epochs

  predicate Bumps(e: Event, u: Id) { e.Committed? && e.bumped == Some(u) }

  // How often the account's session epoch has moved.
  function Moves(log: seq<Event>, u: Id): nat {
    if log == [] then 0
    else Moves(log[..|log| - 1], u) + (if Bumps(log[|log| - 1], u) then 1 else 0)
  }

  lemma {:induction false} MovesOneMore(log: seq<Event>, e: Event, u: Id)
    ensures Moves(log + [e], u) == Moves(log, u) + if Bumps(e, u) then 1 else 0
  {
    assert (log + [e])[..|log|] == log;
  }

  // Two counts agree exactly when nothing moved in between.
  lemma {:induction false} MovesBetween(log: seq<Event>, k: nat, u: Id)
    requires k <= |log|
    ensures Moves(log[..k], u) <= Moves(log, u)
    ensures Moves(log[..k], u) == Moves(log, u) <==> forall i :: k <= i < |log| ==> !Bumps(log[i], u)
    decreases |log|
  {
    if k < |log| {
      var n := |log| - 1;
      assert log[..n][..k] == log[..k];
      MovesBetween(log[..n], k, u);
      assert forall i :: k <= i < n ==> log[..n][i] == log[i];
    } else {
      assert log[..k] == log;
    }
  }

  // The row a request is carrying.
  function Held(c: Call): Option<Read> {
    match c
    case SignInB(r, _) => Some(r)
    case SignInC(r, _, _) => Some(r)
    case VerifyB(r, _, _) => Some(r)
    case VerifyC(r, _, _) => Some(r)
    case VerifyD(r, _) => Some(r)
    case ResetB(r, _, _) => Some(r)
    case Granted(r, _, _) => Some(r)
    case Ready(_, next) => Held(next)
    case _ => None
  }

  // The epoch on the row is the count of moves up to its reading.
  predicate Dated(w: World, r: Read) {
    r.user in w.store.users && r.seen <= |w.log| && r.row.epoch == Moves(w.log[..r.seen], r.user)
  }

  ghost predicate EpochsKept(w: World) {
    && (forall u :: u in w.store.users ==> w.store.users[u].epoch == Moves(w.log, u))
    && (forall u :: u !in w.store.users ==> Moves(w.log, u) == 0)
  }

  ghost predicate ReadsKept(w: World) {
    && (forall n :: n in w.calls && Held(w.calls[n]).Some? ==> Dated(w, Held(w.calls[n]).value))
    && (forall e :: e in w.log && e.Issued? ==> Dated(w, e.r))
  }

  lemma {:induction false} ApplyEpoch(s: Store, tx: Tx, u: Id)
    requires Apply(s, tx).1.None?
    ensures u in s.users ==> u in Apply(s, tx).0.users
    ensures u in s.users ==>
              Apply(s, tx).0.users[u].epoch == s.users[u].epoch + if BumpOf(s, tx) == Some(u) then 1 else 0
    ensures u !in s.users ==>
        BumpOf(s, tx) != Some(u) && (u in Apply(s, tx).0.users ==> Apply(s, tx).0.users[u].epoch == 0)
  {
  }

  lemma {:induction false} CommitKeepsEpochs(w: World, tx: Tx)
    requires EpochsKept(w)
    ensures EpochsKept(Commit(w, tx))
    ensures forall u :: u in w.store.users ==> u in Commit(w, tx).store.users
  {
    if Apply(w.store, tx).1.None? {
      forall u ensures u in w.store.users ==> u in Commit(w, tx).store.users
               ensures if u in Commit(w, tx).store.users
                   then Commit(w, tx).store.users[u].epoch == Moves(Commit(w, tx).log, u)
                       else Moves(Commit(w, tx).log, u) == 0 {
        ApplyEpoch(w.store, tx, u);
        MovesOneMore(w.log, Committed(tx, BumpOf(w.store, tx)), u);
      }
    }
  }

  // Later events leave a dated row dated.
  lemma {:induction false} StaysDated(w: World, w': World, r: Read)
    requires Dated(w, r) && r.user in w'.store.users && |w.log| <= |w'.log| && w'.log[..|w.log|] == w.log
    ensures Dated(w', r)
  {
    assert w'.log[..r.seen] == w'.log[..|w.log|][..r.seen];
  }

  lemma {:induction false} CommitKeepsReads(w: World, tx: Tx)
    requires EpochsKept(w) && ReadsKept(w)
    ensures ReadsKept(Commit(w, tx))
  {
    var w' := Commit(w, tx);
    CommitKeepsEpochs(w, tx);
    forall r | Dated(w, r) ensures Dated(w', r) { StaysDated(w, w', r); }
  }

  lemma {:induction false} NextHolds(w: World, c: Call, x: Draw)
    requires EpochsKept(w) && (Held(c).Some? ==> Dated(w, Held(c).value))
    ensures var c' := Next(w.store, c, x, |w.log|); Held(c').Some? ==> Dated(w, Held(c').value)
  {
    HeldFrom(w.store, c, x, |w.log|);
    assert w.log[..|w.log|] == w.log;
  }

  // A row a request may hold after a step: the one it held, or one it has just read.
  predicate HeldNow(s: Store, c: Call, seen: nat, h: Option<Read>) {
    h == None || h == Held(c) || (h.value.user in s.users && h.value == Read(h.value.user, s.users[h.value.user], seen))
  }

  lemma {:induction false} HeldFrom(s: Store, c: Call, x: Draw, seen: nat)
    ensures HeldNow(s, c, seen, Held(Next(s, c, x, seen)))
  {
    if c.FactorB? {
      NothingHeld(s, c, x, seen);
    } else if c.SignInA? || c.SignInB? || c.SignInC? {
      SignInHolds(s, c, x, seen);
    } else if c.VerifyA? || c.VerifyB? || c.VerifyC? || c.VerifyD? {
      VerifyHolds(s, c, x, seen);
    }
  }

  lemma {:induction false} SignInHolds(s: Store, c: Call, x: Draw, seen: nat)
    requires c.SignInA? || c.SignInB? || c.SignInC?
    ensures HeldNow(s, c, seen, Held(Next(s, c, x, seen)))
  {
  }

  lemma {:induction false} VerifyHolds(s: Store, c: Call, x: Draw, seen: nat)
    requires c.VerifyA? || c.VerifyB? || c.VerifyC? || c.VerifyD?
    ensures HeldNow(s, c, seen, Held(Next(s, c, x, seen)))
  {
  }

  lemma {:induction false} NothingHeld(s: Store, c: Call, x: Draw, seen: nat)
    requires c.FactorB?
    ensures Held(Next(s, c, x, seen)) == None
  {
    var finish := Ready(SetTwoFactor(c.user, c.enabled), Finished(Done));
    assert Held(finish) == Held(Finished(Done)) == None;
  }

  lemma {:induction false} SignKeepsEpochs(w: World, e: Event)
    requires EpochsKept(w) && ReadsKept(w) && !e.Committed? && (e.Issued? ==> Dated(w, e.r))
    ensures EpochsKept(w.(log := w.log + [e])) && ReadsKept(w.(log := w.log + [e]))
  {
    var w' := w.(log := w.log + [e]);
    forall u ensures Moves(w'.log, u) == Moves(w.log, u) { MovesOneMore(w.log, e, u); }
    forall r | Dated(w, r) ensures Dated(w', r) { StaysDated(w, w', r); }
  }

  lemma {:induction false} CallsReplaced(w: World, calls: map<nat, Call>, ids: set<Id>)
    requires EpochsKept(w) && ReadsKept(w)
    requires forall n :: n in calls && Held(calls[n]).Some? ==> Dated(w, Held(calls[n]).value)
    ensures EpochsKept(w.(calls := calls, ids := ids)) && ReadsKept(w.(calls := calls, ids := ids))
  {
    var w' := w.(calls := calls, ids := ids);
    forall r | Dated(w, r) ensures Dated(w', r) {}
  }

  lemma {:induction false} ReadKeepsEpochs(w: World, n: nat, x: Draw)
    requires EpochsKept(w) && ReadsKept(w) && n in w.calls && x.id !in w.ids
    requires !w.calls[n].Ready? && !w.calls[n].Granted?
    ensures EpochsKept(Do(w, Step(n, x))) && ReadsKept(Do(w, Step(n, x)))
  {
    var c' := Next(w.store, w.calls[n], x, |w.log|);
    NextHolds(w, w.calls[n], x);
    CallsReplaced(w, w.calls[n := c'], w.ids + {x.id});
    var moved := w.(calls := w.calls[n := c'], ids := w.ids + {x.id});
    if ChecksPassword(c') {
      SignKeepsEpochs(moved, Checked(Checks(c')));
    } else {
      assert w.log + [] == w.log;
    }
  }

  lemma {:induction false} ReadyKeepsEpochs(w: World, n: nat, x: Draw)
    requires EpochsKept(w) && ReadsKept(w) && n in w.calls && x.id !in w.ids && w.calls[n].Ready?
    ensures EpochsKept(Do(w, Step(n, x))) && ReadsKept(Do(w, Step(n, x)))
  {
    var c := w.calls[n];
    var w' := Commit(w, c.tx);
    CommitKeepsEpochs(w, c.tx);
    CommitKeepsReads(w, c.tx);
    CallsReplaced(w', Do(w, Step(n, x)).calls, w'.ids);
  }

  lemma {:induction false} DoKeepsEpochs(w: World, a: Action)
    requires EpochsKept(w) && ReadsKept(w)
    ensures EpochsKept(Do(w, a)) && ReadsKept(Do(w, a))
  {
    match a
    case Begin(n, call) =>
      if n !in w.calls && Arrives(call) { CallsReplaced(w, w.calls[n := call], w.ids); }
    case Elsewhere(tx) =>
      CommitKeepsEpochs(w, tx);
      CommitKeepsReads(w, tx);
      CallsReplaced(Commit(w, tx), w.calls, w.ids + NewIds(tx));
    case Step(n, x) =>
      if n in w.calls && x.id !in w.ids {
        if w.calls[n].Ready? {
          ReadyKeepsEpochs(w, n, x);
        } else if w.calls[n].Granted? {
          var c := w.calls[n];
          CallsReplaced(w, w.calls[n := Finished(SignedIn(c.r.user, c.d))], w.ids);
          SignKeepsEpochs(w.(calls := w.calls[n := Finished(SignedIn(c.r.user, c.d))]), Issued(c.r, c.d, c.dev, x.now));
        } else {
          ReadKeepsEpochs(w, n, x);
        }
      }
  }

  lemma {:induction false} RunKeepsEpochs(actions: seq<Action>)
    ensures EpochsKept(Run(actions)) && ReadsKept(Run(actions))
  {
    if actions != [] {
      RunKeepsEpochs(actions[..|actions| - 1]);
      DoKeepsEpochs(Run(actions[..|actions| - 1]), actions[|actions| - 1]);
    }
  }

  // A token passes the account check exactly when the account is live and not
  // suspended and its epoch has not moved since the row the token was made from was
  // read; when the sign-in finished, and what was lifted since, play no part.
  lemma {:induction false} TokenHonouredIff(actions: seq<Action>, e: Event)
    requires e in Run(actions).log && e.Issued?
    ensures var w := Run(actions);
            UserPasses(w.store, SessionOf(e.r, e.device))
            <==> Live(w.store, e.r.user) && !w.store.users[e.r.user].suspended
                 && e.r.seen <= |w.log| && forall i :: e.r.seen <= i < |w.log| ==> !Bumps(w.log[i], e.r.user)
  {
    RunKeepsEpochs(actions);
    var w := Run(actions);
    assert Dated(w, e.r);
    MovesBetween(w.log, e.r.seen, e.r.user);
  }

  // Which transactions move the stored epoch, and by how much.
  lemma {:induction false} BumpsIff(s: Store, tx: Tx, u: Id)
    requires u in s.users
    ensures u in Apply(s, tx).0.users
    ensures Apply(s, tx).0.users[u].epoch != s.users[u].epoch
            <==> Apply(s, tx).1.None? && Live(s, u)
                 && (tx.SetPassword? || tx.BumpEpoch? || (tx.SetSuspended? && tx.on) || tx.ConsumeReset?)
                     && tx.user == u
    ensures Apply(s, tx).0.users[u].epoch in {s.users[u].epoch, s.users[u].epoch + 1}
    ensures Apply(s, tx).1.None? ==>
              (BumpOf(s, tx) == Some(u) <==> Apply(s, tx).0.users[u].epoch != s.users[u].epoch)
  {
    if Apply(s, tx).1.None? { ApplyEpoch(s, tx, u); } else { RefusedChangesNothing(s, tx); }
  }

  // A refused transaction leaves no trace: the password without its code, the code
  // without the device's trust, or the address without its code.
  lemma {:induction false} RefusedChangesNothing(s: Store, tx: Tx)
    requires Apply(s, tx).1.Some?
    ensures Apply(s, tx).0 == s
  {
  }

  // Spending a sign-in code trusts exactly its device, or nothing happens; the
  // code is then closed to everybody else.
  lemma {:induction false} ConsumeIff(s: Store, c: Id, d: Id)
    ensures var (s', err) := Apply(s, ConsumeChallenge(c, d));
            && (err.None? <==> Codes.Open(s.challenges, c) && d in s.devices && !s.devices[d].revoked)
            && (err.None? ==>
                  && IsTrusted(s'.devices[d]) && !Codes.Open(s'.challenges, c) && s'.devices.Keys == s.devices.Keys
                  && forall x :: x in s.devices && x != d ==> s'.devices[x] == s.devices[x])
  {
  }

  ghost predicate Prefix(p: seq<Event>, log: seq<Event>) { |p| <= |log| && log[..|p|] == p }

  lemma {:induction false} LogGrows(actions: seq<Action>, k: nat)
    requires k <= |actions|
    ensures Prefix(Run(actions[..k]).log, Run(actions).log)
    decreases |actions|
  {
    if k < |actions| {
      var n := |actions| - 1;
      assert actions[..n][..k] == actions[..k];
      LogGrows(actions[..n], k);
      var p, q, r := Run(actions[..k]).log, Run(actions[..n]).log, Run(actions).log;
      assert Prefix(q, r);
      assert r[..|p|] == q[..|p|];
    } else {
      assert actions[..k] == actions;
    }
  }

  // Once a new password, a reset, a sign-out everywhere or a suspension of the
  // account commits, no request carrying a token made from a row read before that
  // passes the bearer check: not even when the sign-in finishes later, and not
  // after the suspension is lifted.
  lemma {:induction false} InvalidatedForGood(
    actions: seq<Action>, k: nat, e: Event, signer: Tokens.Signer, token: Tokens.Token, now: int, late: Store)
    requires k < |actions| && e in Run(actions).log && e.Issued?
    requires var before, after := Run(actions[..k]).log, Run(actions[..k + 1]).log;
             && e.r.seen <= |before| < |after| && Bumps(after[|before|], e.r.user)
    requires Tokens.Parse(signer, token, now) == Tokens.Some(SessionOf(e.r, e.device))
    ensures !Bearer(signer, token, now, Run(actions).store, late)
  {
    var before, after := Run(actions[..k]).log, Run(actions[..k + 1]).log;
    LogGrows(actions, k + 1);
    assert Run(actions).log[..|after|][|before|] == after[|before|];
    TokenHonouredIff(actions, e);
  }

  // --------------------------------------------------------------- trust

  // The event that made a device trusted, and what went before it.
  predicate Raised(log: seq<Event>, c: Id, u: Id, d: Id) {
    exists e :: e in log && e.Committed? && e.tx.ReplaceChallenge? && e.tx.code == c && e.tx.user == u
        && e.tx.device == d
  }

  predicate Cause(log: seq<Event>, tx: Tx, u: Id, d: Id) {
    match tx
    case ConsumeChallenge(c, x) => x == d && Raised(log, c, u, d)
    case TrustDevice(x, owner) => x == d && owner == u && Checked(u) in log
    case _ => false
  }

  // At position i the device, of account u, was trusted for one of the two reasons.
  predicate TrustedAt(log: seq<Event>, i: nat, u: Id, d: Id)
    requires i < |log|
  {
    log[i].Committed? && Cause(log[..i], log[i].tx, u, d)
  }

  predicate EverTrusted(log: seq<Event>, u: Id, d: Id) { exists i: nat :: i < |log| && TrustedAt(log, i, u, d) }

  // At position i a change of u's address to email was begun, by somebody who had
  // just given u's password.
  predicate RequestedAt(log: seq<Event>, i: nat, c: Id, u: Id, email: string)
    requires i < |log|
  {
    var e := log[i];
    && e.Committed? && e.tx.ReplaceChange? && e.tx.code == c && e.tx.user == u && e.tx.email == email
    && Checked(u) in log[..i]
  }

  predicate Requested(log: seq<Event>, c: Id, u: Id, email: string) {
    exists i: nat :: i < |log| && RequestedAt(log, i, c, u, email)
  }

  // At position i the account got this address: at registration, or by a code that
  // belongs to a change begun as above.
  predicate AddressedAt(log: seq<Event>, i: nat, u: Id, email: string)
    requires i < |log|
  {
    var e := log[i];
    && e.Committed?
    && ((e.tx.CreateUser? && e.tx.user == u && e.tx.email == email)
        || (e.tx.ConsumeChange? && e.tx.user == u && e.tx.email == email && Requested(log[..i], e.tx.code, u, email)))
  }

  predicate EverAddressed(log: seq<Event>, u: Id, email: string) {
    exists i: nat :: i < |log| && AddressedAt(log, i, u, email)
  }

  // What a request's next transaction stands on.
  predicate Grounded(w: World, c: Call) {
    match c
    case SignInC(r, d, dev) => dev.trusted ==> EverTrusted(w.log, r.user, d)
    case VerifyC(r, _, d) => d in w.store.devices && w.store.devices[d].user == r.user
    case VerifyD(r, d) => d in w.store.devices && w.store.devices[d].user == r.user
        && (w.store.devices[d].trusted || w.store.devices[d].revoked)
    case FactorB(u, _, _) => Checked(u) in w.log
    case Granted(r, d, dev) =>
      && (dev.trusted ==> EverTrusted(w.log, r.user, d))
      && (r.row.twoFactor ==> IsTrusted(dev))
    case Ready(tx, next) => GroundedTx(w, tx, next)
    case _ => true
  }

  predicate GroundedTx(w: World, tx: Tx, next: Call) {
    match tx
    case ConsumeChallenge(c, d) =>
      && next.VerifyD? && next.d == d && d in w.store.devices && w.store.devices[d].user == next.r.user
      && Raised(w.log, c, next.r.user, d)
    case TrustDevice(d, u) => Checked(u) in w.log && d in w.store.devices && w.store.devices[d].user == u && Quiet(next)
    case CreateDevice(_, _, _) => next.SignInC? && !next.dev.trusted
    case ReplaceChange(_, u, _, _, _) => Checked(u) in w.log && Quiet(next)
    case ConsumeChange(c, u, email, _) => Requested(w.log, c, u, email) && Quiet(next)
    case _ => Quiet(next)
  }

  // Continuations that make no more decisions about trust.
  predicate Quiet(c: Call) { c.Finished? || (c.Ready? && c.tx.SetTwoFactor? && c.next.Finished?) }

  ghost predicate TrustKept(w: World) {
    && (forall d :: d in w.store.devices && w.store.devices[d].trusted ==>
        EverTrusted(w.log, w.store.devices[d].user, d))
    && (forall c :: c in w.store.challenges ==>
        Raised(w.log, c, w.store.challenges[c].user, w.store.challenges[c].device))
  }

  ghost predicate AddressesKept(w: World) {
    && (forall u :: u in w.store.users ==> EverAddressed(w.log, u, w.store.users[u].email))
    && (forall c :: c in w.store.changes && c in w.store.targets ==>
          Requested(w.log, c, w.store.changes[c].user, w.store.targets[c]))
  }

  ghost predicate CallsGrounded(w: World) {
    && (forall n :: n in w.calls ==> Grounded(w, w.calls[n]))
    && (forall e :: e in w.log && e.Issued? ==> Grounded(w, Granted(e.r, e.device, e.dev)))
  }

  lemma {:induction false} EverTrustedGrows(log: seq<Event>, log': seq<Event>, u: Id, d: Id)
    requires Prefix(log, log') && EverTrusted(log, u, d)
    ensures EverTrusted(log', u, d)
  {
    var i: nat :| i < |log| && TrustedAt(log, i, u, d);
    assert log'[..|log|][..i] == log'[..i] && log'[..|log|][i] == log'[i];
    assert TrustedAt(log', i, u, d);
  }

  lemma {:induction false} RaisedGrows(log: seq<Event>, log': seq<Event>, c: Id, u: Id, d: Id)
    requires Prefix(log, log') && Raised(log, c, u, d)
    ensures Raised(log', c, u, d)
  {
    var e :| e in log && e.Committed? && e.tx.ReplaceChallenge? && e.tx.code == c && e.tx.user == u && e.tx.device == d;
    assert e in log'[..|log|];
  }

  lemma {:induction false} RequestedGrows(log: seq<Event>, log': seq<Event>, c: Id, u: Id, email: string)
    requires Prefix(log, log') && Requested(log, c, u, email)
    ensures Requested(log', c, u, email)
  {
    var i: nat :| i < |log| && RequestedAt(log, i, c, u, email);
    assert log'[..|log|][..i] == log'[..i] && log'[..|log|][i] == log'[i];
    assert RequestedAt(log', i, c, u, email);
  }

  lemma {:induction false} EverAddressedGrows(log: seq<Event>, log': seq<Event>, u: Id, email: string)
    requires Prefix(log, log') && EverAddressed(log, u, email)
    ensures EverAddressed(log', u, email)
  {
    var i: nat :| i < |log| && AddressedAt(log, i, u, email);
    assert log'[..|log|][..i] == log'[..i] && log'[..|log|][i] == log'[i];
    assert AddressedAt(log', i, u, email);
  }

  // Devices never change hands, and one that is trusted or revoked stays one of
  // the two.
  predicate DevicesOn(s: Store, s': Store) {
    forall d :: d in s.devices ==>
      && d in s'.devices && s'.devices[d].user == s.devices[d].user
      && (s.devices[d].revoked ==> s'.devices[d].revoked)
      && (s.devices[d].trusted ==> s'.devices[d].trusted || s'.devices[d].revoked)
  }

  lemma {:induction false} ApplyDevicesOn(s: Store, tx: Tx)
    ensures DevicesOn(s, Apply(s, tx).0)
  {
  }

  lemma {:induction false} GroundedStays(w: World, w': World, c: Call)
    requires Grounded(w, c) && Prefix(w.log, w'.log) && DevicesOn(w.store, w'.store)
    ensures Grounded(w', c)
  {
    assert forall e :: e in w.log ==> e in w'.log[..|w.log|];
    match c
    case SignInC(r, d, dev) => if dev.trusted { EverTrustedGrows(w.log, w'.log, r.user, d); }
    case Granted(r, d, dev) => if dev.trusted { EverTrustedGrows(w.log, w'.log, r.user, d); }
    case Ready(tx, next) =>
      if tx.ConsumeChallenge? { RaisedGrows(w.log, w'.log, tx.code, next.r.user, tx.device); }
      if tx.ConsumeChange? { RequestedGrows(w.log, w'.log, tx.code, tx.user, tx.email); }
    case _ =>
  }

  // A transaction somebody asks for on good grounds keeps every trusted device
  // accounted for.
  lemma {:induction false} CommitKeepsTrust(w: World, tx: Tx, u: Id)
    requires TrustKept(w)
    requires tx.TrustDevice? || tx.ConsumeChallenge? ==>
               Cause(w.log, tx, u, tx.device) && (tx.device in w.store.devices ==> w.store.devices[tx.device].user == u)
    ensures TrustKept(Commit(w, tx))
  {
    var w' := Commit(w, tx);
    if Apply(w.store, tx).1.None? {
      forall d | d in w'.store.devices && w'.store.devices[d].trusted
        ensures EverTrusted(w'.log, w'.store.devices[d].user, d)
      {
        TrustFrom(w, tx, u, d);
      }
      forall c | c in w'.store.challenges
        ensures Raised(w'.log, c, w'.store.challenges[c].user, w'.store.challenges[c].device)
      {
        ChallengeFrom(w.store, tx, c);
        if tx.ReplaceChallenge? && tx.code == c {
          assert w'.log[|w.log|] in w'.log;
        } else {
          RaisedGrows(w.log, w'.log, c, w.store.challenges[c].user, w.store.challenges[c].device);
        }
      }
    }
  }

  lemma {:induction false} TrustFrom(w: World, tx: Tx, u: Id, d: Id)
    requires TrustKept(w) && Apply(w.store, tx).1.None?
    requires tx.TrustDevice? || tx.ConsumeChallenge? ==>
               Cause(w.log, tx, u, tx.device) && (tx.device in w.store.devices ==> w.store.devices[tx.device].user == u)
    requires d in Commit(w, tx).store.devices && Commit(w, tx).store.devices[d].trusted
    ensures EverTrusted(Commit(w, tx).log, Commit(w, tx).store.devices[d].user, d)
  {
    var w' := Commit(w, tx);
    if (tx.TrustDevice? || tx.ConsumeChallenge?) && tx.device == d {
      assert w'.log[..|w.log|] == w.log;
      assert TrustedAt(w'.log, |w.log|, u, d);
    } else {
      DeviceFrom(w.store, tx, d);
      EverTrustedGrows(w.log, w'.log, w.store.devices[d].user, d);
    }
  }

  lemma {:induction false} DeviceFrom(s: Store, tx: Tx, d: Id)
    requires d in Apply(s, tx).0.devices && Apply(s, tx).0.devices[d].trusted
    requires !((tx.TrustDevice? || tx.ConsumeChallenge?) && tx.device == d)
    ensures d in s.devices && s.devices[d].trusted && s.devices[d].user == Apply(s, tx).0.devices[d].user
  {
  }

  lemma {:induction false} ChallengeFrom(s: Store, tx: Tx, c: Id)
    requires c in Apply(s, tx).0.challenges && Apply(s, tx).1.None?
    ensures var row := Apply(s, tx).0.challenges[c];
            if tx.ReplaceChallenge? && tx.code == c then row.user == tx.user && row.device == tx.device
            else c in s.challenges && s.challenges[c].user == row.user && s.challenges[c].device == row.device
  {
  }

  // Where an address and a pending change come from.
  lemma {:induction false} AddressFrom(s: Store, tx: Tx, u: Id)
    requires u in Apply(s, tx).0.users && Apply(s, tx).1.None?
    ensures var email := Apply(s, tx).0.users[u].email;
            || (u in s.users && s.users[u].email == email)
            || (tx.CreateUser? && tx.user == u && tx.email == email)
            || (tx.ConsumeChange? && tx.user == u && tx.email == email)
  {
  }

  lemma {:induction false} ChangeFrom(s: Store, tx: Tx, c: Id)
    requires c in Apply(s, tx).0.changes && c in Apply(s, tx).0.targets && Apply(s, tx).1.None?
    ensures var s' := Apply(s, tx).0;
            if tx.ReplaceChange? && tx.code == c then s'.changes[c].user == tx.user && s'.targets[c] == tx.email
            else && c in s.changes && c in s.targets && s.changes[c].user == s'.changes[c].user
                 && s.targets[c] == s'.targets[c]
  {
  }

  predicate GoodChange(log: seq<Event>, tx: Tx) {
    && (tx.ReplaceChange? ==> Checked(tx.user) in log)
    && (tx.ConsumeChange? ==> Requested(log, tx.code, tx.user, tx.email))
  }

  lemma {:induction false} CommitKeepsAddresses(w: World, tx: Tx)
    requires AddressesKept(w) && GoodChange(w.log, tx)
    ensures AddressesKept(Commit(w, tx))
  {
    var w' := Commit(w, tx);
    if Apply(w.store, tx).1.None? {
      assert w'.log[..|w.log|] == w.log;
      forall u | u in w'.store.users ensures EverAddressed(w'.log, u, w'.store.users[u].email) {
        AddressFrom(w.store, tx, u);
        if u in w.store.users && w.store.users[u].email == w'.store.users[u].email {
          EverAddressedGrows(w.log, w'.log, u, w.store.users[u].email);
        } else {
          assert AddressedAt(w'.log, |w.log|, u, w'.store.users[u].email);
        }
      }
      forall c | c in w'.store.changes && c in w'.store.targets
        ensures Requested(w'.log, c, w'.store.changes[c].user, w'.store.targets[c])
      {
        ChangeFrom(w.store, tx, c);
        if tx.ReplaceChange? && tx.code == c {
          assert RequestedAt(w'.log, |w.log|, c, tx.user, tx.email);
        } else {
          RequestedGrows(w.log, w'.log, c, w.store.changes[c].user, w.store.targets[c]);
        }
      }
    }
  }

  lemma {:induction false} AddressesGrow(w: World, w': World)
    requires AddressesKept(w) && w'.store == w.store && Prefix(w.log, w'.log)
    ensures AddressesKept(w')
  {
    forall u | u in w.store.users ensures EverAddressed(w'.log, u, w.store.users[u].email) {
      EverAddressedGrows(w.log, w'.log, u, w.store.users[u].email);
    }
    forall c | c in w.store.changes && c in w.store.targets
      ensures Requested(w'.log, c, w.store.changes[c].user, w.store.targets[c])
    {
      RequestedGrows(w.log, w'.log, c, w.store.changes[c].user, w.store.targets[c]);
    }
  }

  lemma {:induction false} SignInGrounded(w: World, c: Call, x: Draw)
    requires TrustKept(w) && Grounded(w, c) && (c.SignInA? || c.SignInB? || c.SignInC?)
    ensures Grounded(w, Next(w.store, c, x, |w.log|))
  {
  }

  lemma {:induction false} VerifyGrounded(w: World, c: Call, x: Draw)
    requires TrustKept(w) && Grounded(w, c) && (c.VerifyA? || c.VerifyB? || c.VerifyC? || c.VerifyD?)
    ensures Grounded(w, Next(w.store, c, x, |w.log|))
  {
  }

  lemma {:induction false} OthersGrounded(w: World, c: Call, x: Draw)
    requires AddressesKept(w) && Grounded(w, c) && !(c.SignInA? || c.SignInB? || c.SignInC?)
    requires !(c.VerifyA? || c.VerifyB? || c.VerifyC? || c.VerifyD?)
    ensures var c' := Next(w.store, c, x, |w.log|);
            Grounded(w, c') || (!c.Ready? && ChecksPassword(c') && (c'.Ready? ==> Quiet(c'.next)))
  {
  }

  lemma {:induction false} NextGrounded(w: World, c: Call, x: Draw)
    requires TrustKept(w) && AddressesKept(w) && Grounded(w, c)
    ensures var c' := Next(w.store, c, x, |w.log|);
            Grounded(w, c') || (!c.Ready? && ChecksPassword(c') && (c'.Ready? ==> Quiet(c'.next)))
  {
    if c.SignInA? || c.SignInB? || c.SignInC? {
      SignInGrounded(w, c, x);
    } else if c.VerifyA? || c.VerifyB? || c.VerifyC? || c.VerifyD? {
      VerifyGrounded(w, c, x);
    } else {
      OthersGrounded(w, c, x);
    }
  }

  lemma {:induction false} AllStayGrounded(w: World, w': World)
    requires CallsGrounded(w) && Prefix(w.log, w'.log) && DevicesOn(w.store, w'.store)
    requires forall n :: n in w'.calls ==> Grounded(w', w'.calls[n]) || (n in w.calls && w'.calls[n] == w.calls[n])
    requires forall e :: e in w'.log && e.Issued? ==> e in w.log || Grounded(w', Granted(e.r, e.device, e.dev))
    ensures CallsGrounded(w')
  {
    forall n | n in w'.calls ensures Grounded(w', w'.calls[n]) {
      if !Grounded(w', w'.calls[n]) { GroundedStays(w, w', w.calls[n]); }
    }
    forall e | e in w'.log && e.Issued? ensures Grounded(w', Granted(e.r, e.device, e.dev)) {
      if e in w.log { GroundedStays(w, w', Granted(e.r, e.device, e.dev)); }
    }
  }

  lemma {:induction false} LogPlus(log: seq<Event>, more: seq<Event>)
    ensures Prefix(log, log + more)
  {
  }

  lemma {:induction false} TrustGrows(w: World, w': World)
    requires TrustKept(w) && w'.store == w.store && Prefix(w.log, w'.log)
    ensures TrustKept(w')
  {
    forall d | d in w.store.devices && w.store.devices[d].trusted
      ensures EverTrusted(w'.log, w.store.devices[d].user, d)
    {
      EverTrustedGrows(w.log, w'.log, w.store.devices[d].user, d);
    }
    forall c | c in w.store.challenges
      ensures Raised(w'.log, c, w.store.challenges[c].user, w.store.challenges[c].device)
    {
      RaisedGrows(w.log, w'.log, c, w.store.challenges[c].user, w.store.challenges[c].device);
    }
  }

  lemma {:induction false} ReadKeepsTrust(w: World, n: nat, x: Draw)
    requires TrustKept(w) && AddressesKept(w) && CallsGrounded(w) && n in w.calls && x.id !in w.ids
    requires !w.calls[n].Ready? && !w.calls[n].Granted?
    ensures var w' := Do(w, Step(n, x)); TrustKept(w') && AddressesKept(w') && CallsGrounded(w')
  {
    var w' := Do(w, Step(n, x));
    var c' := Next(w.store, w.calls[n], x, |w.log|);
    var more := if ChecksPassword(c') then [Checked(Checks(c'))] else [];
    LogPlus(w.log, more);
    TrustGrows(w, w');
    AddressesGrow(w, w');
    NextGrounded(w, w.calls[n], x);
    if Grounded(w, c') {
      GroundedStays(w, w', c');
    } else {
      assert w'.log[|w.log|] == Checked(Checks(c'));
    }
    AllStayGrounded(w, w');
  }

  lemma {:induction false} SignKeepsTrust(w: World, n: nat, x: Draw)
    requires TrustKept(w) && AddressesKept(w) && CallsGrounded(w) && n in w.calls && x.id !in w.ids
        && w.calls[n].Granted?
    ensures var w' := Do(w, Step(n, x)); TrustKept(w') && AddressesKept(w') && CallsGrounded(w')
  {
    var w' := Do(w, Step(n, x));
    var c := w.calls[n];
    LogPlus(w.log, [Issued(c.r, c.d, c.dev, x.now)]);
    TrustGrows(w, w');
    AddressesGrow(w, w');
    GroundedStays(w, w', c);
    AllStayGrounded(w, w');
  }

  // After its own transaction a request goes on from grounds it has just laid.
  lemma {:induction false} ReadyGrounded(w: World, c: Call, w': World)
    requires TrustKept(w) && Grounded(w, c) && c.Ready? && w'.store == Apply(w.store, c.tx).0 && Prefix(w.log, w'.log)
    requires Apply(w.store, c.tx).1.None?
    ensures Grounded(w', c.next)
  {
    ApplyDevicesOn(w.store, c.tx);
    GroundedStays(w, w', c);
  }

  // Whose challenge or whose password stands behind a request's transaction.
  function Behind(tx: Tx, next: Call): Id {
    if tx.TrustDevice? then tx.owner else if tx.ConsumeChallenge? && next.VerifyD? then next.r.user else NIL
  }

  lemma {:induction false} ReadyCause(w: World, c: Call)
    requires Grounded(w, c) && c.Ready?
    ensures c.tx.TrustDevice? || c.tx.ConsumeChallenge? ==>
              && Cause(w.log, c.tx, Behind(c.tx, c.next), c.tx.device)
              && (c.tx.device in w.store.devices ==> w.store.devices[c.tx.device].user == Behind(c.tx, c.next))
    ensures GoodChange(w.log, c.tx)
  {
  }

  lemma {:induction false} ReadyKeepsTrust(w: World, n: nat, x: Draw)
    requires TrustKept(w) && AddressesKept(w) && CallsGrounded(w) && n in w.calls && x.id !in w.ids && w.calls[n].Ready?
    ensures var w' := Do(w, Step(n, x)); TrustKept(w') && AddressesKept(w') && CallsGrounded(w')
  {
    ReadyKeepsRows(w, w.calls[n]);
    ReadyKeepsCalls(w, n, x);
    var c := w.calls[n];
    var w' := Do(w, Step(n, x));
    LogPlus(w'.log, []);
    TrustGrows(Commit(w, c.tx), w');
    AddressesGrow(Commit(w, c.tx), w');
  }

  lemma {:induction false} ReadyKeepsRows(w: World, c: Call)
    requires TrustKept(w) && AddressesKept(w) && Grounded(w, c) && c.Ready?
    ensures TrustKept(Commit(w, c.tx)) && AddressesKept(Commit(w, c.tx))
  {
    ReadyCause(w, c);
    CommitKeepsTrust(w, c.tx, Behind(c.tx, c.next));
    CommitKeepsAddresses(w, c.tx);
  }

  lemma {:induction false} ReadyKeepsCalls(w: World, n: nat, x: Draw)
    requires TrustKept(w) && CallsGrounded(w) && n in w.calls && x.id !in w.ids && w.calls[n].Ready?
    ensures CallsGrounded(Do(w, Step(n, x)))
  {
    var c := w.calls[n];
    var w' := Do(w, Step(n, x));
    ApplyDevicesOn(w.store, c.tx);
    LogPlus(w.log, w'.log[|w.log|..]);
    if Apply(w.store, c.tx).1.None? { ReadyGrounded(w, c, w'); }
    AllStayGrounded(w, w');
  }

  lemma {:induction false} ElsewhereKeepsTrust(w: World, tx: Tx)
    requires TrustKept(w) && AddressesKept(w) && CallsGrounded(w) && IsElsewhere(tx) && NewIds(tx) !! w.ids
    ensures var w' := Do(w, Elsewhere(tx)); TrustKept(w') && AddressesKept(w') && CallsGrounded(w')
  {
    var w' := Do(w, Elsewhere(tx));
    CommitKeepsTrust(w, tx, NIL);
    CommitKeepsAddresses(w, tx);
    ApplyDevicesOn(w.store, tx);
    LogPlus(w.log, w'.log[|w.log|..]);
    LogPlus(w'.log, []);
    TrustGrows(Commit(w, tx), w');
    AddressesGrow(Commit(w, tx), w');
    AllStayGrounded(w, w');
  }

  lemma {:induction false} DoKeepsTrust(w: World, a: Action)
    requires TrustKept(w) && AddressesKept(w) && CallsGrounded(w)
    ensures TrustKept(Do(w, a)) && AddressesKept(Do(w, a)) && CallsGrounded(Do(w, a))
  {
    match a
    case Begin(n, call) =>
      LogPlus(w.log, []);
      AllStayGrounded(w, Do(w, a));
    case Elsewhere(tx) =>
      if IsElsewhere(tx) && NewIds(tx) !! w.ids { ElsewhereKeepsTrust(w, tx); }
    case Step(n, x) =>
      if n in w.calls && x.id !in w.ids {
        if w.calls[n].Ready? {
          ReadyKeepsTrust(w, n, x);
        } else if w.calls[n].Granted? {
          SignKeepsTrust(w, n, x);
        } else {
          ReadKeepsTrust(w, n, x);
        }
      }
  }

  lemma {:induction false} RunKeepsTrust(actions: seq<Action>)
    ensures TrustKept(Run(actions)) && AddressesKept(Run(actions)) && CallsGrounded(Run(actions))
  {
    if actions != [] {
      RunKeepsTrust(actions[..|actions| - 1]);
      DoKeepsTrust(Run(actions[..|actions| - 1]), actions[|actions| - 1]);
    }
  }

  // A token made from a row with two-factor on went to a device that was read as
  // trusted and not revoked, and some earlier event made that device trusted: a
  // challenge raised for it and this account was consumed, or its owner set
  // two-factor after giving the right password.
  lemma {:induction false} SecondFactorProvenance(actions: seq<Action>, e: Event)
    requires e in Run(actions).log && e.Issued? && e.r.row.twoFactor
    ensures IsTrusted(e.dev) && EverTrusted(Run(actions).log, e.r.user, e.device)
  {
    RunKeepsTrust(actions);
  }

  // Every device that counts as trusted became so in one of those two ways.
  lemma {:induction false} TrustProvenance(actions: seq<Action>, d: Id)
    requires d in Run(actions).store.devices && IsTrusted(Run(actions).store.devices[d])
    ensures EverTrusted(Run(actions).log, Run(actions).store.devices[d].user, d)
  {
    RunKeepsTrust(actions);
  }

  // An account's address is the one it was registered with, or one confirmed by a
  // code of a change to that address, begun by somebody who gave its password.
  lemma {:induction false} AddressProvenance(actions: seq<Action>, u: Id)
    requires u in Run(actions).store.users
    ensures EverAddressed(Run(actions).log, u, Run(actions).store.users[u].email)
  {
    RunKeepsTrust(actions);
  }

  lemma {:induction false} DoDevicesOn(w: World, a: Action)
    ensures DevicesOn(w.store, Do(w, a).store)
  {
    match a
    case Elsewhere(tx) => ApplyDevicesOn(w.store, tx);
    case Step(n, _) => if n in w.calls && w.calls[n].Ready? { ApplyDevicesOn(w.store, w.calls[n].tx); }
    case _ =>
  }

  // A revoked device never counts as trusted again, and never passes the bearer
  // check's second read.
  lemma {:induction false} RevokedForGood(actions: seq<Action>, k: nat, d: Id)
    requires k <= |actions| && d in Run(actions[..k]).store.devices && Run(actions[..k]).store.devices[d].revoked
    ensures var s := Run(actions).store;
            d in s.devices && !IsTrusted(s.devices[d]) && forall u :: !DeviceActive(s, u, d)
    decreases |actions|
  {
    if k < |actions| {
      StaysRevoked(actions, k, |actions| - 1, d);
    }
    assert actions[..|actions|] == actions;
  }

  lemma {:induction false} StaysRevoked(actions: seq<Action>, k: nat, n: nat, d: Id)
    requires k <= n + 1 <= |actions| && d in Run(actions[..k]).store.devices
        && Run(actions[..k]).store.devices[d].revoked
    ensures d in Run(actions[..n + 1]).store.devices && Run(actions[..n + 1]).store.devices[d].revoked
  {
    if k < n + 1 {
      if n > 0 { StaysRevoked(actions, k, n - 1, d); }
      assert actions[..n + 1][..n] == actions[..n];
      DoDevicesOn(Run(actions[..n]), actions[n]);
    }
  }
}
