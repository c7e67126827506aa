/**
  The bearer check in terms of what has happened: which events end a token, and
  that nothing else does (internal/api/middleware.go, internal/domain/user).
 */
module AccountBearer {
  import opened Accounts
  import opened AccountSafety
  import opened AccountTraces
  import Tokens

  predicate Revokes(e: Event, d: Id) { e.Committed? && e.tx.RevokeDevice? && e.tx.device == d }
  predicate Retires(e: Event, u: Id) { e.Committed? && e.tx.DeleteUser? && e.tx.user == u }

  predicate EverRevoked(log: seq<Event>, d: Id) { exists e :: e in log && Revokes(e, d) }
  predicate EverRetired(log: seq<Event>, u: Id) { exists e :: e in log && Retires(e, u) }

  // The log tells which accounts are retired and which devices revoked.
  ghost predicate Told(w: World) {
    && (forall u :: u in w.store.users ==> (w.store.users[u].live <==> !EverRetired(w.log, u)))
    && (forall u :: EverRetired(w.log, u) ==> u in w.store.users)
    && (forall d :: EverRevoked(w.log, d) ==> d in w.store.devices && w.store.devices[d].revoked)
    && (forall d :: d in w.store.devices && w.store.devices[d].revoked ==>
          EverRevoked(w.log, d) || EverRetired(w.log, w.store.devices[d].user))
  }

  lemma {:induction false} ApplyRow(s: Store, tx: Tx, u: Id)
    requires Apply(s, tx).1.None?
    ensures var s' := Apply(s, tx).0;
            && (u in s.users ==>
                  && u in s'.users
                  && (s'.users[u].live <==> s.users[u].live && !(tx.DeleteUser? && tx.user == u)))
            && (u in s'.users && u !in s.users ==> s'.users[u].live)
            && (tx.DeleteUser? ==> tx.user in s.users)
  {
  }

  lemma {:induction false} ApplyDevice(s: Store, tx: Tx, d: Id)
    requires Apply(s, tx).1.None?
    ensures var s' := Apply(s, tx).0;
            && (d in s.devices ==>
                  && d in s'.devices && s'.devices[d].user == s.devices[d].user
                  && (s'.devices[d].revoked
                      <==> s.devices[d].revoked || (tx.RevokeDevice? && tx.device == d)
                           || (tx.DeleteUser? && tx.user == s.devices[d].user)))
            && (d in s'.devices && d !in s.devices ==> !s'.devices[d].revoked)
            && (tx.RevokeDevice? ==> tx.device in s.devices)
  {
  }

  lemma {:induction false} CommitStaysTold(w: World, tx: Tx)
    requires Told(w)
    ensures Told(Commit(w, tx))
  {
    var w' := Commit(w, tx);
    if Apply(w.store, tx).1.None? {
      var e := Committed(tx, BumpOf(w.store, tx));
      assert forall x :: x in w'.log <==> x in w.log || x == e;
      forall u
        ensures EverRetired(w'.log, u) <==> EverRetired(w.log, u) || Retires(e, u)
        ensures u in w'.store.users ==> (w'.store.users[u].live <==> !EverRetired(w'.log, u))
        ensures EverRetired(w'.log, u) ==> u in w'.store.users
      {
        assert e in w'.log;
        ApplyRow(w.store, tx, u);
      }
      forall d
        ensures EverRevoked(w'.log, d) ==> d in w'.store.devices && w'.store.devices[d].revoked
        ensures d in w'.store.devices && w'.store.devices[d].revoked ==>
          EverRevoked(w'.log, d) || EverRetired(w'.log, w'.store.devices[d].user)
      {
        assert e in w'.log;
        ApplyDevice(w.store, tx, d);
      }
    }
  }

  lemma {:induction false} OtherEvents(w: World, w': World)
    requires Told(w) && w'.store == w.store && |w.log| <= |w'.log| && w'.log[..|w.log|] == w.log
    requires forall i :: |w.log| <= i < |w'.log| ==> !w'.log[i].Committed?
    ensures Told(w')
  {
    forall e: Event | e.Committed? ensures e in w.log <==> e in w'.log {
      if e in w.log { assert e in w'.log[..|w.log|]; }
    }
  }

  lemma {:induction false} ActionStaysTold(w: World, a: Action)
    requires Told(w)
    ensures Told(Do(w, a))
  {
    var tx := if a.Elsewhere? && IsElsewhere(a.tx) && NewIds(a.tx) !! w.ids then Some(a.tx)
              else if a.Step? && a.n in w.calls && a.x.id !in w.ids && w.calls[a.n].Ready?
                then Some(w.calls[a.n].tx) else None;
    if tx.Some? { CommitStaysTold(w, tx.value); }
    OtherEvents(if tx.Some? then Commit(w, tx.value) else w, Do(w, a));
  }

  lemma {:induction false} RunStaysTold(actions: seq<Action>)
    ensures Told(Run(actions))
  {
    if actions != [] {
      RunStaysTold(actions[..|actions| - 1]);
      ActionStaysTold(Run(actions[..|actions| - 1]), actions[|actions| - 1]);
    }
  }

  // ----------------------------------------------------------- a token's device

  predicate Owns(s: Store, u: Id, d: Id) { d in s.devices && s.devices[d].user == u }

  lemma {:induction false} OwnsStill(actions: seq<Action>, i: nat, u: Id, d: Id)
    requires i <= |actions| && Owns(Run(actions[..i]).store, u, d)
    ensures Owns(Run(actions).store, u, d)
    ensures Run(actions[..i]).store.devices[d].revoked ==> Run(actions).store.devices[d].revoked
    decreases |actions|
  {
    if i == |actions| {
      assert actions[..i] == actions;
    } else {
      var m := |actions| - 1;
      InPrefix(actions, m, i);
      OwnsStill(actions[..m], i, u, d);
      OwnsNext(Run(actions[..m]), actions[m], u, d);
    }
  }

  lemma {:induction false} OwnsNext(w: World, a: Action, u: Id, d: Id)
    requires Owns(w.store, u, d)
    ensures Owns(Do(w, a).store, u, d) && (w.store.devices[d].revoked ==> Do(w, a).store.devices[d].revoked)
  {
    DoDevicesOn(w, a);
  }

  // Where the device in hand was last looked up or made.
  lemma {:induction false} DeviceRead(s: Store, c0: Call, c: Call, x: Draw, seen: nat)
    requires Carries(c0, c) && !c.Finished?
    ensures var d := Then(s, c, x, seen);
            && (d.Granted? ==> (c.SignInC? && c.r == d.r && c.d == d.d) || Owns(s, d.r.user, d.d))
            && (d.SignInC? ==> Owns(if c.Ready? then Apply(s, c.tx).0 else s, d.r.user, d.d))
  {
    if c.Ready? {
      if c.next.SignInC? && Apply(s, c.tx).1.None? { DeviceMade(s, c0, c); }
    } else if c.SignInA? || c.SignInB? || c.SignInC? {
      DeviceFound(s, c, x, seen);
    }
  }

  lemma {:induction false} DeviceMade(s: Store, c0: Call, c: Call)
    requires c.Ready? && Carries(c0, c) && c.next.SignInC? && Apply(s, c.tx).1.None?
    ensures Owns(Apply(s, c.tx).0, c.next.r.user, c.next.d)
  {
  }

  lemma {:induction false} DeviceFound(s: Store, c: Call, x: Draw, seen: nat)
    requires c.SignInA? || c.SignInB? || c.SignInC?
    ensures var d := Next(s, c, x, seen);
            (d.Granted? ==> c.SignInC? && c.r == d.r && c.d == d.d) && (d.SignInC? ==> Owns(s, d.r.user, d.d))
  {
  }

  lemma {:induction false} TokenDevice(actions: seq<Action>, e: Event)
    requires e in Run(actions).log && e.Issued?
    ensures Owns(Run(actions).store, e.r.user, e.device)
  {
    var k, n, g := Logged(actions, e);
    var i, c, b, c0 := StepTo(actions, k, n, g);
    DeviceRead(Run(actions[..i]).store, c0, c, actions[i].x, |Run(actions[..i]).log|);
    if c.SignInC? {
      SignInDevice(actions, i, n, c);
      OwnsStill(actions, i, e.r.user, e.device);
    } else {
      OwnsStill(actions, i, e.r.user, e.device);
    }
  }

  lemma {:induction false} SignInDevice(actions: seq<Action>, k: nat, n: nat, c: Call)
    requires k < |actions| && Steps(actions, k, n, c) && c.SignInC?
    ensures Owns(Run(actions[..k]).store, c.r.user, c.d)
  {
    var i, p, b, c0 := StepTo(actions, k, n, c);
    DeviceRead(Run(actions[..i]).store, c0, p, actions[i].x, |Run(actions[..i]).log|);
    OwnsAfter(actions, i, p, c.r.user, c.d);
    InPrefix(actions, k, i + 1);
    OwnsStill(actions[..k], i + 1, c.r.user, c.d);
  }

  lemma {:induction false} OwnsAfter(actions: seq<Action>, i: nat, p: Call, u: Id, d: Id)
    requires i < |actions| && exists n :: Steps(actions, i, n, p)
    requires Owns(if p.Ready? then Apply(Run(actions[..i]).store, p.tx).0 else Run(actions[..i]).store, u, d)
    ensures Owns(Run(actions[..i + 1]).store, u, d)
  {
    InPrefix(actions, i + 1, i);
    StepsStore(Run(actions[..i]), actions[i], p);
  }

  lemma {:induction false} StepsStore(w: World, a: Action, c: Call)
    requires a.Step? && a.n in w.calls && w.calls[a.n] == c && a.x.id !in w.ids
    ensures Do(w, a).store == if c.Ready? then Apply(w.store, c.tx).0 else w.store
  {
    if c.Ready? && Apply(w.store, c.tx).1.Some? { RefusedChangesNothing(w.store, c.tx); }
  }

  // -------------------------------------------------------------- the whole check

  // A retirement revokes every device the account has then.
  lemma {:induction false} RetirementRevokes(actions: seq<Action>, k: nat, u: Id, d: Id)
    requires k <= |actions| && Owns(Run(actions[..k]).store, u, d)
    requires EverRetired(Run(actions).log, u) && !EverRetired(Run(actions[..k]).log, u)
    ensures d in Run(actions).store.devices && Run(actions).store.devices[d].revoked
    decreases |actions|
  {
    var m := |actions| - 1;
    assert actions[..|actions|] == actions;
    InPrefix(actions, m, k);
    OwnsStill(actions[..m], k, u, d);
    if EverRetired(Run(actions[..m]).log, u) {
      RetirementRevokes(actions[..m], k, u, d);
      OwnsStill(actions, m, u, d);
    } else {
      RetiresNow(Run(actions[..m]), actions[m], u, d);
    }
  }

  lemma {:induction false} RetiresNow(w: World, a: Action, u: Id, d: Id)
    requires Owns(w.store, u, d) && EverRetired(Do(w, a).log, u) && !EverRetired(w.log, u)
    ensures d in Do(w, a).store.devices && Do(w, a).store.devices[d].revoked
  {
    var e :| e in Do(w, a).log && Retires(e, u);
    assert e !in w.log;
    ApplyDevice(w.store, e.tx, d);
  }

  // A request carrying an unexpired token, whose account is read before the k+1-th
  // action and whose device before the m+1-th, passes if and only if the account was
  // not suspended, its epoch had not moved since the row behind the token was read,
  // and neither a deletion of the account nor a revocation of the device has
  // committed by the second read.
  lemma {:induction false} PassesIff(
    actions: seq<Action>, k: nat, m: nat, e: Event, signer: Tokens.Signer, token: Tokens.Token, now: int)
    requires k <= m <= |actions| && e in Run(actions[..k]).log && e.Issued?
    requires Tokens.Parse(signer, token, now) == Tokens.Some(SessionOf(e.r, e.device))
    ensures var early, late := Run(actions[..k]), Run(actions[..m]);
            Bearer(signer, token, now, early.store, late.store)
            <==> e.r.user in early.store.users && !early.store.users[e.r.user].suspended
                 && (forall i :: e.r.seen <= i < |early.log| ==> !Bumps(early.log[i], e.r.user))
                 && !EverRetired(late.log, e.r.user) && !EverRevoked(late.log, e.device)
  {
    var early, late := Run(actions[..k]), Run(actions[..m]);
    var u, d := e.r.user, e.device;
    InPrefix(actions, m, k);
    LogGrows(actions[..m], k);
    assert forall x :: x in early.log ==> x in late.log[..|early.log|];
    RunStaysTold(actions[..k]);
    RunStaysTold(actions[..m]);
    RunKeepsEpochs(actions[..k]);
    TokenHonouredIff(actions[..k], e);
    TokenDevice(actions[..k], e);
    OwnsStill(actions[..m], k, u, d);
    if EverRetired(late.log, u) && !EverRetired(early.log, u) { RetirementRevokes(actions[..m], k, u, d); }
  }
}
