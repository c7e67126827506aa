/**
  Which digits count as a wrong guess, in every history: the ones that were not
  drawn for the code they are compared with (internal/domain/user).
 */
module AccountGuesses {
  import opened Accounts
  import opened AccountTraces
  import AccountCodes
  import Codes

  // The active code a request compares what was typed with.
  ghost function Chosen(s: Store, c: Call, now: int, p: Codes.Purpose): Option<Id> {
    match c
    case VerifyC(r, _, _) => if p == Codes.TwoFactor then ActiveCode(s.challenges, r.user, now) else None
    case ResetB(r, _, _) => if p == Codes.Reset then ActiveCode(s.resets, r.user, now) else None
    case ConfirmA(u, _) => if p == Codes.EmailChange then ActiveCode(s.changes, u, now) else None
    case _ => None
  }

  // It is compared, and does not match.
  ghost predicate Misses(s: Store, c: Call, now: int, p: Codes.Purpose, code: Id) {
    Chosen(s, c, now, p) == Some(code) && !Matches(s, c, now, p, code)
  }

  ghost predicate MissAt(w: World, a: Action, p: Codes.Purpose, code: Id) {
    a.Step? && a.n in w.calls && a.x.id !in w.ids && Misses(w.store, w.calls[a.n], a.x.now, p, code)
  }

  // The comparisons with the code that failed.
  ghost function MissesIn(actions: seq<Action>, p: Codes.Purpose, code: Id): nat {
    if actions == [] then 0
    else
      var m := |actions| - 1;
      MissesIn(actions[..m], p, code) + if MissAt(Run(actions[..m]), actions[m], p, code) then 1 else 0
  }

  function FailTx(p: Codes.Purpose, code: Id): Tx {
    match p
    case TwoFactor => FailChallenge(code)
    case Reset => FailReset(code)
    case EmailChange => FailChange(code)
  }

  function Wrong(p: Codes.Purpose): Call {
    match p
    case TwoFactor => Stop(ErrInvalidTwoFactorCode)
    case Reset => Stop(ErrInvalidResetCode)
    case EmailChange => Stop(ErrInvalidEmailCode)
  }

  // A miss, and only a miss, leads to the counting statement.
  lemma {:induction false} MissIff(s: Store, c: Call, x: Draw, seen: nat, p: Codes.Purpose, code: Id)
    requires !c.Ready? && !c.Granted?
    ensures AccountCodes.Failing(Next(s, c, x, seen), p, code) <==> Misses(s, c, x.now, p, code)
    ensures Misses(s, c, x.now, p, code) ==> Next(s, c, x, seen) == Ready(FailTx(p, code), Wrong(p))
  {
    if c.FactorB? {
      var finish := Ready(SetTwoFactor(c.user, c.enabled), Finished(Done));
      assert !AccountCodes.Failing(finish, p, code);
    }
  }

  lemma {:induction false} ReadCounts(w: World, n: nat, x: Draw, p: Codes.Purpose, code: Id)
    requires n in w.calls && x.id !in w.ids && !w.calls[n].Ready? && !w.calls[n].Granted?
    ensures AccountCodes.WrongGuesses(Do(w, Step(n, x)), p, code)
            == AccountCodes.WrongGuesses(w, p, code) + if Misses(w.store, w.calls[n], x.now, p, code) then 1 else 0
  {
    AccountCodes.ReadMoves(w, n, x, p, code);
    AccountCodes.CallMoves(w, Do(w, Step(n, x)), n, Next(w.store, w.calls[n], x, |w.log|), p, code);
    MissIff(w.store, w.calls[n], x, |w.log|, p, code);
  }

  lemma {:induction false} WriteCounts(w: World, n: nat, x: Draw, p: Codes.Purpose, code: Id)
    requires n in w.calls && x.id !in w.ids && w.calls[n].Ready? && AccountCodes.Tame(w.calls[n])
    ensures AccountCodes.WrongGuesses(Do(w, Step(n, x)), p, code) == AccountCodes.WrongGuesses(w, p, code)
  {
    var w' := Do(w, Step(n, x));
    var tx := w.calls[n].tx;
    AccountCodes.CallMoves(w, w', n, w'.calls[n], p, code);
    AccountCodes.OneMore(w.log, Committed(tx, BumpOf(w.store, tx)), p, code);
  }

  lemma {:induction false} SignCounts(w: World, n: nat, x: Draw, p: Codes.Purpose, code: Id)
    requires n in w.calls && x.id !in w.ids && w.calls[n].Granted?
    ensures AccountCodes.WrongGuesses(Do(w, Step(n, x)), p, code) == AccountCodes.WrongGuesses(w, p, code)
  {
    var w' := Do(w, Step(n, x));
    var c := w.calls[n];
    AccountCodes.CallMoves(w, w', n, w'.calls[n], p, code);
    AccountCodes.OneMore(w.log, Issued(c.r, c.d, c.dev, x.now), p, code);
  }

  lemma {:induction false} OthersCount(w: World, a: Action, p: Codes.Purpose, code: Id)
    requires !a.Step?
    ensures AccountCodes.WrongGuesses(Do(w, a), p, code) == AccountCodes.WrongGuesses(w, p, code)
  {
    assert AccountCodes.AllFailing(Do(w, a), p, code) == AccountCodes.AllFailing(w, p, code);
    if a.Elsewhere? { AccountCodes.OneMore(w.log, Committed(a.tx, BumpOf(w.store, a.tx)), p, code); }
  }

  lemma {:induction false} ActionCounts(w: World, a: Action, p: Codes.Purpose, code: Id)
    requires AccountCodes.AllTame(w)
    ensures AccountCodes.WrongGuesses(Do(w, a), p, code)
            == AccountCodes.WrongGuesses(w, p, code) + if MissAt(w, a, p, code) then 1 else 0
  {
    if !a.Step? {
      OthersCount(w, a, p, code);
    } else if a.n in w.calls && a.x.id !in w.ids {
      if w.calls[a.n].Ready? {
        WriteCounts(w, a.n, a.x, p, code);
      } else if w.calls[a.n].Granted? {
        SignCounts(w, a.n, a.x, p, code);
      } else {
        ReadCounts(w, a.n, a.x, p, code);
      }
    }
  }

  // The wrong guesses of a code, counted and still to be counted, are the
  // comparisons with it that failed.
  lemma {:induction false} GuessesAreMisses(actions: seq<Action>, p: Codes.Purpose, code: Id)
    ensures AccountCodes.WrongGuesses(Run(actions), p, code) == MissesIn(actions, p, code)
  {
    if actions == [] {
      assert AccountCodes.AllFailing(EMPTY, p, code) == {};
    } else {
      var m := |actions| - 1;
      GuessesAreMisses(actions[..m], p, code);
      var k := AccountCodes.SomeBound(actions[..m], p, code);
      ActionCounts(Run(actions[..m]), actions[m], p, code);
    }
  }

  // So with at most k verifications of a code in flight, at most 5 + (k - 1) fail.
  lemma {:induction false} MissBound(actions: seq<Action>, p: Codes.Purpose, code: Id, k: nat)
    requires AccountCodes.AtMostInFlight(actions, p, code, k) && k > 0
    ensures MissesIn(actions, p, code) <= Codes.MAX_ATTEMPTS + (k - 1)
  {
    GuessesAreMisses(actions, p, code);
    AccountCodes.GuessBoundInHistories(actions, p, code, k);
  }

  // A request whose digits missed has the counting statement left to make, and is
  // refused for them; nothing else ever comes of it.
  lemma {:induction false} MissIsRefused(
    actions: seq<Action>, j: nat, n: nat, c: Call, p: Codes.Purpose, code: Id)
    requires j < |actions| && Steps(actions, j, n, c) && Misses(Run(actions[..j]).store, c, actions[j].x.now, p, code)
    ensures n in Run(actions).calls && Run(actions).calls[n] in {Ready(FailTx(p, code), Wrong(p)), Wrong(p)}
    decreases |actions|
  {
    var m := |actions| - 1;
    var before := Run(actions[..m]);
    if j == m {
      MissNow(before, actions[m], c, p, code);
    } else {
      InPrefix(actions, m, j);
      MissIsRefused(actions[..m], j, n, c, p, code);
      StaysWrong(before, actions[m], n, p, code);
    }
  }

  lemma {:induction false} MissNow(w: World, a: Action, c: Call, p: Codes.Purpose, code: Id)
    requires a.Step? && a.n in w.calls && w.calls[a.n] == c && a.x.id !in w.ids
    requires Misses(w.store, c, a.x.now, p, code)
    ensures a.n in Do(w, a).calls && Do(w, a).calls[a.n] == Ready(FailTx(p, code), Wrong(p))
  {
    MissIff(w.store, c, a.x, |w.log|, p, code);
  }

  lemma {:induction false} StaysWrong(w: World, a: Action, n: nat, p: Codes.Purpose, code: Id)
    requires n in w.calls && w.calls[n] in {Ready(FailTx(p, code), Wrong(p)), Wrong(p)}
    ensures n in Do(w, a).calls && Do(w, a).calls[n] in {Ready(FailTx(p, code), Wrong(p)), Wrong(p)}
  {
  }

  // ------------------------------------------------------------ digits decide

  lemma {:induction false} UuidStays(actions: seq<Action>, i: nat, u: Id)
    requires i <= |actions| && u in Run(actions[..i]).store.users
    ensures u in Run(actions).store.users
    ensures Run(actions).store.users[u].uuid == Run(actions[..i]).store.users[u].uuid
    decreases |actions|
  {
    var m := |actions| - 1;
    if i == |actions| {
      assert actions[..i] == actions;
    } else {
      InPrefix(actions, m, i);
      UuidStays(actions[..m], i, u);
      UserStays(Run(actions[..m]), actions[m], u);
    }
  }

  lemma {:induction false} UserStays(w: World, a: Action, u: Id)
    requires u in w.store.users
    ensures u in Do(w, a).store.users && Do(w, a).store.users[u].uuid == w.store.users[u].uuid
  {
    var tx := if a.Elsewhere? then Some(a.tx)
              else if a.Step? && a.n in w.calls && w.calls[a.n].Ready? then Some(w.calls[a.n].tx) else None;
    if tx.Some? { RowStays(w.store, tx.value, u); }
  }

  lemma {:induction false} RowStays(s: Store, tx: Tx, u: Id)
    requires u in s.users
    ensures u in Apply(s, tx).0.users && Apply(s, tx).0.users[u].uuid == s.users[u].uuid
  {
  }

  // Every pending change has its address.
  lemma {:induction false} TargetsThere(actions: seq<Action>)
    ensures Run(actions).store.changes.Keys <= Run(actions).store.targets.Keys
  {
    if actions != [] {
      var m := |actions| - 1;
      var w, a := Run(actions[..m]), actions[m];
      TargetsThere(actions[..m]);
      var tx := if a.Elsewhere? then Some(a.tx)
                else if a.Step? && a.n in w.calls && w.calls[a.n].Ready? then Some(w.calls[a.n].tx) else None;
      if tx.Some? { TargetsStay(w.store, tx.value); }
    }
  }

  lemma {:induction false} TargetsStay(s: Store, tx: Tx)
    requires s.changes.Keys <= s.targets.Keys
    ensures Apply(s, tx).0.changes.Keys <= Apply(s, tx).0.targets.Keys
  {
  }

  // The account's uuid is the one hashed into every code drawn for it.
  lemma {:induction false} DrawnHash(
    actions: seq<Action>, j: nat, h: nat, p: Codes.Purpose, code: Id, row: Codes.Row, digits: string)
    requires h < j <= |actions| && Drew(actions, h, p, code, row, digits)
    ensures row.user in Run(actions[..j]).store.users
    ensures row.hash == Codes.HashCode(p, Run(actions[..j]).store.users[row.user].uuid, digits)
  {
    if p == Codes.TwoFactor {
      var m: nat, r: Read, dev: Device :| Steps(actions, h, m, SignInC(r, row.device, dev)) && r.user == row.user
        && r.row.twoFactor && !dev.trusted && !dev.revoked
        && row.hash == Codes.HashCode(Codes.TwoFactor, r.row.uuid, digits) && ByPassword(actions, h, m, r);
      var i: nat, c0: Call :| i < h && Steps(actions, i, m, c0) && c0.SignInA?
        && Opens(Run(actions[..i]).store, c0, Some(r), |Run(actions[..i]).log|);
      InPrefix(actions, j, i);
      UuidStays(actions[..j], i, row.user);
    } else {
      InPrefix(actions, j, h);
      UuidStays(actions[..j], h, row.user);
    }
  }

  lemma {:induction false} ReadersUuid(actions: seq<Action>, j: nat, n: nat, c: Call)
    requires j < |actions| && Steps(actions, j, n, c) && (c.VerifyC? || c.ResetB?)
    ensures c.r.user in Run(actions[..j]).store.users
    ensures c.r.row.uuid == Run(actions[..j]).store.users[c.r.user].uuid
  {
    var b, c0, i, r := OpenedBefore(actions, j, n, c);
    InPrefix(actions, j, i);
    UuidStays(actions[..j], i, c.r.user);
  }

  // A comparison succeeds exactly when the digits typed are the ones drawn for the
  // code and, at sign-in, the device is the one it was drawn for.
  lemma {:induction false} DigitsDecide(actions: seq<Action>, j: nat, n: nat, c: Call, p: Codes.Purpose, code: Id)
    returns (h: nat)
    requires j < |actions| && Steps(actions, j, n, c)
    requires Chosen(Run(actions[..j]).store, c, actions[j].x.now, p) == Some(code)
    ensures h < j && actions[h].Step?
    ensures var row := AccountCodes.TableOf(Run(actions[..j]).store, p)[code];
            && Drew(actions, h, p, code, row, actions[h].x.digits)
            && (Matches(Run(actions[..j]).store, c, actions[j].x.now, p, code)
                <==> c.digits == actions[h].x.digits && (c.VerifyC? ==> row.device == c.d))
  {
    var row := AccountCodes.TableOf(Run(actions[..j]).store, p)[code];
    h := CodeIsDrawn(actions[..j], p, code);
    InPrefix(actions, j, h);
    DrewInPrefix(actions, j, h, p, code, row, actions[h].x.digits);
    DrawnHash(actions, j, h, p, code, row, actions[h].x.digits);
    TargetsThere(actions[..j]);
    if c.VerifyC? || c.ResetB? { ReadersUuid(actions, j, n, c); }
    var uuid := Run(actions[..j]).store.users[row.user].uuid;
    if row.hash == Codes.HashCode(p, uuid, c.digits) {
      Codes.HashesSeparate(p, uuid, c.digits, p, uuid, actions[h].x.digits);
    }
  }
}
