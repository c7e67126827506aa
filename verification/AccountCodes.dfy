/**
  The bound on guesses, and redeeming once, in the histories of an installation:
  the verifications of Accounts, for sign-in, reset and address-change codes alike.
 */
module AccountCodes {
  import opened Accounts
  import opened Codes

  type World = Accounts.World
  type Act = Accounts.Action
  type Happening = Accounts.Event

  function TableOf(s: Store, p: Purpose): Table {
    match p
    case Reset => s.resets
    case TwoFactor => s.challenges
    case EmailChange => s.changes
  }

  // The code a transaction counts a wrong guess on, spends, or issues.
  function Fails(tx: Tx, p: Purpose): Option<Id> {
    match tx
    case FailReset(c) => if p == Reset then Some(c) else None
    case FailChallenge(c) => if p == TwoFactor then Some(c) else None
    case FailChange(c) => if p == EmailChange then Some(c) else None
    case _ => None
  }

  function Spends(tx: Tx, p: Purpose): Option<Id> {
    match tx
    case ConsumeReset(c, _, _, _) => if p == Reset then Some(c) else None
    case ConsumeChallenge(c, _) => if p == TwoFactor then Some(c) else None
    case ConsumeChange(c, _, _, _) => if p == EmailChange then Some(c) else None
    case _ => None
  }

  function Issues(tx: Tx, p: Purpose): Option<Id> {
    match tx
    case ReplaceReset(c, _, _, _) => if p == Reset then Some(c) else None
    case ReplaceChallenge(c, _, _, _, _) => if p == TwoFactor then Some(c) else None
    case ReplaceChange(c, _, _, _, _) => if p == EmailChange then Some(c) else None
    case _ => None
  }

  // Verifications that compared wrong, or right, and still have to write.
  predicate Failing(c: Call, p: Purpose, code: Id) { c.Ready? && Fails(c.tx, p) == Some(code) }
  predicate Spending(c: Call, p: Purpose, code: Id) { c.Ready? && Spends(c.tx, p) == Some(code) }

  function AllFailing(w: World, p: Purpose, code: Id): set<nat> { set n | n in w.calls && Failing(w.calls[n], p, code) }
  function AllSpending(w: World, p: Purpose, code: Id): set<nat> {
    set n | n in w.calls && Spending(w.calls[n], p, code)
  }

  function InFlight(w: World, p: Purpose, code: Id): set<nat> { AllFailing(w, p, code) + AllSpending(w, p, code) }

  // Committed counts, and committed redemptions.
  function Counts(log: seq<Happening>, p: Purpose, code: Id): nat {
    if log == [] then 0
    else
      var e := log[|log| - 1];
      Counts(log[..|log| - 1], p, code) + if e.Committed? && Fails(e.tx, p) == Some(code) then 1 else 0
  }

  function Redemptions(log: seq<Happening>, p: Purpose, code: Id): nat {
    if log == [] then 0
    else
      var e := log[|log| - 1];
      Redemptions(log[..|log| - 1], p, code) + if e.Committed? && Spends(e.tx, p) == Some(code) then 1 else 0
  }

  lemma {:induction false} OneMore(log: seq<Happening>, e: Happening, p: Purpose, code: Id)
    ensures Counts(log + [e], p, code)
            == Counts(log, p, code) + if e.Committed? && Fails(e.tx, p) == Some(code) then 1 else 0
    ensures Redemptions(log + [e], p, code)
            == Redemptions(log, p, code) + if e.Committed? && Spends(e.tx, p) == Some(code) then 1 else 0
  {
    assert (log + [e])[..|log|] == log;
  }

  // The wrong guesses ever compared with a code.
  function WrongGuesses(w: World, p: Purpose, code: Id): nat { Counts(w.log, p, code) + |AllFailing(w, p, code)| }

  // -------------------------------------------------- what transactions do to a code

  // The table after a transaction.
  ghost predicate CodeAfter(t: Table, t': Table, tx: Tx, p: Purpose) {
    if Fails(tx, p).Some? then t' == Fail(t, Fails(tx, p).value)
    else if Issues(tx, p).Some? then
      && Issues(tx, p).value !in t
      && exists row: Row :: !row.spent && row.attempts == 0 && t' == Replace(t, Issues(tx, p).value, row)
    else if Spends(tx, p).Some? then
      && Spends(tx, p).value in t && t'.Keys == t.Keys && t'[Spends(tx, p).value].spent
      && forall c :: c in t && c != Spends(tx, p).value ==> t'[c] == t[c]
    else t' == t
  }

  lemma {:induction false} ApplyToCode(s: Store, tx: Tx, p: Purpose)
    requires Apply(s, tx).1.None?
    ensures CodeAfter(TableOf(s, p), TableOf(Apply(s, tx).0, p), tx, p)
  {
    if Issues(tx, p).Some? {
      IssueToCode(s, tx, p);
    } else if Spends(tx, p).Some? {
      SpendToCode(s, tx, p);
    } else if Fails(tx, p).None? {
      NothingToCode(s, tx, p);
    }
  }

  lemma {:induction false} IssueToCode(s: Store, tx: Tx, p: Purpose)
    requires Apply(s, tx).1.None? && Issues(tx, p).Some?
    ensures CodeAfter(TableOf(s, p), TableOf(Apply(s, tx).0, p), tx, p)
  {
    match tx
    case ReplaceReset(c, u, hash, expires) =>
      assert Apply(s, tx).0.resets == Replace(s.resets, c, Row(u, NIL, hash, expires, 0, false));
    case ReplaceChallenge(c, u, d, hash, expires) =>
      assert Apply(s, tx).0.challenges == Replace(s.challenges, c, Row(u, d, hash, expires, 0, false));
    case ReplaceChange(c, u, hash, expires, _) =>
      assert Apply(s, tx).0.changes == Replace(s.changes, c, Row(u, NIL, hash, expires, 0, false));
  }

  lemma {:induction false} SpendToCode(s: Store, tx: Tx, p: Purpose)
    requires Apply(s, tx).1.None? && Spends(tx, p).Some?
    ensures CodeAfter(TableOf(s, p), TableOf(Apply(s, tx).0, p), tx, p)
  {
  }

  lemma {:induction false} NothingToCode(s: Store, tx: Tx, p: Purpose)
    requires Apply(s, tx).1.None? && Issues(tx, p).None? && Spends(tx, p).None? && Fails(tx, p).None?
    ensures TableOf(Apply(s, tx).0, p) == TableOf(s, p)
  {
  }

  // A request only ever writes to an open code, or issues one under the id it drew.
  lemma {:induction false} NextOnCode(s: Store, c: Call, x: Draw, seen: nat, p: Purpose)
    requires !c.Ready?
    ensures var c' := Next(s, c, x, seen);
            && (c'.Ready? && Fails(c'.tx, p).Some? ==> Open(TableOf(s, p), Fails(c'.tx, p).value))
            && (c'.Ready? && Spends(c'.tx, p).Some? ==> Open(TableOf(s, p), Spends(c'.tx, p).value))
            && (c'.Ready? && Issues(c'.tx, p).Some? ==> Issues(c'.tx, p).value == x.id)
            && (c'.Ready? && c'.next.Ready? ==> c'.next.tx.SetTwoFactor? && !c'.next.next.Ready?)
  {
  }

  // ------------------------------------------------------ what a history keeps

  // Nothing has happened to the code yet.
  ghost predicate Blank(w: World, p: Purpose, code: Id) {
    && code !in TableOf(w.store, p) && Counts(w.log, p, code) == 0 && Redemptions(w.log, p, code) == 0
    && AllFailing(w, p, code) == {} && AllSpending(w, p, code) == {}
  }

  predicate Issuing(c: Call, p: Purpose, code: Id) { c.Ready? && Issues(c.tx, p) == Some(code) }

  // A code is issued once.
  ghost predicate IssuedOnce(w: World, p: Purpose, code: Id) {
    && (code !in w.ids ==> Blank(w, p, code) && forall n :: n in w.calls ==> !Issuing(w.calls[n], p, code))
    && (forall n :: n in w.calls && Issuing(w.calls[n], p, code) ==> Blank(w, p, code))
    && (forall n, m | n in w.calls && m in w.calls && Issuing(w.calls[n], p, code)
        && Issuing(w.calls[m], p, code) :: n == m)
  }

  // While it is open its count is the wrong guesses written; then their number
  // and those still to be written stay within the bound.
  ghost predicate Guessed(w: World, p: Purpose, code: Id, k: nat) {
    var t := TableOf(w.store, p);
    && (Open(t, code) ==>
          && Counts(w.log, p, code) == t[code].attempts && t[code].attempts < MAX_ATTEMPTS
          && Redemptions(w.log, p, code) == 0)
    && (!Open(t, code) ==> WrongGuesses(w, p, code) <= MAX_ATTEMPTS - 1 + k)
    && (k <= 1 ==> Redemptions(w.log, p, code) + |AllSpending(w, p, code)| <= 1)
  }

  ghost predicate Tame(c: Call) { c.Ready? && c.next.Ready? ==> c.next.tx.SetTwoFactor? && !c.next.next.Ready? }

  ghost predicate AllTame(w: World) { forall n :: n in w.calls ==> Tame(w.calls[n]) }

  ghost predicate Right(w: World, p: Purpose, code: Id, k: nat) {
    IssuedOnce(w, p, code) && Guessed(w, p, code, k) && AllTame(w)
  }

  lemma {:induction false} SetSizes(w: World, p: Purpose, code: Id)
    ensures |InFlight(w, p, code)| == |AllFailing(w, p, code)| + |AllSpending(w, p, code)|
  {
    assert AllFailing(w, p, code) !! AllSpending(w, p, code);
  }

  // One call moves from c to d.
  lemma {:induction false} CallMoves(w: World, w': World, n: nat, d: Call, p: Purpose, code: Id)
    requires n in w.calls && w'.calls == w.calls[n := d]
    ensures |AllFailing(w', p, code)| == |AllFailing(w, p, code)|
              - (if Failing(w.calls[n], p, code) then 1 else 0) + (if Failing(d, p, code) then 1 else 0)
    ensures |AllSpending(w', p, code)| == |AllSpending(w, p, code)|
              - (if Spending(w.calls[n], p, code) then 1 else 0) + (if Spending(d, p, code) then 1 else 0)
    ensures AllFailing(w, p, code) == {} ==> !Failing(w.calls[n], p, code)
    ensures AllSpending(w, p, code) == {} ==> !Spending(w.calls[n], p, code)
    ensures AllFailing(w, p, code) == {} && !Failing(d, p, code) ==> AllFailing(w', p, code) == {}
    ensures AllSpending(w, p, code) == {} && !Spending(d, p, code) ==> AllSpending(w', p, code) == {}
  {
    assert Failing(w.calls[n], p, code) ==> n in AllFailing(w, p, code);
    assert Spending(w.calls[n], p, code) ==> n in AllSpending(w, p, code);
    DifferIn(AllFailing(w, p, code), AllFailing(w', p, code), n);
    DifferIn(AllSpending(w, p, code), AllSpending(w', p, code), n);
  }

  // A read: the table stays, and a request that goes on to write does so to an open code.
  lemma {:induction false} ReadMoves(w: World, n: nat, x: Draw, p: Purpose, code: Id)
    requires n in w.calls && x.id !in w.ids && !w.calls[n].Ready? && !w.calls[n].Granted?
    ensures var w' := Accounts.Do(w, Accounts.Step(n, x)); var c' := Next(w.store, w.calls[n], x, |w.log|);
            && w'.store == w.store && w'.calls == w.calls[n := c'] && w'.ids == w.ids + {x.id}
            && Counts(w'.log, p, code) == Counts(w.log, p, code)
                && Redemptions(w'.log, p, code) == Redemptions(w.log, p, code)
  {
    LogQuiet(w.log, Accounts.Do(w, Accounts.Step(n, x)).log, p, code, Next(w.store, w.calls[n], x, |w.log|));
  }

  lemma {:induction false} ReadGuessed(w: World, w': World, n: nat, c': Call, p: Purpose, code: Id, k: nat)
    requires Guessed(w, p, code, k) && n in w.calls && !w.calls[n].Ready?
    requires w'.store == w.store && w'.calls == w.calls[n := c'] && |InFlight(w', p, code)| <= k
    requires Counts(w'.log, p, code) == Counts(w.log, p, code)
        && Redemptions(w'.log, p, code) == Redemptions(w.log, p, code)
    requires Failing(c', p, code) || Spending(c', p, code) ==> Open(TableOf(w.store, p), code)
    ensures Guessed(w', p, code, k)
  {
    CallMoves(w, w', n, c', p, code);
    SetSizes(w', p, code);
  }

  lemma {:induction false} ReadIssued(w: World, w': World, n: nat, c': Call, id: Id, p: Purpose, code: Id)
    requires IssuedOnce(w, p, code) && n in w.calls && !w.calls[n].Ready? && id !in w.ids
    requires w'.store == w.store && w'.calls == w.calls[n := c'] && w'.ids == w.ids + {id}
    requires Counts(w'.log, p, code) == Counts(w.log, p, code)
        && Redemptions(w'.log, p, code) == Redemptions(w.log, p, code)
    requires Failing(c', p, code) || Spending(c', p, code) ==> Open(TableOf(w.store, p), code)
    requires Issuing(c', p, code) ==> code == id && !Failing(c', p, code) && !Spending(c', p, code)
    ensures IssuedOnce(w', p, code)
  {
    CallMoves(w, w', n, c', p, code);
  }

  lemma {:induction false} ReadRight(w: World, n: nat, x: Draw, p: Purpose, code: Id, k: nat)
    requires Right(w, p, code, k) && n in w.calls && x.id !in w.ids && !w.calls[n].Ready? && !w.calls[n].Granted?
    requires |InFlight(Accounts.Do(w, Accounts.Step(n, x)), p, code)| <= k
    ensures Right(Accounts.Do(w, Accounts.Step(n, x)), p, code, k)
  {
    var w' := Accounts.Do(w, Accounts.Step(n, x));
    var c' := Next(w.store, w.calls[n], x, |w.log|);
    NextOnCode(w.store, w.calls[n], x, |w.log|, p);
    ReadMoves(w, n, x, p, code);
    ReadGuessed(w, w', n, c', p, code, k);
    ReadIssued(w, w', n, c', x.id, p, code);
  }

  lemma {:induction false} LogQuiet(log: seq<Happening>, log': seq<Happening>, p: Purpose, code: Id, c: Call)
    requires log' == log + if ChecksPassword(c) then [Checked(Checks(c))] else []
    ensures Counts(log', p, code) == Counts(log, p, code) && Redemptions(log', p, code) == Redemptions(log, p, code)
  {
    if ChecksPassword(c) { OneMore(log, Checked(Checks(c)), p, code); } else { assert log' == log; }
  }

  // What a committed transaction does to the code's own numbers.
  lemma {:induction false} CommitOnCode(w: World, tx: Tx, p: Purpose, code: Id)
    requires Apply(w.store, tx).1.None?
    requires Open(TableOf(w.store, p), code) ==>
               Counts(w.log, p, code) == TableOf(w.store, p)[code].attempts
                   && TableOf(w.store, p)[code].attempts < MAX_ATTEMPTS
               && Redemptions(w.log, p, code) == 0
    requires Issues(tx, p) == Some(code) ==> Counts(w.log, p, code) == 0 && Redemptions(w.log, p, code) == 0
    ensures var w' := Commit(w, tx); var t' := TableOf(w'.store, p);
            && (Open(t', code) ==>
                  && Counts(w'.log, p, code) == t'[code].attempts && t'[code].attempts < MAX_ATTEMPTS
                  && Redemptions(w'.log, p, code) == 0)
            && Counts(w'.log, p, code) == Counts(w.log, p, code) + (if Fails(tx, p) == Some(code) then 1 else 0)
            && Redemptions(w'.log, p, code)
                == Redemptions(w.log, p, code) + (if Spends(tx, p) == Some(code) then 1 else 0)
            && (Open(t', code) ==> Open(TableOf(w.store, p), code) || Issues(tx, p) == Some(code))
            && (code in t' ==> code in TableOf(w.store, p) || Issues(tx, p) == Some(code))
  {
    ApplyToCode(w.store, tx, p);
    OneMore(w.log, Committed(tx, BumpOf(w.store, tx)), p, code);
  }

  // The world after a transaction, successful or not, by n or by nobody here.
  ghost predicate AfterTx(w: World, w': World, tx: Tx) {
    if Apply(w.store, tx).1.None? then w'.store == Commit(w, tx).store && w'.log == Commit(w, tx).log
    else w'.store == w.store && w'.log == w.log
  }

  lemma {:induction false} ReadyGuessed(w: World, w': World, n: nat, d: Call, p: Purpose, code: Id, k: nat)
    requires Guessed(w, p, code, k) && IssuedOnce(w, p, code) && n in w.calls && w.calls[n].Ready?
        && |InFlight(w, p, code)| <= k
    requires AfterTx(w, w', w.calls[n].tx) && w'.calls == w.calls[n := d]
    requires !Failing(d, p, code) && !Spending(d, p, code)
    ensures Guessed(w', p, code, k)
  {
    var tx := w.calls[n].tx;
    CallMoves(w, w', n, d, p, code);
    SetSizes(w, p, code);
    assert Issues(tx, p) == Some(code) ==> Issuing(w.calls[n], p, code);
    if Apply(w.store, tx).1.None? { CommitOnCode(w, tx, p, code); }
  }

  lemma {:induction false} ReadyIssued(w: World, w': World, n: nat, d: Call, p: Purpose, code: Id)
    requires IssuedOnce(w, p, code) && n in w.calls && w.calls[n].Ready?
    requires AfterTx(w, w', w.calls[n].tx) && w'.calls == w.calls[n := d] && w'.ids == w.ids
    requires Open(TableOf(w.store, p), code) ==>
               Counts(w.log, p, code) == TableOf(w.store, p)[code].attempts
                   && TableOf(w.store, p)[code].attempts < MAX_ATTEMPTS
               && Redemptions(w.log, p, code) == 0
    requires !Failing(d, p, code) && !Spending(d, p, code) && !Issuing(d, p, code)
    ensures IssuedOnce(w', p, code)
  {
    var tx := w.calls[n].tx;
    CallMoves(w, w', n, d, p, code);
    if Apply(w.store, tx).1.None? {
      assert Issues(tx, p) == Some(code) ==> Issuing(w.calls[n], p, code);
      CommitOnCode(w, tx, p, code);
    }
  }

  lemma {:induction false} ReadyRight(w: World, n: nat, x: Draw, p: Purpose, code: Id, k: nat)
    requires Right(w, p, code, k) && n in w.calls && x.id !in w.ids && w.calls[n].Ready?
    requires |InFlight(w, p, code)| <= k
    ensures Right(Accounts.Do(w, Accounts.Step(n, x)), p, code, k)
  {
    var w' := Accounts.Do(w, Accounts.Step(n, x));
    assert Tame(w.calls[n]);
    ReadyGuessed(w, w', n, w'.calls[n], p, code, k);
    ReadyIssued(w, w', n, w'.calls[n], p, code);
  }

  lemma {:induction false} ElsewhereRight(w: World, tx: Tx, p: Purpose, code: Id, k: nat)
    requires Right(w, p, code, k) && |InFlight(w, p, code)| <= k && IsElsewhere(tx) && NewIds(tx) !! w.ids
    ensures Right(Accounts.Do(w, Accounts.Elsewhere(tx)), p, code, k)
  {
    var w' := Accounts.Do(w, Accounts.Elsewhere(tx));
    assert Issues(tx, p) == Some(code) ==> code in NewIds(tx);
    assert Fails(tx, p) == None && Spends(tx, p) == None;
    SameCalls(w, w', p, code);
    ElsewhereGuessed(w, w', tx, p, code, k);
    ElsewhereIssued(w, w', tx, p, code, k);
  }

  lemma {:induction false} SameCalls(w: World, w': World, p: Purpose, code: Id)
    requires w'.calls == w.calls
    ensures AllFailing(w', p, code) == AllFailing(w, p, code) && AllSpending(w', p, code) == AllSpending(w, p, code)
  {
  }

  lemma {:induction false} ElsewhereGuessed(w: World, w': World, tx: Tx, p: Purpose, code: Id, k: nat)
    requires Guessed(w, p, code, k) && IssuedOnce(w, p, code) && |InFlight(w, p, code)| <= k
    requires Fails(tx, p) == None && Spends(tx, p) == None && (Issues(tx, p) == Some(code) ==> code !in w.ids)
    requires AfterTx(w, w', tx) && w'.calls == w.calls
    ensures Guessed(w', p, code, k)
  {
    SameCalls(w, w', p, code);
    SetSizes(w, p, code);
    if Apply(w.store, tx).1.None? { CommitOnCode(w, tx, p, code); }
  }

  lemma {:induction false} ElsewhereIssued(w: World, w': World, tx: Tx, p: Purpose, code: Id, k: nat)
    requires Guessed(w, p, code, k) && IssuedOnce(w, p, code)
    requires Fails(tx, p) == None && Spends(tx, p) == None
    requires AfterTx(w, w', tx) && w'.calls == w.calls && w.ids <= w'.ids
    requires Issues(tx, p) == Some(code) ==> code !in w.ids && code in w'.ids
    ensures IssuedOnce(w', p, code)
  {
    SameCalls(w, w', p, code);
    if Apply(w.store, tx).1.None? { CommitOnCode(w, tx, p, code); }
  }

  // Nothing about the code has changed.
  lemma {:induction false} SameNumbers(w: World, w': World, p: Purpose, code: Id, k: nat)
    requires Guessed(w, p, code, k) && IssuedOnce(w, p, code) && w'.store == w.store && w'.ids == w.ids
    requires AllFailing(w', p, code) == AllFailing(w, p, code) && AllSpending(w', p, code) == AllSpending(w, p, code)
    requires Counts(w'.log, p, code) == Counts(w.log, p, code)
    requires Redemptions(w'.log, p, code) == Redemptions(w.log, p, code)
    requires forall n :: n in w'.calls && Issuing(w'.calls[n], p, code) ==> n in w.calls && w.calls[n] == w'.calls[n]
    ensures Guessed(w', p, code, k) && IssuedOnce(w', p, code)
  {
  }

  lemma {:induction false} SignRight(w: World, n: nat, x: Draw, p: Purpose, code: Id, k: nat)
    requires Right(w, p, code, k) && n in w.calls && x.id !in w.ids && w.calls[n].Granted?
    ensures Right(Accounts.Do(w, Accounts.Step(n, x)), p, code, k)
  {
    var w' := Accounts.Do(w, Accounts.Step(n, x));
    var c := w.calls[n];
    OneMore(w.log, Issued(c.r, c.d, c.dev, x.now), p, code);
    assert AllFailing(w', p, code) == AllFailing(w, p, code) && AllSpending(w', p, code) == AllSpending(w, p, code);
    SameNumbers(w, w', p, code, k);
  }

  lemma {:induction false} BeginRight(w: World, n: nat, call: Call, p: Purpose, code: Id, k: nat)
    requires Right(w, p, code, k) && n !in w.calls && Accounts.Arrives(call)
    ensures Right(w.(calls := w.calls[n := call]), p, code, k)
  {
    var w' := w.(calls := w.calls[n := call]);
    assert AllFailing(w', p, code) == AllFailing(w, p, code) && AllSpending(w', p, code) == AllSpending(w, p, code);
    SameNumbers(w, w', p, code, k);
  }

  lemma {:induction false} DoRight(w: World, a: Act, p: Purpose, code: Id, k: nat)
    requires Right(w, p, code, k) && |InFlight(w, p, code)| <= k && |InFlight(Accounts.Do(w, a), p, code)| <= k
    ensures Right(Accounts.Do(w, a), p, code, k)
  {
    match a
    case Begin(n, call) => if n !in w.calls && Accounts.Arrives(call) { BeginRight(w, n, call, p, code, k); }
    case Elsewhere(tx) => if IsElsewhere(tx) && NewIds(tx) !! w.ids { ElsewhereRight(w, tx, p, code, k); }
    case Step(n, x) =>
      if n in w.calls && x.id !in w.ids {
        if w.calls[n].Ready? {
          ReadyRight(w, n, x, p, code, k);
        } else if w.calls[n].Granted? {
          SignRight(w, n, x, p, code, k);
        } else {
          ReadRight(w, n, x, p, code, k);
        }
      }
  }

  // At most k verifications of the code are ever between their comparison and
  // their write.
  ghost predicate AtMostInFlight(actions: seq<Act>, p: Purpose, code: Id, k: nat) {
    forall i :: 0 <= i <= |actions| ==> |InFlight(Accounts.Run(actions[..i]), p, code)| <= k
  }

  lemma {:induction false} RunRight(actions: seq<Act>, p: Purpose, code: Id, k: nat)
    requires AtMostInFlight(actions, p, code, k)
    ensures Right(Accounts.Run(actions), p, code, k)
  {
    if actions != [] {
      var n := |actions| - 1;
      forall i | 0 <= i <= n ensures |InFlight(Accounts.Run(actions[..n][..i]), p, code)| <= k {
        assert actions[..n][..i] == actions[..i];
      }
      RunRight(actions[..n], p, code, k);
      assert actions[..|actions|] == actions;
      DoRight(Accounts.Run(actions[..n]), actions[n], p, code, k);
    } else {
      assert AllFailing(Accounts.EMPTY, p, code) == {} && AllSpending(Accounts.EMPTY, p, code) == {};
    }
  }

  // In every history, with at most k verifications of a code in flight, at most
  // 5 + (k - 1) wrong guesses are compared with it.
  lemma {:induction false} GuessBoundInHistories(actions: seq<Act>, p: Purpose, code: Id, k: nat)
    requires AtMostInFlight(actions, p, code, k) && k > 0
    ensures WrongGuesses(Accounts.Run(actions), p, code) <= MAX_ATTEMPTS + (k - 1)
  {
    RunRight(actions, p, code, k);
    SetSizes(Accounts.Run(actions), p, code);
    assert actions[..|actions|] == actions;
  }

  // And with at most one, it is redeemed at most once.
  lemma {:induction false} RedeemedOnceInHistories(actions: seq<Act>, p: Purpose, code: Id)
    requires AtMostInFlight(actions, p, code, 1)
    ensures Redemptions(Accounts.Run(actions).log, p, code) <= 1
  {
    RunRight(actions, p, code, 1);
  }

  // Nor is a wrong guess lost in any history: the count of a code that can still
  // be tried is the wrong guesses, less those whose write is still to come.
  lemma {:induction false} NoGuessLostInHistories(actions: seq<Act>, p: Purpose, code: Id)
    requires Open(TableOf(Accounts.Run(actions).store, p), code)
    ensures var w := Accounts.Run(actions);
            WrongGuesses(w, p, code) == TableOf(w.store, p)[code].attempts + |AllFailing(w, p, code)|
  {
    var k := SomeBound(actions, p, code);
  }

  // A bound of some size always holds.
  lemma {:induction false} SomeBound(actions: seq<Act>, p: Purpose, code: Id) returns (k: nat)
    ensures Right(Accounts.Run(actions), p, code, k)
  {
    if actions == [] {
      k := 0;
      assert AllFailing(Accounts.EMPTY, p, code) == {} && AllSpending(Accounts.EMPTY, p, code) == {};
    } else {
      var n := |actions| - 1;
      var before, now := Accounts.Run(actions[..n]), Accounts.Run(actions);
      var last := SomeBound(actions[..n], p, code);
      k := last + 2 + |InFlight(before, p, code)| + |InFlight(now, p, code)|;
      Looser(before, p, code, last, k);
      DoRight(before, actions[n], p, code, k);
    }
  }

  lemma {:induction false} Looser(w: World, p: Purpose, code: Id, k: nat, l: nat)
    requires Right(w, p, code, k) && k <= l && l > 1
    ensures Right(w, p, code, l)
  {
  }
}
