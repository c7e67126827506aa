/**
  Six-digit codes: password reset, second factor and address change share one
  table shape, one counting statement and one bound
  (internal/domain/user, internal/store/repositories/user*.go).

  A verification loads an active code, compares, and then makes one write: the
  counting statement or the spending one. Any number of them overlap.
 */
module Codes {
  type Id = nat

  const MAX_ATTEMPTS: nat := 5

  // ------------------------------------------------------------------ hashing

  datatype Purpose = Reset | TwoFactor | EmailChange

  function Prefix(p: Purpose): string {
    match p
    case Reset => "password-reset"
    case TwoFactor => "two-factor"
    case EmailChange => "email-change"
  }

  // HMAC-SHA256 under the server's pepper: equal values mean equal inputs.
  datatype CodeHash = Hmac(input: string)

  // An account's UUID as its sixteen bytes.
  type Uuid = s: string | |s| == 16 witness seq(16, i => '0')

  function HashCode(p: Purpose, account: Uuid, code: string): CodeHash { Hmac(Prefix(p) + account + code) }

  // A code works for one purpose and one account only, whatever is typed.
  lemma {:induction false} HashesSeparate(p: Purpose, a: Uuid, c: string, q: Purpose, b: Uuid, d: string)
    requires HashCode(p, a, c) == HashCode(q, b, d)
    ensures p == q && a == b && c == d
  {
    var x, y := Prefix(p) + a + c, Prefix(q) + b + d;
    assert x[0] == Prefix(p)[0] && y[0] == Prefix(q)[0];
    var n := |Prefix(p)|;
    assert x[n..n + 16] == a && y[n..n + 16] == b;
    assert x[n + 16..] == c && y[n + 16..] == d;
  }

  // -------------------------------------------------------------------- rows

  datatype Row = Row(user: Id, device: Id, hash: CodeHash, expires: int, attempts: nat, spent: bool)

  type Table = map<Id, Row>

  predicate Open(t: Table, c: Id) { c in t && !t[c].spent }

  predicate Active(t: Table, user: Id, now: int, c: Id) { Open(t, c) && t[c].user == user && t[c].expires > now }

  // One statement: count, and spend the code when the count reaches the cap.
  function Fail(t: Table, c: Id): Table {
    if !Open(t, c) then t
    else t[c := t[c].(attempts := t[c].attempts + 1, spent := t[c].attempts + 1 >= MAX_ATTEMPTS)]
  }

  // A new code; the account's unspent ones go first.
  function Replace(t: Table, c: Id, row: Row): Table {
    (map k | k in t && !(t[k].user == row.user && !t[k].spent) :: t[k])[c := row]
  }

  // ConsumeTwoFactorChallenge: zero rows means somebody spent it first.
  function SpendIfOpen(t: Table, c: Id): (Table, bool) {
    if Open(t, c) then (t[c := t[c].(spent := true)], true) else (t, false)
  }

  // ConsumePasswordReset and ConsumeEmailChange: by id alone, and the count goes
  // back to what it was when the row was loaded.
  function SpendAnyway(t: Table, c: Id, loaded: nat): (Table, bool) {
    if c in t then (t[c := t[c].(spent := true, attempts := loaded)], true) else (t, false)
  }

  // ----------------------------------------------------------- verifications

  datatype Verification =
    | Loaded(code: Id, row: Row, guess: CodeHash, device: Id)
    | Failing(code: Id)                  // compared wrong; the count is still to move
    | Passing(code: Id, loaded: nat)     // compared right; the code is still to be spent
    | Over(accepted: bool)

  datatype Event = Wrong(code: Id) | Redeemed(code: Id)

  datatype State = State(table: Table, going: map<nat, Verification>, ids: set<Id>, log: seq<Event>)

  datatype Action =
    | Issue(code: Id, user: Id, device: Id, hash: CodeHash, expires: int)
    | Load(n: nat, code: Id, user: Id, now: int, guess: CodeHash, device: Id)
    | Compare(n: nat)
    | Write(n: nat)

  // strict: whether this kind of code is spent only while it is open.
  function Do(strict: bool, s: State, a: Action): State {
    match a
    case Issue(c, user, device, hash, expires) =>
      if c in s.ids then s
      else s.(table := Replace(s.table, c, Row(user, device, hash, expires, 0, false)), ids := s.ids + {c})
    case Load(n, c, user, now, guess, device) =>
      if n in s.going || !Active(s.table, user, now, c) then s
      else s.(going := s.going[n := Loaded(c, s.table[c], guess, device)])
    case Compare(n) =>
      if n !in s.going || !s.going[n].Loaded? then s
      else
        var v := s.going[n];
        if v.row.hash == v.guess && v.row.device == v.device
        then s.(going := s.going[n := Passing(v.code, v.row.attempts)])
        else s.(going := s.going[n := Failing(v.code)], log := s.log + [Wrong(v.code)])
    case Write(n) =>
      if n !in s.going then s
      else match s.going[n]
        case Failing(c) => s.(table := Fail(s.table, c), going := s.going[n := Over(false)])
        case Passing(c, loaded) =>
          var (t, ok) := if strict then SpendIfOpen(s.table, c) else SpendAnyway(s.table, c, loaded);
          s.(table := t, going := s.going[n := Over(ok)], log := s.log + (if ok then [Redeemed(c)] else []))
        case _ => s
  }

  function Run(strict: bool, s: State, actions: seq<Action>): State {
    if actions == [] then s
    else Do(strict, Run(strict, s, actions[..|actions| - 1]), actions[|actions| - 1])
  }

  const EMPTY := State(map[], map[], {}, [])

  function Count(log: seq<Event>, e: Event): nat {
    if log == [] then 0
    else Count(log[..|log| - 1], e) + (if log[|log| - 1] == e then 1 else 0)
  }

  lemma {:induction false} CountOneMore(log: seq<Event>, e: Event, x: Event)
    ensures Count(log + [x], e) == Count(log, e) + if x == e then 1 else 0
  {
    assert (log + [x])[..|log|] == log;
  }

  function LoadedOn(g: map<nat, Verification>, c: Id): set<nat> { set n | n in g && g[n].Loaded? && g[n].code == c }
  function FailingOn(g: map<nat, Verification>, c: Id): set<nat> { set n | n in g && g[n] == Failing(c) }
  function InFlight(g: map<nat, Verification>, c: Id): set<nat> {
    set n | n in g && !g[n].Over? && g[n].code == c
  }

  lemma {:induction false} Counted(g: map<nat, Verification>, c: Id)
    ensures |LoadedOn(g, c)| + |FailingOn(g, c)| <= |InFlight(g, c)|
  {
    var l, f := LoadedOn(g, c), FailingOn(g, c);
    assert l !! f && l + f <= InFlight(g, c);
    Smaller(l + f, InFlight(g, c));
  }

  lemma {:induction false} Smaller(a: set<nat>, b: set<nat>)
    requires a <= b
    ensures |a| <= |b|
  {
    assert |b - a| == |b| - |a|;
  }

  // Two sets that differ in n only.
  lemma {:induction false} DifferIn(a: set<nat>, b: set<nat>, n: nat)
    requires forall m :: m != n ==> (m in a <==> m in b)
    ensures |b| == |a| - (if n in a then 1 else 0) + (if n in b then 1 else 0)
  {
    assert a - {n} == b - {n};
    assert |a - {n}| == |a| - if n in a then 1 else 0;
    assert |b - {n}| == |b| - if n in b then 1 else 0;
  }

  // One verification moves on.
  lemma {:induction false} Moved(g: map<nat, Verification>, n: nat, v: Verification, c: Id)
    ensures var g' := g[n := v];
            && |LoadedOn(g', c)| == |LoadedOn(g, c)| - (if n in LoadedOn(g, c) then 1 else 0)
                                    + (if v.Loaded? && v.code == c then 1 else 0)
            && |FailingOn(g', c)| == |FailingOn(g, c)| - (if n in FailingOn(g, c) then 1 else 0)
                                     + (if v == Failing(c) then 1 else 0)
  {
    var g' := g[n := v];
    DifferIn(LoadedOn(g, c), LoadedOn(g', c), n);
    DifferIn(FailingOn(g, c), FailingOn(g', c), n);
  }

  // While a code can still be guessed at, every wrong guess is in its count or
  // about to be; afterwards only the guesses already loaded can still be made.
  ghost predicate Accounted(s: State, c: Id, k: nat) {
    var wrong := Count(s.log, Wrong(c));
    && (Open(s.table, c) ==>
        wrong == s.table[c].attempts + |FailingOn(s.going, c)| && s.table[c].attempts < MAX_ATTEMPTS)
    && (!Open(s.table, c) ==> wrong + |LoadedOn(s.going, c)| <= MAX_ATTEMPTS - 1 + k)
    && (c !in s.ids ==> wrong == 0 && InFlight(s.going, c) == {} && c !in s.table)
  }

  lemma {:induction false} FailAccounted(strict: bool, s: State, n: nat, c: Id, k: nat)
    requires Accounted(s, c, k) && |InFlight(s.going, c)| <= k && n in s.going && s.going[n].Failing?
    ensures Accounted(Do(strict, s, Write(n)), c, k)
  {
    Counted(s.going, c);
    Moved(s.going, n, Over(false), c);
    assert c !in s.ids ==> n !in InFlight(s.going, c);
  }

  lemma {:induction false} PassAccounted(strict: bool, s: State, n: nat, c: Id, k: nat)
    requires Accounted(s, c, k) && |InFlight(s.going, c)| <= k && n in s.going && s.going[n].Passing?
    ensures Accounted(Do(strict, s, Write(n)), c, k)
  {
    var s' := Do(strict, s, Write(n));
    var v := s.going[n];
    assert c !in s.ids ==> n !in InFlight(s.going, c);
    PassMoves(strict, s, n, c);
    Counted(s.going, c);
    if v.code == c {
      PassingToo(s.going, n, c);
    } else {
      assert Open(s'.table, c) == Open(s.table, c);
    }
  }

  // Spending a code makes no guess, and ends its own verification only.
  lemma {:induction false} PassMoves(strict: bool, s: State, n: nat, c: Id)
    requires n in s.going && s.going[n].Passing?
    ensures var s' := Do(strict, s, Write(n));
            && Count(s'.log, Wrong(c)) == Count(s.log, Wrong(c))
            && |LoadedOn(s'.going, c)| == |LoadedOn(s.going, c)| && |FailingOn(s'.going, c)| == |FailingOn(s.going, c)|
            && InFlight(s'.going, c) <= InFlight(s.going, c) && s'.ids == s.ids && s'.table.Keys == s.table.Keys
  {
    var s' := Do(strict, s, Write(n));
    Moved(s.going, n, s'.going[n], c);
    CountOneMore(s.log, Wrong(c), Redeemed(s.going[n].code));
    assert s.log + [] == s.log;
  }

  lemma {:induction false} PassingToo(g: map<nat, Verification>, n: nat, c: Id)
    requires n in g && g[n].Passing? && g[n].code == c
    ensures |LoadedOn(g, c)| + |FailingOn(g, c)| + 1 <= |InFlight(g, c)|
  {
    var all := LoadedOn(g, c) + FailingOn(g, c) + {n};
    assert |all| == |LoadedOn(g, c)| + |FailingOn(g, c)| + 1;
    Smaller(all, InFlight(g, c));
  }

  lemma {:induction false} CompareAccounted(strict: bool, s: State, n: nat, c: Id, k: nat)
    requires Accounted(s, c, k) && |InFlight(s.going, c)| <= k && n in s.going && s.going[n].Loaded?
    ensures Accounted(Do(strict, s, Compare(n)), c, k)
  {
    var s' := Do(strict, s, Compare(n));
    Counted(s.going, c);
    Moved(s.going, n, s'.going[n], c);
    CountOneMore(s.log, Wrong(c), Wrong(s.going[n].code));
    StaysInFlight(strict, s, n, c);
  }

  // Comparing neither starts nor ends a verification, and leaves the table alone.
  lemma {:induction false} StaysInFlight(strict: bool, s: State, n: nat, c: Id)
    requires n in s.going && s.going[n].Loaded?
    ensures var s' := Do(strict, s, Compare(n));
            InFlight(s'.going, c) == InFlight(s.going, c) && s'.table == s.table && s'.ids == s.ids
  {
  }

  lemma {:induction false} DoAccounted(strict: bool, s: State, a: Action, c: Id, k: nat)
    requires Accounted(s, c, k) && |InFlight(s.going, c)| <= k
    ensures Accounted(Do(strict, s, a), c, k)
  {
    Counted(s.going, c);
    match a
    case Issue(_, _, _, _, _) => assert c !in s.ids ==> FailingOn(s.going, c) <= InFlight(s.going, c);
    case Load(n, x, user, now, guess, device) =>
      if n !in s.going && Active(s.table, user, now, x) {
        Moved(s.going, n, Loaded(x, s.table[x], guess, device), c);
      }
    case Compare(n) => if n in s.going && s.going[n].Loaded? { CompareAccounted(strict, s, n, c, k); }
    case Write(n) => 
      if n in s.going && s.going[n].Failing? {
        FailAccounted(strict, s, n, c, k);
      } else if n in s.going && s.going[n].Passing? {
        PassAccounted(strict, s, n, c, k);
      }
  }

  ghost predicate AtMost(strict: bool, actions: seq<Action>, c: Id, k: nat) {
    forall i :: 0 <= i <= |actions| ==> |InFlight(Run(strict, EMPTY, actions[..i]).going, c)| <= k
  }

  lemma {:induction false} RunAccounted(strict: bool, actions: seq<Action>, c: Id, k: nat)
    requires AtMost(strict, actions, c, k)
    ensures Accounted(Run(strict, EMPTY, actions), c, k)
  {
    if actions != [] {
      var n := |actions| - 1;
      forall i | 0 <= i <= n ensures actions[..n][..i] == actions[..i] {}
      assert AtMost(strict, actions[..n], c, k) by {
        forall i | 0 <= i <= |actions[..n]| ensures |InFlight(Run(strict, EMPTY, actions[..n][..i]).going, c)| <= k {
          assert actions[..n][..i] == actions[..i];
        }
      }
      RunAccounted(strict, actions[..n], c, k);
      assert |InFlight(Run(strict, EMPTY, actions[..n]).going, c)| <= k;
      DoAccounted(strict, Run(strict, EMPTY, actions[..n]), actions[n], c, k);
    } else {
      assert InFlight(EMPTY.going, c) == {} && LoadedOn(EMPTY.going, c) == {};
    }
  }

  // With at most k verifications of a code in flight, at most 5 + (k - 1) wrong
  // guesses are ever compared with it: five, when they come one at a time.
  lemma {:induction false} GuessBound(strict: bool, actions: seq<Action>, c: Id, k: nat)
    requires AtMost(strict, actions, c, k) && k > 0
    ensures Count(Run(strict, EMPTY, actions).log, Wrong(c)) <= MAX_ATTEMPTS + (k - 1)
  {
    RunAccounted(strict, actions, c, k);
    Counted(Run(strict, EMPTY, actions).going, c);
    assert actions[..|actions|] == actions;
  }

  // No wrong guess is lost: the count of a code that can still be tried is the
  // number of wrong guesses, less those whose write is still to come.
  lemma {:induction false} NoGuessLost(strict: bool, actions: seq<Action>, c: Id)
    requires var s := Run(strict, EMPTY, actions); Open(s.table, c)
    ensures var s := Run(strict, EMPTY, actions);
            Count(s.log, Wrong(c)) == s.table[c].attempts + |FailingOn(s.going, c)|
  {
    var k := Peak(strict, actions, c);
    RunAccounted(strict, actions, c, k);
  }

  // Some bound always exists.
  lemma {:induction false} Peak(strict: bool, actions: seq<Action>, c: Id) returns (k: nat)
    ensures AtMost(strict, actions, c, k)
  {
    if actions == [] {
      k := 0;
      assert InFlight(EMPTY.going, c) == {};
    } else {
      var n := |actions| - 1;
      var before := Peak(strict, actions[..n], c);
      var last := |InFlight(Run(strict, EMPTY, actions).going, c)|;
      k := if last > before then last else before;
      forall i | 0 <= i <= |actions| ensures |InFlight(Run(strict, EMPTY, actions[..i]).going, c)| <= k {
        if i <= n {
          assert actions[..n][..i] == actions[..i];
        } else {
          assert actions[..i] == actions;
        }
      }
    }
  }

  // ------------------------------------------------------------- redemptions

  ghost predicate RedeemedOnce(s: State, c: Id) {
    && Count(s.log, Redeemed(c)) <= 1
    && (Open(s.table, c) || c !in s.ids ==> Count(s.log, Redeemed(c)) == 0)
    && (forall k :: k in s.table ==> k in s.ids)
  }

  // A sign-in code lets in one verification, however many compare it at once.
  lemma {:induction false} TwoFactorRedeemedOnce(actions: seq<Action>, c: Id)
    ensures RedeemedOnce(Run(true, EMPTY, actions), c)
  {
    if actions != [] {
      var n := |actions| - 1;
      TwoFactorRedeemedOnce(actions[..n], c);
      DoRedeemsOnce(Run(true, EMPTY, actions[..n]), actions[n], c);
    }
  }

  lemma {:induction false} DoRedeemsOnce(s: State, a: Action, c: Id)
    requires RedeemedOnce(s, c)
    ensures RedeemedOnce(Do(true, s, a), c)
  {
    match a
    case Compare(n) =>
      if n in s.going && s.going[n].Loaded? { CountOneMore(s.log, Redeemed(c), Wrong(s.going[n].code)); }
    case Write(n) => if n in s.going && s.going[n].Passing? { PassRedeemsOnce(s, n, c); }
    case _ =>
  }

  lemma {:induction false} PassRedeemsOnce(s: State, n: nat, c: Id)
    requires RedeemedOnce(s, c) && n in s.going && s.going[n].Passing?
    ensures RedeemedOnce(Do(true, s, Write(n)), c)
  {
    CountOneMore(s.log, Redeemed(c), Redeemed(s.going[n].code));
    assert s.log + [] == s.log;
  }

  // A write by a verification that compared right, while the code's row stands.
  predicate Redeems(actions: seq<Action>, k: nat, c: Id)
    requires k < |actions|
  {
    var s := Run(false, EMPTY, actions[..k]);
    && actions[k].Write? && actions[k].n in s.going
    && s.going[actions[k].n].Passing? && s.going[actions[k].n].code == c && c in s.table
  }

  // A reset or address-change code is spent by id alone, so every such write
  // redeems it, and nothing else does.
  lemma {:induction false} CountRedeems(actions: seq<Action>, c: Id)
    requires actions != []
    ensures var n := |actions| - 1;
            Count(Run(false, EMPTY, actions).log, Redeemed(c))
            == Count(Run(false, EMPTY, actions[..n]).log, Redeemed(c)) + if Redeems(actions, n, c) then 1 else 0
  {
    var n := |actions| - 1;
    var s := Run(false, EMPTY, actions[..n]);
    assert s.log + [] == s.log;
    match actions[n]
    case Compare(m) =>
      if m in s.going && s.going[m].Loaded? { CountOneMore(s.log, Redeemed(c), Wrong(s.going[m].code)); }
    case Write(m) =>
      if m in s.going && s.going[m].Passing? { CountOneMore(s.log, Redeemed(c), Redeemed(s.going[m].code)); }
    case _ =>
  }

  lemma {:induction false} RedeemsInPrefix(actions: seq<Action>, n: nat, k: nat, c: Id)
    requires k < n <= |actions|
    ensures Redeems(actions[..n], k, c) == Redeems(actions, k, c)
  {
    assert actions[..n][..k] == actions[..k] && actions[..n][k] == actions[k];
  }

  lemma {:induction false} RedeemedSomewhere(actions: seq<Action>, c: Id)
    ensures Count(Run(false, EMPTY, actions).log, Redeemed(c)) >= 1
        <==> exists k: nat :: k < |actions| && Redeems(actions, k, c)
  {
    if actions != [] {
      var n := |actions| - 1;
      RedeemedSomewhere(actions[..n], c);
      CountRedeems(actions, c);
      forall k: nat | k < n ensures Redeems(actions[..n], k, c) == Redeems(actions, k, c) {
        RedeemsInPrefix(actions, n, k, c);
      }
    }
  }

  lemma {:induction false} RedeemedAtTwoPlaces(actions: seq<Action>, c: Id)
    ensures Count(Run(false, EMPTY, actions).log, Redeemed(c)) >= 2
            <==> exists k: nat, l: nat :: k < l < |actions| && Redeems(actions, k, c) && Redeems(actions, l, c)
  {
    if actions != [] {
      var n := |actions| - 1;
      RedeemedAtTwoPlaces(actions[..n], c);
      RedeemedSomewhere(actions[..n], c);
      CountRedeems(actions, c);
      forall k: nat | k < n ensures Redeems(actions[..n], k, c) == Redeems(actions, k, c) {
        RedeemsInPrefix(actions, n, k, c);
      }
    }
  }

  // A load that takes effect with the right code, from the right device.
  predicate Matches(actions: seq<Action>, i: nat, n: nat, c: Id)
    requires i < |actions|
  {
    var s := Run(false, EMPTY, actions[..i]);
    var a := actions[i];
    && a.Load? && a.n == n && a.code == c && n !in s.going && Active(s.table, a.user, a.now, c)
    && s.table[c].hash == a.guess && s.table[c].device == a.device
  }

  // A verification seen from outside: which it is, and when it loads, compares and
  // writes.
  datatype Attempt = Attempt(n: nat, load: nat, compare: nat, write: nat)

  // It loads the right code, compares then and not before, and makes its write.
  predicate Tries(actions: seq<Action>, a: Attempt, c: Id) {
    && a.load < a.compare < a.write < |actions| && Matches(actions, a.load, a.n, c)
    && actions[a.compare] == Compare(a.n) && actions[a.write] == Write(a.n)
    && (forall t :: a.load < t < a.compare ==> actions[t] != Compare(a.n))
    && (forall t :: a.compare < t < a.write ==> actions[t] != Write(a.n))
  }

  // Where such a verification stands after t actions.
  lemma {:induction false} AttemptStands(actions: seq<Action>, a: Attempt, c: Id, t: nat)
    requires Tries(actions, a, c) && a.load < t <= a.write
    ensures var g := Run(false, EMPTY, actions[..t]).going;
            && a.n in g && !g[a.n].Over? && g[a.n].code == c
            && (if t <= a.compare then g[a.n].Loaded? && g[a.n].row.hash == g[a.n].guess
                && g[a.n].row.device == g[a.n].device
                else g[a.n].Passing?)
  {
    assert actions[..t][..t - 1] == actions[..t - 1] && actions[..t][t - 1] == actions[t - 1];
    if t > a.load + 1 {
      AttemptStands(actions, a, c, t - 1);
      if t - 1 != a.compare { Undisturbed(Run(false, EMPTY, actions[..t - 1]), actions[t - 1], a.n); }
    }
  }

  // Until it compares a verification stays loaded, and until it writes, passed.
  lemma {:induction false} Undisturbed(s: State, a: Action, n: nat)
    requires n in s.going && ((s.going[n].Loaded? && a != Compare(n)) || (s.going[n].Passing? && a != Write(n)))
    ensures n in Do(false, s, a).going && Do(false, s, a).going[n] == s.going[n]
  {
  }

  // Every verification that has loaded or passed got there by a load, and a
  // comparison, of its own.
  lemma {:induction false} LoadedFrom(actions: seq<Action>, n: nat) returns (i: nat)
    requires var g := Run(false, EMPTY, actions).going; n in g && g[n].Loaded?
    ensures var v := Run(false, EMPTY, actions).going[n];
            && i < |actions| && actions[i].Load? && actions[i].n == n && actions[i].code == v.code
            && n !in Run(false, EMPTY, actions[..i]).going
            && Active(Run(false, EMPTY, actions[..i]).table, actions[i].user, actions[i].now, v.code)
            && v.row == Run(false, EMPTY, actions[..i]).table[v.code]
            && v.guess == actions[i].guess && v.device == actions[i].device
            && forall t :: i < t < |actions| ==> actions[t] != Compare(n)
  {
    var last := |actions| - 1;
    var g := Run(false, EMPTY, actions[..last]).going;
    if n in g && g[n].Loaded? {
      i := LoadedFrom(actions[..last], n);
      assert actions[..last][..i] == actions[..i];
    } else {
      i := last;
    }
  }

  // The one step that makes a verification pass, and what keeps it passing.
  lemma {:induction false} PassingStep(s: State, a: Action, n: nat)
    requires var g := Do(false, s, a).going; n in g && g[n].Passing?
    ensures a != Write(n) && n in s.going
    ensures s.going[n] == Do(false, s, a).going[n]
            || (a == Compare(n) && s.going[n].Loaded? && s.going[n].code == Do(false, s, a).going[n].code
                && s.going[n].row.hash == s.going[n].guess && s.going[n].row.device == s.going[n].device)
  {
  }

  // It loaded the right code at i, compared at p and has not written since.
  predicate Passed(actions: seq<Action>, n: nat, c: Id, i: nat, p: nat) {
    && i < p < |actions| && Matches(actions, i, n, c) && actions[p] == Compare(n)
    && (forall t :: i < t < p ==> actions[t] != Compare(n))
    && (forall t :: p < t < |actions| ==> actions[t] != Write(n))
  }

  lemma {:induction false} PassedStill(actions: seq<Action>, n: nat, c: Id, i: nat, p: nat)
    requires actions != [] && Passed(actions[..|actions| - 1], n, c, i, p) && actions[|actions| - 1] != Write(n)
    ensures Passed(actions, n, c, i, p)
  {
    assert actions[..|actions| - 1][..i] == actions[..i];
  }

  lemma {:induction false} PassedNow(actions: seq<Action>, n: nat) returns (i: nat)
    requires actions != [] && actions[|actions| - 1] == Compare(n)
    requires var g := Run(false, EMPTY, actions[..|actions| - 1]).going;
             n in g && g[n].Loaded? && g[n].row.hash == g[n].guess && g[n].row.device == g[n].device
    ensures Passed(actions, n, Run(false, EMPTY, actions[..|actions| - 1]).going[n].code, i, |actions| - 1)
  {
    i := LoadedFrom(actions[..|actions| - 1], n);
    assert actions[..|actions| - 1][..i] == actions[..i];
  }

  lemma {:induction false} PassingFrom(actions: seq<Action>, n: nat) returns (i: nat, p: nat)
    requires var g := Run(false, EMPTY, actions).going; n in g && g[n].Passing?
    ensures Passed(actions, n, Run(false, EMPTY, actions).going[n].code, i, p)
  {
    var last := |actions| - 1;
    var s := Run(false, EMPTY, actions[..last]);
    PassingStep(s, actions[last], n);
    if s.going[n].Passing? {
      i, p := PassingFrom(actions[..last], n);
      PassedStill(actions, n, s.going[n].code, i, p);
    } else {
      i := PassedNow(actions, n);
      p := last;
    }
  }

  lemma {:induction false} RedemptionHasAttempt(actions: seq<Action>, k: nat, c: Id) returns (a: Attempt)
    requires k < |actions| && Redeems(actions, k, c)
    ensures Tries(actions, a, c) && a.n == actions[k].n && a.write == k
  {
    var i, p := PassingFrom(actions[..k], actions[k].n);
    assert actions[..k][..i] == actions[..i];
    a := Attempt(actions[k].n, i, p, k);
  }

  // A redeemed code keeps its row, spent, and its verification is over.
  lemma {:induction false} ClosedAfter(actions: seq<Action>, k: nat, c: Id, t: nat)
    requires k < t <= |actions| && Redeems(actions, k, c)
    ensures var s := Run(false, EMPTY, actions[..t]);
            c in s.table && s.table[c].spent && c in s.ids && actions[k].n in s.going && s.going[actions[k].n].Over?
  {
    assert actions[..t][..t - 1] == actions[..t - 1] && actions[..t][t - 1] == actions[t - 1];
    if t > k + 1 {
      ClosedAfter(actions, k, c, t - 1);
    } else {
      TableIssued(actions[..k]);
    }
  }

  lemma {:induction false} TableIssued(actions: seq<Action>)
    ensures Run(false, EMPTY, actions).table.Keys <= Run(false, EMPTY, actions).ids
  {
    if actions != [] { TableIssued(actions[..|actions| - 1]); }
  }

  // Two verifications of a code: both load it before the first writes, whose write
  // finds the row; the second writes later.
  ghost predicate Overlap(actions: seq<Action>, c: Id, a: Attempt, b: Attempt) {
    && a.n != b.n && Tries(actions, a, c) && Tries(actions, b, c)
    && b.load < a.write < b.write && c in Run(false, EMPTY, actions[..a.write]).table
  }

  // A reset or address-change code is redeemed more than once exactly when two
  // verifications that typed it right both loaded it before the first of them
  // wrote, the row standing, and both went on to write.
  lemma {:induction false} RedeemedTwiceIff(actions: seq<Action>, c: Id)
    ensures Count(Run(false, EMPTY, actions).log, Redeemed(c)) >= 2 <==> exists a, b :: Overlap(actions, c, a, b)
  {
    RedeemedAtTwoPlaces(actions, c);
    if k: nat, l: nat :| k < l < |actions| && Redeems(actions, k, c) && Redeems(actions, l, c) {
      TwoOverlap(actions, c, k, l);
    }
    if a, b :| Overlap(actions, c, a, b) {
      OverlapRedeems(actions, c, a, b);
    }
  }

  lemma {:induction false} TwoOverlap(actions: seq<Action>, c: Id, k: nat, l: nat)
    requires k < l < |actions| && Redeems(actions, k, c) && Redeems(actions, l, c)
    ensures exists a, b :: Overlap(actions, c, a, b)
  {
    var a := RedemptionHasAttempt(actions, k, c);
    var b := RedemptionHasAttempt(actions, l, c);
    ClosedAfter(actions, k, c, l);
    if b.load > k { ClosedAfter(actions, k, c, b.load); }
    assert b.load != k;
    assert Overlap(actions, c, a, b);
  }

  lemma {:induction false} OverlapRedeems(actions: seq<Action>, c: Id, a: Attempt, b: Attempt)
    requires Overlap(actions, c, a, b)
    ensures Redeems(actions, a.write, c) && Redeems(actions, b.write, c)
  {
    AttemptStands(actions, a, c, a.write);
    AttemptStands(actions, b, c, b.write);
    ClosedAfter(actions, a.write, c, b.write);
  }

  // With at most one verification of a code in flight, it is redeemed at most once.
  lemma {:induction false} RedeemedOnceAlone(actions: seq<Action>, c: Id)
    requires AtMost(false, actions, c, 1)
    ensures Count(Run(false, EMPTY, actions).log, Redeemed(c)) <= 1
  {
    RedeemedTwiceIff(actions, c);
    if a, b :| Overlap(actions, c, a, b) {
      AttemptStands(actions, a, c, a.write);
      AttemptStands(actions, b, c, a.write);
      var g := Run(false, EMPTY, actions[..a.write]).going;
      TwoInFlight(InFlight(g, c), a.n, b.n);
    }
  }

  lemma {:induction false} TwoInFlight(all: set<nat>, n: nat, m: nat)
    requires n in all && m in all && n != m
    ensures |all| >= 2
  {
    assert |{n, m}| == 2;
    Smaller({n, m}, all);
  }

  // And any two requests can come to that, wherever a code is active: both load it,
  // both compare, both write.
  lemma {:induction false} ResetRedeemedTwice(s: State, n: nat, m: nat, c: Id, now: int)
    requires n !in s.going && m !in s.going && n != m
        && Active(s.table, if c in s.table then s.table[c].user else 0, now, c)
    ensures Count(BothRead(s, n, m, c, now).log, Redeemed(c)) == Count(s.log, Redeemed(c))
    ensures var end := Do(false, Do(false, BothRead(s, n, m, c, now), Write(n)), Write(m));
            Count(end.log, Redeemed(c)) == Count(s.log, Redeemed(c)) + 2
  {
    var row := s.table[c];
    var read := BothRead(s, n, m, c, now);
    assert read.going[n] == Passing(c, row.attempts) && read.going[m] == Passing(c, row.attempts);
    assert read.table == s.table && read.log == s.log;
    var one := Do(false, read, Write(n));
    assert c in one.table && one.going[m] == Passing(c, row.attempts);
    CountOneMore(read.log, Redeemed(c), Redeemed(c));
    CountOneMore(one.log, Redeemed(c), Redeemed(c));
  }

  // Two requests have loaded the code and compared it right; neither has written.
  function BothRead(s: State, n: nat, m: nat, c: Id, now: int): State
    requires c in s.table
  {
    var row := s.table[c];
    var one := Do(false, Do(false, s, Load(n, c, row.user, now, row.hash, row.device)),
        Load(m, c, row.user, now, row.hash, row.device));
    Do(false, Do(false, one, Compare(n)), Compare(m))
  }
}
