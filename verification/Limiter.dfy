/**
  The per-key token bucket of internal/api/limit.go.

  Time and tokens are reals, so float64 rounding is not modelled. The functions
  below describe the limiter on plain values, with the clock counted in tokens:
  a reading of now seconds is now * rate ticks, and a bucket earns one token a
  tick. The classes at the end count in seconds and update bucket objects in
  place, as the program does, and are proved to compute exactly those functions.
 */
module Limiter {
  type Ticks = real

  datatype Bucket = Bucket(tokens: real, last: Ticks)

  type Table = map<string, Bucket>

  datatype Call = Call(key: string, at: Ticks)

  const GC_FLOOR: nat := 1024

  // ---------------------------------------------------------------- one call

  function Spend(burst: real, b: Bucket, at: Ticks): (bool, Bucket) {
    var earned := b.tokens + (at - b.last);
    var tokens := if earned > burst then burst else earned;
    if tokens < 1.0 then (false, Bucket(tokens, at)) else (true, Bucket(tokens - 1.0, at))
  }

  // What gcLocked leaves behind: it drops buckets idle for twice a full refill,
  // once the map is large.
  function Collect(burst: real, t: Table, at: Ticks): Table {
    if |t| < GC_FLOOR then t
    else map k | k in t && at - t[k].last <= 2.0 * burst :: t[k]
  }

  // The table a call works on, after inserting a full bucket for an unseen key.
  function Seen(burst: real, collect: bool, t: Table, c: Call): (r: Table)
    ensures c.key in r
  {
    if c.key in t then t
    else (if collect then Collect(burst, t, c.at) else t)[c.key := Bucket(burst, c.at)]
  }

  function Step(burst: real, collect: bool, t: Table, c: Call): (bool, Table) {
    var seen := Seen(burst, collect, t, c);
    var (ok, b) := Spend(burst, seen[c.key], c.at);
    (ok, seen[c.key := b])
  }

  // ------------------------------------------------------------------ traces

  // The table after a trace of calls, in the order the lock was taken.
  // collect == false is the limiter that never drops a bucket.
  function After(burst: real, collect: bool, calls: seq<Call>): Table {
    if calls == [] then map[]
    else Step(burst, collect, After(burst, collect, calls[..|calls| - 1]), calls[|calls| - 1]).1
  }

  function Allowed(burst: real, collect: bool, calls: seq<Call>, i: nat): bool
    requires i < |calls|
  {
    Step(burst, collect, After(burst, collect, calls[..i]), calls[i]).0
  }

  // No timestamp lies more than d before one that took the lock earlier. The
  // clock is read before the lock is taken, so d can be positive.
  ghost predicate Disorder(calls: seq<Call>, d: Ticks) {
    forall i, j :: 0 <= i < j < |calls| ==> calls[j].at >= calls[i].at - d
  }

  // ---------------------------------------------------- collector transparency

  // The latest timestamp that took the lock, at least from.
  function Latest(from: Ticks, calls: seq<Call>): Ticks {
    if calls == [] then from
    else
      var m := Latest(from, calls[..|calls| - 1]);
      var t := calls[|calls| - 1].at;
      if t > m then t else m
  }

  lemma {:induction false} LatestIsReached(calls: seq<Call>)
    requires calls != []
    ensures exists i :: 0 <= i < |calls| && calls[i].at == Latest(calls[0].at, calls)
  {
    var n := |calls| - 1;
    if n > 0 {
      assert calls[..n][0] == calls[0];
      LatestIsReached(calls[..n]);
      var i :| 0 <= i < n && calls[..n][i].at == Latest(calls[0].at, calls[..n]);
      assert calls[i].at == calls[..n][i].at;
    } else {
      assert calls[..n] == [];
    }
    assert Latest(calls[0].at, calls) == calls[n].at ||
           exists i :: 0 <= i < n && calls[i].at == Latest(calls[0].at, calls);
  }

  // A bucket whose debt is bounded by how far the clock may still run backwards.
  ghost predicate Sound(burst: real, b: Bucket, m: Ticks) {
    b.last <= m && b.tokens + m - b.last >= 0.0 && b.tokens >= -(burst / 2.0)
  }

  // Idle for so long that every call still to come finds the bucket full.
  ghost predicate Full(burst: real, b: Bucket, m: Ticks) {
    b.tokens + m - b.last >= burst + burst / 2.0
  }

  // The collecting table lacks only full buckets of the other one.
  ghost predicate Mirrors(burst: real, col: Table, all: Table, m: Ticks) {
    && (forall k :: k in col ==> k in all && col[k] == all[k])
    && (forall k :: k in all ==> Sound(burst, all[k], m))
    && (forall k :: k in all && k !in col ==> Full(burst, all[k], m))
  }

  lemma {:induction false} StepMirrors(burst: real, col: Table, all: Table, m: Ticks, c: Call)
    requires burst > 0.0 && Mirrors(burst, col, all, m) && c.at >= m - burst / 2.0
    ensures Step(burst, true, col, c).0 == Step(burst, false, all, c).0
    ensures Mirrors(burst, Step(burst, true, col, c).1, Step(burst, false, all, c).1, if c.at > m then c.at else m)
  {
    var m' := if c.at > m then c.at else m;
    var newest := Bucket(burst, c.at);
    var found := if c.key in all then all[c.key] else newest;
    var (ok, b) := Spend(burst, found, c.at);
    assert Sound(burst, b, m');
    assert Spend(burst, newest, c.at) == Spend(burst, found, c.at) || c.key in col;
    assert Step(burst, false, all, c) == (ok, all[c.key := b]) by {
      assert all[c.key := newest][c.key := b] == all[c.key := b];
    }
    var col' := Step(burst, true, col, c).1;
    assert Step(burst, true, col, c).0 == ok && col'[c.key] == b;
    forall k | k in all && k != c.key && k !in col' ensures Full(burst, all[k], m') {
      if k in col { assert c.at - all[k].last > 2.0 * burst; }
    }
  }

  lemma {:induction false} TablesMirror(burst: real, calls: seq<Call>)
    requires burst > 0.0 && calls != [] && Disorder(calls, burst / 2.0)
    ensures Mirrors(burst, After(burst, true, calls), After(burst, false, calls), Latest(calls[0].at, calls))
  {
    var n := |calls| - 1;
    var before := calls[..n];
    if n == 0 {
      assert before == [];
      StepMirrors(burst, map[], map[], calls[0].at, calls[0]);
    } else {
      assert before[0] == calls[0];
      TablesMirror(burst, before);
      LatestIsReached(before);
      var i :| 0 <= i < n && before[i].at == Latest(calls[0].at, before);
      assert before[i] == calls[i];
      StepMirrors(burst, After(burst, true, before), After(burst, false, before), Latest(calls[0].at, before),
          calls[n]);
    }
  }

  // Dropping idle buckets never changes an answer, even when timestamps reach
  // the lock out of order by up to half a refill.
  lemma {:induction false} CollectorTransparent(burst: real, calls: seq<Call>, i: nat)
    requires burst > 0.0 && i < |calls| && Disorder(calls, burst / 2.0)
    ensures Allowed(burst, true, calls, i) == Allowed(burst, false, calls, i)
  {
    var before := calls[..i];
    if i == 0 {
      assert before == [];
    } else {
      TablesMirror(burst, before);
      LatestIsReached(before);
      var j :| 0 <= j < i && before[j].at == Latest(before[0].at, before);
      assert before[j] == calls[j];
      StepMirrors(burst, After(burst, true, before), After(burst, false, before), Latest(before[0].at, before),
          calls[i]);
    }
  }

  // In particular when timestamps never run backwards.
  lemma {:induction false} OrderedCollectorTransparent(burst: real, calls: seq<Call>, i: nat)
    requires burst > 0.0 && i < |calls|
    requires forall j, k :: 0 <= j < k < |calls| ==> calls[j].at <= calls[k].at
    ensures Allowed(burst, true, calls, i) == Allowed(burst, false, calls, i)
  {
    CollectorTransparent(burst, calls, i);
  }

  // ---------------------------------------------------------------- map size

  // Keys with a call no older than since.
  function Recent(calls: seq<Call>, since: Ticks): set<string> {
    set i | 0 <= i < |calls| && calls[i].at >= since :: calls[i].key
  }

  lemma {:induction false} LastIsACall(burst: real, collect: bool, calls: seq<Call>, k: string)
    requires burst > 0.0 && k in After(burst, collect, calls)
    ensures exists i :: 0 <= i < |calls| && calls[i] == Call(k, After(burst, collect, calls)[k].last)
  {
    var n := |calls| - 1;
    var before := calls[..n];
    if k == calls[n].key {
      assert calls[n] == Call(k, After(burst, collect, calls)[k].last);
    } else {
      LastIsACall(burst, collect, before, k);
      var i :| 0 <= i < |before| && before[i] == Call(k, After(burst, collect, before)[k].last);
      assert calls[i] == Call(k, After(burst, collect, calls)[k].last);
    }
  }

  lemma {:induction false} SubsetSize<T>(a: set<T>, b: set<T>)
    requires a <= b
    ensures |a| <= |b|
  {
    if a != {} {
      var x :| x in a;
      SubsetSize(a - {x}, b - {x});
    }
  }

  lemma {:induction false} KeptKeysAreRecent(burst: real, calls: seq<Call>)
    requires burst > 0.0 && calls != []
    requires var was := After(burst, true, calls[..|calls| - 1]);
             |was| >= GC_FLOOR && calls[|calls| - 1].key !in was
    ensures After(burst, true, calls).Keys <= Recent(calls, calls[|calls| - 1].at - 2.0 * burst)
  {
    var n := |calls| - 1;
    var c := calls[n];
    var was := After(burst, true, calls[..n]);
    var since := c.at - 2.0 * burst;
    forall k | k in After(burst, true, calls) ensures k in Recent(calls, since) {
      if k != c.key {
        assert k in Collect(burst, was, c.at) && was[k].last >= since;
        LastIsACall(burst, true, calls[..n], k);
        var i :| 0 <= i < n && calls[..n][i] == Call(k, was[k].last);
        assert calls[i] == Call(k, was[k].last);
      }
    }
  }

  // Right after a call that inserts a key, the map holds at most 1024 buckets or
  // as many as there are keys seen within the collector's horizon, whatever the
  // order of the timestamps.
  lemma {:induction false} InsertBoundsTheMap(burst: real, calls: seq<Call>)
    requires burst > 0.0 && calls != []
    requires calls[|calls| - 1].key !in After(burst, true, calls[..|calls| - 1])
    ensures var size := |After(burst, true, calls)|;
            size <= GC_FLOOR || size <= |Recent(calls, calls[|calls| - 1].at - 2.0 * burst)|
  {
    var c := calls[|calls| - 1];
    var was := After(burst, true, calls[..|calls| - 1]);
    var now := After(burst, true, calls);
    if |was| < GC_FLOOR {
      assert now.Keys == was.Keys + {c.key};
      assert |now| == |now.Keys| && |was| == |was.Keys|;
    } else {
      KeptKeysAreRecent(burst, calls);
      SubsetSize(now.Keys, Recent(calls, c.at - 2.0 * burst));
    }
  }

  // ------------------------------------------------------------- window bound

  // How many of calls i..j (both included) on this key were let through.
  function Passed(burst: real, collect: bool, calls: seq<Call>, key: string, i: nat, j: nat): nat
    requires burst > 0.0 && i <= j < |calls|
    decreases j
  {
    (if calls[j].key == key && Allowed(burst, collect, calls, j) then 1 else 0)
    + if i == j then 0 else Passed(burst, collect, calls, key, i, j - 1)
  }

  // Tokens minus what the clock would have refilled: calls only ever lower it.
  function Credit(t: Table, key: string): real
    requires key in t
  {
    t[key].tokens - t[key].last
  }

  lemma {:induction false} CreditPaysForCalls(burst: real, calls: seq<Call>, key: string, i: nat, j: nat)
    requires burst >= 1.0 && i <= j < |calls| && calls[i].key == key
    ensures var t := After(burst, false, calls[..j + 1]);
            && key in t
            && Credit(t, key) <= burst - calls[i].at - Passed(burst, false, calls, key, i, j) as real
            && (calls[j].key == key && Allowed(burst, false, calls, j) ==> Credit(t, key) >= -calls[j].at)
    decreases j
  {
    assert calls[..j + 1][..j] == calls[..j];
    if i < j {
      CreditPaysForCalls(burst, calls, key, i, j - 1);
      assert calls[..j - 1 + 1] == calls[..j];
    }
  }

  // From any call on a key to an allowed one, both included, at most burst + elapsed
  // ticks (rate * elapsed seconds) calls were allowed, whatever the timestamps did.
  lemma {:induction false} WindowBound(burst: real, calls: seq<Call>, key: string, i: nat, j: nat)
    requires burst > 0.0 && i <= j < |calls| && calls[i].key == key
    requires calls[j].key == key && Allowed(burst, false, calls, j)
    ensures Passed(burst, false, calls, key, i, j) as real
            <= burst + (calls[j].at - calls[i].at)
  {
    CreditPaysForCalls(burst, calls, key, i, j);
  }

  lemma {:induction false} CountsAgree(burst: real, calls: seq<Call>, key: string, i: nat, j: nat)
    requires burst > 0.0 && i <= j < |calls| && Disorder(calls, burst / 2.0)
    ensures Passed(burst, true, calls, key, i, j) == Passed(burst, false, calls, key, i, j)
    decreases j
  {
    CollectorTransparent(burst, calls, j);
    if i < j { CountsAgree(burst, calls, key, i, j - 1); }
  }

  // The same bound for the limiter as it runs, collector included.
  lemma {:induction false} CollectedWindowBound(burst: real, calls: seq<Call>, key: string, i: nat, j: nat)
    requires burst > 0.0 && i <= j < |calls| && Disorder(calls, burst / 2.0) && calls[i].key == key
    requires calls[j].key == key && Allowed(burst, true, calls, j)
    ensures Passed(burst, true, calls, key, i, j) as real
            <= burst + (calls[j].at - calls[i].at)
  {
    CollectorTransparent(burst, calls, j);
    CountsAgree(burst, calls, key, i, j);
    WindowBound(burst, calls, key, i, j);
  }

  // ------------------------------------------------------- what is let through

  // Some call on the key, the last to find its bucket full, accounts for every
  // token since.
  lemma {:induction false} FullAt(burst: real, calls: seq<Call>, key: string, j: nat) returns (i: nat)
    requires burst >= 1.0 && j < |calls| && key in After(burst, false, calls[..j + 1])
    ensures i <= j && calls[i].key == key
    ensures Credit(After(burst, false, calls[..j + 1]), key)
            == burst - calls[i].at - Passed(burst, false, calls, key, i, j) as real
    decreases j
  {
    assert calls[..j + 1][..j] == calls[..j];
    var t := After(burst, false, calls[..j]);
    if calls[j].key == key && (key !in t || Credit(t, key) + calls[j].at > burst) {
      i := j;
    } else {
      assert j > 0 && calls[..j - 1 + 1] == calls[..j];
      i := FullAt(burst, calls, key, j - 1);
    }
  }

  // Letting call j through would keep the window bound from every earlier call on
  // its key.
  ghost predicate Fits(burst: real, collect: bool, calls: seq<Call>, j: nat)
    requires burst > 0.0 && j < |calls|
  {
    forall i :: 0 <= i < j && calls[i].key == calls[j].key ==>
        Passed(burst, collect, calls, calls[j].key, i, j - 1) as real + 1.0 <= burst + (calls[j].at - calls[i].at)
  }

  // A call is refused exactly when letting it through would break the bound, in
  // whatever order the timestamps come.
  lemma {:induction false} AllowedIff(burst: real, calls: seq<Call>, j: nat)
    requires burst >= 1.0 && j < |calls|
    ensures Allowed(burst, false, calls, j) <==> Fits(burst, false, calls, j)
  {
    var key := calls[j].key;
    if Allowed(burst, false, calls, j) {
      forall i | 0 <= i < j && calls[i].key == key
        ensures Passed(burst, false, calls, key, i, j - 1) as real + 1.0 <= burst + (calls[j].at - calls[i].at)
      {
        WindowBound(burst, calls, key, i, j);
      }
    } else {
      assert j > 0 && calls[..j - 1 + 1] == calls[..j];
      var i := FullAt(burst, calls, key, j - 1);
      assert !(Passed(burst, false, calls, key, i, j - 1) as real + 1.0 <= burst + (calls[j].at - calls[i].at));
    }
  }

  // The same for the limiter as it runs.
  lemma {:induction false} CollectedAllowedIff(burst: real, calls: seq<Call>, j: nat)
    requires burst >= 1.0 && j < |calls| && Disorder(calls, burst / 2.0)
    ensures Allowed(burst, true, calls, j) <==> Fits(burst, true, calls, j)
  {
    CollectorTransparent(burst, calls, j);
    AllowedIff(burst, calls, j);
    forall i | 0 <= i < j && calls[i].key == calls[j].key
      ensures Passed(burst, true, calls, calls[j].key, i, j - 1) == Passed(burst, false, calls, calls[j].key, i, j - 1)
    {
      CountsAgree(burst, calls, calls[j].key, i, j - 1);
    }
  }

  // Calls on the key before call j, let through or not.
  function Earlier(calls: seq<Call>, key: string, j: nat): nat
    requires j <= |calls|
  {
    if j == 0 then 0 else Earlier(calls, key, j - 1) + if calls[j - 1].key == key then 1 else 0
  }

  lemma {:induction false} PassedAtMost(burst: real, calls: seq<Call>, key: string, i: nat, j: nat)
    requires burst > 0.0 && i <= j < |calls|
    ensures Passed(burst, false, calls, key, i, j) <= Earlier(calls, key, j + 1)
    decreases j
  {
    if i < j { PassedAtMost(burst, calls, key, i, j - 1); }
  }

  // The first calls on a new key all go through: as many as the burst holds when
  // their timestamps do not run backwards, in particular at one instant, and one
  // fewer for every tick they may.
  lemma {:induction false} FirstCallsPass(burst: real, calls: seq<Call>, j: nat, d: Ticks)
    requires j < |calls| && Disorder(calls, d) && d >= 0.0
    requires Earlier(calls, calls[j].key, j) as real + 1.0 + d <= burst
    ensures Allowed(burst, false, calls, j)
    ensures d <= burst / 2.0 ==> Allowed(burst, true, calls, j)
  {
    AllowedIff(burst, calls, j);
    forall i | 0 <= i < j && calls[i].key == calls[j].key
      ensures Passed(burst, false, calls, calls[j].key, i, j - 1) as real + 1.0 <= burst + (calls[j].at - calls[i].at)
    {
      PassedAtMost(burst, calls, calls[j].key, i, j - 1);
    }
    if d <= burst / 2.0 { CollectorTransparent(burst, calls, j); }
  }

  // ------------------------------------------------------ the mutable limiter

  // A clock reading in seconds, counted in tokens.
  function Tick(now: real, rate: real): Ticks { now * rate }

  lemma {:induction false} EarnedTicks(now: real, last: real, rate: real)
    ensures (now - last) * rate == Tick(now, rate) - Tick(last, rate)
  {
  }

  class BucketCell {
    var tokens: real
    var last: real   // seconds

    constructor (tokens: real, last: real)
      ensures this.tokens == tokens && this.last == last
    {
      this.tokens, this.last := tokens, last;
    }

    function View(rate: real): Bucket reads this { Bucket(tokens, Tick(last, rate)) }
  }

  // Comparing with a horizon in seconds is comparing with one in ticks.
  lemma {:induction false} StaleTicks(now: real, last: real, stale: real, rate: real, horizon: real)
    requires rate > 0.0 && stale * rate == horizon
    ensures now - last > stale <==> Tick(now, rate) - Tick(last, rate) > horizon
  {
    EarnedTicks(now, last, rate);
    if now - last > stale {
      assert ((now - last) - stale) * rate > 0.0;
    } else {
      assert (stale - (now - last)) * rate >= 0.0;
    }
  }

  class TokenLimiter {
    var buckets: map<string, BucketCell>
    const rate: real
    const burst: real

    // Every key has its own bucket object.
    ghost predicate Valid() reads this {
      && rate > 0.0
      && forall j, k :: j in buckets && k in buckets && buckets[j] == buckets[k] ==> j == k
    }

    ghost function Cells(): set<BucketCell> reads this { buckets.Values }

    ghost function View(): Table reads this, Cells() {
      map k | k in buckets :: buckets[k].View(rate)
    }

    constructor (perMinute: int)
      requires perMinute > 0
      ensures Valid() && View() == map[]
      ensures rate == perMinute as real / 60.0 && burst == perMinute as real
    {
      buckets := map[];
      rate := perMinute as real / 60.0;
      burst := perMinute as real;
    }

    // A rate of zero or less builds no limiter at all.
    static method New(perMinute: int) returns (l: TokenLimiter?)
      ensures l == null <==> perMinute <= 0
      ensures l != null ==> l.Valid() && l.View() == After(l.burst, true, [])
      ensures l != null ==> l.burst == perMinute as real && l.rate * 60.0 == l.burst
    {
      if perMinute <= 0 { return null; }
      l := new TokenLimiter(perMinute);
    }

    method StaleAfter() returns (stale: real)
      requires Valid()
      ensures stale * rate == 2.0 * burst
    {
      stale := burst / rate * 2.0;
      assert burst / rate * rate == burst;
    }

    method GcLocked(now: real)
      requires Valid()
      modifies this`buckets
      ensures Valid() && View() == Collect(burst, old(View()), Tick(now, rate))
      ensures buckets.Values <= old(buckets.Values)
    {
      assert |buckets| == |View()| by {
        assert buckets.Keys == View().Keys && |buckets| == |buckets.Keys| && |View()| == |View().Keys|;
      }
      if |buckets| < GC_FLOOR {
        return;
      }
      var stale := StaleAfter();
      var todo := buckets.Keys;
      while todo != {}
        invariant todo <= buckets.Keys <= old(buckets.Keys)
        invariant forall k :: k in buckets ==> buckets[k] == old(buckets)[k]
        invariant forall k :: k in old(buckets.Keys) - todo ==>
                    (k in buckets <==> now - old(buckets)[k].last <= stale)
        decreases todo
      {
        var k :| k in todo;
        if now - buckets[k].last > stale {
          buckets := buckets - {k};
        }
        todo := todo - {k};
      }
      KeptAreCollected(now, stale, old(buckets), old(View()));
    }

    lemma {:induction false} KeptAreCollected(now: real, stale: real, was: map<string, BucketCell>, view: Table)
      requires Valid() && stale * rate == 2.0 * burst && |view| >= GC_FLOOR
      requires view.Keys == was.Keys && forall k :: k in was ==> view[k] == was[k].View(rate)
      requires buckets.Keys <= was.Keys && forall k :: k in buckets ==> buckets[k] == was[k]
      requires forall k :: k in was ==> (k in buckets <==> now - was[k].last <= stale)
      ensures View() == Collect(burst, view, Tick(now, rate))
    {
      forall k | k in was ensures k in buckets <==> Tick(now, rate) - view[k].last <= 2.0 * burst {
        StaleTicks(now, was[k].last, stale, rate, 2.0 * burst);
      }
    }

    method InsertFull(key: string, now: real)
      requires Valid() && key !in buckets
      modifies this`buckets
      ensures Valid() && key in buckets && fresh(buckets[key])
      ensures buckets.Values <= old(buckets.Values) + {buckets[key]}
      ensures View() == Seen(burst, true, old(View()), Call(key, Tick(now, rate)))
    {
      GcLocked(now);
      ghost var kept := View();
      var made := new BucketCell(burst, now);
      buckets := buckets[key := made];
      assert View() == kept[key := Bucket(burst, Tick(now, rate))];
    }

    // now is the clock reading taken before the lock.
    method AllowAt(key: string, now: real) returns (ok: bool)
      requires Valid()
      modifies this`buckets, Cells()
      ensures Valid() && (ok, View()) == Step(burst, true, old(View()), Call(key, Tick(now, rate)))
    {
      if key !in buckets {
        InsertFull(key, now);
      }
      ghost var seen := Seen(burst, true, old(View()), Call(key, Tick(now, rate)));
      assert View() == seen;
      ok := Take(buckets[key], now);
      assert View() == seen[key := buckets[key].View(rate)];
    }

    // The refill and the spend, on one bucket.
    method Take(b: BucketCell, now: real) returns (ok: bool)
      modifies b
      ensures (ok, b.View(rate)) == Spend(burst, old(b.View(rate)), Tick(now, rate))
    {
      ghost var was := b.View(rate);
      var elapsed := now - b.last;
      EarnedTicks(now, b.last, rate);
      assert elapsed * rate == Tick(now, rate) - was.last;
      b.tokens := b.tokens + elapsed * rate;
      if b.tokens > burst {
        b.tokens := burst;
      }
      b.last := now;
      if b.tokens < 1.0 {
        return false;
      }
      b.tokens := b.tokens - 1.0;
      return true;
    }

    // A missing limiter lets everything through.
    static method Allow(l: TokenLimiter?, key: string, now: real) returns (ok: bool)
      requires l != null ==> l.Valid()
      modifies l, if l == null then {} else l.Cells()
      ensures l == null ==> ok
      ensures l != null ==>
          l.Valid() && (ok, l.View()) == Step(l.burst, true, old(l.View()), Call(key, Tick(now, l.rate)))
    {
      if l == null { return true; }
      ok := l.AllowAt(key, now);
    }
  }
}
