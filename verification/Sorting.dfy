/**
  slices.Sort on strings and string-like keys: lexicographic order, and a stable
  insertion sort standing for the library's.
 */
module Sorting {
  predicate LexLe(a: string, b: string) {
    a == [] || (b != [] && (a[0] < b[0] || (a[0] == b[0] && LexLe(a[1..], b[1..]))))
  }

  lemma {:induction false} LexTotal(a: string, b: string)
    ensures LexLe(a, b) || LexLe(b, a)
  {
    if a != [] && b != [] && a[0] == b[0] { LexTotal(a[1..], b[1..]); }
  }

  lemma {:induction false} LexTransitive(a: string, b: string, c: string)
    requires LexLe(a, b) && LexLe(b, c)
    ensures LexLe(a, c)
  {
    if a != [] && a[0] == b[0] && b[0] == c[0] { LexTransitive(a[1..], b[1..], c[1..]); }
  }

  ghost predicate Ascending<T>(text: T -> string, s: seq<T>) {
    forall i, j :: 0 <= i < j < |s| ==> LexLe(text(s[i]), text(s[j]))
  }

  ghost predicate Distinct<T>(s: seq<T>) {
    forall i, j :: 0 <= i < j < |s| ==> s[i] != s[j]
  }

  function Insert<T>(text: T -> string, x: T, s: seq<T>): (r: seq<T>)
    ensures multiset(r) == multiset(s) + multiset{x}
  {
    if s == [] then [x]
    else if LexLe(text(x), text(s[0])) then [x] + s
    else
      assert s == [s[0]] + s[1..];
      [s[0]] + Insert(text, x, s[1..])
  }

  function Sort<T>(text: T -> string, s: seq<T>): (r: seq<T>)
    ensures multiset(r) == multiset(s)
  {
    if s == [] then []
    else
      assert s == [s[0]] + s[1..];
      Insert(text, s[0], Sort(text, s[1..]))
  }

  lemma {:induction false} Prepend<T>(text: T -> string, x: T, s: seq<T>)
    requires Ascending(text, s) && forall y :: y in s ==> LexLe(text(x), text(y))
    ensures Ascending(text, [x] + s)
  {
    var r := [x] + s;
    forall i, j | 0 <= i < j < |r| ensures LexLe(text(r[i]), text(r[j])) {
      assert r[j] == s[j - 1];
      if i > 0 { assert r[i] == s[i - 1]; }
    }
  }

  lemma {:induction false} InsertAscends<T>(text: T -> string, x: T, s: seq<T>)
    requires Ascending(text, s)
    ensures Ascending(text, Insert(text, x, s))
  {
    if s == [] {
    } else if LexLe(text(x), text(s[0])) {
      forall y | y in s ensures LexLe(text(x), text(y)) {
        var j :| 0 <= j < |s| && s[j] == y;
        if j > 0 { LexTransitive(text(x), text(s[0]), text(s[j])); }
      }
      Prepend(text, x, s);
    } else {
      LexTotal(text(x), text(s[0]));
      var rest := Insert(text, x, s[1..]);
      InsertAscends(text, x, s[1..]);
      forall y | y in rest ensures LexLe(text(s[0]), text(y)) {
        assert y in multiset(rest);
        if y != x {
          assert y in multiset(s[1..]);
          var j :| 0 < j < |s| && s[j] == y;
        }
      }
      Prepend(text, s[0], rest);
    }
  }

  lemma {:induction false} SortAscends<T>(text: T -> string, s: seq<T>)
    ensures Ascending(text, Sort(text, s))
  {
    if s != [] {
      SortAscends(text, s[1..]);
      InsertAscends(text, s[0], Sort(text, s[1..]));
    }
  }

  lemma {:induction false} DistinctOnce<T>(s: seq<T>)
    requires Distinct(s)
    ensures forall x :: multiset(s)[x] <= 1
  {
    if s != [] {
      DistinctOnce(s[1..]);
      assert s == [s[0]] + s[1..];
      assert s[0] !in s[1..];
    }
  }

  lemma {:induction false} OnceDistinct<T>(s: seq<T>)
    requires forall x :: multiset(s)[x] <= 1
    ensures Distinct(s)
  {
    if s != [] {
      assert s == [s[0]] + s[1..];
      forall x ensures multiset(s[1..])[x] <= 1 {
        assert multiset(s)[x] == multiset([s[0]])[x] + multiset(s[1..])[x];
      }
      OnceDistinct(s[1..]);
      assert multiset(s)[s[0]] == 1 + multiset(s[1..])[s[0]];
      assert s[0] !in s[1..];
    }
  }

  // Sorting keeps the elements and neither adds nor hides a repetition.
  lemma {:induction false} SortKeeps<T>(text: T -> string, s: seq<T>)
    ensures forall x :: x in Sort(text, s) <==> x in s
    ensures Distinct(s) <==> Distinct(Sort(text, s))
    ensures |Sort(text, s)| == |s|
  {
    var r := Sort(text, s);
    forall x ensures x in r <==> x in s {
      assert x in multiset(r) <==> x in multiset(s);
    }
    if Distinct(s) { DistinctOnce(s); OnceDistinct(r); }
    if Distinct(r) { DistinctOnce(r); OnceDistinct(s); }
    assert |multiset(r)| == |r| && |multiset(s)| == |s|;
  }
}
