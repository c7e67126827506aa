/**
  Trimming and lower-casing of addresses and keys, on ASCII: strings.TrimSpace
  and strings.ToLower also treat Unicode, which is not modelled.
 */
module Address {
  predicate Space(c: char) { c == ' ' || c == '\t' || c == '\n' || c == '\r' }

  function Lower(c: char): char { if 'A' <= c <= 'Z' then c + (32 as char) else c }

  function TrimLeft(s: string): string {
    if s != [] && Space(s[0]) then TrimLeft(s[1..]) else s
  }

  function TrimRight(s: string): string {
    if s != [] && Space(s[|s| - 1]) then TrimRight(s[..|s| - 1]) else s
  }

  function Trim(s: string): string { TrimRight(TrimLeft(s)) }

  function LowerAll(s: string): (r: string)
    ensures |r| == |s| && forall i :: 0 <= i < |s| ==> r[i] == Lower(s[i])
  {
    seq(|s|, i requires 0 <= i < |s| => Lower(s[i]))
  }

  function Normalize(email: string): string { LowerAll(Trim(email)) }

  // No space at either end.
  predicate Tight(s: string) { s == [] || (!Space(s[0]) && !Space(s[|s| - 1])) }

  lemma {:induction false} TrimLeftEnds(s: string)
    ensures TrimLeft(s) == [] || !Space(TrimLeft(s)[0])
  {
    if s != [] && Space(s[0]) { TrimLeftEnds(s[1..]); }
  }

  lemma {:induction false} TrimRightEnds(s: string)
    requires s == [] || !Space(s[0])
    ensures Tight(TrimRight(s))
  {
    if s != [] && Space(s[|s| - 1]) { TrimRightEnds(s[..|s| - 1]); }
  }

  // Two spellings of an address are one address after normalising, and
  // normalising again changes nothing.
  lemma {:induction false} NormalizeOnce(email: string)
    ensures Tight(Normalize(email))
    ensures forall i :: 0 <= i < |Normalize(email)| ==> !('A' <= Normalize(email)[i] <= 'Z')
    ensures Normalize(Normalize(email)) == Normalize(email)
  {
    TrimLeftEnds(email);
    TrimRightEnds(TrimLeft(email));
    var n := Normalize(email);
    assert TrimLeft(n) == n && TrimRight(n) == n;
    assert LowerAll(n) == n;
  }
}
