/** Text primitives as Python has them: whitespace, stripping, searching. */
module Texts {
  import opened Lexical

  /** Whitespace, as `str.strip` sees it. */
  predicate Space(c: char) {
    || '\t' <= c <= '\r' || '\U{1c}' <= c <= ' ' || c == '\U{85}' || c == '\U{a0}' || c == '\U{1680}'
    || '\U{2000}' <= c <= '\U{200a}' || c == '\U{2028}' || c == '\U{2029}' || c == '\U{202f}' || c == '\U{205f}' ||
      c == '\U{3000}'
  }

  /** Line boundaries, as `str.splitlines` sees them. */
  predicate Break(c: char) {
    '\n' <= c <= '\r' || '\U{1c}' <= c <= '\U{1e}' || c == '\U{85}' || c == '\U{2028}' || c == '\U{2029}'
  }

  predicate Stripped(s: string) { s == "" || (!Space(s[0]) && !Space(s[|s| - 1])) }

  predicate OneLine(s: string) { forall i :: 0 <= i < |s| ==> !Break(s[i]) }

  function Strip(s: string): (r: string)
    ensures Stripped(r) && (OneLine(s) ==> OneLine(r)) && (Stripped(s) ==> r == s)
    ensures s != "" && !Space(s[0]) ==> r != "" && r[0] == s[0]
    ensures s != "" && !Space(s[|s| - 1]) ==> r != "" && r[|r| - 1] == s[|s| - 1]
    ensures forall c :: c !in s ==> c !in r
  {
    if s == "" then s
    else if Space(s[0]) then Strip(s[1..])
    else if Space(s[|s| - 1]) then Strip(s[..|s| - 1])
    else s
  }

  function Find(s: string, c: char): (i: nat)
    ensures i <= |s| && c !in s[..i] && (i < |s| ==> s[i] == c)
  {
    if s == "" || s[0] == c then 0 else 1 + Find(s[1..], c)
  }

  lemma {:induction false} FindAt(a: string, b: string, c: char)
    requires c !in a && b != "" && b[0] == c
    ensures Find(a + b, c) == |a|
  {
    if a == "" { assert a + b == b; } else {
      FindAt(a[1..], b, c);
      assert (a + b)[1..] == a[1..] + b;
    }
  }

  // ----- Code points

  function Codes(s: string): (r: seq<int>)
    ensures |r| == |s| && forall i :: 0 <= i < |r| ==> r[i] == s[i] as int && 0 <= r[i] < 0x110000
  {
    seq(|s|, i requires 0 <= i < |s| => s[i] as int)
  }

  lemma CodesDiffer(a: string, b: string)
    requires Codes(a) == Codes(b)
    ensures a == b
  {
    assert |a| == |b|;
    forall i | 0 <= i < |a| ensures a[i] == b[i] {
      assert Codes(a)[i] == Codes(b)[i];
    }
  }

  /** The order in which Python sorts texts. */
  predicate Precedes(a: string, b: string) { Less(Codes(a), Codes(b)) }

  lemma PrecedesTransitive(a: string, b: string, c: string)
    requires Precedes(a, b) && Precedes(b, c)
    ensures Precedes(a, c)
  {
    LessTransitive(Codes(a), Codes(b), Codes(c));
  }

  lemma PrecedesTotal(a: string, b: string)
    ensures Precedes(a, b) || Precedes(b, a) || a == b
    ensures !(Precedes(a, b) && Precedes(b, a)) && !Precedes(a, a)
  {
    LessTotal(Codes(a), Codes(b));
    if Codes(a) == Codes(b) { CodesDiffer(a, b); }
  }
}
