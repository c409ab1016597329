/** Byte strings and decimal numerals: writing, and strict reading. */
module Numerals {
  import opened Common

  type Byte = b: int | 0 <= b < 256
  type Bytes = seq<Byte>

  const MINUS: Byte := 45

  function Digits(n: nat): Bytes {
    if n < 10 then [48 + n] else Digits(n / 10) + [48 + n % 10]
  }

  function Decimal(n: int): Bytes { if n < 0 then [MINUS] + Digits(-n) else Digits(n) }

  predicate IsDigit(b: int) { 48 <= b <= 57 }

  function DigitRun(s: Bytes): (n: nat)
    ensures n <= |s| && (forall i :: 0 <= i < n ==> IsDigit(s[i])) && (n < |s| ==> !IsDigit(s[n]))
  {
    if s == [] || !IsDigit(s[0]) then 0 else 1 + DigitRun(s[1..])
  }

  predicate AllDigits(s: seq<int>) { forall i :: 0 <= i < |s| ==> IsDigit(s[i]) }

  function Number(s: seq<int>): (n: int)
    requires AllDigits(s)
    ensures n >= 0
  {
    if s == [] then 0 else assert IsDigit(s[|s| - 1]); Number(s[..|s| - 1]) * 10 + (s[|s| - 1] - 48)
  }

  /** At least one digit, and no leading zero. */
  predicate Plain(s: Bytes) { |s| > 0 && (s[0] != 48 || |s| == 1) }

  datatype Rest<T> = Rest(value: T, rest: Bytes)

  function ReadNat(s: Bytes): (r: Option<Rest<int>>)
    ensures r.Some? ==> r.value.value >= 0 && |r.value.rest| < |s|
  {
    var n := DigitRun(s);
    if Plain(s[..n]) then Some(Rest(Number(s[..n]), s[n..])) else None
  }

  lemma {:induction false} DigitsRead(n: nat)
    ensures AllDigits(Digits(n)) && Plain(Digits(n)) && Number(Digits(n)) == n
    ensures n > 0 ==> Digits(n)[0] != 48
  {
    if n < 10 {
    } else {
      DigitsRead(n / 10);
      assert Digits(n)[..|Digits(n)| - 1] == Digits(n / 10);
    }
  }

  lemma {:induction false} NumberWrites(s: Bytes)
    requires AllDigits(s) && Plain(s)
    ensures Digits(Number(s)) == s && (s[0] != 48 ==> Number(s) > 0)
  {
    if |s| == 1 {
      assert Number(s[..0]) == 0;
      assert s == [s[0]];
    } else {
      var t := s[..|s| - 1];
      NumberWrites(t);
      assert s == t + [s[|s| - 1]];
      assert Number(s) / 10 == Number(t) && Number(s) % 10 == s[|s| - 1] - 48;
    }
  }

  lemma {:induction false} RunStops(a: Bytes, b: Bytes)
    requires AllDigits(a) && (b == [] || !IsDigit(b[0]))
    ensures DigitRun(a + b) == |a|
  {
    if a == [] { assert a + b == b; } else {
      RunStops(a[1..], b);
      assert (a + b)[1..] == a[1..] + b;
    }
  }

  lemma ReadsNat(n: int, rest: Bytes)
    requires n >= 0 && (rest == [] || !IsDigit(rest[0]))
    ensures ReadNat(Digits(n) + rest) == Some(Rest(n, rest))
  {
    DigitsRead(n);
    RunStops(Digits(n), rest);
    assert (Digits(n) + rest)[..|Digits(n)|] == Digits(n) && (Digits(n) + rest)[|Digits(n)|..] == rest;
  }

  lemma WritesNat(s: Bytes)
    requires ReadNat(s).Some?
    ensures s == Digits(ReadNat(s).value.value) + ReadNat(s).value.rest
  {
    NumberWrites(s[..DigitRun(s)]);
  }
}
