/** The URL-safe base64 alphabet without padding (sections 3.2 and 5 of RFC 4648). */
module Base64 {
  import opened Common
  import opened Numerals

  const PAD := 61

  /** The letter of a sextet: A-Z, a-z, 0-9, minus, underscore. */
  function Letter(n: int): (b: Byte)
    requires 0 <= n < 64
    ensures b != PAD && b < 128
  {
    if n < 26 then 65 + n else if n < 52 then 71 + n else if n < 62 then n - 4 else if n == 62 then 45 else 95
  }

  /** The sextet of a letter; the standard plus and solidus are understood as well. */
  function Sextet(c: int): (r: Option<int>)
    ensures r.Some? ==> 0 <= r.value < 64
  {
    if 65 <= c <= 90 then Some(c - 65)
    else if 97 <= c <= 122 then Some(c - 71)
    else if 48 <= c <= 57 then Some(c + 4)
    else if c == 45 || c == 43 then Some(62)
    else if c == 95 || c == 47 then Some(63)
    else None
  }

  /** Groups of three bytes as four letters, the last group padded. */
  function Padded(b: Bytes): Bytes {
    if b == [] then []
    else if |b| == 1 then [Letter(b[0] / 4), Letter(b[0] % 4 * 16), PAD, PAD]
    else if |b| == 2 then [Letter(b[0] / 4), Letter(b[0] % 4 * 16 + b[1] / 16), Letter(b[1] % 16 * 4), PAD]
    else Group(b[0], b[1], b[2]) + Padded(b[3..])
  }

  function Group(x: Byte, y: Byte, z: Byte): Bytes {
    [Letter(x / 4), Letter(x % 4 * 16 + y / 16), Letter(y % 16 * 4 + z / 64), Letter(z % 64)]
  }

  /** Drops trailing padding. */
  function Unpad(s: seq<int>): seq<int> {
    if s != [] && s[|s| - 1] == PAD then Unpad(s[..|s| - 1]) else s
  }

  function Encode(b: Bytes): seq<int> { Unpad(Padded(b)) }

  /** Padding for a multiple of four. */
  function Repad(s: seq<int>): seq<int> {
    s + (match |s| % 4 case 0 => [] case 1 => [PAD, PAD, PAD] case 2 => [PAD, PAD] case _ => [PAD])
  }

  /** Letters to bytes; left-over bits are ignored. */
  function Bytes4(s: seq<int>): Option<Bytes> {
    if s == [] then Some([])
    else if |s| == 1 then None
    else
      var p, q := Sextet(s[0]), Sextet(s[1]);
      if p.None? || q.None? then None
      else
        var x := p.value * 4 + q.value / 16;
        if |s| == 2 then Some([x])
        else
          var r := Sextet(s[2]);
          if r.None? then None
          else
            var y := q.value % 16 * 16 + r.value / 4;
            if |s| == 3 then Some([x, y])
            else
              var t, rest := Sextet(s[3]), Bytes4(s[4..]);
              if t.None? || rest.None? then None else Some([x, y, r.value % 4 * 64 + t.value] + rest.value)
  }

  /** At most two padding signs, and only at the end. */
  function Decode(s: seq<int>): Option<Bytes> {
    var data := Unpad(s);
    if |s| % 4 != 0 || |s| - |data| > 2 then None else Bytes4(data)
  }

  // ----- Round trip

  lemma LetterSextet(n: int)
    requires 0 <= n < 64
    ensures Sextet(Letter(n)) == Some(n)
  {
  }

  /** The encoding without its padding, group by group. */
  function Unpadded(b: Bytes): seq<int> {
    if b == [] then []
    else if |b| == 1 then [Letter(b[0] / 4), Letter(b[0] % 4 * 16)]
    else if |b| == 2 then [Letter(b[0] / 4), Letter(b[0] % 4 * 16 + b[1] / 16), Letter(b[1] % 16 * 4)]
    else Group(b[0], b[1], b[2]) + Unpadded(b[3..])
  }

  ghost function Signs(n: nat): seq<int> { seq(n, _ => PAD) }

  ghost predicate NoPad(s: seq<int>) { forall i :: 0 <= i < |s| ==> s[i] != PAD }

  lemma {:induction false} UnpadSigns(s: seq<int>, n: nat)
    requires NoPad(s)
    ensures Unpad(s + Signs(n)) == s
  {
    if n == 0 {
      assert s + Signs(0) == s;
    } else {
      UnpadSigns(s, n - 1);
      assert (s + Signs(n))[..|s| + n - 1] == s + Signs(n - 1);
    }
  }

  function Missing(n: nat): nat { match n % 3 case 0 => 0 case 1 => 2 case _ => 1 }

  lemma {:induction false} PaddedShape(b: Bytes)
    ensures NoPad(Unpadded(b)) && Padded(b) == Unpadded(b) + Signs(Missing(|b|))
    decreases |b|
  {
    if |b| < 3 {
    } else {
      PaddedShape(b[3..]);
      MissingGroup(|b|);
      Regroup(Group(b[0], b[1], b[2]), Unpadded(b[3..]), Signs(Missing(|b|)));
    }
  }

  lemma MissingGroup(n: nat)
    requires n >= 3
    ensures Missing(n) == Missing(n - 3)
  {
  }

  lemma Regroup(a: seq<int>, b: seq<int>, d: seq<int>)
    ensures a + (b + d) == a + b + d
  {
  }

  lemma {:induction false} UnpaddedLength(b: Bytes)
    ensures |Unpadded(b)| + Missing(|b|) == |b| / 3 * 4 + (if |b| % 3 == 0 then 0 else 4)
    decreases |b|
  {
    if |b| < 3 {
    } else {
      UnpaddedLength(b[3..]);
      MissingGroup(|b|);
    }
  }

  lemma EncodeIsUnpadded(b: Bytes)
    ensures Encode(b) == Unpadded(b)
    ensures |Encode(b)| <= (|b| * 4 + 2) / 3
    ensures |Encode(b)| % 4 == (4 - Missing(|b|)) % 4
  {
    PaddedShape(b);
    UnpaddedLength(b);
    UnpadSigns(Unpadded(b), Missing(|b|));
    EncodedLength(|b|, |Unpadded(b)|);
  }

  lemma EncodedLength(n: nat, length: nat)
    requires length + Missing(n) == n / 3 * 4 + (if n % 3 == 0 then 0 else 4)
    ensures length <= (n * 4 + 2) / 3 && length % 4 == (4 - Missing(n)) % 4
  {
    var k, r := n / 3, n % 3;
    assert n == 3 * k + r && n * 4 == 12 * k + 4 * r;
    assert length == 4 * k + (match r case 0 => 0 case 1 => 2 case _ => 3);
  }

  lemma OneByte(x: Byte)
    ensures var p, q := x / 4, x % 4 * 16; 0 <= p < 64 && 0 <= q < 64 && p * 4 + q / 16 == x
  {
  }

  lemma TwoBytes(x: Byte, y: Byte)
    ensures var p, q, r := x / 4, x % 4 * 16 + y / 16, y % 16 * 4;
            0 <= p < 64 && 0 <= q < 64 && 0 <= r < 64 && p * 4 + q / 16 == x && q % 16 * 16 + r / 4 == y
  {
  }

  lemma ThreeBytes(x: Byte, y: Byte, z: Byte)
    ensures var p, q, r, t := x / 4, x % 4 * 16 + y / 16, y % 16 * 4 + z / 64, z % 64;
            && 0 <= p < 64 && 0 <= q < 64 && 0 <= r < 64 && 0 <= t < 64
            && p * 4 + q / 16 == x && q % 16 * 16 + r / 4 == y && r % 4 * 64 + t == z
  {
  }

  lemma FourLetters(p: int, q: int, r: int, t: int, x: Byte, y: Byte, z: Byte, rest: seq<int>)
    requires 0 <= p < 64 && 0 <= q < 64 && 0 <= r < 64 && 0 <= t < 64 && Bytes4(rest).Some?
    requires p * 4 + q / 16 == x && q % 16 * 16 + r / 4 == y && r % 4 * 64 + t == z
    ensures Bytes4([Letter(p), Letter(q), Letter(r), Letter(t)] + rest) == Some([x, y, z] + Bytes4(rest).value)
  {
    var s := [Letter(p), Letter(q), Letter(r), Letter(t)] + rest;
    LetterSextet(p);
    LetterSextet(q);
    LetterSextet(r);
    LetterSextet(t);
    assert s[4..] == rest;
  }

  lemma ReadsGroup(x: Byte, y: Byte, z: Byte, rest: seq<int>)
    requires Bytes4(rest).Some?
    ensures Bytes4(Group(x, y, z) + rest) == Some([x, y, z] + Bytes4(rest).value)
  {
    ThreeBytes(x, y, z);
    FourLetters(x / 4, x % 4 * 16 + y / 16, y % 16 * 4 + z / 64, z % 64, x, y, z, rest);
  }

  lemma ReadsOne(x: Byte)
    ensures Bytes4([Letter(x / 4), Letter(x % 4 * 16)]) == Some([x])
  {
    OneByte(x);
    LetterSextet(x / 4);
    LetterSextet(x % 4 * 16);
  }

  lemma ReadsTwo(x: Byte, y: Byte)
    ensures Bytes4([Letter(x / 4), Letter(x % 4 * 16 + y / 16), Letter(y % 16 * 4)]) == Some([x, y])
  {
    TwoBytes(x, y);
    LetterSextet(x / 4);
    LetterSextet(x % 4 * 16 + y / 16);
    LetterSextet(y % 16 * 4);
  }

  lemma {:induction false} UnpaddedReads(b: Bytes)
    ensures Bytes4(Unpadded(b)) == Some(b)
    decreases |b|
  {
    if |b| == 1 {
      ReadsOne(b[0]);
      assert b == [b[0]];
    } else if |b| == 2 {
      ReadsTwo(b[0], b[1]);
      assert b == [b[0], b[1]];
    } else if |b| > 2 {
      UnpaddedReads(b[3..]);
      ReadsGroup(b[0], b[1], b[2], Unpadded(b[3..]));
      assert b == [b[0], b[1], b[2]] + b[3..];
    }
  }

  lemma RepadSigns(s: seq<int>)
    requires |s| % 4 != 1
    ensures exists n :: 0 <= n <= 2 && Repad(s) == s + Signs(n) && |Repad(s)| % 4 == 0
  {
    var n := (4 - |s| % 4) % 4;
    assert Repad(s) == s + Signs(n);
  }

  /** Every byte string survives: encode, strip the padding, restore it, decode. */
  lemma RoundTrip(b: Bytes)
    ensures Decode(Repad(Encode(b))) == Some(b)
  {
    PaddedShape(b);
    EncodeIsUnpadded(b);
    UnpaddedReads(b);
    RepadSigns(Unpadded(b));
    var n :| 0 <= n <= 2 && Repad(Unpadded(b)) == Unpadded(b) + Signs(n) && |Repad(Unpadded(b))| % 4 == 0;
    UnpadSigns(Unpadded(b), n);
  }
}
