/** Compact ASCII JSON as `json.dumps` writes it, and a reader for ASCII JSON as `json.loads` takes it
    (fractions and exponents aside). */
module Json {
  import opened Common
  import opened Numerals

  /** Python text: code points, lone surrogates included. */
  type CodePoint = c: int | 0 <= c < 0x110000
  type Text = seq<CodePoint>

  datatype Value =
    | Null
    | Bool(b: bool)
    | Num(n: int)
    | Str(text: Text)
    | Arr(items: seq<Value>)
    | Obj(members: seq<Member>)

  datatype Member = Member(key: Text, value: Value)

  const QUOTE: Byte := 34
  const COMMA: Byte := 44
  const COLON: Byte := 58
  const BACKSLASH: Byte := 92
  const LETTER_U: Byte := 117
  const OPEN_ARR: Byte := 91
  const CLOSE_ARR: Byte := 93
  const OPEN_OBJ: Byte := 123
  const CLOSE_OBJ: Byte := 125

  // ----- Escapes

  function HexDigit(n: nat): Byte
    requires n < 16
  {
    if n < 10 then 48 + n else 87 + n
  }

  function Unhex(b: Byte): Option<nat> {
    if 48 <= b <= 57 then Some(b - 48)
    else if 97 <= b <= 102 then Some(b - 87)
    else if 65 <= b <= 70 then Some(b - 55)
    else None
  }

  /** A UTF-16 unit as `\uXXXX`. */
  function Unit(n: int): Bytes
    requires 0 <= n < 0x10000
  {
    [BACKSLASH, LETTER_U, HexDigit(n / 4096), HexDigit(n / 256 % 16), HexDigit(n / 16 % 16), HexDigit(n % 16)]
  }

  predicate High(c: int) { 0xD800 <= c < 0xDC00 }
  predicate Low(c: int) { 0xDC00 <= c < 0xE000 }

  function Combine(high: int, low: int): CodePoint
    requires High(high) && Low(low)
  {
    0x10000 + (high - 0xD800) * 1024 + (low - 0xDC00)
  }

  function HighOf(c: CodePoint): (h: int)
    requires c >= 0x10000
    ensures High(h)
  {
    0xD800 + (c - 0x10000) / 1024
  }

  function LowOf(c: CodePoint): (l: int)
    requires c >= 0x10000
    ensures Low(l)
  {
    0xDC00 + (c - 0x10000) % 1024
  }

  /** The letter of a short escape. */
  function Short(c: CodePoint): Option<Byte> {
    if c == 34 then Some(34) else if c == 92 then Some(92)
    else if c == 8 then Some(98) else if c == 12 then Some(102)
    else if c == 10 then Some(110) else if c == 13 then Some(114) else if c == 9 then Some(116)
    else None
  }

  /** What a short escape stands for; the reader also knows the solidus. */
  function Unshort(b: Byte): Option<CodePoint> {
    if b == 34 || b == 92 || b == 47 then Some(b)
    else if b == 98 then Some(8) else if b == 102 then Some(12)
    else if b == 110 then Some(10) else if b == 114 then Some(13) else if b == 116 then Some(9)
    else None
  }

  function Escape(c: CodePoint): Bytes {
    if Short(c).Some? then [BACKSLASH, Short(c).value]
    else if 32 <= c <= 126 then [c]
    else if c < 0x10000 then Unit(c)
    else Unit(HighOf(c)) + Unit(LowOf(c))
  }

  function EscapeAll(t: Text): Bytes {
    if t == [] then [] else Escape(t[0]) + EscapeAll(t[1..])
  }

  // ----- Writing

  function DumpStr(t: Text): Bytes { [QUOTE] + EscapeAll(t) + [QUOTE] }

  function Dump(v: Value): Bytes
    decreases v
  {
    match v
    case Null => [110, 117, 108, 108]
    case Bool(b) => if b then [116, 114, 117, 101] else [102, 97, 108, 115, 101]
    case Num(n) => Decimal(n)
    case Str(t) => DumpStr(t)
    case Arr(items) => [OPEN_ARR] + DumpItems(items) + [CLOSE_ARR]
    case Obj(members) => [OPEN_OBJ] + DumpMembers(members) + [CLOSE_OBJ]
  }

  function DumpItems(items: seq<Value>): Bytes
    decreases items
  {
    if items == [] then []
    else if |items| == 1 then Dump(items[0])
    else Dump(items[0]) + [COMMA] + DumpItems(items[1..])
  }

  function DumpMembers(members: seq<Member>): Bytes
    decreases members
  {
    if members == [] then []
    else if |members| == 1 then DumpMember(members[0])
    else DumpMember(members[0]) + [COMMA] + DumpMembers(members[1..])
  }

  function DumpMember(m: Member): Bytes
    decreases m
  {
    DumpStr(m.key) + [COLON] + Dump(m.value)
  }

  // ----- Reading

  predicate IsSpace(b: Byte) { b == 32 || b == 9 || b == 10 || b == 13 }

  function Skip(s: Bytes): (r: Bytes)
    ensures |r| <= |s|
  {
    if s != [] && IsSpace(s[0]) then Skip(s[1..]) else s
  }

  /** A `\uXXXX` escape at the front. */
  function ReadUnit(s: Bytes): (r: Option<Rest<int>>)
    ensures r.Some? ==> 0 <= r.value.value < 0x10000 && |r.value.rest| + 6 == |s|
  {
    if |s| < 6 || s[0] != BACKSLASH || s[1] != LETTER_U then None
    else
      var a, b, c, d := Unhex(s[2]), Unhex(s[3]), Unhex(s[4]), Unhex(s[5]);
      if a.None? || b.None? || c.None? || d.None? then None
      else Some(Rest(a.value * 4096 + b.value * 256 + c.value * 16 + d.value, s[6..]))
  }

  /** One character of a string: surrogate escapes that follow each other become one code point. */
  function ReadChar(s: Bytes): (r: Option<Rest<CodePoint>>)
    ensures r.Some? ==> |r.value.rest| < |s|
  {
    if s == [] || s[0] == QUOTE || s[0] < 32 || s[0] > 127 then None
    else if s[0] != BACKSLASH then Some(Rest(s[0], s[1..]))
    else if |s| < 2 then None
    else if s[1] != LETTER_U then
      match Unshort(s[1]) case None => None case Some(c) => Some(Rest(c, s[2..]))
    else
      match ReadUnit(s)
      case None => None
      case Some(Rest(high, rest)) =>
        var next := ReadUnit(rest);
        if High(high) && next.Some? && Low(next.value.value)
        then Some(Rest(Combine(high, next.value.value), next.value.rest))
        else Some(Rest(high, rest))
  }

  /** The rest of a string after its opening quote. */
  function ReadText(s: Bytes): (r: Option<Rest<Text>>)
    ensures r.Some? ==> |r.value.rest| < |s|
    decreases |s|
  {
    if s == [] then None
    else if s[0] == QUOTE then Some(Rest([], s[1..]))
    else
      match ReadChar(s)
      case None => None
      case Some(Rest(c, more)) =>
        match ReadText(more) case None => None case Some(Rest(t, rest)) => Some(Rest([c] + t, rest))
  }

  predicate Starts(s: Bytes, word: Bytes) { |word| <= |s| && s[..|word|] == word }

  function ReadNum(s: Bytes): (r: Option<Rest<int>>)
    ensures r.Some? ==> |r.value.rest| < |s|
  {
    if s != [] && s[0] == MINUS then
      match ReadNat(s[1..]) case None => None case Some(Rest(n, rest)) => Some(Rest(-n, rest))
    else ReadNat(s)
  }

  function Load(s: Bytes): (r: Option<Rest<Value>>)
    ensures r.Some? ==> |r.value.rest| < |s|
    decreases |s|, 0
  {
    if s == [] then None
    else if s[0] == QUOTE then
      match ReadText(s[1..]) case None => None case Some(Rest(t, rest)) => Some(Rest(Str(t), rest))
    else if s[0] == OPEN_ARR then
      var t := Skip(s[1..]);
      if t != [] && t[0] == CLOSE_ARR then Some(Rest(Arr([]), t[1..]))
      else match LoadItems(t) case None => None case Some(Rest(items, rest)) => Some(Rest(Arr(items), rest))
    else if s[0] == OPEN_OBJ then
      var t := Skip(s[1..]);
      if t != [] && t[0] == CLOSE_OBJ then Some(Rest(Obj([]), t[1..]))
      else match LoadMembers(t) case None => None case Some(Rest(members, rest)) => Some(Rest(Obj(members), rest))
    else if Starts(s, [110, 117, 108, 108]) then Some(Rest(Null, s[4..]))
    else if Starts(s, [116, 114, 117, 101]) then Some(Rest(Bool(true), s[4..]))
    else if Starts(s, [102, 97, 108, 115, 101]) then Some(Rest(Bool(false), s[5..]))
    else
      match ReadNum(s) case None => None case Some(Rest(n, rest)) => Some(Rest(Num(n), rest))
  }

  /** One item or more, and the closing bracket. */
  function LoadItems(s: Bytes): (r: Option<Rest<seq<Value>>>)
    ensures r.Some? ==> |r.value.rest| < |s|
    decreases |s|, 1
  {
    match Load(s)
    case None => None
    case Some(Rest(v, more)) =>
      var t := Skip(more);
      if t == [] then None
      else if t[0] == CLOSE_ARR then Some(Rest([v], t[1..]))
      else if t[0] != COMMA then None
      else
        match LoadItems(Skip(t[1..])) case None => None case Some(Rest(items, rest)) => Some(Rest([v] + items, rest))
  }

  function LoadMember(s: Bytes): (r: Option<Rest<Member>>)
    ensures r.Some? ==> |r.value.rest| < |s|
    decreases |s|, 1
  {
    if s == [] || s[0] != QUOTE then None
    else
      match ReadText(s[1..])
      case None => None
      case Some(Rest(key, more)) =>
        var t := Skip(more);
        if t == [] || t[0] != COLON then None
        else
          match Load(Skip(t[1..])) case None => None case Some(Rest(v, rest)) => Some(Rest(Member(key, v), rest))
  }

  /** One member or more, and the closing brace. */
  function LoadMembers(s: Bytes): (r: Option<Rest<seq<Member>>>)
    ensures r.Some? ==> |r.value.rest| < |s|
    decreases |s|, 2
  {
    match LoadMember(s)
    case None => None
    case Some(Rest(m, more)) =>
      var t := Skip(more);
      if t == [] then None
      else if t[0] == CLOSE_OBJ then Some(Rest([m], t[1..]))
      else if t[0] != COMMA then None
      else
        match LoadMembers(Skip(t[1..]))
        case None => None
        case Some(Rest(members, rest)) => Some(Rest([m] + members, rest))
  }

  /** A whole document. */
  function Loads(s: Bytes): Option<Value> {
    match Load(Skip(s)) case None => None case Some(Rest(v, rest)) => if Skip(rest) == [] then Some(v) else None
  }

  // ----- Strings

  /** Adjacent surrogates, high then low, become the code point they encode. */
  function Joined(t: Text): Text {
    if t == [] then []
    else if |t| > 1 && High(t[0]) && Low(t[1]) then [Combine(t[0], t[1])] + Joined(t[2..])
    else [t[0]] + Joined(t[1..])
  }

  ghost predicate HasPair(t: Text) { exists i :: 0 <= i < |t| - 1 && High(t[i]) && Low(t[i + 1]) }

  lemma UnhexHex(n: nat)
    requires n < 16
    ensures Unhex(HexDigit(n)) == Some(n)
  {
  }

  lemma HexSplit(n: int)
    requires 0 <= n < 0x10000
    ensures n / 4096 * 4096 + n / 256 % 16 * 256 + n / 16 % 16 * 16 + n % 16 == n
  {
    var p, q, r := n / 16, n / 256, n / 4096;
    assert q == p / 16 && r == q / 16;
  }

  lemma ReadsHex(a: nat, b: nat, c: nat, d: nat, rest: Bytes)
    requires a < 16 && b < 16 && c < 16 && d < 16
    ensures ReadUnit([BACKSLASH, LETTER_U, HexDigit(a), HexDigit(b), HexDigit(c), HexDigit(d)] + rest)
            == Some(Rest(a * 4096 + b * 256 + c * 16 + d, rest))
  {
    UnhexHex(a); UnhexHex(b); UnhexHex(c); UnhexHex(d);
    var s := [BACKSLASH, LETTER_U, HexDigit(a), HexDigit(b), HexDigit(c), HexDigit(d)] + rest;
    assert s[6..] == rest;
  }

  lemma ReadsUnit(n: int, rest: Bytes)
    requires 0 <= n < 0x10000
    ensures ReadUnit(Unit(n) + rest) == Some(Rest(n, rest))
  {
    HexSplit(n);
    ReadsHex(n / 4096, n / 256 % 16, n / 16 % 16, n % 16, rest);
  }

  lemma CombineSplit(c: CodePoint)
    requires c >= 0x10000
    ensures Combine(HighOf(c), LowOf(c)) == c
  {
  }

  /** The front of an escaped text reads as a unit only if its first character is written as one. */
  lemma FrontUnit(t: Text, rest: Bytes)
    ensures var u := ReadUnit(EscapeAll(t) + ([QUOTE] + rest));
            u.Some? && Low(u.value.value) ==> t != [] && Low(t[0])
  {
    var s := EscapeAll(t) + ([QUOTE] + rest);
    if t == [] {
      assert s == [QUOTE] + rest;
    } else {
      var tail := EscapeAll(t[1..]) + ([QUOTE] + rest);
      assert s == Escape(t[0]) + tail;
      FrontEscape(t[0], tail);
    }
  }

  lemma FrontEscape(c: CodePoint, tail: Bytes)
    ensures var u := ReadUnit(Escape(c) + tail); u.Some? && Low(u.value.value) ==> Low(c)
  {
    var s := Escape(c) + tail;
    if Short(c).Some? {
      assert s[1] == Short(c).value != LETTER_U;
    } else if 32 <= c <= 126 {
      assert s[0] == c != BACKSLASH;
    } else if c < 0x10000 {
      ReadsUnit(c, tail);
    } else {
      assert s == Unit(HighOf(c)) + (Unit(LowOf(c)) + tail);
      ReadsUnit(HighOf(c), Unit(LowOf(c)) + tail);
    }
  }

  /** One written character reads back, unless it is a high surrogate followed by a low one. */
  lemma ReadsChar(c: CodePoint, tail: Bytes)
    requires High(c) ==> var u := ReadUnit(tail); !(u.Some? && Low(u.value.value))
    ensures ReadChar(Escape(c) + tail) == Some(Rest(c, tail))
    ensures (Escape(c) + tail)[0] != QUOTE
  {
    var s := Escape(c) + tail;
    if Short(c).Some? {
      assert s[1] == Short(c).value && s[2..] == tail;
    } else if 32 <= c <= 126 {
      assert s[1..] == tail;
    } else if c < 0x10000 {
      ReadsUnit(c, tail);
    } else {
      assert s == Unit(HighOf(c)) + (Unit(LowOf(c)) + tail);
      ReadsUnit(HighOf(c), Unit(LowOf(c)) + tail);
      ReadsUnit(LowOf(c), tail);
      CombineSplit(c);
    }
  }

  lemma ReadsPair(high: CodePoint, low: CodePoint, tail: Bytes)
    requires High(high) && Low(low)
    ensures ReadChar(Escape(high) + (Escape(low) + tail)) == Some(Rest(Combine(high, low), tail))
    ensures (Escape(high) + (Escape(low) + tail))[0] != QUOTE
  {
    ReadsUnit(high, Escape(low) + tail);
    ReadsUnit(low, tail);
  }

  /** An escaped string reads as the text with its adjacent surrogates joined. */
  lemma {:induction false} ReadsText(t: Text, rest: Bytes)
    ensures ReadText(EscapeAll(t) + ([QUOTE] + rest)) == Some(Rest(Joined(t), rest))
    decreases |t|
  {
    var end := [QUOTE] + rest;
    if t == [] {
      assert EscapeAll(t) + end == end && end[1..] == rest;
    } else if |t| > 1 && High(t[0]) && Low(t[1]) {
      var tail := EscapeAll(t[2..]) + end;
      assert t[1..][1..] == t[2..];
      Regroup4(Escape(t[0]), Escape(t[1]), EscapeAll(t[2..]), end);
      ReadsPair(t[0], t[1], tail);
      ReadsText(t[2..], rest);
    } else {
      var tail := EscapeAll(t[1..]) + end;
      Regroup3(Escape(t[0]), EscapeAll(t[1..]), end);
      FrontUnit(t[1..], rest);
      ReadsChar(t[0], tail);
      ReadsText(t[1..], rest);
    }
  }

  lemma Regroup3(a: Bytes, b: Bytes, c: Bytes)
    ensures (a + b) + c == a + (b + c)
  {
  }

  lemma Regroup4(a: Bytes, b: Bytes, c: Bytes, d: Bytes)
    ensures (a + (b + c)) + d == a + (b + (c + d))
  {
  }

  /** A text without a surrogate pair comes back as it was; one with a pair never does. */
  lemma {:induction false} JoinedSame(t: Text)
    ensures Joined(t) == t <==> !HasPair(t)
    ensures |Joined(t)| <= |t|
    decreases |t|
  {
    if t != [] && !(|t| > 1 && High(t[0]) && Low(t[1])) {
      JoinedSame(t[1..]);
      assert t == [t[0]] + t[1..];
      if HasPair(t) {
        var i :| 0 <= i < |t| - 1 && High(t[i]) && Low(t[i + 1]);
        assert High(t[1..][i - 1]) && Low(t[1..][i - 1 + 1]);
      }
      if HasPair(t[1..]) {
        var i :| 0 <= i < |t[1..]| - 1 && High(t[1..][i]) && Low(t[1..][i + 1]);
        assert High(t[i + 1]) && Low(t[i + 1 + 1]);
      }
    } else if t != [] {
      JoinedSame(t[2..]);
    }
  }

  // ----- Values

  /** The value with adjacent surrogates joined in every string. */
  function JoinedValue(v: Value): Value
    decreases v
  {
    match v
    case Str(t) => Str(Joined(t))
    case Arr(items) => Arr(JoinedItems(items))
    case Obj(members) => Obj(JoinedMembers(members))
    case _ => v
  }

  function JoinedItems(items: seq<Value>): seq<Value>
    decreases items
  {
    if items == [] then [] else [JoinedValue(items[0])] + JoinedItems(items[1..])
  }

  function JoinedMembers(members: seq<Member>): seq<Member>
    decreases members
  {
    if members == [] then [] else [JoinedMember(members[0])] + JoinedMembers(members[1..])
  }

  function JoinedMember(m: Member): Member
    decreases m
  {
    Member(Joined(m.key), JoinedValue(m.value))
  }

  /** What may follow a value. */
  predicate Stops(rest: Bytes) { rest == [] || rest[0] == COMMA || rest[0] == CLOSE_ARR || rest[0] == CLOSE_OBJ }

  predicate Opens(b: Byte) { !IsSpace(b) && b != CLOSE_ARR && b != CLOSE_OBJ }

  lemma DecimalStart(n: int)
    ensures Decimal(n) != [] && (IsDigit(Decimal(n)[0]) || Decimal(n)[0] == MINUS)
  {
    DigitsRead(if n < 0 then -n else n);
  }

  lemma FirstByte(v: Value)
    ensures Dump(v) != [] && Opens(Dump(v)[0])
  {
    if v.Num? { DecimalStart(v.n); }
  }

  lemma ReadsNum(n: int, rest: Bytes)
    requires Stops(rest)
    ensures Load(Decimal(n) + rest) == Some(Rest(Num(n), rest))
  {
    DecimalStart(n);
    ReadsDecimal(n, rest);
    assert (Decimal(n) + rest)[0] == Decimal(n)[0];
    LoadsNum(Decimal(n) + rest);
  }

  /** What starts like a number is read as one. */
  lemma LoadsNum(s: Bytes)
    requires s != [] && (IsDigit(s[0]) || s[0] == MINUS) && ReadNum(s).Some?
    ensures Load(s) == Some(Rest(Num(ReadNum(s).value.value), ReadNum(s).value.rest))
  {
    OtherStart(s, [110, 117, 108, 108]);
    OtherStart(s, [116, 114, 117, 101]);
    OtherStart(s, [102, 97, 108, 115, 101]);
  }

  lemma OtherStart(s: Bytes, word: Bytes)
    requires s != [] && word != [] && s[0] != word[0]
    ensures !Starts(s, word)
  {
    assert |word| <= |s| ==> s[..|word|][0] == s[0];
  }

  lemma ReadsDecimal(n: int, rest: Bytes)
    requires Stops(rest)
    ensures ReadNum(Decimal(n) + rest) == Some(Rest(n, rest))
  {
    if n < 0 {
      ReadsMinus(-n, rest);
      Regroup3([MINUS], Digits(-n), rest);
    } else {
      ReadsPlus(n, rest);
    }
  }

  lemma ReadsMinus(m: int, rest: Bytes)
    requires Stops(rest) && m > 0
    ensures ReadNum([MINUS] + (Digits(m) + rest)) == Some(Rest(-m, rest))
  {
    var s := Digits(m) + rest;
    ReadsNat(m, rest);
    assert ([MINUS] + s)[1..] == s;
  }

  lemma ReadsPlus(n: int, rest: Bytes)
    requires Stops(rest) && n >= 0
    ensures ReadNum(Digits(n) + rest) == Some(Rest(n, rest))
  {
    ReadsNat(n, rest);
    DigitsRead(n);
    assert IsDigit((Digits(n) + rest)[0]);
  }

  lemma ReadsStr(t: Text, rest: Bytes)
    ensures Load(DumpStr(t) + rest) == Some(Rest(Str(Joined(t)), rest))
    ensures (DumpStr(t) + rest)[0] == QUOTE && ReadText((DumpStr(t) + rest)[1..]) == Some(Rest(Joined(t), rest))
  {
    ReadsText(t, rest);
    Enclosed(QUOTE, EscapeAll(t), QUOTE, rest);
  }

  lemma Enclosed(open: Byte, body: Bytes, close: Byte, rest: Bytes)
    ensures var s := [open] + body + [close] + rest; s[0] == open && s[1..] == body + ([close] + rest)
  {
  }

  lemma ReadsWord(word: Bytes, rest: Bytes)
    ensures Starts(word + rest, word) && (word + rest)[|word|..] == rest
  {
  }

  lemma {:induction false} ReadsValue(v: Value, rest: Bytes)
    requires Stops(rest)
    ensures Load(Dump(v) + rest) == Some(Rest(JoinedValue(v), rest))
    decreases v
  {
    match v
    case Null => ReadsWord(Dump(v), rest);
    case Bool(_) => ReadsWord(Dump(v), rest);
    case Num(n) => ReadsNum(n, rest);
    case Str(t) => ReadsStr(t, rest);
    case Arr(items) =>
      if items != [] { ReadsItems(items, rest); }
      LoadsArr(items, rest);
    case Obj(members) =>
      if members != [] { ReadsMembers(members, rest); }
      LoadsObj(members, rest);
  }

  lemma LoadsArr(items: seq<Value>, rest: Bytes)
    requires items != [] ==>
               LoadItems(DumpItems(items) + ([CLOSE_ARR] + rest)) == Some(Rest(JoinedItems(items), rest))
    ensures Load([OPEN_ARR] + DumpItems(items) + [CLOSE_ARR] + rest) == Some(Rest(Arr(JoinedItems(items)), rest))
  {
    Enclosed(OPEN_ARR, DumpItems(items), CLOSE_ARR, rest);
    if items == [] { Empty(CLOSE_ARR, rest); } else { ItemsStart(items, [CLOSE_ARR] + rest); }
  }

  lemma LoadsObj(members: seq<Member>, rest: Bytes)
    requires members != [] ==>
               LoadMembers(DumpMembers(members) + ([CLOSE_OBJ] + rest)) == Some(Rest(JoinedMembers(members), rest))
    ensures Load([OPEN_OBJ] + DumpMembers(members) + [CLOSE_OBJ] + rest)
            == Some(Rest(Obj(JoinedMembers(members)), rest))
  {
    Enclosed(OPEN_OBJ, DumpMembers(members), CLOSE_OBJ, rest);
    if members == [] { Empty(CLOSE_OBJ, rest); } else { MembersStart(members, [CLOSE_OBJ] + rest); }
  }

  lemma Empty(close: Byte, rest: Bytes)
    requires !IsSpace(close)
    ensures [] + ([close] + rest) == [close] + rest && Skip([close] + rest) == [close] + rest &&
            ([close] + rest)[1..] == rest
  {
  }

  lemma ItemsStart(items: seq<Value>, rest: Bytes)
    requires items != []
    ensures var s := DumpItems(items) + rest; s != [] && Opens(s[0]) && Skip(s) == s
  {
    FirstByte(items[0]);
  }

  lemma MembersStart(members: seq<Member>, rest: Bytes)
    requires members != []
    ensures var s := DumpMembers(members) + rest; s != [] && s[0] == QUOTE && Skip(s) == s
  {
    assert DumpMember(members[0])[0] == QUOTE;
  }

  lemma {:induction false} ReadsItems(items: seq<Value>, rest: Bytes)
    requires items != []
    ensures LoadItems(DumpItems(items) + ([CLOSE_ARR] + rest)) == Some(Rest(JoinedItems(items), rest))
    decreases items
  {
    var end := [CLOSE_ARR] + rest;
    if |items| == 1 {
      ReadsValue(items[0], end);
      Empty(CLOSE_ARR, rest);
      assert JoinedItems(items[1..]) == [];
      assert JoinedItems(items) == [JoinedValue(items[0])];
    } else {
      var others := DumpItems(items[1..]) + end;
      Regroup5(Dump(items[0]), [COMMA], DumpItems(items[1..]), end);
      ReadsValue(items[0], [COMMA] + others);
      Empty(COMMA, others);
      ItemsStart(items[1..], end);
      ReadsItems(items[1..], rest);
    }
  }

  lemma Regroup5(a: Bytes, b: Bytes, c: Bytes, d: Bytes)
    ensures (a + b + c) + d == a + (b + (c + d))
  {
  }

  lemma {:induction false} ReadsMember(m: Member, rest: Bytes)
    requires Stops(rest)
    ensures LoadMember(DumpMember(m) + rest) == Some(Rest(JoinedMember(m), rest))
    decreases m
  {
    var tail := Dump(m.value) + rest;
    Regroup5(DumpStr(m.key), [COLON], Dump(m.value), rest);
    ReadsStr(m.key, [COLON] + tail);
    Empty(COLON, tail);
    FirstByte(m.value);
    assert Skip(tail) == tail;
    ReadsValue(m.value, rest);
  }

  lemma {:induction false} ReadsMembers(members: seq<Member>, rest: Bytes)
    requires members != []
    ensures LoadMembers(DumpMembers(members) + ([CLOSE_OBJ] + rest)) == Some(Rest(JoinedMembers(members), rest))
    decreases members
  {
    var end := [CLOSE_OBJ] + rest;
    if |members| == 1 {
      ReadsMember(members[0], end);
      Empty(CLOSE_OBJ, rest);
      assert JoinedMembers(members[1..]) == [];
      assert JoinedMembers(members) == [JoinedMember(members[0])];
    } else {
      var others := DumpMembers(members[1..]) + end;
      Regroup5(DumpMember(members[0]), [COMMA], DumpMembers(members[1..]), end);
      ReadsMember(members[0], [COMMA] + others);
      Empty(COMMA, others);
      MembersStart(members[1..], end);
      ReadsMembers(members[1..], rest);
    }
  }

  /** Every value reads back, with adjacent surrogates joined. */
  lemma DumpLoads(v: Value)
    ensures Loads(Dump(v)) == Some(JoinedValue(v))
  {
    FirstByte(v);
    ReadsValue(v, []);
    assert Dump(v) + [] == Dump(v);
  }
}
