/** The opaque reconciliation cursor: compact JSON in unpadded URL-safe base64. */
module Cursor {
  import opened Common
  import opened Numerals
  import opened Json
  import opened Texts
  import Base64

  const MAX_CURSOR := 4096
  const MAX_AFTER := 128
  const MAX_IDS := 16

  datatype Phase = Database | Qbittorrent | Storage

  /** The thirty-two hexadecimal digits of a UUID. */
  type Uuid = u: seq<int> | |u| == 32 && forall i :: 0 <= i < |u| ==> 0 <= u[i] < 16 witness seq(32, _ => 0)

  datatype ReconciliationCursor = ReconciliationCursor(phase: Phase, after: Option<Text>, ids: seq<Uuid>, index: int)

  // ----- Texts

  function Ascii(s: string): Text { Codes(s) }

  function PhaseText(p: Phase): Text {
    match p case Database => Ascii("database") case Qbittorrent => Ascii("qbittorrent") case Storage => Ascii("storage")
  }

  function Hex(digits: seq<int>): Text
    requires forall i :: 0 <= i < |digits| ==> 0 <= digits[i] < 16
  {
    seq(|digits|, i requires 0 <= i < |digits| => HexDigit(digits[i]))
  }

  const HYPHEN: CodePoint := 45

  /** Groups of 8, 4, 4, 4 and 12 digits. */
  function UuidText(u: Uuid): Text {
    Hex(u[..8]) + [HYPHEN] + Hex(u[8..12]) + [HYPHEN] + Hex(u[12..16]) + [HYPHEN] + Hex(u[16..20]) + [HYPHEN]
      + Hex(u[20..])
  }

  function Dehyphen(t: Text): Text {
    if t == [] then [] else (if t[0] == HYPHEN then [] else [t[0]]) + Dehyphen(t[1..])
  }

  function Nibbles(t: Text): (r: Option<seq<int>>)
    ensures r.Some? ==> |r.value| == |t| && forall i :: 0 <= i < |t| ==> 0 <= r.value[i] < 16
  {
    if t == [] then Some([])
    else if t[0] > 127 then None
    else
      var n, rest := Unhex(t[0]), Nibbles(t[1..]);
      if n.None? || rest.None? then None else Some([n.value] + rest.value)
  }

  function ParseUuid(t: Text): Option<Uuid> {
    var digits := Dehyphen(t);
    if |digits| != 32 then None else match Nibbles(digits) case None => None case Some(u) => Some(u)
  }

  // ----- Encoding

  function AfterJson(after: Option<Text>): Value { match after case None => Null case Some(t) => Str(t) }

  function IdsJson(ids: seq<Uuid>): seq<Value> { seq(|ids|, i requires 0 <= i < |ids| => Str(UuidText(ids[i]))) }

  /** Keys in sorted order. */
  function ToJson(c: ReconciliationCursor): Value {
    Obj([
      Member(Ascii("after"), AfterJson(c.after)),
      Member(Ascii("phase"), Str(PhaseText(c.phase))),
      Member(Ascii("snapshot_ids"), Arr(IdsJson(c.ids))),
      Member(Ascii("snapshot_index"), Num(c.index)),
      Member(Ascii("v"), Num(1))])
  }

  function Encode(c: ReconciliationCursor): seq<int> { Base64.Encode(Dump(ToJson(c))) }

  // ----- Decoding

  /** A cursor, the documented error, or an exception that the decoder does not turn into it. */
  datatype Outcome = Accepted(cursor: ReconciliationCursor) | Rejected | Raised

  /** The last member with a key, as a dictionary keeps it. */
  function Lookup(members: seq<Member>, key: Text): Option<Value> {
    if members == [] then None
    else
      var n := |members| - 1;
      if members[n].key == key then Some(members[n].value) else Lookup(members[..n], key)
  }

  function KeyNames(): set<Text> {
    {Ascii("after"), Ascii("phase"), Ascii("snapshot_ids"), Ascii("snapshot_index"), Ascii("v")}
  }

  predicate IsOne(v: Value) { v == Num(1) || v == Bool(true) }

  function ParsePhase(v: Value): Option<Phase> {
    if !v.Str? then None
    else if v.text == Ascii("database") then Some(Database)
    else if v.text == Ascii("qbittorrent") then Some(Qbittorrent)
    else if v.text == Ascii("storage") then Some(Storage)
    else None
  }

  /** A Python boolean is an integer. */
  function ParseIndex(v: Value): (r: Option<int>)
    ensures r.Some? ==> r.value >= 0
  {
    match v
    case Num(n) => if n < 0 then None else Some(n)
    case Bool(b) => Some(if b then 1 else 0)
    case _ => None
  }

  datatype Ids = Parsed(ids: seq<Uuid>) | Bad | Unexpected

  /** A null or unreadable identifier is refused; anything that is no text raises something else. */
  function ParseIds(items: seq<Value>): Ids {
    if items == [] then Parsed([])
    else
      match items[0]
      case Str(t) =>
        (match ParseUuid(t)
         case None => Bad
         case Some(u) => (match ParseIds(items[1..]) case Parsed(ids) => Parsed([u] + ids) case other => other))
      case Null => Bad
      case _ => Unexpected
  }

  predicate DistinctIds(ids: seq<Uuid>) { forall i, j :: 0 <= i < j < |ids| ==> ids[i] != ids[j] }

  function FromJson(v: Value): Outcome {
    if !v.Obj? || (set i | 0 <= i < |v.members| :: v.members[i].key) != KeyNames() then Rejected
    else
      FromFields(Lookup(v.members, Ascii("v")), Lookup(v.members, Ascii("phase")), Lookup(v.members, Ascii("after")),
                 Lookup(v.members, Ascii("snapshot_index")), Lookup(v.members, Ascii("snapshot_ids")))
  }

  function FromFields(version: Option<Value>, phase: Option<Value>, after: Option<Value>, index: Option<Value>,
                      ids: Option<Value>): Outcome {
    if version.None? || phase.None? || after.None? || index.None? || ids.None? then Rejected
    else if !IsOne(version.value) || ParsePhase(phase.value).None? then Rejected
    else if !(after.value.Null? || (after.value.Str? && |after.value.text| <= MAX_AFTER)) then Rejected
    else if ParseIndex(index.value).None? then Rejected
    else if !ids.value.Arr? || |ids.value.items| > MAX_IDS then Rejected
    else
      match ParseIds(ids.value.items)
      case Bad => Rejected
      case Unexpected => Raised
      case Parsed(found) =>
        if !DistinctIds(found) || ParseIndex(index.value).value > |found| then Rejected
        else
          Accepted(ReconciliationCursor(
            ParsePhase(phase.value).value, if after.value.Null? then None else Some(after.value.text), found,
            ParseIndex(index.value).value))
  }

  function Decode(value: seq<int>): Outcome {
    if !(1 <= |value| <= MAX_CURSOR) then Rejected
    else
      match Base64.Decode(Base64.Repad(value))
      case None => Rejected
      case Some(payload) => match Loads(payload) case None => Rejected case Some(v) => FromJson(v)
  }

  /** The bounds that decoding imposes on the fields. */
  ghost predicate InBounds(c: ReconciliationCursor) {
    && (c.after.Some? ==> |c.after.value| <= MAX_AFTER)
    && |c.ids| <= MAX_IDS && DistinctIds(c.ids) && 0 <= c.index <= |c.ids|
  }

  // ----- Identifiers

  lemma {:induction false} DehyphenJoin(a: Text, b: Text)
    ensures Dehyphen(a + b) == Dehyphen(a) + Dehyphen(b)
  {
    if a == [] {
      assert a + b == b;
    } else {
      DehyphenJoin(a[1..], b);
      DehyphenFirst(a, b);
    }
  }

  lemma DehyphenFirst(a: Text, b: Text)
    requires a != [] && Dehyphen(a[1..] + b) == Dehyphen(a[1..]) + Dehyphen(b)
    ensures Dehyphen(a + b) == Dehyphen(a) + Dehyphen(b)
  {
    var head: Text := if a[0] == HYPHEN then [] else [a[0]];
    DehyphenCons(a);
    DehyphenCons(a + b);
    assert (a + b)[0] == a[0] && (a + b)[1..] == a[1..] + b;
    Associate(head, Dehyphen(a[1..]), Dehyphen(b));
  }

  lemma Associate(a: Text, b: Text, c: Text)
    ensures a + (b + c) == (a + b) + c
  {
  }

  lemma DehyphenCons(t: Text)
    requires t != []
    ensures Dehyphen(t) == (if t[0] == HYPHEN then [] else [t[0]]) + Dehyphen(t[1..])
  {
  }

  lemma {:induction false} DehyphenHex(digits: seq<int>)
    requires forall i :: 0 <= i < |digits| ==> 0 <= digits[i] < 16
    ensures Dehyphen(Hex(digits)) == Hex(digits)
  {
    if digits == [] {
    } else {
      DehyphenHex(digits[1..]);
      DehyphenCons(Hex(digits));
      assert Hex(digits)[1..] == Hex(digits[1..]);
      assert Hex(digits) == [HexDigit(digits[0])] + Hex(digits[1..]);
    }
  }

  lemma DehyphenGroup(digits: seq<int>)
    requires forall i :: 0 <= i < |digits| ==> 0 <= digits[i] < 16
    ensures Dehyphen(Hex(digits) + [HYPHEN]) == Hex(digits)
  {
    DehyphenHex(digits);
    DehyphenJoin(Hex(digits), [HYPHEN]);
    assert [HYPHEN][1..] == [];
    assert Dehyphen([HYPHEN]) == [];
  }

  lemma {:induction false} NibblesHex(digits: seq<int>)
    requires forall i :: 0 <= i < |digits| ==> 0 <= digits[i] < 16
    ensures Nibbles(Hex(digits)) == Some(digits)
  {
    if digits == [] {
    } else {
      NibblesHex(digits[1..]);
      assert Hex(digits)[1..] == Hex(digits[1..]);
      UnhexHex(digits[0]);
      assert digits == [digits[0]] + digits[1..];
    }
  }

  lemma HexJoin(a: seq<int>, b: seq<int>)
    requires forall i :: 0 <= i < |a| ==> 0 <= a[i] < 16
    requires forall i :: 0 <= i < |b| ==> 0 <= b[i] < 16
    ensures Hex(a) + Hex(b) == Hex(a + b)
  {
  }

  lemma UuidDigits(u: Uuid)
    ensures Dehyphen(UuidText(u)) == Hex(u)
  {
    var a, b, c, d, e := u[..8], u[8..12], u[12..16], u[16..20], u[20..];
    DehyphenGroup(a);
    DehyphenHex(e);
    var p := Hex(a) + [HYPHEN];
    var q := p + Hex(b) + [HYPHEN];
    var r := q + Hex(c) + [HYPHEN];
    var s := r + Hex(d) + [HYPHEN];
    DehyphenStep(p, b);
    DehyphenStep(q, c);
    DehyphenStep(r, d);
    DehyphenJoin(s, Hex(e));
    HexJoin(a, b);
    HexJoin(a + b, c);
    HexJoin(a + b + c, d);
    HexJoin(a + b + c + d, e);
    assert a + b + c + d + e == u;
  }

  lemma DehyphenStep(p: Text, digits: seq<int>)
    requires forall i :: 0 <= i < |digits| ==> 0 <= digits[i] < 16
    ensures Dehyphen(p + Hex(digits) + [HYPHEN]) == Dehyphen(p) + Hex(digits)
  {
    DehyphenHex(digits);
    DehyphenJoin(p, Hex(digits));
    DehyphenJoin(p + Hex(digits), [HYPHEN]);
  }

  lemma UuidReads(u: Uuid)
    ensures ParseUuid(UuidText(u)) == Some(u)
  {
    UuidDigits(u);
    NibblesHex(u);
  }

  // ----- Plain texts

  /** Printable ASCII without quote or backslash: written as it is. */
  ghost predicate PlainText(t: Text) { forall i :: 0 <= i < |t| ==> 32 <= t[i] <= 126 && t[i] != 34 && t[i] != 92 }

  lemma {:induction false} PlainStays(t: Text)
    requires PlainText(t)
    ensures |EscapeAll(t)| == |t| && Joined(t) == t
  {
    if t == [] {
    } else {
      PlainStays(t[1..]);
      assert t == [t[0]] + t[1..];
    }
  }

  lemma UuidIsPlain(u: Uuid)
    ensures PlainText(UuidText(u)) && |UuidText(u)| == 36
  {
  }

  lemma PhaseIsPlain(p: Phase)
    ensures PlainText(PhaseText(p)) && |PhaseText(p)| <= 11
  {
  }

  // ----- Reading the fields back

  function JoinAfter(after: Option<Text>): Option<Text> {
    match after case None => None case Some(t) => Some(Joined(t))
  }

  lemma IdsCons(ids: seq<Uuid>)
    requires ids != []
    ensures IdsJson(ids) == [Str(UuidText(ids[0]))] + IdsJson(ids[1..]) && IdsJson(ids)[1..] == IdsJson(ids[1..])
  {
  }

  lemma {:induction false} IdsJoined(ids: seq<Uuid>)
    ensures JoinedItems(IdsJson(ids)) == IdsJson(ids)
  {
    if ids == [] {
    } else {
      IdsJoined(ids[1..]);
      UuidIsPlain(ids[0]);
      PlainStays(UuidText(ids[0]));
      IdsCons(ids);
    }
  }

  lemma {:induction false} IdsRead(ids: seq<Uuid>)
    ensures ParseIds(IdsJson(ids)) == Parsed(ids)
  {
    if ids == [] {
    } else {
      IdsRead(ids[1..]);
      assert IdsJson(ids)[1..] == IdsJson(ids[1..]);
      UuidReads(ids[0]);
      assert ids == [ids[0]] + ids[1..];
    }
  }

  lemma KeysArePlain()
    ensures PlainText(Ascii("after")) && PlainText(Ascii("phase")) && PlainText(Ascii("v"))
    ensures PlainText(Ascii("snapshot_ids")) && PlainText(Ascii("snapshot_index"))
  {
  }

  lemma PhaseReads(p: Phase)
    ensures ParsePhase(Str(PhaseText(p))) == Some(p)
  {
    assert |Ascii("database")| == 8 && |Ascii("qbittorrent")| == 11 && |Ascii("storage")| == 7;
  }

  lemma JoinedCons(m: Member, rest: seq<Member>)
    ensures JoinedMembers([m] + rest) == [JoinedMember(m)] + JoinedMembers(rest)
  {
    assert ([m] + rest)[1..] == rest;
  }

  lemma Five(a: Member, b: Member, c: Member, d: Member, e: Member)
    ensures [a, b, c, d, e] == [a] + [b, c, d, e] && [b, c, d, e] == [b] + [c, d, e] && [c, d, e] == [c] + [d, e]
    ensures [d, e] == [d] + [e] && [e] == [e] + []
  {
  }

  lemma JoinedFive(a: Member, b: Member, c: Member, d: Member, e: Member)
    ensures JoinedMembers([a, b, c, d, e])
            == [JoinedMember(a), JoinedMember(b), JoinedMember(c), JoinedMember(d), JoinedMember(e)]
  {
    JoinedCons(a, [b, c, d, e]);
    JoinedCons(b, [c, d, e]);
    JoinedCons(c, [d, e]);
    JoinedCons(d, [e]);
    JoinedCons(e, []);
    Five(a, b, c, d, e);
  }

  lemma KeysJoined()
    ensures Joined(Ascii("after")) == Ascii("after") && Joined(Ascii("phase")) == Ascii("phase") &&
            Joined(Ascii("v")) == Ascii("v")
    ensures Joined(Ascii("snapshot_ids")) == Ascii("snapshot_ids") &&
            Joined(Ascii("snapshot_index")) == Ascii("snapshot_index")
  {
    KeysArePlain();
    PlainStays(Ascii("after"));
    PlainStays(Ascii("phase"));
    PlainStays(Ascii("v"));
    PlainStays(Ascii("snapshot_ids"));
    PlainStays(Ascii("snapshot_index"));
  }

  /** Only the `after` text can be changed by joining surrogates. */
  lemma JsonJoined(c: ReconciliationCursor)
    ensures JoinedValue(ToJson(c)) == ToJson(c.(after := JoinAfter(c.after)))
  {
    var after := Member(Ascii("after"), AfterJson(c.after));
    var phase := Member(Ascii("phase"), Str(PhaseText(c.phase)));
    var ids := Member(Ascii("snapshot_ids"), Arr(IdsJson(c.ids)));
    var index := Member(Ascii("snapshot_index"), Num(c.index));
    var version := Member(Ascii("v"), Num(1));
    JoinedFive(after, phase, ids, index, version);
    JoinedPhase(c.phase);
    JoinedRest(c);
  }

  lemma JoinedPhase(p: Phase)
    ensures JoinedMember(Member(Ascii("phase"), Str(PhaseText(p)))) == Member(Ascii("phase"), Str(PhaseText(p)))
  {
    KeysJoined();
    PhaseIsPlain(p);
    PlainStays(PhaseText(p));
  }

  lemma JoinedRest(c: ReconciliationCursor)
    ensures JoinedMember(Member(Ascii("after"), AfterJson(c.after)))
            == Member(Ascii("after"), AfterJson(JoinAfter(c.after)))
    ensures JoinedMember(Member(Ascii("snapshot_ids"), Arr(IdsJson(c.ids))))
            == Member(Ascii("snapshot_ids"), Arr(IdsJson(c.ids)))
    ensures JoinedMember(Member(Ascii("snapshot_index"), Num(c.index))) == Member(Ascii("snapshot_index"), Num(c.index))
    ensures JoinedMember(Member(Ascii("v"), Num(1))) == Member(Ascii("v"), Num(1))
  {
    KeysJoined();
    IdsJoined(c.ids);
  }

  lemma KeysDiffer()
    ensures Ascii("after") != Ascii("phase")
    ensures |Ascii("after")| == 5 && |Ascii("phase")| == 5 && |Ascii("snapshot_ids")| == 12 &&
            |Ascii("snapshot_index")| == 14 && |Ascii("v")| == 1
  {
    assert Ascii("after")[0] == 97 && Ascii("phase")[0] == 112;
  }

  lemma {:induction false} LookupAt(members: seq<Member>, i: nat)
    requires i < |members| && forall j, k :: 0 <= j < k < |members| ==> members[j].key != members[k].key
    ensures Lookup(members, members[i].key) == Some(members[i].value)
  {
    var n := |members| - 1;
    if i < n { LookupAt(members[..n], i); }
  }

  lemma LookupFive(members: seq<Member>)
    requires |members| == 5 && members[0].key == Ascii("after") && members[1].key == Ascii("phase") &&
             members[2].key == Ascii("snapshot_ids") && members[3].key == Ascii("snapshot_index") &&
               members[4].key == Ascii("v")
    ensures Lookup(members, Ascii("after")) == Some(members[0].value) &&
            Lookup(members, Ascii("phase")) == Some(members[1].value)
    ensures Lookup(members, Ascii("snapshot_ids")) == Some(members[2].value)
    ensures Lookup(members, Ascii("snapshot_index")) == Some(members[3].value) &&
            Lookup(members, Ascii("v")) == Some(members[4].value)
    ensures (set i | 0 <= i < |members| :: members[i].key) == KeyNames()
  {
    KeysDiffer();
    LookupAt(members, 0);
    LookupAt(members, 1);
    LookupAt(members, 2);
    LookupAt(members, 3);
    LookupAt(members, 4);
    SameKeys(members);
  }

  lemma SameKeys(members: seq<Member>)
    requires |members| == 5 && members[0].key == Ascii("after") && members[1].key == Ascii("phase") &&
             members[2].key == Ascii("snapshot_ids") && members[3].key == Ascii("snapshot_index") &&
               members[4].key == Ascii("v")
    ensures (set i | 0 <= i < |members| :: members[i].key) == KeyNames()
  {
    var keys := set i | 0 <= i < |members| :: members[i].key;
    assert members[0].key in keys && members[1].key in keys && members[2].key in keys && members[3].key in keys &&
           members[4].key in keys;
    forall i | 0 <= i < |members| ensures members[i].key in KeyNames() {
      assert i == 0 || i == 1 || i == 2 || i == 3 || i == 4;
    }
  }

  lemma FieldsRead(c: ReconciliationCursor)
    requires InBounds(c)
    ensures FromFields(Some(Num(1)), Some(Str(PhaseText(c.phase))), Some(AfterJson(c.after)), Some(Num(c.index)),
            Some(Arr(IdsJson(c.ids))))
            == Accepted(c)
  {
    PhaseReads(c.phase);
    IdsRead(c.ids);
  }

  lemma JsonReads(c: ReconciliationCursor)
    requires InBounds(c)
    ensures FromJson(ToJson(c)) == Accepted(c)
  {
    LookupFive(ToJson(c).members);
    FieldsRead(c);
  }

  // ----- Length

  lemma {:induction false} EscapedLength(t: Text)
    ensures |EscapeAll(t)| <= 12 * |t|
  {
    if t == [] {
    } else {
      EscapedLength(t[1..]);
    }
  }

  lemma StrLength(t: Text)
    ensures |DumpStr(t)| <= 12 * |t| + 2 && (PlainText(t) ==> |DumpStr(t)| == |t| + 2)
  {
    EscapedLength(t);
    if PlainText(t) { PlainStays(t); }
  }

  lemma {:induction false} IdsLength(ids: seq<Uuid>)
    ensures |DumpItems(IdsJson(ids))| <= 39 * |ids|
  {
    if ids == [] {
    } else {
      IdsLength(ids[1..]);
      assert IdsJson(ids)[1..] == IdsJson(ids[1..]);
      UuidIsPlain(ids[0]);
      StrLength(UuidText(ids[0]));
    }
  }

  lemma DumpCons(m: Member, rest: seq<Member>)
    ensures |DumpMembers([m] + rest)| <= |DumpMember(m)| + 1 + |DumpMembers(rest)|
  {
    assert ([m] + rest)[1..] == rest;
  }

  lemma FiveLength(a: Member, b: Member, c: Member, d: Member, e: Member)
    ensures |DumpMembers([a, b, c, d, e])| <= |DumpMember(a)| + |DumpMember(b)| + |DumpMember(c)| + |DumpMember(d)|
            + |DumpMember(e)| + 5
  {
    DumpCons(a, [b, c, d, e]);
    DumpCons(b, [c, d, e]);
    DumpCons(c, [d, e]);
    DumpCons(d, [e]);
    DumpCons(e, []);
    Five(a, b, c, d, e);
  }

  lemma KeyLengths()
    ensures |DumpStr(Ascii("after"))| == 7 && |DumpStr(Ascii("phase"))| == 7 && |DumpStr(Ascii("v"))| == 3
    ensures |DumpStr(Ascii("snapshot_ids"))| == 14 && |DumpStr(Ascii("snapshot_index"))| == 16
  {
    KeysArePlain();
    KeysDiffer();
    StrLength(Ascii("after"));
    StrLength(Ascii("phase"));
    StrLength(Ascii("v"));
    StrLength(Ascii("snapshot_ids"));
    StrLength(Ascii("snapshot_index"));
  }

  lemma FieldLengths(c: ReconciliationCursor)
    requires InBounds(c)
    ensures |Dump(AfterJson(c.after))| <= 1538 && |Dump(Str(PhaseText(c.phase)))| <= 13
    ensures |Dump(Arr(IdsJson(c.ids)))| <= 626 && |Dump(Num(c.index))| <= 2 && |Dump(Num(1))| == 1
  {
    if c.after.Some? { StrLength(c.after.value); }
    PhaseIsPlain(c.phase);
    StrLength(PhaseText(c.phase));
    ArrLength(c.ids);
    IndexLength(c.index);
  }

  lemma ArrLength(ids: seq<Uuid>)
    requires |ids| <= MAX_IDS
    ensures |Dump(Arr(IdsJson(ids)))| <= 626
  {
    IdsLength(ids);
  }

  lemma IndexLength(n: int)
    requires 0 <= n <= MAX_IDS
    ensures |Decimal(n)| <= 2
  {
    if n >= 10 { assert Digits(n / 10) == [48 + n / 10]; }
  }

  lemma MemberLength(m: Member, key: nat, value: nat)
    requires |DumpStr(m.key)| <= key && |Dump(m.value)| <= value
    ensures |DumpMember(m)| <= key + 1 + value
  {
  }

  lemma JsonLength(c: ReconciliationCursor)
    requires InBounds(c)
    ensures 1 <= |Dump(ToJson(c))| <= 2239
  {
    var after := Member(Ascii("after"), AfterJson(c.after));
    var phase := Member(Ascii("phase"), Str(PhaseText(c.phase)));
    var ids := Member(Ascii("snapshot_ids"), Arr(IdsJson(c.ids)));
    var index := Member(Ascii("snapshot_index"), Num(c.index));
    var version := Member(Ascii("v"), Num(1));
    KeyLengths();
    FieldLengths(c);
    MemberLength(after, 7, 1538);
    MemberLength(phase, 7, 13);
    MemberLength(ids, 14, 626);
    MemberLength(index, 16, 2);
    MemberLength(version, 3, 1);
    FiveLength(after, phase, ids, index, version);
    ObjLength([after, phase, ids, index, version]);
  }

  lemma ObjLength(members: seq<Member>)
    ensures |Dump(Obj(members))| == |DumpMembers(members)| + 2
  {
  }

  // ----- Main results

  /** Every encoding of a cursor within decode's bounds fits the decoder's length limit, whatever JSON
      escapes its text needs. */
  lemma EncodingFits(c: ReconciliationCursor)
    requires InBounds(c)
    ensures 1 <= |Encode(c)| <= MAX_CURSOR
  {
    JsonLength(c);
    Base64.EncodeIsUnpadded(Dump(ToJson(c)));
    Base64.PaddedShape(Dump(ToJson(c)));
  }

  /** What decoding gives for an encoded cursor: the cursor, with adjacent surrogates joined. */
  lemma DecodedCursor(c: ReconciliationCursor)
    requires InBounds(c)
    ensures Decode(Encode(c)) == Accepted(c.(after := JoinAfter(c.after)))
  {
    EncodingFits(c);
    Base64.RoundTrip(Dump(ToJson(c)));
    DumpLoads(ToJson(c));
    JsonJoined(c);
    if c.after.Some? { JoinedSame(c.after.value); }
    JsonReads(c.(after := JoinAfter(c.after)));
  }

  /** Decoding gives back exactly the cursor, if and only if its text holds no high surrogate directly
      followed by a low one. */
  lemma RoundTripIff(c: ReconciliationCursor)
    requires InBounds(c)
    ensures Decode(Encode(c)) == Accepted(c) <==> (c.after.Some? ==> !HasPair(c.after.value))
  {
    DecodedCursor(c);
    if c.after.Some? { JoinedSame(c.after.value); }
  }

  /** Lone surrogates that happen to pair up come back as the one character they would encode. */
  lemma SurrogatesJoin(c: ReconciliationCursor, high: CodePoint, low: CodePoint)
    requires InBounds(c) && High(high) && Low(low) && c.after == Some([high, low])
    ensures Decode(Encode(c)) == Accepted(c.(after := Some([Combine(high, low)])))
  {
    DecodedCursor(c);
    var t: Text := [high, low];
    assert t[2..] == [];
    assert Joined(t) == [Combine(high, low)];
  }

  /** Whatever is accepted is within the bounds. */
  lemma AcceptedInBounds(value: seq<int>)
    requires Decode(value).Accepted?
    ensures InBounds(Decode(value).cursor)
  {
    var v := Loads(Base64.Decode(Base64.Repad(value)).value).value;
    IdsCount(Lookup(v.members, Ascii("snapshot_ids")).value.items);
  }

  lemma {:induction false} IdsCount(items: seq<Value>)
    ensures ParseIds(items).Parsed? ==> |ParseIds(items).ids| == |items|
  {
    if items == [] {
    } else {
      IdsCount(items[1..]);
    }
  }

  // ----- Exactly when decoding raises something else

  /** The payload of a cursor text of admissible length, if it is base64 of a JSON document. */
  function Payload(value: seq<int>): Option<Value> {
    if !(1 <= |value| <= MAX_CURSOR) then None
    else match Base64.Decode(Base64.Repad(value)) case None => None case Some(payload) => Loads(payload)
  }

  /** The list of identifiers of a payload whose keys, version, phase, text, index and number of
      identifiers are all in order. */
  function CheckedIds(v: Value): Option<seq<Value>> {
    if !v.Obj? || (set i | 0 <= i < |v.members| :: v.members[i].key) != KeyNames() then None
    else
      var version, phase := Lookup(v.members, Ascii("v")), Lookup(v.members, Ascii("phase"));
      var after, index := Lookup(v.members, Ascii("after")), Lookup(v.members, Ascii("snapshot_index"));
      var ids := Lookup(v.members, Ascii("snapshot_ids"));
      if && version.Some? && IsOne(version.value)
         && phase.Some? && ParsePhase(phase.value).Some?
         && after.Some? && (after.value.Null? || (after.value.Str? && |after.value.text| <= MAX_AFTER))
         && index.Some? && ParseIndex(index.value).Some?
         && ids.Some? && ids.value.Arr? && |ids.value.items| <= MAX_IDS
      then Some(ids.value.items)
      else None
  }

  /** Some item is neither a text nor null, and every earlier one is a text that reads as a UUID. */
  ghost predicate MeetsOther(items: seq<Value>) {
    exists k :: 0 <= k < |items| && !items[k].Str? && !items[k].Null? && ReadableBefore(items, k)
  }

  ghost predicate ReadableBefore(items: seq<Value>, k: nat)
    requires k <= |items|
  {
    forall j :: 0 <= j < k ==> items[j].Str? && ParseUuid(items[j].text).Some?
  }

  lemma {:induction false} UnexpectedIff(items: seq<Value>)
    ensures ParseIds(items).Unexpected? <==> MeetsOther(items)
  {
    if items == [] {
    } else if items[0].Str? && ParseUuid(items[0].text).Some? {
      UnexpectedIff(items[1..]);
      MeetsLater(items);
    } else if !items[0].Str? && !items[0].Null? {
      assert ReadableBefore(items, 0);
    } else {
      assert forall k :: 0 < k < |items| ==> !ReadableBefore(items, k);
    }
  }

  lemma MeetsLater(items: seq<Value>)
    requires items != [] && items[0].Str? && ParseUuid(items[0].text).Some?
    ensures MeetsOther(items) <==> MeetsOther(items[1..])
  {
    var rest := items[1..];
    if MeetsOther(items) {
      var k :| 0 <= k < |items| && !items[k].Str? && !items[k].Null? && ReadableBefore(items, k);
      assert rest[k - 1] == items[k] && ReadableBefore(rest, k - 1);
    }
    if MeetsOther(rest) {
      var k :| 0 <= k < |rest| && !rest[k].Str? && !rest[k].Null? && ReadableBefore(rest, k);
      assert ReadableBefore(items, k + 1) by {
        forall j | 0 <= j < k + 1 ensures items[j].Str? && ParseUuid(items[j].text).Some? {
          assert j > 0 ==> items[j] == rest[j - 1];
        }
      }
      assert items[k + 1] == rest[k];
    }
  }

  lemma FromJsonRaisedIff(v: Value)
    ensures FromJson(v) == Raised <==> CheckedIds(v).Some? && ParseIds(CheckedIds(v).value).Unexpected?
  {
  }

  /** Decoding raises an error of its own kind for everything it refuses, except if and only if all checks
      up to the number of identifiers pass and an item that is neither a text nor null comes before any
      unreadable one. */
  lemma RaisedIff(value: seq<int>)
    ensures Decode(value) == Raised <==>
            && Payload(value).Some? && CheckedIds(Payload(value).value).Some?
            && MeetsOther(CheckedIds(Payload(value).value).value)
  {
    if Payload(value).Some? {
      var v := Payload(value).value;
      FromJsonRaisedIff(v);
      if CheckedIds(v).Some? { UnexpectedIff(CheckedIds(v).value); }
    }
  }

  lemma {:induction false} ParsedIff(items: seq<Value>)
    ensures ParseIds(items).Parsed? <==> ReadableBefore(items, |items|)
    ensures ParseIds(items).Parsed? ==>
              var ids := ParseIds(items).ids;
              |ids| == |items| && forall i :: 0 <= i < |ids| ==> ParseUuid(items[i].text) == Some(ids[i])
  {
    if items == [] {
    } else {
      var rest := items[1..];
      ParsedIff(rest);
      if ReadableBefore(items, |items|) {
        forall j | 0 <= j < |rest| ensures rest[j].Str? && ParseUuid(rest[j].text).Some? {
          assert rest[j] == items[j + 1];
        }
      }
      if ParseIds(items).Parsed? {
        var ids := ParseIds(items).ids;
        forall i | 0 <= i < |ids| ensures items[i].Str? && ParseUuid(items[i].text) == Some(ids[i]) {
          if i > 0 { assert items[i] == rest[i - 1] && ids[i] == ParseIds(rest).ids[i - 1]; }
        }
      }
    }
  }

  /** The identifiers are texts that read as distinct UUIDs. */
  ghost predicate DistinctUuids(items: seq<Value>) {
    && ReadableBefore(items, |items|)
    && forall i, j :: 0 <= i < j < |items| ==> ParseUuid(items[i].text) != ParseUuid(items[j].text)
  }

  lemma DistinctParsed(items: seq<Value>)
    ensures DistinctUuids(items) <==> ParseIds(items).Parsed? && DistinctIds(ParseIds(items).ids)
  {
    ParsedIff(items);
    if ParseIds(items).Parsed? {
      var ids := ParseIds(items).ids;
      assert forall i, j :: 0 <= i < j < |ids| ==>
          (ids[i] != ids[j] <==> ParseUuid(items[i].text) != ParseUuid(items[j].text));
    }
  }

  lemma FromJsonAcceptedIff(v: Value)
    ensures FromJson(v).Accepted? <==>
            && CheckedIds(v).Some? && DistinctUuids(CheckedIds(v).value)
            && ParseIndex(Lookup(v.members, Ascii("snapshot_index")).value).value <= |CheckedIds(v).value|
  {
    if CheckedIds(v).Some? {
      DistinctParsed(CheckedIds(v).value);
      ParsedIff(CheckedIds(v).value);
    }
  }

  /** A cursor text is accepted if and only if its payload passes the checks on keys, version, phase, text and
      index, its identifiers are texts that read as distinct UUIDs, and the index is at most their number.
      Nothing but version one, or true, gets past the check of the version. */
  lemma AcceptedIff(value: seq<int>)
    ensures Decode(value).Accepted? <==>
            && Payload(value).Some? && CheckedIds(Payload(value).value).Some?
            && var v := Payload(value).value;
               && DistinctUuids(CheckedIds(v).value)
               && ParseIndex(Lookup(v.members, Ascii("snapshot_index")).value).value <= |CheckedIds(v).value|
    ensures Decode(value) != Rejected ==>
              Payload(value).value.Obj? &&
                Lookup(Payload(value).value.members, Ascii("v")) in {Some(Num(1)), Some(Bool(true))}
  {
    if Payload(value).Some? { FromJsonAcceptedIff(Payload(value).value); }
  }

  /** A first page whose list of identifiers is `items`. */
  function PageWith(items: seq<Value>): Value {
    Obj([
      Member(Ascii("after"), Null),
      Member(Ascii("phase"), Str(PhaseText(Storage))),
      Member(Ascii("snapshot_ids"), Arr(items)),
      Member(Ascii("snapshot_index"), Num(0)),
      Member(Ascii("v"), Num(1))])
  }

  lemma ShortFields()
    ensures |Dump(Null)| == 4 && |Dump(Str(PhaseText(Storage)))| <= 13 && |Dump(Num(0))| <= 2 && |Dump(Num(1))| <= 2
  {
    PhaseIsPlain(Storage);
    StrLength(PhaseText(Storage));
    IndexLength(0);
    IndexLength(1);
  }

  lemma PageLength(items: seq<Value>)
    requires |Dump(Arr(items))| <= 1000
    ensures 1 <= |Dump(PageWith(items))| <= 1100
  {
    var after := Member(Ascii("after"), Null);
    var phase := Member(Ascii("phase"), Str(PhaseText(Storage)));
    var ids := Member(Ascii("snapshot_ids"), Arr(items));
    var index := Member(Ascii("snapshot_index"), Num(0));
    var version := Member(Ascii("v"), Num(1));
    KeyLengths();
    ShortFields();
    MemberLength(after, 7, 4);
    MemberLength(phase, 7, 13);
    MemberLength(ids, 14, 1000);
    MemberLength(index, 16, 2);
    MemberLength(version, 3, 2);
    FiveLength(after, phase, ids, index, version);
    ObjLength([after, phase, ids, index, version]);
  }

  lemma PageJoined(items: seq<Value>)
    requires JoinedItems(items) == items
    ensures JoinedValue(PageWith(items)) == PageWith(items)
  {
    var after := Member(Ascii("after"), Null);
    var phase := Member(Ascii("phase"), Str(PhaseText(Storage)));
    var ids := Member(Ascii("snapshot_ids"), Arr(items));
    var index := Member(Ascii("snapshot_index"), Num(0));
    var version := Member(Ascii("v"), Num(1));
    KeysJoined();
    JoinedPhase(Storage);
    JoinedFive(after, phase, ids, index, version);
  }

  lemma PageChecked(items: seq<Value>)
    requires |items| <= MAX_IDS
    ensures CheckedIds(PageWith(items)) == Some(items)
  {
    LookupFive(PageWith(items).members);
    PhaseReads(Storage);
  }

  lemma PagePayload(items: seq<Value>)
    requires JoinedItems(items) == items && |Dump(Arr(items))| <= 1000
    ensures Payload(Base64.Encode(Dump(PageWith(items)))) == Some(PageWith(items))
  {
    PageLength(items);
    PageJoined(items);
    PayloadOf(PageWith(items));
  }

  lemma PayloadOf(v: Value)
    requires 1 <= |Dump(v)| <= 3000 && JoinedValue(v) == v
    ensures Payload(Base64.Encode(Dump(v))) == Some(v)
  {
    Base64.EncodeIsUnpadded(Dump(v));
    Base64.UnpaddedLength(Dump(v));
    Base64.RoundTrip(Dump(v));
    DumpLoads(v);
  }

  /** Texts that raise: pages with an identifier that is neither a text nor null. */
  lemma PageRaises(items: seq<Value>)
    requires |items| <= MAX_IDS && JoinedItems(items) == items && |Dump(Arr(items))| <= 1000 && MeetsOther(items)
    ensures Decode(Base64.Encode(Dump(PageWith(items)))) == Raised
  {
    PagePayload(items);
    PageChecked(items);
    RaisedIff(Base64.Encode(Dump(PageWith(items))));
  }

  /** The text of a page whose only snapshot identifier is the number five raises. */
  lemma NumberIdRaises()
    ensures Decode(Base64.Encode(Dump(PageWith([Num(5)])))) == Raised
  {
    var items := [Num(5)];
    assert items[1..] == [];
    assert JoinedItems(items) == items;
    IndexLength(5);
    assert ReadableBefore(items, 0) && !items[0].Str? && !items[0].Null?;
    PageRaises(items);
  }
}
