/** The canonical bencoding of torrent metadata ("bencoding" section of BEP 3), with a strict reader
    that shares no code with the writer. */
module Bencode {
  import opened Common
  import opened Numerals
  import opened Lexical

  const COLON: Byte := 58
  const INT: Byte := 105
  const LIST: Byte := 108
  const DICT: Byte := 100
  const END: Byte := 101

  datatype Key = BytesKey(bytes: Bytes) | OtherKey(id: nat)

  datatype Keyed<T> = Keyed(key: Key, item: T)

  /** A Python value: dictionary entries are in insertion order. */
  datatype Value =
    | Int(n: int)
    | Raw(bytes: Bytes)
    | List(items: seq<Value>)
    | Dict(entries: seq<Keyed<Value>>)
    | Unsupported

  // ----- Key order

  predicate Before(a: Key, b: Key) { a.BytesKey? && b.BytesKey? && Less(a.bytes, b.bytes) }

  function Insert<T>(e: Keyed<T>, s: seq<Keyed<T>>): seq<Keyed<T>> {
    if s == [] || Before(e.key, s[0].key) then [e] + s else [s[0]] + Insert(e, s[1..])
  }

  function Sort<T>(s: seq<Keyed<T>>): seq<Keyed<T>> {
    if s == [] then [] else Insert(s[0], Sort(s[1..]))
  }

  // ----- Writing

  function EncodeBytes(b: Bytes): Bytes { Digits(|b|) + [COLON] + b }

  /** `None` where the source raises TypeError. */
  function Encode(v: Value): Option<Bytes>
    decreases v
  {
    match v
    case Int(n) => Some([INT] + Decimal(n) + [END])
    case Raw(bytes) => Some(EncodeBytes(bytes))
    case List(items) =>
      (match EncodeItems(items) case None => None case Some(body) => Some([LIST] + body + [END]))
    case Dict(entries) =>
      (match EncodeEntries(entries) case None => None case Some(parts) => Some([DICT] + Concat(Sort(parts)) + [END]))
    case Unsupported => None
  }

  function EncodeItems(items: seq<Value>): Option<Bytes>
    decreases items
  {
    if items == [] then Some([])
    else
      var first, others := Encode(items[0]), EncodeItems(items[1..]);
      if first.None? || others.None? then None else Some(first.value + others.value)
  }

  /** Each value encoded beside its key. */
  function EncodeEntries(entries: seq<Keyed<Value>>): Option<seq<Keyed<Bytes>>>
    decreases entries
  {
    if entries == [] then Some([])
    else
      var first, others := EncodeEntry(entries[0]), EncodeEntries(entries[1..]);
      if first.None? || others.None? then None else Some([first.value] + others.value)
  }

  function EncodeEntry(e: Keyed<Value>): Option<Keyed<Bytes>>
    decreases e
  {
    match e
    case Keyed(key, item) =>
      match Encode(item)
      case None => None
      case Some(body) => if key.BytesKey? then Some(Keyed(key, body)) else None
  }

  function KeyBytes(k: Key): Bytes { if k.BytesKey? then k.bytes else [] }

  function Concat(parts: seq<Keyed<Bytes>>): Bytes {
    if parts == [] then [] else EncodeBytes(KeyBytes(parts[0].key)) + parts[0].item + Concat(parts[1..])
  }

  // ----- Reading

  function ReadBytes(s: Bytes): (r: Option<Rest<Bytes>>)
    ensures r.Some? ==> |r.value.rest| < |s|
  {
    match ReadNat(s)
    case None => None
    case Some(Rest(n, rest)) =>
      if rest == [] || rest[0] != COLON || |rest| - 1 < n then None else Some(Rest(rest[1..][..n], rest[1..][n..]))
  }

  /** A number and the end mark. */
  function ReadEnded(s: Bytes): (r: Option<Rest<int>>)
    ensures r.Some? ==> r.value.value >= 0 && |r.value.rest| < |s|
  {
    match ReadNat(s)
    case None => None
    case Some(Rest(n, rest)) => if rest == [] || rest[0] != END then None else Some(Rest(n, rest[1..]))
  }

  /** There is no negative zero. */
  function ReadInt(s: Bytes): (r: Option<Rest<int>>)
    ensures r.Some? ==> |r.value.rest| < |s|
  {
    if s != [] && s[0] == MINUS then
      match ReadEnded(s[1..])
      case None => None
      case Some(Rest(n, rest)) => if n == 0 then None else Some(Rest(-n, rest))
    else ReadEnded(s)
  }

  function Read(s: Bytes): (r: Option<Rest<Value>>)
    ensures r.Some? ==> |r.value.rest| < |s|
    decreases |s|, 0
  {
    if s == [] then None
    else if s[0] == INT then
      match ReadInt(s[1..]) case None => None case Some(Rest(n, rest)) => Some(Rest(Int(n), rest))
    else if s[0] == LIST then
      match ReadItems(s[1..]) case None => None case Some(Rest(items, rest)) => Some(Rest(List(items), rest))
    else if s[0] == DICT then
      match ReadEntries(s[1..], None)
      case None => None
      case Some(Rest(entries, rest)) => Some(Rest(Dict(entries), rest))
    else
      match ReadBytes(s) case None => None case Some(Rest(b, rest)) => Some(Rest(Raw(b), rest))
  }

  function ReadItems(s: Bytes): (r: Option<Rest<seq<Value>>>)
    ensures r.Some? ==> |r.value.rest| < |s|
    decreases |s|, 1
  {
    if s == [] then None
    else if s[0] == END then Some(Rest([], s[1..]))
    else
      match Read(s)
      case None => None
      case Some(Rest(v, rest)) =>
        match ReadItems(rest) case None => None case Some(Rest(items, end)) => Some(Rest([v] + items, end))
  }

  /** Entries whose keys ascend strictly, all above `after`. */
  function ReadEntries(s: Bytes, after: Option<Bytes>): (r: Option<Rest<seq<Keyed<Value>>>>)
    ensures r.Some? ==> |r.value.rest| < |s|
    decreases |s|, 1
  {
    if s == [] then None
    else if s[0] == END then Some(Rest([], s[1..]))
    else
      match ReadBytes(s)
      case None => None
      case Some(Rest(key, value)) =>
        if after.Some? && !Less(after.value, key) then None
        else
          match Read(value)
          case None => None
          case Some(Rest(v, rest)) =>
            match ReadEntries(rest, Some(key))
            case None => None
            case Some(Rest(entries, end)) => Some(Rest([Keyed(BytesKey(key), v)] + entries, end))
  }

  // ----- Numbers and byte strings

  lemma ReadsBytes(b: Bytes, rest: Bytes)
    ensures ReadBytes(EncodeBytes(b) + rest) == Some(Rest(b, rest))
  {
    var tail := [COLON] + (b + rest);
    assert EncodeBytes(b) + rest == Digits(|b|) + tail;
    ReadsNat(|b|, tail);
    assert tail[1..] == b + rest;
    assert (b + rest)[..|b|] == b && (b + rest)[|b|..] == rest;
  }

  lemma SplitHead(s: Bytes, b: Byte)
    requires |s| > 0 && s[0] == b
    ensures s == [b] + s[1..]
  {
  }

  lemma Regroup(a: Bytes, b: Bytes, c: Bytes, d: Bytes)
    ensures a + (b + (c + d)) == a + b + c + d
  {
  }

  lemma WritesBytes(s: Bytes)
    requires ReadBytes(s).Some?
    ensures s == EncodeBytes(ReadBytes(s).value.value) + ReadBytes(s).value.rest
  {
    WritesNat(s);
    SplitBytes(ReadNat(s).value.value, ReadNat(s).value.rest);
  }

  lemma SplitBytes(n: int, rest: Bytes)
    requires 0 <= n < |rest| && rest[0] == COLON
    ensures Digits(n) + rest == EncodeBytes(rest[1..][..n]) + rest[1..][n..]
  {
    SplitHead(rest, COLON);
    var tail := rest[1..];
    assert tail == tail[..n] + tail[n..];
    Regroup(Digits(n), [COLON], tail[..n], tail[n..]);
  }

  lemma ReadsEnded(n: int, rest: Bytes)
    requires n >= 0
    ensures ReadEnded(Digits(n) + ([END] + rest)) == Some(Rest(n, rest))
  {
    ReadsNat(n, [END] + rest);
    assert ([END] + rest)[1..] == rest;
  }

  lemma WritesEnded(s: Bytes)
    requires ReadEnded(s).Some?
    ensures s == Digits(ReadEnded(s).value.value) + ([END] + ReadEnded(s).value.rest)
  {
    WritesNat(s);
    SplitHead(ReadNat(s).value.rest, END);
  }

  lemma ReadsNegative(m: int, rest: Bytes)
    requires m > 0
    ensures ReadInt([MINUS] + (Digits(m) + ([END] + rest))) == Some(Rest(-m, rest))
  {
    var t := Digits(m) + ([END] + rest);
    ReadsEnded(m, rest);
    assert ([MINUS] + t)[1..] == t;
  }

  lemma ReadsPositive(n: int, rest: Bytes)
    requires n >= 0
    ensures ReadInt(Digits(n) + ([END] + rest)) == Some(Rest(n, rest))
  {
    ReadsEnded(n, rest);
    DigitsRead(n);
    assert IsDigit((Digits(n) + ([END] + rest))[0]);
  }

  lemma ReadsInt(n: int, rest: Bytes)
    ensures ReadInt(Decimal(n) + ([END] + rest)) == Some(Rest(n, rest))
  {
    if n < 0 {
      var m := -n;
      ReadsNegative(m, rest);
      MinusShift(m, n, [END] + rest);
    } else {
      ReadsPositive(n, rest);
    }
  }

  lemma MinusShift(m: int, n: int, tail: Bytes)
    requires n == -m && m > 0
    ensures Decimal(n) + tail == [MINUS] + (Digits(m) + tail)
  {
    Shift([MINUS], Digits(m), tail);
  }

  lemma Shift(a: Bytes, b: Bytes, c: Bytes)
    ensures (a + b) + c == a + (b + c)
  {
  }

  lemma WritesInt(s: Bytes)
    requires ReadInt(s).Some?
    ensures s == Decimal(ReadInt(s).value.value) + ([END] + ReadInt(s).value.rest)
  {
    if s[0] == MINUS {
      WritesEnded(s[1..]);
      SplitHead(s, MINUS);
      var Rest(n, rest) := ReadEnded(s[1..]).value;
      Shift([MINUS], Digits(n), [END] + rest);
    } else {
      WritesEnded(s);
    }
  }

  // ----- Normal values: dictionaries in key order

  ghost predicate Ascending<T>(s: seq<Keyed<T>>) {
    && (forall i :: 0 <= i < |s| ==> s[i].key.BytesKey?)
    && (forall i, j :: 0 <= i < j < |s| ==> Before(s[i].key, s[j].key))
  }

  ghost predicate IsNormal(v: Value)
    decreases v
  {
    match v
    case List(items) => ItemsNormal(items)
    case Dict(entries) => Ascending(entries) && EntriesNormal(entries)
    case Unsupported => false
    case _ => true
  }

  ghost predicate ItemsNormal(items: seq<Value>)
    decreases items
  {
    items == [] || (IsNormal(items[0]) && ItemsNormal(items[1..]))
  }

  ghost predicate EntriesNormal(entries: seq<Keyed<Value>>)
    decreases entries
  {
    entries == [] || (EntryNormal(entries[0]) && EntriesNormal(entries[1..]))
  }

  ghost predicate EntryNormal(e: Keyed<Value>)
    decreases e
  {
    match e case Keyed(_, item) => IsNormal(item)
  }

  lemma BytesStart(b: Bytes)
    ensures IsDigit(EncodeBytes(b)[0])
  {
    DigitsRead(|b|);
  }

  /** An encoding is not empty and never starts with the end mark. */
  lemma FirstByte(v: Value)
    requires Encode(v).Some?
    ensures |Encode(v).value| > 0 && Encode(v).value[0] != END
  {
    if v.Raw? { BytesStart(v.bytes); }
  }

  lemma {:induction false} SortKeeps<T>(s: seq<Keyed<T>>)
    requires Ascending(s)
    ensures Sort(s) == s
  {
    if s == [] {
    } else {
      SortKeeps(s[1..]);
      assert s == [s[0]] + s[1..];
    }
  }

  // ----- The reader undoes the writer

  lemma {:induction false} ReadsValue(v: Value, rest: Bytes)
    requires IsNormal(v)
    ensures Encode(v).Some? && Read(Encode(v).value + rest) == Some(Rest(v, rest))
    decreases v
  {
    match v
    case Int(n) =>
      ReadsInt(n, rest);
      ReadsHead(INT, Decimal(n), rest);
    case Raw(b) =>
      ReadsBytes(b, rest);
      BytesStart(b);
    case List(items) =>
      ReadsItems(items, rest);
      ReadsHead(LIST, EncodeItems(items).value, rest);
    case Dict(entries) =>
      ReadsEntries(entries, None, rest);
      EncodedAscends(entries);
      SortKeeps(EncodeEntries(entries).value);
      ReadsHead(DICT, Concat(EncodeEntries(entries).value), rest);
  }

  lemma ReadsHead(head: Byte, body: Bytes, rest: Bytes)
    ensures [head] + body + [END] + rest == [head] + (body + ([END] + rest))
    ensures ([head] + body + [END] + rest)[1..] == body + ([END] + rest)
    ensures ([head] + body + [END] + rest)[0] == head
  {
  }

  lemma {:induction false} ReadsItems(items: seq<Value>, rest: Bytes)
    requires ItemsNormal(items)
    ensures EncodeItems(items).Some? && ReadItems(EncodeItems(items).value + ([END] + rest)) == Some(Rest(items, rest))
    decreases items
  {
    var tail := [END] + rest;
    if items == [] {
      assert [] + tail == tail && tail[1..] == rest;
    } else {
      ReadsItems(items[1..], rest);
      var others := EncodeItems(items[1..]).value;
      ReadsValue(items[0], others + tail);
      FirstByte(items[0]);
      var first := Encode(items[0]).value;
      Shift(first, others, tail);
      assert (first + (others + tail))[0] == first[0];
      assert items == [items[0]] + items[1..];
    }
  }

  lemma {:induction false} ReadsEntries(entries: seq<Keyed<Value>>, after: Option<Bytes>, rest: Bytes)
    requires EntriesNormal(entries) && Ascending(entries)
    requires after.Some? && entries != [] ==> Less(after.value, entries[0].key.bytes)
    ensures EncodeEntries(entries).Some?
    ensures ReadEntries(Concat(EncodeEntries(entries).value) + ([END] + rest), after) == Some(Rest(entries, rest))
    decreases entries
  {
    var tail := [END] + rest;
    if entries == [] {
      assert [] + tail == tail && tail[1..] == rest;
    } else {
      ReadsEntries(entries[1..], Some(entries[0].key.bytes), rest);
      ReadsEntry(entries[0], Concat(EncodeEntries(entries[1..]).value) + tail);
      ReadsFirst(entries, after, rest);
    }
  }

  lemma ReadsFirst(entries: seq<Keyed<Value>>, after: Option<Bytes>, rest: Bytes)
    requires entries != [] && entries[0].key.BytesKey? && (after.Some? ==> Less(after.value, entries[0].key.bytes))
    requires EncodeEntry(entries[0]).Some? && EncodeEntries(entries[1..]).Some?
    requires var mid := Concat(EncodeEntries(entries[1..]).value) + ([END] + rest);
             && Read(EncodeEntry(entries[0]).value.item + mid) == Some(Rest(entries[0].item, mid))
             && ReadEntries(mid, Some(entries[0].key.bytes)) == Some(Rest(entries[1..], rest))
    ensures EncodeEntries(entries).Some?
    ensures ReadEntries(Concat(EncodeEntries(entries).value) + ([END] + rest), after) == Some(Rest(entries, rest))
  {
    var key, part := entries[0].key.bytes, EncodeEntry(entries[0]).value;
    var others := Concat(EncodeEntries(entries[1..]).value);
    ConcatEntries(entries);
    Regroup(EncodeBytes(key), part.item, others, [END] + rest);
    ReadEntriesCons(key, after, part.item, entries[0].item, others + ([END] + rest), entries[1..], rest);
    assert entries == [Keyed(BytesKey(key), entries[0].item)] + entries[1..];
  }

  lemma EncodedAscends(entries: seq<Keyed<Value>>)
    requires Ascending(entries) && EncodeEntries(entries).Some?
    ensures Ascending(EncodeEntries(entries).value)
  {
    KeysKept(entries);
  }

  lemma ConcatEntries(entries: seq<Keyed<Value>>)
    requires entries != [] && EncodeEntry(entries[0]).Some? && EncodeEntries(entries[1..]).Some?
    ensures EncodeEntries(entries).Some?
    ensures Concat(EncodeEntries(entries).value)
            == EncodeBytes(KeyBytes(entries[0].key)) + EncodeEntry(entries[0]).value.item
              + Concat(EncodeEntries(entries[1..]).value)
  {
    var part, parts := EncodeEntry(entries[0]).value, EncodeEntries(entries[1..]).value;
    assert ([part] + parts)[1..] == parts;
  }

  /** Reading one entry and then the others. */
  lemma ReadEntriesCons(key: Bytes, after: Option<Bytes>, body: Bytes, v: Value, mid: Bytes, entries: seq<Keyed<Value>>,
                        rest: Bytes)
    requires after.Some? ==> Less(after.value, key)
    requires Read(body + mid) == Some(Rest(v, mid)) && ReadEntries(mid, Some(key)) == Some(Rest(entries, rest))
    ensures ReadEntries(EncodeBytes(key) + (body + mid), after) == Some(Rest([Keyed(BytesKey(key), v)] + entries, rest))
  {
    var s := EncodeBytes(key) + (body + mid);
    ReadsBytes(key, body + mid);
    BytesStart(key);
    assert s[0] == EncodeBytes(key)[0];
  }

  lemma {:induction false} ReadsEntry(e: Keyed<Value>, rest: Bytes)
    requires EntryNormal(e) && e.key.BytesKey?
    ensures EncodeEntry(e).Some? && EncodeEntry(e).value.key == e.key
    ensures Read(EncodeEntry(e).value.item + rest) == Some(Rest(e.item, rest))
    decreases e
  {
    match e case Keyed(_, item) => ReadsValue(item, rest);
  }

  lemma {:induction false} KeysKept(entries: seq<Keyed<Value>>)
    requires EncodeEntries(entries).Some?
    ensures |EncodeEntries(entries).value| == |entries|
    ensures forall i :: 0 <= i < |entries| ==>
              EncodeEntries(entries).value[i].key == entries[i].key && entries[i].key.BytesKey?
  {
    if entries == [] {
    } else {
      KeysKept(entries[1..]);
    }
  }

  // ----- The writer undoes the reader

  lemma {:induction false} WritesValue(s: Bytes)
    requires Read(s).Some?
    ensures var Rest(v, rest) := Read(s).value; IsNormal(v) && Encode(v).Some? && s == Encode(v).value + rest
    decreases |s|, 0
  {
    if s[0] == INT {
      WritesInt(s[1..]);
      WritesHead(s, Decimal(ReadInt(s[1..]).value.value), ReadInt(s[1..]).value.rest);
    } else if s[0] == LIST {
      WritesItems(s[1..]);
      var Rest(items, rest) := ReadItems(s[1..]).value;
      WritesHead(s, EncodeItems(items).value, rest);
    } else if s[0] == DICT {
      WritesEntries(s[1..], None);
      var Rest(entries, rest) := ReadEntries(s[1..], None).value;
      SortKeeps(EncodeEntries(entries).value);
      WritesHead(s, Concat(EncodeEntries(entries).value), rest);
    } else {
      WritesBytes(s);
    }
  }

  lemma WritesHead(s: Bytes, body: Bytes, rest: Bytes)
    requires |s| > 0 && s[1..] == body + ([END] + rest)
    ensures s == [s[0]] + body + [END] + rest
  {
    SplitHead(s, s[0]);
    Regroup([s[0]], body, [END], rest);
  }

  lemma {:induction false} WritesItems(s: Bytes)
    requires ReadItems(s).Some?
    ensures var Rest(items, rest) := ReadItems(s).value;
            ItemsNormal(items) && EncodeItems(items).Some? && s == EncodeItems(items).value + ([END] + rest)
    decreases |s|, 1
  {
    if s[0] == END {
      SplitHead(s, END);
      assert [] + s == s;
    } else {
      WritesValue(s);
      var Rest(v, mid) := Read(s).value;
      WritesItems(mid);
      var Rest(items, rest) := ReadItems(mid).value;
      assert ([v] + items)[1..] == items;
      Shift(Encode(v).value, EncodeItems(items).value, [END] + rest);
    }
  }

  lemma {:induction false} WritesEntries(s: Bytes, after: Option<Bytes>)
    requires ReadEntries(s, after).Some?
    ensures var Rest(entries, rest) := ReadEntries(s, after).value;
            && EntriesNormal(entries) && Ascending(entries)
            && (after.Some? && entries != [] ==> entries[0].key.BytesKey? && Less(after.value, entries[0].key.bytes))
            && EncodeEntries(entries).Some? && Ascending(EncodeEntries(entries).value)
            && s == Concat(EncodeEntries(entries).value) + ([END] + rest)
    decreases |s|, 1
  {
    if s[0] == END {
      SplitHead(s, END);
      assert [] + s == s;
    } else {
      WritesBytes(s);
      var Rest(key, value) := ReadBytes(s).value;
      WritesValue(value);
      var Rest(v, mid) := Read(value).value;
      WritesEntries(mid, Some(key));
      var Rest(entries, rest) := ReadEntries(mid, Some(key)).value;
      AscendingCons(Keyed(BytesKey(key), v), entries);
      EntryCons(key, v, entries);
      Regroup(EncodeBytes(key), Encode(v).value, Concat(EncodeEntries(entries).value), [END] + rest);
    }
  }

  lemma EntryCons(key: Bytes, v: Value, entries: seq<Keyed<Value>>)
    requires IsNormal(v) && Encode(v).Some? && EntriesNormal(entries) && EncodeEntries(entries).Some?
    requires Ascending([Keyed(BytesKey(key), v)] + entries)
    ensures var all := [Keyed(BytesKey(key), v)] + entries;
            && EntriesNormal(all) && EncodeEntries(all).Some? && Ascending(EncodeEntries(all).value)
            && Concat(EncodeEntries(all).value) == EncodeBytes(key) + Encode(v).value
              + Concat(EncodeEntries(entries).value)
  {
    var e, part, parts := Keyed(BytesKey(key), v), Keyed(BytesKey(key), Encode(v).value), EncodeEntries(entries).value;
    assert ([e] + entries)[1..] == entries;
    assert ([part] + parts)[1..] == parts;
    KeysKept([e] + entries);
  }

  lemma AscendingCons<T>(e: Keyed<T>, s: seq<Keyed<T>>)
    requires e.key.BytesKey? && Ascending(s) && (s != [] ==> Before(e.key, s[0].key))
    ensures Ascending([e] + s)
  {
    forall j | 0 <= j < |s| ensures Before(e.key, s[j].key) {
      if j > 0 { LessTransitive(e.key.bytes, s[0].key.bytes, s[j].key.bytes); }
    }
  }

  // ----- Any insertion order

  ghost predicate DistinctKeys<T>(s: seq<Keyed<T>>) { forall i, j :: 0 <= i < j < |s| ==> s[i].key != s[j].key }

  /** No dictionary repeats a key, at any depth: Python dictionaries never do. */
  ghost predicate WellFormed(v: Value)
    decreases v
  {
    match v
    case List(items) => ItemsWellFormed(items)
    case Dict(entries) => DistinctKeys(entries) && EntriesWellFormed(entries)
    case _ => true
  }

  ghost predicate ItemsWellFormed(items: seq<Value>)
    decreases items
  {
    items == [] || (WellFormed(items[0]) && ItemsWellFormed(items[1..]))
  }

  ghost predicate EntriesWellFormed(entries: seq<Keyed<Value>>)
    decreases entries
  {
    entries == [] || (EntryWellFormed(entries[0]) && EntriesWellFormed(entries[1..]))
  }

  ghost predicate EntryWellFormed(e: Keyed<Value>)
    decreases e
  {
    match e case Keyed(_, item) => WellFormed(item)
  }

  /** The same value with every dictionary in key order. */
  ghost function Normal(v: Value): Value
    decreases v
  {
    match v
    case List(items) => List(NormalItems(items))
    case Dict(entries) => Dict(Sort(NormalEntries(entries)))
    case _ => v
  }

  ghost function NormalItems(items: seq<Value>): seq<Value>
    decreases items
  {
    if items == [] then [] else [Normal(items[0])] + NormalItems(items[1..])
  }

  ghost function NormalEntries(entries: seq<Keyed<Value>>): seq<Keyed<Value>>
    decreases entries
  {
    if entries == [] then [] else [NormalEntry(entries[0])] + NormalEntries(entries[1..])
  }

  ghost function NormalEntry(e: Keyed<Value>): Keyed<Value>
    decreases e
  {
    match e case Keyed(key, item) => Keyed(key, Normal(item))
  }

  ghost predicate BytesKeys<T>(s: seq<Keyed<T>>) { forall i :: 0 <= i < |s| ==> s[i].key.BytesKey? }

  ghost function Members<T(!new)>(s: seq<Keyed<T>>): set<Keyed<T>> { set x | x in s }

  lemma MembersCons<T(!new)>(s: seq<Keyed<T>>)
    requires s != []
    ensures Members(s) == {s[0]} + Members(s[1..])
  {
  }

  lemma {:induction false} InsertAscends<T(!new)>(e: Keyed<T>, s: seq<Keyed<T>>)
    requires Ascending(s) && e.key.BytesKey? && forall i :: 0 <= i < |s| ==> s[i].key != e.key
    ensures Ascending(Insert(e, s)) && Members(Insert(e, s)) == {e} + Members(s)
  {
    if s == [] {
    } else if Before(e.key, s[0].key) {
      AscendingCons(e, s);
      MembersCons([e] + s);
    } else {
      LessTotal(e.key.bytes, s[0].key.bytes);
      InsertAscends(e, s[1..]);
      var t := Insert(e, s[1..]);
      assert t[0] in Members(t);
      MembersCons(s);
      MembersCons([s[0]] + t);
      AscendingCons(s[0], t);
    }
  }

  lemma {:induction false} SortAscends<T(!new)>(s: seq<Keyed<T>>)
    requires DistinctKeys(s) && BytesKeys(s)
    ensures Ascending(Sort(s)) && Members(Sort(s)) == Members(s)
  {
    if s == [] {
    } else {
      SortAscends(s[1..]);
      var t := Sort(s[1..]);
      forall i | 0 <= i < |t| ensures t[i].key != s[0].key {
        assert t[i] in Members(t);
      }
      InsertAscends(s[0], t);
      MembersCons(s);
    }
  }

  /** A key order is determined by the entries alone. */
  lemma {:induction false} AscendingUnique<T(!new)>(a: seq<Keyed<T>>, b: seq<Keyed<T>>)
    requires Ascending(a) && Ascending(b) && Members(a) == Members(b)
    ensures a == b
  {
    assert |a| > 0 ==> a[0] in Members(b);
    assert |b| > 0 ==> b[0] in Members(a);
    if a != [] {
      SameFirst(a, b);
      var c, d := a[1..], b[1..];
      HeadIsFirst(a);
      HeadIsFirst(b);
      MembersCons(a);
      MembersCons(b);
      assert Members(c) == Members(a) - {a[0]} && Members(d) == Members(b) - {a[0]};
      AscendingUnique(c, d);
    }
  }

  lemma HeadIsFirst<T>(a: seq<Keyed<T>>)
    requires Ascending(a) && a != []
    ensures a[0] !in a[1..]
  {
    LessTotal(a[0].key.bytes, a[0].key.bytes);
  }

  lemma SameFirst<T>(a: seq<Keyed<T>>, b: seq<Keyed<T>>)
    requires Ascending(a) && Ascending(b) && |a| > 0 && |b| > 0 && a[0] in b && b[0] in a
    ensures a[0] == b[0]
  {
    LessTotal(a[0].key.bytes, b[0].key.bytes);
    LessTotal(a[0].key.bytes, a[0].key.bytes);
  }

  lemma {:induction false} NormalKeys(entries: seq<Keyed<Value>>)
    ensures |NormalEntries(entries)| == |entries|
    ensures forall i :: 0 <= i < |entries| ==> NormalEntries(entries)[i] == NormalEntry(entries[i])
  {
    if entries == [] {
    } else {
      NormalKeys(entries[1..]);
    }
  }

  lemma {:induction false} NormalMembers(entries: seq<Keyed<Value>>)
    ensures Members(NormalEntries(entries)) == set e | e in Members(entries) :: NormalEntry(e)
  {
    if entries == [] {
    } else {
      NormalMembers(entries[1..]);
      var es := NormalEntries(entries);
      assert es[1..] == NormalEntries(entries[1..]);
      MembersCons(es);
      MembersCons(entries);
    }
  }

  // ----- Sorting entries and sorting their encodings agree

  lemma {:induction false} EncodeInsert(e: Keyed<Value>, s: seq<Keyed<Value>>)
    requires EncodeEntry(e).Some? && EncodeEntries(s).Some?
    ensures EncodeEntries(Insert(e, s)) == Some(Insert(EncodeEntry(e).value, EncodeEntries(s).value))
  {
    if s == [] || Before(e.key, s[0].key) {
      assert ([e] + s)[1..] == s;
    } else {
      EncodeInsert(e, s[1..]);
      var t := Insert(e, s[1..]);
      assert ([s[0]] + t)[1..] == t;
      var parts := EncodeEntries(s).value;
      assert parts[1..] == EncodeEntries(s[1..]).value;
    }
  }

  lemma {:induction false} EncodeSort(s: seq<Keyed<Value>>)
    requires EncodeEntries(s).Some?
    ensures EncodeEntries(Sort(s)) == Some(Sort(EncodeEntries(s).value))
  {
    if s == [] {
    } else {
      EncodeSort(s[1..]);
      EncodeInsert(s[0], Sort(s[1..]));
      assert EncodeEntries(s).value[1..] == EncodeEntries(s[1..]).value;
    }
  }

  /** Putting dictionaries in key order changes no encoding. */
  lemma {:induction false} EncodeNormal(v: Value)
    requires WellFormed(v) && Encode(v).Some?
    ensures Encode(Normal(v)) == Encode(v) && IsNormal(Normal(v))
    decreases v
  {
    match v
    case List(items) => EncodeNormalItems(items);
    case Dict(entries) =>
      EncodeNormalEntries(entries);
      NormalKeys(entries);
      KeysKept(entries);
      var es := NormalEntries(entries);
      SortAscends(es);
      EntriesNormalIff(es);
      EntriesNormalIff(Sort(es));
      EncodeSort(es);
      SortedParts(es);
    case _ =>
  }

  lemma SortedParts(es: seq<Keyed<Value>>)
    requires EncodeEntries(es).Some? && Ascending(Sort(es)) &&
             EncodeEntries(Sort(es)) == Some(Sort(EncodeEntries(es).value))
    ensures Sort(Sort(EncodeEntries(es).value)) == Sort(EncodeEntries(es).value)
  {
    KeysKept(Sort(es));
    SortKeeps(Sort(EncodeEntries(es).value));
  }

  lemma {:induction false} EntriesNormalIff(es: seq<Keyed<Value>>)
    ensures EntriesNormal(es) <==> forall e :: e in Members(es) ==> EntryNormal(e)
  {
    if es == [] {
    } else {
      EntriesNormalIff(es[1..]);
      MembersCons(es);
    }
  }

  lemma {:induction false} EncodeNormalItems(items: seq<Value>)
    requires ItemsWellFormed(items) && EncodeItems(items).Some?
    ensures EncodeItems(NormalItems(items)) == EncodeItems(items) && ItemsNormal(NormalItems(items))
    decreases items
  {
    if items == [] {
    } else {
      EncodeNormal(items[0]);
      EncodeNormalItems(items[1..]);
      assert NormalItems(items)[1..] == NormalItems(items[1..]);
    }
  }

  lemma {:induction false} EncodeNormalEntries(entries: seq<Keyed<Value>>)
    requires EntriesWellFormed(entries) && EncodeEntries(entries).Some?
    ensures EncodeEntries(NormalEntries(entries)) == EncodeEntries(entries) && EntriesNormal(NormalEntries(entries))
    decreases entries
  {
    if entries == [] {
    } else {
      EncodeNormalEntry(entries[0]);
      EncodeNormalEntries(entries[1..]);
      assert NormalEntries(entries)[1..] == NormalEntries(entries[1..]);
    }
  }

  lemma {:induction false} EncodeNormalEntry(e: Keyed<Value>)
    requires EntryWellFormed(e) && EncodeEntry(e).Some?
    ensures EncodeEntry(NormalEntry(e)) == EncodeEntry(e) && EntryNormal(NormalEntry(e))
    decreases e
  {
    match e case Keyed(_, item) => EncodeNormal(item);
  }

  // ----- Main results

  /** The encoding delimits itself: the reader gives back the value, in key order, and what follows. */
  lemma RoundTrip(v: Value, rest: Bytes)
    requires WellFormed(v) && Encode(v).Some?
    ensures Read(Encode(v).value + rest) == Some(Rest(Normal(v), rest))
  {
    EncodeNormal(v);
    ReadsValue(Normal(v), rest);
  }

  /** The strict reader accepts nothing but encodings, so each value has one spelling. */
  lemma OnlyEncodingsRead(s: Bytes)
    requires Read(s).Some?
    ensures var Rest(v, rest) := Read(s).value; Encode(v).Some? && s == Encode(v).value + rest && Normal(v) == v
  {
    WritesValue(s);
    NormalIsFixed(Read(s).value.value);
  }

  lemma {:induction false} NormalIsFixed(v: Value)
    requires IsNormal(v)
    ensures Normal(v) == v
    decreases v
  {
    match v
    case List(items) => NormalItemsFixed(items);
    case Dict(entries) =>
      NormalEntriesFixed(entries);
      SortKeeps(entries);
    case _ =>
  }

  lemma {:induction false} NormalItemsFixed(items: seq<Value>)
    requires ItemsNormal(items)
    ensures NormalItems(items) == items
    decreases items
  {
    if items == [] {
    } else {
      NormalIsFixed(items[0]);
      NormalItemsFixed(items[1..]);
    }
  }

  lemma {:induction false} NormalEntriesFixed(entries: seq<Keyed<Value>>)
    requires EntriesNormal(entries)
    ensures NormalEntries(entries) == entries
    decreases entries
  {
    if entries == [] {
    } else {
      NormalEntryFixed(entries[0]);
      NormalEntriesFixed(entries[1..]);
    }
  }

  lemma {:induction false} NormalEntryFixed(e: Keyed<Value>)
    requires EntryNormal(e)
    ensures NormalEntry(e) == e
    decreases e
  {
    match e case Keyed(_, item) => NormalIsFixed(item);
  }

  /** Equal encodings exactly for values equal up to insertion order. */
  lemma EncodingIsCanonical(v: Value, w: Value)
    requires WellFormed(v) && WellFormed(w) && Encode(v).Some? && Encode(w).Some?
    ensures Encode(v) == Encode(w) <==> Normal(v) == Normal(w)
  {
    EncodeNormal(v);
    EncodeNormal(w);
    RoundTrip(v, []);
    RoundTrip(w, []);
  }

  /** No encoding is a proper prefix of another. */
  lemma PrefixFree(v: Value, w: Value, more: Bytes)
    requires WellFormed(v) && WellFormed(w) && Encode(v).Some? && Encode(w).Some?
    requires Encode(w).value == Encode(v).value + more
    ensures more == [] && Normal(v) == Normal(w)
  {
    RoundTrip(v, more);
    RoundTrip(w, []);
    assert Encode(w).value + [] == Encode(w).value;
  }

  /** Inserting the entries of a dictionary in another order changes nothing. */
  lemma InsertionOrderIsIrrelevant(a: seq<Keyed<Value>>, b: seq<Keyed<Value>>)
    requires DistinctKeys(a) && DistinctKeys(b) && BytesKeys(a) && BytesKeys(b) && Members(a) == Members(b)
    ensures Normal(Dict(a)) == Normal(Dict(b))
  {
    var x, y := NormalEntries(a), NormalEntries(b);
    NormalKeys(a);
    NormalKeys(b);
    SortAscends(x);
    SortAscends(y);
    NormalMembers(a);
    NormalMembers(b);
    AscendingUnique(Sort(x), Sort(y));
  }
}
