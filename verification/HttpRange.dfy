/** Byte ranges (section 14.1.2 of RFC 9110) and the streaming of an opened download. */
module HttpRange {
  import opened Common
  import opened Texts
  import Numerals

  datatype ByteRange = ByteRange(start: int, end: int)

  const MAX_DIGITS := 20

  predicate AllDigits(s: string) { Numerals.AllDigits(Codes(s)) }

  predicate IsBoundedNumber(s: string) { AllDigits(s) && |s| <= MAX_DIGITS }

  function Value(s: string): int
    requires AllDigits(s)
  {
    Numerals.Number(Codes(s))
  }

  function Lower(s: string): string {
    seq(|s|, i requires 0 <= i < |s| => if 'A' <= s[i] <= 'Z' then (s[i] as int + 32) as char else s[i])
  }

  /** What follows the bytes unit. */
  function SpecOf(header: string): Option<string> {
    var eq := Find(header, '=');
    if eq == |header| || Lower(Strip(header[..eq])) != "bytes" then None else Some(Strip(header[eq + 1..]))
  }

  /** The two numbers of a single range, at most one of them missing. */
  function Ends(spec: string): Option<(string, string)> {
    var dash := Find(spec, '-');
    if ',' in spec || dash == |spec| then None
    else
      var first, last := spec[..dash], spec[dash + 1..];
      if '-' in last || (first == "" && last == "") || !IsBoundedNumber(first) || !IsBoundedNumber(last) then None
      else Some((first, last))
  }

  /** `None` where the source answers that the range cannot be satisfied. */
  function ParseRange(header: string, size: nat): Option<ByteRange> {
    match SpecOf(header)
    case None => None
    case Some(spec) =>
      match Ends(spec)
      case None => None
      case Some((first, last)) => if size == 0 then None else Resolve(first, last, size)
  }

  function Resolve(first: string, last: string, size: nat): Option<ByteRange>
    requires AllDigits(first) && AllDigits(last) && size > 0
  {
    if first == "" then
      var suffix := Value(last);
      if suffix == 0 then None else Some(ByteRange(Max(size - suffix, 0), size - 1))
    else
      var start := Value(first);
      if start >= size then None
      else
        var end := if last == "" || Value(last) > size - 1 then size - 1 else Value(last);
        if end < start then None else Some(ByteRange(start, end))
  }

  // ----- What a range header means

  /** The header is the bytes unit and one range of two numbers, either of which may be left out. */
  ghost predicate Written(header: string, first: string, last: string) {
    && AllDigits(first) && AllDigits(last) && |first| <= 20 && |last| <= 20 && !(first == "" && last == "")
    && exists unit, raw :: InBytes(header, unit, raw) && Strip(raw) == first + "-" + last
  }

  ghost predicate InBytes(header: string, unit: string, raw: string) {
    header == unit + "=" + raw && '=' !in unit && Lower(Strip(unit)) == "bytes"
  }

  /** The positions that the range selects in a representation: from first to last, from first on, or
      the last so many. */
  ghost predicate Selects(first: string, last: string, size: nat, p: int)
    requires AllDigits(first) && AllDigits(last)
  {
    && 0 <= p < size
    && (if first == "" then p >= size - Value(last)
        else p >= Value(first) && (last == "" || p <= Value(last)))
  }

  lemma NumbersHaveNoSigns(s: string)
    requires AllDigits(s)
    ensures '-' !in s && ',' !in s
  {
  }

  lemma SpecSplits(first: string, last: string)
    requires AllDigits(first) && AllDigits(last)
    ensures var spec := first + "-" + last;
            ',' !in spec && Find(spec, '-') == |first| && spec[..|first|] == first && spec[|first| + 1..] == last
  {
    NumbersHaveNoSigns(first);
    NumbersHaveNoSigns(last);
    assert first + "-" + last == first + ("-" + last);
    FindAt(first, "-" + last, '-');
  }

  lemma HeaderSplits(unit: string, raw: string)
    requires '=' !in unit
    ensures var header := unit + "=" + raw;
            Find(header, '=') == |unit| && header[..|unit|] == unit && header[|unit| + 1..] == raw
  {
    assert unit + "=" + raw == unit + ("=" + raw);
    FindAt(unit, "=" + raw, '=');
  }

  lemma WrittenEnds(first: string, last: string)
    requires IsBoundedNumber(first) && IsBoundedNumber(last) && !(first == "" && last == "")
    ensures Ends(first + "-" + last) == Some((first, last))
  {
    SpecSplits(first, last);
    NumbersHaveNoSigns(last);
  }

  /** A well-formed header is resolved by its two numbers alone. */
  lemma WrittenResolves(header: string, first: string, last: string, size: nat)
    requires Written(header, first, last)
    ensures ParseRange(header, size) == if size == 0 then None else Resolve(first, last, size)
  {
    assert SpecOf(header) == Some(first + "-" + last) by {
      var unit, raw :| InBytes(header, unit, raw) && Strip(raw) == first + "-" + last;
      HeaderSplits(unit, raw);
    }
    WrittenEnds(first, last);
  }

  lemma SpecIsWritten(header: string)
    requires SpecOf(header).Some?
    ensures exists unit, raw :: InBytes(header, unit, raw) && Strip(raw) == SpecOf(header).value
  {
    var eq := Find(header, '=');
    var unit, raw := header[..eq], header[eq + 1..];
    Rejoin(header, eq, '=');
    assert InBytes(header, unit, raw) && Strip(raw) == SpecOf(header).value;
  }

  /** Only well-formed headers are accepted. */
  lemma AcceptedIsWritten(header: string, size: nat) returns (first: string, last: string)
    requires ParseRange(header, size).Some?
    ensures Written(header, first, last)
  {
    var spec := SpecOf(header).value;
    first, last := Ends(spec).value.0, Ends(spec).value.1;
    SpecIsWritten(header);
    Rejoin(spec, Find(spec, '-'), '-');
  }

  lemma Rejoin(s: string, i: nat, c: char)
    requires i < |s| && s[i] == c
    ensures s == s[..i] + [c] + s[i + 1..]
  {
  }

  lemma ResolvesToSelected(first: string, last: string, size: nat)
    requires AllDigits(first) && AllDigits(last) && size > 0 && !(first == "" && last == "")
    ensures var r := Resolve(first, last, size);
            if r.Some? then
              && 0 <= r.value.start <= r.value.end < size
              && forall p :: r.value.start <= p <= r.value.end <==> Selects(first, last, size, p)
            else forall p :: !Selects(first, last, size, p)
  {
  }

  /** A header is accepted exactly when it is well formed and selects something; the range then holds
      exactly the selected positions, 0 <= start <= end < size. */
  lemma AcceptedRange(header: string, first: string, last: string, size: nat)
    requires Written(header, first, last)
    ensures ParseRange(header, size).Some? <==> exists p :: Selects(first, last, size, p)
    ensures ParseRange(header, size).Some? ==>
              var r := ParseRange(header, size).value;
              0 <= r.start <= r.end < size && forall p :: r.start <= p <= r.end <==> Selects(first, last, size, p)
  {
    WrittenResolves(header, first, last, size);
    if size > 0 {
      ResolvesToSelected(first, last, size);
      var r := Resolve(first, last, size);
      if r.Some? { assert Selects(first, last, size, r.value.start); }
    }
  }

  /** And nothing else is accepted. */
  lemma RefusedUnlessWritten(header: string, size: nat)
    requires forall first, last :: !Written(header, first, last)
    ensures ParseRange(header, size).None?
  {
    if ParseRange(header, size).Some? {
      var first, last := AcceptedIsWritten(header, size);
    }
  }

  // ----- Streaming

  type Bytes = Numerals.Bytes

  function Concat(chunks: seq<Bytes>): Bytes {
    if chunks == [] then [] else Concat(chunks[..|chunks| - 1]) + chunks[|chunks| - 1]
  }

  lemma ConcatMore(chunks: seq<Bytes>, chunk: Bytes)
    ensures Concat(chunks + [chunk]) == Concat(chunks) + chunk
  {
    assert (chunks + [chunk])[..|chunks|] == chunks;
  }

  /** The bytes from `start` on, `length` of them or as many as there are. */
  function Slice(content: Bytes, start: nat, length: int): Bytes {
    if start >= |content| || length <= 0 then []
    else if length >= |content| - start then content[start..]
    else content[start..start + length]
  }

  function SliceOf(content: Bytes, r: ByteRange): Bytes
    requires 0 <= r.start
  {
    Slice(content, r.start, r.end - r.start + 1)
  }

  lemma AcceptedBounds(header: string, size: nat)
    requires ParseRange(header, size).Some?
    ensures var r := ParseRange(header, size).value; 0 <= r.start <= r.end < size
  {
    var first, last := AcceptedIsWritten(header, size);
    AcceptedRange(header, first, last, size);
  }

  /** Adjacent ranges, one from the first byte and one to the last, hold together the whole file. */
  lemma AdjacentRangesCover(content: Bytes, left: string, right: string)
    requires ParseRange(left, |content|).Some? && ParseRange(right, |content|).Some?
    requires var l, r := ParseRange(left, |content|).value, ParseRange(right, |content|).value;
             l.start == 0 && r.start == l.end + 1 && r.end == |content| - 1
    ensures ParseRange(right, |content|).value.start >= 0
    ensures SliceOf(content, ParseRange(left, |content|).value)
            + SliceOf(content, ParseRange(right, |content|).value) == content
  {
    AcceptedBounds(left, |content|);
    SlicesCover(content, ParseRange(left, |content|).value.end);
  }

  lemma SlicesCover(content: Bytes, end: nat)
    requires end < |content|
    ensures Slice(content, 0, end + 1) + Slice(content, end + 1, |content| - 1 - (end + 1) + 1) == content
  {
    assert content == content[..end + 1] + content[end + 1..];
  }

  /** The chunks hold the first `done` bytes from `start`. */
  ghost predicate Sent(content: Bytes, start: nat, done: nat, chunks: seq<Bytes>) {
    Concat(chunks) == Slice(content, start, done) && |Concat(chunks)| == done &&
      (done == 0 || start + done <= |content|)
  }

  lemma SentMore(content: Bytes, start: nat, done: nat, chunks: seq<Bytes>, chunk: Bytes)
    requires Sent(content, start, done, chunks) && start + done + |chunk| <= |content|
    requires chunk == content[start + done..start + done + |chunk|]
    ensures Sent(content, start, done + |chunk|, chunks + [chunk])
  {
    ConcatMore(chunks, chunk);
    assert Slice(content, start, done) + chunk == Slice(content, start, done + |chunk|);
  }

  /** Nothing is left to ask for, or nothing left to read. */
  lemma SentAll(content: Bytes, start: nat, done: nat, chunks: seq<Bytes>, length: int)
    requires Sent(content, start, done, chunks)
    requires done == length || (length <= 0 && done == 0) || (start + done >= |content| && done <= length)
    ensures Concat(chunks) == Slice(content, start, length)
  {
  }

  /** How streaming ends: at the end of the range, by the consumer, by a read that raises, or at once. */
  datatype Ending = Complete | Stopped | ReadRaised | BadChunkSize

  class OpenedDownload {
    const content: Bytes
    var closed: bool
    /** How often the descriptor was closed. */
    ghost var closes: nat

    ghost predicate Valid()
      reads this
    {
      closes == if closed then 1 else 0
    }

    constructor (content: Bytes)
      ensures Valid() && !closed && this.content == content
    {
      this.content := content;
      closed, closes := false, 0;
    }

    method Close()
      requires Valid()
      modifies this
      ensures Valid() && closed
    {
      if closed { return; }
      closed := true;
      closes := closes + 1;
    }

    /** A read gives at least one byte unless the end is reached, may give fewer than asked, and may
        raise, as `fails` says. */
    method Pread(requested: nat, offset: nat, fails: bool) returns (chunk: Option<Bytes>)
      requires requested > 0 && !closed
      ensures chunk.None? <==> fails
      ensures !fails && offset >= |content| ==> chunk.value == []
      ensures !fails && offset < |content| ==>
                && 0 < |chunk.value| <= requested && offset + |chunk.value| <= |content|
                && chunk.value == content[offset..offset + |chunk.value|]
    {
      if fails { return None; }
      if offset >= |content| { return Some([]); }
      var available := if requested < |content| - offset then requested else |content| - offset;
      var n :| 1 <= n <= available;
      chunk := Some(content[offset..offset + n]);
    }

    /** Streams a range to a consumer that may stop after any number of chunks, by reads that may raise
        after any number of chunks. A bad chunk size raises before anything is read; otherwise the
        descriptor ends closed, once, whatever happens, and an undisturbed consumer has got exactly the
        bytes of the range. */
    method StreamDownload(start: nat, length: int, chunkSize: int, patience: Option<nat>, failure: Option<nat>)
      returns (chunks: seq<Bytes>, ending: Ending)
      requires Valid() && !closed
      modifies this
      ensures Valid()
      ensures ending == BadChunkSize <==> chunkSize <= 0
      ensures ending == BadChunkSize ==> chunks == [] && !closed
      ensures ending != BadChunkSize ==> closed && closes == 1
      ensures ending == Complete ==> Concat(chunks) == Slice(content, start, length)
      ensures ending == Stopped ==> patience == Some(|chunks|)
      ensures ending == ReadRaised ==> failure == Some(|chunks|)
      ensures ending == Stopped || ending == ReadRaised ==>
                |Concat(chunks)| < length && Concat(chunks) == Slice(content, start, |Concat(chunks)|)
      ensures forall i :: 0 <= i < |chunks| ==> 0 < |chunks[i]| <= chunkSize
    {
      chunks := [];
      if chunkSize <= 0 { return chunks, BadChunkSize; }
      var offset, remaining := start, length;
      ending := Complete;
      while remaining > 0
        invariant start <= offset && remaining == length - (offset - start) && (remaining >= 0 || offset == start)
        invariant Sent(content, start, offset - start, chunks)
        invariant forall i :: 0 <= i < |chunks| ==> 0 < |chunks[i]| <= chunkSize
        invariant !closed && Valid() && ending == Complete
        decreases remaining
      {
        if patience == Some(|chunks|) { ending := Stopped; break; }
        var requested := if remaining < chunkSize then remaining else chunkSize;
        var chunk := Pread(requested, offset, failure == Some(|chunks|));
        if chunk.None? { ending := ReadRaised; break; }
        if chunk.value == [] { break; }
        SentMore(content, start, offset - start, chunks, chunk.value);
        chunks := chunks + [chunk.value];
        offset := offset + |chunk.value|;
        remaining := remaining - |chunk.value|;
      }
      if ending == Complete { SentAll(content, start, offset - start, chunks, length); }
      Close();
    }
  }
}
