/** One download exchange (internal/httpapi/handler.go): look at the object,
    select a range, and copy it segment by segment while the object may be
    replaced underneath (reads are pinned to an ETag, internal/blob/azure.go). */
module Streaming {
  import opened Basics
  import opened Ranges

  const MAX_OBJECT: Int64 := 256 * 1024 * 1024
  const MAX_SEGMENT: Int64 := 4 * 1024 * 1024

  /** One version of the stored object. */
  datatype Object = Object(etag: string, content: string)

  /** How the store and the connection treat one segment: whether the read is
      answered, how many bytes get through, whether the stream closes cleanly,
      and whether the client has gone by then. */
  datatype Luck = Luck(answers: bool, arrives: nat, closes: bool, gone: bool)

  datatype Open = Open(offset: Int64, length: Int64)

  datatype Snapshot = Snapshot(size: Int64, etag: string)

  /** How a download request ends. */
  datatype Answer = StorageError | TooLarge | RangeNotSatisfiable | Streamed(outcome: Outcome, bytes: Int64)

  datatype Outcome = StreamCompleted | StreamFailed | StreamAbandoned | StorageUnavailable

  /** The response headers that describe the payload. */
  datatype Head = Head(status: int, contentLength: Int64, etag: string, contentRange: Option<(Int64, Int64, Int64)>)

  predicate ValidETag(etag: string) { StrongETag(etag) && |etag| <= MAX_VALIDATOR }

  /** What the store demands of a ranged read. */
  predicate InBounds(offset: Int64, length: Int64, etag: string) {
    0 <= offset <= MAX_OBJECT && 1 <= length <= MAX_SEGMENT && ValidETag(etag)
  }

  /** Reads that follow each other without gap or overlap, starting at `from`,
      each within the bounds. */
  ghost predicate Tiles(opens: seq<Open>, from: Int64, etag: string) {
    && (opens != [] ==> opens[0].offset == from)
    && (forall i | 0 <= i < |opens| :: InBounds(opens[i].offset, opens[i].length, etag))
    && (forall i | 0 < i < |opens| ::
        opens[i].offset as int == opens[i - 1].offset as int + opens[i - 1].length as int)
  }

  /** The reads since `before` tile the bytes from `from` up to `to`, in as few
      segments as the limit allows. */
  ghost predicate Read(before: seq<Open>, opens: seq<Open>, from: Int64, to: int, etag: string) {
    && |before| < |opens| && opens[..|before|] == before
    && Tiles(opens[|before|..], from, etag)
    && opens[|opens| - 1].offset as int + opens[|opens| - 1].length as int == to
    && (|opens| - |before| - 1) * MAX_SEGMENT as int == opens[|opens| - 1].offset as int - from as int
  }

  /** The same, for some end inside the selection. */
  ghost predicate ReadsWithin(before: seq<Open>, opens: seq<Open>, s: Selection, etag: string) {
    exists to | to <= s.offset as int + s.length as int :: Read(before, opens, s.offset, to, etag)
  }

  lemma EndsWithin(before: seq<Open>, opens: seq<Open>, s: Selection, to: int, etag: string)
    requires Read(before, opens, s.offset, to, etag) && to <= s.offset as int + s.length as int
    ensures ReadsWithin(before, opens, s, etag)
  {}

  lemma ReadFirst(before: seq<Open>, opens: seq<Open>, first: Open, etag: string)
    requires opens == before + [first] && InBounds(first.offset, first.length, etag)
    ensures Read(before, opens, first.offset, first.offset as int + first.length as int, etag)
  {
    assert opens[|before|..] == [first];
  }

  lemma ReadNext(before: seq<Open>, soFar: seq<Open>, opens: seq<Open>, from: Int64, next: Open, etag: string)
    requires Read(before, soFar, from, next.offset as int, etag) && InBounds(next.offset, next.length, etag)
    requires soFar[|soFar| - 1].length == MAX_SEGMENT && opens == soFar + [next]
    ensures Read(before, opens, from, next.offset as int + next.length as int, etag)
  {
    TilesGrow(soFar[|before|..], from, etag, next);
    assert opens[|before|..] == soFar[|before|..] + [next];
  }

  /** A selection that lies inside an object of `size` bytes. */
  predicate Fits(s: Selection, size: int) {
    && 0 <= s.offset && 0 <= s.length && s.offset as int + s.length as int <= size <= MAX_OBJECT as int
    && (s.range.Some? ==> s.length > 0 && s.range.value == ByteRange(s.offset, s.offset + s.length - 1))
  }

  function HeadOf(s: Selection, seen: Object): Head
    requires Fits(s, |seen.content|)
  {
    Head(if s.range.Some? then 206 else 200, s.length, seen.etag,
         match s.range
         case None => None
         case Some(r) => Some((r.start, r.end, |seen.content| as Int64)))
  }

  /** The headers describe `whole`, taken from `content`: 206 and Content-Range
      appear exactly for a partial answer, and name its first and last position
      and the size of the object. */
  predicate HeadFits(h: Head, etag: string, content: string, whole: string, partial: bool) {
    && h.etag == etag && h.contentLength as int == |whole|
    && h.status == (if partial then 206 else 200)
    && match h.contentRange
       case None => !partial && whole == content
       case Some((first, last, size)) =>
         && partial && 0 <= first <= last < size && size as int == |content|
         && whole == content[first as int..last as int + 1]
  }

  lemma HeadDescribes(s: Selection, seen: Object)
    requires Fits(s, |seen.content|) && (s.range.None? ==> s.offset == 0 && s.length as int == |seen.content|)
    ensures HeadFits(HeadOf(s, seen), seen.etag, seen.content, Payload(s, seen.content), s.range.Some?)
  {}

  /** The payload is what the request selects from `seen`, or a prefix of it if
      the stream did not complete, and the headers describe it. A partial answer is
      given exactly to a single Range header that the validator permits. */
  predicate StreamedFrom(seen: Object, ranges: seq<string>, ifRanges: seq<string>, head: Option<Head>, payload: string,
                         answer: Answer)
    requires answer.Streamed?
  {
    && |seen.content| <= MAX_OBJECT as int
    && var selected := Select(ranges, ifRanges, |seen.content| as Int64, seen.etag);
       && selected.Some? && Fits(selected.value, |seen.content|)
       && var whole := Payload(selected.value, seen.content);
          && 0 <= answer.bytes as int <= |whole| && payload == whole[..answer.bytes as int]
          && (answer.outcome == StreamCompleted ==> payload == whole)
          && if answer.outcome == StorageUnavailable then head == None && payload == ""
             else head.Some? && HeadFits(head.value, seen.etag, seen.content, whole,
                                         |ranges| == 1 && IfRangePermits(ifRanges, seen.etag))
  }

  class Exchange {
    /** The object as the store holds it at the time of call `n`. */
    const timeline: nat -> Option<Object>
    const luck: nat -> Luck
    var calls: nat
    var opens: seq<Open>
    var head: Option<Head>
    var payload: string

    constructor (timeline: nat -> Option<Object>, luck: nat -> Luck)
      ensures this.timeline == timeline && this.luck == luck
      ensures calls == 0 && opens == [] && head == None && payload == ""
    {
      this.timeline, this.luck := timeline, luck;
      calls, opens, head, payload := 0, [], None, "";
    }

    /** The store never gives two contents the same ETag. */
    ghost predicate Faithful() {
      forall m: nat, n: nat | timeline(m).Some? && timeline(n).Some? ::
        timeline(m).value.etag == timeline(n).value.etag ==> timeline(m) == timeline(n)
    }

    /** Nothing goes wrong and nothing is replaced from call `from` on. */
    ghost predicate Calm(from: nat, seen: Object) {
      forall n: nat | from <= n :: timeline(n) == Some(seen) && luck(n).answers && luck(n).closes && !luck(n).gone
                                   && luck(n).arrives >= MAX_SEGMENT as int
    }

    /** Size and ETag of the object, if the store answers with a strong one. */
    method Stat() returns (snapshot: Option<Snapshot>)
      modifies this`calls
      ensures calls == old(calls) + 1
      ensures snapshot.Some? <==>
        && luck(old(calls)).answers && timeline(old(calls)).Some?
        && ValidETag(timeline(old(calls)).value.etag) && |timeline(old(calls)).value.content| <= MAX_INT64
      ensures snapshot.Some? ==>
        && snapshot.value.etag == timeline(old(calls)).value.etag
        && snapshot.value.size as int == |timeline(old(calls)).value.content|
    {
      var n := calls;
      calls := calls + 1;
      if !luck(n).answers { return None; }
      match timeline(n)
      case None => return None;
      case Some(now) =>
        if |now.content| > MAX_INT64 || !ValidETag(now.etag) { return None; }
        return Some(Snapshot(|now.content| as Int64, now.etag));
    }

    /** At call `n` the store answers with an object that has a strong ETag. */
    ghost predicate Offered(n: nat) {
      && luck(n).answers && timeline(n).Some?
      && ValidETag(timeline(n).value.etag) && |timeline(n).value.content| <= MAX_INT64
    }

    /** What a request selects from the object of call `n`. */
    ghost function SelectionAt(n: nat, ranges: seq<string>, ifRanges: seq<string>): Option<Selection>
      requires Offered(n)
    {
      Select(ranges, ifRanges, |timeline(n).value.content| as Int64, timeline(n).value.etag)
    }

    /** The protected part of ServeHTTP: each request gets the one answer that the
        object looked at calls for, and what is streamed comes from the one
        version that was looked at, whatever the store holds later. */
    method Serve(ranges: seq<string>, ifRanges: seq<string>) returns (answer: Answer)
      requires Faithful() && head == None && payload == ""
      modifies this`calls, this`opens, this`head, this`payload
      ensures !answer.Streamed? ==> payload == "" && head == None && opens == old(opens)
      ensures answer.Streamed? ==>
        && timeline(old(calls)).Some?
        && StreamedFrom(timeline(old(calls)).value, ranges, ifRanges, head, payload, answer)
        && (Calm(old(calls) + 1, timeline(old(calls)).value) ==> answer.outcome == StreamCompleted)
      ensures answer == StorageError <==> !Offered(old(calls))
      ensures answer == TooLarge <==>
        Offered(old(calls)) && |timeline(old(calls)).value.content| > MAX_OBJECT as int
      ensures answer == RangeNotSatisfiable <==>
        && Offered(old(calls)) && |timeline(old(calls)).value.content| <= MAX_OBJECT as int
        && SelectionAt(old(calls), ranges, ifRanges).None?
      ensures answer.Streamed? <==>
        && Offered(old(calls)) && |timeline(old(calls)).value.content| <= MAX_OBJECT as int
        && SelectionAt(old(calls), ranges, ifRanges).Some?
    {
      hide Select, StrongETag, Read, ReadsWithin, Payload, Faithful, HeadFits, HeadOf, IfRangePermits;
      var snapshot := Stat();
      if snapshot.None? { return StorageError; }
      var size, etag := snapshot.value.size, snapshot.value.etag;
      if size > MAX_OBJECT { return TooLarge; }
      var selection := Select(ranges, ifRanges, size, etag);
      if selection.None? { return RangeNotSatisfiable; }
      ghost var seen := timeline(old(calls)).value;
      SelectionFits(ranges, ifRanges, size, etag);
      HeadDescribes(selection.value, seen);
      var outcome, bytes := Stream(seen, etag, size, selection.value, old(calls));
      PayloadLength(selection.value, seen.content);
      assert outcome == StreamCompleted ==>
        Payload(selection.value, seen.content)[..bytes as int] == Payload(selection.value, seen.content);
      return Streamed(outcome, bytes);
    }

    method OpenRange(offset: Int64, length: Int64, etag: string) returns (body: Option<string>)
      modifies this`calls, this`opens
      ensures calls == old(calls) + 1 && opens == old(opens) + [Open(offset, length)]
      ensures body.Some? <==>
        && InBounds(offset, length, etag) && luck(old(calls)).answers
        && timeline(old(calls)).Some? && timeline(old(calls)).value.etag == etag
        && offset as int + length as int <= |timeline(old(calls)).value.content|
      ensures body.Some? ==>
        body.value == timeline(old(calls)).value.content[offset as int..offset as int + length as int]
    {
      var n := calls;
      calls, opens := calls + 1, opens + [Open(offset, length)];
      if offset < 0 || offset > MAX_OBJECT || length < 1 || length > MAX_SEGMENT || !ValidETag(etag) { return None; }
      if !luck(n).answers { return None; }
      match timeline(n)
      case None => return None;
      case Some(now) =>
        if now.etag != etag { return None; }
        var end := Min(offset as int + length as int, |now.content|);
        if offset as int > end || end - offset as int != length as int { return None; }
        return Some(now.content[offset as int..end]);
    }

    method CopySegment(body: string, length: Int64) returns (written: Int64, ok: bool)
      requires |body| == length as int && calls > 0
      modifies this`payload
      ensures 0 <= written <= length && payload == old(payload) + body[..written as int]
      ensures ok <==> luck(calls - 1).arrives >= length as int && luck(calls - 1).closes
      ensures ok ==> written == length
    {
      var l := luck(calls - 1);
      written := Min(l.arrives, length as int) as Int64;
      payload := payload + body[..written as int];
      return written, written == length && l.closes;
    }

    /** What a pinned read returned is the due segment of the selected slice. */
    lemma SegmentOf(seen: Object, at: nat, s: Selection, done: Int64, length: Int64, body: string)
      requires Faithful() && timeline(at) == Some(seen) && calls > 0 && Fits(s, |seen.content|)
      requires timeline(calls - 1).Some? && timeline(calls - 1).value.etag == seen.etag
      requires 0 <= done && 0 <= length && done as int + length as int <= s.length as int
      requires s.offset as int + done as int + length as int <= |timeline(calls - 1).value.content|
      requires var from := s.offset as int + done as int;
        body == timeline(calls - 1).value.content[from..from + length as int]
      ensures |Payload(s, seen.content)| == s.length as int
      ensures body == Payload(s, seen.content)[done as int..done as int + length as int]
    {
      Pinned(seen, at, calls - 1);
      SliceOf(seen.content, s, done, length);
    }

    /** The rest of the selection, once `done` bytes of it are written. */
    method CopyRest(ghost seen: Object, etag: string, s: Selection, done: Int64, ghost at: nat,
                    ghost before: seq<Open>, ghost text: string)
      returns (outcome: Outcome, bytes: Int64)
      requires Faithful() && timeline(at) == Some(seen) && etag == seen.etag && ValidETag(etag)
      requires Fits(s, |seen.content|) && 0 <= done <= s.length
      requires payload == text + Payload(s, seen.content)[..done as int]
      requires Read(before, opens, s.offset, s.offset as int + done as int, etag)
      requires |opens| > 0 && (done < s.length ==> opens[|opens| - 1].length == MAX_SEGMENT)
      modifies this`calls, this`opens, this`payload
      ensures 0 <= bytes <= s.length && payload == text + Payload(s, seen.content)[..bytes as int]
      ensures outcome != StorageUnavailable && (outcome == StreamCompleted ==> bytes == s.length)
      ensures outcome == StreamAbandoned ==> luck(calls).gone
      ensures Calm(old(calls), seen) ==> outcome == StreamCompleted
      ensures ReadsWithin(before, opens, s, etag)
      ensures outcome == StreamCompleted ==> Read(before, opens, s.offset, s.offset as int + s.length as int, etag)
    {
      hide Payload, Read, ReadsWithin, ValidETag, Faithful, StrongETag;
      ghost var all := Payload(s, seen.content);
      PayloadLength(s, seen.content);
      EndsWithin(before, opens, s, s.offset as int + done as int, etag);
      var totalWritten, offset, remaining := done, s.offset + done, s.length - done;
      while remaining > 0
        invariant 0 <= remaining <= s.length && offset == s.offset + s.length - remaining
        invariant totalWritten == s.length - remaining
        invariant payload == text + all[..totalWritten as int]
        invariant calls >= old(calls)
        invariant Read(before, opens, s.offset, offset as int, etag)
        invariant ReadsWithin(before, opens, s, etag)
        invariant |opens| > 0 && (remaining > 0 ==> opens[|opens| - 1].length == MAX_SEGMENT)
        decreases remaining
      {
        if luck(calls).gone { return StreamAbandoned, totalWritten; }
        var length := Shorter(remaining, MAX_SEGMENT);
        ghost var soFar := opens;
        var segment := OpenRange(offset, length, etag);
        ReadNext(before, soFar, opens, s.offset, Open(offset, length), etag);
        EndsWithin(before, opens, s, offset as int + length as int, etag);
        if segment.None? { return StreamFailed, totalWritten; }
        SegmentOf(seen, at, s, totalWritten, length, segment.value);
        var written, copied := CopySegment(segment.value, length);
        PrefixGrows(text, all, totalWritten as int, length as int, written as int);
        totalWritten := totalWritten + written;
        if !copied { return FailureOutcome(), totalWritten; }
        offset, remaining := offset + length, remaining - length;
      }
      return StreamCompleted, totalWritten;
    }

    /** The copy loop. The payload grows by a prefix of the selected slice of the
        version seen, whatever happens; a completed stream is all of it. */
    method Stream(ghost seen: Object, etag: string, size: Int64, s: Selection, ghost at: nat)
      returns (outcome: Outcome, bytes: Int64)
      requires Faithful() && timeline(at) == Some(seen) && etag == seen.etag && ValidETag(etag)
      requires size as int == |seen.content| && Fits(s, |seen.content|) && head == None
      modifies this`calls, this`opens, this`head, this`payload
      ensures 0 <= bytes <= s.length && payload == old(payload) + Payload(s, seen.content)[..bytes as int]
      ensures outcome == StreamCompleted ==> bytes == s.length
      ensures outcome == StreamAbandoned ==> luck(calls).gone
      ensures Calm(old(calls), seen) ==> outcome == StreamCompleted
      ensures if outcome == StorageUnavailable then head == None && bytes == 0 else head == Some(HeadOf(s, seen))
      ensures if s.length == 0 then opens == old(opens)
              else ReadsWithin(old(opens), opens, s, etag)
      ensures outcome == StreamCompleted && s.length > 0 ==>
        Read(old(opens), opens, s.offset, s.offset as int + s.length as int, etag)
    {
      hide Payload, Read, ReadsWithin, ValidETag, Faithful, StrongETag;
      var headers := Head(if s.range.Some? then 206 else 200, s.length, etag,
                          match s.range
                          case None => None
                          case Some(r) => Some((r.start, r.end, size)));
      ghost var before, text, all := opens, payload, Payload(s, seen.content);
      PayloadLength(s, seen.content);
      assert text + all[..0] == text;
      if s.length == 0 {
        head := Some(headers);
        return StreamCompleted, 0;
      }
      var firstLength := Shorter(s.length, MAX_SEGMENT);
      var reader := OpenRange(s.offset, firstLength, etag);
      ReadFirst(before, opens, Open(s.offset, firstLength), etag);
      EndsWithin(before, opens, s, s.offset as int + firstLength as int, etag);
      if reader.None? { return StorageUnavailable, 0; }
      SegmentOf(seen, at, s, 0, firstLength, reader.value);
      head := Some(headers);
      var written, copied := CopySegment(reader.value, firstLength);
      PrefixGrows(text, all, 0, firstLength as int, written as int);
      if !copied { return FailureOutcome(), written; }
      outcome, bytes := CopyRest(seen, etag, s, written, at, before, text);
    }

    /** A version with the ETag of the version seen is the version seen. */
    lemma Pinned(seen: Object, at: nat, n: nat)
      requires Faithful() && timeline(at) == Some(seen)
      requires timeline(n).Some? && timeline(n).value.etag == seen.etag
      ensures timeline(n) == Some(seen)
    {}

    function FailureOutcome(): Outcome
      reads this`calls
    {
      if luck(calls).gone then StreamAbandoned else StreamFailed
    }
  }

  lemma SelectionFits(ranges: seq<string>, ifRanges: seq<string>, size: Int64, etag: string)
    requires 0 <= size <= MAX_OBJECT && Select(ranges, ifRanges, size, etag).Some?
    ensures var s := Select(ranges, ifRanges, size, etag).value;
      && Fits(s, size as int)
      && (s.range.Some? <==> |ranges| == 1 && IfRangePermits(ifRanges, etag))
      && (s.range.None? ==> s.offset == 0 && s.length == size)
  {
    hide Parsed, IfRangePermits;
    if |ranges| == 1 { ParsedIsInside(ranges[0], size); }
  }

  lemma PayloadLength(s: Selection, content: string)
    requires Fits(s, |content|)
    ensures |Payload(s, content)| == s.length as int
  {}

  /** A segment of the object is the same segment of the selected slice. */
  lemma SliceOf(content: string, s: Selection, done: Int64, length: Int64)
    requires Fits(s, |content|) && 0 <= done && 0 <= length && done as int + length as int <= s.length as int
    ensures var at := s.offset as int + done as int;
      && at + length as int <= |content| && |Payload(s, content)| == s.length as int
      && content[at..at + length as int] == Payload(s, content)[done as int..done as int + length as int]
  {
    SliceOfSlice(content, s.offset as int, s.length as int, done as int, length as int);
  }

  lemma SliceOfSlice(c: string, from: nat, size: nat, x: nat, n: nat)
    requires from + size <= |c| && x + n <= size
    ensures c[from..from + size][x..x + n] == c[from + x..from + x + n]
  {
    var slice, left, right := c[from..from + size], c[from..from + size][x..x + n], c[from + x..from + x + n];
    forall i | 0 <= i < n
      ensures left[i] == right[i]
    {
      assert left[i] == slice[x + i] == c[from + (x + i)];
    }
  }

  function Shorter(a: Int64, b: Int64): Int64 { if a <= b then a else b }

  lemma TilesGrow(opens: seq<Open>, from: Int64, etag: string, next: Open)
    requires Tiles(opens, from, etag) && InBounds(next.offset, next.length, etag) && opens != []
    requires next.offset as int == opens[|opens| - 1].offset as int + opens[|opens| - 1].length as int
    ensures Tiles(opens + [next], from, etag)
  {}

  lemma PrefixGrows(text: string, all: string, done: int, length: int, written: int)
    requires 0 <= done && 0 <= written <= length && done + length <= |all|
    ensures (text + all[..done]) + all[done..done + length][..written] == text + all[..done + written]
  {}
}
