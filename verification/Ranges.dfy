/** Byte ranges (internal/download/range.go): what a Range header denotes under
    RFC 9110 sections 14.1.2 and 14.2, and what Select makes of it. */
module Ranges {
  import opened Basics
  import opened Decimals

  datatype ByteRange = ByteRange(start: Int64, end: Int64)

  datatype Selection = Selection(offset: Int64, length: Int64, range: Option<ByteRange>)

  const MAX_VALIDATOR := 128
  const UNIT := "bytes="

  // ---- What a header denotes --------------------------------------------------

  /** `first-last`, `first-` or `-count`. */
  datatype Spec = Spec(first: Option<nat>, last: Option<nat>)

  /** `text` is a non-empty run of digits for a number of 63 bits. */
  ghost predicate Number(text: string, n: nat) {
    text != "" && AllDigits(text) && Value(text) == n <= MAX_INT64
  }

  ghost predicate Reads(text: string, n: Option<nat>) {
    match n
    case None => text == ""
    case Some(v) => Number(text, v)
  }

  ghost predicate Spells(header: string, spec: Spec, a: string, b: string) {
    && header == UNIT + a + "-" + b
    && Reads(a, spec.first) && Reads(b, spec.last)
    && (spec.first.Some? || spec.last.Some?)
  }

  ghost predicate Denotes(header: string, spec: Spec) { exists a, b :: Spells(header, spec, a, b) }

  /** The byte positions asked for, in an object of `size` bytes. */
  predicate Asks(spec: Spec, size: int, i: int) {
    match spec
    case Spec(Some(first), Some(last)) => first <= i <= last
    case Spec(Some(first), None) => first <= i
    case Spec(None, Some(count)) => size - count <= i
    case Spec(None, None) => false
  }

  ghost predicate AsksNothing(spec: Spec, size: int) { forall i: int | 0 <= i < size :: !Asks(spec, size, i) }

  /** The positions from `first` up to `past` are those asked for that exist. */
  ghost predicate IsExactly(first: int, past: int, spec: Spec, size: int) {
    forall i: int :: first <= i < past <==> 0 <= i < size && Asks(spec, size, i)
  }

  // ---- Reading a header ---------------------------------------------------------

  function ParseDecimal(value: string): Option<Int64> {
    if value == "" || !AllDigits(value) || Value(value) > MAX_INT64 then None else Some(Value(value) as Int64)
  }

  /** The position of the first dash. */
  function Dash(s: string): (n: nat)
    ensures n <= |s|
    ensures '-' in s ==> n < |s| && s[n] == '-'
    ensures '-' !in s[..n]
  {
    if s == [] || s[0] == '-' then 0
    else
      var n := 1 + Dash(s[1..]);
      assert s[..n] == [s[0]] + s[1..][..n - 1];
      n
  }

  lemma {:induction false} DashSplits(a: string, b: string)
    requires '-' !in a
    ensures Dash(a + "-" + b) == |a|
  {
    if a != "" {
      DashSplits(a[1..], b);
      assert (a + "-" + b)[1..] == a[1..] + "-" + b;
    }
  }

  /** parseRange: bounds are read, checked and clamped as they are reassigned. */
  method ParseRange(header: string, size: Int64) returns (r: Option<ByteRange>)
    ensures r == Parsed(header, size)
  {
    if |header| == 0 || |header| > MAX_VALIDATOR || size <= 0 || !(UNIT <= header) || ',' in header { return None; }
    var specification := header[|UNIT|..];
    if multiset(specification)['-'] != 1 { return None; }
    assert '-' in multiset(specification);
    var at := Dash(specification);
    var left, right := specification[..at], specification[at + 1..];
    if left == "" && right == "" { return None; }
    if left == "" {
      var suffix := ParseDecimal(right);
      if suffix.None? || suffix.value <= 0 { return None; }
      var start := size - suffix.value;
      if start < 0 { start := 0; }
      return Some(ByteRange(start, size - 1));
    }
    var start := ParseDecimal(left);
    if start.None? || start.value >= size { return None; }
    var end := size - 1;
    if right != "" {
      var parsed := ParseDecimal(right);
      if parsed.None? || parsed.value < start.value { return None; }
      end := parsed.value;
      if end >= size { end := size - 1; }
    }
    return Some(ByteRange(start.value, end));
  }

  /** The parts of an accepted header around its dash. */
  function Parts(header: string): Option<(string, string)> {
    if |header| == 0 || |header| > MAX_VALIDATOR || !(UNIT <= header) || ',' in header then None
    else
      var s := header[|UNIT|..];
      if multiset(s)['-'] != 1 then None
      else
        assert '-' in multiset(s);
        var at := Dash(s);
        Some((s[..at], s[at + 1..]))
  }

  function ReadEnd(text: string): Option<Option<nat>> {
    if text == "" then Some(None)
    else
      match ParseDecimal(text)
      case None => None
      case Some(n) => if n < 0 then None else Some(Some(n as nat))
  }

  function Specify(header: string): Option<Spec> {
    match Parts(header)
    case None => None
    case Some((a, b)) =>
      match (ReadEnd(a), ReadEnd(b))
      case (Some(first), Some(last)) => if first.None? && last.None? then None else Some(Spec(first, last))
      case _ => None
  }

  /** The interval a specification selects from an object of `size` bytes. */
  function Resolve(spec: Spec, size: Int64): Option<ByteRange>
    requires spec.first.Some? ==> spec.first.value <= MAX_INT64
    requires spec.last.Some? ==> spec.last.value <= MAX_INT64
  {
    if size <= 0 then None
    else match spec
    case Spec(None, Some(count)) =>
      if count == 0 then None else Some(ByteRange(Max(0, size as int - count) as Int64, size - 1))
    case Spec(Some(first), None) =>
      if first >= size as int then None else Some(ByteRange(first as Int64, size - 1))
    case Spec(Some(first), Some(last)) =>
      if first >= size as int || last < first then None
      else Some(ByteRange(first as Int64, Min(last, size as int - 1) as Int64))
    case Spec(None, None) => None
  }

  lemma SpecifyIsBounded(header: string)
    ensures var s := Specify(header);
      s.Some? ==>
        && (s.value.first.Some? ==> s.value.first.value <= MAX_INT64)
        && (s.value.last.Some? ==> s.value.last.value <= MAX_INT64)
  {
    hide Parts;
  }

  function Parsed(header: string, size: Int64): Option<ByteRange> {
    SpecifyIsBounded(header);
    match Specify(header)
    case None => None
    case Some(spec) => Resolve(spec, size)
  }

  // ---- Reading is exact -----------------------------------------------------------

  lemma NoDashInNumber(text: string, n: Option<nat>)
    requires Reads(text, n)
    ensures '-' !in text && ',' !in text
    ensures ReadEnd(text) == Some(n)
  {}

  lemma ReadEndIsReads(text: string)
    requires ReadEnd(text).Some?
    ensures Reads(text, ReadEnd(text).value)
  {}

  lemma PartsSpell(header: string)
    requires Parts(header).Some?
    ensures var (a, b) := Parts(header).value; header == UNIT + a + "-" + b
  {
    hide Dash;
    var s := header[|UNIT|..];
    PrefixThenRest(UNIT, header);
    AroundDash(s);
    var at := Dash(s);
    Regroup(UNIT, s[..at], "-", s[at + 1..]);
  }

  lemma PrefixThenRest(prefix: string, s: string)
    requires prefix <= s
    ensures s == prefix + s[|prefix|..]
  {}

  lemma AroundDash(s: string)
    requires multiset(s)['-'] == 1
    ensures Dash(s) < |s| && s == s[..Dash(s)] + "-" + s[Dash(s) + 1..]
  {
    hide Dash;
    assert '-' in multiset(s);
    SplitAt(s, Dash(s));
  }

  lemma SplitAt(s: string, n: nat)
    requires n < |s|
    ensures s == s[..n] + [s[n]] + s[n + 1..]
  {}

  lemma Regroup(a: string, b: string, c: string, d: string)
    ensures a + (b + c + d) == a + b + c + d
  {}

  lemma SpelledHasParts(a: string, b: string)
    requires '-' !in a && ',' !in a && '-' !in b && ',' !in b
    requires |UNIT + a + "-" + b| <= MAX_VALIDATOR
    ensures Parts(UNIT + a + "-" + b) == Some((a, b))
  {
    hide Dash;
    var header, s := UNIT + a + "-" + b, a + "-" + b;
    assert header == UNIT + s && header[|UNIT|..] == s;
    assert ',' !in header by { assert ',' !in UNIT && ',' !in s; }
    OneDash(a, b);
    DashSplits(a, b);
    assert s[..|a|] == a && s[|a| + 1..] == b;
  }

  lemma OneDash(a: string, b: string)
    requires '-' !in a && '-' !in b
    ensures multiset(a + "-" + b)['-'] == 1
  {
    assert multiset(a)['-'] == 0 && multiset(b)['-'] == 0 && multiset("-")['-'] == 1;
  }

  /** A header of at most 128 bytes is read as a specification if and only if it
      denotes that one; so it never denotes two. */
  lemma SpecifyIsExact(header: string, spec: Spec)
    ensures Specify(header) == Some(spec) <==> |header| <= MAX_VALIDATOR && Denotes(header, spec)
  {
    hide Parts, Reads, ReadEnd;
    if Specify(header) == Some(spec) {
      PartsSpell(header);
      LengthOfParts(header);
      var (a, b) := Parts(header).value;
      ReadEndIsReads(a);
      ReadEndIsReads(b);
      assert Spells(header, spec, a, b);
    }
    if |header| <= MAX_VALIDATOR && Denotes(header, spec) {
      var a, b :| Spells(header, spec, a, b);
      NoDashInNumber(a, spec.first);
      NoDashInNumber(b, spec.last);
      SpelledHasParts(a, b);
    }
  }

  lemma LengthOfParts(header: string)
    requires Parts(header).Some?
    ensures |header| <= MAX_VALIDATOR
  {}

  /** The interval is exactly the requested positions that the object has; there
      is none if and only if the object has none of them. */
  lemma ResolveIsExact(spec: Spec, size: Int64)
    requires spec.first.Some? ==> spec.first.value <= MAX_INT64
    requires spec.last.Some? ==> spec.last.value <= MAX_INT64
    ensures var r := Resolve(spec, size);
      && (r.Some? ==> 0 <= r.value.start <= r.value.end < size)
      && (r.Some? ==> IsExactly(r.value.start as int, r.value.end as int + 1, spec, size as int))
      && (r.None? <==> AsksNothing(spec, size as int))
  {
    var r := Resolve(spec, size);
    if r.Some? { assert Asks(spec, size as int, r.value.start as int); }
  }

  // ---- Validators -------------------------------------------------------------------

  predicate ETagChar(c: char) { c != '"' && c as int >= 0x21 && c as int != 0x7f }

  /** A strong validator: quoted, with no quote, space or control inside. */
  predicate StrongETag(value: string) {
    && |value| >= 2 && value[0] == '"' && value[|value| - 1] == '"'
    && forall i | 1 <= i < |value| - 1 :: ETagChar(value[i])
  }

  method IsStrongETag(value: string) returns (strong: bool)
    ensures strong == StrongETag(value)
  {
    if |value| < 2 || value[0] != '"' || value[|value| - 1] != '"' || "W/" <= value { return false; }
    for index := 1 to |value| - 1
      invariant forall i | 1 <= i < index :: ETagChar(value[i])
    {
      var character := value[index];
      if character == '"' || (character as int) < 0x21 || character as int == 0x7f { return false; }
    }
    return true;
  }

  predicate IfRangePermits(values: seq<string>, current: string) {
    || |values| == 0
    || (|values| == 1 && |values[0]| <= MAX_VALIDATOR && StrongETag(values[0]) && values[0] == current)
  }

  // ---- Selection --------------------------------------------------------------------

  function Select(ranges: seq<string>, ifRanges: seq<string>, size: Int64, etag: string): Option<Selection> {
    var full := Selection(0, size, None);
    if size < 0 then None
    else if |ranges| == 0 then Some(full)
    else if |ranges| != 1 then None
    else if !IfRangePermits(ifRanges, etag) then Some(full)
    else
      match Parsed(ranges[0], size)
      case None => None
      case Some(r) =>
        assert 0 <= r.start <= r.end < size by { ParsedIsInside(ranges[0], size); }
        Some(Selection(r.start, r.end - r.start + 1, Some(r)))
  }

  lemma ParsedIsInside(header: string, size: Int64)
    ensures var r := Parsed(header, size); r.Some? ==> 0 <= r.value.start <= r.value.end < size
  {
    SpecifyIsBounded(header);
    if Specify(header).Some? { ResolveIsExact(Specify(header).value, size); }
  }

  /** The selection is partial and exact, and absent when nothing is asked. */
  ghost predicate Answers(s: Option<Selection>, spec: Spec, size: int) {
    match s
    case None => AsksNothing(spec, size)
    case Some(v) =>
      && v.range.Some? && !AsksNothing(spec, size)
      && IsExactly(v.offset as int, v.offset as int + v.length as int, spec, size)
  }

  /** The validator permits a range exactly when there is none, or when it is the
      one strong ETag of the object itself. */
  lemma IfRangeIsExact(ifRanges: seq<string>, etag: string)
    ensures IfRangePermits(ifRanges, etag) <==>
      ifRanges == [] || (ifRanges == [etag] && StrongETag(etag) && |etag| <= MAX_VALIDATOR)
  {
    hide StrongETag;
    if |ifRanges| == 1 { assert ifRanges == [ifRanges[0]]; }
  }

  /** A request in one Range header whose validator permits it is answered with
      exactly the positions it denotes, or refused exactly when the header
      denotes nothing or nothing that the object has. Without a Range header, or
      when the validator does not permit it, the whole object is selected; several
      Range headers are refused. */
  lemma SelectIsExact(ranges: seq<string>, ifRanges: seq<string>, size: Int64, etag: string)
    requires size >= 0
    ensures var s := Select(ranges, ifRanges, size, etag);
      if |ranges| == 1 && (ifRanges == [] || (ifRanges == [etag] && StrongETag(etag) && |etag| <= MAX_VALIDATOR)) then
        && (forall spec | |ranges[0]| <= MAX_VALIDATOR && Denotes(ranges[0], spec) :: Answers(s, spec, size as int))
        && (s.Some? ==> |ranges[0]| <= MAX_VALIDATOR && exists spec :: Denotes(ranges[0], spec))
      else s == if |ranges| <= 1 then Some(Selection(0, size, None)) else None
  {
    hide Specify, Resolve, Denotes, AsksNothing, IsExactly, StrongETag;
    IfRangeIsExact(ifRanges, etag);
    if |ranges| == 1 && IfRangePermits(ifRanges, etag) {
      var s, header := Select(ranges, ifRanges, size, etag), ranges[0];
      SpecifyIsBounded(header);
      ParsedIsInside(header, size);
      if Specify(header).Some? {
        SpecifyIsExact(header, Specify(header).value);
        ResolveIsExact(Specify(header).value, size);
      }
      forall spec | |header| <= MAX_VALIDATOR && Denotes(header, spec)
        ensures Answers(s, spec, size as int)
      {
        SpecifyIsExact(header, spec);
      }
    }
  }

  // ---- Printed ranges and resumption ----------------------------------------------------

  lemma {:induction false} ShowIsShort(n: nat, digits: nat)
    requires n < Pow10(digits) && digits >= 1
    ensures |Show(n)| <= digits
  {
    if n >= 10 { ShowIsShort(n / 10, digits - 1); }
  }

  function Pow10(n: nat): nat { if n == 0 then 1 else 10 * Pow10(n - 1) }

  lemma Show63(n: nat)
    requires n <= MAX_INT64
    ensures |Show(n)| <= 19 && Number(Show(n), n)
  {
    assert Pow10(19) == 10_000_000_000_000_000_000 by {
      assert Pow10(5) == 100_000;
      assert Pow10(10) == 10_000_000_000;
      assert Pow10(15) == 1_000_000_000_000_000;
    }
    ShowIsShort(n, 19);
    ValueOfShow(n);
  }

  function Printed(a: nat, b: nat): string { UNIT + Show(a) + "-" + Show(b) }

  function PrintedFrom(a: nat): string { UNIT + Show(a) + "-" + "" }

  /** Reading a printed range gives it back, cut to the object. */
  lemma PrintedReadsBack(a: nat, b: nat, size: Int64)
    requires a <= b <= MAX_INT64 && a < size as int
    ensures Parsed(Printed(a, b), size) == Some(ByteRange(a as Int64, Min(b, size as int - 1) as Int64))
  {
    hide Specify, Show, Number;
    Show63(a);
    Show63(b);
    var spec := Spec(Some(a), Some(b));
    assert Spells(Printed(a, b), spec, Show(a), Show(b));
    SpecifyIsExact(Printed(a, b), spec);
  }

  lemma PrintedFromReadsBack(a: nat, size: Int64)
    requires a < size as int
    ensures Parsed(PrintedFrom(a), size) == Some(ByteRange(a as Int64, size - 1))
  {
    hide Specify, Show, Number;
    Show63(a);
    var spec := Spec(Some(a), None);
    assert Spells(PrintedFrom(a), spec, Show(a), "");
    SpecifyIsExact(PrintedFrom(a), spec);
  }

  /** What a client receives for a selection of `content`. */
  function Payload(s: Selection, content: string): string
    requires 0 <= s.offset && 0 <= s.length && s.offset as int + s.length as int <= |content|
  {
    content[s.offset as int..s.offset as int + s.length as int]
  }

  /** Whatever was received before the connection broke, asking for the rest with
      the validator of the object received completes it to the same object; and
      if the object has been replaced meanwhile, the answer is the whole new
      object and is marked so. */
  lemma ResumeCompletes(content: string, etag: string, k: nat, now: string, nowTag: string)
    requires 0 < k < |content| <= MAX_INT64 && |now| <= MAX_INT64
    requires StrongETag(etag) && |etag| <= MAX_VALIDATOR
    requires nowTag == etag ==> now == content
    ensures var first := Select([Printed(0, k - 1)], [], |content| as Int64, etag);
      var rest := Select([PrintedFrom(k)], [etag], |now| as Int64, nowTag);
      && first == Some(Selection(0, k as Int64, Some(ByteRange(0, k as Int64 - 1))))
      && rest.Some? && rest.value.offset as int + rest.value.length as int <= |now|
      && 0 <= rest.value.offset && 0 <= rest.value.length
      && (rest.value.range.Some? <==> nowTag == etag)
      && (if rest.value.range.Some? then Payload(first.value, content) + Payload(rest.value, now) == content
          else Payload(rest.value, now) == now)
  {
    hide Parsed, Printed, PrintedFrom, StrongETag;
    PrintedReadsBack(0, k - 1, |content| as Int64);
    if nowTag == etag {
      PrintedFromReadsBack(k, |now| as Int64);
      assert content[0..k] + content[k..|content|] == content;
    }
  }
}
