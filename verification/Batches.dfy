/** Recipient batches: how the publisher writes them
    (internal/publication/publisher.go) and how the worker scans them back
    (internal/distribution/worker.go). Rows are JSON documents, seen through a
    codec that the caller supplies. */
module Batches {
  import opened Basics
  import opened Decimals

  datatype Recipient = Recipient(email: string, firstName: string, lastName: string)

  /** A batch scan: the rows handed to the callback, and whether it ended well. */
  datatype Scan = Scan(rows: seq<Recipient>, clean: bool)

  // A line and its newline must fit the scanner's fixed buffer.
  const BUFFER := 1024

  function LineEnd(s: string): (n: nat)
    ensures n <= |s|
  {
    if s == [] || s[0] == '\n' then 0 else 1 + LineEnd(s[1..])
  }

  lemma {:induction false} LineEndSpec(s: string)
    ensures LineEnd(s) < |s| ==> s[LineEnd(s)] == '\n'
    ensures forall i | 0 <= i < LineEnd(s) :: s[i] != '\n'
  {
    if s != [] && s[0] != '\n' {
      LineEndSpec(s[1..]);
      forall i | 0 <= i < LineEnd(s)
        ensures s[i] != '\n'
      {
        if i > 0 { assert s[i] == s[1..][i - 1]; }
      }
    }
  }

  function DropCr(line: string): string {
    if line != [] && line[|line| - 1] == '\r' then line[..|line| - 1] else line
  }

  /** The next row of a non-empty rest, or None when the scan must stop. */
  function NextRow(parse: string -> Option<Recipient>, rest: string): Option<Recipient>
  {
    var n := LineEnd(rest);
    if n >= BUFFER then None
    else
      var raw := DropCr(rest[..n]);
      if raw == [] then None else parse(raw)
  }

  /** A final line without its newline is still handed over, and then refused. */
  function ScanRest(parse: string -> Option<Recipient>, s: string): Scan
    decreases |s|
  {
    if s == [] then Scan([], true)
    else
      match NextRow(parse, s)
      case None => Scan([], false)
      case Some(r) =>
        var n := LineEnd(s);
        if n == |s| then Scan([r], false)
        else
          var rest := ScanRest(parse, s[n + 1..]);
          Scan([r] + rest.rows, rest.clean)
  }

  /** The rows of a batch, or None when the contract refuses it. */
  function ScanBatch(parse: string -> Option<Recipient>, s: string): Option<seq<Recipient>> {
    var scan := ScanRest(parse, s);
    if scan.clean && scan.rows != [] then Some(scan.rows) else None
  }

  lemma ScanOne(parse: string -> Option<Recipient>, rest: string)
    requires rest != []
    ensures var n, raw := LineEnd(rest), DropCr(rest[..LineEnd(rest)]);
      ScanRest(parse, rest) ==
        if n >= BUFFER || raw == [] || parse(raw).None? then Scan([], false)
        else if n == |rest| then Scan([parse(raw).value], false)
        else Scan([parse(raw).value] + ScanRest(parse, rest[n + 1..]).rows, ScanRest(parse, rest[n + 1..]).clean)
  {}

  lemma EmptyScan(parse: string -> Option<Recipient>)
    ensures ScanRest(parse, []) == Scan([], true)
  {}

  /** scanRecipientRows as it runs: one pass, row by row. */
  method ScanRows(parse: string -> Option<Recipient>, content: string) returns (rows: seq<Recipient>, ok: bool)
    ensures rows == ScanRest(parse, content).rows
    ensures ok <==> ScanBatch(parse, content).Some?
    ensures ok ==> ScanBatch(parse, content) == Some(rows)
  {
    hide ScanRest, LineEnd, DropCr;
    rows := [];
    var at, last := 0, '\n';
    ghost var tail := ScanRest(parse, content);
    assert content[0..] == content;
    assert content == [] ==> tail == Scan([], true) by { EmptyScan(parse); }
    while at < |content|
      invariant 0 <= at <= |content|
      invariant ScanRest(parse, content) == Scan(rows + tail.rows, tail.clean)
      invariant at < |content| ==> tail == ScanRest(parse, content[at..])
      invariant at == |content| ==> tail == Scan([], last == '\n')
    {
      var rest := content[at..];
      ScanOne(parse, rest);
      var n := LineEnd(rest);
      if n >= BUFFER { return rows, false; }
      var raw := DropCr(rest[..n]);
      if raw == [] { return rows, false; }
      var r := parse(raw);
      if r.None? { return rows, false; }
      ghost var before := rows;
      rows := rows + [r.value];
      tail := if n == |rest| then Scan([], false) else ScanRest(parse, rest[n + 1..]);
      assert before + ([r.value] + tail.rows) == rows + tail.rows;
      if n == |rest| {
        LineEndSpec(rest);
        assert content[|content| - 1] == rest[|rest| - 1] != '\n';
        at, last := |content|, content[|content| - 1];
      } else {
        assert rest[n + 1..] == content[at + n + 1..];
        if n + 1 == |rest| { assert rest[n + 1..] == []; EmptyScan(parse); }
        at, last := at + n + 1, '\n';
      }
    }
    ok := rows != [] && last == '\n';
  }

  // ---- What a readable batch is -----------------------------------------------

  function Text(lines: seq<string>): string { if lines == [] then "" else lines[0] + ['\n'] + Text(lines[1..]) }

  /** The line, without its newline, spells the row: it fits the buffer, and what is
      left without one carriage return at its end parses to the row. */
  ghost predicate Spells(parse: string -> Option<Recipient>, line: string, row: Recipient) {
    && '\n' !in line && |line| < BUFFER
    && exists raw ::
         && raw != "" && parse(raw) == Some(row)
         && (line == raw + "\r" || (line == raw && raw[|raw| - 1] != '\r'))
  }

  ghost predicate AllSpell(parse: string -> Option<Recipient>, lines: seq<string>, rows: seq<Recipient>) {
    |lines| == |rows| && forall i | 0 <= i < |rows| :: Spells(parse, lines[i], rows[i])
  }

  lemma SpellsIsDropCr(parse: string -> Option<Recipient>, line: string, row: Recipient)
    ensures Spells(parse, line, row) <==>
      '\n' !in line && |line| < BUFFER && DropCr(line) != [] && parse(DropCr(line)) == Some(row)
  {
    var raw := DropCr(line);
    if line != [] && line[|line| - 1] == '\r' { assert line == raw + "\r"; }
    if Spells(parse, line, row) {
      var r :| r != "" && parse(r) == Some(row) && (line == r + "\r" || (line == r && r[|r| - 1] != '\r'));
      assert r == raw;
    }
  }

  lemma {:induction false} SpelledScans(parse: string -> Option<Recipient>, lines: seq<string>, rows: seq<Recipient>)
    requires AllSpell(parse, lines, rows)
    ensures ScanRest(parse, Text(lines)) == Scan(rows, true)
  {
    hide ScanRest, LineEnd, DropCr, Spells;
    if lines == [] {
      EmptyScan(parse);
    } else {
      var line, rest, body := lines[0], Text(lines[1..]), Text(lines);
      SpellsIsDropCr(parse, line, rows[0]);
      FirstLine(line, rest);
      ScanOne(parse, body);
      assert body[..|line|] == line && body[|line| + 1..] == rest;
      assert forall i | 0 <= i < |rows| - 1 :: lines[1..][i] == lines[i + 1] && rows[1..][i] == rows[i + 1];
      SpelledScans(parse, lines[1..], rows[1..]);
      assert [rows[0]] + rows[1..] == rows;
    }
  }

  lemma {:induction false} CleanIsSpelled(parse: string -> Option<Recipient>, s: string) returns (lines: seq<string>)
    requires ScanRest(parse, s).clean
    ensures s == Text(lines) && AllSpell(parse, lines, ScanRest(parse, s).rows)
    decreases |s|
  {
    hide ScanRest, LineEnd, DropCr, Spells;
    if s == [] {
      EmptyScan(parse);
      lines := [];
    } else {
      ScanOne(parse, s);
      LineEndSpec(s);
      var n := LineEnd(s);
      var line, rest, rows := s[..n], s[n + 1..], ScanRest(parse, s).rows;
      var tail := CleanIsSpelled(parse, rest);
      lines := [line] + tail;
      SpellsIsDropCr(parse, line, rows[0]);
      assert lines[1..] == tail && s == line + ['\n'] + rest;
      forall i | 0 <= i < |rows|
        ensures Spells(parse, lines[i], rows[i])
      {
        if i > 0 { assert Spells(parse, tail[i - 1], ScanRest(parse, rest).rows[i - 1]); }
      }
    }
  }

  /** A batch is accepted with these rows if and only if it is their lines, each
      ended by a newline, and there is at least one. */
  lemma ScanIsExact(parse: string -> Option<Recipient>, s: string, rows: seq<Recipient>)
    ensures ScanBatch(parse, s) == Some(rows) <==>
      rows != [] && exists lines :: s == Text(lines) && AllSpell(parse, lines, rows)
  {
    hide ScanRest, AllSpell;
    if ScanBatch(parse, s) == Some(rows) { var lines := CleanIsSpelled(parse, s); }
    if rows != [] && exists lines :: s == Text(lines) && AllSpell(parse, lines, rows) {
      var lines :| s == Text(lines) && AllSpell(parse, lines, rows);
      SpelledScans(parse, lines, rows);
    }
  }

  // ---- Building batches ------------------------------------------------------

  datatype Codec = Codec(encode: Recipient -> string, parse: string -> Option<Recipient>)

  /** A row that survives its own encoding and fills exactly one line. */
  ghost predicate Encodes(c: Codec, r: Recipient) {
    var line := c.encode(r);
    && c.parse(line) == Some(r)
    && line != [] && line[|line| - 1] != '\r'
    && forall i | 0 <= i < |line| :: line[i] != '\n'
  }

  ghost predicate AllEncode(c: Codec, rs: seq<Recipient>) {
    forall i | 0 <= i < |rs| :: Encodes(c, rs[i])
  }

  ghost predicate RowsFit(c: Codec, rs: seq<Recipient>) {
    forall i | 0 <= i < |rs| :: |c.encode(rs[i])| < BUFFER
  }

  function Body(c: Codec, rs: seq<Recipient>): string {
    if rs == [] then [] else c.encode(rs[0]) + ['\n'] + Body(c, rs[1..])
  }

  lemma {:induction false} FirstLine(line: string, rest: string)
    requires forall i | 0 <= i < |line| :: line[i] != '\n'
    ensures LineEnd(line + ['\n'] + rest) == |line|
  {
    if line == [] {
      assert (line + ['\n'] + rest)[0] == '\n';
    } else {
      FirstLine(line[1..], rest);
      assert (line + ['\n'] + rest)[1..] == line[1..] + ['\n'] + rest;
    }
  }

  /** The worker reads back exactly the rows the publisher wrote, and it does so
      if and only if every encoded row leaves room for its newline. */
  lemma {:induction false} BodyScans(c: Codec, rs: seq<Recipient>)
    requires AllEncode(c, rs)
    ensures RowsFit(c, rs) ==> ScanRest(c.parse, Body(c, rs)) == Scan(rs, true)
    ensures !RowsFit(c, rs) ==> !ScanRest(c.parse, Body(c, rs)).clean
  {
    hide ScanRest, LineEnd;
    if rs == [] {
      EmptyScan(c.parse);
    } else {
      var line, rest := c.encode(rs[0]), Body(c, rs[1..]);
      var body := Body(c, rs);
      assert Encodes(c, rs[0]);
      FirstLine(line, rest);
      ScanOne(c.parse, body);
      assert body[..|line|] == line && body[|line| + 1..] == rest;
      assert forall i | 0 <= i < |rs| - 1 :: rs[1..][i] == rs[i + 1];
      BodyScans(c, rs[1..]);
      if RowsFit(c, rs) {
        assert RowsFit(c, rs[1..]);
        assert [rs[0]] + rs[1..] == rs;
      } else if |line| < BUFFER {
        var i :| 0 <= i < |rs| && |c.encode(rs[i])| >= BUFFER;
        assert rs[i] == rs[1..][i - 1];
        assert !RowsFit(c, rs[1..]);
      }
    }
  }

  function BatchCount(total: nat, size: nat): nat
    requires size >= 1
  {
    (total + size - 1) / size
  }

  /** The declared recipient count of a batch in its queue message. */
  function BatchRecipientCount(index: int, total: int, size: int): int { Min(size, total - index * size) }

  /** Where batch `k` starts: k times the size. */
  function Start(k: nat, size: nat): nat { if k == 0 then 0 else Start(k - 1, size) + size }

  lemma {:induction false} StartIsProduct(k: nat, size: nat)
    ensures Start(k, size) == k * size
  {
    if k > 0 {
      StartIsProduct(k - 1, size);
      assert k * size == (k - 1) * size + size;
    }
  }

  lemma {:induction false} StartsAscend(j: nat, k: nat, size: nat)
    requires j <= k
    ensures Start(j, size) <= Start(k, size)
    ensures j < k ==> Start(j, size) + size <= Start(k, size)
  {
    if j < k { StartsAscend(j, k - 1, size); }
  }

  /** The recipients that go into batch `k`. */
  function Slice(rs: seq<Recipient>, size: nat, k: nat): seq<Recipient>
    requires Start(k, size) <= |rs|
  {
    rs[Start(k, size)..Min(Start(k, size) + size, |rs|)]
  }

  lemma CountIsCeiling(total: nat, size: nat)
    requires size >= 1
    ensures total <= Start(BatchCount(total, size), size) < total + size
  {
    var n := BatchCount(total, size);
    assert total + size - 1 == n * size + (total + size - 1) % size;
    StartIsProduct(n, size);
  }

  /** Batch `k` starts inside the list exactly when it is one of the batches. */
  lemma BatchStarts(total: nat, size: nat, k: nat)
    requires size >= 1
    ensures Start(k, size) < total <==> k < BatchCount(total, size)
  {
    hide BatchCount;
    var n := BatchCount(total, size);
    CountIsCeiling(total, size);
    if k < n { StartsAscend(k, n, size); } else { StartsAscend(n, k, size); }
  }

  lemma {:induction false} BodyAppends(c: Codec, rs: seq<Recipient>, r: Recipient)
    ensures Body(c, rs + [r]) == Body(c, rs) + c.encode(r) + ['\n']
  {
    if rs == [] {
      assert rs + [r] == [r];
      assert Body(c, [r][1..]) == [];
    } else {
      assert (rs + [r])[1..] == rs[1..] + [r];
      BodyAppends(c, rs[1..], r);
    }
  }

  method BuildBody(c: Codec, rs: seq<Recipient>) returns (body: string)
    ensures body == Body(c, rs)
  {
    body := [];
    for i := 0 to |rs|
      invariant body == Body(c, rs[..i])
    {
      BodyAppends(c, rs[..i], rs[i]);
      assert rs[..i] + [rs[i]] == rs[..i + 1];
      body := body + c.encode(rs[i]);
      body := body + ['\n'];
    }
    assert rs[..|rs|] == rs;
  }

  /** `body` is the text of batch `k`. */
  predicate IsBatch(c: Codec, rs: seq<Recipient>, size: nat, k: nat, body: string) {
    Start(k, size) <= |rs| && body == Body(c, Slice(rs, size, k))
  }

  lemma StartStep(k: nat, size: nat)
    ensures Start(0, size) == 0 && Start(k + 1, size) == Start(k, size) + size
  {}

  /** buildBatches: the append loop over the slices of the list. */
  method BuildBatches(c: Codec, rs: seq<Recipient>, size: nat) returns (batches: Option<seq<string>>)
    requires size >= 1
    ensures batches.None? <==> rs == [] || BatchCount(|rs|, size) > 10000
    ensures batches.Some? ==>
      && |batches.value| == BatchCount(|rs|, size)
      && forall k | 0 <= k < |batches.value| :: IsBatch(c, rs, size, k, batches.value[k])
  {
    hide BatchCount, Body, Start;
    StartStep(0, size);
    var count := BatchCount(|rs|, size);
    BatchStarts(|rs|, size, 0);
    if count < 1 || count > 10000 { return None; }
    var built: seq<string> := [];
    var start := 0;
    while start < |rs|
      invariant start == Start(|built|, size) && |built| <= count
      invariant forall k | 0 <= k < |built| :: IsBatch(c, rs, size, k, built[k])
      decreases |rs| - start
    {
      var end := Min(start + size, |rs|);
      var body := BuildBody(c, rs[start..end]);
      assert IsBatch(c, rs, size, |built|, body);
      BatchStarts(|rs|, size, |built|);
      StartStep(|built|, size);
      built := built + [body];
      start := start + size;
    }
    BatchStarts(|rs|, size, |built|);
    return Some(built);
  }

  function Flatten(batches: seq<seq<Recipient>>): seq<Recipient> {
    if batches == [] then [] else Flatten(batches[..|batches| - 1]) + batches[|batches| - 1]
  }

  /** The first `k` slices, in order. */
  function Slices(rs: seq<Recipient>, size: nat, k: nat): (s: seq<seq<Recipient>>)
    requires size >= 1 && k <= BatchCount(|rs|, size)
    ensures |s| == k
  {
    if k == 0 then []
    else BatchStarts(|rs|, size, k - 1); Slices(rs, size, k - 1) + [Slice(rs, size, k - 1)]
  }

  lemma {:induction false} SlicesCover(rs: seq<Recipient>, size: nat, k: nat)
    requires size >= 1 && k <= BatchCount(|rs|, size)
    ensures Flatten(Slices(rs, size, k)) == rs[..Min(Start(k, size), |rs|)]
  {
    hide BatchCount, Flatten;
    if k == 0 { EmptyFlatten(); }
    if k > 0 {
      BatchStarts(|rs|, size, k - 1);
      SlicesCover(rs, size, k - 1);
      FlattenAppends(Slices(rs, size, k - 1), Slice(rs, size, k - 1));
      var at := Start(k - 1, size);
      assert rs[..at] + rs[at..Min(at + size, |rs|)] == rs[..Min(at + size, |rs|)];
    }
  }

  lemma EmptyFlatten()
    ensures Flatten([]) == []
  {}

  lemma FlattenAppends(batches: seq<seq<Recipient>>, batch: seq<Recipient>)
    ensures Flatten(batches + [batch]) == Flatten(batches) + batch
  {
    assert (batches + [batch])[..|batches|] == batches;
  }

  /** Scanning the batch bodies in order gives back exactly the recipient list,
      each body holding as many rows as its queue message declares. */
  lemma BatchesRoundTrip(c: Codec, rs: seq<Recipient>, size: nat)
    requires size >= 1 && AllEncode(c, rs) && RowsFit(c, rs)
    ensures forall k | 0 <= k < BatchCount(|rs|, size) ::
      && Start(k, size) <= |rs|
      && ScanBatch(c.parse, Body(c, Slice(rs, size, k))) == Some(Slice(rs, size, k))
      && |Slice(rs, size, k)| == BatchRecipientCount(k, |rs|, size)
      && 1 <= BatchRecipientCount(k, |rs|, size) <= size
    ensures Flatten(Slices(rs, size, BatchCount(|rs|, size))) == rs
  {
    hide ScanRest, Body, BatchCount, Encodes;
    var n := BatchCount(|rs|, size);
    forall k | 0 <= k < n
      ensures
        && Start(k, size) <= |rs|
        && ScanBatch(c.parse, Body(c, Slice(rs, size, k))) == Some(Slice(rs, size, k))
        && |Slice(rs, size, k)| == BatchRecipientCount(k, |rs|, size)
        && 1 <= BatchRecipientCount(k, |rs|, size) <= size
    {
      BatchStarts(|rs|, size, k);
      StartIsProduct(k, size);
      var s := Slice(rs, size, k);
      forall i | 0 <= i < |s|
        ensures Encodes(c, s[i]) && |c.encode(s[i])| < BUFFER
      {
        assert s[i] == rs[Start(k, size) + i];
      }
      BodyScans(c, s);
    }
    SlicesCover(rs, size, n);
    CountIsCeiling(|rs|, size);
  }

  /** A non-empty batch is read back if and only if no encoded row fills the
      scanner's buffer; otherwise none of it is. */
  lemma ReadBackNeedsRoom(c: Codec, rs: seq<Recipient>)
    requires AllEncode(c, rs) && rs != []
    ensures ScanBatch(c.parse, Body(c, rs)) == Some(rs) <==> RowsFit(c, rs)
    ensures ScanBatch(c.parse, Body(c, rs)) == None <==> !RowsFit(c, rs)
  {
    BodyScans(c, rs);
  }

  // ---- Blob names --------------------------------------------------------------

  function Zeros(n: nat): (s: string)
    ensures |s| == n && forall i | 0 <= i < n :: s[i] == '0'
  {
    if n == 0 then [] else Zeros(n - 1) + ['0']
  }

  function LeftPad(value: nat, width: nat): string {
    var digits := Show(value);
    Zeros(if |digits| < width then width - |digits| else 0) + digits
  }

  function BatchName(operationId: string, index: nat): string {
    operationId + "/batch-" + LeftPad(index, 4) + ".jsonl"
  }

  /** A padded index is its decimal digits behind zeros, at least `width` long. */
  lemma LeftPadReads(i: nat, width: nat)
    ensures var t := LeftPad(i, width);
      AllDigits(t) && Value(t) == i && |t| == Max(width, |Show(i)|) && t[|t| - |Show(i)|..] == Show(i)
  {
    var a := Show(i);
    var zeros := Zeros(if |a| < width then width - |a| else 0);
    LeadingZeros(zeros, a);
    ValueOfShow(i);
  }

  lemma LeftPadIsInjective(i: nat, j: nat, width: nat)
    requires LeftPad(i, width) == LeftPad(j, width)
    ensures i == j
  {
    var a, b := Show(i), Show(j);
    LeadingZeros(Zeros(if |a| < width then width - |a| else 0), a);
    LeadingZeros(Zeros(if |b| < width then width - |b| else 0), b);
    ValueOfShow(i);
    ValueOfShow(j);
  }

  /** The batches of one operation have pairwise distinct blob names. */
  lemma BatchNamesAreDistinct(operationId: string, i: nat, j: nat)
    requires BatchName(operationId, i) == BatchName(operationId, j)
    ensures i == j
  {
    var prefix, x, y := operationId + "/batch-", LeftPad(i, 4), LeftPad(j, 4);
    var n, m := |prefix|, |BatchName(operationId, i)| - 6;
    assert BatchName(operationId, i)[n..m] == x;
    assert BatchName(operationId, j)[n..m] == y;
    LeftPadIsInjective(i, j, 4);
  }
}
