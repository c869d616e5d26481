/** Crash-free progress: how many deliveries one message can take when a single
    worker meets no store fault and is not redelivered before its retry delay. */
module Progress {
  import opened Basics
  import opened Receipts
  import opened Mail
  import opened RowProtocol
  import opened Sequential

  ghost predicate SameElsewhere(cells: Cells, cells': Cells, p: Path) {
    forall q | q != p :: (q in cells <==> q in cells') && (q in cells ==> cells'[q] == cells[q])
  }

  /** The receipt of this row, well formed within the worker's own budget. */
  ghost predicate Mine(cells: Cells, row: Row) {
    && PathOf(row) in cells
    && ReceiptMatches(cells[PathOf(row)].receipt, row)
    && Shape(cells[PathOf(row)].receipt, row.options.maxAttempts)
  }

  /** The row has left nothing here yet: the path is free, or it holds a receipt
      of another message, which the worker answers with a dead letter. */
  predicate Fresh(cells: Cells, row: Row) {
    PathOf(row) in cells ==> !ReceiptMatches(cells[PathOf(row)].receipt, row)
  }

  ghost predicate RowDelivered(cells: Cells, row: Row) {
    Mine(cells, row) && IsDelivered(cells[PathOf(row)].receipt.status)
  }

  /** Attempt `a` of this row was answered as retryable and is due at `ready`. */
  ghost predicate Waiting(cells: Cells, row: Row, a: int, ready: Instant) {
    && Mine(cells, row)
    && var r := cells[PathOf(row)].receipt;
       r.status == Retryable && r.attempt == a && ParseTime(r.nextAttemptAt.value) <= ready
  }

  /** What a row may leave behind, given the attempt it would spend. */
  ghost predicate RowOutcome(cells: Cells, row: Row, a: int, e: RowEnd) {
    && SameElsewhere(cells, e.cells, PathOf(row))
    && match e.result
       case Skipped => RowDelivered(e.cells, row)
       case Reported(disposition, _, delay) =>
         && (disposition == Complete ==> RowDelivered(e.cells, row))
         && (disposition == Abandon ==> Waiting(e.cells, row, a, row.now + delay))
  }

  lemma StampIsNotLater(t: Instant)
    ensures ParseTime(FormatTime(t)) <= t
  {}

  /** Once claimed, a row sends and ends delivered, dead-lettered, or waiting. */
  lemma ClaimedRow(cells: Cells, tag: ETag, row: Row, answer: MailResult)
    requires ValidOptions(row.options) && Representable(row.now)
    requires Mine(cells, row) && cells[PathOf(row)].receipt.status == Claimed
    ensures var stored := cells[PathOf(row)];
      RowOutcome(cells, row, stored.receipt.attempt, Drive(cells, tag, BeginSend(row, stored), answer))
  {
    var p, stored, limit := PathOf(row), cells[PathOf(row)], row.options.maxAttempts;
    StartSendSteps(stored.receipt, row.now, limit);
    var started := StartSend(stored.receipt, row.now).value;
    PutDrives(cells, tag, row, Starting, Some(stored), started, answer);
    var cells1 := cells[p := Stored(started, tag)];
    var s1 := Stored(started, tag);
    assert Drive(cells, tag, BeginSend(row, stored), answer) == Drive(cells1, tag + 1, Mailing(row, s1), answer);
    CallDrives(cells1, tag + 1, row, s1, answer);
    AnsweredRow(cells1, tag + 1, row, answer);
    assert SameElsewhere(cells, cells1, p);
  }

  lemma AnsweredRow(cells: Cells, tag: ETag, row: Row, answer: MailResult)
    requires ValidOptions(row.options)
    requires Mine(cells, row) && cells[PathOf(row)].receipt.status == SendStarted
    ensures var stored := cells[PathOf(row)];
      RowOutcome(cells, row, stored.receipt.attempt, Drive(cells, tag, AfterMail(row, stored, answer), answer))
  {
    var p, stored, limit := PathOf(row), cells[PathOf(row)], row.options.maxAttempts;
    var a := ApplyMailResult(stored.receipt, answer, row.now);
    ApplySteps(stored.receipt, answer, row.now, limit);
    StampIsNotLater(row.now + RetryDelay(stored.receipt, answer));
    hide RetryDelay, Shape;
    if a.updated.Some? {
      var purpose := Finishing(a.disposition, a.reason, a.delay);
      PutDrives(cells, tag, row, purpose, Some(stored), a.updated.value, answer);
      var cells1 := cells[p := Stored(a.updated.value, tag)];
      assert Mine(cells1, row);
      assert Drive(cells, tag, AfterMail(row, stored, answer), answer)
          == RowEnd(cells1, tag + 1, Reported(a.disposition, a.reason, a.delay), []);
    }
  }

  /** A row that nobody else works on either starts fresh, is already delivered,
      or waits for a retry that is now due. */
  ghost predicate Startable(cells: Cells, row: Row) {
    || Fresh(cells, row)
    || RowDelivered(cells, row)
    || (Mine(cells, row) && Waiting(cells, row, cells[PathOf(row)].receipt.attempt, row.now))
  }

  function NextAttempt(cells: Cells, row: Row): int {
    if Fresh(cells, row) then 1 else cells[PathOf(row)].receipt.attempt + 1
  }

  lemma ForeignRow(cells: Cells, tag: ETag, row: Row, answer: MailResult)
    requires PathOf(row) in cells && !ReceiptMatches(cells[PathOf(row)].receipt, row)
    ensures Drive(cells, tag, Fetching(row), answer)
         == RowEnd(cells, tag, Reported(DeadLetter, Some(ReceiptConflict), 0), [])
  {
    var done := DeadLetterRow(row, ReceiptConflict);
    assert Drive(cells, tag, Fetching(row), answer) == Drive(cells, tag, done, answer);
  }

  lemma FreshRow(cells: Cells, tag: ETag, row: Row, answer: MailResult)
    requires ValidOptions(row.options) && Representable(row.now) && Fresh(cells, row)
    ensures RowOutcome(cells, row, 1, Drive(cells, tag, Fetching(row), answer))
  {
    var p := PathOf(row);
    if p in cells {
      ForeignRow(cells, tag, row, answer);
      return;
    }
    ClaimIsFirst(IntentOf(row), row.now, row.options.maxAttempts);
    var claim := ClaimReceipt(IntentOf(row), row.now);
    if claim.Ok? {
      PutDrives(cells, tag, row, Claiming, None, claim.value, answer);
      var cells1 := cells[p := Stored(claim.value, tag)];
      if row.options.keyVersion != "" {
        ClaimedRow(cells1, tag + 1, row, answer);
      }
      assert SameElsewhere(cells, cells1, p);
    }
  }

  /** A retry beyond the budget closes the receipt. */
  lemma ExhaustedRow(cells: Cells, tag: ETag, row: Row, answer: MailResult)
    requires ValidOptions(row.options) && Representable(row.now)
    requires Waiting(cells, row, row.options.maxAttempts, row.now)
    ensures var e := Drive(cells, tag, DecideRetryable(row, cells[PathOf(row)]), answer);
      SameElsewhere(cells, e.cells, PathOf(row)) && e.result == Reported(DeadLetter, Some(RetryBudgetExhausted), 0)
  {
    hide Shape, Drive;
    var stored := cells[PathOf(row)];
    ExhaustSteps(stored.receipt, row.now, row.options.maxAttempts);
    var closed := Exhaust(stored.receipt, row.now).value;
    PutDrives(cells, tag, row, Exhausting, Some(stored), closed, answer);
    DoneDrives(cells[PathOf(row) := Stored(closed, tag)], tag + 1, row,
               Reported(DeadLetter, Some(RetryBudgetExhausted), 0), answer);
  }

  /** A retry within the budget is claimed again. */
  lemma RetriedRow(cells: Cells, tag: ETag, row: Row, a: int, answer: MailResult)
    requires ValidOptions(row.options) && Representable(row.now)
    requires Waiting(cells, row, a, row.now) && a < row.options.maxAttempts
    ensures RowOutcome(cells, row, a + 1, Drive(cells, tag, DecideRetryable(row, cells[PathOf(row)]), answer))
  {
    hide Shape, Drive;
    var p, stored, limit := PathOf(row), cells[PathOf(row)], row.options.maxAttempts;
    ReclaimSteps(stored.receipt, row.now, limit, limit);
    var reclaimed := Reclaim(stored.receipt, row.now, limit).value;
    PutDrives(cells, tag, row, Reclaiming, Some(stored), reclaimed, answer);
    var cells1 := cells[p := Stored(reclaimed, tag)];
    assert Mine(cells1, row);
    ClaimedRow(cells1, tag + 1, row, answer);
    assert SameElsewhere(cells, cells1, p);
  }

  lemma WaitingRow(cells: Cells, tag: ETag, row: Row, a: int, answer: MailResult)
    requires ValidOptions(row.options) && Representable(row.now) && Waiting(cells, row, a, row.now)
    ensures var e := Drive(cells, tag, Fetching(row), answer);
      && RowOutcome(cells, row, a + 1, e)
      && (a == row.options.maxAttempts ==> e.result.Reported? && e.result.disposition == DeadLetter)
  {
    hide Shape, DecideRetryable;
    var stored := cells[PathOf(row)];
    assert Drive(cells, tag, Fetching(row), answer) == Drive(cells, tag, DecideRetryable(row, stored), answer);
    WithinBudget(cells, row);
    if a == row.options.maxAttempts {
      ExhaustedRow(cells, tag, row, answer);
    } else {
      RetriedRow(cells, tag, row, a, answer);
    }
  }

  lemma RowEnds(cells: Cells, tag: ETag, row: Row, answer: MailResult)
    requires ValidOptions(row.options) && Representable(row.now) && Startable(cells, row)
    ensures var e := Drive(cells, tag, Fetching(row), answer);
      && RowOutcome(cells, row, NextAttempt(cells, row), e)
      && (RowDelivered(cells, row) ==> e == RowEnd(cells, tag, Skipped, []))
  {
    hide Shape;
    if Fresh(cells, row) {
      FreshRow(cells, tag, row, answer);
    } else if !RowDelivered(cells, row) {
      WaitingRow(cells, tag, row, cells[PathOf(row)].receipt.attempt, answer);
    } else {
      assert Drive(cells, tag, Fetching(row), answer) == Drive(cells, tag, RowDone(row, Skipped), answer);
    }
  }

  // ---- Deliveries of one message ---------------------------------------------

  ghost predicate DoneAt(b: Batch, cells: Cells, i: nat)
    requires i < |b.ids|
  {
    RowDelivered(cells, RowAt(b, i, 0))
  }

  predicate FreshAt(b: Batch, cells: Cells, i: nat)
    requires i < |b.ids|
  {
    Fresh(cells, RowAt(b, i, 0))
  }

  function PathAt(b: Batch, i: nat): Path
    requires i < |b.ids|
  {
    PathOf(RowAt(b, i, 0))
  }

  /** Everything before row `f` is delivered, and nothing after it has begun,
      except where a later row repeats an earlier recipient. */
  ghost predicate Frontier(b: Batch, cells: Cells, f: nat) {
    && f <= |b.ids|
    && (forall i | 0 <= i < f :: DoneAt(b, cells, i))
    && (forall i | f < i < |b.ids| :: b.ids[i] in b.ids[..f + 1] || FreshAt(b, cells, i))
  }

  /** Row `j` waits after attempt `a`, and it is the frontier. */
  ghost predicate Stuck(b: Batch, cells: Cells, j: nat, a: int, ready: Instant) {
    && j < |b.ids| && Frontier(b, cells, j)
    && Waiting(cells, RowAt(b, j, 0), a, ready)
  }

  /** The frontier is at `f`, and row `f` can be started at `ready`. */
  ghost predicate Passable(b: Batch, cells: Cells, f: nat, ready: Instant) {
    && Frontier(b, cells, f)
    && (f < |b.ids| ==>
          || DoneAt(b, cells, f) || FreshAt(b, cells, f)
          || exists a :: Waiting(cells, RowAt(b, f, 0), a, ready))
  }

  /** The frontier has just arrived at row `f`, which is untouched or repeats a
      delivered recipient. */
  ghost predicate Opened(b: Batch, cells: Cells, f: nat) {
    Frontier(b, cells, f) && (f < |b.ids| ==> DoneAt(b, cells, f) || FreshAt(b, cells, f))
  }

  ghost predicate ClockOk(world: World, ready: Instant) {
    forall i: nat :: ready <= world.clock(i) && Representable(world.clock(i))
  }

  /** The clock reading plays no part in which receipt a row owns. */
  lemma SameRow(b: Batch, cells: Cells, i: nat, now: Instant)
    requires i < |b.ids|
    ensures RowDelivered(cells, RowAt(b, i, now)) == DoneAt(b, cells, i)
    ensures Mine(cells, RowAt(b, i, now)) == Mine(cells, RowAt(b, i, 0))
    ensures Fresh(cells, RowAt(b, i, now)) == FreshAt(b, cells, i)
    ensures forall a, t :: Waiting(cells, RowAt(b, i, now), a, t) == Waiting(cells, RowAt(b, i, 0), a, t)
  {
    hide Shape;
  }

  /** Passing the frontier row moves the frontier by one. */
  lemma FrontierMoves(b: Batch, cells: Cells, cells': Cells, f: nat)
    requires f < |b.ids| && Frontier(b, cells, f)
    requires SameElsewhere(cells, cells', PathAt(b, f)) && DoneAt(b, cells', f)
    ensures Frontier(b, cells', f + 1)
    ensures f + 1 < |b.ids| ==> DoneAt(b, cells', f + 1) || FreshAt(b, cells', f + 1)
  {
    hide Shape, ReceiptMatches;
    forall i | 0 <= i < f
      ensures DoneAt(b, cells', i)
    {
      assert DoneAt(b, cells, i);
      if b.ids[i] == b.ids[f] { assert RowAt(b, i, 0) == RowAt(b, f, 0); }
    }
    forall i | f < i < |b.ids|
      ensures b.ids[i] in b.ids[..f + 1] || FreshAt(b, cells', i)
    {
      if b.ids[i] !in b.ids[..f + 1] { assert b.ids[f] == b.ids[..f + 1][f]; }
    }
    forall i | f + 1 < i < |b.ids|
      ensures b.ids[i] in b.ids[..f + 2] || FreshAt(b, cells', i)
    {
      if b.ids[i] in b.ids[..f + 1] {
        var k :| 0 <= k < f + 1 && b.ids[..f + 1][k] == b.ids[i];
        assert b.ids[..f + 2][k] == b.ids[i];
      }
    }
    if f + 1 < |b.ids| && b.ids[f + 1] in b.ids[..f + 1] {
      var k :| 0 <= k < f + 1 && b.ids[..f + 1][k] == b.ids[f + 1];
      assert DoneAt(b, cells', k) && RowAt(b, k, 0) == RowAt(b, f + 1, 0);
    }
  }

  /** A waiting frontier row that is tried again leaves the frontier in place. */
  lemma FrontierStays(b: Batch, cells: Cells, cells': Cells, f: nat)
    requires f < |b.ids| && Frontier(b, cells, f) && SameElsewhere(cells, cells', PathAt(b, f))
    requires forall i | 0 <= i < f :: PathAt(b, i) != PathAt(b, f)
    ensures Frontier(b, cells', f)
  {
    hide Shape, ReceiptMatches;
    forall i | 0 <= i < f
      ensures DoneAt(b, cells', i)
    {
      assert DoneAt(b, cells, i) && PathAt(b, i) != PathAt(b, f);
    }
    forall i | f < i < |b.ids|
      ensures b.ids[i] in b.ids[..f + 1] || FreshAt(b, cells', i)
    {
      if b.ids[i] !in b.ids[..f + 1] { assert b.ids[f] == b.ids[..f + 1][f]; }
    }
  }

  /** An undelivered receipt that may still be tried again. */
  ghost predicate HasBudget(b: Batch, cells: Cells, f: nat)
    requires f < |b.ids|
  {
    !FreshAt(b, cells, f) && !DoneAt(b, cells, f) ==>
      cells[PathAt(b, f)].receipt.attempt < b.options.maxAttempts
  }

  /** What one delivery does, started at row `i` with the frontier at `f`. If it
      is abandoned, it is at a row `j` that spent one more attempt than before. */
  lemma {:induction false} DeliveryEnds(b: Batch, cells: Cells, tag: ETag, world: World, i: nat, f: nat,
                                        processed: nat, skipped: nat, ready: Instant)
    returns (j: nat)
    requires ValidOptions(b.options) && ClockOk(world, ready)
    requires i <= f <= |b.ids| && Passable(b, cells, f, ready)
    ensures var e := Deliver(cells, tag, b, world, i, processed, skipped);
      e.disposition == Abandon ==>
        && f <= j < |b.ids| && HasBudget(b, cells, f)
        && (j == f ==> !DoneAt(b, cells, f)
                       && Stuck(b, e.cells, j, NextAttempt(cells, RowAt(b, f, 0)), e.ready))
        && (j > f ==> Stuck(b, e.cells, j, 1, e.ready))
    decreases |b.ids| - i
  {
    hide Drive, DoneAt, Stuck, HasBudget, Frontier, Passable, Opened, NextAttempt;
    j := f;
    if i < |b.ids| {
      var row := RowAt(b, i, world.clock(i));
      var e := Drive(cells, tag, Fetching(row), world.answer(i));
      if i < f {
        assert Frontier(b, cells, f) by { PassableFrontier(b, cells, f, ready); }
        DeliveredRowEnds(b, cells, tag, row, i, f, world.answer(i));
        j := DeliveryEnds(b, cells, tag, world, i + 1, f, processed, skipped + 1, ready);
      } else {
        FrontierRowEnds(b, cells, tag, row, f, ready, world.answer(i));
        if e.result.Skipped? {
          OpenedIsPassable(b, e.cells, f + 1, ready);
          j := DeliveryEnds(b, e.cells, e.tag, world, i + 1, f + 1, processed, skipped + 1, ready);
        } else if e.result.disposition == Complete {
          OpenedIsPassable(b, e.cells, f + 1, ready);
          j := DeliveryEnds(b, e.cells, e.tag, world, i + 1, f + 1, processed + 1, skipped, ready);
        }
      }
    }
  }

  lemma OpenedIsPassable(b: Batch, cells: Cells, f: nat, ready: Instant)
    requires Opened(b, cells, f)
    ensures Passable(b, cells, f, ready) && f <= |b.ids|
    ensures f < |b.ids| && !DoneAt(b, cells, f) ==> NextAttempt(cells, RowAt(b, f, 0)) == 1
  {}

  lemma PassableFrontier(b: Batch, cells: Cells, f: nat, ready: Instant)
    requires Passable(b, cells, f, ready)
    ensures Frontier(b, cells, f)
  {}

  lemma FrontierRowEnds(b: Batch, cells: Cells, tag: ETag, row: Row, f: nat, ready: Instant, answer: MailResult)
    requires ValidOptions(b.options) && f < |b.ids| && Passable(b, cells, f, ready)
    requires row == RowAt(b, f, row.now) && ready <= row.now && Representable(row.now)
    ensures var e := Drive(cells, tag, Fetching(row), answer);
      && (DoneAt(b, cells, f) ==> e.result.Skipped?)
      && (e.result.Skipped? || e.result.disposition != DeadLetter ==> HasBudget(b, cells, f))
      && (e.result.Skipped? || e.result.disposition == Complete ==> Opened(b, e.cells, f + 1))
      && (e.result.Reported? && e.result.disposition == Abandon ==>
            Stuck(b, e.cells, f, NextAttempt(cells, RowAt(b, f, 0)), row.now + e.result.retryAfter)
            && !DoneAt(b, cells, f))
  {
    hide Drive, Shape;
    var e := Drive(cells, tag, Fetching(row), answer);
    SameRow(b, cells, f, row.now);
    assert Startable(cells, row);
    RowEnds(cells, tag, row, answer);
    if !FreshAt(b, cells, f) && !DoneAt(b, cells, f) {
      WaitingRow(cells, tag, row, cells[PathAt(b, f)].receipt.attempt, answer);
      WithinBudget(cells, row);
    }
    if e.result.Reported? && e.result.disposition == Abandon {
      SameRow(b, e.cells, f, row.now);
      forall i | 0 <= i < f
        ensures PathAt(b, i) != PathAt(b, f)
      {
        assert DoneAt(b, cells, i);
      }
      FrontierStays(b, cells, e.cells, f);
    }
    if e.result.Skipped? || e.result.disposition == Complete {
      SameRow(b, e.cells, f, row.now);
      FrontierMoves(b, cells, e.cells, f);
    }
  }

  lemma DeliveredRowEnds(b: Batch, cells: Cells, tag: ETag, row: Row, i: nat, f: nat, answer: MailResult)
    requires ValidOptions(b.options) && i < f && Frontier(b, cells, f)
    requires row == RowAt(b, i, row.now) && Representable(row.now)
    ensures Drive(cells, tag, Fetching(row), answer) == RowEnd(cells, tag, Skipped, [])
  {
    hide Shape, Drive;
    assert DoneAt(b, cells, i);
    SameRow(b, cells, i, row.now);
    RowEnds(cells, tag, row, answer);
  }

  lemma WithinBudget(cells: Cells, row: Row)
    requires Mine(cells, row)
    ensures 1 <= cells[PathOf(row)].receipt.attempt <= row.options.maxAttempts
  {}

  // ---- The bound ------------------------------------------------------------------

  /** What may happen to the store between two deliveries of this message: paths
      of other rows change freely, and a path this message has not touched may
      be taken by another message. */
  ghost predicate Meanwhile(b: Batch, cells: Cells, cells': Cells) {
    forall i | 0 <= i < |b.ids| ::
      if FreshAt(b, cells, i) then FreshAt(b, cells', i)
      else PathAt(b, i) in cells' && cells'[PathAt(b, i)] == cells[PathAt(b, i)]
  }

  /** One delivery: the store it meets, and its surroundings. */
  datatype Turn = Turn(cells: Cells, tag: ETag, world: World)

  /** Deliveries `ds` of the message, each no earlier than the delay the previous
      one asked for, that all end in Abandon; other messages come in between. */
  ghost predicate AllAbandoned(b: Batch, cells: Cells, ds: seq<Turn>, ready: Instant)
    decreases |ds|
  {
    ds == [] ||
    (&& ClockOk(ds[0].world, ready) && Meanwhile(b, cells, ds[0].cells)
     && var e := Deliver(ds[0].cells, ds[0].tag, b, ds[0].world, 0, 0, 0);
        e.disposition == Abandon && AllAbandoned(b, e.cells, ds[1..], e.ready))
  }

  /** A message stands where it stood after whatever happened meanwhile. */
  lemma StuckStays(b: Batch, cells: Cells, cells': Cells, j: nat, a: int, ready: Instant)
    requires Stuck(b, cells, j, a, ready) && Meanwhile(b, cells, cells')
    ensures Stuck(b, cells', j, a, ready)
  {
    hide Shape, ReceiptMatches;
    assert !FreshAt(b, cells, j) && PathAt(b, j) in cells';
    forall i | 0 <= i < j
      ensures DoneAt(b, cells', i)
    {
      assert DoneAt(b, cells, i) && !FreshAt(b, cells, i);
    }
    forall i | j < i < |b.ids|
      ensures b.ids[i] in b.ids[..j + 1] || FreshAt(b, cells', i)
    {
      if b.ids[i] !in b.ids[..j + 1] { assert FreshAt(b, cells, i); }
    }
  }

  // ---- Deliveries of other messages ---------------------------------------------------

  predicate Owns(row: Row, r: Receipt) { r.intent.messageId == row.message.messageId }

  /** The row holds what it works on: nothing, or a receipt of its own message. */
  ghost predicate Holding(cells: Cells, pc: Pc) {
    var p := PathOf(pc.row);
    match pc
    case Uploading(row, _, base, next) =>
      && Owns(row, next)
      && (base.Some? ==> p in cells && cells[p] == base.value && Owns(row, base.value.receipt))
    case Confirming(row, _, next, own) => Owns(row, next) && p in cells && cells[p] == Stored(next, own)
    case Mailing(row, stored) => p in cells && cells[p] == stored && Owns(row, stored.receipt)
    case Awaiting(row, stored, _) => p in cells && cells[p] == stored && Owns(row, stored.receipt)
    case _ => true
  }

  lemma DecideHolds(cells: Cells, row: Row, stored: Stored, owned: bool)
    requires PathOf(row) in cells && cells[PathOf(row)] == stored
    ensures Holding(cells, Decide(row, stored, owned)) && CallsLeft(Decide(row, stored, owned)) <= 12
  {
    hide Valid;
  }

  lemma PutHolds(cells: Cells, row: Row, purpose: Purpose, stored: Stored)
    requires PathOf(row) in cells && cells[PathOf(row)] == stored && Owns(row, stored.receipt)
    ensures Holding(cells, AfterPut(row, purpose, stored))
    ensures CallsLeft(AfterPut(row, purpose, stored)) < UploadRank(purpose) - 1
  {
    hide Valid, Decide;
    if purpose.Claiming? { DecideHolds(cells, row, stored, true); }
  }

  lemma AnswerHolds(cells: Cells, row: Row, stored: Stored, answer: MailResult)
    requires PathOf(row) in cells && cells[PathOf(row)] == stored && Owns(row, stored.receipt)
    ensures Holding(cells, AfterMail(row, stored, answer)) && CallsLeft(AfterMail(row, stored, answer)) <= 4
  {
    hide Valid, RetryDelay;
  }

  /** Only the row's own path changes, from free or its own to its own. */
  ghost predicate OnlyOwn(cells: Cells, cells': Cells, row: Row) {
    var p := PathOf(row);
    && SameElsewhere(cells, cells', p)
    && (|| (p !in cells && p !in cells')
        || (p in cells && p in cells' && cells'[p] == cells[p])
        || ((p in cells ==> Owns(row, cells[p].receipt)) && p in cells' && Owns(row, cells'[p].receipt)))
  }

  lemma {:induction false} DriveOnlyOwn(cells: Cells, tag: ETag, pc: Pc, answer: MailResult)
    requires Holding(cells, pc)
    ensures OnlyOwn(cells, Drive(cells, tag, pc, answer).cells, pc.row)
    decreases CallsLeft(pc)
  {
    hide Decide, AfterPut, AfterMail, Valid;
    var row, p := pc.row, PathOf(pc.row);
    match pc
    case Fetching(_) =>
      if p in cells { DecideHolds(cells, row, cells[p], false); }
      DriveOnlyOwn(cells, tag, AfterFetch(row, ReadAt(cells, p)), answer);
    case Refetching(_) =>
      if p in cells { DecideHolds(cells, row, cells[p], false); }
      DriveOnlyOwn(cells, tag, AfterRefetch(row, ReadAt(cells, p)), answer);
    case Uploading(_, purpose, base, next) =>
      if Replaceable(cells, p, base) {
        DriveOnlyOwn(cells[p := Stored(next, tag)], tag + 1, Confirming(row, purpose, next, tag), answer);
      } else {
        DriveOnlyOwn(cells, tag, AfterPutError(row, purpose, true), answer);
      }
    case Confirming(_, purpose, next, own) =>
      PutHolds(cells, row, purpose, cells[p]);
      DriveOnlyOwn(cells, tag, AfterConfirm(row, purpose, next, ReadAt(cells, p)), answer);
    case Mailing(_, stored) => DriveOnlyOwn(cells, tag, Awaiting(row, stored, 0), answer);
    case Awaiting(_, stored, _) =>
      AnswerHolds(cells, row, stored, answer);
      DriveOnlyOwn(cells, tag, AfterMail(row, stored, answer), answer);
    case RowDone(_, _) =>
  }

  /** A row of another message leaves this message where it is. */
  lemma OtherRow(b: Batch, cells: Cells, tag: ETag, row: Row, answer: MailResult)
    requires row.message.messageId != b.message.messageId
    ensures Meanwhile(b, cells, Drive(cells, tag, Fetching(row), answer).cells)
  {
    hide Drive;
    DriveOnlyOwn(cells, tag, Fetching(row), answer);
  }

  lemma MeanwhileIsTransitive(b: Batch, c1: Cells, c2: Cells, c3: Cells)
    requires Meanwhile(b, c1, c2) && Meanwhile(b, c2, c3)
    ensures Meanwhile(b, c1, c3)
  {
    hide ReceiptMatches;
    forall i | 0 <= i < |b.ids|
      ensures if FreshAt(b, c1, i) then FreshAt(b, c3, i)
              else PathAt(b, i) in c3 && c3[PathAt(b, i)] == c1[PathAt(b, i)]
    {
      assert FreshAt(b, c1, i) ==> FreshAt(b, c2, i);
    }
  }

  /** What `Meanwhile` allows is what deliveries of other messages do. */
  lemma {:induction false} OtherDelivery(b: Batch, cells: Cells, tag: ETag, other: Batch, world: World, i: nat,
                                         processed: nat, skipped: nat)
    requires other.message.messageId != b.message.messageId && i <= |other.ids|
    ensures Meanwhile(b, cells, Deliver(cells, tag, other, world, i, processed, skipped).cells)
    decreases |other.ids| - i
  {
    hide Drive, Meanwhile;
    if i == |other.ids| {
      MeanwhileNothing(b, cells);
    } else {
      var row := RowAt(other, i, world.clock(i));
      var e := Drive(cells, tag, Fetching(row), world.answer(i));
      OtherRow(b, cells, tag, row, world.answer(i));
      if e.result.Skipped? {
        OtherDelivery(b, e.cells, e.tag, other, world, i + 1, processed, skipped + 1);
        MeanwhileIsTransitive(b, cells, e.cells,
                              Deliver(e.cells, e.tag, other, world, i + 1, processed, skipped + 1).cells);
      } else if e.result.disposition == Complete {
        OtherDelivery(b, e.cells, e.tag, other, world, i + 1, processed + 1, skipped);
        MeanwhileIsTransitive(b, cells, e.cells,
                              Deliver(e.cells, e.tag, other, world, i + 1, processed + 1, skipped).cells);
      }
    }
  }

  lemma MeanwhileNothing(b: Batch, cells: Cells)
    ensures Meanwhile(b, cells, cells)
  {}

  /** Abandoned deliveries still possible once row `j` waits after attempt `a`. */
  function Budget(b: Batch, j: nat, a: int): int {
    (b.options.maxAttempts - a) + (|b.ids| - 1 - j) * (b.options.maxAttempts - 1)
  }

  lemma BudgetShrinks(b: Batch, j: nat, a: int, k: nat)
    requires ValidOptions(b.options) && j < k < |b.ids| && a < b.options.maxAttempts
    ensures Budget(b, k, 1) < Budget(b, j, a)
  {
    var m, n := b.options.maxAttempts, |b.ids|;
    assert (n - k) * (m - 1) <= (n - 1 - j) * (m - 1);
    assert Budget(b, k, 1) == (n - k) * (m - 1);
  }

  lemma BudgetIsNatural(b: Batch, cells: Cells, j: nat, a: int, ready: Instant)
    requires ValidOptions(b.options) && Stuck(b, cells, j, a, ready)
    ensures a <= b.options.maxAttempts && Budget(b, j, a) >= 0
  {
    WithinBudget(cells, RowAt(b, j, 0));
    assert (|b.ids| - 1 - j) * (b.options.maxAttempts - 1) >= 0;
  }

  lemma {:induction false} StuckIsBounded(b: Batch, cells: Cells, ds: seq<Turn>, ready: Instant, j: nat, a: int)
    requires ValidOptions(b.options) && Stuck(b, cells, j, a, ready)
    requires AllAbandoned(b, cells, ds, ready)
    ensures |ds| <= Budget(b, j, a)
    decreases |ds|
  {
    hide Shape, Drive, Deliver, ReceiptMatches, Frontier, Budget, Meanwhile;
    BudgetIsNatural(b, cells, j, a, ready);
    if ds != [] {
      var d := ds[0];
      StuckStays(b, cells, d.cells, j, a, ready);
      var e := Deliver(d.cells, d.tag, b, d.world, 0, 0, 0);
      assert Passable(b, d.cells, j, ready) by { assert Waiting(d.cells, RowAt(b, j, 0), a, ready); }
      var k := DeliveryEnds(b, d.cells, d.tag, d.world, 0, j, 0, 0, ready);
      if k == j {
        StuckIsBounded(b, e.cells, ds[1..], e.ready, j, a + 1);
        BudgetStep(b, j, a);
      } else {
        StuckIsBounded(b, e.cells, ds[1..], e.ready, k, 1);
        BudgetShrinks(b, j, a, k);
      }
    }
  }

  lemma BudgetStep(b: Batch, j: nat, a: int)
    ensures Budget(b, j, a + 1) == Budget(b, j, a) - 1
  {}

  /** A message that nobody has worked on yet. */
  ghost predicate Untouched(b: Batch, cells: Cells) { forall i | 0 <= i < |b.ids| :: FreshAt(b, cells, i) }

  lemma StillUntouched(b: Batch, cells: Cells, cells': Cells)
    requires Untouched(b, cells) && Meanwhile(b, cells, cells')
    ensures Untouched(b, cells')
  {}

  lemma UntouchedIsOpened(b: Batch, cells: Cells)
    requires Untouched(b, cells)
    ensures Opened(b, cells, 0)
  {
    hide Shape, ReceiptMatches;
  }

  /** With one worker, no store fault and no early redelivery, whatever the store
      holds of other messages and whatever they do in between, a message for n
      recipients is abandoned at most n * (M - 1) + 1 times: by delivery number
      n * (M - 1) + 2, and so by number n * M + 1, it is completed or
      dead-lettered. */
  lemma MessageSettles(b: Batch, cells: Cells, ds: seq<Turn>, ready: Instant)
    requires ValidOptions(b.options) && |b.ids| > 0
    requires Untouched(b, cells) && AllAbandoned(b, cells, ds, ready)
    ensures |ds| <= |b.ids| * (b.options.maxAttempts - 1) + 1
    ensures |ds| + 1 <= |b.ids| * b.options.maxAttempts + 1
  {
    hide Shape, Drive, Deliver, Stuck, Opened, Passable, Frontier, FreshAt, ReceiptMatches, ClockOk;
    hide Meanwhile, Untouched;
    var n, m := |b.ids|, b.options.maxAttempts;
    assert n * m == n * (m - 1) + n;
    assert n * (m - 1) >= 0;
    if ds != [] {
      var d := ds[0];
      var e := Deliver(d.cells, d.tag, b, d.world, 0, 0, 0);
      StillUntouched(b, cells, d.cells);
      UntouchedIsOpened(b, d.cells);
      OpenedIsPassable(b, d.cells, 0, ready);
      var j := DeliveryEnds(b, d.cells, d.tag, d.world, 0, 0, 0, 0, ready);
      StuckIsBounded(b, e.cells, ds[1..], e.ready, j, 1);
      assert (n - j) * (m - 1) <= n * (m - 1);
      assert Budget(b, j, 1) == (n - j) * (m - 1);
    }
  }
}
