/** What processRecipient does to one row (internal/distribution/worker.go), case
    by case and independently of how it gets there: what it finds decides whether
    the mailer is called, what the journal says afterwards, and how the row ends. */
module Outcomes {
  import opened Basics
  import opened Receipts
  import opened Mail
  import opened RowProtocol
  import opened Sequential
  import opened Progress

  // ---- Delays -----------------------------------------------------------------------

  function Clamp(d: Duration): Duration { Min(Max(d, SECOND), 300 * SECOND) }

  lemma BoundedIsClamped(d: Duration)
    ensures BoundedDelay(d) == Clamp(d)
  {}

  /** When the worker may take an active receipt over. */
  function StaleAt(row: Row, r: Receipt): Instant
    requires r.claimedAt.Some? && r.startedAt.Some? == (r.status != Claimed)
  {
    ParseTime(if r.status == Claimed then r.claimedAt.value else r.startedAt.value) + row.options.claimTimeout
  }

  /** The worker asks to come back when an active receipt will have gone stale, but
      within one second and five minutes. Only a clock that lies so far back that
      the remaining time overflows 64 bits makes it one second. */
  lemma ActiveDelayIsRemaining(row: Row, r: Receipt)
    requires ValidOptions(row.options) && (r.status == Claimed || r.status == SendStarted)
    requires r.claimedAt.Some? && r.startedAt.Some? == (r.status != Claimed)
    ensures ActiveDelay(row, r) ==
      if StaleAt(row, r) - row.now <= MAX_INT64 then Clamp(StaleAt(row, r) - row.now) else SECOND
  {
    var anchor := ParseTime(if r.status == SendStarted then r.startedAt.value else r.claimedAt.value);
    var t, d := row.options.claimTimeout, row.now - anchor;
    assert Since(row.now, anchor) == if d > MAX_INT64 then MAX_INT64 else if d < MIN_INT64 then MIN_INT64 else d;
    WrapOf(t - Since(row.now, anchor));
  }

  /** The wrap-around of a difference of two 64-bit numbers. */
  lemma WrapOf(x: int)
    requires -2 * 0x8000_0000_0000_0000 <= x < 2 * 0x8000_0000_0000_0000
    ensures Wrap64(x) == if x > MAX_INT64 then x - 0x1_0000_0000_0000_0000
                         else if x < MIN_INT64 then x + 0x1_0000_0000_0000_0000 else x
  {}

  /** So coming back after that delay, if it was not cut at five minutes, finds the
      receipt stale. */
  lemma ComingBackFindsItStale(row: Row, r: Receipt)
    requires ValidOptions(row.options) && (r.status == Claimed || r.status == SendStarted)
    requires r.claimedAt.Some? && r.startedAt.Some? == (r.status != Claimed)
    requires StaleAt(row, r) - row.now <= 300 * SECOND
    ensures StaleAt(row, r) <= row.now + ActiveDelay(row, r)
  {
    ActiveDelayIsRemaining(row, r);
  }

  // ---- One call ----------------------------------------------------------------------

  /** How a row ends on an answer that could be recorded. */
  function AnswerResult(r: Receipt, m: MailResult): RowResult {
    match m.outcome
    case MailAccepted | MailSimulated => Reported(Complete, None, 0)
    case MailRetryable => Reported(Abandon, Some(OrDefault(m.reason, ProviderRetryable)), RetryDelay(r, m))
    case MailPermanent => Reported(DeadLetter, Some(OrDefault(m.reason, ProviderRejected)), 0)
    case MailUnknown => Reported(DeadLetter, Some(OrDefault(m.reason, ProviderOutcomeUnknown)), 0)
  }

  /** The journal and the result after the answer to attempt `attempt`. */
  ghost predicate Concluded(r: Receipt, intent: Intent, attempt: int, m: MailResult, now: Instant, result: RowResult) {
    && r.attempt == attempt && r.intent == intent
    && if Recordable(m, now, RetryDelay(r, m))
       then Records(r, m) && result == AnswerResult(r, m)
       else r.status == SendStarted && result == Reported(DeadLetter, Some(ProviderProtocolUnknown), 0)
  }

  /** The mailer was called once, for this row, as attempt `attempt`. */
  ghost predicate SentOnce(cells: Cells, row: Row, intent: Intent, attempt: int, m: MailResult, e: RowEnd) {
    var p := PathOf(row);
    && e.calls == [p] && SameElsewhere(cells, e.cells, p) && p in e.cells
    && Concluded(e.cells[p].receipt, intent, attempt, m, row.now, e.result)
  }

  lemma SameAttemptSameDelay(r: Receipt, r': Receipt, m: MailResult)
    requires r'.attempt == r.attempt && r'.intent == r.intent
    ensures RetryDelay(r', m) == RetryDelay(r, m)
  {}

  lemma AnswerConcludes(cells: Cells, tag: ETag, row: Row, answer: MailResult)
    requires ValidOptions(row.options)
    requires Mine(cells, row) && cells[PathOf(row)].receipt.status == SendStarted
    ensures var stored := cells[PathOf(row)];
      var e := Drive(cells, tag, AfterMail(row, stored, answer), answer);
      && e.calls == [] && SameElsewhere(cells, e.cells, PathOf(row)) && PathOf(row) in e.cells
      && Concluded(e.cells[PathOf(row)].receipt, stored.receipt.intent, stored.receipt.attempt, answer,
                   row.now, e.result)
  {
    hide Drive, RetryDelay, Shape, Recordable;
    var p, stored, limit := PathOf(row), cells[PathOf(row)], row.options.maxAttempts;
    var a := ApplyMailResult(stored.receipt, answer, row.now);
    ApplySteps(stored.receipt, answer, row.now, limit);
    if a.updated.Some? {
      var purpose := Finishing(a.disposition, a.reason, a.delay);
      PutDrives(cells, tag, row, purpose, Some(stored), a.updated.value, answer);
      DoneDrives(cells[p := Stored(a.updated.value, tag)], tag + 1, row,
                 Reported(a.disposition, a.reason, a.delay), answer);
      SameAttemptSameDelay(stored.receipt, a.updated.value, answer);
    } else {
      DoneDrives(cells, tag, row, Reported(DeadLetter, Some(ProviderProtocolUnknown), 0), answer);
    }
  }

  lemma ClaimSends(cells: Cells, tag: ETag, row: Row, answer: MailResult)
    requires ValidOptions(row.options) && Representable(row.now)
    requires Mine(cells, row) && cells[PathOf(row)].receipt.status == Claimed
    ensures var stored := cells[PathOf(row)];
      SentOnce(cells, row, stored.receipt.intent, stored.receipt.attempt, answer,
               Drive(cells, tag, BeginSend(row, stored), answer))
  {
    hide Drive, Shape, Concluded;
    var p, stored, limit := PathOf(row), cells[PathOf(row)], row.options.maxAttempts;
    StartSendSteps(stored.receipt, row.now, limit);
    var started := StartSend(stored.receipt, row.now).value;
    PutDrives(cells, tag, row, Starting, Some(stored), started, answer);
    var cells1, s1 := cells[p := Stored(started, tag)], Stored(started, tag);
    CallDrives(cells1, tag + 1, row, s1, answer);
    AnswerConcludes(cells1, tag + 1, row, answer);
    assert SameElsewhere(cells, cells1, p);
  }

  // ---- The table -----------------------------------------------------------------------

  /** The receipt is of this row: same operation, release, version, recipient and
      message, under a named key. */
  lemma MatchesExactly(r: Receipt, row: Row)
    ensures ReceiptMatches(r, row) <==>
      && r.intent.(keyVersion := "", provider := "", wellFormed := true)
         == IntentOf(row).(keyVersion := "", provider := "", wellFormed := true)
      && r.intent.keyVersion != ""
  {}

  /** Nothing was written and nobody called. */
  ghost predicate Quiet(cells: Cells, tag: ETag, e: RowEnd, result: RowResult) { e == RowEnd(cells, tag, result, []) }

  /** One write and no call: the receipt was closed with this status and reason. */
  ghost predicate Closed(cells: Cells, row: Row, e: RowEnd, status: Status, reason: Reason) {
    var p := PathOf(row);
    && e.calls == [] && e.result == Reported(DeadLetter, Some(reason), 0)
    && SameElsewhere(cells, e.cells, p) && p in e.cells
    && e.cells[p].receipt.status == status && e.cells[p].receipt.reason == Some(reason)
  }

  /** How a row ends that finds its path free. */
  ghost predicate FreeCase(cells: Cells, tag: ETag, row: Row, answer: MailResult, e: RowEnd) {
    if !row.message.wellFormed || !Representable(row.now) then
      Quiet(cells, tag, e, Reported(DeadLetter, Some(ReceiptConflict), 0))
    else if row.options.keyVersion == "" then
      e.calls == [] && e.result == Reported(DeadLetter, Some(ReceiptConflict), 0)
    else SentOnce(cells, row, IntentOf(row), 1, answer, e)
  }

  /** How a row ends that finds a receipt of its own. */
  ghost predicate OwnCase(cells: Cells, tag: ETag, row: Row, r: Receipt, answer: MailResult, e: RowEnd)
    requires r.claimedAt.Some? && r.startedAt.Some? == (r.status != Claimed)
    requires r.status == Retryable ==> r.nextAttemptAt.Some?
  {
    var attemptsLeft := r.attempt < row.options.maxAttempts;
    match r.status
    case Accepted | Simulated => Quiet(cells, tag, e, Skipped)
    case Failed | Unknown => r.reason.Some? && Quiet(cells, tag, e, Reported(DeadLetter, r.reason, 0))
    case Retryable =>
      var due := ParseTime(r.nextAttemptAt.value);
      if !attemptsLeft then
        if Representable(row.now) then Closed(cells, row, e, Failed, RetryBudgetExhausted)
        else Quiet(cells, tag, e, Reported(DeadLetter, Some(ReceiptConflict), 0))
      else if row.now < due then Quiet(cells, tag, e, Reported(Abandon, Some(RetryNotDue), Clamp(due - row.now)))
      else if Representable(row.now) then SentOnce(cells, row, r.intent, r.attempt + 1, answer, e)
      else Quiet(cells, tag, e, Reported(Abandon, Some(ReceiptConflict), SECOND))
    case Claimed =>
      if attemptsLeft && Representable(row.now) && StaleAt(row, r) <= row.now
      then SentOnce(cells, row, r.intent, r.attempt + 1, answer, e)
      else Quiet(cells, tag, e, Reported(Abandon, Some(ActiveReceipt), ActiveDelay(row, r)))
    case SendStarted =>
      if Representable(row.now) && StaleAt(row, r) <= row.now then Closed(cells, row, e, Unknown, StaleSendOutcome)
      else Quiet(cells, tag, e, Reported(Abandon, Some(ActiveReceipt), ActiveDelay(row, r)))
  }

  lemma ShapeBelow(r: Receipt, limit: int, max: int)
    requires Shape(r, limit) && r.attempt <= max
    ensures Shape(r, max)
  {}

  lemma ShapeHasTimes(r: Receipt, limit: int)
    requires Shape(r, limit)
    ensures r.claimedAt.Some? && r.startedAt.Some? == (r.status != Claimed)
    ensures r.status == Retryable ==> r.nextAttemptAt.Some?
    ensures r.status == Failed || r.status == Unknown ==> r.reason.Some?
  {}

  lemma FreeRow(cells: Cells, tag: ETag, row: Row, answer: MailResult)
    requires ValidOptions(row.options) && PathOf(row) !in cells
    ensures FreeCase(cells, tag, row, answer, Drive(cells, tag, Fetching(row), answer))
  {
    hide Shape, Concluded;
    var p := PathOf(row);
    ClaimIsFirst(IntentOf(row), row.now, row.options.maxAttempts);
    var claim := ClaimReceipt(IntentOf(row), row.now);
    if claim.Ok? {
      PutDrives(cells, tag, row, Claiming, None, claim.value, answer);
      var cells1 := cells[p := Stored(claim.value, tag)];
      assert SameElsewhere(cells, cells1, p);
      if row.options.keyVersion != "" {
        assert Mine(cells1, row);
        ClaimSends(cells1, tag + 1, row, answer);
      } else {
        DoneDrives(cells1, tag + 1, row, Reported(DeadLetter, Some(ReceiptConflict), 0), answer);
      }
    } else {
      DoneDrives(cells, tag, row, Reported(DeadLetter, Some(ReceiptConflict), 0), answer);
    }
  }

  /** A claim taken over, by retry or by recovery, is sent. */
  lemma TakenOverSends(cells: Cells, tag: ETag, row: Row, purpose: Purpose, next: Receipt, answer: MailResult)
    requires ValidOptions(row.options) && Representable(row.now) && PathOf(row) in cells
    requires purpose.Reclaiming? || purpose.Recovering?
    requires next.status == Claimed && Shape(next, row.options.maxAttempts) && ReceiptMatches(next, row)
    ensures SentOnce(cells, row, next.intent, next.attempt, answer,
                     Drive(cells, tag, Uploading(row, purpose, Some(cells[PathOf(row)]), next), answer))
  {
    hide Drive, Shape, Concluded, BeginSend;
    var p := PathOf(row);
    PutDrives(cells, tag, row, purpose, Some(cells[p]), next, answer);
    var cells1 := cells[p := Stored(next, tag)];
    assert Mine(cells1, row) && SameElsewhere(cells, cells1, p);
    ClaimSends(cells1, tag + 1, row, answer);
  }

  lemma ClosingRow(cells: Cells, tag: ETag, row: Row, purpose: Purpose, next: Receipt, reason: Reason,
                   answer: MailResult)
    requires PathOf(row) in cells && next.reason == Some(reason)
    requires || (purpose.Exhausting? && next.status == Failed && reason == RetryBudgetExhausted)
             || (purpose.Recovering? && next.status == Unknown)
    ensures Closed(cells, row, Drive(cells, tag, Uploading(row, purpose, Some(cells[PathOf(row)]), next), answer),
                   next.status, reason)
  {
    hide Drive;
    var p := PathOf(row);
    PutDrives(cells, tag, row, purpose, Some(cells[p]), next, answer);
    DoneDrives(cells[p := Stored(next, tag)], tag + 1, row, Reported(DeadLetter, Some(reason), 0), answer);
  }

  lemma RetryableRow(cells: Cells, tag: ETag, row: Row, limit: int, answer: MailResult)
    requires ValidOptions(row.options) && row.options.maxAttempts <= limit <= MAX_ATTEMPTS && PathOf(row) in cells
    requires var r := cells[PathOf(row)].receipt;
      Shape(r, limit) && ReceiptMatches(r, row) && r.status == Retryable
      && r.claimedAt.Some? && r.startedAt.Some? && r.nextAttemptAt.Some?
    ensures OwnCase(cells, tag, row, cells[PathOf(row)].receipt, answer,
                    Drive(cells, tag, DecideRetryable(row, cells[PathOf(row)]), answer))
  {
    hide Drive, Shape, SentOnce, Closed;
    var stored := cells[PathOf(row)];
    var r, max := stored.receipt, row.options.maxAttempts;
    var pc := DecideRetryable(row, stored);
    ExhaustSteps(r, row.now, limit);
    ReclaimSteps(r, row.now, max, limit);
    if pc.RowDone? { DoneDrives(cells, tag, row, pc.result, answer); }
    BoundedIsClamped(Since(ParseTime(r.nextAttemptAt.value), row.now));
    if pc.Uploading? && r.attempt >= max {
      ClosingRow(cells, tag, row, Exhausting, pc.next, RetryBudgetExhausted, answer);
    } else if pc.Uploading? {
      ShapeBelow(pc.next, limit, max);
      TakenOverSends(cells, tag, row, Reclaiming, pc.next, answer);
    }
  }

  lemma ActiveRow(cells: Cells, tag: ETag, row: Row, limit: int, answer: MailResult)
    requires ValidOptions(row.options) && row.options.maxAttempts <= limit <= MAX_ATTEMPTS && PathOf(row) in cells
    requires var r := cells[PathOf(row)].receipt;
      Shape(r, limit) && ReceiptMatches(r, row) && (r.status == Claimed || r.status == SendStarted)
      && r.claimedAt.Some? && r.startedAt.Some? == (r.status != Claimed)
    ensures OwnCase(cells, tag, row, cells[PathOf(row)].receipt, answer,
                    Drive(cells, tag, Decide(row, cells[PathOf(row)], false), answer))
  {
    hide Drive, Shape, SentOnce, Closed, ActiveDelay;
    var stored := cells[PathOf(row)];
    var r, max := stored.receipt, row.options.maxAttempts;
    var pc := Decide(row, stored, false);
    if pc.RowDone? { DoneDrives(cells, tag, row, pc.result, answer); }
    if r.status == Claimed {
      RecoverClaimSteps(r, row.now, row.options.claimTimeout, max, limit);
      if pc.Uploading? {
        ShapeBelow(pc.next, limit, max);
        TakenOverSends(cells, tag, row, Recovering, pc.next, answer);
      }
    } else {
      RecoverSendSteps(r, row.now, row.options.claimTimeout, max, limit);
      if pc.Uploading? { ClosingRow(cells, tag, row, Recovering, pc.next, StaleSendOutcome, answer); }
    }
  }

  /** What a row does, whatever it finds: a free path, a receipt of another message,
      or a well-shaped receipt of its own. */
  lemma RowTable(cells: Cells, tag: ETag, row: Row, limit: int, answer: MailResult)
    requires ValidOptions(row.options) && row.options.maxAttempts <= limit <= MAX_ATTEMPTS
    requires PathOf(row) in cells ==> Shape(cells[PathOf(row)].receipt, limit)
    ensures var p, e := PathOf(row), Drive(cells, tag, Fetching(row), answer);
      if p !in cells then FreeCase(cells, tag, row, answer, e)
      else if !ReceiptMatches(cells[p].receipt, row) then
        Quiet(cells, tag, e, Reported(DeadLetter, Some(ReceiptConflict), 0))
      else
        var r := cells[p].receipt;
        && r.claimedAt.Some? && r.startedAt.Some? == (r.status != Claimed)
        && (r.status == Retryable ==> r.nextAttemptAt.Some?)
        && OwnCase(cells, tag, row, r, answer, e)
  {
    hide Shape, OwnCase, FreeCase, DecideRetryable;
    var p := PathOf(row);
    if p !in cells {
      FreeRow(cells, tag, row, answer);
    } else if !ReceiptMatches(cells[p].receipt, row) {
      ForeignRow(cells, tag, row, answer);
    } else {
      var stored := cells[p];
      ShapeHasTimes(stored.receipt, limit);
      FetchDecides(cells, tag, row, answer);
      if stored.receipt.status == Retryable {
        RetryableRow(cells, tag, row, limit, answer);
      } else if stored.receipt.status == Claimed || stored.receipt.status == SendStarted {
        ActiveRow(cells, tag, row, limit, answer);
      } else {
        TerminalRow(cells, tag, row, answer);
      }
    }
  }

  lemma FetchDecides(cells: Cells, tag: ETag, row: Row, answer: MailResult)
    requires PathOf(row) in cells
    ensures Drive(cells, tag, Fetching(row), answer)
         == Drive(cells, tag, Decide(row, cells[PathOf(row)], false), answer)
    ensures var r := cells[PathOf(row)].receipt;
      r.status == Retryable && ReceiptMatches(r, row) ==>
        Decide(row, cells[PathOf(row)], false) == DecideRetryable(row, cells[PathOf(row)])
  {
    hide DecideRetryable;
  }

  lemma TerminalRow(cells: Cells, tag: ETag, row: Row, answer: MailResult)
    requires PathOf(row) in cells
    requires var r := cells[PathOf(row)].receipt;
      && ReceiptMatches(r, row) && IsTerminal(r.status) && r.claimedAt.Some? && r.startedAt.Some?
      && (r.status == Failed || r.status == Unknown ==> r.reason.Some?)
    ensures OwnCase(cells, tag, row, cells[PathOf(row)].receipt, answer,
                    Drive(cells, tag, Decide(row, cells[PathOf(row)], false), answer))
  {
    hide Drive;
    var pc := Decide(row, cells[PathOf(row)], false);
    DoneDrives(cells, tag, row, pc.result, answer);
  }

  // ---- What the table says --------------------------------------------------------------

  /** The provider took the mail, and the journal can say so. */
  predicate IsTaken(m: MailResult) {
    || (m.outcome.MailAccepted? && m.httpStatus == 202 && IsRequestId(m.requestId))
    || (m.outcome.MailSimulated? && m.httpStatus == 200 && IsRequestId(m.requestId))
  }

  /** A row that finds its path free, is well formed and meets a provider that takes
      the mail is sent once and delivered. */
  lemma TakenIsDelivered(cells: Cells, tag: ETag, row: Row, answer: MailResult)
    requires ValidOptions(row.options) && PathOf(row) !in cells
    requires row.message.wellFormed && row.options.keyVersion != "" && Representable(row.now) && IsTaken(answer)
    ensures var e := Drive(cells, tag, Fetching(row), answer);
      && e.result == Reported(Complete, None, 0) && e.calls == [PathOf(row)]
      && SameElsewhere(cells, e.cells, PathOf(row)) && RowDelivered(e.cells, row)
      && e.cells[PathOf(row)].receipt.attempt == 1
  {
    hide Drive, Shape, RetryDelay;
    FreeRow(cells, tag, row, answer);
    FreshRow(cells, tag, row, answer);
  }

  /** The answer ends the row for good: a refusal, an ambiguity, or an answer that
      the journal cannot record. */
  ghost predicate EndsForGood(m: MailResult, now: Instant, delay: Duration) {
    m.outcome.MailPermanent? || m.outcome.MailUnknown? || !Recordable(m, now, delay)
  }

  /** A row is dead-lettered only for a cause: the receipt is another message's, is
      closed, is exhausted or is an unanswered start gone stale; the row cannot be
      claimed; or the mailer was called and its answer ends the row for good. */
  lemma DeadLetterHasCause(cells: Cells, tag: ETag, row: Row, limit: int, answer: MailResult)
    requires ValidOptions(row.options) && row.options.maxAttempts <= limit <= MAX_ATTEMPTS
    requires PathOf(row) in cells ==> Shape(cells[PathOf(row)].receipt, limit)
    requires var e := Drive(cells, tag, Fetching(row), answer); e.result.Reported? && e.result.disposition == DeadLetter
    ensures var p, e := PathOf(row), Drive(cells, tag, Fetching(row), answer);
      || (p in cells && !ReceiptMatches(cells[p].receipt, row))
      || (p in cells && (cells[p].receipt.status == Failed || cells[p].receipt.status == Unknown))
      || (p in cells && cells[p].receipt.status == Retryable && cells[p].receipt.attempt >= row.options.maxAttempts)
      || (p in cells && cells[p].receipt.status == SendStarted && cells[p].receipt.startedAt.Some?
          && ParseTime(cells[p].receipt.startedAt.value) + row.options.claimTimeout <= row.now)
      || (p !in cells && (!row.message.wellFormed || !Representable(row.now) || row.options.keyVersion == ""))
      || (e.calls == [p] && p in e.cells && EndsForGood(answer, row.now, RetryDelay(e.cells[p].receipt, answer)))
  {
    hide Drive, Shape, RetryDelay, Recordable, ReceiptMatches, Records;
    RowTable(cells, tag, row, limit, answer);
  }

  // ---- Whole deliveries -----------------------------------------------------------------

  /** The paths of the rows from `i` on whose recipient has not come before. */
  function Firsts(b: Batch, i: nat): seq<Path>
    requires i <= |b.ids|
    decreases |b.ids| - i
  {
    if i == |b.ids| then []
    else (if b.ids[i] in b.ids[..i] then [] else [PathAt(b, i)]) + Firsts(b, i + 1)
  }

  /** Rows before `i` are delivered; the others are free or repeat one of them. */
  ghost predicate Halfway(b: Batch, cells: Cells, i: nat) {
    && i <= |b.ids|
    && (forall j | 0 <= j < i :: DoneAt(b, cells, j))
    && (forall j | i <= j < |b.ids| :: b.ids[j] in b.ids[..i] || PathAt(b, j) !in cells)
  }

  lemma HalfwayMoves(b: Batch, cells: Cells, cells': Cells, i: nat)
    requires i < |b.ids| && Halfway(b, cells, i) && SameElsewhere(cells, cells', PathAt(b, i)) && DoneAt(b, cells', i)
    ensures Halfway(b, cells', i + 1)
  {
    hide Shape, ReceiptMatches;
    forall j | 0 <= j < i + 1
      ensures DoneAt(b, cells', j)
    {
      if j < i {
        assert DoneAt(b, cells, j);
        if b.ids[j] == b.ids[i] { assert RowAt(b, j, 0) == RowAt(b, i, 0); }
      }
    }
    forall j | i + 1 <= j < |b.ids|
      ensures b.ids[j] in b.ids[..i + 1] || PathAt(b, j) !in cells'
    {
      if b.ids[j] in b.ids[..i] {
        var k :| 0 <= k < i && b.ids[..i][k] == b.ids[j];
        assert b.ids[..i + 1][k] == b.ids[j];
      } else if b.ids[j] == b.ids[i] {
        assert b.ids[..i + 1][i] == b.ids[j];
      }
    }
  }

  /** A delivery from row `i` on that meets only takers: it completes, calls once
      for each recipient that has not come before, and delivers every row. */
  lemma {:induction false} TakenDelivers(b: Batch, cells: Cells, tag: ETag, world: World, i: nat, processed: nat,
                                         skipped: nat)
    requires ValidOptions(b.options) && b.message.wellFormed && b.options.keyVersion != ""
    requires i <= |b.ids| && Halfway(b, cells, i)
    requires forall j: nat :: Representable(world.clock(j)) && IsTaken(world.answer(j))
    ensures var e := Deliver(cells, tag, b, world, i, processed, skipped);
      && e.disposition == Complete && e.reason == None && e.calls == Firsts(b, i)
      && e.processed == processed + |Firsts(b, i)| && e.skipped == skipped + |b.ids| - i - |Firsts(b, i)|
      && forall j | 0 <= j < |b.ids| :: DoneAt(b, e.cells, j)
    decreases |b.ids| - i
  {
    hide Drive, DoneAt, Halfway, IsTaken, Representable;
    if i == |b.ids| {
      AllHalfway(b, cells);
    } else {
      var row := RowAt(b, i, world.clock(i));
      var e := Drive(cells, tag, Fetching(row), world.answer(i));
      TakenRow(b, cells, tag, row, i, world.answer(i));
      if b.ids[i] in b.ids[..i] {
        TakenDelivers(b, e.cells, e.tag, world, i + 1, processed, skipped + 1);
      } else {
        TakenDelivers(b, e.cells, e.tag, world, i + 1, processed + 1, skipped);
      }
    }
  }

  lemma AllHalfway(b: Batch, cells: Cells)
    requires Halfway(b, cells, |b.ids|)
    ensures forall j | 0 <= j < |b.ids| :: DoneAt(b, cells, j)
  {}

  lemma TakenRow(b: Batch, cells: Cells, tag: ETag, row: Row, i: nat, answer: MailResult)
    requires ValidOptions(b.options) && b.message.wellFormed && b.options.keyVersion != ""
    requires i < |b.ids| && Halfway(b, cells, i) && row == RowAt(b, i, row.now)
    requires Representable(row.now) && IsTaken(answer)
    ensures var e := Drive(cells, tag, Fetching(row), answer);
      && Halfway(b, e.cells, i + 1)
      && if b.ids[i] in b.ids[..i] then e.result == Skipped && e.calls == []
         else e.result == Reported(Complete, None, 0) && e.calls == [PathAt(b, i)]
  {
    hide Drive, Shape, IsTaken;
    SameRow(b, cells, i, row.now);
    if b.ids[i] in b.ids[..i] {
      var k :| 0 <= k < i && b.ids[..i][k] == b.ids[i];
      assert DoneAt(b, cells, k) && RowAt(b, k, 0) == RowAt(b, i, 0);
      RowEnds(cells, tag, row, answer);
      HalfwayMoves(b, cells, cells, i);
    } else {
      TakenIsDelivered(cells, tag, row, answer);
      var e := Drive(cells, tag, Fetching(row), answer);
      SameRow(b, e.cells, i, row.now);
      HalfwayMoves(b, cells, e.cells, i);
    }
  }

  /** From a store without receipts of the message, with a provider that takes every
      mail, one delivery completes: every row is delivered, the mailer is called
      exactly once for each recipient, and the counters say so. */
  lemma TakenBatchCompletes(b: Batch, cells: Cells, tag: ETag, world: World)
    requires ValidOptions(b.options) && b.message.wellFormed && b.options.keyVersion != ""
    requires forall j | 0 <= j < |b.ids| :: PathAt(b, j) !in cells
    requires forall j: nat :: Representable(world.clock(j)) && IsTaken(world.answer(j))
    ensures var e := Deliver(cells, tag, b, world, 0, 0, 0);
      && e.disposition == Complete && e.processed + e.skipped == |b.ids| && e.processed == |e.calls|
      && (forall j | 0 <= j < |b.ids| :: DoneAt(b, e.cells, j) && multiset(e.calls)[PathAt(b, j)] == 1)
  {
    hide IsTaken, Representable, Deliver, DoneAt;
    assert Halfway(b, cells, 0);
    TakenDelivers(b, cells, tag, world, 0, 0, 0);
    forall j | 0 <= j < |b.ids|
      ensures multiset(Firsts(b, 0))[PathAt(b, j)] == 1
    {
      FirstsOnce(b, 0, j);
      assert ComesNew(b, 0, b.ids[j]) by { assert b.ids[..0] == [] && b.ids[0..] == b.ids; }
    }
  }

  /** Every recipient from `i` on that has not come before is listed once, and
      nobody else is. */
  lemma {:induction false} FirstsOnce(b: Batch, i: nat, j: nat)
    requires i <= |b.ids| && j < |b.ids|
    ensures multiset(Firsts(b, i))[PathAt(b, j)] == if ComesNew(b, i, b.ids[j]) then 1 else 0
    decreases |b.ids| - i
  {
    hide PathAt, ComesNew;
    NewLater(b, i, b.ids[j]);
    if i < |b.ids| {
      FirstsOnce(b, i + 1, j);
      PathsDiffer(b, i, j);
      var rest := Firsts(b, i + 1);
      if b.ids[i] in b.ids[..i] {
        assert [] + rest == rest;
      } else {
        OneMoreCounted(PathAt(b, i), rest, PathAt(b, j));
      }
    }
  }

  /** The recipient comes at row `i` or later, and not before. */
  predicate ComesNew(b: Batch, i: nat, id: string)
    requires i <= |b.ids|
  {
    id !in b.ids[..i] && id in b.ids[i..]
  }

  lemma NewLater(b: Batch, i: nat, id: string)
    requires i <= |b.ids|
    ensures i == |b.ids| ==> !ComesNew(b, i, id)
    ensures i < |b.ids| && id == b.ids[i] ==> !ComesNew(b, i + 1, id) && (ComesNew(b, i, id) <==> id !in b.ids[..i])
    ensures i < |b.ids| && id != b.ids[i] ==> (ComesNew(b, i, id) <==> ComesNew(b, i + 1, id))
  {
    if i < |b.ids| { assert b.ids[..i + 1] == b.ids[..i] + [b.ids[i]] && b.ids[i..] == [b.ids[i]] + b.ids[i + 1..]; }
  }

  lemma OneMoreCounted(p: Path, rest: seq<Path>, q: Path)
    ensures multiset([p] + rest)[q] == multiset(rest)[q] + if p == q then 1 else 0
  {}

  lemma PathsDiffer(b: Batch, i: nat, j: nat)
    requires i < |b.ids| && j < |b.ids|
    ensures PathAt(b, i) == PathAt(b, j) <==> b.ids[i] == b.ids[j]
  {}

  /** A delivery of a batch that is delivered already calls nobody. */
  lemma {:induction false} DeliveredIsSkipped(b: Batch, cells: Cells, tag: ETag, world: World, i: nat, processed: nat,
                                              skipped: nat)
    requires i <= |b.ids| && forall j | 0 <= j < |b.ids| :: DoneAt(b, cells, j)
    ensures Deliver(cells, tag, b, world, i, processed, skipped)
         == End(cells, tag, Complete, None, processed, skipped + |b.ids| - i, 0, [])
    decreases |b.ids| - i
  {
    hide Drive, DoneAt;
    if i < |b.ids| {
      var row := RowAt(b, i, world.clock(i));
      assert DoneAt(b, cells, i);
      DoneRowIsSkipped(b, cells, tag, row, i, world.answer(i));
      DeliveredIsSkipped(b, cells, tag, world, i + 1, processed, skipped + 1);
    }
  }

  lemma DoneRowIsSkipped(b: Batch, cells: Cells, tag: ETag, row: Row, i: nat, answer: MailResult)
    requires i < |b.ids| && DoneAt(b, cells, i) && row == RowAt(b, i, row.now)
    ensures Drive(cells, tag, Fetching(row), answer) == RowEnd(cells, tag, Skipped, [])
  {
    hide Drive, Shape;
    SameRow(b, cells, i, row.now);
    FetchDecides(cells, tag, row, answer);
    DoneDrives(cells, tag, row, Skipped, answer);
  }

  // ---- Failing calls ---------------------------------------------------------------------

  /** A store call that fails abandons the row for a second, or looks again after a
      lost race for the claim; only when the answer to a mail call cannot be
      committed is the row dead-lettered, as an unknown commit. */
  lemma StoreFailureAbandons(row: Row, purpose: Purpose, conflict: bool)
    ensures AfterFetch(row, ReadFailed) == RowDone(row, Reported(Abandon, Some(ReceiptUnavailable), SECOND))
    ensures AfterRefetch(row, ReadFailed) == RowDone(row, Reported(Abandon, Some(ReceiptConflict), SECOND))
    ensures var pc := AfterPutError(row, purpose, conflict);
      if purpose.Finishing? then pc == RowDone(row, Reported(DeadLetter, Some(ReceiptCommitUnknown), 0))
      else if purpose.Claiming? && conflict then pc == Refetching(row)
      else pc.RowDone? && pc.result.Reported? && pc.result.disposition == Abandon && pc.result.retryAfter == SECOND
  {}
}
