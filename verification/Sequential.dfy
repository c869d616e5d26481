/** One worker alone with a fault-free store: processRecipient and the row loop
    of Process (internal/distribution/worker.go) as they are written, proved to
    be the row protocol run without interruption. */
module Sequential {
  import opened Basics
  import opened Receipts
  import opened Mail
  import opened RowProtocol
  import opened ReceiptStore

  /** Where an uninterrupted row ends, and for which paths it called the mailer. */
  datatype RowEnd = RowEnd(cells: Cells, tag: ETag, result: RowResult, calls: seq<Path>)

  function ReadAt(cells: Cells, p: Path): Read {
    if p in cells then Found(cells[p]) else Missing
  }

  predicate Replaceable(cells: Cells, p: Path, base: Option<Stored>) { Admits(CellAt(cells, p), TagOf(base)) }

  /** No path through a row makes more calls than this. */
  function CallsLeft(pc: Pc): nat {
    match pc
    case Fetching(_) => 20
    case Uploading(_, purpose, _, _) => UploadRank(purpose)
    case Confirming(_, purpose, _, _) => UploadRank(purpose) - 1
    case Refetching(_) => 14
    case Mailing(_, _) => 6
    case Awaiting(_, _, _) => 5
    case RowDone(_, _) => 0
  }

  function UploadRank(purpose: Purpose): nat {
    match purpose
    case Claiming => 16
    case Exhausting | Reclaiming | Recovering => 12
    case Starting => 8
    case Finishing(_, _, _) => 4
  }

  /** The row protocol with nobody else around; `answer` is what the provider
      says if it is called. */
  function Drive(cells: Cells, tag: ETag, pc: Pc, answer: MailResult): RowEnd
    decreases CallsLeft(pc)
  {
    var p := PathOf(pc.row);
    match pc
    case Fetching(row) => Drive(cells, tag, AfterFetch(row, ReadAt(cells, p)), answer)
    case Refetching(row) => Drive(cells, tag, AfterRefetch(row, ReadAt(cells, p)), answer)
    case Uploading(row, purpose, base, next) =>
      if Replaceable(cells, p, base) then
        Drive(cells[p := Stored(next, tag)], tag + 1, Confirming(row, purpose, next, tag), answer)
      else
        Drive(cells, tag, AfterPutError(row, purpose, true), answer)
    case Confirming(row, purpose, next, _) =>
      Drive(cells, tag, AfterConfirm(row, purpose, next, ReadAt(cells, p)), answer)
    case Mailing(row, stored) =>
      var e := Drive(cells, tag, Awaiting(row, stored, 0), answer);
      e.(calls := [p] + e.calls)
    case Awaiting(row, stored, _) => Drive(cells, tag, AfterMail(row, stored, answer), answer)
    case RowDone(_, result) => RowEnd(cells, tag, result, [])
  }

  /** An undisturbed conditional write succeeds and returns itself. */
  lemma PutDrives(cells: Cells, tag: ETag, row: Row, purpose: Purpose, base: Option<Stored>, next: Receipt,
                  answer: MailResult)
    requires Replaceable(cells, PathOf(row), base)
    ensures Drive(cells, tag, Uploading(row, purpose, base, next), answer)
         == Drive(cells[PathOf(row) := Stored(next, tag)], tag + 1,
                  AfterPut(row, purpose, Stored(next, tag)), answer)
  {
    hide AfterPut;
    var cells' := cells[PathOf(row) := Stored(next, tag)];
    assert Drive(cells, tag, Uploading(row, purpose, base, next), answer)
        == Drive(cells', tag + 1, Confirming(row, purpose, next, tag), answer);
  }

  /** The call and its answer, seen as one. */
  lemma CallDrives(cells: Cells, tag: ETag, row: Row, stored: Stored, answer: MailResult)
    ensures var e := Drive(cells, tag, AfterMail(row, stored, answer), answer);
      Drive(cells, tag, Mailing(row, stored), answer) == e.(calls := [PathOf(row)] + e.calls)
  {
    hide AfterMail;
    assert Drive(cells, tag, Awaiting(row, stored, 0), answer)
        == Drive(cells, tag, AfterMail(row, stored, answer), answer);
  }

  lemma DoneDrives(cells: Cells, tag: ETag, row: Row, result: RowResult, answer: MailResult)
    ensures Drive(cells, tag, RowDone(row, result), answer) == RowEnd(cells, tag, result, [])
  {}

  /** A batch whose rows have been validated. */
  datatype Batch = Batch(message: Message, options: Options, ids: seq<string>)

  function RowAt(b: Batch, i: nat, now: Instant): Row
    requires i < |b.ids|
  {
    Row(b.message, b.options, b.ids[i], now)
  }

  /** One delivery's surroundings: the clock and the provider, row by row. */
  datatype World = World(clock: nat -> Instant, answer: nat -> MailResult)

  /** How a delivery ends; `ready` is when its retry delay has passed. */
  datatype End = End(
    cells: Cells, tag: ETag, disposition: Disposition, reason: Option<Reason>, processed: nat, skipped: nat,
    ready: Instant, calls: seq<Path>)

  function Deliver(cells: Cells, tag: ETag, b: Batch, world: World, i: nat, processed: nat, skipped: nat): End
    requires i <= |b.ids|
    decreases |b.ids| - i
  {
    if i == |b.ids| then End(cells, tag, Complete, None, processed, skipped, 0, [])
    else
      var now := world.clock(i);
      var e := Drive(cells, tag, Fetching(RowAt(b, i, now)), world.answer(i));
      match e.result
      case Skipped =>
        var rest := Deliver(e.cells, e.tag, b, world, i + 1, processed, skipped + 1);
        rest.(calls := e.calls + rest.calls)
      case Reported(disposition, reason, delay) =>
        if disposition == Complete then
          var rest := Deliver(e.cells, e.tag, b, world, i + 1, processed + 1, skipped);
          rest.(calls := e.calls + rest.calls)
        else End(e.cells, e.tag, disposition, reason, processed + 1, skipped, now + delay, e.calls)
  }

  /** `all` is `rest` after these calls. */
  ghost predicate After(all: End, calls: seq<Path>, rest: End) { all == rest.(calls := calls + rest.calls) }

  lemma AfterNothing(all: End)
    ensures After(all, [], all)
  {}

  /** One more row of a delivery. */
  lemma RowDelivers(all: End, calls: seq<Path>, cells: Cells, tag: ETag, b: Batch, world: World, i: nat,
                    processed: nat, skipped: nat)
    requires i < |b.ids| && After(all, calls, Deliver(cells, tag, b, world, i, processed, skipped))
    ensures var now := world.clock(i);
      var e := Drive(cells, tag, Fetching(RowAt(b, i, now)), world.answer(i));
      match e.result
      case Skipped => After(all, calls + e.calls, Deliver(e.cells, e.tag, b, world, i + 1, processed, skipped + 1))
      case Reported(disposition, reason, delay) =>
        if disposition == Complete
        then After(all, calls + e.calls, Deliver(e.cells, e.tag, b, world, i + 1, processed + 1, skipped))
        else all == End(e.cells, e.tag, disposition, reason, processed + 1, skipped, now + delay, calls + e.calls)
  {
    hide Drive;
    var now := world.clock(i);
    var e := Drive(cells, tag, Fetching(RowAt(b, i, now)), world.answer(i));
    if e.result.Skipped? {
      var rest := Deliver(e.cells, e.tag, b, world, i + 1, processed, skipped + 1);
      assert calls + (e.calls + rest.calls) == (calls + e.calls) + rest.calls;
    } else if e.result.disposition == Complete {
      var rest := Deliver(e.cells, e.tag, b, world, i + 1, processed + 1, skipped);
      assert calls + (e.calls + rest.calls) == (calls + e.calls) + rest.calls;
    }
  }

  lemma NoMoreRows(all: End, calls: seq<Path>, cells: Cells, tag: ETag, b: Batch, world: World, processed: nat,
                   skipped: nat)
    requires After(all, calls, Deliver(cells, tag, b, world, |b.ids|, processed, skipped))
    ensures all == End(cells, tag, Complete, None, processed, skipped, 0, calls)
  {
    assert calls + [] == calls;
  }

  class SoleWorker {
    const store: ReceiptContainer
    /** The receipt paths for which the mailer was called, in order. */
    var mailed: seq<Path>

    constructor (store: ReceiptContainer)
      ensures this.store == store && mailed == []
    {
      this.store, mailed := store, [];
    }

    /** The mailer takes the notification; `answer` is what the provider says. */
    method Send(p: Path, answer: MailResult) returns (result: MailResult)
      modifies this`mailed
      ensures mailed == old(mailed) + [p] && result == answer
    {
      mailed := mailed + [p];
      return answer;
    }

    /** A conditional write that nobody disturbs. */
    method Put(p: Path, base: Option<Stored>, next: Receipt) returns (stored: Checked<Stored>)
      requires store.Valid() && Valid(next)
      modifies store
      ensures store.Valid()
      ensures old(Replaceable(store.blobs, p, base)) ==>
        && store.blobs == old(store.blobs)[p := Stored(next, old(store.nextTag))]
        && store.nextTag == old(store.nextTag) + 1
        && stored == Ok(Stored(next, old(store.nextTag)))
      ensures !old(Replaceable(store.blobs, p, base)) ==>
        store.blobs == old(store.blobs) && store.nextTag == old(store.nextTag) && stored == Conflict
    {
      hide Valid;
      var result;
      if base.None? {
        result := store.Create(p, next, Committed, [], false);
      } else {
        result := store.Replace(p, base.value.etag, next, Committed, [], false);
      }
      return if result.PutOk? then Ok(result.stored) else Conflict;
    }

    /** What the row protocol would do from here. */
    ghost function Ahead(pc: Pc, answer: MailResult): RowEnd
      reads store
    {
      Drive(store.blobs, store.nextTag, pc, answer)
    }

    /** The row is over, with the store as it is, after these calls. */
    ghost function Here(result: RowResult, calls: seq<Path>): RowEnd
      reads store
    {
      RowEnd(store.blobs, store.nextTag, result, calls)
    }

    /** processRecipient: `stored` is reassigned through successive writes. */
    method ProcessRecipient(row: Row, answer: MailResult) returns (result: RowResult)
      requires store.Valid()
      modifies store, this`mailed
      ensures store.Valid() && old(mailed) <= mailed
      ensures Here(result, mailed[|old(mailed)|..]) == old(Ahead(Fetching(row), answer))
    {
      hide Valid;
      var p := PathOf(row);
      var read := store.Get(p, false);
      var owned := false;
      var stored: Stored;
      if read.Missing? {
        var claim := ClaimReceipt(IntentOf(row), row.now);
        DoneDrives(store.blobs, store.nextTag, row, Reported(DeadLetter, Some(ReceiptConflict), 0), answer);
        if claim.Conflict? { return Reported(DeadLetter, Some(ReceiptConflict), 0); }
        PutDrives(store.blobs, store.nextTag, row, Claiming, None, claim.value, answer);
        var created := Put(p, None, claim.value);
        stored, owned := created.value, true;
      } else {
        stored := read.stored;
      }
      hide Decide, BeginSend;
      assert old(Ahead(Fetching(row), answer)) == Ahead(Decide(row, stored, owned), answer);
      var done;
      done, stored := Reserve(row, stored, owned, answer);
      if done.Some? { return done.value; }
      result := SendOnce(row, stored, answer);
    }

    /** The switch over the observed status: either the row is over, or the
        worker now holds a claim of its own. */
    method Reserve(row: Row, observed: Stored, owned: bool, ghost answer: MailResult)
      returns (done: Option<RowResult>, stored: Stored)
      requires PathOf(row) in store.blobs && store.blobs[PathOf(row)] == observed
      requires store.Valid()
      modifies store
      ensures store.Valid()
      ensures var d := old(Ahead(Decide(row, observed, owned), answer));
        match done
        case Some(result) => Here(result, []) == d
        case None =>
          && PathOf(row) in store.blobs && store.blobs[PathOf(row)] == stored
          && Ahead(BeginSend(row, stored), answer) == d
    {
      hide Valid, Drive, DecideRetryable, BeginSend;
      var p, r := PathOf(row), observed.receipt;
      stored := observed;
      ghost var pc := Decide(row, observed, owned);
      if pc.RowDone? { DoneDrives(store.blobs, store.nextTag, row, pc.result, answer); }
      if !ReceiptMatches(r, row) { return Some(Reported(DeadLetter, Some(ReceiptConflict), 0)), stored; }
      match r.status {
        case Accepted | Simulated => return Some(Skipped), stored;
        case Failed | Unknown =>
          return Some(Reported(DeadLetter, Some(ReasonOf(r, TerminalNotificationFailure)), 0)), stored;
        case Retryable => done, stored := ReserveRetry(row, observed, answer);
        case Claimed | SendStarted =>
          if owned { return None, stored; }
          var recovered := RecoverStale(r, row.now, row.options.claimTimeout, row.options.maxAttempts);
          if recovered.Conflict? {
            return Some(Reported(Abandon, Some(ActiveReceipt), ActiveDelay(row, r))), stored;
          }
          PutDrives(store.blobs, store.nextTag, row, Recovering, Some(stored), recovered.value, answer);
          var replaced := Put(p, Some(stored), recovered.value);
          stored := replaced.value;
          pc := AfterPut(row, Recovering, stored);
          if pc.RowDone? { DoneDrives(store.blobs, store.nextTag, row, pc.result, answer); }
          if stored.receipt.status == Unknown {
            return Some(Reported(DeadLetter, Some(ReasonOf(stored.receipt, StaleSendOutcome)), 0)), stored;
          }
          return None, stored;
      }
    }

    method ReserveRetry(row: Row, observed: Stored, ghost answer: MailResult)
      returns (done: Option<RowResult>, stored: Stored)
      requires PathOf(row) in store.blobs && store.blobs[PathOf(row)] == observed
      requires store.Valid()
      modifies store
      ensures store.Valid()
      ensures var d := old(Ahead(DecideRetryable(row, observed), answer));
        match done
        case Some(result) => Here(result, []) == d
        case None =>
          && PathOf(row) in store.blobs && store.blobs[PathOf(row)] == stored
          && Ahead(BeginSend(row, stored), answer) == d
    {
      hide Valid;
      var p, r := PathOf(row), observed.receipt;
      stored := observed;
      if r.attempt >= row.options.maxAttempts {
        var exhausted := Exhaust(r, row.now);
        if exhausted.Conflict? { return Some(Reported(DeadLetter, Some(ReceiptConflict), 0)), stored; }
        PutDrives(store.blobs, store.nextTag, row, Exhausting, Some(stored), exhausted.value, answer);
        var closed := Put(p, Some(stored), exhausted.value);
        return Some(Reported(DeadLetter, Some(RetryBudgetExhausted), 0)), closed.value;
      }
      if r.nextAttemptAt.Some? && row.now < ParseTime(r.nextAttemptAt.value) {
        return Some(Reported(Abandon, Some(RetryNotDue),
          BoundedDelay(Since(ParseTime(r.nextAttemptAt.value), row.now)))), stored;
      }
      var reclaimed := Reclaim(r, row.now, row.options.maxAttempts);
      if reclaimed.Conflict? { return Some(Reported(Abandon, Some(ReceiptConflict), SECOND)), stored; }
      PutDrives(store.blobs, store.nextTag, row, Reclaiming, Some(stored), reclaimed.value, answer);
      var replaced := Put(p, Some(stored), reclaimed.value);
      return None, replaced.value;
    }

    /** The tail of processRecipient: commit the start, call, commit the answer. */
    method SendOnce(row: Row, started: Stored, answer: MailResult) returns (result: RowResult)
      requires PathOf(row) in store.blobs && store.blobs[PathOf(row)] == started
      requires store.Valid()
      modifies store, this`mailed
      ensures store.Valid() && old(mailed) <= mailed
      ensures Here(result, mailed[|old(mailed)|..]) == old(Ahead(BeginSend(row, started), answer))
    {
      var p := PathOf(row);
      var start := StartSend(started.receipt, row.now);
      hide Drive, Valid;
      DoneDrives(store.blobs, store.nextTag, row, Reported(Abandon, Some(ReceiptConflict), SECOND), answer);
      if start.Conflict? { return Reported(Abandon, Some(ReceiptConflict), SECOND); }
      PutDrives(store.blobs, store.nextTag, row, Starting, Some(started), start.value, answer);
      var stored := Put(p, Some(started), start.value);
      assert old(Ahead(BeginSend(row, started), answer))
          == Ahead(Mailing(row, stored.value), answer);
      CallDrives(store.blobs, store.nextTag, row, stored.value, answer);
      DoneDrives(store.blobs, store.nextTag, row, Reported(DeadLetter, Some(ProviderProtocolUnknown), 0), answer);
      var reply := Send(p, answer);
      assert mailed[|old(mailed)|..] == [p];
      var a := ApplyMailResult(stored.value.receipt, reply, row.now);
      if a.updated.None? { return Reported(DeadLetter, Some(ProviderProtocolUnknown), 0); }
      PutDrives(store.blobs, store.nextTag, row, Finishing(a.disposition, a.reason, a.delay), Some(stored.value),
                a.updated.value, answer);
      var finished := Put(p, Some(stored.value), a.updated.value);
      DoneDrives(store.blobs, store.nextTag, row, Reported(a.disposition, a.reason, a.delay), answer);
      return Reported(a.disposition, a.reason, a.delay);
    }

    /** The row loop of Process: counters move inside the callback, and the first
        row that does not complete stops the batch. */
    method Process(b: Batch, world: World)
      returns (disposition: Disposition, reason: Option<Reason>, processed: nat, skipped: nat, ready: Instant)
      requires store.Valid()
      modifies store, this`mailed
      ensures store.Valid() && old(mailed) <= mailed
      ensures End(store.blobs, store.nextTag, disposition, reason, processed, skipped, ready, mailed[|old(mailed)|..])
           == Deliver(old(store.blobs), old(store.nextTag), b, world, 0, 0, 0)
    {
      processed, skipped, ready, reason := 0, 0, 0, None;
      var i := 0;
      hide Drive, Deliver, After;
      ghost var all := Deliver(store.blobs, store.nextTag, b, world, 0, 0, 0);
      AfterNothing(all);
      assert mailed[|old(mailed)|..] == [];
      while i < |b.ids|
        invariant 0 <= i <= |b.ids| && ready == 0 && reason == None && store.Valid() && old(mailed) <= mailed
        invariant After(all, mailed[|old(mailed)|..],
                        Deliver(store.blobs, store.nextTag, b, world, i, processed, skipped))
      {
        var now := world.clock(i);
        ghost var before := mailed;
        RowDelivers(all, mailed[|old(mailed)|..], store.blobs, store.nextTag, b, world, i, processed, skipped);
        var result := ProcessRecipient(RowAt(b, i, now), world.answer(i));
        assert mailed[|old(mailed)|..] == before[|old(mailed)|..] + mailed[|before|..];
        match result {
          case Skipped => skipped := skipped + 1;
          case Reported(d, why, delay) =>
            processed := processed + 1;
            if d != Complete { return d, why, processed, skipped, now + delay; }
        }
        i := i + 1;
      }
      NoMoreRows(all, mailed[|old(mailed)|..], store.blobs, store.nextTag, b, world, processed, skipped);
      disposition := Complete;
    }
  }
}
