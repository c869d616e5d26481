/** One recipient row as the worker runs it (processRecipient in
    internal/distribution/worker.go), cut at every call that leaves the process:
    a receipt read, the upload and the read-back of a conditional write, and the
    mail call. Each function below is the code between two such calls. */
module RowProtocol {
  import opened Basics
  import opened Receipts
  import opened Mail

  type ETag = nat

  /** A receipt with the ETag that its next conditional write must match. */
  datatype Stored = Stored(receipt: Receipt, etag: ETag)

  datatype Message = Message(
    operationId: string,
    releaseId: string,
    releaseVersion: string,
    messageId: string,
    wellFormed: bool)

  datatype Options = Options(
    keyVersion: string,
    provider: string,
    maxAttempts: int,
    claimTimeout: Duration)

  predicate ValidOptions(o: Options) {
    1 <= o.maxAttempts <= MAX_ATTEMPTS && 0 < o.claimTimeout <= MAX_INT64
  }

  /** A row in progress. The clock is read once, when the row starts. */
  datatype Row = Row(message: Message, options: Options, recipientId: string, now: Instant)

  /** The blob path of a receipt, by its four segments. */
  datatype Path = Path(releaseId: string, operationId: string, keyVersion: string, recipientId: string)

  function PathOf(row: Row): Path {
    Path(row.message.releaseId, row.message.operationId, row.options.keyVersion, row.recipientId)
  }

  function IntentOf(row: Row): Intent {
    Intent(row.message.operationId, row.message.releaseId, row.message.releaseVersion,
           row.recipientId, row.options.keyVersion, row.options.provider,
           row.message.messageId, row.message.wellFormed)
  }

  datatype RowResult =
    | Skipped
    | Reported(disposition: Disposition, reason: Option<Reason>, retryAfter: Duration)

  /** Why a conditional write is made, which decides what follows it. */
  datatype Purpose =
    | Claiming | Exhausting | Reclaiming | Recovering | Starting
    | Finishing(disposition: Disposition, reason: Option<Reason>, delay: Duration)

  /** Where a row stands. `base` is the version an upload must replace, or None
      when the path must be absent; `own` is the ETag the upload was given. */
  datatype Pc =
    | Fetching(row: Row)
    | Refetching(row: Row)
    | Uploading(row: Row, purpose: Purpose, base: Option<Stored>, next: Receipt)
    | Confirming(row: Row, purpose: Purpose, next: Receipt, own: ETag)
    | Mailing(row: Row, stored: Stored)
    | Awaiting(row: Row, stored: Stored, ticket: nat)
    | RowDone(row: Row, result: RowResult)

  /** The condition of a write: If-None-Match without a base, If-Match with one. */
  predicate Admits(cell: Option<Stored>, base: Option<ETag>) {
    match base
    case None => cell.None?
    case Some(etag) => cell.Some? && cell.value.etag == etag
  }

  function TagOf(base: Option<Stored>): Option<ETag> {
    match base
    case None => None
    case Some(b) => Some(b.etag)
  }

  /** Receipts by path. */
  type Cells = map<Path, Stored>

  function CellAt(cells: Cells, p: Path): Option<Stored> { if p in cells then Some(cells[p]) else None }

  /** What a receipt read returned. */
  datatype Read = Missing | Found(stored: Stored) | ReadFailed

  function AbandonRow(row: Row, reason: Reason, delay: Duration): (pc: Pc)
    ensures pc.row == row
  {
    RowDone(row, Reported(Abandon, Some(reason), delay))
  }

  function DeadLetterRow(row: Row, reason: Reason): (pc: Pc)
    ensures pc.row == row
  {
    RowDone(row, Reported(DeadLetter, Some(reason), 0))
  }

  function AfterFetch(row: Row, read: Read): (pc: Pc)
    ensures pc.row == row
  {
    match read
    case ReadFailed => AbandonRow(row, ReceiptUnavailable, SECOND)
    case Found(stored) => Decide(row, stored, false)
    case Missing =>
      match ClaimReceipt(IntentOf(row), row.now)
      case Conflict => DeadLetterRow(row, ReceiptConflict)
      case Ok(claimed) => Uploading(row, Claiming, None, claimed)
  }

  function AfterRefetch(row: Row, read: Read): (pc: Pc)
    ensures pc.row == row
  {
    match read
    case Found(stored) => Decide(row, stored, false)
    case _ => AbandonRow(row, ReceiptConflict, SECOND)
  }

  predicate ReceiptMatches(r: Receipt, row: Row) {
    && r.intent.operationId == row.message.operationId
    && r.intent.releaseId == row.message.releaseId
    && r.intent.releaseVersion == row.message.releaseVersion
    && r.intent.recipientId == row.recipientId
    && r.intent.messageId == row.message.messageId
    && r.intent.keyVersion != ""
  }

  function ReasonOf(r: Receipt, fallback: Reason): Reason {
    if r.reason.Some? then r.reason.value else fallback
  }

  /** How long until an active receipt may be recovered. */
  function ActiveDelay(row: Row, r: Receipt): Duration {
    var anchor := if r.status == SendStarted then r.startedAt else r.claimedAt;
    if anchor.None? then SECOND
    else BoundedDelay(Wrap64(row.options.claimTimeout - Since(row.now, ParseTime(anchor.value))))
  }

  /** The switch over the observed status. */
  function Decide(row: Row, stored: Stored, owned: bool): (pc: Pc)
    ensures pc.row == row
  {
    var r := stored.receipt;
    if !ReceiptMatches(r, row) then DeadLetterRow(row, ReceiptConflict) else
    match r.status
    case Accepted | Simulated => RowDone(row, Skipped)
    case Failed | Unknown => DeadLetterRow(row, ReasonOf(r, TerminalNotificationFailure))
    case Retryable => DecideRetryable(row, stored)
    case Claimed | SendStarted =>
      if owned then BeginSend(row, stored) else
      match RecoverStale(r, row.now, row.options.claimTimeout, row.options.maxAttempts)
      case Conflict => AbandonRow(row, ActiveReceipt, ActiveDelay(row, r))
      case Ok(recovered) => Uploading(row, Recovering, Some(stored), recovered)
  }

  function DecideRetryable(row: Row, stored: Stored): (pc: Pc)
    ensures pc.row == row
  {
    var r := stored.receipt;
    if r.attempt >= row.options.maxAttempts then
      match Exhaust(r, row.now)
      case Conflict => DeadLetterRow(row, ReceiptConflict)
      case Ok(exhausted) => Uploading(row, Exhausting, Some(stored), exhausted)
    else if r.nextAttemptAt.Some? && row.now < ParseTime(r.nextAttemptAt.value) then
      AbandonRow(row, RetryNotDue, BoundedDelay(Since(ParseTime(r.nextAttemptAt.value), row.now)))
    else
      match Reclaim(r, row.now, row.options.maxAttempts)
      case Conflict => AbandonRow(row, ReceiptConflict, SECOND)
      case Ok(reclaimed) => Uploading(row, Reclaiming, Some(stored), reclaimed)
  }

  function BeginSend(row: Row, stored: Stored): (pc: Pc)
    ensures pc.row == row
  {
    match StartSend(stored.receipt, row.now)
    case Conflict => AbandonRow(row, ReceiptConflict, SECOND)
    case Ok(started) => Uploading(row, Starting, Some(stored), started)
  }

  /** A conditional write that did not return a receipt. */
  function AfterPutError(row: Row, purpose: Purpose, conflict: bool): (pc: Pc)
    ensures pc.row == row
  {
    match purpose
    case Claiming => if conflict then Refetching(row) else AbandonRow(row, ReceiptUnavailable, SECOND)
    case Finishing(_, _, _) => DeadLetterRow(row, ReceiptCommitUnknown)
    case _ => AbandonRow(row, ReceiptConflict, SECOND)
  }

  /** The read-back of a conditional write: only the version is compared. */
  function AfterConfirm(row: Row, purpose: Purpose, next: Receipt, read: Read): (pc: Pc)
    ensures pc.row == row
  {
    if read.Found? && read.stored.receipt.version == next.version
    then AfterPut(row, purpose, read.stored)
    else AfterPutError(row, purpose, true)
  }

  function AfterPut(row: Row, purpose: Purpose, stored: Stored): (pc: Pc)
    ensures pc.row == row
  {
    match purpose
    case Claiming => Decide(row, stored, true)
    case Exhausting => DeadLetterRow(row, RetryBudgetExhausted)
    case Reclaiming => BeginSend(row, stored)
    case Recovering =>
      if stored.receipt.status == Unknown
      then DeadLetterRow(row, ReasonOf(stored.receipt, StaleSendOutcome))
      else BeginSend(row, stored)
    case Starting => Mailing(row, stored)
    case Finishing(disposition, reason, delay) => RowDone(row, Reported(disposition, reason, delay))
  }

  function AfterMail(row: Row, stored: Stored, m: MailResult): (pc: Pc)
    ensures pc.row == row
  {
    var a := ApplyMailResult(stored.receipt, m, row.now);
    match a.updated
    case None => DeadLetterRow(row, ProviderProtocolUnknown)
    case Some(updated) => Uploading(row, Finishing(a.disposition, a.reason, a.delay), Some(stored), updated)
  }
}
