/** The per-recipient effect journal entry and its transitions
    (internal/distribution/receipt.go). Every transition takes a receipt by
    value and returns the changed copy or a conflict. */
module Receipts {
  import opened Basics

  datatype Status =
    Claimed | SendStarted | Retryable | Accepted | Simulated | Failed | Unknown

  /** The fields that bind a receipt to one operation and one recipient.
      `wellFormed` is the verdict of their text patterns, which read nothing
      else and are not modelled further. */
  datatype Intent = Intent(
    operationId: string,
    releaseId: string,
    releaseVersion: string,
    recipientId: string,
    keyVersion: string,
    provider: string,
    messageId: string,
    wellFormed: bool)

  datatype Receipt = Receipt(
    intent: Intent,
    attempt: int,
    version: int,
    status: Status,
    claimedAt: Option<Stamp>,
    startedAt: Option<Stamp>,
    nextAttemptAt: Option<Stamp>,
    terminalAt: Option<Stamp>,
    updatedAt: Stamp,
    httpStatus: Option<int>,
    requestId: Option<string>,
    reason: Option<Reason>)

  const MAX_ATTEMPTS := 5

  // ---- Field contracts -------------------------------------------------

  /** The program's own upper-case reason codes, or any other text. */
  datatype Reason =
    | ActiveReceipt | BlobUnavailable | MessageInvalid
    | ProviderAuthFailed | ProviderOutcomeUnknown | ProviderProtocolUnknown
    | ProviderRejected | ProviderRetryable | ProviderThrottled | ProviderUnavailable
    | ReceiptCommitUnknown | ReceiptConflict | ReceiptUnavailable
    | ReferencedBlobInvalid | RetryBudgetExhausted | RetryNotDue
    | StaleSendOutcome | TerminalNotificationFailure
    | Other(text: string)

  predicate IsReason(r: Reason) {
    r.Other? ==>
      && 1 <= |r.text| <= 64
      && forall i | 0 <= i < |r.text| ::
           'A' <= r.text[i] <= 'Z' || IsDigit(r.text[i]) || r.text[i] == '_'
  }

  predicate IsRequestId(s: string) { |s| <= 128 && ControlFree(s) }

  predicate ValidOptional(s: Option<Stamp>) { s.Some? ==> ValidStamp(s.value) }

  /** What the program checks before it writes and after it reads a receipt. */
  predicate Valid(r: Receipt) {
    && r.intent.wellFormed
    && 1 <= r.attempt <= MAX_ATTEMPTS && r.version >= 1
    && ValidStamp(r.updatedAt)
    && (r.reason.Some? ==> IsReason(r.reason.value))
    && ValidOptional(r.claimedAt) && ValidOptional(r.nextAttemptAt)
    && ValidOptional(r.startedAt) && ValidOptional(r.terminalAt)
    && (r.requestId.Some? ==> IsRequestId(r.requestId.value))
  }

  predicate IsTerminal(s: Status) {
    s.Accepted? || s.Simulated? || s.Failed? || s.Unknown?
  }

  /** The provider took the mail, or the simulation of it. */
  predicate IsDelivered(s: Status) { s == Accepted || s == Simulated }

  // ---- Transitions -----------------------------------------------------

  function Validated(r: Receipt): Checked<Receipt> {
    if Valid(r) then Ok(r) else Conflict
  }

  function ClaimReceipt(intent: Intent, now: Instant): Checked<Receipt> {
    if !intent.wellFormed then Conflict else
    var stamp := FormatTime(now);
    Validated(Receipt(intent, 1, 1, Claimed, Some(stamp), None, None, None, stamp,
                      None, None, None))
  }

  function StartSend(r: Receipt, now: Instant): Checked<Receipt> {
    if r.status != Claimed then Conflict else
    var stamp := FormatTime(now);
    Validated(r.(status := SendStarted, version := r.version + 1,
                 startedAt := Some(stamp), nextAttemptAt := None,
                 reason := None, updatedAt := stamp))
  }

  /** The common tail of Accept, Simulate, Fail and MarkUnknown. */
  function Finish(r: Receipt, now: Instant, status: Status, http: int, requestId: string,
                  reason: Option<Reason>): Checked<Receipt>
  {
    if r.status != SendStarted then Conflict
    else if requestId != "" && !IsRequestId(requestId) then Conflict
    else
      var stamp := FormatTime(now);
      Validated(r.(status := status, version := r.version + 1,
                   httpStatus := if http != 0 then Some(http) else None,
                   requestId := if requestId != "" then Some(requestId) else None,
                   reason := reason,
                   terminalAt := Some(stamp), nextAttemptAt := None, updatedAt := stamp))
  }

  function Accept(r: Receipt, now: Instant, http: int, requestId: string): Checked<Receipt> {
    if http != 202 then Conflict else Finish(r, now, Accepted, http, requestId, None)
  }

  function Simulate(r: Receipt, now: Instant, http: int, requestId: string): Checked<Receipt> {
    if http != 200 then Conflict else Finish(r, now, Simulated, http, requestId, None)
  }

  predicate IsTransient(http: int) { http == 429 || 500 <= http <= 599 }

  function Retry(r: Receipt, now: Instant, http: int, reason: Reason, retryAt: Instant)
    : Checked<Receipt>
  {
    if r.status != SendStarted || !IsTransient(http) || !IsReason(reason) || retryAt < now
    then Conflict
    else
      Validated(r.(status := Retryable, version := r.version + 1,
                   httpStatus := Some(http), requestId := None,
                   nextAttemptAt := Some(FormatTime(retryAt)),
                   reason := Some(reason), updatedAt := FormatTime(now)))
  }

  function Fail(r: Receipt, now: Instant, http: int, reason: Reason): Checked<Receipt> {
    if http < 0 || http > 599 || !IsReason(reason) then Conflict
    else Finish(r, now, Failed, http, "", Some(reason))
  }

  function MarkUnknown(r: Receipt, now: Instant, reason: Reason): Checked<Receipt> {
    if !IsReason(reason) then Conflict else Finish(r, now, Unknown, 0, "", Some(reason))
  }

  function Reclaim(r: Receipt, now: Instant, maxAttempts: int): Checked<Receipt> {
    if || r.status != Retryable || maxAttempts < 1 || maxAttempts > MAX_ATTEMPTS
       || r.attempt >= maxAttempts || r.nextAttemptAt.None?
       || now < ParseTime(r.nextAttemptAt.value)
    then Conflict
    else
      var stamp := FormatTime(now);
      Validated(r.(status := Claimed, version := r.version + 1, attempt := r.attempt + 1,
                   claimedAt := Some(stamp), startedAt := None, nextAttemptAt := None,
                   httpStatus := None, requestId := None, reason := None,
                   updatedAt := stamp))
  }

  function Exhaust(r: Receipt, now: Instant): Checked<Receipt> {
    if r.status != Retryable then Conflict else
    var stamp := FormatTime(now);
    Validated(r.(status := Failed, version := r.version + 1, nextAttemptAt := None,
                 reason := Some(RetryBudgetExhausted),
                 terminalAt := Some(stamp), updatedAt := stamp))
  }

  function RecoverStale(r: Receipt, now: Instant, timeout: Duration, maxAttempts: int)
    : Checked<Receipt>
  {
    if timeout <= 0 then Conflict else
    match r.status
    case Claimed =>
      if || r.claimedAt.None? || r.attempt >= maxAttempts
         || Since(now, ParseTime(r.claimedAt.value)) < timeout
      then Conflict
      else
        var stamp := FormatTime(now);
        Validated(r.(attempt := r.attempt + 1, version := r.version + 1,
                     claimedAt := Some(stamp), updatedAt := stamp))
    case SendStarted =>
      if r.startedAt.None? || Since(now, ParseTime(r.startedAt.value)) < timeout
      then Conflict
      else MarkUnknown(r, now, StaleSendOutcome)
    case _ => Conflict
  }

  // ---- The transition graph, independently of the code ------------------

  /** The receipt states a path may step through: versions count the writes,
      identity never changes, only a new claim spends an attempt, and nothing
      leaves a terminal state. */
  predicate Edge(r: Receipt, r': Receipt) {
    && r'.intent == r.intent
    && r'.version == r.version + 1
    && match r.status
       case Claimed =>
         || (r'.status == Claimed && r'.attempt == r.attempt + 1)
         || (r'.status == SendStarted && r'.attempt == r.attempt)
       case SendStarted =>
         (r'.status == Retryable || IsTerminal(r'.status)) && r'.attempt == r.attempt
       case Retryable =>
         || (r'.status == Claimed && r'.attempt == r.attempt + 1)
         || (r'.status == Failed && r'.attempt == r.attempt)
       case _ => false
  }

  predicate First(r: Receipt) { r.status == Claimed && r.attempt == 1 && r.version == 1 }

  /** How many of the three writes of its attempt a receipt has behind it. */
  function Phase(s: Status): int {
    match s
    case Claimed => 1
    case SendStarted => 2
    case Retryable | Accepted | Simulated | Unknown => 3
    case Failed => 4
  }

  /** The shape a status determines: which optional fields are present and what
      they may hold. `limit` is the largest attempt budget of any worker. */
  predicate Shape(r: Receipt, limit: int) {
    && r.intent.wellFormed
    && 1 <= r.attempt <= limit
    && r.attempt <= r.version <= 3 * (r.attempt - 1) + Phase(r.status)
    && ValidStamp(r.updatedAt)
    && r.claimedAt.Some? && ValidStamp(r.claimedAt.value)
    && (r.status == Claimed ==> r.claimedAt.value == r.updatedAt)
    && r.startedAt.Some? == (r.status != Claimed)
    && ValidOptional(r.startedAt)
    && (r.status == SendStarted ==> r.startedAt.value == r.updatedAt)
    && r.nextAttemptAt.Some? == (r.status == Retryable)
    && ValidOptional(r.nextAttemptAt)
    && (r.status == Retryable ==> r.nextAttemptAt.value >= r.updatedAt)
    && r.terminalAt == (if IsTerminal(r.status) then Some(r.updatedAt) else None)
    && r.reason.Some? == (r.status == Retryable || r.status == Failed || r.status == Unknown)
    && (r.reason.Some? ==> IsReason(r.reason.value))
    && (r.requestId.Some? ==> (r.status == Accepted || r.status == Simulated) && IsRequestId(r.requestId.value))
    && match r.status
       case Claimed | SendStarted | Unknown => r.httpStatus == None
       case Accepted => r.httpStatus == Some(202)
       case Simulated => r.httpStatus == Some(200)
       case Retryable => r.httpStatus.Some? && IsTransient(r.httpStatus.value)
       case Failed => r.httpStatus.Some? ==> 1 <= r.httpStatus.value <= 599
  }

  /** The writes a receipt can still receive. */
  function WritesLeft(r: Receipt, limit: int): int {
    match r.status
    case Claimed => 3 * (limit - r.attempt) + 3
    case SendStarted => 3 * (limit - r.attempt) + 2
    case Retryable => 3 * (limit - r.attempt) + 1
    case _ => 0
  }

  // ---- What every transition keeps --------------------------------------

  lemma ShapeIsValid(r: Receipt, limit: int)
    requires Shape(r, limit) && limit <= MAX_ATTEMPTS
    ensures Valid(r)
  {}

  lemma ClaimIsFirst(intent: Intent, now: Instant, limit: int)
    requires 1 <= limit
    ensures var c := ClaimReceipt(intent, now);
      && c.Ok? == (intent.wellFormed && Representable(now))
      && (c.Ok? ==> First(c.value) && Shape(c.value, limit) && c.value.intent == intent
                    && c.value.updatedAt == FormatTime(now) && WritesLeft(c.value, limit) == 3 * limit)
  {}

  /** A claimed receipt starts a send whenever the clock is representable. */
  lemma StartSendSteps(r: Receipt, now: Instant, limit: int)
    requires Shape(r, limit) && limit <= MAX_ATTEMPTS
    ensures var c := StartSend(r, now);
      && c.Ok? == (r.status == Claimed && Representable(now))
      && (c.Ok? ==> Edge(r, c.value) && Shape(c.value, limit) && c.value.status == SendStarted
                    && c.value.updatedAt == FormatTime(now) && c.value.claimedAt == r.claimedAt)
  {}

  lemma FinishSteps(r: Receipt, now: Instant, status: Status, http: int, requestId: string,
                    reason: Option<Reason>, limit: int)
    requires Shape(r, limit) && limit <= MAX_ATTEMPTS
    requires match status
      case Accepted => http == 202 && reason == None
      case Simulated => http == 200 && reason == None
      case Failed => 0 <= http <= 599 && requestId == "" && reason.Some? && IsReason(reason.value)
      case Unknown => http == 0 && requestId == "" && reason.Some? && IsReason(reason.value)
      case _ => false
    ensures var c := Finish(r, now, status, http, requestId, reason);
      && c.Ok? == (r.status == SendStarted && Representable(now) && IsRequestId(requestId))
      && (c.Ok? ==> Edge(r, c.value) && Shape(c.value, limit) && c.value.status == status
                    && c.value.httpStatus == (if http == 0 then None else Some(http))
                    && c.value.requestId == (if requestId == "" then None else Some(requestId))
                    && c.value.reason == reason && c.value.updatedAt == FormatTime(now)
                    && c.value.claimedAt == r.claimedAt && c.value.startedAt == r.startedAt)
  {}

  lemma RetrySteps(r: Receipt, now: Instant, http: int, reason: Reason, retryAt: Instant, limit: int)
    requires Shape(r, limit) && limit <= MAX_ATTEMPTS
    ensures var c := Retry(r, now, http, reason, retryAt);
      && c.Ok? == (r.status == SendStarted && IsTransient(http) && IsReason(reason) && now <= retryAt
                   && Representable(now) && Representable(retryAt))
      && (c.Ok? ==> Edge(r, c.value) && Shape(c.value, limit) && c.value.status == Retryable
                    && c.value.httpStatus == Some(http)
                    && c.value.nextAttemptAt == Some(FormatTime(retryAt))
                    && c.value.reason == Some(reason) && c.value.updatedAt == FormatTime(now)
                    && c.value.claimedAt == r.claimedAt && c.value.startedAt == r.startedAt)
  {
    if now <= retryAt { FormatMonotone(now, retryAt); }
  }

  lemma FormatMonotone(s: Instant, t: Instant)
    requires s <= t
    ensures FormatTime(s) <= FormatTime(t)
  {}

  /** The worker's guards for Reclaim leave only the clock to fail on. */
  lemma ReclaimSteps(r: Receipt, now: Instant, maxAttempts: int, limit: int)
    requires Shape(r, limit) && limit <= MAX_ATTEMPTS && maxAttempts <= limit
    ensures var c := Reclaim(r, now, maxAttempts);
      && c.Ok? == (r.status == Retryable && r.attempt < maxAttempts
                   && ParseTime(r.nextAttemptAt.value) <= now && Representable(now))
      && (c.Ok? ==> Edge(r, c.value) && Shape(c.value, limit) && c.value.status == Claimed
                    && c.value.updatedAt == FormatTime(now))
  {}

  lemma ExhaustSteps(r: Receipt, now: Instant, limit: int)
    requires Shape(r, limit) && limit <= MAX_ATTEMPTS
    ensures var c := Exhaust(r, now);
      && c.Ok? == (r.status == Retryable && Representable(now))
      && (c.Ok? ==> Edge(r, c.value) && Shape(c.value, limit) && c.value.status == Failed
                    && c.value.reason == Some(RetryBudgetExhausted) && c.value.httpStatus == r.httpStatus
                    && c.value.updatedAt == FormatTime(now)
                    && c.value.claimedAt == r.claimedAt && c.value.startedAt == r.startedAt)
  {
  }

  /** Recovery spends an attempt on a stale claim. A claim at the attempt
      limit is not recoverable at all. */
  lemma RecoverClaimSteps(r: Receipt, now: Instant, timeout: Duration, maxAttempts: int, limit: int)
    requires Shape(r, limit) && limit <= MAX_ATTEMPTS && maxAttempts <= limit
    requires 0 < timeout <= MAX_INT64 && r.status == Claimed
    ensures var c := RecoverStale(r, now, timeout, maxAttempts);
      && c.Ok? == (Representable(now) && r.attempt < maxAttempts
                   && ParseTime(r.claimedAt.value) + timeout <= now)
      && (c.Ok? ==> Edge(r, c.value) && Shape(c.value, limit) && c.value.status == Claimed
                    && c.value.updatedAt == FormatTime(now))
  {
    SinceReached(now, ParseTime(r.claimedAt.value), timeout);
    var stamp := FormatTime(now);
    ReclaimedShape(r, stamp, limit);
  }

  /** Saturation does not change whether a timeout has passed. */
  lemma SinceReached(now: Instant, t: Instant, timeout: Duration)
    requires 0 < timeout <= MAX_INT64
    ensures Since(now, t) < timeout <==> now < t + timeout
  {}

  lemma ReclaimedShape(r: Receipt, stamp: Stamp, limit: int)
    requires Shape(r, limit) && r.status == Claimed && limit <= MAX_ATTEMPTS
    ensures var r' := r.(attempt := r.attempt + 1, version := r.version + 1,
                         claimedAt := Some(stamp), updatedAt := stamp);
      && (r.attempt < limit ==> Valid(r') == ValidStamp(stamp))
      && (r.attempt < limit && ValidStamp(stamp) ==> Edge(r, r') && Shape(r', limit))
  {}

  /** Recovery never revives a started send: it only makes it unknown. */
  lemma RecoverSendSteps(r: Receipt, now: Instant, timeout: Duration, maxAttempts: int, limit: int)
    requires Shape(r, limit) && limit <= MAX_ATTEMPTS
    requires 0 < timeout <= MAX_INT64 && r.status == SendStarted
    ensures var c := RecoverStale(r, now, timeout, maxAttempts);
      && c.Ok? == (Representable(now) && ParseTime(r.startedAt.value) + timeout <= now)
      && (c.Ok? ==> Edge(r, c.value) && Shape(c.value, limit) && c.value.status == Unknown
                    && c.value.reason == Some(StaleSendOutcome) && c.value.updatedAt == FormatTime(now)
                    && c.value.claimedAt == r.claimedAt && c.value.startedAt == r.startedAt)
  {
    FinishSteps(r, now, Unknown, 0, "", Some(StaleSendOutcome), limit);
  }

  /** Each write strictly consumes the budget, so a path is written at most
      3 * limit + 1 times. */
  lemma EdgeConsumesBudget(r: Receipt, r': Receipt, limit: int)
    requires Shape(r, limit) && Shape(r', limit) && Edge(r, r')
    ensures 0 <= WritesLeft(r', limit) < WritesLeft(r, limit)
    ensures r.version + WritesLeft(r, limit) <= 3 * limit + 1
  {}
}
