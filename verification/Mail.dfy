/** Provider responses and what they do to a started receipt: response
    classification (internal/distribution/mail.go) and the retry policy of the
    worker (internal/distribution/worker.go). */
module Mail {
  import opened Basics
  import opened Receipts

  datatype Mode = Stub | Sandbox | Live

  datatype MailOutcome =
    MailAccepted | MailSimulated | MailRetryable | MailPermanent | MailUnknown

  datatype MailResult = MailResult(
    outcome: MailOutcome,
    httpStatus: int,
    requestId: string,
    reason: Option<Reason>,
    retryAfter: Duration)

  /** The parts of a provider response that are read. `retryAfter` is the
      Retry-After header when it is a decimal integer. */
  datatype Response = Response(
    status: int,
    messageId: string,
    stubRequestId: string,
    retryAfter: Option<int>)

  datatype Disposition = Complete | Abandon | DeadLetter

  /** The journal update a mail result asks for, or None when the receipt
      refuses it, with the settlement it leads to. */
  datatype Applied = Applied(
    updated: Option<Receipt>,
    disposition: Disposition,
    reason: Option<Reason>,
    delay: Duration)

  const MAX_DELAY: Duration := 300 * SECOND

  // ---- Classification --------------------------------------------------

  function BoundedHeader(s: string): string { if |s| > 128 then s[..128] else s }

  function RequestId(response: Response): string {
    var id := BoundedHeader(response.messageId);
    if id == "" then BoundedHeader(response.stubRequestId) else id
  }

  function RetryAfter(header: Option<int>): Duration {
    if header.None? || header.value < 1 then SECOND
    else Min(header.value, 300) * SECOND
  }

  function Classify(mode: Mode, response: Response): MailResult {
    var id := RequestId(response);
    var s := response.status;
    if (mode.Stub? || mode.Sandbox?) && s == 200 then
      MailResult(MailSimulated, 200, id, None, 0)
    else if mode.Live? && s == 202 then
      MailResult(MailAccepted, 202, id, None, 0)
    else if s == 429 then
      MailResult(MailRetryable, s, id, Some(ProviderThrottled), RetryAfter(response.retryAfter))
    else if 500 <= s <= 599 then
      MailResult(MailRetryable, s, id, Some(ProviderUnavailable), RetryAfter(response.retryAfter))
    else if s == 401 || s == 403 then
      MailResult(MailPermanent, s, id, Some(ProviderAuthFailed), 0)
    else if 400 <= s <= 499 then
      MailResult(MailPermanent, s, id, Some(ProviderRejected), 0)
    else
      MailResult(MailUnknown, s, id, Some(ProviderProtocolUnknown), 0)
  }

  // ---- Retry delay -----------------------------------------------------

  function BoundedDelay(d: Duration): Duration {
    if d < SECOND then SECOND else if d > MAX_DELAY then MAX_DELAY else d
  }

  function Exponential(attempt: int): Duration {
    if attempt <= 1 then SECOND else 2 * Exponential(attempt - 1)
  }

  function JitterStep(seed: int, c: char): int { (seed * 33 + c as int) % 0x8000_0000 }

  function JitterSeed(s: string): (seed: int)
    ensures 0 <= seed < 0x8000_0000
  {
    if s == [] then 0 else JitterStep(JitterSeed(s[..|s| - 1]), s[|s| - 1])
  }

  /** The rolling hash as the program computes it, in 64-bit arithmetic that
      never overflows, so masking is exact. */
  method ComputeJitterSeed(bytes: string) returns (seed: Int64)
    requires forall i | 0 <= i < |bytes| :: bytes[i] as int < 256
    ensures seed as int == JitterSeed(bytes) && 0 <= seed < 0x8000_0000
  {
    seed := 0;
    for i := 0 to |bytes|
      invariant 0 <= seed < 0x8000_0000 && seed as int == JitterSeed(bytes[..i])
    {
      assert bytes[..i + 1][..i] == bytes[..i];
      seed := (seed * 33 + bytes[i] as int as Int64) % 0x8000_0000;
    }
    assert bytes[..|bytes|] == bytes;
  }

  function Power33(n: nat): int { if n == 0 then 1 else 33 * Power33(n - 1) }

  /** The characters as the digits of a number to base 33, first character first. */
  function InBase33(s: string): int {
    if s == [] then 0 else s[0] as int * Power33(|s| - 1) + InBase33(s[1..])
  }

  lemma {:induction false} LastDigit(s: string, c: char)
    ensures InBase33(s + [c]) == 33 * InBase33(s) + c as int
  {
    if s != [] {
      var d, p := s[0] as int, Power33(|s| - 1);
      assert (s + [c])[1..] == s[1..] + [c];
      LastDigit(s[1..], c);
      assert d * (33 * p) == 33 * (d * p);
    } else {
      assert (s + [c])[1..] == [];
      assert InBase33([c]) == c as int * Power33(0) + InBase33([c][1..]);
    }
  }

  lemma ReducedEarlier(a: int, c: int)
    ensures (a % 0x8000_0000 * 33 + c) % 0x8000_0000 == (33 * a + c) % 0x8000_0000
  {
    var q := a / 0x8000_0000;
    assert 33 * a + c == a % 0x8000_0000 * 33 + c + 33 * q * 0x8000_0000;
  }

  /** Cutting the hash to 31 bits at every step is cutting the whole number once. */
  lemma {:induction false} JitterSeedIsNumber(s: string)
    ensures JitterSeed(s) == InBase33(s) % 0x8000_0000
  {
    if s != [] {
      var init, last := s[..|s| - 1], s[|s| - 1];
      JitterSeedIsNumber(init);
      LastDigit(init, last);
      ReducedEarlier(InBase33(init), last as int);
      assert init + [last] == s;
    }
  }

  /** The least delay the policy allows: the provider's wish or the exponential
      backoff, whichever is longer, kept within one second and five minutes. */
  function DelayFloor(attempt: int, retryAfter: Duration): Duration {
    BoundedDelay(Max(retryAfter, Exponential(attempt)))
  }

  function JitterRange(floor: Duration): Duration {
    Min(Max(floor / 4, SECOND), 10 * SECOND)
  }

  /** The jitter is seeded by the first eight characters of the recipient id. */
  function RetryDelay(r: Receipt, result: MailResult): Duration {
    var base := DelayFloor(r.attempt, result.retryAfter);
    var slots := JitterRange(base) / SECOND + 1;
    var id := r.intent.recipientId;
    BoundedDelay(base + JitterSeed(if |id| < 8 then id else id[..8]) % slots * SECOND)
  }

  /** The backoff of attempts 1 to 5, in seconds. */
  const BACKOFF: seq<int> := [1, 2, 4, 8, 16]

  /** The policy in numbers: at least the provider's wish and the backoff, between
      one second and five minutes, and up to a quarter of that, but one to ten
      seconds, more. */
  predicate WithinPolicy(delay: Duration, attempt: int, wish: Duration)
    requires 1 <= attempt <= 5
  {
    var floor := Min(Max(Max(wish, BACKOFF[attempt - 1] * SECOND), SECOND), 300 * SECOND);
    floor <= delay <= Min(floor + Min(Max(floor / 4, SECOND), 10 * SECOND), 300 * SECOND)
  }

  lemma ExponentialIsBackoff(attempt: int)
    requires 1 <= attempt <= 5
    ensures Exponential(attempt) == BACKOFF[attempt - 1] * SECOND
  {
    assert Exponential(1) == SECOND && Exponential(2) == 2 * SECOND;
    assert Exponential(3) == 4 * SECOND;
    assert Exponential(4) == 8 * SECOND;
  }

  lemma RetryDelayWithinPolicy(r: Receipt, result: MailResult)
    ensures 1 <= r.attempt <= 5 ==> WithinPolicy(RetryDelay(r, result), r.attempt, result.retryAfter)
    ensures var floor := DelayFloor(r.attempt, result.retryAfter);
      && floor <= RetryDelay(r, result) <= Min(floor + JitterRange(floor), MAX_DELAY)
      && SECOND <= floor && RetryDelay(r, result) <= MAX_DELAY
      && (result.retryAfter <= MAX_DELAY ==> result.retryAfter <= RetryDelay(r, result))
  {
    var floor := DelayFloor(r.attempt, result.retryAfter);
    var slots := JitterRange(floor) / SECOND + 1;
    var id := r.intent.recipientId;
    var extra := JitterSeed(if |id| < 8 then id else id[..8]) % slots;
    assert 0 <= extra <= slots - 1;
    assert extra * SECOND <= JitterRange(floor) / SECOND * SECOND <= JitterRange(floor);
    if 1 <= r.attempt <= 5 { ExponentialIsBackoff(r.attempt); }
  }

  // ---- Applying a result -----------------------------------------------

  function OrDefault(reason: Option<Reason>, fallback: Reason): Reason {
    if reason.None? then fallback else reason.value
  }

  function ToOption(c: Checked<Receipt>): Option<Receipt> {
    if c.Ok? then Some(c.value) else None
  }

  function ApplyMailResult(r: Receipt, m: MailResult, now: Instant): Applied {
    match m.outcome
    case MailAccepted =>
      Applied(ToOption(Accept(r, now, m.httpStatus, m.requestId)), Complete, None, 0)
    case MailSimulated =>
      Applied(ToOption(Simulate(r, now, m.httpStatus, m.requestId)), Complete, None, 0)
    case MailRetryable =>
      var delay := RetryDelay(r, m);
      var reason := OrDefault(m.reason, ProviderRetryable);
      Applied(ToOption(Retry(r, now, m.httpStatus, reason, now + delay)), Abandon, Some(reason), delay)
    case MailPermanent =>
      var reason := OrDefault(m.reason, ProviderRejected);
      Applied(ToOption(Fail(r, now, m.httpStatus, reason)), DeadLetter, Some(reason), 0)
    case MailUnknown =>
      var reason := OrDefault(m.reason, ProviderOutcomeUnknown);
      Applied(ToOption(MarkUnknown(r, now, reason)), DeadLetter, Some(reason), 0)
  }

  function StatusFor(o: MailOutcome): Status {
    match o
    case MailAccepted => Accepted
    case MailSimulated => Simulated
    case MailRetryable => Retryable
    case MailPermanent => Failed
    case MailUnknown => Unknown
  }

  /** A receipt that records exactly this mail result. */
  predicate Records(r: Receipt, m: MailResult) {
    && r.status == StatusFor(m.outcome)
    && (m.outcome.MailRetryable? || m.outcome.MailAccepted? || m.outcome.MailSimulated?
        ==> r.httpStatus == Some(m.httpStatus))
  }

  /** `r'` is a legal next write after `r` that records the answer `m`. */
  predicate RecordingStep(r: Receipt, r': Receipt, m: MailResult, limit: int) {
    r.status == SendStarted && Edge(r, r') && Shape(r', limit) && Records(r', m)
  }

  predicate ReasonOk(reason: Option<Reason>) { reason.Some? ==> IsReason(reason.value) }

  /** What an answer needs so that a started receipt can record it. */
  predicate Recordable(m: MailResult, now: Instant, delay: Duration) {
    && Representable(now)
    && match m.outcome
       case MailAccepted => m.httpStatus == 202 && IsRequestId(m.requestId)
       case MailSimulated => m.httpStatus == 200 && IsRequestId(m.requestId)
       case MailRetryable =>
         IsTransient(m.httpStatus) && ReasonOk(m.reason) && Representable(now + delay)
       case MailPermanent => 0 <= m.httpStatus <= 599 && ReasonOk(m.reason)
       case MailUnknown => ReasonOk(m.reason)
  }

  /** Whatever the provider answered, a started receipt is updated exactly when
      the answer can be recorded, and then by a legal step that records it. */
  lemma ApplySteps(r: Receipt, m: MailResult, now: Instant, limit: int)
    requires Shape(r, limit) && limit <= MAX_ATTEMPTS && r.status == SendStarted
    ensures var a := ApplyMailResult(r, m, now);
      && (a.updated.Some? <==> Recordable(m, now, RetryDelay(r, m)))
      && (a.updated.Some? ==> RecordingStep(r, a.updated.value, m, limit))
      && (m.outcome.MailRetryable? ==> a.delay == RetryDelay(r, m) && SECOND <= a.delay <= MAX_DELAY)
      && (a.updated.Some? && m.outcome.MailRetryable? ==>
            a.updated.value.nextAttemptAt == Some(FormatTime(now + RetryDelay(r, m))))
  {
    hide RetryDelay, Shape, Finish, Retry, Edge, Representable;
    RetryDelayWithinPolicy(r, m);
    match m.outcome
    case MailAccepted => if m.httpStatus == 202 { FinishSteps(r, now, Accepted, 202, m.requestId, None, limit); }
    case MailSimulated => if m.httpStatus == 200 { FinishSteps(r, now, Simulated, 200, m.requestId, None, limit); }
    case MailRetryable =>
      RetrySteps(r, now, m.httpStatus, OrDefault(m.reason, ProviderRetryable), now + RetryDelay(r, m), limit);
    case MailPermanent =>
      var reason := OrDefault(m.reason, ProviderRejected);
      if 0 <= m.httpStatus <= 599 && IsReason(reason) {
        FinishSteps(r, now, Failed, m.httpStatus, "", Some(reason), limit);
      }
    case MailUnknown =>
      var reason := OrDefault(m.reason, ProviderOutcomeUnknown);
      if IsReason(reason) { FinishSteps(r, now, Unknown, 0, "", Some(reason), limit); }
  }

  /** The response says, in its mode, that the mail was taken. */
  predicate Taken(mode: Mode, status: int) { status == if mode.Live? then 202 else 200 }

  /** What the journal must say after a response with this status. Only a mail that
      was taken is delivered; 429 and 5xx are transient; the rest of 4xx is a
      definite refusal; everything else is ambiguous, and nothing is recorded of
      its status. */
  predicate Journaled(mode: Mode, status: int, u: Receipt) {
    if Taken(mode, status) then
      u.status == (if mode.Live? then Accepted else Simulated) && u.httpStatus == Some(status) && u.reason == None
    else if status == 429 then
      u.status == Retryable && u.httpStatus == Some(429) && u.reason == Some(ProviderThrottled)
    else if 500 <= status <= 599 then
      u.status == Retryable && u.httpStatus == Some(status) && u.reason == Some(ProviderUnavailable)
    else if status == 401 || status == 403 then
      u.status == Failed && u.httpStatus == Some(status) && u.reason == Some(ProviderAuthFailed)
    else if 400 <= status <= 499 then
      u.status == Failed && u.httpStatus == Some(status) && u.reason == Some(ProviderRejected)
    else
      u.status == Unknown && u.httpStatus == None && u.reason == Some(ProviderProtocolUnknown)
  }

  /** The delivery goes on exactly when the mail was taken, is retried exactly after
      a transient status, and is dead-lettered otherwise. */
  function DispositionFor(mode: Mode, status: int): Disposition {
    if Taken(mode, status) then Complete
    else if status == 429 || 500 <= status <= 599 then Abandon
    else DeadLetter
  }

  /** A Retry-After header, from one second to five minutes, in seconds. */
  function WishOf(header: Option<int>): int {
    if header.None? then 1 else Min(Max(header.value, 1), 300)
  }

  /** The request id that is kept: the provider's, or the stub's, cut to 128 bytes. */
  function KeptId(response: Response): Option<string> {
    if response.messageId != "" then Some(response.messageId[..Min(128, |response.messageId|)])
    else if response.stubRequestId != "" then Some(response.stubRequestId[..Min(128, |response.stubRequestId|)])
    else None
  }

  /** What classification makes of a response, in terms of its status. */
  lemma ClassifiedAs(mode: Mode, response: Response)
    ensures var m, s := Classify(mode, response), response.status;
      && (Taken(mode, s) <==> m.outcome == if mode.Live? then MailAccepted else MailSimulated)
      && (s == 429 || 500 <= s <= 599 <==> m.outcome.MailRetryable?)
      && (400 <= s <= 499 && s != 429 <==> m.outcome.MailPermanent?)
      && (Taken(mode, s) || m.outcome.MailRetryable? || m.outcome.MailPermanent? || m.outcome.MailUnknown?)
      && m.httpStatus == s
      && (m.outcome.MailRetryable? ==> m.retryAfter == WishOf(response.retryAfter) * SECOND)
      && KeptId(response) == (if m.requestId == "" then None else Some(m.requestId))
      && |m.requestId| <= 128
      && m.reason == if Taken(mode, s) then None
                     else if s == 429 then Some(ProviderThrottled)
                     else if 500 <= s <= 599 then Some(ProviderUnavailable)
                     else if s == 401 || s == 403 then Some(ProviderAuthFailed)
                     else if 400 <= s <= 499 then Some(ProviderRejected)
                     else Some(ProviderProtocolUnknown)
  {
    var id, stub := response.messageId, response.stubRequestId;
    assert id[..|id|] == id && stub[..|stub|] == stub;
  }

  /** The fields of a receipt that records an answer. */
  lemma RecordedFields(r: Receipt, m: MailResult, now: Instant)
    requires r.status == SendStarted
    ensures var a := ApplyMailResult(r, m, now);
      a.updated.Some? ==>
        && a.updated.value.status == StatusFor(m.outcome) && a.updated.value.reason == a.reason
        && (m.reason.Some? || m.outcome.MailAccepted? || m.outcome.MailSimulated? ==>
              a.reason == if m.outcome.MailAccepted? || m.outcome.MailSimulated? then None else m.reason)
        && a.updated.value.requestId ==
             (if (m.outcome.MailAccepted? || m.outcome.MailSimulated?) && m.requestId != "" then Some(m.requestId)
              else None)
        && a.updated.value.httpStatus ==
             (if m.outcome.MailUnknown? || (m.outcome.MailPermanent? && m.httpStatus == 0) then None
              else Some(m.httpStatus))
        && a.updated.value.nextAttemptAt ==
             (if m.outcome.MailRetryable? then Some(FormatTime(now + a.delay)) else None)
  {
    hide RetryDelay, Valid, IsReason, IsRequestId;
  }

  /** For every status, mode and header, a classified response is refused by a
      started receipt exactly when the clock leaves the representable years or
      the id it must store contains a control character; otherwise the journal
      says what the status means, and a retry waits as the policy demands. */
  lemma EveryResponseIsRecorded(r: Receipt, mode: Mode, response: Response, now: Instant, limit: int)
    requires Shape(r, limit) && limit <= MAX_ATTEMPTS && r.status == SendStarted
    ensures var m := Classify(mode, response);
      var a := ApplyMailResult(r, m, now);
      var transient := a.disposition == Abandon;
      && a.disposition == DispositionFor(mode, response.status)
      && (a.updated.Some? <==>
            && Representable(now)
            && (transient ==> Representable(now + a.delay))
            && (Taken(mode, response.status) && KeptId(response).Some? ==> ControlFree(KeptId(response).value)))
      && (a.updated.Some? ==>
            && RecordingStep(r, a.updated.value, m, limit) && Journaled(mode, response.status, a.updated.value)
            && a.updated.value.requestId == (if Taken(mode, response.status) then KeptId(response) else None)
            && a.reason == a.updated.value.reason
            && a.updated.value.nextAttemptAt == (if transient then Some(FormatTime(now + a.delay)) else None))
      && (transient ==> WithinPolicy(a.delay, r.attempt, WishOf(response.retryAfter) * SECOND))
      && (!transient ==> a.delay == 0)
  {
    hide RetryDelay, ControlFree, WithinPolicy, Representable, Classify, RecordingStep, KeptId, WishOf, Shape;
    hide Accept, Simulate, Retry, Fail, MarkUnknown;
    var m := Classify(mode, response);
    ClassifiedAs(mode, response);
    ApplySteps(r, m, now, limit);
    RetryDelayWithinPolicy(r, m);
    RecordedFields(r, m, now);
    AttemptInPolicy(r, limit);
    EmptyIdIsFine();
  }

  lemma AttemptInPolicy(r: Receipt, limit: int)
    requires Shape(r, limit) && limit <= MAX_ATTEMPTS
    ensures 1 <= r.attempt <= 5
  {}

  lemma EmptyIdIsFine()
    ensures ControlFree("")
  {}
}
