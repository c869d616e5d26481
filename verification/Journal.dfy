/** The notification system: any number of workers take any deliveries in any
    interleaving, over one compare-and-set receipt store and one mail provider.
    A worker may crash anywhere, a read or a write may fail, a write may commit
    and still report an error, the clock may read anything, and every message
    may be delivered again at any time. */
module Journal {
  import opened Basics
  import opened Receipts
  import opened Mail
  import opened RowProtocol
  import opened Ledgers
  import opened Batches

  // ---- Deliveries (Process in internal/distribution/worker.go) ------------

  type BlobRef = nat

  datatype QueueMessage = QueueMessage(
    core: Message,
    commit: string,
    manifest: BlobRef,
    batch: BlobRef,
    recipientCount: int)

  datatype Manifest = Manifest(
    operationId: string,
    releaseId: string,
    releaseVersion: string,
    commit: string)

  /** What does not change during a run: the codecs, the keyed recipient hash,
      the exact blob versions that references name, and the largest attempt
      budget any worker is configured with. */
  datatype Env = Env(
    parseMessage: (string, string) -> Option<QueueMessage>,
    parseManifest: string -> Option<Manifest>,
    parseRecipient: string -> Option<Recipient>,
    mac: (string, string) -> string,
    content: map<BlobRef, string>,
    limit: int)

  /** A broker delivery, taken by a worker with these options and key. */
  datatype Delivery = Delivery(brokerId: string, body: string, options: Options, key: string)

  /** How a read of an exact blob version went. */
  datatype Fetch = Arrived | Unavailable | Rejected

  datatype ProcessResult = ProcessResult(
    disposition: Disposition,
    reason: Option<Reason>,
    processed: nat,
    skipped: nat,
    retryAfter: Duration)

  /** A validated batch on its way through the rows. */
  datatype Job = Job(
    message: QueueMessage,
    options: Options,
    key: string,
    recipients: seq<string>,
    index: nat,
    processed: nat,
    skipped: nat)

  datatype Prepared = Refused(result: ProcessResult) | Ready(job: Job)

  function Refuse(disposition: Disposition, reason: Reason, delay: Duration): Prepared {
    Refused(ProcessResult(disposition, Some(reason), 0, 0, delay))
  }

  predicate ManifestMatches(m: Manifest, q: QueueMessage) {
    && m.operationId == q.core.operationId && m.releaseId == q.core.releaseId
    && m.releaseVersion == q.core.releaseVersion && m.commit == q.commit
  }

  function Identify(mac: (string, string) -> string, key: string, rows: seq<Recipient>): (ids: seq<string>)
    ensures |ids| == |rows|
    ensures forall i | 0 <= i < |rows| :: ids[i] == mac(key, rows[i].email)
  {
    if rows == [] then [] else [mac(key, rows[0].email)] + Identify(mac, key, rows[1..])
  }

  /** Everything Process does before the first row: parse the message, read and
      match the manifest, verify the batch, scan all of it once, reopen it. */
  function Prepare(env: Env, d: Delivery, manifest: Fetch, batch: Fetch, scanned: bool, reopened: bool)
    : Prepared
  {
    match env.parseMessage(d.body, d.brokerId)
    case None => Refuse(DeadLetter, MessageInvalid, 0)
    case Some(q) =>
      if manifest.Unavailable? then Refuse(Abandon, BlobUnavailable, SECOND)
      else if manifest.Rejected? || q.manifest !in env.content then Refuse(DeadLetter, ReferencedBlobInvalid, 0)
      else
        match env.parseManifest(env.content[q.manifest])
        case None => Refuse(DeadLetter, ReferencedBlobInvalid, 0)
        case Some(m) =>
          if !ManifestMatches(m, q) then Refuse(DeadLetter, ReferencedBlobInvalid, 0)
          else if batch.Unavailable? then Refuse(Abandon, BlobUnavailable, SECOND)
          else if batch.Rejected? || q.batch !in env.content then Refuse(DeadLetter, ReferencedBlobInvalid, 0)
          else if !scanned then Refuse(DeadLetter, ReferencedBlobInvalid, 0)
          else
            match ScanBatch(env.parseRecipient, env.content[q.batch])
            case None => Refuse(DeadLetter, ReferencedBlobInvalid, 0)
            case Some(rows) =>
              if |rows| != q.recipientCount then Refuse(DeadLetter, ReferencedBlobInvalid, 0)
              else if !reopened then Refuse(Abandon, BlobUnavailable, SECOND)
              else Ready(Job(q, d.options, d.key, Identify(env.mac, d.key, rows), 0, 0, 0))
  }

  function RowOf(job: Job, now: Instant): Row
    requires job.index < |job.recipients|
  {
    Row(job.message.core, job.options, job.recipients[job.index], now)
  }

  function JobPath(job: Job, i: nat): Path
    requires i < |job.recipients|
  {
    Path(job.message.core.releaseId, job.message.core.operationId, job.options.keyVersion, job.recipients[i])
  }

  // ---- The system ----------------------------------------------------------

  datatype Worker =
    | Idle
    | Between(job: Job)
    | InRow(job: Job, pc: Pc)
    | Settled(finished: Option<Job>, result: ProcessResult)

  datatype State = State(ledgers: map<Path, Ledger>, workers: map<WorkerId, Worker>)

  const INITIAL := State(map[], map[])

  function At(s: State, p: Path): Ledger { if p in s.ledgers then s.ledgers[p] else EMPTY }

  function WorkerAt(s: State, w: WorkerId): Worker { if w in s.workers then s.workers[w] else Idle }

  // A worker may be told of a failure, or crash, while its upload is still under
  // way: Linger leaves the request behind under an id of its own, and it may take
  // effect at any later time, like the upload of any other worker.

  /** What an upload tells its caller, which need not be what it did. */
  datatype Report = ReportedOk | ReportedConflict | ReportedError

  datatype Label =
    | Receive(w: WorkerId, delivery: Delivery, manifest: Fetch, batch: Fetch, scanned: bool, reopened: bool)
    | Crash(w: WorkerId)
    | ReadClock(w: WorkerId, now: Instant)
    | BreakStream(w: WorkerId)
    | EndOfRows(w: WorkerId)
    | ReadReceipt(w: WorkerId, failed: bool)
    | Upload(w: WorkerId, committed: bool, etag: ETag, report: Report)
    | Linger(w: WorkerId, request: WorkerId)
    | CallMail(w: WorkerId)
    | AnswerMail(w: WorkerId, answer: MailResult)
    | FinishRow(w: WorkerId)

  predicate Enabled(env: Env, s: State, a: Label) {
    var x := WorkerAt(s, a.w);
    match a
    case Receive(_, d, _, _, _, _) =>
      (x.Idle? || x.Settled?) && ValidOptions(d.options) && d.options.maxAttempts <= env.limit
    case Crash(_) => true
    case ReadClock(_, _) => x.Between? && x.job.index < |x.job.recipients|
    case BreakStream(_) => x.Between?
    case EndOfRows(_) => x.Between? && x.job.index == |x.job.recipients|
    case ReadReceipt(_, _) => x.InRow? && (x.pc.Fetching? || x.pc.Refetching? || x.pc.Confirming?)
    case Upload(_, committed, etag, report) =>
      && x.InRow? && x.pc.Uploading?
      && (report.ReportedOk? ==> committed)
      && (committed ==> ConditionHolds(At(s, PathOf(x.pc.row)), x.pc.base)
                        && FreshTag(At(s, PathOf(x.pc.row)), etag))
    case Linger(w, z) => x.InRow? && x.pc.Uploading? && z != w && WorkerAt(s, z).Idle?
    case CallMail(_) => x.InRow? && x.pc.Mailing?
    case AnswerMail(_, _) => x.InRow? && x.pc.Awaiting?
    case FinishRow(_) => x.InRow? && x.pc.RowDone?
  }

  function ReadCell(l: Ledger, failed: bool): Read {
    if failed then ReadFailed else if l.cell.Some? then Found(l.cell.value) else Missing
  }

  function AfterRead(pc: Pc, read: Read): Pc
    requires pc.Fetching? || pc.Refetching? || pc.Confirming?
  {
    match pc
    case Fetching(row) => AfterFetch(row, read)
    case Refetching(row) => AfterRefetch(row, read)
    case Confirming(row, purpose, next, _) => AfterConfirm(row, purpose, next, read)
  }

  /** The row callback: count the row, and stop the batch unless it completed. */
  function AfterRow(job: Job, result: RowResult): Worker {
    match result
    case Skipped => Between(job.(index := job.index + 1, skipped := job.skipped + 1))
    case Reported(disposition, reason, delay) =>
      var counted := job.(processed := job.processed + 1);
      if disposition == Complete then Between(counted.(index := job.index + 1))
      else Settled(Some(counted), ProcessResult(disposition, reason, counted.processed, counted.skipped, delay))
  }

  /** The worker's own new state. */
  function WorkerStep(env: Env, s: State, a: Label): Worker
    requires Enabled(env, s, a)
  {
    var x := WorkerAt(s, a.w);
    match a
    case Receive(_, d, manifest, batch, scanned, reopened) =>
      var p := Prepare(env, d, manifest, batch, scanned, reopened);
      if p.Ready? then Between(p.job) else Settled(None, p.result)
    case Crash(_) => Idle
    case ReadClock(_, now) => InRow(x.job, Fetching(RowOf(x.job, now)))
    case BreakStream(_) =>
      Settled(Some(x.job), ProcessResult(DeadLetter, Some(ReferencedBlobInvalid), 0, 0, 0))
    case EndOfRows(_) =>
      Settled(Some(x.job), ProcessResult(Complete, None, x.job.processed, x.job.skipped, 0))
    case ReadReceipt(_, failed) =>
      InRow(x.job, AfterRead(x.pc, ReadCell(At(s, PathOf(x.pc.row)), failed)))
    case Upload(_, committed, etag, report) =>
      InRow(x.job,
            if report.ReportedOk? then Confirming(x.pc.row, x.pc.purpose, x.pc.next, etag)
            else AfterPutError(x.pc.row, x.pc.purpose, report.ReportedConflict?))
    case Linger(_, _) => InRow(x.job, AfterPutError(x.pc.row, x.pc.purpose, false))
    case CallMail(_) => InRow(x.job, Awaiting(x.pc.row, x.pc.stored, |At(s, PathOf(x.pc.row)).sends|))
    case AnswerMail(_, m) => InRow(x.job, AfterMail(x.pc.row, x.pc.stored, m))
    case FinishRow(_) => AfterRow(x.job, x.pc.result)
  }

  /** The path an action touches; only a worker inside a row touches one. */
  function Touched(s: State, a: Label): Option<Path> {
    var x := WorkerAt(s, a.w);
    if x.InRow? then Some(PathOf(x.pc.row)) else None
  }

  function LedgerStep(s: State, a: Label, l: Ledger): Ledger {
    var x := WorkerAt(s, a.w);
    match a
    case Upload(w, committed, etag, _) =>
      if x.InRow? && x.pc.Uploading? && committed then Write(l, x.pc.next, etag, w) else l
    case CallMail(w) =>
      if x.InRow? && x.pc.Mailing? then CallMailer(l, x.pc.stored.receipt.version, w) else l
    case AnswerMail(_, m) =>
      if x.InRow? && x.pc.Awaiting? then AnswerCall(l, x.pc.ticket, m) else l
    case _ => l
  }

  function Step(env: Env, s: State, a: Label): State
    requires Enabled(env, s, a)
  {
    var ledgers := match Touched(s, a)
      case None => s.ledgers
      case Some(p) => s.ledgers[p := LedgerStep(s, a, At(s, p))];
    var workers := s.workers[a.w := WorkerStep(env, s, a)];
    State(ledgers, if a.Linger? then workers[a.request := WorkerAt(s, a.w)] else workers)
  }

  /** A run: states linked by enabled actions, from the empty system. */
  ghost predicate IsRun(env: Env, run: seq<State>) {
    && |run| > 0 && run[0] == INITIAL
    && forall i | 0 < i < |run| :: CanStep(env, run[i - 1], run[i])
  }

  ghost predicate CanStep(env: Env, s: State, s': State) {
    exists a :: Enabled(env, s, a) && Step(env, s, a) == s'
  }

  // ---- The invariant of every reachable state ------------------------------

  /** Every row of the batch was read and accepted, as many as were declared. */
  ghost predicate FullyScanned(env: Env, job: Job) {
    && job.message.batch in env.content
    && var scan := ScanBatch(env.parseRecipient, env.content[job.message.batch]);
       && scan.Some? && |scan.value| == job.message.recipientCount
       && job.recipients == Identify(env.mac, job.key, scan.value)
  }

  ghost predicate JobInv(env: Env, s: State, job: Job) {
    && ValidOptions(job.options) && job.options.maxAttempts <= env.limit
    && FullyScanned(env, job)
    && job.processed + job.skipped == job.index <= |job.recipients|
    && forall i | 0 <= i < job.index :: Delivered(At(s, JobPath(job, i)))
  }

  ghost predicate WorkerInv(env: Env, s: State, w: WorkerId, x: Worker) {
    match x
    case Idle => true
    case Between(job) => JobInv(env, s, job)
    case InRow(job, pc) =>
      && JobInv(env, s, job) && job.index < |job.recipients|
      && pc.row == RowOf(job, pc.row.now)
      && PcInv(PathOf(pc.row), env.limit, At(s, PathOf(pc.row)), w, pc)
    case Settled(finished, result) =>
      result.disposition == Complete ==>
        && finished.Some? && JobInv(env, s, finished.value)
        && finished.value.index == |finished.value.recipients|
        && result.processed == finished.value.processed && result.skipped == finished.value.skipped
  }

  ghost predicate Inv(env: Env, s: State) {
    && (forall p :: LedgerInv(p, env.limit, At(s, p)))
    && (forall w :: WorkerInv(env, s, w, WorkerAt(s, w)))
  }

  predicate ValidEnv(env: Env) { 1 <= env.limit <= MAX_ATTEMPTS }

  /** Delivered rows stay delivered when one path takes an action. */
  lemma JobKeeps(env: Env, s: State, s': State, p: Path, w: WorkerId, job: Job)
    requires JobInv(env, s, job)
    requires LedgerInv(p, env.limit, At(s, p)) && LedgerInv(p, env.limit, At(s', p))
    requires ActionOf(At(s, p), At(s', p), w)
    requires forall q | q != p :: At(s', q) == At(s, q)
    ensures JobInv(env, s', job)
  {
    hide LedgerInv, ActionOf;
    DeliveredStays(p, env.limit, At(s, p), At(s', p), w);
    forall i | 0 <= i < job.index
      ensures Delivered(At(s', JobPath(job, i)))
    {
      assert Delivered(At(s, JobPath(job, i)));
    }
  }

  /** It is enough to look at the acting worker and the path it touches. */
  lemma LocalActionKeeps(env: Env, s: State, s': State, p: Path, w: WorkerId)
    requires Inv(env, s)
    requires LedgerInv(p, env.limit, At(s', p)) && ActionOf(At(s, p), At(s', p), w)
    requires forall q | q != p :: At(s', q) == At(s, q)
    requires forall v | v != w :: WorkerAt(s', v) == WorkerAt(s, v)
    requires WorkerInv(env, s', w, WorkerAt(s', w))
    ensures Inv(env, s')
  {
    hide LedgerInv, ActionOf, PcInv, JobInv;
    forall q
      ensures LedgerInv(q, env.limit, At(s', q))
    {
      assert LedgerInv(q, env.limit, At(s, q));
    }
    forall v
      ensures WorkerInv(env, s', v, WorkerAt(s', v))
    {
      if v != w {
        assert WorkerInv(env, s, v, WorkerAt(s, v));
        OtherWorkerKeeps(env, s, s', p, w, v, WorkerAt(s, v));
      }
    }
  }

  lemma OtherWorkerKeeps(env: Env, s: State, s': State, p: Path, w: WorkerId, v: WorkerId, x: Worker)
    requires v != w && WorkerInv(env, s, v, x)
    requires LedgerInv(p, env.limit, At(s, p)) && LedgerInv(p, env.limit, At(s', p))
    requires ActionOf(At(s, p), At(s', p), w)
    requires forall q | q != p :: At(s', q) == At(s, q)
    ensures WorkerInv(env, s', v, x)
  {
    hide LedgerInv, ActionOf, PcInv, JobInv;
    match x
    case Idle =>
    case Between(job) => JobKeeps(env, s, s', p, w, job);
    case InRow(job, pc) =>
      JobKeeps(env, s, s', p, w, job);
      if PathOf(pc.row) == p {
        OthersKeep(p, env.limit, At(s, p), At(s', p), w, v, pc);
      }
    case Settled(finished, result) =>
      if result.disposition == Complete { JobKeeps(env, s, s', p, w, finished.value); }
  }

  // ---- Every action keeps the invariant -------------------------------------

  lemma PrepareFits(env: Env, s: State, d: Delivery, manifest: Fetch, batch: Fetch, scanned: bool, reopened: bool)
    requires ValidOptions(d.options) && d.options.maxAttempts <= env.limit
    ensures var p := Prepare(env, d, manifest, batch, scanned, reopened);
      if p.Ready? then JobInv(env, s, p.job) else p.result.disposition != Complete
  {
    hide ScanBatch;
  }

  /** Everything a delivery needs before its first row. */
  ghost predicate InOrder(env: Env, d: Delivery, q: QueueMessage, rows: seq<Recipient>) {
    && env.parseMessage(d.body, d.brokerId) == Some(q)
    && q.manifest in env.content
    && env.parseManifest(env.content[q.manifest])
       == Some(Manifest(q.core.operationId, q.core.releaseId, q.core.releaseVersion, q.commit))
    && q.batch in env.content && ScanBatch(env.parseRecipient, env.content[q.batch]) == Some(rows)
    && |rows| == q.recipientCount
  }

  /** A delivery is prepared if and only if its documents are in order and every
      read goes well, and then for exactly the scanned rows. An unavailable manifest
      or batch abandons it for a second; a message that does not parse is refused;
      and nothing else is dead-lettered but a document that was rejected or is not
      in order, or a batch whose validating scan broke off. */
  lemma PrepareIsExact(env: Env, d: Delivery, manifest: Fetch, batch: Fetch, scanned: bool, reopened: bool)
    ensures var p := Prepare(env, d, manifest, batch, scanned, reopened);
      && (p.Ready? <==>
           && manifest.Arrived? && batch.Arrived? && scanned && reopened
           && exists q, rows :: InOrder(env, d, q, rows))
      && (forall q, rows | p.Ready? && InOrder(env, d, q, rows) ::
            p.job == Job(q, d.options, d.key, Identify(env.mac, d.key, rows), 0, 0, 0))
      && (p.Refused? ==> p.result.processed == 0 && p.result.skipped == 0 && p.result.disposition != Complete)
      && (p.Refused? && p.result.disposition == Abandon ==>
            && p.result.reason == Some(BlobUnavailable) && p.result.retryAfter == SECOND
            && env.parseMessage(d.body, d.brokerId).Some?
            && (manifest.Unavailable? || batch.Unavailable? || !reopened))
      && (p.Refused? && p.result.disposition == DeadLetter ==>
            if p.result.reason == Some(MessageInvalid) then env.parseMessage(d.body, d.brokerId).None?
            else
              && p.result.reason == Some(ReferencedBlobInvalid) && env.parseMessage(d.body, d.brokerId).Some?
              && (manifest.Rejected? || batch.Rejected? || !scanned || !exists q, rows :: InOrder(env, d, q, rows)))
      && (env.parseMessage(d.body, d.brokerId).Some? && manifest.Unavailable? ==>
            p.Refused? && p.result.disposition == Abandon)
  {
    hide ScanBatch, Identify;
    var parsed := env.parseMessage(d.body, d.brokerId);
    if parsed.Some? && parsed.value.batch in env.content {
      var scan := ScanBatch(env.parseRecipient, env.content[parsed.value.batch]);
      if scan.Some? && Prepare(env, d, manifest, batch, scanned, reopened).Ready? {
        assert InOrder(env, d, parsed.value, scan.value);
      }
      if scan.Some? && manifest.Arrived? && batch.Arrived? && scanned {
        assert InOrder(env, d, parsed.value, scan.value) <==> exists rows :: InOrder(env, d, parsed.value, rows);
      }
    }
  }

  /** Workers outside a row touch no path. */
  lemma OutsideRowKeeps(env: Env, s: State, a: Label)
    requires Inv(env, s) && Enabled(env, s, a) && !WorkerAt(s, a.w).InRow?
    ensures Inv(env, Step(env, s, a))
    ensures forall q :: At(Step(env, s, a), q) == At(s, q)
  {
    hide LedgerInv, Prepare, FullyScanned;
    var s' := Step(env, s, a);
    var x := WorkerAt(s, a.w);
    assert WorkerInv(env, s, a.w, x);
    if a.Receive? { PrepareFits(env, s', a.delivery, a.manifest, a.batch, a.scanned, a.reopened); }
    assert WorkerInv(env, s', a.w, WorkerAt(s', a.w));
    var p := Path("", "", "", "");
    assert LedgerInv(p, env.limit, At(s, p));
    LocalActionKeeps(env, s, s', p, a.w);
  }

  lemma ReadFits(p: Path, limit: int, l: Ledger, w: WorkerId, pc: Pc, failed: bool)
    requires LedgerInv(p, limit, l) && GoodRow(p, limit, pc.row) && PcInv(p, limit, l, w, pc)
    requires pc.Fetching? || pc.Refetching? || pc.Confirming?
    ensures PcInv(p, limit, l, w, AfterRead(pc, ReadCell(l, failed)))
  {
    hide LedgerInv, PcInv, AfterFetch, AfterRefetch, AfterConfirm;
    var read := ReadCell(l, failed);
    if pc.Confirming? { ConfirmFits(p, limit, l, w, pc, read); }
    else { FetchFits(p, limit, l, w, pc.row, read); }
  }

  lemma PutErrorFits(p: Path, limit: int, l: Ledger, w: WorkerId, row: Row, purpose: Purpose, conflict: bool)
    ensures PcInv(p, limit, l, w, AfterPutError(row, purpose, conflict))
  {}

  /** The new program counter and path of a worker inside a row. */
  lemma RowActionFits(env: Env, s: State, a: Label, job: Job, pc: Pc)
    requires ValidEnv(env) && Enabled(env, s, a) && WorkerAt(s, a.w) == InRow(job, pc)
    requires LedgerInv(PathOf(pc.row), env.limit, At(s, PathOf(pc.row)))
    requires GoodRow(PathOf(pc.row), env.limit, pc.row)
    requires PcInv(PathOf(pc.row), env.limit, At(s, PathOf(pc.row)), a.w, pc)
    requires a.ReadReceipt? || a.Upload? || a.CallMail? || a.AnswerMail?
    ensures var p := PathOf(pc.row); var l' := LedgerStep(s, a, At(s, p));
      && LedgerInv(p, env.limit, l') && ActionOf(At(s, p), l', a.w)
      && var y := WorkerStep(env, s, a);
         y.InRow? && y.job == job && y.pc.row == pc.row && PcInv(p, env.limit, l', a.w, y.pc)
  {
    hide LedgerInv, PcInv, AfterPutError, AfterMail, AfterRead, Prepare;
    var p := PathOf(pc.row);
    var l := At(s, p);
    match a
    case ReadReceipt(w, failed) =>
      ReadFits(p, env.limit, l, w, pc, failed);
      ReadKeepsRow(pc, ReadCell(l, failed));
    case Upload(w, committed, etag, report) =>
      if committed {
        WriteKeeps(p, env.limit, l, w, pc.row, pc.purpose, pc.base, pc.next, etag);
      }
      PutErrorFits(p, env.limit, LedgerStep(s, a, l), w, pc.row, pc.purpose, report.ReportedConflict?);
    case CallMail(w) =>
      CallFits(p, env.limit, l, w, pc);
    case AnswerMail(w, m) =>
      AnswerFits(p, env.limit, l, w, pc, m);
  }

  lemma ReadKeepsRow(pc: Pc, read: Read)
    requires pc.Fetching? || pc.Refetching? || pc.Confirming?
    ensures AfterRead(pc, read).row == pc.row
  {
    hide AfterFetch, AfterRefetch, AfterConfirm;
  }

  lemma CallFits(p: Path, limit: int, l: Ledger, w: WorkerId, pc: Pc)
    requires LedgerInv(p, limit, l) && PcInv(p, limit, l, w, pc) && pc.Mailing?
    ensures var l' := CallMailer(l, pc.stored.receipt.version, w);
      && LedgerInv(p, limit, l') && ActionOf(l, l', w)
      && PcInv(p, limit, l', w, Awaiting(pc.row, pc.stored, |l.sends|))
  {
    hide LedgerInv;
    CallKeeps(p, limit, l, w, pc.row, pc.stored);
  }

  lemma AnswerFits(p: Path, limit: int, l: Ledger, w: WorkerId, pc: Pc, m: MailResult)
    requires LedgerInv(p, limit, l) && PcInv(p, limit, l, w, pc) && pc.Awaiting?
    requires GoodRow(p, limit, pc.row)
    ensures var l' := AnswerCall(l, pc.ticket, m);
      && LedgerInv(p, limit, l') && ActionOf(l, l', w)
      && PcInv(p, limit, l', w, AfterMail(pc.row, pc.stored, m))
  {
    hide LedgerInv, AfterMail;
    AnswerKeeps(p, limit, l, w, pc.row, pc.stored, pc.ticket, m);
  }

  lemma InsideRowKeeps(env: Env, s: State, a: Label)
    requires ValidEnv(env) && Inv(env, s) && Enabled(env, s, a) && WorkerAt(s, a.w).InRow? && !a.Linger?
    ensures Inv(env, Step(env, s, a))
  {
    hide LedgerInv, PcInv, JobInv, ActionOf, LedgerStep;
    var s' := Step(env, s, a);
    var x := WorkerAt(s, a.w);
    var job, pc := x.job, x.pc;
    var p := PathOf(pc.row);
    var l := At(s, p);
    assert WorkerInv(env, s, a.w, x);
    assert LedgerInv(p, env.limit, l);
    assert At(s', p) == LedgerStep(s, a, l);
    if a.Crash? || a.FinishRow? {
      QuietRowAction(env, s, a, job, pc);
    } else {
      assert GoodRow(p, env.limit, pc.row) by { GoodRowOf(env, s, job, pc.row.now); }
      RowActionFits(env, s, a, job, pc);
      JobKeeps(env, s, s', p, a.w, job);
    }
    LocalActionKeeps(env, s, s', p, a.w);
  }

  lemma GoodRowOf(env: Env, s: State, job: Job, now: Instant)
    requires ValidEnv(env) && JobInv(env, s, job) && job.index < |job.recipients|
    ensures var row := RowOf(job, now); GoodRow(PathOf(row), env.limit, row)
  {}

  /** Counting a finished row keeps the job's books. */
  lemma AfterRowFits(env: Env, s: State, w: WorkerId, job: Job, result: RowResult)
    requires JobInv(env, s, job) && job.index < |job.recipients|
    requires result.Skipped? || result.disposition == Complete ==> Delivered(At(s, JobPath(job, job.index)))
    ensures WorkerInv(env, s, w, AfterRow(job, result))
  {
    hide ScanBatch, Delivered;
    var y := AfterRow(job, result);
    if y.Between? {
      forall i | 0 <= i < y.job.index
        ensures Delivered(At(s, JobPath(y.job, i)))
      {
        assert JobPath(y.job, i) == JobPath(job, i);
      }
    }
  }

  lemma QuietRowAction(env: Env, s: State, a: Label, job: Job, pc: Pc)
    requires WorkerInv(env, s, a.w, InRow(job, pc)) && Enabled(env, s, a) && WorkerAt(s, a.w) == InRow(job, pc)
    requires a.Crash? || a.FinishRow?
    ensures var p := PathOf(pc.row); var l' := LedgerStep(s, a, At(s, p));
      l' == At(s, p) && ActionOf(At(s, p), l', a.w)
    ensures var s' := Step(env, s, a); WorkerInv(env, s', a.w, WorkerAt(s', a.w))
  {
    var s' := Step(env, s, a);
    if a.FinishRow? {
      SameLedgersSameJob(env, s, s', job);
      AfterRowFits(env, s', a.w, job, pc.result);
    }
  }

  lemma SameLedgersSameJob(env: Env, s: State, s': State, job: Job)
    requires JobInv(env, s, job) && forall q :: At(s', q) == At(s, q)
    ensures JobInv(env, s', job)
  {
    hide FullyScanned, Delivered;
    forall i | 0 <= i < job.index
      ensures Delivered(At(s', JobPath(job, i)))
    {
      assert Delivered(At(s, JobPath(job, i)));
    }
  }

  /** A request that is left behind relies on what its worker relied on. */
  lemma LingerKeeps(env: Env, s: State, a: Label)
    requires Inv(env, s) && a.Linger? && Enabled(env, s, a)
    ensures Inv(env, Step(env, s, a))
  {
    hide LedgerInv, JobInv, LedgerStep;
    var s', x := Step(env, s, a), WorkerAt(s, a.w);
    assert WorkerInv(env, s, a.w, x);
    assert forall q :: At(s', q) == At(s, q) by { LingerIsQuiet(s, a); }
    forall q
      ensures LedgerInv(q, env.limit, At(s', q))
    {
      assert LedgerInv(q, env.limit, At(s, q));
    }
    forall v
      ensures WorkerInv(env, s', v, WorkerAt(s', v))
    {
      assert WorkerInv(env, s, v, WorkerAt(s, v));
      if WorkerAt(s', v).InRow? || WorkerAt(s', v).Between? {
        SameLedgersSameJob(env, s, s', if v == a.w || v == a.request then x.job else WorkerAt(s, v).job);
      } else if WorkerAt(s', v).Settled? && WorkerAt(s', v).result.disposition == Complete {
        SameLedgersSameJob(env, s, s', WorkerAt(s, v).finished.value);
      }
    }
  }

  lemma LingerIsQuiet(s: State, a: Label)
    requires a.Linger?
    ensures forall l :: LedgerStep(s, a, l) == l
  {}

  lemma {:induction false} StepKeepsInv(env: Env, s: State, s': State)
    requires ValidEnv(env) && Inv(env, s) && CanStep(env, s, s')
    ensures Inv(env, s')
  {
    hide Inv, Enabled, Step;
    var a :| Enabled(env, s, a) && Step(env, s, a) == s';
    if a.Linger? { LingerKeeps(env, s, a); }
    else if WorkerAt(s, a.w).InRow? { InsideRowKeeps(env, s, a); }
    else { OutsideRowKeeps(env, s, a); }
  }

  /** The invariant holds in every state of every run. */
  lemma {:induction false} Reachable(env: Env, run: seq<State>, i: nat)
    requires ValidEnv(env) && IsRun(env, run) && i < |run|
    ensures Inv(env, run[i])
  {
    hide CanStep;
    if i == 0 {
      assert forall p :: At(INITIAL, p) == EMPTY;
    } else {
      Reachable(env, run, i - 1);
      StepKeepsInv(env, run[i - 1], run[i]);
    }
  }
}
