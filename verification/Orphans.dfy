/** Claims that nobody will ever take over (internal/distribution/receipt.go,
    RecoverStale): a CLAIMED receipt at the attempt limit whose worker is gone.
    How it comes about, that it is for ever, and that nothing else is. */
module Orphans {
  import opened Basics
  import opened Receipts
  import opened Mail
  import opened RowProtocol
  import opened Ledgers
  import opened Journal
  import opened Guarantees
  import Batches

  /** A worker here is about to replace the receipt with this ETag, or to
      confirm that it has just written it. */
  predicate Holds(pc: Pc, tag: ETag) {
    || (pc.Uploading? && pc.base.Some? && pc.base.value.etag == tag)
    || (pc.Confirming? && pc.own == tag)
  }

  predicate HeldBy(x: Worker, p: Path, tag: ETag) { x.InRow? && PathOf(x.pc.row) == p && Holds(x.pc, tag) }

  /** The path has a receipt that no worker holds. */
  ghost predicate Unheld(s: State, p: Path) {
    At(s, p).cell.Some? && forall w :: !HeldBy(WorkerAt(s, w), p, At(s, p).cell.value.etag)
  }

  ghost predicate Orphaned(env: Env, s: State, p: Path) {
    && Unheld(s, p)
    && var r := At(s, p).cell.value.receipt; r.status == Claimed && r.attempt >= env.limit
  }

  // ---- For ever --------------------------------------------------------------------

  /** While the newest receipt is a claim, no mail call is due or pending. */
  lemma NoCallPending(p: Path, limit: int, l: Ledger, w: WorkerId, pc: Pc)
    requires LedgerInv(p, limit, l) && PcInv(p, limit, l, w, pc)
    requires l.cell.Some? && l.cell.value.receipt.status == Claimed
    ensures !pc.Mailing? && !pc.Awaiting?
  {
    hide Shape, IntentAt, Records;
    if pc.Mailing? || pc.Awaiting? {
      var v := pc.stored.receipt.version;
      EdgeAt(p, limit, l.commits, v - 1);
      if IsTerminal(l.commits[v].receipt.status) { TerminalIsNewest(p, limit, l.commits, v); }
    }
  }

  /** A read-back that is not of one's own newest write finds another version. */
  lemma OvertakenConfirm(p: Path, limit: int, l: Ledger, w: WorkerId, pc: Pc)
    requires LedgerInv(p, limit, l) && PcInv(p, limit, l, w, pc) && pc.Confirming?
    requires l.cell.Some? && pc.own != l.cell.value.etag
    ensures l.cell.value.receipt.version != pc.next.version
  {
    hide Shape, IntentAt, Edge;
  }

  /** A worker that meets the orphan gives up. */
  lemma OrphanIsRefused(env: Env, row: Row, stored: Stored)
    requires row.options.maxAttempts <= env.limit
    requires stored.receipt.status == Claimed && stored.receipt.attempt >= env.limit
    ensures Decide(row, stored, false).RowDone?
  {}

  lemma OrphanWorker(env: Env, s: State, a: Label, p: Path)
    requires Inv(env, s) && Enabled(env, s, a) && Orphaned(env, s, p)
    requires WorkerAt(s, a.w).InRow? && PathOf(WorkerAt(s, a.w).pc.row) == p
    ensures LedgerStep(s, a, At(s, p)) == At(s, p)
    ensures !HeldBy(WorkerStep(env, s, a), p, At(s, p).cell.value.etag)
  {
    hide LedgerInv, PcInv, Decide, Shape, FullyScanned;
    var x, l := WorkerAt(s, a.w), At(s, p);
    assert WorkerInv(env, s, a.w, x) && LedgerInv(p, env.limit, l);
    NoCallPending(p, env.limit, l, a.w, x.pc);
    assert !HeldBy(x, p, l.cell.value.etag);
    OrphanIsRefused(env, x.pc.row, l.cell.value);
    if x.pc.Confirming? { OvertakenConfirm(p, env.limit, l, a.w, x.pc); }
  }

  lemma OrphanStays(env: Env, s: State, a: Label, p: Path)
    requires Inv(env, s) && Enabled(env, s, a) && Orphaned(env, s, p)
    ensures At(Step(env, s, a), p) == At(s, p) && Orphaned(env, Step(env, s, a), p)
  {
    hide Inv, LedgerStep, WorkerStep, Holds;
    var s' := Step(env, s, a);
    if WorkerAt(s, a.w).InRow? && PathOf(WorkerAt(s, a.w).pc.row) == p {
      OrphanWorker(env, s, a, p);
    } else {
      NewcomerHoldsNothing(env, s, a, p, At(s, p).cell.value.etag);
    }
    forall w
      ensures !HeldBy(WorkerAt(s', w), p, At(s, p).cell.value.etag)
    {
      if a.Linger? && w == a.request {
        assert WorkerAt(s', w) == WorkerAt(s, a.w);
      } else if w != a.w {
        assert WorkerAt(s', w) == WorkerAt(s, w);
      }
    }
  }

  /** Whoever arrives at a path arrives with empty hands. */
  lemma NewcomerHoldsNothing(env: Env, s: State, a: Label, p: Path, tag: ETag)
    requires Enabled(env, s, a)
    requires !(WorkerAt(s, a.w).InRow? && PathOf(WorkerAt(s, a.w).pc.row) == p)
    ensures !HeldBy(WorkerStep(env, s, a), p, tag)
  {
    hide Prepare;
  }

  /** Once orphaned, a path never changes again, in any continuation. */
  lemma {:induction false} OrphanedForever(env: Env, run: seq<State>, i: nat, j: nat, p: Path)
    requires ValidEnv(env) && IsRun(env, run) && i <= j < |run| && Orphaned(env, run[i], p)
    ensures At(run[j], p) == At(run[i], p) && Orphaned(env, run[j], p)
  {
    hide Orphaned, CanStep, Inv, Enabled, Step;
    if i < j {
      OrphanedForever(env, run, i, j - 1, p);
      Reachable(env, run, j - 1);
      OrphanMoves(env, run[j - 1], run[j], p);
    }
  }

  lemma OrphanMoves(env: Env, s: State, s': State, p: Path)
    requires Inv(env, s) && Orphaned(env, s, p) && CanStep(env, s, s')
    ensures At(s', p) == At(s, p) && Orphaned(env, s', p)
  {
    hide Inv, Orphaned, Enabled, Step;
    var a :| Enabled(env, s, a) && Step(env, s, a) == s';
    OrphanStays(env, s, a, p);
  }

  /** So no delivery that holds the row ever completes. */
  lemma OrphanNeverCompletes(env: Env, run: seq<State>, i: nat, j: nat, p: Path, w: WorkerId, k: nat)
    requires ValidEnv(env) && IsRun(env, run) && i <= j < |run| && Orphaned(env, run[i], p)
    requires WorkerAt(run[j], w).Settled? && WorkerAt(run[j], w).finished.Some?
    requires k < |WorkerAt(run[j], w).finished.value.recipients|
    requires JobPath(WorkerAt(run[j], w).finished.value, k) == p
    ensures WorkerAt(run[j], w).result.disposition != Complete
  {
    hide IsRun, FullyScanned;
    OrphanedForever(env, run, i, j, p);
    if WorkerAt(run[j], w).result.disposition == Complete {
      CompleteMeansDelivered(env, run, j, j, w, k);
    }
  }

  // ---- Nothing else is stuck --------------------------------------------------------

  /** What a delivery that comes to a row needs to find there in order to write:
      nothing, a retry, or a stale claim or start of its message, as long as the
      time of its takeover can be stored. A claim must have attempts left. */
  predicate Movable(row: Row, cell: Option<Stored>) {
    match cell
    case None => row.message.wellFormed
    case Some(stored) =>
      var r := stored.receipt;
      && ReceiptMatches(r, row)
      && match r.status
         case Claimed =>
           && r.attempt < row.options.maxAttempts && r.claimedAt.Some?
           && Representable(ParseTime(r.claimedAt.value) + row.options.claimTimeout)
         case SendStarted =>
           r.startedAt.Some? && Representable(ParseTime(r.startedAt.value) + row.options.claimTimeout)
         case Retryable => true
         case _ => false
  }

  /** The clock reading at which the row writes, if there is one. */
  function MovingTime(row: Row, cell: Option<Stored>): Instant
    requires Movable(row, cell)
  {
    match cell
    case None => 0
    case Some(stored) =>
      match stored.receipt.status
      case Claimed => ParseTime(stored.receipt.claimedAt.value) + row.options.claimTimeout
      case SendStarted => ParseTime(stored.receipt.startedAt.value) + row.options.claimTimeout
      case Retryable =>
        if stored.receipt.nextAttemptAt.Some? then ParseTime(stored.receipt.nextAttemptAt.value) else 0
      case _ => 0
  }

  function Fetched(row: Row, cell: Option<Stored>, now: Instant): Pc {
    AfterFetch(row.(now := now), if cell.Some? then Found(cell.value) else Missing)
  }

  lemma EarlierIsRepresentable(s: Stamp, timeout: Duration, now: Instant)
    requires ValidStamp(s) && 0 < timeout && ParseTime(s) + timeout <= now && Representable(now)
    ensures Representable(ParseTime(s) + timeout)
  {}

  /** A row that finds a well-shaped receipt, or none, goes on to write at some
      clock reading if and only if the path is movable. */
  lemma WritesExactlyWhenMovable(row: Row, cell: Option<Stored>, limit: int)
    requires ValidOptions(row.options) && row.options.maxAttempts <= limit <= MAX_ATTEMPTS
    requires cell.Some? ==> Shape(cell.value.receipt, limit)
    ensures Movable(row, cell) <==> exists now :: Fetched(row, cell, now).Uploading?
    ensures Movable(row, cell) ==> Fetched(row, cell, MovingTime(row, cell)).Uploading?
  {
    hide Shape, Finish;
    if Movable(row, cell) { MovableWrites(row, cell, limit); }
    forall now | Fetched(row, cell, now).Uploading?
      ensures Movable(row, cell)
    {
      WritesOnlyMovable(row, cell, limit, now);
    }
  }

  lemma MovableWrites(row: Row, cell: Option<Stored>, limit: int)
    requires ValidOptions(row.options) && row.options.maxAttempts <= limit <= MAX_ATTEMPTS
    requires cell.Some? ==> Shape(cell.value.receipt, limit)
    requires Movable(row, cell)
    ensures Fetched(row, cell, MovingTime(row, cell)).Uploading?
  {
    var now, max := MovingTime(row, cell), row.options.maxAttempts;
    if cell.None? {
      ClaimIsFirst(IntentOf(row), now, limit);
    } else {
      var r := cell.value.receipt;
      match r.status
      case Claimed => RecoverClaimSteps(r, now, row.options.claimTimeout, max, limit);
      case SendStarted => RecoverSendSteps(r, now, row.options.claimTimeout, max, limit);
      case _ =>
        ExhaustSteps(r, now, limit);
        ReclaimSteps(r, now, max, limit);
    }
  }

  lemma WritesOnlyMovable(row: Row, cell: Option<Stored>, limit: int, now: Instant)
    requires ValidOptions(row.options) && row.options.maxAttempts <= limit <= MAX_ATTEMPTS
    requires cell.Some? ==> Shape(cell.value.receipt, limit)
    requires Fetched(row, cell, now).Uploading?
    ensures Movable(row, cell)
  {
    var max := row.options.maxAttempts;
    if cell.None? {
      ClaimIsFirst(IntentOf(row), now, limit);
    } else {
      var r := cell.value.receipt;
      if r.status == Claimed {
        RecoverClaimSteps(r, now, row.options.claimTimeout, max, limit);
        EarlierIsRepresentable(r.claimedAt.value, row.options.claimTimeout, now);
      } else if r.status == SendStarted {
        RecoverSendSteps(r, now, row.options.claimTimeout, max, limit);
        EarlierIsRepresentable(r.startedAt.value, row.options.claimTimeout, now);
      }
    }
  }

  lemma FreshTagExists(l: Ledger) returns (tag: ETag)
    ensures FreshTag(l, tag)
  {
    tag := TagBound(l.commits, |l.commits|);
  }

  function TagBound(c: seq<Commit>, n: nat): (tag: ETag)
    requires n <= |c|
    ensures forall i | 0 <= i < n :: c[i].etag < tag
  {
    if n == 0 then 0
    else
      var t := TagBound(c, n - 1);
      if c[n - 1].etag < t then t else c[n - 1].etag + 1
  }

  /** A clock reading and a read take a delivery into its row. */
  lemma RowReads(env: Env, s: State, w: WorkerId, now: Instant) returns (s1: State, s2: State)
    requires WorkerAt(s, w).Between? && WorkerAt(s, w).job.index < |WorkerAt(s, w).job.recipients|
    ensures CanStep(env, s, s1) && CanStep(env, s1, s2)
    ensures var job := WorkerAt(s, w).job;
      var p := JobPath(job, job.index);
      && s2.workers == s.workers[w := InRow(job, Fetched(RowOf(job, 0), At(s, p).cell, now))]
      && forall q :: At(s2, q) == At(s, q)
  {
    hide AfterFetch;
    var job := WorkerAt(s, w).job;
    var p, row := JobPath(job, job.index), RowOf(job, now);
    s1 := Step(env, s, ReadClock(w, now));
    assert CanStep(env, s, s1);
    assert At(s1, p) == At(s, p) && WorkerAt(s1, w) == InRow(job, Fetching(row));
    s2 := Step(env, s1, ReadReceipt(w, false));
    assert CanStep(env, s1, s2);
    assert s2.workers == s.workers[w := InRow(job, Fetched(RowOf(job, 0), At(s, p).cell, now))];
  }

  /** With a write that commits, they are the three actions up to the first
      write of a row. */
  lemma RowWrites(env: Env, s: State, w: WorkerId, now: Instant, tag: ETag) returns (s1: State, s2: State, s': State)
    requires WorkerAt(s, w).Between? && WorkerAt(s, w).job.index < |WorkerAt(s, w).job.recipients|
    requires var p := JobPath(WorkerAt(s, w).job, WorkerAt(s, w).job.index);
      var row := RowOf(WorkerAt(s, w).job, 0);
      Fetched(row, At(s, p).cell, now).Uploading? && FreshTag(At(s, p), tag)
    ensures CanStep(env, s, s1) && CanStep(env, s1, s2) && CanStep(env, s2, s')
    ensures var job := WorkerAt(s, w).job;
      var p := JobPath(job, job.index);
      var pc := Fetched(RowOf(job, 0), At(s, p).cell, now);
      && At(s', p) == Write(At(s, p), pc.next, tag, w)
      && s'.workers == s.workers[w := InRow(job, Confirming(pc.row, pc.purpose, pc.next, tag))]
  {
    hide AfterFetch, CanStep;
    s1, s2 := RowReads(env, s, w, now);
    var job := WorkerAt(s, w).job;
    var p := JobPath(job, job.index);
    var l, pc := At(s, p), Fetched(RowOf(job, 0), At(s, p).cell, now);
    assert WorkerAt(s2, w) == InRow(job, pc) && At(s2, p) == l;
    UploadsOverWhatItRead(RowOf(job, now), l);
    var a := Upload(w, true, tag, ReportedOk);
    assert Enabled(env, s2, a);
    s' := Step(env, s2, a);
    StepIsStep(env, s2, a);
    assert s'.workers == s.workers[w := InRow(job, Confirming(pc.row, pc.purpose, pc.next, tag))];
  }

  lemma StepIsStep(env: Env, s: State, a: Label)
    requires Enabled(env, s, a)
    ensures CanStep(env, s, Step(env, s, a))
  {}

  lemma UploadsOverWhatItRead(row: Row, l: Ledger)
    ensures var pc := AfterFetch(row, ReadCell(l, false)); pc.Uploading? ==> ConditionHolds(l, pc.base)
  {}

  /** A delivery that comes to a movable path can write there, in every reachable
      state, whoever else is at work. */
  lemma MovableCanMove(env: Env, s: State, w: WorkerId) returns (s1: State, s2: State, s': State)
    requires ValidEnv(env) && Inv(env, s)
    requires WorkerAt(s, w).Between? && WorkerAt(s, w).job.index < |WorkerAt(s, w).job.recipients|
    requires var job := WorkerAt(s, w).job; Movable(RowOf(job, 0), At(s, JobPath(job, job.index)).cell)
    ensures CanStep(env, s, s1) && CanStep(env, s1, s2) && CanStep(env, s2, s')
    ensures var job := WorkerAt(s, w).job;
      |At(s', JobPath(job, job.index)).commits| == |At(s, JobPath(job, job.index)).commits| + 1
  {
    hide LedgerInv, FullyScanned, CanStep, Movable, Fetched, MovingTime;
    var job := WorkerAt(s, w).job;
    var p, row := JobPath(job, job.index), RowOf(job, 0);
    assert WorkerInv(env, s, w, WorkerAt(s, w)) && LedgerInv(p, env.limit, At(s, p));
    if At(s, p).cell.Some? { CellHasShape(p, env.limit, At(s, p)); }
    WritesExactlyWhenMovable(row, At(s, p).cell, env.limit);
    var tag := FreshTagExists(At(s, p));
    s1, s2, s' := RowWrites(env, s, w, MovingTime(row, At(s, p).cell), tag);
  }

  lemma CellHasShape(p: Path, limit: int, l: Ledger)
    requires LedgerInv(p, limit, l) && l.cell.Some?
    ensures Shape(l.cell.value.receipt, limit)
  {}

  /** A claim that nobody holds, met by a delivery with the whole budget at a time
      that can be stored, is lost if and only if it has used up that budget. */
  lemma LostExactlyAtLimit(env: Env, s: State, w: WorkerId)
    requires ValidEnv(env) && Inv(env, s)
    requires WorkerAt(s, w).Between? && WorkerAt(s, w).job.index < |WorkerAt(s, w).job.recipients|
    requires var job := WorkerAt(s, w).job;
      var p := JobPath(job, job.index);
      && job.options.maxAttempts == env.limit && Unheld(s, p)
      && var r := At(s, p).cell.value.receipt;
         && r.status == Claimed && ReceiptMatches(r, RowOf(job, 0)) && r.claimedAt.Some?
         && Representable(ParseTime(r.claimedAt.value) + job.options.claimTimeout)
    ensures var p := JobPath(WorkerAt(s, w).job, WorkerAt(s, w).job.index);
      Orphaned(env, s, p) <==> !ThreeStepsMove(env, s, p)
  {
    hide Inv, CanStep, HeldBy, ReceiptMatches;
    var p := JobPath(WorkerAt(s, w).job, WorkerAt(s, w).job.index);
    if Orphaned(env, s, p) {
      forall s1, s2, s' | CanStep(env, s, s1) && CanStep(env, s1, s2) && CanStep(env, s2, s')
        ensures At(s', p) == At(s, p)
      {
        OrphanMoves(env, s, s1, p);
        StepKeepsInv(env, s, s1);
        OrphanMoves(env, s1, s2, p);
        StepKeepsInv(env, s1, s2);
        OrphanMoves(env, s2, s', p);
      }
    } else {
      var s1, s2, s' := MovableCanMove(env, s, w);
      assert At(s', p) != At(s, p);
    }
  }

  /** Some three actions change the path. */
  ghost predicate ThreeStepsMove(env: Env, s: State, p: Path) {
    exists s1, s2, s' ::
      CanStep(env, s, s1) && CanStep(env, s1, s2) && CanStep(env, s2, s') && At(s', p) != At(s, p)
  }

  // ---- How it comes about ------------------------------------------------------------

  /** A delivery that is taken with the whole attempt budget and whose batch is
      in order. */
  ghost predicate Deliverable(env: Env, d: Delivery) {
    && ValidOptions(d.options) && d.options.maxAttempts == env.limit && d.options.keyVersion != ""
    && var q := Prepare(env, d, Arrived, Arrived, true, true);
       q.Ready? && q.job.recipients != [] && q.job.message.core.wellFormed
  }

  function JobOf(env: Env, d: Delivery): (job: Job)
    requires Deliverable(env, d)
    ensures job.index == 0 && job.options == d.options && job.recipients != []
  {
    Prepare(env, d, Arrived, Arrived, true, true).job
  }

  /** Clock readings far enough apart for each claim to be stale at the next. */
  function Tick(timeout: Duration, k: nat): Instant { k * (timeout + SECOND) }

  lemma TicksAreFine(timeout: Duration, k: nat)
    requires 0 < timeout <= MAX_INT64 && k <= MAX_ATTEMPTS
    ensures Representable(Tick(timeout, k))
    ensures ParseTime(FormatTime(Tick(timeout, k))) + timeout <= Tick(timeout, k + 1)
  {
    assert Tick(timeout, k + 1) == Tick(timeout, k) + timeout + SECOND;
    assert 0 <= k * (timeout + SECOND) <= MAX_ATTEMPTS * (MAX_INT64 + SECOND) by {
      assert k * (timeout + SECOND) <= MAX_ATTEMPTS * (timeout + SECOND);
    }
  }

  /** All workers are gone, and the row's receipt is claim number `k`. */
  ghost predicate Deserted(env: Env, d: Delivery, s: State, k: nat)
    requires Deliverable(env, d)
  {
    var job := JobOf(env, d);
    && (forall w :: WorkerAt(s, w).Idle?)
    && var l := At(s, JobPath(job, 0));
       if k == 0 then l == EMPTY
       else
         && l.cell.Some? && l.cell.value.receipt.status == Claimed && l.cell.value.receipt.attempt == k
         && l.cell.value.receipt.claimedAt == Some(FormatTime(Tick(d.options.claimTimeout, k)))
         && ReceiptMatches(l.cell.value.receipt, RowOf(job, 0))
  }

  lemma Extend(env: Env, run: seq<State>, s': State) returns (longer: seq<State>)
    requires IsRun(env, run) && CanStep(env, run[|run| - 1], s')
    ensures IsRun(env, longer) && longer[|longer| - 1] == s'
  {
    hide CanStep;
    longer := run + [s'];
    forall i | 0 < i < |longer|
      ensures CanStep(env, longer[i - 1], longer[i])
    {
      if i < |run| { assert CanStep(env, run[i - 1], run[i]); }
    }
  }

  /** What the row writes when it comes to the deserted path. */
  lemma NextClaim(env: Env, d: Delivery, s: State, k: nat)
    requires ValidEnv(env) && Deliverable(env, d) && Deserted(env, d, s, k) && k < env.limit
    requires Inv(env, s)
    ensures var job := JobOf(env, d);
      var row, now := RowOf(job, 0), Tick(d.options.claimTimeout, k + 1);
      var pc := Fetched(row, At(s, JobPath(job, 0)).cell, now);
      && pc.Uploading? && pc.next.status == Claimed && pc.next.attempt == k + 1
      && pc.next.claimedAt == Some(FormatTime(now)) && ReceiptMatches(pc.next, row)
  {
    hide LedgerInv, Prepare;
    var job := JobOf(env, d);
    var p, row, now := JobPath(job, 0), RowOf(job, 0), Tick(d.options.claimTimeout, k + 1);
    TicksAreFine(d.options.claimTimeout, k);
    TicksAreFine(d.options.claimTimeout, k + 1);
    if k == 0 {
      ClaimIsFirst(IntentOf(row), now, env.limit);
    } else {
      assert LedgerInv(p, env.limit, At(s, p));
      CellHasShape(p, env.limit, At(s, p));
      RecoverClaimSteps(At(s, p).cell.value.receipt, now, d.options.claimTimeout, env.limit, env.limit);
    }
  }

  /** One round: the message is delivered, the worker claims and crashes. */
  lemma Round(env: Env, d: Delivery, run: seq<State>, k: nat) returns (longer: seq<State>)
    requires ValidEnv(env) && Deliverable(env, d) && IsRun(env, run) && k < env.limit
    requires Deserted(env, d, run[|run| - 1], k)
    ensures IsRun(env, longer) && Deserted(env, d, longer[|longer| - 1], k + 1)
  {
    hide CanStep, Prepare, Fetched, ReceiptMatches, Inv;
    var s, job := run[|run| - 1], JobOf(env, d);
    var p, now := JobPath(job, 0), Tick(d.options.claimTimeout, k + 1);
    Reachable(env, run, |run| - 1);
    NextClaim(env, d, s, k);
    var s0 := Arrive(env, d, s);
    var tag := FreshTagExists(At(s, p));
    var s1, s2, s3 := RowWrites(env, s0, 0, now, tag);
    var s4 := Step(env, s3, Crash(0));
    StepIsStep(env, s3, Crash(0));
    longer := Extend(env, run, s0);
    longer := Extend(env, longer, s1);
    longer := Extend(env, longer, s2);
    longer := Extend(env, longer, s3);
    longer := Extend(env, longer, s4);
    assert At(s4, p) == At(s3, p);
    forall w
      ensures WorkerAt(s4, w).Idle?
    {
      assert WorkerAt(s, w).Idle?;
    }
  }

  lemma Arrive(env: Env, d: Delivery, s: State) returns (s': State)
    requires Deliverable(env, d) && forall w :: WorkerAt(s, w).Idle?
    ensures CanStep(env, s, s') && s' == State(s.ledgers, s.workers[0 := Between(JobOf(env, d))])
  {
    hide Prepare;
    var a := Receive(0, d, Arrived, Arrived, true, true);
    assert WorkerAt(s, 0).Idle?;
    s' := Step(env, s, a);
    StepIsStep(env, s, a);
  }

  lemma {:induction false} Rounds(env: Env, d: Delivery, k: nat) returns (run: seq<State>)
    requires ValidEnv(env) && Deliverable(env, d) && k <= env.limit
    ensures IsRun(env, run) && Deserted(env, d, run[|run| - 1], k)
  {
    hide Deliverable, CanStep;
    if k == 0 {
      run := [INITIAL];
    } else {
      run := Rounds(env, d, k - 1);
      run := Round(env, d, run, k - 1);
    }
  }

  /** Whatever the attempt limit and whatever the message: workers that claim its
      first row and crash, as often as the limit allows, leave it orphaned. */
  lemma CrashesOrphan(env: Env, d: Delivery) returns (run: seq<State>)
    requires ValidEnv(env) && Deliverable(env, d)
    ensures IsRun(env, run) && Orphaned(env, run[|run| - 1], JobPath(JobOf(env, d), 0))
  {
    hide CanStep, Prepare;
    run := Rounds(env, d, env.limit);
    var s, p := run[|run| - 1], JobPath(JobOf(env, d), 0);
    forall w
      ensures !HeldBy(WorkerAt(s, w), p, At(s, p).cell.value.etag)
    {
      assert WorkerAt(s, w).Idle?;
    }
  }

  /** There are such messages, for every limit. */
  lemma SomeDelivery(limit: int) returns (env: Env, d: Delivery)
    requires 1 <= limit <= MAX_ATTEMPTS
    ensures ValidEnv(env) && env.limit == limit && Deliverable(env, d)
  {
    var core := Message("o", "r", "v", "m", true);
    var row := Batches.Recipient("e", "f", "l");
    var none: Option<Batches.Recipient> := None;
    env := Env((body: string, id: string) => Some(QueueMessage(core, "c", 0, 1, 1)),
               (text: string) => Some(Manifest("o", "r", "v", "c")),
               (text: string) => if text == "x" then Some(row) else none,
               (key: string, email: string) => "id", map[0 := "", 1 := "x\n"], limit);
    d := Delivery("", "", Options("k", "p", limit, SECOND), "");
    OneLine(env.parseRecipient, row);
    assert env.content[1] == "x\n";
  }

  lemma OneLine(parse: string -> Option<Batches.Recipient>, row: Batches.Recipient)
    requires parse("x") == Some(row)
    ensures Batches.ScanBatch(parse, "x\n") == Some([row])
  {
    var s := "x\n";
    Batches.FirstLine("x", "");
    assert "x" + ['\n'] + "" == s;
    assert s[..1] == "x";
    Batches.ScanOne(parse, s);
    assert Batches.DropCr("x") == "x";
    assert s[2..] == "";
    Batches.EmptyScan(parse);
    assert [row] + [] == [row];
  }
}
