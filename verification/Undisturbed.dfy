/** The worker as it is written is a run of the concurrent system: a row, and a
    whole delivery, that nobody disturbs is a sequence of the system's actions,
    call by call, and leaves the same receipts, results and mail calls. */
module Undisturbed {
  import opened Basics
  import opened Receipts
  import opened Mail
  import opened RowProtocol
  import opened Ledgers
  import opened Journal
  import opened Sequential
  import opened Progress
  import opened Outcomes
  import opened Orphans

  /** The path holds what `cells` says, and no ETag from `tag` on was ever used. */
  ghost predicate Mirrors(l: Ledger, cells: Cells, p: Path, tag: ETag) {
    l.cell == CellAt(cells, p) && forall i | 0 <= i < |l.commits| :: l.commits[i].etag < tag
  }

  /** Only worker `w` and path `p` have moved from `s` to `s'`. */
  ghost predicate Alone(s: State, s': State, w: WorkerId, p: Path) {
    && (forall q | q != p :: At(s', q) == At(s, q))
    && (forall v | v != w :: WorkerAt(s', v) == WorkerAt(s, v))
  }

  /** One action of worker `w` inside its row. */
  lemma Act(env: Env, run: seq<State>, a: Label) returns (longer: seq<State>)
    requires IsRun(env, run) && Enabled(env, run[|run| - 1], a) && !a.Linger?
    requires WorkerAt(run[|run| - 1], a.w).InRow?
    ensures IsRun(env, longer)
    ensures var s, s' := run[|run| - 1], longer[|longer| - 1];
      var p := PathOf(WorkerAt(s, a.w).pc.row);
      && WorkerAt(s', a.w) == WorkerStep(env, s, a) && At(s', p) == LedgerStep(s, a, At(s, p)) && Alone(s, s', a.w, p)
  {
    hide CanStep, WorkerStep, LedgerStep, Enabled;
    var s := run[|run| - 1];
    StepIsStep(env, s, a);
    longer := Extend(env, run, Step(env, s, a));
  }

  lemma AloneTwice(s: State, s1: State, s2: State, w: WorkerId, p: Path)
    requires Alone(s, s1, w, p) && Alone(s1, s2, w, p)
    ensures Alone(s, s2, w, p)
  {}

  /** The action that the worker takes next, if nobody disturbs it. */
  function NextAction(cells: Cells, tag: ETag, w: WorkerId, pc: Pc, answer: MailResult): Label
    requires !pc.RowDone?
  {
    match pc
    case Fetching(_) => ReadReceipt(w, false)
    case Refetching(_) => ReadReceipt(w, false)
    case Confirming(_, _, _, _) => ReadReceipt(w, false)
    case Uploading(row, _, base, _) =>
      if Replaceable(cells, PathOf(row), base) then Upload(w, true, tag, ReportedOk)
      else Upload(w, false, tag, ReportedConflict)
    case Mailing(_, _) => CallMail(w)
    case Awaiting(_, _, _) => AnswerMail(w, answer)
  }

  /** What that action does to the mirrored store, and what is left of the row. */
  lemma OneAction(env: Env, s: State, w: WorkerId, job: Job, pc: Pc, cells: Cells, tag: ETag, answer: MailResult)
    returns (cells': Cells, tag': ETag)
    requires WorkerAt(s, w) == InRow(job, pc) && !pc.RowDone?
    requires Mirrors(At(s, PathOf(pc.row)), cells, PathOf(pc.row), tag)
    ensures var a, p := NextAction(cells, tag, w, pc, answer), PathOf(pc.row);
      && a.w == w && Enabled(env, s, a) && !a.Linger?
      && var y, l, l' := WorkerStep(env, s, a), At(s, p), LedgerStep(s, a, At(s, p));
         && y.InRow? && y.job == job && y.pc.row == pc.row && CallsLeft(y.pc) < CallsLeft(pc)
         && Mirrors(l', cells', p, tag') && tag <= tag'
         && |l'.sends| == |l.sends| + (if pc.Mailing? then 1 else 0)
         && (forall q | q != p :: CellAt(cells', q) == CellAt(cells, q))
         && var e := Drive(cells', tag', y.pc, answer);
            Drive(cells, tag, pc, answer) == if pc.Mailing? then e.(calls := [p] + e.calls) else e
  {
    hide AfterFetch, AfterRefetch, AfterConfirm, AfterPutError, AfterMail, Prepare, AfterRow;
    var p := PathOf(pc.row);
    cells', tag' := cells, tag;
    match pc
    case Fetching(row) => ReadLeaves(cells, row);
    case Refetching(row) => ReadLeaves(cells, row);
    case Confirming(row, purpose, next, _) => ConfirmLeaves(row, purpose, next, ReadAt(cells, p));
    case Uploading(row, purpose, base, next) =>
      ErrorLeaves(row, purpose);
      if Replaceable(cells, p, base) {
        cells', tag' := cells[p := Stored(next, tag)], tag + 1;
      }
    case Mailing(row, stored) =>
      assert Drive(cells, tag, Awaiting(row, stored, 0), answer)
          == Drive(cells, tag, AfterMail(row, stored, answer), answer);
    case Awaiting(row, stored, _) => AnswerLeaves(row, stored, answer);
  }

  lemma ReadLeaves(cells: Cells, row: Row)
    ensures CallsLeft(AfterFetch(row, ReadAt(cells, PathOf(row)))) < 20
    ensures CallsLeft(AfterRefetch(row, ReadAt(cells, PathOf(row)))) < 14
  {}

  lemma ConfirmLeaves(row: Row, purpose: Purpose, next: Receipt, read: Read)
    ensures CallsLeft(AfterConfirm(row, purpose, next, read)) < UploadRank(purpose) - 1
  {}

  lemma ErrorLeaves(row: Row, purpose: Purpose)
    ensures CallsLeft(AfterPutError(row, purpose, true)) < UploadRank(purpose)
  {}

  lemma AnswerLeaves(row: Row, stored: Stored, answer: MailResult)
    ensures CallsLeft(AfterMail(row, stored, answer)) < 5
  {}

  // ---- A row -----------------------------------------------------------------------------

  /** The row protocol run alone is a run of the system: same receipt, same result,
      and as many mail calls at its path. */
  lemma {:induction false} RowRuns(env: Env, run: seq<State>, w: WorkerId, job: Job, pc: Pc, cells: Cells, tag: ETag,
                                   answer: MailResult)
    returns (longer: seq<State>)
    requires IsRun(env, run) && WorkerAt(run[|run| - 1], w) == InRow(job, pc)
    requires Mirrors(At(run[|run| - 1], PathOf(pc.row)), cells, PathOf(pc.row), tag)
    ensures IsRun(env, longer)
    ensures var s, s', p := run[|run| - 1], longer[|longer| - 1], PathOf(pc.row);
      var e := Drive(cells, tag, pc, answer);
      && WorkerAt(s', w) == InRow(job, RowDone(pc.row, e.result)) && Alone(s, s', w, p)
      && Mirrors(At(s', p), e.cells, p, e.tag) && tag <= e.tag
      && |At(s', p).sends| == |At(s, p).sends| + |e.calls| && (forall i | 0 <= i < |e.calls| :: e.calls[i] == p)
      && (forall q | q != p :: CellAt(e.cells, q) == CellAt(cells, q))
    decreases CallsLeft(pc)
  {
    hide CanStep, Enabled, WorkerStep, LedgerStep, NextAction, Mirrors;
    var s, p := run[|run| - 1], PathOf(pc.row);
    if pc.RowDone? {
      DoneDrives(cells, tag, pc.row, pc.result, answer);
      longer := run;
    } else {
      hide Drive;
      var a := NextAction(cells, tag, w, pc, answer);
      var cells1, tag1 := OneAction(env, s, w, job, pc, cells, tag, answer);
      var one := Act(env, run, a);
      var s1 := one[|one| - 1];
      longer := RowRuns(env, one, w, job, WorkerAt(s1, w).pc, cells1, tag1, answer);
      AloneTwice(s, s1, longer[|longer| - 1], w, p);
    }
  }

  // ---- A delivery ------------------------------------------------------------------------

  function BatchOf(job: Job): Batch { Batch(job.message.core, job.options, job.recipients) }

  /** The paths of the batch hold what `cells` says. */
  ghost predicate MirrorsAll(s: State, b: Batch, cells: Cells, tag: ETag) {
    forall j | 0 <= j < |b.ids| :: Mirrors(At(s, PathAt(b, j)), cells, PathAt(b, j), tag)
  }

  /** The mail calls at the batch's paths have grown by `calls`. */
  ghost predicate Called(s: State, s': State, b: Batch, calls: seq<Path>) {
    forall j | 0 <= j < |b.ids| ::
      |At(s', PathAt(b, j)).sends| == |At(s, PathAt(b, j)).sends| + multiset(calls)[PathAt(b, j)]
  }

  lemma OnlyOne(calls: seq<Path>, p: Path, q: Path)
    requires forall i | 0 <= i < |calls| :: calls[i] == p
    ensures multiset(calls)[q] == if q == p then |calls| else 0
  {
    if calls != [] {
      assert calls == [calls[0]] + calls[1..];
      OnlyOne(calls[1..], p, q);
      OneMoreCounted(calls[0], calls[1..], q);
    }
  }

  /** An action outside rows: the clock, the end of the rows, or a finished row. */
  lemma OutsideRow(env: Env, run: seq<State>, a: Label) returns (longer: seq<State>)
    requires IsRun(env, run) && Enabled(env, run[|run| - 1], a) && (a.ReadClock? || a.EndOfRows? || a.FinishRow?)
    ensures IsRun(env, longer)
    ensures var s, s' := run[|run| - 1], longer[|longer| - 1];
      && WorkerAt(s', a.w) == WorkerStep(env, s, a)
      && (forall q :: At(s', q) == At(s, q)) && (forall v | v != a.w :: WorkerAt(s', v) == WorkerAt(s, v))
  {
    hide CanStep, WorkerStep;
    var s := run[|run| - 1];
    StepIsStep(env, s, a);
    longer := Extend(env, run, Step(env, s, a));
  }

  /** One row of the loop, from the clock reading to the count. */
  lemma RowTurns(env: Env, run: seq<State>, w: WorkerId, job: Job, cells: Cells, tag: ETag, now: Instant,
                 answer: MailResult)
    returns (longer: seq<State>)
    requires IsRun(env, run) && WorkerAt(run[|run| - 1], w) == Between(job) && job.index < |job.recipients|
    requires MirrorsAll(run[|run| - 1], BatchOf(job), cells, tag)
    ensures IsRun(env, longer)
    ensures var s, s', b := run[|run| - 1], longer[|longer| - 1], BatchOf(job);
      var e := Drive(cells, tag, Fetching(RowAt(b, job.index, now)), answer);
      && WorkerAt(s', w) == AfterRow(job, e.result)
      && MirrorsAll(s', b, e.cells, e.tag) && Called(s, s', b, e.calls)
  {
    hide CanStep, Drive, AfterRow, Prepare;
    var s, b := run[|run| - 1], BatchOf(job);
    var row := RowAt(b, job.index, now);
    assert row == RowOf(job, now);
    var p := PathAt(b, job.index);
    var e := Drive(cells, tag, Fetching(row), answer);
    longer := OutsideRow(env, run, ReadClock(w, now));
    var s1 := longer[|longer| - 1];
    longer := RowRuns(env, longer, w, job, Fetching(row), cells, tag, answer);
    var s2 := longer[|longer| - 1];
    longer := OutsideRow(env, longer, FinishRow(w));
    var s3 := longer[|longer| - 1];
    forall j | 0 <= j < |b.ids|
      ensures Mirrors(At(s3, PathAt(b, j)), e.cells, PathAt(b, j), e.tag)
      ensures |At(s3, PathAt(b, j)).sends| == |At(s, PathAt(b, j)).sends| + multiset(e.calls)[PathAt(b, j)]
    {
      OnlyOne(e.calls, p, PathAt(b, j));
      assert Mirrors(At(s, PathAt(b, j)), cells, PathAt(b, j), tag);
    }
  }

  lemma CalledTwice(s: State, s1: State, s2: State, b: Batch, x: seq<Path>, y: seq<Path>)
    requires Called(s, s1, b, x) && Called(s1, s2, b, y)
    ensures Called(s, s2, b, x + y)
  {
    assert multiset(x + y) == multiset(x) + multiset(y);
  }

  /** A delivery that nobody disturbs, from the rows still to come, is a run of the
      system: it is settled with the same result, leaves the same receipts, and
      makes the same mail calls. */
  lemma {:induction false} DeliveryRuns(env: Env, run: seq<State>, w: WorkerId, job: Job, cells: Cells, tag: ETag,
                                        world: World)
    returns (longer: seq<State>)
    requires IsRun(env, run) && WorkerAt(run[|run| - 1], w) == Between(job) && job.index <= |job.recipients|
    requires MirrorsAll(run[|run| - 1], BatchOf(job), cells, tag)
    ensures IsRun(env, longer)
    ensures var s, s', b := run[|run| - 1], longer[|longer| - 1], BatchOf(job);
      var e := Deliver(cells, tag, b, world, job.index, job.processed, job.skipped);
      && MirrorsAll(s', b, e.cells, e.tag) && Called(s, s', b, e.calls)
      && var x := WorkerAt(s', w);
         && x.Settled? && x.result.disposition == e.disposition && x.result.reason == e.reason
         && x.result.processed == e.processed && x.result.skipped == e.skipped
    decreases |job.recipients| - job.index
  {
    hide CanStep, Drive, Deliver, After, MirrorsAll, Called;
    var s, b, i := run[|run| - 1], BatchOf(job), job.index;
    var all := Deliver(cells, tag, b, world, i, job.processed, job.skipped);
    AfterNothing(all);
    if i == |job.recipients| {
      NoMoreRows(all, [], cells, tag, b, world, job.processed, job.skipped);
      longer := OutsideRow(env, run, EndOfRows(w));
      Unmoved(s, longer[|longer| - 1], b, cells, tag);
    } else {
      var now, answer := world.clock(i), world.answer(i);
      var e := Drive(cells, tag, Fetching(RowAt(b, i, now)), answer);
      RowDelivers(all, [], cells, tag, b, world, i, job.processed, job.skipped);
      assert [] + e.calls == e.calls;
      longer := RowTurns(env, run, w, job, cells, tag, now, answer);
      var s1 := longer[|longer| - 1];
      if e.result.Skipped? || e.result.disposition == Complete {
        var job' := WorkerAt(s1, w).job;
        longer := DeliveryRuns(env, longer, w, job', e.cells, e.tag, world);
        var rest := Deliver(e.cells, e.tag, b, world, i + 1, job'.processed, job'.skipped);
        CalledTwice(s, s1, longer[|longer| - 1], b, e.calls, rest.calls);
        AfterMeans(all, e.calls, rest);
      }
    }
  }

  lemma AfterMeans(all: End, calls: seq<Path>, rest: End)
    requires After(all, calls, rest)
    ensures all == rest.(calls := calls + rest.calls)
  {}

  lemma Unmoved(s: State, s': State, b: Batch, cells: Cells, tag: ETag)
    requires MirrorsAll(s, b, cells, tag) && forall q :: At(s', q) == At(s, q)
    ensures MirrorsAll(s', b, cells, tag) && Called(s, s', b, [])
  {}

  // ---- Mails are sent ----------------------------------------------------------------------

  /** Every message that can be delivered is delivered: with a provider that takes
      every mail and a clock that can be stored, there is a run of the system, from
      the empty one, in which a worker reports the message Complete; every row has a
      delivered receipt, and exactly one mail call was made for each recipient. */
  lemma MailIsSent(env: Env, d: Delivery, world: World) returns (run: seq<State>, w: WorkerId)
    requires ValidEnv(env) && Orphans.Deliverable(env, d)
    requires forall j: nat :: Representable(world.clock(j)) && IsTaken(world.answer(j))
    ensures IsRun(env, run)
    ensures var s, job := run[|run| - 1], JobOf(env, d);
      && WorkerAt(s, w).Settled? && WorkerAt(s, w).result.disposition == Complete
      && WorkerAt(s, w).result.processed + WorkerAt(s, w).result.skipped == |job.recipients|
      && forall j | 0 <= j < |job.recipients| ::
           Delivered(At(s, JobPath(job, j))) && |At(s, JobPath(job, j)).sends| == 1
  {
    hide CanStep, Prepare, Deliver, IsTaken, Representable, Shape;
    w := 0;
    run := [INITIAL];
    var s0 := Arrive(env, d, INITIAL);
    run := Extend(env, run, s0);
    var job := JobOf(env, d);
    var b := BatchOf(job);
    DeliverableJob(env, d);
    run := DeliveryRuns(env, run, w, job, map[], 0, world);
    TakenBatchCompletes(b, map[], 0, world);
    var s := run[|run| - 1];
    forall j | 0 <= j < |job.recipients|
      ensures Delivered(At(s, JobPath(job, j))) && |At(s, JobPath(job, j)).sends| == 1
    {
      assert JobPath(job, j) == PathAt(b, j);
      assert DoneAt(b, Deliver(map[], 0, b, world, 0, 0, 0).cells, j);
      assert Mirrors(At(s, PathAt(b, j)), Deliver(map[], 0, b, world, 0, 0, 0).cells, PathAt(b, j),
                     Deliver(map[], 0, b, world, 0, 0, 0).tag);
    }
  }

  lemma DeliverableJob(env: Env, d: Delivery)
    requires Orphans.Deliverable(env, d)
    ensures var job := JobOf(env, d);
      && job.processed == 0 && job.skipped == 0 && job.index == 0
      && ValidOptions(job.options) && job.message.core.wellFormed && job.options.keyVersion != ""
  {}
}
