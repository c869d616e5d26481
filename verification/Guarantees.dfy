/** What the notification system promises in every run of Journal.dfy. */
module Guarantees {
  import opened Basics
  import opened Receipts
  import opened Mail
  import opened RowProtocol
  import opened Ledgers
  import opened Journal

  // ---- No blind resend ------------------------------------------------------

  /** The call was answered with an explicit transient response, and the very
      next write at its path recorded that response. */
  ghost predicate Retried(l: Ledger, s: Send) {
    && s.result.Some? && s.result.value.outcome == MailRetryable
    && 1 <= s.version < |l.commits|
    && var start, next := l.commits[s.version - 1].receipt, l.commits[s.version].receipt;
       && start.status == SendStarted && next.status == Retryable
       && next.httpStatus == Some(s.result.value.httpStatus)
       && next.attempt == start.attempt
  }

  ghost predicate NoBlindResend(l: Ledger) {
    forall k | 0 <= k < |l.sends| - 1 :: Retried(l, l.sends[k])
  }

  /** One call per version: the answered one is this one. */
  lemma AnsweredIsThis(l: Ledger, k: nat, r: Receipt)
    requires SendsOrdered(l) && k < |l.sends| && AnsweredAs(l, l.sends[k].version, r)
    ensures l.sends[k].result.Some? && Records(r, l.sends[k].result.value)
  {
    hide OwnStart, Records;
    var j :| 0 <= j < |l.sends| && l.sends[j].version == l.sends[k].version
             && l.sends[j].result.Some? && Records(r, l.sends[j].result.value);
    assert j == k;
  }

  lemma LedgerNeverResends(p: Path, limit: int, l: Ledger)
    requires LedgerInv(p, limit, l)
    ensures NoBlindResend(l)
  {
    hide Chain, Backed, CellIsLast, AnsweredAs;
    forall k | 0 <= k < |l.sends| - 1
      ensures Retried(l, l.sends[k])
    {
      var v := l.sends[k].version;
      assert OwnStart(l, l.sends[k]) && OwnStart(l, l.sends[k + 1]);
      OvertakenWasSent(p, limit, l, v, k + 1);
      AnsweredIsThis(l, k, l.commits[v].receipt);
    }
  }

  /** In every state of every run, for every receipt path, each mail call except
      possibly the last was answered as retryable and durably recorded so. */
  lemma NoBlindResendEver(env: Env, run: seq<State>, i: nat, p: Path)
    requires ValidEnv(env) && IsRun(env, run) && i < |run|
    ensures NoBlindResend(At(run[i], p))
  {
    hide LedgerInv, IsRun;
    Reachable(env, run, i);
    LedgerNeverResends(p, env.limit, At(run[i], p));
  }

  /** Accepted, refused for good, ambiguous, or still unanswered. */
  predicate Decisive(s: Send) { s.result.None? || s.result.value.outcome != MailRetryable }

  /** So at most one call per path is ever anything but an explicit retry. */
  lemma AtMostOneDecisiveCall(env: Env, run: seq<State>, i: nat, p: Path, j: nat, k: nat)
    requires ValidEnv(env) && IsRun(env, run) && i < |run|
    requires j < |At(run[i], p).sends| && Decisive(At(run[i], p).sends[j])
    requires k < |At(run[i], p).sends| && Decisive(At(run[i], p).sends[k])
    ensures j == k
  {
    hide IsRun;
    NoBlindResendEver(env, run, i, p);
    var l := At(run[i], p);
    forall m | 0 <= m < |l.sends| - 1
      ensures !Decisive(l.sends[m])
    {
      assert Retried(l, l.sends[m]);
    }
  }

  /** A call starts only when every earlier call at its path has been answered:
      calls to one recipient never overlap. */
  lemma CallsNeverOverlap(env: Env, run: seq<State>, i: nat, w: WorkerId)
    requires ValidEnv(env) && IsRun(env, run) && i < |run|
    requires Enabled(env, run[i], CallMail(w))
    ensures var l := At(run[i], PathOf(WorkerAt(run[i], w).pc.row));
      forall k | 0 <= k < |l.sends| :: Retried(l, l.sends[k])
  {
    hide LedgerInv, IsRun;
    var x := WorkerAt(run[i], w);
    var p := PathOf(x.pc.row);
    var l := At(run[i], p);
    Reachable(env, run, i);
    assert WorkerInv(env, run[i], w, x);
    CallKeeps(p, env.limit, l, w, x.pc.row, x.pc.stored);
    var l' := CallMailer(l, x.pc.stored.receipt.version, w);
    LedgerNeverResends(p, env.limit, l');
    forall k | 0 <= k < |l.sends|
      ensures Retried(l, l.sends[k])
    {
      assert Retried(l', l'.sends[k]);
    }
  }

  // ---- Bounded sends and writes ----------------------------------------------

  function AttemptOf(l: Ledger, k: nat): int
    requires k < |l.sends| && 1 <= l.sends[k].version <= |l.commits|
  {
    l.commits[l.sends[k].version - 1].receipt.attempt
  }

  lemma {:induction false} CallsSpendAttempts(p: Path, limit: int, l: Ledger, k: nat)
    requires LedgerInv(p, limit, l) && k < |l.sends|
    ensures OwnStart(l, l.sends[k]) && k + 1 <= AttemptOf(l, k) <= limit
  {
    hide Shape, Edge, Backed;
    assert OwnStart(l, l.sends[k]);
    AttemptInRange(p, limit, l.commits, l.sends[k].version - 1);
    if k > 0 {
      CallsSpendAttempts(p, limit, l, k - 1);
      AttemptGrows(p, limit, l.commits, l.sends[k - 1].version - 1, l.sends[k].version - 1);
    }
  }

  lemma AttemptInRange(p: Path, limit: int, c: seq<Commit>, i: nat)
    requires Chain(p, limit, c) && i < |c|
    ensures 1 <= c[i].receipt.attempt <= limit && i + 1 <= 3 * limit + 1
  {
    assert Shape(c[i].receipt, limit);
  }

  /** Every mail call is made by the author of its own committed SEND_STARTED,
      under an attempt number no other call at the path has, and there are never
      more calls than the attempt budget allows. */
  lemma CallsAreBounded(env: Env, run: seq<State>, i: nat, p: Path)
    requires ValidEnv(env) && IsRun(env, run) && i < |run|
    ensures var l := At(run[i], p);
      && |l.sends| <= env.limit
      && (forall k | 0 <= k < |l.sends| :: OwnStart(l, l.sends[k]))
      && (forall j, k | 0 <= j < k < |l.sends| :: AttemptOf(l, j) < AttemptOf(l, k))
  {
    hide LedgerInv, IsRun, Chain;
    Reachable(env, run, i);
    var l := At(run[i], p);
    assert LedgerInv(p, env.limit, l);
    LedgerBounds(p, env.limit, l);
  }

  lemma LedgerBounds(p: Path, limit: int, l: Ledger)
    requires LedgerInv(p, limit, l) && 1 <= limit
    ensures |l.sends| <= limit && |l.commits| <= 3 * limit + 1
    ensures forall k | 0 <= k < |l.sends| :: OwnStart(l, l.sends[k])
    ensures forall j, k | 0 <= j < k < |l.sends| :: AttemptOf(l, j) < AttemptOf(l, k)
  {
    hide Shape, Edge, Backed;
    if |l.sends| > 0 { CallsSpendAttempts(p, limit, l, |l.sends| - 1); }
    forall j, k | 0 <= j < k < |l.sends|
      ensures AttemptOf(l, j) < AttemptOf(l, k)
    {
      assert OwnStart(l, l.sends[j]) && OwnStart(l, l.sends[k]);
      AttemptGrows(p, limit, l.commits, l.sends[j].version - 1, l.sends[k].version - 1);
    }
    if |l.commits| > 0 {
      AttemptInRange(p, limit, l.commits, |l.commits| - 1);
    }
  }

  /** A path is written at most three times per attempt and once more. */
  lemma WritesAreBounded(env: Env, run: seq<State>, i: nat, p: Path)
    requires ValidEnv(env) && IsRun(env, run) && i < |run|
    ensures |At(run[i], p).commits| <= 3 * env.limit + 1
  {
    hide LedgerInv, IsRun;
    Reachable(env, run, i);
    LedgerBounds(p, env.limit, At(run[i], p));
  }

  // ---- The store refines one state machine per path ---------------------------

  /** Each write at a path strictly uses up the writes that were left, and the
      first leaves 3 * MaxAttempts. */
  lemma WritesAreSpent(env: Env, run: seq<State>, i: nat, p: Path, k: nat)
    requires ValidEnv(env) && IsRun(env, run) && i < |run| && k < |At(run[i], p).commits|
    ensures var c := At(run[i], p).commits;
      && 0 <= WritesLeft(c[k].receipt, env.limit) <= 3 * env.limit
      && (k == 0 ==> WritesLeft(c[k].receipt, env.limit) == 3 * env.limit)
      && (k + 1 < |c| ==> WritesLeft(c[k + 1].receipt, env.limit) < WritesLeft(c[k].receipt, env.limit))
  {
    hide IsRun;
    Reachable(env, run, i);
    var l := At(run[i], p);
    assert LedgerInv(p, env.limit, l);
    SpentAt(p, env.limit, l.commits, k);
  }

  lemma SpentAt(p: Path, limit: int, c: seq<Commit>, k: nat)
    requires Chain(p, limit, c) && k < |c|
    ensures 0 <= WritesLeft(c[k].receipt, limit) <= 3 * limit
    ensures k == 0 ==> WritesLeft(c[k].receipt, limit) == 3 * limit
    ensures k + 1 < |c| ==> WritesLeft(c[k + 1].receipt, limit) < WritesLeft(c[k].receipt, limit)
  {
    hide IntentAt;
    assert Shape(c[k].receipt, limit);
    if k + 1 < |c| {
      assert Shape(c[k + 1].receipt, limit);
      EdgeAt(p, limit, c, k);
      EdgeConsumesBudget(c[k].receipt, c[k + 1].receipt, limit);
    }
  }

  /** One step of the abstract machine: nothing, the first claim, or one edge. */
  ghost predicate Atomic(c: Option<Stored>, c': Option<Stored>) {
    || c' == c
    || (c.None? && c'.Some? && First(c'.value.receipt))
    || (c.Some? && c'.Some? && Edge(c.value.receipt, c'.value.receipt))
  }

  lemma LedgerStepExtends(env: Env, s: State, a: Label, p: Path)
    requires Enabled(env, s, a)
    ensures var l, l' := At(s, p), At(Step(env, s, a), p);
      || l'.commits == l.commits
      || (|l'.commits| == |l.commits| + 1 && l'.commits[..|l.commits|] == l.commits)
  {}

  /** However workers interleave, every action takes each path along at most one
      edge of the transition graph, and its history only grows. */
  lemma StepsAreAtomic(env: Env, run: seq<State>, i: nat, p: Path)
    requires ValidEnv(env) && IsRun(env, run) && i + 1 < |run|
    ensures Atomic(At(run[i], p).cell, At(run[i + 1], p).cell)
    ensures At(run[i], p).commits <= At(run[i + 1], p).commits
  {
    hide LedgerInv, Enabled, Step, Shape, Edge;
    var l, l' := At(run[i], p), At(run[i + 1], p);
    Reachable(env, run, i);
    Reachable(env, run, i + 1);
    assert CanStep(env, run[i], run[i + 1]) by { var j := i + 1; assert CanStep(env, run[j - 1], run[j]); }
    var a :| Enabled(env, run[i], a) && Step(env, run[i], a) == run[i + 1];
    LedgerStepExtends(env, run[i], a, p);
    assert LedgerInv(p, env.limit, l) && LedgerInv(p, env.limit, l');
    OneMoreIsAtomic(p, env.limit, l, l');
  }

  lemma OneMoreIsAtomic(p: Path, limit: int, l: Ledger, l': Ledger)
    requires LedgerInv(p, limit, l) && LedgerInv(p, limit, l')
    requires l'.commits == l.commits || (|l'.commits| == |l.commits| + 1 && l'.commits[..|l.commits|] == l.commits)
    ensures Atomic(l.cell, l'.cell) && l.commits <= l'.commits
  {
    var n := |l.commits|;
    if |l'.commits| == n + 1 && n > 0 {
      assert l'.commits[n - 1] == l'.commits[..n][n - 1] == l.commits[n - 1];
      EdgeAt(p, limit, l'.commits, n - 1);
    }
  }

  lemma {:induction false} HistoryGrows(env: Env, run: seq<State>, i: nat, j: nat, p: Path)
    requires ValidEnv(env) && IsRun(env, run) && i <= j < |run|
    ensures At(run[i], p).commits <= At(run[j], p).commits
  {
    hide IsRun;
    if i < j {
      HistoryGrows(env, run, i, j - 1, p);
      StepsAreAtomic(env, run, j - 1, p);
    }
  }

  /** The committed receipts of a path form a walk of the graph from the first
      claim, one version per write, with one identity throughout. */
  lemma CommitsWalkTheGraph(env: Env, run: seq<State>, i: nat, p: Path)
    requires ValidEnv(env) && IsRun(env, run) && i < |run|
    ensures var l := At(run[i], p);
      && (forall k | 0 <= k < |l.commits| :: l.commits[k].receipt.version == k + 1
                                             && Shape(l.commits[k].receipt, env.limit)
                                             && Valid(l.commits[k].receipt))
      && (|l.commits| > 0 ==> First(l.commits[0].receipt))
      && (forall k | 0 < k < |l.commits| :: Edge(l.commits[k - 1].receipt, l.commits[k].receipt))
      && (forall k | 0 <= k < |l.commits| :: l.commits[k].receipt.intent == l.commits[0].receipt.intent)
  {
    hide IsRun;
    Reachable(env, run, i);
    var l := At(run[i], p);
    assert LedgerInv(p, env.limit, l);
    forall k | 0 <= k < |l.commits|
      ensures l.commits[k].receipt.intent == l.commits[0].receipt.intent && Valid(l.commits[k].receipt)
    {
      OneIdentity(p, env.limit, l.commits, k);
      ShapeIsValid(l.commits[k].receipt, env.limit);
    }
  }

  lemma {:induction false} OneIdentity(p: Path, limit: int, c: seq<Commit>, k: nat)
    requires Chain(p, limit, c) && k < |c|
    ensures c[k].receipt.intent == c[0].receipt.intent
  {
    hide Shape;
    if k > 0 {
      OneIdentity(p, limit, c, k - 1);
      EdgeAt(p, limit, c, k - 1);
    }
  }

  /** Terminal receipts are absorbing: they are the blob for the rest of the run. */
  lemma TerminalForever(env: Env, run: seq<State>, i: nat, j: nat, p: Path)
    requires ValidEnv(env) && IsRun(env, run) && i <= j < |run|
    requires At(run[i], p).cell.Some? && IsTerminal(At(run[i], p).cell.value.receipt.status)
    ensures At(run[j], p).cell == At(run[i], p).cell
  {
    hide IsRun, Shape, Edge;
    Reachable(env, run, i);
    Reachable(env, run, j);
    HistoryGrows(env, run, i, j, p);
    var l, l' := At(run[i], p), At(run[j], p);
    assert LedgerInv(p, env.limit, l) && LedgerInv(p, env.limit, l');
    var n := |l.commits|;
    assert l'.commits[n - 1] == l.commits[n - 1];
    TerminalIsNewest(p, env.limit, l'.commits, n - 1);
  }

  // ---- Conditional writes --------------------------------------------------------

  /** If a conditional write returns a receipt to its worker, that receipt and
      its ETag are the worker's own upload, whatever was written in between. */
  lemma PutReturnsOwnUpload(env: Env, run: seq<State>, i: nat, w: WorkerId)
    requires ValidEnv(env) && IsRun(env, run) && i < |run|
    requires WorkerAt(run[i], w).InRow? && WorkerAt(run[i], w).pc.Confirming?
    ensures var pc := WorkerAt(run[i], w).pc;
      var read := ReadCell(At(run[i], PathOf(pc.row)), false);
      read.Found? && read.stored.receipt.version == pc.next.version ==>
        read.stored == Stored(pc.next, pc.own)
  {
    hide LedgerInv, IsRun, JobInv;
    var x := WorkerAt(run[i], w);
    var p := PathOf(x.pc.row);
    var l := At(run[i], p);
    var read := ReadCell(l, false);
    Reachable(env, run, i);
    assert WorkerInv(env, run[i], w, x);
    assert LedgerInv(p, env.limit, l);
    if read.Found? && read.stored.receipt.version == x.pc.next.version {
      ConfirmedIsOwn(p, env.limit, l, w, x.pc, read);
    }
  }

  // ---- Deliveries -----------------------------------------------------------------

  /** The cause for which a delivery that stood at `x` is settled as `r`: it is
      refused before its first row; all its rows are done; its batch broke off
      between two rows; or a row did not complete, and then it is settled with that
      row's disposition, reason and delay, and the row is counted. */
  ghost predicate SettledBy(x: Worker, r: ProcessResult) {
    || ((x.Idle? || x.Settled?) && r.disposition != Complete && r.processed == 0 && r.skipped == 0)
    || (x.Between? && x.job.index == |x.job.recipients|
        && r == ProcessResult(Complete, None, x.job.processed, x.job.skipped, 0))
    || (x.Between? && r == ProcessResult(DeadLetter, Some(ReferencedBlobInvalid), 0, 0, 0))
    || (x.InRow? && x.pc.RowDone? && x.pc.result.Reported? && x.pc.result.disposition != Complete
        && r == ProcessResult(x.pc.result.disposition, x.pc.result.reason, x.job.processed + 1, x.job.skipped,
                              x.pc.result.retryAfter))
  }

  lemma SettlingStep(env: Env, s: State, a: Label)
    requires Enabled(env, s, a) && WorkerStep(env, s, a).Settled?
    ensures SettledBy(WorkerAt(s, a.w), WorkerStep(env, s, a).result)
  {
    hide AfterRead, AfterPutError, AfterMail, Prepare;
    if a.Receive? { PrepareIsExact(env, a.delivery, a.manifest, a.batch, a.scanned, a.reopened); }
  }

  lemma LingerIsInRow(env: Env, s: State, a: Label)
    requires Enabled(env, s, a) && a.Linger?
    ensures WorkerAt(s, a.w).InRow? && WorkerStep(env, s, a).InRow?
  {}

  /** Nothing else settles a delivery. */
  lemma SettledBecause(env: Env, s: State, s': State, w: WorkerId)
    requires CanStep(env, s, s') && WorkerAt(s', w).Settled? && WorkerAt(s', w) != WorkerAt(s, w)
    ensures SettledBy(WorkerAt(s, w), WorkerAt(s', w).result)
  {
    hide LedgerStep, WorkerStep, Enabled, SettledBy;
    var a :| Enabled(env, s, a) && Step(env, s, a) == s';
    if a.Linger? { LingerIsInRow(env, s, a); }
    SettlingStep(env, s, a);
    assert w == a.w;
  }

  /** A delivery reported Complete has, for every row of its batch, a delivered
      receipt that no later action changes, and its two counters add up to the
      declared recipient count. */
  lemma CompleteMeansDelivered(env: Env, run: seq<State>, i: nat, j: nat, w: WorkerId, k: nat)
    requires ValidEnv(env) && IsRun(env, run) && i <= j < |run|
    requires WorkerAt(run[i], w).Settled? && WorkerAt(run[i], w).result.disposition == Complete
    ensures var x := WorkerAt(run[i], w);
      && x.finished.Some? && FullyScanned(env, x.finished.value)
      && x.result.processed + x.result.skipped == x.finished.value.message.recipientCount
      && (k < |x.finished.value.recipients| ==>
            && Delivered(At(run[i], JobPath(x.finished.value, k)))
            && At(run[j], JobPath(x.finished.value, k)).cell == At(run[i], JobPath(x.finished.value, k)).cell)
  {
    hide IsRun, LedgerInv, FullyScanned;
    var x := WorkerAt(run[i], w);
    Reachable(env, run, i);
    assert WorkerInv(env, run[i], w, x);
    var job := x.finished.value;
    assert |job.recipients| == job.message.recipientCount by { ValidatedCount(env, job); }
    if k < |job.recipients| {
      assert Delivered(At(run[i], JobPath(job, k)));
      TerminalForever(env, run, i, j, JobPath(job, k));
    }
  }

  lemma ValidatedCount(env: Env, job: Job)
    requires FullyScanned(env, job)
    ensures |job.recipients| == job.message.recipientCount
  {}

  /** No receipt is written and no mail is sent by a delivery whose batch has
      not been validated row by row first. */
  lemma EffectsNeedValidation(env: Env, run: seq<State>, i: nat, a: Label, p: Path)
    requires ValidEnv(env) && IsRun(env, run) && i < |run| && Enabled(env, run[i], a)
    requires At(Step(env, run[i], a), p) != At(run[i], p)
    ensures var x := WorkerAt(run[i], a.w);
      x.InRow? && FullyScanned(env, x.job) && PathOf(x.pc.row) == p
      && exists k | 0 <= k < |x.job.recipients| :: JobPath(x.job, k) == p
  {
    hide IsRun, LedgerInv, FullyScanned, PcInv;
    var x := WorkerAt(run[i], a.w);
    Reachable(env, run, i);
    assert WorkerInv(env, run[i], a.w, x);
    assert x.InRow?;
    assert JobPath(x.job, x.job.index) == p;
  }

  // ---- Dead defensive code -------------------------------------------------------

  /** In every reachable state, whatever receipt a worker has read, its error
      branches for Exhaust, Reclaim and StartSend are taken if and only if its
      clock has left the years 0000 to 9999. */
  lemma DefensiveBranchesAreDead(env: Env, run: seq<State>, i: nat, row: Row)
    requires ValidEnv(env) && IsRun(env, run) && i < |run|
    requires GoodRow(PathOf(row), env.limit, row)
    requires At(run[i], PathOf(row)).cell.Some?
    ensures var stored := At(run[i], PathOf(row)).cell.value;
      match stored.receipt.status
      case Claimed => BeginSend(row, stored).Uploading? <==> Representable(row.now)
      case Retryable =>
        var pc := DecideRetryable(row, stored);
        || (pc.RowDone? && pc.result.Reported? && pc.result.reason == Some(RetryNotDue))
        || (pc.Uploading? <==> Representable(row.now))
      case _ => true
  {
    hide IsRun;
    Reachable(env, run, i);
    var l := At(run[i], PathOf(row));
    assert LedgerInv(PathOf(row), env.limit, l);
    CellIsKnown(PathOf(row), env.limit, l);
    var r := l.cell.value.receipt;
    assert Shape(r, env.limit);
    StartSendSteps(r, row.now, env.limit);
    ExhaustSteps(r, row.now, env.limit);
    ReclaimSteps(r, row.now, row.options.maxAttempts, env.limit);
  }
}
