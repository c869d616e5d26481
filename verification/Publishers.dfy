/** Any number of publishers at work on one blob store and one queue
    (internal/publication/publisher.go, internal/publication/azure.go), each
    stopped at its next remote call. A call may fail, may take effect and still
    report an error, and a publisher may stop for good anywhere; a request is
    replayed by beginning another run of the same plan. */
module Publishers {
  import opened Releases
  import Versions

  /** A stored blob; every write gives it a new ETag and some version id. The
      digest in its metadata is the one of the body that was uploaded. */
  datatype Cell = Cell(body: Body, etag: nat, version: string)

  /** The answer to a properties call. */
  datatype Props = Props(etag: nat, digest: Digest, size: int, version: string)

  datatype Pc =
    | Putting                  // about to upload the due blob, create-only
    | Probing                  // refused; about to compare what is there
    | Sending(next: nat)       // about to send message `next`
    | Looking                  // about to ask for the current manifest's properties
    | Reading(props: Props)    // about to read the current manifest's body
    | Swapping(props: Props)   // about to overwrite it if unchanged
    | Done
    | Failed

  /** A run of a plan, with the references it has obtained so far. */
  datatype Run = Run(plan: Plan, got: seq<Ref>, pc: Pc)

  /** A write that took effect, and what it replaced. ETags number them. */
  datatype Commit = Commit(name: Name, body: Body, version: string, run: nat)

  datatype Sent = Sent(message: Message, run: nat, index: nat)

  datatype State = State(blobs: map<Name, Cell>, log: seq<Commit>, queue: seq<Sent>, runs: seq<Run>)

  const INITIAL := State(map[], [], [], [])

  datatype Reply = Accepted | Refused | Lost

  datatype Label =
    | Begin(plan: Plan)
    | Upload(run: nat, effect: bool, reply: Reply, version: string)
    | Probe(run: nat, ok: bool)
    | Send(run: nat, effect: bool, ok: bool)
    | Look(run: nat, ok: bool)
    | Read(run: nat, ok: bool)
    | Swap(run: nat, effect: bool, ok: bool, version: string)
    | Stop(run: nat)

  // ---- The program between two calls --------------------------------------------------

  /** `due` has been stored, or found stored, as `ref`. */
  function AfterPut(run: Run, ref: Ref): Run {
    var got := run.got + [ref];
    var n := Stages(run.plan);
    run.(got := got, pc := if |got| < n then Putting else if |got| == n then Sending(0) else Done)
  }

  function AfterProbe(cfg: Config, run: Run, due: Blob, props: Props): Run {
    if props.digest == Sha(due.body) && props.size == cfg.sizeOf(due.body)
    then AfterPut(run, Ref(due.name, props.digest, props.size, props.version))
    else run.(pc := Failed)
  }

  function AfterSend(run: Run, next: nat): Run {
    run.(pc := if next < BatchesOf(run.plan) then Sending(next) else Looking)
  }

  /** The version rule: both versions have keys and the second is higher. */
  predicate Advances(v: string, w: string) {
    && Versions.IsProductVersion(v) && Versions.IsProductVersion(w)
    && Versions.Less(Versions.KeyOf(v), Versions.KeyOf(w))
  }

  /** The body read for `props` must be the one they describe; an equal manifest
      is a success, a lower version may be overwritten. */
  function AfterRead(cfg: Config, run: Run, due: Blob, props: Props, existing: Body): Run {
    if Sha(existing) != props.digest || cfg.sizeOf(existing) != props.size then run.(pc := Failed)
    else if existing == due.body then AfterPut(run, Ref(due.name, props.digest, props.size, props.version))
    else if existing.ManifestBody? && Advances(existing.manifest.version, run.plan.source.version)
    then run.(pc := Swapping(props))
    else run.(pc := Failed)
  }

  function PropsOf(cfg: Config, cell: Cell): Props {
    Props(cell.etag, Sha(cell.body), cfg.sizeOf(cell.body), cell.version)
  }

  // ---- Actions ---------------------------------------------------------------------------

  /** The blob a run at one of its store calls is concerned with. */
  function DueOf(run: Run): Blob
    requires |run.got| <= Stages(run.plan)
  {
    Due(run.plan, run.got)
  }

  /** A manifest is parsed against its contract before it is published. */
  predicate DueAccepted(cfg: Config, due: Blob) {
    due.name.ManifestName? && due.body.ManifestBody? ==> ManifestAccepted(cfg, due.body.manifest)
  }

  predicate InStages(run: Run) {
    |run.got| <= Stages(run.plan)
  }

  predicate Enabled(cfg: Config, s: State, a: Label) {
    if a.Begin? then ValidPlan(cfg, a.plan)
    else
      && a.run < |s.runs|
      && var run := s.runs[a.run];
         && InStages(run)
         && match a
            case Upload(_, effect, reply, _) =>
              && run.pc == Putting && cfg.sizeOf(DueOf(run).body) >= 1 && DueAccepted(cfg, DueOf(run))
              && (effect ==> DueOf(run).name !in s.blobs)
              && (reply == Accepted ==> effect)
            case Probe(_, _) => run.pc == Probing
            case Send(_, effect, ok) =>
              && run.pc.Sending? && |run.got| == Stages(run.plan) && run.pc.next < BatchesOf(run.plan)
              && MessageAccepted(cfg, MessageOf(run.plan, run.got, run.pc.next))
              && (ok ==> effect)
            case Look(_, _) => run.pc == Looking && ManifestSized(cfg.sizeOf(DueOf(run).body))
            case Read(_, _) => run.pc.Reading? && ManifestSized(run.pc.props.size)
            case Swap(_, effect, ok, _) =>
              && run.pc.Swapping?
              && (effect ==> var name := DueOf(run).name;
                             name in s.blobs && s.blobs[name].etag == run.pc.props.etag)
              && (ok ==> effect)
            case Stop(_) => true
  }

  /** The write of `blob` by run `r` takes effect. */
  function Written(s: State, r: nat, blob: Blob, version: string): State {
    s.(blobs := s.blobs[blob.name := Cell(blob.body, |s.log|, version)],
       log := s.log + [Commit(blob.name, blob.body, version, r)])
  }

  /** What the call of action `a` does to the store or the queue. */
  function Effect(cfg: Config, s: State, a: Label): State
    requires !a.Begin? && Enabled(cfg, s, a)
  {
    var run := s.runs[a.run];
    match a
    case Upload(r, true, _, version) => Written(s, r, DueOf(run), version)
    case Swap(r, true, _, version) => Written(s, r, DueOf(run), version)
    case Send(r, true, _) =>
      s.(queue := s.queue + [Sent(MessageOf(run.plan, run.got, run.pc.next), r, run.pc.next)])
    case _ => s
  }

  /** What the answer to the call of action `a` makes of its run. */
  function Next(cfg: Config, s: State, a: Label): Run
    requires !a.Begin? && Enabled(cfg, s, a)
  {
    var run := s.runs[a.run];
    var failed := run.(pc := Failed);
    var due := DueOf(run);
    var found := due.name in s.blobs;
    match a
    case Upload(_, _, Accepted, version) => AfterPut(run, RefOf(cfg, due.name, due.body, version))
    case Upload(_, _, Refused, _) => run.(pc := Probing)
    case Probe(_, true) => if found then AfterProbe(cfg, run, due, PropsOf(cfg, s.blobs[due.name])) else failed
    case Send(_, _, true) => AfterSend(run, run.pc.next + 1)
    case Look(_, true) => run.(pc := if found then Reading(PropsOf(cfg, s.blobs[due.name])) else Putting)
    case Read(_, true) => if found then AfterRead(cfg, run, due, run.pc.props, s.blobs[due.name].body) else failed
    case Swap(_, _, true, version) => AfterPut(run, RefOf(cfg, due.name, due.body, version))
    case _ => failed
  }

  function Step(cfg: Config, s: State, a: Label): State
    requires Enabled(cfg, s, a)
  {
    if a.Begin? then s.(runs := s.runs + [Run(a.plan, [], Putting)])
    else
      var after := Effect(cfg, s, a);
      after.(runs := s.runs[a.run := Next(cfg, s, a)])
  }

  ghost predicate CanStep(cfg: Config, s: State, s': State) {
    exists a :: Enabled(cfg, s, a) && Step(cfg, s, a) == s'
  }

  /** States linked by enabled actions, from any first state. */
  ghost predicate IsPath(cfg: Config, run: seq<State>) {
    |run| > 0 && forall i | 0 < i < |run| :: CanStep(cfg, run[i - 1], run[i])
  }

  /** A path from the empty store and queue. */
  ghost predicate IsRun(cfg: Config, run: seq<State>) {
    IsPath(cfg, run) && run[0] == INITIAL
  }

  // ---- The invariant ------------------------------------------------------------------------

  /** `ref` describes the blob stored under its name, and that blob is `body`. */
  predicate Backed(cfg: Config, blobs: map<Name, Cell>, ref: Ref, body: Body) {
    && ref.name in blobs
    && blobs[ref.name].body == body
    && ref == RefOf(cfg, ref.name, body, blobs[ref.name].version)
  }

  /** Reference `k` of a run is the blob that was due at stage `k`. */
  predicate Obtained(cfg: Config, blobs: map<Name, Cell>, run: Run, k: nat)
    requires k < |run.got| && k < Stages(run.plan)
  {
    var due := Due(run.plan, run.got[..k]);
    run.got[k].name == due.name && Backed(cfg, blobs, run.got[k], due.body)
  }

  predicate AllObtained(cfg: Config, blobs: map<Name, Cell>, run: Run) {
    forall k | 0 <= k < |run.got| && k < Stages(run.plan) :: Obtained(cfg, blobs, run, k)
  }

  /** Run `r` has sent its first `n` messages. */
  predicate SentBy(queue: seq<Sent>, run: Run, r: nat, n: nat) {
    && Stages(run.plan) <= |run.got| && n <= BatchesOf(run.plan)
    && forall i | 0 <= i < n :: Sent(MessageOf(run.plan, run.got, i), r, i) in queue
  }

  /** Every message of the run's plan is in the queue. */
  predicate Announced(queue: seq<Sent>, run: Run, r: nat) {
    SentBy(queue, run, r, BatchesOf(run.plan))
  }

  /** The properties were those of the current manifest at some moment. */
  predicate Seen(cfg: Config, log: seq<Commit>, name: Name, props: Props) {
    && props.etag < |log|
    && log[props.etag].name == name
    && props == PropsOf(cfg, Cell(log[props.etag].body, props.etag, log[props.etag].version))
  }

  predicate PcInv(cfg: Config, s: State, run: Run, r: nat) {
    var n, current := Stages(run.plan), CurrentName(run.plan.source.release);
    match run.pc
    case Putting | Probing => |run.got| <= n && (|run.got| == n ==> Announced(s.queue, run, r))
    case Sending(next) => |run.got| == n && SentBy(s.queue, run, r, next)
    case Looking => |run.got| == n && Announced(s.queue, run, r)
    case Reading(props) => |run.got| == n && Announced(s.queue, run, r) && Seen(cfg, s.log, current, props)
    case Swapping(props) =>
      && |run.got| == n && Announced(s.queue, run, r) && Seen(cfg, s.log, current, props)
      && var existing := s.log[props.etag].body;
         existing.ManifestBody? && Advances(existing.manifest.version, run.plan.source.version)
    case Done => |run.got| == n + 1 && Announced(s.queue, run, r)
    case Failed => |run.got| <= n + 1
  }

  predicate RunInv(cfg: Config, s: State, run: Run, r: nat) {
    ValidPlan(cfg, run.plan) && AllObtained(cfg, s.blobs, run) && PcInv(cfg, s, run, r)
  }

  /** A current manifest was written by a run that had announced it. */
  predicate CommitInv(cfg: Config, s: State, c: Commit) {
    && c.run < |s.runs|
    && (c.name.CurrentName? ==>
        && var run := s.runs[c.run];
        && run.plan.source.release == c.name.release
        && Announced(s.queue, run, c.run)
        && c.body == ManifestOf(run.plan, run.got[1]))
  }

  predicate SentInv(cfg: Config, s: State, m: Sent) {
    && m.run < |s.runs|
    && var run := s.runs[m.run];
       && Stages(run.plan) <= |run.got| && m.index < BatchesOf(run.plan)
       && m.message == MessageOf(run.plan, run.got, m.index)
  }

  predicate CellInv(s: State, name: Name, cell: Cell) {
    cell.etag < |s.log| && var c := s.log[cell.etag]; c.name == name && c.body == cell.body && c.version == cell.version
  }

  ghost predicate Inv(cfg: Config, s: State) {
    && (forall name | name in s.blobs :: CellInv(s, name, s.blobs[name]))
    && (forall k | 0 <= k < |s.log| :: CommitInv(cfg, s, s.log[k]))
    && (forall k | 0 <= k < |s.queue| :: SentInv(cfg, s, s.queue[k]))
    && (forall r | 0 <= r < |s.runs| :: RunInv(cfg, s, s.runs[r], r))
    && ContractsKept(cfg, s)
  }

  /** The blobs of a run are not empty, and past its manifest stage its manifest is
      one that its contract accepts. */
  predicate Vetted(cfg: Config, run: Run) {
    && (forall k | 0 <= k < |run.got| && k < Stages(run.plan) :: run.got[k].size >= 1)
    && (run.pc == Probing && InStages(run) ==> cfg.sizeOf(DueOf(run).body) >= 1)
    && (|run.got| > 2 || (|run.got| == 2 && run.pc == Probing) ==>
          ManifestAccepted(cfg, ManifestOf(run.plan, run.got[1]).manifest))
  }

  /** Whatever was published or sent has passed its contract. */
  ghost predicate ContractsKept(cfg: Config, s: State) {
    && (forall r | 0 <= r < |s.runs| :: Vetted(cfg, s.runs[r]))
    && (forall k | 0 <= k < |s.queue| :: MessageAccepted(cfg, s.queue[k].message))
  }

  // ---- Every action keeps it -------------------------------------------------------------------

  /** Blobs other than current manifests stay as they are; history only grows. */
  ghost predicate Extends(s: State, s': State) {
    && (forall name | name in s.blobs :: name in s'.blobs && (!name.CurrentName? ==> s'.blobs[name] == s.blobs[name]))
    && |s.log| <= |s'.log| && s'.log[..|s.log|] == s.log
    && |s.queue| <= |s'.queue| && s'.queue[..|s.queue|] == s.queue
    && |s.runs| <= |s'.runs|
    && forall r | 0 <= r < |s.runs| :: Continues(s.runs[r], s'.runs[r])
  }

  /** Same plan, and the references obtained so far are kept. */
  predicate Continues(run: Run, run': Run) {
    run'.plan == run.plan && |run.got| <= |run'.got| && run'.got[..|run.got|] == run.got
  }

  lemma DueAtEnd(run: Run)
    requires |run.got| == Stages(run.plan)
    ensures DueOf(run) == Blob(CurrentName(run.plan.source.release), ManifestOf(run.plan, run.got[1]))
  {}

  lemma EffectExtends(cfg: Config, s: State, a: Label)
    requires !a.Begin? && Enabled(cfg, s, a) && PcInv(cfg, s, s.runs[a.run], a.run)
    ensures Extends(s, Effect(cfg, s, a))
    ensures Effect(cfg, s, a).runs == s.runs
  {
    hide ValidPlan, Due, MessageOf, Advances, Stages, BatchesOf;
    if a.Swap? { DueAtEnd(s.runs[a.run]); }
  }

  lemma NextContinues(cfg: Config, s: State, a: Label)
    requires !a.Begin? && Enabled(cfg, s, a)
    ensures Continues(s.runs[a.run], Next(cfg, s, a))
  {
    hide ValidPlan, Due, MessageOf, Advances, Stages, BatchesOf;
  }

  lemma StepExtends(cfg: Config, s: State, a: Label)
    requires Inv(cfg, s) && Enabled(cfg, s, a)
    ensures Extends(s, Step(cfg, s, a))
  {
    hide Effect, Next, PcInv, AllObtained, ValidPlan, DueOf, Stages, BatchesOf;
    if !a.Begin? {
      assert RunInv(cfg, s, s.runs[a.run], a.run);
      EffectExtends(cfg, s, a);
      NextContinues(cfg, s, a);
    }
  }

  lemma ObtainedStays(cfg: Config, s: State, s': State, run: Run)
    requires Extends(s, s') && AllObtained(cfg, s.blobs, run)
    ensures AllObtained(cfg, s'.blobs, run)
  {
    hide ManifestOf, IdentityOf, RowsOf;
    forall k | 0 <= k < |run.got| && k < Stages(run.plan)
      ensures Obtained(cfg, s'.blobs, run, k)
    {
      assert Obtained(cfg, s.blobs, run, k);
      assert !Due(run.plan, run.got[..k]).name.CurrentName?;
    }
  }

  /** What was sent stays sent, also for the run's later self. */
  lemma SentStays(queue: seq<Sent>, queue': seq<Sent>, run: Run, run': Run, r: nat, n: nat)
    requires SentBy(queue, run, r, n) && Continues(run, run')
    requires |queue| <= |queue'| && queue'[..|queue|] == queue
    ensures SentBy(queue', run', r, n)
  {
    hide BatchesOf;
    forall i | 0 <= i < n
      ensures Sent(MessageOf(run'.plan, run'.got, i), r, i) in queue'
    {
      assert run.got[2] == run'.got[2] && run.got[3 + i] == run'.got[3 + i];
      var m := Sent(MessageOf(run.plan, run.got, i), r, i);
      assert m == Sent(MessageOf(run'.plan, run'.got, i), r, i);
      assert m in queue;
    }
  }

  lemma PcStays(cfg: Config, s: State, s': State, run: Run, r: nat)
    requires Extends(s, s') && PcInv(cfg, s, run, r)
    ensures PcInv(cfg, s', run, r)
  {
    hide SentBy, Stages, BatchesOf, Advances;
    if run.pc.Sending? {
      SentStays(s.queue, s'.queue, run, run, r, run.pc.next);
    } else if SentBy(s.queue, run, r, BatchesOf(run.plan)) {
      SentStays(s.queue, s'.queue, run, run, r, BatchesOf(run.plan));
    }
  }

  lemma CommitStays(cfg: Config, s: State, s': State, c: Commit)
    requires Extends(s, s') && CommitInv(cfg, s, c)
    ensures CommitInv(cfg, s', c)
  {
    hide SentBy, BatchesOf;
    if c.name.CurrentName? {
      var run, run' := s.runs[c.run], s'.runs[c.run];
      SentKnown(s.queue, run, c.run);
      SentStays(s.queue, s'.queue, run, run', c.run, BatchesOf(run.plan));
      assert run'.got[1] == run.got[1];
    }
  }

  lemma SentKnown(queue: seq<Sent>, run: Run, r: nat)
    requires Announced(queue, run, r)
    ensures |run.got| >= 3
  {}

  lemma SentInvStays(cfg: Config, s: State, s': State, m: Sent)
    requires Extends(s, s') && SentInv(cfg, s, m)
    ensures SentInv(cfg, s', m)
  {
    hide BatchesOf;
    var run, run' := s.runs[m.run], s'.runs[m.run];
    assert run'.got[2] == run.got[2] && run'.got[3 + m.index] == run.got[3 + m.index];
  }

  /** One more reference, for the blob that was due. */
  lemma PutKeeps(cfg: Config, s: State, run: Run, r: nat, ref: Ref)
    requires ValidPlan(cfg, run.plan) && AllObtained(cfg, s.blobs, run)
    requires |run.got| <= Stages(run.plan)
    requires |run.got| == Stages(run.plan) ==> Announced(s.queue, run, r)
    requires |run.got| < Stages(run.plan) ==>
      ref.name == DueOf(run).name && Backed(cfg, s.blobs, ref, DueOf(run).body)
    ensures RunInv(cfg, s, AfterPut(run, ref), r)
  {
    hide Due, MessageOf, BatchesOf, ValidPlan;
    var run' := AfterPut(run, ref);
    forall k | 0 <= k < |run'.got| && k < Stages(run.plan)
      ensures Obtained(cfg, s.blobs, run', k)
    {
      assert run'.got[..k] == run.got[..k];
      if k < |run.got| { assert Obtained(cfg, s.blobs, run, k); } else { assert run.got[..k] == run.got; }
    }
    if |run.got| == Stages(run.plan) {
      SentStays(s.queue, s.queue, run, run', r, BatchesOf(run.plan));
    }
  }

  lemma UploadKeeps(cfg: Config, s: State, a: Label)
    requires (a.Upload? || a.Probe?) && Enabled(cfg, s, a) && RunInv(cfg, s, s.runs[a.run], a.run)
    ensures RunInv(cfg, Effect(cfg, s, a), Next(cfg, s, a), a.run)
  {
    hide Due, SentBy, AllObtained, ValidPlan, Stages, BatchesOf;
    var s', run := Effect(cfg, s, a), s.runs[a.run];
    EffectExtends(cfg, s, a);
    ObtainedStays(cfg, s, s', run);
    PcStays(cfg, s, s', run, a.run);
    var due := DueOf(run);
    if a.Upload? && a.reply == Accepted {
      PutKeeps(cfg, s', run, a.run, RefOf(cfg, due.name, due.body, a.version));
    } else if a.Probe? && due.name in s.blobs {
      var props := PropsOf(cfg, s.blobs[due.name]);
      if props.digest == Sha(due.body) {
        PutKeeps(cfg, s', run, a.run, Ref(due.name, props.digest, props.size, props.version));
      }
    }
    if |run.got| == Stages(run.plan) {
      SentStays(s'.queue, s'.queue, run, run.(pc := Probing), a.run, BatchesOf(run.plan));
    }
    ObtainedSame(cfg, s'.blobs, run, run.(pc := Probing));
    ObtainedSame(cfg, s'.blobs, run, run.(pc := Failed));
  }

  lemma ObtainedSame(cfg: Config, blobs: map<Name, Cell>, run: Run, run': Run)
    requires AllObtained(cfg, blobs, run) && run'.plan == run.plan && run'.got == run.got
    ensures AllObtained(cfg, blobs, run')
  {
    hide Due, Backed, Stages;
    forall k | 0 <= k < |run.got| && k < Stages(run.plan)
      ensures Obtained(cfg, blobs, run', k)
    {
      assert Obtained(cfg, blobs, run, k);
    }
  }

  lemma SendKeeps(cfg: Config, s: State, a: Label)
    requires a.Send? && Enabled(cfg, s, a) && RunInv(cfg, s, s.runs[a.run], a.run)
    ensures RunInv(cfg, Effect(cfg, s, a), Next(cfg, s, a), a.run)
  {
    hide Due, AllObtained, ValidPlan, BatchesOf, MessageOf;
    var s', run, run' := Effect(cfg, s, a), s.runs[a.run], Next(cfg, s, a);
    ObtainedSame(cfg, s.blobs, run, run');
    SentStays(s.queue, s'.queue, run, run', a.run, run.pc.next);
    if a.ok {
      var m := Sent(MessageOf(run.plan, run.got, run.pc.next), a.run, run.pc.next);
      assert s'.queue[|s.queue|] == m;
      forall i | 0 <= i < run.pc.next + 1
        ensures Sent(MessageOf(run'.plan, run'.got, i), a.run, i) in s'.queue
      {}
      assert SentBy(s'.queue, run', a.run, run.pc.next + 1);
    }
  }

  lemma AdvanceKeeps(cfg: Config, s: State, a: Label)
    requires (a.Look? || a.Read? || a.Swap? || a.Stop?)
    requires Enabled(cfg, s, a) && RunInv(cfg, s, s.runs[a.run], a.run)
    requires forall name | name in s.blobs :: CellInv(s, name, s.blobs[name])
    ensures RunInv(cfg, Effect(cfg, s, a), Next(cfg, s, a), a.run)
  {
    hide Due, AllObtained, ValidPlan, BatchesOf, Stages, SentBy, Advances;
    var s', run, run' := Effect(cfg, s, a), s.runs[a.run], Next(cfg, s, a);
    EffectExtends(cfg, s, a);
    ObtainedStays(cfg, s, s', run);
    PcStays(cfg, s, s', run, a.run);
    if run'.got == run.got { ObtainedSame(cfg, s'.blobs, run, run'); }
    if !a.Stop? {
      DueAtEnd(run);
      SentStays(s'.queue, s'.queue, run, run.(pc := run'.pc), a.run, BatchesOf(run.plan));
      if run'.pc == Done { PutKeeps(cfg, s', run, a.run, run'.got[|run.got|]); }
    }
  }

  lemma MoverKeeps(cfg: Config, s: State, a: Label)
    requires Inv(cfg, s) && Enabled(cfg, s, a) && !a.Begin?
    ensures RunInv(cfg, Effect(cfg, s, a), Next(cfg, s, a), a.run)
  {
    hide Effect, Next, RunInv, CellInv, CommitInv, SentInv, DueOf, ValidPlan, BatchesOf, Stages;
    match a
    case Upload(_, _, _, _) | Probe(_, _) => UploadKeeps(cfg, s, a);
    case Send(_, _, _) => SendKeeps(cfg, s, a);
    case _ => AdvanceKeeps(cfg, s, a);
  }

  lemma RunsKeep(cfg: Config, s: State, a: Label)
    requires Inv(cfg, s) && Enabled(cfg, s, a)
    ensures var s' := Step(cfg, s, a); forall r | 0 <= r < |s'.runs| :: RunInv(cfg, s', s'.runs[r], r)
  {
    hide Effect, Next, PcInv, AllObtained, CellInv, CommitInv, SentInv, ValidPlan, DueOf, BatchesOf, Stages;
    var s' := Step(cfg, s, a);
    StepExtends(cfg, s, a);
    forall r | 0 <= r < |s'.runs|
      ensures RunInv(cfg, s', s'.runs[r], r)
    {
      if r < |s.runs| && s'.runs[r] == s.runs[r] {
        assert RunInv(cfg, s, s.runs[r], r);
        ObtainedStays(cfg, s, s', s.runs[r]);
        PcStays(cfg, s, s', s.runs[r], r);
      } else if a.Begin? {
        BeginKeeps(cfg, s, a);
      } else {
        MoverKeeps(cfg, s, a);
        assert r == a.run;
        PcOnlyReads(cfg, Effect(cfg, s, a), s', s'.runs[r], r);
      }
    }
  }

  lemma BeginKeeps(cfg: Config, s: State, a: Label)
    requires Enabled(cfg, s, a) && a.Begin?
    ensures RunInv(cfg, Step(cfg, s, a), Run(a.plan, [], Putting), |s.runs|)
  {
    hide ValidPlan, BatchesOf;
  }

  lemma PcOnlyReads(cfg: Config, s: State, s': State, run: Run, r: nat)
    requires PcInv(cfg, s, run, r) && s'.queue == s.queue && s'.log == s.log
    ensures PcInv(cfg, s', run, r)
  {
    hide SentBy, BatchesOf, Advances, Seen;
  }

  lemma CellsKeep(cfg: Config, s: State, a: Label)
    requires Inv(cfg, s) && Enabled(cfg, s, a)
    ensures var s' := Step(cfg, s, a); forall name | name in s'.blobs :: CellInv(s', name, s'.blobs[name])
  {
    hide Next, RunInv, CommitInv, SentInv, ValidPlan, DueOf, Stages, BatchesOf, MessageOf;
    var s' := Step(cfg, s, a);
    forall name | name in s'.blobs
      ensures CellInv(s', name, s'.blobs[name])
    {
      if name in s.blobs { assert CellInv(s, name, s.blobs[name]); }
    }
  }

  lemma CommitsKeep(cfg: Config, s: State, a: Label)
    requires Inv(cfg, s) && Enabled(cfg, s, a)
    ensures var s' := Step(cfg, s, a); forall k | 0 <= k < |s'.log| :: CommitInv(cfg, s', s'.log[k])
  {
    hide Next, RunInv, CellInv, CommitInv, SentInv, ValidPlan, DueOf, Stages, BatchesOf, MessageOf;
    var s' := Step(cfg, s, a);
    StepExtends(cfg, s, a);
    forall k | 0 <= k < |s'.log|
      ensures CommitInv(cfg, s', s'.log[k])
    {
      if k < |s.log| {
        assert s'.log[..|s.log|][k] == s.log[k];
        CommitStays(cfg, s, s', s.log[k]);
      } else {
        NewCommit(cfg, s, a);
      }
    }
  }

  /** Only a run that has announced its plan writes a current manifest. */
  lemma NewCommit(cfg: Config, s: State, a: Label)
    requires Inv(cfg, s) && Enabled(cfg, s, a) && (a.Upload? || a.Swap?) && a.effect
    ensures var due := DueOf(s.runs[a.run]);
      CommitInv(cfg, Step(cfg, s, a), Commit(due.name, due.body, a.version, a.run))
  {
    hide CellInv, SentInv, ValidPlan, SentBy, BatchesOf, AllObtained, Next;
    var run := s.runs[a.run];
    assert RunInv(cfg, s, run, a.run);
    if DueOf(run).name.CurrentName? {
      NextContinues(cfg, s, a);
      SentStays(s.queue, s.queue, run, Next(cfg, s, a), a.run, BatchesOf(run.plan));
    }
  }

  lemma QueueKeeps(cfg: Config, s: State, a: Label)
    requires Inv(cfg, s) && Enabled(cfg, s, a)
    ensures var s' := Step(cfg, s, a); forall k | 0 <= k < |s'.queue| :: SentInv(cfg, s', s'.queue[k])
  {
    hide Next, RunInv, CellInv, CommitInv, SentInv, ValidPlan, DueOf, Stages, BatchesOf, MessageOf;
    var s' := Step(cfg, s, a);
    StepExtends(cfg, s, a);
    forall k | 0 <= k < |s'.queue|
      ensures SentInv(cfg, s', s'.queue[k])
    {
      if k < |s.queue| {
        assert s'.queue[..|s.queue|][k] == s.queue[k];
        SentInvStays(cfg, s, s', s.queue[k]);
      } else {
        NewMessage(cfg, s, a);
      }
    }
  }

  lemma NewMessage(cfg: Config, s: State, a: Label)
    requires Enabled(cfg, s, a) && a.Send? && a.effect
    ensures var run := s.runs[a.run];
      SentInv(cfg, Step(cfg, s, a), Sent(MessageOf(run.plan, run.got, run.pc.next), a.run, run.pc.next))
  {
    hide ValidPlan, BatchesOf, MessageOf;
  }

  lemma NextIsVetted(cfg: Config, s: State, a: Label)
    requires !a.Begin? && Enabled(cfg, s, a) && Vetted(cfg, s.runs[a.run]) && PcInv(cfg, s, s.runs[a.run], a.run)
    ensures Vetted(cfg, Next(cfg, s, a))
  {
    hide ValidPlan, BatchesOf, MessageOf, ManifestAccepted, MessageAccepted, Advances, RowsOf;
  }

  lemma ContractsKeep(cfg: Config, s: State, a: Label)
    requires Inv(cfg, s) && Enabled(cfg, s, a)
    ensures ContractsKept(cfg, Step(cfg, s, a))
  {
    hide Next, AllObtained, PcInv, CellInv, CommitInv, SentInv, ValidPlan, DueOf, Stages, BatchesOf, MessageOf;
    hide ManifestAccepted, MessageAccepted;
    var s' := Step(cfg, s, a);
    if !a.Begin? {
      assert RunInv(cfg, s, s.runs[a.run], a.run);
      NextIsVetted(cfg, s, a);
    }
    forall r | 0 <= r < |s'.runs|
      ensures Vetted(cfg, s'.runs[r])
    {
      if r < |s.runs| { assert Vetted(cfg, s.runs[r]); }
    }
  }

  lemma StepKeepsInv(cfg: Config, s: State, s': State)
    requires Inv(cfg, s) && CanStep(cfg, s, s')
    ensures Inv(cfg, s')
    ensures Extends(s, s')
  {
    hide Enabled, Step, RunInv, CellInv, CommitInv, SentInv, ContractsKept;
    var a :| Enabled(cfg, s, a) && Step(cfg, s, a) == s';
    CellsKeep(cfg, s, a);
    CommitsKeep(cfg, s, a);
    QueueKeeps(cfg, s, a);
    RunsKeep(cfg, s, a);
    ContractsKeep(cfg, s, a);
    StepExtends(cfg, s, a);
  }

  /** The invariant holds in every state of every run. */
  lemma {:induction false} Reachable(cfg: Config, run: seq<State>, i: nat)
    requires IsRun(cfg, run) && i < |run|
    ensures Inv(cfg, run[i])
  {
    hide CanStep;
    if i > 0 {
      Reachable(cfg, run, i - 1);
      StepKeepsInv(cfg, run[i - 1], run[i]);
    }
  }
}
