/** Publications that go through: from every store that does not block a plan,
    a run of it completes. With it, two histories that a reader might not expect
    are shown to be possible. */
module Uninterrupted {
  import opened Basics
  import opened Releases
  import opened Publishers
  import opened PublicationGuarantees
  import opened Blocking
  import Batches
  import Versions
  import Decimals

  /** Run `r` of `p` has come to `run` by steps for `p` from `s0`; new blobs are
      given the version ids `ids`. */
  ghost predicate Going(cfg: Config, p: Plan, s0: State, ids: Ids, path: seq<State>, r: nat, run: Run) {
    && ValidPlan(cfg, p) && IsReplay(cfg, p, path) && path[0] == s0 && Inv(cfg, s0)
    && var s := path[|path| - 1];
       && Inv(cfg, s) && |s0.runs| <= r < |s.runs| && s.runs[r] == run && run.plan == p
       && Given(ids, s.blobs)
       && Kept(s0.blobs, s.blobs)
  }

  /** One more action of the run. */
  lemma Take(cfg: Config, p: Plan, path: seq<State>, a: Label) returns (longer: seq<State>)
    requires IsReplay(cfg, p, path) && Inv(cfg, path[|path| - 1])
    requires Enabled(cfg, path[|path| - 1], a) && Serves(p, path[|path| - 1], a)
    ensures IsReplay(cfg, p, longer) && longer[0] == path[0]
    ensures longer[|longer| - 1] == Step(cfg, path[|path| - 1], a) && Inv(cfg, longer[|longer| - 1])
  {
    hide Inv, Enabled, Step, Serves, ReplayStep;
    var s := path[|path| - 1];
    ReplayExtends(cfg, p, path, a);
    assert CanStep(cfg, s, Step(cfg, s, a));
    StepKeepsInv(cfg, s, Step(cfg, s, a));
    longer := path + [Step(cfg, s, a)];
  }

  /** A blob that is there already is found. */
  lemma PutFound(cfg: Config, p: Plan, s0: State, ids: Ids, path: seq<State>, r: nat, run: Run)
    returns (longer: seq<State>, ref: Ref)
    requires Going(cfg, p, s0, ids, path, r, run) && run.pc == Putting && |run.got| < Stages(p)
    requires var due, s := DueOf(run), path[|path| - 1];
      && due.name in s.blobs && s.blobs[due.name].body == due.body
      && cfg.sizeOf(due.body) >= 1 && DueAccepted(cfg, due)
    ensures Going(cfg, p, s0, ids, longer, r, AfterPut(run, ref))
  {
    hide Inv, ReplayStep, Due, ValidPlan, BatchesOf, ManifestAccepted;
    var s, due := path[|path| - 1], DueOf(run);
    longer := Take(cfg, p, path, Upload(r, false, Refused, ""));
    longer := Take(cfg, p, longer, Probe(r, true));
    var props := PropsOf(cfg, s.blobs[due.name]);
    ref := Ref(due.name, props.digest, props.size, props.version);
  }

  /** A blob that is missing is created. */
  lemma PutNew(cfg: Config, p: Plan, s0: State, ids: Ids, path: seq<State>, r: nat, run: Run)
    returns (longer: seq<State>, ref: Ref)
    requires Going(cfg, p, s0, ids, path, r, run) && run.pc == Putting && |run.got| < Stages(p)
    requires var due := DueOf(run);
      due.name !in path[|path| - 1].blobs && cfg.sizeOf(due.body) >= 1 && DueAccepted(cfg, due)
    ensures Going(cfg, p, s0, ids, longer, r, AfterPut(run, ref))
  {
    hide Inv, ReplayStep, Due, ValidPlan, BatchesOf, ManifestAccepted;
    var due := DueOf(run);
    ImmutableStage(run);
    longer := Take(cfg, p, path, Upload(r, true, Accepted, ids(due.name)));
    ref := RefOf(cfg, due.name, due.body, ids(due.name));
  }

  /** The due blob is found or created, since nothing blocks the plan. */
  lemma PutNext(cfg: Config, p: Plan, s0: State, ids: Ids, path: seq<State>, r: nat, run: Run)
    returns (longer: seq<State>, ref: Ref)
    requires Going(cfg, p, s0, ids, path, r, run) && !Blocked(cfg, p, s0, ids)
    requires run.pc == Putting && |run.got| < Stages(p)
    ensures Going(cfg, p, s0, ids, longer, r, AfterPut(run, ref))
  {
    hide Inv, ReplayStep, Due, ValidPlan, BatchesOf, Blocked, Grown, Kept, Given, DueAccepted;
    var s, due := path[|path| - 1], DueOf(run);
    ReplayKeeps(cfg, p, path, |path| - 1);
    ImmutableStage(run);
    if Unstorable(cfg, s.blobs, due) {
      StageIsBlocked(cfg, p, s0, s, ids, r, due.name, due.body);
    } else if due.name in s.blobs {
      longer, ref := PutFound(cfg, p, s0, ids, path, r, run);
    } else {
      longer, ref := PutNew(cfg, p, s0, ids, path, r, run);
    }
  }

  lemma {:induction false} StoreAll(cfg: Config, p: Plan, s0: State, ids: Ids, path: seq<State>, r: nat, run: Run)
    returns (longer: seq<State>, got: seq<Ref>)
    requires Going(cfg, p, s0, ids, path, r, run) && !Blocked(cfg, p, s0, ids)
    requires run.pc == Putting && |run.got| < Stages(p)
    ensures |got| == Stages(p) && Going(cfg, p, s0, ids, longer, r, Run(p, got, Sending(0)))
    decreases Stages(p) - |run.got|
  {
    hide Going, Blocked, BatchesOf;
    var ref;
    longer, ref := PutNext(cfg, p, s0, ids, path, r, run);
    got := run.got + [ref];
    PlanOfGoing(cfg, p, s0, ids, path, r, run);
    if |got| < Stages(p) { longer, got := StoreAll(cfg, p, s0, ids, longer, r, AfterPut(run, ref)); }
  }

  lemma PlanOfGoing(cfg: Config, p: Plan, s0: State, ids: Ids, path: seq<State>, r: nat, run: Run)
    requires Going(cfg, p, s0, ids, path, r, run)
    ensures run.plan == p && ValidPlan(cfg, p)
  {}

  lemma {:induction false} SendAll(cfg: Config, p: Plan, s0: State, ids: Ids, path: seq<State>, r: nat, got: seq<Ref>,
                                   next: nat)
    returns (longer: seq<State>)
    requires |got| == Stages(p) && next < BatchesOf(p) && !Blocked(cfg, p, s0, ids)
    requires Going(cfg, p, s0, ids, path, r, Run(p, got, Sending(next)))
    ensures Going(cfg, p, s0, ids, longer, r, Run(p, got, Looking))
    decreases BatchesOf(p) - next
  {
    hide Inv, ReplayStep, Due, MessageOf, ValidPlan, BatchesOf, Blocked, MessageAccepted, Given;
    NextIsAccepted(cfg, p, s0, path[|path| - 1], ids, r, next);
    longer := Take(cfg, p, path, Send(r, true, true));
    if next + 1 < BatchesOf(p) { longer := SendAll(cfg, p, s0, ids, longer, r, got, next + 1); }
  }

  lemma NextIsAccepted(cfg: Config, p: Plan, s0: State, s: State, ids: Ids, r: nat, i: nat)
    requires Inv(cfg, s) && Given(ids, s.blobs) && !Blocked(cfg, p, s0, ids)
    requires r < |s.runs| && s.runs[r].plan == p && |s.runs[r].got| == Stages(p) && i < BatchesOf(p)
    ensures MessageAccepted(cfg, MessageOf(p, s.runs[r].got, i))
  {
    hide CellInv, CommitInv, SentInv, PcInv, ValidPlan, BatchesOf, AllObtained, MessageAccepted, WantedMessage;
    hide MessageOf;
    assert RunInv(cfg, s, s.runs[r], r);
    MessagesAreWanted(cfg, s, s.runs[r], ids, i);
  }

  /** The current manifest is free, equal, or lower. */
  lemma Advance(cfg: Config, p: Plan, s0: State, ids: Ids, path: seq<State>, r: nat, got: seq<Ref>)
    returns (longer: seq<State>)
    requires |got| == Stages(p) && !Blocked(cfg, p, s0, ids)
    requires Going(cfg, p, s0, ids, path, r, Run(p, got, Looking))
    ensures IsReplay(cfg, p, longer) && longer[0] == s0 && Inv(cfg, longer[|longer| - 1])
    ensures Completed(p, s0, longer[|longer| - 1], r) && Given(ids, longer[|longer| - 1].blobs)
  {
    hide Inv, ReplayStep, Due, ValidPlan, BatchesOf, Blocked, Kept;
    var s := path[|path| - 1];
    Verdict(cfg, p, s0, s, ids, r);
    longer := AdvanceFrom(cfg, p, path, r, got);
  }

  ghost predicate SameButCurrent(s: State, s': State) {
    forall n: Name | n in s'.blobs && !n.CurrentName? :: n in s.blobs && s'.blobs[n] == s.blobs[n]
  }

  lemma AdvanceFrom(cfg: Config, p: Plan, path: seq<State>, r: nat, got: seq<Ref>)
    returns (longer: seq<State>)
    requires |got| == Stages(p) && IsReplay(cfg, p, path) && Inv(cfg, path[|path| - 1])
    requires var s := path[|path| - 1]; r < |s.runs| && s.runs[r] == Run(p, got, Looking)
    requires var name, body := CurrentName(p.source.release), ManifestOf(p, got[1]);
      ManifestSized(cfg.sizeOf(body)) && MayReplace(cfg, p, path[|path| - 1].blobs, name, body)
    ensures IsReplay(cfg, p, longer) && longer[0] == path[0] && Inv(cfg, longer[|longer| - 1])
    ensures var s := longer[|longer| - 1]; r < |s.runs| && s.runs[r].plan == p && s.runs[r].pc == Done
    ensures SameButCurrent(path[|path| - 1], longer[|longer| - 1])
  {
    hide Inv, ReplayStep, Due, BatchesOf, Advances;
    var s := path[|path| - 1];
    DueAtEnd(Run(p, got, Looking));
    var name, body := CurrentName(p.source.release), ManifestOf(p, got[1]);
    longer := Take(cfg, p, path, Look(r, true));
    if name !in s.blobs {
      DueAtEnd(Run(p, got, Putting));
      longer := Take(cfg, p, longer, Upload(r, true, Accepted, ""));
    } else {
      longer := AdvanceOver(cfg, p, longer, r, got, PropsOf(cfg, s.blobs[name]));
    }
  }

  lemma AdvanceOver(cfg: Config, p: Plan, path: seq<State>, r: nat, got: seq<Ref>, props: Props)
    returns (longer: seq<State>)
    requires |got| == Stages(p) && IsReplay(cfg, p, path) && Inv(cfg, path[|path| - 1])
    requires var s := path[|path| - 1]; r < |s.runs| && s.runs[r] == Run(p, got, Reading(props))
    requires var name, body := CurrentName(p.source.release), ManifestOf(p, got[1]);
      var s := path[|path| - 1];
      && name in s.blobs && props == PropsOf(cfg, s.blobs[name])
      && ManifestSized(cfg.sizeOf(body)) && MayReplace(cfg, p, s.blobs, name, body)
    ensures IsReplay(cfg, p, longer) && longer[0] == path[0] && Inv(cfg, longer[|longer| - 1])
    ensures var s := longer[|longer| - 1]; r < |s.runs| && s.runs[r].plan == p && s.runs[r].pc == Done
    ensures SameButCurrent(path[|path| - 1], longer[|longer| - 1])
  {
    hide Inv, ReplayStep, Due, BatchesOf, Advances, Outranks;
    var s := path[|path| - 1];
    DueAtEnd(Run(p, got, Reading(props)));
    longer := Take(cfg, p, path, Read(r, true));
    if s.blobs[CurrentName(p.source.release)].body.ManifestBody? {
      AdvancesIsOutranks(s.blobs[CurrentName(p.source.release)].body.manifest.version, p.source.version);
    }
    if s.blobs[CurrentName(p.source.release)].body != ManifestOf(p, got[1]) {
      DueAtEnd(Run(p, got, Swapping(props)));
      longer := Take(cfg, p, longer, Swap(r, true, true, ""));
    }
  }

  /** A valid plan that nothing blocks, given the version ids that the store gives
      to new blobs, has a run that completes. */
  lemma UnblockedCompletes(cfg: Config, p: Plan, s0: State, ids: Ids) returns (path: seq<State>, r: nat)
    requires ValidPlan(cfg, p) && Inv(cfg, s0) && Given(ids, s0.blobs)
    requires !Blocked(cfg, p, s0, ids)
    ensures IsReplay(cfg, p, path) && path[0] == s0 && Inv(cfg, path[|path| - 1])
    ensures Completed(p, s0, path[|path| - 1], r) && IsPublished(cfg, p, s0, path[|path| - 1])
    ensures Given(ids, path[|path| - 1].blobs)
  {
    hide Inv, ReplayStep, ValidPlan, BatchesOf, Blocked, IsPublished, Wanted;
    AloneIsReplay(cfg, p, s0);
    r := |s0.runs|;
    path := Take(cfg, p, [s0], Begin(p));
    KeptItself(s0.blobs);
    SomeBatch(cfg, p);
    var got;
    path, got := StoreAll(cfg, p, s0, ids, path, r, Run(p, [], Putting));
    path := SendAll(cfg, p, s0, ids, path, r, got, 0);
    path := Advance(cfg, p, s0, ids, path, r, got);
    ReplayPublishes(cfg, p, path, r);
  }

  // ---- From the empty store ------------------------------------------------------------

  lemma ReplayIsPath(cfg: Config, p: Plan, path: seq<State>)
    requires IsReplay(cfg, p, path)
    ensures IsPath(cfg, path)
  {
    hide Enabled, Step, Serves;
    forall i | 0 < i < |path|
      ensures CanStep(cfg, path[i - 1], path[i])
    {
      assert ReplayStep(cfg, p, path[i - 1], path[i]);
    }
  }


  // ---- Nothing else completes -----------------------------------------------------------

  lemma {:induction false} ReplayAscends(cfg: Config, p: Plan, path: seq<State>, i: nat, release: string)
    requires IsReplay(cfg, p, path) && Inv(cfg, path[0]) && i < |path| && CurrentName(release) in path[0].blobs
    ensures CurrentName(release) in path[i].blobs
    ensures Ascends(path[0].blobs[CurrentName(release)].body, path[i].blobs[CurrentName(release)].body)
  {
    hide Inv, ReplayStep, Ascends;
    var name := CurrentName(release);
    if i == 0 {
      AscendsToItself(path[0].blobs[name].body);
    } else {
      ReplayAscends(cfg, p, path, i - 1, release);
      ReplayKeeps(cfg, p, path, i - 1);
      ReplayIsPath(cfg, p, path);
      CurrentStep(cfg, path[i - 1], path[i], release);
      AscendsToItself(path[i].blobs[name].body);
      AscendsIsTransitive(path[0].blobs[name].body, path[i - 1].blobs[name].body, path[i].blobs[name].body);
    }
  }

  lemma {:induction false} ReplayExtendsStore(cfg: Config, p: Plan, path: seq<State>, i: nat)
    requires IsReplay(cfg, p, path) && Inv(cfg, path[0]) && i < |path|
    ensures path[0].queue <= path[i].queue
    ensures forall n: Name | n in path[0].blobs && !n.CurrentName? ::
      n in path[i].blobs && path[i].blobs[n] == path[0].blobs[n]
  {
    hide Inv, Enabled, Step, Serves;
    if i > 0 {
      ReplayExtendsStore(cfg, p, path, i - 1);
      ReplayKeeps(cfg, p, path, i - 1);
      assert ReplayStep(cfg, p, path[i - 1], path[i]);
      var a :| Enabled(cfg, path[i - 1], a) && Serves(p, path[i - 1], a) && Step(cfg, path[i - 1], a) == path[i];
      StepExtends(cfg, path[i - 1], a);
    }
  }

  /** What a completed run stored was acceptable. */
  lemma DoneIsAcceptable(cfg: Config, s: State, r: nat, ids: Ids, name: Name)
    requires Inv(cfg, s) && r < |s.runs| && s.runs[r].pc == Done && Given(ids, s.blobs)
    requires Wanted(cfg, s.runs[r].plan, ids(DarName(s.runs[r].plan)), name).Some?
    ensures var body := Wanted(cfg, s.runs[r].plan, ids(DarName(s.runs[r].plan)), name).value;
      if name.CurrentName? then ManifestSized(cfg.sizeOf(body))
      else cfg.sizeOf(body) >= 1 && DueAccepted(cfg, Blob(name, body)) && BodyAt(s, name) == Some(body)
  {
    hide CellInv, CommitInv, SentInv, ValidPlan, BatchesOf, AllObtained, SentBy, Wanted, ValidVersionId, ManifestSized;
    var run := s.runs[r];
    var early := run.(got := run.got[..Stages(run.plan)]);
    assert RunInv(cfg, s, run, r) && Vetted(cfg, run);
    EarlyObtained(cfg, s.blobs, run, early);
    DarObtained(cfg, s, early);
    if name.CurrentName? {
      DueIsWanted(cfg, run.plan, early.got, ids(DarName(run.plan)));
      DueAtEnd(early);
      OnlyOwnCurrent(cfg, run.plan, ids(DarName(run.plan)), name);
    } else {
      AllStored(cfg, s, early, name);
    }
  }

  lemma EarlyObtained(cfg: Config, blobs: map<Name, Cell>, run: Run, early: Run)
    requires AllObtained(cfg, blobs, run) && Stages(run.plan) <= |run.got|
    requires early == run.(got := run.got[..Stages(run.plan)])
    ensures AllObtained(cfg, blobs, early)
  {
    hide Due, Backed, BatchesOf;
    forall k | 0 <= k < |early.got|
      ensures Obtained(cfg, blobs, early, k)
    {
      assert Obtained(cfg, blobs, run, k) && early.got[..k] == run.got[..k];
    }
  }

  /** Conversely, what completed was not blocked: from a reachable store, runs of a
      valid plan can complete, with given version ids, if and only if nothing
      blocks it. */
  lemma CompletedWasUnblocked(cfg: Config, p: Plan, path: seq<State>, r: nat, ids: Ids)
    requires IsReplay(cfg, p, path) && Inv(cfg, path[0]) && Completed(p, path[0], path[|path| - 1], r)
    requires Given(ids, path[|path| - 1].blobs)
    ensures !Blocked(cfg, p, path[0], ids)
  {
    hide Inv, ReplayStep, Wanted, Given, DueAccepted, ManifestSized, Outranks, MessageAccepted, WantedMessage;
    hide BatchesOf;
    var s0, s := path[0], path[|path| - 1];
    ReplayKeeps(cfg, p, path, |path| - 1);
    ReplayExtendsStore(cfg, p, path, |path| - 1);
    forall name
      ensures !BlockedAt(cfg, p, s0, ids, name)
    {
      if Wanted(cfg, p, ids(DarName(p)), name).Some? {
        DoneIsAcceptable(cfg, s, r, ids, name);
        if name.CurrentName? && name in s0.blobs { CurrentWasReplaceable(cfg, p, path, r, ids, name); }
      }
    }
    forall i | 0 <= i < BatchesOf(p)
      ensures MessageAccepted(cfg, WantedMessage(cfg, p, ids, i))
    {
      SentWasAccepted(cfg, s, r, ids, i);
    }
  }

  lemma CurrentWasReplaceable(cfg: Config, p: Plan, path: seq<State>, r: nat, ids: Ids, name: Name)
    requires IsReplay(cfg, p, path) && Inv(cfg, path[0]) && Completed(p, path[0], path[|path| - 1], r)
    requires Given(ids, path[|path| - 1].blobs) && name.CurrentName? && name in path[0].blobs
    requires Wanted(cfg, p, ids(DarName(p)), name).Some?
    ensures MayReplace(cfg, p, path[0].blobs, name, Wanted(cfg, p, ids(DarName(p)), name).value)
  {
    hide Inv, ReplayStep, Outranks;
    var s0, s := path[0], path[|path| - 1];
    ReplayAscends(cfg, p, path, |path| - 1, name.release);
    ReplayPublishes(cfg, p, path, r);
    ReplayKeeps(cfg, p, path, |path| - 1);
    assert DarName(p) in s.blobs;
    CurrentIsSized(cfg, s0, name);
  }

  lemma CurrentIsSized(cfg: Config, s: State, name: Name)
    requires Inv(cfg, s) && name.CurrentName? && name in s.blobs
    ensures s.blobs[name].body.ManifestBody? && ManifestSized(cfg.sizeOf(s.blobs[name].body))
  {
    hide RunInv, SentInv, BatchesOf, SentBy, MessageAccepted, ValidVersionId;
    assert CellInv(s, name, s.blobs[name]);
    var c := s.log[s.blobs[name].etag];
    assert CommitInv(cfg, s, c) && Vetted(cfg, s.runs[c.run]);
    SentKnown(s.queue, s.runs[c.run], c.run);
  }

  lemma SentWasAccepted(cfg: Config, s: State, r: nat, ids: Ids, i: nat)
    requires Inv(cfg, s) && r < |s.runs| && s.runs[r].pc == Done && Given(ids, s.blobs) && i < BatchesOf(s.runs[r].plan)
    ensures MessageAccepted(cfg, WantedMessage(cfg, s.runs[r].plan, ids, i))
  {
    hide CellInv, CommitInv, SentInv, ValidPlan, BatchesOf, AllObtained, MessageAccepted, WantedMessage, RowsOf;
    var run := s.runs[r];
    assert RunInv(cfg, s, run, r);
    var early := run.(got := run.got[..Stages(run.plan)]);
    EarlyObtained(cfg, s.blobs, run, early);
    MessagesAreWanted(cfg, s, early, ids, i);
    assert MessageOf(run.plan, run.got, i) == MessageOf(run.plan, early.got, i);
    assert Sent(MessageOf(run.plan, run.got, i), r, i) in s.queue;
  }

  // ---- From the empty store ------------------------------------------------------------

  lemma EmptyIsInvariant(cfg: Config)
    ensures Inv(cfg, INITIAL)
  {}

  /** The version that the release's current manifest names. */
  function CurrentVersion(s: State, release: string): Option<string> {
    match BodyAt(s, CurrentName(release))
    case Some(ManifestBody(m)) => Some(m.version)
    case _ => None
  }

  /** Any valid plan that nothing blocks can be the first to be published, also one
      whose version has no key: the plan step does not ask for one, and neither
      does the first write of a current manifest. */
  lemma FirstPublication(cfg: Config, p: Plan, ids: Ids) returns (run: seq<State>)
    requires ValidPlan(cfg, p) && !Blocked(cfg, p, INITIAL, ids)
    ensures IsRun(cfg, run) && CurrentVersion(run[|run| - 1], p.source.release) == Some(p.source.version)
  {
    hide Inv, CanStep, ReplayStep, ValidPlan, BatchesOf, Blocked;
    EmptyIsInvariant(cfg);
    var r;
    run, r := UnblockedCompletes(cfg, p, INITIAL, ids);
    ReplayIsPath(cfg, p, run);
    var s := run[|run| - 1];
    assert Wanted(cfg, p, DarVersion(s, p), CurrentName(p.source.release)).Some?;
  }

  /** A current manifest never names a version of more than 120 characters, since
      its contract limits the download name. */
  lemma CurrentVersionIsShort(cfg: Config, run: seq<State>, i: nat, release: string)
    requires IsRun(cfg, run) && i < |run| && CurrentVersion(run[i], release).Some?
    ensures |CurrentVersion(run[i], release).value| <= 120
  {
    hide IsRun, AllObtained, PcInv, SentInv, BatchesOf, SentBy, MessageAccepted, ValidVersionId;
    hide Versions.MatchesPattern;
    Reachable(cfg, run, i);
    PublishedIsAccepted(cfg, run, i, release, 0);
    var s, name := run[i], CurrentName(release);
    assert CellInv(s, name, s.blobs[name]);
    var c := s.log[s.blobs[name].etag];
    assert CommitInv(cfg, s, c) && RunInv(cfg, s, s.runs[c.run], c.run);
    SentKnown(s.queue, s.runs[c.run], c.run);
    PatternIsSome(s.runs[c.run].plan.source.version);
  }

  lemma PatternIsSome(v: string)
    requires Versions.MatchesPattern(v)
    ensures v != ""
  {}

  // ---- Two histories ----------------------------------------------------------------------

  /** Documents of size one, and no complaint about text. */
  const SMALL := Config((b: Body) => 1, (m: Message) => 1, (p: Plan) => true)

  const ORIGIN := "https://h.example.internal"

  const ONE_ID: Ids := (n: Name) => "1"

  /** A plan of version `v` for these recipients, one in each batch. */
  function PlanOf(v: string, origin: string, recipients: seq<Batches.Recipient>): Plan
    requires v != ""
  {
    var download := "dar-" + v[1..] + ".zip";
    Plan(Settings("o/r", origin, 1),
         Source("releases/" + v + "/" + download, Sha(ArchiveBody("a")), 1, download, "r", v),
         "0123456789abcdef0123456789abcdef01234567", "2026-01-01T00:00:00Z", recipients, "a")
  }

  lemma PlanIsValid(v: string, origin: string, recipients: seq<Batches.Recipient>)
    requires v != "" && Versions.MatchesPattern(v) && 1 <= |recipients| <= MAX_BATCHES && Ascending(recipients)
    ensures ValidPlan(SMALL, PlanOf(v, origin, recipients))
    ensures BatchesOf(PlanOf(v, origin, recipients)) == |recipients|
  {
    hide Versions.MatchesPattern, Wanted, Before;
  }

  /** With these sizes, only another body under a wanted name can block. */
  lemma SmallIsBlockedOnlyByBodies(v: string, origin: string, recipients: seq<Batches.Recipient>, s: State)
    requires v != "" && |v| <= 120 && |recipients| >= 1
    requires var p := PlanOf(v, origin, recipients);
      forall name | name in s.blobs && Wanted(SMALL, p, "1", name).Some? ::
        s.blobs[name].body == Wanted(SMALL, p, "1", name).value
    ensures !Blocked(SMALL, PlanOf(v, origin, recipients), s, ONE_ID)
  {
    hide Wanted, Outranks, BatchesOf;
    var p := PlanOf(v, origin, recipients);
    forall name
      ensures !BlockedAt(SMALL, p, s, ONE_ID, name)
    {
      if Wanted(SMALL, p, "1", name).Some? && name.ManifestName? { WantedManifest(p, "1", name); }
    }
    forall i | 0 <= i < BatchesOf(p)
      ensures MessageAccepted(SMALL, WantedMessage(SMALL, p, ONE_ID, i))
    {}
  }

  lemma WantedManifest(p: Plan, version: string, name: Name)
    requires Wanted(SMALL, p, version, name).Some? && name.ManifestName?
    ensures var body := Wanted(SMALL, p, version, name).value;
      && body.ManifestBody? && body.manifest.download == p.source.download
      && body.manifest.dar.version == version
  {}

  /** In some run the current manifest of release "r" comes to name `v`. */
  ghost predicate CanBecomeCurrent(cfg: Config, v: string) {
    exists run: seq<State> :: IsRun(cfg, run) && CurrentVersion(run[|run| - 1], "r") == Some(v)
  }

  lemma ShortCanBecomeCurrent(v: string)
    requires Versions.MatchesPattern(v) && |v| <= 120
    ensures CanBecomeCurrent(SMALL, v)
  {
    hide IsRun, Versions.MatchesPattern, CurrentVersion;
    PatternIsSome(v);
    var one := [Batches.Recipient("a@x.io", "A", "B")];
    PlanIsValid(v, ORIGIN, one);
    SmallIsBlockedOnlyByBodies(v, ORIGIN, one, INITIAL);
    var run := FirstPublication(SMALL, PlanOf(v, ORIGIN, one), ONE_ID);
  }

  lemma LongNeverBecomesCurrent(cfg: Config, v: string)
    requires |v| > 120
    ensures !CanBecomeCurrent(cfg, v)
  {
    hide CanStep, CurrentVersion;
    forall run: seq<State> | IsRun(cfg, run)
      ensures CurrentVersion(run[|run| - 1], "r") != Some(v)
    {
      if CurrentVersion(run[|run| - 1], "r").Some? { CurrentVersionIsShort(cfg, run, |run| - 1, "r"); }
    }
  }

  /** A version whose first group exceeds 32 bits can become current, and then it
      is so for ever, if and only if that group has at most 112 digits. */
  lemma UnkeyedCanBecomeCurrent(n: nat)
    requires n > Versions.MAX_UINT32
    ensures !Versions.IsProductVersion(Versions.VersionOf(n))
    ensures CanBecomeCurrent(SMALL, Versions.VersionOf(n)) <==> |Decimals.Show(n)| <= 112
  {
    hide CanBecomeCurrent, Versions.MatchesPattern, Versions.IsProductVersion, Versions.VersionOf, Decimals.Show;
    var v := Versions.VersionOf(n);
    Versions.LargeGroups(n);
    Versions.VersionLength(n);
    if |v| <= 120 { ShortCanBecomeCurrent(v); } else { LongNeverBecomesCurrent(SMALL, v); }
  }

  // ---- Copies that differ ------------------------------------------------------------------

  /** What `p1` has published does not stand in the way of `p2`, which has the same
      first recipient and another one. */
  lemma SharedNames(p1: Plan, p2: Plan, v: string, name: Name)
    requires p2 == p1.(recipients := p2.recipients) && p1.settings.batchSize == 1
    requires |p1.recipients| == 1 && |p2.recipients| == 2 && p1.recipients[0] == p2.recipients[0]
    requires Wanted(SMALL, p1, v, name).Some?
    ensures Wanted(SMALL, p2, v, name) == Wanted(SMALL, p1, v, name)
  {
    if name.BatchBlobName? {
      assert p1.recipients[0..1] == p2.recipients[0..1];
    }
  }

  /** Requests of one operation that differ in origin only share every blob. */
  lemma OriginsShareNames(v: string, o1: string, o2: string, rs: seq<Batches.Recipient>, id: string, name: Name)
    requires v != ""
    ensures Wanted(SMALL, PlanOf(v, o1, rs), id, name) == Wanted(SMALL, PlanOf(v, o2, rs), id, name)
  {}

  /** The first message of a completed run is in the queue. */
  lemma FirstIsSent(cfg: Config, s: State, r: nat) returns (k: nat)
    requires Inv(cfg, s) && r < |s.runs| && s.runs[r].pc == Done
    ensures k < |s.queue| && s.queue[k].message.id == MessageId(OperationOf(s.runs[r].plan), 0)
    ensures s.queue[k].message.batchCount == BatchesOf(s.runs[r].plan)
    ensures var p := s.runs[r].plan;
      s.queue[k].message.url == UrlAt(p.settings.origin, p.source.version, p.source.download)
  {
    hide CellInv, CommitInv, SentInv, AllObtained, BatchesOf, UrlAt;
    var run := s.runs[r];
    assert RunInv(cfg, s, run, r);
    SomeBatch(cfg, run.plan);
    var m := Sent(MessageOf(run.plan, run.got, 0), r, 0);
    assert m in s.queue;
    k :| 0 <= k < |s.queue| && s.queue[k] == m;
  }

  lemma Joined(cfg: Config, one: seq<State>, two: seq<State>) returns (run: seq<State>)
    requires IsRun(cfg, one) && IsPath(cfg, two) && two[0] == one[|one| - 1]
    ensures IsRun(cfg, run) && run[|run| - 1] == two[|two| - 1]
  {
    hide CanStep;
    run := one + two[1..];
    forall i | 0 < i < |run|
      ensures CanStep(cfg, run[i - 1], run[i])
    {
      if i < |one| {
        assert CanStep(cfg, one[i - 1], one[i]);
      } else {
        var j := i - |one| + 1;
        assert CanStep(cfg, two[j - 1], two[j]) && run[i] == two[j] && run[i - 1] == two[j - 1];
      }
    }
  }

  /** Two requests of which the first leaves nothing in the way of the second are
      both completed, one after the other; the first messages of both are queued. */
  lemma BothComplete(p1: Plan, p2: Plan) returns (run: seq<State>, j: nat, k: nat)
    requires ValidPlan(SMALL, p1) && ValidPlan(SMALL, p2) && DarName(p1) == DarName(p2)
    requires !Blocked(SMALL, p1, INITIAL, ONE_ID)
    requires forall s | IsPublished(SMALL, p1, INITIAL, s) && DarVersion(s, p1) == "1" :: !Blocked(SMALL, p2, s, ONE_ID)
    ensures IsRun(SMALL, run)
    ensures var queue := run[|run| - 1].queue;
      && j < |queue| && k < |queue|
      && queue[j].message.id == MessageId(OperationOf(p1), 0) && queue[k].message.id == MessageId(OperationOf(p2), 0)
      && queue[j].message.batchCount == BatchesOf(p1) && queue[k].message.batchCount == BatchesOf(p2)
      && queue[j].message.url == UrlAt(p1.settings.origin, p1.source.version, p1.source.download)
      && queue[k].message.url == UrlAt(p2.settings.origin, p2.source.version, p2.source.download)
  {
    hide Inv, CanStep, ReplayStep, ValidPlan, BatchesOf, IsPublished, Blocked, UrlAt;
    EmptyIsInvariant(SMALL);
    var one, r := UnblockedCompletes(SMALL, p1, INITIAL, ONE_ID);
    var s := one[|one| - 1];
    ReplayKeeps(SMALL, p1, one, |one| - 1);
    assert DarVersion(s, p1) == "1";
    var two, q := UnblockedCompletes(SMALL, p2, s, ONE_ID);
    ReplayIsPath(SMALL, p1, one);
    ReplayIsPath(SMALL, p2, two);
    run := Joined(SMALL, one, two);
    j := FirstIsSent(SMALL, s, r);
    k := FirstIsSent(SMALL, two[|two| - 1], q);
    ReplayExtendsStore(SMALL, p2, two, |two| - 1);
  }

  /** Two requests of one operation, the second with one recipient more, both
      complete, and leave two different messages under one id. */
  lemma CopiesCanDiffer() returns (run: seq<State>, j: nat, k: nat)
    ensures IsRun(SMALL, run)
    ensures var queue := run[|run| - 1].queue;
      && j < |queue| && k < |queue|
      && queue[j].message.id == queue[k].message.id && queue[j].message.batchCount != queue[k].message.batchCount
  {
    hide IsRun, ValidPlan, BatchesOf, IsPublished, Blocked, Versions.MatchesPattern, Wanted, UrlAt, Versions.VersionOf;
    var v := Versions.VersionOf(1);
    SomeVersion();
    var a, b := Batches.Recipient("a@x.io", "A", "B"), Batches.Recipient("b@x.io", "A", "B");
    var p1, p2 := PlanOf(v, ORIGIN, [a]), PlanOf(v, ORIGIN, [a, b]);
    PlanIsValid(v, ORIGIN, [a]);
    PlanIsValid(v, ORIGIN, [a, b]);
    SmallIsBlockedOnlyByBodies(v, ORIGIN, [a], INITIAL);
    forall s | IsPublished(SMALL, p1, INITIAL, s) && DarVersion(s, p1) == "1"
      ensures !Blocked(SMALL, p2, s, ONE_ID)
    {
      forall name | name in s.blobs && Wanted(SMALL, p2, "1", name).Some?
        ensures s.blobs[name].body == Wanted(SMALL, p2, "1", name).value
      {
        PublishedHolds(p1, s, name);
        SharedNames(p1, p2, "1", name);
      }
      SmallIsBlockedOnlyByBodies(v, ORIGIN, [a, b], s);
    }
    run, j, k := BothComplete(p1, p2);
  }

  /** The same request replayed by a publisher with another origin completes as
      well, and its messages carry the same ids and another link. */
  lemma OriginsCanDiffer(o1: string, o2: string) returns (run: seq<State>, j: nat, k: nat)
    requires o1 != o2
    ensures IsRun(SMALL, run)
    ensures var queue := run[|run| - 1].queue;
      && j < |queue| && k < |queue|
      && queue[j].message.id == queue[k].message.id && queue[j].message.url != queue[k].message.url
  {
    hide IsRun, ValidPlan, BatchesOf, IsPublished, Blocked, Versions.MatchesPattern, Wanted, UrlAt, Versions.VersionOf;
    var v := Versions.VersionOf(1);
    SomeVersion();
    var one := [Batches.Recipient("a@x.io", "A", "B")];
    var p1, p2 := PlanOf(v, o1, one), PlanOf(v, o2, one);
    PlanIsValid(v, o1, one);
    PlanIsValid(v, o2, one);
    SmallIsBlockedOnlyByBodies(v, o1, one, INITIAL);
    forall s | IsPublished(SMALL, p1, INITIAL, s) && DarVersion(s, p1) == "1"
      ensures !Blocked(SMALL, p2, s, ONE_ID)
    {
      forall name | name in s.blobs && Wanted(SMALL, p2, "1", name).Some?
        ensures s.blobs[name].body == Wanted(SMALL, p2, "1", name).value
      {
        PublishedHolds(p1, s, name);
        OriginsShareNames(v, o1, o2, one, "1", name);
      }
      SmallIsBlockedOnlyByBodies(v, o2, one, s);
    }
    run, j, k := BothComplete(p1, p2);
    UrlTellsOrigin(o1, o2, v, p1.source.download);
  }

  lemma SomeVersion()
    ensures var v := Versions.VersionOf(1); v != "" && |v| <= 120 && Versions.MatchesPattern(v)
  {
    hide Versions.MatchesPattern;
    Versions.LargeGroups(1);
    Versions.VersionLength(1);
  }

  /** After a first publication, only wanted bodies are stored. */
  lemma PublishedHolds(p: Plan, s: State, name: Name)
    requires IsPublished(SMALL, p, INITIAL, s) && DarVersion(s, p) == "1" && name in s.blobs
    ensures Wanted(SMALL, p, "1", name) == Some(s.blobs[name].body)
  {
    hide Wanted;
    assert BodyAt(s, name) != None;
  }
}
