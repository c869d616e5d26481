/** What can stand in the way of a publication (internal/publication/azure.go):
    a blob that is there with another body, or a current manifest that may not be
    replaced. */
module Blocking {
  import opened Basics
  import opened Releases
  import opened Publishers
  import opened PublicationGuarantees
  import Batches

  /** The current manifest may be created, found equal, or replaced. */
  ghost predicate MayReplace(cfg: Config, p: Plan, blobs: map<Name, Cell>, name: Name, body: Body) {
    || name !in blobs || blobs[name].body == body
    || (blobs[name].body.ManifestBody? && ManifestSized(cfg.sizeOf(blobs[name].body))
        && Outranks(p.source.version, blobs[name].body.manifest.version))
  }

  /** What was stored is still stored, and no current manifest has been created. */
  ghost predicate Kept(b0: map<Name, Cell>, b: map<Name, Cell>) {
    && (forall n | n in b0 :: n in b && b[n] == b0[n])
    && (forall n: Name | n.CurrentName? && n in b :: n in b0)
  }

  /** The ids are those of the blobs that are stored. */
  ghost predicate Given(ids: Ids, blobs: map<Name, Cell>) {
    forall n: Name | n in blobs && !n.CurrentName? :: ids(n) == blobs[n].version
  }

  /** What stands in the way of a plan, if its new blobs are given these ids: some
      wanted blob, or some message that its contract refuses. */
  ghost predicate Blocked(cfg: Config, p: Plan, s0: State, ids: Ids) {
    || (exists name :: BlockedAt(cfg, p, s0, ids, name))
    || (exists i :: 0 <= i < BatchesOf(p) && !MessageAccepted(cfg, WantedMessage(cfg, p, ids, i)))
  }

  /** The blob is empty, is a manifest that its contract refuses, or is there
      already with another body. */
  predicate Unstorable(cfg: Config, blobs: map<Name, Cell>, blob: Blob) {
    || cfg.sizeOf(blob.body) < 1 || !DueAccepted(cfg, blob)
    || (blob.name in blobs && blobs[blob.name].body != blob.body)
  }

  /** A wanted blob cannot be stored, or is a current manifest that may not be
      replaced. */
  ghost predicate BlockedAt(cfg: Config, p: Plan, s0: State, ids: Ids, name: Name) {
    && Wanted(cfg, p, ids(DarName(p)), name).Some?
    && var body := Wanted(cfg, p, ids(DarName(p)), name).value;
       if name.CurrentName? then !ManifestSized(cfg.sizeOf(body)) || !MayReplace(cfg, p, s0.blobs, name, body)
       else Unstorable(cfg, s0.blobs, Blob(name, body))
  }

  /** Whatever ids the missing blobs would be given, the plan is blocked. */
  ghost predicate Hopeless(cfg: Config, p: Plan, s0: State, blobs: map<Name, Cell>) {
    forall ids | Given(ids, blobs) :: Blocked(cfg, p, s0, ids)
  }

  lemma SomeBatch(cfg: Config, p: Plan)
    requires ValidPlan(cfg, p)
    ensures BatchesOf(p) >= 1
  {
    Batches.BatchStarts(|p.recipients|, p.settings.batchSize, 0);
  }

  lemma ImmutableStage(run: Run)
    requires |run.got| < Stages(run.plan)
    ensures !DueOf(run).name.CurrentName?
  {}

  lemma WantedSame(cfg: Config, p: Plan, v: string, w: string, name: Name)
    requires (name.ManifestName? || name.CurrentName? ==> v == w)
    ensures Wanted(cfg, p, v, name) == Wanted(cfg, p, w, name)
  {
    hide BatchesOf, RowsOf;
  }

  /** A stage that cannot be stored now could not be stored from the start. */
  lemma StageIsBlocked(cfg: Config, p: Plan, s0: State, s: State, ids: Ids, r: nat, name: Name, body: Body)
    requires Inv(cfg, s) && Grown(cfg, p, s0, s) && Given(ids, s.blobs)
    requires r < |s.runs| && s.runs[r].plan == p && |s.runs[r].got| < Stages(p)
    requires DueOf(s.runs[r]) == Blob(name, body) && !name.CurrentName?
    requires Unstorable(cfg, s.blobs, Blob(name, body))
    ensures Blocked(cfg, p, s0, ids)
  {
    hide Inv, Wanted, DueOf, BatchesOf, DueAccepted;
    RunWritesWanted(cfg, s, r);
    WantedSame(cfg, p, DarVersion(s, p), ids(DarName(p)), name);
    if name in s.blobs && s.blobs[name].body != body { assert BodyAt(s, name) == BodyAt(s0, name); }
    assert BlockedAt(cfg, p, s0, ids, name);
  }

  /** Blobs that are kept keep their ids. */
  lemma GivenEarlier(ids: Ids, b: map<Name, Cell>, b': map<Name, Cell>)
    requires Given(ids, b') && forall n: Name | n in b && !n.CurrentName? :: n in b' && b'[n] == b[n]
    ensures Given(ids, b)
  {}

  lemma KeptItself(b: map<Name, Cell>)
    ensures Kept(b, b)
  {}

  lemma AloneIsReplay(cfg: Config, p: Plan, s: State)
    ensures IsReplay(cfg, p, [s])
  {}

  lemma ReplayExtends(cfg: Config, p: Plan, path: seq<State>, a: Label)
    requires IsReplay(cfg, p, path)
    requires Enabled(cfg, path[|path| - 1], a) && Serves(p, path[|path| - 1], a)
    ensures IsReplay(cfg, p, path + [Step(cfg, path[|path| - 1], a)])
  {
    hide Enabled, Serves, Step;
    var s := path[|path| - 1];
    assert ReplayStep(cfg, p, s, Step(cfg, s, a));
    var longer := path + [Step(cfg, s, a)];
    forall i | 0 < i < |longer|
      ensures ReplayStep(cfg, p, longer[i - 1], longer[i])
    {
      if i < |path| { assert ReplayStep(cfg, p, path[i - 1], path[i]); }
    }
  }

  /** Where the blob of a wanted name is, once every stage is done. */
  lemma AllStored(cfg: Config, s: State, run: Run, name: Name)
    requires AllObtained(cfg, s.blobs, run) && |run.got| == Stages(run.plan)
    requires !name.CurrentName? && Wanted(cfg, run.plan, DarVersion(s, run.plan), name).Some?
    ensures var body := Wanted(cfg, run.plan, DarVersion(s, run.plan), name).value;
      && BodyAt(s, name) == Some(body)
      && (exists k :: 0 <= k < |run.got| && run.got[k].size == cfg.sizeOf(body))
      && (name.ManifestName? ==> body == ManifestOf(run.plan, run.got[1]))
  {
    hide BatchesOf, Wanted, Due;
    var p, v := run.plan, DarVersion(s, run.plan);
    DarObtained(cfg, s, run);
    var k := StageOf(cfg, p, name);
    BeforeCurrent(cfg, p, name);
    assert Due(p, run.got[..k]).name == name;
    assert Obtained(cfg, s.blobs, run, k);
    DueIsWanted(cfg, p, run.got[..k], v);
    assert run.got[k].size == cfg.sizeOf(Wanted(cfg, p, v, name).value);
    if name.ManifestName? { StageOfManifest(cfg, p, name, run.got[..k]); }
  }

  lemma StageOfManifest(cfg: Config, p: Plan, name: Name, got: seq<Ref>)
    requires name.ManifestName? && (exists v :: Wanted(cfg, p, v, name).Some?) && |got| == StageOf(cfg, p, name)
    ensures |got| == 2 && Due(p, got).body == ManifestOf(p, got[1])
  {}

  lemma BeforeCurrent(cfg: Config, p: Plan, name: Name)
    requires !name.CurrentName? && exists v :: Wanted(cfg, p, v, name).Some?
    ensures StageOf(cfg, p, name) < Stages(p)
  {
    hide BatchesOf, RowsOf;
  }

  lemma DarObtained(cfg: Config, s: State, run: Run)
    requires AllObtained(cfg, s.blobs, run) && |run.got| == Stages(run.plan)
    ensures DarName(run.plan) in s.blobs
    ensures DarIs(cfg, run.plan, run.got, DarVersion(s, run.plan))
    ensures forall k | 0 <= k <= |run.got| :: DarIs(cfg, run.plan, run.got[..k], DarVersion(s, run.plan))
  {
    hide BatchesOf;
    assert Obtained(cfg, s.blobs, run, 1);
  }

  /** Once every stage is done, the messages are the wanted ones. */
  lemma MessagesAreWanted(cfg: Config, s: State, run: Run, ids: Ids, i: nat)
    requires AllObtained(cfg, s.blobs, run) && |run.got| == Stages(run.plan) && Given(ids, s.blobs)
    requires i < BatchesOf(run.plan)
    ensures MessageOf(run.plan, run.got, i) == WantedMessage(cfg, run.plan, ids, i)
  {
    hide BatchesOf, AllObtained, RowsOf;
    StagesAreBacked(cfg, s.blobs, run);
    BatchIsBacked(cfg, s.blobs, run, i);
    CountIsRows(run.plan, i);
  }

  /** Once every message is sent, only the current manifest can block, and it does
      exactly when it may not be replaced. */
  lemma Verdict(cfg: Config, p: Plan, s0: State, s: State, ids: Ids, r: nat)
    requires Inv(cfg, s) && Kept(s0.blobs, s.blobs) && Given(ids, s.blobs)
    requires r < |s.runs| && s.runs[r].plan == p && |s.runs[r].got| == Stages(p)
    requires s.runs[r].pc == Looking
    ensures var name, body := CurrentName(p.source.release), ManifestOf(p, s.runs[r].got[1]);
      Blocked(cfg, p, s0, ids) <==> !(ManifestSized(cfg.sizeOf(body)) && MayReplace(cfg, p, s.blobs, name, body))
  {
    hide CellInv, CommitInv, SentInv, ValidPlan, BatchesOf, AllObtained, Wanted, ManifestSized, Outranks;
    hide ManifestAccepted, MessageAccepted, WantedMessage, MessageOf;
    var run, v := s.runs[r], ids(DarName(p));
    var current, body := CurrentName(p.source.release), ManifestOf(p, run.got[1]);
    assert RunInv(cfg, s, run, r) && Vetted(cfg, run);
    DarObtained(cfg, s, run);
    assert v == DarVersion(s, p);
    DueAtEnd(run);
    DueIsWanted(cfg, p, run.got, v);
    assert BlockedAt(cfg, p, s0, ids, current) <==>
      !(ManifestSized(cfg.sizeOf(body)) && MayReplace(cfg, p, s.blobs, current, body));
    forall name | name != current
      ensures !BlockedAt(cfg, p, s0, ids, name)
    {
      if Wanted(cfg, p, v, name).Some? {
        if name.CurrentName? { OnlyOwnCurrent(cfg, p, v, name); } else { AllStored(cfg, s, run, name); }
      }
    }
    forall i | 0 <= i < BatchesOf(p)
      ensures MessageAccepted(cfg, WantedMessage(cfg, p, ids, i))
    {
      MessagesAreWanted(cfg, s, run, ids, i);
      assert Sent(MessageOf(p, run.got, i), r, i) in s.queue;
    }
  }
}
