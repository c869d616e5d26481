/** What publication promises in every run of Publishers.dfy. */
module PublicationGuarantees {
  import opened Basics
  import opened Batches
  import opened Releases
  import opened Publishers
  import Versions

  // ---- Messages refer to what exists ---------------------------------------------

  /** The worker that receives `m` finds everything it refers to: a manifest of
      its own operation that points to the archive of the source, the rows of
      its batch, and its operation as the owner of the version. */
  ghost predicate Deliverable(cfg: Config, blobs: map<Name, Cell>, m: Message) {
    && m.manifest.name == ManifestName(m.release, m.op)
    && m.batch.name == BatchBlobName(m.op, m.batchIndex)
    && (exists origin :: m.url == UrlAt(origin, m.version, m.op.source.download))
    && m.id == MessageId(m.op, m.batchIndex) && m.batchIndex < m.batchCount
    && m.op.source.release == m.release && m.op.source.version == m.version && m.op.commit == m.commit
    && (exists mf :: Backed(cfg, blobs, m.manifest, ManifestBody(mf)) && Describes(cfg, blobs, mf, m))
    && (exists rows :: Backed(cfg, blobs, m.batch, BatchBody(rows)) && |rows| == m.recipientCount)
    && Owner(blobs, m.release, m.version) == Some(m.op)
    && blobs[IdentityName(m.release, m.version)].body
       == IdentityBody(m.op.commit, m.op, m.op.repository, m.op.source)
  }

  /** The manifest is the one of the message and names an existing archive. */
  ghost predicate Describes(cfg: Config, blobs: map<Name, Cell>, mf: Manifest, m: Message) {
    && mf.op == m.op && mf.release == m.release && mf.version == m.version && mf.commit == m.commit
    && mf.repository == m.op.repository
    && mf.publishedAt == m.createdAt && mf.download == m.op.source.download
    && mf.dar.digest == m.op.source.dar && mf.dar.size == m.op.source.darSize
    && Backed(cfg, blobs, mf.dar, mf.dar.digest.body)
  }

  /** The operation recorded for a release version. */
  function Owner(blobs: map<Name, Cell>, release: string, version: string): Option<OperationId> {
    var name := IdentityName(release, version);
    if name in blobs && blobs[name].body.IdentityBody? then Some(blobs[name].body.op) else None
  }

  /** The blobs behind a run that has reached its messages. */
  lemma StagesAreBacked(cfg: Config, blobs: map<Name, Cell>, run: Run)
    requires AllObtained(cfg, blobs, run) && Stages(run.plan) <= |run.got|
    ensures var p, op := run.plan, OperationOf(run.plan);
      && Owner(blobs, p.source.release, p.source.version) == Some(op)
      && blobs[IdentityName(p.source.release, p.source.version)].body == IdentityOf(p)
      && run.got[1].name == ArchiveName(p.source.version, p.source.download)
      && Backed(cfg, blobs, run.got[1], ArchiveBody(p.archive))
      && run.got[2].name == ManifestName(p.source.release, op)
      && Backed(cfg, blobs, run.got[2], ManifestOf(p, run.got[1]))
  {
    hide BatchesOf;
    assert Obtained(cfg, blobs, run, 0) && Obtained(cfg, blobs, run, 1) && Obtained(cfg, blobs, run, 2);
  }

  lemma BatchIsBacked(cfg: Config, blobs: map<Name, Cell>, run: Run, i: nat)
    requires AllObtained(cfg, blobs, run) && Stages(run.plan) <= |run.got|
    requires i < BatchesOf(run.plan)
    ensures run.got[3 + i].name == BatchBlobName(OperationOf(run.plan), i)
    ensures Backed(cfg, blobs, run.got[3 + i], BatchBody(RowsOf(run.plan, i)))
  {
    hide BatchesOf;
    assert Obtained(cfg, blobs, run, 3 + i);
  }

  lemma QueuedIsDeliverable(cfg: Config, s: State, k: nat)
    requires Inv(cfg, s) && k < |s.queue|
    ensures Deliverable(cfg, s.blobs, s.queue[k].message)
  {
    hide BatchesOf, AllObtained, CellInv, CommitInv, RowsOf;
    var sent := s.queue[k];
    assert SentInv(cfg, s, sent);
    var run, m := s.runs[sent.run], sent.message;
    assert RunInv(cfg, s, run, sent.run);
    StagesAreBacked(cfg, s.blobs, run);
    BatchIsBacked(cfg, s.blobs, run, sent.index);
    CountIsRows(run.plan, sent.index);
    var mf := ManifestOf(run.plan, run.got[1]).manifest;
    assert Backed(cfg, s.blobs, m.manifest, ManifestBody(mf)) && Describes(cfg, s.blobs, mf, m);
  }

  /** In every state of every run, every message ever queued refers only to
      blobs that exist with the stated digest, size and version. */
  lemma MessagesAreDeliverable(cfg: Config, run: seq<State>, i: nat, k: nat)
    requires IsRun(cfg, run) && i < |run| && k < |run[i].queue|
    ensures Deliverable(cfg, run[i].blobs, run[i].queue[k].message)
  {
    hide IsRun, Inv, Deliverable;
    Reachable(cfg, run, i);
    QueuedIsDeliverable(cfg, run[i], k);
  }

  /** All messages ever queued for one release version are of one operation. */
  lemma OneOperationPerVersion(cfg: Config, run: seq<State>, i: nat, j: nat, k: nat)
    requires IsRun(cfg, run) && i < |run| && j < |run[i].queue| && k < |run[i].queue|
    requires var a, b := run[i].queue[j].message, run[i].queue[k].message;
      a.release == b.release && a.version == b.version
    ensures run[i].queue[j].message.op == run[i].queue[k].message.op
  {
    hide IsRun, Owner;
    MessagesAreDeliverable(cfg, run, i, j);
    MessagesAreDeliverable(cfg, run, i, k);
  }

  /** Queued copies of one message id agree in everything but the link's origin
      and the batch count, so they are identical if and only if their publishers
      have the same origin and their plans as many batches; copies of one request
      to one publisher are. */
  lemma CopiesAgree(cfg: Config, run: seq<State>, i: nat, j: nat, k: nat)
    requires IsRun(cfg, run) && i < |run| && j < |run[i].queue| && k < |run[i].queue|
    requires run[i].queue[j].message.id == run[i].queue[k].message.id
    ensures var a, b := run[i].queue[j], run[i].queue[k];
      && a.message == b.message.(url := a.message.url, batchCount := a.message.batchCount)
      && a.run < |run[i].runs| && b.run < |run[i].runs|
      && var p, q := run[i].runs[a.run].plan, run[i].runs[b.run].plan;
         a.message == b.message <==> p.settings.origin == q.settings.origin && BatchesOf(p) == BatchesOf(q)
  {
    hide IsRun, BatchesOf, AllObtained, CellInv, CommitInv, RunInv, Owner, UrlAt;
    Reachable(cfg, run, i);
    var s := run[i];
    var a, b := s.queue[j], s.queue[k];
    assert SentInv(cfg, s, a) && SentInv(cfg, s, b);
    QueuedIsDeliverable(cfg, s, j);
    QueuedIsDeliverable(cfg, s, k);
    SameBlobSameRef(cfg, s.blobs, a.message, b.message);
    UrlTellsOrigin(s.runs[a.run].plan.settings.origin, s.runs[b.run].plan.settings.origin,
                   a.message.version, a.message.op.source.download);
  }

  lemma UrlTellsOrigin(o1: string, o2: string, version: string, download: string)
    ensures UrlAt(o1, version, download) == UrlAt(o2, version, download) <==> o1 == o2
  {
    var u1, u2 := UrlAt(o1, version, download), UrlAt(o2, version, download);
    if u1 == u2 { assert u1[..|o1|] == o1 && u2[..|o2|] == o2; }
  }

  lemma SameBlobSameRef(cfg: Config, blobs: map<Name, Cell>, a: Message, b: Message)
    requires Deliverable(cfg, blobs, a) && Deliverable(cfg, blobs, b) && a.id == b.id
    ensures a.manifest == b.manifest && a.batch == b.batch
    ensures a.createdAt == b.createdAt && a.recipientCount == b.recipientCount
  {
    hide Owner;
    var mf :| Backed(cfg, blobs, a.manifest, ManifestBody(mf)) && Describes(cfg, blobs, mf, a);
    var mg :| Backed(cfg, blobs, b.manifest, ManifestBody(mg)) && Describes(cfg, blobs, mg, b);
    assert mf == mg;
  }

  // ---- One message for each recipient ---------------------------------------------------

  /** The recipients of a queued message, in the plan of the run that sent it. */
  function RowsSent(cfg: Config, s: State, k: nat): seq<Recipient>
    requires k < |s.queue|
  {
    if SentInv(cfg, s, s.queue[k]) then RowsOf(s.runs[s.queue[k].run].plan, s.queue[k].index) else []
  }

  /** Batch `i` is the same in every plan of the operation that has come to send. */
  lemma SameBatch(cfg: Config, blobs: map<Name, Cell>, one: Run, two: Run, i: nat)
    requires AllObtained(cfg, blobs, one) && Stages(one.plan) <= |one.got| && i < BatchesOf(one.plan)
    requires AllObtained(cfg, blobs, two) && Stages(two.plan) <= |two.got| && i < BatchesOf(two.plan)
    requires OperationOf(one.plan) == OperationOf(two.plan)
    ensures RowsOf(one.plan, i) == RowsOf(two.plan, i)
  {
    hide AllObtained, BatchesOf, RowsOf;
    BatchIsBacked(cfg, blobs, one, i);
    BatchIsBacked(cfg, blobs, two, i);
  }

  /** However many requests of an operation were published, with whatever lists and
      batch sizes: two queued messages of it that share a recipient have the same
      message id. */
  lemma SharedRecipientSharedId(cfg: Config, run: seq<State>, i: nat, j: nat, k: nat, a: nat, b: nat)
    requires IsRun(cfg, run) && i < |run| && j < |run[i].queue| && k < |run[i].queue|
    requires run[i].queue[j].message.op == run[i].queue[k].message.op
    requires a < |RowsSent(cfg, run[i], j)| && b < |RowsSent(cfg, run[i], k)|
    requires RowsSent(cfg, run[i], j)[a].email == RowsSent(cfg, run[i], k)[b].email
    ensures run[i].queue[j].message.id == run[i].queue[k].message.id
  {
    hide IsRun, BatchesOf, RowsOf, AllObtained, PcInv, CellInv, CommitInv, Ascending;
    Reachable(cfg, run, i);
    var s := run[i];
    var x, y := s.queue[j], s.queue[k];
    assert SentInv(cfg, s, x) && SentInv(cfg, s, y);
    var one, two := s.runs[x.run], s.runs[y.run];
    assert RunInv(cfg, s, one, x.run) && RunInv(cfg, s, two, y.run);
    var p := if BatchesOf(one.plan) <= BatchesOf(two.plan) then two.plan else one.plan;
    if BatchesOf(one.plan) <= BatchesOf(two.plan) {
      SameBatch(cfg, s.blobs, one, two, x.index);
    } else {
      SameBatch(cfg, s.blobs, one, two, y.index);
    }
    assert RowsOf(p, x.index)[a].email == RowsOf(p, y.index)[b].email;
    if x.index < y.index {
      BatchesAreDisjoint(p, x.index, y.index, a, b);
    } else if y.index < x.index {
      BatchesAreDisjoint(p, y.index, x.index, b, a);
    }
  }

  // ---- The current manifest ---------------------------------------------------------

  function BodyAt(s: State, name: Name): Option<Body> {
    if name in s.blobs then Some(s.blobs[name].body) else None
  }

  /** A current manifest `x` may have become `y`. */
  ghost predicate Ascends(x: Body, y: Body) {
    || x == y
    || (x.ManifestBody? && y.ManifestBody? && Outranks(y.manifest.version, x.manifest.version))
  }

  /** Both are product versions, and `w` has the greater number at the first group
      in which they differ. */
  ghost predicate Outranks(w: string, v: string) {
    && Versions.IsProductVersion(v) && Versions.IsProductVersion(w)
    && Versions.Below(Versions.KeyOf(v), Versions.KeyOf(w))
  }

  lemma AdvancesIsOutranks(v: string, w: string)
    ensures Advances(v, w) <==> Outranks(w, v)
  {
    hide Versions.Less, Versions.Below, Versions.KeyOf, Versions.IsProductVersion;
    if Versions.IsProductVersion(v) && Versions.IsProductVersion(w) {
      Versions.LessIsBelow(Versions.KeyOf(v), Versions.KeyOf(w));
    }
  }

  /** A run overwrites a current manifest only by one of a higher version. */
  lemma SwapAscends(cfg: Config, s: State, a: Label)
    requires Inv(cfg, s) && a.Swap? && a.effect && Enabled(cfg, s, a)
    ensures var run, name := s.runs[a.run], DueOf(s.runs[a.run]).name;
      && name == CurrentName(run.plan.source.release)
      && s.blobs[name].body != DueOf(run).body && Ascends(s.blobs[name].body, DueOf(run).body)
  {
    hide ValidPlan, BatchesOf, CommitInv, SentInv, AllObtained, SentBy, Advances, Outranks, Due;
    var run := s.runs[a.run];
    assert RunInv(cfg, s, run, a.run);
    DueAtEnd(run);
    var name := DueOf(run).name;
    assert CellInv(s, name, s.blobs[name]);
    NeverAdvancesToItself(run.plan.source.version);
    AdvancesIsOutranks(s.log[run.pc.props.etag].body.manifest.version, run.plan.source.version);
  }

  /** One action leaves a current manifest alone or replaces it by one of a
      strictly higher version. */
  lemma CurrentStep(cfg: Config, s: State, s': State, release: string)
    requires Inv(cfg, s) && CanStep(cfg, s, s') && CurrentName(release) in s.blobs
    ensures CurrentName(release) in s'.blobs
    ensures var name := CurrentName(release);
      || s'.blobs[name] == s.blobs[name]
      || (|s.log| == s'.blobs[name].etag && s.blobs[name].body != s'.blobs[name].body
          && Ascends(s.blobs[name].body, s'.blobs[name].body))
  {
    hide Inv, ValidPlan, BatchesOf, MessageOf, Ascends, Next, DueOf, Stages;
    var a :| Enabled(cfg, s, a) && Step(cfg, s, a) == s';
    if a.Swap? && a.effect { SwapAscends(cfg, s, a); }
  }

  lemma NeverAdvancesToItself(v: string)
    ensures !Advances(v, v)
  {
    hide Versions.Less, Versions.KeyOf, Versions.IsProductVersion;
    if Versions.IsProductVersion(v) {
      var k := Versions.KeyOf(v);
      Versions.LessIsStrictTotal(k, k, k);
    }
  }

  lemma AscendsIsTransitive(x: Body, y: Body, z: Body)
    requires Ascends(x, y) && Ascends(y, z)
    ensures Ascends(x, z)
  {
    hide Versions.Less, Versions.Below, Versions.KeyOf, Versions.IsProductVersion;
    if x != y && y != z {
      Versions.LessIsBelow(Versions.KeyOf(x.manifest.version), Versions.KeyOf(y.manifest.version));
      Versions.LessIsBelow(Versions.KeyOf(y.manifest.version), Versions.KeyOf(z.manifest.version));
      Versions.LessIsBelow(Versions.KeyOf(x.manifest.version), Versions.KeyOf(z.manifest.version));
      Versions.LessIsStrictTotal(Versions.KeyOf(x.manifest.version), Versions.KeyOf(y.manifest.version),
                                 Versions.KeyOf(z.manifest.version));
    }
  }

  /** Over any stretch of any run the version of a current manifest never goes
      down, whichever publishers interleave; it differs only by going up. */
  lemma {:induction false} CurrentNeverDecreases(cfg: Config, run: seq<State>, i: nat, j: nat, release: string)
    requires IsRun(cfg, run) && i <= j < |run| && CurrentName(release) in run[i].blobs
    ensures CurrentName(release) in run[j].blobs
    ensures Ascends(run[i].blobs[CurrentName(release)].body, run[j].blobs[CurrentName(release)].body)
  {
    hide CanStep, Inv, Outranks;
    if i < j {
      CurrentNeverDecreases(cfg, run, i, j - 1, release);
      Reachable(cfg, run, j - 1);
      CurrentStep(cfg, run[j - 1], run[j], release);
      var name := CurrentName(release);
      AscendsIsTransitive(run[i].blobs[name].body, run[j - 1].blobs[name].body, run[j].blobs[name].body);
    }
  }

  /** A manifest whose version has no key is never replaced. The plan step
      checks the shape of a version but not its 32-bit groups, and the first
      write of a current manifest does not look at the key at all. */
  lemma UnkeyedCurrentIsFrozen(cfg: Config, run: seq<State>, i: nat, j: nat, release: string, m: Manifest)
    requires IsRun(cfg, run) && i <= j < |run|
    requires BodyAt(run[i], CurrentName(release)) == Some(ManifestBody(m)) && !Versions.IsProductVersion(m.version)
    ensures BodyAt(run[j], CurrentName(release)) == Some(ManifestBody(m))
  {
    hide IsRun, Versions.IsProductVersion, Versions.KeyOf, Versions.Below;
    CurrentNeverDecreases(cfg, run, i, j, release);
  }

  /** A current manifest names an operation only after some run of it sent every
      message of its plan; those messages are still in the queue's history. */
  lemma CurrentIsAnnounced(cfg: Config, run: seq<State>, i: nat, release: string)
    requires IsRun(cfg, run) && i < |run| && CurrentName(release) in run[i].blobs
    ensures var s, name := run[i], CurrentName(release);
      exists r: nat ::
        && r < |s.runs| && Announced(s.queue, s.runs[r], r)
        && s.blobs[name].body == ManifestOf(s.runs[r].plan, s.runs[r].got[1])
        && s.runs[r].plan.source.release == release
  {
    hide IsRun, RunInv, SentInv, BatchesOf, SentBy;
    Reachable(cfg, run, i);
    var s, name := run[i], CurrentName(release);
    assert CellInv(s, name, s.blobs[name]);
    var c := s.log[s.blobs[name].etag];
    assert CommitInv(cfg, s, c);
    SentKnown(s.queue, s.runs[c.run], c.run);
  }

  /** Every message ever queued passes its contract, and so does every manifest
      that ever becomes current. */
  lemma PublishedIsAccepted(cfg: Config, run: seq<State>, i: nat, release: string, k: nat)
    requires IsRun(cfg, run) && i < |run|
    ensures k < |run[i].queue| ==> MessageAccepted(cfg, run[i].queue[k].message)
    ensures var body := BodyAt(run[i], CurrentName(release));
      body.Some? ==> body.value.ManifestBody? && ManifestAccepted(cfg, body.value.manifest)
  {
    hide IsRun, RunInv, SentInv, BatchesOf, SentBy, MessageAccepted, ManifestAccepted;
    Reachable(cfg, run, i);
    var s, name := run[i], CurrentName(release);
    if name in s.blobs {
      assert CellInv(s, name, s.blobs[name]);
      var c := s.log[s.blobs[name].etag];
      assert CommitInv(cfg, s, c) && Vetted(cfg, s.runs[c.run]);
      SentKnown(s.queue, s.runs[c.run], c.run);
    }
  }

  // ---- Replay ------------------------------------------------------------------------

  function DarName(p: Plan): Name { ArchiveName(p.source.version, p.source.download) }

  /** The version id that the store has given the plan's archive. */
  function DarVersion(s: State, p: Plan): string {
    if DarName(p) in s.blobs then s.blobs[DarName(p)].version else ""
  }

  /** The action begins a run of `p` or belongs to one. */
  predicate Serves(p: Plan, s: State, a: Label) {
    if a.Begin? then a.plan == p else a.run < |s.runs| && s.runs[a.run].plan == p
  }

  ghost predicate ReplayStep(cfg: Config, p: Plan, s: State, s': State) {
    exists a :: Enabled(cfg, s, a) && Serves(p, s, a) && Step(cfg, s, a) == s'
  }

  /** Any number of runs of one plan, interleaved and cut off anywhere. */
  ghost predicate IsReplay(cfg: Config, p: Plan, path: seq<State>) {
    |path| > 0 && forall i | 0 < i < |path| :: ReplayStep(cfg, p, path[i - 1], path[i])
  }

  /** Run `r` of `p` has completed since `s0`. */
  predicate Completed(p: Plan, s0: State, s: State, r: nat) {
    && r < |s.runs| && s.runs[r].plan == p && s.runs[r].pc == Done
    && (r < |s0.runs| ==> s0.runs[r].pc != Done)
  }

  /** Compared with `s0`, only wanted blobs have appeared or changed. */
  ghost predicate Grown(cfg: Config, p: Plan, s0: State, s: State) {
    forall name | BodyAt(s, name) != BodyAt(s0, name) ::
      && BodyAt(s, name).Some?
      && BodyAt(s, name) == Wanted(cfg, p, DarVersion(s, p), name)
      && (name.ManifestName? || name.CurrentName? ==> DarName(p) in s.blobs)
  }

  ghost predicate CurrentIsSet(cfg: Config, p: Plan, s0: State, s: State) {
    forall r | Completed(p, s0, s, r) ::
      BodyAt(s, CurrentName(p.source.release)) == Wanted(cfg, p, DarVersion(s, p), CurrentName(p.source.release))
      && DarName(p) in s.blobs
  }

  /** What a run is about to write is what its plan wants there. */
  lemma RunWritesWanted(cfg: Config, s: State, r: nat)
    requires Inv(cfg, s) && r < |s.runs| && |s.runs[r].got| <= Stages(s.runs[r].plan)
    ensures var p, due := s.runs[r].plan, DueOf(s.runs[r]);
      && Wanted(cfg, p, DarVersion(s, p), due.name) == Some(due.body)
      && (|s.runs[r].got| > 1 ==> DarName(p) in s.blobs)
      && (due.name.ManifestName? || due.name.CurrentName? ==> |s.runs[r].got| > 1)
  {
    hide BatchesOf, CellInv, CommitInv, SentInv, PcInv, ValidPlan, Wanted;
    var run := s.runs[r];
    assert RunInv(cfg, s, run, r);
    if |run.got| > 1 { assert Obtained(cfg, s.blobs, run, 1); }
    DueIsWanted(cfg, run.plan, run.got, DarVersion(s, run.plan));
  }

  lemma WantedMoves(cfg: Config, p: Plan, s: State, s': State, name: Name)
    requires Extends(s, s')
    requires (name.ManifestName? || name.CurrentName?) ==> DarName(p) in s.blobs
    ensures Wanted(cfg, p, DarVersion(s', p), name) == Wanted(cfg, p, DarVersion(s, p), name)
    ensures DarName(p) in s.blobs ==> DarName(p) in s'.blobs
  {
    hide BatchesOf, RowsOf;
  }

  /** The only body an action changes is the one its run has due. */
  lemma OneWrite(cfg: Config, s: State, a: Label, name: Name)
    requires Enabled(cfg, s, a)
    requires BodyAt(Step(cfg, s, a), name) != BodyAt(s, name)
    ensures !a.Begin? && DueOf(s.runs[a.run]).name == name
    ensures BodyAt(Step(cfg, s, a), name) == Some(DueOf(s.runs[a.run]).body)
  {
    hide Next, ValidPlan, DueOf, MessageOf, Stages, BatchesOf;
  }

  lemma ReplayGrows(cfg: Config, p: Plan, s0: State, s: State, a: Label)
    requires Inv(cfg, s) && Enabled(cfg, s, a) && Serves(p, s, a) && Grown(cfg, p, s0, s)
    ensures Grown(cfg, p, s0, Step(cfg, s, a))
  {
    hide Inv, Enabled, Step, DueOf, Wanted, Extends, Stages;
    var s' := Step(cfg, s, a);
    StepExtends(cfg, s, a);
    forall name | BodyAt(s', name) != BodyAt(s0, name)
      ensures BodyAt(s', name).Some? && BodyAt(s', name) == Wanted(cfg, p, DarVersion(s', p), name)
      ensures name.ManifestName? || name.CurrentName? ==> DarName(p) in s'.blobs
    {
      if BodyAt(s', name) != BodyAt(s, name) {
        OneWrite(cfg, s, a, name);
        StillInStages(cfg, s, a);
        RunWritesWanted(cfg, s, a.run);
      }
      WantedMoves(cfg, p, s, s', name);
    }
  }

  lemma StillInStages(cfg: Config, s: State, a: Label)
    requires Enabled(cfg, s, a) && !a.Begin?
    ensures a.run < |s.runs| && |s.runs[a.run].got| <= Stages(s.runs[a.run].plan)
  {}

  /** When a run completes, the current manifest is its own. */
  lemma CompletionIsVisible(cfg: Config, s: State, a: Label)
    requires Inv(cfg, s) && Enabled(cfg, s, a) && !a.Begin?
    requires Next(cfg, s, a).pc == Done && s.runs[a.run].pc != Done
    ensures |s.runs[a.run].got| == Stages(s.runs[a.run].plan)
    ensures BodyAt(Step(cfg, s, a), DueOf(s.runs[a.run]).name) == Some(DueOf(s.runs[a.run]).body)
    ensures DueOf(s.runs[a.run]).name == CurrentName(s.runs[a.run].plan.source.release)
  {
    hide Due, BatchesOf, CellInv, CommitInv, SentInv, AllObtained, SentBy, ValidPlan, MessageOf, Advances;
    var run := s.runs[a.run];
    assert RunInv(cfg, s, run, a.run);
    DueAtEnd(run);
  }

  lemma ReplaySetsCurrent(cfg: Config, p: Plan, s0: State, s: State, a: Label)
    requires Inv(cfg, s) && Enabled(cfg, s, a) && Serves(p, s, a)
    requires CurrentIsSet(cfg, p, s0, s)
    ensures CurrentIsSet(cfg, p, s0, Step(cfg, s, a))
  {
    hide Inv, Effect, Next, DueOf, Wanted, Extends, ValidPlan, Stages, BatchesOf;
    var s', name := Step(cfg, s, a), CurrentName(p.source.release);
    StepExtends(cfg, s, a);
    forall r | Completed(p, s0, s', r)
      ensures BodyAt(s', name) == Wanted(cfg, p, DarVersion(s', p), name) && DarName(p) in s'.blobs
    {
      if Completed(p, s0, s, r) {
        WantedMoves(cfg, p, s, s', name);
        if BodyAt(s', name) != BodyAt(s, name) {
          OneWrite(cfg, s, a, name);
          RunWritesWanted(cfg, s, a.run);
        }
      } else {
        assert r == a.run;
        CompletionIsVisible(cfg, s, a);
        RunWritesWanted(cfg, s, a.run);
        WantedMoves(cfg, p, s, s', name);
      }
    }
  }

  lemma {:induction false} ReplayKeeps(cfg: Config, p: Plan, path: seq<State>, i: nat)
    requires IsReplay(cfg, p, path) && Inv(cfg, path[0]) && i < |path|
    ensures Inv(cfg, path[i]) && Grown(cfg, p, path[0], path[i]) && CurrentIsSet(cfg, p, path[0], path[i])
  {
    hide Inv, Enabled, Step, Grown, CurrentIsSet, Serves;
    if i == 0 {
      NothingYet(cfg, p, path[0]);
    } else {
      ReplayKeeps(cfg, p, path, i - 1);
      var s, s' := path[i - 1], path[i];
      assert ReplayStep(cfg, p, s, s');
      var a :| Enabled(cfg, s, a) && Serves(p, s, a) && Step(cfg, s, a) == s';
      StepKeepsInv(cfg, s, s');
      ReplayGrows(cfg, p, path[0], s, a);
      ReplaySetsCurrent(cfg, p, path[0], s, a);
    }
  }

  lemma NothingYet(cfg: Config, p: Plan, s: State)
    ensures Grown(cfg, p, s, s) && CurrentIsSet(cfg, p, s, s)
  {}

  /** Every blob of a completed run, except possibly the current manifest, is as
      its plan wants it. */
  lemma DoneIsStored(cfg: Config, s: State, r: nat, name: Name)
    requires Inv(cfg, s) && r < |s.runs| && s.runs[r].pc == Done && !name.CurrentName?
    requires Wanted(cfg, s.runs[r].plan, DarVersion(s, s.runs[r].plan), name).Some?
    ensures BodyAt(s, name) == Wanted(cfg, s.runs[r].plan, DarVersion(s, s.runs[r].plan), name)
  {
    hide BatchesOf, CellInv, CommitInv, SentInv, ValidPlan, SentBy, AllObtained;
    var run := s.runs[r];
    assert RunInv(cfg, s, run, r);
    StagesAreBacked(cfg, s.blobs, run);
    if name.BatchBlobName? { BatchIsBacked(cfg, s.blobs, run, name.index); }
    if name.IdentityName? { FirstIsBacked(cfg, s.blobs, run); }
  }

  lemma FirstIsBacked(cfg: Config, blobs: map<Name, Cell>, run: Run)
    requires AllObtained(cfg, blobs, run) && |run.got| > 0
    ensures var name := IdentityName(run.plan.source.release, run.plan.source.version);
      name in blobs && blobs[name].body == IdentityOf(run.plan)
  {
    hide BatchesOf;
    assert Obtained(cfg, blobs, run, 0);
  }

  /** The contents of the store after a publication of `p` over `s0`. */
  ghost predicate IsPublished(cfg: Config, p: Plan, s0: State, s: State) {
    forall name ::
      BodyAt(s, name) ==
        match Wanted(cfg, p, DarVersion(s, p), name)
        case Some(body) => Some(body)
        case None => BodyAt(s0, name)
  }

  /** However many runs of a plan were cut off, wherever, and whichever of their
      writes took effect while reporting failure: once one run completes, the
      store holds what it held before, overlaid with exactly the plan's blobs. */
  lemma ReplayPublishes(cfg: Config, p: Plan, path: seq<State>, r: nat)
    requires IsReplay(cfg, p, path) && Inv(cfg, path[0])
    requires Completed(p, path[0], path[|path| - 1], r)
    ensures IsPublished(cfg, p, path[0], path[|path| - 1])
  {
    hide Inv, ReplayStep, Wanted;
    var s0, s := path[0], path[|path| - 1];
    ReplayKeeps(cfg, p, path, |path| - 1);
    forall name
      ensures BodyAt(s, name) ==
        match Wanted(cfg, p, DarVersion(s, p), name)
        case Some(body) => Some(body)
        case None => BodyAt(s0, name)
    {
      if Wanted(cfg, p, DarVersion(s, p), name).Some? {
        if name.CurrentName? { OnlyOwnCurrent(cfg, p, DarVersion(s, p), name); } else { DoneIsStored(cfg, s, r, name); }
      }
    }
  }

  lemma OnlyOwnCurrent(cfg: Config, p: Plan, version: string, name: Name)
    requires name.CurrentName? && Wanted(cfg, p, version, name).Some?
    ensures name == CurrentName(p.source.release)
  {}

  ghost predicate SameContents(s: State, t: State) { forall name :: BodyAt(s, name) == BodyAt(t, name) }

  /** So two histories of one request from the same store end with the same
      contents, provided the store gave the archive the same version id; if the
      archive was stored already, they do without any proviso. */
  lemma ReplaysAgree(cfg: Config, p: Plan, path: seq<State>, r: nat, other: seq<State>, q: nat)
    requires IsReplay(cfg, p, path) && IsReplay(cfg, p, other)
    requires path[0] == other[0] && Inv(cfg, path[0])
    requires Completed(p, path[0], path[|path| - 1], r) && Completed(p, other[0], other[|other| - 1], q)
    ensures DarName(p) in path[0].blobs || DarVersion(path[|path| - 1], p) == DarVersion(other[|other| - 1], p) ==>
      SameContents(path[|path| - 1], other[|other| - 1])
  {
    hide Inv, ReplayStep, Wanted;
    ReplayPublishes(cfg, p, path, r);
    ReplayPublishes(cfg, p, other, q);
    if DarName(p) in path[0].blobs {
      DarStays(cfg, p, path, |path| - 1);
      DarStays(cfg, p, other, |other| - 1);
    }
  }

  lemma {:induction false} DarStays(cfg: Config, p: Plan, path: seq<State>, i: nat)
    requires IsReplay(cfg, p, path) && Inv(cfg, path[0]) && i < |path|
    requires DarName(p) in path[0].blobs
    ensures DarName(p) in path[i].blobs && DarVersion(path[i], p) == DarVersion(path[0], p)
  {
    hide Inv, Enabled, Step, Serves;
    if i > 0 {
      DarStays(cfg, p, path, i - 1);
      ReplayKeeps(cfg, p, path, i - 1);
      var s, s' := path[i - 1], path[i];
      assert ReplayStep(cfg, p, s, s');
      var a :| Enabled(cfg, s, a) && Serves(p, s, a) && Step(cfg, s, a) == s';
      StepExtends(cfg, s, a);
    }
  }

  // ---- Completion among other publishers ------------------------------------------------

  /** The current manifest is the run's own, or one that came after it. */
  ghost predicate Reached(cfg: Config, s: State, r: nat)
    requires r < |s.runs|
  {
    var p, name := s.runs[r].plan, CurrentName(s.runs[r].plan.source.release);
    && DarName(p) in s.blobs && name in s.blobs
    && Wanted(cfg, p, DarVersion(s, p), name).Some?
    && Ascends(Wanted(cfg, p, DarVersion(s, p), name).value, s.blobs[name].body)
  }

  lemma ReachedStays(cfg: Config, s: State, s': State, r: nat)
    requires Inv(cfg, s) && CanStep(cfg, s, s') && r < |s.runs| && Reached(cfg, s, r)
    ensures r < |s'.runs| && Reached(cfg, s', r)
  {
    hide Inv, CanStep, Ascends, Wanted;
    var p, name := s.runs[r].plan, CurrentName(s.runs[r].plan.source.release);
    StepKeepsInv(cfg, s, s');
    CurrentStep(cfg, s, s', p.source.release);
    WantedMoves(cfg, p, s, s', name);
    AscendsToItself(s.blobs[name].body);
    AscendsIsTransitive(Wanted(cfg, p, DarVersion(s, p), name).value, s.blobs[name].body, s'.blobs[name].body);
  }

  lemma AscendsToItself(x: Body)
    ensures Ascends(x, x)
  {}

  lemma CompletionReaches(cfg: Config, s: State, s': State, r: nat)
    requires Inv(cfg, s) && CanStep(cfg, s, s') && r < |s'.runs| && s'.runs[r].pc == Done
    requires r < |s.runs| ==> s.runs[r].pc != Done
    ensures Reached(cfg, s', r)
  {
    hide Inv, Effect, Next, DueOf, Wanted, Extends, ValidPlan, Stages, BatchesOf, Ascends;
    var a :| Enabled(cfg, s, a) && Step(cfg, s, a) == s';
    StepExtends(cfg, s, a);
    CompletionIsVisible(cfg, s, a);
    RunWritesWanted(cfg, s, a.run);
    NextContinues(cfg, s, a);
    WantedMoves(cfg, s.runs[r].plan, s, s', CurrentName(s.runs[r].plan.source.release));
    AscendsToItself(s'.blobs[CurrentName(s.runs[r].plan.source.release)].body);
  }

  /** Whatever other publishers do before, meanwhile and afterwards: a completed
      run has its identity, archive, manifest and batches in place, has every
      message of its plan in the queue, and the current manifest of its release
      is its own or of a higher version. */
  lemma {:induction false} CompletionLasts(cfg: Config, run: seq<State>, i: nat, r: nat)
    requires IsRun(cfg, run) && i < |run| && r < |run[i].runs| && run[i].runs[r].pc == Done
    ensures Reached(cfg, run[i], r) && Announced(run[i].queue, run[i].runs[r], r)
    ensures var s, p := run[i], run[i].runs[r].plan;
      forall name: Name | !name.CurrentName? && Wanted(cfg, p, DarVersion(s, p), name).Some? ::
        BodyAt(s, name) == Wanted(cfg, p, DarVersion(s, p), name)
  {
    hide CanStep, Reached, Wanted, CellInv, CommitInv, SentInv, AllObtained, SentBy, ValidPlan, BatchesOf;
    var s, p := run[i], run[i].runs[r].plan;
    Reachable(cfg, run, i);
    assert RunInv(cfg, s, s.runs[r], r);
    forall name: Name | !name.CurrentName? && Wanted(cfg, p, DarVersion(s, p), name).Some?
      ensures BodyAt(s, name) == Wanted(cfg, p, DarVersion(s, p), name)
    {
      DoneIsStored(cfg, s, r, name);
    }
    if i > 0 {
      Reachable(cfg, run, i - 1);
      if r < |run[i - 1].runs| && run[i - 1].runs[r].pc == Done {
        CompletionLasts(cfg, run, i - 1, r);
        ReachedStays(cfg, run[i - 1], s, r);
      } else {
        CompletionReaches(cfg, run[i - 1], s, r);
      }
    }
  }
}
