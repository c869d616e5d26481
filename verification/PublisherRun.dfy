/** One publisher as it runs (internal/publication/publisher.go and the blob
    writer of internal/publication/azure.go): straight-line calls and loops over
    remote calls that may fail, proved to be one run of Publishers.dfy. */
module PublisherRun {
  import opened Basics
  import opened Releases
  import opened Publishers
  import opened PublicationGuarantees
  import opened Blocking

  /** How one remote call goes: whether it takes effect and reports success; an
      error on a create may look like a conflict. Writes are given `version`. */
  datatype Weather = Weather(effect: bool, ok: bool, conflict: bool, version: string)

  datatype PublicationResult = PublicationResult(batchCount: nat, op: OperationId, release: string, version: string)

  datatype Answer = Found(props: Props) | NotFound | Unavailable

  function Messages(sent: seq<Sent>): (ms: seq<Message>)
    ensures |ms| == |sent|
  {
    seq(|sent|, i requires 0 <= i < |sent| => sent[i].message)
  }

  /** The messages of batches `0` to `n - 1`, in order. */
  function FirstMessages(p: Plan, got: seq<Ref>, n: nat): seq<Message>
    requires n <= BatchesOf(p) && Stages(p) <= |got|
  {
    seq(n, i requires 0 <= i < n => MessageOf(p, got, i))
  }

  class Publisher {
    const cfg: Config
    const weather: nat -> Weather
    var calls: nat
    var blobs: map<Name, Cell>
    var writes: nat
    var queue: seq<Message>
    /** The run of the state machine that this publisher is taking part in. */
    ghost var path: seq<State>

    constructor (cfg: Config, weather: nat -> Weather)
      ensures this.cfg == cfg && this.weather == weather && Linked() && blobs == map[] && queue == []
    {
      this.cfg, this.weather := cfg, weather;
      calls, blobs, writes, queue, path := 0, map[], 0, [], [INITIAL];
    }

    ghost function Now(): State
      requires path != []
      reads this
    {
      path[|path| - 1]
    }

    /** The fields are what the last state says. */
    ghost predicate Linked()
      reads this
    {
      && path != [] && Inv(cfg, Now())
      && Now().blobs == blobs && |Now().log| == writes && Messages(Now().queue) == queue
    }

    /** All steps since the start of `path` serve plan `p`. */
    ghost predicate Valid(p: Plan)
      reads this
    {
      Linked() && IsReplay(cfg, p, path) && Inv(cfg, path[0])
    }

    /** Run `r` of `p` stands at `run`. */
    ghost predicate Stands(p: Plan, r: nat, run: Run)
      reads this
    {
      path != [] && r < |Now().runs| && Now().runs[r] == run && run.plan == p
    }

    ghost predicate Calm() { forall n :: weather(n).effect && weather(n).ok }

    // ---- Remote calls ------------------------------------------------------------

    /** A create-only write. */
    method Create(name: Name, body: Body) returns (reply: Reply, effect: bool, version: string)
      modifies this`calls, this`blobs, this`writes
      ensures effect ==> name !in old(blobs)
      ensures reply == Accepted ==> effect
      ensures blobs == if effect then old(blobs)[name := Cell(body, old(writes), version)] else old(blobs)
      ensures writes == if effect then old(writes) + 1 else old(writes)
      ensures Calm() ==> reply == if name in old(blobs) then Refused else Accepted
    {
      var w := weather(calls);
      calls, version, effect := calls + 1, w.version, w.effect && name !in blobs;
      reply := if name in blobs && w.ok then Refused
               else if effect && w.ok then Accepted
               else if w.conflict then Refused else Lost;
      if effect {
        blobs, writes := blobs[name := Cell(body, writes, version)], writes + 1;
      }
    }

    /** An overwrite that requires the ETag to be unchanged. */
    method Overwrite(name: Name, body: Body, etag: nat) returns (ok: bool, effect: bool, version: string)
      modifies this`calls, this`blobs, this`writes
      ensures effect ==> name in old(blobs) && old(blobs)[name].etag == etag
      ensures ok ==> effect
      ensures blobs == if effect then old(blobs)[name := Cell(body, old(writes), version)] else old(blobs)
      ensures writes == if effect then old(writes) + 1 else old(writes)
      ensures Calm() ==> (ok <==> name in old(blobs) && old(blobs)[name].etag == etag)
    {
      var w := weather(calls);
      calls, version := calls + 1, w.version;
      effect := w.effect && name in blobs && blobs[name].etag == etag;
      ok := effect && w.ok;
      if effect {
        blobs, writes := blobs[name := Cell(body, writes, version)], writes + 1;
      }
    }

    method GetProperties(name: Name) returns (answer: Answer)
      modifies this`calls
      ensures answer.Found? ==> name in blobs && answer.props == PropsOf(cfg, blobs[name])
      ensures answer.NotFound? ==> name !in blobs
      ensures Calm() ==> !answer.Unavailable?
    {
      var w := weather(calls);
      calls := calls + 1;
      return if !w.ok then Unavailable else if name in blobs then Found(PropsOf(cfg, blobs[name])) else NotFound;
    }

    method Download(name: Name) returns (body: Option<Body>)
      modifies this`calls
      ensures body.Some? ==> name in blobs && body.value == blobs[name].body
      ensures Calm() && name in blobs ==> body.Some?
    {
      var w := weather(calls);
      calls := calls + 1;
      return if w.ok && name in blobs then Some(blobs[name].body) else None;
    }

    method SendMessage(m: Message) returns (ok: bool, effect: bool)
      modifies this`calls, this`queue
      ensures ok ==> effect
      ensures queue == if effect then old(queue) + [m] else old(queue)
      ensures Calm() ==> ok
    {
      var w := weather(calls);
      calls, effect, ok := calls + 1, w.effect, w.effect && w.ok;
      if effect { queue := queue + [m]; }
    }

    /** The remote call just made is action `a` of the state machine. */
    ghost method Advance(p: Plan, a: Label)
      requires path != [] && IsReplay(cfg, p, path) && Inv(cfg, path[0]) && Inv(cfg, Now())
      requires Enabled(cfg, Now(), a) && Serves(p, Now(), a)
      requires Step(cfg, Now(), a).blobs == blobs && |Step(cfg, Now(), a).log| == writes
      requires Messages(Step(cfg, Now(), a).queue) == queue
      modifies this`path
      ensures Valid(p) && path[0] == old(path[0])
      ensures Now() == old(Step(cfg, Now(), a))
    {
      hide Inv, IsReplay, Enabled, Step, Serves, Messages;
      var s := Now();
      ReplayExtends(cfg, p, path, a);
      assert CanStep(cfg, s, Step(cfg, s, a));
      StepKeepsInv(cfg, s, Step(cfg, s, a));
      path := path + [Step(cfg, s, a)];
    }

    // ---- The blob writer --------------------------------------------------------------

    /** putImmutable: create the blob, or accept the one that is there if its
        digest and size are the same. */
    method PutImmutable(p: Plan, name: Name, body: Body, ghost r: nat, ghost run: Run) returns (ref: Option<Ref>)
      requires Valid(p) && Stands(p, r, run) && run.pc == Putting
      requires InStages(run) && DueOf(run) == Blob(name, body) && DueAccepted(cfg, Blob(name, body))
      modifies this
      ensures Valid(p) && path[0] == old(path[0]) && queue == old(queue)
      ensures Stands(p, r, if ref.Some? then AfterPut(run, ref.value) else run.(pc := Failed))
      ensures ref.Some? ==> ref.value.name == name && Backed(cfg, blobs, ref.value, body) && ref.value.size >= 1
      ensures forall n | n != name :: n in blobs <==> n in old(blobs)
      ensures forall n | n in old(blobs) :: n in blobs && blobs[n] == old(blobs)[n]
      ensures Calm() ==>
        (ref.Some? <==> cfg.sizeOf(body) >= 1 && (name !in old(blobs) || old(blobs)[name].body == body))
    {
      hide Inv, IsReplay, Due, MessageOf, ValidPlan, Stages, BatchesOf, Messages, ManifestAccepted, MessageAccepted;
      if cfg.sizeOf(body) < 1 {
        Advance(p, Stop(r));
        return None;
      }
      var reply, effect, version := Create(name, body);
      Advance(p, Upload(r, effect, reply, version));
      if reply == Accepted { return Some(RefOf(cfg, name, body, version)); }
      if reply == Lost { return None; }
      var answer := GetProperties(name);
      Advance(p, Probe(r, answer.Found?));
      if !answer.Found? { return None; }
      if answer.props.digest != Sha(body) || answer.props.size != cfg.sizeOf(body) { return None; }
      return Some(Ref(name, answer.props.digest, answer.props.size, answer.props.version));
    }

    /** PutCurrentManifest: create it, accept an equal one, or replace one of a
        lower version provided nobody else has done so meanwhile. */
    method PutCurrent(p: Plan, name: Name, body: Body, ghost r: nat, ghost run: Run) returns (ref: Option<Ref>)
      requires Valid(p) && Stands(p, r, run) && run.pc == Looking
      requires InStages(run) && DueOf(run) == Blob(name, body) && name.CurrentName?
      modifies this
      ensures Valid(p) && path[0] == old(path[0]) && queue == old(queue)
      ensures path != [] && r < |Now().runs| && Now().runs[r].plan == p
      ensures if ref.Some? then Now().runs[r] == AfterPut(run, ref.value) else Now().runs[r].pc == Failed
      ensures ref.Some? ==> ManifestSized(cfg.sizeOf(body)) && MayReplace(cfg, p, old(blobs), name, body)
      ensures forall n | n != name && n in old(blobs) :: n in blobs && blobs[n] == old(blobs)[n]
      ensures Calm() ==> (ref.Some? <==> ManifestSized(cfg.sizeOf(body)) && MayReplace(cfg, p, old(blobs), name, body))
    {
      hide Inv, IsReplay, Due, MessageOf, ValidPlan, Stages, BatchesOf, Messages, Advances, Outranks;
      hide ManifestAccepted, MessageAccepted;
      if !ManifestSized(cfg.sizeOf(body)) {
        Advance(p, Stop(r));
        return None;
      }
      var answer := GetProperties(name);
      Advance(p, Look(r, !answer.Unavailable?));
      match answer
      case Unavailable => return None;
      case NotFound =>
        ref := PutImmutable(p, name, body, r, run.(pc := Putting));
      case Found(props) =>
        ref := Supersede(p, name, body, props, r, run.(pc := Reading(props)));
    }

    /** The second half of PutCurrentManifest: a separate read of the body, the
        version rule, and the conditional write. */
    method Supersede(p: Plan, name: Name, body: Body, props: Props, ghost r: nat, ghost run: Run)
      returns (ref: Option<Ref>)
      requires Valid(p) && Stands(p, r, run) && run.pc == Reading(props)
      requires InStages(run) && DueOf(run) == Blob(name, body)
      requires name in blobs && props == PropsOf(cfg, blobs[name]) && ManifestSized(cfg.sizeOf(body))
      modifies this
      ensures Valid(p) && path[0] == old(path[0]) && queue == old(queue)
      ensures path != [] && r < |Now().runs| && Now().runs[r].plan == p
      ensures if ref.Some? then Now().runs[r] == AfterPut(run, ref.value) else Now().runs[r].pc == Failed
      ensures ref.Some? ==> MayReplace(cfg, p, old(blobs), name, body)
      ensures forall n | n != name && n in old(blobs) :: n in blobs && blobs[n] == old(blobs)[n]
      ensures Calm() ==> (ref.Some? <==> MayReplace(cfg, p, old(blobs), name, body))
    {
      hide Inv, IsReplay, Due, MessageOf, ValidPlan, Stages, BatchesOf, Messages, Advances, Outranks;
      hide ManifestAccepted, MessageAccepted;
      if !ManifestSized(props.size) {
        Advance(p, Stop(r));
        return None;
      }
      var existing := Download(name);
      Advance(p, Read(r, existing.Some?));
      if existing.None? { return None; }
      if Sha(existing.value) != props.digest || cfg.sizeOf(existing.value) != props.size { return None; }
      if existing.value == body { return Some(Ref(name, props.digest, props.size, props.version)); }
      if !existing.value.ManifestBody? { return None; }
      AdvancesIsOutranks(existing.value.manifest.version, p.source.version);
      if !Advances(existing.value.manifest.version, p.source.version) { return None; }
      ref := Replace(p, name, body, props.etag, r, run.(pc := Swapping(props)));
    }

    /** The conditional write of PutCurrentManifest. */
    method Replace(p: Plan, name: Name, body: Body, etag: nat, ghost r: nat, ghost run: Run) returns (ref: Option<Ref>)
      requires Valid(p) && Stands(p, r, run) && run.pc.Swapping? && run.pc.props.etag == etag
      requires InStages(run) && DueOf(run) == Blob(name, body) && name in blobs && blobs[name].etag == etag
      modifies this
      ensures Valid(p) && path[0] == old(path[0]) && queue == old(queue)
      ensures Stands(p, r, if ref.Some? then AfterPut(run, ref.value) else run.(pc := Failed))
      ensures forall n | n != name && n in old(blobs) :: n in blobs && blobs[n] == old(blobs)[n]
      ensures Calm() ==> ref.Some?
    {
      hide Inv, IsReplay, Due, MessageOf, ValidPlan, Stages, BatchesOf, Messages, ManifestAccepted, MessageAccepted;
      var ok, effect, version := Overwrite(name, body, etag);
      Advance(p, Swap(r, effect, ok, version));
      return if ok then Some(RefOf(cfg, name, body, version)) else None;
    }

    // ---- The publisher ------------------------------------------------------------------

    /** The run has come this far since `s0`, and has not sent anything yet. */
    ghost predicate Storing(p: Plan, r: nat, run: Run, s0: State, q0: seq<Message>)
      reads this
    {
      && Valid(p) && path[0] == s0 && Stands(p, r, run) && queue == q0
      && Kept(s0.blobs, blobs)
    }

    /** publishBatches: one immutable blob per batch. */
    method PublishBatches(p: Plan, got: seq<Ref>, ghost r: nat, ghost run: Run, ghost s0: State, ghost q0: seq<Message>)
      returns (refs: Option<seq<Ref>>)
      requires ValidPlan(cfg, p) && Storing(p, r, run, s0, q0)
      requires got == run.got && |got| == 3 && run.pc == Putting
      modifies this
      ensures refs.Some? ==> |refs.value| == Stages(p) && Storing(p, r, Run(p, refs.value, Sending(0)), s0, q0)
      ensures refs.None? ==> Valid(p) && path[0] == s0 && queue == q0
      ensures refs.None? && Calm() ==> Hopeless(cfg, p, s0, blobs)
    {
      hide Inv, IsReplay, ValidPlan, BatchesOf, Messages, Hopeless, Wanted, Valid, ManifestAccepted;
      SomeBatch(cfg, p);
      var batches := got;
      ghost var at := run;
      for index := 0 to BatchesOf(p)
        invariant |batches| == 3 + index
        invariant at == Run(p, batches, if index < BatchesOf(p) then Putting else Sending(0))
        invariant Storing(p, r, at, s0, q0)
      {
        var name, body := BatchBlobName(OperationOf(p), index), BatchBody(RowsOf(p, index));
        var batch := PutStage(p, name, body, r, at, s0, q0);
        if batch.None? { return None; }
        batches := batches + [batch.value];
        at := AfterPut(at, batch.value);
      }
      return Some(batches);
    }

    /** A stage of the publisher: putImmutable, and what its failure means. */
    method PutStage(p: Plan, name: Name, body: Body, ghost r: nat, ghost run: Run, ghost s0: State,
                    ghost q0: seq<Message>)
      returns (ref: Option<Ref>)
      requires Storing(p, r, run, s0, q0) && run.pc == Putting && |run.got| < Stages(p)
      requires DueOf(run) == Blob(name, body) && DueAccepted(cfg, Blob(name, body))
      modifies this
      ensures ref.Some? ==> Storing(p, r, AfterPut(run, ref.value), s0, q0)
      ensures ref.None? ==> Valid(p) && path[0] == s0 && queue == q0
      ensures ref.None? && Calm() ==> Hopeless(cfg, p, s0, blobs)
    {
      hide Inv, IsReplay, Blocked, Wanted, Messages, BatchesOf, MessageOf, Due, ManifestAccepted, Given;
      ghost var before := Now();
      ImmutableStage(run);
      ReplayKeeps(cfg, p, path, |path| - 1);
      ref := PutImmutable(p, name, body, r, run);
      if ref.None? && Unstorable(cfg, before.blobs, Blob(name, body)) {
        StageIsHopeless(cfg, p, s0, before, blobs, r, name, body);
      }
    }

    /** A manifest that its contract refuses stops the publication. */
    method RefuseManifest(p: Plan, dar: Ref, ghost r: nat, ghost run: Run, ghost s0: State, ghost q0: seq<Message>)
      returns (refs: Option<seq<Ref>>)
      requires Storing(p, r, run, s0, q0) && run.pc == Putting && |run.got| == 2 && run.got[1] == dar && 2 < Stages(p)
      requires !ManifestAccepted(cfg, ManifestOf(p, dar).manifest)
      modifies this
      ensures refs.None? && Valid(p) && path[0] == s0 && queue == q0 && Hopeless(cfg, p, s0, blobs)
    {
      hide Inv, IsReplay, Blocked, Wanted, Messages, BatchesOf, MessageOf, Due, ManifestAccepted, Given, Hopeless;
      ManifestStage(run);
      ReplayKeeps(cfg, p, path, |path| - 1);
      ghost var due := DueOf(run);
      StageIsHopeless(cfg, p, s0, Now(), blobs, r, due.name, due.body);
      Advance(p, Stop(r));
      return None;
    }

    /** The message of one batch. */
    method SendBatch(p: Plan, got: seq<Ref>, index: nat, ghost r: nat) returns (ok: bool, ghost effect: bool)
      requires index < BatchesOf(p) && |got| == Stages(p)
      requires Valid(p) && Stands(p, r, Run(p, got, Sending(index)))
      modifies this
      ensures Valid(p) && path[0] == old(path[0]) && blobs == old(blobs)
      ensures queue == if effect then old(queue) + [MessageOf(p, got, index)] else old(queue)
      ensures ok ==> effect && Stands(p, r, AfterSend(Run(p, got, Sending(index)), index + 1))
      ensures ok ==> MessageAccepted(cfg, MessageOf(p, got, index))
      ensures Calm() ==> (ok <==> MessageAccepted(cfg, MessageOf(p, got, index)))
    {
      hide Inv, IsReplay, BatchesOf, MessageOf, Messages, Due, MessageAccepted, ManifestAccepted;
      ghost var q := Now().queue;
      var m := MessageOf(p, got, index);
      if !MessageAccepted(cfg, m) {
        Advance(p, Stop(r));
        return false, false;
      }
      var done;
      ok, done := SendMessage(m);
      effect := done;
      OneMoreMessage(q, Sent(m, r, index));
      Advance(p, Send(r, effect, ok));
    }

    /** enqueueBatches: the messages, one by one and in order. */
    method EnqueueBatches(p: Plan, got: seq<Ref>, ghost r: nat) returns (ok: bool, ghost sent: nat)
      requires ValidPlan(cfg, p) && |got| == Stages(p)
      requires Valid(p) && Stands(p, r, Run(p, got, Sending(0)))
      modifies this
      ensures Valid(p) && path[0] == old(path[0]) && blobs == old(blobs) && sent <= BatchesOf(p)
      ensures Queued(queue, old(queue), p, got, sent)
      ensures ok ==> sent == BatchesOf(p) && Stands(p, r, Run(p, got, Looking)) && AllAccepted(cfg, p, got)
      ensures Calm() ==> (ok <==> AllAccepted(cfg, p, got))
    {
      hide Valid, ValidPlan, BatchesOf, MessageOf, Queued, MessageAccepted, AcceptedUpTo, AllAccepted, Calm, Stages;
      SomeBatch(cfg, p);
      NoneRefused(cfg, p, got);
      NoneQueued(queue, p, got);
      sent := 0;
      for index := 0 to BatchesOf(p)
        invariant Valid(p) && path != [] && path[0] == old(path[0]) && blobs == old(blobs) && sent == index
        invariant Stands(p, r, Run(p, got, if index < BatchesOf(p) then Sending(index) else Looking))
        invariant Queued(queue, old(queue), p, got, index) && AcceptedUpTo(cfg, p, got, index)
      {
        ghost var effect;
        OneMoreQueued(queue, old(queue), p, got, index);
        OneMoreAccepted(cfg, p, got, index);
        ok, effect := SendBatch(p, got, index, r);
        if effect { sent := index + 1; }
        if !ok { return; }
      }
      ok := true;
    }

    /** Publish. A success means that the store holds what it held before,
        overlaid with exactly the plan's blobs, and that the queue has received
        the plan's messages in order; a failure leaves some of those blobs and a
        prefix of those messages. It succeeds only if nothing blocks the plan,
        and in calm weather it fails only if the plan is blocked whatever ids its
        missing blobs would be given. */
    method Publish(p: Plan) returns (result: Option<PublicationResult>, ghost got: seq<Ref>, ghost sent: nat)
      requires Linked()
      modifies this
      ensures Linked()
      ensures !ValidPlan(cfg, p) ==> result.None? && blobs == old(blobs) && queue == old(queue)
      ensures result.Some? ==>
        && result.value == PublicationResult(BatchesOf(p), OperationOf(p), p.source.release, p.source.version)
        && IsPublished(cfg, p, old(Now()), Now())
        && sent == BatchesOf(p)
      ensures Grown(cfg, p, old(Now()), Now())
      ensures if sent == 0 then queue == old(queue)
              else sent <= BatchesOf(p) && Stages(p) <= |got|
                   && Queued(queue, old(queue), p, got, sent)
      ensures result.Some? ==> Unhindered(cfg, p, old(Now()), blobs)
      ensures Calm() && ValidPlan(cfg, p) && result.None? ==> Hopeless(cfg, p, old(Now()), blobs)
    {
      hide Inv, IsReplay, ValidPlan, BatchesOf, Messages, FirstMessages, Hopeless, Unhindered, Wanted, IsPublished;
      hide Grown, Kept, AllAccepted, ManifestAccepted;
      got, sent := [], 0;
      ghost var s0, q0 := Now(), queue;
      path := [s0];
      NothingYet(cfg, p, s0);
      AloneIsReplay(cfg, p, s0);
      if !ValidPlan(cfg, p) { return None, got, sent; }
      ghost var r := |s0.runs|;
      ghost var run := Run(p, [], Putting);
      Advance(p, Begin(p));
      KeptItself(blobs);
      var refs := StoreAll(p, r, run, s0, q0);
      ReplayKeeps(cfg, p, path, |path| - 1);
      if refs.None? { return None, got, sent; }
      var ok;
      ghost var stored := Now();
      ok, sent := EnqueueBatches(p, refs.value, r);
      got := refs.value;
      NoneQueued(q0, p, got);
      ReplayKeeps(cfg, p, path, |path| - 1);
      if !ok {
        if Calm() { RefusedIsHopeless(cfg, p, s0, stored, r, got); }
        return None, got, sent;
      }
      ok := AdvanceCurrent(p, refs.value, r, s0);
      ReplayKeeps(cfg, p, path, |path| - 1);
      if !ok { return None, got, sent; }
      ReplayPublishes(cfg, p, path, r);
      result := Some(PublicationResult(BatchesOf(p), OperationOf(p), p.source.release, p.source.version));
    }

    /** advanceCurrentManifest, after every message has been sent. */
    method AdvanceCurrent(p: Plan, got: seq<Ref>, ghost r: nat, ghost s0: State) returns (ok: bool)
      requires |got| == Stages(p)
      requires Valid(p) && path[0] == s0 && Stands(p, r, Run(p, got, Looking)) && |s0.runs| <= r
      requires Kept(s0.blobs, blobs)
      modifies this
      ensures Valid(p) && path[0] == s0 && queue == old(queue)
      ensures ok ==> Completed(p, s0, Now(), r) && Unhindered(cfg, p, s0, blobs)
      ensures Calm() && !ok ==> Hopeless(cfg, p, s0, blobs)
    {
      hide Inv, IsReplay, BatchesOf, Messages, Blocked, MayReplace, ManifestSized, Kept, Given;
      var name, body := CurrentName(p.source.release), ManifestOf(p, got[1]);
      ghost var run, before := Run(p, got, Looking), Now();
      DueAtEnd(run);
      var ref := PutCurrent(p, name, body, r, run);
      forall ids | Given(ids, blobs)
        ensures Blocked(cfg, p, s0, ids) <==>
          !(ManifestSized(cfg.sizeOf(body)) && MayReplace(cfg, p, before.blobs, name, body))
      {
        GivenEarlier(ids, before.blobs, blobs);
        Verdict(cfg, p, s0, before, ids, r);
      }
      return ref.Some?;
    }

    /** publishIdentity, publishDAR, publishManifest and publishBatches in turn. */
    method StoreAll(p: Plan, ghost r: nat, ghost run: Run, ghost s0: State, ghost q0: seq<Message>)
      returns (refs: Option<seq<Ref>>)
      requires ValidPlan(cfg, p) && Storing(p, r, run, s0, q0) && run == Run(p, [], Putting)
      modifies this
      ensures refs.Some? ==> |refs.value| == Stages(p) && Storing(p, r, Run(p, refs.value, Sending(0)), s0, q0)
      ensures refs.None? ==> Valid(p) && path[0] == s0 && queue == q0
      ensures refs.None? && Calm() ==> Hopeless(cfg, p, s0, blobs)
    {
      hide Inv, IsReplay, ValidPlan, BatchesOf, Messages, Hopeless, Wanted, Valid, ManifestAccepted;
      SomeBatch(cfg, p);
      var op, source := OperationOf(p), p.source;
      var identity := PutStage(p, IdentityName(source.release, source.version), IdentityOf(p), r, run, s0, q0);
      if identity.None? { return None; }
      ghost var run1 := AfterPut(run, identity.value);
      var dar := PutStage(p, ArchiveName(source.version, source.download), ArchiveBody(p.archive), r, run1, s0, q0);
      if dar.None? { return None; }
      ghost var run2 := AfterPut(run1, dar.value);
      if !ManifestAccepted(cfg, ManifestOf(p, dar.value).manifest) {
        refs := RefuseManifest(p, dar.value, r, run2, s0, q0);
        return;
      }
      var manifest := PutStage(p, ManifestName(source.release, op), ManifestOf(p, dar.value), r, run2, s0, q0);
      if manifest.None? { return None; }
      ghost var run3 := AfterPut(run2, manifest.value);
      refs := PublishBatches(p, [identity.value, dar.value, manifest.value], r, run3, s0, q0);
    }
  }

  ghost predicate AcceptedUpTo(cfg: Config, p: Plan, got: seq<Ref>, n: nat)
    requires Stages(p) <= |got| && n <= BatchesOf(p)
  {
    forall i | 0 <= i < n :: MessageAccepted(cfg, MessageOf(p, got, i))
  }

  ghost predicate AllAccepted(cfg: Config, p: Plan, got: seq<Ref>)
    requires Stages(p) <= |got|
  {
    AcceptedUpTo(cfg, p, got, BatchesOf(p))
  }

  lemma NoneRefused(cfg: Config, p: Plan, got: seq<Ref>)
    requires Stages(p) <= |got|
    ensures AcceptedUpTo(cfg, p, got, 0)
    ensures AllAccepted(cfg, p, got) <==> AcceptedUpTo(cfg, p, got, BatchesOf(p))
  {}

  /** A message that is refused spoils the whole list. */
  lemma OneMoreAccepted(cfg: Config, p: Plan, got: seq<Ref>, n: nat)
    requires Stages(p) <= |got| && n < BatchesOf(p)
    ensures AcceptedUpTo(cfg, p, got, n + 1) <==>
      AcceptedUpTo(cfg, p, got, n) && MessageAccepted(cfg, MessageOf(p, got, n))
    ensures AllAccepted(cfg, p, got) ==> MessageAccepted(cfg, MessageOf(p, got, n))
  {
    hide MessageAccepted, MessageOf, BatchesOf;
  }

  /** Nothing blocks the plan, given the ids of the blobs that are stored. */
  ghost predicate Unhindered(cfg: Config, p: Plan, s0: State, blobs: map<Name, Cell>) {
    forall ids | Given(ids, blobs) :: !Blocked(cfg, p, s0, ids)
  }

  lemma ManifestStage(run: Run)
    requires |run.got| < Stages(run.plan)
    ensures |run.got| == 2 ==> DueOf(run) == Blob(ManifestName(run.plan.source.release, OperationOf(run.plan)),
                                                  ManifestOf(run.plan, run.got[1]))
  {}

  lemma StageIsHopeless(cfg: Config, p: Plan, s0: State, s: State, blobs: map<Name, Cell>, r: nat, name: Name,
                        body: Body)
    requires Inv(cfg, s) && Grown(cfg, p, s0, s)
    requires forall n | n in s.blobs :: n in blobs && blobs[n] == s.blobs[n]
    requires r < |s.runs| && s.runs[r].plan == p && |s.runs[r].got| < Stages(p)
    requires DueOf(s.runs[r]) == Blob(name, body) && !name.CurrentName?
    requires Unstorable(cfg, s.blobs, Blob(name, body))
    ensures Hopeless(cfg, p, s0, blobs)
  {
    hide Inv, Grown, DueOf, DueAccepted, Given, Blocked, Stages;
    forall ids | Given(ids, blobs)
      ensures Blocked(cfg, p, s0, ids)
    {
      GivenEarlier(ids, s.blobs, blobs);
      StageIsBlocked(cfg, p, s0, s, ids, r, name, body);
    }
  }

  /** A refused message was refused from the start. */
  lemma RefusedIsHopeless(cfg: Config, p: Plan, s0: State, s: State, r: nat, got: seq<Ref>)
    requires Inv(cfg, s) && r < |s.runs| && s.runs[r].plan == p && s.runs[r].got == got && |got| == Stages(p)
    requires !AllAccepted(cfg, p, got)
    ensures Hopeless(cfg, p, s0, s.blobs)
  {
    hide CellInv, CommitInv, SentInv, PcInv, ValidPlan, BatchesOf, AllObtained, MessageAccepted, WantedMessage;
    hide Given, MessageOf;
    var i :| 0 <= i < BatchesOf(p) && !MessageAccepted(cfg, MessageOf(p, got, i));
    assert RunInv(cfg, s, s.runs[r], r);
    forall ids | Given(ids, s.blobs)
      ensures Blocked(cfg, p, s0, ids)
    {
      MessagesAreWanted(cfg, s, s.runs[r], ids, i);
    }
  }

  lemma NoneQueued(q: seq<Message>, p: Plan, got: seq<Ref>)
    requires Stages(p) <= |got|
    ensures Queued(q, q, p, got, 0)
  {}

  lemma OneMoreMessage(q: seq<Sent>, m: Sent)
    ensures Messages(q + [m]) == Messages(q) + [m.message]
  {}

  /** The queue has grown from `q0` by the first `n` messages, in order. */
  ghost predicate Queued(q: seq<Message>, q0: seq<Message>, p: Plan, got: seq<Ref>, n: nat)
    requires n <= BatchesOf(p) && Stages(p) <= |got|
  {
    q == q0 + FirstMessages(p, got, n)
  }

  lemma OneMoreQueued(q: seq<Message>, q0: seq<Message>, p: Plan, got: seq<Ref>, n: nat)
    requires n < BatchesOf(p) && Stages(p) <= |got| && Queued(q, q0, p, got, n)
    ensures Queued(q + [MessageOf(p, got, n)], q0, p, got, n + 1)
  {
    hide MessageOf, BatchesOf;
  }
}
