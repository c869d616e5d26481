/** One delivery under lock renewal (internal/distribution/runtime.go): the
    processor and the renewer as two processes that share a cancellable context
    and a one-slot channel. */
module Renewal {
  import opened Basics
  import opened Mail

  /** What the renewer posts: nil, or one of its two errors. */
  datatype Verdict = Sound | Exhausted | LockLost

  datatype ProcessorPc =
    | Processing
    | Waiting                      // the delay before an abandon
    | Cancelling(settle: bool)
    | Receiving(settle: bool)      // blocked on the channel
    | Settling
    | Returned

  datatype RenewerPc =
    | Selecting                    // context, deadline or tick
    | Renewing                     // inside the renewal call
    | Checking                     // it failed; about to look at the context
    | Stopping(verdict: Verdict)   // about to cancel the context
    | Posting(verdict: Verdict)
    | Ended

  /** `failedLive`: a renewal failed while the context was live. `overtaken`: the
      context was cancelled after that, before the renewer looked at it.
      `fired`, `firedLive`: the budget timer has fired, and did so while the
      context was live. `tookDeadline`: the renewer took the timer's branch.
      `missed`: the context was cancelled after the timer fired and before the
      renewer took that branch. `interrupted`, `waited`: an abandon's delay
      was cut short, or has passed. */
  datatype State = State(
    processor: ProcessorPc, result: Option<Disposition>, renewer: RenewerPc,
    cancelled: bool, channel: Option<Verdict>, posts: nat, received: Option<Verdict>,
    settled: seq<Disposition>, failedLive: bool, overtaken: bool,
    fired: bool, firedLive: bool, tookDeadline: bool, missed: bool, interrupted: bool, waited: bool)

  const INITIAL := State(Processing, None, Selecting, false, None, 0, None, [], false, false,
                         false, false, false, false, false, false)

  datatype Label =
    | ParentCancels | DeadlineFires
    | ProcessReturns(result: Disposition) | DelayPasses | DelayInterrupted
    | ProcessorCancels | ProcessorReceives | Settles
    | SeesDone | SeesDeadline | SeesTick | RenewSucceeds | RenewFails | LooksAtContext | RenewerCancels | Posts

  predicate Enabled(s: State, a: Label) {
    match a
    case ParentCancels => true
    case DeadlineFires => !s.fired
    case ProcessReturns(_) => s.processor == Processing
    case DelayPasses => s.processor == Waiting
    case DelayInterrupted => s.processor == Waiting && s.cancelled
    case ProcessorCancels => s.processor.Cancelling?
    case ProcessorReceives => s.processor.Receiving? && s.channel.Some?
    case Settles => s.processor == Settling
    case SeesDone => s.renewer == Selecting && s.cancelled
    case SeesDeadline => s.renewer == Selecting && s.fired
    case SeesTick => s.renewer == Selecting
    case RenewSucceeds | RenewFails => s.renewer == Renewing
    case LooksAtContext => s.renewer == Checking
    case RenewerCancels => s.renewer.Stopping?
    case Posts => s.renewer.Posting? && s.channel.None?
  }

  function Cancel(s: State): State {
    s.(cancelled := true, overtaken := s.overtaken || (s.failedLive && s.renewer == Checking),
       missed := s.missed || (!s.cancelled && s.fired && !s.tookDeadline))
  }

  function Step(s: State, a: Label): State
    requires Enabled(s, a)
  {
    match a
    case ParentCancels => Cancel(s)
    case DeadlineFires => s.(fired := true, firedLive := !s.cancelled)
    case ProcessReturns(d) =>
      s.(result := Some(d), processor := if d == Abandon then Waiting else Cancelling(true))
    case DelayPasses => s.(processor := Cancelling(true), waited := true)
    case DelayInterrupted => s.(processor := Cancelling(false), interrupted := true)
    case ProcessorCancels => Cancel(s).(processor := Receiving(s.processor.settle))
    case ProcessorReceives =>
      var v := s.channel.value;
      s.(channel := None, received := Some(v),
         processor := if s.processor.settle && v == Sound then Settling else Returned)
    case Settles => s.(processor := Returned, settled := s.settled + (if s.result.Some? then [s.result.value] else []))
    case SeesDone => s.(renewer := Posting(Sound))
    case SeesDeadline => s.(renewer := Stopping(Exhausted), tookDeadline := true)
    case SeesTick => s.(renewer := Renewing)
    case RenewSucceeds => s.(renewer := Selecting)
    case RenewFails => s.(renewer := Checking, failedLive := !s.cancelled)
    case LooksAtContext => s.(renewer := if s.cancelled then Posting(Sound) else Stopping(LockLost))
    case RenewerCancels => Cancel(s).(renewer := Posting(s.renewer.verdict))
    case Posts => s.(renewer := Ended, channel := Some(s.renewer.verdict), posts := s.posts + 1)
  }

  ghost predicate CanStep(s: State, s': State) { exists a :: Enabled(s, a) && Step(s, a) == s' }

  ghost predicate IsRun(run: seq<State>) {
    && |run| > 0 && run[0] == INITIAL
    && forall i | 0 < i < |run| :: CanStep(run[i - 1], run[i])
  }

  // ---- The invariant -----------------------------------------------------------

  /** The verdict the renewer has settled on, if it has. */
  function Verdicted(s: State): Option<Verdict> {
    match s.renewer
    case Stopping(v) => Some(v)
    case Posting(v) => Some(v)
    case Ended => if s.channel.Some? then s.channel else s.received
    case _ => None
  }

  predicate RenewerInv(s: State) {
    && s.posts == (if s.renewer == Ended then 1 else 0)
    && (s.renewer == Ended <==> s.channel.Some? || s.received.Some?)
    && !(s.channel.Some? && s.received.Some?)
    && (s.renewer == Posting(Sound) ==> s.cancelled)
    && (s.renewer.Stopping? ==> s.renewer.verdict != Sound)
    && (s.overtaken ==> s.failedLive && s.cancelled)
    && (s.renewer == Selecting || s.renewer == Renewing ==> !s.failedLive && !s.overtaken)
    && (s.renewer == Checking ==> if s.failedLive then s.overtaken <==> s.cancelled else s.cancelled)
    && (Verdicted(s).Some? ==>
        && (Verdicted(s) == Some(LockLost) <==> s.failedLive && !s.overtaken)
        && (s.failedLive && s.overtaken ==> Verdicted(s) == Some(Sound)))
  }

  predicate BudgetInv(s: State) {
    && (s.tookDeadline <==> Verdicted(s) == Some(Exhausted))
    && (s.firedLive ==> s.fired)
    && (s.missed ==> s.fired && s.cancelled)
    && (s.firedLive && s.cancelled ==> s.missed || s.tookDeadline)
  }

  predicate ProcessorInv(s: State) {
    && (s.processor == Processing <==> s.result.None?)
    && (s.received.Some? <==> s.processor == Settling || s.processor == Returned)
    && (s.processor.Receiving? || s.processor == Settling || s.processor == Returned ==> s.cancelled)
    && (s.processor == Settling ==> s.received == Some(Sound))
    && (s.processor == Processing || s.processor == Waiting ==> !s.interrupted && !s.waited)
    && (s.processor == Waiting ==> s.result == Some(Abandon))
    && (s.processor != Processing && s.processor != Waiting ==>
          (s.waited <==> s.result == Some(Abandon) && !s.interrupted))
    && (s.processor.Cancelling? || s.processor.Receiving? ==> s.processor.settle == !s.interrupted)
    && (s.processor == Settling ==> !s.interrupted)
    && s.settled == (if s.processor == Returned && s.received == Some(Sound) && !s.interrupted
                     then [s.result.value] else [])
  }

  predicate Inv(s: State) { RenewerInv(s) && ProcessorInv(s) && BudgetInv(s) }

  predicate RenewerLabel(a: Label) {
    a in {SeesDone, SeesDeadline, SeesTick, RenewSucceeds, RenewFails, LooksAtContext, RenewerCancels, Posts}
  }

  lemma RenewerKeepsInv(s: State, a: Label)
    requires Inv(s) && Enabled(s, a) && RenewerLabel(a)
    ensures RenewerInv(Step(s, a)) && BudgetInv(Step(s, a))
  {
    hide ProcessorInv;
  }

  lemma OthersKeepInv(s: State, a: Label)
    requires Inv(s) && Enabled(s, a) && !RenewerLabel(a)
    ensures RenewerInv(Step(s, a)) && BudgetInv(Step(s, a))
  {}

  lemma ProcessorKeepsInv(s: State, a: Label)
    requires Inv(s) && Enabled(s, a)
    ensures ProcessorInv(Step(s, a))
  {
    hide BudgetInv;
  }

  lemma StepKeepsInv(s: State, a: Label)
    requires Inv(s) && Enabled(s, a)
    ensures Inv(Step(s, a))
  {
    hide RenewerInv, ProcessorInv, BudgetInv, Step, RenewerLabel;
    if RenewerLabel(a) { RenewerKeepsInv(s, a); } else { OthersKeepInv(s, a); }
    ProcessorKeepsInv(s, a);
  }

  lemma {:induction false} Reachable(run: seq<State>, i: nat)
    requires IsRun(run) && i < |run|
    ensures Inv(run[i])
  {
    hide CanStep, Inv;
    if i == 0 {
      FirstHolds();
    } else {
      Reachable(run, i - 1);
      CanStepKeepsInv(run[i - 1], run[i]);
    }
  }

  lemma FirstHolds()
    ensures Inv(INITIAL)
  {}

  lemma CanStepKeepsInv(s: State, s': State)
    requires Inv(s) && CanStep(s, s')
    ensures Inv(s')
  {
    hide Inv, Step, Enabled;
    var a :| Enabled(s, a) && Step(s, a) == s';
    StepKeepsInv(s, a);
  }

  // ---- What holds in every run ------------------------------------------------------

  /** A delivery is settled at most once, as the worker decided, and only after
      the renewer reported no error: never once it took the deadline branch, and
      never once it saw a renewal fail with the context still live. */
  lemma SettledAtMostOnce(run: seq<State>, i: nat)
    requires IsRun(run) && i < |run|
    ensures |run[i].settled| <= 1
    ensures run[i].settled != [] ==>
      && run[i].result == Some(run[i].settled[0]) && run[i].received == Some(Sound) && run[i].processor == Returned
      && !run[i].tookDeadline && (run[i].failedLive ==> run[i].overtaken)
      && (run[i].firedLive ==> run[i].missed)
  {
    hide IsRun;
    Reachable(run, i);
  }

  /** A renewal that failed while the context was live is reported as a lost lock,
      and keeps the delivery from being settled, if and only if nobody cancelled
      the context before the renewer looked at it again. */
  lemma LiveFailureIsReported(run: seq<State>, i: nat)
    requires IsRun(run) && i < |run| && run[i].failedLive && run[i].posts == 1
    ensures Verdicted(run[i]) == Some(LockLost) <==> !run[i].overtaken
    ensures run[i].settled != [] ==> run[i].overtaken
  {
    hide IsRun;
    Reachable(run, i);
  }

  /** The exact outcome of a delivery whose processor has returned. A renewal
      that failed live lets the settlement through exactly when it was overtaken.
      A budget that ran out live lets it through exactly when the renewer never
      took the deadline branch, and then the context was cancelled first. An
      abandon is settled only after its whole delay, everything else at once. */
  lemma SettledExactlyWhen(run: seq<State>, i: nat)
    requires IsRun(run) && i < |run| && run[i].processor == Returned
    ensures run[i].posts == 1 && run[i].received.Some? && run[i].result.Some?
    ensures run[i].settled ==
      if run[i].received == Some(Sound) && !run[i].interrupted then [run[i].result.value] else []
    ensures run[i].settled == [Abandon] ==> run[i].waited
    ensures run[i].settled != [] && run[i].settled != [Abandon] ==> !run[i].waited
    ensures run[i].received == Some(Sound) <==> !run[i].tookDeadline && (run[i].failedLive ==> run[i].overtaken)
    ensures run[i].failedLive ==> (run[i].settled != [] <==> run[i].overtaken && !run[i].interrupted)
    ensures run[i].firedLive ==>
      && (run[i].settled != [] <==>
            !run[i].tookDeadline && (run[i].failedLive ==> run[i].overtaken) && !run[i].interrupted)
      && (!run[i].tookDeadline ==> run[i].missed)
  {
    hide IsRun;
    Reachable(run, i);
    var s := run[i];
    assert Verdicted(s) == s.received;
    var v := s.received.value;
    assert v.Sound? || v.Exhausted? || v.LockLost?;
  }

  lemma Extend(run: seq<State>, a: Label, s': State) returns (longer: seq<State>)
    requires IsRun(run) && Enabled(run[|run| - 1], a) && Step(run[|run| - 1], a) == s'
    ensures IsRun(longer) && longer[|longer| - 1] == s'
  {
    hide Step, Enabled;
    assert CanStep(run[|run| - 1], s');
    longer := run + [s'];
    forall i | 0 < i < |longer|
      ensures CanStep(longer[i - 1], longer[i])
    {
      if i < |run| { assert CanStep(run[i - 1], run[i]); }
    }
  }

  /** The window is real: the processor finishes and cancels between the failed
      call and the look at the context, and the delivery is settled. */
  lemma FailureCanBeOvertaken()
    ensures exists run: seq<State> :: IsRun(run) && run[|run| - 1].failedLive && run[|run| - 1].settled == [Complete]
  {
    hide IsRun;
    var done := Some(Complete);
    var run := Start();
    var s := INITIAL.(renewer := Renewing);
    run := Extend(run, SeesTick, s);
    s := s.(result := done, processor := Cancelling(true));
    run := Extend(run, ProcessReturns(Complete), s);
    s := s.(renewer := Checking, failedLive := true);
    run := Extend(run, RenewFails, s);
    s := s.(processor := Receiving(true), cancelled := true, overtaken := true);
    run := Extend(run, ProcessorCancels, s);
    run := Conclude(run, s);
  }

  /** The budget's window is real as well: the timer fires during a renewal call
      with a live context, the processor finishes and cancels, the call ends with
      an error that the cancel explains, and the delivery is settled. */
  lemma BudgetCanBeMissed()
    ensures exists run: seq<State> ::
      IsRun(run) && var s := run[|run| - 1]; s.firedLive && !s.failedLive && s.settled == [Complete]
  {
    hide IsRun;
    var run := Start();
    var s := INITIAL.(renewer := Renewing);
    run := Extend(run, SeesTick, s);
    s := s.(fired := true, firedLive := true);
    run := Extend(run, DeadlineFires, s);
    s := s.(result := Some(Complete), processor := Cancelling(true));
    run := Extend(run, ProcessReturns(Complete), s);
    s := s.(processor := Receiving(true), cancelled := true, missed := true);
    run := Extend(run, ProcessorCancels, s);
    s := s.(renewer := Checking);
    run := Extend(run, RenewFails, s);
    run := Conclude(run, s);
  }

  /** From a look at a cancelled context to the settlement. */
  lemma Conclude(run: seq<State>, s: State) returns (longer: seq<State>)
    requires IsRun(run) && run[|run| - 1] == s && s.renewer == Checking && s.cancelled
    requires s.processor == Receiving(true) && s.channel == None && s.settled == [] && s.result.Some?
    ensures IsRun(longer)
    ensures var t := longer[|longer| - 1];
      t.settled == [s.result.value] && t.failedLive == s.failedLive && t.firedLive == s.firedLive
  {
    hide IsRun;
    var t := s.(renewer := Posting(Sound));
    longer := Extend(run, LooksAtContext, t);
    longer := Settle(longer, t);
  }

  lemma Settle(run: seq<State>, s: State) returns (longer: seq<State>)
    requires IsRun(run) && run[|run| - 1] == s && s.renewer == Posting(Sound)
    requires s.processor == Receiving(true) && s.channel == None && s.settled == [] && s.result.Some?
    ensures IsRun(longer)
    ensures var t := longer[|longer| - 1];
      t.settled == [s.result.value] && t.failedLive == s.failedLive && t.firedLive == s.firedLive
  {
    hide IsRun;
    var t := s.(renewer := Ended, channel := Some(Sound), posts := s.posts + 1);
    longer := Extend(run, Posts, t);
    longer := Receive(longer, t);
  }

  lemma Receive(run: seq<State>, s: State) returns (longer: seq<State>)
    requires IsRun(run) && run[|run| - 1] == s && s.channel == Some(Sound)
    requires s.processor == Receiving(true) && s.settled == [] && s.result.Some?
    ensures IsRun(longer)
    ensures var t := longer[|longer| - 1];
      t.settled == [s.result.value] && t.failedLive == s.failedLive && t.firedLive == s.firedLive
  {
    hide IsRun;
    var t := s.(channel := None, received := Some(Sound), processor := Settling);
    longer := Extend(run, ProcessorReceives, t);
    assert t.settled + [s.result.value] == [s.result.value];
    longer := Extend(longer, Settles, t.(processor := Returned, settled := [s.result.value]));
  }

  lemma Start() returns (run: seq<State>)
    ensures IsRun(run) && run[|run| - 1] == INITIAL
  {
    run := [INITIAL];
  }

  // ---- No deadlock ----------------------------------------------------------------------

  /** How many of its own steps the renewer is from having posted. */
  function Rank(s: State): nat {
    match s.renewer
    case Selecting => 5
    case Renewing => 4
    case Checking => 3
    case Stopping(_) => 2
    case Posting(_) => 1
    case Ended => 0
  }

  /** The renewer posts exactly one verdict, its post never blocks, and while the
      processor waits for it the renewer always has a step to take. */
  lemma ReceiveCannotDeadlock(run: seq<State>, i: nat)
    requires IsRun(run) && i < |run|
    ensures run[i].posts <= 1 && (run[i].posts == 1 <==> run[i].renewer == Ended)
    ensures run[i].renewer.Posting? ==> Enabled(run[i], Posts)
    ensures run[i].processor.Receiving? ==>
      run[i].cancelled && (Enabled(run[i], ProcessorReceives) || exists a :: RenewerLabel(a) && Enabled(run[i], a))
  {
    hide IsRun;
    Reachable(run, i);
    var s := run[i];
    if s.processor.Receiving? && s.channel.None? {
      var a :=
        match s.renewer
        case Selecting => SeesDone
        case Renewing => RenewFails
        case Checking => LooksAtContext
        case Stopping(_) => RenewerCancels
        case _ => Posts;
      assert RenewerLabel(a) && Enabled(s, a);
    }
  }

  /** Every step of the renewer except a renewal that succeeds brings its post
      nearer, and no step of anyone else sends it back; so the wait is over after
      at most five of its steps without a success. */
  lemma RenewerGetsThere(s: State, a: Label)
    requires Inv(s) && Enabled(s, a) && a != RenewSucceeds
    ensures Rank(Step(s, a)) <= Rank(s)
    ensures RenewerLabel(a) ==> Rank(Step(s, a)) < Rank(s)
    ensures Rank(s) == 0 && s.processor.Receiving? ==> Enabled(s, ProcessorReceives)
  {}

  /** A stretch of a run without successful renewals. */
  ghost predicate IsStretch(states: seq<State>, labels: seq<Label>) {
    && |states| == |labels| + 1
    && forall i | 0 <= i < |labels| ::
         labels[i] != RenewSucceeds && Enabled(states[i], labels[i]) && Step(states[i], labels[i]) == states[i + 1]
  }

  function RenewerSteps(labels: seq<Label>): nat {
    if labels == [] then 0
    else RenewerSteps(labels[..|labels| - 1]) + (if RenewerLabel(labels[|labels| - 1]) then 1 else 0)
  }

  lemma {:induction false} WaitIsBounded(states: seq<State>, labels: seq<Label>)
    requires IsStretch(states, labels) && Inv(states[0])
    ensures Inv(states[|labels|])
    ensures RenewerSteps(labels) + Rank(states[|labels|]) <= Rank(states[0]) <= 5
  {
    hide Inv, Step, Enabled, RenewerLabel;
    if labels == [] {
    } else {
      var n := |labels| - 1;
      WaitIsBounded(states[..n + 1], labels[..n]);
      assert states[..n + 1][n] == states[n];
      StepKeepsInv(states[n], labels[n]);
      RenewerGetsThere(states[n], labels[n]);
    }
  }
}
