/**
 `stream` neither hangs nor runs for ever: a measure that every step of a task lowers, a
 step for every state that is not over, and a bound on what a teardown still runs.
 */
module StreamProgress {
  import opened Counting
  import opened Cancellation
  import opened Calls
  import opened StreamModel
  import opened StreamSafety
  import opened StreamResults

  // ---------------------------------------------------------------------------------
  // Termination
  // ---------------------------------------------------------------------------------

  function ConsumerWeight(c: Consumer): nat {
    match c.pc
    case AtTop => 3
    case Getting => 2
    case Calling(_, _) => 4
    case ConsumerEnded(_) => if c.reaped then 0 else 1
  }

  function ProducerWeight(s: State): nat {
    match s.producer.pc
    case NotStarted => 6 + 2 * s.started
    case Pulling => 5 + 2 * s.started
    case Putting(_) => 9 + 2 * s.started
    case PuttingSentinels(left) => 2 + 2 * left
    case ProducerEnded(_) => if s.producer.reaped then 0 else 1
  }

  /** Unpulled items, queued items and sentinels, the tasks, and what the group has yet to do. */
  function Measure(s: State): int {
    if s.group.phase.Exited? then 0
    else
      1 + 11 * (s.cfg.items - s.Pulled()) + ProducerWeight(s) + Sum(ConsumerWeight, s.consumers)
      + 3 * (s.metrics.produced - s.history.taken) + s.history.sentinelsPut - s.history.sentinelsTaken
      + (if s.group.aborting then 0 else 3) + Bit(s.group.task.undelivered)
  }

  lemma MeasureIsNat(s: State)
    requires Inv(s)
    ensures Measure(s) >= 0
  {
  }

  lemma SentinelLowers(s: State)
    requires s.group.phase.Exiting? && s.producer.pc.PuttingSentinels? && s.producer.pc.left > 0
    ensures Measure(PutSentinel(s)) < Measure(s) && PutSentinel(s).group == s.group
  {
  }

  lemma {:induction false} SentinelsLower(s: State)
    requires s.group.phase.Exiting? && s.producer.pc.PuttingSentinels?
    ensures Measure(PutSentinels(s)) <= Measure(s)
    ensures s.producer.pc.left == 0 || !s.Full() ==> Measure(PutSentinels(s)) < Measure(s)
    decreases s.producer.pc.left
  {
    if s.producer.pc.left == 0 || s.Full() {
    } else {
      SentinelLowers(s);
      SentinelsLower(PutSentinel(s));
    }
  }

  lemma OfferLowers(s: State, pos: nat)
    requires s.group.phase.Exiting? && pos < s.Pulled() && s.producer.pc == Putting(pos)
    ensures Measure(Offer(s, pos)) <= Measure(s)
  {
  }

  lemma RefusedLowers(s: State, caught: Option<Error<X>>)
    requires s.group.phase.Exiting? && s.producer.pc.Pulling? && s.Pulled() < s.cfg.items
    ensures Measure(ProducerRaises(Refused(s), caught)) < Measure(s)
  {
  }

  lemma YieldLowers(s: State)
    requires s.group.phase.Exiting? && s.producer.pc.Pulling? && s.Pulled() < s.cfg.items
    ensures Measure(SourceYields(s)) < Measure(s)
  {
    if s.Stopping() { RefusedLowers(s, None); }
    else if s.started < s.cfg.concurrency && s.group.aborting { RefusedLowers(s, Some(GroupShutDown)); }
    else {
      SumAppend(ConsumerWeight, s.consumers, Consumer(AtTop, false, false, false, 0));
      assert Measure(Admitted(s)) < Measure(s);
      OfferLowers(Admitted(s), s.Pulled());
    }
  }

  lemma ProducerLowers(s: State, step: Step)
    requires Can(s, step) && OfProducer(step)
    ensures Measure(Next(s, step)) < Measure(s)
  {
    match step
    case Yield => YieldLowers(s);
    case RoomForSentinel => SentinelsLower(s);
    case EndOfSource =>
      if !s.Stopping() {
        var s1 := SourceAnswered(s);
        SentinelsLower(s1.(producer := s1.producer.(pc := PuttingSentinels(s1.started))));
      }
    case _ =>
  }

  lemma TakeLowers(s: State, c: nat)
    requires QueueInv(s) && Idle(s, c) && s.queue != [] && FrontKnown(s)
    ensures Measure(Take(s, c)) < Measure(s)
  {
    SumUpdate(ConsumerWeight, s.consumers, c, Take(s, c).consumers[c]);
  }

  lemma LoopTopLowers(s: State, c: nat)
    requires QueueInv(s) && Idle(s, c) && s.consumers[c].pc.AtTop? && FrontKnown(s)
    ensures Measure(LoopTop(s, c)) < Measure(s)
  {
    if !s.Stopping() && s.queue != [] { TakeLowers(s, c); }
    else { SumUpdate(ConsumerWeight, s.consumers, c, LoopTop(s, c).consumers[c]); }
  }

  lemma RecordStep(s: State, c: nat, outcome: Outcome<V, X>)
    requires QueueInv(s) && Busy(s, c)
    ensures QueueInv(Record(s, c, outcome)) && Measure(Record(s, c, outcome)) == Measure(s) - 1
  {
    SumUpdate(ConsumerWeight, s.consumers, c, s.consumers[c].(pc := AtTop));
  }

  lemma RecordLowers(s: State, c: nat, outcome: Outcome<V, X>)
    requires QueueInv(s) && Busy(s, c)
    ensures FrontKnown(Record(s, c, outcome)) && Measure(LoopTop(Record(s, c, outcome), c)) < Measure(s)
  {
    var t := Record(s, c, outcome);
    RecordStep(s, c, outcome);
    FrontIsKnown(t);
    assert Idle(t, c) && t.consumers[c].pc.AtTop?;
    LoopTopLowers(t, c);
  }

  lemma FailItemLowers(s: State, c: nat, end: ChildEnd<Error<X>>)
    requires Busy(s, c) && !s.consumers[c].reaped
    ensures Measure(FailItem(s, c, end)) < Measure(s)
  {
    SumUpdate(ConsumerWeight, s.consumers, c, s.consumers[c].(pc := ConsumerEnded(end)));
  }

  lemma AnsweredStep(s: State, c: nat)
    requires QueueInv(s) && ConsumersInv(s) && Busy(s, c)
    ensures var t := CallAnswered(s, c);
            QueueInv(t) && Measure(t) == Measure(s) && Busy(t, c) && !t.consumers[c].reaped
  {
    SumUpdate(ConsumerWeight, s.consumers, c, CallAnswered(s, c).consumers[c]);
  }

  lemma ReturnLowers(s: State, c: nat, call: Call<V, X>)
    requires QueueInv(s) && ConsumersInv(s)
    requires Busy(s, c) && FrontKnown(s) && Possible(s.cfg.seconds, call)
    ensures Measure(CallReturns(s, c, call)) < Measure(s)
  {
    var s1 := CallAnswered(s, c);
    AnsweredStep(s, c);
    match Settle(None, s.consumers[c].pc.index, s.cfg.seconds, s.Stopping(), call)
    case Value(v) => RecordLowers(s1, c, Ok(v));
    case Failure(e) => if s.cfg.collect { RecordLowers(s1, c, Err(e)); } else { FailItemLowers(s1, c, Failed(e)); }
    case Teardown => FailItemLowers(s1, c, CancelledEnd);
  }

  lemma CallerLowers(s: State)
    requires QueueInv(s) && ProducerInv(s) && s.group.phase.Exiting? && (s.group.task.undelivered || AllReaped(s))
    ensures Measure(CallerResumes(s)) < Measure(s)
  {
  }

  lemma ConsumerCancelledLowers(s: State, c: nat)
    requires Idle(s, c)
    ensures Measure(ConsumerCancelled(s, c)) < Measure(s)
  {
    SumUpdate(ConsumerWeight, s.consumers, c, ConsumerCancelled(s, c).consumers[c]);
  }

  lemma ReapLowers(s: State, c: nat)
    requires Reapable(s, c)
    ensures Measure(ReapConsumer(s, c)) < Measure(s)
  {
    SumUpdate(ConsumerWeight, s.consumers, c, s.consumers[c].(reaped := true));
  }

  lemma ReapProducerLowers(s: State)
    requires s.group.phase.Exiting? && s.producer.pc.ProducerEnded? && !s.producer.reaped
    ensures Measure(ReapProducer(s)) < Measure(s)
  {
  }

  lemma EnvironmentRaises(s: State, e: Event<Error<X>>)
    requires IsOutside(e)
    ensures Measure(s.(group := Apply(s.group, e))) <= Measure(s) + 1
  {
  }

  lemma CancelChildSame(s: State, child: Option<nat>)
    requires CanStray(s, child)
    ensures Measure(CancelChild(s, child)) == Measure(s)
  {
    if child.Some? {
      SumUpdate(ConsumerWeight, s.consumers, child.value, s.consumers[child.value].(stray := true));
    }
  }

  /** Every step of a task lowers the measure; an outside event raises it by at most one. */
  lemma StepLowers(s: State, step: Step)
    requires Places(s) && Can(s, step)
    ensures OfTask(step) ==> Measure(Next(s, step)) < Measure(s)
    ensures Measure(Next(s, step)) <= Measure(s) + 1
  {
    match step
    case Top(c) => LoopTopLowers(s, c);
    case Get(c) => TakeLowers(s, c);
    case Return(c, call) => ReturnLowers(s, c, call);
    case Caller => CallerLowers(s);
    case CancelConsumer(c) => ConsumerCancelledLowers(s, c);
    case ReapP => ReapProducerLowers(s);
    case ReapC(c) => ReapLowers(s, c);
    case Environment(e) => EnvironmentRaises(s, e);
    case StrayCancel(child) => CancelChildSame(s, child);
    case _ => ProducerLowers(s, step);
  }

  /** A run has a bounded number of task steps: the source's length and the outside events bound it. */
  lemma {:induction false} RunsEnd(s: State, steps: seq<Step>, t: State)
    requires Inv(s) && Reaches(s, steps, t)
    ensures 2 * Count(OfTask, steps) + Measure(t) <= Measure(s) + |steps|
    decreases |steps|
  {
    if steps == [] {
    } else {
      StepInv(s, steps[0]);
      StepLowers(s, steps[0]);
      RunsEnd(Next(s, steps[0]), steps[1..], t);
      CountFirst(OfTask, steps);
    }
  }

  lemma StreamRunsEnd(cfg: Config, caller: Task, steps: seq<Step>, s: State)
    requires Reachable(cfg, caller, steps, s)
    ensures Count(OfTask, steps) <= 11 * cfg.items + 11 + (|steps| - Count(OfTask, steps))
  {
    InitInv(cfg, caller);
    ReachableInv(cfg, caller, steps, s);
    RunsEnd(Init(cfg, caller), steps, s);
    MeasureIsNat(s);
  }

  // ---------------------------------------------------------------------------------
  // A stop is final, unless an outsider takes a cancel back
  // ---------------------------------------------------------------------------------

  predicate TakesBack(step: Step) { step.Environment? && step.event.OutsideUncancel? }

  /** While the group runs: what cancels children is read as a stop, and a cancelled child has ended. */
  ghost predicate Steady(s: State) {
    s.group.phase.Exiting? ==>
      && s.group.probe.baseline <= s.group.task.cancelling
      && (s.group.task.undelivered || s.group.aborting ==> s.Stopping())
      && (s.producer.delivered ==> s.producer.pc.ProducerEnded?)
      && (forall c :: 0 <= c < |s.consumers| && s.consumers[c].delivered ==> s.consumers[c].pc.ConsumerEnded?)
  }

  lemma GroupStopStays(s: State, step: Step)
    requires Inv(s) && Can(s, step) && !TakesBack(step) && OfGroup(step)
    ensures Next(s, step).group.phase.Exiting? && s.Stopping() ==> Next(s, step).Stopping()
  {
    match step
    case ReapP => ApplyInv(s.group, ChildEnds(s.producer.pc.end));
    case ReapC(c) => ApplyInv(s.group, ChildEnds(s.consumers[c].pc.end));
    case Caller => ApplyInv(s.group, ParentWakes);
    case Environment(e) => ApplyInv(s.group, e);
  }

  /** Once stopping, always stopping. */
  lemma StopStays(s: State, step: Step)
    requires Inv(s) && Can(s, step) && !TakesBack(step)
    ensures Next(s, step).group.phase.Exiting? && s.Stopping() ==> Next(s, step).Stopping()
  {
    if OfGroup(step) { GroupStopStays(s, step); }
    else {
      StepKeepsGroup(s, step);
      if s.failed { LatchedStep(s, step); }
    }
  }

  lemma {:induction false} SentinelsSteady(s: State)
    requires s.producer.pc.PuttingSentinels? && Steady(s)
    ensures Steady(PutSentinels(s))
    decreases s.producer.pc.left
  {
    if s.producer.pc.left == 0 || s.Full() {
    } else {
      SentinelsSteady(PutSentinel(s));
    }
  }

  lemma SteadyProducer(s: State, step: Step)
    requires Inv(s) && Steady(s) && Can(s, step) && OfProducer(step)
    ensures Steady(Next(s, step))
  {
    match step
    case RoomForSentinel => SentinelsSteady(s);
    case EndOfSource =>
      if !s.Stopping() {
        var s1 := SourceAnswered(s);
        SentinelsSteady(s1.(producer := s1.producer.(pc := PuttingSentinels(s1.started))));
      }
    case _ =>
  }

  lemma TakeSteady(s: State, c: nat)
    requires Steady(s) && Idle(s, c) && s.queue != [] && FrontKnown(s)
    ensures Steady(Take(s, c))
  {
  }

  lemma LoopTopSteady(s: State, c: nat)
    requires Steady(s) && Idle(s, c) && FrontKnown(s)
    ensures Steady(LoopTop(s, c))
  {
    if !s.Stopping() && s.queue != [] { TakeSteady(s, c); }
  }

  /** Steady but for one consumer, whom a cancel may have reached during its call. */
  ghost predicate SteadyBut(s: State, c: nat) {
    && s.group.phase.Exiting? && c < |s.consumers|
    && s.group.probe.baseline <= s.group.task.cancelling
    && (s.group.task.undelivered || s.group.aborting ==> s.Stopping())
    && (s.producer.delivered ==> s.producer.pc.ProducerEnded?)
    && (s.consumers[c].delivered ==> s.group.aborting)
    && (forall d :: 0 <= d < |s.consumers| && d != c && s.consumers[d].delivered ==> s.consumers[d].pc.ConsumerEnded?)
  }

  lemma FailSteady(s: State, c: nat, end: ChildEnd<Error<X>>)
    requires SteadyBut(s, c) && Busy(s, c)
    ensures Steady(FailItem(s, c, end))
  {
  }

  lemma RecordSteady(s: State, c: nat, outcome: Outcome<V, X>)
    requires SteadyBut(s, c) && Busy(s, c) && FrontKnown(s)
    ensures FrontKnown(Record(s, c, outcome)) && Steady(LoopTop(Record(s, c, outcome), c))
  {
    var t := Record(s, c, outcome);
    if !s.Stopping() {
      assert Steady(t);
      LoopTopSteady(t, c);
    }
  }

  lemma CallSteady(s: State, c: nat, call: Call<V, X>)
    requires Steady(s) && Busy(s, c) && FrontKnown(s) && Possible(s.cfg.seconds, call) && QueueInv(s)
    ensures Steady(CallReturns(s, c, call))
  {
    var s1 := CallAnswered(s, c);
    assert SteadyBut(s1, c);
    match Settle(None, s.consumers[c].pc.index, s.cfg.seconds, s.Stopping(), call)
    case Value(v) => RecordSteady(s1, c, Ok(v));
    case Failure(e) =>
      if s.cfg.collect { RecordSteady(s1, c, Err(e)); } else { FailSteady(s1, c, Failed(e)); }
    case Teardown => FailSteady(s1, c, CancelledEnd);
  }

  /** A child is reaped: the count may rise, and the group may begin to abort. */
  lemma SteadyReap(s: State, step: Step)
    requires Inv(s) && Steady(s) && Can(s, step) && (step.ReapP? || step.ReapC?)
    ensures Steady(Next(s, step))
  {
    StopStays(s, step);
  }

  lemma SteadyCaller(s: State, step: Step)
    requires Inv(s) && Steady(s) && Can(s, step) && !TakesBack(step) && (step.Caller? || step.Environment?)
    ensures Steady(Next(s, step))
  {
    StopStays(s, step);
  }

  lemma SteadyConsumer(s: State, step: Step)
    requires QueueInv(s) && Steady(s) && Can(s, step)
    requires step.Top? || step.Get? || step.Return? || step.CancelConsumer? || step.StrayCancel?
    ensures Steady(Next(s, step))
  {
    match step
    case Top(c) => LoopTopSteady(s, c);
    case Get(c) => TakeSteady(s, c);
    case Return(c, call) => CallSteady(s, c, call);
    case _ =>
  }

  lemma SteadyStep(s: State, step: Step)
    requires Inv(s) && Steady(s) && Can(s, step) && !TakesBack(step)
    ensures Steady(Next(s, step))
  {
    if OfProducer(step) { SteadyProducer(s, step); }
    else if step.ReapP? || step.ReapC? { SteadyReap(s, step); }
    else if OfGroup(step) { SteadyCaller(s, step); }
    else { SteadyConsumer(s, step); }
  }

  /** Nobody outside takes a cancel of the caller back. */
  ghost predicate NoTakeBack(steps: seq<Step>) {
    steps != [] ==> !TakesBack(steps[0]) && NoTakeBack(steps[1..])
  }

  lemma OverIsOver(s: State, steps: seq<Step>, t: State)
    requires s.group.phase.Exited? && Reaches(s, steps, t)
    ensures s == t
  {
  }

  lemma {:induction false} ReachesSteady(s: State, steps: seq<Step>, t: State)
    requires Inv(s) && Steady(s) && Reaches(s, steps, t) && NoTakeBack(steps)
    ensures Steady(t) && (t.group.phase.Exiting? && s.Stopping() ==> t.Stopping())
    decreases |steps|
  {
    if steps == [] {
    } else {
      var s1 := Next(s, steps[0]);
      StepInv(s, steps[0]);
      SteadyStep(s, steps[0]);
      StopStays(s, steps[0]);
      ReachesSteady(s1, steps[1..], t);
      if t.group.phase.Exiting? && s1.group.phase.Exited? { OverIsOver(s1, steps[1..], t); }
    }
  }

  lemma StepTakesNothingBack(s: State, step: Step)
    requires Can(s, step) && !TakesBack(step)
    ensures NothingTakenBack(GroupEvents(s, step))
  {
    if step.Caller? && AllReaped(s) {
      assert [ParentWakes, GroupFinishes][1..] == [Event<Error<X>>.GroupFinishes];
    }
  }

  lemma {:induction false} NothingTakenBackOn<E>(es: seq<Event<E>>, fs: seq<Event<E>>)
    requires NothingTakenBack(es) && NothingTakenBack(fs)
    ensures NothingTakenBack(es + fs)
    decreases |es|
  {
    if es == [] {
      assert es + fs == fs;
    } else {
      assert (es + fs)[1..] == es[1..] + fs;
      NothingTakenBackOn(es[1..], fs);
    }
  }

  lemma {:induction false} RunTakesNothingBack(s: State, steps: seq<Step>)
    requires NoTakeBack(steps)
    ensures NothingTakenBack(GroupRun(s, steps))
    decreases |steps|
  {
    if steps == [] || !Can(s, steps[0]) {
    } else {
      StepTakesNothingBack(s, steps[0]);
      RunTakesNothingBack(Next(s, steps[0]), steps[1..]);
      NothingTakenBackOn(GroupEvents(s, steps[0]), GroupRun(Next(s, steps[0]), steps[1..]));
    }
  }

  /** Where no outsider takes a cancel back, the caller's count is its entry count and what outsiders added. */
  lemma CallerCountKept(cfg: Config, caller: Task, steps: seq<Step>, s: State)
    requires Reachable(cfg, caller, steps, s) && NoTakeBack(steps) && s.group.phase.Exited?
    ensures var added := NetOutside(Enter(caller), CallEvents(cfg, caller, steps));
            0 <= added && s.group.task.cancelling == caller.cancelling + added
  {
    var run := GroupRun(Init(cfg, caller), steps);
    CallLeads(cfg, caller, steps, s);
    CallerCountRestored(cfg, caller, steps, s);
    RunTakesNothingBack(Init(cfg, caller), steps);
    assert CallEvents(cfg, caller, steps)[1..] == run;
    EnterInv<Error<X>>(caller);
    NothingTakenBackIsSafe(Enter(caller), CallEvents(cfg, caller, steps), s.group);
    BookedRight(Enter(caller), CallEvents(cfg, caller, steps), s.group);
  }

  // ---------------------------------------------------------------------------------
  // No deadlock
  // ---------------------------------------------------------------------------------

  /** No task can move, whatever the user's code does next. */
  ghost predicate Stuck(s: State) {
    forall step :: Can(s, step) ==> !OfTask(step)
  }

  const ANY_END: Call<V, X> := Call(ThrewTimeout, false, 0, 0)

  /** While the batch is calm, a consumer that can run exists until every sentinel is taken. */
  lemma CalmConsumerMoves(s: State) returns (step: Step)
    requires QueueInv(s) && ProducerInv(s) && FatesInv(s) && CalmInv(s) && s.group.phase.Exiting?
    requires Calm(s) && s.Undisturbed() && s.history.sentinelsTaken < s.started
    requires s.queue != []
    ensures Can(s, step) && OfTask(step)
  {
    var c := CountMissing(IsEnded, s.consumers);
    step := if s.ConsumerDue(c) && !s.consumers[c].pc.Calling? then CancelConsumer(c)
            else if s.consumers[c].pc.AtTop? then Top(c)
            else if s.consumers[c].pc.Getting? then Get(c)
            else Return(c, ANY_END);
  }

  /** The producer is done: its sentinels let every consumer end, and then the group sees them all. */
  lemma EndingMoves(s: State) returns (step: Step)
    requires Inv(s) && s.group.phase.Exiting? && Calm(s) && s.Undisturbed() && s.producer.pc.ProducerEnded?
    ensures Can(s, step) && OfTask(step)
  {
    FrontIsKnown(s);
    if !s.producer.reaped { step := ReapP; }
    else if EndedCount(s) < |s.consumers| { step := CalmConsumerMoves(s); }
    else if c :| 0 <= c < |s.consumers| && !ConsumerReaped(s.consumers[c]) {
      AllCounted(IsEnded, s.consumers, c);
      step := ReapC(c);
    } else { step := Caller; }
  }

  lemma CalmMoves(s: State) returns (step: Step)
    requires Inv(s) && s.group.phase.Exiting? && Calm(s) && s.Undisturbed()
    ensures Can(s, step) && OfTask(step)
  {
    FrontIsKnown(s);
    match s.producer.pc
    case NotStarted => step := if s.ProducerDue() then CancelProducer else ProducerStarts;
    case Pulling => step := if s.Pulled() < s.cfg.items then Yield else EndOfSource;
    case Putting(p) =>
      if s.ProducerDue() { step := CancelProducer; }
      else if s.Full() { step := CalmConsumerMoves(s); }
      else { step := RoomForItem; }
    case PuttingSentinels(left) =>
      if s.ProducerDue() { step := CancelProducer; }
      else if s.Full() { step := CalmConsumerMoves(s); }
      else { step := RoomForSentinel; }
    case ProducerEnded(_) => step := EndingMoves(s);
  }

  lemma ConsumerMoves(s: State, c: nat) returns (step: Step)
    requires Places(s) && Steady(s) && s.group.phase.Exiting? && s.group.aborting && FrontKnown(s)
    requires c < |s.consumers| && !s.consumers[c].reaped
    ensures Can(s, step) && OfTask(step)
  {
    match s.consumers[c].pc
    case Calling(_, _) => step := Return(c, ANY_END);
    case ConsumerEnded(_) => step := ReapC(c);
    case _ => step := CancelConsumer(c);
  }

  lemma AbortMoves(s: State) returns (step: Step)
    requires Places(s) && Steady(s) && s.group.phase.Exiting? && s.group.aborting && FrontKnown(s)
    ensures Can(s, step) && OfTask(step)
  {
    match s.producer.pc
    case Pulling => step := EndOfSource;
    case ProducerEnded(_) =>
      if !s.producer.reaped { step := ReapP; }
      else if c :| 0 <= c < |s.consumers| && !ConsumerReaped(s.consumers[c]) { step := ConsumerMoves(s, c); }
      else { step := Caller; }
    case _ => step := CancelProducer;
  }

  /** Once the batch stops, every child that has not ended can move, or the group can learn of a failure. */
  lemma StoppedMoves(s: State) returns (step: Step)
    requires Inv(s) && Steady(s) && s.group.phase.Exiting? && !Calm(s)
    ensures Can(s, step) && OfTask(step)
  {
    FrontIsKnown(s);
    if s.group.task.undelivered { step := Caller; }
    else if s.group.aborting { step := AbortMoves(s); }
    else if s.producer.pc.ProducerEnded? && s.producer.pc.end.Failed? && !s.producer.reaped { step := ReapP; }
    else {
      var c :| 0 <= c < |s.consumers| && FailedConsumer(s.consumers[c]);
      step := ReapC(c);
    }
  }

  lemma InitSteady(cfg: Config, caller: Task)
    ensures Steady(Init(cfg, caller))
  {
  }

  /**
   `stream` cannot hang: in every reachable state that is not over some task can move,
   whatever the user's function, the source and outsiders have done, provided that no
   outsider took back a cancel of the caller and no child was ended by a stray cancel.
   */
  lemma NoDeadlock(cfg: Config, caller: Task, steps: seq<Step>, s: State)
    requires Reachable(cfg, caller, steps, s) && NoTakeBack(steps) && s.Undisturbed()
    ensures Stuck(s) <==> s.group.phase.Exited?
  {
    InitInv(cfg, caller);
    InitSteady(cfg, caller);
    ReachableInv(cfg, caller, steps, s);
    ReachesSteady(Init(cfg, caller), steps, s);
    if s.group.phase.Exiting? {
      var step;
      if Calm(s) { step := CalmMoves(s); } else { step := StoppedMoves(s); }
      assert Can(s, step) && OfTask(step);
    }
  }

  // ---------------------------------------------------------------------------------
  // What a teardown still runs
  // ---------------------------------------------------------------------------------

  /** The calls a consumer has begun, and the one it may still begin: only while it waits for an item. */
  function CallsDue(s: State, c: nat): nat
    requires c < |s.consumers|
  {
    s.consumers[c].begun + Bit(s.consumers[c].pc.Getting? && !s.failed)
  }

  /** The same for the producer and its source. */
  function SourceCallsDue(s: State): nat {
    s.history.sourceCalls + Bit(s.producer.pc.NotStarted? || s.producer.pc.Putting?)
  }

  lemma {:induction false} StoppingSentinels(s: State)
    requires s.producer.pc.PuttingSentinels?
    ensures var t := PutSentinels(s);
            t.consumers == s.consumers && SourceCallsDue(t) <= SourceCallsDue(s) && t.failed == s.failed
    decreases s.producer.pc.left
  {
    if s.producer.pc.left == 0 || s.Full() {
    } else {
      StoppingSentinels(PutSentinel(s));
    }
  }

  lemma StoppingProducer(s: State, step: Step)
    requires Can(s, step) && OfProducer(step) && s.Stopping()
    ensures var t := Next(s, step);
            t.consumers == s.consumers && SourceCallsDue(t) <= SourceCallsDue(s) && (s.failed ==> t.failed)
  {
    if step.RoomForSentinel? { StoppingSentinels(s); }
  }

  /** Whether consumer `c`, if there is one, has come no nearer to another call. */
  predicate NoMoreCalls(s: State, t: State, c: nat) {
    && |t.consumers| == |s.consumers|
    && (c < |s.consumers| ==> CallsDue(t, c) <= CallsDue(s, c))
  }

  lemma StoppingReturn(s: State, d: nat, call: Call<V, X>, c: nat)
    requires Busy(s, d) && FrontKnown(s) && Possible(s.cfg.seconds, call) && s.Stopping()
    ensures var t := CallReturns(s, d, call); NoMoreCalls(s, t, c) && SourceCallsDue(t) == SourceCallsDue(s)
  {
  }

  lemma StoppingConsumer(s: State, step: Step, c: nat)
    requires Can(s, step) && !OfProducer(step) && s.Stopping()
    ensures var t := Next(s, step); NoMoreCalls(s, t, c) && SourceCallsDue(t) == SourceCallsDue(s)
  {
    match step
    case Return(d, call) => StoppingReturn(s, d, call, c);
    case _ =>
  }

  lemma StoppingStep(s: State, step: Step, c: nat)
    requires Can(s, step) && s.Stopping()
    ensures var t := Next(s, step); NoMoreCalls(s, t, c) && SourceCallsDue(t) <= SourceCallsDue(s)
  {
    if OfProducer(step) { StoppingProducer(s, step); } else { StoppingConsumer(s, step, c); }
  }

  lemma {:induction false} StoppingRun(s: State, steps: seq<Step>, t: State, c: nat)
    requires Inv(s) && s.Stopping() && Reaches(s, steps, t) && NoTakeBack(steps)
    ensures NoMoreCalls(s, t, c) && SourceCallsDue(t) <= SourceCallsDue(s)
    decreases |steps|
  {
    if steps == [] {
    } else {
      var s1 := Next(s, steps[0]);
      StepInv(s, steps[0]);
      StoppingStep(s, steps[0], c);
      if s1.group.phase.Exiting? {
        StopStays(s, steps[0]);
        StoppingRun(s1, steps[1..], t, c);
      } else {
        OverIsOver(s1, steps[1..], t);
      }
    }
  }

  lemma NotCalmStays(s: State, step: Step)
    requires Can(s, step) && !Calm(s)
    ensures !Calm(Next(s, step))
  {
    if s.failed { LatchedStep(s, step); }
    else if OfProducer(step) { ProducerKeeps(s, step); }
  }

  lemma {:induction false} NotCalmForGood(s: State, steps: seq<Step>, t: State)
    requires !Calm(s) && Reaches(s, steps, t)
    ensures !Calm(t)
    decreases |steps|
  {
    if steps == [] {
    } else {
      NotCalmStays(s, steps[0]);
      NotCalmForGood(Next(s, steps[0]), steps[1..], t);
    }
  }

  /**
   Once the batch stops, a consumer begins at most one more call, and none if a failure is
   latched; the source is asked at most once more; no consumer is started; and a state in
   which nothing can move has ended every child. Absorbing the cancellation changes nothing.
   */
  lemma Teardown(cfg: Config, caller: Task, before: seq<Step>, s: State, after: seq<Step>, t: State, c: nat)
    requires Reachable(cfg, caller, before, s) && s.Stopping()
    requires Reaches(s, after, t) && NoTakeBack(before) && NoTakeBack(after)
    ensures |t.consumers| == |s.consumers|
    ensures c < |s.consumers| ==>
              t.consumers[c].begun <= s.consumers[c].begun + Bit(s.consumers[c].pc.Getting? && !s.failed)
    ensures t.history.sourceCalls <=
              s.history.sourceCalls + Bit(s.producer.pc.NotStarted? || s.producer.pc.Putting?)
    ensures Stuck(t) && s.group.phase.Exiting? ==>
              t.group.phase.Exited? && AllReaped(t) && !t.group.phase.exit.Returned?
  {
    InitInv(cfg, caller);
    InitSteady(cfg, caller);
    ReachableInv(cfg, caller, before, s);
    ReachesSteady(Init(cfg, caller), before, s);
    ReachesInv(s, after, t);
    ReachesSteady(s, after, t);
    StoppingRun(s, after, t, c);
    if s.group.phase.Exiting? {
      NotCalmForGood(s, after, t);
      if t.group.phase.Exiting? {
        var step := StoppedMoves(t);
        assert Can(t, step) && OfTask(step);
      }
    }
  }
}
