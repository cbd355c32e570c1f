/**
 What a `stream` call's state records of its run, read off the steps alone: which items came
 back and in what order, how often the source was asked, when the latch was set and by what,
 and what the producer ended in.
 */
module StreamRuns {
  import opened Counting
  import opened Cancellation
  import opened Calls
  import opened StreamModel
  import opened StreamSafety
  import opened StreamResults

  // ---------------------------------------------------------------------------------
  // The order of completion
  // ---------------------------------------------------------------------------------

  type Completion = (nat, Outcome<V, X>)  // an item's position, and what its call came to

  /** A step completes an item if its call comes back and the outcome is for the results. */
  function Completes(s: State, step: Step): seq<Completion>
    requires Can(s, step)
  {
    if !step.Return? then []
    else
      var pos := s.consumers[step.c].pc.pos;
      match Settle(None, pos, s.cfg.seconds, s.Stopping(), step.call)
      case Value(v) => [(pos, Ok(v))]
      case Failure(e) => if s.cfg.collect then [(pos, Err(e))] else []
      case Teardown => []
  }

  /** What a run completes, in its order. */
  ghost function Completed(s: State, steps: seq<Step>): seq<Completion>
    decreases |steps|
  {
    if steps == [] || !Can(s, steps[0]) then []
    else Completes(s, steps[0]) + Completed(Next(s, steps[0]), steps[1..])
  }

  function PositionsOf(done: seq<Completion>): seq<nat> {
    seq(|done|, k requires 0 <= k < |done| => done[k].0)
  }

  function OutcomesIn(done: seq<Completion>): seq<Outcome<V, X>> {
    seq(|done|, k requires 0 <= k < |done| => done[k].1)
  }

  /** The results and the finished positions are longer by exactly these. */
  predicate LongerBy(s: State, t: State, done: seq<Completion>) {
    && t.results == s.results + OutcomesIn(done)
    && t.history.finished == s.history.finished + PositionsOf(done)
  }

  lemma TakeCompletesNothing(s: State, c: nat)
    requires c < |s.consumers| && FrontKnown(s)
    ensures LongerBy(s, LoopTop(s, c), []) && (s.queue != [] ==> LongerBy(s, Take(s, c), []))
  {
  }

  lemma RecordCompletes(s: State, c: nat, outcome: Outcome<V, X>)
    requires Busy(s, c)
    ensures LongerBy(s, Record(s, c, outcome), [(s.consumers[c].pc.pos, outcome)])
  {
  }

  lemma CollectCompletes(s: State, c: nat, outcome: Outcome<V, X>)
    requires Inv(s) && Busy(s, c)
    ensures var t := Record(CallAnswered(s, c), c, outcome);
            FrontKnown(t) && LongerBy(s, LoopTop(t, c), [(s.consumers[c].pc.pos, outcome)])
  {
    var s1 := CallAnswered(s, c);
    AnsweredInv(s, c);
    RecordInv(s1, c, outcome);
    FrontIsKnown(Record(s1, c, outcome));
    RecordCompletes(s1, c, outcome);
    TakeCompletesNothing(Record(s1, c, outcome), c);
  }

  lemma ReturnCompletes(s: State, c: nat, call: Call<V, X>)
    requires Inv(s) && Can(s, Return(c, call))
    ensures LongerBy(s, CallReturns(s, c, call), Completes(s, Return(c, call)))
  {
    assert s.consumers[c].pc.index == s.consumers[c].pc.pos;
    match Settle(None, s.consumers[c].pc.index, s.cfg.seconds, s.Stopping(), call)
    case Value(v) => CollectCompletes(s, c, Ok(v));
    case Failure(e) => if s.cfg.collect { CollectCompletes(s, c, Err(e)); }
    case Teardown =>
  }

  lemma ProducerCompletesNothing(s: State, step: Step)
    requires Can(s, step) && OfProducer(step)
    ensures Next(s, step).results == s.results && Next(s, step).history.finished == s.history.finished
  {
    match step
    case RoomForSentinel => SentinelsKeep(s);
    case EndOfSource =>
      if !s.Stopping() {
        var s1 := SourceAnswered(s);
        SentinelsKeep(s1.(producer := s1.producer.(pc := PuttingSentinels(s1.started))));
      }
    case _ =>
  }

  lemma StepCompletes(s: State, step: Step)
    requires Inv(s) && Can(s, step)
    ensures LongerBy(s, Next(s, step), Completes(s, step))
  {
    if OfProducer(step) { ProducerCompletesNothing(s, step); }
    else {
      match step
      case Return(c, call) => ReturnCompletes(s, c, call);
      case Top(c) => TakeCompletesNothing(s, c);
      case Get(c) => TakeCompletesNothing(s, c);
      case _ =>
    }
  }

  lemma LongerStill(s: State, t: State, u: State, first: seq<Completion>, rest: seq<Completion>)
    requires LongerBy(s, t, first) && LongerBy(t, u, rest)
    ensures LongerBy(s, u, first + rest)
  {
    assert OutcomesIn(first + rest) == OutcomesIn(first) + OutcomesIn(rest);
    assert PositionsOf(first + rest) == PositionsOf(first) + PositionsOf(rest);
  }

  lemma {:induction false} RunCompletes(s: State, steps: seq<Step>, t: State)
    requires Inv(s) && Reaches(s, steps, t)
    ensures LongerBy(s, t, Completed(s, steps))
    decreases |steps|
  {
    if steps == [] {
    } else {
      var s1 := Next(s, steps[0]);
      StepInv(s, steps[0]);
      StepCompletes(s, steps[0]);
      RunCompletes(s1, steps[1..], t);
      LongerStill(s, s1, t, Completes(s, steps[0]), Completed(s1, steps[1..]));
    }
  }

  /**
   The results are appended in the order of completion: at every moment the list holds, for
   each item that the run has completed and in the run's order, what its call came to.
   */
  lemma ResultsInOrder(cfg: Config, caller: Task, steps: seq<Step>, s: State)
    requires Reachable(cfg, caller, steps, s)
    ensures s.results == OutcomesIn(Completed(Init(cfg, caller), steps))
    ensures s.history.finished == PositionsOf(Completed(Init(cfg, caller), steps))
  {
    InitInv(cfg, caller);
    RunCompletes(Init(cfg, caller), steps, s);
  }

  /**
   A normal return delivers the outcome of every item of the source exactly once, in the
   order of completion, and the metrics agree with the list.
   */
  lemma ReturnDelivers(cfg: Config, caller: Task, steps: seq<Step>, s: State)
    requires Reachable(cfg, caller, steps, s) && ReturnedNormally(s) && s.Undisturbed()
    ensures s.results == OutcomesIn(Completed(Init(cfg, caller), steps))
    ensures s.history.finished == PositionsOf(Completed(Init(cfg, caller), steps))
    ensures IsPermutation(s.history.finished, cfg.items)
    ensures |s.results| == s.metrics.produced == s.metrics.consumed == s.Pulled() == cfg.items
    ensures forall k :: 0 <= k < cfg.items ==>
              && s.history.finished[k] < s.Pulled()
              && s.history.fates[s.history.finished[k]] == Done(s.results[k])
    ensures s.queue == [] && !s.failed
  {
    ReachableInv(cfg, caller, steps, s);
    AllEnded(s);
    NothingLeft(s);
    ResultsInOrder(cfg, caller, steps, s);
  }

  // ---------------------------------------------------------------------------------
  // The source, and the calls
  // ---------------------------------------------------------------------------------

  predicate IsYield(step: Step) { step.Yield? }

  /** The producer's step ended in asking the source for an item. */
  predicate Asks(s: State, step: Step)
    requires Can(s, step)
  {
    OfProducer(step) && Next(s, step).producer.pc.Pulling?
  }

  /** Consumer `c`'s step ended in a call of the user's function. */
  predicate Begins(s: State, step: Step, c: nat)
    requires Can(s, step)
  {
    && (step == Top(c) || step == Get(c) || (step.Return? && step.c == c))
    && c < |Next(s, step).consumers| && Next(s, step).consumers[c].pc.Calling?
  }

  ghost function Asked(s: State, steps: seq<Step>): nat
    decreases |steps|
  {
    if steps == [] || !Can(s, steps[0]) then 0 else Bit(Asks(s, steps[0])) + Asked(Next(s, steps[0]), steps[1..])
  }

  ghost function Begun(s: State, steps: seq<Step>, c: nat): nat
    decreases |steps|
  {
    if steps == [] || !Can(s, steps[0]) then 0
    else Bit(Begins(s, steps[0], c)) + Begun(Next(s, steps[0]), steps[1..], c)
  }

  function BegunBy(s: State, c: nat): nat {
    if c < |s.consumers| then s.consumers[c].begun else 0
  }

  lemma {:induction false} SentinelsEndOrWait(s: State)
    requires s.producer.pc.PuttingSentinels?
    ensures var pc := PutSentinels(s).producer.pc; pc.PuttingSentinels? || pc == ProducerEnded(Finished)
    ensures |PutSentinels(s).history.fates| == |s.history.fates|
    decreases s.producer.pc.left
  {
    if s.producer.pc.left == 0 || s.Full() {
    } else {
      SentinelsEndOrWait(PutSentinel(s));
    }
  }

  lemma ProducerCounts(s: State, step: Step)
    requires Can(s, step) && OfProducer(step)
    ensures Next(s, step).history.sourceCalls == s.history.sourceCalls + Bit(Asks(s, step))
    ensures Next(s, step).Pulled() == s.Pulled() + Bit(step.Yield?)
  {
    match step
    case RoomForSentinel => SentinelsKeep(s); SentinelsEndOrWait(s);
    case EndOfSource =>
      if !s.Stopping() {
        var s1 := SourceAnswered(s);
        var s2 := s1.(producer := s1.producer.(pc := PuttingSentinels(s1.started)));
        SentinelsKeep(s2);
        SentinelsEndOrWait(s2);
      }
    case _ =>
  }

  lemma ProducerBeginsNothing(s: State, step: Step, c: nat)
    requires Can(s, step) && OfProducer(step)
    ensures BegunBy(Next(s, step), c) == BegunBy(s, c)
  {
    match step
    case RoomForSentinel => SentinelsKeep(s);
    case EndOfSource =>
      if !s.Stopping() {
        var s1 := SourceAnswered(s);
        SentinelsKeep(s1.(producer := s1.producer.(pc := PuttingSentinels(s1.started))));
      }
    case _ =>
  }

  /** From the top of the loop to the next await: at most a call is begun. */
  lemma TopCounts(s: State, c: nat, d: nat)
    requires c < |s.consumers| && FrontKnown(s) && !s.consumers[c].pc.Calling?
    ensures var t := LoopTop(s, c);
            && t.history.sourceCalls == s.history.sourceCalls && t.Pulled() == s.Pulled()
            && |t.consumers| == |s.consumers|
            && BegunBy(t, d) == BegunBy(s, d) + Bit(d == c && t.consumers[c].pc.Calling?)
  {
  }

  lemma CollectCounts(s: State, c: nat, outcome: Outcome<V, X>, d: nat)
    requires FrontKnown(s) && Busy(s, c)
    ensures var t := Record(s, c, outcome);
            FrontKnown(t) && var u := LoopTop(t, c);
            && u.history.sourceCalls == s.history.sourceCalls && u.Pulled() == s.Pulled()
            && |u.consumers| == |s.consumers|
            && BegunBy(u, d) == BegunBy(s, d) + Bit(d == c && u.consumers[c].pc.Calling?)
  {
    TopCounts(Record(s, c, outcome), c, d);
  }

  lemma ReturnCounts(s: State, c: nat, call: Call<V, X>, d: nat)
    requires Can(s, Return(c, call))
    ensures var t := CallReturns(s, c, call);
            && t.history.sourceCalls == s.history.sourceCalls && t.Pulled() == s.Pulled()
            && BegunBy(t, d) == BegunBy(s, d) + Bit(Begins(s, Return(c, call), d))
  {
    var s1 := CallAnswered(s, c);
    match Settle(None, s.consumers[c].pc.index, s.cfg.seconds, s.Stopping(), call)
    case Value(v) => CollectCounts(s1, c, Ok(v), d);
    case Failure(e) => if s.cfg.collect { CollectCounts(s1, c, Err(e), d); }
    case Teardown =>
  }

  lemma OtherCounts(s: State, step: Step, d: nat)
    requires Can(s, step) && !OfProducer(step) && !step.Return?
    ensures var t := Next(s, step);
            && t.history.sourceCalls == s.history.sourceCalls && t.Pulled() == s.Pulled()
            && BegunBy(t, d) == BegunBy(s, d) + Bit(Begins(s, step, d))
  {
  }

  lemma {:induction false} RunCounts(s: State, steps: seq<Step>, t: State, c: nat)
    requires Reaches(s, steps, t)
    ensures t.history.sourceCalls == s.history.sourceCalls + Asked(s, steps)
    ensures t.Pulled() == s.Pulled() + Count(IsYield, steps)
    ensures BegunBy(t, c) == BegunBy(s, c) + Begun(s, steps, c)
    decreases |steps|
  {
    if steps == [] {
    } else {
      if OfProducer(steps[0]) {
        ProducerCounts(s, steps[0]);
        ProducerBeginsNothing(s, steps[0], c);
      }
      else if steps[0].Return? { ReturnCounts(s, steps[0].c, steps[0].call, c); }
      else { OtherCounts(s, steps[0], c); }
      RunCounts(Next(s, steps[0]), steps[1..], t, c);
      CountFirst(IsYield, steps);
    }
  }

  /**
   The items pulled are those that the source yielded, so an item's position is its place in
   the source; and the source calls and the calls that a consumer began are those of the run.
   */
  lemma CountersTrue(cfg: Config, caller: Task, steps: seq<Step>, s: State, c: nat)
    requires Reachable(cfg, caller, steps, s)
    ensures s.Pulled() == Count(IsYield, steps)
    ensures s.history.sourceCalls == Asked(Init(cfg, caller), steps)
    ensures c < |s.consumers| ==> s.consumers[c].begun == Begun(Init(cfg, caller), steps, c)
  {
    RunCounts(Init(cfg, caller), steps, s, c);
  }

  // ---------------------------------------------------------------------------------
  // Stray cancels
  // ---------------------------------------------------------------------------------

  /** A cancel is thrown into a consumer, and it is not the group's. */
  predicate StrayEnds(s: State, step: Step) {
    && step.CancelConsumer? && step.c < |s.consumers|
    && s.consumers[step.c].stray && (!s.group.aborting || s.consumers[step.c].delivered)
  }

  /** The same for the producer, outside its `try`. */
  predicate StrayEndsProducer(s: State, step: Step) {
    && step.CancelProducer? && !s.producer.pc.Putting?
    && s.producer.stray && (!s.group.aborting || s.producer.delivered)
  }

  ghost function StraysIn(s: State, steps: seq<Step>): nat
    decreases |steps|
  {
    if steps == [] || !Can(s, steps[0]) then 0
    else Bit(StrayEnds(s, steps[0])) + StraysIn(Next(s, steps[0]), steps[1..])
  }

  ghost predicate ProducerStraysIn(s: State, steps: seq<Step>)
    decreases |steps|
  {
    && steps != [] && Can(s, steps[0])
    && (StrayEndsProducer(s, steps[0]) || ProducerStraysIn(Next(s, steps[0]), steps[1..]))
  }

  lemma ProducerStrays(s: State, step: Step)
    requires Can(s, step) && OfProducer(step) && !s.history.producerStrayed
    ensures Next(s, step).history.strays == s.history.strays
    ensures Next(s, step).history.producerStrayed == StrayEndsProducer(s, step)
  {
    match step
    case RoomForSentinel => SentinelsKeep(s);
    case EndOfSource =>
      if !s.Stopping() {
        var s1 := SourceAnswered(s);
        SentinelsKeep(s1.(producer := s1.producer.(pc := PuttingSentinels(s1.started))));
      }
    case _ =>
  }

  lemma ReturnStrays(s: State, c: nat, call: Call<V, X>)
    requires Can(s, Return(c, call))
    ensures CallReturns(s, c, call).history.strays == s.history.strays
    ensures CallReturns(s, c, call).history.producerStrayed == s.history.producerStrayed
    ensures CallReturns(s, c, call).producer == s.producer
  {
  }

  lemma OtherStrays(s: State, step: Step)
    requires Can(s, step) && !OfProducer(step) && !step.Return?
    ensures Next(s, step).history.strays == s.history.strays + Bit(StrayEnds(s, step))
    ensures Next(s, step).history.producerStrayed == s.history.producerStrayed
  {
  }

  /** Once the producer has been ended it takes no more steps. */
  predicate StrayedIsOver(s: State) { s.history.producerStrayed ==> s.producer.pc.ProducerEnded? }

  lemma StepStrays(s: State, step: Step)
    requires Can(s, step) && StrayedIsOver(s)
    ensures var t := Next(s, step);
            && StrayedIsOver(t) && t.history.strays == s.history.strays + Bit(StrayEnds(s, step))
            && (t.history.producerStrayed <==> s.history.producerStrayed || StrayEndsProducer(s, step))
  {
    if OfProducer(step) { ProducerStrays(s, step); }
    else if step.Return? { ReturnStrays(s, step.c, step.call); }
    else { OtherStrays(s, step); }
  }

  lemma {:induction false} RunStrays(s: State, steps: seq<Step>, t: State)
    requires Reaches(s, steps, t) && StrayedIsOver(s)
    ensures t.history.strays == s.history.strays + StraysIn(s, steps)
    ensures t.history.producerStrayed <==> s.history.producerStrayed || ProducerStraysIn(s, steps)
    decreases |steps|
  {
    if steps == [] {
    } else {
      StepStrays(s, steps[0]);
      RunStrays(Next(s, steps[0]), steps[1..], t);
    }
  }

  /** The consumers that strays are said to have ended are those of the run, and so for the producer. */
  lemma StraysTrue(cfg: Config, caller: Task, steps: seq<Step>, s: State)
    requires Reachable(cfg, caller, steps, s)
    ensures s.history.strays == StraysIn(Init(cfg, caller), steps)
    ensures s.history.producerStrayed <==> ProducerStraysIn(Init(cfg, caller), steps)
  {
    RunStrays(Init(cfg, caller), steps, s);
  }

  // ---------------------------------------------------------------------------------
  // The latch, and what the producer ends in
  // ---------------------------------------------------------------------------------

  /** The producer's `except` clause runs: the source raised, or a stop was noticed, or a wait was cut short. */
  predicate ProducerFails(s: State, step: Step) {
    match step
    case SourceThrows(_) => true
    case SourceThrowsCancelled => true
    case EndOfSource => s.Stopping()
    case Yield => s.Stopping() || (s.started < s.cfg.concurrency && s.group.aborting)
    case CancelProducer => s.producer.pc.Putting?
    case _ => false
  }

  /** The failure that it raises, if it is one: the source's own, or a CancelledError that nothing explains. */
  function SourceError(s: State, step: Step): Option<Error<X>> {
    match step
    case SourceThrows(x) => Some(Thrown(x))
    case SourceThrowsCancelled => if s.Stopping() then None else Some(ProducerStray)
    case CancelProducer => if s.producer.pc.Putting? && !s.Stopping() then Some(ProducerStray) else None
    case Yield =>
      if !s.Stopping() && s.started < s.cfg.concurrency && s.group.aborting then Some(GroupShutDown) else None
    case _ => None
  }

  /** An item's failure propagates, or its call is torn down. */
  predicate CallFails(s: State, step: Step)
    requires Can(s, step)
  {
    step.Return? &&
    var v := Settle(None, s.consumers[step.c].pc.pos, s.cfg.seconds, s.Stopping(), step.call);
    v.Teardown? || (v.Failure? && !s.cfg.collect)
  }

  /** Some step of the run fails the batch. */
  ghost predicate HasFailed(s: State, steps: seq<Step>)
    decreases |steps|
  {
    && steps != [] && Can(s, steps[0])
    && (ProducerFails(s, steps[0]) || CallFails(s, steps[0]) || HasFailed(Next(s, steps[0]), steps[1..]))
  }

  /** Some step of the run ends the producer in this failure. */
  ghost predicate SourceFailed(s: State, steps: seq<Step>, e: Error<X>)
    decreases |steps|
  {
    && steps != [] && Can(s, steps[0])
    && (SourceError(s, steps[0]) == Some(e) || SourceFailed(Next(s, steps[0]), steps[1..], e))
  }

  lemma ProducerEnds(s: State, step: Step, e: Error<X>)
    requires Can(s, step) && OfProducer(step)
    ensures var t := Next(s, step);
            && (t.failed <==> s.failed || ProducerFails(s, step))
            && (t.producer.pc == ProducerEnded(Failed(e)) <==> SourceError(s, step) == Some(e))
  {
    match step
    case RoomForSentinel => SentinelsKeep(s); SentinelsEndOrWait(s);
    case EndOfSource =>
      if !s.Stopping() {
        var s1 := SourceAnswered(s);
        var s2 := s1.(producer := s1.producer.(pc := PuttingSentinels(s1.started)));
        SentinelsKeep(s2);
        SentinelsEndOrWait(s2);
      }
    case _ =>
  }

  lemma ReturnLatches(s: State, c: nat, call: Call<V, X>)
    requires ConsumersInv(s) && Can(s, Return(c, call))
    ensures var t := CallReturns(s, c, call);
            (t.failed <==> s.failed || CallFails(s, Return(c, call))) && t.producer.pc == s.producer.pc
  {
  }

  lemma OtherLatches(s: State, step: Step)
    requires Can(s, step) && !OfProducer(step) && !step.Return?
    ensures Next(s, step).failed == s.failed && Next(s, step).producer.pc == s.producer.pc
  {
  }

  lemma StepLatches(s: State, step: Step, e: Error<X>)
    requires Inv(s) && Can(s, step)
    ensures var t := Next(s, step);
            && Inv(t)
            && (t.failed <==> s.failed || ProducerFails(s, step) || CallFails(s, step))
            && (t.producer.pc == ProducerEnded(Failed(e)) <==>
                s.producer.pc == ProducerEnded(Failed(e)) || SourceError(s, step) == Some(e))
  {
    StepInv(s, step);
    if OfProducer(step) { ProducerEnds(s, step, e); }
    else if step.Return? { ReturnLatches(s, step.c, step.call); }
    else { OtherLatches(s, step); }
  }

  lemma {:induction false} RunLatches(s: State, steps: seq<Step>, t: State, e: Error<X>)
    requires Inv(s) && Reaches(s, steps, t)
    ensures t.failed <==> s.failed || HasFailed(s, steps)
    ensures t.producer.pc == ProducerEnded(Failed(e)) <==>
              s.producer.pc == ProducerEnded(Failed(e)) || SourceFailed(s, steps, e)
    decreases |steps|
  {
    if steps == [] {
    } else {
      StepLatches(s, steps[0], e);
      RunLatches(Next(s, steps[0]), steps[1..], t, e);
    }
  }

  /**
   The latch is set if and only if some step of the run failed the batch, and the producer has
   ended in a failure if and only if some step of the run ended it in that one.
   */
  lemma LatchExact(cfg: Config, caller: Task, steps: seq<Step>, s: State, e: Error<X>)
    requires Reachable(cfg, caller, steps, s)
    ensures s.failed <==> HasFailed(Init(cfg, caller), steps)
    ensures s.producer.pc == ProducerEnded(Failed(e)) <==> SourceFailed(Init(cfg, caller), steps, e)
  {
    InitInv(cfg, caller);
    RunLatches(Init(cfg, caller), steps, s, e);
  }

  /** What the source throws ends the producer in just that, whether the batch is stopping or not. */
  lemma {:induction false} SourceThrowsExactly(s: State, steps: seq<Step>, t: State, x: X)
    requires Reaches(s, steps, t)
    ensures SourceFailed(s, steps, Thrown(x)) <==> SourceThrows(x) in steps
    decreases |steps|
  {
    if steps == [] {
    } else {
      SourceThrowsExactly(Next(s, steps[0]), steps[1..], t, x);
      assert steps == [steps[0]] + steps[1..];
    }
  }
}
