/** Exactly when `stream` cannot hang, and exactly when a normal return loses nothing. */
module StreamLimits {
  import opened Cancellation
  import opened Calls
  import opened StreamModel
  import opened StreamSafety
  import opened StreamResults
  import opened StreamProgress
  import opened StreamRuns

  // The pipeline's children are meant to be cancelled only by the pipeline, and a stop is meant
  // to be final. A stray cancel of a child breaks the first, and an outsider who uncancels the
  // caller during a teardown the second. The concrete runs show what then goes wrong.

  // ---------------------------------------------------------------------------------
  // What a run may contain
  // ---------------------------------------------------------------------------------

  /**
   Whether consumers and the producer may be hit by stray cancels, whether outsiders may take
   back cancels of the caller, and whether the source may end in a CancelledError.
   */
  datatype Policy = Policy(consumers: bool, producer: bool, takeBacks: bool, sourceCancels: bool)

  predicate Allows(p: Policy, step: Step) {
    && (step.StrayCancel? ==> if step.child.Some? then p.consumers else p.producer)
    && (TakesBack(step) ==> p.takeBacks)
    && (step.SourceThrowsCancelled? ==> p.sourceCancels)
  }

  ghost predicate Keeps(p: Policy, steps: seq<Step>) {
    steps != [] ==> Allows(p, steps[0]) && Keeps(p, steps[1..])
  }

  lemma {:induction false} KeepsNoTakeBack(p: Policy, steps: seq<Step>)
    requires Keeps(p, steps) && !p.takeBacks
    ensures NoTakeBack(steps)
  {
    if steps == [] {
    } else {
      KeepsNoTakeBack(p, steps[1..]);
    }
  }

  // ---------------------------------------------------------------------------------
  // Runs without stray cancels
  // ---------------------------------------------------------------------------------

  /** No stray cancel is due or has ended a consumer; the same for the producer. */
  ghost predicate ConsumersTidy(s: State) {
    s.history.strays == 0 && forall c :: 0 <= c < |s.consumers| ==> !s.consumers[c].stray
  }

  predicate ProducerTidy(s: State) { !s.history.producerStrayed && !s.producer.stray }

  lemma TidyProducer(s: State, step: Step)
    requires Can(s, step) && OfProducer(step)
    ensures ConsumersTidy(s) ==> ConsumersTidy(Next(s, step))
    ensures ProducerTidy(s) ==> ProducerTidy(Next(s, step))
  {
    match step
    case EndOfSource =>
      if !s.Stopping() {
        var s1 := SourceAnswered(s);
        SentinelsKeep(s1.(producer := s1.producer.(pc := PuttingSentinels(s1.started))));
      }
    case RoomForSentinel => SentinelsKeep(s);
    case _ =>
  }

  lemma TidyLoopTop(s: State, c: nat)
    requires c < |s.consumers| && FrontKnown(s)
    ensures LoopTop(s, c).producer == s.producer && LoopTop(s, c).history.strays == s.history.strays
    ensures LoopTop(s, c).history.producerStrayed == s.history.producerStrayed
    ensures |LoopTop(s, c).consumers| == |s.consumers|
    ensures forall d :: 0 <= d < |s.consumers| ==> LoopTop(s, c).consumers[d].stray == s.consumers[d].stray
  {
  }

  lemma TidyReturn(s: State, c: nat, call: Call<V, X>)
    requires Can(s, Return(c, call))
    ensures ConsumersTidy(s) ==> ConsumersTidy(CallReturns(s, c, call))
    ensures ProducerTidy(s) ==> ProducerTidy(CallReturns(s, c, call))
  {
    var s1 := CallAnswered(s, c);
    match Settle(None, s.consumers[c].pc.index, s.cfg.seconds, s.Stopping(), call)
    case Value(v) => TidyLoopTop(Record(s1, c, Ok(v)), c);
    case Failure(e) => if s.cfg.collect { TidyLoopTop(Record(s1, c, Err(e)), c); }
    case Teardown =>
  }

  lemma TidyStep(p: Policy, s: State, step: Step)
    requires Can(s, step) && Allows(p, step)
    ensures !p.consumers && ConsumersTidy(s) ==> ConsumersTidy(Next(s, step))
    ensures !p.producer && ProducerTidy(s) ==> ProducerTidy(Next(s, step))
  {
    if OfProducer(step) { TidyProducer(s, step); }
    else if step.Return? { TidyReturn(s, step.c, step.call); }
  }

  lemma {:induction false} StaysTidy(p: Policy, s: State, steps: seq<Step>, t: State)
    requires Reaches(s, steps, t) && Keeps(p, steps)
    ensures !p.consumers && ConsumersTidy(s) ==> ConsumersTidy(t)
    ensures !p.producer && ProducerTidy(s) ==> ProducerTidy(t)
    decreases |steps|
  {
    if steps == [] {
    } else {
      TidyStep(p, s, steps[0]);
      StaysTidy(p, Next(s, steps[0]), steps[1..], t);
    }
  }

  /**
   A normal return accounts for every item. What was pulled and is missing from the results
   is still in the queue, and then stray cancels ended every consumer; and all items were
   pulled unless a stray cancel ended the producer before it began.
   */
  lemma ReturnAccounts(cfg: Config, caller: Task, steps: seq<Step>, s: State)
    requires Reachable(cfg, caller, steps, s) && ReturnedNormally(s)
    ensures |s.results| + s.metrics.produced - s.history.taken == s.Pulled()
    ensures |s.results| < s.Pulled() ==> s.history.strays == |s.consumers| > 0
    ensures s.Pulled() < cfg.items ==> s.history.producerStrayed && s.Pulled() == 0
  {
    ReachableInv(cfg, caller, steps, s);
    AllEnded(s);
  }

  // ---------------------------------------------------------------------------------
  // Concrete runs, one step at a time
  // ---------------------------------------------------------------------------------

  const FRESH: Task := Task(0, false, 0, false)

  /** The group of such a caller while it waits and nothing has happened. */
  const IDLE: Group<Error<X>> :=
    Group(FRESH, Probe(0, false, 0), Exiting, false, false, false, false, [], [], 0, false)

  function Returns(v: V): Call<V, X> { Call(Gave(v), false, 0, 0) }

  lemma {:induction false} Extend(p: Policy, s: State, steps: seq<Step>, t: State, step: Step)
    requires Reaches(s, steps, t) && Can(t, step) && Keeps(p, steps) && Allows(p, step)
    ensures Reaches(s, steps + [step], Next(t, step)) && Keeps(p, steps + [step])
    decreases |steps|
  {
    if steps == [] {
      assert (steps + [step])[1..] == [];
    } else {
      assert (steps + [step])[1..] == steps[1..] + [step];
      Extend(p, Next(s, steps[0]), steps[1..], t, step);
    }
  }

  /** A run that keeps to the policy, from the first state of a call to `s`. */
  ghost predicate Run(p: Policy, cfg: Config, steps: seq<Step>, s: State) {
    Reachable(cfg, FRESH, steps, s) && Keeps(p, steps)
  }

  lemma OneMore(p: Policy, cfg: Config, steps: seq<Step>, s: State, step: Step) returns (longer: seq<Step>, t: State)
    requires Run(p, cfg, steps, s) && Can(s, step) && Allows(p, step)
    ensures Run(p, cfg, longer, t) && t == Next(s, step)
  {
    Extend(p, Init(cfg, FRESH), steps, s, step);
    longer, t := steps + [step], Next(s, step);
  }

  /** The first item is in the queue, and its consumer was just started. */
  lemma FirstItem(p: Policy, cfg: Config) returns (steps: seq<Step>, s: State)
    requires cfg.concurrency == 1 && 0 < cfg.queueSize && 1 <= cfg.items
    ensures Run(p, cfg, steps, s)
    ensures s.cfg == cfg && s.queue == [Item(0)] && s.started == 1 && s.results == [] && !s.failed && s.Pulled() == 1
    ensures s.producer == Producer(Pulling, false, false, false) && s.group == IDLE
    ensures s.consumers == [Consumer(AtTop, false, false, false, 0)] && s.consumedIndex == 0
  {
    steps, s := [], Init(cfg, FRESH);
    steps, s := OneMore(p, cfg, steps, s, ProducerStarts);
    assert s.producer.pc == Pulling && s.Pulled() == 0 && !s.Stopping();
    steps, s := OneMore(p, cfg, steps, s, Yield);
  }

  /** One consumer is in its first call, and the source has been asked for the second item. */
  lemma FirstCall(p: Policy, cfg: Config) returns (steps: seq<Step>, s: State)
    requires cfg.concurrency == 1 && 0 < cfg.queueSize && 1 <= cfg.items
    ensures Run(p, cfg, steps, s)
    ensures s.cfg == cfg && s.queue == [] && s.started == 1 && s.results == [] && !s.failed && s.Pulled() == 1
    ensures s.producer == Producer(Pulling, false, false, false) && s.group == IDLE
    ensures s.consumers == [Consumer(Calling(0, 0), false, false, false, 1)] && s.consumedIndex == 1
  {
    steps, s := FirstItem(p, cfg);
    assert !s.Stopping() && !s.ConsumerDue(0);
    steps, s := OneMore(p, cfg, steps, s, Top(0));
  }

  /** The source's next item goes into a queue that has room, and no consumer is started for it. */
  lemma YieldIntoQueue(p: Policy, cfg: Config, steps: seq<Step>, s: State) returns (longer: seq<Step>, t: State)
    requires Run(p, cfg, steps, s) && Can(s, Yield) && s.started >= s.cfg.concurrency
    requires !s.Stopping() && !s.Full()
    ensures Run(p, cfg, longer, t)
    ensures t.queue == s.queue + [Item(s.Pulled())] && t.Pulled() == s.Pulled() + 1
    ensures t == s.(queue := t.queue, metrics := t.metrics, history := t.history,
                    producer := s.producer.(delivered := t.producer.delivered))
    ensures !s.group.aborting ==> t.producer == s.producer
  {
    longer, t := OneMore(p, cfg, steps, s, Yield);
  }

  /** The first call has returned, and its consumer waits for the next item. */
  lemma FirstReturn(p: Policy, cfg: Config, v: V) returns (steps: seq<Step>, s: State)
    requires cfg.concurrency == 1 && 0 < cfg.queueSize && cfg.seconds == None && 1 <= cfg.items
    ensures Run(p, cfg, steps, s)
    ensures s.cfg == cfg && s.queue == [] && s.started == 1 && s.results == [Ok(v)] && !s.failed && s.Pulled() == 1
    ensures s.producer == Producer(Pulling, false, false, false) && s.group == IDLE
    ensures s.consumers == [Consumer(Getting, false, false, false, 1)]
  {
    steps, s := FirstCall(p, cfg);
    steps, s := OneMore(p, cfg, steps, s, Return(0, Returns(v)));
  }

  /**
   The user's function returns and leaves behind a timer that cancels its task. The cancel
   comes while the consumer waits for the next item, and the only consumer is gone.
   */
  lemma LateCancel(p: Policy, cfg: Config, v: V) returns (steps: seq<Step>, s: State)
    requires p.consumers && cfg.concurrency == 1 && 0 < cfg.queueSize && cfg.seconds == None && 1 <= cfg.items
    ensures Run(p, cfg, steps, s)
    ensures s.cfg == cfg && s.queue == [] && s.started == 1 && s.results == [Ok(v)] && !s.failed && s.Pulled() == 1
    ensures s.producer == Producer(Pulling, false, false, false) && s.group == IDLE
    ensures s.consumers == [Consumer(ConsumerEnded(CancelledEnd), false, true, false, 1)]
  {
    steps, s := FirstReturn(p, cfg, v);
    steps, s := OneMore(p, cfg, steps, s, StrayCancel(Some(0)));
    assert s.ConsumerDue(0);
    steps, s := OneMore(p, cfg, steps, s, CancelConsumer(0));
  }

  /** Nobody can make room for the producer, and nothing is due to it. */
  lemma ProducerWaits(s: State)
    requires s.producer.pc.Putting? && s.Full() && !s.ProducerDue() && !s.producer.reaped && !s.group.task.undelivered
    requires |s.consumers| == 1 && s.consumers[0].reaped && s.consumers[0].pc.ConsumerEnded?
    ensures Stuck(s)
  {
  }

  /**
   `stream` hangs although nothing failed and nobody cancelled it: the only consumer is
   gone, and the producer waits for room in the queue for ever.
   */
  lemma LateCancelHangs(p: Policy, v: V) returns (steps: seq<Step>, s: State)
    requires p.consumers
    ensures Run(p, Config(1, 1, false, None, 3), steps, s)
    ensures Stuck(s) && s.group.phase.Exiting? && Calm(s)
  {
    var cfg := Config(1, 1, false, None, 3);
    steps, s := LateCancel(p, cfg, v);
    steps, s := YieldIntoQueue(p, cfg, steps, s);
    steps, s := OneMore(p, cfg, steps, s, Yield);
    assert s.producer == Producer(Putting(2), false, false, false) && s.queue == [Item(1)];
    steps, s := OneMore(p, cfg, steps, s, ReapC(0));
    assert s.consumers[0].reaped;
    ProducerWaits(s);
  }

  /** The producer and the only consumer ended without an error, and the call returns. */
  lemma ReapBoth(p: Policy, cfg: Config, steps: seq<Step>, s: State) returns (longer: seq<Step>, t: State)
    requires Run(p, cfg, steps, s) && s.group == IDLE && FrontKnown(s)
    requires s.producer == Producer(ProducerEnded(Finished), false, false, false)
    requires s.consumers == [Consumer(ConsumerEnded(CancelledEnd), false, true, false, 1)]
    ensures Run(p, cfg, longer, t) && ReturnedNormally(t) && t.results == s.results
  {
    longer, t := OneMore(p, cfg, steps, s, ReapP);
    longer, t := OneMore(p, cfg, longer, t, ReapC(0));
    assert t.group == IDLE && AllReaped(t);
    longer, t := OneMore(p, cfg, longer, t, Caller);
  }

  /** The source ends, and the one sentinel goes into the queue. */
  lemma OneSentinel(s: State)
    requires s.producer == Producer(Pulling, false, false, false) && s.started == 1
    requires !s.Stopping() && !s.group.aborting
    requires |s.queue| + 1 == s.cfg.queueSize
    ensures var t := SourceEnds(s);
            && t.producer == Producer(ProducerEnded(Finished), false, false, false)
            && t == s.(producer := t.producer, queue := s.queue + [Sentinel], history := t.history)
            && t.history == s.history.(sentinelsPut := s.history.sentinelsPut + 1)
  {
    var looping := s.(producer := Producer(PuttingSentinels(1), false, false, false));
    assert SourceAnswered(s) == s;
    assert SourceEnds(s) == PutSentinels(looping);
    var one := PutSentinel(looping);
    assert !looping.Full() && PutSentinels(looping) == PutSentinels(one);
    assert one.producer.pc == PuttingSentinels(0) && PutSentinels(one) == EndProducer(one, Finished);
  }

  /** `stream` returns normally with an item missing: the queue had room for what was never served. */
  lemma LateCancelLosesItem(p: Policy, v: V) returns (steps: seq<Step>, s: State)
    requires p.consumers
    ensures Run(p, Config(1, 2, false, None, 2), steps, s)
    ensures ReturnedNormally(s) && s.results == [Ok(v)]
  {
    var cfg := Config(1, 2, false, None, 2);
    steps, s := LateCancel(p, cfg, v);
    steps, s := YieldIntoQueue(p, cfg, steps, s);
    OneSentinel(s);
    steps, s := OneMore(p, cfg, steps, s, EndOfSource);
    steps, s := ReapBoth(p, cfg, steps, s);
  }

  /** A stray cancel ends the producer at a sentinel, and the group takes no notice. */
  lemma StrayProducer(p: Policy, cfg: Config, steps: seq<Step>, s: State) returns (longer: seq<Step>, t: State)
    requires p.producer && Run(p, cfg, steps, s) && s.group == IDLE && FrontKnown(s)
    requires s.producer == Producer(PuttingSentinels(1), false, false, false)
    ensures Run(p, cfg, longer, t)
    ensures t == s.(producer := Producer(ProducerEnded(CancelledEnd), false, true, true), history := t.history)
    ensures t.history == s.history.(producerStrayed := true)
  {
    longer, t := OneMore(p, cfg, steps, s, StrayCancel(None));
    assert t.ProducerDue();
    longer, t := OneMore(p, cfg, longer, t, CancelProducer);
    assert t.producer == Producer(ProducerEnded(CancelledEnd), false, true, false);
    longer, t := OneMore(p, cfg, longer, t, ReapP);
  }

  lemma NoRoomForSentinel(s: State)
    requires s.producer == Producer(Pulling, false, false, false) && s.started == 1
    requires !s.Stopping() && !s.group.aborting
    requires s.Full()
    ensures SourceEnds(s) == s.(producer := Producer(PuttingSentinels(1), false, false, false))
  {
    assert SourceAnswered(s) == s;
  }

  lemma CancelAtSentinel(p: Policy) returns (steps: seq<Step>, s: State)
    requires p.producer
    ensures Run(p, Config(1, 1, false, None, 2), steps, s)
    ensures s.cfg == Config(1, 1, false, None, 2) && s.queue == [Item(1)] && s.Pulled() == 2 && !s.failed
    ensures s.producer == Producer(ProducerEnded(CancelledEnd), false, true, true) && s.group == IDLE
    ensures s.consumers == [Consumer(Calling(0, 0), false, false, false, 1)] && s.consumedIndex == 1
  {
    var cfg := Config(1, 1, false, None, 2);
    steps, s := FirstCall(p, cfg);
    steps, s := YieldIntoQueue(p, cfg, steps, s);
    NoRoomForSentinel(s);
    steps, s := OneMore(p, cfg, steps, s, EndOfSource);
    steps, s := StrayProducer(p, cfg, steps, s);
  }

  /** Nobody will put anything into the queue, and nothing is due to the consumer. */
  lemma ConsumerWaits(s: State)
    requires s.producer.pc.ProducerEnded? && s.producer.reaped && s.queue == [] && !s.group.task.undelivered
    requires |s.consumers| == 1 && s.consumers[0].pc.Getting? && !s.consumers[0].reaped && !s.ConsumerDue(0)
    ensures Stuck(s)
  {
    assert !ConsumerReaped(s.consumers[0]);
  }

  /**
   The source cancels its own task and then ends. The cancel is thrown at the sentinel's
   `put`, outside the `try`: the producer ends cancelled, no latch is set, and the consumer
   waits for a sentinel for ever.
   */
  lemma CancelAtSentinelHangs(p: Policy, v: V) returns (steps: seq<Step>, s: State)
    requires p.producer
    ensures Run(p, Config(1, 1, false, None, 2), steps, s)
    ensures Stuck(s) && s.group.phase.Exiting? && Calm(s)
  {
    var cfg := Config(1, 1, false, None, 2);
    steps, s := CancelAtSentinel(p);
    steps, s := OneMore(p, cfg, steps, s, Return(0, Returns(v)));
    assert s.queue == [] && s.consumers == [Consumer(Calling(1, 1), false, false, false, 2)] && !s.Stopping();
    steps, s := OneMore(p, cfg, steps, s, Return(0, Returns(v)));
    assert s.consumers == [Consumer(Getting, false, false, false, 2)];
    ConsumerWaits(s);
  }

  lemma StillbornProducer(p: Policy, cfg: Config) returns (steps: seq<Step>, s: State)
    requires p.producer && 0 < cfg.concurrency && 0 < cfg.queueSize
    ensures Run(p, cfg, steps, s) && s.results == [] && s.consumers == [] && FrontKnown(s)
    ensures s.producer == Producer(ProducerEnded(CancelledEnd), false, true, false) && s.group == IDLE
  {
    steps, s := [], Init(cfg, FRESH);
    assert s.group == IDLE;
    steps, s := OneMore(p, cfg, steps, s, StrayCancel(None));
    steps, s := OneMore(p, cfg, steps, s, CancelProducer);
  }

  /** A producer that is cancelled before it first runs: `stream` returns without any item. */
  lemma StillbornProducerLosesAll(p: Policy, cfg: Config) returns (steps: seq<Step>, s: State)
    requires p.producer && 0 < cfg.concurrency && 0 < cfg.queueSize
    ensures Run(p, cfg, steps, s) && ReturnedNormally(s) && s.results == []
  {
    steps, s := StillbornProducer(p, cfg);
    steps, s := OneMore(p, cfg, steps, s, ReapP);
    assert s.group == IDLE && AllReaped(s);
    steps, s := OneMore(p, cfg, steps, s, Caller);
  }

  /** The caller's cancel makes the group abort, and is then taken back. */
  lemma CancelTakenBack(p: Policy, cfg: Config, steps: seq<Step>, s: State) returns (longer: seq<Step>, t: State)
    requires p.takeBacks && Run(p, cfg, steps, s) && s.group == IDLE && FrontKnown(s) && !s.producer.reaped
    ensures Run(p, cfg, longer, t)
    ensures t == s.(group := t.group) && t.group.phase.Exiting? && t.group.aborting
    ensures t.group.task == FRESH && t.group.probe == Probe(0, false, 0)
  {
    longer, t := OneMore(p, cfg, steps, s, Environment(OutsideCancel));
    longer, t := OneMore(p, cfg, longer, t, Caller);
    longer, t := OneMore(p, cfg, longer, t, Environment(OutsideUncancel));
  }

  /**
   A teardown hangs when its cancel is taken back: the consumer's function absorbed its
   one cancel, the source fails, and nothing will wake the consumer again.
   */
  lemma TakenBackTeardownHangs(p: Policy, v: V, x: X) returns (steps: seq<Step>, s: State)
    requires p.takeBacks
    ensures Run(p, Config(1, 1, false, None, 2), steps, s)
    ensures Stuck(s) && s.group.phase.Exiting? && s.failed
  {
    var cfg := Config(1, 1, false, None, 2);
    steps, s := FirstCall(p, cfg);
    steps, s := CancelTakenBack(p, cfg, steps, s);
    steps, s := OneMore(p, cfg, steps, s, Return(0, Returns(v)));
    assert s.consumers == [Consumer(Getting, true, false, false, 1)] && !s.Stopping();
    steps, s := OneMore(p, cfg, steps, s, SourceThrows(x));
    assert s.producer == Producer(ProducerEnded(Failed(Thrown(x))), true, false, false);
    steps, s := OneMore(p, cfg, steps, s, ReapP);
    ConsumerWaits(s);
  }

  // ---------------------------------------------------------------------------------
  // The exact conditions
  // ---------------------------------------------------------------------------------

  ghost predicate NeverHangs(p: Policy) {
    forall cfg, caller, steps, s :: Reachable(cfg, caller, steps, s) && Keeps(p, steps) ==>
      (Stuck(s) <==> s.group.phase.Exited?)
  }

  /** Every normal return has the outcome of every item, each once. */
  ghost predicate LosesNothing(p: Policy) {
    forall cfg, caller, steps, s :: Reachable(cfg, caller, steps, s) && Keeps(p, steps) && ReturnedNormally(s) ==>
      && s.results == OutcomesIn(Completed(Init(cfg, caller), steps))
      && IsPermutation(PositionsOf(Completed(Init(cfg, caller), steps)), cfg.items)
  }

  /**
   `stream` cannot hang exactly if all three are forbidden: stray cancels of consumers, stray
   cancels of the producer, and outsiders who take back a cancel of the caller.
   */
  lemma NeverHangsExactly(p: Policy, v: V, x: X)
    ensures NeverHangs(p) <==> !p.consumers && !p.producer && !p.takeBacks
  {
    if p.consumers {
      var steps, s := LateCancelHangs(p, v);
    } else if p.producer {
      var steps, s := CancelAtSentinelHangs(p, v);
    } else if p.takeBacks {
      var steps, s := TakenBackTeardownHangs(p, v, x);
    } else {
      forall cfg, caller, steps, s | Reachable(cfg, caller, steps, s) && Keeps(p, steps)
        ensures Stuck(s) <==> s.group.phase.Exited?
      {
        StaysTidy(p, Init(cfg, caller), steps, s);
        KeepsNoTakeBack(p, steps);
        NoDeadlock(cfg, caller, steps, s);
      }
    }
  }

  /** What outsiders take back costs no item: only stray cancels do. */
  lemma LosesNothingExactly(p: Policy, v: V)
    ensures LosesNothing(p) <==> !p.consumers && !p.producer
  {
    if p.consumers {
      var steps, s := LateCancelLosesItem(p, v);
    } else if p.producer {
      var steps, s := StillbornProducerLosesAll(p, Config(1, 1, false, None, 1));
    } else {
      forall cfg, caller, steps, s | Reachable(cfg, caller, steps, s) && Keeps(p, steps) && ReturnedNormally(s)
        ensures s.results == OutcomesIn(Completed(Init(cfg, caller), steps))
        ensures IsPermutation(PositionsOf(Completed(Init(cfg, caller), steps)), cfg.items)
      {
        StaysTidy(p, Init(cfg, caller), steps, s);
        ReturnDelivers(cfg, caller, steps, s);
      }
    }
  }
}
