/**
 What a caller of `stream` can rely on: bounds at every suspension point, metrics that
 tell the truth, the meaning of an item's index, the fail-fast latch, and what a normal
 return delivers.
 */
module StreamResults {
  import opened Counting
  import opened Cancellation
  import opened Calls
  import opened StreamModel
  import opened StreamSafety

  ghost predicate Reachable(cfg: Config, caller: Task, steps: seq<Step>, s: State) {
    && 0 < cfg.concurrency && 0 < cfg.queueSize && !caller.done
    && Reaches(Init(cfg, caller), steps, s)
  }

  predicate OfGroup(step: Step) { step.ReapP? || step.ReapC? || step.Caller? || step.Environment? }

  lemma {:induction false} SentinelsKeep(s: State)
    requires s.producer.pc.PuttingSentinels?
    ensures var t := PutSentinels(s);
            && t.cfg == s.cfg && t.consumedIndex == s.consumedIndex && t.failed == s.failed
            && t.results == s.results && t.consumers == s.consumers && t.group == s.group
            && t.history.strays == s.history.strays && t.history.producerStrayed == s.history.producerStrayed
            && t.history.sourceCalls == s.history.sourceCalls && t.producer.stray == s.producer.stray
            && t.history.fates == s.history.fates && t.history.finished == s.history.finished
    decreases s.producer.pc.left
  {
    if s.producer.pc.left == 0 || s.Full() {
    } else {
      SentinelsKeep(PutSentinel(s));
    }
  }

  /** The producer's own steps do not touch the group. */
  lemma ProducerKeeps(s: State, step: Step)
    requires Can(s, step) && OfProducer(step)
    ensures Next(s, step).cfg == s.cfg && Next(s, step).group == s.group
  {
    match step
    case EndOfSource =>
      if !s.Stopping() {
        var s1 := SourceAnswered(s);
        SentinelsKeep(s1.(producer := s1.producer.(pc := PuttingSentinels(s1.started))));
      }
    case RoomForSentinel => SentinelsKeep(s);
    case _ =>
  }

  /** Nor do the consumers' own steps. */
  lemma ConsumerKeeps(s: State, step: Step)
    requires Can(s, step) && (step.Top? || step.Get? || step.CancelConsumer? || step.StrayCancel?)
    ensures Next(s, step).cfg == s.cfg && Next(s, step).group == s.group
  {
  }

  lemma ReturnKeeps(s: State, c: nat, call: Call<V, X>)
    requires Can(s, Return(c, call))
    ensures CallReturns(s, c, call).cfg == s.cfg && CallReturns(s, c, call).group == s.group
  {
  }

  lemma StepKeepsGroup(s: State, step: Step)
    requires Can(s, step) && !OfGroup(step)
    ensures Next(s, step).cfg == s.cfg && Next(s, step).group == s.group
  {
    if OfProducer(step) { ProducerKeeps(s, step); }
    else if step.Return? { ReturnKeeps(s, step.c, step.call); }
    else { ConsumerKeeps(s, step); }
  }

  lemma StepKeepsConfig(s: State, step: Step)
    requires Can(s, step)
    ensures Next(s, step).cfg == s.cfg && Next(s, step).group.probe == s.group.probe
    ensures !step.Environment? ==> Next(s, step).group.outside == s.group.outside
  {
    if !OfGroup(step) { StepKeepsGroup(s, step); }
  }

  lemma {:induction false} ConfigKept(s: State, steps: seq<Step>, t: State)
    requires Reaches(s, steps, t)
    ensures t.cfg == s.cfg && t.group.probe == s.group.probe
    decreases |steps|
  {
    if steps == [] {
    } else {
      StepKeepsConfig(s, steps[0]);
      ConfigKept(Next(s, steps[0]), steps[1..], t);
    }
  }

  lemma {:induction false} ReachableInv(cfg: Config, caller: Task, steps: seq<Step>, s: State)
    requires Reachable(cfg, caller, steps, s)
    ensures Inv(s) && s.cfg == cfg
  {
    InitInv(cfg, caller);
    ReachesInv(Init(cfg, caller), steps, s);
    ConfigKept(Init(cfg, caller), steps, s);
  }

  // ---------------------------------------------------------------------------------
  // Bounds
  // ---------------------------------------------------------------------------------

  /**
   Backpressure: whatever the schedule, and however long the source, the producer is at
   most one item ahead of a full queue and busy consumers.
   */
  lemma Backpressure(cfg: Config, caller: Task, steps: seq<Step>, s: State)
    requires Reachable(cfg, caller, steps, s)
    ensures |s.queue| <= cfg.queueSize
    ensures |s.consumers| <= Least(cfg.concurrency, s.Pulled())
    ensures !s.failed ==> |s.consumers| == Least(cfg.concurrency, s.Pulled())
    ensures InFlightCount(s) <= |s.consumers|
    ensures OpenCount(s) <= cfg.queueSize + cfg.concurrency + 1
  {
    ReachableInv(cfg, caller, steps, s);
    CountBound(IsCalling, s.consumers);
  }

  /** The last item pulled never got into the queue: the producer waits for room with it, or lost it. */
  predicate HoldsItem(s: State) {
    s.Pulled() > 0 && s.Pulled() - 1 >= s.history.taken
    && (s.history.fates[s.Pulled() - 1].InHand? || s.history.fates[s.Pulled() - 1].Discarded?)
  }

  /** The producer ended while it waited for room, or refused the item it had just pulled. */
  predicate LostInHand(s: State) {
    HoldsItem(s) && s.producer.pc.ProducerEnded?
  }

  /** Every pulled item is in exactly the place that its fate names. */
  lemma Conservation(cfg: Config, caller: Task, steps: seq<Step>, s: State, p: nat)
    requires Reachable(cfg, caller, steps, s) && p < s.Pulled()
    ensures s.history.fates[p].InHand? <==> s.producer.pc == Putting(p)
    ensures s.history.fates[p].Queued? <==> Item(p) in s.queue
    ensures s.history.fates[p].InFlight? <==>
              exists c :: 0 <= c < |s.consumers| && s.consumers[c].pc.Calling? && s.consumers[c].pc.pos == p
    ensures s.history.fates[p].Done? <==> p in s.history.finished
    ensures OpenCount(s) + |s.results| + s.history.lost + (if LostInHand(s) then 1 else 0) == s.Pulled()
  {
    ReachableInv(cfg, caller, steps, s);
    if s.history.fates[p].Queued? { assert s.queue[p - s.history.taken] == Item(p); }
    if s.history.fates[p].InFlight? {
      var c := s.history.fates[p].consumer;
      assert s.consumers[c].pc.Calling? && s.consumers[c].pc.pos == p;
    }
  }

  /**
   An item's index is its position in the source, for every call, although consumers
   compete for items and results are appended in the order of completion.
   */
  lemma IndexIsSourcePosition(cfg: Config, caller: Task, steps: seq<Step>, s: State, c: nat)
    requires Reachable(cfg, caller, steps, s) && c < |s.consumers| && s.consumers[c].pc.Calling?
    ensures s.consumers[c].pc.index == s.consumers[c].pc.pos < s.consumedIndex
  {
    ReachableInv(cfg, caller, steps, s);
  }

  // ---------------------------------------------------------------------------------
  // Metrics
  // ---------------------------------------------------------------------------------

  /** From a fresh `StreamMetrics`, at every suspension point. */
  lemma MetricsTellTheTruth(cfg: Config, caller: Task, steps: seq<Step>, s: State)
    requires Reachable(cfg, caller, steps, s)
    ensures s.Pulled() == s.metrics.produced + (if HoldsItem(s) then 1 else 0)
    ensures s.metrics.consumed == |s.results| <= s.metrics.produced
    ensures s.metrics.maxDepth <= Least(s.metrics.produced, cfg.queueSize)
    ensures s.metrics.pauses > 0 ==> s.metrics.maxDepth == cfg.queueSize < s.Pulled()
  {
    ReachableInv(cfg, caller, steps, s);
  }

  // ---------------------------------------------------------------------------------
  // Reading a stop, and leaving the caller's count alone
  // ---------------------------------------------------------------------------------

  /** The same step, or the same call coming back with other counts on its own task that read alike. */
  predicate DriftsTo(s: State, a: Step, b: Step) {
    if !a.Return? then a == b
    else b.Return? && b.c == a.c && ReadAlike(s.Stopping(), a.call, b.call)
  }

  /** Two schedules that differ only in what the user's calls do to the counts of their own tasks. */
  ghost predicate Drifted(s: State, steps: seq<Step>, drifted: seq<Step>)
    decreases |steps|
  {
    && |steps| == |drifted|
    && (steps != [] ==>
          && Can(s, steps[0]) && DriftsTo(s, steps[0], drifted[0])
          && Drifted(Next(s, steps[0]), steps[1..], drifted[1..]))
  }

  lemma DriftedStep(s: State, a: Step, b: Step)
    requires Can(s, a) && DriftsTo(s, a, b)
    ensures Can(s, b) && Next(s, b) == Next(s, a)
  {
    if a.Return? {
      ReadAlikeExactly(None, s.consumers[a.c].pc.index, s.cfg.seconds, s.Stopping(), a.call, b.call);
    }
  }

  /**
   Over a whole run, however far those counts drift, nothing comes out differently. Where a
   deadline fires during a teardown and a CancelledError comes out, the drift must not cross
   the one threshold that `asyncio.timeout` itself looks at.
   */
  lemma {:induction false} DriftDoesNotMatter(s: State, steps: seq<Step>, drifted: seq<Step>, t: State)
    requires Reaches(s, steps, t) && Drifted(s, steps, drifted)
    ensures Reaches(s, drifted, t)
    decreases |steps|
  {
    if steps == [] {
    } else {
      DriftedStep(s, steps[0], drifted[0]);
      DriftDoesNotMatter(Next(s, steps[0]), steps[1..], drifted[1..], t);
    }
  }

  // ---------------------------------------------------------------------------------
  // A call's group is a run of the cancel-count machine
  // ---------------------------------------------------------------------------------

  /** What a step is to the group. */
  function GroupEvents(s: State, step: Step): seq<Event<Error<X>>>
    requires Can(s, step)
  {
    match step
    case ReapP => [ChildEnds(s.producer.pc.end)]
    case ReapC(c) => [ChildEnds(s.consumers[c].pc.end)]
    case Caller => if AllReaped(s) then [ParentWakes, GroupFinishes] else [ParentWakes]
    case Environment(e) => [e]
    case _ => []
  }

  lemma StepLeads(s: State, step: Step)
    requires Can(s, step)
    ensures Leads(s.group, GroupEvents(s, step), Next(s, step).group)
  {
    if !OfGroup(step) {
      StepKeepsGroup(s, step);
    } else if step.Caller? && AllReaped(s) {
      assert [ParentWakes, GroupFinishes][1..] == [Event<Error<X>>.GroupFinishes];
      assert Leads(Wake(s.group), [GroupFinishes], Finish(Wake(s.group)));
    }
  }

  ghost function GroupRun(s: State, steps: seq<Step>): seq<Event<Error<X>>>
    decreases |steps|
  {
    if steps == [] || !Can(s, steps[0]) then []
    else GroupEvents(s, steps[0]) + GroupRun(Next(s, steps[0]), steps[1..])
  }

  lemma {:induction false} RunLeads(s: State, steps: seq<Step>, t: State)
    requires Reaches(s, steps, t)
    ensures Leads(s.group, GroupRun(s, steps), t.group)
    decreases |steps|
  {
    if steps == [] {
    } else {
      var s1 := Next(s, steps[0]);
      StepLeads(s, steps[0]);
      RunLeads(s1, steps[1..], t);
      LeadsOn(s.group, GroupEvents(s, steps[0]), s1.group, GroupRun(s1, steps[1..]), t.group);
    }
  }

  /** What happened to the group of a call, from entering it. */
  ghost function CallEvents(cfg: Config, caller: Task, steps: seq<Step>): seq<Event<Error<X>>> {
    [BodyEnds(BodyReturned)] + GroupRun(Init(cfg, caller), steps)
  }

  /** So what holds of every run of the machine holds of the group of every call. */
  lemma CallLeads(cfg: Config, caller: Task, steps: seq<Step>, s: State)
    requires Reachable(cfg, caller, steps, s)
    ensures Leads(Enter(caller), CallEvents(cfg, caller, steps), s.group)
  {
    var run := GroupRun(Init(cfg, caller), steps);
    RunLeads(Init(cfg, caller), steps, s);
    assert CallEvents(cfg, caller, steps)[1..] == run;
  }

  /**
   How the call ends: exactly if the group saw children fail it raises their errors, in the order
   in which it saw them; exactly if none failed and a cancel was delivered to the waiting caller
   it is cancelled; and otherwise it returns.
   */
  lemma EndsExactly(cfg: Config, caller: Task, steps: seq<Step>, s: State)
    requires Reachable(cfg, caller, steps, s) && s.group.phase.Exited?
    ensures var exit, es := s.group.phase.exit, GroupRun(Init(cfg, caller), steps);
            && (exit.RaisedGroup? <==> ErrorsIn(es) != [])
            && (exit.RaisedGroup? ==> exit.errors == ErrorsIn(es))
            && (exit.RaisedCancelled? <==> ErrorsIn(es) == [] && Interrupted(Init(cfg, caller).group, es))
  {
    CallLeads(cfg, caller, steps, s);
    ExitExactly(caller, GroupRun(Init(cfg, caller), steps), s.group);
  }

  /**
   What a child reads as a stop, at any moment: a latched failure, a cancel that the caller
   came with live, or one that outsiders sent and did not take back.
   */
  lemma StoppingExact(cfg: Config, caller: Task, steps: seq<Step>, s: State)
    requires Reachable(cfg, caller, steps, s) && s.group.phase.Exiting?
    ensures s.Stopping() <==>
              || s.failed || CameWithCancel(caller, s.group.task)
              || NetOutside(Enter(caller), CallEvents(cfg, caller, steps)) > 0
  {
    ReachableInv(cfg, caller, steps, s);
    ConfigKept(Init(cfg, caller), steps, s);
    CallLeads(cfg, caller, steps, s);
    BookedRight(Enter(caller), CallEvents(cfg, caller, steps), s.group);
  }

  /**
   However the call ends, the caller's count is its entry count plus what outsiders did, and
   one more exactly if the group's undo met a count that outsiders had emptied. The deferred
   re-arm does something exactly when a cancel is then outstanding: one that the caller came
   with live, one that outsiders sent and did not take back, or that one too many.
   */
  lemma CallerCountRestored(cfg: Config, caller: Task, steps: seq<Step>, s: State)
    requires Reachable(cfg, caller, steps, s) && s.group.phase.Exited?
    ensures var es := CallEvents(cfg, caller, steps);
            var surplus := Surplus(caller, es);
            && s.group.task.cancelling == caller.cancelling + NetOutside(Enter(caller), es) + surplus
            && (surplus > 0 ==> s.group.requested && s.group.phase.exit.RaisedGroup?)
            && (Rearm(s.group.task, s.group.probe) != s.group.task <==>
                Outstanding(caller, es, s.group.task) + surplus > 0)
    ensures s.group.probe == ProbeOf(caller)
  {
    ReachableInv(cfg, caller, steps, s);
    CallLeads(cfg, caller, steps, s);
    ConfigKept(Init(cfg, caller), steps, s);
    CountConservedOnExit(caller, CallEvents(cfg, caller, steps), s.group);
    RearmExact(caller, CallEvents(cfg, caller, steps), s.group);
  }

  // ---------------------------------------------------------------------------------
  // The fail-fast latch
  // ---------------------------------------------------------------------------------

  predicate Broken(c: Consumer) { c.pc.ConsumerEnded? && c.pc.end.Failed? }

  /** Some child has failed: an item's failure that propagated, or the producer's. */
  ghost predicate SomeFailure(s: State) {
    || (s.producer.pc.ProducerEnded? && s.producer.pc.end.Failed?)
    || exists c :: 0 <= c < |s.consumers| && Broken(s.consumers[c])
  }

  /** Each begun call takes the next index, so the index counts the calls begun. */
  lemma LatchedStep(s: State, step: Step)
    requires Can(s, step) && s.failed
    ensures Next(s, step).failed && Next(s, step).consumedIndex == s.consumedIndex
  {
    if step.RoomForSentinel? { SentinelsKeep(s); }
  }

  lemma {:induction false} LatchStays(s: State, steps: seq<Step>, t: State)
    requires s.failed && Reaches(s, steps, t)
    ensures t.failed && t.consumedIndex == s.consumedIndex
    decreases |steps|
  {
    if steps == [] {
    } else {
      LatchedStep(s, steps[0]);
      LatchStays(Next(s, steps[0]), steps[1..], t);
    }
  }

  /** After the first failure no further call of the user's function begins. */
  lemma FailFast(s: State, steps: seq<Step>, t: State)
    requires Inv(s) && SomeFailure(s) && Reaches(s, steps, t)
    ensures t.failed && t.consumedIndex == s.consumedIndex
  {
    assert s.failed;
    LatchStays(s, steps, t);
  }

  // ---------------------------------------------------------------------------------
  // A normal return
  // ---------------------------------------------------------------------------------

  ghost predicate ReturnedNormally(s: State) {
    s.group.phase == Exited(Returned)
  }

  /** `finished` lists every position below `n` once. */
  ghost predicate IsPermutation(finished: seq<nat>, n: nat) {
    && |finished| == n
    && (forall k :: 0 <= k < n ==> finished[k] < n)
    && (forall p :: 0 <= p < n ==> p in finished)
    && (forall j, k :: 0 <= j < k < n ==> finished[j] != finished[k])
  }

  lemma AllEnded(s: State)
    requires Inv(s) && s.group.phase.Exited?
    ensures EndedCount(s) == |s.consumers| && InFlightCount(s) == 0 && s.producer.pc.ProducerEnded?
    ensures forall c :: 0 <= c < |s.consumers| ==> IsEnded(s.consumers[c])
  {
    assert forall c :: 0 <= c < |s.consumers| ==> ConsumerReaped(s.consumers[c]);
    CountAll(IsEnded, s.consumers);
    CountNone(IsCalling, s.consumers);
  }

  /** No item is left behind a sentinel. */
  lemma NothingLeft(s: State)
    requires Inv(s) && ReturnedNormally(s) && s.Undisturbed()
    requires EndedCount(s) == |s.consumers| && InFlightCount(s) == 0 && s.producer.pc.ProducerEnded?
    requires forall c :: 0 <= c < |s.consumers| ==> IsEnded(s.consumers[c])
    ensures s.queue == [] && s.Pulled() == s.cfg.items == |s.results|
    ensures forall p :: 0 <= p < s.Pulled() ==> p in s.history.finished
  {
    assert s.started == s.history.sentinelsPut == s.history.sentinelsTaken;
    assert s.history.taken == s.metrics.produced;
    assert forall p :: 0 <= p < s.Pulled() ==> !s.history.fates[p].Discarded? && !s.history.fates[p].Queued?;
    assert forall c :: 0 <= c < |s.consumers| ==> IsEnded(s.consumers[c]);
  }
}
