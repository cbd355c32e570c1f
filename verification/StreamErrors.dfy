/** What `stream` blames for an item, and what a failed call raises. */
module StreamErrors {
  import opened Cancellation
  import opened Calls
  import opened StreamModel
  import opened StreamSafety
  import opened StreamResults
  import opened StreamProgress
  import opened StreamLimits
  import opened StreamRuns

  // The calls of a run are read off its steps: how each item's call came back, and whether the
  // batch was stopping then. Every stored result and every raised error is traced to the call
  // that it came from, or to the producer.

  // ---------------------------------------------------------------------------------
  // The calls of a run
  // ---------------------------------------------------------------------------------

  /** By position in the source. */
  type Answers = map<nat, Answer<V, X>>

  function Answered(s: State, step: Step, a: Answers): Answers
    requires Can(s, step)
  {
    if step.Return? then a[s.consumers[step.c].pc.pos := Answer(step.call, s.Stopping())] else a
  }

  /** The answers after a run, given those before it. */
  ghost function AnswersOf(s: State, steps: seq<Step>, a: Answers): Answers
    decreases |steps|
  {
    if steps == [] || !Can(s, steps[0]) then a
    else AnswersOf(Next(s, steps[0]), steps[1..], Answered(s, steps[0], a))
  }

  /** The call of item `p` came back, and what it came to. */
  predicate Came(cfg: Config, a: Answers, p: nat, verdict: Verdict<V, X>) {
    && p in a && Possible(cfg.seconds, a[p].call)
    && Settle(None, p, cfg.seconds, a[p].stopping, a[p].call) == verdict
  }

  /** An item's failure that propagates. */
  ghost predicate FromItem(cfg: Config, a: Answers, e: Error<X>) {
    !cfg.collect && exists p :: Came(cfg, a, p, Failure(e))
  }

  /** What can end the producer. */
  predicate ProducersOwn(e: Error<X>) {
    e.Thrown? || e.ProducerStray? || e.GroupShutDown?
  }

  // ---------------------------------------------------------------------------------
  // The invariant
  // ---------------------------------------------------------------------------------

  /** What is stored for item `p` is what its own call came to. */
  ghost predicate Stored(cfg: Config, a: Answers, p: nat, out: Outcome<V, X>) {
    && p in a && Possible(cfg.seconds, a[p].call)
    && AsOutcome(Settle(None, p, cfg.seconds, a[p].stopping, a[p].call)) == Some(out)
    && (out.Err? ==> cfg.collect)
  }

  ghost predicate ResultsTraced(s: State, a: Answers) {
    var h := s.history;
    && |h.finished| == |s.results|
    && (forall k :: 0 <= k < |s.results| ==> Stored(s.cfg, a, h.finished[k], s.results[k]))
  }

  /** Calls that came back are over, and one that came back during a stop is proof of the stop. */
  ghost predicate CallsOver(s: State, a: Answers) {
    && (forall p :: p in a ==> p < s.Pulled() && !IsOpen(s.history.fates[p]))
    && (forall p :: p in a && a[p].stopping ==> !Calm(s))
  }

  ghost predicate EndsTraced(s: State, a: Answers) {
    && (forall c :: 0 <= c < |s.consumers| && s.consumers[c].pc.ConsumerEnded? && s.consumers[c].pc.end.Failed? ==>
          FromItem(s.cfg, a, s.consumers[c].pc.end.error))
    && (s.producer.pc.ProducerEnded? && s.producer.pc.end.Failed? ==> ProducersOwn(s.producer.pc.end.error))
  }

  ghost predicate GroupTraced(s: State, a: Answers) {
    && (forall k :: 0 <= k < |s.group.errors| ==>
          FromItem(s.cfg, a, s.group.errors[k]) || s.producer.pc == ProducerEnded(Failed(s.group.errors[k])))
    && (s.group.phase.Exited? && s.group.phase.exit.RaisedGroup? ==>
          s.group.phase.exit.errors == s.group.errors != [])
  }

  ghost predicate Traced(s: State, a: Answers) {
    ResultsTraced(s, a) && CallsOver(s, a) && EndsTraced(s, a) && GroupTraced(s, a)
  }

  lemma InitTraced(cfg: Config, caller: Task)
    ensures Traced(Init(cfg, caller), map[])
  {
  }

  ghost predicate Grows(a: Answers, b: Answers) {
    forall p :: p in a ==> p in b && b[p] == a[p]
  }

  lemma FromItemGrows(cfg: Config, a: Answers, b: Answers, e: Error<X>)
    requires Grows(a, b) && FromItem(cfg, a, e)
    ensures FromItem(cfg, b, e)
  {
    var p :| Came(cfg, a, p, Failure(e));
    assert Came(cfg, b, p, Failure(e));
  }

  // ---------------------------------------------------------------------------------
  // Preservation
  // ---------------------------------------------------------------------------------

  /** What was stored, and how consumers and the group ended up, is left alone. */
  ghost predicate SameEnds(s: State, t: State) {
    && t.cfg == s.cfg && t.results == s.results && t.history.finished == s.history.finished && t.group == s.group
    && |s.consumers| <= |t.consumers|
    && (forall c :: 0 <= c < |t.consumers| && t.consumers[c].pc.ConsumerEnded? && t.consumers[c].pc.end.Failed? ==>
          c < |s.consumers| && t.consumers[c].pc == s.consumers[c].pc)
    && (forall c :: 0 <= c < |s.consumers| && FailedConsumer(s.consumers[c]) ==> t.consumers[c] == s.consumers[c])
    && t.producer.reaped == s.producer.reaped
    && (Calm(t) ==> Calm(s))
    && s.Pulled() <= t.Pulled()
    && (forall p :: 0 <= p < s.Pulled() && !IsOpen(s.history.fates[p]) ==> !IsOpen(t.history.fates[p]))
  }

  lemma SameEndsTraced(s: State, t: State, a: Answers)
    requires Traced(s, a) && SameEnds(s, t)
    requires t.producer.pc == s.producer.pc || !s.producer.pc.ProducerEnded?
    requires t.producer.pc.ProducerEnded? && t.producer.pc.end.Failed? ==> ProducersOwn(t.producer.pc.end.error)
    ensures Traced(t, a)
  {
  }

  lemma YieldSameEnds(s: State)
    requires FatesInv(s) && Can(s, Yield)
    ensures SameEnds(s, SourceYields(s))
    ensures var pc := SourceYields(s).producer.pc;
            pc.ProducerEnded? && pc.end.Failed? ==> ProducersOwn(pc.end.error)
  {
  }

  lemma {:induction false} SentinelsEnd(s: State)
    requires s.producer.pc.PuttingSentinels?
    ensures SameEnds(s, PutSentinels(s))
    ensures var pc := PutSentinels(s).producer.pc; pc.ProducerEnded? ==> pc.end.Finished?
    decreases s.producer.pc.left
  {
    if s.producer.pc.left == 0 || s.Full() {
    } else {
      SentinelsEnd(PutSentinel(s));
    }
  }

  lemma ProducerSameEnds(s: State, step: Step)
    requires FatesInv(s) && Can(s, step) && OfProducer(step)
    ensures SameEnds(s, Next(s, step)) && !s.producer.pc.ProducerEnded?
    ensures var t := Next(s, step);
            t.producer.pc.ProducerEnded? && t.producer.pc.end.Failed? ==> ProducersOwn(t.producer.pc.end.error)
  {
    match step
    case Yield => YieldSameEnds(s);
    case EndOfSource =>
      if !s.Stopping() {
        var s1 := SourceAnswered(s);
        SentinelsEnd(s1.(producer := s1.producer.(pc := PuttingSentinels(s1.started))));
      }
    case RoomForSentinel => SentinelsEnd(s);
    case _ =>
  }

  lemma TakeSameEnds(s: State, c: nat)
    requires QueueInv(s) && FatesInv(s) && Idle(s, c) && FrontKnown(s) && s.queue != []
    ensures SameEnds(s, Take(s, c)) && Take(s, c).producer == s.producer
  {
  }

  lemma LoopTopSameEnds(s: State, c: nat)
    requires QueueInv(s) && FatesInv(s) && Idle(s, c) && FrontKnown(s)
    ensures SameEnds(s, LoopTop(s, c)) && LoopTop(s, c).producer == s.producer
  {
    if !s.Stopping() && s.queue != [] { TakeSameEnds(s, c); }
  }

  /** The call of consumer `c` is over, and is entered among the answers. */
  function Entered(s: State, c: nat, call: Call<V, X>, a: Answers): Answers
    requires Busy(s, c)
  {
    a[s.consumers[c].pc.pos := Answer(call, s.Stopping())]
  }

  lemma EnteredIsNew(s: State, c: nat, call: Call<V, X>, a: Answers)
    requires FatesInv(s) && CallsOver(s, a) && Busy(s, c)
    ensures s.consumers[c].pc.pos !in a && Grows(a, Entered(s, c, call, a))
  {
  }

  /** Of the consumers only `c` changed, and it has not failed. */
  lemma EndsGrow(s: State, t: State, a: Answers, b: Answers, c: nat)
    requires EndsTraced(s, a) && GroupTraced(s, a) && Grows(a, b)
    requires t.cfg == s.cfg && t.group == s.group && t.producer == s.producer
    requires c < |s.consumers| == |t.consumers|
    requires forall d :: 0 <= d < |s.consumers| && d != c ==> t.consumers[d] == s.consumers[d]
    requires t.consumers[c].pc.ConsumerEnded? && t.consumers[c].pc.end.Failed? ==>
               FromItem(t.cfg, b, t.consumers[c].pc.end.error)
    ensures EndsTraced(t, b) && GroupTraced(t, b)
  {
    forall d | 0 <= d < |t.consumers| && t.consumers[d].pc.ConsumerEnded? && t.consumers[d].pc.end.Failed?
      ensures FromItem(t.cfg, b, t.consumers[d].pc.end.error)
    {
      if d != c { FromItemGrows(s.cfg, a, b, s.consumers[d].pc.end.error); }
    }
    forall k | 0 <= k < |t.group.errors|
      ensures FromItem(t.cfg, b, t.group.errors[k]) || t.producer.pc == ProducerEnded(Failed(t.group.errors[k]))
    {
      if FromItem(s.cfg, a, s.group.errors[k]) { FromItemGrows(s.cfg, a, b, s.group.errors[k]); }
    }
  }

  lemma RecordTraced(s: State, c: nat, call: Call<V, X>, out: Outcome<V, X>, a: Answers)
    requires FatesInv(s) && LatchInv(s) && Traced(s, a) && Busy(s, c) && Possible(s.cfg.seconds, call)
    requires AsOutcome(Settle(None, s.consumers[c].pc.pos, s.cfg.seconds, s.Stopping(), call)) == Some(out)
    requires out.Err? ==> s.cfg.collect
    ensures Traced(Record(CallAnswered(s, c), c, out), Entered(s, c, call, a))
  {
    var t, b := Record(CallAnswered(s, c), c, out), Entered(s, c, call, a);
    EnteredIsNew(s, c, call, a);
    EndsGrow(s, t, a, b, c);
    assert forall k :: 0 <= k < |s.results| ==> t.history.finished[k] == s.history.finished[k];
  }

  lemma FailTraced(s: State, c: nat, call: Call<V, X>, end: ChildEnd<Error<X>>, a: Answers)
    requires FatesInv(s) && Traced(s, a) && Busy(s, c) && Possible(s.cfg.seconds, call)
    requires !end.Finished?
    requires end.Failed? ==>
               && Settle(None, s.consumers[c].pc.pos, s.cfg.seconds, s.Stopping(), call) == Failure(end.error)
               && !s.cfg.collect
    ensures Traced(FailItem(CallAnswered(s, c), c, end), Entered(s, c, call, a))
  {
    var t, b := FailItem(CallAnswered(s, c), c, end), Entered(s, c, call, a);
    EnteredIsNew(s, c, call, a);
    if end.Failed? { assert Came(s.cfg, b, s.consumers[c].pc.pos, Failure(end.error)); }
    EndsGrow(s, t, a, b, c);
  }

  lemma CollectTraced(s: State, c: nat, call: Call<V, X>, out: Outcome<V, X>, a: Answers)
    requires Inv(s) && Traced(s, a) && Busy(s, c) && FrontKnown(s) && Possible(s.cfg.seconds, call)
    requires AsOutcome(Settle(None, s.consumers[c].pc.pos, s.cfg.seconds, s.Stopping(), call)) == Some(out)
    requires out.Err? ==> s.cfg.collect
    ensures FrontKnown(Record(CallAnswered(s, c), c, out))
    ensures Traced(LoopTop(Record(CallAnswered(s, c), c, out), c), Entered(s, c, call, a))
  {
    var t := Record(CallAnswered(s, c), c, out);
    RecordTraced(s, c, call, out, a);
    AnsweredInv(s, c);
    RecordInv(CallAnswered(s, c), c, out);
    FrontIsKnown(t);
    LoopTopSameEnds(t, c);
    SameEndsTraced(t, LoopTop(t, c), Entered(s, c, call, a));
  }

  lemma ReturnTraced(s: State, c: nat, call: Call<V, X>, a: Answers)
    requires Inv(s) && Traced(s, a) && Can(s, Return(c, call))
    ensures Traced(CallReturns(s, c, call), Entered(s, c, call, a))
  {
    assert s.consumers[c].pc.index == s.consumers[c].pc.pos;
    match Settle(None, s.consumers[c].pc.index, s.cfg.seconds, s.Stopping(), call)
    case Value(v) => CollectTraced(s, c, call, Ok(v), a);
    case Failure(e) =>
      if s.cfg.collect { CollectTraced(s, c, call, Err(e), a); } else { FailTraced(s, c, call, Failed(e), a); }
    case Teardown => FailTraced(s, c, call, CancelledEnd, a);
  }

  lemma ReapTraced(s: State, step: Step, a: Answers)
    requires LatchInv(s) && Traced(s, a) && Can(s, step) && (step.ReapP? || step.ReapC?)
    ensures Traced(Next(s, step), a)
  {
  }

  lemma NotCalmLater(s: State, step: Step)
    requires Can(s, step)
    ensures Calm(Next(s, step)) ==> Calm(s)
  {
    if !Calm(s) { NotCalmStays(s, step); }
  }

  lemma GroupStepTraced(s: State, step: Step, a: Answers)
    requires LatchInv(s) && Traced(s, a) && Can(s, step) && (step.Caller? || step.Environment?)
    ensures Traced(Next(s, step), a)
  {
    NotCalmLater(s, step);
  }

  lemma IdleTraced(s: State, step: Step, a: Answers)
    requires QueueInv(s) && FatesInv(s) && Traced(s, a) && Can(s, step)
    requires step.Top? || step.Get? || step.CancelConsumer? || step.StrayCancel?
    ensures Traced(Next(s, step), a)
  {
    if step.Top? { LoopTopSameEnds(s, step.c); }
    else if step.Get? { TakeSameEnds(s, step.c); }
    SameEndsTraced(s, Next(s, step), a);
  }

  lemma ProducerTraced(s: State, step: Step, a: Answers)
    requires FatesInv(s) && Traced(s, a) && Can(s, step) && OfProducer(step)
    ensures Traced(Next(s, step), a)
  {
    ProducerSameEnds(s, step);
    SameEndsTraced(s, Next(s, step), a);
  }

  lemma StepTraced(s: State, step: Step, a: Answers)
    requires Inv(s) && Traced(s, a) && Can(s, step)
    ensures Traced(Next(s, step), Answered(s, step, a))
  {
    if step.Return? { ReturnTraced(s, step.c, step.call, a); }
    else if step.ReapP? || step.ReapC? { ReapTraced(s, step, a); }
    else if step.Caller? || step.Environment? { GroupStepTraced(s, step, a); }
    else if OfProducer(step) { ProducerTraced(s, step, a); }
    else { IdleTraced(s, step, a); }
  }

  lemma {:induction false} RunTraced(s: State, steps: seq<Step>, t: State, a: Answers)
    requires Inv(s) && Traced(s, a) && Reaches(s, steps, t)
    ensures Traced(t, AnswersOf(s, steps, a))
    decreases |steps|
  {
    if steps == [] {
    } else {
      StepInv(s, steps[0]);
      StepTraced(s, steps[0], a);
      RunTraced(Next(s, steps[0]), steps[1..], t, Answered(s, steps[0], a));
    }
  }

  ghost function CallsOf(cfg: Config, caller: Task, steps: seq<Step>): Answers {
    AnswersOf(Init(cfg, caller), steps, map[])
  }

  lemma ReachableTraced(cfg: Config, caller: Task, steps: seq<Step>, s: State)
    requires Reachable(cfg, caller, steps, s)
    ensures Traced(s, CallsOf(cfg, caller, steps)) && s.cfg == cfg
  {
    ReachableInv(cfg, caller, steps, s);
    InitInv(cfg, caller);
    InitTraced(cfg, caller);
    RunTraced(Init(cfg, caller), steps, s, map[]);
  }

  // ---------------------------------------------------------------------------------
  // No failure is lost
  // ---------------------------------------------------------------------------------

  /** The group has the error, or a consumer that it has not seen yet ended in it. */
  ghost predicate Reported(s: State, e: Error<X>) {
    || e in s.group.errors
    || exists c :: 0 <= c < |s.consumers| && FailedConsumer(s.consumers[c]) && s.consumers[c].pc.end.error == e
  }

  ghost predicate NothingLost(s: State, a: Answers) {
    && (forall p, e :: !s.cfg.collect && Came(s.cfg, a, p, Failure(e)) ==> Reported(s, e))
    && (s.producer.reaped && s.producer.pc.ProducerEnded? && s.producer.pc.end.Failed? ==>
          s.producer.pc.end.error in s.group.errors)
  }

  lemma ReportedStays(s: State, t: State, e: Error<X>)
    requires Reported(s, e) && s.group.errors <= t.group.errors && |s.consumers| <= |t.consumers|
    requires forall c :: 0 <= c < |s.consumers| && FailedConsumer(s.consumers[c]) ==> t.consumers[c] == s.consumers[c]
    ensures Reported(t, e)
  {
    if e in s.group.errors {
      var k :| 0 <= k < |s.group.errors| && s.group.errors[k] == e;
      assert t.group.errors[k] == e;
    } else {
      var c :| 0 <= c < |s.consumers| && FailedConsumer(s.consumers[c]) && s.consumers[c].pc.end.error == e;
      assert FailedConsumer(t.consumers[c]);
    }
  }

  lemma SameEndsLost(s: State, t: State, a: Answers)
    requires NothingLost(s, a) && SameEnds(s, t) && (s.producer.reaped ==> t.producer == s.producer)
    ensures NothingLost(t, a)
  {
    forall p, e | !t.cfg.collect && Came(t.cfg, a, p, Failure(e)) ensures Reported(t, e) {
      ReportedStays(s, t, e);
    }
  }

  lemma FailLost(s: State, c: nat, call: Call<V, X>, end: ChildEnd<Error<X>>, a: Answers)
    requires FatesInv(s) && ConsumersInv(s) && CallsOver(s, a) && NothingLost(s, a) && Busy(s, c)
    requires Possible(s.cfg.seconds, call)
    requires var v := Settle(None, s.consumers[c].pc.pos, s.cfg.seconds, s.Stopping(), call);
             !s.cfg.collect && v.Failure? ==> end == Failed(v.error)
    ensures NothingLost(FailItem(CallAnswered(s, c), c, end), Entered(s, c, call, a))
  {
    var t, b, pos := FailItem(CallAnswered(s, c), c, end), Entered(s, c, call, a), s.consumers[c].pc.pos;
    EnteredIsNew(s, c, call, a);
    forall p, e | !t.cfg.collect && Came(t.cfg, b, p, Failure(e)) ensures Reported(t, e) {
      if p == pos {
        assert FailedConsumer(t.consumers[c]) && t.consumers[c].pc.end.error == e;
      } else {
        assert Came(s.cfg, a, p, Failure(e));
        ReportedStays(s, t, e);
      }
    }
  }

  lemma CollectLost(s: State, c: nat, call: Call<V, X>, out: Outcome<V, X>, a: Answers)
    requires Inv(s) && CallsOver(s, a) && NothingLost(s, a) && Busy(s, c) && Possible(s.cfg.seconds, call)
    requires Settle(None, s.consumers[c].pc.pos, s.cfg.seconds, s.Stopping(), call).Failure? ==> s.cfg.collect
    ensures FrontKnown(Record(CallAnswered(s, c), c, out))
    ensures NothingLost(LoopTop(Record(CallAnswered(s, c), c, out), c), Entered(s, c, call, a))
  {
    var t, b, pos := Record(CallAnswered(s, c), c, out), Entered(s, c, call, a), s.consumers[c].pc.pos;
    EnteredIsNew(s, c, call, a);
    forall p, e | !t.cfg.collect && Came(t.cfg, b, p, Failure(e)) ensures Reported(t, e) {
      assert p != pos && Came(s.cfg, a, p, Failure(e));
      ReportedStays(s, t, e);
    }
    AnsweredInv(s, c);
    RecordInv(CallAnswered(s, c), c, out);
    FrontIsKnown(t);
    LoopTopSameEnds(t, c);
    SameEndsLost(t, LoopTop(t, c), b);
  }

  lemma ReturnLost(s: State, c: nat, call: Call<V, X>, a: Answers)
    requires Inv(s) && CallsOver(s, a) && NothingLost(s, a) && Can(s, Return(c, call))
    ensures NothingLost(CallReturns(s, c, call), Entered(s, c, call, a))
  {
    assert s.consumers[c].pc.index == s.consumers[c].pc.pos;
    match Settle(None, s.consumers[c].pc.index, s.cfg.seconds, s.Stopping(), call)
    case Value(v) => CollectLost(s, c, call, Ok(v), a);
    case Failure(e) =>
      if s.cfg.collect { CollectLost(s, c, call, Err(e), a); } else { FailLost(s, c, call, Failed(e), a); }
    case Teardown => FailLost(s, c, call, CancelledEnd, a);
  }

  lemma ReapLost(s: State, step: Step, a: Answers)
    requires NothingLost(s, a) && Can(s, step) && (step.ReapP? || step.ReapC?)
    ensures NothingLost(Next(s, step), a)
  {
    var t := Next(s, step);
    forall p, e | !t.cfg.collect && Came(t.cfg, a, p, Failure(e)) ensures Reported(t, e) {
      assert Reported(s, e);
      if e in s.group.errors {
        assert e in t.group.errors;
      } else {
        var c :| 0 <= c < |s.consumers| && FailedConsumer(s.consumers[c]) && s.consumers[c].pc.end.error == e;
        if step == ReapC(c) {
          assert t.group.errors[|s.group.errors|] == e;
        } else {
          assert t.consumers[c] == s.consumers[c];
        }
      }
    }
    if step.ReapP? && s.producer.pc.end.Failed? {
      assert t.group.errors[|s.group.errors|] == s.producer.pc.end.error;
    }
  }

  lemma AsideLost(s: State, step: Step, a: Answers)
    requires QueueInv(s) && FatesInv(s) && NothingLost(s, a) && Can(s, step)
    requires !step.Return? && !step.ReapP? && !step.ReapC? && !OfProducer(step)
    ensures NothingLost(Next(s, step), a)
  {
    var t := Next(s, step);
    if step.Top? { LoopTopSameEnds(s, step.c); }
    else if step.Get? { TakeSameEnds(s, step.c); }
    forall p, e | !t.cfg.collect && Came(t.cfg, a, p, Failure(e)) ensures Reported(t, e) {
      ReportedStays(s, t, e);
    }
  }

  lemma StepLost(s: State, step: Step, a: Answers)
    requires Inv(s) && CallsOver(s, a) && NothingLost(s, a) && Can(s, step)
    ensures NothingLost(Next(s, step), Answered(s, step, a))
  {
    if step.Return? { ReturnLost(s, step.c, step.call, a); }
    else if step.ReapP? || step.ReapC? { ReapLost(s, step, a); }
    else if OfProducer(step) {
      ProducerSameEnds(s, step);
      SameEndsLost(s, Next(s, step), a);
    } else { AsideLost(s, step, a); }
  }

  lemma {:induction false} RunLost(s: State, steps: seq<Step>, t: State, a: Answers)
    requires Inv(s) && Traced(s, a) && NothingLost(s, a) && Reaches(s, steps, t)
    ensures NothingLost(t, AnswersOf(s, steps, a))
    decreases |steps|
  {
    if steps == [] {
    } else {
      StepInv(s, steps[0]);
      StepTraced(s, steps[0], a);
      StepLost(s, steps[0], a);
      RunLost(Next(s, steps[0]), steps[1..], t, Answered(s, steps[0], a));
    }
  }

  lemma ReachableLost(cfg: Config, caller: Task, steps: seq<Step>, s: State)
    requires Reachable(cfg, caller, steps, s)
    ensures NothingLost(s, CallsOf(cfg, caller, steps))
  {
    InitInv(cfg, caller);
    InitTraced(cfg, caller);
    RunLost(Init(cfg, caller), steps, s, map[]);
  }

  // ---------------------------------------------------------------------------------
  // What comes out
  // ---------------------------------------------------------------------------------

  /**
   Every result that a normal return delivers is what the call of its own item came to, and
   is attributed to a deadline or a stray cancel exactly when it should be, with the item's
   own position and this call's seconds. Errors are among the results only if collected.
   */
  lemma ResultBlame(cfg: Config, caller: Task, steps: seq<Step>, s: State, k: nat)
    requires Reachable(cfg, caller, steps, s) && ReturnedNormally(s) && k < |s.results|
    ensures |Completed(Init(cfg, caller), steps)| == |s.results|
    ensures var a, p := CallsOf(cfg, caller, steps), Completed(Init(cfg, caller), steps)[k].0;
            && p < cfg.items && p in a && Possible(cfg.seconds, a[p].call)
            && AsOutcome(Settle(None, p, cfg.seconds, false, a[p].call)) == Some(s.results[k])
            && Attributed(None, p, cfg.seconds, a[p].call, s.results[k])
    ensures s.results[k].Err? ==> cfg.collect
  {
    ReachableTraced(cfg, caller, steps, s);
    ReachableInv(cfg, caller, steps, s);
    ResultsInOrder(cfg, caller, steps, s);
    var a, p := CallsOf(cfg, caller, steps), s.history.finished[k];
    assert p == Completed(Init(cfg, caller), steps)[k].0;
    assert Stored(cfg, a, p, s.results[k]);
    SettledAttribution(None, p, cfg.seconds, a[p].call, s.results[k]);
  }

  /**
   A call that is over has raised a group with this error in it if and only if the call of some
   item failed with it and errors are not collected, or a step of the run ended the producer in
   it: nothing else is raised, and no failure is lost, whatever else happened.
   */
  lemma RaisedErrors(cfg: Config, caller: Task, steps: seq<Step>, s: State, e: Error<X>)
    requires Reachable(cfg, caller, steps, s) && s.group.phase.Exited?
    ensures s.group.phase.exit.RaisedGroup? && e in s.group.phase.exit.errors <==>
              FromItem(cfg, CallsOf(cfg, caller, steps), e) || SourceFailed(Init(cfg, caller), steps, e)
    ensures s.group.phase.exit.RaisedGroup? ==> s.group.phase.exit.errors != [] && s.failed
  {
    var a := CallsOf(cfg, caller, steps);
    ReachableTraced(cfg, caller, steps, s);
    ReachableLost(cfg, caller, steps, s);
    ReachableInv(cfg, caller, steps, s);
    LatchExact(cfg, caller, steps, s, e);
    if FromItem(cfg, a, e) {
      var p: nat :| Came(cfg, a, p, Failure(e));
      assert Reported(s, e);
      ReapedMeansSeen(s);
    }
  }

  /** What the source throws is raised, and an exception is raised only if the source or an item's call threw it. */
  lemma SourceErrorsRaised(cfg: Config, caller: Task, steps: seq<Step>, s: State, x: X)
    requires Reachable(cfg, caller, steps, s) && s.group.phase.Exited?
    ensures s.group.phase.exit.RaisedGroup? && Thrown(x) in s.group.phase.exit.errors <==>
              FromItem(cfg, CallsOf(cfg, caller, steps), Thrown(x)) || SourceThrows(x) in steps
  {
    RaisedErrors(cfg, caller, steps, s, Thrown(x));
    SourceThrowsExactly(Init(cfg, caller), steps, s, x);
  }

  /**
   And what a raised error blames is true of that item's own call: a deadline error means that
   this call's deadline fired, for the item at that position, and so on for every kind of
   error. The rest is the producer's: what its source threw, or one of its own two.
   */
  lemma RaisedBlame(cfg: Config, caller: Task, steps: seq<Step>, s: State, e: Error<X>) returns (p: nat)
    requires Reachable(cfg, caller, steps, s) && s.group.phase.Exited? && s.group.phase.exit.RaisedGroup?
    requires e in s.group.phase.exit.errors
    ensures var a := CallsOf(cfg, caller, steps);
            || (p < s.Pulled() && p in a && Blamed(None, p, cfg.seconds, a[p], e))
            || (SourceFailed(Init(cfg, caller), steps, e) && ProducersOwn(e)
                && (e.Thrown? ==> SourceThrows(e.x) in steps))
  {
    var a := CallsOf(cfg, caller, steps);
    ReachableTraced(cfg, caller, steps, s);
    RaisedErrors(cfg, caller, steps, s, e);
    p := 0;
    if FromItem(cfg, a, e) {
      p :| Came(cfg, a, p, Failure(e));
      FailureBlame(None, p, cfg.seconds, a[p], e);
    } else {
      LatchExact(cfg, caller, steps, s, e);
      if e.Thrown? { SourceThrowsExactly(Init(cfg, caller), steps, s, e.x); }
    }
  }

  // ---------------------------------------------------------------------------------
  // When the producer is at fault
  // ---------------------------------------------------------------------------------

  /** `create_task` refused the producer's new consumer. */
  predicate ShutDown(s: State) { s.producer.pc == ProducerEnded(Failed(GroupShutDown)) }

  /** A CancelledError of the producer was read as the source's own failure. */
  predicate SourceBlamed(s: State) { s.producer.pc == ProducerEnded(Failed(ProducerStray)) }

  lemma ProducerAside(s: State, c: nat, call: Call<V, X>)
    requires Can(s, Return(c, call))
    ensures CallReturns(s, c, call).producer == s.producer
  {
  }

  lemma ProducerErrorStep(p: Policy, s: State, step: Step)
    requires Steady(s) && Can(s, step) && Allows(p, step) && (p.producer || ProducerTidy(s))
    ensures !ShutDown(s) ==> !ShutDown(Next(s, step))
    ensures !p.producer && !p.sourceCancels && !SourceBlamed(s) ==> !SourceBlamed(Next(s, step))
  {
    match step
    case EndOfSource =>
      if !s.Stopping() {
        var s1 := SourceAnswered(s);
        SentinelsEnd(s1.(producer := s1.producer.(pc := PuttingSentinels(s1.started))));
      }
    case RoomForSentinel => SentinelsEnd(s);
    case Return(c, call) => ProducerAside(s, c, call);
    case _ =>
  }

  /** An ended producer stays as it ended. */
  lemma {:induction false} EndedProducerStays(s: State, steps: seq<Step>, t: State)
    requires s.producer.pc.ProducerEnded? && Reaches(s, steps, t)
    ensures t.producer.pc == s.producer.pc
    decreases |steps|
  {
    if steps == [] {
    } else {
      if steps[0].Return? { ProducerAside(s, steps[0].c, steps[0].call); }
      EndedProducerStays(Next(s, steps[0]), steps[1..], t);
    }
  }

  lemma {:induction false} ProducerErrorRun(p: Policy, s: State, steps: seq<Step>, t: State)
    requires Inv(s) && Steady(s) && Reaches(s, steps, t) && Keeps(p, steps) && !p.takeBacks
    requires (p.producer || ProducerTidy(s)) && !ShutDown(s) && !SourceBlamed(s)
    ensures !ShutDown(t) && (!p.producer && !p.sourceCancels ==> !SourceBlamed(t))
    decreases |steps|
  {
    if steps == [] {
    } else {
      var step, s1 := steps[0], Next(s, steps[0]);
      StepInv(s, step);
      SteadyStep(s, step);
      ProducerErrorStep(p, s, step);
      TidyStep(p, s, step);
      if SourceBlamed(s1) { EndedProducerStays(s1, steps[1..], t); } else { ProducerErrorRun(p, s1, steps[1..], t); }
    }
  }

  /** The queue is full, and the producer holds an item that it cannot put. */
  lemma AtFullQueue(p: Policy, cfg: Config) returns (steps: seq<Step>, s: State)
    requires cfg.concurrency == 1 && cfg.queueSize == 1 && 3 <= cfg.items
    ensures Run(p, cfg, steps, s) && s.group == IDLE && FrontKnown(s)
    ensures s.producer == Producer(Putting(2), false, false, false) && s.Pulled() == 3 && !s.failed
  {
    steps, s := FirstCall(p, cfg);
    steps, s := YieldIntoQueue(p, cfg, steps, s);
    steps, s := OneMore(p, cfg, steps, s, Yield);
  }

  /** A cancel that reaches the producer at a `put` while nothing stops the batch is blamed on the source. */
  lemma CancelAtPut(p: Policy, cfg: Config, steps: seq<Step>, s: State) returns (longer: seq<Step>, t: State)
    requires Run(p, cfg, steps, s) && Can(s, CancelProducer) && s.producer.pc.Putting? && !s.Stopping()
    ensures Run(p, cfg, longer, t) && SourceBlamed(t)
  {
    longer, t := OneMore(p, cfg, steps, s, CancelProducer);
  }

  lemma SourceIsBlamed(p: Policy) returns (cfg: Config, steps: seq<Step>, s: State)
    requires p.takeBacks || p.producer || p.sourceCancels
    ensures Run(p, cfg, steps, s) && SourceBlamed(s)
  {
    cfg := Config(1, 1, false, None, 3);
    if p.sourceCancels {
      steps, s := [], Init(cfg, FRESH);
      steps, s := OneMore(p, cfg, steps, s, ProducerStarts);
      steps, s := OneMore(p, cfg, steps, s, SourceThrowsCancelled);
    } else if p.producer {
      steps, s := AtFullQueue(p, cfg);
      steps, s := OneMore(p, cfg, steps, s, StrayCancel(None));
      steps, s := CancelAtPut(p, cfg, steps, s);
    } else {
      steps, s := AtFullQueue(p, cfg);
      steps, s := CancelTakenBack(p, cfg, steps, s);
      steps, s := CancelAtPut(p, cfg, steps, s);
    }
  }

  lemma GroupIsShutDown(p: Policy) returns (cfg: Config, steps: seq<Step>, s: State)
    requires p.takeBacks
    ensures Run(p, cfg, steps, s) && ShutDown(s)
  {
    cfg := Config(1, 1, false, None, 3);
    steps, s := [], Init(cfg, FRESH);
    steps, s := OneMore(p, cfg, steps, s, ProducerStarts);
    steps, s := CancelTakenBack(p, cfg, steps, s);
    assert s.producer.pc.Pulling? && s.Pulled() == 0 && !s.Stopping();
    steps, s := OneMore(p, cfg, steps, s, Yield);
  }

  ghost predicate NeverShutDown(p: Policy) {
    forall cfg, caller, steps, s :: Reachable(cfg, caller, steps, s) && Keeps(p, steps) ==> !ShutDown(s)
  }

  ghost predicate NeverBlamed(p: Policy) {
    forall cfg, caller, steps, s :: Reachable(cfg, caller, steps, s) && Keeps(p, steps) ==> !SourceBlamed(s)
  }

  /** `create_task` refuses a consumer in some run if and only if outsiders may take back cancels of the caller. */
  lemma ShutDownExactly(p: Policy)
    ensures NeverShutDown(p) <==> !p.takeBacks
  {
    if p.takeBacks {
      var cfg, steps, s := GroupIsShutDown(p);
    } else {
      forall cfg, caller, steps, s | Reachable(cfg, caller, steps, s) && Keeps(p, steps) ensures !ShutDown(s) {
        InitInv(cfg, caller);
        InitSteady(cfg, caller);
        ProducerErrorRun(p, Init(cfg, caller), steps, s);
      }
    }
  }

  /**
   A CancelledError is blamed on the source in some run if and only if the source may end in
   one, or the producer may be hit by a stray cancel, or cancels of the caller may be taken back.
   */
  lemma SourceBlamedExactly(p: Policy)
    ensures NeverBlamed(p) <==> !p.takeBacks && !p.producer && !p.sourceCancels
  {
    if p.takeBacks || p.producer || p.sourceCancels {
      var cfg, steps, s := SourceIsBlamed(p);
    } else {
      forall cfg, caller, steps, s | Reachable(cfg, caller, steps, s) && Keeps(p, steps) ensures !SourceBlamed(s) {
        InitInv(cfg, caller);
        InitSteady(cfg, caller);
        ProducerErrorRun(p, Init(cfg, caller), steps, s);
      }
    }
  }
}
