/** `stream` computes what it should. */
module StreamDelivery {
  import opened Counting
  import opened Cancellation
  import opened Calls
  import opened StreamModel
  import opened StreamSafety
  import opened StreamResults
  import opened StreamProgress
  import opened StreamRuns

  // With a user function that returns, a source that does not fail and a caller that nobody
  // cancels, every schedule ends, returns normally, and returns the function's value for each
  // item exactly once.

  /** The user's function returns `f` of the item; the deadline may fire and be absorbed. */
  ghost predicate PureStep(s: State, step: Step, f: nat -> V)
    requires Can(s, step)
  {
    match step
    case Return(c, call) => call.raw == Gave(f(s.consumers[c].pc.pos))
    case SourceThrows(_) => false
    case SourceThrowsCancelled => false
    case Environment(_) => false
    case StrayCancel(_) => false
    case _ => true
  }

  ghost predicate PureRun(s: State, steps: seq<Step>, t: State, f: nat -> V)
    decreases |steps|
  {
    if steps == [] then s == t
    else Can(s, steps[0]) && PureStep(s, steps[0], f) && PureRun(Next(s, steps[0]), steps[1..], t, f)
  }

  /** No schedule can go on. */
  ghost predicate PureStuck(s: State, f: nat -> V) {
    forall step :: Can(s, step) ==> !PureStep(s, step, f)
  }

  ghost predicate PureInv(s: State, f: nat -> V) {
    && Calm(s) && s.Undisturbed() && !s.producer.stray
    && (forall c :: 0 <= c < |s.consumers| ==> !s.consumers[c].stray)
    && |s.results| == |s.history.finished|
    && (forall k :: 0 <= k < |s.results| ==> s.results[k] == Ok(f(s.history.finished[k])))
  }

  lemma PureProducer(s: State, step: Step, f: nat -> V)
    requires LatchInv(s) && PureInv(s, f) && Can(s, step) && PureStep(s, step, f) && OfProducer(step)
    ensures PureInv(Next(s, step), f)
  {
    match step
    case RoomForSentinel => SentinelsKeep(s);
    case EndOfSource =>
      var s1 := SourceAnswered(s);
      SentinelsKeep(s1.(producer := s1.producer.(pc := PuttingSentinels(s1.started))));
    case _ =>
  }

  lemma PureLoopTop(s: State, c: nat, f: nat -> V)
    requires PureInv(s, f) && Idle(s, c) && FrontKnown(s) && !s.Stopping()
    ensures PureInv(LoopTop(s, c), f)
  {
  }

  lemma PureReturn(s: State, c: nat, call: Call<V, X>, f: nat -> V)
    requires LatchInv(s) && QueueInv(s) && PureInv(s, f) && Busy(s, c) && FrontKnown(s)
    requires Possible(s.cfg.seconds, call) && call.raw == Gave(f(s.consumers[c].pc.pos))
    ensures PureInv(CallReturns(s, c, call), f)
  {
    var value := f(s.consumers[c].pc.pos);
    var s1 := CallAnswered(s, c);
    assert PureInv(s1, f);
    assert Settle(None, s.consumers[c].pc.index, s.cfg.seconds, s.Stopping(), call) == Value(value);
    var s2 := Record(s1, c, Ok(value));
    assert PureInv(s2, f);
    assert QueueInv(s2);
    FrontIsKnown(s2);
    PureLoopTop(s2, c, f);
  }

  lemma PureStepInv(s: State, step: Step, f: nat -> V)
    requires Inv(s) && PureInv(s, f) && Can(s, step) && PureStep(s, step, f)
    ensures PureInv(Next(s, step), f)
  {
    match step
    case Return(c, call) => PureReturn(s, c, call, f);
    case Top(c) => PureLoopTop(s, c, f);
    case Get(c) =>
    case CancelConsumer(c) =>
    case ReapP =>
    case ReapC(c) => assert CalmInv(s) && ConsumersInv(s);
    case Caller =>
    case _ => PureProducer(s, step, f);
  }

  lemma PureNext(s: State, step: Step, f: nat -> V)
    requires Inv(s) && PureInv(s, f) && Can(s, step) && PureStep(s, step, f)
    ensures Inv(Next(s, step)) && PureInv(Next(s, step), f) && OfTask(step)
  {
    StepInv(s, step);
    PureStepInv(s, step, f);
  }

  lemma {:induction false} PureRunInv(s: State, steps: seq<Step>, t: State, f: nat -> V)
    requires Inv(s) && PureInv(s, f) && PureRun(s, steps, t, f)
    ensures Inv(t) && PureInv(t, f) && Reaches(s, steps, t) && Count(OfTask, steps) == |steps|
    decreases |steps|
  {
    if steps == [] {
    } else {
      PureNext(s, steps[0], f);
      PureRunInv(Next(s, steps[0]), steps[1..], t, f);
      CountFirst(OfTask, steps);
    }
  }

  /** Nobody from outside takes part in a pure run. */
  lemma {:induction false} PureRunQuiet(s: State, steps: seq<Step>, t: State, f: nat -> V)
    requires PureRun(s, steps, t, f)
    ensures t.group.outside == s.group.outside
    ensures forall k :: 0 <= k < |steps| ==> OfTask(steps[k])
    decreases |steps|
  {
    if steps == [] {
    } else {
      StepKeepsConfig(s, steps[0]);
      PureRunQuiet(Next(s, steps[0]), steps[1..], t, f);
      assert forall k :: 0 < k < |steps| ==> steps[k] == steps[1..][k - 1];
    }
  }

  // ---------------------------------------------------------------------------------
  // A permutation has the multiset of the identity
  // ---------------------------------------------------------------------------------

  function Outcomes(positions: seq<nat>, f: nat -> V): seq<Outcome<V, X>> {
    seq(|positions|, k requires 0 <= k < |positions| => Ok(f(positions[k])))
  }

  function UpTo(n: nat): seq<nat> {
    seq(n, k => k)
  }

  ghost predicate Distinct(s: seq<nat>) {
    forall j, k :: 0 <= j < k < |s| ==> s[j] != s[k]
  }

  lemma {:induction false} DistinctCounts(s: seq<nat>, x: nat)
    requires Distinct(s)
    ensures multiset(s)[x] == if x in s then 1 else 0
  {
    if s == [] {
    } else {
      var n := |s| - 1;
      DistinctCounts(s[..n], x);
      assert s == s[..n] + [s[n]];
    }
  }

  lemma SameElements(a: seq<nat>, b: seq<nat>)
    requires Distinct(a) && Distinct(b) && (forall x :: x in a <==> x in b)
    ensures multiset(a) == multiset(b)
  {
    forall x: nat ensures multiset(a)[x] == multiset(b)[x] {
      DistinctCounts(a, x);
      DistinctCounts(b, x);
    }
  }

  function Without<T>(s: seq<T>, i: nat): seq<T>
    requires i < |s|
  {
    s[..i] + s[i + 1..]
  }

  lemma WithoutOne<T>(s: seq<T>, i: nat)
    requires i < |s|
    ensures multiset(s) == multiset(Without(s, i)) + multiset{s[i]}
    ensures multiset(Without(s, i)) == multiset(s) - multiset{s[i]}
  {
    assert s == s[..i] + [s[i]] + s[i + 1..];
  }

  lemma {:induction false} SameOutcomes(a: seq<nat>, b: seq<nat>, f: nat -> V)
    requires multiset(a) == multiset(b)
    ensures multiset(Outcomes(a, f)) == multiset(Outcomes(b, f))
    decreases |a|
  {
    assert |multiset(a)| == |a| && |multiset(b)| == |b|;
    if a == [] {
    } else {
      assert a[0] in multiset(b);
      var i :| 0 <= i < |b| && b[i] == a[0];
      WithoutOne(a, 0);
      WithoutOne(b, i);
      SameOutcomes(Without(a, 0), Without(b, i), f);
      assert Outcomes(Without(a, 0), f) == Without(Outcomes(a, f), 0);
      assert Outcomes(Without(b, i), f) == Without(Outcomes(b, f), i);
      WithoutOne(Outcomes(a, f), 0);
      WithoutOne(Outcomes(b, f), i);
    }
  }

  lemma PermutationOutcomes(positions: seq<nat>, n: nat, f: nat -> V)
    requires IsPermutation(positions, n)
    ensures multiset(Outcomes(positions, f)) == multiset(Outcomes(UpTo(n), f))
  {
    forall x: nat ensures x in positions <==> x in UpTo(n) {
      if x < n { assert UpTo(n)[x] == x; }
    }
    SameElements(positions, UpTo(n));
    SameOutcomes(positions, UpTo(n), f);
  }

  // ---------------------------------------------------------------------------------
  // One consumer
  // ---------------------------------------------------------------------------------

  /** While nothing goes wrong, a single consumer's item is the next one to finish. */
  lemma OneAtATime(s: State)
    requires Inv(s) && Calm(s) && s.cfg.concurrency == 1 && s.history.finished == UpTo(|s.history.finished|)
    requires 0 < |s.consumers| && s.consumers[0].pc.Calling?
    ensures |s.consumers| == 1 && s.consumers[0].pc.pos == |s.history.finished|
  {
    var pos, n := s.consumers[0].pc.pos, |s.history.finished|;
    assert s.consumers == [s.consumers[0]];
    CountBound(IsCalling, s.consumers);
    assert forall k :: 0 <= k < n ==> s.history.finished[k] == k && s.history.fates[k] == Done(s.results[k]);
    assert s.history.fates[pos].InFlight?;
  }

  lemma SerialCompletes(s: State, step: Step)
    requires Inv(s) && Calm(s) && Can(s, step) && s.cfg.concurrency == 1
    requires s.history.finished == UpTo(|s.history.finished|)
    ensures PositionsOf(Completes(s, step)) == [] || PositionsOf(Completes(s, step)) == [|s.history.finished|]
  {
    if step.Return? { OneAtATime(s); }
  }

  lemma UpToGrows(finished: seq<nat>, more: seq<nat>)
    requires finished == UpTo(|finished|) && (more == [] || more == [|finished|])
    ensures finished + more == UpTo(|finished + more|)
  {
  }

  lemma SerialStep(s: State, step: Step)
    requires Inv(s) && Calm(s) && Can(s, step) && s.cfg.concurrency == 1
    requires s.history.finished == UpTo(|s.history.finished|)
    ensures Next(s, step).history.finished == UpTo(|Next(s, step).history.finished|)
  {
    StepCompletes(s, step);
    SerialCompletes(s, step);
    UpToGrows(s.history.finished, PositionsOf(Completes(s, step)));
  }

  lemma {:induction false} SerialRun(s: State, steps: seq<Step>, t: State, f: nat -> V)
    requires Inv(s) && PureInv(s, f) && PureRun(s, steps, t, f)
    requires s.cfg.concurrency == 1 && s.history.finished == UpTo(|s.history.finished|)
    ensures t.history.finished == UpTo(|t.history.finished|)
    decreases |steps|
  {
    if steps == [] {
    } else {
      PureNext(s, steps[0], f);
      StepKeepsConfig(s, steps[0]);
      SerialStep(s, steps[0]);
      SerialRun(Next(s, steps[0]), steps[1..], t, f);
    }
  }

  // ---------------------------------------------------------------------------------
  // The theorem
  // ---------------------------------------------------------------------------------

  lemma PureMoves(s: State, f: nat -> V) returns (step: Step)
    requires Inv(s) && PureInv(s, f) && s.group.phase.Exiting?
    ensures Can(s, step) && PureStep(s, step, f)
  {
    step := CalmMoves(s);
    if step.Return? { step := Return(step.c, Call(Gave(f(s.consumers[step.c].pc.pos)), false, 0, 0)); }
    else if step.SourceThrows? || step.SourceThrowsCancelled? {
      step := if s.Pulled() < s.cfg.items then Yield else EndOfSource;
    }
  }

  /** A pure run that is over has returned the values in the order of completion. */
  lemma PureReturns(cfg: Config, caller: Task, steps: seq<Step>, t: State, f: nat -> V)
    requires Reachable(cfg, caller, steps, t) && PureRun(Init(cfg, caller), steps, t, f)
    requires t.group.phase.Exited? && PureInv(t, f)
    ensures ReturnedNormally(t) && t.group.task.cancelling == caller.cancelling
    ensures var order := PositionsOf(Completed(Init(cfg, caller), steps));
            IsPermutation(order, cfg.items) && t.results == Outcomes(order, f)
  {
    ReachableInv(cfg, caller, steps, t);
    ReturnDelivers(cfg, caller, steps, t);
    PureRunQuiet(Init(cfg, caller), steps, t, f);
    ConfigKept(Init(cfg, caller), steps, t);
  }

  /**
   Every schedule of a call with `n` items is at most 11n + 11 steps long, and one that
   cannot go on has returned the values of all the items, in the order in which the schedule
   completed them, and left the caller's count alone. With one consumer that is the source's
   order.
   */
  lemma StreamComputesMap(cfg: Config, caller: Task, steps: seq<Step>, t: State, f: nat -> V)
    requires 0 < cfg.concurrency && 0 < cfg.queueSize && !caller.done && !caller.undelivered
    requires PureRun(Init(cfg, caller), steps, t, f)
    ensures |steps| <= 11 * cfg.items + 11
    ensures t.group.phase.Exited? ==>
              && ReturnedNormally(t) && t.group.task.cancelling == caller.cancelling
              && t.results == Outcomes(PositionsOf(Completed(Init(cfg, caller), steps)), f)
              && multiset(t.results) == multiset(Outcomes(UpTo(cfg.items), f))
              && (cfg.concurrency == 1 ==> t.results == Outcomes(UpTo(cfg.items), f))
    ensures PureStuck(t, f) <==> t.group.phase.Exited?
  {
    var s := Init(cfg, caller);
    InitInv(cfg, caller);
    PureRunInv(s, steps, t, f);
    StreamRunsEnd(cfg, caller, steps, t);
    if t.group.phase.Exited? {
      PureReturns(cfg, caller, steps, t, f);
      PermutationOutcomes(PositionsOf(Completed(s, steps)), cfg.items, f);
      if cfg.concurrency == 1 {
        SerialRun(s, steps, t, f);
        ResultsInOrder(cfg, caller, steps, t);
      }
    } else {
      var step := PureMoves(t, f);
    }
  }
}
