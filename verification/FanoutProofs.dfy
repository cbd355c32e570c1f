/**
 What `process` and the fan-out of a dispatch guarantee over every interleaving.
 */
module FanoutProofs {
  import opened Counting
  import opened Cancellation
  import opened Calls
  import opened FanoutModel

  predicate IsRunning<X>(c: Child<X>) { c.pc.Running? }

  predicate Calm<V, X>(s: State<V, X>) {
    !s.failed && !s.group.aborting && !s.group.task.undelivered
  }

  // ---------------------------------------------------------------------------------
  // The invariant
  // ---------------------------------------------------------------------------------

  ghost predicate SlotsInv<V, X>(s: State<V, X>) {
    var cs := s.children;
    && |cs| == |s.results| == |s.answers| == s.cfg.n
    && (s.cfg.limit.Some? ==> 0 < s.cfg.limit.value && s.inUse <= s.cfg.limit.value)
    && s.inUse == Count(IsRunning, cs)
    && (forall i :: 0 <= i < |cs| && s.results[i].Some? ==> cs[i].pc.Ended? && cs[i].pc.end.Finished?)
    && (forall i :: 0 <= i < |cs| && cs[i].pc.Ended? && cs[i].pc.end.Finished? ==> s.results[i].Some? || s.failed)
    && (forall i :: 0 <= i < |cs| && cs[i].pc.Ended? && cs[i].pc.end.CancelledEnd? ==>
          s.failed || s.group.aborting || cs[i].stray)
    && (forall i :: 0 <= i < |cs| && cs[i].stray ==>
          cs[i].pc.Waiting? || (cs[i].pc.Ended? && cs[i].pc.end.CancelledEnd?))
    && (forall i :: 0 <= i < |cs| && cs[i].pc.Ended? && cs[i].pc.end.Failed? ==> s.failed)
    && (forall i :: 0 <= i < |cs| && cs[i].reaped ==> cs[i].pc.Ended?)
  }

  ghost predicate AnswersInv<V, X>(s: State<V, X>)
    requires |s.results| == |s.answers|
  {
    && (forall i :: 0 <= i < |s.results| && s.results[i].Some? ==>
          && s.answers[i].Some?
          && (s.results[i].value.Err? ==> s.cfg.collect)
          && Possible(s.cfg.seconds, s.answers[i].value.call)
          && var a := s.answers[i].value;
             s.results[i] == AsOutcome(Settle(s.cfg.owner, i, s.cfg.seconds, a.stopping, a.call)))
    && (forall i :: 0 <= i < |s.results| && s.answers[i].Some? && s.answers[i].value.stopping ==> !Calm(s))
  }

  predicate FailedChild<X>(c: Child<X>) {
    c.pc.Ended? && c.pc.end.Failed? && !c.reaped
  }

  ghost predicate FailureUnseen<V, X>(s: State<V, X>) {
    exists i :: 0 <= i < |s.children| && FailedChild(s.children[i])
  }

  ghost predicate LatchInv<V, X>(s: State<V, X>) {
    var g := s.group;
    && GroupInv(g) && !g.phase.Body? && !g.requestedBefore && g.bodyErrors == [] && !g.task.done
    && (g.errors != [] ==> s.failed) && (g.propagate ==> g.aborting)
    && (g.phase.Exiting? && g.probe.Cancelled(g.task) ==> g.task.undelivered || g.aborting)
    && (g.phase.Exiting? && s.failed ==> g.task.undelivered || g.aborting || FailureUnseen(s))
    && (g.phase.Exited? ==> AllReaped(s) && !g.task.undelivered)
    && (g.phase.Exited? ==> (g.phase.exit.Returned? <==> Calm(s)))
    && (g.phase.Exited? && g.phase.exit.RaisedGroup? ==> g.phase.exit.errors == g.errors != [])
  }

  ghost predicate Inv<V, X>(s: State<V, X>) {
    SlotsInv(s) && AnswersInv(s) && LatchInv(s)
  }

  lemma InitInv<V, X>(cfg: Config, caller: Task)
    requires (cfg.limit.Some? ==> 0 < cfg.limit.value) && !caller.done
    ensures Inv(Init<V, X>(cfg, caller))
  {
    CountNone(IsRunning, Init<V, X>(cfg, caller).children);
  }

  lemma UnseenKept<V, X>(s: State<V, X>, t: State<V, X>)
    requires |s.children| == |t.children|
    requires forall i :: 0 <= i < |s.children| && s.children[i].pc.Ended? ==> t.children[i] == s.children[i]
    ensures FailureUnseen(s) ==> FailureUnseen(t)
  {
    if FailureUnseen(s) {
      var i :| 0 <= i < |s.children| && FailedChild(s.children[i]);
      assert FailedChild(t.children[i]);
    }
  }

  lemma StartInv<V, X>(s: State<V, X>, i: nat)
    requires Inv(s) && Can(s, Start(i))
    ensures Inv(StartItem(s, i))
  {
    var t := StartItem(s, i);
    CountUpdate(IsRunning, s.children, i, t.children[i]);
    UnseenKept(s, t);
  }

  lemma CancelInv<V, X>(s: State<V, X>, i: nat)
    requires Inv(s) && Can(s, Cancel(i))
    ensures Inv(CancelItem(s, i))
  {
    var t := CancelItem(s, i);
    CountUpdate(IsRunning, s.children, i, t.children[i]);
    UnseenKept(s, t);
  }

  /** One running task ends and gives its slot back; nothing else changes but its own slot and the latch. */
  lemma OneEnds<V, X>(s: State<V, X>, t: State<V, X>, i: nat)
    requires SlotsInv(s) && i < |s.children| == |t.children| == |t.results| == |t.answers| && s.children[i].pc.Running?
    requires t.cfg == s.cfg && t.group == s.group && t.inUse == s.inUse - 1 && (s.failed ==> t.failed)
    requires forall j :: 0 <= j < |s.children| && j != i ==>
               t.children[j] == s.children[j] && t.results[j] == s.results[j]
    requires t.children[i].pc.Ended? && !t.children[i].stray && !t.children[i].reaped
    requires t.results[i].Some? <==> t.children[i].pc.end.Finished?
    requires !t.children[i].pc.end.Finished? ==> t.failed
    ensures SlotsInv(t)
  {
    CountUpdate(IsRunning, s.children, i, t.children[i]);
    assert t.children == s.children[i := t.children[i]];
  }

  lemma ReturnSlots<V, X>(s: State<V, X>, i: nat, call: Call<V, X>)
    requires SlotsInv(s) && Can(s, Return(i, call))
    ensures SlotsInv(ItemReturns(s, i, call))
  {
    CancelledErrorExact(s.cfg.owner, i, s.cfg.seconds, s.Stopping(), call);
    OneEnds(s, ItemReturns(s, i, call), i);
  }

  lemma ReturnAnswers<V, X>(s: State<V, X>, i: nat, call: Call<V, X>)
    requires SlotsInv(s) && AnswersInv(s) && LatchInv(s) && Can(s, Return(i, call))
    ensures |ItemReturns(s, i, call).results| == |ItemReturns(s, i, call).answers|
    ensures AnswersInv(ItemReturns(s, i, call))
  {
  }

  lemma ReturnInv<V, X>(s: State<V, X>, i: nat, call: Call<V, X>)
    requires Inv(s) && Can(s, Return(i, call))
    ensures Inv(ItemReturns(s, i, call))
  {
    var t := ItemReturns(s, i, call);
    ReturnSlots(s, i, call);
    ReturnAnswers(s, i, call);
    CancelledErrorExact(s.cfg.owner, i, s.cfg.seconds, s.Stopping(), call);
    UnseenKept(s, t);
    if t.children[i].pc.end.Failed? { assert FailedChild(t.children[i]); }
  }

  lemma ReapSlots<V, X>(s: State<V, X>, i: nat)
    requires SlotsInv(s) && Can(s, Reap(i))
    ensures SlotsInv(ReapItem(s, i))
  {
    CountUpdate(IsRunning, s.children, i, ReapItem(s, i).children[i]);
  }

  lemma ReapLatch<V, X>(s: State<V, X>, i: nat)
    requires SlotsInv(s) && LatchInv(s) && Can(s, Reap(i))
    ensures LatchInv(ReapItem(s, i))
  {
    var t := ReapItem(s, i);
    ApplyInv(s.group, ChildEnds(s.children[i].pc.end));
    if FailureUnseen(s) && !FailedChild(s.children[i]) {
      var j :| 0 <= j < |s.children| && FailedChild(s.children[j]);
      assert FailedChild(t.children[j]);
    }
  }

  lemma ReapInv<V, X>(s: State<V, X>, i: nat)
    requires Inv(s) && Can(s, Reap(i))
    ensures Inv(ReapItem(s, i))
  {
    ReapSlots(s, i);
    ReapLatch(s, i);
  }

  lemma ReapedMeansSeen<V, X>(s: State<V, X>)
    requires AllReaped(s)
    ensures !FailureUnseen(s)
  {
    forall i | 0 <= i < |s.children| ensures !FailedChild(s.children[i]) {
      assert Reaped(s.children[i]);
    }
  }

  lemma CallerInv<V, X>(s: State<V, X>)
    requires Inv(s) && Can(s, Caller)
    ensures Inv(CallerResumes(s))
  {
    ApplyInv(s.group, ParentWakes);
    ApplyInv(Wake(s.group), GroupFinishes);
    if AllReaped(s) { ReapedMeansSeen(s); }
    UnseenKept(s, CallerResumes(s));
    assert s.group.errors + s.group.bodyErrors == s.group.errors;
  }

  lemma StrayInv<V, X>(s: State<V, X>, i: nat)
    requires Inv(s) && Can(s, StrayCancel(i))
    ensures Inv(Next(s, StrayCancel(i)))
  {
    var t := Next(s, StrayCancel(i));
    CountUpdate(IsRunning, s.children, i, t.children[i]);
    UnseenKept(s, t);
  }

  lemma OutsideInv<V, X>(s: State<V, X>, e: Event<Error<X>>)
    requires Inv(s) && Can(s, Environment(e))
    ensures Inv(Next(s, Environment(e)))
  {
    ApplyInv(s.group, e);
    UnseenKept(s, Next(s, Environment(e)));
  }

  lemma StepInv<V, X>(s: State<V, X>, step: Step<V, X>)
    requires Inv(s) && Can(s, step)
    ensures Inv(Next(s, step))
  {
    match step
    case Start(i) => StartInv(s, i);
    case Cancel(i) => CancelInv(s, i);
    case Return(i, call) => ReturnInv(s, i, call);
    case Reap(i) => ReapInv(s, i);
    case Caller => CallerInv(s);
    case Environment(e) => OutsideInv(s, e);
    case StrayCancel(i) => StrayInv(s, i);
  }

  lemma GroupKept<V, X>(s: State<V, X>, i: nat, call: Call<V, X>)
    requires Can(s, Return(i, call))
    ensures ItemReturns(s, i, call).cfg == s.cfg && ItemReturns(s, i, call).group == s.group
  {
  }

  /** What a step leaves alone. */
  lemma StepKeeps<V, X>(s: State<V, X>, step: Step<V, X>)
    requires Can(s, step)
    ensures Next(s, step).cfg == s.cfg && Next(s, step).group.probe == s.group.probe
    ensures !step.Environment? ==> Next(s, step).group.outside == s.group.outside
  {
    match step
    case Return(i, call) => GroupKept(s, i, call);
    case _ =>
  }

  lemma {:induction false} ReachesInv<V, X>(s: State<V, X>, steps: seq<Step<V, X>>, t: State<V, X>)
    requires Inv(s) && Reaches(s, steps, t)
    ensures Inv(t) && t.cfg == s.cfg
    decreases |steps|
  {
    if steps == [] {
    } else {
      StepInv(s, steps[0]);
      StepKeeps(s, steps[0]);
      ReachesInv(Next(s, steps[0]), steps[1..], t);
    }
  }

  ghost predicate Reachable<V, X>(cfg: Config, caller: Task, steps: seq<Step<V, X>>, s: State<V, X>) {
    && (cfg.limit.Some? ==> 0 < cfg.limit.value) && !caller.done
    && Reaches(Init(cfg, caller), steps, s)
  }

  lemma ReachableInv<V, X>(cfg: Config, caller: Task, steps: seq<Step<V, X>>, s: State<V, X>)
    requires Reachable(cfg, caller, steps, s)
    ensures Inv(s) && s.cfg == cfg
  {
    InitInv<V, X>(cfg, caller);
    ReachesInv(Init(cfg, caller), steps, s);
  }

  // ---------------------------------------------------------------------------------
  // A normal return has no hole
  // ---------------------------------------------------------------------------------

  ghost predicate ReturnedNormally<V, X>(s: State<V, X>) {
    s.group.phase == Exited(Returned)
  }

  /**
   The group ignores children that end cancelled, so a slot can stay empty. Exactly the slots
   of tasks that were hit by a stray cancel before they had a slot of the semaphore do. In
   every other slot is what that slot's own call came to while nothing was stopping.
   */
  lemma FilledSlots<V, X>(cfg: Config, caller: Task, steps: seq<Step<V, X>>, s: State<V, X>, i: nat)
    requires Reachable(cfg, caller, steps, s) && ReturnedNormally(s) && i < cfg.n
    ensures |s.results| == |s.answers| == |s.children| == cfg.n
    ensures s.results[i].None? <==> s.children[i].stray
    ensures s.results[i].Some? ==>
              && s.answers[i].Some?
              && Possible(cfg.seconds, s.answers[i].value.call)
              && (s.results[i].value.Err? ==> cfg.collect)
              && s.results[i] == AsOutcome(Settle(cfg.owner, i, cfg.seconds, false, s.answers[i].value.call))
  {
    ReachableInv(cfg, caller, steps, s);
    assert Calm(s) && Reaped(s.children[i]);
  }

  /** What is blamed in a slot of a returned list, over all runs. */
  lemma SlotBlame<V, X>(cfg: Config, caller: Task, steps: seq<Step<V, X>>, s: State<V, X>, i: nat)
    requires Reachable(cfg, caller, steps, s) && ReturnedNormally(s) && i < cfg.n
    ensures |s.results| == |s.answers| == cfg.n
    ensures s.results[i].Some? ==>
              s.answers[i].Some? && Attributed(cfg.owner, i, cfg.seconds, s.answers[i].value.call, s.results[i].value)
  {
    FilledSlots(cfg, caller, steps, s, i);
    if s.results[i].Some? {
      SettledAttribution(cfg.owner, i, cfg.seconds, s.answers[i].value.call, s.results[i].value);
    }
  }

  ghost predicate NoStray<V, X>(steps: seq<Step<V, X>>) {
    steps != [] ==> !steps[0].StrayCancel? && NoStray(steps[1..])
  }

  ghost predicate Tidy<V, X>(s: State<V, X>) {
    forall i :: 0 <= i < |s.children| ==> !s.children[i].stray
  }

  lemma TidyReturn<V, X>(s: State<V, X>, i: nat, call: Call<V, X>)
    requires Tidy(s) && Can(s, Return(i, call))
    ensures Tidy(ItemReturns(s, i, call))
  {
  }

  lemma TidyStep<V, X>(s: State<V, X>, step: Step<V, X>)
    requires Tidy(s) && Can(s, step) && !step.StrayCancel?
    ensures Tidy(Next(s, step))
  {
    match step
    case Return(i, call) => TidyReturn(s, i, call);
    case _ =>
  }

  lemma {:induction false} StaysTidy<V, X>(s: State<V, X>, steps: seq<Step<V, X>>, t: State<V, X>)
    requires Tidy(s) && Reaches(s, steps, t) && NoStray(steps)
    ensures Tidy(t)
    decreases |steps|
  {
    if steps == [] {
    } else {
      TidyStep(s, steps[0]);
      StaysTidy(Next(s, steps[0]), steps[1..], t);
    }
  }

  /** Every slot holds an outcome. */
  predicate Full<V, X>(s: State<V, X>) {
    forall i :: 0 <= i < |s.results| ==> s.results[i].Some?
  }

  /**
   A normal return has no hole if and only if no task was hit before it had its slot, so it has
   none without stray cancels; and a list without a hole says of every call what it came to.
   */
  lemma NoHoles<V, X>(cfg: Config, caller: Task, steps: seq<Step<V, X>>, s: State<V, X>)
    requires Reachable(cfg, caller, steps, s) && ReturnedNormally(s)
    ensures |s.results| == |s.answers| == |s.children| == cfg.n
    ensures Full(s) <==> Tidy(s)
    ensures NoStray(steps) ==> Full(s)
    ensures Full(s) ==> forall i :: 0 <= i < cfg.n ==>
              && s.answers[i].Some?
              && Possible(cfg.seconds, s.answers[i].value.call)
              && (s.results[i].value.Err? ==> cfg.collect)
              && s.results[i] == AsOutcome(Settle(cfg.owner, i, cfg.seconds, false, s.answers[i].value.call))
  {
    ReachableInv(cfg, caller, steps, s);
    if NoStray(steps) { StaysTidy(Init(cfg, caller), steps, s); }
    forall i | 0 <= i < cfg.n
      ensures s.results[i].None? <==> s.children[i].stray
      ensures s.results[i].Some? ==>
                && s.answers[i].Some?
                && Possible(cfg.seconds, s.answers[i].value.call)
                && (s.results[i].value.Err? ==> cfg.collect)
                && s.results[i] == AsOutcome(Settle(cfg.owner, i, cfg.seconds, false, s.answers[i].value.call))
    {
      FilledSlots(cfg, caller, steps, s, i);
    }
  }

  /** Every normal return, of every run with or without stray cancels, has an outcome in every slot. */
  ghost predicate NeverHoled<V(!new), X(!new)>(strays: bool) {
    forall cfg, caller, steps: seq<Step<V, X>>, s: State<V, X> ::
      Reachable(cfg, caller, steps, s) && ReturnedNormally(s) && (strays || NoStray(steps)) ==>
        |s.results| == cfg.n && Full(s)
  }

  /** The one task of a call is cancelled before it runs, and the call returns an empty slot. */
  lemma OneHole<V, X>() returns (cfg: Config, caller: Task, steps: seq<Step<V, X>>, s: State<V, X>)
    ensures Reachable(cfg, caller, steps, s) && ReturnedNormally(s) && cfg.n == 1 && s.results == [None]
  {
    cfg, caller := Config(1, None, false, None, None), Task(0, false, 0, false);
    var s0 := Init<V, X>(cfg, caller);
    var s1 := Next(s0, StrayCancel(0));
    assert s1.Due(0);
    var s2 := Next(s1, Cancel(0));
    assert s2.children == [Child(Ended(CancelledEnd), false, true, false)];
    var s3 := Next(s2, Reap(0));
    assert AllReaped(s3);
    s := Next(s3, Caller);
    steps := [StrayCancel(0), Cancel(0), Reap(0), Caller];
    assert Reaches(s, [], s);
    assert steps[3..] == [Step<V, X>.Caller] && steps[3..][1..] == [] && Reaches(s3, steps[3..], s);
    assert steps[2..][1..] == steps[3..] && Reaches(s2, steps[2..], s);
    assert steps[1..][1..] == steps[2..] && Reaches(s1, steps[1..], s);
  }

  lemma NoHolesExactly<V(!new), X(!new)>(strays: bool)
    ensures NeverHoled<V, X>(strays) <==> !strays
  {
    if strays {
      var cfg, caller, steps, s := OneHole<V, X>();
      assert s.results[0].None?;
    } else {
      forall cfg, caller, steps: seq<Step<V, X>>, s: State<V, X>
        | Reachable(cfg, caller, steps, s) && ReturnedNormally(s) && NoStray(steps)
        ensures |s.results| == cfg.n && Full(s)
      {
        NoHoles(cfg, caller, steps, s);
      }
    }
  }

  lemma {:induction false} ProbeKept<V, X>(s: State<V, X>, steps: seq<Step<V, X>>, t: State<V, X>)
    requires Reaches(s, steps, t)
    ensures t.group.probe == s.group.probe
    decreases |steps|
  {
    if steps == [] {
    } else {
      StepKeeps(s, steps[0]);
      ProbeKept(Next(s, steps[0]), steps[1..], t);
    }
  }

  /** At most `limit` calls are in flight, at every suspension point. */
  lemma BoundedInFlight<V, X>(cfg: Config, caller: Task, steps: seq<Step<V, X>>, s: State<V, X>)
    requires Reachable(cfg, caller, steps, s) && cfg.limit.Some?
    ensures Count(IsRunning, s.children) <= cfg.limit.value
  {
    ReachableInv(cfg, caller, steps, s);
  }

  // ---------------------------------------------------------------------------------
  // The fail-fast latch
  // ---------------------------------------------------------------------------------

  predicate Broken<X>(c: Child<X>) { c.pc.Ended? && c.pc.end.Failed? }

  ghost predicate SomeFailure<V, X>(s: State<V, X>) {
    exists i :: 0 <= i < |s.children| && Broken(s.children[i])
  }

  /** What was not running is not running now. */
  ghost predicate NoneStarted<V, X>(s: State<V, X>, t: State<V, X>) {
    && |t.children| == |s.children|
    && forall i :: 0 <= i < |s.children| && t.children[i].pc.Running? ==> s.children[i].pc.Running?
  }

  lemma LatchedStep<V, X>(s: State<V, X>, step: Step<V, X>)
    requires s.failed && Can(s, step)
    ensures Next(s, step).failed && NoneStarted(s, Next(s, step))
  {
  }

  lemma {:induction false} LatchStays<V, X>(s: State<V, X>, steps: seq<Step<V, X>>, t: State<V, X>)
    requires s.failed && Reaches(s, steps, t)
    ensures t.failed && NoneStarted(s, t)
    decreases |steps|
  {
    if steps == [] {
    } else {
      LatchedStep(s, steps[0]);
      LatchStays(Next(s, steps[0]), steps[1..], t);
    }
  }

  /**
   After the first failure no further call begins, bounded or not: in every later state only
   such calls are running as were running when the child failed.
   */
  lemma FailFast<V, X>(s: State<V, X>, steps: seq<Step<V, X>>, t: State<V, X>)
    requires Inv(s) && SomeFailure(s) && Reaches(s, steps, t)
    ensures t.failed && NoneStarted(s, t)
  {
    LatchStays(s, steps, t);
  }

  /** A waiting task may start whenever fewer than `limit` calls are running, and only then. */
  lemma MayStartExactly<V, X>(cfg: Config, caller: Task, steps: seq<Step<V, X>>, s: State<V, X>, i: nat)
    requires Reachable(cfg, caller, steps, s) && s.group.phase.Exiting?
    requires i < |s.children| && s.children[i].pc.Waiting? && !s.Due(i)
    ensures Can(s, Start(i)) <==> cfg.limit.None? || Count(IsRunning, s.children) < cfg.limit.value
  {
    ReachableInv(cfg, caller, steps, s);
  }

  // ---------------------------------------------------------------------------------
  // Termination and progress
  // ---------------------------------------------------------------------------------

  function Weight<X>(c: Child<X>): nat {
    match c.pc
    case Waiting => 3
    case Running => 2
    case Ended(_) => if c.reaped then 0 else 1
  }

  function Measure<V, X>(s: State<V, X>): nat {
    if s.group.phase.Exited? then 0
    else 1 + Sum(Weight, s.children) + (if s.group.aborting then 0 else 3) + Bit(s.group.task.undelivered)
  }

  /** One child moves and the group stays as it is: the measure moves as the child's weight does. */
  lemma ChildMoves<V, X>(s: State<V, X>, t: State<V, X>, i: nat)
    requires s.group.phase.Exiting? && t.group == s.group && i < |s.children| == |t.children|
    requires t.children == s.children[i := t.children[i]]
    ensures Measure(t) == Measure(s) - Weight(s.children[i]) + Weight(t.children[i])
  {
    SumUpdate(Weight, s.children, i, t.children[i]);
  }

  lemma ReturnLowers<V, X>(s: State<V, X>, i: nat, call: Call<V, X>)
    requires Can(s, Return(i, call)) && !s.children[i].reaped
    ensures Measure(ItemReturns(s, i, call)) < Measure(s)
  {
    ChildMoves(s, ItemReturns(s, i, call), i);
  }

  lemma ReapLowers<V, X>(s: State<V, X>, i: nat)
    requires Can(s, Reap(i))
    ensures Measure(ReapItem(s, i)) < Measure(s)
  {
    SumUpdate(Weight, s.children, i, ReapItem(s, i).children[i]);
  }

  lemma GroupLowers<V, X>(s: State<V, X>, step: Step<V, X>)
    requires Can(s, step) && (step.Caller? || step.Environment?)
    ensures step.Caller? ==> Measure(Next(s, step)) < Measure(s)
    ensures Measure(Next(s, step)) <= Measure(s) + 1
  {
  }

  lemma StepLowers<V, X>(s: State<V, X>, step: Step<V, X>)
    requires SlotsInv(s) && Can(s, step)
    ensures OfTask(step) ==> Measure(Next(s, step)) < Measure(s)
    ensures Measure(Next(s, step)) <= Measure(s) + 1
  {
    match step
    case Start(i) => ChildMoves(s, StartItem(s, i), i);
    case Cancel(i) => ChildMoves(s, CancelItem(s, i), i);
    case Return(i, call) => ReturnLowers(s, i, call);
    case Reap(i) => ReapLowers(s, i);
    case Caller => GroupLowers(s, step);
    case Environment(_) => GroupLowers(s, step);
    case StrayCancel(i) => ChildMoves(s, Next(s, step), i);
  }

  lemma {:induction false} RunsEnd<V, X>(s: State<V, X>, steps: seq<Step<V, X>>, t: State<V, X>)
    requires Inv(s) && Reaches(s, steps, t)
    ensures 2 * Count(OfTask, steps) + Measure(t) <= Measure(s) + |steps|
    decreases |steps|
  {
    if steps == [] {
    } else {
      StepInv(s, steps[0]);
      StepLowers(s, steps[0]);
      RunsEnd(Next(s, steps[0]), steps[1..], t);
      CountFirst(OfTask, steps);
    }
  }

  ghost predicate Stuck<V(!new), X(!new)>(s: State<V, X>) {
    forall step :: Can(s, step) ==> !OfTask(step)
  }

  function AnyEnd<V, X>(): Call<V, X> { Call(ThrewTimeout, false, 0, 0) }

  lemma RunningMoves<V, X>(s: State<V, X>, i: nat) returns (step: Step<V, X>)
    requires Inv(s) && s.group.phase.Exiting? && i < |s.children| && s.children[i].pc.Running?
    ensures Can(s, step) && step == Return(i, AnyEnd())
  {
    CountUpdate(IsRunning, s.children, i, Child(Waiting, false, false, false));
    step := Return(i, AnyEnd());
  }

  lemma SomeoneMoves<V, X>(s: State<V, X>) returns (step: Step<V, X>)
    requires Inv(s) && s.group.phase.Exiting?
    ensures Can(s, step) && OfTask(step)
  {
    if i :| 0 <= i < |s.children| && !Reaped(s.children[i]) {
      match s.children[i].pc
      case Ended(_) => step := Reap(i);
      case Running => step := RunningMoves(s, i);
      case Waiting =>
        if s.Due(i) { step := Cancel(i); }
        else if s.SlotFree() { step := Start(i); }
        else {
          var j := CountWitness(IsRunning, s.children);
          step := RunningMoves(s, j);
        }
    } else {
      step := Caller;
    }
  }

  lemma {:induction false} SumConstant<T>(w: T -> nat, s: seq<T>, each: nat)
    requires forall i :: 0 <= i < |s| ==> w(s[i]) == each
    ensures Sum(w, s) == each * |s|
  {
    if s == [] {
    } else {
      SumConstant(w, s[..|s| - 1], each);
    }
  }

  /**
   `process` and a dispatch cannot hang, whatever the user's code does to its own task and
   outsiders to the caller, and the number of steps their tasks take is bounded.
   */
  lemma NoDeadlock<V(!new), X(!new)>(cfg: Config, caller: Task, steps: seq<Step<V, X>>, s: State<V, X>)
    requires Reachable(cfg, caller, steps, s)
    ensures Stuck(s) <==> s.group.phase.Exited?
    ensures Count(OfTask, steps) <= 3 * cfg.n + 5 + (|steps| - Count(OfTask, steps))
  {
    ReachableInv(cfg, caller, steps, s);
    if s.group.phase.Exiting? {
      var step := SomeoneMoves(s);
      assert Can(s, step) && OfTask(step);
    }
    var s0 := Init<V, X>(cfg, caller);
    InitInv<V, X>(cfg, caller);
    RunsEnd(s0, steps, s);
    SumConstant(Weight, s0.children, 3);
  }

  // ---------------------------------------------------------------------------------
  // Schedule independence
  // ---------------------------------------------------------------------------------

  /** The user's function returns `f` of the item; nobody touches the caller. */
  ghost predicate PureStep<V, X>(step: Step<V, X>, f: nat -> V) {
    match step
    case Return(i, call) => call.raw == Gave(f(i))
    case Environment(_) => false
    case StrayCancel(_) => false
    case _ => true
  }

  ghost predicate PureRun<V, X>(s: State<V, X>, steps: seq<Step<V, X>>, t: State<V, X>, f: nat -> V)
    decreases |steps|
  {
    if steps == [] then s == t
    else Can(s, steps[0]) && PureStep(steps[0], f) && PureRun(Next(s, steps[0]), steps[1..], t, f)
  }

  ghost predicate PureInv<V, X>(s: State<V, X>, f: nat -> V) {
    && Calm(s)
    && (forall i :: 0 <= i < |s.results| && s.results[i].Some? ==> s.results[i] == Some(Ok(f(i))))
  }

  lemma PureStepInv<V, X>(s: State<V, X>, step: Step<V, X>, f: nat -> V)
    requires Inv(s) && PureInv(s, f) && Can(s, step) && PureStep(step, f)
    ensures PureInv(Next(s, step), f)
  {
    match step
    case Return(i, call) =>
      assert Settle(s.cfg.owner, i, s.cfg.seconds, s.Stopping(), call) == Value(f(i));
    case _ =>
  }

  lemma {:induction false} PureRunInv<V, X>(s: State<V, X>, steps: seq<Step<V, X>>, t: State<V, X>, f: nat -> V)
    requires Inv(s) && PureInv(s, f) && PureRun(s, steps, t, f)
    ensures Inv(t) && PureInv(t, f) && Reaches(s, steps, t) && Count(OfTask, steps) == |steps|
    decreases |steps|
  {
    if steps == [] {
    } else {
      StepInv(s, steps[0]);
      PureStepInv(s, steps[0], f);
      PureRunInv(Next(s, steps[0]), steps[1..], t, f);
      CountFirst(OfTask, steps);
    }
  }

  /** Nobody from outside takes part in a pure run. */
  lemma {:induction false} PureRunQuiet<V, X>(s: State<V, X>, steps: seq<Step<V, X>>, t: State<V, X>, f: nat -> V)
    requires PureRun(s, steps, t, f)
    ensures t.group.outside == s.group.outside
    ensures forall k :: 0 <= k < |steps| ==> OfTask(steps[k])
    ensures NoStray(steps)
    decreases |steps|
  {
    if steps == [] {
    } else {
      StepKeeps(s, steps[0]);
      PureRunQuiet(Next(s, steps[0]), steps[1..], t, f);
      assert forall k :: 0 < k < |steps| ==> steps[k] == steps[1..][k - 1];
    }
  }

  // ---------------------------------------------------------------------------------
  // Collected errors
  // ---------------------------------------------------------------------------------

  /** Only the call's own tasks take steps. */
  ghost predicate Quiet<V, X>(steps: seq<Step<V, X>>) {
    steps != [] ==> OfTask(steps[0]) && Quiet(steps[1..])
  }

  lemma {:induction false} QuietNoStray<V, X>(steps: seq<Step<V, X>>)
    requires Quiet(steps)
    ensures NoStray(steps)
  {
    if steps == [] {
    } else {
      QuietNoStray(steps[1..]);
    }
  }

  lemma CollectStep<V, X>(s: State<V, X>, step: Step<V, X>)
    requires Inv(s) && Calm(s) && s.cfg.collect && Can(s, step) && OfTask(step)
    ensures Calm(Next(s, step))
  {
    match step
    case Return(i, call) => CancelledErrorExact(s.cfg.owner, i, s.cfg.seconds, s.Stopping(), call);
    case _ =>
  }

  lemma {:induction false} CollectRun<V, X>(s: State<V, X>, steps: seq<Step<V, X>>, t: State<V, X>)
    requires Inv(s) && Calm(s) && s.cfg.collect && Reaches(s, steps, t) && Quiet(steps)
    ensures Inv(t) && Calm(t)
    decreases |steps|
  {
    if steps == [] {
    } else {
      StepInv(s, steps[0]);
      StepKeeps(s, steps[0]);
      CollectStep(s, steps[0]);
      CollectRun(Next(s, steps[0]), steps[1..], t);
    }
  }

  /** With errors collected and nobody interfering, a call ends only by returning, whatever fails. */
  lemma CollectReturns<V, X>(cfg: Config, caller: Task, steps: seq<Step<V, X>>, s: State<V, X>)
    requires Reachable(cfg, caller, steps, s) && Quiet(steps) && cfg.collect && !caller.undelivered
    requires s.group.phase.Exited?
    ensures ReturnedNormally(s) && NoStray(steps)
  {
    InitInv<V, X>(cfg, caller);
    CollectRun(Init(cfg, caller), steps, s);
    QuietNoStray(steps);
  }

  ghost predicate PureStuck<V(!new), X(!new)>(s: State<V, X>, f: nat -> V) {
    forall step :: Can(s, step) ==> !PureStep(step, f)
  }

  function Mapped<V, X>(n: nat, f: nat -> V): seq<Option<Outcome<V, X>>> {
    seq(n, (i: nat) => Some(Ok(f(i))))
  }

  lemma PureReturns<V, X>(cfg: Config, caller: Task, steps: seq<Step<V, X>>, t: State<V, X>, f: nat -> V)
    requires Reachable(cfg, caller, steps, t) && PureRun(Init(cfg, caller), steps, t, f)
    requires t.group.phase.Exited? && PureInv(t, f)
    ensures ReturnedNormally(t) && t.results == Mapped(cfg.n, f) && t.group.task.cancelling == caller.cancelling
  {
    ReachableInv(cfg, caller, steps, t);
    PureRunQuiet(Init(cfg, caller), steps, t, f);
    NoHoles(cfg, caller, steps, t);
    ProbeKept(Init<V, X>(cfg, caller), steps, t);
  }

  /**
   For every limit and every schedule: the run ends within 3n + 5 steps, and where it
   cannot go on it has returned the function's value for each item, in input order, and left
   the caller's count alone.
   */
  lemma ComputesMap<V(!new), X(!new)>(cfg: Config, caller: Task, steps: seq<Step<V, X>>, t: State<V, X>, f: nat -> V)
    requires (cfg.limit.Some? ==> 0 < cfg.limit.value) && !caller.done && !caller.undelivered
    requires PureRun(Init(cfg, caller), steps, t, f)
    ensures |steps| <= 3 * cfg.n + 5
    ensures t.group.phase.Exited? ==>
              ReturnedNormally(t) && t.results == Mapped(cfg.n, f) && t.group.task.cancelling == caller.cancelling
    ensures PureStuck(t, f) <==> t.group.phase.Exited?
  {
    var s := Init<V, X>(cfg, caller);
    InitInv<V, X>(cfg, caller);
    PureRunInv(s, steps, t, f);
    NoDeadlock(cfg, caller, steps, t);
    if t.group.phase.Exited? {
      PureReturns(cfg, caller, steps, t, f);
    } else {
      var step := SomeoneMoves(t);
      if step.Return? { step := Return(step.i, Call(Gave(f(step.i)), false, 0, 0)); }
      assert Can(t, step) && PureStep(step, f);
    }
  }
}
