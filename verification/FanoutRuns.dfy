/** What the state of a `process` or a dispatch records of its run, read off the steps alone. */
module FanoutRuns {
  import opened Cancellation
  import opened Calls
  import opened FanoutModel
  import opened FanoutProofs

  /** How the call of item `i` came back in the run, and whether the batch was stopping then. */
  ghost function AnswerIn<V, X>(s: State<V, X>, steps: seq<Step<V, X>>, i: nat): Option<Answer<V, X>>
    decreases |steps|
  {
    if steps == [] || !Can(s, steps[0]) then None
    else if steps[0].Return? && steps[0].i == i then Some(Answer(steps[0].call, s.Stopping()))
    else AnswerIn(Next(s, steps[0]), steps[1..], i)
  }

  lemma ReturnRecords<V, X>(s: State<V, X>, i: nat, call: Call<V, X>)
    requires Can(s, Return(i, call))
    ensures ItemReturns(s, i, call).answers == s.answers[i := Some(Answer(call, s.Stopping()))]
    ensures var t := ItemReturns(s, i, call); i < |t.children| && t.children[i].pc.Ended?
  {
  }

  lemma OtherRecords<V, X>(s: State<V, X>, step: Step<V, X>)
    requires Can(s, step) && !step.Return?
    ensures Next(s, step).answers == s.answers
  {
  }

  lemma EndedStep<V, X>(s: State<V, X>, step: Step<V, X>, i: nat)
    requires Can(s, step) && i < |s.children| && s.children[i].pc.Ended?
    ensures !(step.Return? && step.i == i)
    ensures i < |Next(s, step).children| && Next(s, step).children[i].pc.Ended?
  {
  }

  /** A task that has ended answers no more. */
  lemma {:induction false} EndedIsSilent<V, X>(s: State<V, X>, steps: seq<Step<V, X>>, t: State<V, X>, i: nat)
    requires Reaches(s, steps, t) && i < |s.children| && s.children[i].pc.Ended?
    ensures AnswerIn(s, steps, i).None?
    decreases |steps|
  {
    if steps == [] {
    } else {
      EndedStep(s, steps[0], i);
      EndedIsSilent(Next(s, steps[0]), steps[1..], t, i);
    }
  }

  lemma {:induction false} RunRecords<V, X>(s: State<V, X>, steps: seq<Step<V, X>>, t: State<V, X>, i: nat)
    requires Reaches(s, steps, t) && i < |s.answers|
    ensures |t.answers| == |s.answers|
    ensures t.answers[i] == if AnswerIn(s, steps, i).Some? then AnswerIn(s, steps, i) else s.answers[i]
    decreases |steps|
  {
    if steps == [] {
    } else {
      var s1 := Next(s, steps[0]);
      if steps[0].Return? { ReturnRecords(s, steps[0].i, steps[0].call); } else { OtherRecords(s, steps[0]); }
      RunRecords(s1, steps[1..], t, i);
      if steps[0].Return? && steps[0].i == i { EndedIsSilent(s1, steps[1..], t, i); }
    }
  }

  /** The answer recorded for an item is the one with which its own task came back in the run. */
  lemma AnswersTrue<V, X>(cfg: Config, caller: Task, steps: seq<Step<V, X>>, s: State<V, X>, i: nat)
    requires Reachable(cfg, caller, steps, s) && i < cfg.n
    ensures |s.answers| == cfg.n && s.answers[i] == AnswerIn(Init(cfg, caller), steps, i)
  {
    RunRecords(Init(cfg, caller), steps, s, i);
  }

  // ---------------------------------------------------------------------------------
  // The latch
  // ---------------------------------------------------------------------------------

  /** An item's failure propagates, or its call is torn down. */
  predicate CallFails<V, X>(s: State<V, X>, step: Step<V, X>)
    requires Can(s, step)
  {
    step.Return? &&
    var v := Settle(s.cfg.owner, step.i, s.cfg.seconds, s.Stopping(), step.call);
    v.Teardown? || (v.Failure? && !s.cfg.collect)
  }

  /** Some step of the run fails the batch. */
  ghost predicate HasFailed<V, X>(s: State<V, X>, steps: seq<Step<V, X>>)
    decreases |steps|
  {
    steps != [] && Can(s, steps[0]) && (CallFails(s, steps[0]) || HasFailed(Next(s, steps[0]), steps[1..]))
  }

  lemma ReturnLatches<V, X>(s: State<V, X>, i: nat, call: Call<V, X>)
    requires Can(s, Return(i, call))
    ensures ItemReturns(s, i, call).failed <==> s.failed || CallFails(s, Return(i, call))
  {
  }

  lemma StepLatches<V, X>(s: State<V, X>, step: Step<V, X>)
    requires Can(s, step)
    ensures Next(s, step).failed <==> s.failed || CallFails(s, step)
  {
    match step
    case Return(i, call) => ReturnLatches(s, i, call);
    case _ =>
  }

  lemma {:induction false} RunLatches<V, X>(s: State<V, X>, steps: seq<Step<V, X>>, t: State<V, X>)
    requires Reaches(s, steps, t)
    ensures t.failed <==> s.failed || HasFailed(s, steps)
    decreases |steps|
  {
    if steps == [] {
    } else {
      StepLatches(s, steps[0]);
      RunLatches(Next(s, steps[0]), steps[1..], t);
    }
  }

  /** The latch is set if and only if some call of the run failed the batch or was torn down. */
  lemma LatchExact<V, X>(cfg: Config, caller: Task, steps: seq<Step<V, X>>, s: State<V, X>)
    requires Reachable(cfg, caller, steps, s)
    ensures s.failed <==> HasFailed(Init(cfg, caller), steps)
  {
    RunLatches(Init(cfg, caller), steps, s);
  }
}
