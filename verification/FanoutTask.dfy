/**
 `process` as the code has it, and the part of `dispatch_tool_calls` that runs the calls:
 an object that its tasks update in place, with the results in a buffer of fixed length.
 A method runs one task from its suspension point to the next, and is proved to be the
 step of that name on values.
 */
module FanoutTask {
  import opened Cancellation
  import opened Calls
  import opened FanoutModel
  import opened FanoutProofs
  import opened TaskGroups

  /** Giving the slot back last, as the code does, or first, as the step does, is the same. */
  lemma SlotsDoNotMatter<V, X>(s: State<V, X>, i: nat, verdict: Verdict<V, X>, inUse: nat)
    requires i < |s.children| && i < |s.results|
    ensures Conclude(s.(inUse := inUse), i, verdict) == Conclude(s, i, verdict).(inUse := inUse)
  {
  }

  class FanoutCall<V, X> {
    const cfg: Config
    const caller: CancelProbe
    const tg: TaskGroup<Error<X>>
    const results: array<Option<Outcome<V, X>>>
    var children: seq<Child<X>>
    var inUse: nat  // slots of the semaphore that are taken
    var failed: bool
    ghost var answers: seq<Option<Answer<V, X>>>

    ghost function Snapshot(): State<V, X>
      reads this, results, tg, tg.parent
    {
      State(cfg, children, results[..], inUse, failed, tg.Snapshot(), answers)
    }

    ghost predicate Valid() {
      tg.Valid() && caller.task == tg.parent && caller.Value() == tg.probe.Value()
    }

    /** Up to the first await, inside `__aexit__`: every task has been created by then. */
    constructor (cfg: Config, task: CallerTask)
      modifies task
      ensures Valid() && Snapshot() == Init(cfg, old(task.Snapshot())) && this.cfg == cfg
      ensures tg.parent == task && fresh(tg) && fresh(results)
    {
      this.cfg := cfg;
      results := new Option<Outcome<V, X>>[cfg.n](_ => None);
      inUse, failed := 0, false;
      answers := seq(cfg.n, _ => None);
      caller := new CancelProbe(task);
      tg := new TaskGroup<Error<X>>.Enter(task);
      children := seq(cfg.n, _ => Child(Waiting, false, false, false));
      new;
      tg.BeginExit(BodyReturned);
      assert results[..] == Init<V, X>(cfg, old(task.Snapshot())).results;
    }

    method Stopping() returns (b: bool)
      requires Valid()
      ensures b <==> Snapshot().Stopping()
    {
      if failed { return true; }
      b := caller.Cancelled();
    }

    /** The slot is taken: check the latch, then call the user's function. */
    method StartItem(i: nat)
      requires Valid() && i < |children|
      modifies this
      ensures Snapshot() == FanoutModel.StartItem(old(Snapshot()), i)
    {
      inUse := inUse + 1;
      if failed {
        inUse := inUse - 1;
        children := children[i := children[i].(pc := Ended(Finished))];
      } else {
        children := children[i := children[i].(pc := Running)];
      }
    }

    method CancelItem(i: nat)
      requires Valid() && i < |children|
      modifies this
      ensures Snapshot() == FanoutModel.CancelItem(old(Snapshot()), i)
    {
      var me := children[i];
      children := children[i := me.(pc := Ended(CancelledEnd), delivered := me.delivered || tg.aborting)];
    }

    method Store(i: nat, outcome: Outcome<V, X>)
      requires Valid() && i < |children| && i < results.Length
      modifies this, results
      ensures Snapshot() == FanoutModel.Store(old(Snapshot()), i, outcome)
    {
      results[i] := Some(outcome);
      children := children[i := children[i].(pc := Ended(Finished))];
    }

    method FailItem(i: nat, end: ChildEnd<Error<X>>)
      requires Valid() && i < |children|
      modifies this
      ensures Snapshot() == FanoutModel.FailItem(old(Snapshot()), i, end)
    {
      failed := true;
      children := children[i := children[i].(pc := Ended(end))];
    }

    method Conclude(i: nat, verdict: Verdict<V, X>)
      requires Valid() && i < |children| && i < results.Length
      modifies this, results
      ensures Snapshot() == FanoutModel.Conclude(old(Snapshot()), i, verdict)
    {
      match verdict {
        case Value(v) => Store(i, Ok(v));
        case Failure(e) => if cfg.collect { Store(i, Err(e)); } else { FailItem(i, Failed(e)); }
        case Teardown => FailItem(i, CancelledEnd);
      }
    }

    method AnswerArrives(i: nat, call: Call<V, X>) returns (stopping: bool)
      requires Valid() && i < |children| == |answers| && inUse > 0
      modifies this
      ensures stopping <==> old(Snapshot()).Stopping()
      ensures Snapshot() == FanoutModel.AnswerArrives(old(Snapshot()), i, call).(inUse := old(inUse))
    {
      stopping := Stopping();
      var me := children[i];
      children := children[i := me.(delivered := me.delivered || tg.aborting)];
      answers := answers[i := Some(Answer(call, stopping))];
    }

    method Release()
      requires Valid() && inUse > 0
      modifies this
      ensures Snapshot() == old(Snapshot()).(inUse := old(inUse) - 1)
    {
      inUse := inUse - 1;
    }

    /** The user's function came back; the slot is given back last. */
    method ItemReturns(i: nat, call: Call<V, X>)
      requires Valid() && i < |children| && results.Length == |children| == |answers|
      requires Possible(cfg.seconds, call) && inUse > 0
      modifies this, results
      ensures Snapshot() == FanoutModel.ItemReturns(old(Snapshot()), i, call)
    {
      var stopping := AnswerArrives(i, call);
      ghost var answered := Snapshot();
      var verdict := Settle(cfg.owner, i, cfg.seconds, stopping, call);
      Conclude(i, verdict);
      Release();
      SlotsDoNotMatter(answered, i, verdict, inUse);
    }

    method ReapItem(i: nat)
      requires Valid() && i < |children| && children[i].pc.Ended?
      modifies this, tg, tg.parent
      ensures Snapshot() == FanoutModel.ReapItem(old(Snapshot()), i)
    {
      children := children[i := children[i].(reaped := true)];
      tg.OnTaskDone(children[i].pc.end);
    }

    method CallerResumes()
      requires Valid()
      modifies this, tg, tg.parent
      ensures Snapshot() == FanoutModel.CallerResumes(old(Snapshot()))
    {
      tg.Resume();
      if forall i :: 0 <= i < |children| ==> Reaped(children[i]) {
        var exit := tg.EndExit();
      }
    }

    /** Any step that is possible may be taken, and does to the object what it does to its value. */
    method Step(step: FanoutModel.Step<V, X>, earlier: CancelProbe)
      requires Valid() && Can(Snapshot(), step)
      requires step.Environment? && step.event.EarlierRearm? ==>
                 earlier.task == tg.parent && step.event.earlier == earlier.Value()
      modifies this, results, tg, tg.parent
      ensures Snapshot() == Next(old(Snapshot()), step)
    {
      match step {
        case Start(i) => StartItem(i);
        case Cancel(i) => CancelItem(i);
        case Return(i, call) => ItemReturns(i, call);
        case Reap(i) => ReapItem(i);
        case Caller => CallerResumes();
        case Environment(e) => tg.OutsideEvent(e, earlier);
        case StrayCancel(i) => children := children[i := children[i].(stray := true)];
      }
    }

    /** `earlier[k]` is the probe of the re-arm that lands at step `k`, where one does. */
    ghost predicate ProbesFor(steps: seq<FanoutModel.Step<V, X>>, earlier: seq<CancelProbe>) {
      && |earlier| == |steps|
      && forall k :: 0 <= k < |steps| && steps[k].Environment? && steps[k].event.EarlierRearm? ==>
           earlier[k].task == tg.parent && steps[k].event.earlier == earlier[k].Value()
    }

    /** A run of the object is the run of its value, whatever the schedule. */
    method Run(steps: seq<FanoutModel.Step<V, X>>, earlier: seq<CancelProbe>, ghost end: State<V, X>)
      requires Valid() && Reaches(Snapshot(), steps, end) && ProbesFor(steps, earlier)
      modifies this, results, tg, tg.parent
      ensures Snapshot() == end
    {
      var k := 0;
      while k < |steps|
        invariant k <= |steps| && Reaches(Snapshot(), steps[k..], end)
      {
        assert steps[k..][0] == steps[k] && steps[k..][1..] == steps[k + 1..];
        Step(steps[k], earlier[k]);
        k := k + 1;
      }
    }
  }

  /**
   `process` with a function that returns `f` of each item and a caller that nobody
   cancels: whatever the limit and the schedule, it returns the values in input order, and
   leaves the caller as it was.
   */
  method ProcessAll<V(!new), X(!new)>(
    cfg: Config, task: CallerTask, steps: seq<FanoutModel.Step<V, X>>, earlier: seq<CancelProbe>,
    ghost f: nat -> V, ghost end: State<V, X>)
    returns (results: seq<Option<Outcome<V, X>>>)
    requires (cfg.limit.Some? ==> 0 < cfg.limit.value) && !task.done && !task.mustCancel
    requires |earlier| == |steps| && PureRun(Init(cfg, task.Snapshot()), steps, end, f)
    requires end.group.phase.Exited?
    modifies task
    ensures results == Mapped(cfg.n, f)
    ensures task.cancelling == old(task.cancelling)
  {
    ghost var s := Init<V, X>(cfg, task.Snapshot());
    ComputesMap(cfg, task.Snapshot(), steps, end, f);
    InitInv<V, X>(cfg, task.Snapshot());
    PureRunInv(s, steps, end, f);
    PureRunQuiet(s, steps, end, f);
    var call := new FanoutCall<V, X>(cfg, task);
    call.Run(steps, earlier, end);
    results := call.results[..];
  }
}
