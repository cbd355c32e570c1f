/**
 `process`, and the fan-out inside `dispatch_tool_calls`: one task per item, a counting
 semaphore that may be absent, a fail-fast latch, and results addressed by index.

 As in `stream`, a step takes one task from its suspension point to the next, and a
 child's single cancel is due while the group is aborting and has not reached it.
 */
module FanoutModel {
  import opened Cancellation
  import opened Calls

  /** `owner` marks the deadline errors of a dispatch; `process` has none. */
  datatype Config = Config(n: nat, limit: Option<nat>, collect: bool, seconds: Option<real>, owner: Option<nat>)

  datatype Pc<+X> =
    | Waiting   // created, or waiting for a slot
    | Running   // awaiting the user's function
    | Ended(end: ChildEnd<Error<X>>)

  /**
   `delivered` says that the group's cancel has been thrown into the task, and `stray` that
   somebody else cancelled the task before it had a slot.
   */
  datatype Child<+X> = Child(pc: Pc<X>, delivered: bool, stray: bool, reaped: bool)

  /** `answers` is history: how each call came back. */
  datatype State<+V, +X> = State(
    cfg: Config,
    children: seq<Child<X>>,
    results: seq<Option<Outcome<V, X>>>,
    inUse: nat,
    failed: bool,
    group: Group<Error<X>>,
    answers: seq<Option<Answer<V, X>>>)
  {
    predicate Stopping() { failed || group.probe.Cancelled(group.task) }

    predicate SlotFree() { cfg.limit.None? || inUse < cfg.limit.value }

    predicate Due(i: nat)
      requires i < |children|
    {
      (group.aborting && !children[i].delivered) || children[i].stray
    }
  }

  function Init<V, X>(cfg: Config, caller: Task): State<V, X> {
    State(cfg,
          seq(cfg.n, _ => Child(Waiting, false, false, false)),
          seq(cfg.n, _ => None),
          0, false, BodyDone(Enter(caller), BodyReturned),
          seq(cfg.n, _ => None))
  }

  function SetPc<V, X>(s: State<V, X>, i: nat, pc: Pc<X>): State<V, X>
    requires i < |s.children|
  {
    s.(children := s.children[i := s.children[i].(pc := pc)])
  }

  /** A slot is free: call the user's function, unless the batch has failed meanwhile. */
  function StartItem<V, X>(s: State<V, X>, i: nat): State<V, X>
    requires i < |s.children|
  {
    if s.failed then SetPc(s, i, Ended(Finished))
    else SetPc(s.(inUse := s.inUse + 1), i, Running)
  }

  /** A cancel is thrown before the item got a slot. */
  function CancelItem<V, X>(s: State<V, X>, i: nat): State<V, X>
    requires i < |s.children|
  {
    var me := s.children[i];
    s.(children := s.children[i := me.(pc := Ended(CancelledEnd), delivered := me.delivered || s.group.aborting)])
  }

  function Store<V, X>(s: State<V, X>, i: nat, outcome: Outcome<V, X>): State<V, X>
    requires i < |s.children| && i < |s.results|
  {
    SetPc(s.(results := s.results[i := Some(outcome)]), i, Ended(Finished))
  }

  /** The latch is set before the slot is given back. */
  function FailItem<V, X>(s: State<V, X>, i: nat, end: ChildEnd<Error<X>>): State<V, X>
    requires i < |s.children|
  {
    SetPc(s.(failed := true), i, Ended(end))
  }

  function Conclude<V, X>(s: State<V, X>, i: nat, verdict: Verdict<V, X>): State<V, X>
    requires i < |s.children| && i < |s.results|
  {
    match verdict
    case Value(v) => Store(s, i, Ok(v))
    case Failure(e) => if s.cfg.collect then Store(s, i, Err(e)) else FailItem(s, i, Failed(e))
    case Teardown => FailItem(s, i, CancelledEnd)
  }

  /** The call is over: any cancel that was due has reached the user's function by now. */
  function AnswerArrives<V, X>(s: State<V, X>, i: nat, call: Call<V, X>): State<V, X>
    requires i < |s.children| == |s.answers| && s.inUse > 0
  {
    var me := s.children[i];
    s.(inUse := s.inUse - 1,
       answers := s.answers[i := Some(Answer(call, s.Stopping()))],
       children := s.children[i := me.(delivered := me.delivered || s.group.aborting)])
  }

  function ItemReturns<V, X>(s: State<V, X>, i: nat, call: Call<V, X>): State<V, X>
    requires i < |s.children| && |s.results| == |s.children| == |s.answers|
    requires Possible(s.cfg.seconds, call) && s.inUse > 0
  {
    Conclude(AnswerArrives(s, i, call), i, Settle(s.cfg.owner, i, s.cfg.seconds, s.Stopping(), call))
  }

  predicate Reaped<X>(c: Child<X>) { c.reaped }

  predicate AllReaped<V, X>(s: State<V, X>) {
    forall i :: 0 <= i < |s.children| ==> Reaped(s.children[i])
  }

  function ReapItem<V, X>(s: State<V, X>, i: nat): State<V, X>
    requires i < |s.children| && s.children[i].pc.Ended?
  {
    var me := s.children[i];
    s.(children := s.children[i := me.(reaped := true)], group := ChildDone(s.group, me.pc.end))
  }

  function CallerResumes<V, X>(s: State<V, X>): State<V, X> {
    var g := Wake(s.group);
    s.(group := if AllReaped(s) then Finish(g) else g)
  }

  datatype Step<+V, +X> =
    | Start(i: nat)
    | Cancel(i: nat)
    | Return(i: nat, call: Call<V, X>)
    | Reap(i: nat)
    | Caller
    | Environment(event: Event<Error<X>>)
    // A request made while the task is in user code is part of what that code does.
    | StrayCancel(i: nat)

  predicate Can<V, X>(s: State<V, X>, step: Step<V, X>) {
    && s.group.phase.Exiting?
    && |s.results| == |s.children| == |s.answers|
    && match step
       case Start(i) => i < |s.children| && s.children[i].pc.Waiting? && !s.Due(i) && s.SlotFree()
       case Cancel(i) => i < |s.children| && s.children[i].pc.Waiting? && s.Due(i)
       case Return(i, call) =>
         i < |s.children| && s.children[i].pc.Running? && Possible(s.cfg.seconds, call) && s.inUse > 0
       case Reap(i) => i < |s.children| && s.children[i].pc.Ended? && !s.children[i].reaped
       case Caller => s.group.task.undelivered || AllReaped(s)
       case Environment(e) => IsOutside(e)
       case StrayCancel(i) => i < |s.children| && s.children[i].pc.Waiting?
  }

  function Next<V, X>(s: State<V, X>, step: Step<V, X>): State<V, X>
    requires Can(s, step)
  {
    match step
    case Start(i) => StartItem(s, i)
    case Cancel(i) => CancelItem(s, i)
    case Return(i, call) => ItemReturns(s, i, call)
    case Reap(i) => ReapItem(s, i)
    case Caller => CallerResumes(s)
    case Environment(e) => s.(group := Apply(s.group, e))
    case StrayCancel(i) => s.(children := s.children[i := s.children[i].(stray := true)])
  }

  /** A step of one of the call's own tasks, as against what outsiders do. */
  predicate OfTask<V, X>(step: Step<V, X>) { !step.Environment? && !step.StrayCancel? }

  ghost predicate Reaches<V, X>(s: State<V, X>, steps: seq<Step<V, X>>, t: State<V, X>)
    decreases |steps|
  {
    if steps == [] then s == t
    else Can(s, steps[0]) && Reaches(Next(s, steps[0]), steps[1..], t)
  }
}
