/** A dispatch together with the objects its tools work on. */
module DispatchRuns {
  import opened Cancellation
  import opened Calls
  import opened FanoutModel
  import opened FanoutProofs
  import opened Dispatch
  import A = Arguments

  // The fan-out and the argument heap run side by side. A task that gets its slot deep-copies
  // its call's arguments and hands the copy to its tool; a tool's ending depends on nothing but
  // its name and what it was handed; and in between any code may change whatever it can reach.
  // What a dispatch returns is then settled when its calls are built.

  /** How a tool ends, by its name and the arguments it was handed. */
  type Tools = (string, A.Heap, A.Value) -> Raw<Value, Exception>

  ghost predicate LookAlike(h: A.Heap, v: A.Value, g: A.Heap, w: A.Value) {
    forall depth: nat :: A.Seen(h, v, depth) == A.Seen(g, w, depth)
  }

  /** Tools cannot tell arguments apart that look alike. Apart from that they may do anything, and fail. */
  ghost predicate Deterministic(tools: Tools) {
    forall name, h, v, g, w :: LookAlike(h, v, g, w) ==> tools(name, h, v) == tools(name, g, w)
  }

  /** The calls of a dispatch, and for each the place of its arguments among the calls built so far. */
  datatype Batch = Batch(calls: seq<ToolCall>, which: seq<nat>, tools: Tools)

  /** `begun[i]` is the invocation that call `i` began. */
  datatype Joint = Joint(fan: DispatchState, args: A.State, begun: seq<Option<nat>>)

  datatype JointStep =
    | Dispatched(step: DispatchStep, names: map<A.Ref, A.Ref>)  // names for the copy, where one is made
    | Elsewhere(code: A.Step)                                   // tools, other dispatches, and everybody else

  function Begin(b: Batch, cfg: Config, caller: Task, args: A.State): Joint {
    Joint(Init(cfg, caller), args, seq(cfg.n, _ => None))
  }

  predicate Begins(fan: DispatchState, step: DispatchStep) {
    step.Start? && !fan.failed
  }

  function HandedTo(b: Batch, name: string, start: A.Start): Raw<Value, Exception> {
    b.tools(name, start.heap, A.Object(start.root))
  }

  /** The call ended as its tool does on what it was handed; a deadline that fired was absorbed. */
  predicate EndsAsItsTool(b: Batch, j: Joint, i: nat, call: Call<Value, Exception>) {
    && i < |j.begun| && i < |b.calls| && j.begun[i].Some? && j.begun[i].value < |j.args.starts|
    && call.raw == HandedTo(b, b.calls[i].name, j.args.starts[j.begun[i].value])
    && (call.expired ==> call.raw.Gave? || call.raw.Threw?)
  }

  ghost predicate CanJoint(b: Batch, j: Joint, step: JointStep) {
    match step
    case Elsewhere(code) => A.Can(j.args, code)
    case Dispatched(s, names) =>
      && Can(j.fan, s)
      && (Begins(j.fan, s) ==>
            s.i < |b.which| && s.i < |j.begun| && A.Can(j.args, A.Invoke(b.which[s.i], names)))
      && (s.Return? ==> EndsAsItsTool(b, j, s.i, s.call))
  }

  ghost function NextJoint(b: Batch, j: Joint, step: JointStep): Joint
    requires CanJoint(b, j, step)
  {
    match step
    case Elsewhere(code) => j.(args := A.Next(j.args, code))
    case Dispatched(s, names) =>
      var fan := Next(j.fan, s);
      if Begins(j.fan, s)
      then Joint(fan, A.Next(j.args, A.Invoke(b.which[s.i], names)), j.begun[s.i := Some(|j.args.starts|)])
      else j.(fan := fan)
  }

  ghost predicate JointReaches(b: Batch, j: Joint, steps: seq<JointStep>, k: Joint)
    decreases |steps|
  {
    if steps == [] then j == k
    else CanJoint(b, j, steps[0]) && JointReaches(b, NextJoint(b, j, steps[0]), steps[1..], k)
  }

  // ---------------------------------------------------------------------------------
  // The two machines in one run
  // ---------------------------------------------------------------------------------

  /** The steps of the dispatch itself. */
  function OwnSteps(steps: seq<JointStep>): seq<DispatchStep> {
    if steps == [] then []
    else (if steps[0].Dispatched? then [steps[0].step] else []) + OwnSteps(steps[1..])
  }

  lemma {:induction false} OwnRun(b: Batch, j: Joint, steps: seq<JointStep>, k: Joint)
    requires JointReaches(b, j, steps, k)
    ensures Reaches(j.fan, OwnSteps(steps), k.fan)
    decreases |steps|
  {
    if steps == [] {
    } else {
      OwnRun(b, NextJoint(b, j, steps[0]), steps[1..], k);
      if steps[0].Dispatched? {
        assert OwnSteps(steps)[0] == steps[0].step && OwnSteps(steps)[1..] == OwnSteps(steps[1..]);
      } else {
        assert OwnSteps(steps) == OwnSteps(steps[1..]);
      }
    }
  }

  /** Every call in progress or answered began an invocation of its own arguments, and its answer is its tool's. */
  ghost predicate Matched(b: Batch, built: seq<A.Call>, j: Joint) {
    && A.Inv(j.args) && built <= j.args.calls
    && |b.calls| == |b.which| == |j.begun| == |j.fan.children| == |j.fan.answers|
    && (forall i :: 0 <= i < |b.which| ==> b.which[i] < |built|)
    && (forall i :: 0 <= i < |j.begun| && j.begun[i].Some? ==>
          j.begun[i].value < |j.args.starts| && j.args.starts[j.begun[i].value].call == b.which[i])
    && (forall i :: 0 <= i < |j.begun| && j.fan.children[i].pc.Running? ==> j.begun[i].Some?)
    && (forall i :: 0 <= i < |j.begun| && j.fan.children[i].pc.Waiting? ==> j.fan.answers[i].None?)
    && (forall i :: 0 <= i < |j.begun| && j.fan.answers[i].Some? ==>
          EndsAsItsTool(b, j, i, j.fan.answers[i].value.call))
  }

  /** More calls and more invocations change nothing about these. */
  lemma StaysMatched(b: Batch, built: seq<A.Call>, j: Joint, args: A.State)
    requires Matched(b, built, j) && A.Inv(args) && j.args.calls <= args.calls && j.args.starts <= args.starts
    ensures Matched(b, built, j.(args := args))
  {
    assert forall k :: 0 <= k < |j.args.starts| ==> args.starts[k] == j.args.starts[k];
  }

  lemma CodeMatched(b: Batch, built: seq<A.Call>, j: Joint, code: A.Step)
    requires Matched(b, built, j) && A.Can(j.args, code)
    ensures Matched(b, built, j.(args := A.Next(j.args, code)))
  {
    A.StepInv(j.args, code);
    A.RecordsGrow(j.args, code);
    StaysMatched(b, built, j, A.Next(j.args, code));
  }

  lemma BeginMatched(b: Batch, built: seq<A.Call>, j: Joint, i: nat, names: map<A.Ref, A.Ref>)
    requires Matched(b, built, j) && CanJoint(b, j, Dispatched(Start(i), names)) && !j.fan.failed
    ensures Matched(b, built, NextJoint(b, j, Dispatched(Start(i), names)))
  {
    var code := A.Invoke(b.which[i], names);
    CodeMatched(b, built, j, code);
    var k := NextJoint(b, j, Dispatched(Start(i), names));
    assert k.args.starts[|j.args.starts|].call == b.which[i];
    assert j.fan.answers[i].None?;
  }

  /** Only the one task changes, and it has ended. */
  lemma ReturnLeaves(fan: DispatchState, i: nat, call: Call<Value, Exception>)
    requires Can(fan, Return(i, call))
    ensures var next := ItemReturns(fan, i, call);
            && |next.children| == |fan.children| == |next.answers|
            && next.answers[i].Some? && next.answers[i].value.call == call && next.children[i].pc.Ended?
            && forall k :: 0 <= k < |fan.children| && k != i ==>
                 next.children[k] == fan.children[k] && next.answers[k] == fan.answers[k]
  {
  }

  lemma ReturnMatched(
    b: Batch, built: seq<A.Call>, j: Joint, i: nat, call: Call<Value, Exception>, names: map<A.Ref, A.Ref>)
    requires Matched(b, built, j) && CanJoint(b, j, Dispatched(Return(i, call), names))
    ensures Matched(b, built, NextJoint(b, j, Dispatched(Return(i, call), names)))
  {
    ReturnLeaves(j.fan, i, call);
  }

  lemma OwnStepMatched(b: Batch, built: seq<A.Call>, j: Joint, step: DispatchStep, names: map<A.Ref, A.Ref>)
    requires Matched(b, built, j) && CanJoint(b, j, Dispatched(step, names)) && !Begins(j.fan, step)
    ensures Matched(b, built, NextJoint(b, j, Dispatched(step, names)))
  {
    match step
    case Return(i, call) => ReturnMatched(b, built, j, i, call, names);
    case _ =>
  }

  lemma {:induction false} RunMatched(b: Batch, built: seq<A.Call>, j: Joint, steps: seq<JointStep>, k: Joint)
    requires Matched(b, built, j) && JointReaches(b, j, steps, k)
    ensures Matched(b, built, k)
    decreases |steps|
  {
    if steps == [] {
    } else {
      match steps[0] {
        case Elsewhere(code) => CodeMatched(b, built, j, code);
        case Dispatched(s, names) =>
          if Begins(j.fan, s) { BeginMatched(b, built, j, s.i, names); }
          else { OwnStepMatched(b, built, j, s, names); }
      }
      RunMatched(b, built, NextJoint(b, j, steps[0]), steps[1..], k);
    }
  }

  // ---------------------------------------------------------------------------------
  // The heap never holds a dispatch up
  // ---------------------------------------------------------------------------------

  lemma {:induction false} Above(refs: set<A.Ref>) returns (bound: nat)
    ensures forall r :: r in refs ==> r < bound
    decreases |refs|
  {
    if refs == {} {
      bound := 0;
    } else {
      var r :| r in refs;
      var rest := Above(refs - {r});
      assert forall q :: q in refs ==> q == r || q in refs - {r};
      bound := if r < rest then rest else r + 1;
    }
  }

  /** Whatever a task of the dispatch can do next, it can do together with the copy it makes. */
  lemma NotHeldUp(b: Batch, built: seq<A.Call>, j: Joint, step: DispatchStep) returns (names: map<A.Ref, A.Ref>)
    requires Matched(b, built, j) && Can(j.fan, step) && !step.Return?
    ensures CanJoint(b, j, Dispatched(step, names))
  {
    names := map[];
    if Begins(j.fan, step) {
      var call := j.args.calls[b.which[step.i]];
      assert A.CallOk(j.args, call);
      var bound := Above(j.args.heap.Keys);
      names := map r | r in call.region :: r + bound;
    }
  }

  /** And a call in progress can always end as its tool does. */
  lemma AnswerNotHeldUp(b: Batch, built: seq<A.Call>, j: Joint, i: nat) returns (call: Call<Value, Exception>)
    requires Matched(b, built, j) && Inv(j.fan) && j.fan.group.phase.Exiting?
    requires i < |j.fan.children| && j.fan.children[i].pc.Running?
    ensures CanJoint(b, j, Dispatched(Return(i, call), map[]))
  {
    call := Call(HandedTo(b, b.calls[i].name, j.args.starts[j.begun[i].value]), false, 0, 0);
    var step := RunningMoves(j.fan, i);
  }

  // ---------------------------------------------------------------------------------
  // What comes out
  // ---------------------------------------------------------------------------------

  /** How call `i` ends, settled when it was built. */
  function Settled(b: Batch, built: seq<A.Call>, i: nat): Raw<Value, Exception>
    requires i < |b.calls| == |b.which| && b.which[i] < |built|
  {
    var c := built[b.which[i]];
    b.tools(b.calls[i].name, c.builtIn, A.Object(c.builtFrom))
  }

  /** A result that no deadline, count or owner has a part in. */
  function ResultOf(call: ToolCall, i: nat, raw: Raw<Value, Exception>): Option<ToolResult> {
    AsResult(call, AsOutcome(Settle(None, i, None, false, Call(raw, false, 0, 0))))
  }

  lemma AbsorbedDeadline(owner: Option<nat>, i: nat, seconds: Option<real>, call: Call<Value, Exception>)
    requires Possible(seconds, call) && (call.expired ==> call.raw.Gave? || call.raw.Threw?)
    ensures Settle(owner, i, seconds, false, call) == Settle(None, i, None, false, Call(call.raw, false, 0, 0))
  {
  }

  /** A joint run of a dispatch on arguments that are all built. */
  ghost predicate JointRun(b: Batch, cfg: Config, caller: Task, args: A.State, steps: seq<JointStep>, j: Joint) {
    && |b.calls| == |b.which| == cfg.n && (cfg.limit.Some? ==> 0 < cfg.limit.value) && !caller.done
    && A.Inv(args) && (forall i :: 0 <= i < |b.which| ==> b.which[i] < |args.calls|)
    && JointReaches(b, Begin(b, cfg, caller, args), steps, j)
  }

  lemma JointRunMatched(b: Batch, cfg: Config, caller: Task, args: A.State, steps: seq<JointStep>, j: Joint)
    requires JointRun(b, cfg, caller, args, steps, j)
    ensures Matched(b, args.calls, j) && Reachable(cfg, caller, OwnSteps(steps), j.fan)
  {
    RunMatched(b, args.calls, Begin(b, cfg, caller, args), steps, j);
    OwnRun(b, Begin(b, cfg, caller, args), steps, j);
  }

  /** Isolation at work: the tool was handed what looks like what the call was built from. */
  lemma AnswerSettled(b: Batch, built: seq<A.Call>, j: Joint, i: nat)
    requires Deterministic(b.tools) && Matched(b, built, j) && i < |b.calls| && j.fan.answers[i].Some?
    ensures j.fan.answers[i].value.call.raw == Settled(b, built, i)
  {
    var call := j.fan.answers[i].value.call;
    assert EndsAsItsTool(b, j, i, call);
    var start := j.args.starts[j.begun[i].value];
    assert A.StartOk(j.args, start);
    var c := j.args.calls[start.call];
    assert c == built[b.which[i]];
    assert LookAlike(start.heap, A.Object(start.root), c.builtIn, A.Object(c.builtFrom));
  }

  /**
   With deterministic tools, a dispatch that returns one result per call has for each call the
   result that its tool comes to on the arguments the call was built from. Tools may mutate
   what they are handed, calls may share one object, and any code may run in between.
   */
  lemma DispatchComputes(b: Batch, cfg: Config, caller: Task, args: A.State, steps: seq<JointStep>, j: Joint)
    requires Deterministic(b.tools) && JointRun(b, cfg, caller, args, steps, j) && ReturnedNormally(j.fan)
    ensures |j.fan.results| == cfg.n
    ensures var out := Present(Slots(b.calls, j.fan));
            && (NoStray(OwnSteps(steps)) ==> |out| == cfg.n)
            && (|out| == cfg.n ==> forall i :: 0 <= i < cfg.n ==>
                  Some(out[i]) == ResultOf(b.calls[i], i, Settled(b, args.calls, i)))
  {
    JointRunMatched(b, cfg, caller, args, steps, j);
    NoHoles(cfg, caller, OwnSteps(steps), j.fan);
    DispatchReturns(b.calls, cfg, caller, OwnSteps(steps), j.fan);
    var slots := Slots(b.calls, j.fan);
    PresentShort(slots);
    if |Present(slots)| == cfg.n {
      PresentAll(slots);
      assert Full(j.fan);
      forall i | 0 <= i < cfg.n ensures slots[i] == ResultOf(b.calls[i], i, Settled(b, args.calls, i)) {
        AnswerSettled(b, args.calls, j, i);
        AbsorbedDeadline(cfg.owner, i, cfg.seconds, j.fan.answers[i].value.call);
      }
    }
  }

  /** What resolving puts in the place of an unregistered name: a stub that raises. */
  function WithStubs(tools: Tools, registered: set<string>): Tools {
    (name, h, v) => if name in registered then tools(name, h, v) else Threw(ToolNotFound(name))
  }

  /** A call of an unregistered name ends as a failed result that says so, in its own place. */
  lemma UnknownToolReported(
    b: Batch, tools: Tools, registered: set<string>, cfg: Config, caller: Task, args: A.State, steps: seq<JointStep>,
    j: Joint, i: nat)
    requires b.tools == WithStubs(tools, registered) && JointRun(b, cfg, caller, args, steps, j)
    requires ReturnedNormally(j.fan) && i < cfg.n && b.calls[i].name !in registered
    ensures |j.fan.results| == cfg.n
    ensures var out, call := Present(Slots(b.calls, j.fan)), b.calls[i];
            |out| == cfg.n ==> out[i] == ToolResult(call.id, call.name, false, None, Some(ToolNotFound(call.name)))
  {
    JointRunMatched(b, cfg, caller, args, steps, j);
    DispatchReturns(b.calls, cfg, caller, OwnSteps(steps), j.fan);
    if |Present(Slots(b.calls, j.fan))| == cfg.n {
      var call := j.fan.answers[i].value.call;
      assert EndsAsItsTool(b, j, i, call);
      assert call.raw == Threw(ToolNotFound(b.calls[i].name));
    }
  }

  /** The same calls, built from objects that look alike, in whatever heaps. */
  ghost predicate SameRequest(b1: Batch, built1: seq<A.Call>, b2: Batch, built2: seq<A.Call>) {
    && b1.calls == b2.calls && b1.tools == b2.tools
    && |b1.calls| == |b1.which| == |b2.which|
    && forall i :: 0 <= i < |b1.calls| ==>
         && b1.which[i] < |built1| && b2.which[i] < |built2|
         && var c1, c2 := built1[b1.which[i]], built2[b2.which[i]];
            LookAlike(c1.builtIn, A.Object(c1.builtFrom), c2.builtIn, A.Object(c2.builtFrom))
  }

  /**
   For tools deterministic in their arguments, two dispatches of the same request that return
   one result per call return the same list: whatever their concurrency, deadlines, schedules
   and callers, whatever the tools do to the objects they are handed, and with errors among the
   results or not. Without stray cancels every dispatch that returns has one result per call.
   */
  lemma ResultsIndependentOfConcurrency(
    b1: Batch, cfg1: Config, caller1: Task, args1: A.State, steps1: seq<JointStep>, j1: Joint,
    b2: Batch, cfg2: Config, caller2: Task, args2: A.State, steps2: seq<JointStep>, j2: Joint)
    requires Deterministic(b1.tools) && SameRequest(b1, args1.calls, b2, args2.calls)
    requires JointRun(b1, cfg1, caller1, args1, steps1, j1) && ReturnedNormally(j1.fan)
    requires JointRun(b2, cfg2, caller2, args2, steps2, j2) && ReturnedNormally(j2.fan)
    ensures |j1.fan.results| == |j2.fan.results| == |b1.calls|
    ensures var out1, out2 := Present(Slots(b1.calls, j1.fan)), Present(Slots(b2.calls, j2.fan));
            && (|out1| == |out2| == |b1.calls| ==> out1 == out2)
            && (NoStray(OwnSteps(steps1)) ==> |out1| == |b1.calls|)
            && (NoStray(OwnSteps(steps2)) ==> |out2| == |b1.calls|)
  {
    DispatchComputes(b1, cfg1, caller1, args1, steps1, j1);
    DispatchComputes(b2, cfg2, caller2, args2, steps2, j2);
    var out1, out2 := Present(Slots(b1.calls, j1.fan)), Present(Slots(b2.calls, j2.fan));
    forall i | 0 <= i < |b1.calls| && |out1| == |out2| == |b1.calls| ensures out1[i] == out2[i] {
      assert Settled(b1, args1.calls, i) == Settled(b2, args2.calls, i);
      assert Some(out1[i]) == ResultOf(b1.calls[i], i, Settled(b1, args1.calls, i));
      assert Some(out2[i]) == ResultOf(b2.calls[i], i, Settled(b2, args2.calls, i));
    }
  }

  /** Where errors are collected and nobody interferes, they need not be known to return: they do. */
  lemma CollectingDispatchesAgree(
    b1: Batch, cfg1: Config, caller1: Task, args1: A.State, steps1: seq<JointStep>, j1: Joint,
    b2: Batch, cfg2: Config, caller2: Task, args2: A.State, steps2: seq<JointStep>, j2: Joint)
    requires Deterministic(b1.tools) && SameRequest(b1, args1.calls, b2, args2.calls)
    requires JointRun(b1, cfg1, caller1, args1, steps1, j1) && j1.fan.group.phase.Exited? && Quiet(OwnSteps(steps1))
    requires JointRun(b2, cfg2, caller2, args2, steps2, j2) && j2.fan.group.phase.Exited? && Quiet(OwnSteps(steps2))
    requires cfg1.collect && cfg2.collect && !caller1.undelivered && !caller2.undelivered
    ensures |j1.fan.results| == |j2.fan.results| == |b1.calls|
    ensures Present(Slots(b1.calls, j1.fan)) == Present(Slots(b2.calls, j2.fan))
  {
    JointRunMatched(b1, cfg1, caller1, args1, steps1, j1);
    JointRunMatched(b2, cfg2, caller2, args2, steps2, j2);
    CollectReturns(cfg1, caller1, OwnSteps(steps1), j1.fan);
    CollectReturns(cfg2, caller2, OwnSteps(steps2), j2.fan);
    ResultsIndependentOfConcurrency(b1, cfg1, caller1, args1, steps1, j1, b2, cfg2, caller2, args2, steps2, j2);
  }
}
