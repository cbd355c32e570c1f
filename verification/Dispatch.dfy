/**
 `dispatch_tool_calls`: resolving names, running the calls on the fan-out, and turning
 what comes out into results or into one exception.
 */
module Dispatch {
  import opened Cancellation
  import opened Calls
  import opened FanoutModel
  import opened FanoutErrors
  import opened FanoutProofs

  /** What a tool returns. */
  type Value(==, !new)

  datatype Exception =
    | FromTool(tag: string)
    | ToolNotFound(name: string)
    | ToolTimeout                                          // a TimeoutError of the tool's own
    | Timeout(owner: nat, index: nat, seconds: real)       // PipelineTimeoutError, marked by its dispatch
    | StrayError(index: nat)                              // PipelineError for a stray CancelledError
    | Wrapped(cause: Exception)                            // PipelineError from the group's first error

  datatype ToolCall = ToolCall(id: string, name: string)

  datatype ToolResult = ToolResult(id: string, name: string, ok: bool, value: Option<Value>, error: Option<Exception>)

  type DispatchState = State<Value, Exception>
  type DispatchStep = Step<Value, Exception>

  // ---------------------------------------------------------------------------------
  // The registry
  // ---------------------------------------------------------------------------------

  /** Names in the order of registration, each once, with their tools. */
  class ToolRegistry<Fn> {
    var tools: seq<(string, Fn)>

    ghost predicate Valid()
      reads this
    {
      forall i, j :: 0 <= i < j < |tools| ==> tools[i].0 != tools[j].0
    }

    ghost function Bound(): set<string>
      reads this
    {
      set i | 0 <= i < |tools| :: tools[i].0
    }

    constructor ()
      ensures Valid() && tools == []
    {
      tools := [];
    }

    /** A name is registered once; an empty or a taken name is refused and changes nothing. */
    method Register(name: string, fn: Fn) returns (ok: bool)
      requires Valid()
      modifies this
      ensures Valid()
      ensures ok <==> name != "" && name !in old(Bound())
      ensures tools == if ok then old(tools) + [(name, fn)] else old(tools)
    {
      if name == "" { return false; }
      var found := Get(name);
      if found.Some? { return false; }
      tools := tools + [(name, fn)];
      ok := true;
    }

    method Get(name: string) returns (found: Option<Fn>)
      requires Valid()
      ensures found.Some? <==> name in Bound()
      ensures found.Some? ==> (name, found.value) in tools
    {
      for i := 0 to |tools|
        invariant forall j :: 0 <= j < i ==> tools[j].0 != name
      {
        if tools[i].0 == name { return Some(tools[i].1); }
      }
      found := None;
    }
  }

  // ---------------------------------------------------------------------------------
  // Resolving the calls
  // ---------------------------------------------------------------------------------

  datatype Target = Registered(name: string) | Stub(name: string)

  datatype Resolution = Resolved(targets: seq<Target>) | Missing(name: string)

  /** The first unregistered name fails the dispatch before any tool runs, or gets a stub. */
  method Resolve(calls: seq<ToolCall>, registered: set<string>, collect: bool) returns (r: Resolution)
    ensures r.Missing? <==> !collect && exists i :: 0 <= i < |calls| && calls[i].name !in registered
    ensures r.Missing? ==>
              exists i :: 0 <= i < |calls| && r.name == calls[i].name && calls[i].name !in registered
                          && forall j :: 0 <= j < i ==> calls[j].name in registered
    ensures r.Resolved? ==> |r.targets| == |calls|
    ensures r.Resolved? ==> forall i :: 0 <= i < |calls| ==>
              r.targets[i] == if calls[i].name in registered then Registered(calls[i].name) else Stub(calls[i].name)
  {
    var targets := [];
    for i := 0 to |calls|
      invariant |targets| == i
      invariant !collect ==> forall j :: 0 <= j < i ==> calls[j].name in registered
      invariant forall j :: 0 <= j < i ==>
                  targets[j] == if calls[j].name in registered then Registered(calls[j].name) else Stub(calls[j].name)
    {
      if calls[i].name in registered {
        targets := targets + [Registered(calls[i].name)];
      } else if !collect {
        return Missing(calls[i].name);
      } else {
        targets := targets + [Stub(calls[i].name)];
      }
    }
    r := Resolved(targets);
  }

  // ---------------------------------------------------------------------------------
  // A normal return
  // ---------------------------------------------------------------------------------

  /** A failed child's error, as the exception the group collects. */
  function AsException(e: Error<Exception>): Exception {
    match e
    case Thrown(x) => x
    case PlainTimeout => ToolTimeout
    case Deadline(owner, index, seconds) => if owner.Some? then Timeout(owner.value, index, seconds) else ToolTimeout
    case Stray(index) => StrayError(index)
    case ProducerStray => ToolTimeout
    case GroupShutDown => ToolTimeout
  }

  function AsResult(call: ToolCall, slot: Option<Outcome<Value, Exception>>): Option<ToolResult> {
    match slot
    case None => None
    case Some(Ok(v)) => Some(ToolResult(call.id, call.name, true, Some(v), None))
    case Some(Err(e)) => Some(ToolResult(call.id, call.name, false, None, Some(AsException(e))))
  }

  function Slots(calls: seq<ToolCall>, s: DispatchState): seq<Option<ToolResult>>
    requires |calls| == |s.results|
  {
    seq(|calls|, i requires 0 <= i < |calls| => AsResult(calls[i], s.results[i]))
  }

  /** The filter on the way out. */
  function Present<T>(slots: seq<Option<T>>): seq<T> {
    if slots == [] then []
    else (if slots[0].Some? then [slots[0].value] else []) + Present(slots[1..])
  }

  lemma {:induction false} PresentAll<T>(slots: seq<Option<T>>)
    requires forall i :: 0 <= i < |slots| ==> slots[i].Some?
    ensures |Present(slots)| == |slots|
    ensures forall i :: 0 <= i < |slots| ==> Present(slots)[i] == slots[i].value
  {
    if slots == [] {
    } else {
      PresentAll(slots[1..]);
    }
  }

  /** The filter never shortens the list exactly when no slot is empty. */
  lemma {:induction false} PresentShort<T>(slots: seq<Option<T>>)
    ensures |Present(slots)| <= |slots|
    ensures |Present(slots)| == |slots| <==> forall i :: 0 <= i < |slots| ==> slots[i].Some?
  {
    if slots == [] {
    } else {
      PresentShort(slots[1..]);
    }
  }

  /** Under the call's own id and name, what its own tool came to while nothing was stopping. */
  ghost predicate Tells(
    cfg: Config, i: nat, call: ToolCall, answer: Option<Answer<Value, Exception>>, r: ToolResult)
  {
    && r.id == call.id && r.name == call.name
    && answer.Some? && Possible(cfg.seconds, answer.value.call)
    && var v := Settle(cfg.owner, i, cfg.seconds, false, answer.value.call);
       if v.Value? then r.ok && r.value == Some(v.value) && r.error == None
       else v.Failure? && !r.ok && r.value == None && r.error == Some(AsException(v.error))
  }

  /** What a call's slot tells on a return; it is empty exactly if its task was hit too early. */
  lemma SlotTells(
    calls: seq<ToolCall>, cfg: Config, caller: Task, steps: seq<DispatchStep>, s: DispatchState, i: nat)
    requires cfg.n == |calls| && Reachable(cfg, caller, steps, s) && ReturnedNormally(s) && i < |calls|
    ensures |s.results| == |calls| == |s.answers| == |s.children|
    ensures var slot := Slots(calls, s)[i];
            && (slot.None? <==> s.children[i].stray)
            && (slot.Some? ==> Tells(cfg, i, calls[i], s.answers[i], slot.value))
  {
    FilledSlots(cfg, caller, steps, s, i);
  }

  /**
   A dispatch that returns has one result per call if and only if no task was hit before it had
   its slot, and without stray cancels none was. Then the results are in input order, each
   under its call's own id, and each is what that call's own tool came to.
   */
  lemma DispatchReturns(
    calls: seq<ToolCall>, cfg: Config, caller: Task, steps: seq<DispatchStep>, s: DispatchState)
    requires cfg.n == |calls| && Reachable(cfg, caller, steps, s) && ReturnedNormally(s)
    ensures |s.results| == |calls| == |s.answers| == |s.children|
    ensures var out := Present(Slots(calls, s));
            && (|out| == |calls| <==> forall i :: 0 <= i < |calls| ==> !s.children[i].stray)
            && (NoStray(steps) ==> |out| == |calls|)
            && (|out| == |calls| ==> forall i :: 0 <= i < |calls| ==> Tells(cfg, i, calls[i], s.answers[i], out[i]))
  {
    NoHoles(cfg, caller, steps, s);
    var slots := Slots(calls, s);
    forall i | 0 <= i < |calls|
      ensures slots[i].None? <==> s.children[i].stray
      ensures slots[i].Some? ==> Tells(cfg, i, calls[i], s.answers[i], slots[i].value)
    {
      SlotTells(calls, cfg, caller, steps, s, i);
    }
    PresentShort(slots);
    if |Present(slots)| == |calls| { PresentAll(slots); }
  }

  // ---------------------------------------------------------------------------------
  // One exception
  // ---------------------------------------------------------------------------------

  /** The dispatch's own deadline passes through; everything else is wrapped. */
  function Surface(owner: nat, first: Exception): Exception {
    if first.Timeout? && first.owner == owner then first else Wrapped(first)
  }

  /** A tool, or one whose body runs a dispatch of its own and may let its exception out. */
  datatype Tool = Leaf | Nested(inner: Tree)

  /** A dispatch and the tools it runs; `owner` is the object it makes to mark its deadlines. */
  datatype Tree = Tree(owner: nat, tools: seq<Tool>, limit: Option<nat>, collect: bool, seconds: Option<real>) {
    function Cfg(): Config { Config(|tools|, limit, collect, seconds, Some(owner)) }
  }

  /** Whatever the tools throw in the run is allowed to them. */
  ghost predicate Obeys(steps: seq<DispatchStep>, t: Tree)
    decreases t, 1, |steps|
  {
    steps != [] ==>
      && (steps[0].Return? && steps[0].call.raw.Threw? ==>
            steps[0].i < |t.tools| && MayThrow(t.tools[steps[0].i], steps[0].call.raw.x))
      && Obeys(steps[1..], t)
  }

  ghost predicate Raises(t: Tree, caller: Task, steps: seq<DispatchStep>, s: DispatchState, e: Exception)
    decreases t, 2
  {
    && Reachable(t.Cfg(), caller, steps, s) && Obeys(steps, t)
    && s.group.phase.Exited? && s.group.phase.exit.RaisedGroup? && s.group.phase.exit.errors != []
    && e == Surface(t.owner, AsException(s.group.phase.exit.errors[0]))
  }

  /** Some run of the dispatch, with its tools throwing what they may, raises `e`. */
  ghost predicate MayLeave(t: Tree, e: Exception)
    decreases t, 3
  {
    exists caller: Task, steps: seq<DispatchStep>, s: DispatchState :: Raises(t, caller, steps, s, e)
  }

  /** What a tool may throw: its own errors, or what left the dispatch it ran. */
  ghost predicate MayThrow(tool: Tool, e: Exception)
    decreases tool, 0
  {
    e.FromTool? || e.ToolNotFound? || (tool.Nested? && MayLeave(tool.inner, e))
  }

  /** What came back from the tools was allowed to them. */
  ghost predicate AnswersMay(s: DispatchState, t: Tree) {
    && |s.answers| == |t.tools|
    && forall i :: 0 <= i < |s.answers| && s.answers[i].Some? && s.answers[i].value.call.raw.Threw? ==>
         MayThrow(t.tools[i], s.answers[i].value.call.raw.x)
  }

  lemma AnswersMayReturn(s: DispatchState, i: nat, call: Call<Value, Exception>, t: Tree)
    requires Can(s, Return(i, call)) && AnswersMay(s, t)
    requires call.raw.Threw? ==> MayThrow(t.tools[i], call.raw.x)
    ensures AnswersMay(ItemReturns(s, i, call), t)
  {
    var u := ItemReturns(s, i, call);
    assert u.answers == s.answers[i := Some(Answer(call, s.Stopping()))];
  }

  lemma AnswersMayStep(s: DispatchState, step: DispatchStep, t: Tree)
    requires Can(s, step) && AnswersMay(s, t)
    requires step.Return? && step.call.raw.Threw? ==> MayThrow(t.tools[step.i], step.call.raw.x)
    ensures AnswersMay(Next(s, step), t)
  {
    match step
    case Return(i, call) => AnswersMayReturn(s, i, call, t);
    case _ =>
  }

  lemma {:induction false} AnswersMayRun(s: DispatchState, steps: seq<DispatchStep>, u: DispatchState, t: Tree)
    requires Reaches(s, steps, u) && AnswersMay(s, t) && Obeys(steps, t)
    ensures AnswersMay(u, t)
    decreases |steps|
  {
    if steps == [] {
    } else {
      AnswersMayStep(s, steps[0], t);
      AnswersMayRun(Next(s, steps[0]), steps[1..], u, t);
    }
  }

  /** The call at `i` came back, and its deadline fired and was not absorbed. */
  predicate DeadlineFired(s: DispatchState, i: nat) {
    && i < |s.answers| && s.answers[i].Some?
    && s.answers[i].value.call.expired
    && (s.answers[i].value.call.raw.ThrewTimeout? || s.answers[i].value.call.raw.ThrewCancelled?)
  }

  /** An error of this very call, and true of the tool call that it is about. */
  ghost predicate OwnException(t: Tree, s: DispatchState, e: Exception) {
    match e
    case Timeout(owner, index, seconds) =>
      owner == t.owner && index < |t.tools| && t.seconds == Some(seconds) && DeadlineFired(s, index)
    case StrayError(index) =>
      && index < |t.tools| && index < |s.answers| && s.answers[index].Some?
      && s.answers[index].value.call.raw.ThrewCancelled? && !s.answers[index].value.call.expired
      && !s.answers[index].value.stopping
    case ToolTimeout =>
      exists i :: 0 <= i < |s.answers| && s.answers[i].Some?
                  && s.answers[i].value.call.raw.ThrewTimeout? && !s.answers[i].value.call.expired
    case _ => false
  }

  /** An error that one of the tools threw in this run, and may throw. */
  ghost predicate ThrownByTool(t: Tree, s: DispatchState, e: Exception) {
    exists i :: 0 <= i < |t.tools| && i < |s.answers| && s.answers[i].Some?
                && s.answers[i].value.call.raw == Threw(e) && MayThrow(t.tools[i], e)
  }

  /**
   What leaves a failed dispatch is the failure of the first child that the group saw fail: as
   it is if that is a deadline error that this very call has marked, and otherwise as the cause
   of a wrapping error. It is an error of this very call, or one that a tool threw.
   */
  lemma FirstError(t: Tree, caller: Task, steps: seq<DispatchStep>, s: DispatchState, e: Exception)
    requires Raises(t, caller, steps, s, e)
    ensures FirstFailure(Init(t.Cfg(), caller), steps).Some?
    ensures var first := AsException(FirstFailure(Init(t.Cfg(), caller), steps).value);
            && (e == first || e == Wrapped(first))
            && (e == first <==> first.Timeout? && first.owner == t.owner)
            && (OwnException(t, s, first) || ThrownByTool(t, s, first))
  {
    RaisedFirst(t.Cfg(), caller, steps, s);
    var error := FirstFailure(Init(t.Cfg(), caller), steps).value;
    var i := RaisedBlame(t.Cfg(), caller, steps, s, error);
    AnswersMayRun(Init(t.Cfg(), caller), steps, s, t);
    if error.Thrown? {
      assert s.answers[i].value.call.raw == Threw(error.x) && MayThrow(t.tools[i], error.x);
    }
  }

  // ---------------------------------------------------------------------------------
  // Ownership
  // ---------------------------------------------------------------------------------

  ghost predicate Owns(t: Tree, owner: nat)
    decreases t
  {
    || t.owner == owner
    || exists i :: 0 <= i < |t.tools| && t.tools[i].Nested? && Owns(t.tools[i].inner, owner)
  }

  /** Every call makes a fresh object, so a dispatch's mark is not one of its inner calls'. */
  ghost predicate FreshOwners(t: Tree)
    decreases t
  {
    forall i :: 0 <= i < |t.tools| && t.tools[i].Nested? ==>
      FreshOwners(t.tools[i].inner) && !Owns(t.tools[i].inner, t.owner)
  }

  /** Every deadline error in the chain of causes was made by a dispatch of the tree. */
  ghost predicate MarkedWithin(t: Tree, e: Exception)
    decreases e
  {
    match e
    case Timeout(owner, _, _) => Owns(t, owner)
    case Wrapped(cause) => MarkedWithin(t, cause)
    case _ => true
  }

  lemma {:induction false} MarkedOutside(t: Tree, i: nat, e: Exception)
    requires i < |t.tools| && t.tools[i].Nested? && MarkedWithin(t.tools[i].inner, e)
    ensures MarkedWithin(t, e)
    decreases e
  {
    if e.Wrapped? { MarkedOutside(t, i, e.cause); }
  }

  /**
   At any depth of nesting: a deadline error that leaves a dispatch unwrapped was made by
   that very call, so its index is a position in that call's list, the deadline of the tool
   call at that position fired, and its seconds are that call's deadline. Anything else leaves
   as the cause of a wrapping error, whether it is an error of this call or came from a tool,
   and so does every inner call's deadline.
   */
  lemma {:induction false} Ownership(
    t: Tree, caller: Task, steps: seq<DispatchStep>, s: DispatchState, e: Exception)
    requires FreshOwners(t) && Raises(t, caller, steps, s, e)
    ensures e.Timeout? ==>
              e.owner == t.owner && e.index < |t.tools| && t.seconds == Some(e.seconds) && DeadlineFired(s, e.index)
    ensures !e.Timeout? ==> e.Wrapped? && (OwnException(t, s, e.cause) || ThrownByTool(t, s, e.cause))
    ensures e.Wrapped? && e.cause.Timeout? ==> e.cause.owner != t.owner
    ensures MarkedWithin(t, e)
    decreases t, 1
  {
    FirstError(t, caller, steps, s, e);
    var first := AsException(FirstFailure(Init(t.Cfg(), caller), steps).value);
    if !OwnException(t, s, first) {
      var i :| 0 <= i < |t.tools| && i < |s.answers| && s.answers[i].Some?
               && s.answers[i].value.call.raw == Threw(first) && MayThrow(t.tools[i], first);
      if t.tools[i].Nested? && MayLeave(t.tools[i].inner, first) {
        InnerOwnership(t, i, first);
        MarkedOutside(t, i, first);
      }
    }
  }

  lemma {:induction false} InnerOwnership(t: Tree, i: nat, e: Exception)
    requires FreshOwners(t) && i < |t.tools| && t.tools[i].Nested? && MayLeave(t.tools[i].inner, e)
    ensures e.Timeout? ==> e.owner == t.tools[i].inner.owner
    ensures MarkedWithin(t.tools[i].inner, e) && (e.Timeout? || e.Wrapped?)
    decreases t, 0
  {
    var inner := t.tools[i].inner;
    var caller: Task, steps: seq<DispatchStep>, s: DispatchState :| Raises(inner, caller, steps, s, e);
    Ownership(inner, caller, steps, s, e);
  }
}
