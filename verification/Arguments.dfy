/** Argument isolation in a dispatch. */
module Arguments {

  // Arguments are JSON-like object graphs on a heap that tools share and mutate. A
  // `ToolCall` deep-copies its arguments when it is built, and every invocation deep-copies
  // them again before the tool sees them. Whatever the tools do to every object they can
  // reach, in any interleaving, a call's own objects never change, and each tool starts
  // from a faithful copy of what the call was built from.

  type Ref = nat

  datatype Value = Atom(a: int) | Object(ref: Ref)

  /** A dict or a list: keys to values. */
  type Obj = map<string, Value>

  type Heap = map<Ref, Obj>

  /** `region` holds objects of the heap and everything that they point to. */
  ghost predicate Closed(h: Heap, region: set<Ref>) {
    && region <= h.Keys
    && forall r, k :: r in region && k in h[r] && h[r][k].Object? ==> h[r][k].ref in region
  }

  // ---------------------------------------------------------------------------------
  // Deep copies
  // ---------------------------------------------------------------------------------

  /** Which fresh object stands for which old one. */
  ghost predicate Renaming(h: Heap, region: set<Ref>, names: map<Ref, Ref>) {
    && names.Keys == region
    && (forall r :: r in region ==> names[r] !in h)
    && (forall r, q :: r in region && q in region && r != q ==> names[r] != names[q])
  }

  function Renamed(v: Value, names: map<Ref, Ref>): Value {
    if v.Object? && v.ref in names then Object(names[v.ref]) else v
  }

  function RenamedObj(o: Obj, names: map<Ref, Ref>): Obj {
    map k | k in o :: Renamed(o[k], names)
  }

  ghost function OldName(names: map<Ref, Ref>, r: Ref): Ref
    requires r in names.Values
    ensures OldName(names, r) in names && names[OldName(names, r)] == r
  {
    var q :| q in names && names[q] == r;
    q
  }

  /** The heap after a deep copy: one fresh object for each old one, sharing and cycles kept. */
  ghost function DeepCopied(h: Heap, region: set<Ref>, names: map<Ref, Ref>): Heap
    requires Closed(h, region) && Renaming(h, region, names)
  {
    h + map r | r in names.Values :: RenamedObj(h[OldName(names, r)], names)
  }

  /** `copy` is, object by object, the renamed image of `region` in `h`. */
  ghost predicate Mirrors(h: Heap, region: set<Ref>, names: map<Ref, Ref>, copy: Heap) {
    && region <= h.Keys && names.Keys == region
    && forall r :: r in region ==> names[r] in copy && copy[names[r]] == RenamedObj(h[r], names)
  }

  lemma DeepCopyIsFaithful(h: Heap, region: set<Ref>, names: map<Ref, Ref>)
    requires Closed(h, region) && Renaming(h, region, names)
    ensures var h' := DeepCopied(h, region, names);
            && Closed(h', names.Values) && names.Values !! h.Keys
            && (forall r :: r in h ==> r in h' && h'[r] == h[r])
            && h'.Keys == h.Keys + names.Values
            && Mirrors(h, region, names, h')
  {
    var h' := DeepCopied(h, region, names);
    forall r | r in region ensures names[r] in h' && h'[names[r]] == RenamedObj(h[r], names) {
      assert names[r] in names.Values;
      assert OldName(names, names[r]) == r;
    }
    forall r, k | r in names.Values && k in h'[r] && h'[r][k].Object? ensures h'[r][k].ref in names.Values {
      var q := OldName(names, r);
      assert h'[r] == RenamedObj(h[q], names);
      assert h[q][k].ref in region;
      assert names[h[q][k].ref] in names.Values;
    }
  }

  /** What is seen of a value down to a depth: the JSON text, cut off. */
  datatype Json = Cut | Number(a: int) | Record(fields: map<string, Json>)

  ghost function Seen(h: Heap, v: Value, depth: nat): Json
    decreases depth
  {
    if v.Atom? then Number(v.a)
    else if depth == 0 || v.ref !in h then Cut
    else Record(map k | k in h[v.ref] :: Seen(h, h[v.ref][k], depth - 1))
  }

  /** Nothing tells a copy from what it was copied from, at any depth. */
  lemma {:induction false} CopyLooksTheSame(
    h: Heap, region: set<Ref>, names: map<Ref, Ref>, copy: Heap, v: Value, depth: nat)
    requires Closed(h, region) && Mirrors(h, region, names, copy)
    requires v.Object? ==> v.ref in region
    ensures Seen(copy, Renamed(v, names), depth) == Seen(h, v, depth)
    decreases depth
  {
    if v.Atom? || depth == 0 {
    } else {
      var o := h[v.ref];
      forall k | k in o
        ensures Seen(copy, Renamed(o[k], names), depth - 1) == Seen(h, o[k], depth - 1)
      {
        CopyLooksTheSame(h, region, names, copy, o[k], depth - 1);
      }
      assert copy[names[v.ref]] == RenamedObj(o, names);
    }
  }

  /** A region that two heaps agree on looks the same in both. */
  lemma {:induction false} SameRegionLooksTheSame(h: Heap, g: Heap, region: set<Ref>, v: Value, depth: nat)
    requires Closed(h, region) && region <= g.Keys && (forall r :: r in region ==> g[r] == h[r])
    requires v.Object? ==> v.ref in region
    ensures Seen(g, v, depth) == Seen(h, v, depth)
    decreases depth
  {
    if v.Atom? || depth == 0 {
    } else {
      var o := h[v.ref];
      forall k | k in o ensures Seen(g, o[k], depth - 1) == Seen(h, o[k], depth - 1) {
        SameRegionLooksTheSame(h, g, region, o[k], depth - 1);
      }
    }
  }

  // ---------------------------------------------------------------------------------
  // A dispatch and everything around it
  // ---------------------------------------------------------------------------------

  /**
   A built call: its own copy, and, as history, the heap it was built in and the
   arguments it was built from.
   */
  datatype Call = Call(root: Ref, region: set<Ref>, builtIn: Heap, builtFrom: Ref)

  /** What one invocation handed to its tool. */
  datatype Start = Start(call: nat, root: Ref, heap: Heap)

  /** `world` is what the user's code and the tools can reach: every object but the calls' own. */
  datatype State = State(heap: Heap, world: set<Ref>, calls: seq<Call>, starts: seq<Start>)

  datatype Step =
    | Build(from: Ref, region: set<Ref>, names: map<Ref, Ref>)
    | Invoke(call: nat, names: map<Ref, Ref>)
    | Allocate(ref: Ref)
    | Write(ref: Ref, key: string, value: Value)
    | Delete(ref: Ref, key: string)

  ghost predicate Can(s: State, step: Step) {
    match step
    case Build(from, region, names) =>
      from in region && region <= s.world && Closed(s.heap, region) && Renaming(s.heap, region, names)
    case Invoke(c, names) =>
      c < |s.calls| && Closed(s.heap, s.calls[c].region) && Renaming(s.heap, s.calls[c].region, names)
      && s.calls[c].root in s.calls[c].region
    case Allocate(r) => r !in s.heap
    case Write(r, _, v) => r in s.world && r in s.heap && (v.Object? ==> v.ref in s.world)
    case Delete(r, _) => r in s.world && r in s.heap
  }

  ghost function Next(s: State, step: Step): State
    requires Can(s, step)
  {
    match step
    case Build(from, region, names) =>
      s.(heap := DeepCopied(s.heap, region, names),
         calls := s.calls + [Call(names[from], names.Values, s.heap, from)])
    case Invoke(c, names) =>
      var h := DeepCopied(s.heap, s.calls[c].region, names);
      s.(heap := h,
         world := s.world + names.Values,
         starts := s.starts + [Start(c, names[s.calls[c].root], h)])
    case Allocate(r) => s.(heap := s.heap[r := map[]], world := s.world + {r})
    case Write(r, k, v) => s.(heap := s.heap[r := s.heap[r][k := v]])
    case Delete(r, k) => s.(heap := s.heap[r := s.heap[r] - {k}])
  }

  ghost predicate Reaches(s: State, steps: seq<Step>, t: State)
    decreases |steps|
  {
    if steps == [] then s == t
    else Can(s, steps[0]) && Reaches(Next(s, steps[0]), steps[1..], t)
  }

  /** A call's objects, as they are now, look like what the call was built from, then. */
  ghost predicate CallOk(s: State, c: Call) {
    && c.root in c.region && Closed(s.heap, c.region) && c.region !! s.world
    && forall depth: nat :: Seen(s.heap, Object(c.root), depth) == Seen(c.builtIn, Object(c.builtFrom), depth)
  }

  /** An invocation's tool was handed an object that it may change, and that looks like what its call was built from. */
  ghost predicate StartOk(s: State, st: Start) {
    && st.call < |s.calls| && st.root in s.world
    && forall depth: nat ::
         Seen(st.heap, Object(st.root), depth) ==
           Seen(s.calls[st.call].builtIn, Object(s.calls[st.call].builtFrom), depth)
  }

  ghost predicate Inv(s: State) {
    && Closed(s.heap, s.world)
    && (forall i :: 0 <= i < |s.calls| ==> CallOk(s, s.calls[i]))
    && (forall j :: 0 <= j < |s.starts| ==> StartOk(s, s.starts[j]))
  }

  /** A call is untouched by a step that leaves its objects alone and lets none of them out. */
  lemma CallKept(s: State, t: State, c: Call)
    requires CallOk(s, c) && c.region !! t.world
    requires forall r :: r in c.region ==> r in t.heap && t.heap[r] == s.heap[r]
    ensures CallOk(t, c)
  {
    forall depth: nat ensures Seen(t.heap, Object(c.root), depth) == Seen(c.builtIn, Object(c.builtFrom), depth) {
      SameRegionLooksTheSame(s.heap, t.heap, c.region, Object(c.root), depth);
    }
  }

  lemma CallsKept(s: State, t: State)
    requires Inv(s) && s.calls <= t.calls
    requires forall i :: 0 <= i < |s.calls| ==> s.calls[i].region !! t.world
    requires forall r :: r in s.heap && r !in s.world ==> r in t.heap && t.heap[r] == s.heap[r]
    ensures forall i :: 0 <= i < |s.calls| ==> CallOk(t, t.calls[i])
  {
    forall i | 0 <= i < |s.calls| ensures CallOk(t, t.calls[i]) {
      assert CallOk(s, s.calls[i]);
      CallKept(s, t, s.calls[i]);
    }
  }

  lemma StartsKept(s: State, t: State)
    requires Inv(s) && s.calls <= t.calls && s.world <= t.world
    ensures forall j :: 0 <= j < |s.starts| ==> StartOk(t, s.starts[j])
  {
    forall j | 0 <= j < |s.starts| ensures StartOk(t, s.starts[j]) {
      assert StartOk(s, s.starts[j]);
    }
  }

  lemma BuildInv(s: State, from: Ref, region: set<Ref>, names: map<Ref, Ref>)
    requires Inv(s) && Can(s, Build(from, region, names))
    ensures Inv(Next(s, Build(from, region, names)))
  {
    var t := Next(s, Build(from, region, names));
    DeepCopyIsFaithful(s.heap, region, names);
    CallsKept(s, t);
    StartsKept(s, t);
    var c := t.calls[|s.calls|];
    assert from in names && names[from] in names.Values;
    forall depth: nat ensures Seen(t.heap, Object(c.root), depth) == Seen(c.builtIn, Object(c.builtFrom), depth) {
      CopyLooksTheSame(s.heap, region, names, t.heap, Object(from), depth);
    }
    assert CallOk(t, c);
  }

  lemma InvokeInv(s: State, c: nat, names: map<Ref, Ref>)
    requires Inv(s) && Can(s, Invoke(c, names))
    ensures Inv(Next(s, Invoke(c, names)))
  {
    var t := Next(s, Invoke(c, names));
    var call := s.calls[c];
    assert CallOk(s, call);
    DeepCopyIsFaithful(s.heap, call.region, names);
    CallsKept(s, t);
    StartsKept(s, t);
    assert call.root in names && names[call.root] in names.Values;
    forall depth: nat
      ensures Seen(t.heap, Object(names[call.root]), depth) == Seen(call.builtIn, Object(call.builtFrom), depth)
    {
      CopyLooksTheSame(s.heap, call.region, names, t.heap, Object(call.root), depth);
    }
    assert StartOk(t, t.starts[|s.starts|]);
  }

  lemma RecordsGrow(s: State, step: Step)
    requires Can(s, step)
    ensures s.calls <= Next(s, step).calls && s.starts <= Next(s, step).starts
  {
  }

  lemma StepInv(s: State, step: Step)
    requires Inv(s) && Can(s, step)
    ensures Inv(Next(s, step))
  {
    match step
    case Build(from, region, names) => BuildInv(s, from, region, names);
    case Invoke(c, names) => InvokeInv(s, c, names);
    case _ =>
      CallsKept(s, Next(s, step));
      StartsKept(s, Next(s, step));
  }

  /**
   In any interleaving of building calls, invoking tools, and code that mutates whatever it
   can reach: every call still looks like what it was built from, and so did the arguments
   of every invocation, whatever other calls were built from the same object. What a tool was
   handed it may change, and what a call holds nobody can.
   */
  lemma {:induction false} Isolation(s: State, steps: seq<Step>, t: State)
    requires Inv(s) && Reaches(s, steps, t)
    ensures Inv(t)
    ensures forall j, depth: nat :: 0 <= j < |t.starts| ==>
              && t.starts[j].call < |t.calls| && t.starts[j].root in t.world
              && Seen(t.starts[j].heap, Object(t.starts[j].root), depth) ==
                   Seen(t.calls[t.starts[j].call].builtIn, Object(t.calls[t.starts[j].call].builtFrom), depth)
    ensures forall i :: 0 <= i < |t.calls| ==> t.calls[i].root in t.calls[i].region && t.calls[i].region !! t.world
    ensures forall i, depth: nat :: 0 <= i < |t.calls| ==>
              Seen(t.heap, Object(t.calls[i].root), depth) ==
                Seen(t.calls[i].builtIn, Object(t.calls[i].builtFrom), depth)
    decreases |steps|
  {
    if steps == [] {
      forall j | 0 <= j < |t.starts| ensures StartOk(t, t.starts[j]) {}
      forall i | 0 <= i < |t.calls| ensures CallOk(t, t.calls[i]) {}
    } else {
      StepInv(s, steps[0]);
      Isolation(Next(s, steps[0]), steps[1..], t);
    }
  }

  // ---------------------------------------------------------------------------------
  // What is recorded of a run
  // ---------------------------------------------------------------------------------

  function Built(s: State, step: Step): seq<(Heap, Ref)> {
    if step.Build? then [(s.heap, step.from)] else []
  }

  /** What each call of the run was built from, in order: the heap then, and the object. */
  ghost function Builds(s: State, steps: seq<Step>): seq<(Heap, Ref)>
    decreases |steps|
  {
    if steps == [] || !Can(s, steps[0]) then []
    else Built(s, steps[0]) + Builds(Next(s, steps[0]), steps[1..])
  }

  ghost function Started(s: State, step: Step): seq<(nat, Heap)>
    requires Can(s, step)
  {
    if step.Invoke? then [(step.call, Next(s, step).heap)] else []
  }

  /** Which call each invocation of the run is of, in order, and the heap it left. */
  ghost function Invocations(s: State, steps: seq<Step>): seq<(nat, Heap)>
    decreases |steps|
  {
    if steps == [] || !Can(s, steps[0]) then []
    else Started(s, steps[0]) + Invocations(Next(s, steps[0]), steps[1..])
  }

  function Sources(calls: seq<Call>): seq<(Heap, Ref)> {
    seq(|calls|, i requires 0 <= i < |calls| => (calls[i].builtIn, calls[i].builtFrom))
  }

  function Invoked(starts: seq<Start>): seq<(nat, Heap)> {
    seq(|starts|, j requires 0 <= j < |starts| => (starts[j].call, starts[j].heap))
  }

  lemma BuildsStep(s: State, step: Step, rest: seq<(Heap, Ref)>)
    requires Can(s, step)
    ensures Sources(Next(s, step).calls) + rest == Sources(s.calls) + (Built(s, step) + rest)
  {
    if step.Build? {
      assert |Next(s, step).calls| == |s.calls| + 1;
    } else {
      assert Next(s, step).calls == s.calls;
    }
  }

  lemma {:induction false} BuildsTrue(s: State, steps: seq<Step>, t: State)
    requires Reaches(s, steps, t)
    ensures Sources(t.calls) == Sources(s.calls) + Builds(s, steps)
    decreases |steps|
  {
    if steps == [] {
    } else {
      BuildsTrue(Next(s, steps[0]), steps[1..], t);
      BuildsStep(s, steps[0], Builds(Next(s, steps[0]), steps[1..]));
    }
  }

  lemma InvocationsStep(s: State, step: Step, rest: seq<(nat, Heap)>)
    requires Can(s, step)
    ensures Invoked(Next(s, step).starts) + rest == Invoked(s.starts) + (Started(s, step) + rest)
  {
    if step.Invoke? {
      assert |Next(s, step).starts| == |s.starts| + 1;
    } else {
      assert Next(s, step).starts == s.starts;
    }
  }

  lemma {:induction false} InvocationsTrue(s: State, steps: seq<Step>, t: State)
    requires Reaches(s, steps, t)
    ensures Invoked(t.starts) == Invoked(s.starts) + Invocations(s, steps)
    decreases |steps|
  {
    if steps == [] {
    } else {
      InvocationsTrue(Next(s, steps[0]), steps[1..], t);
      InvocationsStep(s, steps[0], Invocations(Next(s, steps[0]), steps[1..]));
    }
  }

  /** The history that isolation is stated with is that of the run. */
  lemma RecordsTrue(s: State, steps: seq<Step>, t: State)
    requires Reaches(s, steps, t)
    ensures Sources(t.calls) == Sources(s.calls) + Builds(s, steps)
    ensures Invoked(t.starts) == Invoked(s.starts) + Invocations(s, steps)
  {
    BuildsTrue(s, steps, t);
    InvocationsTrue(s, steps, t);
  }

  /** The program starts with objects of its own and no calls. */
  lemma InitInv(h: Heap)
    requires Closed(h, h.Keys)
    ensures Inv(State(h, h.Keys, [], []))
  {
  }
}
