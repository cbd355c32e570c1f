/**
 What a failed `process` or dispatch raises: exactly the failures of its own items' calls.
 */
module FanoutErrors {
  import opened Cancellation
  import opened Calls
  import opened FanoutModel
  import opened FanoutProofs

  // ---------------------------------------------------------------------------------
  // The invariant
  // ---------------------------------------------------------------------------------

  /** The call of item `i` came back and failed with `e`. */
  ghost predicate Came<V, X>(s: State<V, X>, i: nat, e: Error<X>) {
    && i < |s.answers| && s.answers[i].Some? && Possible(s.cfg.seconds, s.answers[i].value.call)
    && Settle(s.cfg.owner, i, s.cfg.seconds, s.answers[i].value.stopping, s.answers[i].value.call) == Failure(e)
  }

  predicate EndedFailed<X>(c: Child<X>) { c.pc.Ended? && c.pc.end.Failed? }

  /** How an answered item's task ended: in the failure of its call, if that propagates. */
  ghost predicate AnswerKept<V, X>(s: State<V, X>, i: nat)
    requires i < |s.answers| == |s.children| && s.answers[i].Some?
  {
    var a := s.answers[i].value;
    && Possible(s.cfg.seconds, a.call) && s.children[i].pc.Ended?
    && var v := Settle(s.cfg.owner, i, s.cfg.seconds, a.stopping, a.call);
       (!s.cfg.collect && v.Failure? ==> s.children[i].pc.end == Failed(v.error))
  }

  ghost predicate ItemsTraced<V, X>(s: State<V, X>) {
    && |s.children| == |s.answers|
    && (forall i :: 0 <= i < |s.children| && s.answers[i].Some? ==> AnswerKept(s, i))
    && (forall i :: 0 <= i < |s.children| && EndedFailed(s.children[i]) ==>
          !s.cfg.collect && Came(s, i, s.children[i].pc.end.error))
  }

  /** The group has seen this failure of a child. */
  ghost predicate Seen<V, X>(s: State<V, X>, e: Error<X>) {
    exists i :: 0 <= i < |s.children| && s.children[i].reaped && s.children[i].pc == Ended(Failed(e))
  }

  ghost predicate GroupTraced<V, X>(s: State<V, X>) {
    var g := s.group;
    && (forall k :: 0 <= k < |g.errors| ==> Seen(s, g.errors[k]))
    && (forall i :: 0 <= i < |s.children| && EndedFailed(s.children[i]) && s.children[i].reaped ==>
          s.children[i].pc.end.error in g.errors)
    && (g.phase.Exited? ==> (g.phase.exit.RaisedGroup? <==> g.errors != []))
    && (g.phase.Exited? && g.phase.exit.RaisedGroup? ==> g.phase.exit.errors == g.errors)
  }

  ghost predicate Traced<V, X>(s: State<V, X>) {
    ItemsTraced(s) && GroupTraced(s)
  }

  lemma InitTraced<V, X>(cfg: Config, caller: Task)
    ensures Traced(Init<V, X>(cfg, caller))
  {
  }

  // ---------------------------------------------------------------------------------
  // Preservation
  // ---------------------------------------------------------------------------------

  /** One task moves, that had not ended, and the group does not. */
  lemma MoveGroup<V, X>(s: State<V, X>, t: State<V, X>, i: nat)
    requires GroupTraced(s) && t.group == s.group && i < |s.children| == |t.children|
    requires !s.children[i].pc.Ended? && !t.children[i].reaped
    requires forall j :: 0 <= j < |s.children| && j != i ==> t.children[j] == s.children[j]
    ensures GroupTraced(t)
  {
    forall k | 0 <= k < |t.group.errors| ensures Seen(t, t.group.errors[k]) {
      assert Seen(s, s.group.errors[k]);
      var j :| 0 <= j < |s.children| && s.children[j].reaped && s.children[j].pc == Ended(Failed(s.group.errors[k]));
      assert t.children[j] == s.children[j];
    }
  }

  lemma MoveItems<V, X>(s: State<V, X>, t: State<V, X>, i: nat)
    requires ItemsTraced(s) && t.cfg == s.cfg && t.answers == s.answers && i < |s.children| == |t.children|
    requires !s.children[i].pc.Ended? && !EndedFailed(t.children[i])
    requires forall j :: 0 <= j < |s.children| && j != i ==> t.children[j] == s.children[j]
    ensures ItemsTraced(t)
  {
    forall j | 0 <= j < |t.children| && t.answers[j].Some? ensures AnswerKept(t, j) {
      assert AnswerKept(s, j);
    }
    forall j | 0 <= j < |t.children| && EndedFailed(t.children[j]) ensures Came(t, j, t.children[j].pc.end.error) {
      assert Came(s, j, s.children[j].pc.end.error);
    }
  }

  lemma MoveTraced<V, X>(s: State<V, X>, step: Step<V, X>, i: nat)
    requires SlotsInv(s) && Traced(s) && Can(s, step)
    requires step == Start(i) || step == Cancel(i) || step == StrayCancel(i)
    ensures Traced(Next(s, step))
  {
    MoveGroup(s, Next(s, step), i);
    MoveItems(s, Next(s, step), i);
  }

  /** Of the other items nothing changes. */
  lemma ReturnOthers<V, X>(s: State<V, X>, i: nat, call: Call<V, X>)
    requires Can(s, Return(i, call))
    ensures var t := ItemReturns(s, i, call);
            && |t.children| == |s.children| == |t.answers| && t.cfg == s.cfg
            && forall j :: 0 <= j < |s.children| && j != i ==>
                 t.children[j] == s.children[j] && t.answers[j] == s.answers[j]
  {
  }

  lemma ReturnOwn<V, X>(s: State<V, X>, i: nat, call: Call<V, X>)
    requires Can(s, Return(i, call))
    ensures var t := ItemReturns(s, i, call);
            && |t.children| == |s.children| == |t.answers| && t.answers[i].Some? && AnswerKept(t, i)
            && (EndedFailed(t.children[i]) ==> !t.cfg.collect && Came(t, i, t.children[i].pc.end.error))
  {
  }

  lemma ReturnItems<V, X>(s: State<V, X>, i: nat, call: Call<V, X>)
    requires ItemsTraced(s) && Can(s, Return(i, call))
    ensures ItemsTraced(ItemReturns(s, i, call))
  {
    var t := ItemReturns(s, i, call);
    ReturnOthers(s, i, call);
    ReturnOwn(s, i, call);
    forall j | 0 <= j < |t.children| && t.answers[j].Some? ensures AnswerKept(t, j) {
      if j != i { assert AnswerKept(s, j); }
    }
    forall j | 0 <= j < |t.children| && EndedFailed(t.children[j])
      ensures !t.cfg.collect && Came(t, j, t.children[j].pc.end.error)
    {
      if j != i { assert Came(s, j, s.children[j].pc.end.error); }
    }
  }

  lemma ReturnTraced<V, X>(s: State<V, X>, i: nat, call: Call<V, X>)
    requires SlotsInv(s) && Traced(s) && Can(s, Return(i, call))
    ensures Traced(ItemReturns(s, i, call))
  {
    GroupKept(s, i, call);
    ReturnItems(s, i, call);
    MoveGroup(s, ItemReturns(s, i, call), i);
  }

  lemma ReapTraced<V, X>(s: State<V, X>, i: nat)
    requires Traced(s) && Can(s, Reap(i))
    ensures Traced(ReapItem(s, i))
  {
    var t := ReapItem(s, i);
    forall j | 0 <= j < |t.children| && t.answers[j].Some? ensures AnswerKept(t, j) {
      assert AnswerKept(s, j);
    }
    forall j | 0 <= j < |t.children| && EndedFailed(t.children[j]) ensures Came(t, j, t.children[j].pc.end.error) {
      assert Came(s, j, s.children[j].pc.end.error);
    }
    forall k | 0 <= k < |t.group.errors| ensures Seen(t, t.group.errors[k]) {
      if k < |s.group.errors| {
        assert Seen(s, s.group.errors[k]);
        var j :| 0 <= j < |s.children| && s.children[j].reaped && s.children[j].pc == Ended(Failed(s.group.errors[k]));
        assert t.children[j].reaped && t.children[j].pc == s.children[j].pc;
      } else {
        assert t.children[i].reaped && t.children[i].pc == Ended(Failed(t.group.errors[k]));
      }
    }
  }

  lemma GroupStepTraced<V, X>(s: State<V, X>, step: Step<V, X>)
    requires LatchInv(s) && Traced(s) && Can(s, step) && (step.Caller? || step.Environment?)
    ensures Traced(Next(s, step))
  {
    var t := Next(s, step);
    assert s.group.errors + s.group.bodyErrors == s.group.errors;
    forall j | 0 <= j < |t.children| && t.answers[j].Some? ensures AnswerKept(t, j) {
      assert AnswerKept(s, j);
    }
    forall j | 0 <= j < |t.children| && EndedFailed(t.children[j]) ensures Came(t, j, t.children[j].pc.end.error) {
      assert Came(s, j, s.children[j].pc.end.error);
    }
    forall k | 0 <= k < |t.group.errors| ensures Seen(t, t.group.errors[k]) {
      assert Seen(s, s.group.errors[k]);
    }
  }

  lemma StepTraced<V, X>(s: State<V, X>, step: Step<V, X>)
    requires Inv(s) && Traced(s) && Can(s, step)
    ensures Traced(Next(s, step))
  {
    match step
    case Start(i) => MoveTraced(s, step, i);
    case Cancel(i) => MoveTraced(s, step, i);
    case StrayCancel(i) => MoveTraced(s, step, i);
    case Return(i, call) => ReturnTraced(s, i, call);
    case Reap(i) => ReapTraced(s, i);
    case Caller => GroupStepTraced(s, step);
    case Environment(_) => GroupStepTraced(s, step);
  }

  lemma {:induction false} RunTraced<V, X>(s: State<V, X>, steps: seq<Step<V, X>>, t: State<V, X>)
    requires Inv(s) && Traced(s) && Reaches(s, steps, t)
    ensures Traced(t)
    decreases |steps|
  {
    if steps == [] {
    } else {
      StepInv(s, steps[0]);
      StepTraced(s, steps[0]);
      RunTraced(Next(s, steps[0]), steps[1..], t);
    }
  }

  lemma ReachableTraced<V, X>(cfg: Config, caller: Task, steps: seq<Step<V, X>>, s: State<V, X>)
    requires Reachable(cfg, caller, steps, s)
    ensures Traced(s)
  {
    InitInv<V, X>(cfg, caller);
    InitTraced<V, X>(cfg, caller);
    RunTraced(Init(cfg, caller), steps, s);
  }

  // ---------------------------------------------------------------------------------
  // What comes out
  // ---------------------------------------------------------------------------------

  /**
   A call that is over has raised a group with this error in it if and only if errors are not
   collected and the call of some item failed with it: nothing is raised that no item's call
   came to, and no failure is lost, whatever else happened.
   */
  lemma RaisedErrors<V, X>(cfg: Config, caller: Task, steps: seq<Step<V, X>>, s: State<V, X>, e: Error<X>)
    requires Reachable(cfg, caller, steps, s) && s.group.phase.Exited?
    ensures s.group.phase.exit.RaisedGroup? && e in s.group.phase.exit.errors <==>
              !cfg.collect && exists i :: Came(s, i, e)
    ensures s.group.phase.exit.RaisedGroup? ==> s.group.phase.exit.errors != [] && s.failed
  {
    ReachableInv(cfg, caller, steps, s);
    ReachableTraced(cfg, caller, steps, s);
    if s.group.phase.exit.RaisedGroup? && e in s.group.phase.exit.errors {
      assert Seen(s, e);
      var i :| 0 <= i < |s.children| && s.children[i].reaped && s.children[i].pc == Ended(Failed(e));
      assert Came(s, i, e);
    }
    if i: nat :| !cfg.collect && Came(s, i, e) {
      assert AnswerKept(s, i) && Reaped(s.children[i]) && EndedFailed(s.children[i]);
    }
  }

  /**
   And what a raised error blames is true of that item's own call: a deadline error means that
   this call's deadline fired, for the item at that index, and so on for every kind of error.
   */
  lemma RaisedBlame<V, X>(
    cfg: Config, caller: Task, steps: seq<Step<V, X>>, s: State<V, X>, e: Error<X>) returns (i: nat)
    requires Reachable(cfg, caller, steps, s) && s.group.phase.Exited? && s.group.phase.exit.RaisedGroup?
    requires e in s.group.phase.exit.errors
    ensures i < cfg.n == |s.answers| && s.answers[i].Some? && Blamed(cfg.owner, i, cfg.seconds, s.answers[i].value, e)
  {
    ReachableInv(cfg, caller, steps, s);
    RaisedErrors(cfg, caller, steps, s, e);
    i :| Came(s, i, e);
    FailureBlame(cfg.owner, i, cfg.seconds, s.answers[i].value, e);
  }

  // ---------------------------------------------------------------------------------
  // The first failure
  // ---------------------------------------------------------------------------------

  /** What the first child failed with that the group saw fail in the run. */
  ghost function FirstFailure<V, X>(s: State<V, X>, steps: seq<Step<V, X>>): Option<Error<X>>
    decreases |steps|
  {
    if steps == [] || !Can(s, steps[0]) then None
    else if steps[0].Reap? && s.children[steps[0].i].pc.end.Failed? then Some(s.children[steps[0].i].pc.end.error)
    else FirstFailure(Next(s, steps[0]), steps[1..])
  }

  lemma OnlyReapAdds<V, X>(s: State<V, X>, step: Step<V, X>)
    requires Can(s, step)
    ensures Next(s, step).group.errors ==
            if step.Reap? && s.children[step.i].pc.end.Failed?
            then s.group.errors + [s.children[step.i].pc.end.error]
            else s.group.errors
  {
    match step
    case Return(i, call) => GroupKept(s, i, call);
    case _ =>
  }

  lemma {:induction false} ErrorsGrow<V, X>(s: State<V, X>, steps: seq<Step<V, X>>, t: State<V, X>)
    requires Reaches(s, steps, t)
    ensures s.group.errors <= t.group.errors
    decreases |steps|
  {
    if steps == [] {
    } else {
      OnlyReapAdds(s, steps[0]);
      ErrorsGrow(Next(s, steps[0]), steps[1..], t);
    }
  }

  /** The group's errors begin with it. */
  lemma {:induction false} FirstFailureLeads<V, X>(s: State<V, X>, steps: seq<Step<V, X>>, t: State<V, X>)
    requires Reaches(s, steps, t) && s.group.errors == []
    ensures if FirstFailure(s, steps).None? then t.group.errors == []
            else t.group.errors != [] && FirstFailure(s, steps) == Some(t.group.errors[0])
    decreases |steps|
  {
    if steps == [] {
    } else {
      var s1 := Next(s, steps[0]);
      OnlyReapAdds(s, steps[0]);
      if s1.group.errors == [] {
        FirstFailureLeads(s1, steps[1..], t);
      } else {
        ErrorsGrow(s1, steps[1..], t);
      }
    }
  }

  /** A call that is over has raised its errors if and only if the group saw a child fail, and raises that first. */
  lemma RaisedFirst<V, X>(cfg: Config, caller: Task, steps: seq<Step<V, X>>, s: State<V, X>)
    requires Reachable(cfg, caller, steps, s) && s.group.phase.Exited?
    ensures s.group.phase.exit.RaisedGroup? <==> FirstFailure(Init(cfg, caller), steps).Some?
    ensures s.group.phase.exit.RaisedGroup? ==>
              s.group.phase.exit.errors != []
              && FirstFailure(Init(cfg, caller), steps) == Some(s.group.phase.exit.errors[0])
  {
    ReachableInv(cfg, caller, steps, s);
    ReachableTraced(cfg, caller, steps, s);
    FirstFailureLeads(Init(cfg, caller), steps, s);
  }
}
