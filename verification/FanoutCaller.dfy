/**
 What a `process` or a dispatch leaves in its caller's cancel count, and what the counts of
 its own tasks have to do with its outcome.
 */
module FanoutCaller {
  import opened Cancellation
  import opened Calls
  import opened FanoutModel
  import opened FanoutProofs

  // ---------------------------------------------------------------------------------
  // A call's group is a run of the cancel-count machine
  // ---------------------------------------------------------------------------------

  /** What a step is to the group. */
  function GroupEvents<V, X>(s: State<V, X>, step: Step<V, X>): seq<Event<Error<X>>>
    requires Can(s, step)
  {
    match step
    case Reap(i) => [ChildEnds(s.children[i].pc.end)]
    case Caller => if AllReaped(s) then [ParentWakes, GroupFinishes] else [ParentWakes]
    case Environment(e) => [e]
    case _ => []
  }

  lemma StepLeads<V, X>(s: State<V, X>, step: Step<V, X>)
    requires Can(s, step)
    ensures Leads(s.group, GroupEvents(s, step), Next(s, step).group)
  {
    match step
    case Return(i, call) => GroupKept(s, i, call);
    case Caller =>
      if AllReaped(s) {
        assert [ParentWakes, GroupFinishes][1..] == [Event<Error<X>>.GroupFinishes];
        assert Leads(Wake(s.group), [GroupFinishes], Finish(Wake(s.group)));
      }
    case _ =>
  }

  ghost function GroupRun<V, X>(s: State<V, X>, steps: seq<Step<V, X>>): seq<Event<Error<X>>>
    decreases |steps|
  {
    if steps == [] || !Can(s, steps[0]) then []
    else GroupEvents(s, steps[0]) + GroupRun(Next(s, steps[0]), steps[1..])
  }

  lemma {:induction false} RunLeads<V, X>(s: State<V, X>, steps: seq<Step<V, X>>, t: State<V, X>)
    requires Reaches(s, steps, t)
    ensures Leads(s.group, GroupRun(s, steps), t.group)
    decreases |steps|
  {
    if steps == [] {
    } else {
      var s1 := Next(s, steps[0]);
      StepLeads(s, steps[0]);
      RunLeads(s1, steps[1..], t);
      LeadsOn(s.group, GroupEvents(s, steps[0]), s1.group, GroupRun(s1, steps[1..]), t.group);
    }
  }

  /** What happened to the group of a call, from entering it. */
  ghost function CallEvents<V, X>(cfg: Config, caller: Task, steps: seq<Step<V, X>>): seq<Event<Error<X>>> {
    [BodyEnds(BodyReturned)] + GroupRun(Init(cfg, caller), steps)
  }

  /** So what holds of every run of the machine holds of the group of every call. */
  lemma CallLeads<V, X>(cfg: Config, caller: Task, steps: seq<Step<V, X>>, s: State<V, X>)
    requires Reachable(cfg, caller, steps, s)
    ensures Leads(Enter(caller), CallEvents(cfg, caller, steps), s.group)
  {
    RunLeads(Init(cfg, caller), steps, s);
    assert CallEvents(cfg, caller, steps)[1..] == GroupRun(Init(cfg, caller), steps);
  }

  /**
   How the call ends: exactly if the group saw children fail it raises their errors, in the order
   in which it saw them; exactly if none failed and a cancel was delivered to the waiting caller
   it is cancelled; and otherwise it returns.
   */
  lemma EndsExactly<V, X>(cfg: Config, caller: Task, steps: seq<Step<V, X>>, s: State<V, X>)
    requires Reachable(cfg, caller, steps, s) && s.group.phase.Exited?
    ensures var exit, es := s.group.phase.exit, GroupRun(Init(cfg, caller), steps);
            && (exit.RaisedGroup? <==> ErrorsIn(es) != [])
            && (exit.RaisedGroup? ==> exit.errors == ErrorsIn(es))
            && (exit.RaisedCancelled? <==> ErrorsIn(es) == [] && Interrupted(Init<V, X>(cfg, caller).group, es))
  {
    CallLeads(cfg, caller, steps, s);
    ExitExactly(caller, GroupRun(Init(cfg, caller), steps), s.group);
  }

  /**
   What a child reads as a stop, at any moment: a latched failure, a cancel that the caller
   came with live, or one that outsiders sent and did not take back. No count of a child's own
   task, and no count that the caller came with, enters into it.
   */
  lemma StoppingExact<V, X>(cfg: Config, caller: Task, steps: seq<Step<V, X>>, s: State<V, X>)
    requires Reachable(cfg, caller, steps, s) && s.group.phase.Exiting?
    ensures s.Stopping() <==>
              || s.failed || CameWithCancel(caller, s.group.task)
              || NetOutside(Enter(caller), CallEvents(cfg, caller, steps)) > 0
  {
    ReachableInv(cfg, caller, steps, s);
    ProbeKept(Init(cfg, caller), steps, s);
    CallLeads(cfg, caller, steps, s);
    BookedRight(Enter(caller), CallEvents(cfg, caller, steps), s.group);
  }

  /**
   However the call ends, the caller's count is its entry count plus what outsiders did, and
   one more exactly if the group's undo met a count that outsiders had emptied. The deferred
   re-arm does something exactly when a cancel is then outstanding: one that the caller came
   with live, one that outsiders sent and did not take back, or that one too many.
   */
  lemma CallerCountRestored<V, X>(cfg: Config, caller: Task, steps: seq<Step<V, X>>, s: State<V, X>)
    requires Reachable(cfg, caller, steps, s) && s.group.phase.Exited?
    ensures var es := CallEvents(cfg, caller, steps);
            var surplus := Surplus(caller, es);
            && s.group.task.cancelling == caller.cancelling + NetOutside(Enter(caller), es) + surplus
            && (surplus > 0 ==> s.group.requested && s.group.phase.exit.RaisedGroup?)
            && (Rearm(s.group.task, s.group.probe) != s.group.task <==>
                Outstanding(caller, es, s.group.task) + surplus > 0)
    ensures s.group.probe == ProbeOf(caller)
  {
    ReachableInv(cfg, caller, steps, s);
    CallLeads(cfg, caller, steps, s);
    ProbeKept(Init(cfg, caller), steps, s);
    CountConservedOnExit(caller, CallEvents(cfg, caller, steps), s.group);
    RearmExact(caller, CallEvents(cfg, caller, steps), s.group);
  }

  // ---------------------------------------------------------------------------------
  // The counts of the call's own tasks
  // ---------------------------------------------------------------------------------

  /** Two states that differ only in how the counts stood when the calls came back. */
  ghost predicate SameButAnswers<V, X>(s: State<V, X>, t: State<V, X>) {
    |s.answers| == |t.answers| && t.(answers := s.answers) == s
  }

  /** The same step, or the same call coming back with other counts on its own task that read alike. */
  ghost predicate DriftsTo<V, X>(s: State<V, X>, a: Step<V, X>, b: Step<V, X>) {
    if !a.Return? then a == b
    else b.Return? && b.i == a.i && ReadAlike(s.Stopping(), a.call, b.call)
  }

  /** Two schedules that differ only in what the user's calls do to the counts of their own tasks. */
  ghost predicate Drifted<V, X>(s: State<V, X>, steps: seq<Step<V, X>>, drifted: seq<Step<V, X>>)
    decreases |steps|
  {
    && |steps| == |drifted|
    && (steps != [] ==>
          && Can(s, steps[0]) && DriftsTo(s, steps[0], drifted[0])
          && Drifted(Next(s, steps[0]), steps[1..], drifted[1..]))
  }

  lemma ArrivesAlike<V, X>(s: State<V, X>, t: State<V, X>, i: nat, a: Call<V, X>, b: Call<V, X>)
    requires i < |s.children| == |s.answers| && s.inUse > 0 && SameButAnswers(s, t)
    ensures SameButAnswers(AnswerArrives(s, i, a), AnswerArrives(t, i, b))
  {
  }

  lemma ConcludesAlike<V, X>(s: State<V, X>, t: State<V, X>, i: nat, verdict: Verdict<V, X>)
    requires i < |s.children| && i < |s.results| && SameButAnswers(s, t)
    ensures SameButAnswers(Conclude(s, i, verdict), Conclude(t, i, verdict))
  {
  }

  lemma DriftedReturn<V, X>(s: State<V, X>, t: State<V, X>, i: nat, a: Call<V, X>, b: Call<V, X>)
    requires Can(s, Return(i, a)) && SameButAnswers(s, t) && ReadAlike(s.Stopping(), a, b)
    ensures Can(t, Return(i, b)) && SameButAnswers(ItemReturns(s, i, a), ItemReturns(t, i, b))
  {
    var verdict := Settle(s.cfg.owner, i, s.cfg.seconds, s.Stopping(), a);
    ReadAlikeExactly(s.cfg.owner, i, s.cfg.seconds, s.Stopping(), a, b);
    ArrivesAlike(s, t, i, a, b);
    ConcludesAlike(AnswerArrives(s, i, a), AnswerArrives(t, i, b), i, verdict);
  }

  lemma DriftedStep<V, X>(s: State<V, X>, t: State<V, X>, a: Step<V, X>, b: Step<V, X>)
    requires Can(s, a) && SameButAnswers(s, t) && DriftsTo(s, a, b)
    ensures Can(t, b) && SameButAnswers(Next(s, a), Next(t, b))
  {
    match a
    case Return(i, call) => DriftedReturn(s, t, i, call, b.call);
    case _ =>
  }

  /**
   Over a whole run, however far those counts drift, everything comes out the same except for
   the record of the counts. Where a deadline fires during a teardown and a CancelledError comes
   out, the drift must not cross the one threshold that `asyncio.timeout` itself looks at.
   */
  lemma {:induction false} DriftDoesNotMatter<V, X>(
    s: State<V, X>, u: State<V, X>, steps: seq<Step<V, X>>, drifted: seq<Step<V, X>>, t: State<V, X>)
    returns (w: State<V, X>)
    requires SameButAnswers(s, u) && Reaches(s, steps, t) && Drifted(s, steps, drifted)
    ensures Reaches(u, drifted, w) && SameButAnswers(t, w)
    decreases |steps|
  {
    if steps == [] {
      w := u;
    } else {
      DriftedStep(s, u, steps[0], drifted[0]);
      w := DriftDoesNotMatter(Next(s, steps[0]), Next(u, drifted[0]), steps[1..], drifted[1..], t);
    }
  }
}
