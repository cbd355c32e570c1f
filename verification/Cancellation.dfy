/** Cancellation of the task that calls a pipeline. */
module Cancellation {

  // An asyncio task counts its cancel requests. Nothing distinguishes a request that a
  // TaskGroup made to wake its own parent from one that a user made, so the library keeps
  // a probe of the caller's count and repairs the count when a group exits. This module
  // states the stdlib's rules (CPython 3.11 and 3.12) as functions on values, the library's
  // additions on top of them, and what is kept over every interleaving of the group's own
  // events with those of outsiders.

  /**
   The caller's task. `undelivered` says that a cancel was requested and has not been
   thrown into the task yet; several requests collapse into one delivery. `rearms` is
   the task's entry in the library's re-arm table.
   */
  datatype Task = Task(cancelling: nat, undelivered: bool, rearms: nat, done: bool) {

    function Cancel(): Task {
      if done then this else this.(cancelling := cancelling + 1, undelivered := true)
    }

    /** Does not take back a request that is still undelivered. */
    function Uncancel(): Task {
      if cancelling > 0 then this.(cancelling := cancelling - 1) else this
    }
  }

  // ---------------------------------------------------------------------------------
  // The probe and the deferred re-arm
  // ---------------------------------------------------------------------------------

  /** What a pipeline remembers of its caller from the moment it was entered. */
  datatype Probe = Probe(baseline: nat, pending: bool, rearms: nat) {

    /** One of the cancels counted in `baseline` is real and was not delivered before entry. */
    predicate BroughtIn(t: Task) {
      pending || t.rearms != rearms
    }

    predicate Cancelled(t: Task) {
      BroughtIn(t) || t.cancelling > baseline
    }

    function Live(t: Task): int {
      if BroughtIn(t) then 1 else 0
    }
  }

  function ProbeOf(t: Task): Probe {
    Probe(t.cancelling, t.undelivered, t.rearms)
  }

  predicate RearmFires(t: Task, probe: Probe) {
    !t.done && t.cancelling > probe.baseline - probe.Live(t)
  }

  /** The callback that runs one loop step after a group raised its errors. */
  function Rearm(t: Task, probe: Probe): Task {
    if RearmFires(t, probe)
    then t.Uncancel().Cancel().(rearms := t.rearms + 1)
    else t
  }

  // ---------------------------------------------------------------------------------
  // The group
  // ---------------------------------------------------------------------------------

  datatype ChildEnd<+E> = Finished | CancelledEnd | Failed(error: E)

  datatype BodyEnd<+E> = BodyReturned | BodyCancelled | BodyRaised(error: E)

  datatype Exit<+E> = Returned | RaisedGroup(errors: seq<E>) | RaisedCancelled

  datatype Phase<+E> = Body | Exiting | Exited(exit: Exit<E>)

  /**
   A task group and the task it belongs to.

   `requested` and `requestedBefore` are about the one cancel that the group itself may
   send to its parent; `propagate` is the cancellation that the group will re-raise when
   it has no errors. The last two fields are history that no decision reads: `outside`
   is the net change that outsiders made to the parent's count since entry, and
   `clamped` records that the group undid its request when the count was already zero.
   */
  datatype Group<+E> = Group(
    task: Task,
    probe: Probe,
    phase: Phase<E>,
    aborting: bool,
    requested: bool,
    requestedBefore: bool,
    propagate: bool,
    errors: seq<E>,
    bodyErrors: seq<E>,
    outside: int,
    clamped: bool)

  function Enter<E>(t: Task): Group<E> {
    Group(t, ProbeOf(t), Body, false, false, false, false, [], [], 0, false)
  }

  /** The done callback of a child: only a real error has any effect. */
  function ChildDone<E>(g: Group<E>, end: ChildEnd<E>): Group<E> {
    if !end.Failed? then g
    else
      var g1 := g.(errors := g.errors + [end.error]);
      if g.aborting || g.requested then g1
      else g1.(aborting := true, requested := true, task := g.task.Cancel())
  }

  /** Undoing the group's own request, as the stdlib and the library both do it. */
  function UndoRequest<E>(g: Group<E>): Group<E> {
    g.(task := g.task.Uncancel(), clamped := g.clamped || g.task.cancelling == 0)
  }

  /** Entering `__aexit__`. A body that ended cancelled has had its cancel delivered. */
  function BodyDone<E>(g: Group<E>, end: BodyEnd<E>): Group<E> {
    var g0 := if end.BodyCancelled? then g.(task := g.task.(undelivered := false)) else g;
    var g1 := if g.requested then UndoRequest(g0) else g0;
    g1.(phase := Exiting,
        requestedBefore := g.requested,
        propagate := end.BodyCancelled? && !(g.requested && g1.task.cancelling == 0),
        aborting := g.aborting || !end.BodyReturned?,
        bodyErrors := if end.BodyRaised? then [end.error] else [])
  }

  /** The parent resumes inside `__aexit__`: a cancel is delivered there, once. */
  function Wake<E>(g: Group<E>): Group<E> {
    if !g.task.undelivered then g
    else g.(task := g.task.(undelivered := false),
            propagate := g.propagate || !g.aborting,
            aborting := true)
  }

  /** Every child is done: the group decides how it exits. */
  function Finish<E>(g: Group<E>): Group<E> {
    var raised := g.errors + g.bodyErrors;
    if g.propagate && g.errors == [] then g.(phase := Exited(RaisedCancelled))
    else if raised == [] then g.(phase := Exited(Returned))
    else
      var g1 := if g.requested && !g.requestedBefore then UndoRequest(g) else g;
      g1.(phase := Exited(RaisedGroup(raised)))
  }

  /** An outsider changed the parent's task; the change of the count is booked. */
  function Outside<E>(g: Group<E>, t: Task): Group<E> {
    g.(task := t, outside := g.outside + t.cancelling - g.task.cancelling)
  }

  // ---------------------------------------------------------------------------------
  // Runs
  // ---------------------------------------------------------------------------------

  datatype Event<+E> =
    | OutsideCancel
    | OutsideUncancel
    | EarlierRearm(earlier: Probe)  // deferred by a group that exited before this one was entered
    | ChildEnds(end: ChildEnd<E>)
    | BodyEnds(body: BodyEnd<E>)
    | ParentWakes
    | GroupFinishes
    | CallerEnds

  /** What outsiders may do to the parent at any time. */
  predicate IsOutside<E>(e: Event<E>) {
    e.OutsideCancel? || e.OutsideUncancel? || e.EarlierRearm?
  }

  predicate Enabled<E>(g: Group<E>, e: Event<E>) {
    match e
    case OutsideCancel => true
    case OutsideUncancel => true
    case EarlierRearm(_) => true
    case ChildEnds(_) => !g.phase.Exited?
    case BodyEnds(_) => g.phase.Body?
    case ParentWakes => g.phase.Exiting?
    case GroupFinishes => g.phase.Exiting?
    case CallerEnds => g.phase.Exited?
  }

  function Apply<E>(g: Group<E>, e: Event<E>): Group<E> {
    match e
    case OutsideCancel => Outside(g, g.task.Cancel())
    case OutsideUncancel => Outside(g, g.task.Uncancel())
    case EarlierRearm(earlier) => Outside(g, Rearm(g.task, earlier))
    case ChildEnds(end) => ChildDone(g, end)
    case BodyEnds(body) => BodyDone(g, body)
    case ParentWakes => Wake(g)
    case GroupFinishes => Finish(g)
    case CallerEnds => g.(task := g.task.(done := true))
  }

  /** `h` is reached from `g` by the events `es`, each possible when it happens. */
  ghost predicate Leads<E>(g: Group<E>, es: seq<Event<E>>, h: Group<E>)
    decreases |es|
  {
    if es == [] then g == h
    else Enabled(g, es[0]) && Leads(Apply(g, es[0]), es[1..], h)
  }

  lemma {:induction false} LeadsOn<E>(g: Group<E>, es: seq<Event<E>>, h: Group<E>, fs: seq<Event<E>>, k: Group<E>)
    requires Leads(g, es, h) && Leads(h, fs, k)
    ensures Leads(g, es + fs, k)
    decreases |es|
  {
    if es == [] {
      assert es + fs == fs;
    } else {
      assert (es + fs)[1..] == es[1..] + fs;
      LeadsOn(Apply(g, es[0]), es[1..], h, fs, k);
    }
  }

  /** What outsiders did to the parent's count, read off the run: each event's own change. */
  ghost function NetOutside<E>(g: Group<E>, es: seq<Event<E>>): int
    decreases |es|
  {
    if es == [] then 0
    else
      var h := Apply(g, es[0]);
      (if IsOutside(es[0]) then h.task.cancelling - g.task.cancelling else 0) + NetOutside(h, es[1..])
  }

  lemma BookedStep<E>(g: Group<E>, e: Event<E>)
    ensures Apply(g, e).outside ==
            g.outside + (if IsOutside(e) then Apply(g, e).task.cancelling - g.task.cancelling else 0)
  {
  }

  lemma {:induction false} BookedRight<E>(g: Group<E>, es: seq<Event<E>>, h: Group<E>)
    requires Leads(g, es, h)
    ensures h.outside == g.outside + NetOutside(g, es)
    decreases |es|
  {
    if es == [] {
    } else {
      BookedStep(g, es[0]);
      BookedRight(Apply(g, es[0]), es[1..], h);
    }
  }

  /**
   The caller came with a live cancel: one was due on entry, or the re-arm of an earlier group
   has announced one since.
   */
  predicate CameWithCancel(entry: Task, now: Task) {
    entry.undelivered || now.rearms != entry.rearms
  }

  /** The cancels still outstanding for a caller that entered as `entry`, but for an undo's surplus. */
  ghost function Outstanding<E>(entry: Task, es: seq<Event<E>>, now: Task): int {
    (if CameWithCancel(entry, now) then 1 else 0) + NetOutside(Enter<E>(entry), es)
  }

  // ---------------------------------------------------------------------------------
  // Conservation of the caller's cancel count
  // ---------------------------------------------------------------------------------

  /** The group's own request, while it still stands in the parent's count. */
  function Own<E>(g: Group<E>): int {
    if g.requested && (g.phase.Body? || (g.phase.Exiting? && !g.requestedBefore)) then 1 else 0
  }

  predicate GroupInv<E>(g: Group<E>) {
    && g.task.cancelling == g.probe.baseline + g.outside + Own(g) + (if g.clamped then 1 else 0)
    && g.probe.rearms <= g.task.rearms
    && (g.requested ==> g.aborting && g.errors != [])
    && (g.phase.Body? ==> !g.requestedBefore && !g.propagate && g.bodyErrors == [])
    && (g.aborting ==> g.errors != [] || g.propagate || g.bodyErrors != [])
    && (g.task.done ==> g.phase.Exited?)
    && (g.clamped ==> g.requested && Own(g) == 0)
    && (g.requestedBefore ==> g.requested)
  }

  lemma EnterInv<E>(t: Task)
    requires !t.done
    ensures GroupInv(Enter<E>(t))
  {
  }

  lemma ChildDoneInv<E>(g: Group<E>, end: ChildEnd<E>)
    requires GroupInv(g) && !g.phase.Exited?
    ensures GroupInv(ChildDone(g, end))
  {
  }

  lemma BodyDoneInv<E>(g: Group<E>, end: BodyEnd<E>)
    requires GroupInv(g) && g.phase.Body?
    ensures GroupInv(BodyDone(g, end))
  {
  }

  lemma WakeInv<E>(g: Group<E>)
    requires GroupInv(g) && g.phase.Exiting?
    ensures GroupInv(Wake(g))
  {
  }

  lemma FinishInv<E>(g: Group<E>)
    requires GroupInv(g) && g.phase.Exiting?
    ensures GroupInv(Finish(g))
  {
  }

  lemma OutsideInv<E>(g: Group<E>, t: Task)
    requires GroupInv(g) && t.done == g.task.done && g.task.rearms <= t.rearms
    ensures GroupInv(Outside(g, t))
  {
  }

  lemma ApplyInv<E>(g: Group<E>, e: Event<E>)
    requires GroupInv(g) && Enabled(g, e)
    ensures GroupInv(Apply(g, e))
    ensures Apply(g, e).probe == g.probe
    ensures g.task.rearms <= Apply(g, e).task.rearms
  {
    match e
    case OutsideCancel => OutsideInv(g, g.task.Cancel());
    case OutsideUncancel => OutsideInv(g, g.task.Uncancel());
    case EarlierRearm(earlier) => OutsideInv(g, Rearm(g.task, earlier));
    case ChildEnds(end) => ChildDoneInv(g, end);
    case BodyEnds(body) => BodyDoneInv(g, body);
    case ParentWakes => WakeInv(g);
    case GroupFinishes => FinishInv(g);
    case CallerEnds =>
  }

  lemma {:induction false} LeadsInv<E>(g: Group<E>, es: seq<Event<E>>, h: Group<E>)
    requires GroupInv(g) && Leads(g, es, h)
    ensures GroupInv(h) && h.probe == g.probe && g.task.rearms <= h.task.rearms
    decreases |es|
  {
    if es == [] {
    } else {
      ApplyInv(g, es[0]);
      LeadsInv(Apply(g, es[0]), es[1..], h);
    }
  }

  lemma {:induction false} ErrorsMeanGroup<E>(g: Group<E>, es: seq<Event<E>>, h: Group<E>)
    requires GroupInv(g) && Leads(g, es, h)
    requires g.phase.Exited? && g.errors != [] ==> g.phase.exit.RaisedGroup?
    ensures h.phase.Exited? && h.errors != [] ==> h.phase.exit.RaisedGroup?
    decreases |es|
  {
    if es == [] {
    } else {
      ApplyInv(g, es[0]);
      ErrorsMeanGroup(Apply(g, es[0]), es[1..], h);
    }
  }

  function ChildError<E>(e: Event<E>): seq<E> {
    if e.ChildEnds? && e.end.Failed? then [e.end.error] else []
  }

  function BodyError<E>(e: Event<E>): seq<E> {
    if e.BodyEnds? && e.body.BodyRaised? then [e.body.error] else []
  }

  /** The errors of the children that the group saw fail, in the order in which it saw them. */
  function ErrorsIn<E>(es: seq<Event<E>>): seq<E> {
    if es == [] then [] else ChildError(es[0]) + ErrorsIn(es[1..])
  }

  function BodyErrorsIn<E>(es: seq<Event<E>>): seq<E> {
    if es == [] then [] else BodyError(es[0]) + BodyErrorsIn(es[1..])
  }

  lemma ErrorsStep<E>(g: Group<E>, e: Event<E>, rest: seq<E>)
    ensures Apply(g, e).errors + rest == g.errors + (ChildError(e) + rest)
  {
    assert Apply(g, e).errors == g.errors + ChildError(e);
  }

  lemma {:induction false} ErrorsInOrder<E>(g: Group<E>, es: seq<Event<E>>, h: Group<E>)
    requires Leads(g, es, h)
    ensures h.errors == g.errors + ErrorsIn(es)
    decreases |es|
  {
    if es == [] {
    } else {
      ErrorsStep(g, es[0], ErrorsIn(es[1..]));
      ErrorsInOrder(Apply(g, es[0]), es[1..], h);
    }
  }

  lemma BodyErrorsStep<E>(g: Group<E>, e: Event<E>, rest: seq<E>)
    requires Enabled(g, e) && (g.phase.Body? ==> g.bodyErrors == [])
    ensures Apply(g, e).bodyErrors + rest == g.bodyErrors + (BodyError(e) + rest)
    ensures Apply(g, e).phase.Body? ==> Apply(g, e).bodyErrors == []
  {
    assert Apply(g, e).bodyErrors == g.bodyErrors + BodyError(e) by {
      if e.BodyEnds? { assert g.bodyErrors == []; }
    }
  }

  lemma {:induction false} BodyErrorsInOrder<E>(g: Group<E>, es: seq<Event<E>>, h: Group<E>)
    requires Leads(g, es, h) && (g.phase.Body? ==> g.bodyErrors == [])
    ensures h.bodyErrors == g.bodyErrors + BodyErrorsIn(es)
    decreases |es|
  {
    if es == [] {
    } else {
      BodyErrorsStep(g, es[0], BodyErrorsIn(es[1..]));
      BodyErrorsInOrder(Apply(g, es[0]), es[1..], h);
    }
  }

  /** A group that exited with errors raised all that it had. */
  ghost predicate RaisedAll<E>(g: Group<E>) {
    g.phase.Exited? && g.phase.exit.RaisedGroup? ==> g.phase.exit.errors == g.errors + g.bodyErrors
  }

  lemma RaisedAllStep<E>(g: Group<E>, e: Event<E>)
    requires RaisedAll(g) && Enabled(g, e)
    ensures RaisedAll(Apply(g, e))
  {
  }

  lemma {:induction false} RaisedAllKept<E>(g: Group<E>, es: seq<Event<E>>, h: Group<E>)
    requires RaisedAll(g) && Leads(g, es, h)
    ensures RaisedAll(h)
    decreases |es|
  {
    if es == [] {
    } else {
      RaisedAllStep(g, es[0]);
      RaisedAllKept(Apply(g, es[0]), es[1..], h);
    }
  }

  /** What a group raises: every failure it saw, in the order in which it saw them. */
  lemma RaisedInOrder<E>(t: Task, es: seq<Event<E>>, h: Group<E>)
    requires Leads(Enter(t), es, h) && h.phase.Exited? && h.phase.exit.RaisedGroup?
    ensures h.phase.exit.errors == ErrorsIn(es) + BodyErrorsIn(es)
  {
    var g := Enter<E>(t);
    ErrorsInOrder(g, es, h);
    BodyErrorsInOrder(g, es, h);
    RaisedAllKept(g, es, h);
    assert g.errors + ErrorsIn(es) == ErrorsIn(es) && g.bodyErrors + BodyErrorsIn(es) == BodyErrorsIn(es);
  }

  /** A cancel was delivered to the parent while it waited for its children. */
  ghost predicate Interrupted<E>(g: Group<E>, es: seq<Event<E>>)
    decreases |es|
  {
    && es != []
    && ((es[0].ParentWakes? && g.task.undelivered) || Interrupted(Apply(g, es[0]), es[1..]))
  }

  /** While a group waits whose body has returned, and after: it aborts only for a failed child or a cancel. */
  predicate WaitInv<E>(g: Group<E>) {
    && !g.phase.Body? && |g.bodyErrors| == 0
    && (g.aborting <==> |g.errors| > 0 || g.propagate) && (g.requested ==> g.aborting)
    && (g.phase.Exited? ==>
          && (g.phase.exit.RaisedGroup? <==> |g.errors| > 0)
          && (g.phase.exit.Returned? <==> !g.aborting))
  }

  lemma WaitStep<E>(g: Group<E>, e: Event<E>)
    requires WaitInv(g) && Enabled(g, e)
    ensures WaitInv(Apply(g, e))
    ensures Apply(g, e).aborting <==> g.aborting || ChildError(e) != [] || (e.ParentWakes? && g.task.undelivered)
  {
  }

  lemma {:induction false} WaitRun<E>(g: Group<E>, es: seq<Event<E>>, h: Group<E>)
    requires WaitInv(g) && Leads(g, es, h)
    ensures WaitInv(h) && (h.aborting <==> g.aborting || ErrorsIn(es) != [] || Interrupted(g, es))
    decreases |es|
  {
    if es == [] {
    } else {
      WaitStep(g, es[0]);
      WaitRun(Apply(g, es[0]), es[1..], h);
    }
  }

  /**
   How a group ends whose body returned: exactly if it saw children fail it raises their errors,
   in the order in which it saw them; exactly if none failed and a cancel was delivered while it
   waited it is cancelled; and otherwise it returns.
   */
  lemma ExitExactly<E>(t: Task, es: seq<Event<E>>, h: Group<E>)
    requires Leads(Enter(t), [BodyEnds(BodyReturned)] + es, h) && h.phase.Exited?
    ensures h.phase.exit.RaisedGroup? <==> ErrorsIn(es) != []
    ensures h.phase.exit.RaisedGroup? ==> h.phase.exit.errors == ErrorsIn(es)
    ensures h.phase.exit.RaisedCancelled? <==>
              ErrorsIn(es) == [] && Interrupted(BodyDone(Enter<E>(t), BodyReturned), es)
  {
    var all, g := [BodyEnds(BodyReturned)] + es, BodyDone(Enter<E>(t), BodyReturned);
    assert all[1..] == es;
    WaitRun(g, es, h);
    ErrorsInOrder(g, es, h);
    RaisedAllKept(g, es, h);
  }

  /** The event takes the group's own request back: at the top of `__aexit__`, or when errors are raised. */
  predicate Undoes<E>(g: Group<E>, e: Event<E>) {
    g.requested && (e.BodyEnds? || (e.GroupFinishes? && !g.requestedBefore))
  }

  /**
   Some undo meets a count from which outsiders have already taken all that the caller came
   with, all that they added, and the group's own request.
   */
  ghost predicate UndoneAgainstNothing<E>(g: Group<E>, es: seq<Event<E>>)
    decreases |es|
  {
    && es != []
    && (|| (Undoes(g, es[0]) && g.probe.baseline + g.outside < 0)
        || UndoneAgainstNothing(Apply(g, es[0]), es[1..]))
  }

  lemma ClampedStep<E>(g: Group<E>, e: Event<E>)
    requires GroupInv(g) && Enabled(g, e)
    ensures Apply(g, e).clamped <==> g.clamped || (Undoes(g, e) && g.probe.baseline + g.outside < 0)
  {
  }

  lemma {:induction false} ClampedExactly<E>(g: Group<E>, es: seq<Event<E>>, h: Group<E>)
    requires GroupInv(g) && Leads(g, es, h)
    ensures h.clamped <==> g.clamped || UndoneAgainstNothing(g, es)
    decreases |es|
  {
    if es == [] {
    } else {
      ApplyInv(g, es[0]);
      ClampedStep(g, es[0]);
      ClampedExactly(Apply(g, es[0]), es[1..], h);
    }
  }

  /** What an undo against nothing leaves too many of in the caller's count. */
  ghost function Surplus<E>(t: Task, es: seq<Event<E>>): (n: nat)
  {
    if UndoneAgainstNothing(Enter<E>(t), es) then 1 else 0
  }

  /**
   Whatever happens between entering a group and its exit, the group's own request is
   gone from the caller's count: what is left is the entry count and the net effect of
   outsiders, and one too many exactly if an undo met a count that outsiders had emptied.
   */
  lemma {:induction false} CountConservedOnExit<E>(t: Task, es: seq<Event<E>>, h: Group<E>)
    requires !t.done && Leads(Enter(t), es, h) && h.phase.Exited?
    ensures h.task.cancelling == t.cancelling + NetOutside(Enter<E>(t), es) + Surplus(t, es)
    ensures UndoneAgainstNothing(Enter<E>(t), es) ==> h.requested && h.phase.exit.RaisedGroup?
  {
    BookedRight(Enter(t), es, h);
    EnterInv<E>(t);
    LeadsInv(Enter(t), es, h);
    ClampedExactly(Enter(t), es, h);
    ErrorsMeanGroup(Enter(t), es, h);
  }

  /** No outsider takes a cancel back. */
  ghost predicate NothingTakenBack<E>(es: seq<Event<E>>) {
    es != [] ==> !es[0].OutsideUncancel? && NothingTakenBack(es[1..])
  }

  lemma RearmAdds(t: Task, probe: Probe)
    ensures Rearm(t, probe).cancelling >= t.cancelling
  {
  }

  lemma OnlyAdded<E>(g: Group<E>, e: Event<E>)
    requires !e.OutsideUncancel?
    ensures Apply(g, e).outside >= g.outside
  {
    BookedStep(g, e);
    if e.EarlierRearm? { RearmAdds(g.task, e.earlier); }
  }

  /** Then outsiders only add to the count, and no undo meets an empty one. */
  lemma {:induction false} NothingTakenBackIsSafe<E>(g: Group<E>, es: seq<Event<E>>, h: Group<E>)
    requires GroupInv(g) && g.outside >= 0 && Leads(g, es, h) && NothingTakenBack(es)
    ensures h.outside >= 0 && !UndoneAgainstNothing(g, es)
    decreases |es|
  {
    if es == [] {
    } else {
      ApplyInv(g, es[0]);
      OnlyAdded(g, es[0]);
      NothingTakenBackIsSafe(Apply(g, es[0]), es[1..], h);
    }
  }

  /** A run in which that happens: an outsider takes back the cancel that the group requested. */
  lemma UndoneAgainstNothingHappens(es: seq<Event<int>>, h: Group<int>)
    requires es == [BodyEnds(BodyReturned), ChildEnds(Failed(7)), OutsideUncancel, GroupFinishes]
    requires Leads(Enter(Task(0, false, 0, false)), es, h)
    ensures UndoneAgainstNothing(Enter<int>(Task(0, false, 0, false)), es)
    ensures h.clamped && h.outside == -1 && h.task.cancelling == 0 && h.phase.Exited?
  {
    var g0 := Enter<int>(Task(0, false, 0, false));
    var g1 := Apply(g0, es[0]);
    var g2 := Apply(g1, es[1]);
    var g3 := Apply(g2, es[2]);
    assert g3.errors == [7] && g3.bodyErrors == [] && g3.outside == -1 && Undoes(g3, es[3]);
    var g4 := Apply(g3, es[3]);
    assert [7] + [] == [7];
    assert Leads(g1, es[1..], h) && es[1..][0] == es[1];
    assert es[1..][1..] == es[2..] && Leads(g2, es[2..], h) && es[2..][0] == es[2];
    assert es[2..][1..] == es[3..] && Leads(g3, es[3..], h) && es[3..][0] == es[3];
    assert es[3..][1..] == [] && Leads(g4, es[3..][1..], h);
    assert UndoneAgainstNothing(g3, es[3..]);
    assert UndoneAgainstNothing(g2, es[2..]);
    assert UndoneAgainstNothing(g1, es[1..]);
  }

  // ---------------------------------------------------------------------------------
  // The re-arm
  // ---------------------------------------------------------------------------------

  /**
   The deferred step re-delivers exactly when a cancel is still outstanding: one brought
   in live, or one that outsiders added and did not take back, or the one too many that an
   undo against nothing left. The stale part of the entry count, however large, plays no role.
   */
  lemma {:induction false} RearmExact<E>(t: Task, es: seq<Event<E>>, h: Group<E>)
    requires !t.done && Leads(Enter(t), es, h) && h.phase.Exited? && !h.task.done
    ensures Rearm(h.task, h.probe) != h.task <==> Outstanding(t, es, h.task) + Surplus(t, es) > 0
    ensures RearmFires(h.task, h.probe) <==> Outstanding(t, es, h.task) + Surplus(t, es) > 0
  {
    BookedRight(Enter(t), es, h);
    EnterInv<E>(t);
    LeadsInv(Enter(t), es, h);
    ClampedExactly(Enter(t), es, h);
  }

  /** A leaked count that nobody touched is never re-delivered, and never read as a cancel. */
  lemma {:induction false} LeakNeverFires<E>(t: Task, es: seq<Event<E>>, h: Group<E>)
    requires !t.done && !t.undelivered && Leads(Enter(t), es, h) && h.phase.Exited?
    requires NetOutside(Enter<E>(t), es) + Surplus(t, es) <= 0 && h.task.rearms == t.rearms
    ensures Rearm(h.task, h.probe) == h.task && !h.probe.Cancelled(h.task)
  {
    BookedRight(Enter(t), es, h);
    ClampedExactly(Enter(t), es, h);
    EnterInv<E>(t);
    LeadsInv(Enter(t), es, h);
  }

  /** What a firing re-arm does: the cancel is due again, is counted once, and is announced. */
  lemma RearmDelivers(t: Task, probe: Probe)
    requires RearmFires(t, probe)
    ensures Rearm(t, probe).undelivered
    ensures Rearm(t, probe).rearms == t.rearms + 1
    ensures Rearm(t, probe).cancelling == t.cancelling <==> t.cancelling > 0
    ensures t.cancelling == 0 ==>
              probe.baseline == 0 && (probe.pending || t.rearms != probe.rearms) && Rearm(t, probe).cancelling == 1
  {
  }

  /**
   The count is not always left alone. A cancel that its owner took back before the
   pipeline was entered, but whose delivery was still due, counts as brought in; the
   baseline drops below zero, and the re-arm raises a count that was zero.
   */
  lemma TakenBackCancelIsRearmed(es: seq<Event<int>>, h: Group<int>)
    requires es == [BodyEnds(BodyReturned), ParentWakes, ChildEnds(Failed(7)), GroupFinishes]
    requires Leads(Enter(Task(0, false, 0, false).Cancel().Uncancel()), es, h)
    ensures h.phase == Exited(RaisedGroup([7])) && h.task.cancelling == 0 && h.outside == 0
    ensures Rearm(h.task, h.probe).cancelling == 1 && Rearm(h.task, h.probe).undelivered
  {
    var g0 := Enter<int>(Task(0, true, 0, false));
    var g1 := Apply(g0, es[0]);
    var g2 := Apply(g1, es[1]);
    var g3 := Apply(g2, es[2]);
    assert g3.errors == [7] && g3.bodyErrors == [];
    var g4 := Apply(g3, es[3]);
    assert [7] + [] == [7];
    assert Leads(g1, es[1..], h);
    assert es[1..][1..] == es[2..] && Leads(g2, es[2..], h);
    assert es[2..][1..] == es[3..] && Leads(g3, es[3..], h);
    assert es[3..][0] == es[3] && es[3..][1..] == [];
    assert Leads(g4, es[3..][1..], h);
  }

  /** A retry with no await in between: the first group's re-arm lands inside the second group. */
  ghost predicate Retry<E>(first: Group<E>, es: seq<Event<E>>, second: Group<E>) {
    && !first.task.done && first.phase.Exited?
    && 0 < |es| && es[0] == EarlierRearm(first.probe)
    && Leads(Enter(first.task), es, second)
  }

  /**
   Two teardowns in a row do not lose a cancel: the second group's re-arm still fires
   for what the first one swallowed unless outsiders took it back, and a caller from
   whom the first group had nothing outstanding brings nothing in. Either group may have
   undone its request against nothing.
   */
  lemma {:induction false} RetryKeepsTheCancel<E>(
    t: Task, es1: seq<Event<E>>, first: Group<E>, es2: seq<Event<E>>, second: Group<E>)
    requires !t.done && Leads(Enter(t), es1, first)
    requires Retry(first, es2, second) && second.phase.Exited? && !second.task.done
    ensures var extra1, extra2 := Surplus(t, es1), Surplus(first.task, es2);
            && (Outstanding(t, es1, first.task) + extra1 > 0 ==>
                  && second.probe.Cancelled(second.task)
                  && (RearmFires(second.task, second.probe) <==>
                      1 + NetOutside(Enter<E>(first.task), es2) + extra2 > 0))
            && (Outstanding(t, es1, first.task) + extra1 <= 0 ==>
                  Apply(Enter<E>(first.task), es2[0]).task == first.task)
  {
    ClampedExactly(Enter(t), es1, first);
    ClampedExactly(Enter(first.task), es2, second);
    RearmExact(t, es1, first);
    RearmExact(first.task, es2, second);
    EnterInv<E>(first.task);
    var g1 := Apply(Enter<E>(first.task), es2[0]);
    ApplyInv(Enter<E>(first.task), es2[0]);
    LeadsInv(g1, es2[1..], second);
  }

  // ---------------------------------------------------------------------------------
  // Reading a teardown off the probe
  // ---------------------------------------------------------------------------------

  /**
   While no child has failed, the probe reports a cancellation exactly when one is
   outstanding, whatever count the caller came with.
   */
  lemma {:induction false} ProbeExact<E>(t: Task, es: seq<Event<E>>, h: Group<E>)
    requires !t.done && Leads(Enter(t), es, h) && h.errors == []
    ensures h.probe.Cancelled(h.task) <==> CameWithCancel(t, h.task) || NetOutside(Enter<E>(t), es) > 0
  {
    BookedRight(Enter(t), es, h);
    EnterInv<E>(t);
    LeadsInv(Enter(t), es, h);
  }
}
