/**
 The library's cancellation objects, as the code has them: the caller's task with its
 count, the probe, the task group, and the deferred re-arm. Each method is the step of
 the same name on values.
 */
module TaskGroups {
  import opened Cancellation

  class CallerTask {
    var cancelling: nat
    var mustCancel: bool
    var rearms: nat  // its entry in the re-arm table
    var done: bool

    ghost function Snapshot(): Task
      reads this
    {
      Task(cancelling, mustCancel, rearms, done)
    }

    constructor ()
      ensures Snapshot() == Task(0, false, 0, false)
    {
      cancelling, mustCancel, rearms, done := 0, false, 0, false;
    }

    method Cancel()
      modifies this
      ensures Snapshot() == old(Snapshot()).Cancel()
    {
      if !done {
        cancelling := cancelling + 1;
        mustCancel := true;
      }
    }

    method Uncancel() returns (left: nat)
      modifies this
      ensures Snapshot() == old(Snapshot()).Uncancel() && left == cancelling
    {
      if cancelling > 0 { cancelling := cancelling - 1; }
      left := cancelling;
    }
  }

  class CancelProbe {
    const task: CallerTask
    const baseline: nat
    const pending: bool
    const rearms: nat

    function Value(): Probe { Probe(baseline, pending, rearms) }

    constructor (task: CallerTask)
      ensures this.task == task && Value() == ProbeOf(task.Snapshot())
    {
      this.task := task;
      baseline, pending, rearms := task.cancelling, task.mustCancel, task.rearms;
    }

    method BroughtInALiveCancel() returns (b: bool)
      ensures b <==> Value().BroughtIn(task.Snapshot())
    {
      b := pending || task.rearms != rearms;
    }

    method Cancelled() returns (b: bool)
      ensures b <==> Value().Cancelled(task.Snapshot())
    {
      b := BroughtInALiveCancel();
      if b { return true; }
      b := task.cancelling > baseline;
    }
  }

  /** Re-delivers a cancel that a group swallowed, one loop step after the group's exit. */
  method RearmPendingCancel(parent: CallerTask, probe: CancelProbe)
    requires probe.task == parent
    modifies parent
    ensures parent.Snapshot() == Rearm(old(parent.Snapshot()), probe.Value())
  {
    var entry: int := probe.baseline;
    var live := probe.BroughtInALiveCancel();
    if live { entry := entry - 1; }
    if !parent.done && parent.cancelling > entry {
      var left := parent.Uncancel();
      parent.Cancel();
      parent.rearms := parent.rearms + 1;
    }
  }

  class TaskGroup<E> {
    const parent: CallerTask
    const probe: CancelProbe
    var phase: Phase<E>
    var aborting: bool
    var parentCancelRequested: bool
    var requestedBefore: bool
    var propagate: bool
    var errors: seq<E>
    var bodyErrors: seq<E>
    ghost var outside: int
    ghost var clamped: bool

    ghost function Snapshot(): Group<E>
      reads this, parent
    {
      Group(parent.Snapshot(), probe.Value(), phase, aborting, parentCancelRequested, requestedBefore,
            propagate, errors, bodyErrors, outside, clamped)
    }

    ghost predicate Valid() { probe.task == parent }

    constructor Enter(parent: CallerTask)
      ensures Valid() && this.parent == parent && fresh(probe)
      ensures Snapshot() == Cancellation.Enter(parent.Snapshot())
    {
      this.parent := parent;
      probe := new CancelProbe(parent);
      phase, aborting, parentCancelRequested, requestedBefore, propagate := Body, false, false, false, false;
      errors, bodyErrors, outside, clamped := [], [], 0, false;
    }

    /** `_on_task_done`. */
    method OnTaskDone(end: ChildEnd<E>)
      requires Valid()
      modifies this, parent
      ensures Snapshot() == ChildDone(old(Snapshot()), end)
    {
      match end {
        case Finished =>
        case CancelledEnd =>
        case Failed(error) =>
          errors := errors + [error];
          if !aborting && !parentCancelRequested {
            aborting := true;
            parentCancelRequested := true;
            parent.Cancel();
          }
      }
    }

    /** The top of `__aexit__`. */
    method BeginExit(body: BodyEnd<E>)
      modifies this, parent
      ensures Snapshot() == BodyDone(old(Snapshot()), body)
    {
      requestedBefore := parentCancelRequested;
      phase := Exiting;
      propagate := body.BodyCancelled?;
      if body.BodyCancelled? { parent.mustCancel := false; }
      if parentCancelRequested {
        clamped := clamped || parent.cancelling == 0;
        var left := parent.Uncancel();
        if left == 0 { propagate := false; }
      }
      if !body.BodyReturned? { aborting := true; }
      bodyErrors := if body.BodyRaised? then [body.error] else [];
    }

    /** The parent resumes while it waits for the children. */
    method Resume()
      modifies this, parent
      ensures Snapshot() == Wake(old(Snapshot()))
    {
      if parent.mustCancel {
        parent.mustCancel := false;
        if !aborting {
          propagate := true;
          aborting := true;
        }
      }
    }

    /** The children are done: the stdlib's exit, and the library's handler around it. */
    method EndExit() returns (exit: Exit<E>)
      modifies this, parent
      ensures Snapshot() == Finish(old(Snapshot())) && phase == Exited(exit)
    {
      if propagate && errors == [] {
        exit := RaisedCancelled;
      } else {
        var raised := errors + bodyErrors;
        if raised == [] {
          exit := Returned;
        } else {
          if parentCancelRequested && !requestedBefore {
            clamped := clamped || parent.cancelling == 0;
            var left := parent.Uncancel();
          }
          exit := RaisedGroup(raised);
        }
      }
      phase := Exited(exit);
    }

    /** Somebody outside cancels or uncancels the parent, or an earlier group's re-arm lands. */
    method OutsideEvent(e: Event<E>, earlier: CancelProbe)
      requires IsOutside(e)
      requires e.EarlierRearm? ==> earlier.task == parent && e.earlier == earlier.Value()
      modifies this, parent
      ensures Snapshot() == Apply(old(Snapshot()), e)
    {
      ghost var before := parent.cancelling;
      match e {
        case OutsideCancel => parent.Cancel();
        case OutsideUncancel => var left := parent.Uncancel();
        case EarlierRearm(_) => RearmPendingCancel(parent, earlier);
        case _ => assert false;
      }
      outside := outside + parent.cancelling - before;
    }
  }
}
