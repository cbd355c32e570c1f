/** What one awaited call of user code comes to. */
module Calls {

  // `process`, `stream` and `dispatch_tool_calls` all run the user's coroutine under an
  // optional deadline and then decide what its ending means. They share the two tests
  // modelled here: is a CancelledError the deadline that `asyncio.timeout` let through, and
  // if not, is it a teardown of the pipeline or the user code's own failure?

  datatype Option<+T> = None | Some(value: T)

  /** How the user's coroutine itself ended. */
  datatype Raw<+V, +X> =
    | Gave(value: V)
    | Threw(x: X)        // any Exception except TimeoutError
    | ThrewTimeout       // a TimeoutError of its own
    | ThrewCancelled

  /**
   One call: how the coroutine ended, whether the deadline fired while it ran, and the
   cancel count of the task it ran in, on entry to the deadline and on leaving it.
   */
  datatype Call<+V, +X> = Call(raw: Raw<V, X>, expired: bool, countBefore: nat, countAfter: nat)

  datatype Error<+X> =
    | Thrown(x: X)
    | PlainTimeout
    | Deadline(owner: Option<nat>, index: nat, seconds: real)
    | Stray(index: nat)
    | ProducerStray
    | GroupShutDown

  datatype Verdict<+V, +X> = Value(value: V) | Failure(error: Error<X>) | Teardown

  /** What is stored for an item. */
  datatype Outcome<+V, +X> = Ok(value: V) | Err(error: Error<X>)

  /** How an item's call came back, and whether the batch was stopping then. */
  datatype Answer<+V, +X> = Answer(call: Call<V, X>, stopping: bool)

  function AsOutcome<V, X>(v: Verdict<V, X>): Option<Outcome<V, X>> {
    match v
    case Value(value) => Some(Ok(value))
    case Failure(e) => Some(Err(e))
    case Teardown => None
  }

  /** What a call must satisfy: without a deadline none can fire. */
  predicate Possible<V, X>(seconds: Option<real>, call: Call<V, X>) {
    call.expired ==> seconds.Some?
  }

  /**
   Leaving `asyncio.timeout`: a deadline that fired takes its own cancel back, and its
   CancelledError becomes a TimeoutError only if that restores the count on entry.
   */
  function LeaveTimeout<V, X>(call: Call<V, X>): Raw<V, X> {
    if call.expired && call.raw.ThrewCancelled? && call.countAfter - 1 <= call.countBefore
    then ThrewTimeout
    else call.raw
  }

  /** The deadline fired, and the pipeline is not stopping. */
  predicate DeadlineEscaped<V, X>(call: Call<V, X>, stopping: bool) {
    call.expired && !stopping
  }

  /** The ending as the `except` clauses around the call leave it; None is a CancelledError. */
  function Relabel<V, X>(owner: Option<nat>, index: nat, seconds: Option<real>, stopping: bool, call: Call<V, X>)
    : (r: Option<Verdict<V, X>>)
    requires Possible(seconds, call)
  {
    match (if seconds.None? then call.raw else LeaveTimeout(call))
    case Gave(v) => Some(Value(v))
    case Threw(x) => Some(Failure(Thrown(x)))
    case ThrewTimeout =>
      if call.expired then Some(Failure(Deadline(owner, index, seconds.value)))
      else Some(Failure(PlainTimeout))
    case ThrewCancelled =>
      if DeadlineEscaped(call, stopping) then Some(Failure(Deadline(owner, index, seconds.value)))
      else None
  }

  /** The last word: a CancelledError is a teardown, or else the item's own failure. */
  function Settle<V, X>(owner: Option<nat>, index: nat, seconds: Option<real>, stopping: bool, call: Call<V, X>)
    : (v: Verdict<V, X>)
    requires Possible(seconds, call)
  {
    match Relabel(owner, index, seconds, stopping, call)
    case Some(verdict) => verdict
    case None => if stopping then Teardown else Failure(Stray(index))
  }

  /**
   When a call is blamed on its deadline, in full: the deadline fired, and either the
   coroutine ended in a TimeoutError, or in a CancelledError that the pipeline's own
   teardown does not account for.
   */
  lemma DeadlineExact<V, X>(owner: Option<nat>, index: nat, seconds: Option<real>, stopping: bool, call: Call<V, X>)
    requires Possible(seconds, call)
    ensures var v := Settle(owner, index, seconds, stopping, call);
            (v.Failure? && v.error.Deadline?) <==>
              && call.expired
              && (|| call.raw.ThrewTimeout?
                  || (call.raw.ThrewCancelled? && (!stopping || call.countAfter - 1 <= call.countBefore)))
    ensures var v := Settle(owner, index, seconds, stopping, call);
            v.Failure? && v.error.Deadline? ==> v.error == Deadline(owner, index, seconds.value)
  {
  }

  /**
   The deadline is blamed for every leak: whatever number of cancels the coroutine left
   on its task, or took off it, a deadline it did not absorb is the item's failure.
   */
  lemma DeadlineForEveryLeak<V, X>(
    owner: Option<nat>, index: nat, seconds: real, before: nat, leaked: int, call: Call<V, X>)
    requires before + 1 + leaked >= 0
    requires call == Call(ThrewCancelled, true, before, before + 1 + leaked)
    ensures Settle(owner, index, Some(seconds), false, call) == Failure(Deadline(owner, index, seconds))
    ensures LeaveTimeout(call).ThrewTimeout? <==> leaked <= 0
  {
  }

  /** A CancelledError that no deadline explains is a teardown exactly when the pipeline stops. */
  lemma CancelledErrorExact<V, X>(
    owner: Option<nat>, index: nat, seconds: Option<real>, stopping: bool, call: Call<V, X>)
    requires Possible(seconds, call)
    ensures var v := Settle(owner, index, seconds, stopping, call);
            && (v.Teardown? <==>
                call.raw.ThrewCancelled? && stopping && !(call.expired && call.countAfter - 1 <= call.countBefore))
            && (v == Failure(Stray(index)) <==> call.raw.ThrewCancelled? && !stopping && !call.expired)
  {
  }

  /**
   What is stored for a call that came back while nothing was stopping: the deadline is
   blamed if and only if it fired and was not absorbed, with this index and these seconds,
   and a stray cancel if and only if a CancelledError came out that no deadline explains.
   */
  ghost predicate Attributed<V, X>(
    owner: Option<nat>, index: nat, seconds: Option<real>, call: Call<V, X>, out: Outcome<V, X>)
  {
    && (match call.raw
        case Gave(v) => out == Ok(v)
        case Threw(x) => out == Err(Thrown(x))
        case _ => out.Err?)
    && (out.Err? && out.error.Deadline? <==> call.expired && (call.raw.ThrewTimeout? || call.raw.ThrewCancelled?))
    && (out.Err? && out.error.Deadline? ==>
          seconds.Some? && out.error == Deadline(owner, index, seconds.value))
    && (out.Err? && out.error.Stray? <==> call.raw.ThrewCancelled? && !call.expired)
    && (out.Err? && out.error.Stray? ==> out.error == Stray(index))
    && (out == Err(PlainTimeout) <==> call.raw.ThrewTimeout? && !call.expired)
  }

  lemma SettledAttribution<V, X>(
    owner: Option<nat>, index: nat, seconds: Option<real>, call: Call<V, X>, out: Outcome<V, X>)
    requires Possible(seconds, call)
    requires Some(out) == AsOutcome(Settle(owner, index, seconds, false, call))
    ensures Attributed(owner, index, seconds, call, out)
  {
  }

  /** Outside a teardown the counts of the task that ran the call never change the verdict. */
  lemma CountsIrrelevantUnlessStopping<V, X>(
    owner: Option<nat>, index: nat, seconds: Option<real>, call: Call<V, X>, before: nat, after: nat)
    requires Possible(seconds, call)
    ensures var other := call.(countBefore := before, countAfter := after);
            Settle(owner, index, seconds, false, other) == Settle(owner, index, seconds, false, call)
  {
  }

  /** The same call, except for the counts that it left on its own task and found there. */
  predicate SameButCounts<V(==), X(==)>(a: Call<V, X>, b: Call<V, X>) {
    a.raw == b.raw && a.expired == b.expired
  }

  /** Taking the deadline's cancel back restores the count on entry. */
  predicate Restores<V, X>(call: Call<V, X>) { call.countAfter - 1 <= call.countBefore }

  /** Two such calls read the same: only a deadline that fires during a teardown looks at the counts. */
  predicate ReadAlike<V(==), X(==)>(stopping: bool, a: Call<V, X>, b: Call<V, X>) {
    && SameButCounts(a, b)
    && (stopping && a.expired && a.raw.ThrewCancelled? ==> (Restores(a) <==> Restores(b)))
  }

  lemma ReadAlikeExactly<V, X>(
    owner: Option<nat>, index: nat, seconds: Option<real>, stopping: bool, a: Call<V, X>, b: Call<V, X>)
    requires Possible(seconds, a) && SameButCounts(a, b)
    ensures Settle(owner, index, seconds, stopping, a) == Settle(owner, index, seconds, stopping, b) <==>
              ReadAlike(stopping, a, b)
  {
  }

  /**
   What a call's failure says, whether the batch was stopping or not. The deadline is blamed
   if and only if it fired and the call ended in a TimeoutError, or in a CancelledError that
   no teardown accounts for; a stray cancel if and only if a CancelledError came out outside a
   teardown and no deadline fired; and both name this index and these seconds.
   */
  ghost predicate Blamed<V, X>(
    owner: Option<nat>, index: nat, seconds: Option<real>, answer: Answer<V, X>, e: Error<X>)
  {
    var call := answer.call;
    && (e.Deadline? || e.Stray? || e.PlainTimeout? || e.Thrown?)
    && (e.Deadline? <==>
        call.expired
        && (call.raw.ThrewTimeout? || (call.raw.ThrewCancelled? && (!answer.stopping || Restores(call)))))
    && (e.Deadline? ==> seconds.Some? && e == Deadline(owner, index, seconds.value))
    && (e.Stray? <==> call.raw.ThrewCancelled? && !call.expired)
    && (e.Stray? ==> !answer.stopping && e == Stray(index))
    && (e.PlainTimeout? <==> call.raw.ThrewTimeout? && !call.expired)
    && (e.Thrown? <==> call.raw.Threw?)
    && (e.Thrown? ==> call.raw == Threw(e.x))
  }

  lemma FailureBlame<V, X>(
    owner: Option<nat>, index: nat, seconds: Option<real>, answer: Answer<V, X>, e: Error<X>)
    requires Possible(seconds, answer.call)
    requires Settle(owner, index, seconds, answer.stopping, answer.call) == Failure(e)
    ensures Blamed(owner, index, seconds, answer, e)
  {
  }
}
