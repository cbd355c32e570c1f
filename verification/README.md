# A verified model of the async pipelines library

The library runs user coroutines with bounded concurrency: `process` over a list, `stream`
over an asynchronous source with an explicit backpressure queue, and `dispatch_tool_calls`
over the tool calls of a language model. This project models those three, the cancellation
bookkeeping they share, and three clients of them, and proves what they keep over every
interleaving.

`dafny verify dfyconfig.toml` checks everything.

## How the model is built

**A step is what runs between two awaits.** The event loop is cooperative, so a run is a
sequence of steps, each of which takes one task from its suspension point to the next. The
scheduler, the user's function, the source and everyone outside may do anything that the
step relation (`Can`) allows. A theorem about `Reaches` or `Reachable` is about every run.

**Two layers.** `StreamModel`, `FanoutModel` and `Cancellation` state the steps as functions
on values, and the lemmas are about those. `StreamTask.StreamCall`, `FanoutTask.FanoutCall`
and `TaskGroups` are the coroutines as the code has them, objects with fields that are
updated in place, and every method is proved to be the step of that name. `Run` carries this
over to whole runs, and `StreamAll` and `ProcessAll` use it to state what the objects return.
Each method of `StreamCall` finds the two locks free and leaves them free: no task is ever
suspended while it holds one, so acquiring one never suspends.

**What is trusted** is the behaviour of the standard library on CPython 3.11 and 3.12:

- `Task.cancel()` raises the count and marks a delivery as due; several due cancels are
  delivered as one. `Task.uncancel()` lowers the count, not below zero, and leaves a due
  delivery due.
- `TaskGroup` ignores a child that ends cancelled. A child's error makes the group abort,
  which cancels each child once, and cancels the parent at most once. `__aexit__` takes that
  request back itself only if it was made before `__aexit__` began. Errors leave as a group;
  otherwise a cancellation of the parent is raised again. `create_task` refuses once the
  group is aborting with tasks still running.
- `asyncio.timeout` remembers the count on entry, cancels the task when it expires, and on
  the way out takes that cancel back and raises `TimeoutError` only if the count is then no
  higher than on entry.
- A cancel of a child that somebody else requests (a stray cancel) is thrown where the child
  waits. While the child is in user code it is thrown into that code.
- `Queue` is a bounded FIFO, `Semaphore` counts slots, and an unlocked `Lock` is acquired
  without suspending. A waiter's wake-up is the condition it waits for; which of several
  waiters goes first is left open.

**Names.** An item is known by its position in the source. `history`, `answers`, `begun`,
`outside`, `clamped`, `builtIn`, `builtFrom`, `starts` and `trace` are bookkeeping that no
decision of the code reads. What theorems take from it is proved to be what the steps of the
run say: `StreamRuns`, `FanoutRuns`, `Cancellation.BookedRight`, `Arguments.RecordsTrue`.

## What is proved

- **`stream`**: bounds, conservation of items, metrics, the meaning of an index, fail-fast,
  a bound of 11n + 11 steps on every run, what a teardown can still run, and delivery. With
  a function that returns and nobody interfering, every schedule returns the multiset of the
  values. Every result and every raised error is traced to the call it came from, and no
  failure is lost.
  `NeverHangsExactly` and `LosesNothingExactly` give the exact conditions for absence of
  deadlock and for delivery.
- **Cancellation**: the caller's count after any exit of a group is its entry count plus
  what outsiders did, and the deferred re-arm fires exactly when a cancel is outstanding. The
  group of every call is a run of the machine that this is proved of (`CallLeads`).
- **Classification**: when a `CancelledError` is a teardown, a deadline, or the user code's
  own failure, whatever the counts of the task that ran it.
- **`process` and `dispatch_tool_calls`**: which slots of a normal return are filled, which
  errors are raised and what they blame, no deadlock under any behaviour at all, at most
  `limit` calls in flight, fail-fast, independence of schedule and concurrency with tools that mutate their arguments and fail,
  and which call's deadline an exception reports at any depth of nesting.
- **Batched pipeline**: alignment against arbitrary batch callers, and agreement of the
  three pipelines.
- **Atomic writer**: every state that a crash can leave, handled failures, modes, links,
  and agreement of the preflight with the writer.

## Where code and documentation differ, and where the code falls short

- The documentation of `stream` says that the index in a deadline error is the position in
  consumption order and not in the source (async_pipelines/core.py:711-715). In the code the
  two are the same (`StreamResults.IndexIsSourcePosition`): the queue is FIFO, and nothing
  suspends between taking an item and numbering it.
- A stray cancel is one that somebody other than the group requests of a child. The group
  ignores a child that ends cancelled, and `queue.get()` and the sentinels' `put` are outside
  the `try`. So a timer that the user's function left behind can end a consumer, after which
  `stream` hangs (`StreamLimits.LateCancelHangs`) or returns without an item
  (`StreamLimits.LateCancelLosesItem`); and a source that cancels its own task and then ends
  leaves the consumers waiting (`StreamLimits.CancelAtSentinelHangs`).
- In `process` and a dispatch a stray cancel of a task that still waits for its slot leaves a
  hole in a normal return (`FanoutProofs.FilledSlots`, `FanoutProofs.NoHolesExactly`). A
  dispatch then returns fewer results than it had calls (`Dispatch.DispatchReturns`), and a
  batched run raises a TypeError at the empty slot (`Pipelines.BatchedAlignment`).
- If an outsider uncancels the caller during a teardown, the teardown may hang
  (`StreamLimits.TakenBackTeardownHangs`).
- If an outsider has uncancelled the caller down to zero when a group takes its own request
  back, the count ends one too high. `Cancellation.CountConservedOnExit` and
  `Cancellation.ClampedExactly` are exact about it, and
  `Cancellation.UndoneAgainstNothingHappens` is a run.
- The re-arm leaves the caller's count as it was, except from zero, which becomes one. That
  needs a cancel that was requested and taken back before the pipeline was entered and is
  still due (`Cancellation.TakenBackCancelIsRearmed`, `Cancellation.RearmDelivers`).
- `atomic_write_text` relies on its temporary name being different from the target's. For a
  name within the byte budget this always holds (`AtomicFile.TempNameDiffers`); for a longer
  one it can fail only if the name begins with dots throughout
  (`AtomicFile.CollisionNeedsDots`). `AtomicFile.TempIsAnother` says when the two cannot be
  one entry either.

## Model

| member | source | states |
|---|---|---|
| Cancellation.CountConservedOnExit | async_pipelines/core.py:323-343 | over every interleaving, when a group exits its own cancel request is gone: the caller's count is the entry count plus the changes that the outside events of the run made, and one more if and only if some undo met a count that outsiders had emptied |
| Cancellation.ClampedExactly | async_pipelines/core.py:323-343 | an undo meets a count of zero if and only if outsiders had by then taken away the entry count, all they had added, and the group's request |
| Cancellation.NothingTakenBackIsSafe | async_pipelines/core.py:323-343 | where no outsider takes a cancel back, no undo meets an emptied count |
| Cancellation.UndoneAgainstNothingHappens | async_pipelines/core.py:323-343 | a concrete run in which that happens |
| Cancellation.ErrorsMeanGroup | async_pipelines/core.py:323-343 | a group with a failed child exits by raising its errors, however the parent was cancelled |
| Cancellation.RaisedInOrder | async_pipelines/core.py:323-343 | a raised group holds every failure the group saw, in the order in which it saw them; with `CallLeads` this is so for every call |
| Cancellation.RearmExact | async_pipelines/core.py:346-368 | the deferred step does something if and only if the caller entered with a cancel due or an earlier re-arm has announced one since, or outsiders left more cancels than they took back, or an undo against an emptied count left one too many; the stale part of the entry count has no effect |
| Cancellation.LeakNeverFires | async_pipelines/core.py:238-265 | a leaked count that nobody touches is neither read as a cancel nor re-delivered |
| Cancellation.RearmDelivers | async_pipelines/core.py:346-368 | a firing re-arm makes the cancel due again, announces it once, and keeps the count exactly when it was positive; otherwise the count becomes one |
| Cancellation.TakenBackCancelIsRearmed | async_pipelines/core.py:238-265 | a concrete run after which the re-arm raises a caller's count from zero to one |
| Cancellation.RetryKeepsTheCancel | async_pipelines/core.py:249-271 | a second pipeline entered before the first one's re-arm lands sees the swallowed cancel as brought in, and its own re-arm passes it on unless outsiders took it back; if nothing was outstanding the first re-arm does nothing; either group may have undone its request against an emptied count |
| Cancellation.ProbeExact | async_pipelines/core.py:249-265 | until a child fails, the probe reports a cancel if and only if the caller entered with one due, an earlier re-arm has announced one since, or outsiders left more than they took back, whatever count the caller came with |
| TaskGroups.CancelProbe.Cancelled | async_pipelines/core.py:249-254 | true if and only if a live cancel was brought in or the count exceeds the entry count |
| TaskGroups.RearmPendingCancel | async_pipelines/core.py:346-368 | the callback computes the re-arm step of the counter machine |
| TaskGroups.TaskGroup.EndExit | async_pipelines/core.py:331-343 | the exit: a request made inside `__aexit__` is undone once, and only when errors are raised |
| Calls.DeadlineExact | async_pipelines/core.py:448-469 | a call is blamed on its deadline if and only if the deadline fired and the coroutine ended in a TimeoutError, or in a CancelledError that no teardown accounts for; the error carries this item's index and this call's seconds |
| Calls.DeadlineForEveryLeak | async_pipelines/core.py:619-631 | outside a teardown a deadline that was not absorbed is blamed for every number of cancels left on, or taken off, the task |
| Calls.CancelledErrorExact | async_pipelines/core.py:402-418 | a CancelledError is a teardown, and a stray one, exactly under the stated conditions |
| Calls.CountsIrrelevantUnlessStopping | async_pipelines/core.py:371-418 | outside a teardown the counts of the task that ran the call never change the verdict |
| Calls.ReadAlikeExactly | async_pipelines/core.py:371-469 | two calls that ended alike, with whatever counts, get the same verdict if and only if it is not the case that the batch is stopping, the deadline fired, a CancelledError came out, and only one of the two counts is restored by taking the deadline's cancel back |
| StreamTask.StreamCall.constructor | async_pipelines/core.py:725-800 | the call's variables up to the first await are the initial state, and the caller is untouched |
| StreamTask.StreamCall.PutSentinels | async_pipelines/core.py:789-790 | the sentinel loop, as far as the room in the queue lets it run |
| StreamTask.StreamCall.Step | async_pipelines/core.py:744-861 | any possible step of any task does to the object what it does to its value, and leaves both locks free |
| StreamTask.StreamCall.Run | async_pipelines/core.py:744-861 | a whole run of the object is the run of its value |
| StreamTask.StreamAll | async_pipelines/core.py:662-861 | with a function that returns and a caller nobody cancels, the list returned holds the value of every item once, in the order of completion, which at concurrency 1 is the source's, and the caller's count is unchanged |
| StreamSafety.StepInv | async_pipelines/core.py:744-861 | the inductive invariant: every step keeps where everything is, what the counters say, and how failures and the group hang together |
| StreamResults.Backpressure | async_pipelines/core.py:725-811 | in every reachable state the queue holds at most `queue_size`, the consumers are min(concurrency, items pulled) while unfailed and never more, and at most `queue_size + concurrency + 1` items are open |
| StreamResults.Conservation | async_pipelines/core.py:744-861 | every item pulled is in exactly the place its fate says, and open, finished, dropped and lost items add up to the items pulled |
| StreamResults.IndexIsSourcePosition | async_pipelines/core.py:812-814 | the index given to an item is its position in the source |
| StreamRuns.ResultsInOrder | async_pipelines/core.py:815-857 | at every moment the results are, in the order in which the run completed them, what the calls of the completed items came to; which items the run completes is read off its steps |
| StreamRuns.LatchExact | async_pipelines/core.py:749-851 | the latch is set if and only if some call of the run failed or was torn down, or the producer's `except` clause ran; and the producer has ended in a failure if and only if a step of the run ended it in that one |
| StreamRuns.CountersTrue | async_pipelines/core.py:744-814 | the items pulled are those the source yielded, and the source calls and the calls of each consumer that other results count are those of the run |
| StreamRuns.StraysTrue | async_pipelines/core.py:789-811 | the children that other results call ended by a stray cancel are those into which the run throws a cancel that is not the group's |
| StreamResults.MetricsTellTheTruth | async_pipelines/core.py:756-811 | at every suspension point `produced` is the items pulled, less the last one while or if it never got into the queue, and `consumed` is the results; the depth is within the bounds, and a pause means that the queue was full and that the source had more items than it holds |
| StreamDepth.DepthIsHighWater | async_pipelines/core.py:766-768 | the reported depth is the greatest number of items that waited in the queue, over all suspension points of the run |
| StreamDepth.FullExactly | async_pipelines/core.py:766-768 | it equals the bound if and only if at some suspension point the queue was full of items |
| StreamDepth.PausesAreWaits | async_pipelines/core.py:758-764 | the reported pauses are the times in the run that the producer began to wait for room with an item in hand |
| StreamResults.StoppingExact | async_pipelines/core.py:421-445 | until the call is over, `failed or caller.cancelled()` holds if and only if a failure is latched, the caller came with a live cancel, or outsiders left more cancels than they took back; the pipeline's own request is never mistaken for one |
| StreamResults.DriftDoesNotMatter | async_pipelines/core.py:833-851 | over a whole run, whatever the user's calls do to the counts of their own tasks, the same states are reached; where a deadline fires while the batch is stopping and a CancelledError comes out, the drift may be anything that does not cross the count on entry |
| StreamResults.CallLeads | async_pipelines/core.py:858-861 | the task group of every call, in every run, is a run of the cancel-count machine, so what `Cancellation` proves of those holds of the call |
| StreamResults.EndsExactly | async_pipelines/core.py:858-861 | a call raises if and only if the group saw children fail, and then their errors in the order in which it saw them; it is cancelled if and only if none failed and a cancel was delivered to the waiting caller; otherwise it returns |
| StreamResults.CallerCountRestored | async_pipelines/core.py:858-861 | however the call ends, the caller's count is its entry count plus what outsiders did, and one more if and only if the group's undo met a count that outsiders had emptied, which only a call that raises its errors can; and the deferred re-arm fires if and only if a cancel is then outstanding |
| StreamProgress.CallerCountKept | async_pipelines/core.py:858-861 | where no outsider takes a cancel back, the caller's count is its entry count and what outsiders added |
| StreamResults.FailFast | async_pipelines/core.py:773-851 | once a child has failed no further item is numbered, so no further call begins |
| StreamRuns.ReturnDelivers | async_pipelines/core.py:802-861 | a normal return without stray cancels has finished a permutation of the items, the results are what their calls came to in the order of completion, the counters all equal the number of items, and nothing is left in the queue; what each result blames is StreamErrors.ResultBlame |
| StreamProgress.StepLowers | async_pipelines/core.py:744-861 | every step of a task lowers a natural-number measure of items and live tasks |
| StreamProgress.StreamRunsEnd | async_pipelines/core.py:744-861 | a call with n items takes at most 11n + 11 steps, plus one for each thing outsiders do |
| StreamProgress.NoDeadlock | async_pipelines/core.py:744-861 | in every reachable state that is not over some task can move, unless a stray cancel ended a child or an outsider took a cancel back |
| StreamProgress.Teardown | async_pipelines/core.py:421-445 | once the batch stops, at whatever point of the call, a consumer begins at most one more call, the source is asked at most once more, no consumer is started, and where nothing can move every child has ended and the call did not return normally, even if the user's code absorbs its cancel |
| StreamDelivery.StreamComputesMap | async_pipelines/core.py:662-861 | total correctness: every schedule ends, and ends having returned the function's values in the order in which the schedule completed them, each item once, with the caller's count unchanged; at concurrency 1 that is the source's order |
| StreamLimits.NeverHangsExactly | async_pipelines/core.py:789-811 | absence of deadlock holds over all runs if and only if no stray cancel hits a consumer, none hits the producer, and no outsider takes a cancel of the caller back |
| StreamLimits.LosesNothingExactly | async_pipelines/core.py:744-861 | a normal return has every item's outcome exactly once, over all runs, if and only if no stray cancel hits a consumer or the producer |
| StreamLimits.ReturnAccounts | async_pipelines/core.py:744-861 | on every normal return, items pulled and missing from the results are still in the queue and stray cancels ended every consumer; items not pulled mean that a stray cancel ended the producer before it began |
| StreamLimits.LateCancelHangs | async_pipelines/core.py:802-811 | a concrete run: the user's function leaves a timer that cancels its task after the call, the only consumer is gone, and the producer waits for ever |
| StreamLimits.LateCancelLosesItem | async_pipelines/core.py:802-861 | the same timer, and a normal return with an item missing |
| StreamLimits.CancelAtSentinelHangs | async_pipelines/core.py:789-790 | a concrete run: the source cancels its own task and ends, the cancel is thrown at a sentinel outside the `try`, no latch is set, and the consumer waits for ever |
| StreamLimits.StillbornProducerLosesAll | async_pipelines/core.py:744-746 | a producer cancelled before it first runs: the call returns no item at all |
| StreamLimits.TakenBackTeardownHangs | async_pipelines/core.py:421-445 | a concrete run in which a teardown hangs because its cancel was taken back |
| StreamErrors.ResultBlame | async_pipelines/core.py:815-856 | every result of a normal return is what the call of its own item came to; it blames the deadline if and only if that fired and was not absorbed, with the item's position and this call's seconds, and a stray cancel if and only if a CancelledError came out that no deadline explains; errors are there only if collected |
| StreamErrors.RaisedErrors | async_pipelines/core.py:773-861 | a call that is over has raised a group with a given error in it if and only if errors are not collected and the call of some item failed with it, or a step of the run ended the producer in it; so nothing else is raised and no failure is lost |
| StreamErrors.SourceErrorsRaised | async_pipelines/core.py:773-788 | an exception that the source threw is always raised, also when it is thrown during a teardown; an exception that no item's call came to is raised only if the source threw it |
| StreamErrors.RaisedBlame | async_pipelines/core.py:773-851 | a raised deadline error means that the deadline of the call of the item at that index fired and was not absorbed, a raised stray error that this call ended cancelled with nothing stopping and no deadline, and each other kind likewise; the rest a step of the producer raised, an exception only if the source threw it |
| StreamErrors.ShutDownExactly | async_pipelines/core.py:751-755 | the producer's `create_task` is refused in some run if and only if outsiders may take back cancels of the caller |
| StreamErrors.SourceBlamedExactly | async_pipelines/core.py:773-788 | a CancelledError is blamed on the source in some run if and only if the source may end in one, a stray cancel may hit the producer, or cancels of the caller may be taken back |
| FanoutTask.FanoutCall.ItemReturns | async_pipelines/core.py:609-653 | a call's outcome is stored at its own index or fails the batch, and the slot is given back last |
| FanoutTask.FanoutCall.Step | async_pipelines/core.py:604-659 | any possible step of any task does to the object what it does to its value |
| FanoutTask.FanoutCall.Run | async_pipelines/core.py:604-659 | a whole run of the object is the run of its value |
| FanoutTask.ProcessAll | async_pipelines/core.py:536-659 | with a function that returns and a caller nobody cancels, the values come back in input order for every limit and schedule, and the caller's count is unchanged |
| FanoutProofs.FilledSlots | async_pipelines/core.py:595-659 | on a normal return exactly those slots are empty whose task was hit by a stray cancel before it had its slot of the semaphore; every other slot holds what its own call came to while nothing was stopping, an error only if errors are collected |
| FanoutProofs.NoHoles | async_pipelines/core.py:595-659 | a normal return has no hole if and only if no task was hit before it had its slot, so it has none without stray cancels |
| FanoutProofs.NoHolesExactly | async_pipelines/core.py:595-659 | no normal return has a hole, over all runs, if and only if stray cancels are excluded |
| FanoutProofs.SlotBlame | async_pipelines/core.py:613-653 | a returned slot blames the deadline if and only if it fired and was not absorbed, with this index and this call's seconds, and a stray cancel if and only if a CancelledError came out that no deadline explains |
| FanoutErrors.RaisedErrors | async_pipelines/core.py:604-659 | the same for `process` and a dispatch: a raised group has a given error in it if and only if errors are not collected and the call of some item failed with it |
| FanoutErrors.RaisedBlame | async_pipelines/core.py:613-653 | a raised deadline error names an item whose own call's deadline fired and was not absorbed, with this call's seconds; a raised stray error one whose call ended cancelled with nothing stopping and no deadline; and each other kind likewise |
| FanoutErrors.RaisedFirst | async_pipelines/core.py:655-659 | a call that is over has raised its errors if and only if the group saw a child fail, and the first of them is what the first child it saw failed with |
| FanoutRuns.AnswersTrue | async_pipelines/core.py:609-653 | the answer that other results blame for an item is the one with which that item's own task came back in the run |
| FanoutRuns.LatchExact | async_pipelines/core.py:609-653 | the latch is set if and only if some call of the run failed the batch or was torn down |
| FanoutCaller.StoppingExact | async_pipelines/core.py:601-653 | the same for `process` and a dispatch |
| FanoutCaller.CallLeads | async_pipelines/core.py:655-659 | the task group of every `process` or dispatch is a run of the cancel-count machine |
| FanoutCaller.EndsExactly | async_pipelines/core.py:655-659 | the same three endings for `process` and a dispatch |
| FanoutCaller.CallerCountRestored | async_pipelines/core.py:655-659 | however a `process` or a dispatch ends, the caller's count is its entry count plus what outsiders did, and one more if and only if the group's undo met a count that outsiders had emptied; and the deferred re-arm fires if and only if a cancel is then outstanding |
| FanoutCaller.DriftDoesNotMatter | async_pipelines/core.py:613-653 | over a whole run, whatever the user's calls do to the counts of their own tasks, everything but the record of those counts comes out the same, with the one exception of `StreamResults.DriftDoesNotMatter` |
| FanoutProofs.BoundedInFlight | async_pipelines/core.py:594-605 | at most `concurrency` calls are in flight at every suspension point |
| FanoutProofs.MayStartExactly | async_pipelines/core.py:594-605 | a waiting task may start if and only if fewer than `concurrency` calls are in flight, or there is no limit |
| FanoutProofs.FailFast | async_pipelines/core.py:601-653 | once an item's failure has propagated no further call begins, for every limit and without one: in every later state only calls are running that were running then |
| FanoutProofs.NoDeadlock | async_pipelines/core.py:604-659 | in every reachable state that is not over some task can move, with no condition on anybody's behaviour; the tasks take at most 3n + 5 steps plus one for each thing outsiders do |
| FanoutProofs.ComputesMap | async_pipelines/core.py:536-659 | total correctness: every schedule ends, and ends having returned the list of the function's values in input order with the caller's count unchanged |
| FanoutProofs.CollectReturns | async_pipelines/core.py:642-653 | with errors collected and nobody interfering, a call that ends has returned normally, whatever failed |
| Dispatch.ToolRegistry.Register | async_pipelines/tool_dispatch.py:147-152 | an empty or taken name is refused and changes nothing, any other name is added last |
| Dispatch.ToolRegistry.Get | async_pipelines/tool_dispatch.py:163-166 | finds the tool if and only if the name is registered |
| Dispatch.Resolve | async_pipelines/tool_dispatch.py:234-253 | the first unregistered name fails the dispatch before any tool runs; with errors collected it gets a stub in its own place |
| Dispatch.DispatchReturns | async_pipelines/tool_dispatch.py:256-308 | a dispatch that returns has one result per call if and only if no task was hit before it had its slot, and without stray cancels none was; then the results are in input order, under each call's own id and name, and say what that call's tool came to |
| Dispatch.PresentShort | async_pipelines/tool_dispatch.py:307-308 | the final filter keeps the length if and only if no slot is empty |
| Dispatch.FirstError | async_pipelines/tool_dispatch.py:285-305 | what leaves a failed dispatch is the failure of the first child in the run that the group saw fail: unwrapped if and only if it is a deadline error marked by this very call, and otherwise as the cause of a wrapping error; it is this call's own deadline or stray error, true of the call it names, a tool's own timeout, or something that a tool threw in this run |
| Dispatch.Ownership | async_pipelines/tool_dispatch.py:260-305 | at any depth of nesting, a deadline error that leaves a dispatch unwrapped was made by that call: it has a position in its list whose call's deadline fired, and that deadline's seconds; everything else is wrapped, with the original as the cause |
| Arguments.DeepCopyIsFaithful | async_pipelines/tool_dispatch.py:89-90 | a deep copy changes nothing that existed, and is the renamed image of its region with sharing and cycles kept |
| Arguments.CopyLooksTheSame | async_pipelines/tool_dispatch.py:397-407 | to any depth, the copy looks like the original |
| Arguments.Isolation | async_pipelines/tool_dispatch.py:397-407 | in any interleaving with code that mutates whatever it can reach, every call keeps the arguments it was built with and every invocation started from them, also for calls built from one object; what a tool was handed it may change, and what a call holds nobody can |
| Arguments.RecordsTrue | async_pipelines/tool_dispatch.py:397-407 | the heap and the object each call was built from, and the call each invocation was of, are those of the run |
| DispatchRuns.DispatchComputes | async_pipelines/tool_dispatch.py:360-454 | fan-out and argument heap in one run: with tools that end alike on arguments that look alike, a dispatch that returns one result per call, as every one does without stray cancels, has for each call the result its tool comes to on what the call was built from, failures included, while tools mutate what they are handed and any code runs in between |
| DispatchRuns.UnknownToolReported | async_pipelines/tool_dispatch.py:239-316 | with errors collected, a call of an unregistered name comes back in its own place as a failed result that carries the not-found error of its name |
| DispatchRuns.ResultsIndependentOfConcurrency | async_pipelines/tool_dispatch.py:183-308 | for such tools two dispatches of the same request that return one result per call return the same list, whatever their concurrency, deadlines, schedules and callers, in whatever heaps |
| DispatchRuns.CollectingDispatchesAgree | async_pipelines/tool_dispatch.py:183-308 | the same without assuming that they return, where errors are collected and nobody interferes |
| DispatchRuns.NotHeldUp | async_pipelines/tool_dispatch.py:397-407 | making the copies never keeps a task of the dispatch from its next step |
| DispatchRuns.AnswerNotHeldUp | async_pipelines/tool_dispatch.py:397-407 | a call in progress can always end as its tool does on what it was handed |
| Pipelines.RunSerial | async_pipelines/benchmark.py:284-291 | the serial loop computes the map of the two calls |
| Pipelines.CheckBatchLen | async_pipelines/benchmark.py:409-458 | a batch output is accepted if and only if it is an ordered list with one element per input; an iterator is read at most one element past the batch, so an endless one is refused |
| Pipelines.ChunkSizes | async_pipelines/benchmark.py:461-462 | no chunk is empty or over-long, and only the last may be short |
| Pipelines.FlattenChunk | async_pipelines/benchmark.py:461-462 | chunking loses nothing and keeps the order |
| Pipelines.Gather | async_pipelines/benchmark.py:400-406 | appending the batches' outputs one after the other flattens them, and fails if and only if some slot is empty |
| Pipelines.BatchAligned | async_pipelines/benchmark.py:389-399 | an accepted batch is as long as its input at both stages, and the second caller was given the checked list of the first |
| Pipelines.BatchedAlignment | async_pipelines/benchmark.py:383-406 | against arbitrary batch callers, stray cancels included: after the fan-out has returned, the run raises if and only if some batch's task was hit before it had its slot; otherwise it returns one output per document, and document k * size + j has output j of its own batch k |
| Pipelines.PipelinesAgree | async_pipelines/benchmark.py:284-406 | for functions of one document, the per-document and the batched run return the serial list, for every concurrency, batch size and schedule |
| AtomicFile.Disk.AtomicWriteText | async_pipelines/io_utils.py:88-119 | every state a crash can leave has the old target, or exactly the new text with the mode the file is due, and nothing else changed but the temporary file and missing parent directories; those exist after a success and are the only directories made; success writes through links and never over a directory; a handled failure leaves the entries as they were unless the clean-up itself fails |
| AtomicFile.TempIsAnother | async_pipelines/io_utils.py:248-264 | if the target exists, or its name is within the budget and its directory tells names apart, no temporary file can be its entry |
| AtomicFile.Disk.CheckThenWrite | scripts/bench_backpressure.py:376-425 | a path that passed the preflight is not refused by the write that follows, as long as a name it draws is free, and where nothing fails holds exactly the text afterwards |
| AtomicFile.Disk.CheckWritable | async_pipelines/io_utils.py:122-145 | succeeds if and only if the writer would get past its refusals and its temporary file and the target is no directory, and makes exactly the missing parent directories, unless it refuses before that |
| AtomicFile.PreflightAgrees | async_pipelines/io_utils.py:122-145 | where the preflight succeeded the writer is not refused on what it left behind, as long as a name it draws is free |
| AtomicFile.Disk.CreateTemp | async_pipelines/io_utils.py:248-264 | succeeds if and only if one of the hundred names drawn is free and the directory allows it, and never opens an entry that exists |
| AtomicFile.Disk.SameFile | async_pipelines/io_utils.py:148-176 | answers the file system's own alias relation, covering links, hard links and folding of names, and leaves every entry and every file as it was |
| AtomicFile.CapBaseForTemp | async_pipelines/io_utils.py:79-85 | the longest prefix within 200 bytes that splits no character |
| AtomicFile.Utf8RoundTrip | async_pipelines/io_utils.py:38-76 | the bytes counted are UTF-8 of the right shape, or the byte that a lone surrogate stands for, and can be read back |
| AtomicFile.TempNameDiffers | async_pipelines/io_utils.py:248-264 | for a name within the budget no temporary name equals it |
| AtomicFile.TempNameFits | async_pipelines/io_utils.py:248-264 | with the eight hexadecimal digits drawn, a temporary name is at most 255 bytes long |
| AtomicFile.CollisionNeedsDots | async_pipelines/io_utils.py:248-264 | a longer name can equal its temporary name only if it begins with dots throughout |
| AtomicFile.LinksAreFollowed | async_pipelines/io_utils.py:267-279 | a chain of links, of whatever length, resolves to where it ends, whether something is there or not |
| AtomicFile.ResolvedLinkIsRefused | async_pipelines/io_utils.py:267-311 | a path whose resolution ends at a link goes round in a circle and is refused |
| AtomicFile.ReadOnlyIsRefused | async_pipelines/io_utils.py:282-300 | an existing file is refused if and only if the owner's digit of its mode has no write bit and the writer is not root |
| Backpressure.SaturatedExact | scripts/bench_backpressure.py:213-216 | for the metrics of every run that returned, `saturated` holds if and only if there were more items than the queue holds and at some suspension point of the run the queue was full of items; a pause implies it |
| Backpressure.RowsSplit | scripts/bench_backpressure.py:218-225 | for a table of finished runs, an `n` is listed as filled if and only if some run of that size had more items than its queue holds and had it full at some suspension point, a pair as unfilled if and only if some run of that size did not, and such a run never paused its producer |

## Left out

- StreamProgress.NoDeadlock: excludes children ended by a stray cancel and cancels taken back, because with either it is false; `StreamLimits.NeverHangsExactly` gives the exact condition.
- StreamProgress.Teardown: assumes that no outsider takes a cancel of the caller back, because otherwise it is false (`StreamLimits.TakenBackTeardownHangs`).
- StreamRuns.ReturnDelivers: excludes stray cancels, because with one it is false; `StreamLimits.LosesNothingExactly` gives the exact condition.
- AtomicFile.Disk.AtomicWriteText: its crash clause is about a temporary name and a target that are different entries; `AtomicFile.TempIsAnother` gives what a caller can check.
- Arguments.Isolation: is about a heap of values that steps rewrite, not about objects updated in place by methods; tools are assumed not to hold the call objects themselves.
- DispatchRuns.DispatchComputes: a tool sees contents to any depth and not which of its objects are shared, and a deadline that fires in it is absorbed; a deadline that is not absorbed makes the results depend on time.
- AtomicFile.ReadOnlyIsRefused: is about a writer that owns the file or is root; access by group, by others and by access-control lists is left out.
- Path characters that no POSIX path can hold (lone surrogates that stand for no byte), and file systems of Windows.
- A `stream` call without a metrics object, or with one that was used before: the model has a fresh one, which no decision of the code reads.
- The early return of `process` and `dispatch_tool_calls` on an empty list; the model lets the empty call go through its task group, which starts nothing.
- The order in which waiters of the queue and the semaphore are woken; the model lets any of them go first.
- A source that ends early because a stray cancel reached it; it is a source that holds fewer items.
- Whether a deadline fires is a free choice of the environment; clocks, latencies, pause seconds and throughput are not modelled.
- `KeyboardInterrupt` and `SystemExit`, which end the run, and exceptions of user code that are neither an `Exception` nor a `CancelledError`.
- Argument validation, which is about Python types; the model starts from valid arguments, and documents are a list.
- A caller that is not a task, for which the probe answers that nothing is cancelled.
- CPython 3.13, whose task group and uncancel differ in the case that the code itself names (async_pipelines/core.py:298-302).
- Aliasing of `ToolResult.value`, which the code documents as undecided, and the registry's listing, length and decorator.
- Error messages, `to_dict`, JSON, pickling, the fake and real language-model clients, and the rendering of the benchmark table around the two lists of rows.
- `sibling_path` and `display_path`, which spell the name of a second output file and of one that is printed.
- Durability of renames after a power loss, partial metadata updates, folding of directory names, links among directories, and concurrent changes to the file system by others.
