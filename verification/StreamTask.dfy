/**
 `stream` as the code has it: an object whose fields the coroutines update in place. A
 method runs one task from its suspension point to the next, and is proved to be the
 step of that name on values, so all that is proved of the steps holds of the object.

 Every method needs the two locks free where it acquires them, and leaves them free: no
 task is ever suspended while it holds one, so acquiring one never suspends.
 */
module StreamTask {
  import opened Counting
  import opened Cancellation
  import opened Calls
  import opened StreamModel
  import opened StreamDelivery
  import opened StreamResults
  import opened StreamRuns
  import opened StreamSafety
  import opened TaskGroups

  class StreamMetrics {
    var produced: nat
    var consumed: nat
    var producerPauses: nat
    var maxQueueDepth: nat

    function Snapshot(): Metrics
      reads this
    {
      Metrics(produced, consumed, producerPauses, maxQueueDepth)
    }

    constructor ()
      ensures Snapshot() == Metrics(0, 0, 0, 0)
    {
      produced, consumed, producerPauses, maxQueueDepth := 0, 0, 0, 0;
    }
  }

  class Lock {
    var locked: bool

    constructor ()
      ensures !locked
    {
      locked := false;
    }

    /** Acquiring a free lock does not suspend. */
    method Acquire()
      requires !locked
      modifies this
      ensures locked
    {
      locked := true;
    }

    method Release()
      requires locked
      modifies this
      ensures !locked
    {
      locked := false;
    }
  }

  class StreamCall {
    const cfg: Config
    const caller: CancelProbe
    const tg: TaskGroup<Error<X>>
    const m: StreamMetrics
    const indexLock: Lock
    const resultsLock: Lock
    var queue: seq<Slot>
    var started: nat
    var consumedIndex: nat
    var results: seq<Outcome<V, X>>
    var failed: bool
    var producer: Producer
    var consumers: seq<Consumer>
    var given: nat  // items that the source has yielded
    ghost var history: History

    ghost function Snapshot(): State
      reads this, m, tg, tg.parent
    {
      State(cfg, queue, started, consumedIndex, results, failed, m.Snapshot(),
            producer, consumers, tg.Snapshot(), history)
    }

    /** What holds at every suspension point. */
    ghost predicate Valid()
      reads this, indexLock, resultsLock
    {
      && given == |history.fates|
      && tg.Valid()
      && caller.task == tg.parent && caller.Value() == tg.probe.Value()
      && !indexLock.locked && !resultsLock.locked
    }

    /** Up to the first await, inside `__aexit__`; the producer has been created by then. */
    constructor (cfg: Config, task: CallerTask)
      modifies task
      ensures Valid() && Snapshot() == Init(cfg, old(task.Snapshot()))
      ensures tg.parent == task && fresh(tg) && fresh(m) && fresh(indexLock) && fresh(resultsLock)
    {
      this.cfg := cfg;
      m := new StreamMetrics();
      queue, results, started, consumedIndex := [], [], 0, 0;
      indexLock := new Lock();
      resultsLock := new Lock();
      failed := false;
      caller := new CancelProbe(task);
      tg := new TaskGroup<Error<X>>.Enter(task);
      producer := Producer(NotStarted, false, false, false);
      consumers := [];
      given := 0;
      history := History([], [], 0, 0, 0, 0, 0, false, 0);
      new;
      tg.BeginExit(BodyReturned);
    }

    method Stopping() returns (b: bool)
      requires Valid()
      ensures b <==> Snapshot().Stopping()
    {
      if failed { return true; }
      b := caller.Cancelled();
    }

    // -------------------------------------------------------------------------------
    // `_produce`
    // -------------------------------------------------------------------------------

    method AskSource()
      requires Valid()
      modifies this
      ensures Valid() && Snapshot() == StreamModel.AskSource(old(Snapshot()))
    {
      producer := producer.(pc := Pulling);
      history := history.(sourceCalls := history.sourceCalls + 1);
    }

    /** The `except` clause. */
    method ProducerRaises(caught: Option<Error<X>>)
      requires Valid()
      modifies this
      ensures Valid() && Snapshot() == StreamModel.ProducerRaises(old(Snapshot()), caught)
    {
      var stopping := Stopping();
      var end := CancelledEnd;
      if caught.Some? {
        end := Failed(caught.value);
      } else if !stopping {
        end := Failed(ProducerStray);
      }
      failed := true;
      producer := producer.(pc := ProducerEnded(end));
    }

    /** `queue.put` with room, what follows it, and the next call of the source. */
    method PutItem(pos: nat)
      requires Valid() && pos < |history.fates|
      modifies this, m
      ensures Valid() && Snapshot() == StreamModel.PutItem(old(Snapshot()), pos)
    {
      queue := queue + [Item(pos)];
      m.produced := m.produced + 1;
      var depth := |queue|;
      if depth > m.maxQueueDepth {
        m.maxQueueDepth := depth;
      }
      producer := producer.(pc := Pulling);
      history := history.(fates := history.fates[pos := Queued], sourceCalls := history.sourceCalls + 1);
    }

    method ReceiveItem()
      requires Valid() && |history.fates| < cfg.items
      modifies this
      ensures Valid() && Snapshot() == StreamModel.ReceiveItem(old(Snapshot()))
      ensures given == old(given) + 1
    {
      producer := producer.(pc := Putting(given), delivered := producer.delivered || tg.aborting);
      given := given + 1;
      history := history.(fates := history.fates + [InHand]);
    }

    /** The body of the `async for`, from the item to the next await. */
    method SourceYields()
      requires Valid() && |history.fates| < cfg.items
      modifies this, m
      ensures Valid() && Snapshot() == StreamModel.SourceYields(old(Snapshot()))
    {
      var pos := given;
      ReceiveItem();
      ghost var received := Snapshot();
      var stopping := Stopping();
      if stopping {
        history := history.(fates := history.fates[pos := Discarded]);
        assert Snapshot() == SetFate(received, pos, Discarded);
        ProducerRaises(None);
        return;
      }
      if started < cfg.concurrency && !failed {
        if tg.aborting {
          // `create_task` refuses.
          history := history.(fates := history.fates[pos := Discarded]);
          assert Snapshot() == SetFate(received, pos, Discarded);
          ProducerRaises(Some(GroupShutDown));
          return;
        }
        consumers := consumers + [Consumer(AtTop, false, false, false, 0)];
        started := started + 1;
        assert Snapshot() == StartConsumer(received);
      }
      Offer(pos);
    }

    method Offer(pos: nat)
      requires Valid() && pos < |history.fates| && producer.pc == Putting(pos)
      modifies this, m
      ensures Valid() && Snapshot() == StreamModel.Offer(old(Snapshot()), pos)
    {
      if |queue| >= cfg.queueSize {
        m.producerPauses := m.producerPauses + 1;
      } else {
        PutItem(pos);
      }
    }

    /** The sentinel loop, until it is done or has to wait for room. */
    method PutSentinels()
      requires Valid() && producer.pc.PuttingSentinels?
      modifies this
      ensures Valid() && Snapshot() == StreamModel.PutSentinels(old(Snapshot()))
    {
      var left := producer.pc.left;
      while left > 0 && |queue| < cfg.queueSize
        invariant Valid() && producer.pc == PuttingSentinels(left)
        invariant StreamModel.PutSentinels(Snapshot()) == StreamModel.PutSentinels(old(Snapshot()))
      {
        queue := queue + [Sentinel];
        left := left - 1;
        producer := producer.(pc := PuttingSentinels(left));
        history := history.(sentinelsPut := history.sentinelsPut + 1);
      }
      if left == 0 {
        producer := producer.(pc := ProducerEnded(Finished));
      }
    }

    method SourceEnds()
      requires Valid()
      modifies this
      ensures Valid() && Snapshot() == StreamModel.SourceEnds(old(Snapshot()))
    {
      producer := producer.(delivered := producer.delivered || tg.aborting);
      var stopping := Stopping();
      if stopping {
        ProducerRaises(None);
      } else {
        producer := producer.(pc := PuttingSentinels(started));
        PutSentinels();
      }
    }

    method ProducerCancelled()
      requires Valid()
      requires producer.pc.Putting? ==> producer.pc.pos < |history.fates|
      modifies this
      ensures Valid() && Snapshot() == StreamModel.ProducerCancelled(old(Snapshot()))
    {
      ghost var byStray := producer.stray && !(tg.aborting && !producer.delivered);
      producer := producer.(delivered := producer.delivered || tg.aborting);
      if producer.pc.Putting? {
        history := history.(fates := history.fates[producer.pc.pos := Discarded]);
        ProducerRaises(None);
      } else {
        // Outside the `try`.
        history := history.(producerStrayed := byStray);
        producer := producer.(pc := ProducerEnded(CancelledEnd));
      }
    }

    // -------------------------------------------------------------------------------
    // `_consume`
    // -------------------------------------------------------------------------------

    /** From `queue.get()` returning to the next await. */
    method Take(c: nat)
      requires Valid() && c < |consumers| && queue != []
      requires queue[0].Item? ==> queue[0].pos < |history.fates|
      modifies this, indexLock
      ensures Valid() && Snapshot() == StreamModel.Take(old(Snapshot()), c)
    {
      var item := queue[0];
      var me := consumers[c];
      queue := queue[1..];
      if item.Sentinel? || failed {
        if item.Sentinel? {
          history := history.(sentinelsTaken := history.sentinelsTaken + 1);
        } else {
          history := history.(fates := history.fates[item.pos := Discarded],
                              taken := history.taken + 1, lost := history.lost + 1);
        }
        consumers := consumers[c := me.(pc := ConsumerEnded(Finished))];
        return;
      }
      indexLock.Acquire();
      var myIndex := consumedIndex;
      consumedIndex := consumedIndex + 1;
      indexLock.Release();
      consumers := consumers[c := me.(pc := Calling(item.pos, myIndex), begun := me.begun + 1)];
      history := history.(fates := history.fates[item.pos := InFlight(c)], taken := history.taken + 1);
    }

    /** The top of the `while True`. */
    method LoopTop(c: nat)
      requires Valid() && c < |consumers|
      requires queue != [] && queue[0].Item? ==> queue[0].pos < |history.fates|
      modifies this, indexLock
      ensures Valid() && Snapshot() == StreamModel.LoopTop(old(Snapshot()), c)
    {
      var stopping := Stopping();
      if stopping {
        consumers := consumers[c := consumers[c].(pc := ConsumerEnded(CancelledEnd))];
      } else if queue == [] {
        consumers := consumers[c := consumers[c].(pc := Getting)];
      } else {
        Take(c);
      }
    }

    method Record(c: nat, outcome: Outcome<V, X>)
      requires Valid() && c < |consumers| && consumers[c].pc.Calling? && consumers[c].pc.pos < |history.fates|
      modifies this, m, resultsLock
      ensures Valid() && Snapshot() == StreamModel.Record(old(Snapshot()), c, outcome)
    {
      ghost var pos := consumers[c].pc.pos;
      resultsLock.Acquire();
      results := results + [outcome];
      resultsLock.Release();
      m.consumed := m.consumed + 1;
      consumers := consumers[c := consumers[c].(pc := AtTop)];
      history := history.(fates := history.fates[pos := Done(outcome)], finished := history.finished + [pos]);
    }

    /** The item's outcome is stored, and the consumer goes on to its next await. */
    method Collect(c: nat, outcome: Outcome<V, X>)
      requires Valid() && c < |consumers| && consumers[c].pc.Calling? && consumers[c].pc.pos < |history.fates|
      requires queue != [] && queue[0].Item? ==> queue[0].pos < |history.fates|
      modifies this, m, indexLock, resultsLock
      ensures Valid() && Snapshot() == StreamModel.LoopTop(StreamModel.Record(old(Snapshot()), c, outcome), c)
    {
      Record(c, outcome);
      LoopTop(c);
    }

    method FailItem(c: nat, end: ChildEnd<Error<X>>)
      requires Valid() && c < |consumers| && consumers[c].pc.Calling? && consumers[c].pc.pos < |history.fates|
      modifies this
      ensures Valid() && Snapshot() == StreamModel.FailItem(old(Snapshot()), c, end)
    {
      failed := true;
      history := history.(fates := history.fates[consumers[c].pc.pos := Discarded], lost := history.lost + 1);
      consumers := consumers[c := consumers[c].(pc := ConsumerEnded(end))];
    }

    /** Whatever cancel was due has reached the user's function. */
    method CallAnswered(c: nat)
      requires Valid() && c < |consumers|
      modifies this`consumers
      ensures Valid() && Snapshot() == StreamModel.CallAnswered(old(Snapshot()), c)
    {
      var me := consumers[c];
      consumers := consumers[c := me.(delivered := me.delivered || tg.aborting)];
    }

    /** The user's function came back. */
    method CallReturns(c: nat, call: Call<V, X>)
      requires Valid() && c < |consumers| && consumers[c].pc.Calling? && consumers[c].pc.pos < |history.fates|
      requires Possible(cfg.seconds, call)
      requires queue != [] && queue[0].Item? ==> queue[0].pos < |history.fates|
      modifies this, m, indexLock, resultsLock
      ensures Valid() && Snapshot() == StreamModel.CallReturns(old(Snapshot()), c, call)
    {
      var stopping := Stopping();
      var index := consumers[c].pc.index;
      CallAnswered(c);
      match Settle(None, index, cfg.seconds, stopping, call) {
        case Value(v) =>
          Collect(c, Ok(v));
        case Failure(e) =>
          if cfg.collect {
            Collect(c, Err(e));
          } else {
            FailItem(c, Failed(e));
          }
        case Teardown =>
          FailItem(c, CancelledEnd);
      }
    }

    method ConsumerCancelled(c: nat)
      requires Valid() && c < |consumers|
      modifies this
      ensures Valid() && Snapshot() == StreamModel.ConsumerCancelled(old(Snapshot()), c)
    {
      var me := consumers[c];
      history := history.(strays := history.strays + Bit(me.stray && !(tg.aborting && !me.delivered)));
      consumers := consumers[c := me.(pc := ConsumerEnded(CancelledEnd), delivered := me.delivered || tg.aborting)];
    }

    // -------------------------------------------------------------------------------
    // The group's callbacks, and the caller
    // -------------------------------------------------------------------------------

    method ReapProducer()
      requires Valid() && producer.pc.ProducerEnded?
      modifies this, tg, tg.parent
      ensures Valid() && Snapshot() == StreamModel.ReapProducer(old(Snapshot()))
    {
      producer := producer.(reaped := true);
      tg.OnTaskDone(producer.pc.end);
    }

    method ReapConsumer(c: nat)
      requires Valid() && c < |consumers| && consumers[c].pc.ConsumerEnded?
      modifies this, tg, tg.parent
      ensures Valid() && Snapshot() == StreamModel.ReapConsumer(old(Snapshot()), c)
    {
      consumers := consumers[c := consumers[c].(reaped := true)];
      tg.OnTaskDone(consumers[c].pc.end);
    }

    method CallerResumes()
      requires Valid()
      modifies this, tg, tg.parent
      ensures Valid() && Snapshot() == StreamModel.CallerResumes(old(Snapshot()))
    {
      tg.Resume();
      if producer.reaped && forall c :: 0 <= c < |consumers| ==> ConsumerReaped(consumers[c]) {
        var exit := tg.EndExit();
      }
    }

    /** `Task.cancel()` on a child, by anyone but the group. */
    method CancelChild(child: Option<nat>)
      requires Valid() && CanStray(Snapshot(), child)
      modifies this
      ensures Valid() && Snapshot() == StreamModel.CancelChild(old(Snapshot()), child)
    {
      if child.None? {
        producer := producer.(stray := true);
      } else {
        consumers := consumers[child.value := consumers[child.value].(stray := true)];
      }
    }

    // -------------------------------------------------------------------------------
    // The scheduler
    // -------------------------------------------------------------------------------

    /** Any step that is possible may be taken, and does to the object what it does to its value. */
    method Step(step: StreamModel.Step, earlier: CancelProbe)
      requires Valid() && Can(Snapshot(), step)
      requires step.Environment? && step.event.EarlierRearm? ==>
                 earlier.task == tg.parent && step.event.earlier == earlier.Value()
      modifies this, m, indexLock, resultsLock, tg, tg.parent
      ensures Valid() && Snapshot() == Next(old(Snapshot()), step)
    {
      match step {
        case ProducerStarts =>
          AskSource();
        case Yield => SourceYields();
        case EndOfSource => SourceEnds();
        case SourceThrows(x) =>
          producer := producer.(delivered := producer.delivered || tg.aborting);
          ProducerRaises(Some(Thrown(x)));
        case SourceThrowsCancelled =>
          producer := producer.(delivered := producer.delivered || tg.aborting);
          ProducerRaises(None);
        case RoomForItem => PutItem(producer.pc.pos);
        case RoomForSentinel => PutSentinels();
        case CancelProducer => ProducerCancelled();
        case Top(c) => LoopTop(c);
        case Get(c) => Take(c);
        case Return(c, call) => CallReturns(c, call);
        case CancelConsumer(c) => ConsumerCancelled(c);
        case ReapP => ReapProducer();
        case ReapC(c) => ReapConsumer(c);
        case Caller => CallerResumes();
        case Environment(e) => tg.OutsideEvent(e, earlier);
        case StrayCancel(child) => CancelChild(child);
      }
    }

    /** `earlier[k]` is the probe of the re-arm that lands at step `k`, where one does. */
    ghost predicate ProbesFor(steps: seq<StreamModel.Step>, earlier: seq<CancelProbe>) {
      && |earlier| == |steps|
      && forall k :: 0 <= k < |steps| && steps[k].Environment? && steps[k].event.EarlierRearm? ==>
           earlier[k].task == tg.parent && steps[k].event.earlier == earlier[k].Value()
    }

    /** A run of the object is the run of its value, whatever the schedule. */
    method Run(steps: seq<StreamModel.Step>, earlier: seq<CancelProbe>, ghost end: State)
      requires Valid() && Reaches(Snapshot(), steps, end) && ProbesFor(steps, earlier)
      modifies this, m, indexLock, resultsLock, tg, tg.parent
      ensures Valid() && Snapshot() == end
    {
      var k := 0;
      while k < |steps|
        invariant k <= |steps| && Valid() && Reaches(Snapshot(), steps[k..], end)
      {
        assert steps[k..][0] == steps[k] && steps[k..][1..] == steps[k + 1..];
        Step(steps[k], earlier[k]);
        k := k + 1;
      }
    }
  }

  /**
   `stream` on a source of `cfg.items` items, with a function that returns `f` of each
   item and a caller that nobody cancels: it returns the values of all the items, in the
   order in which the schedule let them finish, and leaves the caller as it was.
   */
  method StreamAll(cfg: Config, task: CallerTask, steps: seq<StreamModel.Step>, earlier: seq<CancelProbe>,
                   ghost f: nat -> V, ghost end: State)
    returns (results: seq<Outcome<V, X>>)
    requires 0 < cfg.concurrency && 0 < cfg.queueSize && !task.done && !task.mustCancel
    requires |earlier| == |steps| && PureRun(Init(cfg, task.Snapshot()), steps, end, f)
    requires end.group.phase.Exited?
    modifies task
    ensures var order := PositionsOf(Completed(Init(cfg, old(task.Snapshot())), steps));
            IsPermutation(order, cfg.items) && results == Outcomes(order, f)
    ensures multiset(results) == multiset(Outcomes(UpTo(cfg.items), f))
    ensures cfg.concurrency == 1 ==> results == Outcomes(UpTo(cfg.items), f)
    ensures task.cancelling == old(task.cancelling)
  {
    ghost var s := Init(cfg, task.Snapshot());
    StreamComputesMap(cfg, task.Snapshot(), steps, end, f);
    InitInv(cfg, task.Snapshot());
    PureRunInv(s, steps, end, f);
    PureReturns(cfg, task.Snapshot(), steps, end, f);
    PureRunQuiet(s, steps, end, f);
    var call := new StreamCall(cfg, task);
    call.Run(steps, earlier, end);
    results := call.results;
  }
}
