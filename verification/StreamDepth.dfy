/** What a `stream` call reports about its queue. */
module StreamDepth {
  import opened Counting
  import opened Cancellation
  import opened Calls
  import opened StreamModel
  import opened StreamSafety
  import opened StreamResults

  // The depth is the greatest number of items that ever waited, over all the suspension points
  // of the run, and the pauses are the times that the producer had to wait for room.

  predicate IsItem(slot: Slot) { slot.Item? }

  /** Items waiting in the queue; sentinels do not count. */
  function Waiting(s: State): nat { Count(IsItem, s.queue) }

  function Greater(a: nat, b: nat): nat { if a < b then b else a }

  /** The most items that waited at a suspension point of the run. */
  ghost function HighWater(s: State, steps: seq<Step>): nat
    decreases |steps|
  {
    if steps == [] || !Can(s, steps[0]) then Waiting(s)
    else Greater(Waiting(s), HighWater(Next(s, steps[0]), steps[1..]))
  }

  /** A sequence of `k` items and then only sentinels. */
  lemma {:induction false} CountFront(queue: seq<Slot>, k: nat)
    requires k <= |queue| && forall i :: 0 <= i < |queue| ==> (IsItem(queue[i]) <==> i < k)
    ensures Count(IsItem, queue) == k
    decreases |queue|
  {
    if queue == [] {
    } else {
      CountFront(queue[..|queue| - 1], if k < |queue| then k else k - 1);
    }
  }

  lemma WaitingIs(s: State)
    requires QueueInv(s)
    ensures Waiting(s) == s.metrics.produced - s.history.taken
    ensures Waiting(s) <= |s.queue| <= s.cfg.queueSize
  {
    CountFront(s.queue, s.metrics.produced - s.history.taken);
  }

  // ---------------------------------------------------------------------------------
  // One step
  // ---------------------------------------------------------------------------------

  /** How the reported depth moves: up to the items waiting after the step, if they are more. */
  predicate DepthMoves(s: State, t: State) {
    && t.history.taken <= t.metrics.produced
    && t.metrics.maxDepth == Greater(s.metrics.maxDepth, t.metrics.produced - t.history.taken)
  }

  lemma PutItemMoves(s: State, pos: nat)
    requires QueueInv(s) && ProducerInv(s) && MetricsInv(s) && s.producer.pc == Putting(pos)
    ensures DepthMoves(s, PutItem(s, pos))
  {
  }

  lemma {:induction false} SentinelsMove(s: State)
    requires s.producer.pc.PuttingSentinels?
    ensures PutSentinels(s).metrics == s.metrics && PutSentinels(s).history.taken == s.history.taken
    ensures !PutSentinels(s).producer.pc.Putting?
    decreases s.producer.pc.left
  {
    if s.producer.pc.left == 0 || s.Full() {
    } else {
      SentinelsMove(PutSentinel(s));
    }
  }

  lemma YieldMoves(s: State)
    requires Places(s) && MetricsInv(s) && Can(s, Yield)
    ensures DepthMoves(s, SourceYields(s))
  {
  }

  lemma ProducerMoves(s: State, step: Step)
    requires Places(s) && MetricsInv(s) && Can(s, step) && OfProducer(step)
    ensures DepthMoves(s, Next(s, step))
  {
    match step
    case Yield => YieldMoves(s);
    case RoomForItem => PutItemMoves(s, s.producer.pc.pos);
    case RoomForSentinel => SentinelsMove(s);
    case EndOfSource =>
      if !s.Stopping() {
        var s1 := SourceAnswered(s);
        SentinelsMove(s1.(producer := s1.producer.(pc := PuttingSentinels(s1.started))));
      }
    case _ =>
  }

  lemma TakeMoves(s: State, c: nat)
    requires QueueInv(s) && MetricsInv(s) && c < |s.consumers| && s.queue != [] && FrontKnown(s)
    ensures DepthMoves(s, Take(s, c)) && Take(s, c).cfg == s.cfg
  {
  }

  lemma ReturnMoves(s: State, c: nat, call: Call<V, X>)
    requires QueueInv(s) && MetricsInv(s) && Can(s, Return(c, call))
    ensures DepthMoves(s, CallReturns(s, c, call))
  {
  }

  lemma StepMoves(s: State, step: Step)
    requires Inv(s) && Can(s, step)
    ensures DepthMoves(s, Next(s, step))
  {
    if OfProducer(step) { ProducerMoves(s, step); }
    else {
      match step
      case Get(c) => TakeMoves(s, c);
      case Top(c) => if !s.Stopping() && s.queue != [] { TakeMoves(s, c); }
      case Return(c, call) => ReturnMoves(s, c, call);
      case _ =>
    }
  }

  // ---------------------------------------------------------------------------------
  // The run
  // ---------------------------------------------------------------------------------

  lemma WaitingCounted(s: State)
    requires Inv(s)
    ensures Waiting(s) <= s.metrics.maxDepth
  {
    WaitingIs(s);
  }

  lemma Onwards(s: State, step: Step)
    requires Inv(s) && Can(s, step)
    ensures var t := Next(s, step);
            Inv(t) && t.cfg == s.cfg && t.metrics.maxDepth == Greater(s.metrics.maxDepth, Waiting(t))
  {
    StepInv(s, step);
    StepMoves(s, step);
    StepKeepsConfig(s, step);
    WaitingIs(Next(s, step));
  }

  lemma {:induction false} RunMoves(s: State, steps: seq<Step>, t: State)
    requires Inv(s) && Reaches(s, steps, t)
    ensures t.metrics.maxDepth == Greater(s.metrics.maxDepth, HighWater(s, steps))
    decreases |steps|
  {
    WaitingCounted(s);
    if steps == [] {
    } else {
      Onwards(s, steps[0]);
      RunMoves(Next(s, steps[0]), steps[1..], t);
    }
  }

  /** The reported depth is the greatest number of items that waited at any moment of the run. */
  lemma DepthIsHighWater(cfg: Config, caller: Task, steps: seq<Step>, s: State)
    requires Reachable(cfg, caller, steps, s)
    ensures s.metrics.maxDepth == HighWater(Init(cfg, caller), steps)
  {
    InitInv(cfg, caller);
    RunMoves(Init(cfg, caller), steps, s);
  }

  /** The queue is full, and of items only. */
  ghost predicate FullNow(s: State) {
    |s.queue| == s.cfg.queueSize && forall i :: 0 <= i < |s.queue| ==> IsItem(s.queue[i])
  }

  /** It was at some suspension point of the run. */
  ghost predicate WasFull(s: State, steps: seq<Step>)
    decreases |steps|
  {
    || FullNow(s)
    || (steps != [] && Can(s, steps[0]) && WasFull(Next(s, steps[0]), steps[1..]))
  }

  lemma FullOfItems(s: State)
    requires Inv(s)
    ensures Waiting(s) <= s.cfg.queueSize && (FullNow(s) <==> Waiting(s) == s.cfg.queueSize)
  {
    WaitingIs(s);
    if FullNow(s) { CountFront(s.queue, |s.queue|); }
  }

  lemma {:induction false} FullRun(s: State, steps: seq<Step>, t: State)
    requires Inv(s) && Reaches(s, steps, t)
    ensures HighWater(s, steps) <= s.cfg.queueSize
    ensures WasFull(s, steps) <==> HighWater(s, steps) == s.cfg.queueSize
    decreases |steps|
  {
    FullOfItems(s);
    if steps == [] {
    } else {
      Onwards(s, steps[0]);
      FullRun(Next(s, steps[0]), steps[1..], t);
    }
  }

  /** The reported depth meets the bound if and only if the queue was full of items at some moment. */
  lemma FullExactly(cfg: Config, caller: Task, steps: seq<Step>, s: State)
    requires Reachable(cfg, caller, steps, s)
    ensures s.metrics.maxDepth == cfg.queueSize <==> WasFull(Init(cfg, caller), steps)
  {
    InitInv(cfg, caller);
    DepthIsHighWater(cfg, caller, steps, s);
    FullRun(Init(cfg, caller), steps, s);
  }

  // ---------------------------------------------------------------------------------
  // Pauses
  // ---------------------------------------------------------------------------------

  /** The producer has an item in hand, and has just found no room for it. */
  predicate BeginsToWait(s: State, t: State) {
    !s.producer.pc.Putting? && t.producer.pc.Putting?
  }

  /** How often that happened in the run. */
  ghost function Waits(s: State, steps: seq<Step>): nat
    decreases |steps|
  {
    if steps == [] || !Can(s, steps[0]) then 0
    else Bit(BeginsToWait(s, Next(s, steps[0]))) + Waits(Next(s, steps[0]), steps[1..])
  }

  lemma ProducerPauses(s: State, step: Step)
    requires Can(s, step) && OfProducer(step)
    ensures Next(s, step).metrics.pauses == s.metrics.pauses + Bit(BeginsToWait(s, Next(s, step)))
  {
    match step
    case RoomForSentinel => SentinelsMove(s);
    case EndOfSource =>
      if !s.Stopping() {
        var s1 := SourceAnswered(s);
        SentinelsMove(s1.(producer := s1.producer.(pc := PuttingSentinels(s1.started))));
      }
    case _ =>
  }

  lemma OtherPauses(s: State, step: Step)
    requires Can(s, step) && !OfProducer(step)
    ensures Next(s, step).metrics.pauses == s.metrics.pauses
    ensures Next(s, step).producer.pc == s.producer.pc
  {
  }

  lemma {:induction false} RunPauses(s: State, steps: seq<Step>, t: State)
    requires Reaches(s, steps, t)
    ensures t.metrics.pauses == s.metrics.pauses + Waits(s, steps)
    decreases |steps|
  {
    if steps == [] {
    } else {
      if OfProducer(steps[0]) { ProducerPauses(s, steps[0]); } else { OtherPauses(s, steps[0]); }
      RunPauses(Next(s, steps[0]), steps[1..], t);
    }
  }

  /** The reported pauses are the times that the producer began to wait for room with an item. */
  lemma PausesAreWaits(cfg: Config, caller: Task, steps: seq<Step>, s: State)
    requires Reachable(cfg, caller, steps, s)
    ensures s.metrics.pauses == Waits(Init(cfg, caller), steps)
  {
    RunPauses(Init(cfg, caller), steps, s);
  }
}
