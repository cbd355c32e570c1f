/**
 What every reachable state of a `stream` call satisfies: where each item is, the bounds,
 the metrics, and what the group and the latch say about each other.

 The invariant has three parts. `Places` says where everything is: the queue holds the items
 put and not taken, in order, and then sentinels; an item's fate and the place that holds it
 agree. `Books` says what the counters and the results come to. `Ends` says what holds while
 nothing has gone wrong, and how failures, cancels and the group hang together. A step is
 shown to keep them one part at a time, because each part looks at little of the state.
 */
module StreamSafety {
  import opened Counting
  import opened Cancellation
  import opened Calls
  import opened StreamModel

  predicate IsCalling(c: Consumer) { c.pc.Calling? }

  predicate IsEnded(c: Consumer) { c.pc.ConsumerEnded? }

  predicate IsOpen(f: Fate) { !f.Done? && !f.Discarded? }

  function InFlightCount(s: State): nat { Count(IsCalling, s.consumers) }

  function EndedCount(s: State): nat { Count(IsEnded, s.consumers) }

  /** Items pulled that are neither finished nor discarded. */
  function OpenCount(s: State): nat { Count(IsOpen, s.history.fates) }

  /** No failure is latched and no cancel is on its way. */
  predicate Calm(s: State) {
    !s.failed && !s.group.aborting && !s.group.task.undelivered
  }

  // ---------------------------------------------------------------------------------
  // The invariant
  // ---------------------------------------------------------------------------------

  ghost predicate QueueInv(s: State) {
    var h := s.history;
    && 0 < s.cfg.queueSize
    && |s.queue| <= s.cfg.queueSize
    && h.taken <= s.metrics.produced <= s.Pulled()
    && h.sentinelsTaken <= h.sentinelsPut <= s.started
    && |s.queue| == s.metrics.produced - h.taken + h.sentinelsPut - h.sentinelsTaken
    && (forall i :: 0 <= i < |s.queue| ==>
          s.queue[i] == if i < s.metrics.produced - h.taken then Item(h.taken + i) else Sentinel)
    && (h.sentinelsTaken > 0 ==> h.taken == s.metrics.produced)
  }

  function Least(a: nat, b: nat): nat { if a < b then a else b }

  ghost predicate ProducerInv(s: State) {
    && s.started == |s.consumers| && 0 < s.cfg.concurrency
    && s.started <= Least(s.cfg.concurrency, s.Pulled()) && s.Pulled() <= s.cfg.items
    && (!s.failed ==> s.started == Least(s.cfg.concurrency, s.Pulled()))
    && (s.producer.reaped ==> s.producer.pc.ProducerEnded?)
    && match s.producer.pc
       case NotStarted => s.Pulled() == 0 && s.history.sentinelsPut == 0 && s.history.sourceCalls == 0
       case Pulling => s.Pulled() == s.metrics.produced && s.history.sentinelsPut == 0
       case Putting(p) => p == s.metrics.produced == s.Pulled() - 1 && s.history.sentinelsPut == 0 && s.started > 0
       case PuttingSentinels(left) => s.Pulled() == s.metrics.produced && s.history.sentinelsPut + left == s.started
       case ProducerEnded(end) =>
         && (end.Finished? ==> s.Pulled() == s.metrics.produced && s.history.sentinelsPut == s.started)
         && (end.Failed? ==> s.failed)
         && s.Pulled() <= s.metrics.produced + 1
  }

  /** The fate of an item and the place that holds the item agree, in both directions. */
  ghost predicate FatesInv(s: State) {
    var fates, cs, h := s.history.fates, s.consumers, s.history;
    && (forall p :: 0 <= p < |fates| && fates[p].InHand? ==> s.producer.pc == Putting(p))
    && (s.producer.pc.Putting? ==> s.producer.pc.pos < |fates| && fates[s.producer.pc.pos] == InHand)
    && (forall p :: 0 <= p < |fates| ==> (fates[p].Queued? <==> h.taken <= p < s.metrics.produced))
    && (forall p :: 0 <= p < |fates| && fates[p].InFlight? ==>
          fates[p].consumer < |cs| && cs[fates[p].consumer].pc.Calling? && cs[fates[p].consumer].pc.pos == p)
    && (forall c :: 0 <= c < |cs| && cs[c].pc.Calling? ==>
          cs[c].pc.pos < |fates| && fates[cs[c].pc.pos] == InFlight(c))
    && (forall p :: 0 <= p < |fates| && fates[p].Done? ==> p in h.finished && p < h.taken)
  }

  ghost predicate ConsumersInv(s: State) {
    var cs := s.consumers;
    && (forall c :: 0 <= c < |cs| && cs[c].pc.Calling? ==>
          cs[c].pc.index == cs[c].pc.pos < s.history.taken && cs[c].pc.index < s.consumedIndex)
    && (forall c :: 0 <= c < |cs| && cs[c].reaped ==> cs[c].pc.ConsumerEnded?)
    && (forall c :: 0 <= c < |cs| && cs[c].pc.ConsumerEnded? && cs[c].pc.end.Failed? ==> s.failed)
  }

  ghost predicate ResultsInv(s: State) {
    var h := s.history;
    && |h.finished| == |s.results| == s.metrics.consumed
    && (forall k :: 0 <= k < |h.finished| ==>
          h.finished[k] < s.Pulled() && h.fates[h.finished[k]] == Done(s.results[k]))
    && (forall j, k :: 0 <= j < k < |h.finished| ==> h.finished[j] != h.finished[k])
  }

  ghost predicate CountsInv(s: State) {
    && s.history.taken == InFlightCount(s) + |s.results| + s.history.lost
    && OpenCount(s) ==
         Bit(s.producer.pc.Putting?) + s.metrics.produced - s.history.taken + InFlightCount(s)
    && s.consumedIndex <= s.history.taken
    && (!s.failed ==> s.consumedIndex == s.history.taken)
  }

  ghost predicate MetricsInv(s: State) {
    var m := s.metrics;
    && m.maxDepth <= s.cfg.queueSize && m.maxDepth <= m.produced
    && m.produced - s.history.taken <= m.maxDepth
    && (m.pauses > 0 ==> m.maxDepth == s.cfg.queueSize && s.Pulled() > s.cfg.queueSize)
  }

  ghost predicate CalmInv(s: State) {
    Calm(s) ==>
      && EndedCount(s) == s.history.sentinelsTaken + s.history.strays
      && s.history.lost == 0
      && (forall p :: 0 <= p < s.Pulled() ==> !s.history.fates[p].Discarded?)
      && (s.producer.pc.ProducerEnded? ==>
            && s.Pulled() == s.metrics.produced
            && (s.Pulled() == s.cfg.items || (s.history.producerStrayed && s.Pulled() == 0))
            && (s.producer.pc.end.Finished? <==> !s.history.producerStrayed))
      && (s.producer.pc.PuttingSentinels? ==> s.Pulled() == s.cfg.items)
      && (s.history.producerStrayed ==> s.producer.pc.ProducerEnded?)
  }

  ghost predicate FailedConsumer(c: Consumer) {
    c.pc.ConsumerEnded? && c.pc.end.Failed? && !c.reaped
  }

  /** A child has failed and the group has not seen it yet. */
  ghost predicate FailureUnseen(s: State) {
    || (s.producer.pc.ProducerEnded? && s.producer.pc.end.Failed? && !s.producer.reaped)
    || exists c :: 0 <= c < |s.consumers| && FailedConsumer(s.consumers[c])
  }

  ghost predicate LatchInv(s: State) {
    var g := s.group;
    && GroupInv(g) && !g.phase.Body? && !g.requestedBefore && g.bodyErrors == [] && !g.task.done
    && (g.errors != [] ==> s.failed) && (g.propagate ==> g.aborting)
    && (g.phase.Exiting? && g.probe.Cancelled(g.task) ==> g.task.undelivered || g.aborting)
    && (g.phase.Exiting? && s.failed ==> g.task.undelivered || g.aborting || FailureUnseen(s))
    && (g.phase.Exited? ==> AllReaped(s))
    && (g.phase.Exited? ==> (g.phase.exit.Returned? <==> Calm(s)))
    && (g.phase.Exited? ==> !g.task.undelivered)
    && (g.phase.Exited? && g.phase.exit.RaisedCancelled? ==> g.errors == [])
  }

  /** Where everything is. */
  ghost predicate Places(s: State) {
    QueueInv(s) && ProducerInv(s) && FatesInv(s) && ConsumersInv(s)
  }

  /** What the counters and the results say. */
  ghost predicate Books(s: State) {
    ResultsInv(s) && CountsInv(s) && MetricsInv(s)
  }

  /** How failures, cancels and the group hang together. */
  ghost predicate Ends(s: State) {
    CalmInv(s) && LatchInv(s)
  }

  ghost predicate Inv(s: State) {
    Places(s) && Books(s) && Ends(s)
  }

  lemma InitInv(cfg: Config, caller: Task)
    requires 0 < cfg.concurrency && 0 < cfg.queueSize && !caller.done
    ensures Inv(Init(cfg, caller))
  {
  }

  // ---------------------------------------------------------------------------------
  // Preservation, one piece of a step at a time
  // ---------------------------------------------------------------------------------

  lemma UnseenKept(s: State, t: State)
    requires s.producer.pc.ProducerEnded? ==> t.producer == s.producer
    requires |s.consumers| <= |t.consumers|
    requires forall c :: 0 <= c < |s.consumers| && s.consumers[c].pc.ConsumerEnded? ==> t.consumers[c] == s.consumers[c]
    ensures FailureUnseen(s) ==> FailureUnseen(t)
  {
    if FailureUnseen(s) && exists c :: 0 <= c < |s.consumers| && FailedConsumer(s.consumers[c]) {
      var c :| 0 <= c < |s.consumers| && FailedConsumer(s.consumers[c]);
      assert FailedConsumer(t.consumers[c]);
    }
  }

  lemma PutItemBooks(s: State, pos: nat)
    requires Places(s) && Books(s)
    requires s.producer.pc == Putting(pos) && !s.Full()
    ensures Books(PutItem(s, pos))
  {
    CountUpdate(IsOpen, s.history.fates, pos, Queued);
  }

  lemma PutItemPlaces(s: State, pos: nat)
    requires Places(s) && s.producer.pc == Putting(pos) && !s.Full()
    ensures Places(PutItem(s, pos))
  {
  }

  lemma PutItemInv(s: State, pos: nat)
    requires Inv(s) && s.group.phase.Exiting?
    requires s.producer.pc == Putting(pos) && !s.Full()
    ensures Inv(PutItem(s, pos))
  {
    PutItemPlaces(s, pos);
    PutItemBooks(s, pos);
    UnseenKept(s, PutItem(s, pos));
  }

  /** Room for an item, or one more pause. */
  lemma OfferInv(s: State, pos: nat)
    requires Inv(s) && s.group.phase.Exiting?
    requires s.producer.pc == Putting(pos)
    ensures Inv(Offer(s, pos))
  {
    if !s.Full() { PutItemInv(s, pos); } else { UnseenKept(s, Offer(s, pos)); }
  }

  /** An item arrives and nothing stops the batch: a consumer for it, while the cap allows. */
  function Admitted(s: State): State
    requires s.Pulled() < s.cfg.items
  {
    var s1 := ReceiveItem(s);
    if s1.started < s1.cfg.concurrency then StartConsumer(s1) else s1
  }

  lemma AdmittedFates(s: State)
    requires QueueInv(s) && ProducerInv(s) && FatesInv(s) && s.producer.pc.Pulling? && s.Pulled() < s.cfg.items
    ensures FatesInv(Admitted(s))
  {
    var t := Admitted(s);
    assert forall p :: 0 <= p < s.Pulled() ==> t.history.fates[p] == s.history.fates[p];
    assert forall c :: 0 <= c < |s.consumers| ==> t.consumers[c] == s.consumers[c];
  }

  lemma AdmittedPlaces(s: State)
    requires Places(s) && s.group.phase.Exiting? && s.producer.pc.Pulling? && s.Pulled() < s.cfg.items && !s.Stopping()
    ensures Places(Admitted(s))
  {
    AdmittedFates(s);
  }

  lemma AdmittedCounts(s: State)
    requires s.producer.pc.Pulling? && s.Pulled() < s.cfg.items
    ensures InFlightCount(Admitted(s)) == InFlightCount(s) && EndedCount(Admitted(s)) == EndedCount(s)
    ensures OpenCount(Admitted(s)) == OpenCount(s) + 1
  {
    CountAppend(IsOpen, s.history.fates, InHand);
    var newcomer := Consumer.Consumer(AtTop, false, false, false, 0);
    CountAppend(IsCalling, s.consumers, newcomer);
    CountAppend(IsEnded, s.consumers, newcomer);
  }

  lemma AdmittedBooks(s: State)
    requires Places(s) && Books(s) && s.group.phase.Exiting? && s.producer.pc.Pulling? && s.Pulled() < s.cfg.items
    ensures Books(Admitted(s)) && EndedCount(Admitted(s)) == EndedCount(s)
  {
    AdmittedCounts(s);
  }

  lemma AdmittedInv(s: State)
    requires Inv(s) && s.group.phase.Exiting? && s.producer.pc.Pulling? && s.Pulled() < s.cfg.items
    requires !s.Stopping() && !(s.group.aborting && s.started < s.cfg.concurrency)
    ensures Inv(Admitted(s))
  {
    AdmittedPlaces(s);
    AdmittedBooks(s);
    UnseenKept(s, Admitted(s));
  }

  /** An item that arrives too late is discarded. */
  function Refused(s: State): State
    requires s.Pulled() < s.cfg.items
  {
    SetFate(ReceiveItem(s), s.Pulled(), Discarded)
  }

  lemma RefusedPlaces(s: State, caught: Option<Error<X>>)
    requires Places(s) && s.group.phase.Exiting? && s.producer.pc.Pulling? && s.Pulled() < s.cfg.items
    ensures Places(ProducerRaises(Refused(s), caught))
  {
  }

  lemma RefusedBooks(s: State, caught: Option<Error<X>>)
    requires Places(s) && Books(s) && s.group.phase.Exiting? && s.producer.pc.Pulling? && s.Pulled() < s.cfg.items
    ensures Books(ProducerRaises(Refused(s), caught))
  {
    assert Refused(s).history.fates == s.history.fates + [Discarded];
    CountAppend(IsOpen, s.history.fates, Discarded);
  }

  lemma RefusedInv(s: State, caught: Option<Error<X>>)
    requires Inv(s) && s.group.phase.Exiting? && s.producer.pc.Pulling? && s.Pulled() < s.cfg.items
    requires if caught.None? then s.Stopping() else s.group.aborting
    ensures Inv(ProducerRaises(Refused(s), caught))
  {
    RefusedPlaces(s, caught);
    RefusedBooks(s, caught);
    UnseenKept(s, ProducerRaises(Refused(s), caught));
  }

  lemma YieldInv(s: State)
    requires Inv(s) && s.group.phase.Exiting? && s.producer.pc.Pulling? && s.Pulled() < s.cfg.items
    ensures Inv(SourceYields(s))
  {
    if s.Stopping() { RefusedInv(s, None); }
    else if s.started < s.cfg.concurrency && s.group.aborting { RefusedInv(s, Some(GroupShutDown)); }
    else {
      AdmittedInv(s);
      OfferInv(Admitted(s), s.Pulled());
    }
  }

  lemma RaisesInv(s: State, caught: Option<Error<X>>)
    requires Inv(s) && s.group.phase.Exiting? && s.producer.pc.Pulling?
    ensures Inv(ProducerRaises(SourceAnswered(s), caught))
  {
    UnseenKept(s, ProducerRaises(SourceAnswered(s), caught));
  }

  lemma PutSentinelInv(s: State)
    requires Inv(s) && s.group.phase.Exiting?
    requires s.producer.pc.PuttingSentinels? && s.producer.pc.left > 0 && !s.Full()
    ensures Inv(PutSentinel(s))
  {
    UnseenKept(s, PutSentinel(s));
  }

  lemma ProducerDoneInv(s: State)
    requires Inv(s) && s.group.phase.Exiting?
    requires s.producer.pc == PuttingSentinels(0)
    ensures Inv(EndProducer(s, Finished))
  {
    UnseenKept(s, EndProducer(s, Finished));
  }

  lemma {:induction false} PutSentinelsInv(s: State)
    requires Inv(s) && s.group.phase.Exiting? && s.producer.pc.PuttingSentinels?
    ensures Inv(PutSentinels(s))
    decreases s.producer.pc.left
  {
    if s.producer.pc.left == 0 {
      ProducerDoneInv(s);
    } else if !s.Full() {
      PutSentinelInv(s);
      PutSentinelsInv(PutSentinel(s));
    }
  }

  lemma EndOfSourceInv(s: State)
    requires Inv(s) && s.group.phase.Exiting? && s.producer.pc.Pulling?
    requires s.Pulled() == s.cfg.items || s.group.aborting
    ensures Inv(SourceEnds(s))
  {
    if s.Stopping() { RaisesInv(s, None); }
    else {
      var s1 := SourceAnswered(s);
      var s2 := s1.(producer := s1.producer.(pc := PuttingSentinels(s1.started)));
      UnseenKept(s, s2);
      PutSentinelsInv(s2);
    }
  }

  predicate CancellableProducer(s: State) {
    && s.group.phase.Exiting? && s.ProducerDue()
    && (s.producer.pc.NotStarted? || s.producer.pc.PuttingSentinels?
        || (s.producer.pc.Putting? && s.producer.pc.pos < s.Pulled()))
  }

  lemma ProducerCancelledPlaces(s: State)
    requires Places(s) && CancellableProducer(s)
    ensures Places(ProducerCancelled(s))
  {
  }

  lemma ProducerCancelledBooks(s: State)
    requires Places(s) && Books(s) && CancellableProducer(s)
    ensures Books(ProducerCancelled(s))
  {
    if s.producer.pc.Putting? {
      CountUpdate(IsOpen, s.history.fates, s.producer.pc.pos, Discarded);
    }
  }

  lemma ProducerCancelledCalm(s: State)
    requires QueueInv(s) && ProducerInv(s) && CalmInv(s) && LatchInv(s) && CancellableProducer(s)
    ensures CalmInv(ProducerCancelled(s))
  {
  }

  lemma ProducerCancelledInv(s: State)
    requires Inv(s) && CancellableProducer(s)
    ensures Inv(ProducerCancelled(s))
  {
    ProducerCancelledPlaces(s);
    ProducerCancelledBooks(s);
    ProducerCancelledCalm(s);
    UnseenKept(s, ProducerCancelled(s));
  }

  // A consumer at the top of its loop, or waiting for an item.

  predicate Idle(s: State, c: nat) {
    && s.group.phase.Exiting? && c < |s.consumers|
    && (s.consumers[c].pc.AtTop? || s.consumers[c].pc.Getting?)
  }

  lemma PcCounts(s: State, c: nat, me: Consumer)
    requires c < |s.consumers|
    ensures Count(IsCalling, s.consumers[c := me]) ==
              InFlightCount(s) - Bit(IsCalling(s.consumers[c])) + Bit(IsCalling(me))
    ensures Count(IsEnded, s.consumers[c := me]) ==
              EndedCount(s) - Bit(IsEnded(s.consumers[c])) + Bit(IsEnded(me))
  {
    CountUpdate(IsCalling, s.consumers, c, me);
    CountUpdate(IsEnded, s.consumers, c, me);
  }

  /** A consumer moves on without taking anything: only its own record changes. */
  function Moved(s: State, c: nat, me: Consumer): State
    requires c < |s.consumers|
  {
    s.(consumers := s.consumers[c := me])
  }

  predicate MovesTo(me: Consumer) {
    !me.pc.Calling? && !me.reaped && (me.pc.ConsumerEnded? ==> !me.pc.end.Failed?)
  }

  lemma MovedPlaces(s: State, c: nat, me: Consumer)
    requires Places(s) && Idle(s, c) && MovesTo(me)
    ensures Places(Moved(s, c, me))
  {
  }

  lemma MovedBooks(s: State, c: nat, me: Consumer)
    requires Books(s) && Idle(s, c) && MovesTo(me)
    ensures Books(Moved(s, c, me)) && EndedCount(Moved(s, c, me)) == EndedCount(s) + Bit(IsEnded(me))
  {
    PcCounts(s, c, me);
  }

  lemma WaitInv(s: State, c: nat)
    requires Inv(s) && Idle(s, c)
    ensures Inv(SetPc(s, c, Getting))
  {
    var me := s.consumers[c].(pc := Getting);
    assert !s.consumers[c].reaped;
    MovedPlaces(s, c, me);
    MovedBooks(s, c, me);
    UnseenKept(s, Moved(s, c, me));
  }

  lemma StopInv(s: State, c: nat)
    requires Inv(s) && Idle(s, c) && s.Stopping()
    ensures Inv(SetPc(s, c, ConsumerEnded(CancelledEnd)))
  {
    var me := s.consumers[c].(pc := ConsumerEnded(CancelledEnd));
    assert !s.consumers[c].reaped;
    MovedPlaces(s, c, me);
    MovedBooks(s, c, me);
    UnseenKept(s, Moved(s, c, me));
  }

  lemma TakeSentinelPlaces(s: State, c: nat)
    requires Places(s) && Idle(s, c) && s.queue != [] && s.queue[0].Sentinel?
    ensures Places(TakeSentinel(s, c))
  {
  }

  lemma TakeSentinelInv(s: State, c: nat)
    requires Inv(s) && Idle(s, c) && s.queue != [] && s.queue[0].Sentinel?
    ensures Inv(TakeSentinel(s, c))
  {
    TakeSentinelPlaces(s, c);
    PcCounts(s, c, s.consumers[c].(pc := ConsumerEnded(Finished)));
    UnseenKept(s, TakeSentinel(s, c));
  }

  predicate ItemInFront(s: State) {
    s.queue != [] && s.queue[0].Item? && s.queue[0].pos < s.Pulled()
  }

  lemma DropItemPlaces(s: State, c: nat)
    requires Places(s) && Idle(s, c) && ItemInFront(s)
    ensures Places(DropItem(s, c))
  {
  }

  lemma DropItemBooks(s: State, c: nat)
    requires Places(s) && Books(s) && Idle(s, c) && ItemInFront(s) && s.failed
    ensures Books(DropItem(s, c))
  {
    PcCounts(s, c, s.consumers[c].(pc := ConsumerEnded(Finished)));
    CountUpdate(IsOpen, s.history.fates, s.queue[0].pos, Discarded);
  }

  lemma DropItemInv(s: State, c: nat)
    requires Inv(s) && Idle(s, c) && ItemInFront(s) && s.failed
    ensures Inv(DropItem(s, c))
  {
    DropItemPlaces(s, c);
    DropItemBooks(s, c);
    UnseenKept(s, DropItem(s, c));
  }

  lemma BeginCallPlaces(s: State, c: nat)
    requires Places(s) && CountsInv(s) && Idle(s, c) && ItemInFront(s) && !s.failed
    ensures Places(BeginCall(s, c))
  {
  }

  lemma BeginCallBooks(s: State, c: nat)
    requires Places(s) && Books(s) && Idle(s, c) && ItemInFront(s) && !s.failed
    ensures Books(BeginCall(s, c)) && EndedCount(BeginCall(s, c)) == EndedCount(s)
  {
    PcCounts(s, c, BeginCall(s, c).consumers[c]);
    CountUpdate(IsOpen, s.history.fates, s.queue[0].pos, InFlight(c));
  }

  lemma BeginCallInv(s: State, c: nat)
    requires Inv(s) && Idle(s, c) && ItemInFront(s) && !s.failed
    ensures Inv(BeginCall(s, c))
  {
    BeginCallPlaces(s, c);
    BeginCallBooks(s, c);
    UnseenKept(s, BeginCall(s, c));
  }

  /** The front of the queue is an item that was pulled, or a sentinel. */
  lemma FrontIsKnown(s: State)
    requires QueueInv(s)
    ensures FrontKnown(s)
  {
  }

  lemma TakeInv(s: State, c: nat)
    requires Inv(s) && Idle(s, c) && s.queue != [] && FrontKnown(s)
    ensures Inv(Take(s, c))
  {
    if s.queue[0].Sentinel? { TakeSentinelInv(s, c); }
    else if s.failed { DropItemInv(s, c); }
    else { BeginCallInv(s, c); }
  }

  lemma LoopTopInv(s: State, c: nat)
    requires Inv(s) && Idle(s, c) && FrontKnown(s)
    ensures Inv(LoopTop(s, c))
  {
    if s.Stopping() { StopInv(s, c); }
    else if s.queue == [] { WaitInv(s, c); }
    else { TakeInv(s, c); }
  }

  // A consumer whose call is over.

  predicate Busy(s: State, c: nat) {
    && s.group.phase.Exiting? && c < |s.consumers|
    && s.consumers[c].pc.Calling? && s.consumers[c].pc.pos < s.Pulled()
  }

  lemma AnsweredPlaces(s: State, c: nat)
    requires Places(s) && Busy(s, c)
    ensures Places(CallAnswered(s, c))
  {
  }

  lemma AnsweredInv(s: State, c: nat)
    requires Inv(s) && Busy(s, c)
    ensures Inv(CallAnswered(s, c)) && Busy(CallAnswered(s, c), c)
  {
    AnsweredPlaces(s, c);
    PcCounts(s, c, CallAnswered(s, c).consumers[c]);
    UnseenKept(s, CallAnswered(s, c));
  }

  lemma RecordPlaces(s: State, c: nat, outcome: Outcome<V, X>)
    requires Places(s) && Busy(s, c)
    ensures Places(Record(s, c, outcome))
  {
    var t := Record(s, c, outcome);
    assert t.history.finished[|s.history.finished|] == s.consumers[c].pc.pos;
    assert forall p :: p in s.history.finished ==> p in t.history.finished;
  }

  lemma RecordBooks(s: State, c: nat, outcome: Outcome<V, X>)
    requires Places(s) && Books(s) && Busy(s, c)
    ensures Books(Record(s, c, outcome)) && EndedCount(Record(s, c, outcome)) == EndedCount(s)
  {
    PcCounts(s, c, s.consumers[c].(pc := AtTop));
    CountUpdate(IsOpen, s.history.fates, s.consumers[c].pc.pos, Done(outcome));
  }

  lemma RecordInv(s: State, c: nat, outcome: Outcome<V, X>)
    requires Inv(s) && Busy(s, c)
    ensures Inv(Record(s, c, outcome))
  {
    RecordPlaces(s, c, outcome);
    RecordBooks(s, c, outcome);
    UnseenKept(s, Record(s, c, outcome));
  }

  lemma FailItemPlaces(s: State, c: nat, end: ChildEnd<Error<X>>)
    requires Places(s) && Busy(s, c)
    ensures Places(FailItem(s, c, end))
  {
  }

  lemma FailItemBooks(s: State, c: nat, end: ChildEnd<Error<X>>)
    requires Places(s) && Books(s) && Busy(s, c)
    ensures Books(FailItem(s, c, end))
  {
    PcCounts(s, c, s.consumers[c].(pc := ConsumerEnded(end)));
    CountUpdate(IsOpen, s.history.fates, s.consumers[c].pc.pos, Discarded);
  }

  lemma FailItemInv(s: State, c: nat, end: ChildEnd<Error<X>>)
    requires Inv(s) && Busy(s, c)
    requires end.Failed? || (end.CancelledEnd? && s.Stopping())
    ensures Inv(FailItem(s, c, end))
  {
    var t := FailItem(s, c, end);
    FailItemPlaces(s, c, end);
    FailItemBooks(s, c, end);
    UnseenKept(s, t);
    if end.Failed? { assert FailedConsumer(t.consumers[c]); }
  }

  lemma RecordThenTop(s: State, c: nat, outcome: Outcome<V, X>)
    requires Inv(s) && Busy(s, c)
    ensures FrontKnown(Record(s, c, outcome)) && Inv(LoopTop(Record(s, c, outcome), c))
  {
    RecordInv(s, c, outcome);
    FrontIsKnown(Record(s, c, outcome));
    LoopTopInv(Record(s, c, outcome), c);
  }

  lemma ReturnInv(s: State, c: nat, call: Call<V, X>)
    requires Inv(s) && Busy(s, c) && FrontKnown(s) && Possible(s.cfg.seconds, call)
    ensures Inv(CallReturns(s, c, call))
  {
    var s1 := CallAnswered(s, c);
    AnsweredInv(s, c);
    match Settle(None, s.consumers[c].pc.index, s.cfg.seconds, s.Stopping(), call)
    case Value(v) => RecordThenTop(s1, c, Ok(v));
    case Failure(e) => if s.cfg.collect { RecordThenTop(s1, c, Err(e)); } else { FailItemInv(s1, c, Failed(e)); }
    case Teardown =>
      CancelledErrorExact(None, s.consumers[c].pc.index, s.cfg.seconds, s.Stopping(), call);
      FailItemInv(s1, c, CancelledEnd);
  }

  lemma CancelledConsumerPlaces(s: State, c: nat)
    requires Places(s) && Idle(s, c)
    ensures Places(ConsumerCancelled(s, c))
  {
  }

  lemma CancelledConsumerBooks(s: State, c: nat)
    requires Books(s) && Idle(s, c)
    ensures Books(ConsumerCancelled(s, c)) && EndedCount(ConsumerCancelled(s, c)) == EndedCount(s) + 1
  {
    PcCounts(s, c, ConsumerCancelled(s, c).consumers[c]);
  }

  lemma ConsumerCancelledInv(s: State, c: nat)
    requires Inv(s) && Idle(s, c) && s.ConsumerDue(c)
    ensures Inv(ConsumerCancelled(s, c))
  {
    CancelledConsumerPlaces(s, c);
    CancelledConsumerBooks(s, c);
    UnseenKept(s, ConsumerCancelled(s, c));
  }

  // The group and its surroundings.

  lemma ReapProducerInv(s: State)
    requires Inv(s) && s.group.phase.Exiting? && s.producer.pc.ProducerEnded? && !s.producer.reaped
    ensures Inv(ReapProducer(s))
  {
    var t := ReapProducer(s);
    ApplyInv(s.group, ChildEnds(s.producer.pc.end));
    if FailureUnseen(s) && !s.producer.pc.end.Failed? {
      var c :| 0 <= c < |s.consumers| && FailedConsumer(s.consumers[c]);
      assert FailedConsumer(t.consumers[c]);
    }
  }

  predicate Reapable(s: State, c: nat) {
    && s.group.phase.Exiting? && c < |s.consumers|
    && s.consumers[c].pc.ConsumerEnded? && !s.consumers[c].reaped
  }

  lemma ReapConsumerPlaces(s: State, c: nat)
    requires Places(s) && Reapable(s, c)
    ensures Places(ReapConsumer(s, c))
  {
  }

  lemma ReapConsumerLatch(s: State, c: nat)
    requires LatchInv(s) && ConsumersInv(s) && Reapable(s, c)
    ensures LatchInv(ReapConsumer(s, c))
  {
    var t := ReapConsumer(s, c);
    ApplyInv(s.group, ChildEnds(s.consumers[c].pc.end));
    if FailureUnseen(s) && !FailedConsumer(s.consumers[c])
       && !(s.producer.pc.ProducerEnded? && s.producer.pc.end.Failed? && !s.producer.reaped) {
      var d :| 0 <= d < |s.consumers| && FailedConsumer(s.consumers[d]);
      assert FailedConsumer(t.consumers[d]);
    }
  }

  lemma ReapConsumerInv(s: State, c: nat)
    requires Inv(s) && Reapable(s, c)
    ensures Inv(ReapConsumer(s, c))
  {
    ReapConsumerPlaces(s, c);
    PcCounts(s, c, s.consumers[c].(reaped := true));
    ReapConsumerLatch(s, c);
  }

  /** Places and books do not look at the group. */
  lemma GroupOnly(s: State, g: Group<Error<X>>)
    requires Places(s) && Books(s)
    ensures Places(s.(group := g)) && Books(s.(group := g))
  {
  }

  lemma ReapedMeansSeen(s: State)
    requires AllReaped(s)
    ensures !FailureUnseen(s)
  {
    forall c | 0 <= c < |s.consumers| ensures !FailedConsumer(s.consumers[c]) {
      assert ConsumerReaped(s.consumers[c]);
    }
  }

  lemma CallerLatch(s: State)
    requires LatchInv(s) && s.group.phase.Exiting? && (s.group.task.undelivered || AllReaped(s))
    ensures LatchInv(CallerResumes(s))
  {
    ApplyInv(s.group, ParentWakes);
    ApplyInv(Wake(s.group), GroupFinishes);
    if AllReaped(s) { ReapedMeansSeen(s); }
    UnseenKept(s, CallerResumes(s));
  }

  lemma CallerInv(s: State)
    requires Inv(s) && s.group.phase.Exiting? && (s.group.task.undelivered || AllReaped(s))
    ensures Inv(CallerResumes(s))
  {
    GroupOnly(s, CallerResumes(s).group);
    CallerLatch(s);
  }

  lemma EnvironmentLatch(s: State, e: Event<Error<X>>)
    requires LatchInv(s) && s.group.phase.Exiting? && IsOutside(e)
    ensures LatchInv(s.(group := Apply(s.group, e)))
  {
    ApplyInv(s.group, e);
    UnseenKept(s, s.(group := Apply(s.group, e)));
  }

  lemma EnvironmentInv(s: State, e: Event<Error<X>>)
    requires Inv(s) && s.group.phase.Exiting? && IsOutside(e)
    ensures Inv(s.(group := Apply(s.group, e)))
  {
    GroupOnly(s, Apply(s.group, e));
    EnvironmentLatch(s, e);
  }

  lemma CancelConsumerPlaces(s: State, c: nat)
    requires Places(s) && CanStray(s, Some(c))
    ensures Places(CancelChild(s, Some(c)))
  {
  }

  lemma CancelConsumerBooks(s: State, c: nat)
    requires Books(s) && CanStray(s, Some(c))
    ensures Books(CancelChild(s, Some(c))) && EndedCount(CancelChild(s, Some(c))) == EndedCount(s)
  {
    PcCounts(s, c, s.consumers[c].(stray := true));
  }

  lemma CancelConsumerInv(s: State, c: nat)
    requires Inv(s) && CanStray(s, Some(c))
    ensures Inv(CancelChild(s, Some(c)))
  {
    CancelConsumerPlaces(s, c);
    CancelConsumerBooks(s, c);
    UnseenKept(s, CancelChild(s, Some(c)));
  }

  lemma CancelChildInv(s: State, child: Option<nat>)
    requires Inv(s) && CanStray(s, child)
    ensures Inv(CancelChild(s, child))
  {
    match child
    case None => UnseenKept(s, CancelChild(s, child));
    case Some(c) => CancelConsumerInv(s, c);
  }

  lemma StartInv(s: State)
    requires Inv(s) && s.group.phase.Exiting? && s.producer.pc.NotStarted?
    ensures Inv(AskSource(s))
  {
    UnseenKept(s, AskSource(s));
  }

  predicate OfProducer(step: Step) {
    step.ProducerStarts? || step.Yield? || step.EndOfSource? || step.SourceThrows? || step.SourceThrowsCancelled?
    || step.RoomForItem? || step.RoomForSentinel? || step.CancelProducer?
  }

  lemma ProducerStepInv(s: State, step: Step)
    requires Inv(s) && Can(s, step) && OfProducer(step)
    ensures Inv(Next(s, step))
  {
    match step
    case ProducerStarts => StartInv(s);
    case Yield => YieldInv(s);
    case EndOfSource => EndOfSourceInv(s);
    case SourceThrows(x) => RaisesInv(s, Some(Thrown(x)));
    case SourceThrowsCancelled => RaisesInv(s, None);
    case RoomForItem => PutItemInv(s, s.producer.pc.pos);
    case RoomForSentinel => PutSentinelsInv(s);
    case CancelProducer => ProducerCancelledInv(s);
    case _ => assert false;
  }

  /** Every step keeps the invariant. */
  lemma StepInv(s: State, step: Step)
    requires Inv(s) && Can(s, step)
    ensures Inv(Next(s, step))
  {
    match step
    case Top(c) => LoopTopInv(s, c);
    case Get(c) => TakeInv(s, c);
    case Return(c, call) => ReturnInv(s, c, call);
    case CancelConsumer(c) => ConsumerCancelledInv(s, c);
    case ReapP => ReapProducerInv(s);
    case ReapC(c) => ReapConsumerInv(s, c);
    case Caller => CallerInv(s);
    case Environment(e) => EnvironmentInv(s, e);
    case StrayCancel(child) => CancelChildInv(s, child);
    case _ => ProducerStepInv(s, step);
  }

  /** Every reachable state satisfies it. */
  lemma {:induction false} ReachesInv(s: State, steps: seq<Step>, t: State)
    requires Inv(s) && Reaches(s, steps, t)
    ensures Inv(t)
    decreases |steps|
  {
    if steps == [] {
    } else {
      StepInv(s, steps[0]);
      ReachesInv(Next(s, steps[0]), steps[1..], t);
    }
  }
}
