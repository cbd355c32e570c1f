/**
 `stream`: one producer, lazily started consumers, a bounded FIFO queue.

 A state holds the variables that the coroutines share, the suspension point of every
 task, and the task group. A step takes one task from its suspension point to the next,
 so everything between two awaits happens in one step; the scheduler picks the steps.

 The group cancels each of its children once, when it aborts. A child's cancel is thus
 still due exactly when the group is aborting and the child has not been delivered it.
 */
module StreamModel {
  import opened Counting
  import opened Cancellation
  import opened Calls

  type V(==, !new)
  type X(==, !new)

  /** The parameters of the call, and how many items its source holds. */
  datatype Config = Config(concurrency: nat, queueSize: nat, collect: bool, seconds: Option<real>, items: nat)

  /** An item is known by its position in the source. */
  datatype Slot = Item(pos: nat) | Sentinel

  datatype ProducerPc =
    | NotStarted
    | Pulling                        // awaiting the source's next item
    | Putting(pos: nat)              // awaiting room for an item
    | PuttingSentinels(left: nat)    // awaiting room for a sentinel
    | ProducerEnded(end: ChildEnd<Error<X>>)

  datatype ConsumerPc =
    | AtTop                          // created and not run yet; otherwise passed through inside a step
    | Getting                        // awaiting `queue.get()`
    | Calling(pos: nat, index: nat)  // awaiting the user's function
    | ConsumerEnded(end: ChildEnd<Error<X>>)

  /**
   `delivered` says that the group's cancel has been thrown into the task, and `stray` that
   somebody else has requested a cancel of the task that is still due.
   */
  datatype Producer = Producer(pc: ProducerPc, delivered: bool, stray: bool, reaped: bool)

  /**
   The same for a consumer. `begun` counts the calls that it has begun.
   */
  datatype Consumer = Consumer(pc: ConsumerPc, delivered: bool, stray: bool, reaped: bool, begun: nat)

  datatype Metrics = Metrics(produced: nat, consumed: nat, pauses: nat, maxDepth: nat)

  /** Where an item is, from the moment it was pulled. */
  datatype Fate = InHand | Queued | InFlight(consumer: nat) | Done(outcome: Outcome<V, X>) | Discarded

  /** What no decision of the code reads. */
  datatype History = History(
    fates: seq<Fate>,   // by position
    finished: seq<nat>,       // positions, in the order of completion
    taken: nat,               // items got from the queue
    lost: nat,                // of these, dropped or failed
    sentinelsPut: nat,
    sentinelsTaken: nat,
    strays: nat,              // consumers that a stray cancel ended
    producerStrayed: bool,    // a stray cancel ended the producer, outside its `try`
    sourceCalls: nat)

  datatype State = State(
    cfg: Config,
    queue: seq<Slot>,
    started: nat,
    consumedIndex: nat,
    results: seq<Outcome<V, X>>,
    failed: bool,
    metrics: Metrics,
    producer: Producer,
    consumers: seq<Consumer>,
    group: Group<Error<X>>,
    history: History)
  {
    predicate Stopping() { failed || group.probe.Cancelled(group.task) }

    predicate Full() { |queue| >= cfg.queueSize }

    predicate ProducerDue() { (group.aborting && !producer.delivered) || producer.stray }

    predicate ConsumerDue(c: nat)
      requires c < |consumers|
    {
      (group.aborting && !consumers[c].delivered) || consumers[c].stray
    }

    function Pulled(): nat { |history.fates| }

    /** No child was ended by a stray cancel. */
    predicate Undisturbed() { history.strays == 0 && !history.producerStrayed }
  }

  function Init(cfg: Config, caller: Task): State {
    State(cfg, [], 0, 0, [], false, Metrics(0, 0, 0, 0),
          Producer(NotStarted, false, false, false), [],
          BodyDone(Enter(caller), BodyReturned),
          History([], [], 0, 0, 0, 0, 0, false, 0))
  }

  // ---------------------------------------------------------------------------------
  // The producer
  // ---------------------------------------------------------------------------------

  function AskSource(s: State): State {
    s.(producer := s.producer.(pc := Pulling),
       history := s.history.(sourceCalls := s.history.sourceCalls + 1))
  }

  function EndProducer(s: State, end: ChildEnd<Error<X>>): State {
    s.(producer := s.producer.(pc := ProducerEnded(end)))
  }

  function SetFate(s: State, pos: nat, fate: Fate): State
    requires pos < s.Pulled()
  {
    s.(history := s.history.(fates := s.history.fates[pos := fate]))
  }

  /** The producer's `except` clause; None stands for a CancelledError. */
  function ProducerRaises(s: State, caught: Option<Error<X>>): State {
    var end := match caught
               case Some(e) => Failed(e)
               case None => if s.Stopping() then CancelledEnd else Failed(ProducerStray);
    EndProducer(s.(failed := true), end)
  }

  function StartConsumer(s: State): State {
    s.(consumers := s.consumers + [Consumer(AtTop, false, false, false, 0)], started := s.started + 1)
  }

  /** `queue.put` with room, the counters after it, and the next call of the source. */
  function PutItem(s: State, pos: nat): State
    requires pos < s.Pulled()
  {
    var queue := s.queue + [Item(pos)];
    var m := s.metrics;
    var s1 := s.(queue := queue,
                 metrics := m.(produced := m.produced + 1,
                               maxDepth := if |queue| > m.maxDepth then |queue| else m.maxDepth));
    AskSource(SetFate(s1, pos, Queued))
  }

  /** After the checks: put the item, or count the pause and go on waiting for room. */
  function Offer(s: State, pos: nat): State
    requires pos < s.Pulled() && s.producer.pc == Putting(pos)
  {
    if s.Full()
    then s.(metrics := s.metrics.(pauses := s.metrics.pauses + 1))
    else PutItem(s, pos)
  }

  function ReceiveItem(s: State): State
    requires s.Pulled() < s.cfg.items
  {
    s.(producer := s.producer.(pc := Putting(s.Pulled()), delivered := s.producer.delivered || s.group.aborting),
       history := s.history.(fates := s.history.fates + [InHand]))
  }

  function SourceYields(s: State): State
    requires s.Pulled() < s.cfg.items
  {
    var pos := s.Pulled();
    var s1 := ReceiveItem(s);
    if s1.Stopping() then ProducerRaises(SetFate(s1, pos, Discarded), None)
    else if s1.started < s1.cfg.concurrency then
      if s1.group.aborting then ProducerRaises(SetFate(s1, pos, Discarded), Some(GroupShutDown))
      else Offer(StartConsumer(s1), pos)
    else Offer(s1, pos)
  }

  function PutSentinel(s: State): State
    requires s.producer.pc.PuttingSentinels? && s.producer.pc.left > 0
  {
    s.(queue := s.queue + [Sentinel],
       producer := s.producer.(pc := PuttingSentinels(s.producer.pc.left - 1)),
       history := s.history.(sentinelsPut := s.history.sentinelsPut + 1))
  }

  /** The sentinel loop, as far as the room in the queue lets it run. */
  function PutSentinels(s: State): State
    requires s.producer.pc.PuttingSentinels?
    decreases s.producer.pc.left
  {
    if s.producer.pc.left == 0 then EndProducer(s, Finished)
    else if s.Full() then s
    else PutSentinels(PutSentinel(s))
  }

  function SourceAnswered(s: State): State {
    s.(producer := s.producer.(delivered := s.producer.delivered || s.group.aborting))
  }

  function SourceEnds(s: State): State {
    var s1 := SourceAnswered(s);
    if s1.Stopping() then ProducerRaises(s1, None)
    else PutSentinels(s1.(producer := s1.producer.(pc := PuttingSentinels(s1.started))))
  }

  /** A cancel of the producer is thrown where it waits, outside the source. */
  function ProducerCancelled(s: State): State
    requires s.producer.pc.Putting? ==> s.producer.pc.pos < s.Pulled()
  {
    var me := s.producer;
    var byStray := me.stray && !(s.group.aborting && !me.delivered);
    var s1 := s.(producer := me.(delivered := me.delivered || s.group.aborting));
    match me.pc
    case Putting(pos) => ProducerRaises(SetFate(s1, pos, Discarded), None)
    case _ => EndProducer(s1.(history := s1.history.(producerStrayed := byStray)), CancelledEnd)
  }

  // ---------------------------------------------------------------------------------
  // A consumer
  // ---------------------------------------------------------------------------------

  function SetPc(s: State, c: nat, pc: ConsumerPc): State
    requires c < |s.consumers|
  {
    s.(consumers := s.consumers[c := s.consumers[c].(pc := pc)])
  }

  function TakeSentinel(s: State, c: nat): State
    requires c < |s.consumers| && s.queue != []
  {
    SetPc(s.(queue := s.queue[1..], history := s.history.(sentinelsTaken := s.history.sentinelsTaken + 1)),
          c, ConsumerEnded(Finished))
  }

  /** Once the batch has failed an item is dropped, and the consumer returns. */
  function DropItem(s: State, c: nat): State
    requires c < |s.consumers| && s.queue != [] && s.queue[0].Item? && s.queue[0].pos < s.Pulled()
  {
    var s1 := SetFate(s, s.queue[0].pos, Discarded);
    SetPc(s1.(queue := s.queue[1..],
              history := s1.history.(taken := s.history.taken + 1, lost := s.history.lost + 1)),
          c, ConsumerEnded(Finished))
  }

  /** Numbering the item and calling the user's function; the index lock is free. */
  function BeginCall(s: State, c: nat): State
    requires c < |s.consumers| && s.queue != [] && s.queue[0].Item? && s.queue[0].pos < s.Pulled()
  {
    var pos := s.queue[0].pos;
    var s1 := SetFate(s, pos, InFlight(c));
    var me := s.consumers[c];
    s1.(queue := s.queue[1..],
        consumedIndex := s.consumedIndex + 1,
        consumers := s.consumers[c := me.(pc := Calling(pos, s.consumedIndex), begun := me.begun + 1)],
        history := s1.history.(taken := s.history.taken + 1))
  }

  /** `queue.get()` on a queue that is not empty, up to the next await. */
  function Take(s: State, c: nat): State
    requires c < |s.consumers| && s.queue != []
    requires s.queue[0].Item? ==> s.queue[0].pos < s.Pulled()
  {
    if s.queue[0].Sentinel? then TakeSentinel(s, c)
    else if s.failed then DropItem(s, c)
    else BeginCall(s, c)
  }

  function LoopTop(s: State, c: nat): State
    requires c < |s.consumers|
    requires s.queue != [] && s.queue[0].Item? ==> s.queue[0].pos < s.Pulled()
  {
    if s.Stopping() then SetPc(s, c, ConsumerEnded(CancelledEnd))
    else if s.queue == [] then SetPc(s, c, Getting)
    else Take(s, c)
  }

  /** Appending a result; the results lock is free. */
  function Record(s: State, c: nat, outcome: Outcome<V, X>): State
    requires c < |s.consumers| && s.consumers[c].pc.Calling? && s.consumers[c].pc.pos < s.Pulled()
  {
    var pos := s.consumers[c].pc.pos;
    var s1 := SetFate(s, pos, Done(outcome));
    SetPc(s1.(results := s.results + [outcome],
              metrics := s.metrics.(consumed := s.metrics.consumed + 1),
              history := s1.history.(finished := s.history.finished + [pos])),
          c, AtTop)
  }

  /** The failure propagates: the latch is set before anything else can run. */
  function FailItem(s: State, c: nat, end: ChildEnd<Error<X>>): State
    requires c < |s.consumers| && s.consumers[c].pc.Calling? && s.consumers[c].pc.pos < s.Pulled()
  {
    var s1 := SetFate(s, s.consumers[c].pc.pos, Discarded);
    SetPc(s1.(failed := true, history := s1.history.(lost := s.history.lost + 1)), c, ConsumerEnded(end))
  }

  /** The call is over: any cancel that was due has reached the user's function by now. */
  function CallAnswered(s: State, c: nat): State
    requires c < |s.consumers|
  {
    var me := s.consumers[c];
    s.(consumers := s.consumers[c := me.(delivered := me.delivered || s.group.aborting)])
  }

  function CallReturns(s: State, c: nat, call: Call<V, X>): State
    requires c < |s.consumers| && s.consumers[c].pc.Calling? && s.consumers[c].pc.pos < s.Pulled()
    requires Possible(s.cfg.seconds, call)
    requires s.queue != [] && s.queue[0].Item? ==> s.queue[0].pos < s.Pulled()
  {
    var s1 := CallAnswered(s, c);
    match Settle(None, s.consumers[c].pc.index, s.cfg.seconds, s.Stopping(), call)
    case Value(v) => LoopTop(Record(s1, c, Ok(v)), c)
    case Failure(e) => if s.cfg.collect then LoopTop(Record(s1, c, Err(e)), c) else FailItem(s1, c, Failed(e))
    case Teardown => FailItem(s1, c, CancelledEnd)
  }

  /** A cancel is thrown where the consumer waits, outside the user's function. */
  function ConsumerCancelled(s: State, c: nat): State
    requires c < |s.consumers|
  {
    var me := s.consumers[c];
    var byStray := me.stray && !(s.group.aborting && !me.delivered);
    s.(consumers := s.consumers[c := me.(pc := ConsumerEnded(CancelledEnd),
                                         delivered := me.delivered || s.group.aborting)],
       history := s.history.(strays := s.history.strays + Bit(byStray)))
  }

  // ---------------------------------------------------------------------------------
  // The group
  // ---------------------------------------------------------------------------------

  predicate ConsumerReaped(c: Consumer) { c.reaped }

  predicate AllReaped(s: State) {
    s.producer.reaped && forall c :: 0 <= c < |s.consumers| ==> ConsumerReaped(s.consumers[c])
  }

  function ReapProducer(s: State): State
    requires s.producer.pc.ProducerEnded?
  {
    s.(producer := s.producer.(reaped := true), group := ChildDone(s.group, s.producer.pc.end))
  }

  function ReapConsumer(s: State, c: nat): State
    requires c < |s.consumers| && s.consumers[c].pc.ConsumerEnded?
  {
    var me := s.consumers[c];
    s.(consumers := s.consumers[c := me.(reaped := true)], group := ChildDone(s.group, me.pc.end))
  }

  /** The caller resumes in `__aexit__`: a cancel is delivered, and the last child ends the wait. */
  function CallerResumes(s: State): State {
    var g := Wake(s.group);
    s.(group := if AllReaped(s) then Finish(g) else g)
  }

  // ---------------------------------------------------------------------------------
  // Stray cancels
  // ---------------------------------------------------------------------------------

  /**
   Somebody other than the group cancels a child: the user's function by a timer it left
   behind, the source, or anyone who holds the task. A request made while the child is in
   user code is part of what that code does. It is thrown into that code, whose ending is
   arbitrary; if the code ends first, it is the same as a request made right afterwards.
   */
  predicate CanStray(s: State, child: Option<nat>) {
    match child
    case None => s.producer.pc.NotStarted? || s.producer.pc.Putting? || s.producer.pc.PuttingSentinels?
    case Some(c) => c < |s.consumers| && (s.consumers[c].pc.AtTop? || s.consumers[c].pc.Getting?)
  }

  function CancelChild(s: State, child: Option<nat>): State
    requires CanStray(s, child)
  {
    match child
    case None => s.(producer := s.producer.(stray := true))
    case Some(c) => s.(consumers := s.consumers[c := s.consumers[c].(stray := true)])
  }

  // ---------------------------------------------------------------------------------
  // Steps and runs
  // ---------------------------------------------------------------------------------

  datatype Step =
    | ProducerStarts
    | Yield
    | EndOfSource
    | SourceThrows(x: X)
    | SourceThrowsCancelled
    | RoomForItem
    | RoomForSentinel
    | CancelProducer
    | Top(c: nat)
    | Get(c: nat)
    | Return(c: nat, call: Call<V, X>)
    | CancelConsumer(c: nat)
    | ReapP
    | ReapC(c: nat)
    | Caller
    | Environment(event: Event<Error<X>>)
    | StrayCancel(child: Option<nat>)  // a consumer, or the producer

  predicate FrontKnown(s: State) {
    s.queue != [] && s.queue[0].Item? ==> s.queue[0].pos < s.Pulled()
  }

  predicate Can(s: State, step: Step) {
    && s.group.phase.Exiting?
    && FrontKnown(s)
    && match step
       case ProducerStarts => s.producer.pc.NotStarted? && !s.ProducerDue()
       case Yield => s.producer.pc.Pulling? && s.Pulled() < s.cfg.items
       // A source ends early only if the pipeline's cancel reached it.
       case EndOfSource => s.producer.pc.Pulling? && (s.Pulled() == s.cfg.items || s.group.aborting)
       case SourceThrows(_) => s.producer.pc.Pulling?
       case SourceThrowsCancelled => s.producer.pc.Pulling?
       case RoomForItem => s.producer.pc.Putting? && s.producer.pc.pos < s.Pulled() && !s.Full() && !s.ProducerDue()
       case RoomForSentinel => s.producer.pc.PuttingSentinels? && !s.Full() && !s.ProducerDue()
       case CancelProducer =>
         && s.ProducerDue()
         && (s.producer.pc.NotStarted? || s.producer.pc.PuttingSentinels?
             || (s.producer.pc.Putting? && s.producer.pc.pos < s.Pulled()))
       case Top(c) => c < |s.consumers| && s.consumers[c].pc.AtTop? && !s.ConsumerDue(c)
       case Get(c) => c < |s.consumers| && s.consumers[c].pc.Getting? && !s.ConsumerDue(c) && s.queue != []
       case Return(c, call) =>
         && c < |s.consumers| && s.consumers[c].pc.Calling? && s.consumers[c].pc.pos < s.Pulled()
         && Possible(s.cfg.seconds, call)
       case CancelConsumer(c) =>
         c < |s.consumers| && s.ConsumerDue(c) && (s.consumers[c].pc.AtTop? || s.consumers[c].pc.Getting?)
       case ReapP => s.producer.pc.ProducerEnded? && !s.producer.reaped
       case ReapC(c) => c < |s.consumers| && s.consumers[c].pc.ConsumerEnded? && !s.consumers[c].reaped
       case Caller => s.group.task.undelivered || AllReaped(s)
       case Environment(e) => IsOutside(e)
       case StrayCancel(child) => CanStray(s, child)
  }

  function Next(s: State, step: Step): State
    requires Can(s, step)
  {
    match step
    case ProducerStarts => AskSource(s)
    case Yield => SourceYields(s)
    case EndOfSource => SourceEnds(s)
    case SourceThrows(x) => ProducerRaises(SourceAnswered(s), Some(Thrown(x)))
    case SourceThrowsCancelled => ProducerRaises(SourceAnswered(s), None)
    case RoomForItem => PutItem(s, s.producer.pc.pos)
    case RoomForSentinel => PutSentinels(s)
    case CancelProducer => ProducerCancelled(s)
    case Top(c) => LoopTop(s, c)
    case Get(c) => Take(s, c)
    case Return(c, call) => CallReturns(s, c, call)
    case CancelConsumer(c) => ConsumerCancelled(s, c)
    case ReapP => ReapProducer(s)
    case ReapC(c) => ReapConsumer(s, c)
    case Caller => CallerResumes(s)
    case Environment(e) => s.(group := Apply(s.group, e))
    case StrayCancel(child) => CancelChild(s, child)
  }

  /** A step of one of the call's own tasks, as against what outsiders do. */
  predicate OfTask(step: Step) { !step.Environment? && !step.StrayCancel? }

  /** `t` is reached from `s` by the steps, each possible when it is taken. */
  ghost predicate Reaches(s: State, steps: seq<Step>, t: State)
    decreases |steps|
  {
    if steps == [] then s == t
    else Can(s, steps[0]) && Reaches(Next(s, steps[0]), steps[1..], t)
  }
}
