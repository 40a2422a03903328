/** `stream_async_iterator` over its `_StreamBridge`: an async producer on a worker loop hands
    items to a blocking generator through a queue of one. The generator closes the bridge in its
    `finally` and nowhere else: when it has stopped, when it is closed at a `yield`, by whatever
    thread, or when an exception such as a keyboard interrupt leaves `get`.

    A label is one indivisible action of one thread; the coroutine is split wherever the
    other threads can get in between, and loop callbacks run only while it is suspended. */
module StreamBridge {

  type Event = int

  datatype Item = Next(event: Event) | Failure | End

  /** What follows when `_enqueue_from_async` returns. */
  datatype Purpose = ForEvent | ForError | ForEnd(raising: bool)

  /** The statements of `_enqueue_from_async`. */
  datatype Point = CheckOpen | CheckSpace | Put | Clear | Recheck | Parked

  /** `_run` after an exception: first the exception, then the sentinel. */
  datatype Stage = OfferFailure | OfferEnd | Drained

  datatype Producer =
    | Unstarted
    | Creating
    | Pulling
    | Offering(item: Item, purpose: Purpose, point: Point)
    | ClosingSource(raising: bool)
    | Fallback(stage: Stage, trying: bool)
    | Finished

  /** The consumer waits in `get`, has an item but has not yet signalled, or holds it. */
  datatype Consumer = Getting | Popped | Posting(registered: bool) | Holding | Stopped

  datatype Closer = Idle | Flagged | Cancelling(registered: bool) | Closed(registered: bool)

  datatype State = State(
    queue: seq<Item>,
    closeRequested: bool,
    registered: bool,
    spaceSet: bool,
    wakeups: nat,
    cancels: nat,
    cancelled: bool,
    delivered: bool,
    producer: Producer,
    consumer: Consumer,
    closer: Closer,
    exhausted: bool,
    pulled: seq<Event>,
    taken: seq<Item>)

  const CAPACITY := 1

  const START := State([], false, false, false, 0, 0, false, false, Unstarted, Getting, Idle, false, [], [])

  /** The coroutine and, after it, the worker thread's fallback. */
  datatype WorkerAction =
    | Register | StartFails | SourceCreated | FactoryFails
    | SourceYields(event: Event) | SourceEnds | SourceRaises | SourceClosed | CloseRaises
    | Advance | Wake | Interrupted
    | WorkerCheck | WorkerTry

  /** Callbacks the loop runs while the coroutine is suspended. */
  datatype Callback = RunWakeup | RunCancel

  datatype ConsumerAction = Take | ReadSignal | PostSignal | Demand

  datatype CloserAction = RequestClose | ReadTask | PostCancel

  datatype Label =
    | OnWorker(work: WorkerAction)
    | OnLoop(callback: Callback)
    | OnConsumer(act: ConsumerAction)
    | OnCloser(close: CloserAction)

  predicate LoopOpen(p: Producer) {
    !p.Fallback? && !p.Finished?
  }

  predicate Suspended(p: Producer) {
    p.Pulling? || p.ClosingSource? || (p.Offering? && p.point.Parked?)
  }

  predicate Full(st: State) { |st.queue| >= CAPACITY }

  predicate Terminal(item: Item) { !item.Next? }

  predicate WorkerEnabled(st: State, w: WorkerAction) {
    match w
    case Register => st.producer.Unstarted?
    case StartFails => st.producer.Unstarted?
    case SourceCreated => st.producer.Creating?
    case FactoryFails => st.producer.Creating?
    case SourceYields(_) => st.producer.Pulling?
    case SourceEnds => st.producer.Pulling?
    case SourceRaises => st.producer.Pulling?
    case SourceClosed => st.producer.ClosingSource?
    case CloseRaises => st.producer.ClosingSource?
    case Advance => st.producer.Offering? && !st.producer.point.Parked?
    case Wake => st.producer.Offering? && st.producer.point.Parked? && st.spaceSet
    case Interrupted => st.cancelled && Suspended(st.producer)
    case WorkerCheck => st.producer.Fallback? && !st.producer.trying
    case WorkerTry => st.producer.Fallback? && st.producer.trying && !st.producer.stage.Drained?
  }

  predicate Enabled(st: State, l: Label) {
    match l
    case OnWorker(w) => WorkerEnabled(st, w)
    case OnLoop(RunWakeup) => Suspended(st.producer) && st.wakeups > 0
    case OnLoop(RunCancel) => Suspended(st.producer) && st.cancels > 0
    case OnConsumer(Take) => st.consumer.Getting? && st.queue != []
    case OnConsumer(ReadSignal) => st.consumer.Popped?
    case OnConsumer(PostSignal) => st.consumer.Posting?
    case OnConsumer(Demand) => st.consumer.Holding?
    case OnCloser(RequestClose) => st.closer.Idle?
    case OnCloser(ReadTask) => st.closer.Flagged?
    case OnCloser(PostCancel) => st.closer.Cancelling?
  }

  /** `_enqueue_from_async` returned: `accepted` is its result. */
  function Returned(purpose: Purpose, accepted: bool): Producer {
    match purpose
    case ForEvent => if accepted then Pulling else ClosingSource(false)
    case ForError => ClosingSource(false)
    case ForEnd(raising) => if raising then Fallback(OfferFailure, false) else Finished
  }

  /** `CancelledError` leaves the await the coroutine was suspended in. */
  function Cancelled(p: Producer): Producer
    requires Suspended(p)
  {
    match p
    case Pulling => Offering(Failure, ForError, CheckOpen)
    case ClosingSource(_) => Offering(End, ForEnd(true), CheckOpen)
    case Offering(_, purpose, _) =>
      match purpose
      case ForEvent => Offering(Failure, ForError, CheckOpen)
      case ForError => ClosingSource(true)
      case ForEnd(_) => Fallback(OfferFailure, false)
  }

  function Offered(stage: Stage): Item {
    if stage.OfferFailure? then Failure else End
  }

  function Later(stage: Stage): Stage {
    if stage.OfferFailure? then OfferEnd else Drained
  }

  /** One statement of `_enqueue_from_async`. */
  function AdvanceStep(st: State): State
    requires st.producer.Offering? && !st.producer.point.Parked?
  {
    var p := st.producer;
    st.(queue := if p.point.Put? then st.queue + [p.item] else st.queue,
        spaceSet := st.spaceSet && !p.point.Clear?,
        producer := Advanced(p, st.closeRequested, Full(st)))
  }

  function Advanced(p: Producer, closeRequested: bool, full: bool): Producer
    requires p.Offering? && !p.point.Parked?
  {
    match p.point
    case CheckOpen => if closeRequested then Returned(p.purpose, false) else p.(point := CheckSpace)
    case CheckSpace => p.(point := if full then Clear else Put)
    case Put => Returned(p.purpose, true)
    case Clear => p.(point := Recheck)
    case Recheck => p.(point := if full then Parked else CheckOpen)
  }

  /** `_enqueue_from_worker`: give up once closed, else try a put that times out. */
  function FallbackCheck(st: State): State
    requires WorkerEnabled(st, WorkerCheck)
  {
    var stage := st.producer.stage;
    if stage.Drained? then st.(producer := Finished)
    else if st.closeRequested then st.(producer := Fallback(Later(stage), false))
    else st.(producer := Fallback(stage, true))
  }

  function FallbackTry(st: State): State
    requires WorkerEnabled(st, WorkerTry)
  {
    var stage := st.producer.stage;
    if Full(st) then st.(producer := Fallback(stage, false))
    else st.(queue := st.queue + [Offered(stage)], producer := Fallback(Later(stage), false))
  }

  /** What the source did when it was awaited; an await it survives has consumed the cancellation. */
  function SourceStep(st: State, w: WorkerAction): State
    requires WorkerEnabled(st, w) && (st.producer.Pulling? || st.producer.ClosingSource?)
  {
    var heard := st.(cancelled := false);
    match w
    case SourceYields(event) => heard.(pulled := st.pulled + [event],
      producer := Offering(Next(event), ForEvent, CheckOpen))
    case SourceEnds => heard.(exhausted := true, producer := ClosingSource(false))
    case SourceRaises => heard.(producer := Offering(Failure, ForError, CheckOpen))
    case SourceClosed => heard.(producer := Offering(End, ForEnd(st.producer.raising), CheckOpen))
    case CloseRaises => heard.(producer := Offering(End, ForEnd(true), CheckOpen))
    case Interrupted => heard.(producer := Cancelled(st.producer))
  }

  function WorkerStep(st: State, w: WorkerAction): State
    requires WorkerEnabled(st, w)
  {
    if st.producer.Pulling? || st.producer.ClosingSource? then SourceStep(st, w)
    else match w
      case Register => st.(registered := true, producer := if st.closeRequested then Finished else Creating)
      case SourceCreated => st.(producer := Pulling)
      case StartFails => st.(producer := Fallback(OfferFailure, false))
      case FactoryFails => st.(producer := Fallback(OfferFailure, false))
      case Advance => AdvanceStep(st)
      case Wake => st.(producer := st.producer.(point := CheckOpen))
      case Interrupted => st.(cancelled := false, producer := Cancelled(st.producer))
      case WorkerCheck => FallbackCheck(st)
      case WorkerTry => FallbackTry(st)
  }

  function LoopStep(st: State, c: Callback): State
    requires Enabled(st, OnLoop(c))
  {
    match c
    case RunWakeup => st.(wakeups := st.wakeups - 1, spaceSet := true)
    case RunCancel => st.(cancels := st.cancels - 1, cancelled := true, delivered := true)
  }

  function ConsumerStep(st: State, a: ConsumerAction): State
    requires Enabled(st, OnConsumer(a))
  {
    match a
    case Take => st.(queue := st.queue[1..], taken := st.taken + [st.queue[0]], consumer := Popped)
    case ReadSignal => st.(consumer := Posting(st.registered))
    case PostSignal =>
      var stops := st.taken != [] && Terminal(st.taken[|st.taken| - 1]);
      st.(wakeups := if st.consumer.registered && LoopOpen(st.producer) then st.wakeups + 1 else st.wakeups,
          consumer := if stops then Stopped else Holding)
    case Demand => st.(consumer := Getting)
  }

  /** `close` begins where the generator's frame ends: no consumer action follows it. */
  function CloserStep(st: State, c: CloserAction): State
    requires Enabled(st, OnCloser(c))
  {
    match c
    case RequestClose => st.(closeRequested := true, consumer := Stopped, closer := Flagged)
    case ReadTask => st.(closer := Cancelling(st.registered))
    case PostCancel =>
      st.(cancels := if st.closer.registered && LoopOpen(st.producer) then st.cancels + 1 else st.cancels,
          closer := Closed(st.closer.registered))
  }

  function Step(st: State, l: Label): State
    requires Enabled(st, l)
  {
    match l
    case OnWorker(w) => WorkerStep(st, w)
    case OnLoop(c) => LoopStep(st, c)
    case OnConsumer(a) => ConsumerStep(st, a)
    case OnCloser(c) => CloserStep(st, c)
  }

  ghost predicate IsRun(st: State, ls: seq<Label>)
    decreases |ls|
  {
    ls == [] || (Enabled(st, ls[0]) && IsRun(Step(st, ls[0]), ls[1..]))
  }

  ghost function After(st: State, ls: seq<Label>): State
    requires IsRun(st, ls)
    decreases |ls|
  {
    if ls == [] then st else After(Step(st, ls[0]), ls[1..])
  }

  ghost predicate Reachable(st: State) {
    exists ls :: IsRun(START, ls) && After(START, ls) == st
  }

  // ---------------------------------------------------------------- what every step keeps

  function Events(items: seq<Item>): seq<Event> {
    if items == [] then []
    else if items[|items| - 1].Next? then Events(items[..|items| - 1]) + [items[|items| - 1].event]
    else Events(items[..|items| - 1])
  }

  /** Everything handed over so far, in order. */
  function Handed(st: State): seq<Item> { st.taken + st.queue }

  function Hand(p: Producer): seq<Event> {
    if p.Offering? && p.item.Next? then [p.item.event] else []
  }

  /** The coroutine may still pull or offer an event. */
  predicate Early(p: Producer) {
    p.Unstarted? || p.Creating? || p.Pulling? || (p.Offering? && p.purpose.ForEvent?)
  }

  predicate WellTyped(p: Producer) {
    p.Offering? ==> (p.purpose.ForEvent? <==> p.item.Next?) && (p.purpose.ForError? <==> p.item.Failure?)
  }

  /** Only the coroutine puts while it runs, so what it saw free stays free. */
  predicate Bounded(st: State) {
    && |st.queue| <= CAPACITY
    && (st.producer.Offering? && st.producer.point.Put? ==> !Full(st))
  }

  /** Nothing handed over before the signal exists, except by the worker fallback. */
  predicate Signalled(st: State) {
    && (st.registered || st.producer.Unstarted? || st.producer.Fallback? || st.producer.Finished?)
    && (st.producer.Unstarted? ==> !st.registered && st.taken == [] && st.queue == [])
    && (!st.registered && LoopOpen(st.producer) ==> st.consumer.Getting? || st.closeRequested)
    && (st.consumer.Posting? && !st.consumer.registered ==> !LoopOpen(st.producer))
  }

  /** A parked coroutine has been, is being, or will be woken unless the queue is full. */
  predicate NoLostWakeup(st: State) {
    st.producer.Offering? && st.producer.point.Parked? ==>
      Full(st) || st.spaceSet || st.wakeups > 0 || st.consumer.Popped? || st.consumer.Posting? || st.closeRequested
  }

  /** Past its `finally` the generator takes nothing more, and a cancellation that reached the
      coroutine either still waits where it is parked or sends it to a closed bridge's check. */
  predicate ClosesLast(st: State) {
    && (st.closeRequested ==> st.consumer.Stopped?)
    && (st.delivered && st.producer.Offering? ==>
          st.producer.point.CheckOpen? || (st.producer.point.Parked? && st.cancelled))
  }

  /** A cancellation exists only after a close, and a finished close has left its mark. */
  predicate CloseSeen(st: State) {
    && (st.cancels > 0 || st.cancelled || st.delivered ==> st.closeRequested)
    && (st.closer.Idle? <==> !st.closeRequested)
    && ((st.closer.Cancelling? || st.closer.Closed?) && !st.closer.registered ==>
          st.producer.Unstarted? || st.producer.Finished? || st.producer.Fallback?)
    && (st.closer.Closed? && st.closer.registered ==> st.cancels > 0 || st.delivered || !LoopOpen(st.producer))
  }

  predicate AllNext(items: seq<Item>) {
    forall i :: 0 <= i < |items| ==> items[i].Next?
  }

  /** The first item that ends the stream is a plain end. */
  predicate EndsPlainly(items: seq<Item>) {
    exists i :: 0 <= i < |items| && items[i].End? && AllNext(items[..i])
  }

  /** Past the open check the item is really going to be put. */
  predicate Committed(p: Producer) {
    p.Offering? && !p.point.CheckOpen?
  }

  /** Every pulled event is handed over or in hand; only a close can drop the one in hand. */
  predicate Conserved(handed: seq<Item>, p: Producer, pulled: seq<Event>, closed: bool) {
    || Events(handed) + Hand(p) == pulled
    || (closed && !Early(p) && !Committed(p) && Events(handed) <= pulled)
  }

  /** A plain end is only ever reached after the whole source was handed over. */
  predicate Ending(handed: seq<Item>, p: Producer, pulled: seq<Event>, closed: bool, exhausted: bool) {
    && (Early(p) || (p.Offering? && p.purpose.ForError?) ==> AllNext(handed))
    && (p.ClosingSource? || (p.Offering? && p.purpose.ForEnd?) ==>
          exhausted || Failure in handed || (closed && !Committed(p)))
    && (p.Fallback? && p.stage.OfferEnd? ==> Failure in handed || (closed && !p.trying))
    && (p.Finished? || (p.Fallback? && p.stage.Drained?) ==> closed || !AllNext(handed))
    && (forall i, j :: 0 <= i < j < |handed| && Terminal(handed[i]) ==> Terminal(handed[j]))
    && (EndsPlainly(handed) ==> exhausted && Events(handed) == pulled && !Early(p))
  }

  predicate InOrder(handed: seq<Item>, p: Producer, pulled: seq<Event>, closed: bool, exhausted: bool) {
    Conserved(handed, p, pulled, closed) && Ending(handed, p, pulled, closed, exhausted)
  }

  predicate Ordered(st: State) {
    InOrder(Handed(st), st.producer, st.pulled, st.closeRequested, st.exhausted)
  }

  /** The consumer stops at the first item that ends the stream. */
  predicate StopsInTime(taken: seq<Item>, consumer: Consumer) {
    match consumer
    case Getting => AllNext(taken)
    case Holding => AllNext(taken)
    case Stopped => true
    case _ => taken != [] && AllNext(taken[..|taken| - 1])
  }

  predicate Wired(st: State) {
    StopsInTime(st.taken, st.consumer) && WellTyped(st.producer) && Bounded(st) && Signalled(st) && NoLostWakeup(st) &&
      CloseSeen(st) && ClosesLast(st)
  }

  predicate Inv(st: State) {
    Wired(st) && Ordered(st)
  }

  lemma EventsAppend(items: seq<Item>, item: Item)
    ensures Events(items + [item]) == if item.Next? then Events(items) + [item.event] else Events(items)
  {
    assert (items + [item])[..|items|] == items;
  }

  lemma AdvanceKeepsShape(st: State)
    requires Wired(st) && WorkerEnabled(st, Advance)
    ensures WellTyped(AdvanceStep(st).producer)
  {
    match st.producer.point
    case CheckOpen =>
    case CheckSpace =>
    case Put =>
    case Clear =>
    case Recheck =>
  }

  lemma AdvanceKeepsSignals(st: State)
    requires Wired(st) && WorkerEnabled(st, Advance)
    ensures Bounded(AdvanceStep(st)) && Signalled(AdvanceStep(st))
  {
  }

  /** Clearing the signal before looking again is what keeps a wake-up from being lost. */
  lemma AdvanceKeepsWakeup(st: State)
    requires Wired(st) && WorkerEnabled(st, Advance)
    ensures NoLostWakeup(AdvanceStep(st)) && CloseSeen(AdvanceStep(st)) && ClosesLast(AdvanceStep(st))
  {
  }

  lemma AdvanceKeepsWired(st: State)
    requires Wired(st) && WorkerEnabled(st, Advance)
    ensures Wired(AdvanceStep(st))
  {
    AdvanceKeepsShape(st);
    AdvanceKeepsSignals(st);
    AdvanceKeepsWakeup(st);
    hide WellTyped, Bounded, Signalled, NoLostWakeup, CloseSeen, ClosesLast;
  }

  lemma SourceKeepsWired(st: State, w: WorkerAction)
    requires Wired(st) && WorkerEnabled(st, w) && (st.producer.Pulling? || st.producer.ClosingSource?)
    ensures Wired(SourceStep(st, w))
  {
  }

  lemma TryKeepsWired(st: State)
    requires Wired(st) && WorkerEnabled(st, WorkerTry)
    ensures Wired(FallbackTry(st))
  {
  }

  lemma CheckKeepsWired(st: State)
    requires Wired(st) && WorkerEnabled(st, WorkerCheck)
    ensures Wired(FallbackCheck(st))
  {
  }

  lemma FallbackKeepsWired(st: State, w: WorkerAction)
    requires Wired(st) && WorkerEnabled(st, w) && (w.WorkerTry? || w.WorkerCheck?)
    ensures Wired(WorkerStep(st, w))
  {
    hide Wired, FallbackTry, FallbackCheck;
    match w
    case WorkerTry => TryKeepsWired(st);
    case WorkerCheck => CheckKeepsWired(st);
  }

  lemma WorkerKeepsWired(st: State, w: WorkerAction)
    requires Wired(st) && WorkerEnabled(st, w)
    ensures Wired(WorkerStep(st, w))
  {
    if st.producer.Pulling? || st.producer.ClosingSource? {
      SourceKeepsWired(st, w);
    } else if w.Advance? {
      AdvanceKeepsWired(st);
    } else if w.WorkerTry? || w.WorkerCheck? {
      FallbackKeepsWired(st, w);
    }
  }

  lemma LoopKeepsWired(st: State, c: Callback)
    requires Wired(st) && Enabled(st, OnLoop(c))
    ensures Wired(LoopStep(st, c))
  {
  }

  lemma ConsumerKeepsWired(st: State, a: ConsumerAction)
    requires Wired(st) && Enabled(st, OnConsumer(a))
    ensures Wired(ConsumerStep(st, a))
  {
  }

  lemma CloserKeepsWired(st: State, c: CloserAction)
    requires Wired(st) && Enabled(st, OnCloser(c))
    ensures Wired(CloserStep(st, c))
  {
  }

  lemma EndsAppend(items: seq<Item>, item: Item)
    ensures EndsPlainly(items + [item]) <==> EndsPlainly(items) || (item.End? && AllNext(items))
  {
    var longer := items + [item];
    assert longer[..|items|] == items;
    if EndsPlainly(items) {
      var i :| 0 <= i < |items| && items[i].End? && AllNext(items[..i]);
      assert longer[..i] == items[..i];
    }
    if EndsPlainly(longer) {
      var i :| 0 <= i < |longer| && longer[i].End? && AllNext(longer[..i]);
      if i < |items| { assert longer[..i] == items[..i]; }
    }
  }

  lemma PutKeepsOrder(handed: seq<Item>, p: Producer, pulled: seq<Event>, closed: bool, exhausted: bool)
    requires InOrder(handed, p, pulled, closed, exhausted) && WellTyped(p) && Committed(p)
    ensures InOrder(handed + [p.item], Returned(p.purpose, true), pulled, closed, exhausted)
  {
    EventsAppend(handed, p.item);
    EndsAppend(handed, p.item);
    assert Events(handed) + Hand(p) == pulled;
    match p.purpose
    case ForEvent =>
    case ForError => assert Failure in handed + [p.item];
    case ForEnd(raising) =>
      if AllNext(handed) { assert Failure !in handed; }
  }

  lemma AdvanceHands(st: State)
    requires WorkerEnabled(st, Advance)
    ensures Handed(AdvanceStep(st)) == if st.producer.point.Put? then Handed(st) + [st.producer.item] else Handed(st)
  {
    match st.producer.point
    case CheckOpen =>
    case CheckSpace =>
    case Put => assert st.taken + (st.queue + [st.producer.item]) == (st.taken + st.queue) + [st.producer.item];
    case Clear =>
    case Recheck =>
  }

  lemma AdvanceLeaves(st: State)
    requires WorkerEnabled(st, Advance)
    ensures var st1 := AdvanceStep(st);
      st1.pulled == st.pulled && st1.closeRequested == st.closeRequested && st1.exhausted == st.exhausted
  {
    hide Full, Advanced;
  }

  lemma AdvanceEffect(st: State)
    requires WorkerEnabled(st, Advance)
    ensures var st1, p := AdvanceStep(st), st.producer;
      (if p.point.Put? then st1.producer == Returned(p.purpose, true)
          else
            || (st1.producer == Returned(p.purpose, false) && st.closeRequested && p.point.CheckOpen?)
            || (st1.producer == p.(point := CheckSpace) && !st.closeRequested && p.point.CheckOpen?)
            || (st1.producer.Offering? && st1.producer.item == p.item && st1.producer.purpose == p.purpose &&
                 Committed(p)))
  {
    match st.producer.point
    case CheckOpen =>
    case CheckSpace =>
    case Put =>
    case Clear =>
    case Recheck =>
  }

  lemma AdvanceKeepsOrder(st: State)
    requires Ordered(st) && WellTyped(st.producer) && WorkerEnabled(st, Advance)
    ensures Ordered(AdvanceStep(st))
  {
    AdvanceEffect(st);
    AdvanceLeaves(st);
    AdvanceHands(st);
    if st.producer.point.Put? {
      PutKeepsOrder(Handed(st), st.producer, st.pulled, st.closeRequested, st.exhausted);
    } else {
      MoveKeepsOrder(Handed(st), st.producer, AdvanceStep(st).producer, st.pulled, st.closeRequested, st.exhausted);
    }
  }

  lemma MoveKeepsOrder(handed: seq<Item>, p: Producer, p1: Producer, pulled: seq<Event>, closed: bool, exhausted: bool)
    requires InOrder(handed, p, pulled, closed, exhausted) && WellTyped(p) && p.Offering?
    requires
      || (p1 == Returned(p.purpose, false) && closed && p.point.CheckOpen?)
      || (p1 == p.(point := CheckSpace) && !closed && p.point.CheckOpen?)
      || (p1.Offering? && p1.item == p.item && p1.purpose == p.purpose && Committed(p))
    ensures InOrder(handed, p1, pulled, closed, exhausted)
  {
  }

  lemma FallbackPutKeepsOrder(handed: seq<Item>, stage: Stage, pulled: seq<Event>, closed: bool, exhausted: bool)
    requires InOrder(handed, Fallback(stage, true), pulled, closed, exhausted) && !stage.Drained?
    ensures InOrder(handed + [Offered(stage)], Fallback(Later(stage), false), pulled, closed, exhausted)
    ensures InOrder(handed, Fallback(stage, false), pulled, closed, exhausted)
  {
    EventsAppend(handed, Offered(stage));
    EndsAppend(handed, Offered(stage));
    if stage.OfferFailure? {
      assert Failure in handed + [Offered(stage)];
    }
  }

  lemma FallbackKeepsOrder(st: State)
    requires Ordered(st) && WorkerEnabled(st, WorkerTry)
    ensures Ordered(FallbackTry(st))
  {
    FallbackPutKeepsOrder(Handed(st), st.producer.stage, st.pulled, st.closeRequested, st.exhausted);
    assert Handed(FallbackTry(st)) == if Full(st) then Handed(st) else Handed(st) + [Offered(st.producer.stage)];
  }

  lemma SourceEffect(st: State, w: WorkerAction)
    requires WorkerEnabled(st, w) && (st.producer.Pulling? || st.producer.ClosingSource?)
    ensures var st1 := SourceStep(st, w);
      && st1.taken == st.taken && st1.queue == st.queue && st1.closeRequested == st.closeRequested
      && SourceMove(st.producer, st1.producer, st.pulled, st1.pulled, st.exhausted, st1.exhausted)
  {
    match w
    case SourceYields(_) =>
    case SourceEnds =>
    case SourceRaises =>
    case SourceClosed =>
    case CloseRaises =>
    case Interrupted =>
    case _ =>
  }

  /** What an awaited source can lead to. */
  ghost predicate SourceMove(p: Producer, p1: Producer, pulled: seq<Event>, pulled1: seq<Event>, exhausted: bool,
                             exhausted1: bool) {
    || (p.Pulling? && exhausted1 == exhausted && p1.Offering? && p1.item.Next?
        && pulled1 == pulled + [p1.item.event] && p1 == Offering(p1.item, ForEvent, CheckOpen))
    || (p.Pulling? && pulled1 == pulled && exhausted1 && p1 == ClosingSource(false))
    || (p.Pulling? && pulled1 == pulled && exhausted1 == exhausted && p1 == Offering(Failure, ForError, CheckOpen))
    || (p.ClosingSource? && pulled1 == pulled && exhausted1 == exhausted && p1.Offering?
        && p1 == Offering(End, p1.purpose, CheckOpen) && p1.purpose.ForEnd?)
  }

  lemma SourceMoveKeepsOrder(handed: seq<Item>, p: Producer, p1: Producer, pulled: seq<Event>, pulled1: seq<Event>,
                             closed: bool, exhausted: bool, exhausted1: bool)
    requires InOrder(handed, p, pulled, closed, exhausted)
    requires SourceMove(p, p1, pulled, pulled1, exhausted, exhausted1)
    ensures InOrder(handed, p1, pulled1, closed, exhausted1)
  {
    assert Events(handed) + [] == Events(handed);
  }

  lemma SourceKeepsOrder(st: State, w: WorkerAction)
    requires Ordered(st) && WorkerEnabled(st, w) && (st.producer.Pulling? || st.producer.ClosingSource?)
    ensures Ordered(SourceStep(st, w))
  {
    var st1 := SourceStep(st, w);
    SourceEffect(st, w);
    SourceMoveKeepsOrder(Handed(st), st.producer, st1.producer, st.pulled, st1.pulled, st.closeRequested, st.exhausted,
      st1.exhausted);
  }

  lemma WorkerKeepsOrder(st: State, w: WorkerAction)
    requires Inv(st) && WorkerEnabled(st, w)
    ensures Ordered(WorkerStep(st, w))
  {
    if st.producer.Pulling? || st.producer.ClosingSource? {
      SourceKeepsOrder(st, w);
    } else if w.Advance? {
      AdvanceKeepsOrder(st);
    } else if w.WorkerTry? {
      FallbackKeepsOrder(st);
    } else {
      RestKeepsOrder(st, w);
    }
  }

  predicate Starts(p: Producer, closed: bool) {
    p.Creating? || p.Pulling? || (p.Finished? && closed) || p == Fallback(OfferFailure, false)
  }

  /** Starting, waking, being cancelled and leaving hand nothing over. */
  lemma RestEffect(st: State, w: WorkerAction)
    requires WorkerEnabled(st, w) && !st.producer.Pulling? && !st.producer.ClosingSource? && !w.Advance?
    requires !w.WorkerTry?
    ensures var st1 := WorkerStep(st, w);
      && Handed(st1) == Handed(st)
      && st1.pulled == st.pulled && st1.closeRequested == st.closeRequested && st1.exhausted == st.exhausted
      && (st.producer.Unstarted? || st.producer.Creating? ==> Starts(st1.producer, st.closeRequested))
      && (w.Wake? ==> st1.producer == st.producer.(point := CheckOpen))
      && (w.Interrupted? ==> st1.producer == Cancelled(st.producer) && st.cancelled)
      && (st.producer.Fallback? ==>
            || (st.producer.stage.Drained? && st1.producer.Finished?)
            || (st.closeRequested && !st.producer.stage.Drained? &&
                 st1.producer == Fallback(Later(st.producer.stage), false))
            || (!st.closeRequested && !st.producer.stage.Drained? && st1.producer == Fallback(st.producer.stage, true)))
  {
  }

  lemma RestKeepsOrder(st: State, w: WorkerAction)
    requires Ordered(st) && WellTyped(st.producer) && Signalled(st) && (st.cancelled ==> st.closeRequested)
    requires WorkerEnabled(st, w) && !st.producer.Pulling? && !st.producer.ClosingSource? && !w.Advance?
    requires !w.WorkerTry?
    ensures Ordered(WorkerStep(st, w))
  {
    RestEffect(st, w);
    RestMoveKeepsOrder(Handed(st), st.producer, WorkerStep(st, w).producer, st.pulled, st.closeRequested, st.exhausted);
  }

  lemma RestMoveKeepsOrder(handed: seq<Item>, p: Producer, p1: Producer, pulled: seq<Event>, closed: bool,
                           exhausted: bool)
    requires InOrder(handed, p, pulled, closed, exhausted) && WellTyped(p)
    requires
      || ((p.Unstarted? || p.Creating?) && Starts(p1, closed))
      || (p.Offering? && p1 == p.(point := CheckOpen))
      || (p.Offering? && p.point.Parked? && p1 == Cancelled(p) && closed)
      || (p.Fallback? && p.stage.Drained? && p1.Finished?)
      || (p.Fallback? && closed && p1 == Fallback(Later(p.stage), false))
      || (p.Fallback? && !closed && !p.stage.Drained? && p1 == Fallback(p.stage, true))
    ensures InOrder(handed, p1, pulled, closed, exhausted)
  {
    assert Events(handed) + [] == Events(handed);
  }

  lemma ClosingKeepsOrder(handed: seq<Item>, p: Producer, pulled: seq<Event>, exhausted: bool)
    requires InOrder(handed, p, pulled, false, exhausted)
    ensures InOrder(handed, p, pulled, true, exhausted)
  {
  }

  /** The other threads only take from the queue, signal, or close. */
  ghost predicate LeavesOrder(st: State, st1: State) {
    && Handed(st1) == Handed(st)
    && st1.producer == st.producer && st1.pulled == st.pulled && st1.exhausted == st.exhausted
    && (st.closeRequested ==> st1.closeRequested)
  }

  lemma LoopEffect(st: State, c: Callback)
    requires Enabled(st, OnLoop(c))
    ensures LeavesOrder(st, LoopStep(st, c))
  {
  }

  lemma ConsumerEffect(st: State, a: ConsumerAction)
    requires Enabled(st, OnConsumer(a))
    ensures LeavesOrder(st, ConsumerStep(st, a))
  {
    if a.Take? {
      assert st.taken + st.queue == (st.taken + [st.queue[0]]) + st.queue[1..];
    }
  }

  lemma CloserEffect(st: State, c: CloserAction)
    requires Enabled(st, OnCloser(c))
    ensures LeavesOrder(st, CloserStep(st, c))
  {
  }

  lemma OthersKeepOrder(st: State, st1: State)
    requires Ordered(st) && LeavesOrder(st, st1)
    ensures Ordered(st1)
  {
    if !st.closeRequested {
      ClosingKeepsOrder(Handed(st), st.producer, st.pulled, st.exhausted);
    }
  }

  lemma StepKeepsInv(st: State, l: Label)
    requires Inv(st) && Enabled(st, l)
    ensures Inv(Step(st, l))
  {
    match l
    case OnWorker(w) =>
      WorkerKeepsWired(st, w);
      WorkerKeepsOrder(st, w);
    case OnLoop(c) =>
      LoopKeepsWired(st, c);
      LoopEffect(st, c);
      OthersKeepOrder(st, LoopStep(st, c));
    case OnConsumer(a) =>
      ConsumerKeepsWired(st, a);
      ConsumerEffect(st, a);
      OthersKeepOrder(st, ConsumerStep(st, a));
    case OnCloser(c) =>
      CloserKeepsWired(st, c);
      CloserEffect(st, c);
      OthersKeepOrder(st, CloserStep(st, c));
  }

  lemma {:induction false} RunKeepsInv(st: State, ls: seq<Label>)
    requires Inv(st) && IsRun(st, ls)
    ensures Inv(After(st, ls))
    decreases |ls|
  {
    if ls != [] {
      StepKeepsInv(st, ls[0]);
      RunKeepsInv(Step(st, ls[0]), ls[1..]);
    }
  }

  lemma ReachableInv(st: State)
    requires Reachable(st)
    ensures Inv(st)
  {
    var ls :| IsRun(START, ls) && After(START, ls) == st;
    RunKeepsInv(START, ls);
  }

  // ---------------------------------------------------------------- the promises

  lemma {:induction false} EventsOfPrefix(items: seq<Item>, more: seq<Item>)
    ensures Events(items) <= Events(items + more)
    decreases |more|
  {
    if more == [] {
      assert items + more == items;
    } else {
      var last := |more| - 1;
      EventsOfPrefix(items, more[..last]);
      assert items + more == (items + more[..last]) + [more[last]];
      EventsAppend(items + more[..last], more[last]);
    }
  }

  /** Safety: the events the consumer has taken are always a prefix of what the source yielded,
      in order, and the queue never holds more than one item. */
  lemma TakenIsPrefixOfSource(st: State)
    requires Reachable(st)
    ensures Events(st.taken) <= st.pulled && |st.queue| <= 1
  {
    ReachableInv(st);
    EventsOfPrefix(st.taken, st.queue);
    assert Events(Handed(st)) <= st.pulled by {
      assert Events(Handed(st)) <= Events(Handed(st)) + Hand(st.producer);
    }
  }

  /** Nothing is lost: a consumer that reaches a plain end has received every event of a source
      that ran to its end. */
  lemma PlainEndIsComplete(st: State)
    requires Reachable(st) && EndsPlainly(st.taken)
    ensures st.exhausted && Events(st.taken) == st.pulled
  {
    ReachableInv(st);
    EndCarries(st.taken, st.queue);
    var i :| 0 <= i < |st.taken| && st.taken[i].End?;
    assert Handed(st)[i] == st.taken[i];
    forall j | 0 <= j < |st.queue|
      ensures Terminal(st.queue[j])
    {
      assert Handed(st)[|st.taken| + j] == st.queue[j];
    }
    NoEventsAdded(st.taken, st.queue);
  }

  lemma {:induction false} NoEventsAdded(items: seq<Item>, more: seq<Item>)
    requires forall j :: 0 <= j < |more| ==> Terminal(more[j])
    ensures Events(items + more) == Events(items)
    decreases |more|
  {
    if more == [] {
      assert items + more == items;
    } else {
      var last := |more| - 1;
      NoEventsAdded(items, more[..last]);
      assert items + more == (items + more[..last]) + [more[last]];
      EventsAppend(items + more[..last], more[last]);
    }
  }

  lemma EndCarries(items: seq<Item>, more: seq<Item>)
    requires EndsPlainly(items)
    ensures EndsPlainly(items + more)
  {
    var i :| 0 <= i < |items| && items[i].End? && AllNext(items[..i]);
    assert (items + more)[..i] == items[..i] && (items + more)[i] == items[i];
  }

  predicate ProducerBlocked(st: State) {
    st.producer.Offering? && st.producer.point.Parked? && !st.spaceSet && st.wakeups == 0 && st.cancels == 0 &&
      !st.cancelled
  }

  predicate ConsumerBlocked(st: State) {
    st.consumer.Getting? && st.queue == []
  }

  /** Progress: no wake-up is lost. The coroutine is never parked for good beside a consumer
      that waits for an item; whenever it is parked without a signal there is a full queue in front
      of it, a signal on its way, or a close that will cancel it. */
  lemma NeverBothBlocked(st: State)
    requires Reachable(st)
    ensures !(ProducerBlocked(st) && ConsumerBlocked(st))
    ensures ProducerBlocked(st) ==>
      || |st.queue| == 1
      || st.consumer.Popped?
      || (st.consumer.Posting? && st.consumer.registered)
      || (st.closer.Flagged? && st.registered)
      || (st.closer.Cancelling? && st.closer.registered)
  {
    ReachableInv(st);
  }

  // ---------------------------------------------------------------- a waiting consumer is served

  /** What the producing side has yet to do before the queue holds an item. */
  function Distance(p: Producer): nat {
    match p
    case Unstarted => 7
    case Creating => 6
    case Pulling => 5
    case ClosingSource(_) => 4
    case Offering(_, _, point) =>
      (match point
       case Put => 1
       case CheckSpace => 2
       case CheckOpen => 3
       case Recheck => 4
       case Clear => 5
       case Parked => 4)
    case Fallback(_, trying) => if trying then 1 else 2
    case Finished => 0
  }

  function Work(st: State): nat { Distance(st.producer) + st.wakeups }

  /** An action of the producing side; an answer of the source counts as one. */
  predicate Producing(l: Label) { l.OnWorker? || l.OnLoop? }

  /** Beside a waiting consumer each producing action fills the queue or comes nearer to it. */
  lemma ProducingComesNearer(st: State, l: Label)
    requires Inv(st) && ConsumerBlocked(st) && Enabled(st, l) && Producing(l)
    ensures |Step(st, l).queue| > 0 || (ConsumerBlocked(Step(st, l)) && Work(Step(st, l)) < Work(st))
  {
    assert Handed(st) == st.taken;
    assert AllNext(Handed(st)) && !st.closeRequested;
    if l.OnWorker? && (st.producer.Pulling? || st.producer.ClosingSource?) {
    } else if l.OnWorker? && l.work.Advance? {
      AdvanceComesNearer(st);
    }
  }

  lemma AdvanceComesNearer(st: State)
    requires WorkerEnabled(st, Advance) && |st.queue| == 0 && !st.closeRequested
    ensures |AdvanceStep(st).queue| > 0 || (|AdvanceStep(st).queue| == 0 && Work(AdvanceStep(st)) < Work(st))
    ensures AdvanceStep(st).consumer == st.consumer
  {
    match st.producer.point
    case CheckOpen =>
    case CheckSpace =>
    case Put =>
    case Clear =>
    case Recheck =>
  }

  /** Some producing action is possible for as long as the consumer waits. */
  lemma ProducingIsPossible(st: State)
    requires Inv(st) && ConsumerBlocked(st)
    ensures exists l: Label :: Producing(l) && Enabled(st, l)
  {
    assert Handed(st) == st.taken;
    assert AllNext(Handed(st));
    var p := st.producer;
    match p
    case Unstarted => assert Enabled(st, OnWorker(Register));
    case Creating => assert Enabled(st, OnWorker(SourceCreated));
    case Pulling => assert Enabled(st, OnWorker(SourceEnds));
    case ClosingSource(_) => assert Enabled(st, OnWorker(SourceClosed));
    case Fallback(_, trying) =>
      if trying && !p.stage.Drained? {
        assert Enabled(st, OnWorker(WorkerTry));
      } else {
        assert Enabled(st, OnWorker(WorkerCheck));
      }
    case Offering(_, _, point) =>
      if !point.Parked? { assert Enabled(st, OnWorker(Advance)); }
      else if st.spaceSet { assert Enabled(st, OnWorker(Wake)); }
      else { assert Enabled(st, OnLoop(RunWakeup)); }
    case Finished =>
  }

  /** A run of producing actions during which the queue stays empty. */
  ghost predicate KeepsWaiting(st: State, ls: seq<Label>)
    requires IsRun(st, ls)
    decreases |ls|
  {
    |st.queue| == 0 && (|ls| > 0 ==> Producing(ls[0]) && KeepsWaiting(Step(st, ls[0]), ls[1..]))
  }

  lemma {:induction false} WaitingIsBounded(st: State, ls: seq<Label>)
    requires Inv(st) && ConsumerBlocked(st) && IsRun(st, ls) && KeepsWaiting(st, ls)
    ensures |ls| <= Work(st)
    ensures Inv(After(st, ls)) && ConsumerBlocked(After(st, ls))
    decreases |ls|
  {
    if |ls| > 0 {
      StepKeepsInv(st, ls[0]);
      ProducingComesNearer(st, ls[0]);
      WaitingIsBounded(Step(st, ls[0]), ls[1..]);
    }
  }

  /** In every run a waiting consumer is served: the bridge is open beside it, the producing side
      can go on for as long as the queue is empty, and it goes on for at most seven actions and the
      wake-ups on their way, the source's answers included, before the queue holds an item. */
  lemma WaitingConsumerIsServed(st: State, ls: seq<Label>)
    requires Reachable(st) && ConsumerBlocked(st)
    requires IsRun(st, ls) && KeepsWaiting(st, ls)
    ensures !st.closeRequested && !st.producer.Finished?
    ensures |ls| <= Work(st) <= 7 + st.wakeups
    ensures exists l: Label :: Producing(l) && Enabled(After(st, ls), l)
  {
    ReachableInv(st);
    assert Handed(st) == st.taken;
    WaitingIsBounded(st, ls);
    ProducingIsPossible(After(st, ls));
  }

  /** A close that races the start-up is never missed: once it has finished, the coroutine either
      never starts pulling, or has a cancellation posted or delivered, or is already gone; it is
      not parked for good in any case. */
  lemma CloseIsNeverMissed(st: State)
    requires Reachable(st) && st.closer.Closed?
    ensures st.closeRequested
    ensures st.consumer.Stopped? && !ProducerBlocked(st)
    ensures LoopOpen(st.producer) && !st.producer.Unstarted? ==> st.cancels > 0 || st.delivered
    ensures st.producer.Unstarted? ==>
      forall w :: WorkerEnabled(st, w) ==> WorkerStep(st, w).producer.Finished? || WorkerStep(st, w).producer.Fallback?
  {
    ReachableInv(st);
  }
}
