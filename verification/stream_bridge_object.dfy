/** The bridge object and the code that runs on it: the worker's coroutine with its bounded enqueue,
    the worker's fallback, and the generator that takes, signals and closes.

    Each method is the code of one thread. What the other threads do at the points where they can get
    in between is given by `turns`, any lists of actions whatever; what the source answers is given by
    `answers`. Whatever they are, the object only ever goes through states of the protocol. */
module StreamBridgeObject {
  import opened StreamBridge
  import opened Options

  /** How `_enqueue_from_async` was left; `NotYet` when no turn is left while it waits. */
  datatype Offer = Accepted | Refused | Raised | NotYet

  /** How a block of `_drain` was left. */
  datatype Exit = Completes | Raises | Waits

  /** What resuming the generator led to. */
  datatype Resumed = Yielded(event: Event) | EndOfStream | RaisesFailure | StillWaiting

  lemma {:induction false} RunAppend(st: State, ls: seq<Label>, l: Label)
    requires IsRun(st, ls) && Enabled(After(st, ls), l)
    ensures IsRun(st, ls + [l]) && After(st, ls + [l]) == Step(After(st, ls), l)
    decreases |ls|
  {
    if |ls| == 0 {
      assert ls + [l] == [l] && IsRun(Step(st, l), []);
    } else {
      RunAppend(Step(st, ls[0]), ls[1..], l);
      assert (ls + [l])[1..] == ls[1..] + [l];
    }
  }

  lemma ReachableStep(st: State, l: Label)
    requires Reachable(st) && Enabled(st, l)
    ensures Reachable(Step(st, l))
  {
    var ls :| IsRun(START, ls) && After(START, ls) == st;
    RunAppend(START, ls, l);
  }

  /** While one action of another thread happens, the coroutine stays where it is. */
  lemma OthersLeaveTheCoroutine(st: State, l: Label)
    requires Enabled(st, l) && !l.OnWorker?
    ensures LeavesOrder(st, Step(st, l))
  {
    match l
    case OnLoop(c) => LoopEffect(st, c);
    case OnConsumer(a) => ConsumerEffect(st, a);
    case OnCloser(c) => CloserEffect(st, c);
  }

  /** The producing side only adds to the queue. */
  ghost predicate LeavesGenerator(st: State, st1: State) {
    && st1.taken == st.taken && st.queue <= st1.queue && st1.consumer == st.consumer
    && st1.closer == st.closer && st1.closeRequested == st.closeRequested
  }

  lemma ProducingLeavesGenerator(st: State, l: Label)
    requires Enabled(st, l) && Producing(l)
    ensures LeavesGenerator(st, Step(st, l))
  {
    match l
    case OnLoop(c) =>
    case OnWorker(w) =>
      if st.producer.Pulling? || st.producer.ClosingSource? {
        SourceLeavesGenerator(st, w);
      } else if w.Advance? {
        AdvanceLeavesGenerator(st);
      } else {
        RestLeavesGenerator(st, w);
      }
  }

  lemma SourceLeavesGenerator(st: State, w: WorkerAction)
    requires WorkerEnabled(st, w) && (st.producer.Pulling? || st.producer.ClosingSource?)
    ensures LeavesGenerator(st, SourceStep(st, w))
  {
    hide Cancelled;
    match w
    case SourceYields(_) =>
    case SourceEnds =>
    case SourceRaises =>
    case SourceClosed =>
    case CloseRaises =>
    case Interrupted =>
    case _ =>
  }

  lemma RestLeavesGenerator(st: State, w: WorkerAction)
    requires WorkerEnabled(st, w) && !st.producer.Pulling? && !st.producer.ClosingSource? && !w.Advance?
    ensures LeavesGenerator(st, WorkerStep(st, w))
  {
    hide Cancelled, AdvanceStep, SourceStep;
    match w
    case WorkerTry =>
    case WorkerCheck =>
    case _ =>
  }

  lemma AdvanceLeavesGenerator(st: State)
    requires WorkerEnabled(st, Advance)
    ensures LeavesGenerator(st, AdvanceStep(st))
  {
    match st.producer.point
    case CheckOpen =>
    case CheckSpace =>
    case Put =>
    case Clear =>
    case Recheck =>
  }

  lemma CancelMeansClosed(st: State)
    requires Reachable(st) && st.cancelled
    ensures st.closeRequested
  {
    ReachableInv(st);
  }

  /** Where an answer of the source leads the coroutine. */
  ghost predicate Answers(p: Producer, answer: WorkerAction, p1: Producer) {
    match answer
    case SourceYields(event) => p.Pulling? && p1 == Offering(Next(event), ForEvent, CheckOpen)
    case SourceEnds => p.Pulling? && p1 == ClosingSource(false)
    case SourceRaises => p.Pulling? && p1 == Offering(Failure, ForError, CheckOpen)
    case SourceClosed => p.ClosingSource? && p1 == Offering(End, ForEnd(p.raising), CheckOpen)
    case CloseRaises => p.ClosingSource? && p1 == Offering(End, ForEnd(true), CheckOpen)
    case Interrupted =>
      if p.Pulling? then p1 == Offering(Failure, ForError, CheckOpen) else p1 == Offering(End, ForEnd(true), CheckOpen)
    case _ => false
  }

  lemma SourceAnswers(st: State, w: WorkerAction)
    requires WorkerEnabled(st, w) && (st.producer.Pulling? || st.producer.ClosingSource?)
    ensures Answers(st.producer, w, SourceStep(st, w).producer)
    ensures SourceStep(st, w).taken == st.taken && SourceStep(st, w).queue == st.queue
  {
    match w
    case SourceYields(_) =>
    case SourceEnds =>
    case SourceRaises =>
    case SourceClosed =>
    case CloseRaises =>
    case Interrupted =>
    case _ =>
  }

  lemma FinishedHasEnded(st: State)
    requires Reachable(st) && st.producer.Finished?
    ensures st.closeRequested || !AllNext(Handed(st))
  {
    ReachableInv(st);
  }

  /** A generator that comes back has received events only. */
  lemma StartsUnended(st: State)
    requires Reachable(st) && (st.consumer.Getting? || st.consumer.Holding?)
    ensures AllNext(st.taken)
  {
    ReachableInv(st);
  }

  lemma EndsThere(taken: seq<Item>)
    requires AllNext(taken)
    ensures EndsPlainly(taken + [End])
  {
    var longer := taken + [End];
    assert longer[|taken|].End? && longer[..|taken|] == taken;
  }

  class Bridge {
    var queue: seq<Item>
    var closeRequested: bool
    /** `_drain_loop`, `_drain_task` and `_space_available` are set together under the lock. */
    var registered: bool
    var spaceSet: bool
    /** Callbacks posted to the loop and not yet run, and a cancellation not yet raised. */
    var wakeups: nat
    var cancels: nat
    var cancelled: bool
    var delivered: bool
    /** Where each thread stands. */
    var producer: Producer
    var consumer: Consumer
    var closer: Closer
    /** What the source has yielded, whether it ran out, and what the consumer has received. */
    var exhausted: bool
    var pulled: seq<Event>
    var taken: seq<Item>
    /** What the other threads and the source are going to do. */
    var turns: seq<seq<Label>>
    var answers: seq<WorkerAction>

    function Snapshot(): State
      reads this
    {
      State(queue, closeRequested, registered, spaceSet, wakeups, cancels, cancelled, delivered,
            producer, consumer, closer, exhausted, pulled, taken)
    }

    ghost predicate Valid()
      reads this
    {
      Reachable(Snapshot())
    }

    /** Everything handed over so far. */
    ghost function Given(): seq<Item>
      reads this
    {
      taken + queue
    }

    constructor (turns: seq<seq<Label>>, answers: seq<WorkerAction>)
      ensures Valid() && Snapshot() == START
      ensures this.turns == turns && this.answers == answers
    {
      queue, closeRequested, registered, spaceSet := [], false, false, false;
      wakeups, cancels, cancelled, delivered := 0, 0, false, false;
      producer, consumer, closer := Unstarted, Getting, Idle;
      exhausted, pulled, taken := false, [], [];
      this.turns, this.answers := turns, answers;
      new;
      assert IsRun(START, []) && After(START, []) == START;
    }

    // ---------------------------------------------------------------- the other threads

    /** One action of another thread. */
    method Act(l: Label)
      requires Valid() && Enabled(Snapshot(), l)
      modifies this
      ensures Valid() && Snapshot() == Step(old(Snapshot()), l)
      ensures turns == old(turns) && answers == old(answers)
    {
      hide Step, Enabled, Reachable;
      ReachableStep(Snapshot(), l);
      var st := Step(Snapshot(), l);
      SetBridge(st);
      SetLoop(st);
      SetThreads(st);
      SetHistory(st);
    }

    method SetBridge(st: State)
      modifies this`queue, this`closeRequested, this`registered, this`spaceSet
      ensures queue == st.queue && closeRequested == st.closeRequested && registered == st.registered
      ensures spaceSet == st.spaceSet
    {
      queue, closeRequested, registered, spaceSet := st.queue, st.closeRequested, st.registered, st.spaceSet;
    }

    method SetLoop(st: State)
      modifies this`wakeups, this`cancels, this`cancelled, this`delivered
      ensures wakeups == st.wakeups && cancels == st.cancels && cancelled == st.cancelled && delivered == st.delivered
    {
      wakeups, cancels, cancelled, delivered := st.wakeups, st.cancels, st.cancelled, st.delivered;
    }

    method SetThreads(st: State)
      modifies this`producer, this`consumer, this`closer
      ensures producer == st.producer && consumer == st.consumer && closer == st.closer
    {
      producer, consumer, closer := st.producer, st.consumer, st.closer;
    }

    method SetHistory(st: State)
      modifies this`exhausted, this`pulled, this`taken
      ensures exhausted == st.exhausted && pulled == st.pulled && taken == st.taken
    {
      exhausted, pulled, taken := st.exhausted, st.pulled, st.taken;
    }

    /** The consumer, a close and the loop's callbacks get in between two statements of the worker. */
    method OthersAct()
      requires Valid()
      modifies this
      ensures Valid() && LeavesOrder(old(Snapshot()), Snapshot()) && answers == old(answers)
      ensures if |old(turns)| == 0 then turns == old(turns) && Snapshot() == old(Snapshot())
        else turns == old(turns)[1..]
    {
      if |turns| == 0 { return; }
      var turn := turns[0];
      turns := turns[1..];
      for i := 0 to |turn|
        invariant Valid() && LeavesOrder(old(Snapshot()), Snapshot())
        invariant turns == old(turns)[1..] && answers == old(answers)
      {
        if !turn[i].OnWorker? && Enabled(Snapshot(), turn[i]) {
          OthersLeaveTheCoroutine(Snapshot(), turn[i]);
          Act(turn[i]);
        }
      }
    }

    /** The worker and its loop get in between two statements of the generator. */
    method ProducerActs()
      requires Valid()
      modifies this
      ensures Valid() && LeavesGenerator(old(Snapshot()), Snapshot()) && answers == old(answers)
      ensures if |old(turns)| == 0 then turns == old(turns) && Snapshot() == old(Snapshot())
        else turns == old(turns)[1..]
    {
      if |turns| == 0 { return; }
      var turn := turns[0];
      turns := turns[1..];
      for i := 0 to |turn|
        invariant Valid() && LeavesGenerator(old(Snapshot()), Snapshot())
        invariant turns == old(turns)[1..] && answers == old(answers)
      {
        if Producing(turn[i]) && Enabled(Snapshot(), turn[i]) {
          ProducingLeavesGenerator(Snapshot(), turn[i]);
          Act(turn[i]);
        }
      }
    }

    // ---------------------------------------------------------------- the bounded enqueue

    /** `self._close_requested.is_set()`. */
    method CloseIsSet() returns (closed: bool)
      requires Valid() && producer.Offering? && producer.point.CheckOpen?
      modifies this`producer
      ensures Valid() && closed == closeRequested
      ensures producer == if closed then Returned(old(producer).purpose, false) else old(producer).(point := CheckSpace)
    {
      ReachableStep(Snapshot(), OnWorker(Advance));
      closed := closeRequested;
      if closed {
        producer := Returned(producer.purpose, false);
      } else {
        producer := producer.(point := CheckSpace);
      }
    }

    /** `self._queue.full()`. */
    method QueueIsFull() returns (full: bool)
      requires Valid() && producer.Offering? && (producer.point.CheckSpace? || producer.point.Recheck?)
      modifies this`producer
      ensures Valid() && full == (|queue| >= CAPACITY)
      ensures producer == old(producer).(point :=
        if old(producer).point.CheckSpace? then (if full then Clear else Put) else (if full then Parked else CheckOpen))
    {
      hide Reachable;
      ReachableStep(Snapshot(), OnWorker(Advance));
      full := |queue| >= CAPACITY;
      if producer.point.CheckSpace? {
        producer := producer.(point := if full then Clear else Put);
      } else {
        producer := producer.(point := if full then Parked else CheckOpen);
      }
    }

    /** `self._queue.put_nowait(item)`. */
    method PutNowait(item: Item)
      requires Valid() && producer.Offering? && producer.point.Put? && producer.item == item
      modifies this`queue, this`producer
      ensures Valid() && queue == old(queue) + [item] && producer == Returned(old(producer).purpose, true)
    {
      ReachableStep(Snapshot(), OnWorker(Advance));
      queue := queue + [item];
      producer := Returned(producer.purpose, true);
    }

    /** `space_available.clear()`. */
    method ClearSpace()
      requires Valid() && producer.Offering? && producer.point.Clear?
      modifies this`spaceSet, this`producer
      ensures Valid() && !spaceSet && producer == old(producer).(point := Recheck)
    {
      ReachableStep(Snapshot(), OnWorker(Advance));
      spaceSet := false;
      producer := producer.(point := Recheck);
    }

    /** `await space_available.wait()`: resumed by the signal, by a cancellation, or not yet. */
    method WaitForSpace() returns (offer: Offer)
      requires Valid() && producer.Offering? && producer.point.Parked?
      modifies this
      ensures Valid() && Given() == old(Given()) && answers == old(answers)
      ensures |turns| < |old(turns)| || offer.NotYet?
      ensures match offer
        case Accepted => producer == old(producer).(point := CheckOpen)
        case Raised => producer == Cancelled(old(producer)) && closeRequested
        case NotYet => turns == [] && producer == old(producer)
        case Refused => false
    {
      hide Reachable, AdvanceStep, SourceStep, Cancelled;
      offer := NotYet;
      while |turns| > 0
        invariant Valid() && Given() == old(Given()) && answers == old(answers) && producer == old(producer)
        invariant |turns| <= |old(turns)| && offer.NotYet?
        decreases |turns|
      {
        OthersAct();
        if cancelled {
          CancelMeansClosed(Snapshot());
          Act(OnWorker(Interrupted));
          return Raised;
        }
        if spaceSet {
          Act(OnWorker(Wake));
          return Accepted;
        }
      }
    }

    /** `_enqueue_from_async`: the item is handed over exactly once if the result is true, and not at
        all if the bridge was closed first or the coroutine was cancelled while it waited. */
    method EnqueueFromAsync(item: Item) returns (offer: Offer)
      requires Valid() && producer.Offering? && producer.point.CheckOpen? && producer.item == item
      modifies this
      ensures Valid() && answers == old(answers)
      ensures Given() == if offer.Accepted? then old(Given()) + [item] else old(Given())
      ensures match offer
        case Accepted => producer == Returned(old(producer).purpose, true)
        case Refused => producer == Returned(old(producer).purpose, false) && closeRequested
        case Raised => producer == Cancelled(old(producer).(point := Parked)) && closeRequested
        case NotYet => turns == [] && producer == old(producer).(point := Parked)
    {
      hide Reachable, Returned, Cancelled;
      while true
        invariant Valid() && answers == old(answers)
        invariant Given() == old(Given()) && producer == old(producer)
        decreases |turns|
      {
        var closed := CloseIsSet();
        if closed { return Refused; }
        OthersAct();
        var full := QueueIsFull();
        if !full {
          OthersAct();
          ghost var given := Given();
          PutNowait(item);
          assert Given() == given + [item];
          return Accepted;
        }
        OthersAct();
        ClearSpace();
        OthersAct();
        full := QueueIsFull();
        if !full { continue; }
        offer := WaitForSpace();
        if offer.NotYet? { return; }
        if offer.Raised? {
          return;
        }
      }
    }

    // ---------------------------------------------------------------- the coroutine

    /** An awaited source answers, or nothing is known of it yet. */
    method NextAnswer() returns (answer: Option<WorkerAction>)
      requires Valid() && (producer.Pulling? || producer.ClosingSource?)
      modifies this
      ensures Valid() && Given() == old(Given())
      ensures answer.None? ==> producer == old(producer)
      ensures answer.Some? ==> |answers| < |old(answers)| && Answers(old(producer), answer.value, producer)
    {
      hide Reachable;
      OthersAct();
      answer := None;
      if |answers| > 0 && WorkerEnabled(Snapshot(), answers[0]) {
        var next := answers[0];
        SourceAnswers(Snapshot(), next);
        Act(OnWorker(next));
        answers := answers[1..];
        answer := Some(next);
      }
    }

    /** `async for event in source`: how the `try` block is left. */
    method DrainEvents() returns (exit: Exit)
      requires Valid() && producer.Pulling?
      modifies this
      ensures Valid()
      ensures exit.Completes? ==> producer == ClosingSource(false)
      ensures exit.Raises? ==> producer == Offering(Failure, ForError, CheckOpen)
      ensures exit.Waits? ==> !producer.Finished?
    {
      hide Reachable;
      while true
        invariant Valid() && producer.Pulling?
        decreases |answers|
      {
        var answer := NextAnswer();
        if answer.None? { return Waits; }
        if !answer.value.SourceYields? {
          return if answer.value.SourceEnds? then Completes else Raises;
        }
        var offer := EnqueueFromAsync(Next(answer.value.event));
        if !offer.Accepted? {
          return if offer.Refused? then Completes else if offer.Raised? then Raises else Waits;
        }
      }
    }

    /** The lock region of `_drain`: registration, and a close that came first. */
    method Register() returns (shouldCancel: bool)
      requires Valid() && producer.Unstarted?
      modifies this`registered, this`producer
      ensures Valid() && registered && shouldCancel == closeRequested
      ensures producer == if shouldCancel then Finished else Creating
    {
      ReachableStep(Snapshot(), OnWorker(StreamBridge.Register));
      registered := true;
      shouldCancel := closeRequested;
      producer := if shouldCancel then Finished else Creating;
    }

    /** `self._stream_factory()`. */
    method CreateSource(fails: bool)
      requires Valid() && producer.Creating?
      modifies this`producer
      ensures Valid() && producer == if fails then Fallback(OfferFailure, false) else Pulling
    {
      ReachableStep(Snapshot(), OnWorker(if fails then FactoryFails else SourceCreated));
      producer := if fails then Fallback(OfferFailure, false) else Pulling;
    }

    /** The `except` and `finally` blocks of `_drain`: failure, close, sentinel. An exception in any of
        them leaves the coroutine once the sentinel has been offered. */
    method CloseSource(raised: bool) returns (exit: Exit)
      requires Valid() && producer == if raised then Offering(Failure, ForError, CheckOpen) else ClosingSource(false)
      modifies this
      ensures Valid()
      ensures exit.Completes? <==> producer == Finished
      ensures exit.Raises? ==> producer == Fallback(OfferFailure, false)
    {
      hide Reachable;
      var raising := false;
      if raised {
        var offer := EnqueueFromAsync(Failure);
        if offer.NotYet? { return Waits; }
        raising := offer.Raised?;
      }
      assert producer == ClosingSource(raising);
      var answer := NextAnswer();
      if answer.None? { return Waits; }
      if !answer.value.SourceClosed? {
        raising := true;
      }
      assert producer == Offering(End, ForEnd(raising), CheckOpen);
      var offer := EnqueueFromAsync(End);
      if offer.NotYet? { return Waits; }
      exit := if raising || offer.Raised? then Raises else Completes;
    }

    /** `_drain`. */
    method Drain(factoryFails: bool) returns (exit: Exit)
      requires Valid() && producer.Unstarted?
      modifies this
      ensures Valid()
      ensures exit.Completes? <==> producer == Finished
      ensures exit.Raises? ==> producer == Fallback(OfferFailure, false)
      ensures factoryFails ==>
        Given() == old(Given()) && (exit.Raises? || closeRequested) && (old(closeRequested) ==> closeRequested)
    {
      hide Reachable;
      var shouldCancel := Register();
      if shouldCancel { return Completes; }
      OthersAct();
      CreateSource(factoryFails);
      if factoryFails { return Raises; }
      exit := DrainEvents();
      if exit.Waits? { return; }
      exit := CloseSource(exit.Raises?);
    }

    // ---------------------------------------------------------------- the worker thread

    /** The loop test of `_enqueue_from_worker`. */
    method FallbackIsClosed() returns (closed: bool)
      requires Valid() && producer.Fallback? && !producer.trying && !producer.stage.Drained?
      modifies this`producer
      ensures Valid() && closed == closeRequested
      ensures producer ==
        if closed then Fallback(Later(old(producer).stage), false) else Fallback(old(producer).stage, true)
    {
      ReachableStep(Snapshot(), OnWorker(WorkerCheck));
      closed := closeRequested;
      producer := if closed then Fallback(Later(producer.stage), false) else Fallback(producer.stage, true);
    }

    /** `self._queue.put(item, timeout=...)`. */
    method PutOrTimeOut(item: Item) returns (put: bool)
      requires Valid() && producer.Fallback? && producer.trying && !producer.stage.Drained?
      requires item == Offered(producer.stage)
      modifies this`queue, this`producer
      ensures Valid() && put == (|old(queue)| < CAPACITY)
      ensures queue == if put then old(queue) + [item] else old(queue)
      ensures producer ==
        if put then Fallback(Later(old(producer).stage), false) else Fallback(old(producer).stage, false)
    {
      ReachableStep(Snapshot(), OnWorker(WorkerTry));
      put := |queue| < CAPACITY;
      if put {
        queue := queue + [item];
        producer := Fallback(Later(producer.stage), false);
      } else {
        producer := Fallback(producer.stage, false);
      }
    }

    /** `_enqueue_from_worker`: it gives the item up only when the bridge is closed. */
    method EnqueueFromWorker(item: Item) returns (done: bool)
      requires Valid() && producer.Fallback? && !producer.trying && !producer.stage.Drained?
      requires item == Offered(producer.stage)
      modifies this
      ensures Valid()
      ensures done ==> producer == Fallback(Later(old(producer).stage), false)
      ensures done ==> Given() == old(Given()) + [item] || (closeRequested && Given() == old(Given()))
      ensures old(closeRequested) ==> closeRequested
      ensures !done ==> turns == [] && producer == old(producer) && Given() == old(Given())
    {
      hide Reachable, Later, Offered;
      while true
        invariant Valid() && producer == old(producer) && Given() == old(Given())
        invariant old(closeRequested) ==> closeRequested
        decreases |turns|
      {
        var closed := FallbackIsClosed();
        if closed { return true; }
        var more := |turns| > 0;
        OthersAct();
        ghost var given := Given();
        var put := PutOrTimeOut(item);
        if put {
          assert Given() == given + [item];
          return true;
        }
        if !more { return false; }
      }
    }

    /** The last action of `_run`. */
    method Finish()
      requires Valid() && producer == Fallback(Drained, false)
      modifies this`producer
      ensures Valid() && producer == Finished
    {
      ReachableStep(Snapshot(), OnWorker(WorkerCheck));
      producer := Finished;
    }

    method FailToStart()
      requires Valid() && producer.Unstarted?
      modifies this`producer
      ensures Valid() && producer == Fallback(OfferFailure, false)
    {
      ReachableStep(Snapshot(), OnWorker(StartFails));
      producer := Fallback(OfferFailure, false);
    }

    /** `_run`: whatever goes wrong, the worker does not end before an item that ends the stream has
        been handed over, unless the bridge is closed. */
    method Run(startFails: bool, factoryFails: bool) returns (done: bool)
      requires Valid() && producer.Unstarted?
      modifies this
      ensures Valid()
      ensures done <==> producer.Finished?
      ensures done ==> closeRequested || !AllNext(Given())
      ensures done && (startFails || factoryFails) ==> closeRequested || Given() == old(Given()) + [Failure, End]
    {
      hide Reachable;
      done := false;
      if startFails {
        FailToStart();
      } else {
        var exit := Drain(factoryFails);
        if exit.Waits? { return; }
        if exit.Completes? {
          FinishedHasEnded(Snapshot());
          return true;
        }
      }
      var offered := EnqueueFromWorker(Failure);
      if !offered { return; }
      offered := EnqueueFromWorker(End);
      if !offered { return; }
      Finish();
      FinishedHasEnded(Snapshot());
      done := true;
    }

    // ---------------------------------------------------------------- the generator

    /** `self._queue.get()`, once there is an item. */
    method QueueGet() returns (item: Item)
      requires Valid() && consumer.Getting? && |queue| > 0
      modifies this`queue, this`taken, this`consumer
      ensures Valid() && [item] + queue == old(queue) && taken == old(taken) + [item] && consumer == Popped
    {
      ReachableStep(Snapshot(), OnConsumer(Take));
      item := queue[0];
      queue := queue[1..];
      taken := taken + [item];
      consumer := Popped;
    }

    /** `_notify_space_available`, the read under the lock. */
    method ReadSpaceSignal() returns (seen: bool)
      requires Valid() && consumer.Popped?
      modifies this`consumer
      ensures Valid() && seen == registered && consumer == Posting(seen)
    {
      ReachableStep(Snapshot(), OnConsumer(ReadSignal));
      seen := registered;
      consumer := Posting(seen);
    }

    /** `_notify_space_available`, the post: it raises, and is ignored, once the loop is closed. */
    method PostSpaceSignal(item: Item)
      requires Valid() && consumer.Posting? && |taken| > 0 && item == taken[|taken| - 1]
      modifies this`wakeups, this`consumer
      ensures Valid() && consumer == if Terminal(item) then Stopped else Holding
      ensures wakeups == old(wakeups) + if old(consumer).registered && LoopOpen(producer) then 1 else 0
    {
      hide Reachable, Terminal, LoopOpen;
      ReachableStep(Snapshot(), OnConsumer(PostSignal));
      if consumer.registered && LoopOpen(producer) {
        wakeups := wakeups + 1;
      }
      consumer := if Terminal(item) then Stopped else Holding;
    }

    /** `get`: the head of the queue, and the worker's signal. */
    method Get() returns (item: Option<Item>)
      requires Valid() && consumer.Getting?
      modifies this
      ensures Valid() && closer == old(closer)
      ensures item.Some? ==>
        taken == old(taken) + [item.value] && consumer == if Terminal(item.value) then Stopped else Holding
      ensures item.None? ==> turns == [] && taken == old(taken) && consumer == Getting && queue == []
    {
      hide Reachable, Terminal, LoopOpen;
      while |queue| == 0
        invariant Valid() && closer == old(closer) && taken == old(taken) && consumer == Getting
        decreases |turns|
      {
        if |turns| == 0 { return None; }
        ProducerActs();
      }
      var head := QueueGet();
      ProducerActs();
      var seen := ReadSpaceSignal();
      ProducerActs();
      PostSpaceSignal(head);
      item := Some(head);
    }

    method SetCloseRequested()
      requires Valid() && closer.Idle?
      modifies this`closeRequested, this`consumer, this`closer
      ensures Valid() && closeRequested && consumer == Stopped && closer == Flagged
    {
      ReachableStep(Snapshot(), OnCloser(RequestClose));
      closeRequested, consumer, closer := true, Stopped, Flagged;
    }

    method ReadDrainTask() returns (seen: bool)
      requires Valid() && closer.Flagged?
      modifies this`closer
      ensures Valid() && seen == registered && closer == Cancelling(seen)
    {
      ReachableStep(Snapshot(), OnCloser(ReadTask));
      seen := registered;
      closer := Cancelling(seen);
    }

    method PostCancellation()
      requires Valid() && closer.Cancelling?
      modifies this`cancels, this`closer
      ensures Valid() && closer == Closed(old(closer).registered)
    {
      ReachableStep(Snapshot(), OnCloser(PostCancel));
      if closer.registered && LoopOpen(producer) {
        cancels := cancels + 1;
      }
      closer := Closed(closer.registered);
    }

    /** `_cancel_drain`: the flag first, then the task, so that no start-up slips through; no
        coroutine is left parked without a signal. */
    method CancelDrain()
      requires Valid() && closer.Idle?
      modifies this
      ensures Valid() && closeRequested && consumer == Stopped && taken == old(taken)
      ensures closer.Closed? && !ProducerBlocked(Snapshot())
    {
      hide Reachable, LoopOpen, ProducerBlocked;
      SetCloseRequested();
      ProducerActs();
      var seen := ReadDrainTask();
      ProducerActs();
      PostCancellation();
      CloseIsNeverMissed(Snapshot());
    }

    /** The generator comes back for another item. */
    method Demand()
      requires Valid() && consumer.Holding?
      modifies this`consumer
      ensures Valid() && consumer == Getting
    {
      ReachableStep(Snapshot(), OnConsumer(ConsumerAction.Demand));
      consumer := Getting;
    }

    /** `next` on the generator: an event is yielded; at the sentinel the generator ends, at a failure
        it raises, and either way it has closed the bridge. A plain end is reached only with every
        event of a source that ran out. */
    method Resume() returns (resumed: Resumed)
      requires Valid() && closer.Idle? && (consumer.Holding? || consumer.Getting?)
      modifies this
      ensures Valid()
      ensures match resumed
        case Yielded(event) => taken == old(taken) + [Next(event)] && consumer == Holding && closer.Idle?
        case EndOfStream => closer.Closed? && taken == old(taken) + [End] && exhausted && Events(old(taken)) == pulled
        case RaisesFailure => closer.Closed? && taken == old(taken) + [Failure]
        case StillWaiting => turns == [] && taken == old(taken) && consumer == Getting && queue == []
    {
      hide Reachable, EndsPlainly, ProducerBlocked;
      StartsUnended(Snapshot());
      if consumer.Holding? {
        Demand();
      }
      var item := Get();
      if item.None? { return StillWaiting; }
      if item.value.Next? { return Yielded(item.value.event); }
      CancelDrain();
      if item.value.Failure? { return RaisesFailure; }
      EndsThere(old(taken));
      PlainEndIsComplete(Snapshot());
      EventsAppend(old(taken), End);
      resumed := EndOfStream;
    }
  }
}
