/** That a bridged source is closed exactly once, a closed bridge ends, and the consumer stops only at the end. */
module StreamClosing {
  import opened StreamBridge

  // ---------------------------------------------------------------- the source is closed once

  /** There is a source, and nobody has closed it. */
  predicate SourceOpen(p: Producer) {
    p.Pulling? || p.ClosingSource? || (p.Offering? && !p.purpose.ForEnd?)
  }

  /** The close of the source has returned, raised or been cancelled. */
  predicate Closes(st: State, l: Label) {
    st.producer.ClosingSource? && l.OnWorker?
  }

  function Closings(st: State, ls: seq<Label>): nat
    requires IsRun(st, ls)
    decreases |ls|
  {
    if |ls| == 0 then 0
    else (if Closes(st, ls[0]) then 1 else 0) + Closings(Step(st, ls[0]), ls[1..])
  }

  predicate NotYetCreated(p: Producer) { p.Unstarted? || p.Creating? }

  /** What a step can do to the source: create it, use it, or close it for good. */
  lemma StepOnSource(st: State, l: Label)
    requires Enabled(st, l)
    ensures var p, p1 := st.producer, Step(st, l).producer;
      && (l == OnWorker(SourceCreated) ==> NotYetCreated(p) && SourceOpen(p1))
      && (Closes(st, l) ==> SourceOpen(p) && !SourceOpen(p1) && !NotYetCreated(p1))
      && (l != OnWorker(SourceCreated) && !Closes(st, l) ==> SourceOpen(p1) == SourceOpen(p))
      && (NotYetCreated(p1) ==> NotYetCreated(p))
  {
    match l
    case OnWorker(w) => WorkerOnSource(st, w);
    case OnLoop(c) => LoopEffect(st, c);
    case OnConsumer(a) => ConsumerEffect(st, a);
    case OnCloser(c) => CloserEffect(st, c);
    hide WorkerStep, LoopStep, ConsumerStep, CloserStep;
  }

  lemma WorkerOnSource(st: State, w: WorkerAction)
    requires WorkerEnabled(st, w)
    ensures var p, p1 := st.producer, WorkerStep(st, w).producer;
      && (w.SourceCreated? ==> NotYetCreated(p) && SourceOpen(p1))
      && (p.ClosingSource? ==> !SourceOpen(p1))
      && (!w.SourceCreated? && !p.ClosingSource? ==> SourceOpen(p1) == SourceOpen(p))
      && (NotYetCreated(p1) ==> NotYetCreated(p))
  {
    hide Advanced, Full;
    if st.producer.Pulling? || st.producer.ClosingSource? {
      SourceEffect(st, w);
      hide SourceStep;
    } else if w.Advance? {
      AdvanceEffect(st);
      hide AdvanceStep;
    } else if st.producer.Offering? {
      RestEffect(st, w);
      hide WorkerStep;
    } else {
      NoneOnSource(st, w);
      hide WorkerStep;
    }
  }

  /** Before the source is there, and after the coroutine is over. */
  lemma NoneOnSource(st: State, w: WorkerAction)
    requires WorkerEnabled(st, w) && (NotYetCreated(st.producer) || st.producer.Fallback?)
    ensures var p1 := WorkerStep(st, w).producer;
      && (w.SourceCreated? ==> NotYetCreated(st.producer) && SourceOpen(p1))
      && (!w.SourceCreated? ==> !SourceOpen(p1))
      && (NotYetCreated(p1) ==> NotYetCreated(st.producer))
  {
    hide Cancelled, Advanced, SourceStep, AdvanceStep;
    if st.producer.Fallback? {
      FallbackStays(st, w);
      hide WorkerStep;
    } else {
      hide FallbackCheck, FallbackTry;
    }
  }

  lemma FallbackStays(st: State, w: WorkerAction)
    requires WorkerEnabled(st, w) && st.producer.Fallback?
    ensures WorkerStep(st, w).producer.Fallback? || WorkerStep(st, w).producer.Finished?
  {
    hide Cancelled, SourceStep, AdvanceStep;
    if w.WorkerCheck? {
    } else {
      assert w.WorkerTry?;
    }
  }

  lemma {:induction false} RunOnSource(st: State, ls: seq<Label>)
    requires IsRun(st, ls)
    ensures var end, created := After(st, ls).producer, OnWorker(SourceCreated) in ls;
      && (SourceOpen(st.producer) || created ==> Closings(st, ls) == if SourceOpen(end) then 0 else 1)
      && (!SourceOpen(st.producer) && !created ==> Closings(st, ls) == 0 && !SourceOpen(end))
      && (created ==> NotYetCreated(st.producer))
    decreases |ls|
  {
    hide Step, Enabled, SourceOpen, Closes;
    if |ls| > 0 {
      StepOnSource(st, ls[0]);
      RunOnSource(Step(st, ls[0]), ls[1..]);
      NotBothKinds(st.producer);
      assert ls == [ls[0]] + ls[1..];
      assert OnWorker(SourceCreated) in ls <==>
          ls[0] == OnWorker(SourceCreated) || OnWorker(SourceCreated) in ls[1..];
    }
  }

  lemma NotBothKinds(p: Producer)
    ensures !(SourceOpen(p) && NotYetCreated(p))
  {
  }

  /** In every run the source is closed at most once, and has been closed exactly once when the coroutine is over,
      however it ended, if it was created at all. */
  lemma SourceIsClosedOnce(ls: seq<Label>)
    requires IsRun(START, ls)
    ensures Closings(START, ls) <= 1
    ensures !LoopOpen(After(START, ls).producer) ==>
      Closings(START, ls) == if OnWorker(SourceCreated) in ls then 1 else 0
  {
    RunOnSource(START, ls);
  }

  // ---------------------------------------------------------------- the consumer

  /** The consumer of an open bridge has stopped only at an item that is no event; a fallback with nothing left to
      offer offers nothing. */
  ghost predicate StopsRight(st: State) {
    && (st.consumer.Stopped? && !st.closeRequested ==> |st.taken| > 0 && Terminal(st.taken[|st.taken| - 1]))
    && Drains(st.producer)
  }

  predicate Drains(p: Producer) {
    p.Fallback? && p.stage.Drained? ==> !p.trying
  }

  lemma StepStopsRight(st: State, l: Label)
    requires Enabled(st, l) && StopsRight(st)
    ensures StopsRight(Step(st, l))
  {
    match l
    case OnWorker(w) =>
      ConsumerIsLeft(st, w);
      WorkerDrains(st, w);
    case OnLoop(c) => LoopEffect(st, c);
    case OnConsumer(a) => ActStopsRight(st, a);
    case OnCloser(c) => CloserEffect(st, c);
    hide WorkerStep, Drains, ConsumerStep;
  }

  lemma ActStopsRight(st: State, a: ConsumerAction)
    requires Enabled(st, OnConsumer(a)) && StopsRight(st)
    ensures StopsRight(ConsumerStep(st, a))
  {
    ConsumerEffect(st, a);
    hide LoopOpen, Drains;
  }

  /** The worker leaves the consumer, what it took, and the close alone. */
  ghost predicate LeavesConsumer(st: State, st1: State) {
    st1.consumer == st.consumer && st1.taken == st.taken && st1.closeRequested == st.closeRequested
  }

  lemma ConsumerIsLeft(st: State, w: WorkerAction)
    requires WorkerEnabled(st, w)
    ensures LeavesConsumer(st, WorkerStep(st, w))
  {
    hide LeavesConsumer, Cancelled, Full;
    if st.producer.Pulling? || st.producer.ClosingSource? {
      SourceLeavesConsumer(st, w);
      hide SourceStep;
    } else {
      hide SourceStep;
      match w
      case Advance =>
        AdvanceLeavesConsumer(st);
        hide AdvanceStep;
      case WorkerTry => TryLeavesConsumer(st);
      case WorkerCheck => CheckLeavesConsumer(st);
      case _ => RestLeavesConsumer(st, w);
    }
  }

  lemma AdvanceLeavesConsumer(st: State)
    requires WorkerEnabled(st, Advance)
    ensures LeavesConsumer(st, AdvanceStep(st))
  {
    hide Advanced, Full;
  }

  lemma TryLeavesConsumer(st: State)
    requires WorkerEnabled(st, WorkerTry)
    ensures LeavesConsumer(st, FallbackTry(st))
  {
  }

  lemma CheckLeavesConsumer(st: State)
    requires WorkerEnabled(st, WorkerCheck)
    ensures LeavesConsumer(st, FallbackCheck(st))
  {
  }

  lemma RestLeavesConsumer(st: State, w: WorkerAction)
    requires WorkerEnabled(st, w) && !st.producer.Pulling? && !st.producer.ClosingSource?
    requires !w.Advance? && !w.WorkerTry? && !w.WorkerCheck?
    ensures LeavesConsumer(st, WorkerStep(st, w))
  {
    hide Cancelled;
    match w
    case Register =>
    case SourceCreated =>
    case StartFails =>
    case FactoryFails =>
    case Wake =>
    case Interrupted =>
    case _ =>
  }

  lemma SourceLeavesConsumer(st: State, w: WorkerAction)
    requires WorkerEnabled(st, w) && (st.producer.Pulling? || st.producer.ClosingSource?)
    ensures LeavesConsumer(st, SourceStep(st, w))
  {
    hide Cancelled;
    match w
    case SourceYields(_) =>
    case SourceEnds =>
    case SourceRaises =>
    case SourceClosed =>
    case CloseRaises =>
    case Interrupted =>
    case _ =>
  }

  lemma WorkerDrains(st: State, w: WorkerAction)
    requires WorkerEnabled(st, w) && Drains(st.producer)
    ensures Drains(WorkerStep(st, w).producer)
  {
    if st.producer.Pulling? || st.producer.ClosingSource? {
      SourceEffect(st, w);
      hide SourceStep;
    } else if w.Advance? {
      AdvanceEffect(st);
      hide AdvanceStep;
    } else if st.producer.Offering? {
      RestEffect(st, w);
      hide WorkerStep;
    } else {
      hide Cancelled;
    }
  }

  lemma {:induction false} RunStopsRight(st: State, ls: seq<Label>)
    requires IsRun(st, ls) && StopsRight(st)
    ensures StopsRight(After(st, ls))
    decreases |ls|
  {
    hide Step, Enabled, StopsRight;
    if |ls| > 0 {
      StepStopsRight(st, ls[0]);
      RunStopsRight(Step(st, ls[0]), ls[1..]);
    }
  }

  lemma ReachableStopsRight(st: State)
    requires Reachable(st)
    ensures StopsRight(st)
  {
    var ls :| IsRun(START, ls) && After(START, ls) == st;
    RunStopsRight(START, ls);
  }

  /** The consumer of an open bridge takes events until it stops, and stops only when the last item it took is no
      event. */
  lemma ConsumerStopsAtTheEnd(st: State)
    requires Reachable(st) && !st.closeRequested
    ensures st.consumer.Stopped? ==> |st.taken| > 0 && Terminal(st.taken[|st.taken| - 1])
    ensures st.consumer.Getting? || st.consumer.Holding? ==> AllNext(st.taken)
  {
    ReachableInv(st);
    ReachableStopsRight(st);
  }

  // ---------------------------------------------------------------- a closed bridge ends

  /** A bound on the worker's actions after a close, the source's answers included. */
  function Effort(p: Producer): nat {
    match p
    case Unstarted => 9
    case Creating => 8
    case Pulling => 7
    case ClosingSource(_) => 5
    case Offering(_, purpose, point) =>
      var first := match purpose case ForEvent => 6 case ForError => 6 case ForEnd(_) => 4;
      (match point
       case CheckOpen => first
       case Parked => first + 1
       case Recheck => first + 2
       case Put => first + 2
       case Clear => first + 3
       case CheckSpace => first + 4)
    case Fallback(stage, trying) =>
      (match stage
       case OfferFailure => if trying then 4 else 3
       case OfferEnd => if trying then 3 else 2
       case Drained => 1)
    case Finished => 0
  }

  lemma ClosedComesNearer(st: State, l: Label)
    requires Enabled(st, l) && st.closeRequested
    ensures Step(st, l).closeRequested
    ensures Effort(Step(st, l).producer) + (if l.OnWorker? then 1 else 0) <= Effort(st.producer)
  {
    match l
    case OnWorker(w) => WorkerComesNearer(st, w);
    case OnLoop(c) => LoopEffect(st, c);
    case OnConsumer(a) => ConsumerEffect(st, a);
    case OnCloser(c) => CloserEffect(st, c);
    hide WorkerStep, LoopStep, ConsumerStep, CloserStep, Effort;
  }

  lemma WorkerComesNearer(st: State, w: WorkerAction)
    requires WorkerEnabled(st, w) && st.closeRequested
    ensures WorkerStep(st, w).closeRequested && Effort(WorkerStep(st, w).producer) < Effort(st.producer)
  {
    if st.producer.Pulling? || st.producer.ClosingSource? {
      SourceEffect(st, w);
      hide SourceStep, Cancelled;
    } else if w.Advance? {
      AdvanceComesNearer(st);
      AdvanceLeaves(st);
      hide AdvanceStep;
    } else if st.producer.Offering? {
      RestEffect(st, w);
      hide WorkerStep;
    } else {
      hide Cancelled, Advanced, Full;
    }
  }

  lemma AdvanceComesNearer(st: State)
    requires WorkerEnabled(st, Advance) && st.closeRequested
    ensures Effort(AdvanceStep(st).producer) < Effort(st.producer)
  {
    match st.producer.point
    case CheckOpen =>
    case CheckSpace =>
    case Put =>
    case Clear =>
    case Recheck =>
  }

  function WorkerActions(ls: seq<Label>): nat {
    if |ls| == 0 then 0 else (if ls[0].OnWorker? then 1 else 0) + WorkerActions(ls[1..])
  }

  lemma {:induction false} ClosedIsBounded(st: State, ls: seq<Label>)
    requires IsRun(st, ls) && st.closeRequested
    ensures WorkerActions(ls) + Effort(After(st, ls).producer) <= Effort(st.producer)
    decreases |ls|
  {
    hide Step, Enabled, Effort;
    if |ls| > 0 {
      ClosedComesNearer(st, ls[0]);
      ClosedIsBounded(Step(st, ls[0]), ls[1..]);
    }
  }

  /** An answer of the source. */
  predicate Answers(l: Label) {
    l.OnWorker? && match l.work
                   case SourceYields(_) => true
                   case SourceEnds => true
                   case SourceRaises => true
                   case SourceClosed => true
                   case CloseRaises => true
                   case _ => false
  }

  /** The producing side has something to do that is not up to the source. */
  ghost predicate GoesOn(st: State) {
    exists l: Label :: Producing(l) && !Answers(l) && Enabled(st, l)
  }

  /** From a close on, whatever all threads do, the producing side takes at most ten more actions. And once the close
      has returned it can go on by itself until it has finished, unless it waits for a source that has been told of
      the cancellation. */
  lemma ClosedBridgeEnds(st: State, ls: seq<Label>)
    requires Reachable(st) && st.closeRequested && IsRun(st, ls)
    ensures WorkerActions(ls) <= 10
    ensures st.closer.Closed? && !st.producer.Finished? ==>
      GoesOn(st) || ((st.producer.Pulling? || st.producer.ClosingSource?) && st.delivered)
  {
    ReachableInv(st);
    ReachableStopsRight(st);
    hide Wired, Ordered, GoesOn, Drains;
    ClosedIsBounded(st, ls);
    if st.closer.Closed? && !st.producer.Finished? {
      ClosedGoesOn(st);
    }
  }

  lemma ClosedGoesOn(st: State)
    requires Wired(st) && Drains(st.producer) && st.closer.Closed? && !st.producer.Finished?
    ensures GoesOn(st) || ((st.producer.Pulling? || st.producer.ClosingSource?) && st.delivered)
  {
    var p := st.producer;
    if p.Fallback? {
      var next := OnWorker(if p.trying then WorkerTry else WorkerCheck);
      assert Enabled(st, next);
    } else if Suspended(p) {
      SuspendedGoesOn(st);
    } else {
      var next := OnWorker(if p.Unstarted? then Register else if p.Creating? then SourceCreated else Advance);
      assert Enabled(st, next);
    }
  }

  lemma SuspendedGoesOn(st: State)
    requires Wired(st) && st.closer.Closed? && Suspended(st.producer)
    ensures GoesOn(st) || ((st.producer.Pulling? || st.producer.ClosingSource?) && st.delivered)
  {
    if st.cancels > 0 {
      assert Enabled(st, OnLoop(RunCancel));
    } else if st.cancelled {
      assert Enabled(st, OnWorker(Interrupted));
    }
  }

  // ---------------------------------------------------------------- wake-ups

  function Wakes(ls: seq<Label>): nat {
    if |ls| == 0 then 0 else (if ls[0] == OnWorker(Wake) then 1 else 0) + Wakes(ls[1..])
  }

  function Signals(ls: seq<Label>): nat {
    if |ls| == 0 then 0 else (if ls[0] == OnLoop(RunWakeup) then 1 else 0) + Signals(ls[1..])
  }

  function Takes(ls: seq<Label>): nat {
    if |ls| == 0 then 0 else (if ls[0] == OnConsumer(Take) then 1 else 0) + Takes(ls[1..])
  }

  /** A signal that a parked coroutine has yet to notice. */
  function Unnoticed(st: State): nat {
    if st.spaceSet && st.producer.Offering? && (st.producer.point.Parked? || st.producer.point.Recheck?) then 1 else 0
  }

  /** Signals on their way, and an item taken for which none has been posted yet. */
  function Owed(st: State): nat {
    st.wakeups + if st.consumer.Popped? || st.consumer.Posting? then 1 else 0
  }

  lemma StepEarns(st: State, l: Label)
    requires Enabled(st, l)
    ensures Unnoticed(Step(st, l)) + Wakes([l]) <= Unnoticed(st) + Signals([l])
    ensures Owed(Step(st, l)) + Signals([l]) <= Owed(st) + Takes([l])
  {
    OneLabel(l);
    hide Wakes, Signals, Takes;
    match l
    case OnWorker(w) => WorkerEarns(st, w);
    case OnLoop(c) => LoopEarns(st, c);
    case OnConsumer(a) => ConsumerEarns(st, a);
    case OnCloser(c) => CloserEarns(st, c);
    hide WorkerStep, LoopStep, ConsumerStep, CloserStep, Unnoticed, Owed;
  }

  lemma OneLabel(l: Label)
    ensures Wakes([l]) == if l == OnWorker(Wake) then 1 else 0
    ensures Signals([l]) == if l == OnLoop(RunWakeup) then 1 else 0
    ensures Takes([l]) == if l == OnConsumer(Take) then 1 else 0
  {
    assert [l][1..] == [];
  }

  lemma LoopEarns(st: State, c: Callback)
    requires Enabled(st, OnLoop(c))
    ensures var st1, signal := LoopStep(st, c), if c.RunWakeup? then 1 else 0;
      Unnoticed(st1) <= Unnoticed(st) + signal && Owed(st1) + signal == Owed(st)
  {
  }

  lemma ConsumerEarns(st: State, a: ConsumerAction)
    requires Enabled(st, OnConsumer(a))
    ensures var st1 := ConsumerStep(st, a);
      Unnoticed(st1) == Unnoticed(st) && Owed(st1) <= Owed(st) + if a.Take? then 1 else 0
  {
    hide LoopOpen, Terminal;
  }

  lemma CloserEarns(st: State, c: CloserAction)
    requires Enabled(st, OnCloser(c))
    ensures Unnoticed(CloserStep(st, c)) == Unnoticed(st) && Owed(CloserStep(st, c)) <= Owed(st)
  {
    hide LoopOpen;
  }

  lemma WorkerEarns(st: State, w: WorkerAction)
    requires WorkerEnabled(st, w)
    ensures Unnoticed(WorkerStep(st, w)) + (if w.Wake? then 1 else 0) <= Unnoticed(st)
    ensures Owed(WorkerStep(st, w)) == Owed(st)
  {
    hide Full;
    if st.producer.Pulling? || st.producer.ClosingSource? {
      SourceEarns(st, w);
      hide SourceStep;
    } else if w.Advance? {
      AdvanceEarns(st);
      hide AdvanceStep;
    } else {
      RestEarns(st, w);
      hide WorkerStep;
    }
  }

  lemma SourceEarns(st: State, w: WorkerAction)
    requires WorkerEnabled(st, w) && (st.producer.Pulling? || st.producer.ClosingSource?)
    ensures Unnoticed(SourceStep(st, w)) == 0 && Owed(SourceStep(st, w)) == Owed(st)
  {
    match w
    case SourceYields(_) =>
    case SourceEnds =>
    case SourceRaises =>
    case SourceClosed =>
    case CloseRaises =>
    case Interrupted =>
    case _ =>
  }

  lemma AdvanceEarns(st: State)
    requires WorkerEnabled(st, Advance)
    ensures Unnoticed(AdvanceStep(st)) <= Unnoticed(st) && Owed(AdvanceStep(st)) == Owed(st)
  {
    match st.producer.point
    case CheckOpen =>
    case CheckSpace =>
    case Put =>
    case Clear =>
    case Recheck =>
  }

  lemma RestEarns(st: State, w: WorkerAction)
    requires WorkerEnabled(st, w) && !st.producer.Pulling? && !st.producer.ClosingSource? && !w.Advance?
    ensures Unnoticed(WorkerStep(st, w)) + (if w.Wake? then 1 else 0) <= Unnoticed(st)
    ensures Owed(WorkerStep(st, w)) == Owed(st)
  {
    hide Full;
    match w
    case Register =>
    case SourceCreated =>
    case StartFails =>
    case FactoryFails =>
    case Wake =>
    case Interrupted =>
    case WorkerCheck =>
    case WorkerTry =>
    case _ =>
  }

  /** The coroutine never wakes by itself: each of its wakes answers a signal of its own, and each signal an item that
      the consumer has taken. */
  lemma {:induction false} WakesAreEarned(st: State, ls: seq<Label>)
    requires IsRun(st, ls)
    ensures Wakes(ls) + Unnoticed(After(st, ls)) <= Signals(ls) + Unnoticed(st)
    ensures Signals(ls) + Owed(After(st, ls)) <= Takes(ls) + Owed(st)
    decreases |ls|
  {
    hide Step, Enabled, Unnoticed, Owed;
    if |ls| > 0 {
      StepEarns(st, ls[0]);
      assert [ls[0]][1..] == [];
      WakesAreEarned(Step(st, ls[0]), ls[1..]);
    }
  }
}
