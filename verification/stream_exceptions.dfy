/** Which exceptions leave the bridge's coroutine, and that a close, a cancellation and an item are each seen once. */
module StreamExceptions {
  import opened StreamBridge
  import StreamClosing

  // ---------------------------------------------------------------- what leaves the coroutine

  /** An exception that the coroutine does not handle: before its `try`, in its handler, or in its `finally`. */
  predicate Escapes(st: State, l: Label) {
    l.OnWorker? && match l.work
                   case StartFails => true
                   case FactoryFails => true
                   case CloseRaises => true
                   case Interrupted =>
                     st.producer.ClosingSource? || (st.producer.Offering? && !st.producer.purpose.ForEvent?)
                   case _ => false
  }

  ghost predicate Escaped(st: State, ls: seq<Label>)
    requires IsRun(st, ls)
    decreases |ls|
  {
    |ls| > 0 && (Escapes(st, ls[0]) || Escaped(Step(st, ls[0]), ls[1..]))
  }

  /** An exception is on its way out of the coroutine, or the worker has it. */
  predicate Raising(p: Producer) {
    p.Fallback? || p == ClosingSource(true) || (p.Offering? && p.purpose == ForEnd(true))
  }

  /** What a step of the coroutine or its worker makes of an exception. */
  lemma StepRaises(st: State, l: Label)
    requires Enabled(st, l)
    ensures var p, p1 := st.producer, Step(st, l).producer;
      && (!p1.Finished? ==> (Raising(p1) <==> Raising(p) || Escapes(st, l)))
      && (p1.Finished? && !p.Finished? ==> (l == OnWorker(WorkerCheck) <==> Raising(p) || Escapes(st, l)))
      && (p.Finished? ==> p1.Finished? && !l.OnWorker?)
      && (l == OnWorker(WorkerCheck) ==> Raising(p))
  {
    match l
    case OnWorker(w) => WorkerRaises(st, w);
    case OnLoop(c) => LoopEffect(st, c);
    case OnConsumer(a) => ConsumerEffect(st, a);
    case OnCloser(c) => CloserEffect(st, c);
    hide WorkerStep, LoopStep, ConsumerStep, CloserStep, Raising;
  }

  lemma WorkerRaises(st: State, w: WorkerAction)
    requires WorkerEnabled(st, w)
    ensures var p, p1 := st.producer, WorkerStep(st, w).producer;
      && (!p1.Finished? ==> (Raising(p1) <==> Raising(p) || Escapes(st, OnWorker(w))))
      && (p1.Finished? ==> (w.WorkerCheck? <==> Raising(p) || Escapes(st, OnWorker(w))))
      && (w.WorkerCheck? ==> Raising(p))
  {
    hide Full;
    if st.producer.Pulling? || st.producer.ClosingSource? {
      SourceRaising(st, w);
      hide SourceStep;
    } else if w.Advance? {
      AdvanceRaising(st);
      hide AdvanceStep;
    } else {
      RestRaising(st, w);
      hide WorkerStep;
    }
  }

  lemma SourceRaising(st: State, w: WorkerAction)
    requires WorkerEnabled(st, w) && (st.producer.Pulling? || st.producer.ClosingSource?)
    ensures var p1 := SourceStep(st, w).producer;
      !p1.Finished? && (Raising(p1) <==> Raising(st.producer) || Escapes(st, OnWorker(w)))
  {
    match w
    case SourceYields(_) =>
    case SourceEnds =>
    case SourceRaises =>
    case SourceClosed =>
    case CloseRaises =>
    case Interrupted =>
    case _ =>
  }

  lemma AdvanceRaising(st: State)
    requires WorkerEnabled(st, Advance)
    ensures var p1 := AdvanceStep(st).producer;
      && (!p1.Finished? ==> (Raising(p1) <==> Raising(st.producer)))
      && (p1.Finished? ==> !Raising(st.producer))
  {
    match st.producer.point
    case CheckOpen =>
    case CheckSpace =>
    case Put =>
    case Clear =>
    case Recheck =>
  }

  lemma RestRaising(st: State, w: WorkerAction)
    requires WorkerEnabled(st, w) && !st.producer.Pulling? && !st.producer.ClosingSource? && !w.Advance?
    ensures var p, p1 := st.producer, WorkerStep(st, w).producer;
      && (!p1.Finished? ==> (Raising(p1) <==> Raising(p) || Escapes(st, OnWorker(w))))
      && (p1.Finished? ==> (w.WorkerCheck? <==> Raising(p) || Escapes(st, OnWorker(w))))
      && (w.WorkerCheck? ==> Raising(p))
  {
    match w
    case Register =>
    case SourceCreated =>
    case StartFails =>
    case FactoryFails =>
    case Wake =>
    case Interrupted =>
    case WorkerCheck =>
    case WorkerTry =>
    case _ =>
  }

  lemma {:induction false} RunRaises(st: State, ls: seq<Label>)
    requires IsRun(st, ls)
    ensures var p, p1, handled := st.producer, After(st, ls).producer, OnWorker(WorkerCheck) in ls;
      && (!p1.Finished? ==> (Raising(p1) <==> Raising(p) || Escaped(st, ls)))
      && (p1.Finished? && !p.Finished? ==> (handled <==> Raising(p) || Escaped(st, ls)))
      && (p.Finished? ==> p1.Finished? && !handled && !Escaped(st, ls))
      && (handled ==> Raising(p) || Escaped(st, ls))
    decreases |ls|
  {
    hide Step, Enabled, Raising;
    if |ls| > 0 {
      StepRaises(st, ls[0]);
      FinishedEscapesNothing(st, ls[0]);
      RunRaises(Step(st, ls[0]), ls[1..]);
      assert OnWorker(WorkerCheck) in ls <==> ls[0] == OnWorker(WorkerCheck) || OnWorker(WorkerCheck) in ls[1..];
    }
  }

  lemma FinishedEscapesNothing(st: State, l: Label)
    ensures !l.OnWorker? ==> !Escapes(st, l)
  {
  }

  /** Over all runs: the worker falls back on offering a failure of its own if and only if an exception left the
      coroutine, which one that the source raised while it was pulled never does. */
  lemma FallsBackIffEscaped(ls: seq<Label>)
    requires IsRun(START, ls)
    ensures After(START, ls).producer.Fallback? ==> Escaped(START, ls)
    ensures OnWorker(WorkerCheck) in ls ==> Escaped(START, ls)
    ensures !LoopOpen(After(START, ls).producer) && Escaped(START, ls) ==>
      After(START, ls).producer.Fallback? || OnWorker(WorkerCheck) in ls
  {
    RunRaises(START, ls);
  }

  // ---------------------------------------------------------------- each thing once

  function CountOf(ls: seq<Label>, l: Label): nat {
    if |ls| == 0 then 0 else (if ls[0] == l then 1 else 0) + CountOf(ls[1..], l)
  }

  function ByCloser(ls: seq<Label>): nat {
    if |ls| == 0 then 0 else (if ls[0].OnCloser? then 1 else 0) + ByCloser(ls[1..])
  }

  /** How many of its three actions the closer has behind it. */
  function CloseSteps(c: Closer): nat {
    match c
    case Idle => 0
    case Flagged => 1
    case Cancelling(_) => 2
    case Closed(_) => 3
  }

  /** Cancellations that may still reach the coroutine. */
  function Pending(st: State): nat {
    st.cancels + if st.closer.Closed? then 0 else 1
  }

  function Unheard(st: State): nat { if st.cancelled then 1 else 0 }

  lemma StepCancels(st: State, l: Label)
    requires Enabled(st, l)
    ensures var st1 := Step(st, l);
      && CloseSteps(st1.closer) == CloseSteps(st.closer) + (if l.OnCloser? then 1 else 0)
      && Pending(st1) + (if l == OnLoop(RunCancel) then 1 else 0) <= Pending(st)
      && Unheard(st1) + (if l == OnWorker(Interrupted) then 1 else 0)
           <= Unheard(st) + (if l == OnLoop(RunCancel) then 1 else 0)
  {
    hide CloseSteps;
    match l
    case OnWorker(w) => WorkerHears(st, w);
    case OnLoop(c) => LoopHears(st, c);
    case OnConsumer(a) => ConsumerHears(st, a);
    case OnCloser(c) => CloserHears(st, c);
    hide WorkerStep, LoopStep, ConsumerStep, CloserStep, Unheard;
  }

  lemma LoopHears(st: State, c: Callback)
    requires Enabled(st, OnLoop(c))
    ensures var st1, cancels := LoopStep(st, c), if c.RunCancel? then 1 else 0;
      st1.closer == st.closer && st1.cancels + cancels == st.cancels && Unheard(st1) <= Unheard(st) + cancels
  {
  }

  lemma ConsumerHears(st: State, a: ConsumerAction)
    requires Enabled(st, OnConsumer(a))
    ensures var st1 := ConsumerStep(st, a);
      st1.closer == st.closer && st1.cancels == st.cancels && Unheard(st1) == Unheard(st)
  {
    hide LoopOpen, Terminal;
  }

  lemma CloserHears(st: State, c: CloserAction)
    requires Enabled(st, OnCloser(c))
    ensures var st1 := CloserStep(st, c);
      && CloseSteps(st1.closer) == CloseSteps(st.closer) + 1
      && Pending(st1) <= Pending(st) && Unheard(st1) == Unheard(st)
  {
    hide LoopOpen;
  }

  lemma WorkerHears(st: State, w: WorkerAction)
    requires WorkerEnabled(st, w)
    ensures var st1 := WorkerStep(st, w);
      && st1.closer == st.closer && st1.cancels == st.cancels
      && Unheard(st1) + (if w.Interrupted? then 1 else 0) <= Unheard(st)
  {
    hide Full, Advanced, Cancelled, Returned;
    if st.producer.Pulling? || st.producer.ClosingSource? {
      SourceHears(st, w);
      hide SourceStep;
    } else if w.Advance? {
      AdvanceHears(st);
      hide AdvanceStep;
    } else {
      RestHears(st, w);
      hide WorkerStep;
    }
  }

  lemma SourceHears(st: State, w: WorkerAction)
    requires WorkerEnabled(st, w) && (st.producer.Pulling? || st.producer.ClosingSource?)
    ensures var st1 := SourceStep(st, w);
      && st1.closer == st.closer && st1.cancels == st.cancels && !st1.cancelled && (w.Interrupted? ==> st.cancelled)
  {
    hide Cancelled;
    match w
    case SourceYields(_) =>
    case SourceEnds =>
    case SourceRaises =>
    case SourceClosed =>
    case CloseRaises =>
    case Interrupted =>
    case _ =>
  }

  lemma AdvanceHears(st: State)
    requires WorkerEnabled(st, Advance)
    ensures var st1 := AdvanceStep(st);
      st1.closer == st.closer && st1.cancels == st.cancels && st1.cancelled == st.cancelled
  {
    hide Full, Advanced;
  }

  lemma RestHears(st: State, w: WorkerAction)
    requires WorkerEnabled(st, w) && !st.producer.Pulling? && !st.producer.ClosingSource? && !w.Advance?
    ensures var st1 := WorkerStep(st, w);
      && st1.closer == st.closer && st1.cancels == st.cancels
      && Unheard(st1) + (if w.Interrupted? then 1 else 0) <= Unheard(st)
  {
    hide Full, Cancelled;
    match w
    case Register =>
    case SourceCreated =>
    case StartFails =>
    case FactoryFails =>
    case Wake =>
    case Interrupted =>
    case WorkerCheck =>
    case WorkerTry =>
    case _ =>
  }

  lemma {:induction false} RunCancels(st: State, ls: seq<Label>)
    requires IsRun(st, ls)
    ensures CloseSteps(After(st, ls).closer) == CloseSteps(st.closer) + ByCloser(ls)
    ensures Pending(After(st, ls)) + CountOf(ls, OnLoop(RunCancel)) <= Pending(st)
    ensures Unheard(After(st, ls)) + CountOf(ls, OnWorker(Interrupted)) <= Unheard(st) + CountOf(ls, OnLoop(RunCancel))
    decreases |ls|
  {
    hide Step, Enabled, Pending, Unheard, CloseSteps;
    if |ls| > 0 {
      StepCancels(st, ls[0]);
      RunCancels(Step(st, ls[0]), ls[1..]);
    }
  }

  /** Over all runs the close is exactly its three actions, posts one cancellation at most, and the coroutine is
      interrupted at most as often as that reaches it. */
  lemma ClosesAndCancelsOnce(ls: seq<Label>)
    requires IsRun(START, ls)
    ensures ByCloser(ls) <= 3 && (ByCloser(ls) == 3 <==> After(START, ls).closer.Closed?)
    ensures CountOf(ls, OnWorker(Interrupted)) <= CountOf(ls, OnLoop(RunCancel)) <= 1
  {
    RunCancels(START, ls);
  }

  // ---------------------------------------------------------------- the consumer's round

  /** The four counts of a consumer's actions, by how far it is in its round. */
  ghost predicate InRound(consumer: Consumer, taken: int, read: int, posted: int, asked: int) {
    match consumer
    case Getting => taken == read == posted == asked
    case Popped => taken - 1 == read == posted == asked
    case Posting(_) => taken == read && read - 1 == posted == asked
    case Holding => taken == read == posted && posted - 1 == asked
    case Stopped => true
  }

  lemma StepGoesRound(st: State, l: Label, taken: int, read: int, posted: int, asked: int)
    requires Enabled(st, l) && InRound(st.consumer, taken, read, posted, asked)
    ensures InRound(Step(st, l).consumer, taken + CountOf([l], OnConsumer(Take)),
              read + CountOf([l], OnConsumer(ReadSignal)), posted + CountOf([l], OnConsumer(PostSignal)),
              asked + CountOf([l], OnConsumer(Demand)))
  {
    CountOne(l, OnConsumer(Take));
    CountOne(l, OnConsumer(ReadSignal));
    CountOne(l, OnConsumer(PostSignal));
    CountOne(l, OnConsumer(Demand));
    hide CountOf;
    match l
    case OnWorker(w) => StreamClosing.ConsumerIsLeft(st, w);
    case OnLoop(c) => LoopLeavesConsumer(st, c);
    case OnConsumer(a) => ActGoesRound(st, a, taken, read, posted, asked);
    case OnCloser(c) => CloserStopsConsumer(st, c);
    hide WorkerStep, LoopStep, ConsumerStep, CloserStep;
  }

  lemma CountOne(l: Label, l1: Label)
    ensures CountOf([l], l1) == if l == l1 then 1 else 0
  {
    assert [l][1..] == [];
  }

  lemma ActGoesRound(st: State, a: ConsumerAction, taken: int, read: int, posted: int, asked: int)
    requires Enabled(st, OnConsumer(a)) && InRound(st.consumer, taken, read, posted, asked)
    ensures InRound(ConsumerStep(st, a).consumer, taken + (if a.Take? then 1 else 0),
              read + (if a.ReadSignal? then 1 else 0), posted + (if a.PostSignal? then 1 else 0),
              asked + (if a.Demand? then 1 else 0))
  {
    hide LoopOpen, Terminal;
  }

  lemma LoopLeavesConsumer(st: State, c: Callback)
    requires Enabled(st, OnLoop(c))
    ensures LoopStep(st, c).consumer == st.consumer
  {
  }

  lemma CloserStopsConsumer(st: State, c: CloserAction)
    requires Enabled(st, OnCloser(c))
    ensures CloserStep(st, c).consumer == st.consumer || CloserStep(st, c).consumer.Stopped?
  {
    hide LoopOpen;
  }

  /** Until it stops the consumer takes an item, reads whether to signal, signals, and asks for the next, each exactly
      once a round. */
  lemma {:induction false} ConsumerGoesRound(st: State, ls: seq<Label>, taken: int, read: int, posted: int,
                                            asked: int)
    requires IsRun(st, ls) && InRound(st.consumer, taken, read, posted, asked)
    ensures InRound(After(st, ls).consumer, taken + CountOf(ls, OnConsumer(Take)),
              read + CountOf(ls, OnConsumer(ReadSignal)), posted + CountOf(ls, OnConsumer(PostSignal)),
              asked + CountOf(ls, OnConsumer(Demand)))
    decreases |ls|
  {
    hide Step, Enabled, InRound;
    if |ls| > 0 {
      StepGoesRound(st, ls[0], taken, read, posted, asked);
      assert [ls[0]][1..] == [];
      ConsumerGoesRound(Step(st, ls[0]), ls[1..], taken + CountOf([ls[0]], OnConsumer(Take)),
        read + CountOf([ls[0]], OnConsumer(ReadSignal)), posted + CountOf([ls[0]], OnConsumer(PostSignal)),
        asked + CountOf([ls[0]], OnConsumer(Demand)));
    }
  }

  // ---------------------------------------------------------------- behind a close

  /** Past its check of the close: the next put cannot be called back. */
  predicate AboutToPut(p: Producer) {
    (p.Offering? && (p.point.CheckSpace? || p.point.Put?)) || (p.Fallback? && p.trying)
  }

  /** Items ever put into the queue, and one that is about to be. */
  function Puts(st: State): nat {
    |st.taken| + |st.queue| + if AboutToPut(st.producer) then 1 else 0
  }

  lemma ClosedPuts(st: State, l: Label)
    requires Enabled(st, l) && st.closeRequested
    ensures Step(st, l).closeRequested && Puts(Step(st, l)) <= Puts(st)
  {
    match l
    case OnWorker(w) => WorkerPuts(st, w);
    case OnLoop(c) => LoopEffect(st, c);
    case OnConsumer(a) => ConsumerEffect(st, a);
    case OnCloser(c) => CloserEffect(st, c);
    hide WorkerStep, ConsumerStep, LoopStep, CloserStep, AboutToPut;
    HandedIsLong(st);
    HandedIsLong(Step(st, l));
  }

  lemma HandedIsLong(st: State)
    ensures |Handed(st)| == |st.taken| + |st.queue|
  {
  }

  lemma WorkerPuts(st: State, w: WorkerAction)
    requires WorkerEnabled(st, w) && st.closeRequested
    ensures WorkerStep(st, w).closeRequested && Puts(WorkerStep(st, w)) <= Puts(st)
  {
    if st.producer.Pulling? || st.producer.ClosingSource? {
      SourcePuts(st, w);
      hide SourceStep;
    } else if w.Advance? {
      AdvancePuts(st);
      hide AdvanceStep;
    } else {
      RestPuts(st, w);
      hide WorkerStep;
    }
  }

  lemma SourcePuts(st: State, w: WorkerAction)
    requires WorkerEnabled(st, w) && (st.producer.Pulling? || st.producer.ClosingSource?)
    ensures SourceStep(st, w).closeRequested == st.closeRequested && Puts(SourceStep(st, w)) <= Puts(st)
  {
    match w
    case SourceYields(_) =>
    case SourceEnds =>
    case SourceRaises =>
    case SourceClosed =>
    case CloseRaises =>
    case Interrupted =>
    case _ =>
  }

  lemma AdvancePuts(st: State)
    requires WorkerEnabled(st, Advance) && st.closeRequested
    ensures AdvanceStep(st).closeRequested && Puts(AdvanceStep(st)) <= Puts(st)
  {
    hide Full;
    match st.producer.point
    case CheckOpen =>
    case CheckSpace =>
    case Put =>
    case Clear =>
    case Recheck =>
  }

  lemma RestPuts(st: State, w: WorkerAction)
    requires WorkerEnabled(st, w) && !st.producer.Pulling? && !st.producer.ClosingSource? && !w.Advance?
    requires st.closeRequested
    ensures WorkerStep(st, w).closeRequested && Puts(WorkerStep(st, w)) <= Puts(st)
  {
    hide Full;
    match w
    case Register =>
    case SourceCreated =>
    case StartFails =>
    case FactoryFails =>
    case Wake =>
    case Interrupted =>
    case WorkerCheck =>
    case WorkerTry =>
    case _ =>
  }

  /** Once the close is requested, at most the one item whose check came before it is still put, by the coroutine and
      the worker together. */
  lemma {:induction false} OnePutBehindClose(st: State, ls: seq<Label>)
    requires IsRun(st, ls) && st.closeRequested
    ensures Puts(After(st, ls)) <= Puts(st) <= |st.taken| + |st.queue| + 1
    decreases |ls|
  {
    hide Step, Enabled, AboutToPut;
    if |ls| > 0 {
      ClosedPuts(st, ls[0]);
      OnePutBehindClose(Step(st, ls[0]), ls[1..]);
    }
  }

  lemma ClosedLoopStep(st: State, l: Label)
    requires Enabled(st, l) && !LoopOpen(st.producer)
    ensures var st1 := Step(st, l);
      !LoopOpen(st1.producer) && st1.wakeups == st.wakeups && st1.cancels == st.cancels
  {
    match l
    case OnLoop(_) =>
      assert false;
    case OnWorker(w) => FallbackLeavesLoop(st, w);
    case OnConsumer(a) => ConsumerLeavesLoop(st, a);
    case OnCloser(c) => CloserLeavesLoop(st, c);
    hide WorkerStep, ConsumerStep, CloserStep;
  }

  lemma ConsumerLeavesLoop(st: State, a: ConsumerAction)
    requires Enabled(st, OnConsumer(a)) && !LoopOpen(st.producer)
    ensures var st1 := ConsumerStep(st, a);
      st1.producer == st.producer && st1.wakeups == st.wakeups && st1.cancels == st.cancels
  {
    hide Terminal;
  }

  lemma CloserLeavesLoop(st: State, c: CloserAction)
    requires Enabled(st, OnCloser(c)) && !LoopOpen(st.producer)
    ensures var st1 := CloserStep(st, c);
      st1.producer == st.producer && st1.wakeups == st.wakeups && st1.cancels == st.cancels
  {
  }

  lemma FallbackLeavesLoop(st: State, w: WorkerAction)
    requires WorkerEnabled(st, w) && !LoopOpen(st.producer)
    ensures var st1 := WorkerStep(st, w);
      !LoopOpen(st1.producer) && st1.wakeups == st.wakeups && st1.cancels == st.cancels
  {
    hide Full, SourceStep, AdvanceStep, Cancelled;
    match w
    case WorkerCheck =>
    case WorkerTry =>
    case _ =>
  }

  /** Nothing is posted to a loop that is over, and nothing runs on it. */
  lemma {:induction false} ClosedLoopIsLeft(st: State, ls: seq<Label>)
    requires IsRun(st, ls) && !LoopOpen(st.producer)
    ensures var st1 := After(st, ls);
      !LoopOpen(st1.producer) && st1.wakeups == st.wakeups && st1.cancels == st.cancels
    decreases |ls|
  {
    hide Step, Enabled, LoopOpen;
    if |ls| > 0 {
      ClosedLoopStep(st, ls[0]);
      ClosedLoopIsLeft(Step(st, ls[0]), ls[1..]);
    }
  }
}
