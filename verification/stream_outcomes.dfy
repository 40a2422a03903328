/** How a bridged stream ends, told by what its source did and nothing else. */
module StreamOutcomes {
  import opened StreamBridge

  // ---------------------------------------------------------------- what was pulled

  /** The events the source has yielded. */
  function Yielded(ls: seq<Label>): seq<Event> {
    if |ls| == 0 then []
    else if ls[0].OnWorker? && ls[0].work.SourceYields? then [ls[0].work.event] + Yielded(ls[1..])
    else Yielded(ls[1..])
  }

  ghost predicate Happened(ls: seq<Label>, w: WorkerAction) {
    OnWorker(w) in ls
  }

  lemma StepPulls(st: State, l: Label)
    requires Enabled(st, l)
    ensures Step(st, l).pulled == st.pulled + Yielded([l])
    ensures Step(st, l).exhausted <==> st.exhausted || l == OnWorker(SourceEnds)
  {
    assert Yielded([l]) == if l.OnWorker? && l.work.SourceYields? then [l.work.event] else [] by {
      assert |[l][1..]| == 0;
    }
    match l
    case OnWorker(w) => WorkerPulls(st, w);
    case OnLoop(c) => LoopEffect(st, c);
    case OnConsumer(a) => ConsumerEffect(st, a);
    case OnCloser(c) => CloserEffect(st, c);
    hide WorkerStep, LoopStep, ConsumerStep, CloserStep, Yielded;
  }

  lemma WorkerPulls(st: State, w: WorkerAction)
    requires WorkerEnabled(st, w)
    ensures WorkerStep(st, w).pulled == st.pulled + if w.SourceYields? then [w.event] else []
    ensures WorkerStep(st, w).exhausted <==> st.exhausted || w.SourceEnds?
  {
    hide Returned, Cancelled, Advanced, Full;
    if st.producer.Pulling? || st.producer.ClosingSource? {
      SourcePulls(st, w);
      hide SourceStep;
    } else if w.Advance? {
      AdvanceLeaves(st);
      hide AdvanceStep;
    } else if !w.WorkerTry? {
      RestEffect(st, w);
      hide WorkerStep;
    }
  }

  lemma SourcePulls(st: State, w: WorkerAction)
    requires WorkerEnabled(st, w) && (st.producer.Pulling? || st.producer.ClosingSource?)
    ensures SourceStep(st, w).pulled == st.pulled + if w.SourceYields? then [w.event] else []
    ensures SourceStep(st, w).exhausted <==> st.exhausted || w.SourceEnds?
  {
    hide Cancelled;
    assert st.pulled + [] == st.pulled;
    match w
    case SourceYields(_) =>
    case SourceEnds =>
    case SourceRaises =>
    case SourceClosed =>
    case CloseRaises =>
    case Interrupted =>
    case _ =>
  }

  /** What counts as pulled is what the source yielded, in order, and exhausted is a source that said so. */
  lemma {:induction false} RunPulls(st: State, ls: seq<Label>)
    requires IsRun(st, ls)
    ensures After(st, ls).pulled == st.pulled + Yielded(ls)
    ensures After(st, ls).exhausted <==> st.exhausted || Happened(ls, SourceEnds)
    decreases |ls|
  {
    hide Step, Enabled;
    if |ls| > 0 {
      StepPulls(st, ls[0]);
      RunPulls(Step(st, ls[0]), ls[1..]);
      assert ls == [ls[0]] + ls[1..];
      assert (st.pulled + Yielded([ls[0]])) + Yielded(ls[1..]) == st.pulled + Yielded(ls);
    } else {
      assert st.pulled + Yielded(ls) == st.pulled;
    }
  }

  // ---------------------------------------------------------------- a source that breaks

  predicate Breaks(l: Label) {
    l.OnWorker? && (l.work.StartFails? || l.work.FactoryFails? || l.work.SourceRaises?)
  }

  /** A producer that is not going to pull again stays so. */
  lemma StepStaysLate(st: State, l: Label)
    requires Enabled(st, l) && (!Early(st.producer) || Breaks(l) || l == OnWorker(SourceEnds))
    ensures !Early(Step(st, l).producer)
    ensures !Early(st.producer) ==> !Breaks(l) && l != OnWorker(SourceEnds)
  {
    match l
    case OnWorker(w) => WorkerStaysLate(st, w);
    case OnLoop(c) => LoopEffect(st, c);
    case OnConsumer(a) => ConsumerEffect(st, a);
    case OnCloser(c) => CloserEffect(st, c);
    hide WorkerStep, LoopStep, ConsumerStep, CloserStep;
  }

  lemma WorkerStaysLate(st: State, w: WorkerAction)
    requires WorkerEnabled(st, w) && (!Early(st.producer) || Breaks(OnWorker(w)) || w.SourceEnds?)
    ensures !Early(WorkerStep(st, w).producer)
  {
    hide Advanced, Full;
    if st.producer.Pulling? || st.producer.ClosingSource? {
      SourceStaysLate(st, w);
      hide SourceStep;
    } else if w.Advance? {
      AdvanceEffect(st);
      hide AdvanceStep;
    } else if st.producer.Offering? {
      RestEffect(st, w);
      hide WorkerStep;
    } else {
      hide Cancelled;
    }
  }

  lemma SourceStaysLate(st: State, w: WorkerAction)
    requires WorkerEnabled(st, w) && (st.producer.ClosingSource? || (st.producer.Pulling? && !w.SourceYields?))
    ensures !Early(SourceStep(st, w).producer)
  {
  }

  lemma {:induction false} RunStaysLate(st: State, ls: seq<Label>)
    requires IsRun(st, ls) && !Early(st.producer)
    ensures After(st, ls).exhausted == st.exhausted
    decreases |ls|
  {
    hide Step, Enabled, Early, Breaks;
    if |ls| > 0 {
      StepPulls(st, ls[0]);
      StepStaysLate(st, ls[0]);
      RunStaysLate(Step(st, ls[0]), ls[1..]);
    }
  }

  /** A source that breaks has not ended, and will not. */
  lemma {:induction false} RunBreaks(st: State, ls: seq<Label>)
    requires IsRun(st, ls) && (st.exhausted ==> !Early(st.producer)) && exists l :: l in ls && Breaks(l)
    ensures !After(st, ls).exhausted
    decreases |ls|
  {
    hide Step, Enabled, Early, Breaks;
    StepPulls(st, ls[0]);
    if !Early(st.producer) || Breaks(ls[0]) || ls[0] == OnWorker(SourceEnds) {
      StepStaysLate(st, ls[0]);
    }
    if Breaks(ls[0]) {
      assert ls[0] != OnWorker(SourceEnds) by { NoSuchLabel(ls[0]); }
      RunStaysLate(Step(st, ls[0]), ls[1..]);
    } else {
      var l :| l in ls && Breaks(l);
      assert l in ls[1..];
      RunBreaks(Step(st, ls[0]), ls[1..]);
    }
  }

  lemma NoSuchLabel(l: Label)
    requires Breaks(l)
    ensures l != OnWorker(SourceEnds)
  {
  }

  /** The first item that ends the stream is a failure. */
  ghost predicate EndsInFailure(items: seq<Item>) {
    exists i :: 0 <= i < |items| && items[i].Failure? && AllNext(items[..i])
  }

  lemma {:induction false} FirstTerminal(items: seq<Item>)
    requires !AllNext(items)
    ensures EndsInFailure(items) || EndsPlainly(items)
    decreases |items|
  {
    var last := |items| - 1;
    if AllNext(items[..last]) {
      assert items[last].Failure? || items[last].End?;
    } else {
      FirstTerminal(items[..last]);
      if EndsInFailure(items[..last]) {
        var i :| 0 <= i < last && items[..last][i].Failure? && AllNext(items[..last][..i]);
        assert items[..last][..i] == items[..i] && items[i].Failure?;
      } else {
        var i :| 0 <= i < last && items[..last][i].End? && AllNext(items[..last][..i]);
        assert items[..last][..i] == items[..i] && items[i].End?;
      }
    }
  }

  // ---------------------------------------------------------------- a source that does not break

  /** Of a bridge that is open: a failure stands behind a plain end only, and none is about to stand elsewhere. */
  ghost predicate Intact(handed: seq<Item>, p: Producer) {
    && (Failure in handed || p.Fallback? ==> EndsPlainly(handed))
    && !(p.Offering? && p.purpose.ForError?)
  }

  ghost predicate OpenIntact(st: State) {
    !st.closeRequested ==> Intact(Handed(st), st.producer)
  }

  lemma StepKeepsIntact(st: State, l: Label)
    requires OpenIntact(st) && Inv(st) && Enabled(st, l) && !Breaks(l)
    ensures OpenIntact(Step(st, l))
  {
    match l
    case OnWorker(w) => WorkerKeepsIntact(st, w);
    case OnLoop(c) => LoopEffect(st, c);
    case OnConsumer(a) => ConsumerEffect(st, a);
    case OnCloser(c) => CloserEffect(st, c);
    hide WorkerStep, LoopStep, ConsumerStep, CloserStep, Intact, Inv;
  }

  lemma WorkerKeepsIntact(st: State, w: WorkerAction)
    requires OpenIntact(st) && Inv(st) && WorkerEnabled(st, w) && !Breaks(OnWorker(w))
    ensures OpenIntact(WorkerStep(st, w))
  {
    assert WellTyped(st.producer) && (st.cancelled ==> st.closeRequested);
    hide Inv, Ordered, Wired, Advanced, Full, Cancelled, EndsPlainly;
    if st.producer.Pulling? || st.producer.ClosingSource? {
      SourceKeepsIntact(st, w);
      hide SourceStep;
    } else if w.Advance? {
      AdvanceEffect(st);
      AdvanceHands(st);
      AdvanceLeaves(st);
      if st.producer.point.Put? && !st.closeRequested {
        PutKeepsIntact(Handed(st), st.producer);
      }
      hide AdvanceStep, Handed;
    } else if w.WorkerTry? {
      FallbackHands(st);
      hide FallbackTry, Handed;
    } else {
      RestEffect(st, w);
      if st.producer.Unstarted? || st.producer.Creating? {
      } else {
        hide WorkerStep;
      }
    }
  }

  lemma SourceKeepsIntact(st: State, w: WorkerAction)
    requires OpenIntact(st) && WorkerEnabled(st, w) && !w.SourceRaises? && (st.cancelled ==> st.closeRequested)
    requires st.producer.Pulling? || st.producer.ClosingSource?
    ensures OpenIntact(SourceStep(st, w))
  {
    SourceEffect(st, w);
    hide Cancelled, EndsPlainly;
  }

  lemma FallbackHands(st: State)
    requires WorkerEnabled(st, WorkerTry)
    ensures EndsPlainly(Handed(st)) ==> EndsPlainly(Handed(FallbackTry(st)))
    ensures !FallbackTry(st).producer.Offering? && FallbackTry(st).closeRequested == st.closeRequested
  {
    var item := Offered(st.producer.stage);
    EndsAppend(Handed(st), item);
    assert Handed(FallbackTry(st)) == if Full(st) then Handed(st) else Handed(st) + [item];
  }

  lemma PutKeepsIntact(handed: seq<Item>, p: Producer)
    requires Intact(handed, p) && p.Offering? && WellTyped(p)
    ensures Intact(handed + [p.item], Returned(p.purpose, true))
  {
    EndsAppend(handed, p.item);
    if !AllNext(handed) {
      FirstTerminal(handed);
    }
  }

  lemma {:induction false} RunKeepsIntact(st: State, ls: seq<Label>)
    requires OpenIntact(st) && Inv(st) && IsRun(st, ls) && (forall l :: l in ls ==> !Breaks(l))
    ensures OpenIntact(After(st, ls))
    decreases |ls|
  {
    hide Step, Enabled, OpenIntact, Inv, Breaks;
    if |ls| > 0 {
      StepKeepsInv(st, ls[0]);
      StepKeepsIntact(st, ls[0]);
      RunKeepsIntact(Step(st, ls[0]), ls[1..]);
    }
  }

  lemma EventsFirst(items: seq<Item>, i: nat, n: nat)
    requires i < n <= |items| && AllNext(items[..n])
    ensures items[i].Next?
  {
    assert items[..n][i] == items[i];
  }

  lemma OneFirst(items: seq<Item>, i: nat, j: nat)
    requires i < |items| && Terminal(items[i]) && AllNext(items[..i])
    requires j < |items| && Terminal(items[j]) && AllNext(items[..j])
    ensures i == j
  {
    if i < j {
      EventsFirst(items, i, j);
    } else if j < i {
      EventsFirst(items, j, i);
    }
  }

  lemma NotBoth(items: seq<Item>)
    ensures !(EndsPlainly(items) && EndsInFailure(items))
  {
    if EndsPlainly(items) && EndsInFailure(items) {
      var i :| 0 <= i < |items| && items[i].End? && AllNext(items[..i]);
      var j :| 0 <= j < |items| && items[j].Failure? && AllNext(items[..j]);
      OneFirst(items, i, j);
    }
  }

  /** An open bridge ends as its source did: when the producing side has finished and nobody has closed the bridge,
      all the source yielded has been handed over in order, and the first item that is no event is a failure if and
      only if the source raised, could not be created or was never started; else it is the plain end. */
  lemma StreamEndsAsTheSource(ls: seq<Label>)
    requires IsRun(START, ls) && After(START, ls).producer.Finished? && !After(START, ls).closeRequested
    ensures var handed := Handed(After(START, ls));
      && Events(handed) == Yielded(ls)
      && (EndsInFailure(handed) <==> exists l :: l in ls && Breaks(l))
      && (EndsPlainly(handed) <==> !exists l :: l in ls && Breaks(l))
  {
    var st := After(START, ls);
    StartIsFine();
    hide *;
    RunKeepsInv(START, ls);
    RunPulls(START, ls);
    FinishedHandsAll(st);
    assert START.pulled + Yielded(ls) == Yielded(ls);
    if exists l :: l in ls && Breaks(l) {
      RunBreaks(START, ls);
    } else {
      RunKeepsIntact(START, ls);
      IntactEndsPlainly(st);
    }
  }

  lemma StartIsFine()
    ensures Inv(START) && OpenIntact(START) && START.pulled == [] && !START.exhausted
  {
  }

  lemma FinishedHandsAll(st: State)
    requires Inv(st) && st.producer.Finished? && !st.closeRequested
    ensures var handed := Handed(st);
      && Events(handed) == st.pulled && (EndsPlainly(handed) ==> st.exhausted)
      && (EndsPlainly(handed) <==> !EndsInFailure(handed))
  {
    var handed := Handed(st);
    assert Events(handed) + [] == Events(handed);
    NotBoth(handed);
    FirstTerminal(handed);
    hide Wired, EndsPlainly, EndsInFailure, Handed;
  }

  lemma IntactEndsPlainly(st: State)
    requires OpenIntact(st) && !st.closeRequested
    ensures EndsInFailure(Handed(st)) ==> EndsPlainly(Handed(st))
  {
    if EndsInFailure(Handed(st)) {
      assert Failure in Handed(st);
    }
  }
}
