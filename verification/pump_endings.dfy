/** How a pumped stream ends, what it refuses, and where its layers are cut, in terms of the source. */
module PumpEndings {
  import opened Options
  import opened LocalToolPump

  // ---------------------------------------------------------------- the marks at the end

  ghost predicate Unmarked(queue: seq<Item>) {
    forall k :: 0 <= k < |queue| ==> !queue[k].Error? && !queue[k].Last?
  }

  /** The marks are put once, behind everything, and the exception goes right before the last one. */
  ghost predicate Marked(p: Pump) {
    if !p.closed then Unmarked(p.queue)
    else if p.refused || p.raised then
      |p.queue| >= 2 && Unmarked(p.queue[..|p.queue| - 2]) && p.queue[|p.queue| - 2..] == [Error, Last]
    else |p.queue| >= 1 && Unmarked(p.queue[..|p.queue| - 1]) && p.queue[|p.queue| - 1] == Last
  }

  /** The pump is closed only once left, and what follows the source's end does not change how it ended. */
  ghost predicate Ending(p: Pump) {
    Marked(p) && (p.closed || p.refused || p.raised ==> p.ended)
  }

  lemma ClosingMarks(p: Pump)
    requires Ending(p) && p.ended && !p.closed
    ensures Ending(Closing(p))
  {
    var p1 := Closing(p);
    if p.refused || p.raised {
      assert p1.queue[..|p1.queue| - 2] == p.queue;
    } else {
      assert p1.queue[..|p1.queue| - 1] == p.queue;
    }
  }

  /** Everything else puts no mark, and happens before the pump is closed. */
  lemma OthersMarkNothing(p: Pump, source: seq<Event>, l: Label)
    requires Ending(p) && Enabled(p, source, l) && !p.closed && !l.Close?
    ensures Ending(Step(p, source, l))
  {
    hide LocalAt, AllReturned, AllPosted, Locals, Conflicts, Replayed, Seeing, IsLocal;
    match l
    case Next =>
    case SourceEnds(_) =>
    case ReportStarted(_) =>
    case ReportCompleted(_) =>
    case Return(_) =>
    case Submit(_) =>
    case Close =>
  }

  /** A closed pump stands still. */
  lemma ClosedHasNoStep(p: Pump, source: seq<Event>, l: Label)
    requires Sound(p, source) && p.closed
    ensures !Enabled(p, source, l)
  {
    ClosedHasDelivered(p, source);
    hide Partitioned, Scheduled, Remembered, Tasked, Surfacing, InOrder, LocalAt, AllReturned, Conflicts;
    if l.ReportStarted? || l.ReportCompleted? || l.Return? {
      assert !Enabled(p, source, ReportStarted(l.i)) && !Enabled(p, source, ReportCompleted(l.i));
      assert !Enabled(p, source, Return(l.i));
    }
  }

  lemma {:induction false} RunKeepsEnding(p: Pump, source: seq<Event>, ls: seq<Label>)
    requires Sound(p, source) && Ending(p) && IsRun(p, source, ls)
    ensures Ending(After(p, source, ls))
    decreases |ls|
  {
    hide Sound, Ending, Step;
    if |ls| > 0 {
      if p.closed {
        ClosedHasNoStep(p, source, ls[0]);
      }
      StepEnds(p, source, ls[0]);
      StepKeepsSound(p, source, ls[0]);
      hide Enabled;
      RunKeepsEnding(Step(p, source, ls[0]), source, ls[1..]);
    }
  }

  lemma StepEnds(p: Pump, source: seq<Event>, l: Label)
    requires Ending(p) && Enabled(p, source, l) && !p.closed
    ensures Ending(Step(p, source, l))
  {
    hide Ending;
    if l.Close? {
      ClosingMarks(p);
    } else {
      OthersMarkNothing(p, source, l);
    }
  }

  lemma ReachedEnding(source: seq<Event>, ls: seq<Label>)
    requires IsRun(IDLE, source, ls)
    ensures Ending(After(IDLE, source, ls))
  {
    assert Sound(IDLE, source);
    RunKeepsEnding(IDLE, source, ls);
  }

  lemma {:induction false} NoneCounted(queue: seq<Item>, item: Item)
    requires item !in queue
    ensures Count(queue, item) == 0
  {
    if |queue| > 0 {
      assert forall k :: 0 <= k < |queue| - 1 ==> queue[..|queue| - 1][k] == queue[k];
      NoneCounted(queue[..|queue| - 1], item);
    }
  }

  lemma MarkedCounts(p: Pump)
    requires Marked(p)
    ensures Count(p.queue, Error) == if p.closed && (p.refused || p.raised) then 1 else 0
    ensures Count(p.queue, Last) == if p.closed then 1 else 0
    ensures p.closed ==> |p.queue| > 0 && p.queue[|p.queue| - 1] == Last
    ensures p.closed && (p.refused || p.raised) ==> |p.queue| > 1 && p.queue[|p.queue| - 2] == Error
  {
    var n := |p.queue|;
    if !p.closed {
      NoneCounted(p.queue, Error);
      NoneCounted(p.queue, Last);
    } else if p.refused || p.raised {
      var front := p.queue[..n - 2];
      assert p.queue == front + [Error] + [Last];
      NoneCounted(front, Error);
      NoneCounted(front, Last);
      CountAppends(front, Error);
      CountAppends(front + [Error], Last);
    } else {
      var front := p.queue[..n - 1];
      assert p.queue == front + [Last];
      NoneCounted(front, Error);
      NoneCounted(front, Last);
      CountAppends(front, Last);
    }
    hide Count;
  }

  // ---------------------------------------------------------------- what ends a stream with an exception

  /** A local call comes again under its id with other content. */
  predicate ConflictAt(source: seq<Event>, j: nat) {
    && j < |source| && IsLocal(source[j])
    && exists i: nat ::
         i < j && IsLocal(source[i]) && source[i].call.value.id == source[j].call.value.id && source[i] != source[j]
  }

  predicate HasConflict(source: seq<Event>) {
    exists j: nat :: j < |source| && ConflictAt(source, j)
  }

  /** Up to where the loop has come no call conflicts with one before it. */
  ghost predicate PeaceTo(source: seq<Event>, pos: nat) {
    forall j: nat :: j < pos ==> !ConflictAt(source, j)
  }

  /** Every local call before is in the table as it came, if none conflicted. */
  lemma PeaceIsSeen(p: Pump, source: seq<Event>, i: nat)
    requires Scheduled(p.scheduled, p.pos, source) && Remembered(p.seen, p.scheduled, source)
    requires i < p.pos && IsLocal(source[i])
    ensures source[i].call.value.id in p.seen && p.seen[source[i].call.value.id] == source[i].call.value
  {
    if i !in p.scheduled {
      assert Repeats(p.scheduled, source, i);
      var j :| j in p.scheduled && j < i && source[j] == source[i];
    }
  }

  lemma ConflictsIff(p: Pump, source: seq<Event>)
    requires Scheduled(p.scheduled, p.pos, source) && Remembered(p.seen, p.scheduled, source) && p.pos < |source|
    ensures Conflicts(p, source[p.pos]) <==> ConflictAt(source, p.pos)
  {
    var e := source[p.pos];
    if ConflictAt(source, p.pos) {
      var i: nat :| i < p.pos && IsLocal(source[i]) && source[i].call.value.id == e.call.value.id && source[i] != e;
      PeaceIsSeen(p, source, i);
    }
    if Conflicts(p, e) {
      var call := p.seen[e.call.value.id];
      assert Stems(p.scheduled, source, call);
      var i :| i in p.scheduled && i < |source| && source[i] == Start(Some(call));
      var k :| 0 <= k < |p.scheduled| && p.scheduled[k] == i;
      assert i < p.pos;
    }
  }

  /** The loop stops at the first conflict and nowhere else before the end of the source. */
  ghost predicate Peaceful(p: Pump, source: seq<Event>) {
    PeaceTo(source, p.pos) && (p.refused <==> p.ended && p.pos < |source| && ConflictAt(source, p.pos))
  }

  lemma StepKeepsPeace(p: Pump, source: seq<Event>, l: Label)
    requires Sound(p, source) && Peaceful(p, source) && Enabled(p, source, l)
    ensures Peaceful(Step(p, source, l), source)
  {
    if l.Next? {
      ConflictsIff(p, source);
      TurnPeace(p, source);
    } else if l.SourceEnds? || l.Close? {
    } else {
      LeavesLoop(p, source, l);
    }
  }

  lemma LeavesLoop(p: Pump, source: seq<Event>, l: Label)
    requires Enabled(p, source, l) && !l.Next? && !l.SourceEnds? && !l.Close?
    ensures var p1 := Step(p, source, l);
      && p1.pos == p.pos && p1.refused == p.refused && p1.ended == p.ended
      && p1.batches == p.batches && p1.pending == p.pending && p1.scheduled == p.scheduled
  {
    hide LocalAt, AllReturned, AllPosted, Locals;
  }

  lemma TurnPeace(p: Pump, source: seq<Event>)
    requires Peaceful(p, source) && !p.ended && p.pos < |source|
    requires Conflicts(p, source[p.pos]) <==> ConflictAt(source, p.pos)
    ensures Peaceful(Turn(p, source[p.pos]), source)
  {
    hide Conflicts, Replayed, Seeing, ConflictAt;
    var p1 := Turn(p, source[p.pos]);
    assert p1.pos == p.pos || p1.pos == p.pos + 1;
    assert source[p.pos].Start? || !ConflictAt(source, p.pos) by {
      if ConflictAt(source, p.pos) { OnlyStartsConflict(source, p.pos); }
    }
  }

  lemma OnlyStartsConflict(source: seq<Event>, j: nat)
    requires ConflictAt(source, j)
    ensures source[j].Start?
  {
  }

  lemma {:induction false} RunKeepsPeace(p: Pump, source: seq<Event>, ls: seq<Label>)
    requires Sound(p, source) && Peaceful(p, source) && IsRun(p, source, ls)
    ensures Peaceful(After(p, source, ls), source)
    decreases |ls|
  {
    if |ls| > 0 {
      StepKeepsPeace(p, source, ls[0]);
      StepKeepsSound(p, source, ls[0]);
      hide Sound, Peaceful, Step, Enabled;
      RunKeepsPeace(Step(p, source, ls[0]), source, ls[1..]);
    }
  }

  /** A pump that has left the source has refused a call if and only if the source holds a conflict. */
  lemma RefusedIffConflict(source: seq<Event>, ls: seq<Label>)
    requires IsRun(IDLE, source, ls) && After(IDLE, source, ls).ended
    ensures After(IDLE, source, ls).refused <==> HasConflict(source)
  {
    ReachedSound(source, ls);
    assert Sound(IDLE, source);
    RunKeepsPeace(IDLE, source, ls);
    var p := After(IDLE, source, ls);
    hide IsRun, After, ConflictAt;
    if j: nat :| j < |source| && ConflictAt(source, j) {
      assert p.pos <= j;
    }
  }

  lemma StepRaises(p: Pump, source: seq<Event>, l: Label)
    requires Enabled(p, source, l) && Ending(p)
    ensures Step(p, source, l).raised == (p.raised || l == SourceEnds(true))
  {
    hide LocalAt, AllReturned, AllPosted, Locals, Conflicts, Replayed, Seeing, Marked;
  }

  /** The pump knows of an exception if and only if the source ended with one. */
  lemma {:induction false} RaisedIff(p: Pump, source: seq<Event>, ls: seq<Label>)
    requires Sound(p, source) && Ending(p) && IsRun(p, source, ls)
    ensures After(p, source, ls).raised <==> p.raised || SourceEnds(true) in ls
    decreases |ls|
  {
    if |ls| > 0 {
      FirstOf(p, source, ls);
      hide *;
      if p.closed {
        ClosedHasNoStep(p, source, ls[0]);
      }
      StepRaises(p, source, ls[0]);
      StepEnds(p, source, ls[0]);
      StepKeepsSound(p, source, ls[0]);
      RaisedIff(Step(p, source, ls[0]), source, ls[1..]);
      assert SourceEnds(true) in ls <==> ls[0] == SourceEnds(true) || SourceEnds(true) in ls[1..];
    } else {
      hide Sound, Ending, Enabled;
    }
  }

  lemma FirstOf(p: Pump, source: seq<Event>, ls: seq<Label>)
    requires IsRun(p, source, ls) && |ls| > 0
    ensures Enabled(p, source, ls[0]) && IsRun(Step(p, source, ls[0]), source, ls[1..])
    ensures After(p, source, ls) == After(Step(p, source, ls[0]), source, ls[1..])
  {
    hide Step, Enabled;
  }

  /** How a closed pump ended, given how the source did. */
  ghost predicate EndsAs(queue: seq<Item>, fails: bool) {
    && Count(queue, Error) == (if fails then 1 else 0) && Count(queue, Last) == 1
    && |queue| > 0 && queue[|queue| - 1] == Last
    && (fails ==> |queue| > 1 && queue[|queue| - 2] == Error)
  }

  /** How a stream ends: with one last mark, and with exactly one exception right before it if the source
      raised one or a local call came again with other content, and with none else. */
  lemma StreamEndsWithItsException(source: seq<Event>, ls: seq<Label>)
    requires IsRun(IDLE, source, ls) && After(IDLE, source, ls).closed
    ensures EndsAs(After(IDLE, source, ls).queue, SourceEnds(true) in ls || HasConflict(source))
  {
    assert Sound(IDLE, source) && Ending(IDLE);
    ReachedEnding(source, ls);
    hide IsRun, After, Count, Marked, HasConflict;
    RefusedIffConflict(source, ls);
    RaisedIff(IDLE, source, ls);
    MarkedCounts(After(IDLE, source, ls));
  }

  lemma ClosedEndsAs(source: seq<Event>, ls: seq<Label>, raises: bool)
    requires IsRun(IDLE, source, ls) && After(IDLE, source, ls).closed
    requires var p := After(IDLE, source, ls); p.raised == (raises && !p.refused)
    ensures EndsAs(After(IDLE, source, ls).queue, raises || HasConflict(source))
  {
    assert Sound(IDLE, source) && Ending(IDLE);
    ReachedEnding(source, ls);
    hide IsRun, After, Count, Marked, HasConflict;
    RefusedIffConflict(source, ls);
    MarkedCounts(After(IDLE, source, ls));
  }

  // ---------------------------------------------------------------- layers

  /** How many boundaries the source has before this position. */
  function Layer(source: seq<Event>, i: nat): nat
    requires i <= |source|
  {
    if i == 0 then 0 else Layer(source, i - 1) + if source[i - 1].Boundary? then 1 else 0
  }

  ghost predicate OfLayer(source: seq<Event>, part: seq<nat>, layer: nat) {
    forall a :: a in part ==> a < |source| && Layer(source, a) == layer
  }

  /** Each batch is of one layer, later ones of later layers, and what is pending of the one now open. */
  ghost predicate Layered(batches: seq<seq<nat>>, pending: seq<nat>, pos: nat, ended: bool, source: seq<Event>,
                          layers: seq<nat>) {
    && pos <= |source| && |layers| == |batches|
    && (forall k :: 0 <= k < |batches| ==> OfLayer(source, batches[k], layers[k]))
    && (forall k, l :: 0 <= k < l < |layers| ==> layers[k] < layers[l])
    && OfLayer(source, pending, Layer(source, pos))
    && (!ended ==> forall k :: 0 <= k < |layers| ==> layers[k] < Layer(source, pos))
  }

  ghost predicate LayeredPump(p: Pump, source: seq<Event>) {
    exists layers :: Layered(p.batches, p.pending, p.pos, p.ended, source, layers)
  }

  /** A flush closes the layer that is open. */
  lemma FlushLayers(p: Pump, source: seq<Event>, layers: seq<nat>)
    requires Layered(p.batches, p.pending, p.pos, false, source, layers)
    ensures LayeredPump(Flush(p).(ended := true), source)
    ensures p.pos < |source| && source[p.pos].Boundary? ==>
      forall p1: Pump :: p1.batches == Flush(p).batches && p1.pending == Flush(p).pending && p1.pos == p.pos + 1 ==>
        LayeredPump(p1, source)
  {
    hide OfLayer;
    var q := Flush(p);
    var more := if |p.pending| == 0 then layers else layers + [Layer(source, p.pos)];
    forall k | 0 <= k < |q.batches|
      ensures OfLayer(source, q.batches[k], more[k])
    {
    }
    NothingOfLayer(source, Layer(source, p.pos));
    assert |p.pending| == 0 ==> p.pending == [];
    assert Layered(q.batches, q.pending, p.pos, true, source, more);
    if p.pos < |source| && source[p.pos].Boundary? {
      NothingOfLayer(source, Layer(source, p.pos + 1));
      assert Layered(q.batches, q.pending, p.pos + 1, false, source, more);
      assert Layered(q.batches, q.pending, p.pos + 1, true, source, more);
    }
  }

  lemma NothingOfLayer(source: seq<Event>, layer: nat)
    ensures OfLayer(source, [], layer)
  {
  }

  lemma OneMorePending(source: seq<Event>, pending: seq<nat>, pos: nat)
    requires pos < |source| && OfLayer(source, pending, Layer(source, pos))
    ensures OfLayer(source, pending + [pos], Layer(source, pos))
  {
  }

  lemma TurnLayers(p: Pump, source: seq<Event>)
    requires LayeredPump(p, source) && !p.ended && p.pos < |source|
    ensures LayeredPump(Turn(p, source[p.pos]), source)
  {
    hide LayeredPump, Turn;
    TurnEffect(p, source[p.pos]);
    var p1 := Turn(p, source[p.pos]);
    if source[p.pos].Boundary? || p1.ended {
      ClosedLayer(p, p1, source);
    } else {
      SameLayerGoesOn(p, p1, source);
    }
  }

  /** What a turn does to position and layers. */
  lemma TurnEffect(p: Pump, e: Event)
    requires !p.ended
    ensures var p1 := Turn(p, e);
      && (p1.ended ==> e.Start? && p1.pos == p.pos) && (!p1.ended ==> p1.pos == p.pos + 1)
      && (if p1.ended || e.Boundary? then p1.batches == Flush(p).batches && p1.pending == Flush(p).pending
          else p1.batches == p.batches && (p1.pending == p.pending || p1.pending == p.pending + [p.pos]))
  {
    hide Conflicts, Replayed, Seeing;
  }

  lemma ClosedLayer(p: Pump, p1: Pump, source: seq<Event>)
    requires LayeredPump(p, source) && !p.ended && p.pos < |source|
    requires p1.batches == Flush(p).batches && p1.pending == Flush(p).pending
    requires if source[p.pos].Boundary? then p1.pos == p.pos + 1 else p1.pos == p.pos && p1.ended
    ensures LayeredPump(p1, source)
  {
    var layers :| Layered(p.batches, p.pending, p.pos, p.ended, source, layers);
    hide Layered, Flush;
    FlushLayers(p, source, layers);
    hide LayeredPump;
    if !source[p.pos].Boundary? {
      assert Flush(p).(ended := true).pos == p.pos by { FlushStays(p); }
      SameLayers(Flush(p).(ended := true), p1, source);
    }
  }

  lemma FlushStays(p: Pump)
    ensures Flush(p).pos == p.pos
  {
  }

  lemma SameLayerGoesOn(p: Pump, p1: Pump, source: seq<Event>)
    requires LayeredPump(p, source) && !p.ended && p.pos < |source| && !source[p.pos].Boundary?
    requires p1.batches == p.batches && p1.pos == p.pos + 1 && !p1.ended
    requires p1.pending == p.pending || p1.pending == p.pending + [p.pos]
    ensures LayeredPump(p1, source)
  {
    hide OfLayer;
    var layers :| Layered(p.batches, p.pending, p.pos, p.ended, source, layers);
    OneMorePending(source, p.pending, p.pos);
    assert Layered(p1.batches, p1.pending, p1.pos, p1.ended, source, layers);
  }

  lemma SameLayers(p: Pump, p1: Pump, source: seq<Event>)
    requires LayeredPump(p, source)
    requires p1.batches == p.batches && p1.pending == p.pending && p1.pos == p.pos && p1.ended == p.ended
    ensures LayeredPump(p1, source)
  {
    hide Layered;
  }

  lemma StepLayers(p: Pump, source: seq<Event>, l: Label)
    requires LayeredPump(p, source) && Enabled(p, source, l)
    ensures LayeredPump(Step(p, source, l), source)
  {
    hide LayeredPump, Turn;
    if l.Next? {
      TurnLayers(p, source);
    } else if l.SourceEnds? {
      EndLayers(p, source, l.raised);
    } else if l.Close? {
      SameLayers(p, Closing(p), source);
    } else {
      LeavesLoop(p, source, l);
      hide Step;
      SameLayers(p, Step(p, source, l), source);
    }
  }

  lemma EndLayers(p: Pump, source: seq<Event>, raises: bool)
    requires LayeredPump(p, source) && !p.ended
    ensures LayeredPump(Flush(p).(ended := true, raised := raises), source)
  {
    var layers :| Layered(p.batches, p.pending, p.pos, p.ended, source, layers);
    hide Layered, Flush;
    FlushLayers(p, source, layers);
    hide LayeredPump;
    SameLayers(Flush(p).(ended := true), Flush(p).(ended := true, raised := raises), source);
  }

  lemma {:induction false} RunLayers(p: Pump, source: seq<Event>, ls: seq<Label>)
    requires LayeredPump(p, source) && IsRun(p, source, ls)
    ensures LayeredPump(After(p, source, ls), source)
    decreases |ls|
  {
    hide LayeredPump, Step, Enabled;
    if |ls| > 0 {
      StepLayers(p, source, ls[0]);
      RunLayers(Step(p, source, ls[0]), source, ls[1..]);
    }
  }

  ghost predicate Together(batches: seq<seq<nat>>, a: nat, b: nat) {
    exists k :: 0 <= k < |batches| && a in batches[k] && b in batches[k]
  }

  /** Once the source is left, two calls are uploaded together if and only if the source has no boundary
      between them. */
  lemma LayersAreBatches(source: seq<Event>, ls: seq<Label>, a: nat, b: nat)
    requires IsRun(IDLE, source, ls) && After(IDLE, source, ls).ended
    requires a in After(IDLE, source, ls).scheduled && b in After(IDLE, source, ls).scheduled
    ensures a < |source| && b < |source|
    ensures Together(After(IDLE, source, ls).batches, a, b) <==> Layer(source, a) == Layer(source, b)
  {
    assert Layered([], [], 0, false, source, []);
    assert LayeredPump(IDLE, source);
    RunLayers(IDLE, source, ls);
    BatchesPartition(source, ls);
    var p := After(IDLE, source, ls);
    hide IsRun, After;
    BatchesAreLayers(p, source, a, b);
  }

  lemma BatchesAreLayers(p: Pump, source: seq<Event>, a: nat, b: nat)
    requires LayeredPump(p, source) && Concat(p.batches) == p.scheduled && a in p.scheduled && b in p.scheduled
    ensures a < |source| && b < |source|
    ensures Together(p.batches, a, b) <==> Layer(source, a) == Layer(source, b)
  {
    var layers :| Layered(p.batches, p.pending, p.pos, p.ended, source, layers);
    InSomeBatch(p.batches, a);
    InSomeBatch(p.batches, b);
    var k :| 0 <= k < |p.batches| && a in p.batches[k];
    var l :| 0 <= l < |p.batches| && b in p.batches[l];
    assert OfLayer(source, p.batches[k], layers[k]) && OfLayer(source, p.batches[l], layers[l]);
    if Together(p.batches, a, b) {
      var m :| 0 <= m < |p.batches| && a in p.batches[m] && b in p.batches[m];
      assert OfLayer(source, p.batches[m], layers[m]);
    }
    hide Layer;
    assert k < l ==> layers[k] < layers[l];
    assert l < k ==> layers[l] < layers[k];
  }
}
