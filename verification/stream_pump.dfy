/** The code of the pump, with the other coroutines acting wherever it awaits. */
module PumpObject {
  import opened Options
  import opened LocalToolPump
  import opened PumpEndings

  ghost predicate Reached(p: Pump, source: seq<Event>) {
    exists ls :: IsRun(IDLE, source, ls) && After(IDLE, source, ls) == p
  }

  lemma {:induction false} RunAppend(p: Pump, source: seq<Event>, ls: seq<Label>, l: Label)
    requires IsRun(p, source, ls) && Enabled(After(p, source, ls), source, l)
    ensures IsRun(p, source, ls + [l]) && After(p, source, ls + [l]) == Step(After(p, source, ls), source, l)
    decreases |ls|
  {
    hide Step, Enabled;
    if |ls| == 0 {
      assert ls + [l] == [l] && IsRun(Step(p, source, l), source, []);
    } else {
      RunAppend(Step(p, source, ls[0]), source, ls[1..], l);
      assert (ls + [l])[1..] == ls[1..] + [l];
    }
  }

  lemma ReachedStep(p: Pump, source: seq<Event>, l: Label)
    requires Reached(p, source) && Enabled(p, source, l)
    ensures Reached(Step(p, source, l), source)
  {
    hide Step, Enabled;
    var ls :| IsRun(IDLE, source, ls) && After(IDLE, source, ls) == p;
    RunAppend(IDLE, source, ls, l);
  }

  /** A step of task `i`. */
  predicate Of(l: Label, i: nat) {
    l == ReportStarted(i) || l == ReportCompleted(i) || l == Return(i)
  }

  /** Other coroutines leave the state of a task alone. */
  lemma OthersLeaveTask(p: Pump, source: seq<Event>, l: Label, i: nat)
    requires Reached(p, source) && Enabled(p, source, l) && !Of(l, i) && i in p.tasks
    ensures i in Step(p, source, l).tasks && Step(p, source, l).tasks[i] == p.tasks[i]
  {
    var ls :| IsRun(IDLE, source, ls) && After(IDLE, source, ls) == p;
    ReachedSound(source, ls);
    NoTaskYet(p, source);
    hide Step, Enabled, Sound, Tasked, Scheduled, Reached, IsRun, After;
    StepTasks(p, source, l);
  }

  /** A task and an upload leave the loop over the source alone. */
  predicate SameLoop(p: Pump, p1: Pump) {
    && p1.pos == p.pos && p1.seen == p.seen && p1.scheduled == p.scheduled && p1.pending == p.pending &&
         p1.batches == p.batches
    && p1.ended == p.ended && p1.refused == p.refused && p1.raised == p.raised && p1.closed == p.closed
  }

  predicate OfTasks(l: Label) {
    l.ReportStarted? || l.ReportCompleted? || l.Return? || l.Submit?
  }

  lemma TasksLeaveLoop(p: Pump, source: seq<Event>, l: Label)
    requires Enabled(p, source, l) && OfTasks(l)
    ensures SameLoop(p, Step(p, source, l))
  {
    hide LocalAt, AllReturned, AllPosted, Locals;
    match l
    case ReportStarted(_) =>
    case ReportCompleted(_) =>
    case Return(_) =>
    case Submit(_) =>
    case _ =>
  }

  /** What the consumer is handed by the end. */
  ghost predicate Delivered(p: Pump, source: seq<Event>) {
    && p.pos <= |source|
    && (forall i: nat ::
          && Count(p.queue, Source(i)) == (if i < p.pos && (!source[i].Start? || i in p.scheduled) then 1 else 0)
          && Count(p.queue, Completion(i)) == (if i in p.scheduled && LocalAt(source, i) then 1 else 0))
  }

  lemma ClosedIsDelivered(p: Pump, source: seq<Event>)
    requires Reached(p, source) && p.closed
    ensures Delivered(p, source)
  {
    var ls :| IsRun(IDLE, source, ls) && After(IDLE, source, ls) == p;
    ClosedPumpHasDelivered(source, ls);
    hide IsRun, After, NoTaskLeft;
    forall i: nat
      ensures p.pos <= |source|
      ensures Count(p.queue, Source(i)) == (if i < p.pos && (!source[i].Start? || i in p.scheduled) then 1 else 0)
      ensures Count(p.queue, Completion(i)) == (if i in p.scheduled && LocalAt(source, i) then 1 else 0)
    {
      EventsSurfaceOnce(source, ls, i);
    }
  }

  /** A returned task has shown its start once, and its completion if it has an outcome. */
  lemma ReturnedIsShown(p: Pump, source: seq<Event>, i: nat)
    requires Reached(p, source) && HasReturned(p.tasks, i)
    ensures Count(p.queue, Source(i)) == 1 && Count(p.queue, Completion(i)) == if LocalAt(source, i) then 1 else 0
  {
    var ls :| IsRun(IDLE, source, ls) && After(IDLE, source, ls) == p;
    ReachedSound(source, ls);
    hide IsRun, After, Partitioned, Scheduled, Remembered, Tasked, InOrder, Uploaded, Ends, Count, LocalAt;
  }

  lemma ReachedFits(p: Pump, source: seq<Event>)
    requires Reached(p, source)
    ensures p.pos <= |source| && (p.closed || p.raised || p.refused ==> p.ended)
  {
    var ls :| IsRun(IDLE, source, ls) && After(IDLE, source, ls) == p;
    ReachedSound(source, ls);
    ReachedEnding(source, ls);
    hide IsRun, After, Marked;
  }

  lemma ClosedEndsWith(p: Pump, source: seq<Event>, raises: bool)
    requires Reached(p, source) && p.closed && p.raised == (raises && !p.refused)
    ensures EndsAs(p.queue, raises || HasConflict(source))
  {
    var ls :| IsRun(IDLE, source, ls) && After(IDLE, source, ls) == p;
    ClosedEndsAs(source, ls, raises);
  }

  lemma TurnAdvances(p: Pump, source: seq<Event>)
    requires !p.ended && p.pos < |source|
    ensures var p1 := Turn(p, source[p.pos]);
      && p1 == Step(p, source, Next) && p1.closed == p.closed && p1.raised == p.raised
      && (if p1.ended then p1.refused && p1.pos == p.pos else p1.pos == p.pos + 1)
  {
    hide Turn;
    TurnMoves(p, source[p.pos]);
  }

  lemma TurnMoves(p: Pump, e: Event)
    requires !p.ended
    ensures var p1 := Turn(p, e);
      && p1.closed == p.closed && p1.raised == p.raised && (p1.ended ==> p1.refused)
      && p1.pos == if p1.ended then p.pos else p.pos + 1
  {
    hide Conflicts, Replayed, IsLocal, Seeing;
  }

  /** Whether a local call reaches its target, or is refused or fails before it. */
  datatype Path = ThroughTarget | BeforeTarget

  class StreamPump {
    const source: seq<Event>
    var position: nat
    var seenLocalCalls: map<string, Call>
    var pendingOutcomes: seq<nat>
    var pendingBatches: seq<seq<nat>>
    var eventQueue: seq<Item>
    /** Every start a task was created for, those tasks, and the batches uploaded. */
    var scheduled: seq<nat>
    var tasks: map<nat, Task>
    var posted: map<nat, seq<nat>>
    /** How the loop over the source was left, and whether the last mark is on the queue. */
    var ended: bool
    var refused: bool
    var raised: bool
    var closed: bool
    /** What the other coroutines are going to do. */
    var turns: seq<seq<Label>>

    function Snapshot(): Pump
      reads this
    {
      Pump(position, seenLocalCalls, scheduled, pendingOutcomes, pendingBatches, tasks, posted, ended, refused, raised,
        closed, eventQueue)
    }

    ghost predicate Valid()
      reads this
    {
      Reached(Snapshot(), source)
    }

    constructor (source: seq<Event>, turns: seq<seq<Label>>)
      ensures Valid() && Snapshot() == IDLE && this.source == source && this.turns == turns
    {
      this.source, this.turns := source, turns;
      position, seenLocalCalls, pendingOutcomes, pendingBatches, eventQueue := 0, map[], [], [], [];
      scheduled, tasks, posted := [], map[], map[];
      ended, refused, raised, closed := false, false, false, false;
      new;
      assert IsRun(IDLE, source, []) && After(IDLE, source, []) == IDLE;
    }

    // ---------------------------------------------------------------- the other coroutines

    /** One step of another coroutine. */
    method Act(l: Label)
      requires Valid() && Enabled(Snapshot(), source, l)
      modifies this
      ensures Valid() && Snapshot() == Step(old(Snapshot()), source, l) && turns == old(turns)
    {
      hide Step, Enabled, Reached;
      ReachedStep(Snapshot(), source, l);
      var p := Step(Snapshot(), source, l);
      SetLoop(p);
      SetTasks(p);
      SetEnd(p);
    }

    method SetLoop(p: Pump)
      modifies this`position, this`seenLocalCalls, this`pendingOutcomes, this`pendingBatches
      ensures position == p.pos && seenLocalCalls == p.seen && pendingOutcomes == p.pending
      ensures pendingBatches == p.batches
    {
      position, seenLocalCalls, pendingOutcomes, pendingBatches := p.pos, p.seen, p.pending, p.batches;
    }

    method SetTasks(p: Pump)
      modifies this`scheduled, this`tasks, this`posted, this`eventQueue
      ensures scheduled == p.scheduled && tasks == p.tasks && posted == p.posted && eventQueue == p.queue
    {
      scheduled, tasks, posted, eventQueue := p.scheduled, p.tasks, p.posted, p.queue;
    }

    method SetEnd(p: Pump)
      modifies this`ended, this`refused, this`raised, this`closed
      ensures ended == p.ended && refused == p.refused && raised == p.raised && closed == p.closed
    {
      ended, refused, raised, closed := p.ended, p.refused, p.raised, p.closed;
    }

    /** While the task of `i` awaits, all the others may go on. */
    method OthersAct(i: nat)
      requires Valid() && i in tasks
      modifies this
      ensures Valid() && i in tasks && tasks[i] == old(tasks[i])
    {
      hide Step, Enabled, Reached, Of;
      if |turns| == 0 { return; }
      var turn := turns[0];
      turns := turns[1..];
      for k := 0 to |turn|
        invariant Valid() && i in tasks && tasks[i] == old(tasks[i])
      {
        if !Of(turn[k], i) && Enabled(Snapshot(), source, turn[k]) {
          OthersLeaveTask(Snapshot(), source, turn[k], i);
          Act(turn[k]);
        }
      }
    }

    /** While the loop over the source awaits, tasks and uploads may go on. */
    method TasksAct()
      requires Valid()
      modifies this
      ensures Valid() && SameLoop(old(Snapshot()), Snapshot())
      ensures if |old(turns)| == 0 then turns == old(turns) && Snapshot() == old(Snapshot())
        else turns == old(turns)[1..]
    {
      hide Step, Enabled, Reached;
      if |turns| == 0 { return; }
      var turn := turns[0];
      turns := turns[1..];
      for k := 0 to |turn|
        invariant Valid() && SameLoop(old(Snapshot()), Snapshot()) && turns == old(turns)[1..]
      {
        if OfTasks(turn[k]) && Enabled(Snapshot(), source, turn[k]) {
          TasksLeaveLoop(Snapshot(), source, turn[k]);
          Act(turn[k]);
        }
      }
    }

    // ---------------------------------------------------------------- one task

    /** `report_started`. */
    method ReportStarted(i: nat)
      requires Valid() && Enabled(Snapshot(), source, Label.ReportStarted(i))
      modifies this`tasks, this`eventQueue
      ensures Valid() && tasks == old(tasks)[i := Task(true, Executing)] && eventQueue == old(eventQueue) + [Source(i)]
    {
      ReachedStep(Snapshot(), source, Label.ReportStarted(i));
      tasks := tasks[i := Task(true, Executing)];
      eventQueue := eventQueue + [Source(i)];
    }

    /** `report_completed`, given the task's own `started`. */
    method ReportCompleted(i: nat, started: bool)
      requires Valid() && Enabled(Snapshot(), source, Label.ReportCompleted(i)) && started == tasks[i].started
      modifies this`tasks, this`eventQueue
      ensures Valid() && tasks == old(tasks)[i := Task(started, Reported)]
    {
      ReachedStep(Snapshot(), source, Label.ReportCompleted(i));
      tasks := tasks[i := Task(started, Reported)];
      if !started {
        eventQueue := eventQueue + [Source(i)];
      }
    }

    /** The end of `execute_local_tool`. */
    method ReturnOutcome(i: nat, hasOutcome: bool)
      requires Valid() && Enabled(Snapshot(), source, Return(i)) && hasOutcome == LocalAt(source, i)
      modifies this`tasks, this`eventQueue
      ensures Valid() && HasReturned(tasks, i) && tasks[i].started == old(tasks[i].started)
    {
      ReachedStep(Snapshot(), source, Return(i));
      tasks := tasks[i := Task(tasks[i].started, Returned)];
      if !hasOutcome {
        eventQueue := eventQueue + [Source(i)];
        return;
      }
      eventQueue := eventQueue + [Completion(i)];
    }

    /** `execute_local_tool`: whichever way the call goes and whatever happens meanwhile, its start is on
        the queue exactly once when the task returns, and its completion if there is an outcome. */
    method ExecuteLocalTool(i: nat, path: Path)
      requires Valid() && i in tasks && tasks[i] == Task(false, Executing)
      modifies this
      ensures Valid() && HasReturned(tasks, i)
      ensures Count(eventQueue, Source(i)) == 1
      ensures Count(eventQueue, Completion(i)) == if LocalAt(source, i) then 1 else 0
      ensures LocalAt(source, i) ==> (tasks[i].started <==> path.ThroughTarget?)
    {
      hide Step, Reached, LocalAt, Count;
      var started := false;
      OthersAct(i);
      if LocalAt(source, i) {
        if path.ThroughTarget? {
          started := true;
          ReportStarted(i);
          OthersAct(i);
        }
        ReportCompleted(i, started);
        OthersAct(i);
        ReturnOutcome(i, true);
      } else {
        ReturnOutcome(i, false);
      }
      ReturnedIsShown(Snapshot(), source, i);
    }

    // ---------------------------------------------------------------- the loop over the source

    method FlushLayer()
      modifies this`pendingOutcomes, this`pendingBatches
      ensures Snapshot() == Flush(old(Snapshot()))
    {
      if |pendingOutcomes| == 0 {
        return;
      }
      pendingBatches := pendingBatches + [pendingOutcomes];
      pendingOutcomes := [];
    }

    /** `None` stands for the refusal of a conflicting call. */
    method IsReplayed(e: Event) returns (replayed: Option<bool>)
      modifies this`seenLocalCalls
      ensures replayed == if Conflicts(old(Snapshot()), e) then None else Some(Replayed(old(Snapshot()), e))
      ensures seenLocalCalls == if replayed == Some(false) then Seeing(old(seenLocalCalls), e) else old(seenLocalCalls)
    {
      if !e.Start? || e.call.None? || !e.call.value.local {
        return Some(false);
      }
      var call := e.call.value;
      if call.id in seenLocalCalls {
        if seenLocalCalls[call.id] != call {
          return None;
        }
        return Some(true);
      }
      seenLocalCalls := seenLocalCalls[call.id := call];
      return Some(false);
    }

    method CreateTask()
      modifies this`pendingOutcomes, this`scheduled, this`tasks
      ensures pendingOutcomes == old(pendingOutcomes) + [position] && scheduled == old(scheduled) + [position]
      ensures tasks == old(tasks)[position := Task(false, Executing)]
    {
      pendingOutcomes := pendingOutcomes + [position];
      scheduled := scheduled + [position];
      tasks := tasks[position := Task(false, Executing)];
    }

    /** A start becomes a task of the pending layer, unless it is a replay. */
    method ReceiveStart(e: Event)
      requires e.Start?
      modifies this`seenLocalCalls, this`pendingOutcomes, this`pendingBatches, this`scheduled, this`tasks
      modifies this`ended, this`refused, this`position
      ensures Snapshot() == Turn(old(Snapshot()), e) && turns == old(turns)
    {
      hide Conflicts, Replayed, IsLocal, Seeing, Flush;
      var replayed := IsReplayed(e);
      if replayed.None? {
        FlushLayer();
        ended, refused := true, true;
        return;
      }
      if !replayed.value {
        CreateTask();
      }
      position := position + 1;
    }

    /** One turn of the loop over the source. */
    method Receive(e: Event)
      modifies this`seenLocalCalls, this`pendingOutcomes, this`pendingBatches, this`scheduled, this`tasks
      modifies this`ended, this`refused, this`position, this`eventQueue
      ensures Snapshot() == Turn(old(Snapshot()), e) && turns == old(turns)
    {
      if e.Start? {
        ReceiveStart(e);
        return;
      }
      hide Conflicts, Replayed, IsLocal;
      if e.Boundary? {
        FlushLayer();
      }
      eventQueue := eventQueue + [Source(position)];
      position := position + 1;
    }

    /** The source ran out or raised: the last layer is flushed either way. */
    method LeaveSource(raises: bool)
      requires Valid() && !ended && position == |source|
      modifies this
      ensures Valid() && ended && closed == old(closed) && turns == old(turns)
      ensures raised == raises && refused == old(refused)
      ensures Snapshot() == Step(old(Snapshot()), source, SourceEnds(raises))
    {
      hide Reached, Of;
      ReachedStep(Snapshot(), source, SourceEnds(raises));
      FlushLayer();
      ended, raised := true, raises;
    }

    method PutLastMark()
      requires Valid() && Enabled(Snapshot(), source, Close)
      modifies this`eventQueue, this`closed
      ensures Valid() && closed
      ensures eventQueue == old(eventQueue) + if raised || refused then [Error, Last] else [Last]
    {
      ReachedStep(Snapshot(), source, Close);
      if refused || raised {
        eventQueue := eventQueue + [Error];
      }
      eventQueue := eventQueue + [Last];
      closed := true;
    }

    /** `produce_events`: the loop over the source, the last layer, the uploads, the exception if there was
        one, and the mark behind everything. Whatever the tasks do meanwhile, by that mark everything has
        been delivered, the exception right before it if the source raises or a call comes again with other
        content. `done` is false when no turn is left while an upload is awaited. */
    method ProduceEvents(raises: bool) returns (done: bool)
      requires Valid() && !ended
      modifies this
      ensures Valid()
      ensures done <==> closed
      ensures if done then Delivered(Snapshot(), source) else turns == []
      ensures done ==> EndsAs(eventQueue, raises || HasConflict(source))
    {
      hide Step, Reached, Turn, Delivered, AllPosted, EndsAs, HasConflict;
      ReachedFits(Snapshot(), source);
      while !ended && position < |source|
        invariant Valid() && position <= |source| && !closed && !raised && (ended ==> refused)
        decreases |source| - position, !ended
      {
        TasksAct();
        ReachedStep(Snapshot(), source, Next);
        TurnAdvances(Snapshot(), source);
        Receive(source[position]);
      }
      if !ended {
        ReachedFits(Snapshot(), source);
        LeaveSource(raises);
      }
      done := false;
      while !AllPosted(posted, |pendingBatches|)
        invariant Valid() && ended && !closed && raised == (raises && !refused)
        decreases |turns|
      {
        if |turns| == 0 { return; }
        TasksAct();
      }
      PutLastMark();
      ClosedIsDelivered(Snapshot(), source);
      ClosedEndsWith(Snapshot(), source, raises);
      done := true;
    }
  }
}
