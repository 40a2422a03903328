/** The pump of one stream: source events are forwarded, local calls run once each, their outcomes
    go out in batches, and everything surfaces on one queue. */
module LocalToolPump {
  import opened Options

  /** `local` calls are SDK calls that are not deferred; only they are remembered. */
  datatype Call = Call(id: string, local: bool, body: int)

  /** A start may carry no call at all; a boundary closes a layer of starts. */
  datatype Event = Start(call: Option<Call>) | Boundary | Other

  /** What the consumer is handed: the event at an index of the source, a call's completion, the
      exception that stopped the source, and the mark behind everything else. */
  datatype Item = Source(index: nat) | Completion(start: nat) | Error | Last

  /** How far `execute_local_tool` has come: waiting for the runtime, told of an outcome, or gone. */
  datatype Stage = Executing | Reported | Returned

  datatype Task = Task(started: bool, stage: Stage)

  /** `posted` holds, by batch, the calls whose outcomes were uploaded with it. */
  datatype Pump = Pump(
    pos: nat,
    seen: map<string, Call>,
    scheduled: seq<nat>,
    pending: seq<nat>,
    batches: seq<seq<nat>>,
    tasks: map<nat, Task>,
    posted: map<nat, seq<nat>>,
    ended: bool,
    refused: bool,
    raised: bool,
    closed: bool,
    queue: seq<Item>)

  const IDLE := Pump(0, map[], [], [], [], map[], map[], false, false, false, false, [])

  predicate IsLocal(e: Event) {
    e.Start? && e.call.Some? && e.call.value.local
  }

  /** `is_replayed_local_call`, without the refusal. */
  predicate Replayed(p: Pump, e: Event) {
    IsLocal(e) && e.call.value.id in p.seen
  }

  predicate Conflicts(p: Pump, e: Event) {
    Replayed(p, e) && p.seen[e.call.value.id] != e.call.value
  }

  /** `flush_layer`. */
  function Flush(p: Pump): Pump {
    if |p.pending| == 0 then p else p.(batches := p.batches + [p.pending], pending := [])
  }

  /** A local call that is new is remembered. */
  function Seeing(seen: map<string, Call>, e: Event): map<string, Call> {
    if IsLocal(e) then seen[e.call.value.id := e.call.value] else seen
  }

  /** One turn of the loop over the source. */
  function Turn(p: Pump, e: Event): Pump {
    match e
    case Start(_) =>
      if Conflicts(p, e) then Flush(p).(ended := true, refused := true)
      else if Replayed(p, e) then p.(pos := p.pos + 1)
      else p.(pos := p.pos + 1, seen := Seeing(p.seen, e),
              scheduled := p.scheduled + [p.pos], pending := p.pending + [p.pos],
              tasks := p.tasks[p.pos := Task(false, Executing)])
    case Boundary => Flush(p).(pos := p.pos + 1, queue := p.queue + [Source(p.pos)])
    case Other => p.(pos := p.pos + 1, queue := p.queue + [Source(p.pos)])
  }

  /** The calls of a batch that have an outcome: a call that is not local has none. */
  function Locals(batch: seq<nat>, source: seq<Event>): seq<nat> {
    if |batch| == 0 then []
    else Locals(batch[..|batch| - 1], source) + if LocalAt(source, batch[|batch| - 1]) then [batch[|batch| - 1]] else []
  }

  predicate LocalAt(source: seq<Event>, i: nat) {
    i < |source| && IsLocal(source[i])
  }

  /** A turn over the source, its end, a callback or the return of one task, the upload of one batch,
      and the end of the pump. The runtime reports on a task only before that task has an outcome, and
      only for a local call. */
  datatype Label = Next | SourceEnds(raised: bool) | ReportStarted(i: nat) | ReportCompleted(i: nat) | Return(i: nat)
    | Submit(k: nat) | Close

  predicate Executes(tasks: map<nat, Task>, i: nat) {
    i in tasks && tasks[i].stage.Executing?
  }

  predicate HasReturned(tasks: map<nat, Task>, i: nat) {
    i in tasks && tasks[i].stage.Returned?
  }

  predicate AllReturned(tasks: map<nat, Task>, batch: seq<nat>) {
    forall j :: 0 <= j < |batch| ==> HasReturned(tasks, batch[j])
  }

  predicate AllPosted(posted: map<nat, seq<nat>>, n: nat) {
    forall k: nat :: k < n ==> k in posted
  }

  predicate Enabled(p: Pump, source: seq<Event>, l: Label) {
    match l
    case Next => !p.ended && p.pos < |source|
    case SourceEnds(_) => !p.ended && p.pos == |source|
    case ReportStarted(i) => LocalAt(source, i) && Executes(p.tasks, i) && !p.tasks[i].started
    case ReportCompleted(i) => LocalAt(source, i) && Executes(p.tasks, i)
    case Return(i) => if LocalAt(source, i) then i in p.tasks && p.tasks[i].stage.Reported? else Executes(p.tasks, i)
    case Submit(k) => k < |p.batches| && k !in p.posted && AllReturned(p.tasks, p.batches[k])
    case Close => p.ended && !p.closed && AllPosted(p.posted, |p.batches|)
  }

  /** `report_started`. */
  function Started(p: Pump, i: nat): Pump
    requires i in p.tasks
  {
    p.(tasks := p.tasks[i := p.tasks[i].(started := true)], queue := p.queue + [Source(i)])
  }

  /** `report_completed`: a call that never started shows its start now. */
  function Completed(p: Pump, i: nat): Pump
    requires i in p.tasks
  {
    p.(tasks := p.tasks[i := p.tasks[i].(stage := Reported)],
       queue := if p.tasks[i].started then p.queue else p.queue + [Source(i)])
  }

  /** The end of `execute_local_tool`: without an outcome it shows the start itself. */
  function Returns(p: Pump, i: nat, hasOutcome: bool): Pump
    requires i in p.tasks
  {
    p.(tasks := p.tasks[i := p.tasks[i].(stage := Returned)],
       queue := p.queue + [if hasOutcome then Completion(i) else Source(i)])
  }

  function Closing(p: Pump): Pump {
    p.(closed := true, queue := p.queue + (if p.refused || p.raised then [Error, Last] else [Last]))
  }

  function Step(p: Pump, source: seq<Event>, l: Label): Pump
    requires Enabled(p, source, l)
  {
    match l
    case Next => Turn(p, source[p.pos])
    case SourceEnds(raised) => Flush(p).(ended := true, raised := raised)
    case ReportStarted(i) => Started(p, i)
    case ReportCompleted(i) => Completed(p, i)
    case Return(i) => Returns(p, i, LocalAt(source, i))
    case Submit(k) => p.(posted := p.posted[k := Locals(p.batches[k], source)])
    case Close => Closing(p)
  }

  ghost predicate IsRun(p: Pump, source: seq<Event>, ls: seq<Label>)
    decreases |ls|
  {
    |ls| == 0 || (Enabled(p, source, ls[0]) && IsRun(Step(p, source, ls[0]), source, ls[1..]))
  }

  ghost function After(p: Pump, source: seq<Event>, ls: seq<Label>): Pump
    requires IsRun(p, source, ls)
    decreases |ls|
  {
    if |ls| == 0 then p else After(Step(p, source, ls[0]), source, ls[1..])
  }

  // ---------------------------------------------------------------- what every step keeps

  function Concat(batches: seq<seq<nat>>): seq<nat> {
    if |batches| == 0 then [] else Concat(batches[..|batches| - 1]) + batches[|batches| - 1]
  }

  /** Every scheduled call is in exactly one batch or still pending, in the order of scheduling. */
  ghost predicate Partitioned(batches: seq<seq<nat>>, pending: seq<nat>, scheduled: seq<nat>) {
    Concat(batches) + pending == scheduled && forall k :: 0 <= k < |batches| ==> |batches[k]| > 0
  }

  /** Scheduled starts are in source order; a start left out repeats a local call scheduled before it. */
  ghost predicate Scheduled(scheduled: seq<nat>, pos: nat, source: seq<Event>) {
    && pos <= |source|
    && (forall k :: 0 <= k < |scheduled| ==> scheduled[k] < pos && source[scheduled[k]].Start?)
    && (forall k, l :: 0 <= k < l < |scheduled| ==> scheduled[k] < scheduled[l])
    && (forall i :: 0 <= i < pos && source[i].Start? && i !in scheduled ==> Repeats(scheduled, source, i))
  }

  ghost predicate Repeats(scheduled: seq<nat>, source: seq<Event>, i: nat)
    requires i < |source|
  {
    IsLocal(source[i]) && exists j :: j in scheduled && j < i && source[j] == source[i]
  }

  ghost predicate Stems(scheduled: seq<nat>, source: seq<Event>, call: Call) {
    exists i :: i in scheduled && i < |source| && source[i] == Start(Some(call))
  }

  predicate SameId(a: Event, b: Event) {
    IsLocal(a) && IsLocal(b) && a.call.value.id == b.call.value.id
  }

  /** The table of seen calls is exactly the scheduled local calls, one per id. */
  ghost predicate Remembered(seen: map<string, Call>, scheduled: seq<nat>, source: seq<Event>) {
    && (forall i :: i in scheduled ==> i < |source|)
    && (forall i :: i in scheduled && IsLocal(source[i]) ==>
          source[i].call.value.id in seen && seen[source[i].call.value.id] == source[i].call.value)
    && (forall id :: id in seen ==> seen[id].id == id && seen[id].local && Stems(scheduled, source, seen[id]))
    && (forall i, j :: i in scheduled && j in scheduled && SameId(source[i], source[j]) ==> i == j)
  }

  function Count(queue: seq<Item>, item: Item): nat {
    if |queue| == 0 then 0 else Count(queue[..|queue| - 1], item) + if queue[|queue| - 1] == item then 1 else 0
  }

  /** The task has put its start on the queue. */
  predicate Shown(tasks: map<nat, Task>, i: nat) {
    i in tasks && (tasks[i].started || !tasks[i].stage.Executing?)
  }

  /** How often each event and each completion has surfaced. */
  ghost predicate Surfacing(queue: seq<Item>, pos: nat, tasks: map<nat, Task>, source: seq<Event>) {
    && pos <= |source|
    && (forall i: nat :: Count(queue, Source(i)) == if (i < pos && !source[i].Start?) || Shown(tasks, i) then 1 else 0)
    && (forall i: nat :: Count(queue, Completion(i)) == if HasReturned(tasks, i) && LocalAt(source, i) then 1 else 0)
  }

  /** One task per scheduled start; only a local call's task hears from the runtime. */
  ghost predicate Tasked(tasks: map<nat, Task>, scheduled: seq<nat>, source: seq<Event>) {
    && (forall i: nat :: i in tasks <==> i in scheduled)
    && (forall i: nat :: i in tasks && !LocalAt(source, i) ==> !tasks[i].started && !tasks[i].stage.Reported?)
  }

  /** An uploaded batch is complete. */
  ghost predicate Uploaded(posted: map<nat, seq<nat>>, batches: seq<seq<nat>>, tasks: map<nat, Task>,
                           source: seq<Event>) {
    forall k: nat ::
      k in posted ==> k < |batches| && posted[k] == Locals(batches[k], source) && AllReturned(tasks, batches[k])
  }

  ghost predicate Ends(p: Pump, source: seq<Event>) {
    && (p.ended ==> |p.pending| == 0 && (p.refused || p.pos == |source|))
    && (p.refused ==> p.ended && p.pos < |source| && Conflicts(p, source[p.pos]))
    && (p.closed ==> p.ended && AllPosted(p.posted, |p.batches|) && |p.queue| > 0 && p.queue[|p.queue| - 1] == Last)
  }

  function Forwarded(queue: seq<Item>, source: seq<Event>): seq<nat> {
    if |queue| == 0 then []
    else
      var last := queue[|queue| - 1];
      Forwarded(queue[..|queue| - 1], source) +
        if last.Source? && last.index < |source| && !source[last.index].Start? then [last.index] else []
  }

  function NonStarts(source: seq<Event>, pos: nat): seq<nat>
    requires pos <= |source|
  {
    if pos == 0 then [] else NonStarts(source, pos - 1) + if source[pos - 1].Start? then [] else [pos - 1]
  }

  /** Everything but starts is forwarded in source order. */
  ghost predicate InOrder(queue: seq<Item>, pos: nat, source: seq<Event>) {
    pos <= |source| && Forwarded(queue, source) == NonStarts(source, pos)
  }

  ghost predicate Sound(p: Pump, source: seq<Event>) {
    && Partitioned(p.batches, p.pending, p.scheduled) && Scheduled(p.scheduled, p.pos, source)
    && Remembered(p.seen, p.scheduled, source) && Tasked(p.tasks, p.scheduled, source)
    && Surfacing(p.queue, p.pos, p.tasks, source) && InOrder(p.queue, p.pos, source)
    && Uploaded(p.posted, p.batches, p.tasks, source) && Ends(p, source)
  }

  lemma CountAppends(queue: seq<Item>, item: Item)
    ensures forall other :: Count(queue + [item], other) == Count(queue, other) + if item == other then 1 else 0
  {
    assert (queue + [item])[..|queue|] == queue;
  }

  lemma ForwardedAppends(queue: seq<Item>, item: Item, source: seq<Event>)
    ensures Forwarded(queue + [item], source)
         == Forwarded(queue, source) +
           if item.Source? && item.index < |source| && !source[item.index].Start? then [item.index] else []
  {
    assert (queue + [item])[..|queue|] == queue;
  }

  lemma FlushKeeps(p: Pump)
    requires Partitioned(p.batches, p.pending, p.scheduled)
    ensures Partitioned(Flush(p).batches, Flush(p).pending, p.scheduled)
  {
    if |p.pending| > 0 {
      ConcatAppends(p.batches, p.pending);
      hide Concat;
      assert Concat(p.batches + [p.pending]) + [] == Concat(p.batches + [p.pending]);
    }
  }

  lemma ConcatAppends(batches: seq<seq<nat>>, batch: seq<nat>)
    ensures Concat(batches + [batch]) == Concat(batches) + batch
  {
    assert (batches + [batch])[..|batches|] == batches;
  }

  /** A flush leaves everything but batches and pending calls alone. */
  lemma FlushedSound(p: Pump, source: seq<Event>)
    requires Sound(p, source) && !p.ended
    ensures Sound(Flush(p), source) && |Flush(p).pending| == 0 && !Flush(p).ended
  {
    FlushKeeps(p);
    FlushUploaded(p, source);
    hide Partitioned, Scheduled, Remembered, Tasked, Surfacing, InOrder, Uploaded, Conflicts, AllPosted;
  }

  lemma FlushUploaded(p: Pump, source: seq<Event>)
    requires Uploaded(p.posted, p.batches, p.tasks, source)
    ensures Uploaded(p.posted, Flush(p).batches, p.tasks, source)
  {
    hide AllReturned, Locals;
  }

  lemma EndKeeps(p: Pump, source: seq<Event>, raised: bool)
    requires Sound(p, source) && !p.ended && p.pos == |source|
    ensures Sound(Flush(p).(ended := true, raised := raised), source)
  {
    FlushedSound(p, source);
    hide Partitioned, Scheduled, Remembered, Tasked, Surfacing, InOrder, Uploaded, Conflicts;
  }

  lemma RefusalKeeps(p: Pump, source: seq<Event>)
    requires Sound(p, source) && !p.ended && p.pos < |source| && Conflicts(p, source[p.pos])
    ensures Sound(Flush(p).(ended := true, refused := true), source)
  {
    FlushedSound(p, source);
    hide Partitioned, Scheduled, Remembered, Tasked, Surfacing, InOrder, Uploaded;
  }

  lemma ForwardKeeps(p: Pump, source: seq<Event>)
    requires Sound(p, source) && !p.ended && p.pos < |source| && !source[p.pos].Start?
    ensures Sound(p.(pos := p.pos + 1, queue := p.queue + [Source(p.pos)]), source)
  {
    ForwardSurfaces(p.queue, p.scheduled, p.pos, p.tasks, source);
    ForwardedAppends(p.queue, Source(p.pos), source);
    ForwardScheduled(p.scheduled, p.pos, source);
    hide Partitioned, Scheduled, Remembered, Tasked, Surfacing, Forwarded, Uploaded;
  }

  lemma ForwardScheduled(scheduled: seq<nat>, pos: nat, source: seq<Event>)
    requires Scheduled(scheduled, pos, source) && pos < |source| && !source[pos].Start?
    ensures Scheduled(scheduled, pos + 1, source)
  {
    hide Repeats;
  }

  lemma ForwardSurfaces(queue: seq<Item>, scheduled: seq<nat>, pos: nat, tasks: map<nat, Task>, source: seq<Event>)
    requires Surfacing(queue, pos, tasks, source) && Tasked(tasks, scheduled, source)
    requires Scheduled(scheduled, pos, source) && pos < |source| && !source[pos].Start?
    ensures Surfacing(queue + [Source(pos)], pos + 1, tasks, source)
  {
    assert pos !in tasks;
    CountAppends(queue, Source(pos));
    hide Count, Repeats, LocalAt;
  }

  /** A start that is not forwarded changes nothing that has surfaced. */
  lemma StartSurfaces(queue: seq<Item>, pos: nat, tasks: map<nat, Task>, source: seq<Event>)
    requires Surfacing(queue, pos, tasks, source) && pos < |source| && source[pos].Start?
    ensures Surfacing(queue, pos + 1, tasks, source)
  {
    hide Count, LocalAt;
  }

  lemma SuppressKeeps(p: Pump, source: seq<Event>)
    requires Sound(p, source) && !p.ended && p.pos < |source| && Replayed(p, source[p.pos])
    requires !Conflicts(p, source[p.pos])
    ensures Sound(p.(pos := p.pos + 1), source)
  {
    hide Partitioned, Scheduled, Remembered, Tasked, Surfacing, Forwarded, Conflicts, Repeats, Uploaded;
    assert source[p.pos].Start?;
    RepeatShows(p, source);
    StartSurfaces(p.queue, p.pos, p.tasks, source);
    SuppressScheduled(p.scheduled, p.pos, source);
  }

  lemma RepeatShows(p: Pump, source: seq<Event>)
    requires Remembered(p.seen, p.scheduled, source) && Scheduled(p.scheduled, p.pos, source) && p.pos < |source|
    requires Replayed(p, source[p.pos]) && !Conflicts(p, source[p.pos])
    ensures Repeats(p.scheduled, source, p.pos)
  {
    var call := source[p.pos].call.value;
    assert Stems(p.scheduled, source, p.seen[call.id]);
    var i :| i in p.scheduled && i < |source| && source[i] == Start(Some(p.seen[call.id]));
  }

  lemma SuppressScheduled(scheduled: seq<nat>, pos: nat, source: seq<Event>)
    requires Scheduled(scheduled, pos, source) && pos < |source| && Repeats(scheduled, source, pos)
    ensures Scheduled(scheduled, pos + 1, source)
  {
    hide Repeats;
  }

  lemma ScheduleKeeps(p: Pump, source: seq<Event>)
    requires Sound(p, source) && !p.ended && p.pos < |source| && source[p.pos].Start? && !Replayed(p, source[p.pos])
    ensures Sound(Turn(p, source[p.pos]), source)
  {
    hide Partitioned, Scheduled, Remembered, Tasked, Surfacing, Forwarded, Uploaded;
    StartSurfaces(p.queue, p.pos, p.tasks, source);
    NewTask(p.queue, p.pos + 1, p.tasks, p.scheduled, p.pos, source);
    NewTaskUploads(p.posted, p.batches, p.tasks, p.pos, p.scheduled, source);
    ScheduledNext(p.scheduled, p.pos, source);
    ScheduledRemembered(p.seen, p.scheduled, p.pos, source);
    SchedulePartitions(p.batches, p.pending, p.scheduled, p.pos);
  }

  lemma NewTask(queue: seq<Item>, pos: nat, tasks: map<nat, Task>, scheduled: seq<nat>, i: nat, source: seq<Event>)
    requires Surfacing(queue, pos, tasks, source) && Tasked(tasks, scheduled, source) && Scheduled(scheduled, i, source)
    ensures Surfacing(queue, pos, tasks[i := Task(false, Executing)], source)
    ensures Tasked(tasks[i := Task(false, Executing)], scheduled + [i], source)
  {
    assert i !in tasks;
    hide Count, LocalAt, Repeats;
  }

  lemma NewTaskUploads(posted: map<nat, seq<nat>>, batches: seq<seq<nat>>, tasks: map<nat, Task>, i: nat,
                       scheduled: seq<nat>, source: seq<Event>)
    requires Uploaded(posted, batches, tasks, source) && Tasked(tasks, scheduled, source)
    requires Scheduled(scheduled, i, source)
    ensures Uploaded(posted, batches, tasks[i := Task(false, Executing)], source)
  {
    assert i !in tasks;
    hide Locals, Repeats, LocalAt;
  }

  lemma SchedulePartitions(batches: seq<seq<nat>>, pending: seq<nat>, scheduled: seq<nat>, pos: nat)
    requires Partitioned(batches, pending, scheduled)
    ensures Partitioned(batches, pending + [pos], scheduled + [pos])
  {
    assert Concat(batches) + (pending + [pos]) == (Concat(batches) + pending) + [pos];
  }

  lemma ScheduledNext(scheduled: seq<nat>, pos: nat, source: seq<Event>)
    requires Scheduled(scheduled, pos, source) && pos < |source| && source[pos].Start?
    ensures Scheduled(scheduled + [pos], pos + 1, source)
  {
    var longer := scheduled + [pos];
    assert forall i :: i in longer <==> i in scheduled || i == pos;
    forall i | 0 <= i < pos + 1 && source[i].Start? && i !in longer
      ensures Repeats(longer, source, i)
    {
      assert Repeats(scheduled, source, i);
    }
  }

  lemma ScheduledRemembered(seen: map<string, Call>, scheduled: seq<nat>, pos: nat, source: seq<Event>)
    requires Scheduled(scheduled, pos, source) && Remembered(seen, scheduled, source) && pos < |source|
    requires source[pos].Start?
    requires IsLocal(source[pos]) ==> source[pos].call.value.id !in seen
    ensures Remembered(if IsLocal(source[pos]) then seen[source[pos].call.value.id := source[pos].call.value] else seen,
      scheduled + [pos], source)
  {
    hide Scheduled, Stems;
    var longer := scheduled + [pos];
    assert forall i :: i in longer <==> i in scheduled || i == pos;
    StemsLater(scheduled, source, pos);
    if IsLocal(source[pos]) {
      StartStems(scheduled, source, pos);
    }
  }

  lemma StartStems(scheduled: seq<nat>, source: seq<Event>, pos: nat)
    requires pos < |source| && source[pos].Start? && source[pos].call.Some?
    ensures Stems(scheduled + [pos], source, source[pos].call.value)
  {
    assert pos in scheduled + [pos];
  }

  lemma StemsLater(scheduled: seq<nat>, source: seq<Event>, pos: nat)
    ensures forall call :: Stems(scheduled, source, call) ==> Stems(scheduled + [pos], source, call)
  {
    forall call | Stems(scheduled, source, call)
      ensures Stems(scheduled + [pos], source, call)
    {
      var i :| i in scheduled && i < |source| && source[i] == Start(Some(call));
      assert i in scheduled + [pos];
    }
  }

  // ---------------------------------------------------------------- one task

  lemma ScheduledIsStart(scheduled: seq<nat>, pos: nat, source: seq<Event>, i: nat)
    requires Scheduled(scheduled, pos, source) && i in scheduled
    ensures i < pos <= |source| && source[i].Start?
  {
  }

  /** A task goes on: what it puts on the queue is what its new state says has surfaced. */
  predicate Moves(task: Task, task1: Task, i: nat, local: bool, put: seq<Item>) {
    || (local && !task.started && task.stage.Executing? && task1 == Task(true, Executing) && put == [Source(i)])
    || (local && task.stage.Executing? && task1 == Task(task.started, Reported) &&
         put == (if task.started then [] else [Source(i)]))
    || (local && task.stage.Reported? && task1 == Task(task.started, Returned) && put == [Completion(i)])
    || (!local && task.stage.Executing? && task1 == Task(task.started, Returned) && put == [Source(i)])
  }

  lemma MoveSurfaces(queue: seq<Item>, pos: nat, tasks: map<nat, Task>, source: seq<Event>, i: nat, task: Task,
                     put: seq<Item>)
    requires Surfacing(queue, pos, tasks, source) && i in tasks && i < pos <= |source| && source[i].Start?
    requires Moves(tasks[i], task, i, LocalAt(source, i), put) && (!LocalAt(source, i) ==> !tasks[i].started)
    ensures Surfacing(queue + put, pos, tasks[i := task], source)
  {
    if |put| > 0 {
      assert put == [put[0]];
      CountAppends(queue, put[0]);
    } else {
      assert queue + put == queue;
    }
    hide Count, LocalAt;
  }

  lemma MoveForwards(queue: seq<Item>, pos: nat, source: seq<Event>, i: nat, put: seq<Item>)
    requires InOrder(queue, pos, source) && i < |source| && source[i].Start?
    requires put == [] || put == [Source(i)] || put == [Completion(i)]
    ensures InOrder(queue + put, pos, source)
  {
    if |put| > 0 {
      assert put == [put[0]];
      ForwardedAppends(queue, put[0], source);
    } else {
      assert queue + put == queue;
    }
    hide Forwarded;
  }

  lemma MoveUploads(posted: map<nat, seq<nat>>, batches: seq<seq<nat>>, tasks: map<nat, Task>, source: seq<Event>,
                    i: nat, task: Task)
    requires Uploaded(posted, batches, tasks, source) && i in tasks && !tasks[i].stage.Returned?
    ensures Uploaded(posted, batches, tasks[i := task], source)
  {
    hide Locals;
  }

  lemma MoveTasked(tasks: map<nat, Task>, scheduled: seq<nat>, source: seq<Event>, i: nat, task: Task, put: seq<Item>)
    requires Tasked(tasks, scheduled, source) && i in tasks && Moves(tasks[i], task, i, LocalAt(source, i), put)
    ensures Tasked(tasks[i := task], scheduled, source)
  {
    hide LocalAt;
  }

  lemma MoveKeeps(p: Pump, source: seq<Event>, i: nat, task: Task, put: seq<Item>)
    requires Sound(p, source) && i in p.tasks && Moves(p.tasks[i], task, i, LocalAt(source, i), put) && !p.closed
    ensures Sound(p.(tasks := p.tasks[i := task], queue := p.queue + put), source)
  {
    assert i in p.scheduled && !p.tasks[i].stage.Returned? && (!LocalAt(source, i) ==> !p.tasks[i].started);
    ScheduledIsStart(p.scheduled, p.pos, source, i);
    hide Partitioned, Scheduled, Remembered, Tasked, Surfacing, InOrder, Uploaded, LocalAt;
    MoveSurfaces(p.queue, p.pos, p.tasks, source, i, task, put);
    MoveForwards(p.queue, p.pos, source, i, put);
    MoveUploads(p.posted, p.batches, p.tasks, source, i, task);
    MoveTasked(p.tasks, p.scheduled, source, i, task, put);
  }

  lemma {:induction false} InSomeBatch(batches: seq<seq<nat>>, i: nat)
    requires i in Concat(batches)
    ensures exists k: nat :: k < |batches| && i in batches[k]
  {
    if |batches| > 0 {
      var last := |batches| - 1;
      if i in batches[last] {
      } else {
        InSomeBatch(batches[..last], i);
        var k: nat :| k < last && i in batches[..last][k];
        assert batches[k] == batches[..last][k];
      }
    }
  }

  /** Once every batch has been uploaded every task has returned. */
  lemma PostedHaveReturned(p: Pump, source: seq<Event>, i: nat)
    requires Sound(p, source) && p.ended && AllPosted(p.posted, |p.batches|) && i in p.scheduled
    ensures HasReturned(p.tasks, i)
  {
    assert Concat(p.batches) + [] == Concat(p.batches);
    InSomeBatch(p.batches, i);
    var k: nat :| k < |p.batches| && i in p.batches[k];
    assert k in p.posted;
    var j :| 0 <= j < |p.batches[k]| && p.batches[k][j] == i;
  }

  /** A task that can still move keeps the pump open. */
  lemma MovingIsOpen(p: Pump, source: seq<Event>, i: nat)
    requires Sound(p, source) && i in p.tasks && !p.tasks[i].stage.Returned?
    ensures !p.closed
  {
    if p.closed {
      PostedHaveReturned(p, source, i);
    }
  }

  lemma TaskKeeps(p: Pump, source: seq<Event>, l: Label)
    requires Sound(p, source) && Enabled(p, source, l) && (l.ReportStarted? || l.ReportCompleted? || l.Return?)
    ensures Sound(Step(p, source, l), source)
  {
    StepMoves(p, source, l);
    MovingIsOpen(p, source, l.i);
    hide Sound, Step, Enabled, Put, Moves;
    MoveKeeps(p, source, l.i, Step(p, source, l).tasks[l.i], Put(p, source, l));
  }

  lemma StepMoves(p: Pump, source: seq<Event>, l: Label)
    requires Enabled(p, source, l) && (l.ReportStarted? || l.ReportCompleted? || l.Return?)
    ensures var p1, put := Step(p, source, l), Put(p, source, l);
      && l.i in p.tasks && !p.tasks[l.i].stage.Returned? && l.i in p1.tasks
      && Moves(p.tasks[l.i], p1.tasks[l.i], l.i, LocalAt(source, l.i), put)
      && p1 == p.(tasks := p.tasks[l.i := p1.tasks[l.i]], queue := p.queue + put)
  {
    hide LocalAt, AllReturned, AllPosted;
    match l
    case ReportStarted(_) =>
    case ReportCompleted(_) => assert p.queue + [] == p.queue;
    case Return(_) =>
    case _ =>
  }

  /** What a step of a task puts on the queue. */
  function Put(p: Pump, source: seq<Event>, l: Label): seq<Item>
    requires Enabled(p, source, l) && (l.ReportStarted? || l.ReportCompleted? || l.Return?)
  {
    match l
    case ReportStarted(i) => [Source(i)]
    case ReportCompleted(i) => if p.tasks[i].started then [] else [Source(i)]
    case Return(i) => if LocalAt(source, i) then [Completion(i)] else [Source(i)]
  }

  lemma SubmitKeeps(p: Pump, source: seq<Event>, k: nat)
    requires Sound(p, source) && Enabled(p, source, Submit(k))
    ensures Sound(Step(p, source, Submit(k)), source)
  {
    hide Partitioned, Scheduled, Remembered, Tasked, Surfacing, InOrder, Locals, AllReturned;
  }

  lemma MarksSurface(queue: seq<Item>, pos: nat, tasks: map<nat, Task>, source: seq<Event>, mark: Item)
    requires Surfacing(queue, pos, tasks, source) && InOrder(queue, pos, source) && (mark.Error? || mark.Last?)
    ensures Surfacing(queue + [mark], pos, tasks, source) && InOrder(queue + [mark], pos, source)
  {
    CountAppends(queue, mark);
    ForwardedAppends(queue, mark, source);
    hide Count, Forwarded, LocalAt;
  }

  lemma CloseKeeps(p: Pump, source: seq<Event>)
    requires Sound(p, source) && Enabled(p, source, Close)
    ensures Sound(Closing(p), source)
  {
    hide Partitioned, Scheduled, Remembered, Tasked, Surfacing, InOrder, Uploaded;
    if p.refused || p.raised {
      MarksSurface(p.queue, p.pos, p.tasks, source, Error);
      MarksSurface(p.queue + [Error], p.pos, p.tasks, source, Last);
      assert p.queue + [Error] + [Last] == p.queue + [Error, Last];
    } else {
      MarksSurface(p.queue, p.pos, p.tasks, source, Last);
    }
  }

  lemma StepKeepsSound(p: Pump, source: seq<Event>, l: Label)
    requires Sound(p, source) && Enabled(p, source, l)
    ensures Sound(Step(p, source, l), source)
  {
    hide Sound;
    match l
    case Next => TurnKeeps(p, source);
    case SourceEnds(raised) => EndKeeps(p, source, raised);
    case Submit(k) => SubmitKeeps(p, source, k);
    case Close => CloseKeeps(p, source);
    case _ => TaskKeeps(p, source, l);
  }

  lemma TurnKeeps(p: Pump, source: seq<Event>)
    requires Sound(p, source) && !p.ended && p.pos < |source|
    ensures Sound(Turn(p, source[p.pos]), source)
  {
    hide Sound;
    var e := source[p.pos];
    if Conflicts(p, e) {
      RefusalKeeps(p, source);
    } else if Replayed(p, e) {
      SuppressKeeps(p, source);
    } else if e.Start? {
      ScheduleKeeps(p, source);
    } else if e.Boundary? {
      FlushedSound(p, source);
      ForwardKeeps(Flush(p), source);
    } else {
      ForwardKeeps(p, source);
    }
  }

  lemma {:induction false} RunKeepsSound(p: Pump, source: seq<Event>, ls: seq<Label>)
    requires Sound(p, source) && IsRun(p, source, ls)
    ensures Sound(After(p, source, ls), source)
    decreases |ls|
  {
    if |ls| > 0 {
      StepKeepsSound(p, source, ls[0]);
      hide Sound, Step, Enabled;
      RunKeepsSound(Step(p, source, ls[0]), source, ls[1..]);
    }
  }

  // ---------------------------------------------------------------- whole runs

  lemma ReachedSound(source: seq<Event>, ls: seq<Label>)
    requires IsRun(IDLE, source, ls)
    ensures Sound(After(IDLE, source, ls), source)
  {
    assert Sound(IDLE, source);
    RunKeepsSound(IDLE, source, ls);
  }

  /** However often a local call is redelivered, at most one start with its id is ever executed. */
  lemma CallsRunOnce(source: seq<Event>, ls: seq<Label>, i: nat, j: nat)
    requires IsRun(IDLE, source, ls) && i in After(IDLE, source, ls).scheduled && j in After(IDLE, source, ls).scheduled
    requires i < |source| && j < |source| && IsLocal(source[i]) && IsLocal(source[j])
    requires source[i].call.value.id == source[j].call.value.id
    ensures i == j
  {
    ReachedSound(source, ls);
    hide IsRun, After, Partitioned, Scheduled, Tasked, Surfacing, InOrder, Uploaded, Ends;
    assert SameId(source[i], source[j]);
  }

  /** No task has a step left. */
  ghost predicate NoTaskLeft(p: Pump, source: seq<Event>) {
    forall i: nat ::
      !Enabled(p, source, ReportStarted(i)) && !Enabled(p, source, ReportCompleted(i)) && !Enabled(p, source, Return(i))
  }

  lemma IdleHaveReturned(p: Pump, source: seq<Event>, i: nat)
    requires Sound(p, source) && NoTaskLeft(p, source) && i in p.scheduled
    ensures HasReturned(p.tasks, i)
  {
    assert i in p.tasks && !Enabled(p, source, ReportCompleted(i)) && !Enabled(p, source, Return(i));
  }

  /** At every moment the batches created so far, followed by the calls not yet in one, are the scheduled
      calls in source order; and once the loop over the source is left, none is without a batch. */
  lemma BatchesPartition(source: seq<Event>, ls: seq<Label>)
    requires IsRun(IDLE, source, ls)
    ensures var p := After(IDLE, source, ls);
      && Concat(p.batches) + p.pending == p.scheduled
      && (forall k, l :: 0 <= k < l < |p.scheduled| ==> p.scheduled[k] < p.scheduled[l])
      && (p.ended ==> p.pending == [] && Concat(p.batches) == p.scheduled)
      && (p.ended && !p.refused ==> p.pos == |source|)
  {
    ReachedSound(source, ls);
    var p := After(IDLE, source, ls);
    assert Concat(p.batches) + [] == Concat(p.batches);
  }

  /** At every moment no event has surfaced twice, replays never do, and everything but starts keeps
      the order of the source. */
  lemma SurfacedAtMostOnce(source: seq<Event>, ls: seq<Label>, i: nat)
    requires IsRun(IDLE, source, ls)
    ensures var p := After(IDLE, source, ls);
      && p.pos <= |source|
      && Count(p.queue, Source(i)) <= 1 && Count(p.queue, Completion(i)) <= Count(p.queue, Source(i))
      && (i < p.pos && source[i].Start? && i !in p.scheduled ==>
           Repeats(p.scheduled, source, i) && Count(p.queue, Source(i)) == 0)
      && Forwarded(p.queue, source) == NonStarts(source, p.pos)
  {
    ReachedSound(source, ls);
    var p := After(IDLE, source, ls);
    if i in p.tasks {
      ScheduledIsStart(p.scheduled, p.pos, source, i);
    }
  }

  /** However the tasks interleave with the source: once the loop over the source is left and no task has a
      step left, every event read has surfaced exactly once, except suppressed replays, and there is one
      completion for exactly the executed calls that have an outcome. */
  lemma EventsSurfaceOnce(source: seq<Event>, ls: seq<Label>, i: nat)
    requires IsRun(IDLE, source, ls) && After(IDLE, source, ls).ended && NoTaskLeft(After(IDLE, source, ls), source)
    ensures var p := After(IDLE, source, ls);
      && p.pos <= |source|
      && Count(p.queue, Source(i)) == (if i < p.pos && (!source[i].Start? || i in p.scheduled) then 1 else 0)
      && Count(p.queue, Completion(i)) == (if i in p.scheduled && LocalAt(source, i) then 1 else 0)
      && (i < p.pos && source[i].Start? && i !in p.scheduled ==> Repeats(p.scheduled, source, i))
  {
    ReachedSound(source, ls);
    var p := After(IDLE, source, ls);
    if i in p.scheduled {
      ScheduledIsStart(p.scheduled, p.pos, source, i);
      IdleHaveReturned(p, source, i);
    }
  }

  /** The outcomes of the first `n` batches, as uploaded. */
  function Uploads(posted: map<nat, seq<nat>>, n: nat): seq<nat>
    requires AllPosted(posted, n)
  {
    if n == 0 then [] else Uploads(posted, n - 1) + posted[n - 1]
  }

  lemma {:induction false} LocalsConcat(a: seq<nat>, b: seq<nat>, source: seq<Event>)
    ensures Locals(a + b, source) == Locals(a, source) + Locals(b, source)
    decreases |b|
  {
    if |b| == 0 {
      assert a + b == a;
    } else {
      LocalsConcat(a, b[..|b| - 1], source);
      assert (a + b)[..|a + b| - 1] == a + b[..|b| - 1];
    }
  }

  lemma {:induction false} UploadsAreLocals(p: Pump, source: seq<Event>, n: nat)
    requires Uploaded(p.posted, p.batches, p.tasks, source) && n <= |p.batches| && AllPosted(p.posted, n)
    ensures Uploads(p.posted, n) == Locals(Concat(p.batches[..n]), source)
  {
    if n > 0 {
      UploadsAreLocals(p, source, n - 1);
      assert p.batches[..n][..n - 1] == p.batches[..n - 1];
      LocalsConcat(Concat(p.batches[..n - 1]), p.batches[n - 1], source);
    }
  }

  /** The mark behind everything is put only when everything has surfaced, and by then the uploads, one
      batch after the other, are the outcomes of exactly the local calls executed, in order. */
  lemma ClosedPumpHasDelivered(source: seq<Event>, ls: seq<Label>)
    requires IsRun(IDLE, source, ls) && After(IDLE, source, ls).closed
    ensures var p := After(IDLE, source, ls);
      && p.ended && NoTaskLeft(p, source)
      && |p.queue| > 0 && p.queue[|p.queue| - 1] == Last
      && AllPosted(p.posted, |p.batches|) && Uploads(p.posted, |p.batches|) == Locals(p.scheduled, source)
  {
    ReachedSound(source, ls);
    hide IsRun, After, Sound, NoTaskLeft, AllPosted, Uploads, Locals;
    ClosedHasDelivered(After(IDLE, source, ls), source);
  }

  lemma ClosedHasDelivered(p: Pump, source: seq<Event>)
    requires Sound(p, source) && p.closed
    ensures p.ended && NoTaskLeft(p, source) && |p.queue| > 0 && p.queue[|p.queue| - 1] == Last
    ensures AllPosted(p.posted, |p.batches|) && Uploads(p.posted, |p.batches|) == Locals(p.scheduled, source)
  {
    forall i: nat
      ensures !Enabled(p, source, ReportStarted(i)) && !Enabled(p, source, ReportCompleted(i))
      ensures !Enabled(p, source, Return(i))
    {
      if i in p.tasks {
        PostedHaveReturned(p, source, i);
      }
    }
    hide Enabled, Scheduled, Remembered, Tasked, Surfacing, InOrder, Conflicts;
    UploadsAreLocals(p, source, |p.batches|);
    assert p.batches[..|p.batches|] == p.batches && Concat(p.batches) + [] == Concat(p.batches);
  }

  lemma {:induction false} BatchIsScheduled(batches: seq<seq<nat>>, k: nat, j: nat)
    requires k < |batches| && j < |batches[k]|
    ensures batches[k][j] in Concat(batches)
  {
    var last := |batches| - 1;
    if k < last {
      assert batches[..last][k] == batches[k];
      BatchIsScheduled(batches[..last], k, j);
    }
  }

  ghost predicate CanGoOn(p: Pump, source: seq<Event>) {
    exists l :: Enabled(p, source, l)
  }

  lemma TaskGoesOn(p: Pump, source: seq<Event>, i: nat)
    requires Tasked(p.tasks, p.scheduled, source) && i in p.tasks && !p.tasks[i].stage.Returned?
    ensures CanGoOn(p, source)
  {
    hide AllReturned, AllPosted;
    if LocalAt(source, i) && p.tasks[i].stage.Executing? {
      assert Enabled(p, source, ReportCompleted(i));
    } else {
      assert Enabled(p, source, Return(i));
    }
  }

  lemma BatchGoesOn(p: Pump, source: seq<Event>, k: nat)
    requires Tasked(p.tasks, p.scheduled, source) && Concat(p.batches) == p.scheduled && k < |p.batches|
    requires k !in p.posted
    ensures CanGoOn(p, source)
  {
    if AllReturned(p.tasks, p.batches[k]) {
      assert Enabled(p, source, Submit(k));
    } else {
      var j: nat :| j < |p.batches[k]| && !HasReturned(p.tasks, p.batches[k][j]);
      BatchIsScheduled(p.batches, k, j);
      TaskGoesOn(p, source, p.batches[k][j]);
    }
  }

  /** A pump that has left the source comes to its end: until then something can always go on. */
  lemma EndedPumpGoesOn(source: seq<Event>, ls: seq<Label>)
    requires IsRun(IDLE, source, ls) && After(IDLE, source, ls).ended && !After(IDLE, source, ls).closed
    ensures CanGoOn(After(IDLE, source, ls), source)
  {
    ReachedSound(source, ls);
    BatchesPartition(source, ls);
    var p := After(IDLE, source, ls);
    hide IsRun, After, Partitioned, Scheduled, Remembered, Tasked, Surfacing, InOrder, Uploaded, Ends;
    if AllPosted(p.posted, |p.batches|) {
      assert Enabled(p, source, Close);
    } else {
      var k: nat :| k < |p.batches| && k !in p.posted;
      BatchGoesOn(p, source, k);
    }
  }

  /** The pump refuses exactly one thing: a local call whose id was scheduled with different content. */
  lemma FailsOnlyOnConflict(source: seq<Event>, ls: seq<Label>)
    requires IsRun(IDLE, source, ls) && After(IDLE, source, ls).refused
    ensures var p := After(IDLE, source, ls);
      p.pos < |source| && IsLocal(source[p.pos])
      && exists j :: j in p.scheduled && j < |source| && IsLocal(source[j]) && source[j] != source[p.pos]
           && source[j].call.value.id == source[p.pos].call.value.id
  {
    ReachedSound(source, ls);
    var p := After(IDLE, source, ls);
    var call := source[p.pos].call.value;
    assert Stems(p.scheduled, source, p.seen[call.id]);
    var j :| j in p.scheduled && j < |source| && source[j] == Start(Some(p.seen[call.id]));
  }

  // ---------------------------------------------------------------- what one task is told

  /** A callback of the runtime. */
  datatype Signal = TargetStarts | HasOutcome

  /** The callbacks about task `i` in a run, in order. */
  function Signals(ls: seq<Label>, i: nat): seq<Signal> {
    if |ls| == 0 then [] else Signal1(ls[0], i) + Signals(ls[1..], i)
  }

  function Signal1(l: Label, i: nat): seq<Signal> {
    if l == ReportStarted(i) then [TargetStarts] else if l == ReportCompleted(i) then [HasOutcome] else []
  }

  /** What a task in this state has been told. */
  function Told(tasks: map<nat, Task>, i: nat, local: bool): seq<Signal> {
    if i !in tasks || !local then []
    else (if tasks[i].started then [TargetStarts] else []) + (if tasks[i].stage.Executing? then [] else [HasOutcome])
  }

  lemma TurnTasks(p: Pump, e: Event)
    ensures Turn(p, e).tasks == p.tasks || Turn(p, e).tasks == p.tasks[p.pos := Task(false, Executing)]
  {
    hide Conflicts, Replayed, IsLocal;
    match e
    case Start(_) =>
    case Boundary =>
    case Other =>
  }

  /** What a step does to the tasks. */
  ghost predicate TasksStep(tasks: map<nat, Task>, tasks1: map<nat, Task>, pos: nat, l: Label) {
    match l
    case Next => tasks1 == tasks || tasks1 == tasks[pos := Task(false, Executing)]
    case ReportStarted(i) => i in tasks && tasks[i] == Task(false, Executing) &&
      tasks1 == tasks[i := Task(true, Executing)]
    case ReportCompleted(i) => i in tasks && tasks[i].stage.Executing? &&
      tasks1 == tasks[i := Task(tasks[i].started, Reported)]
    case Return(i) => i in tasks && !tasks[i].stage.Returned? && tasks1 == tasks[i := Task(tasks[i].started, Returned)]
    case _ => tasks1 == tasks
  }

  lemma StepTasks(p: Pump, source: seq<Event>, l: Label)
    requires Enabled(p, source, l)
    ensures TasksStep(p.tasks, Step(p, source, l).tasks, p.pos, l)
  {
    hide LocalAt, AllReturned, AllPosted, Locals, Turn;
    match l
    case Next => TurnTasks(p, source[p.pos]);
    case SourceEnds(_) =>
    case ReportStarted(_) =>
    case ReportCompleted(_) =>
    case Return(_) =>
    case Submit(_) =>
    case Close =>
  }

  lemma NoTaskYet(p: Pump, source: seq<Event>)
    requires Tasked(p.tasks, p.scheduled, source) && Scheduled(p.scheduled, p.pos, source)
    ensures p.pos !in p.tasks
  {
    if p.pos in p.tasks { ScheduledIsStart(p.scheduled, p.pos, source, p.pos); }
  }

  lemma StepTells(p: Pump, source: seq<Event>, l: Label, i: nat)
    requires Sound(p, source) && Enabled(p, source, l)
    ensures Told(Step(p, source, l).tasks, i, LocalAt(source, i)) ==
      Told(p.tasks, i, LocalAt(source, i)) + Signal1(l, i)
  {
    NoTaskYet(p, source);
    StepTasks(p, source, l);
    TellsOnlyLocals(p, source, l);
    hide Sound, Step, Enabled, LocalAt;
    TasksTell(p.tasks, Step(p, source, l).tasks, p.pos, l, i, LocalAt(source, i));
  }

  lemma TellsOnlyLocals(p: Pump, source: seq<Event>, l: Label)
    requires Sound(p, source) && Enabled(p, source, l)
    ensures l.ReportStarted? || l.ReportCompleted? ==> LocalAt(source, l.i)
    ensures l.Return? && LocalAt(source, l.i) ==> p.tasks[l.i].stage.Reported?
  {
    hide Sound, LocalAt, AllReturned, AllPosted;
  }

  lemma TasksTell(tasks: map<nat, Task>, tasks1: map<nat, Task>, pos: nat, l: Label, i: nat, local: bool)
    requires TasksStep(tasks, tasks1, pos, l) && pos !in tasks
    requires (l.ReportStarted? || l.ReportCompleted?) && l.i == i ==> local
    requires l.Return? && l.i == i && local ==> tasks[i].stage.Reported?
    ensures Told(tasks1, i, local) == Told(tasks, i, local) + Signal1(l, i)
  {
  }

  lemma {:induction false} RunTells(p: Pump, source: seq<Event>, ls: seq<Label>, i: nat)
    requires Sound(p, source) && IsRun(p, source, ls)
    ensures Told(After(p, source, ls).tasks, i, LocalAt(source, i)) ==
      Told(p.tasks, i, LocalAt(source, i)) + Signals(ls, i)
    decreases |ls|
  {
    hide Sound, Step, Enabled, Told, Signal1;
    if |ls| > 0 {
      StepTells(p, source, ls[0], i);
      StepKeepsSound(p, source, ls[0]);
      RunTells(Step(p, source, ls[0]), source, ls[1..], i);
    }
  }

  /** A task that has returned was told nothing when its call is not local; else it was told of its
      outcome, last and once, after its target had started or without that. */
  lemma PossibleSignals(source: seq<Event>, ls: seq<Label>, i: nat)
    requires IsRun(IDLE, source, ls) && HasReturned(After(IDLE, source, ls).tasks, i)
    ensures if LocalAt(source, i) then Signals(ls, i) == [HasOutcome] || Signals(ls, i) == [TargetStarts, HasOutcome]
      else Signals(ls, i) == []
  {
    assert Sound(IDLE, source);
    RunTells(IDLE, source, ls, i);
    hide Sound, IsRun, After;
    assert [] + Signals(ls, i) == Signals(ls, i);
  }
}
