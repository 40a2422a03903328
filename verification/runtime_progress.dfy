/** No reachable state of the tool runtime is stuck while the declared dependencies are acyclic. */
module RuntimeProgress {
  import opened Options
  import opened ToolCatalog
  import opened ToolRuntime
  import opened RuntimeFrames

  ghost predicate TaskShape(cat: Catalog, led: Ledger, t: Task) {
    && t.tool in cat.tools
    && (t.Ordinary() <==> t.event.Some?)
    && (t.branch.Some? ==> !t.Ordinary() && t.call.revision.value.root == t.branch)
    && (!t.Ordinary() && t.branch.None? ==> t.phase.Finished?)
    && (t.phase.Waiting? ==>
          && t.Ordinary()
          && t.phase.dependency < |t.tool.dependencies|
          && Feeds(t.phase.key, t.tool.dependencies[t.phase.dependency])
          && t.phase.key in led.events
          && (t.phase.event !in led.fired ==> led.events[t.phase.key] == t.phase.event))
  }

  /** An unset completion event is held by an unfinished call of its own key. */
  ghost predicate EventHeld(led: Ledger, tasks: map<TaskId, Task>, key: string)
    requires key in led.events
  {
    var e := led.events[key];
    && e in tasks
    && tasks[e].tool.name == key
    && tasks[e].event == Some(e)
    && (e !in led.fired ==> tasks[e].Unfinished())
  }

  ghost predicate LaneHeld(lanes: map<string, TaskId>, tasks: map<TaskId, Task>, lane: string)
    requires lane in lanes
  {
    && lanes[lane] in tasks
    && tasks[lanes[lane]].phase.Running?
    && tasks[lanes[lane]].tool.lane == Some(lane)
  }

  ghost predicate Shapes(cat: Catalog, led: Ledger, tasks: map<TaskId, Task>) {
    forall id :: id in tasks ==> TaskShape(cat, led, tasks[id])
  }

  ghost predicate EventsHeld(led: Ledger, tasks: map<TaskId, Task>) {
    forall key :: key in led.events ==> EventHeld(led, tasks, key)
  }

  ghost predicate LanesHeld(lanes: map<string, TaskId>, tasks: map<TaskId, Task>) {
    forall lane :: lane in lanes ==> LaneHeld(lanes, tasks, lane)
  }

  ghost predicate Sound(cat: Catalog, st: State) {
    Shapes(cat, st.ledger, st.tasks) && EventsHeld(st.ledger, st.tasks) && LanesHeld(st.lanes, st.tasks)
  }

  /** Sound speaks of events, lanes and tasks only. */
  ghost predicate SameFrame(a: State, b: State) {
    a.ledger.events == b.ledger.events && a.ledger.fired == b.ledger.fired && a.lanes == b.lanes && a.tasks == b.tasks
  }

  lemma SettleKeepsSound(cat: Catalog, st: State, id: TaskId, outcome: Outcome)
    requires Sound(cat, st) && id in st.tasks
    ensures Sound(cat, Settle(st, id, outcome))
  {
  }

  lemma FailKeepsSound(cat: Catalog, st: State, id: TaskId, fault: Fault, accepted: map<string, Value>)
    requires Sound(cat, st) && id in st.tasks
    ensures Sound(cat, Fail(st, id, fault, accepted))
  {
    var st1 := NoteFailure(st, st.tasks[id], fault, accepted);
    NoteFailureEffect(st, st.tasks[id], fault, accepted);
    assert SameFrame(st, st1) && Sound(cat, st1);
    SettleKeepsSound(cat, st1, id, Error(fault));
  }

  lemma PublishKeepsSound(cat: Catalog, st: State, id: TaskId, raw: Raw)
    requires Sound(cat, st) && id in st.tasks && !raw.Raised?
    ensures Sound(cat, Publish(st, id, raw)) && id in Publish(st, id, raw).tasks
  {
    PublishEffect(st, id, raw);
    assert SameFrame(st, Publish(st, id, raw));
    hide Publish;
  }

  lemma ConcludeKeepsSound(cat: Catalog, st: State, id: TaskId, raw: Raw, late: Option<Fault>)
    requires Sound(cat, st) && id in st.tasks
    ensures Sound(cat, Conclude(st, id, raw, late))
  {
    if raw.Raised? {
      FailKeepsSound(cat, st, id, raw.fault, st.tasks[id].arguments);
    } else {
      var st1 := Publish(st, id, raw);
      PublishKeepsSound(cat, st, id, raw);
      hide Publish, Fail, Settle, Sound;
      if late.Some? {
        FailKeepsSound(cat, st1, id, late.value, st.tasks[id].arguments);
      } else {
        SettleKeepsSound(cat, st1, id, if raw.DecisionSkip? then Skip else Ok(raw.value));
      }
    }
  }

  /** An input round replaces the key's event only if it was set. */
  lemma RoundEvents(led: Ledger, id: TaskId, tool: Tool, call: Call)
    ensures var led1 := BeginInputRound(led, id, tool, call);
      && led1.fired == led.fired
      && (led1.events == led.events
          || (led1.events == led.events[tool.name := id] && tool.name in led.events &&
               led.events[tool.name] in led.fired))
  {
  }

  /** An event is only ever replaced after it was set. */
  lemma ArriveOrdinaryEvents(cat: Catalog, st: State, id: TaskId, tool: Tool, call: Call)
    ensures var led := ArriveOrdinary(cat, st, id, tool, call).ledger;
      && led.fired == st.ledger.fired
      && tool.name in led.events
      && (led.events == st.ledger.events
          || (led.events == st.ledger.events[tool.name := id]
              && (tool.name !in st.ledger.events || st.ledger.events[tool.name] in led.fired)))
  {
    RoundEvents(st.ledger, id, tool, call);
    hide BeginInputRound, DependencyFed;
  }

  lemma NewTaskKeepsSound(cat: Catalog, led: Ledger, events: map<string, TaskId>, lanes: map<string, TaskId>,
                          tasks: map<TaskId, Task>, id: TaskId, task: Task)
    requires Shapes(cat, led, tasks) && EventsHeld(led, tasks) && LanesHeld(lanes, tasks)
    requires id !in tasks && task.tool in cat.tools && task.phase.Asking? && task.Ordinary() && task.branch.None?
    requires events == led.events
      || (events == led.events[task.tool.name := id]
          && (task.tool.name !in led.events || led.events[task.tool.name] in led.fired))
    requires task.tool.name in events && task.event == Some(events[task.tool.name])
    ensures var led1, tasks1 := led.(events := events), tasks[id := task];
      Shapes(cat, led1, tasks1) && EventsHeld(led1, tasks1) && LanesHeld(lanes, tasks1)
  {
  }

  lemma ArriveOrdinaryKeepsSound(cat: Catalog, st: State, id: TaskId, tool: Tool, call: Call)
    requires Sound(cat, st) && id !in st.tasks && tool in cat.tools && call.revision.None?
    ensures Sound(cat, ArriveOrdinary(cat, st, id, tool, call))
  {
    var st1 := ArriveOrdinary(cat, st, id, tool, call);
    ArriveOrdinaryEvents(cat, st, id, tool, call);
    NewTaskKeepsSound(cat, st.ledger, st1.ledger.events, st.lanes, st.tasks, id, st1.tasks[id]);
    var st2 := st.(ledger := st.ledger.(events := st1.ledger.events), tasks := st1.tasks);
    assert SameFrame(st1, st2) && Sound(cat, st2);
  }

  lemma ArriveRevisionKeepsSound(cat: Catalog, st: State, id: TaskId, tool: Tool, call: Call,
                                 refusal: Option<Rejection>)
    requires Sound(cat, st) && id !in st.tasks && tool in cat.tools && call.revision.Some?
    requires refusal.None? ==> call.revision.value.root.Some?
    ensures Sound(cat, ArriveRevision(st, id, tool, call, refusal))
  {
    RevisionEffect(st, id, tool, call, refusal);
    var st1 := ArriveRevision(st, id, tool, call, refusal);
    AddedKeepsSound(cat, st, id, st1.tasks[id]);
    RevisionKeepsLanes(st, id, tool, call, refusal);
  }

  lemma RevisionKeepsLanes(st: State, id: TaskId, tool: Tool, call: Call, refusal: Option<Rejection>)
    requires LanesHeld(st.lanes, st.tasks) && id !in st.tasks && call.revision.Some?
    ensures ArriveRevision(st, id, tool, call, refusal).lanes == st.lanes
  {
    assert forall lane :: lane in st.lanes ==> LaneHeld(st.lanes, st.tasks, lane);
  }

  lemma AddedKeepsSound(cat: Catalog, st: State, id: TaskId, task: Task)
    requires Sound(cat, st) && id !in st.tasks && TaskShape(cat, st.ledger, task)
    ensures Shapes(cat, st.ledger, st.tasks[id := task])
    ensures EventsHeld(st.ledger, st.tasks[id := task])
    ensures LanesHeld(st.lanes, st.tasks[id := task])
  {
  }

  lemma RefusalNamesRoot(cat: Catalog, st: State, tool: Tool, call: Call)
    ensures call.revision.Some? && Refusal(cat, st, tool, call).None? ==> call.revision.value.root.Some?
  {
  }

  lemma AcceptedKeepsSound(cat: Catalog, st: State, id: TaskId, tool: Tool, call: Call, refusal: Option<Rejection>)
    requires Sound(cat, st) && id !in st.tasks && tool in cat.tools
    requires call.revision.Some? && refusal.None? ==> call.revision.value.root.Some?
    ensures Sound(cat, ArriveAccepted(cat, st, id, tool, call, refusal))
  {
    if call.revision.Some? {
      ArriveRevisionKeepsSound(cat, st, id, tool, call, refusal);
    } else {
      ArriveOrdinaryKeepsSound(cat, st, id, tool, call);
    }
  }

  lemma PreparedKeepsSound(cat: Catalog, st: State, id: TaskId, fault: Option<Fault>)
    requires Sound(cat, st)
    ensures Sound(cat, Prepared(st, id, fault))
  {
    if id in st.tasks && st.tasks[id].Unfinished() && fault.Some? {
      FailKeepsSound(cat, st, id, fault.value, map[]);
    }
  }

  lemma ArriveKeepsSound(cat: Catalog, st: State, id: TaskId, call: Call, fault: Option<Fault>)
    requires Sound(cat, st) && id !in st.tasks
    ensures Sound(cat, ArriveStep(cat, st, id, call, fault))
  {
    if Accepted(cat, call) {
      var tool := Find(cat.tools, call.toolId).value;
      var refusal := Refusal(cat, st, tool, call);
      RefusalNamesRoot(cat, st, tool, call);
      AcceptedKeepsSound(cat, st, id, tool, call, refusal);
      PreparedKeepsSound(cat, ArriveAccepted(cat, st, id, tool, call, refusal), id,
        ArrivalFault(cat, tool, call, fault));
    }
  }

  lemma MovedKeepsSound(cat: Catalog, st: State, id: TaskId, task: Task)
    requires Sound(cat, st) && id in st.tasks && TaskShape(cat, st.ledger, task)
    requires task.tool == st.tasks[id].tool && task.event == st.tasks[id].event && task.Unfinished()
    requires st.tasks[id].phase.Running? ==> task.phase.Running?
    requires st.tasks[id].Unfinished()
    ensures Sound(cat, st.(tasks := st.tasks[id := task]))
  {
  }

  lemma ResumeKeepsSound(cat: Catalog, st: State, id: TaskId, advance: Advance)
    requires Sound(cat, st) && id in st.tasks && st.tasks[id].Unfinished() && !st.tasks[id].phase.Running?
    requires advance.Continue? ==>
      && TaskShape(cat, st.ledger, advance.task)
      && advance.task.tool == st.tasks[id].tool && advance.task.event == st.tasks[id].event && advance.task.Unfinished()
    ensures Sound(cat, Resume(st, id, advance))
  {
    match advance
    case Continue(task) => MovedKeepsSound(cat, st, id, task);
    case GiveUp(fault, accepted) => FailKeepsSound(cat, st, id, fault, accepted);
  }

  lemma EnterKeepsSound(cat: Catalog, st: State, id: TaskId)
    requires Sound(cat, st) && id in st.tasks && st.tasks[id].phase.Queued? && LaneFree(st, st.tasks[id])
    ensures Sound(cat, EnterLane(st, id))
  {
    MovedKeepsSound(cat, st, id, st.tasks[id].(phase := Running));
  }

  lemma StepKeepsSound(cat: Catalog, st: State, l: Label)
    requires Sound(cat, st) && Enabled(st, l)
    ensures Sound(cat, Step(cat, st, l))
  {
    if Resumes(l) {
      AdvanceKeepsShape(cat, st, l);
      ResumeKeepsSound(cat, st, l.id, AdvanceOf(st, l));
    } else {
      match l
      case Arrive(id, call, fault) => ArriveKeepsSound(cat, st, id, call, fault);
      case Enter(id) => EnterKeepsSound(cat, st, id);
      case Return(id, raw, late) => ConcludeKeepsSound(cat, st, id, raw, late);
      case Cancel(id) => SettleKeepsSound(cat, st, id, Cancelled);
    }
  }

  lemma AdvanceKeepsShape(cat: Catalog, st: State, l: Label)
    requires Sound(cat, st) && Enabled(st, l) && Resumes(l)
    ensures st.tasks[l.id].Unfinished() && !st.tasks[l.id].phase.Running?
    ensures var advance := AdvanceOf(st, l);
      advance.Continue? ==>
        TaskShape(cat, st.ledger, advance.task) && SameCall(st.tasks[l.id], advance.task) && advance.task.Unfinished()
  {
    assert TaskShape(cat, st.ledger, st.tasks[l.id]);
    AdvanceEffect(st, l);
  }

  lemma {:induction false} RunKeepsSound(cat: Catalog, st: State, ls: seq<Label>)
    requires Sound(cat, st) && IsRun(cat, st, ls)
    ensures Sound(cat, After(cat, st, ls))
    decreases |ls|
  {
    if ls != [] {
      StepKeepsSound(cat, st, ls[0]);
      RunKeepsSound(cat, Step(cat, st, ls[0]), ls[1..]);
    }
  }

  /** In every reachable state an unset completion event is held by an unfinished call of its key. */
  lemma UnsetEventIsHeld(cat: Catalog, st: State, key: string)
    requires Reachable(cat, st) && key in st.ledger.events && st.ledger.events[key] !in st.ledger.fired
    ensures exists id ::
      id in st.tasks && st.tasks[id].Unfinished() && st.tasks[id].tool.name == key &&
      st.tasks[id].event == Some(st.ledger.events[key])
  {
    var ls :| IsRun(cat, EMPTY, ls) && After(cat, EMPTY, ls) == st;
    RunKeepsSound(cat, EMPTY, ls);
    assert EventHeld(st.ledger, st.tasks, key);
  }

  /** A step that is neither a new arrival nor a cancellation. */
  ghost predicate CanProgress(st: State) {
    exists l :: Enabled(st, l) && !l.Arrive? && !l.Cancel?
  }

  lemma {:induction false} SomeoneCanStep(cat: Catalog, rank: string -> nat, st: State, id: TaskId)
    requires Sound(cat, st) && Acyclic(cat.tools, rank)
    requires id in st.tasks && st.tasks[id].Unfinished()
    ensures CanProgress(st)
    decreases rank(st.tasks[id].tool.name)
  {
    var task := st.tasks[id];
    match task.phase
    case Asking(_) => assert Enabled(st, Answer(id, None));
    case Resolving(_, _) => assert Enabled(st, Look(id));
    case Running => assert Enabled(st, Return(id, DecisionSkip, None));
    case Queued =>
      if LaneFree(st, task) {
        assert Enabled(st, Enter(id));
      } else {
        assert LaneHeld(st.lanes, st.tasks, task.tool.lane.value);
        assert Enabled(st, Return(st.lanes[task.tool.lane.value], DecisionSkip, None));
      }
    case Waiting(i, key, event) =>
      if event in st.ledger.fired {
        assert Enabled(st, Wake(id));
      } else {
        assert EventHeld(st.ledger, st.tasks, key);
        SomeoneCanStep(cat, rank, st, event);
      }
  }

  /** Deadlock freedom: with acyclic dependencies, a reachable state with an unfinished
      call has a step that is neither an arrival nor a cancellation. */
  lemma NoDeadlock(cat: Catalog, rank: string -> nat, st: State, id: TaskId)
    requires Reachable(cat, st) && Acyclic(cat.tools, rank)
    requires id in st.tasks && st.tasks[id].Unfinished()
    ensures CanProgress(st)
  {
    var ls :| IsRun(cat, EMPTY, ls) && After(cat, EMPTY, ls) == st;
    RunKeepsSound(cat, EMPTY, ls);
    SomeoneCanStep(cat, rank, st, id);
  }

  // ---------------------------------------------------------------- every call finishes

  function Ahead(total: nat, done: nat): nat {
    if done < total then total - done else 0
  }

  /** A bound on the steps one frame can still take. */
  function Remaining(t: Task): nat {
    var n := |t.tool.dependencies|;
    match t.phase
    case Asking(i) => 3 * n + 6 + Ahead(|t.tool.inputs|, i)
    case Resolving(i, yielded) => 3 * Ahead(n, i) + (if yielded then 4 else 5)
    case Waiting(i, _, _) => 3 * Ahead(n, i) + 3
    case Queued => 2
    case Running => 1
    case Finished(_) => 0
  }

  ghost function Work(tasks: map<TaskId, Task>): nat
    decreases |tasks|
  {
    if tasks == map[] then 0
    else
      var id :| id in tasks;
      Remaining(tasks[id]) + Work(tasks - {id})
  }

  lemma {:induction false} WorkWithout(tasks: map<TaskId, Task>, id: TaskId)
    requires id in tasks
    ensures Work(tasks) == Remaining(tasks[id]) + Work(tasks - {id})
    decreases |tasks|
  {
    var first :| first in tasks && Work(tasks) == Remaining(tasks[first]) + Work(tasks - {first});
    if first != id {
      WorkWithout(tasks - {first}, id);
      WorkWithout(tasks - {id}, first);
      assert tasks - {first} - {id} == tasks - {id} - {first};
    }
  }

  lemma WorkUpdated(tasks: map<TaskId, Task>, id: TaskId, task: Task)
    requires id in tasks
    ensures Work(tasks[id := task]) == Work(tasks) - Remaining(tasks[id]) + Remaining(task)
  {
    WorkWithout(tasks, id);
    WorkWithout(tasks[id := task], id);
    assert tasks[id := task] - {id} == tasks - {id};
  }

  predicate IsProgress(l: Label) { !l.Arrive? && !l.Cancel? }

  lemma ProgressUsesWork(cat: Catalog, st: State, l: Label)
    requires Enabled(st, l) && IsProgress(l)
    ensures Work(Step(cat, st, l).tasks) < Work(st.tasks)
  {
    StepEffect(cat, st, l);
    var st1 := Step(cat, st, l);
    if Resumes(l) {
      AdvanceShrinks(st, l);
      ResumeEffect(st, l.id, AdvanceOf(st, l));
      if AdvanceOf(st, l).GiveUp? {
        FailEffect(st, l.id, AdvanceOf(st, l).fault, AdvanceOf(st, l).accepted);
      }
    }
    assert Remaining(st1.tasks[l.id]) < Remaining(st.tasks[l.id]);
    WorkUpdated(st.tasks, l.id, st1.tasks[l.id]);
  }

  lemma AdvanceShrinks(st: State, l: Label)
    requires Enabled(st, l) && Resumes(l)
    ensures Remaining(st.tasks[l.id]) > 0
    ensures AdvanceOf(st, l).Continue? ==> Remaining(AdvanceOf(st, l).task) < Remaining(st.tasks[l.id])
  {
  }

  lemma {:induction false} ProgressIsBounded(cat: Catalog, st: State, ls: seq<Label>)
    requires IsRun(cat, st, ls) && forall i :: 0 <= i < |ls| ==> IsProgress(ls[i])
    ensures |ls| + Work(After(cat, st, ls).tasks) <= Work(st.tasks)
    decreases |ls|
  {
    if ls != [] {
      ProgressUsesWork(cat, st, ls[0]);
      ProgressIsBounded(cat, Step(cat, st, ls[0]), ls[1..]);
    }
  }

  lemma {:induction false} RunsCompose(cat: Catalog, st: State, first: seq<Label>, second: seq<Label>)
    requires IsRun(cat, st, first) && IsRun(cat, After(cat, st, first), second)
    ensures IsRun(cat, st, first + second)
    ensures After(cat, st, first + second) == After(cat, After(cat, st, first), second)
    decreases |first|
  {
    if first == [] {
      assert first + second == second;
    } else {
      assert (first + second)[1..] == first[1..] + second;
      RunsCompose(cat, Step(cat, st, first[0]), first[1..], second);
    }
  }

  lemma ReachStep(cat: Catalog, st: State, l: Label)
    requires Reachable(cat, st) && Enabled(st, l)
    ensures Reachable(cat, Step(cat, st, l))
  {
    var before :| IsRun(cat, EMPTY, before) && After(cat, EMPTY, before) == st;
    assert [l][1..] == [] && IsRun(cat, Step(cat, st, l), []);
    RunsCompose(cat, EMPTY, before, [l]);
    assert After(cat, st, [l]) == After(cat, Step(cat, st, l), []) == Step(cat, st, l);
  }

  lemma StartReachable(cat: Catalog)
    ensures Reachable(cat, EMPTY)
  {
    assert IsRun(cat, EMPTY, []) && After(cat, EMPTY, []) == EMPTY;
  }

  /** Every schedule drains: with acyclic dependencies, however the steps of a reachable state
      are interleaved, there are at most `Work` of them, and when none is left every
      call has finished. */
  lemma EverySchedulingFinishesEveryCall(cat: Catalog, rank: string -> nat, st: State, ls: seq<Label>)
    requires Reachable(cat, st) && Acyclic(cat.tools, rank)
    requires IsRun(cat, st, ls) && forall i :: 0 <= i < |ls| ==> IsProgress(ls[i])
    ensures |ls| <= Work(st.tasks)
    ensures !CanProgress(After(cat, st, ls)) ==>
      forall id :: id in After(cat, st, ls).tasks ==> !After(cat, st, ls).tasks[id].Unfinished()
  {
    ProgressIsBounded(cat, st, ls);
    var before :| IsRun(cat, EMPTY, before) && After(cat, EMPTY, before) == st;
    RunsCompose(cat, EMPTY, before, ls);
    var last := After(cat, st, ls);
    assert Reachable(cat, last);
    forall id | id in last.tasks && last.tasks[id].Unfinished()
      ensures CanProgress(last)
    {
      NoDeadlock(cat, rank, last, id);
    }
  }

  /** An ordinary call without human inputs reaches its first dependency lookup in three steps. */
  lemma ArriveAndLook(cat: Catalog, st: State, id: TaskId, tool: Tool, call: Call) returns (last: State)
    requires Reachable(cat, st) && id !in st.tasks
    requires Find(cat.tools, call.toolId) == Some(tool) && tool.inputs == [] && !tool.privileged && call.revision.None?
    requires AcceptsRetained(cat, tool, call)
    ensures Reachable(cat, last)
    ensures var arrived := ArriveOrdinary(cat, st, id, tool, call);
      var advance := LookOrdinary(arrived.ledger, arrived.tasks[id].(phase := Resolving(0, false)));
      advance.Continue? ==> last == arrived.(tasks := arrived.tasks[id := advance.task])
  {
    hide Reachable, BeginInputRound, OpenEvent, DependencyFed, LookRevision, ReadLedger, ResultKey;
    var s1 := ArriveOrdinary(cat, st, id, tool, call);
    assert Step(cat, st, Arrive(id, call, None)) == s1;
    ReachStep(cat, st, Arrive(id, call, None));
    var s2 := s1.(tasks := s1.tasks[id := s1.tasks[id].(phase := Resolving(0, false))]);
    assert Step(cat, s1, Answer(id, None)) == s2;
    ReachStep(cat, s1, Answer(id, None));
    last := Step(cat, s2, Look(id));
    ReachStep(cat, s2, Look(id));
    assert last == Resume(s2, id, LookOrdinary(s2.ledger, s2.tasks[id]));
  }
}
