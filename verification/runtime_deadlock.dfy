/** When the tool runtime can hang: exactly when tools that can come to wait for one another do so in a cycle. */
module RuntimeDeadlock {
  import opened Options
  import opened ToolCatalog
  import opened ToolRuntime
  import opened RuntimeFrames
  import opened RuntimeProgress
  import opened ToolFeeding

  predicate WaitsUnset(st: State, id: TaskId) {
    id in st.tasks && st.tasks[id].phase.Waiting? && st.tasks[id].phase.event !in st.ledger.fired
  }

  predicate InFlight(st: State, id: TaskId) {
    id in st.tasks && st.tasks[id].Unfinished()
  }

  ghost predicate AllWait(st: State) {
    forall id: TaskId :: InFlight(st, id) ==> WaitsUnset(st, id)
  }

  lemma ReachableIsSound(cat: Catalog, st: State)
    requires Reachable(cat, st)
    ensures Sound(cat, st)
  {
    var ls :| IsRun(cat, EMPTY, ls) && After(cat, EMPTY, ls) == st;
    RunKeepsSound(cat, EMPTY, ls);
  }

  lemma NotWaitingCanStep(cat: Catalog, st: State, id: TaskId)
    requires Sound(cat, st) && InFlight(st, id) && !WaitsUnset(st, id)
    ensures CanProgress(st)
  {
    var task := st.tasks[id];
    match task.phase
    case Asking(_) => assert Enabled(st, Answer(id, None));
    case Resolving(_, _) => assert Enabled(st, Look(id));
    case Running => assert Enabled(st, Return(id, DecisionSkip, None));
    case Queued =>
      if LaneFree(st, task) {
        assert Enabled(st, Enter(id));
      } else {
        assert LaneHeld(st.lanes, st.tasks, task.tool.lane.value);
        assert Enabled(st, Return(st.lanes[task.tool.lane.value], DecisionSkip, None));
      }
    case Waiting(_, _, _) =>
      assert TaskShape(cat, st.ledger, task);
      assert Enabled(st, Wake(id));
  }

  lemma WaitingHasNoStep(st: State, l: Label)
    requires AllWait(st) && !l.Arrive? && !l.Cancel?
    ensures !Enabled(st, l)
  {
    if l.id in st.tasks && st.tasks[l.id].Unfinished() {
      assert InFlight(st, l.id);
    }
  }

  /** A reachable state is stuck exactly when every unfinished call waits on an unset event. */
  lemma StuckIffAllWait(cat: Catalog, st: State)
    requires Reachable(cat, st)
    ensures !CanProgress(st) <==> AllWait(st)
  {
    ReachableIsSound(cat, st);
    forall id: TaskId | InFlight(st, id) && !WaitsUnset(st, id)
      ensures CanProgress(st)
    {
      NotWaitingCanStep(cat, st, id);
    }
    if AllWait(st) {
      forall l: Label | !l.Arrive? && !l.Cancel?
        ensures !Enabled(st, l)
      {
        WaitingHasNoStep(st, l);
      }
    }
  }

  // ---------------------------------------------------------------- a stuck state has a cycle

  predicate DependsOn(tool: Tool, name: string) {
    exists d :: d in tool.dependencies && Feeds(name, d)
  }

  ghost predicate DependencyCycle(tools: seq<Tool>) {
    |tools| > 0 && forall i :: 0 <= i < |tools| ==> DependsOn(tools[i], Following(tools, i).name)
  }

  function ToolsOf(tasks: map<TaskId, Task>, ids: seq<TaskId>): (tools: seq<Tool>)
    requires forall i :: 0 <= i < |ids| ==> ids[i] in tasks
    ensures |tools| == |ids| && forall i :: 0 <= i < |ids| ==> tools[i] == tasks[ids[i]].tool
  {
    if |ids| == 0 then [] else [tasks[ids[0]].tool] + ToolsOf(tasks, ids[1..])
  }

  ghost predicate InFlightCycle(st: State, ids: seq<TaskId>) {
    && (forall i :: 0 <= i < |ids| ==> InFlight(st, ids[i]))
    && DependencyCycle(ToolsOf(st.tasks, ids))
  }

  /** A call waits for an unfinished call of a tool that feeds it. */
  lemma WaitsForHolder(cat: Catalog, st: State, id: TaskId)
    requires Sound(cat, st) && WaitsUnset(st, id)
    ensures var holder := st.tasks[id].phase.event;
      InFlight(st, holder) && DependsOn(st.tasks[id].tool, st.tasks[holder].tool.name)
  {
    var task := st.tasks[id];
    assert TaskShape(cat, st.ledger, task);
    assert EventHeld(st.ledger, st.tasks, task.phase.key);
    assert task.tool.dependencies[task.phase.dependency] in task.tool.dependencies;
  }

  ghost predicate WaitPath(st: State, path: seq<TaskId>) {
    && (forall i :: 0 <= i < |path| ==> WaitsUnset(st, path[i]))
    && (forall i :: 0 <= i < |path| - 1 ==> path[i + 1] == st.tasks[path[i]].phase.event)
  }

  /** Each call waits for the event that the next one holds, all the way round. */
  ghost predicate WaitCycle(st: State, ids: seq<TaskId>) {
    |ids| > 0 &&
      forall i :: 0 <= i < |ids| ==> WaitsUnset(st, ids[i]) && st.tasks[ids[i]].phase.event == Following(ids, i)
  }

  lemma LongerWaitPath(cat: Catalog, st: State, path: seq<TaskId>)
    requires Sound(cat, st) && AllWait(st) && |path| > 0 && WaitPath(st, path)
    ensures var holder := st.tasks[path[|path| - 1]].phase.event;
      holder in st.tasks && WaitPath(st, path + [holder])
  {
    var holder := st.tasks[path[|path| - 1]].phase.event;
    WaitsForHolder(cat, st, path[|path| - 1]);
    assert WaitsUnset(st, holder);
  }

  /** Following the holders of the events, some call is met twice. */
  lemma {:induction false} FollowWaits(cat: Catalog, st: State, path: seq<TaskId>, seen: set<TaskId>)
    requires Sound(cat, st) && AllWait(st) && |path| > 0 && WaitPath(st, path)
    requires forall id: TaskId :: id in path <==> id in seen
    ensures exists ids :: WaitCycle(st, ids)
    decreases st.tasks.Keys - seen
  {
    hide Sound, AllWait;
    var holder := st.tasks[path[|path| - 1]].phase.event;
    if holder in path {
      var k :| 0 <= k < |path| && path[k] == holder;
      assert WaitCycle(st, path[k..]);
    } else {
      LongerWaitPath(cat, st, path);
      FollowWaits(cat, st, path + [holder], seen + {holder});
    }
  }

  lemma StuckHasWaitCycle(cat: Catalog, st: State, id: TaskId)
    requires Reachable(cat, st) && InFlight(st, id) && !CanProgress(st)
    ensures exists ids :: WaitCycle(st, ids)
  {
    ReachableIsSound(cat, st);
    StuckIffAllWait(cat, st);
    assert WaitsUnset(st, id);
    FollowWaits(cat, st, [id], {id});
  }

  /** Whenever a reachable state is stuck with a call unfinished, the tools of calls in flight
      depend on one another in a cycle. */
  lemma StuckHasCycle(cat: Catalog, st: State, id: TaskId)
    requires Reachable(cat, st) && InFlight(st, id) && !CanProgress(st)
    ensures exists ids :: InFlightCycle(st, ids)
  {
    ReachableIsSound(cat, st);
    StuckHasWaitCycle(cat, st, id);
    var ids :| WaitCycle(st, ids);
    WaitCycleDepends(cat, st, ids);
  }

  lemma WaitCycleDepends(cat: Catalog, st: State, ids: seq<TaskId>)
    requires Sound(cat, st) && WaitCycle(st, ids)
    ensures InFlightCycle(st, ids)
  {
    hide Sound;
    var tools := ToolsOf(st.tasks, ids);
    forall i | 0 <= i < |tools|
      ensures DependsOn(tools[i], Following(tools, i).name)
    {
      WaitsForHolder(cat, st, ids[i]);
    }
    forall i | 0 <= i < |ids|
      ensures InFlight(st, ids[i])
    {
      WaitsForHolder(cat, st, ids[i]);
    }
  }

  // ---------------------------------------------------------------- what a waiting call has been given

  ghost predicate ResultsFed(cat: Catalog, fed: set<Tool>, results: map<string, Value>) {
    forall key :: key in results ==> NamesCallable(cat, key) && Find(cat.tools, key).value in fed
  }

  /** How many dependencies the frame has met. */
  function Met(t: Task): nat {
    var n := |t.tool.dependencies|;
    match t.phase
    case Asking(_) => 0
    case Resolving(i, _) => if i <= n then i else n
    case Waiting(i, _, _) => if i <= n then i else n
    case _ => n
  }

  /** An ordinary call in flight is of a callable tool, and what it has met so far could be met out of `fed`. */
  ghost predicate TaskFed(cat: Catalog, fed: set<Tool>, events: map<string, TaskId>, t: Task) {
    t.Ordinary() && t.Unfinished() ==>
      && Callable(cat, t.tool) && AcceptsRetained(cat, t.tool, t.call) && t.tool.name in events
      && PassesTo(cat, Possibly, fed, t.tool, Met(t))
  }

  ghost predicate TasksFed(cat: Catalog, fed: set<Tool>, events: map<string, TaskId>, tasks: map<TaskId, Task>) {
    forall id :: id in tasks ==> TaskFed(cat, fed, events, tasks[id])
  }

  ghost predicate AllGiven(cat: Catalog, fed: set<Tool>, st: State) {
    ResultsFed(cat, fed, st.ledger.results) && TasksFed(cat, fed, st.ledger.events, st.tasks)
  }

  lemma MovedGiven(cat: Catalog, fed: set<Tool>, events: map<string, TaskId>, events1: map<string, TaskId>,
                   tasks: map<TaskId, Task>, id: TaskId, task: Task)
    requires TasksFed(cat, fed, events, tasks) && events.Keys <= events1.Keys && TaskFed(cat, fed, events1, task)
    ensures TasksFed(cat, fed, events1, tasks[id := task])
  {
    hide PassesTo, Callable, AcceptsRetained;
    forall other | other in tasks && other != id
      ensures TaskFed(cat, fed, events1, tasks[other])
    {
      assert TaskFed(cat, fed, events, tasks[other]);
    }
  }

  lemma FailGiven(cat: Catalog, fed: set<Tool>, st: State, id: TaskId, fault: Fault, accepted: map<string, Value>)
    requires AllGiven(cat, fed, st) && id in st.tasks
    ensures AllGiven(cat, fed, Fail(st, id, fault, accepted))
  {
    FailEffect(st, id, fault, accepted);
    var st1 := Fail(st, id, fault, accepted);
    FailKeepsTables(st, id, fault, accepted);
    MovedGiven(cat, fed, st.ledger.events, st.ledger.events, st.tasks, id, st1.tasks[id]);
  }

  lemma FailKeepsTables(st: State, id: TaskId, fault: Fault, accepted: map<string, Value>)
    requires id in st.tasks
    ensures var led := Fail(st, id, fault, accepted).ledger;
      led.results == st.ledger.results && led.events == st.ledger.events
  {
    NoteFailureEffect(st, st.tasks[id], fault, accepted);
  }

  lemma SettleGiven(cat: Catalog, fed: set<Tool>, st: State, id: TaskId, outcome: Outcome)
    requires AllGiven(cat, fed, st) && id in st.tasks
    ensures AllGiven(cat, fed, Settle(st, id, outcome))
  {
    MovedGiven(cat, fed, st.ledger.events, st.ledger.events, st.tasks, id, st.tasks[id].(phase := Finished(outcome)));
  }

  /** A tool that returns could be fed throughout, so its result may be counted on. */
  lemma PublishGiven(cat: Catalog, fed: set<Tool>, st: State, id: TaskId, raw: Raw)
    requires FeedClosed(cat, Possibly, fed) && AllGiven(cat, fed, st) && id in st.tasks && st.tasks[id].phase.Running?
    requires !raw.Raised?
    ensures AllGiven(cat, fed, Publish(st, id, raw))
  {
    var task := st.tasks[id];
    PublishEffect(st, id, raw);
    assert TaskFed(cat, fed, st.ledger.events, task);
    if task.Ordinary() {
      assert task.tool in fed;
      PublishedFed(cat, fed, st.ledger, task, raw);
    }
  }

  lemma PublishedFed(cat: Catalog, fed: set<Tool>, led: Ledger, task: Task, raw: Raw)
    requires ResultsFed(cat, fed, led.results) && Callable(cat, task.tool) && task.tool in fed && !raw.Raised?
    ensures ResultsFed(cat, fed, PublishOrdinary(led, task, raw).results)
    ensures PublishOrdinary(led, task, raw).events == led.events
  {
  }

  lemma ConcludeGiven(cat: Catalog, fed: set<Tool>, st: State, id: TaskId, raw: Raw, late: Option<Fault>)
    requires FeedClosed(cat, Possibly, fed) && AllGiven(cat, fed, st) && id in st.tasks && st.tasks[id].phase.Running?
    ensures AllGiven(cat, fed, Conclude(st, id, raw, late))
  {
    if raw.Raised? {
      FailGiven(cat, fed, st, id, raw.fault, st.tasks[id].arguments);
    } else {
      PublishGiven(cat, fed, st, id, raw);
      PublishEffect(st, id, raw);
      var st1 := Publish(st, id, raw);
      if late.Some? {
        FailGiven(cat, fed, st1, id, late.value, st.tasks[id].arguments);
      } else {
        SettleGiven(cat, fed, st1, id, if raw.DecisionSkip? then Skip else Ok(raw.value));
      }
    }
  }

  /** One dependency more has been met. */
  lemma OneMoreMet(cat: Catalog, fed: set<Tool>, tool: Tool, i: nat)
    requires i < |tool.dependencies| && PassesTo(cat, Possibly, fed, tool, i)
    requires Passes(cat, Possibly, fed, tool, tool.dependencies[i])
    ensures PassesTo(cat, Possibly, fed, tool, i + 1)
  {
    hide Passes;
  }

  lemma ReadMeets(cat: Catalog, fed: set<Tool>, led: Ledger, task: Task, i: nat, key: string)
    requires ResultsFed(cat, fed, led.results) && TaskFed(cat, fed, led.events, task) && task.Ordinary()
    requires task.Unfinished()
    requires i < |task.tool.dependencies| && Met(task) == i && Feeds(key, task.tool.dependencies[i])
    ensures var advance := ReadLedger(led, task, i, key);
      advance.Continue? ==> TaskFed(cat, fed, led.events, advance.task)
  {
    if key in led.results {
      var d := task.tool.dependencies[i];
      assert Reads(cat, Possibly, Find(cat.tools, key).value, d);
      OneMoreMet(cat, fed, task.tool, i);
    }
    hide PassesTo, Callable, AcceptsRetained, ResultsFed;
  }

  lemma RetainedMeets(cat: Catalog, fed: set<Tool>, led: Ledger, task: Task)
    requires TaskFed(cat, fed, led.events, task) && task.Ordinary() && task.phase.Resolving?
    requires var i := task.phase.dependency;
      i < |task.tool.dependencies| && ResultKey(led, task.tool.dependencies[i]).None?
    requires task.tool.dependencies[task.phase.dependency].argName in task.call.retained
    ensures PassesTo(cat, Possibly, fed, task.tool, task.phase.dependency + 1)
  {
    var d := task.tool.dependencies[task.phase.dependency];
    assert AcceptsBinding(cat, task.tool, d.argName, task.call.retained[d.argName]);
    assert Retainable(cat, task.tool, d);
    OneMoreMet(cat, fed, task.tool, task.phase.dependency);
  }

  lemma LookGiven(cat: Catalog, fed: set<Tool>, led: Ledger, task: Task)
    requires ResultsFed(cat, fed, led.results) && TaskFed(cat, fed, led.events, task) && task.Ordinary()
    requires task.phase.Resolving?
    ensures var advance := LookOrdinary(led, task); advance.Continue? ==> TaskFed(cat, fed, led.events, advance.task)
  {
    var i := task.phase.dependency;
    if i < |task.tool.dependencies| {
      var key := ResultKey(led, task.tool.dependencies[i]);
      if key.Some? {
        ReadMeets(cat, fed, led, task, i, key.value);
      } else if task.tool.dependencies[i].argName in task.call.retained {
        RetainedMeets(cat, fed, led, task);
      }
    }
    hide PassesTo, Callable, AcceptsRetained, ResultsFed, ResultKey;
  }

  lemma AdvanceGiven(cat: Catalog, fed: set<Tool>, st: State, l: Label)
    requires Sound(cat, st) && AllGiven(cat, fed, st) && Enabled(st, l) && Resumes(l)
    ensures var advance := AdvanceOf(st, l); advance.Continue? ==> TaskFed(cat, fed, st.ledger.events, advance.task)
  {
    var task := st.tasks[l.id];
    AdvanceEffect(st, l);
    assert TaskShape(cat, st.ledger, task) && TaskFed(cat, fed, st.ledger.events, task);
    if task.Ordinary() {
      match l
      case Answer(_, _) =>
      case Look(_) => LookGiven(cat, fed, st.ledger, task);
      case Wake(_) => ReadMeets(cat, fed, st.ledger, task, task.phase.dependency, task.phase.key);
      case _ =>
    }
    hide Sound, PassesTo, Callable, AcceptsRetained, ResultsFed, LookOrdinary, LookRevision, ReadLedger;
  }

  lemma AcceptedGiven(cat: Catalog, fed: set<Tool>, st: State, id: TaskId, tool: Tool, call: Call,
                      refusal: Option<Rejection>)
    requires AllGiven(cat, fed, st) && id !in st.tasks
    ensures var st1 := ArriveAccepted(cat, st, id, tool, call, refusal);
      && ResultsFed(cat, fed, st1.ledger.results) && st.ledger.events.Keys <= st1.ledger.events.Keys
      && id in st1.tasks && st1.tasks == st.tasks[id := st1.tasks[id]]
      && st1.tasks[id].tool == tool && st1.tasks[id].call == call
      && (call.revision.None? ==> tool.name in st1.ledger.events && st1.tasks[id].phase == Asking(0))
  {
    if call.revision.Some? {
      RevisionEffect(st, id, tool, call, refusal);
    } else {
      OrdinaryEffect(cat, st, id, tool, call);
      OrdinaryTables(cat, st, id, tool, call);
    }
  }

  lemma OrdinaryTables(cat: Catalog, st: State, id: TaskId, tool: Tool, call: Call)
    ensures var led := ArriveOrdinary(cat, st, id, tool, call).ledger;
      && (forall key :: key in led.results ==> key in st.ledger.results)
      && st.ledger.events.Keys <= led.events.Keys && tool.name in led.events
  {
  }

  lemma ArriveGiven(cat: Catalog, fed: set<Tool>, st: State, id: TaskId, call: Call, fault: Option<Fault>)
    requires AllGiven(cat, fed, st) && id !in st.tasks
    ensures AllGiven(cat, fed, ArriveStep(cat, st, id, call, fault))
  {
    if Accepted(cat, call) {
      var tool := Find(cat.tools, call.toolId).value;
      var refusal := Refusal(cat, st, tool, call);
      var raised := ArrivalFault(cat, tool, call, fault);
      AcceptedGiven(cat, fed, st, id, tool, call, refusal);
      var st1 := ArriveAccepted(cat, st, id, tool, call, refusal);
      assert Callable(cat, tool);
      hide ArriveAccepted, Refusal, Accepted, PassesTo, Callable;
      PreparedGiven(cat, fed, st, st1, id, tool, call, raised);
    }
  }

  lemma PreparedGiven(cat: Catalog, fed: set<Tool>, st: State, st1: State, id: TaskId, tool: Tool, call: Call,
                      raised: Option<Fault>)
    requires TasksFed(cat, fed, st.ledger.events, st.tasks) && Callable(cat, tool)
    requires (raised.None? ==> AcceptsRetained(cat, tool, call))
    requires ResultsFed(cat, fed, st1.ledger.results) && st.ledger.events.Keys <= st1.ledger.events.Keys
    requires id in st1.tasks && st1.tasks == st.tasks[id := st1.tasks[id]]
    requires st1.tasks[id].tool == tool && st1.tasks[id].call == call
    requires call.revision.None? ==> tool.name in st1.ledger.events && st1.tasks[id].phase == Asking(0)
    ensures AllGiven(cat, fed, Prepared(st1, id, raised))
  {
    var st2 := Prepared(st1, id, raised);
    if st1.tasks[id].Unfinished() && raised.Some? {
      FailEffect(st1, id, raised.value, map[]);
      FailKeepsTables(st1, id, raised.value, map[]);
      assert st2.tasks == st.tasks[id := st2.tasks[id]];
    }
    MovedGiven(cat, fed, st.ledger.events, st2.ledger.events, st.tasks, id, st2.tasks[id]);
  }

  lemma StepGiven(cat: Catalog, fed: set<Tool>, st: State, l: Label)
    requires FeedClosed(cat, Possibly, fed) && Sound(cat, st) && AllGiven(cat, fed, st) && Enabled(st, l)
    ensures AllGiven(cat, fed, Step(cat, st, l))
  {
    if Resumes(l) {
      AdvanceGiven(cat, fed, st, l);
      AdvanceEffect(st, l);
      ResumeGiven(cat, fed, st, l.id, AdvanceOf(st, l));
    } else {
      match l
      case Arrive(id, call, fault) => ArriveGiven(cat, fed, st, id, call, fault);
      case Enter(id) =>
        assert TaskFed(cat, fed, st.ledger.events, st.tasks[id]);
        MovedGiven(cat, fed, st.ledger.events, st.ledger.events, st.tasks, id, st.tasks[id].(phase := Running));
      case Return(id, raw, late) => ConcludeGiven(cat, fed, st, id, raw, late);
      case Cancel(id) => SettleGiven(cat, fed, st, id, Cancelled);
    }
  }

  lemma ResumeGiven(cat: Catalog, fed: set<Tool>, st: State, id: TaskId, advance: Advance)
    requires AllGiven(cat, fed, st) && id in st.tasks
    requires (advance.Continue? ==> TaskFed(cat, fed, st.ledger.events, advance.task))
    ensures AllGiven(cat, fed, Resume(st, id, advance))
  {
    match advance
    case Continue(task) => MovedGiven(cat, fed, st.ledger.events, st.ledger.events, st.tasks, id, task);
    case GiveUp(fault, accepted) => FailGiven(cat, fed, st, id, fault, accepted);
  }

  lemma {:induction false} RunGiven(cat: Catalog, fed: set<Tool>, st: State, ls: seq<Label>)
    requires FeedClosed(cat, Possibly, fed) && Sound(cat, st) && AllGiven(cat, fed, st) && IsRun(cat, st, ls)
    ensures AllGiven(cat, fed, After(cat, st, ls))
    decreases |ls|
  {
    hide Step, Enabled, FeedClosed, Sound, AllGiven;
    if |ls| > 0 {
      StepGiven(cat, fed, st, ls[0]);
      StepKeepsSound(cat, st, ls[0]);
      RunGiven(cat, fed, Step(cat, st, ls[0]), ls[1..]);
    }
  }

  /** A call that waits has met everything ahead, so its tool can come to wait for the holder's. */
  lemma WaitingLeads(cat: Catalog, st: State, id: TaskId)
    requires Sound(cat, st) && AllGiven(cat, AllFed(cat, Possibly), st) && WaitsUnset(st, id)
    ensures var holder := st.tasks[id].phase.event;
      holder in st.tasks && (WaitsUnset(st, holder) ==> Leads(cat, Possibly, st.tasks[id].tool, st.tasks[holder].tool))
  {
    var task, holder := st.tasks[id], st.tasks[id].phase.event;
    WaitsForHolder(cat, st, id);
    assert TaskShape(cat, st.ledger, task) && EventHeld(st.ledger, st.tasks, task.phase.key);
    assert TaskFed(cat, AllFed(cat, Possibly), st.ledger.events, task);
    if WaitsUnset(st, holder) {
      assert TaskShape(cat, st.ledger, st.tasks[holder]) &&
        TaskFed(cat, AllFed(cat, Possibly), st.ledger.events, st.tasks[holder]);
      assert Reads(cat, Possibly, st.tasks[holder].tool, task.tool.dependencies[task.phase.dependency]);
    }
  }

  /** A catalogue can hang: some reachable state has a call unfinished and no step of any call left. */
  ghost predicate CanHang(cat: Catalog) {
    exists st, id: TaskId :: Reachable(cat, st) && InFlight(st, id) && !CanProgress(st)
  }

  /** Whenever some run hangs, tools that can come to wait for one another do so in a cycle. */
  lemma HangHasCycle(cat: Catalog)
    requires CanHang(cat)
    ensures exists tools :: FedCycle(cat, Possibly, tools)
  {
    var st, id :| Reachable(cat, st) && InFlight(st, id) && !CanProgress(st);
    StuckHasWaitCycle(cat, st, id);
    var ids :| WaitCycle(st, ids);
    ReachableIsSound(cat, st);
    var ks := LeastFeed(cat, Possibly);
    var ls :| IsRun(cat, EMPTY, ls) && After(cat, EMPTY, ls) == st;
    assert AllGiven(cat, AllFed(cat, Possibly), EMPTY);
    RunGiven(cat, AllFed(cat, Possibly), EMPTY, ls);
    WaitCycleLeads(cat, st, ids);
  }

  lemma WaitCycleLeads(cat: Catalog, st: State, ids: seq<TaskId>)
    requires Sound(cat, st) && AllGiven(cat, AllFed(cat, Possibly), st) && WaitCycle(st, ids)
    ensures exists tools :: FedCycle(cat, Possibly, tools)
  {
    hide Sound, AllGiven, Leads;
    var tools := ToolsOf(st.tasks, ids);
    forall i | 0 <= i < |tools|
      ensures Leads(cat, Possibly, tools[i], Following(tools, i))
    {
      assert WaitsUnset(st, Following(ids, i));
      WaitingLeads(cat, st, ids[i]);
    }
    assert FedCycle(cat, Possibly, tools);
  }

  // ---------------------------------------------------------------- ranked declarations

  lemma LeadDrops(cat: Catalog, rank: string -> nat, t: Tool, u: Tool)
    requires Acyclic(cat.tools, rank) && Leads(cat, Possibly, t, u)
    ensures rank(u.name) < rank(t.name)
  {
    var j: nat :| j < |t.dependencies| && Reads(cat, Possibly, u, t.dependencies[j]);
    assert t in cat.tools && t.dependencies[j] in t.dependencies;
  }

  /** Along a cycle the rank only drops. */
  lemma {:induction false} RankAlong(cat: Catalog, rank: string -> nat, tools: seq<Tool>, i: nat)
    requires Acyclic(cat.tools, rank) && FedCycle(cat, Possibly, tools) && i < |tools|
    ensures rank(tools[i].name) <= rank(tools[0].name)
  {
    hide Leads, Acyclic;
    if i > 0 {
      RankAlong(cat, rank, tools, i - 1);
      assert Leads(cat, Possibly, tools[i - 1], Following(tools, i - 1));
      LeadDrops(cat, rank, tools[i - 1], tools[i]);
    }
  }

  /** A rank that drops along every declared dependency excludes every hang. */
  lemma RankedNeverHangs(cat: Catalog, rank: string -> nat)
    requires Acyclic(cat.tools, rank)
    ensures !CanHang(cat)
  {
    hide Leads, Acyclic, CanHang;
    if CanHang(cat) {
      HangHasCycle(cat);
      var tools :| FedCycle(cat, Possibly, tools);
      var last := |tools| - 1;
      RankAlong(cat, rank, tools, last);
      assert Leads(cat, Possibly, tools[last], Following(tools, last));
      LeadDrops(cat, rank, tools[last], tools[0]);
    }
  }
}
