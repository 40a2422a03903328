/** What a target is called with, and that no lane runs two at once. */
module RuntimeArguments {
  import opened Options
  import opened ToolCatalog
  import opened ToolRuntime
  import opened RuntimeFrames
  import opened RuntimeProgress

  // ---------------------------------------------------------------- lanes

  predicate HoldsLane(lanes: map<string, TaskId>, id: TaskId, t: Task) {
    t.phase.Running? && t.tool.lane.Some? ==> t.tool.lane.value in lanes && lanes[t.tool.lane.value] == id
  }

  /** Every running call of a serialized owner has its owner's lane. */
  ghost predicate AllHoldLanes(st: State) {
    forall id: TaskId :: id in st.tasks ==> HoldsLane(st.lanes, id, st.tasks[id])
  }

  lemma MovedHolds(st: State, id: TaskId, task: Task)
    requires AllHoldLanes(st) && HoldsLane(st.lanes, id, task)
    ensures AllHoldLanes(st.(tasks := st.tasks[id := task]))
  {
  }

  lemma SettleHolds(st: State, id: TaskId, outcome: Outcome)
    requires AllHoldLanes(st) && id in st.tasks
    ensures AllHoldLanes(Settle(st, id, outcome))
  {
    forall other: TaskId | other in st.tasks
      ensures HoldsLane(Settle(st, id, outcome).lanes, other, Settle(st, id, outcome).tasks[other])
    {
      assert HoldsLane(st.lanes, other, st.tasks[other]);
    }
  }

  lemma FailHolds(st: State, id: TaskId, fault: Fault, accepted: map<string, Value>)
    requires AllHoldLanes(st) && id in st.tasks
    ensures AllHoldLanes(Fail(st, id, fault, accepted))
  {
    NoteFailureEffect(st, st.tasks[id], fault, accepted);
    hide NoteFailure;
    SettleHolds(NoteFailure(st, st.tasks[id], fault, accepted), id, Error(fault));
  }

  lemma ArriveHolds(cat: Catalog, st: State, id: TaskId, call: Call, fault: Option<Fault>)
    requires AllHoldLanes(st) && id !in st.tasks
    ensures AllHoldLanes(ArriveStep(cat, st, id, call, fault))
  {
    hide Refusal, ArrivalFault, AllHoldLanes, ArriveAccepted;
    if Accepted(cat, call) {
      var tool := Find(cat.tools, call.toolId).value;
      var refusal := Refusal(cat, st, tool, call);
      AcceptedHolds(cat, st, id, tool, call, refusal);
      var st1 := ArriveAccepted(cat, st, id, tool, call, refusal);
      var raised := ArrivalFault(cat, tool, call, fault);
      if id in st1.tasks && st1.tasks[id].Unfinished() && raised.Some? {
        FailHolds(st1, id, raised.value, map[]);
      }
    }
  }

  lemma AcceptedHolds(cat: Catalog, st: State, id: TaskId, tool: Tool, call: Call, refusal: Option<Rejection>)
    requires AllHoldLanes(st) && id !in st.tasks
    ensures AllHoldLanes(ArriveAccepted(cat, st, id, tool, call, refusal))
  {
    if call.revision.Some? {
      var branch := if refusal.Some? then None else call.revision.value.root;
      var task := Task(call, tool, None, branch, false, call.supplied, Asking(0));
      MovedHolds(st, id, task);
      if refusal.Some? {
        FailHolds(st.(tasks := st.tasks[id := task]), id, Rejected(refusal.value), map[]);
      }
    } else {
      OrdinaryEffect(cat, st, id, tool, call);
      OrdinaryAsks(cat, st, id, tool, call);
      hide ArriveOrdinary;
      MovedHolds(st, id, ArriveOrdinary(cat, st, id, tool, call).tasks[id]);
    }
  }

  lemma OrdinaryAsks(cat: Catalog, st: State, id: TaskId, tool: Tool, call: Call)
    ensures var st1 := ArriveOrdinary(cat, st, id, tool, call);
      id in st1.tasks && st1.tasks[id].phase == Asking(0) && st1.tasks[id].arguments == call.supplied
  {
    hide BeginInputRound, OpenEvent, DependencyFed;
  }

  lemma ConcludeHolds(st: State, id: TaskId, raw: Raw, late: Option<Fault>)
    requires AllHoldLanes(st) && id in st.tasks
    ensures AllHoldLanes(Conclude(st, id, raw, late))
  {
    hide AllHoldLanes, Fail, Settle;
    if raw.Raised? {
      FailHolds(st, id, raw.fault, st.tasks[id].arguments);
    } else {
      PublishHolds(st, id, raw);
      PublishEffect(st, id, raw);
      hide Publish;
      if late.Some? {
        FailHolds(Publish(st, id, raw), id, late.value, st.tasks[id].arguments);
      } else {
        SettleHolds(Publish(st, id, raw), id, if raw.DecisionSkip? then Skip else Ok(raw.value));
      }
    }
  }

  lemma PublishHolds(st: State, id: TaskId, raw: Raw)
    requires AllHoldLanes(st) && id in st.tasks && !raw.Raised?
    ensures AllHoldLanes(Publish(st, id, raw))
  {
    PublishEffect(st, id, raw);
    hide Publish;
  }

  lemma StepHolds(cat: Catalog, st: State, l: Label)
    requires AllHoldLanes(st) && Enabled(st, l)
    ensures AllHoldLanes(Step(cat, st, l))
  {
    if Resumes(l) {
      AdvanceEffect(st, l);
      hide AllHoldLanes, LookAdvance, ReadLedger, AnswerAdvance, Fail;
      match AdvanceOf(st, l)
      case Continue(task) => MovedHolds(st, l.id, task);
      case GiveUp(fault, accepted) => FailHolds(st, l.id, fault, accepted);
    } else {
      match l
      case Arrive(id, call, fault) => ArriveHolds(cat, st, id, call, fault);
      case Enter(id) => EnterHolds(st, id);
      case Return(id, raw, late) => ConcludeHolds(st, id, raw, late);
      case Cancel(id) => SettleHolds(st, id, Cancelled);
    }
  }

  lemma EnterHolds(st: State, id: TaskId)
    requires AllHoldLanes(st) && id in st.tasks && LaneFree(st, st.tasks[id])
    ensures AllHoldLanes(EnterLane(st, id))
  {
    forall other: TaskId | other in st.tasks
      ensures HoldsLane(EnterLane(st, id).lanes, other, EnterLane(st, id).tasks[other])
    {
      assert HoldsLane(st.lanes, other, st.tasks[other]);
    }
  }

  lemma {:induction false} RunHolds(cat: Catalog, st: State, ls: seq<Label>)
    requires AllHoldLanes(st) && IsRun(cat, st, ls)
    ensures AllHoldLanes(After(cat, st, ls))
    decreases |ls|
  {
    hide Step, Enabled, AllHoldLanes;
    if |ls| > 0 {
      StepHolds(cat, st, ls[0]);
      RunHolds(cat, Step(cat, st, ls[0]), ls[1..]);
    }
  }

  /** Two calls of one serialized owner never run at once. */
  lemma OneRunsPerLane(cat: Catalog, st: State, a: TaskId, b: TaskId)
    requires Reachable(cat, st) && a in st.tasks && b in st.tasks
    requires st.tasks[a].phase.Running? && st.tasks[b].phase.Running?
    requires st.tasks[a].tool.lane.Some? && st.tasks[a].tool.lane == st.tasks[b].tool.lane
    ensures a == b
  {
    var ls :| IsRun(cat, EMPTY, ls) && After(cat, EMPTY, ls) == st;
    RunHolds(cat, EMPTY, ls);
    assert HoldsLane(st.lanes, a, st.tasks[a]) && HoldsLane(st.lanes, b, st.tasks[b]);
  }

  // ---------------------------------------------------------------- arguments

  /** An answer goes to the very argument asked for, one that is supplied is not asked for, and without an
      answer the call fails; nothing else of the frame changes. */
  lemma AnswerReachesItsArgument(cat: Catalog, st: State, id: TaskId, answer: Option<Value>)
    requires Enabled(st, Answer(id, answer)) && st.tasks[id].phase.input < |st.tasks[id].tool.inputs|
    ensures var task, st1 := st.tasks[id], Step(cat, st, Answer(id, answer));
      var i, name := task.phase.input, task.tool.inputs[task.phase.input];
      && id in st1.tasks
      && (if name in task.arguments then st1.tasks[id] == task.(phase := Asking(i + 1))
          else if answer.Some? then
            st1.tasks[id] == task.(phase := Asking(i + 1), arguments := task.arguments[name := answer.value])
          else st1.tasks[id] == task.(phase := Finished(Error(OtherFault))))
      && (name in task.arguments || answer.Some? ==> st1 == st.(tasks := st.tasks[id := st1.tasks[id]]))
  {
    var task := st.tasks[id];
    if task.tool.inputs[task.phase.input] !in task.arguments && answer.None? {
      FailEffect(st, id, OtherFault, map[]);
      hide Fail;
    }
  }

  /** How many inputs and dependencies a frame has behind it. */
  function Asked(t: Task): nat {
    var n := |t.tool.inputs|;
    if t.phase.Asking? && t.phase.input < n then t.phase.input else n
  }

  function Resolved(t: Task): nat {
    var n := |t.tool.dependencies|;
    match t.phase
    case Asking(_) => 0
    case Resolving(i, _) => if i < n then i else n
    case Waiting(i, _, _) => if i < n then i else n
    case _ => n
  }

  /** The arguments so far: everything behind the frame is there, and what was supplied is as supplied,
      unless a dependency has replaced it. */
  ghost predicate Ready(t: Task) {
    && (forall j :: 0 <= j < Asked(t) ==> t.tool.inputs[j] in t.arguments)
    && (forall j :: 0 <= j < Resolved(t) ==> t.tool.dependencies[j].argName in t.arguments)
    && (forall name :: name in t.call.supplied ==> KeepsSupplied(t, name))
  }

  predicate KeepsSupplied(t: Task, name: string)
    requires name in t.call.supplied
  {
    name in t.arguments && (t.arguments[name] == t.call.supplied[name] || IsFed(t.tool, name))
  }

  predicate IsFed(tool: Tool, name: string) {
    exists d :: d in tool.dependencies && d.argName == name
  }

  ghost predicate AllReady(st: State) {
    forall id: TaskId :: id in st.tasks && st.tasks[id].Unfinished() ==> Ready(st.tasks[id])
  }

  lemma SupplyReadies(task: Task, i: nat, value: Value)
    requires Ready(task) && i < |task.tool.dependencies| && Resolved(task) == i && Asked(task) == |task.tool.inputs|
    ensures Ready(Supply(task, i, value).task)
  {
    assert task.tool.dependencies[i] in task.tool.dependencies;
    assert IsFed(task.tool, task.tool.dependencies[i].argName);
    hide IsFed;
  }

  lemma AdvanceReadies(cat: Catalog, st: State, l: Label)
    requires Sound(cat, st) && Enabled(st, l) && Resumes(l) && Ready(st.tasks[l.id])
    ensures var advance := AdvanceOf(st, l); advance.Continue? ==> Ready(advance.task)
  {
    hide AnswerAdvance, Supply, IsFed, ResultKey, BranchValue, RootRefusal;
    var task := st.tasks[l.id];
    match l
    case Answer(_, answer) => AnswerReadies(task, answer);
    case Look(_) =>
      if task.phase.dependency < |task.tool.dependencies| {
        LookReadies(st, task);
      }
    case Wake(_) =>
      if task.phase.key in st.ledger.results {
        SupplyReadies(task, task.phase.dependency, st.ledger.results[task.phase.key]);
      }
    case _ =>
  }

  lemma LookReadies(st: State, task: Task)
    requires Ready(task) && task.phase.Resolving? && task.phase.dependency < |task.tool.dependencies|
    ensures var advance := LookAdvance(st, task); advance.Continue? ==> Ready(advance.task)
  {
    forall value
      ensures Ready(Supply(task, task.phase.dependency, value).task)
    {
      SupplyReadies(task, task.phase.dependency, value);
    }
    hide Supply, ResultKey, BranchValue, RootRefusal;
  }

  lemma AnswerReadies(task: Task, answer: Option<Value>)
    requires Ready(task) && task.phase.Asking?
    ensures var advance := AnswerAdvance(task, answer); advance.Continue? ==> Ready(advance.task)
  {
    hide IsFed;
  }

  lemma ArriveReadies(cat: Catalog, st: State, id: TaskId, call: Call, fault: Option<Fault>)
    requires id !in st.tasks
    ensures var st1 := ArriveStep(cat, st, id, call, fault);
      id in st1.tasks && st1.tasks[id].Unfinished() ==> Ready(st1.tasks[id])
  {
    hide Refusal, ArrivalFault, ArriveAccepted;
    if Accepted(cat, call) {
      var tool := Find(cat.tools, call.toolId).value;
      var refusal := Refusal(cat, st, tool, call);
      var raised := ArrivalFault(cat, tool, call, fault);
      AcceptedReadies(cat, st, id, tool, call, refusal);
      var st1 := ArriveAccepted(cat, st, id, tool, call, refusal);
      if id in st1.tasks && st1.tasks[id].Unfinished() && raised.Some? {
        FailEffect(st1, id, raised.value, map[]);
        hide Fail;
      }
    }
  }

  lemma AcceptedReadies(cat: Catalog, st: State, id: TaskId, tool: Tool, call: Call, refusal: Option<Rejection>)
    requires id !in st.tasks
    ensures var st1 := ArriveAccepted(cat, st, id, tool, call, refusal);
      id in st1.tasks && st1.tasks[id].Unfinished() ==> Ready(st1.tasks[id])
  {
    if call.revision.Some? {
      RevisionEffect(st, id, tool, call, refusal);
    } else {
      OrdinaryEffect(cat, st, id, tool, call);
      OrdinaryAsks(cat, st, id, tool, call);
    }
    hide ArriveOrdinary, ArriveRevision;
  }

  lemma StepReadies(cat: Catalog, st: State, l: Label)
    requires Sound(cat, st) && AllReady(st) && Enabled(st, l)
    ensures AllReady(Step(cat, st, l))
  {
    var st1 := Step(cat, st, l);
    StepEffect(cat, st, l);
    assert l.id in st1.tasks && st1.tasks[l.id].Unfinished() ==> Ready(st1.tasks[l.id]) by {
      OwnStepReadies(cat, st, l);
    }
    hide Step, Enabled, Ready, Sound;
    forall other: TaskId | other in st1.tasks && other != l.id && st1.tasks[other].Unfinished()
      ensures Ready(st1.tasks[other])
    {
      assert other in st.tasks && st.tasks[other] == st1.tasks[other];
    }
  }

  lemma OwnStepReadies(cat: Catalog, st: State, l: Label)
    requires Sound(cat, st) && AllReady(st) && Enabled(st, l)
    ensures var st1 := Step(cat, st, l); l.id in st1.tasks && st1.tasks[l.id].Unfinished() ==> Ready(st1.tasks[l.id])
  {
    hide Ready, Sound;
    if Resumes(l) {
      AdvanceEffect(st, l);
      AdvanceReadies(cat, st, l);
      ResumeEffect(st, l.id, AdvanceOf(st, l));
      hide AdvanceOf, Fail;
      if AdvanceOf(st, l).GiveUp? {
        FailEffect(st, l.id, AdvanceOf(st, l).fault, AdvanceOf(st, l).accepted);
      }
    } else {
      match l
      case Arrive(id, call, fault) => ArriveReadies(cat, st, id, call, fault);
      case Enter(id) => EnterReadies(st.tasks[id]);
      case Return(id, raw, late) => ConcludeEffect(st, id, raw, late);
      case Cancel(id) =>
    }
  }

  lemma EnterReadies(task: Task)
    requires Ready(task) && task.phase.Queued?
    ensures Ready(task.(phase := Running))
  {
  }

  lemma {:induction false} RunReadies(cat: Catalog, st: State, ls: seq<Label>)
    requires Sound(cat, st) && AllReady(st) && IsRun(cat, st, ls)
    ensures AllReady(After(cat, st, ls))
    decreases |ls|
  {
    hide Step, Enabled, AllReady, Sound;
    if |ls| > 0 {
      StepReadies(cat, st, ls[0]);
      StepKeepsSound(cat, st, ls[0]);
      RunReadies(cat, Step(cat, st, ls[0]), ls[1..]);
    }
  }

  /** A target is only ever started with all its human-supplied and all its dependency arguments, and what
      the call came with is what it gets, unless a dependency feeds that argument. */
  lemma TargetHasItsArguments(cat: Catalog, st: State, id: TaskId)
    requires Reachable(cat, st) && id in st.tasks && st.tasks[id].phase.Running?
    ensures var task := st.tasks[id];
      && (forall j :: 0 <= j < |task.tool.inputs| ==> task.tool.inputs[j] in task.arguments)
      && (forall j :: 0 <= j < |task.tool.dependencies| ==> task.tool.dependencies[j].argName in task.arguments)
      && (forall name :: name in task.call.supplied && !IsFed(task.tool, name) ==>
            name in task.arguments && task.arguments[name] == task.call.supplied[name])
  {
    var ls :| IsRun(cat, EMPTY, ls) && After(cat, EMPTY, ls) == st;
    RunReadies(cat, EMPTY, ls);
    hide Reachable, IsRun, After;
    assert Ready(st.tasks[id]);
    assert forall name :: name in st.tasks[id].call.supplied ==> KeepsSupplied(st.tasks[id], name);
  }
}
