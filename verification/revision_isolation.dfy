/** Dependency revisions never disturb ordinary calls: erase them all and nothing else changes. */
module RevisionIsolation {
  import opened Options
  import opened ToolCatalog
  import opened ToolRuntime
  import opened RuntimeFrames
  import opened RuntimeProgress

  function OrdinaryTasks(tasks: map<TaskId, Task>): map<TaskId, Task> {
    map id | id in tasks && tasks[id].Ordinary() :: tasks[id]
  }

  function OrdinaryLanes(lanes: map<string, TaskId>, ordinary: map<TaskId, Task>): map<string, TaskId> {
    map lane | lane in lanes && lanes[lane] in ordinary :: lanes[lane]
  }

  /** `plain` is `st` without its revision calls; the records of finished calls may differ. */
  ghost predicate Agrees(st: State, plain: State) {
    && plain.ledger == st.ledger
    && plain.tasks == OrdinaryTasks(st.tasks)
    && plain.lanes == OrdinaryLanes(st.lanes, plain.tasks)
  }

  predicate OfRevision(st: State, l: Label) {
    if l.Arrive? then l.call.revision.Some? else l.id in st.tasks && !st.tasks[l.id].Ordinary()
  }

  /** The run without the steps of revision calls. */
  ghost function Erase(cat: Catalog, st: State, ls: seq<Label>): seq<Label>
    requires IsRun(cat, st, ls)
    decreases |ls|
  {
    if ls == [] then []
    else
      var rest := Erase(cat, Step(cat, st, ls[0]), ls[1..]);
      if OfRevision(st, ls[0]) then rest else [ls[0]] + rest
  }

  // ---------------------------------------------------------------- steps of revision calls

  lemma PutHidden(tasks: map<TaskId, Task>, id: TaskId, task: Task)
    requires !task.Ordinary() && (id in tasks ==> !tasks[id].Ordinary())
    ensures OrdinaryTasks(tasks[id := task]) == OrdinaryTasks(tasks)
  {
  }

  lemma DropHiddenLanes(lanes: map<string, TaskId>, ordinary: map<TaskId, Task>, id: TaskId)
    requires id !in ordinary
    ensures OrdinaryLanes(LanesWithout(lanes, id), ordinary) == OrdinaryLanes(lanes, ordinary)
  {
  }

  lemma PutHiddenLane(lanes: map<string, TaskId>, ordinary: map<TaskId, Task>, lane: string, id: TaskId)
    requires id !in ordinary && lane !in lanes
    ensures OrdinaryLanes(lanes[lane := id], ordinary) == OrdinaryLanes(lanes, ordinary)
  {
  }

  lemma SettleHidden(st: State, plain: State, id: TaskId, outcome: Outcome)
    requires Agrees(st, plain) && id in st.tasks && !st.tasks[id].Ordinary() && st.tasks[id].event.None?
    ensures Agrees(Settle(st, id, outcome), plain)
  {
    PutHidden(st.tasks, id, st.tasks[id].(phase := Finished(outcome)));
    DropHiddenLanes(st.lanes, plain.tasks, id);
  }

  lemma FailHidden(cat: Catalog, st: State, plain: State, id: TaskId, fault: Fault, accepted: map<string, Value>)
    requires Sound(cat, st) && Agrees(st, plain) && id in st.tasks && !st.tasks[id].Ordinary()
    ensures Agrees(Fail(st, id, fault, accepted), plain)
  {
    assert TaskShape(cat, st.ledger, st.tasks[id]);
    SettleHidden(NoteFailure(st, st.tasks[id], fault, accepted), plain, id, Error(fault));
  }

  lemma EnterHidden(st: State, plain: State, id: TaskId)
    requires Agrees(st, plain) && Enabled(st, Enter(id)) && !st.tasks[id].Ordinary()
    ensures Agrees(EnterLane(st, id), plain)
  {
    var task := st.tasks[id];
    PutHidden(st.tasks, id, task.(phase := Running));
    if task.tool.lane.Some? {
      PutHiddenLane(st.lanes, plain.tasks, task.tool.lane.value, id);
    }
  }

  lemma ArriveHidden(cat: Catalog, st: State, plain: State, id: TaskId, call: Call, fault: Option<Fault>)
    requires Sound(cat, st) && Agrees(st, plain) && id !in st.tasks && call.revision.Some?
    ensures Agrees(ArriveStep(cat, st, id, call, fault), plain)
  {
    if Accepted(cat, call) {
      var tool := Find(cat.tools, call.toolId).value;
      var refusal := Refusal(cat, st, tool, call);
      RefusalNamesRoot(cat, st, tool, call);
      AcceptedKeepsSound(cat, st, id, tool, call, refusal);
      AdmittedHidden(cat, st, plain, id, tool, call, refusal);
      PreparedHidden(cat, ArriveAccepted(cat, st, id, tool, call, refusal), plain, id,
        ArrivalFault(cat, tool, call, fault));
    }
  }

  lemma PreparedHidden(cat: Catalog, st: State, plain: State, id: TaskId, fault: Option<Fault>)
    requires Sound(cat, st) && Agrees(st, plain) && id in st.tasks && !st.tasks[id].Ordinary()
    ensures Agrees(Prepared(st, id, fault), plain)
  {
    if st.tasks[id].Unfinished() && fault.Some? {
      FailHidden(cat, st, plain, id, fault.value, map[]);
    }
  }

  lemma AdmittedHidden(cat: Catalog, st: State, plain: State, id: TaskId, tool: Tool, call: Call,
                       refusal: Option<Rejection>)
    requires Sound(cat, st) && Agrees(st, plain) && id !in st.tasks && call.revision.Some?
    ensures var st1 := ArriveAccepted(cat, st, id, tool, call, refusal);
      Agrees(st1, plain) && id in st1.tasks && !st1.tasks[id].Ordinary()
  {
    RevisionEffect(st, id, tool, call, refusal);
    RevisionKeepsLanes(st, id, tool, call, refusal);
    var st1 := ArriveAccepted(cat, st, id, tool, call, refusal);
    assert st1 == ArriveRevision(st, id, tool, call, refusal);
    PutHidden(st.tasks, id, st1.tasks[id]);
  }

  lemma RevisionStepHidden(cat: Catalog, st: State, plain: State, l: Label)
    requires Sound(cat, st) && Agrees(st, plain) && Enabled(st, l) && OfRevision(st, l)
    ensures Agrees(Step(cat, st, l), plain)
  {
    if Resumes(l) {
      AdvanceEffect(st, l);
      ResumeHidden(cat, st, plain, l.id, AdvanceOf(st, l));
    } else {
      match l
      case Arrive(id, call, fault) => ArriveHidden(cat, st, plain, id, call, fault);
      case Enter(id) => EnterHidden(st, plain, id);
      case Return(id, raw, late) => ConcludeHidden(cat, st, plain, id, raw, late);
      case Cancel(id) => CancelHidden(cat, st, plain, id);
    }
  }

  lemma CancelHidden(cat: Catalog, st: State, plain: State, id: TaskId)
    requires Sound(cat, st) && Agrees(st, plain) && id in st.tasks && !st.tasks[id].Ordinary()
    ensures Agrees(Settle(st, id, Cancelled), plain)
  {
    assert TaskShape(cat, st.ledger, st.tasks[id]);
    SettleHidden(st, plain, id, Cancelled);
  }

  lemma ResumeHidden(cat: Catalog, st: State, plain: State, id: TaskId, advance: Advance)
    requires Sound(cat, st) && Agrees(st, plain) && id in st.tasks && !st.tasks[id].Ordinary()
    requires advance.Continue? ==> !advance.task.Ordinary()
    ensures Agrees(Resume(st, id, advance), plain)
  {
    if advance.GiveUp? {
      FailHidden(cat, st, plain, id, advance.fault, advance.accepted);
    }
  }

  lemma ConcludeHidden(cat: Catalog, st: State, plain: State, id: TaskId, raw: Raw, late: Option<Fault>)
    requires Sound(cat, st) && Agrees(st, plain) && id in st.tasks && !st.tasks[id].Ordinary()
    ensures Agrees(Conclude(st, id, raw, late), plain)
  {
    if raw.Raised? {
      FailHidden(cat, st, plain, id, raw.fault, st.tasks[id].arguments);
    } else {
      var st1 := Publish(st, id, raw);
      assert SameFrame(st, st1) && Agrees(st1, plain);
      if late.Some? {
        FailHidden(cat, st1, plain, id, late.value, st.tasks[id].arguments);
      } else {
        assert TaskShape(cat, st.ledger, st.tasks[id]);
        SettleHidden(st1, plain, id, if raw.DecisionSkip? then Skip else Ok(raw.value));
      }
    }
  }

  // ---------------------------------------------------------------- steps of ordinary calls

  lemma PutOrdinary(tasks: map<TaskId, Task>, id: TaskId, task: Task)
    requires task.Ordinary()
    ensures OrdinaryTasks(tasks[id := task]) == OrdinaryTasks(tasks)[id := task]
  {
  }

  /** A frame that holds no lane, or that was ordinary before, changes no lane's kind. */
  lemma SameOrdinaryLanes(lanes: map<string, TaskId>, ordinary: map<TaskId, Task>, id: TaskId, task: Task)
    requires id in ordinary || forall lane :: lane in lanes ==> lanes[lane] != id
    ensures OrdinaryLanes(lanes, ordinary[id := task]) == OrdinaryLanes(lanes, ordinary)
  {
  }

  lemma DropOrdinaryLanes(lanes: map<string, TaskId>, ordinary: map<TaskId, Task>, id: TaskId)
    ensures var few := OrdinaryLanes(lanes, ordinary);
      OrdinaryLanes(LanesWithout(lanes, id), ordinary) == LanesWithout(few, id)
  {
  }

  lemma SettleMirrored(st: State, plain: State, id: TaskId, outcome: Outcome)
    requires Agrees(st, plain) && id in st.tasks && st.tasks[id].Ordinary()
    ensures Agrees(Settle(st, id, outcome), Settle(plain, id, outcome))
  {
    var task := st.tasks[id].(phase := Finished(outcome));
    assert plain.tasks[id] == st.tasks[id];
    PutOrdinary(st.tasks, id, task);
    DropOrdinaryLanes(st.lanes, plain.tasks, id);
    SameOrdinaryLanes(Settle(st, id, outcome).lanes, plain.tasks, id, task);
  }

  lemma FailMirrored(st: State, plain: State, id: TaskId, fault: Fault, accepted: map<string, Value>)
    requires Agrees(st, plain) && id in st.tasks && st.tasks[id].Ordinary()
    ensures Agrees(Fail(st, id, fault, accepted), Fail(plain, id, fault, accepted))
  {
    SettleMirrored(NoteFailure(st, st.tasks[id], fault, accepted), NoteFailure(plain, st.tasks[id], fault, accepted),
      id, Error(fault));
  }

  lemma ResumeMirrored(st: State, plain: State, id: TaskId, advance: Advance)
    requires Agrees(st, plain) && id in st.tasks && st.tasks[id].Ordinary()
    requires advance.Continue? ==> advance.task.Ordinary()
    ensures Agrees(Resume(st, id, advance), Resume(plain, id, advance))
  {
    if advance.GiveUp? {
      FailMirrored(st, plain, id, advance.fault, advance.accepted);
    }
  }

  lemma ConcludeMirrored(st: State, plain: State, id: TaskId, raw: Raw, late: Option<Fault>)
    requires Agrees(st, plain) && id in st.tasks && st.tasks[id].Ordinary()
    ensures Agrees(Conclude(st, id, raw, late), Conclude(plain, id, raw, late))
  {
    if raw.Raised? {
      FailMirrored(st, plain, id, raw.fault, st.tasks[id].arguments);
    } else {
      var st1, plain1 := Publish(st, id, raw), Publish(plain, id, raw);
      assert Agrees(st1, plain1);
      if late.Some? {
        FailMirrored(st1, plain1, id, late.value, st.tasks[id].arguments);
      } else {
        SettleMirrored(st1, plain1, id, if raw.DecisionSkip? then Skip else Ok(raw.value));
      }
    }
  }

  lemma OrdinaryStepMirrored(cat: Catalog, st: State, plain: State, l: Label)
    requires Sound(cat, st) && Agrees(st, plain) && Enabled(st, l) && !OfRevision(st, l)
    ensures Enabled(plain, l) && Agrees(Step(cat, st, l), Step(cat, plain, l))
  {
    if Resumes(l) {
      AdvanceEffect(st, l);
      assert TaskShape(cat, st.ledger, st.tasks[l.id]);
      assert AdvanceOf(st, l) == AdvanceOf(plain, l);
      ResumeMirrored(st, plain, l.id, AdvanceOf(st, l));
    } else {
      match l
      case Arrive(id, call, fault) => ArriveStepMirrored(cat, st, plain, id, call, fault);
      case Enter(id) => EnterMirrored(st, plain, id);
      case Return(id, raw, late) => ConcludeMirrored(st, plain, id, raw, late);
      case Cancel(id) => SettleMirrored(st, plain, id, Cancelled);
    }
  }

  lemma ArriveStepMirrored(cat: Catalog, st: State, plain: State, id: TaskId, call: Call, fault: Option<Fault>)
    requires Sound(cat, st) && Agrees(st, plain) && id !in st.tasks && call.revision.None?
    ensures Agrees(ArriveStep(cat, st, id, call, fault), ArriveStep(cat, plain, id, call, fault))
  {
    if Accepted(cat, call) {
      var tool := Find(cat.tools, call.toolId).value;
      ArriveMirrored(cat, st, plain, id, tool, call);
      var st1, plain1 := ArriveOrdinary(cat, st, id, tool, call), ArriveOrdinary(cat, plain, id, tool, call);
      ArriveOrdinaryShape(cat, st, plain, id, tool, call);
      PreparedMirrored(st1, plain1, id, ArrivalFault(cat, tool, call, fault));
    }
  }

  lemma PreparedMirrored(st: State, plain: State, id: TaskId, fault: Option<Fault>)
    requires Agrees(st, plain) && id in st.tasks && st.tasks[id].Ordinary()
    ensures Agrees(Prepared(st, id, fault), Prepared(plain, id, fault))
  {
    if st.tasks[id].Unfinished() && fault.Some? {
      FailMirrored(st, plain, id, fault.value, map[]);
    }
  }

  lemma ArriveMirrored(cat: Catalog, st: State, plain: State, id: TaskId, tool: Tool, call: Call)
    requires Sound(cat, st) && Agrees(st, plain) && id !in st.tasks && call.revision.None?
    ensures Agrees(ArriveOrdinary(cat, st, id, tool, call), ArriveOrdinary(cat, plain, id, tool, call))
  {
    assert forall lane :: lane in st.lanes ==> LaneHeld(st.lanes, st.tasks, lane);
    var st1, plain1 := ArriveOrdinary(cat, st, id, tool, call), ArriveOrdinary(cat, plain, id, tool, call);
    ArriveOrdinaryShape(cat, st, plain, id, tool, call);
    PutOrdinary(st.tasks, id, st1.tasks[id]);
    SameOrdinaryLanes(st.lanes, plain.tasks, id, st1.tasks[id]);
  }

  lemma ArriveOrdinaryShape(cat: Catalog, st: State, other: State, id: TaskId, tool: Tool, call: Call)
    requires other.ledger == st.ledger
    ensures var st1, other1 := ArriveOrdinary(cat, st, id, tool, call), ArriveOrdinary(cat, other, id, tool, call);
      && id in st1.tasks && st1.tasks[id].call == call
      && st1 == st.(ledger := st1.ledger, tasks := st.tasks[id := st1.tasks[id]])
      && other1 == other.(ledger := st1.ledger, tasks := other.tasks[id := st1.tasks[id]])
  {
  }

  lemma EnterMirrored(st: State, plain: State, id: TaskId)
    requires Agrees(st, plain) && id in st.tasks && st.tasks[id].Ordinary() && Enabled(st, Enter(id))
    ensures Enabled(plain, Enter(id)) && Agrees(EnterLane(st, id), EnterLane(plain, id))
  {
    var task := st.tasks[id].(phase := Running);
    assert plain.tasks[id] == st.tasks[id];
    PutOrdinary(st.tasks, id, task);
    SameOrdinaryLanes(EnterLane(st, id).lanes, plain.tasks, id, task);
    if task.tool.lane.Some? {
      PutOrdinaryLane(st.lanes, plain.tasks, task.tool.lane.value, id);
    }
  }

  lemma PutOrdinaryLane(lanes: map<string, TaskId>, ordinary: map<TaskId, Task>, lane: string, id: TaskId)
    requires id in ordinary
    ensures OrdinaryLanes(lanes[lane := id], ordinary) == OrdinaryLanes(lanes, ordinary)[lane := id]
  {
  }

  // ---------------------------------------------------------------- whole runs

  lemma {:induction false} ErasedRun(cat: Catalog, st: State, plain: State, ls: seq<Label>)
    requires Sound(cat, st) && Agrees(st, plain) && IsRun(cat, st, ls)
    ensures IsRun(cat, plain, Erase(cat, st, ls))
    ensures Agrees(After(cat, st, ls), After(cat, plain, Erase(cat, st, ls)))
    decreases |ls|
  {
    if ls != [] {
      var st1 := Step(cat, st, ls[0]);
      StepKeepsSound(cat, st, ls[0]);
      if OfRevision(st, ls[0]) {
        RevisionStepHidden(cat, st, plain, ls[0]);
        ErasedRun(cat, st1, plain, ls[1..]);
      } else {
        OrdinaryStepMirrored(cat, st, plain, ls[0]);
        var plain1 := Step(cat, plain, ls[0]);
        ErasedRun(cat, st1, plain1, ls[1..]);
        var rest := Erase(cat, st1, ls[1..]);
        assert ([ls[0]] + rest)[1..] == rest;
      }
    }
  }

  /** Non-interference: deleting every dependency revision from any interleaved run gives
      a run with the same shared state and the same frame, hence the same dependency
      arguments and the same outcome, for every ordinary call. */
  lemma RevisionsDoNotInterfere(cat: Catalog, ls: seq<Label>)
    requires IsRun(cat, EMPTY, ls)
    ensures var erased := Erase(cat, EMPTY, ls);
      IsRun(cat, EMPTY, erased) && Agrees(After(cat, EMPTY, ls), After(cat, EMPTY, erased))
  {
    ErasedRun(cat, EMPTY, EMPTY, ls);
  }

  // ---------------------------------------------------------------- where a revision's values come from

  /** The call returned `result`, or published it and failed afterwards. */
  predicate Published(t: Task, binding: Binding) {
    && t.call.id == binding.callId
    && t.phase.Finished?
    && (t.phase.outcome == Ok(binding.result) || t.phase.outcome.Error?)
  }

  predicate FromBranch(t: Task, c: Claim, binding: Binding) {
    t.branch.Some? && t.BranchClaim() == c && Published(t, binding)
  }

  predicate FromPlan(t: Task, slot: (string, string), binding: Binding) {
    t.Ordinary() && t.call.invocation == slot.0 && t.tool.name == slot.1 && Published(t, binding)
  }

  ghost predicate Traced(st: State) {
    && (forall c :: c in st.branches ==> exists id :: id in st.tasks && FromBranch(st.tasks[id], c, st.branches[c]))
    && (forall slot ::
         slot in st.ledger.base ==> exists id :: id in st.tasks && FromPlan(st.tasks[id], slot, st.ledger.base[slot]))
  }

  /** Finished frames stay, so what they published stays traced. */
  lemma TraceCarries(st: State, st1: State, id: TaskId)
    requires Traced(st) && Touches(st, st1, id)
    requires id in st.tasks && st.tasks[id].phase.Finished? ==> st1.tasks[id] == st.tasks[id]
    ensures forall c ::
      c in st.branches ==> exists other :: other in st1.tasks && FromBranch(st1.tasks[other], c, st.branches[c])
    ensures forall slot ::
      slot in st.ledger.base ==>
      exists other :: other in st1.tasks && FromPlan(st1.tasks[other], slot, st.ledger.base[slot])
  {
    forall c | c in st.branches
      ensures exists other :: other in st1.tasks && FromBranch(st1.tasks[other], c, st.branches[c])
    {
      var other :| other in st.tasks && FromBranch(st.tasks[other], c, st.branches[c]);
      assert FromBranch(st1.tasks[other], c, st.branches[c]);
    }
    forall slot | slot in st.ledger.base
      ensures exists other :: other in st1.tasks && FromPlan(st1.tasks[other], slot, st.ledger.base[slot])
    {
      var other :| other in st.tasks && FromPlan(st.tasks[other], slot, st.ledger.base[slot]);
      assert FromPlan(st1.tasks[other], slot, st.ledger.base[slot]);
    }
  }

  lemma ConcludeBase(st: State, id: TaskId, raw: Raw, late: Option<Fault>)
    requires id in st.tasks
    ensures var st1, task := Conclude(st, id, raw, late), st.tasks[id];
      var slot := (task.call.invocation, task.tool.name);
      && (st1.ledger.base == st.ledger.base
          || (raw.Value? && task.Ordinary() &&
               st1.ledger.base == st.ledger.base[slot := Binding(task.call.id, raw.value)]))
      && id in st1.tasks && (raw.Value? ==> Published(st1.tasks[id], Binding(task.call.id, raw.value)))
  {
    if raw.Raised? {
      FailEffect(st, id, raw.fault, st.tasks[id].arguments);
    } else {
      PublishEffect(st, id, raw);
      PublishBase(st, id, raw);
      hide Publish, PublishOrdinary, Fail;
      if late.Some? {
        FailEffect(Publish(st, id, raw), id, late.value, st.tasks[id].arguments);
      }
    }
  }

  lemma PublishBase(st: State, id: TaskId, raw: Raw)
    requires id in st.tasks && !raw.Raised?
    ensures var st1, task := Publish(st, id, raw), st.tasks[id];
      var slot := (task.call.invocation, task.tool.name);
      st1.ledger.base == st.ledger.base
      || (raw.Value? && task.Ordinary() && st1.ledger.base == st.ledger.base[slot := Binding(task.call.id, raw.value)])
  {
  }

  lemma StepKeepsTraced(cat: Catalog, st: State, l: Label)
    requires Traced(st) && Enabled(st, l)
    ensures Traced(Step(cat, st, l))
  {
    var st1 := Step(cat, st, l);
    StepEffect(cat, st, l);
    if Resumes(l) { AdvanceEffect(st, l); }
    TraceCarries(st, st1, l.id);
    if l.Return? {
      ConcludeEffect(st, l.id, l.raw, l.late);
      ConcludeBase(st, l.id, l.raw, l.late);
      ReturnTraced(st, st1, l.id, l.raw);
    }
  }

  lemma ReturnTraced(st: State, st1: State, id: TaskId, raw: Raw)
    requires id in st.tasks && id in st1.tasks && SameCall(st.tasks[id], st1.tasks[id])
    requires forall c ::
      c in st.branches ==> exists other :: other in st1.tasks && FromBranch(st1.tasks[other], c, st.branches[c])
    requires forall slot ::
      slot in st.ledger.base ==>
      exists other :: other in st1.tasks && FromPlan(st1.tasks[other], slot, st.ledger.base[slot])
    requires raw.Value? ==> Published(st1.tasks[id], Binding(st.tasks[id].call.id, raw.value))
    requires var task := st.tasks[id];
      st1.branches == (if raw.Value? && !task.Ordinary() && task.branch.Some?
                       then st.branches[task.BranchClaim() := Binding(task.call.id, raw.value)] else st.branches)
    requires var task := st.tasks[id];
      || st1.ledger.base == st.ledger.base
      || (raw.Value? && task.Ordinary() &&
           st1.ledger.base ==
           st.ledger.base[(task.call.invocation, task.tool.name) := Binding(task.call.id, raw.value)])
    ensures Traced(st1)
  {
    var task := st.tasks[id];
    forall c | c in st1.branches
      ensures exists other :: other in st1.tasks && FromBranch(st1.tasks[other], c, st1.branches[c])
    {
      if c in st.branches && st1.branches[c] == st.branches[c] {
      } else {
        assert FromBranch(st1.tasks[id], c, st1.branches[c]);
      }
    }
    forall slot | slot in st1.ledger.base
      ensures exists other :: other in st1.tasks && FromPlan(st1.tasks[other], slot, st1.ledger.base[slot])
    {
      if slot in st.ledger.base && st1.ledger.base[slot] == st.ledger.base[slot] {
      } else {
        assert FromPlan(st1.tasks[id], slot, st1.ledger.base[slot]);
      }
    }
  }

  lemma {:induction false} RunKeepsTraced(cat: Catalog, st: State, ls: seq<Label>)
    requires Traced(st) && IsRun(cat, st, ls)
    ensures Traced(After(cat, st, ls))
    decreases |ls|
  {
    if ls != [] {
      StepKeepsTraced(cat, st, ls[0]);
      RunKeepsTraced(cat, Step(cat, st, ls[0]), ls[1..]);
    }
  }

  /** Branch isolation: a dependency value a revision receives was published by a call of its
      own branch (same invocation, same failed root), or by an ordinary call of its invocation;
      never by a revision made for another root. */
  lemma RevisionReadsOwnBranch(cat: Catalog, st: State, id: TaskId)
    requires Reachable(cat, st) && Enabled(st, Look(id)) && st.tasks[id].branch.Some?
    requires st.tasks[id].phase.dependency < |st.tasks[id].tool.dependencies|
    ensures var task, advance := st.tasks[id], AdvanceOf(st, Look(id));
      var dependency := task.tool.dependencies[task.phase.dependency];
      advance.Continue? ==>
        dependency.argName in advance.task.arguments
        && exists source, binding :: (
            && source in st.tasks && Published(st.tasks[source], binding)
            && binding.result == advance.task.arguments[dependency.argName]
            && Feeds(st.tasks[source].tool.name, dependency)
            && st.tasks[source].call.invocation == task.call.invocation
            && (st.tasks[source].branch == task.branch || st.tasks[source].Ordinary()))
  {
    var before :| IsRun(cat, EMPTY, before) && After(cat, EMPTY, before) == st;
    RunKeepsTraced(cat, EMPTY, before);
    var task, i := st.tasks[id], st.tasks[id].phase.dependency;
    hide Reachable, IsRun, After, Traced, BranchValue, Published, RootRefusal, LookOrdinary;
    var value := BranchValue(st, task.call.invocation, task.branch.value, task.tool.dependencies[i]);
    if value.Some? {
      var source, binding := TracedValue(st, task, task.tool.dependencies[i]);
    }
  }

  /** What a revision finds in a branch or the base was published by a frame that is there. */
  lemma TracedValue(st: State, task: Task, dependency: Dependency) returns (source: TaskId, binding: Binding)
    requires Traced(st) && task.branch.Some?
    requires BranchValue(st, task.call.invocation, task.branch.value, dependency).Some?
    ensures source in st.tasks && Published(st.tasks[source], binding)
    ensures binding.result == BranchValue(st, task.call.invocation, task.branch.value, dependency).value
    ensures Feeds(st.tasks[source].tool.name, dependency) && st.tasks[source].call.invocation == task.call.invocation
    ensures st.tasks[source].branch == task.branch || st.tasks[source].Ordinary()
  {
    hide Published;
    var invocation, root := task.call.invocation, task.branch.value;
    var own, ownByName := Claim(invocation, root, dependency.toolId), Claim(invocation, root, dependency.toolName);
    if own in st.branches {
      binding := st.branches[own];
      source :| source in st.tasks && FromBranch(st.tasks[source], own, binding);
    } else if ownByName in st.branches {
      binding := st.branches[ownByName];
      source :| source in st.tasks && FromBranch(st.tasks[source], ownByName, binding);
    } else {
      var byId := (invocation, dependency.toolId) in st.ledger.base;
      var slot := (invocation, if byId then dependency.toolId else dependency.toolName);
      binding := st.ledger.base[slot];
      source :| source in st.tasks && FromPlan(st.tasks[source], slot, binding);
    }
  }
}
