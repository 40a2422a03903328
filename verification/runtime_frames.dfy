/** What one step of the tool runtime can change at all. */
module RuntimeFrames {
  import opened Options
  import opened ToolCatalog
  import opened ToolRuntime

  /** The same frame, apart from how far it has come. */
  predicate SameCall(a: Task, b: Task) {
    a.call == b.call && a.tool == b.tool && a.branch == b.branch && a.event == b.event && a.owns == b.owns
  }

  lemma NoteFailureEffect(st: State, task: Task, fault: Fault, accepted: map<string, Value>)
    ensures var st1 := NoteFailure(st, task, fault, accepted);
      && st1 == st.(ledger := FailLedger(st.ledger, task), calls := st1.calls)
      && st1.calls.Keys == st.calls.Keys + {task.call.id}
  {
  }

  lemma FailEffect(st: State, id: TaskId, fault: Fault, accepted: map<string, Value>)
    requires id in st.tasks
    ensures var st1, task := Fail(st, id, fault, accepted), st.tasks[id];
      && st1.tasks == st.tasks[id := task.(phase := Finished(Error(fault)))]
      && st1.branches == st.branches
      && st1.claims == (if task.branch.Some? then st.claims - {task.BranchClaim()} else st.claims)
      && st1.calls.Keys == st.calls.Keys + {task.call.id}
      && st1.ledger.(fired := {}) == FailLedger(st.ledger, task).(fired := {})
      && st1.ledger.fired == (if task.event.Some? then st.ledger.fired + {task.event.value} else st.ledger.fired)
  {
    NoteFailureEffect(st, st.tasks[id], fault, accepted);
  }

  lemma PublishEffect(st: State, id: TaskId, raw: Raw)
    requires id in st.tasks && !raw.Raised?
    ensures var st1, task := Publish(st, id, raw), st.tasks[id];
      && st1.tasks == st.tasks && st1.claims == st.claims && st1.lanes == st.lanes
      && st1.branches == (if raw.Value? && !task.Ordinary() && task.branch.Some?
                          then st.branches[task.BranchClaim() := Binding(task.call.id, raw.value)] else st.branches)
      && st1.calls.Keys == st.calls.Keys + {task.call.id}
      && st1.ledger == (if task.Ordinary() then PublishOrdinary(st.ledger, task, raw) else st.ledger)
  {
  }

  lemma ConcludeEffect(st: State, id: TaskId, raw: Raw, late: Option<Fault>)
    requires id in st.tasks
    ensures var st1, task := Conclude(st, id, raw, late), st.tasks[id];
      && id in st1.tasks && st1.tasks[id].phase.Finished?
      && st1.tasks == st.tasks[id := task.(phase := st1.tasks[id].phase)]
      && st1.branches == (if raw.Value? && !task.Ordinary() && task.branch.Some?
                          then st.branches[task.BranchClaim() := Binding(task.call.id, raw.value)] else st.branches)
      && st1.calls.Keys == st.calls.Keys + {task.call.id}
  {
    if raw.Raised? {
      FailEffect(st, id, raw.fault, st.tasks[id].arguments);
    } else {
      PublishEffect(st, id, raw);
      if late.Some? {
        FailEffect(Publish(st, id, raw), id, late.value, st.tasks[id].arguments);
      }
    }
  }

  lemma OrdinaryEffect(cat: Catalog, st: State, id: TaskId, tool: Tool, call: Call)
    requires id !in st.tasks
    ensures var st1 := ArriveOrdinary(cat, st, id, tool, call);
      && id in st1.tasks
      && st1 == st.(ledger := st1.ledger, tasks := st.tasks[id := st1.tasks[id]])
      && st1.tasks[id].call == call && st1.tasks[id].tool == tool && st1.tasks[id].branch.None? &&
           st1.tasks[id].Unfinished()
      && st1.ledger.base == st.ledger.base
  {
  }

  lemma RevisionEffect(st: State, id: TaskId, tool: Tool, call: Call, refusal: Option<Rejection>)
    requires id !in st.tasks && call.revision.Some?
    ensures var st1 := ArriveRevision(st, id, tool, call, refusal);
      var branch := if refusal.Some? then None else call.revision.value.root;
      var task := Task(call, tool, None, branch, false, call.supplied, Asking(0));
      && st1.ledger == st.ledger
      && st1.branches == st.branches
      && st.calls.Keys <= st1.calls.Keys
      && st1.tasks ==
           st.tasks[id := if refusal.Some? then task.(phase := Finished(Error(Rejected(refusal.value)))) else task]
      && st1.claims == (if branch.Some? then st.claims + {task.BranchClaim()} else st.claims)
  {
    if refusal.Some? {
      var task := Task(call, tool, None, None, false, call.supplied, Asking(0));
      FailEffect(st.(tasks := st.tasks[id := task]), id, Rejected(refusal.value), map[]);
    }
  }

  lemma AcceptedEffect(cat: Catalog, st: State, id: TaskId, tool: Tool, call: Call, refusal: Option<Rejection>)
    requires id !in st.tasks
    ensures var st1 := ArriveAccepted(cat, st, id, tool, call, refusal);
      && st1.branches == st.branches
      && st1.ledger.base == st.ledger.base
      && st.calls.Keys <= st1.calls.Keys
      && id in st1.tasks && st1.tasks == st.tasks[id := st1.tasks[id]]
      && st1.tasks[id].call == call && st1.tasks[id].tool == tool
  {
    if call.revision.Some? {
      RevisionEffect(st, id, tool, call, refusal);
    } else {
      OrdinaryEffect(cat, st, id, tool, call);
    }
  }

  lemma PreparedEffect(st: State, id: TaskId, fault: Option<Fault>)
    requires id in st.tasks
    ensures var st1 := Prepared(st, id, fault);
      && st1.branches == st.branches
      && st1.ledger.base == st.ledger.base
      && st.calls.Keys <= st1.calls.Keys
      && id in st1.tasks && st1.tasks == st.tasks[id := st1.tasks[id]]
      && SameCall(st1.tasks[id], st.tasks[id])
  {
    if st.tasks[id].Unfinished() && fault.Some? {
      FailEffect(st, id, fault.value, map[]);
    }
  }

  lemma ArriveEffect(cat: Catalog, st: State, id: TaskId, call: Call, fault: Option<Fault>)
    requires id !in st.tasks
    ensures var st1 := ArriveStep(cat, st, id, call, fault);
      && st1.branches == st.branches
      && st1.ledger.base == st.ledger.base
      && st.calls.Keys <= st1.calls.Keys
      && (if Accepted(cat, call)
          then id in st1.tasks && st1.tasks == st.tasks[id := st1.tasks[id]] && st1.tasks[id].call == call
               && st1.tasks[id].tool == Find(cat.tools, call.toolId).value
          else st1 == st)
  {
    hide ArriveAccepted, Prepared, Refusal, ArrivalFault;
    if Accepted(cat, call) {
      var tool := Find(cat.tools, call.toolId).value;
      var refusal := Refusal(cat, st, tool, call);
      AcceptedEffect(cat, st, id, tool, call, refusal);
      PreparedEffect(ArriveAccepted(cat, st, id, tool, call, refusal), id, ArrivalFault(cat, tool, call, fault));
    }
  }

  lemma ResumeEffect(st: State, id: TaskId, advance: Advance)
    requires id in st.tasks
    ensures var st1 := Resume(st, id, advance);
      && id in st1.tasks
      && st1.tasks == st.tasks[id := st1.tasks[id]]
      && (advance.GiveUp? ==> SameCall(st1.tasks[id], st.tasks[id]))
      && (advance.Continue? ==> st1.tasks[id] == advance.task)
      && st1.branches == st.branches
      && st1.ledger.base == st.ledger.base
      && st.calls.Keys <= st1.calls.Keys
  {
    if advance.GiveUp? {
      FailEffect(st, id, advance.fault, advance.accepted);
    }
  }

  /** A resumed frame keeps its identity and does not finish by going on. */
  lemma AdvanceEffect(st: State, l: Label)
    requires Enabled(st, l) && Resumes(l)
    ensures st.tasks[l.id].Unfinished() && !st.tasks[l.id].phase.Running?
    ensures var advance := AdvanceOf(st, l);
      advance.Continue? ==>
        SameCall(st.tasks[l.id], advance.task) && advance.task.Unfinished() && !advance.task.phase.Running?
  {
  }

  /** What a step may do to the frames, the records and the bindings. */
  ghost predicate Touches(st: State, st1: State, id: TaskId) {
    && st.calls.Keys <= st1.calls.Keys
    && (st1.tasks == st.tasks || (id in st1.tasks && st1.tasks == st.tasks[id := st1.tasks[id]]))
    && (id in st.tasks ==> id in st1.tasks && SameCall(st.tasks[id], st1.tasks[id]))
  }

  /** One step touches one frame; only a returning target touches the bindings. */
  lemma StepEffect(cat: Catalog, st: State, l: Label)
    requires Enabled(st, l)
    ensures Touches(st, Step(cat, st, l), l.id)
    ensures l.Return? ==> Step(cat, st, l).tasks[l.id].phase.Finished?
    ensures !l.Return? ==> Step(cat, st, l).branches == st.branches && Step(cat, st, l).ledger.base == st.ledger.base
    ensures l.Arrive? && l.id in Step(cat, st, l).tasks ==>
      Step(cat, st, l).tasks[l.id].call == l.call && Accepted(cat, l.call) &&
        Step(cat, st, l).tasks[l.id].tool == Find(cat.tools, l.call.toolId).value
  {
    if Resumes(l) {
      AdvanceEffect(st, l);
      ResumeEffect(st, l.id, AdvanceOf(st, l));
    } else {
      match l
      case Arrive(id, call, fault) => ArriveEffect(cat, st, id, call, fault);
      case Enter(id) =>
      case Return(id, raw, late) => ConcludeEffect(st, id, raw, late);
      case Cancel(id) =>
    }
  }
}
