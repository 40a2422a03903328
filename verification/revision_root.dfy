/** A revision of its own failed root goes on only with a changed dependency argument. */
module RevisionRoot {
  import opened Options
  import opened ToolCatalog
  import opened ToolRuntime
  import opened RuntimeFrames
  import opened RuntimeProgress
  import opened RevisionHistory

  /** An admitted revision names a recorded root call, and is not that call. */
  ghost predicate Rooted(calls: map<CallId, Record>, t: Task) {
    t.branch.Some? ==> t.branch.value in calls && t.call.id != t.branch.value
  }

  ghost predicate AllRooted(st: State) {
    forall id: TaskId :: id in st.tasks ==> Rooted(st.calls, st.tasks[id])
  }

  lemma TouchKeepsRooted(st: State, st1: State, id: TaskId)
    requires AllRooted(st) && Touches(st, st1, id)
    requires id in st1.tasks ==> Rooted(st1.calls, st1.tasks[id])
    ensures AllRooted(st1)
  {
    forall other: TaskId | other in st1.tasks && other != id
      ensures Rooted(st1.calls, st1.tasks[other])
    {
      assert other in st.tasks && Rooted(st.calls, st.tasks[other]);
    }
  }

  /** Only an admitted revision arrives with a branch. */
  lemma ArrivesRooted(cat: Catalog, st: State, id: TaskId, call: Call, fault: Option<Fault>)
    requires id !in st.tasks
    ensures var st1 := ArriveStep(cat, st, id, call, fault); id in st1.tasks ==> Rooted(st1.calls, st1.tasks[id])
  {
    hide Prepared, ArrivalFault, Admission;
    if Accepted(cat, call) {
      var tool := Find(cat.tools, call.toolId).value;
      var refusal := Refusal(cat, st, tool, call);
      AcceptedRooted(cat, st, id, tool, call);
      hide ArriveAccepted, Refusal;
      PreparedEffect(ArriveAccepted(cat, st, id, tool, call, refusal), id, ArrivalFault(cat, tool, call, fault));
    }
  }

  lemma AcceptedRooted(cat: Catalog, st: State, id: TaskId, tool: Tool, call: Call)
    requires id !in st.tasks
    ensures var st1 := ArriveAccepted(cat, st, id, tool, call, Refusal(cat, st, tool, call));
      id in st1.tasks && Rooted(st1.calls, st1.tasks[id])
  {
    var refusal := Refusal(cat, st, tool, call);
    if call.revision.Some? {
      if refusal.None? {
        AdmissionGuards(cat, st, tool, call);
      }
      hide Refusal, Admission;
      RevisionEffect(st, id, tool, call, refusal);
    } else {
      OrdinaryEffect(cat, st, id, tool, call);
    }
  }

  lemma StepKeepsRooted(cat: Catalog, st: State, l: Label)
    requires AllRooted(st) && Enabled(st, l)
    ensures AllRooted(Step(cat, st, l))
  {
    StepEffect(cat, st, l);
    if l.Arrive? {
      ArrivesRooted(cat, st, l.id, l.call, l.fault);
    } else {
      assert Rooted(st.calls, st.tasks[l.id]);
    }
    hide Step, Enabled;
    TouchKeepsRooted(st, Step(cat, st, l), l.id);
  }

  lemma {:induction false} RunKeepsRooted(cat: Catalog, st: State, ls: seq<Label>)
    requires AllRooted(st) && IsRun(cat, st, ls)
    ensures AllRooted(After(cat, st, ls))
    decreases |ls|
  {
    hide Step, Enabled, AllRooted;
    if |ls| > 0 {
      StepKeepsRooted(cat, st, ls[0]);
      RunKeepsRooted(cat, Step(cat, st, ls[0]), ls[1..]);
    }
  }

  /** One of the arguments is missing on one side only, or has another value there. */
  predicate Differ(a: map<string, Value>, b: map<string, Value>, name: string) {
    (name in a && name !in b) || (name !in a && name in b) || (name in a && name in b && a[name] != b[name])
  }

  /** Behind its last dependency an admitted revision of its root's own tool goes on if and only if some
      dependency argument differs from what the root call had accepted; else it is refused for that very
      reason. A revision of any other tool goes on. */
  lemma RevisedRootGoesOnIff(cat: Catalog, st: State, id: TaskId)
    requires Reachable(cat, st) && Enabled(st, Look(id)) && st.tasks[id].branch.Some?
    requires st.tasks[id].phase.dependency >= |st.tasks[id].tool.dependencies|
    ensures st.tasks[id].branch.value in st.calls
    ensures var task, root, st1 := st.tasks[id], st.calls[st.tasks[id].branch.value], Step(cat, st, Look(id));
      && id in st1.tasks
      && (st1.tasks[id].phase == Queued <==>
            root.tool != task.tool.name
            || exists d :: d in task.tool.dependencies && Differ(task.arguments, root.accepted, d.argName))
      && (st1.tasks[id].phase != Queued ==> st1.tasks[id].phase == Finished(Error(Rejected(NoDependencyChange))))
  {
    var ls :| IsRun(cat, EMPTY, ls) && After(cat, EMPTY, ls) == st;
    RunKeepsRooted(cat, EMPTY, ls);
    var task := st.tasks[id];
    assert Rooted(st.calls, task);
    hide Reachable, IsRun, After, AllRooted, Fail, LookOrdinary;
    var refusal := RootRefusal(st, task);
    RefusalIff(st, task);
    if refusal.Some? {
      FailEffect(st, id, Rejected(refusal.value), task.arguments);
    }
    hide RootRefusal;
    assert Step(cat, st, Look(id)) == Resume(st, id, LookRevision(st, task));
  }

  lemma RefusalIff(st: State, task: Task)
    requires task.branch.Some? && task.branch.value in st.calls && task.call.id != task.branch.value
    ensures var root := st.calls[task.branch.value];
      RootRefusal(st, task) ==
        if root.tool != task.tool.name
           || exists d :: d in task.tool.dependencies && Differ(task.arguments, root.accepted, d.argName)
        then None else Some(NoDependencyChange)
  {
    var root := st.calls[task.branch.value];
    forall i | 0 <= i < |task.tool.dependencies|
      ensures var name := task.tool.dependencies[i].argName;
        Lookup(task.arguments, name) != Lookup(root.accepted, name) <==> Differ(task.arguments, root.accepted, name)
    {
    }
    if d :| d in task.tool.dependencies && Differ(task.arguments, root.accepted, d.argName) {
      var i :| 0 <= i < |task.tool.dependencies| && task.tool.dependencies[i] == d;
    } else {
      assert forall i :: 0 <= i < |task.tool.dependencies| ==> task.tool.dependencies[i] in task.tool.dependencies;
    }
  }
}
