/** Which revisions are let in, why the others are not, and what an admitted one reads. */
module RevisionAdmission {
  import opened Options
  import opened ToolCatalog
  import opened RevisionPaths
  import opened ToolRuntime
  import opened RuntimeFrames

  // ---------------------------------------------------------------- one requirement after the other

  predicate NewId(st: State, call: Call) {
    call.id !in st.calls
  }

  /** Root and parent are given, the root is a recorded call of this invocation, the parent a recorded call. */
  predicate KnownLineage(st: State, call: Call)
    requires call.revision.Some?
  {
    var lineage := call.revision.value;
    && lineage.root.Some? && lineage.parent.Some?
    && lineage.root.value in st.calls && lineage.parent.value in st.calls
    && st.calls[lineage.root.value].invocation == call.invocation
  }

  predicate FailedRoot(st: State, call: Call)
    requires call.revision.Some? && KnownLineage(st, call)
  {
    st.calls[call.revision.value.root.value].fault == Some(ValidationFault)
  }

  /** The parent is a call of the revised tool in this invocation. */
  predicate FittingParent(st: State, tool: Tool, call: Call)
    requires call.revision.Some? && KnownLineage(st, call)
  {
    var parent := st.calls[call.revision.value.parent.value];
    parent.invocation == call.invocation && parent.tool == tool.name
  }

  /** The root's tool is still registered, can be reached, and everyone on the way is a model constructor. */
  ghost predicate Supported(cat: Catalog, st: State, tool: Tool, call: Call)
    requires call.revision.Some? && KnownLineage(st, call)
  {
    exists root :: root in cat.tools && root.name == st.calls[call.revision.value.root.value].tool
      && RootTool(cat, st, call) == Some(root)
      && (exists path :: IsRevisionPath(cat.tools, tool, root, path))
      && tool.modelConstructor
      && (forall path: Path, i :: IsRevisionPath(cat.tools, tool, root, path) && 0 <= i < |path| ==>
            path[i].consumer.modelConstructor)
  }

  function RootTool(cat: Catalog, st: State, call: Call): Option<Tool>
    requires call.revision.Some? && KnownLineage(st, call)
  {
    Find(cat.tools, st.calls[call.revision.value.root.value].tool)
  }

  /** Every edge to the root is opted in. */
  ghost predicate Authorized(cat: Catalog, st: State, tool: Tool, call: Call)
    requires call.revision.Some? && KnownLineage(st, call)
  {
    forall root, path: Path, i ::
      RootTool(cat, st, call) == Some(root) && IsRevisionPath(cat.tools, tool, root, path) && 0 <= i < |path| ==>
        path[i].dependency.optedIn
  }

  /** The parent made the value in force: the branch's, else the invocation's, else it is the failed root itself. */
  predicate Current(st: State, tool: Tool, call: Call)
    requires call.revision.Some? && KnownLineage(st, call)
  {
    var root, parent := call.revision.value.root.value, call.revision.value.parent.value;
    var claim, slot := Claim(call.invocation, root, tool.name), (call.invocation, tool.name);
    && (claim in st.branches ==> st.branches[claim].callId == parent)
    && (claim !in st.branches && slot in st.ledger.base ==> st.ledger.base[slot].callId == parent)
    && (claim !in st.branches && slot !in st.ledger.base ==> parent == root && st.calls[root].tool == tool.name)
  }

  predicate Unclaimed(st: State, tool: Tool, call: Call)
    requires call.revision.Some? && KnownLineage(st, call)
  {
    Claim(call.invocation, call.revision.value.root.value, tool.name) !in st.claims
  }

  /** Up to and without authorization. */
  ghost predicate Entitled(cat: Catalog, st: State, tool: Tool, call: Call)
    requires call.revision.Some?
  {
    && NewId(st, call) && KnownLineage(st, call) && FailedRoot(st, call) && FittingParent(st, tool, call)
    && Supported(cat, st, tool, call)
  }

  lemma VerdictIff(cat: Catalog, st: State, tool: Tool, call: Call, root: Tool)
    requires call.revision.Some? && KnownLineage(st, call) && RootTool(cat, st, call) == Some(root)
    ensures var verdict := JudgeSpec(cat.tools, tool, root);
      && (Supported(cat, st, tool, call) <==> verdict.NotOptedIn? || verdict.Allowed?)
      && (Supported(cat, st, tool, call) ==> (Authorized(cat, st, tool, call) <==> verdict.Allowed?))
  {
    hide IsRevisionPath;
    assert AllConstructors(cat.tools, tool, root) <==>
        tool.modelConstructor &&
        forall path: Path, i :: IsRevisionPath(cat.tools, tool, root, path) && 0 <= i < |path| ==>
          path[i].consumer.modelConstructor by {
      assert forall path: Path ::
        Constructors(path) <==> forall i :: 0 <= i < |path| ==> path[i].consumer.modelConstructor;
    }
    assert AllOptedIn(cat.tools, tool, root) <==>
        forall path: Path, i :: IsRevisionPath(cat.tools, tool, root, path) && 0 <= i < |path| ==>
          path[i].dependency.optedIn by {
      assert forall path: Path :: OptedIn(path) <==> forall i :: 0 <= i < |path| ==> path[i].dependency.optedIn;
    }
  }

  /** A revision is admitted if and only if it meets every requirement, and a refusal names the first it misses. */
  lemma AdmittedIff(cat: Catalog, st: State, tool: Tool, call: Call)
    requires call.revision.Some?
    ensures Admission(cat, st, tool, call) ==
      if !NewId(st, call) then Some(Stale)
      else if !KnownLineage(st, call) then Some(InvalidLineage)
      else if !FailedRoot(st, call) then Some(RootNotFailed)
      else if !FittingParent(st, tool, call) then Some(ParentMismatch)
      else if !Supported(cat, st, tool, call) then Some(Unsupported)
      else if !Authorized(cat, st, tool, call) then Some(NotAuthorized)
      else if !Current(st, tool, call) then Some(Stale)
      else if !Unclaimed(st, tool, call) then Some(Conflict)
      else None
  {
    hide JudgeSpec, IsRevisionPath;
    if KnownLineage(st, call) {
      var root := RootTool(cat, st, call);
      if root.Some? {
        VerdictIff(cat, st, tool, call, root.value);
        CurrentIff(st, tool, call);
      }
    }
    hide Supported, Authorized, Visible, Current;
  }

  lemma CurrentIff(st: State, tool: Tool, call: Call)
    requires call.revision.Some? && KnownLineage(st, call)
    ensures var root := call.revision.value.root.value;
      Current(st, tool, call) <==>
        Visible(st, Claim(call.invocation, root, tool.name), st.calls[root].tool) == call.revision.value.parent
  {
  }

  // ---------------------------------------------------------------- as it arrives

  /** The frame of a revision before its first await. */
  function Entering(tool: Tool, call: Call, branch: Option<CallId>): Task {
    Task(call, tool, None, branch, false, call.supplied, Asking(0))
  }

  /** An admitted revision starts in its root's branch, whose claim it holds. */
  function Started(st: State, id: TaskId, tool: Tool, call: Call): State
    requires call.revision.Some? && call.revision.value.root.Some?
  {
    var root := call.revision.value.root;
    st.(tasks := st.tasks[id := Entering(tool, call, root)],
        claims := st.claims + {Claim(call.invocation, root.value, tool.name)})
  }

  /** A refused one has ended with its reason, and leaves a record under its id if there was none. */
  function Turned(st: State, id: TaskId, tool: Tool, call: Call, reason: Rejection): State {
    st.(tasks := st.tasks[id := Entering(tool, call, None).(phase := Finished(Error(Rejected(reason))))],
        lanes := LanesWithout(st.lanes, id),
        calls := if call.id in st.calls then st.calls
                 else st.calls[call.id := Record(call.invocation, tool.name, map[], Some(Rejected(reason)))])
  }

  /** What is all that the arrival of a revision changes: an admitted one starts, if nothing is wrong with its
      bindings, from its supplied arguments, a refused one is turned away. */
  lemma RevisionArrives(cat: Catalog, st: State, id: TaskId, call: Call, fault: Option<Fault>)
    requires id !in st.tasks && call.revision.Some? && Accepted(cat, call)
    ensures var st1, tool := Step(cat, st, Arrive(id, call, fault)), Find(cat.tools, call.toolId).value;
      var refusal := Admission(cat, st, tool, call);
      && (refusal.None? ==> KnownLineage(st, call))
      && (refusal.None? && fault.None? && AcceptsRetained(cat, tool, call) ==> st1 == Started(st, id, tool, call))
      && (refusal.Some? ==> st1 == Turned(st, id, tool, call, refusal.value))
  {
    var tool := Find(cat.tools, call.toolId).value;
    var refusal := Admission(cat, st, tool, call);
    AdmittedIff(cat, st, tool, call);
    var st1, raised := ArriveRevision(st, id, tool, call, refusal), ArrivalFault(cat, tool, call, fault);
    assert ArriveStep(cat, st, id, call, fault) == Prepared(st1, id, raised);
    hide Admission, AcceptsRetained, Accepted, Supported, Authorized, Current, LanesWithout, ArriveStep, Fail;
    if refusal.Some? {
      RefusedEnds(st, id, tool, call, refusal.value);
    } else {
      AdmittedStarts(st, id, tool, call);
    }
    hide ArriveRevision;
  }

  lemma AdmittedStarts(st: State, id: TaskId, tool: Tool, call: Call)
    requires id !in st.tasks && call.revision.Some? && call.revision.value.root.Some?
    ensures ArriveRevision(st, id, tool, call, None) == Started(st, id, tool, call)
  {
    hide Fail;
  }

  lemma RefusedEnds(st: State, id: TaskId, tool: Tool, call: Call, reason: Rejection)
    requires id !in st.tasks && call.revision.Some?
    ensures ArriveRevision(st, id, tool, call, Some(reason)) == Turned(st, id, tool, call, reason)
  {
    hide LanesWithout;
    var task := Entering(tool, call, None);
    var st1 := st.(tasks := st.tasks[id := task]);
    FailEffect(st1, id, Rejected(reason), map[]);
    assert ArriveRevision(st, id, tool, call, Some(reason)) == Fail(st1, id, Rejected(reason), map[]);
  }

  // ---------------------------------------------------------------- what it reads

  /** The binding of a branch under one spelling of a dependency. */
  predicate InBranch(st: State, task: Task, key: string)
    requires task.branch.Some?
  {
    Claim(task.call.invocation, task.branch.value, key) in st.branches
  }

  predicate InBase(st: State, task: Task, key: string) {
    (task.call.invocation, key) in st.ledger.base
  }

  /** An admitted revision never waits: it takes the value of its own branch where there is one, else the first
      one of its invocation, in both the tool id's before the tool name's, and fails where there is neither. */
  lemma OwnBranchComesFirst(cat: Catalog, st: State, id: TaskId)
    requires Enabled(st, Look(id)) && st.tasks[id].branch.Some?
    requires st.tasks[id].phase.dependency < |st.tasks[id].tool.dependencies|
    ensures var task, st1 := st.tasks[id], Step(cat, st, Look(id));
      var i, d := task.phase.dependency, task.tool.dependencies[task.phase.dependency];
      var own := key => Claim(task.call.invocation, task.branch.value, key);
      var known := InBranch(st, task, d.toolId) || InBranch(st, task, d.toolName)
                   || InBase(st, task, d.toolId) || InBase(st, task, d.toolName);
      && id in st1.tasks
      && (!known ==> st1.tasks[id].phase == Finished(Error(OtherFault)))
      && (known ==>
            && st1.tasks[id].phase == Resolving(i + 1, false) && d.argName in st1.tasks[id].arguments
            && var value := st1.tasks[id].arguments[d.argName];
               && st1 == st.(tasks := st.tasks[id := task.(arguments := task.arguments[d.argName := value],
                                                           phase := Resolving(i + 1, false))])
               && (InBranch(st, task, d.toolId) ==> value == st.branches[own(d.toolId)].result)
               && (!InBranch(st, task, d.toolId) && InBranch(st, task, d.toolName) ==>
                     value == st.branches[own(d.toolName)].result)
               && (!InBranch(st, task, d.toolId) && !InBranch(st, task, d.toolName) ==>
                     value == st.ledger.base[(task.call.invocation,
                                              if InBase(st, task, d.toolId) then d.toolId else d.toolName)].result))
  {
    hide Fail, RootRefusal, LookOrdinary;
    var task := st.tasks[id];
    var dependency := task.tool.dependencies[task.phase.dependency];
    var value := BranchValue(st, task.call.invocation, task.branch.value, dependency);
    if value.None? {
      FailEffect(st, id, OtherFault, map[]);
    }
  }
}
