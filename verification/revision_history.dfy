/** Successive revisions of one tool under one failed root form a single linear history. */
module RevisionHistory {
  import opened Options
  import opened ToolCatalog
  import opened RevisionPaths
  import opened ToolRuntime
  import opened RuntimeFrames
  import opened RuntimeProgress

  predicate InFlight(t: Task, c: Claim) {
    t.Unfinished() && t.branch.Some? && t.BranchClaim() == c
  }

  /** The generation an in-flight revision replaces is still the current one. */
  ghost predicate Linked(branches: map<Claim, Binding>, base: map<(string, string), Binding>, t: Task)
    requires t.branch.Some?
  {
    var c := t.BranchClaim();
    && t.call.revision.Some?
    && t.call.revision.value.parent.Some?
    && var parent := t.call.revision.value.parent.value;
       if c in branches then branches[c].callId == parent
       else parent == c.root || ((c.invocation, c.tool) in base && base[(c.invocation, c.tool)].callId == parent)
  }

  ghost predicate AllLinked(branches: map<Claim, Binding>, base: map<(string, string), Binding>,
                            tasks: map<TaskId, Task>, except: set<TaskId>) {
    forall id ::
      id in tasks && id !in except && tasks[id].Unfinished() && tasks[id].branch.Some? ==>
      Linked(branches, base, tasks[id])
  }

  ghost predicate Claimed(claims: set<Claim>, tasks: map<TaskId, Task>) {
    forall id :: id in tasks && tasks[id].Unfinished() && tasks[id].branch.Some? ==> tasks[id].BranchClaim() in claims
  }

  ghost predicate Backed(claims: set<Claim>, tasks: map<TaskId, Task>) {
    forall c :: c in claims ==> exists id :: id in tasks && InFlight(tasks[id], c)
  }

  ghost predicate OnePerClaim(tasks: map<TaskId, Task>) {
    forall id, other, c ::
      id in tasks && other in tasks && InFlight(tasks[id], c) && InFlight(tasks[other], c) ==> id == other
  }

  /** A claim is held exactly while one admitted revision of that triple is in flight. */
  ghost predicate ClaimsExact(claims: set<Claim>, tasks: map<TaskId, Task>) {
    Claimed(claims, tasks) && Backed(claims, tasks) && OnePerClaim(tasks)
  }

  ghost predicate Recorded(branches: map<Claim, Binding>, calls: map<CallId, Record>) {
    forall c :: c in branches ==> branches[c].callId in calls
  }

  ghost predicate Linear(st: State) {
    && ClaimsExact(st.claims, st.tasks)
    && AllLinked(st.branches, st.ledger.base, st.tasks, {})
    && Recorded(st.branches, st.calls)
  }

  lemma SettleKeepsLinear(st: State, id: TaskId, outcome: Outcome)
    requires id in st.tasks && st.tasks[id].Unfinished()
    requires ClaimsExact(st.claims, st.tasks) && Recorded(st.branches, st.calls)
    requires AllLinked(st.branches, st.ledger.base, st.tasks, {id})
    ensures Linear(Settle(st, id, outcome))
  {
    FinishedKeepsClaims(st.claims, st.tasks, id, outcome);
  }

  /** The claims left when this frame leaves. */
  function ClaimsAfter(claims: set<Claim>, task: Task): set<Claim> {
    if task.branch.Some? then claims - {task.BranchClaim()} else claims
  }

  /** A frame that leaves takes its claim with it, and no other frame's. */
  lemma FinishedKeepsClaims(claims: set<Claim>, tasks: map<TaskId, Task>, id: TaskId, outcome: Outcome)
    requires ClaimsExact(claims, tasks) && id in tasks && tasks[id].Unfinished()
    ensures ClaimsExact(ClaimsAfter(claims, tasks[id]), tasks[id := tasks[id].(phase := Finished(outcome))])
  {
    var tasks1 := tasks[id := tasks[id].(phase := Finished(outcome))];
    FinishedStaysClaimed(claims, tasks, id, outcome);
    FinishedStaysBacked(claims, tasks, id, outcome);
    assert OnePerClaim(tasks1) by {
      forall x, y, c | x in tasks1 && y in tasks1 && InFlight(tasks1[x], c) && InFlight(tasks1[y], c)
        ensures x == y
      {
        assert InFlight(tasks[x], c) && InFlight(tasks[y], c);
      }
    }
  }

  lemma FinishedStaysClaimed(claims: set<Claim>, tasks: map<TaskId, Task>, id: TaskId, outcome: Outcome)
    requires Claimed(claims, tasks) && OnePerClaim(tasks) && id in tasks && tasks[id].Unfinished()
    ensures Claimed(ClaimsAfter(claims, tasks[id]), tasks[id := tasks[id].(phase := Finished(outcome))])
  {
    forall other | other in tasks && other != id && tasks[other].Unfinished() && tasks[other].branch.Some?
      ensures tasks[other].BranchClaim() in ClaimsAfter(claims, tasks[id])
    {
      var c := tasks[other].BranchClaim();
      assert InFlight(tasks[other], c);
      assert !InFlight(tasks[id], c);
    }
  }

  lemma FinishedStaysBacked(claims: set<Claim>, tasks: map<TaskId, Task>, id: TaskId, outcome: Outcome)
    requires Backed(claims, tasks) && id in tasks && tasks[id].Unfinished()
    ensures Backed(ClaimsAfter(claims, tasks[id]), tasks[id := tasks[id].(phase := Finished(outcome))])
  {
    var tasks1 := tasks[id := tasks[id].(phase := Finished(outcome))];
    forall c | c in ClaimsAfter(claims, tasks[id])
      ensures exists other :: other in tasks1 && InFlight(tasks1[other], c)
    {
      var other :| other in tasks && InFlight(tasks[other], c);
      assert other != id;
      assert other in tasks1 && InFlight(tasks1[other], c);
    }
  }

  lemma FailKeepsLinear(st: State, id: TaskId, fault: Fault, accepted: map<string, Value>)
    requires id in st.tasks && st.tasks[id].Unfinished()
    requires ClaimsExact(st.claims, st.tasks) && Recorded(st.branches, st.calls)
    requires AllLinked(st.branches, st.ledger.base, st.tasks, {id})
    ensures Linear(Fail(st, id, fault, accepted))
  {
    NoteFailureEffect(st, st.tasks[id], fault, accepted);
    SettleKeepsLinear(NoteFailure(st, st.tasks[id], fault, accepted), id, Error(fault));
  }

  /** Publication replaces the binding of this task's own claim, or none. */
  lemma PublishLinks(cat: Catalog, st: State, id: TaskId, raw: Raw)
    requires Sound(cat, st) && Linear(st) && id in st.tasks && st.tasks[id].Unfinished() && !raw.Raised?
    ensures var st1 := Publish(st, id, raw);
      && st1.tasks == st.tasks && st1.claims == st.claims
      && Recorded(st1.branches, st1.calls)
      && AllLinked(st1.branches, st1.ledger.base, st1.tasks, {id})
  {
    var st1 := Publish(st, id, raw);
    var task := st.tasks[id];
    PublishEffect(st, id, raw);
    PublishKeepsBase(st, id, raw);
    assert TaskShape(cat, st.ledger, task);
    hide Publish, TaskShape, Sound;
    forall other | other in st.tasks && other != id && st.tasks[other].Unfinished() && st.tasks[other].branch.Some?
      ensures Linked(st1.branches, st1.ledger.base, st.tasks[other])
    {
      assert Linked(st.branches, st.ledger.base, st.tasks[other]);
      assert InFlight(st.tasks[other], st.tasks[other].BranchClaim());
      if task.branch.Some? {
        assert InFlight(task, task.BranchClaim());
      }
    }
  }

  lemma PublishKeepsBase(st: State, id: TaskId, raw: Raw)
    requires id in st.tasks && !raw.Raised?
    ensures forall slot :: slot in st.ledger.base ==>
      slot in Publish(st, id, raw).ledger.base && Publish(st, id, raw).ledger.base[slot] == st.ledger.base[slot]
  {
  }

  lemma ConcludeKeepsLinear(cat: Catalog, st: State, id: TaskId, raw: Raw, late: Option<Fault>)
    requires Sound(cat, st) && Linear(st) && id in st.tasks && st.tasks[id].Unfinished()
    ensures Linear(Conclude(st, id, raw, late))
  {
    if raw.Raised? {
      FailKeepsLinear(st, id, raw.fault, st.tasks[id].arguments);
    } else {
      PublishLinks(cat, st, id, raw);
      var st1 := Publish(st, id, raw);
      if late.Some? {
        FailKeepsLinear(st1, id, late.value, st.tasks[id].arguments);
      } else {
        SettleKeepsLinear(st1, id, if raw.DecisionSkip? then Skip else Ok(raw.value));
      }
    }
  }

  lemma ResumeKeepsLinear(st: State, id: TaskId, advance: Advance)
    requires Linear(st) && id in st.tasks && st.tasks[id].Unfinished()
    requires advance.Continue? ==>
      && advance.task.Unfinished()
      && advance.task.call == st.tasks[id].call && advance.task.tool == st.tasks[id].tool &&
           advance.task.branch == st.tasks[id].branch
    ensures Linear(Resume(st, id, advance))
  {
    match advance
    case GiveUp(fault, accepted) => FailKeepsLinear(st, id, fault, accepted);
    case Continue(task) => ReplacedKeepsLinear(st, id, task);
  }

  lemma ReplacedKeepsLinear(st: State, id: TaskId, task: Task)
    requires Linear(st) && id in st.tasks && st.tasks[id].Unfinished() && task.Unfinished()
    requires task.call == st.tasks[id].call && task.tool == st.tasks[id].tool && task.branch == st.tasks[id].branch
    ensures ClaimsExact(st.claims, st.tasks[id := task])
    ensures AllLinked(st.branches, st.ledger.base, st.tasks[id := task], {})
  {
    ReplacedKeepsClaims(st.claims, st.tasks, id, task);
  }

  lemma ReplacedKeepsClaims(claims: set<Claim>, tasks: map<TaskId, Task>, id: TaskId, task: Task)
    requires ClaimsExact(claims, tasks) && id in tasks && tasks[id].Unfinished() && task.Unfinished()
    requires task.call == tasks[id].call && task.tool == tasks[id].tool && task.branch == tasks[id].branch
    ensures ClaimsExact(claims, tasks[id := task])
  {
    var tasks1 := tasks[id := task];
    assert Backed(claims, tasks1) by {
      forall c | c in claims
        ensures exists other :: other in tasks1 && InFlight(tasks1[other], c)
      {
        var other :| other in tasks && InFlight(tasks[other], c);
        assert other in tasks1 && InFlight(tasks1[other], c);
      }
    }
    assert OnePerClaim(tasks1) by {
      forall x, y, c | x in tasks1 && y in tasks1 && InFlight(tasks1[x], c) && InFlight(tasks1[y], c)
        ensures x == y
      {
        assert InFlight(tasks[x], c) && InFlight(tasks[y], c);
      }
    }
  }

  /** A new frame joins with the claim it holds, if it holds one. */
  lemma AddedKeepsLinear(st: State, id: TaskId, task: Task, held: set<Claim>)
    requires Linear(st) && id !in st.tasks
    requires task.Unfinished() && task.branch.Some? ==>
      held == {task.BranchClaim()} && task.BranchClaim() !in st.claims && Linked(st.branches, st.ledger.base, task)
    requires !(task.Unfinished() && task.branch.Some?) ==> held == {}
    ensures ClaimsExact(st.claims + held, st.tasks[id := task])
    ensures AllLinked(st.branches, st.ledger.base, st.tasks[id := task], {})
  {
    var tasks := st.tasks[id := task];
    forall c | c in st.claims + held
      ensures exists other :: other in tasks && InFlight(tasks[other], c)
    {
      if c in st.claims {
        var other :| other in st.tasks && InFlight(st.tasks[other], c);
        assert InFlight(tasks[other], c);
      } else {
        assert InFlight(tasks[id], c);
      }
    }
    forall x, y, c | x in tasks && y in tasks && InFlight(tasks[x], c) && InFlight(tasks[y], c)
      ensures x == y
    {
      if x != id { assert InFlight(st.tasks[x], c); }
      if y != id { assert InFlight(st.tasks[y], c); }
    }
  }

  /** What admission has established: the parent is the visible generation and nobody holds the claim. */
  lemma AdmissionGuards(cat: Catalog, st: State, tool: Tool, call: Call)
    requires call.revision.Some? && Admission(cat, st, tool, call).None?
    ensures var lineage := call.revision.value;
      && call.id !in st.calls
      && lineage.root.Some? && lineage.parent.Some?
      && lineage.root.value in st.calls && lineage.parent.value in st.calls
      && var root := st.calls[lineage.root.value];
         var claim := Claim(call.invocation, lineage.root.value, tool.name);
         && root.fault == Some(ValidationFault)
         && root.invocation == call.invocation
         && claim !in st.claims
         && Visible(st, claim, root.tool) == lineage.parent
         && Find(cat.tools, root.tool).Some?
         && AllConstructors(cat.tools, tool, Find(cat.tools, root.tool).value)
         && AllOptedIn(cat.tools, tool, Find(cat.tools, root.tool).value)
  {
  }

  /** Authorization: an admitted revision of one tool for another has at least one declared path to
      the failed root, and on every simple path of declared edges there, each edge is opted in and
      each participant a model constructor. */
  lemma AdmissionIsAuthorized(cat: Catalog, st: State, tool: Tool, call: Call, path: Path)
    requires call.revision.Some? && Admission(cat, st, tool, call).None?
    requires var root := Find(cat.tools, st.calls[call.revision.value.root.value].tool).value;
      tool.name != root.name && IsSimplePath(cat.tools, tool, {tool.name}, root.name, path)
    ensures tool.modelConstructor
    ensures forall i :: 0 <= i < |path| ==> path[i].consumer.modelConstructor && path[i].dependency.optedIn
  {
    AdmissionGuards(cat, st, tool, call);
    var root := Find(cat.tools, st.calls[call.revision.value.root.value].tool).value;
    PathsAreSimplePaths(cat.tools, tool, {tool.name}, root.name, path);
    assert IsRevisionPath(cat.tools, tool, root, path);
    hide Admission;
    assert Constructors(path) && OptedIn(path);
  }

  /** Which value an admitted revision replaces is settled when it is admitted: its parent is the branch's
      binding if there is one, else the invocation's base binding, else, for the root's own tool only,
      the failed root call. */
  lemma AdmittedReplacesVisible(cat: Catalog, st: State, tool: Tool, call: Call)
    requires call.revision.Some? && Admission(cat, st, tool, call).None?
    ensures var lineage := call.revision.value;
      && lineage.root.Some? && lineage.root.value in st.calls
      && var claim, slot := Claim(call.invocation, lineage.root.value, tool.name), (call.invocation, tool.name);
         && lineage.parent == Some(
              if claim in st.branches then st.branches[claim].callId
              else if slot in st.ledger.base then st.ledger.base[slot].callId
              else lineage.root.value)
         && (claim !in st.branches && slot !in st.ledger.base ==> st.calls[lineage.root.value].tool == tool.name)
  {
    AdmissionGuards(cat, st, tool, call);
  }

  /** What an admitted revision brings along. */
  ghost predicate MayEnter(st: State, tool: Tool, call: Call) {
    && call.revision.Some?
    && var lineage := call.revision.value;
       && call.id !in st.calls
       && lineage.root.Some? && lineage.parent.Some?
       && var claim := Claim(call.invocation, lineage.root.value, tool.name);
          claim !in st.claims && exists rootTool :: Visible(st, claim, rootTool) == lineage.parent
  }

  lemma RefusalGuards(cat: Catalog, st: State, tool: Tool, call: Call)
    ensures call.revision.Some? && Refusal(cat, st, tool, call).None? ==> MayEnter(st, tool, call)
  {
    if call.revision.Some? && Refusal(cat, st, tool, call).None? {
      AdmissionGuards(cat, st, tool, call);
    }
  }

  lemma AcceptedKeepsLinear(cat: Catalog, st: State, id: TaskId, tool: Tool, call: Call, refusal: Option<Rejection>)
    requires Linear(st) && id !in st.tasks
    requires call.revision.Some? && refusal.None? ==> MayEnter(st, tool, call)
    ensures Linear(ArriveAccepted(cat, st, id, tool, call, refusal))
  {
    var st1 := ArriveAccepted(cat, st, id, tool, call, refusal);
    if call.revision.None? {
      OrdinaryEffect(cat, st, id, tool, call);
      AddedKeepsLinear(st, id, st1.tasks[id], {});
      assert st1.claims == st.claims + {};
    } else {
      RevisionEffect(st, id, tool, call, refusal);
      var held := if refusal.None? then {st1.tasks[id].BranchClaim()} else {};
      assert refusal.None? ==> Linked(st.branches, st.ledger.base, st1.tasks[id]);
      AddedKeepsLinear(st, id, st1.tasks[id], held);
      assert st1.claims == st.claims + held;
    }
  }

  lemma ArriveKeepsLinear(cat: Catalog, st: State, id: TaskId, call: Call, fault: Option<Fault>)
    requires Linear(st) && id !in st.tasks
    ensures Linear(ArriveStep(cat, st, id, call, fault))
  {
    if Accepted(cat, call) {
      var tool := Find(cat.tools, call.toolId).value;
      var refusal := Refusal(cat, st, tool, call);
      RefusalGuards(cat, st, tool, call);
      AcceptedKeepsLinear(cat, st, id, tool, call, refusal);
      var st1 := ArriveAccepted(cat, st, id, tool, call, refusal);
      var raised := ArrivalFault(cat, tool, call, fault);
      if id in st1.tasks && st1.tasks[id].Unfinished() && raised.Some? {
        FailKeepsLinear(st1, id, raised.value, map[]);
      }
    }
  }

  lemma StepKeepsLinear(cat: Catalog, st: State, l: Label)
    requires Sound(cat, st) && Linear(st) && Enabled(st, l)
    ensures Linear(Step(cat, st, l))
  {
    if Resumes(l) {
      AdvanceEffect(st, l);
      ResumeKeepsLinear(st, l.id, AdvanceOf(st, l));
    } else {
      match l
      case Arrive(id, call, fault) => ArriveKeepsLinear(cat, st, id, call, fault);
      case Enter(id) => ReplacedKeepsLinear(st, id, st.tasks[id].(phase := Running));
      case Return(id, raw, late) => ConcludeKeepsLinear(cat, st, id, raw, late);
      case Cancel(id) => SettleKeepsLinear(st, id, Cancelled);
    }
  }

  // ---------------------------------------------------------------- the published generations

  datatype Generation = Generation(callId: CallId, parent: Option<CallId>)

  /** The step publishes a generation of `c`. */
  predicate Publishes(st: State, l: Label, c: Claim) {
    && l.Return? && l.raw.Value?
    && l.id in st.tasks && InFlight(st.tasks[l.id], c)
  }

  function GenerationOf(t: Task): Generation {
    Generation(t.call.id, if t.call.revision.Some? then t.call.revision.value.parent else None)
  }

  /** The generations of `c` in the order the run published them. */
  ghost function Generations(cat: Catalog, st: State, ls: seq<Label>, c: Claim): seq<Generation>
    requires IsRun(cat, st, ls)
    decreases |ls|
  {
    if ls == [] then []
    else
      var rest := Generations(cat, Step(cat, st, ls[0]), ls[1..], c);
      if Publishes(st, ls[0], c) then [GenerationOf(st.tasks[ls[0].id])] + rest else rest
  }

  /** Branch bindings change by publication only, and call records are never dropped. */
  lemma StepOnBranches(cat: Catalog, st: State, l: Label, c: Claim)
    requires Sound(cat, st) && Enabled(st, l)
    ensures var st1 := Step(cat, st, l);
      && st.calls.Keys <= st1.calls.Keys
      && (if Publishes(st, l, c)
          then c in st1.branches && st1.branches[c] == Binding(st.tasks[l.id].call.id, l.raw.value) &&
            st.tasks[l.id].call.id in st1.calls
          else (c in st1.branches <==> c in st.branches) && (c in st.branches ==> st1.branches[c] == st.branches[c]))
  {
    StepEffect(cat, st, l);
    if l.Return? {
      assert TaskShape(cat, st.ledger, st.tasks[l.id]);
      ConcludeEffect(st, l.id, l.raw, l.late);
    }
  }

  /** Revisions in flight for `c` carry call ids that no generation of `c` has used. */
  ghost predicate Unused(st: State, c: Claim, used: set<CallId>) {
    && used <= st.calls.Keys
    && forall id :: id in st.tasks && InFlight(st.tasks[id], c) ==> st.tasks[id].call.id !in used
  }

  /** Whatever is in flight after a step was in flight before, or has just been admitted. */
  lemma StepKeepsUnused(cat: Catalog, st: State, l: Label, c: Claim, used: set<CallId>)
    requires Sound(cat, st) && Linear(st) && Enabled(st, l) && Unused(st, c, used)
    ensures var now := if Publishes(st, l, c) then used + {st.tasks[l.id].call.id} else used;
      Unused(Step(cat, st, l), c, now)
  {
    var st1 := Step(cat, st, l);
    StepEffect(cat, st, l);
    StepOnBranches(cat, st, l, c);
    var now := if Publishes(st, l, c) then used + {st.tasks[l.id].call.id} else used;
    forall id | id in st1.tasks && InFlight(st1.tasks[id], c)
      ensures st1.tasks[id].call.id !in now
    {
      if id in st.tasks {
        if id != l.id { assert st1.tasks[id] == st.tasks[id]; }
        StepKeepsFinished(cat, st, l, id);
        assert InFlight(st.tasks[id], c);
        if Publishes(st, l, c) { assert false; }
      } else {
        NewlyInFlight(cat, st, l, c);
      }
    }
  }

  lemma StepKeepsFinished(cat: Catalog, st: State, l: Label, id: TaskId)
    requires Enabled(st, l) && id in st.tasks
    ensures id in Step(cat, st, l).tasks && (st.tasks[id].Unfinished() || Step(cat, st, l).tasks[id] == st.tasks[id])
  {
    StepEffect(cat, st, l);
    if Resumes(l) { AdvanceEffect(st, l); }
  }

  lemma NewlyInFlight(cat: Catalog, st: State, l: Label, c: Claim)
    requires Enabled(st, l) && l.Arrive? && l.id in Step(cat, st, l).tasks && InFlight(Step(cat, st, l).tasks[l.id], c)
    ensures l.call.id !in st.calls
  {
    var tool := Find(cat.tools, l.call.toolId).value;
    var refusal := Refusal(cat, st, tool, l.call);
    ArriveEffect(cat, st, l.id, l.call, l.fault);
    AcceptedEffect(cat, st, l.id, tool, l.call, refusal);
    var st1 := ArriveAccepted(cat, st, l.id, tool, l.call, refusal);
    PreparedEffect(st1, l.id, ArrivalFault(cat, tool, l.call, l.fault));
    RefusalGuards(cat, st, tool, l.call);
    if l.call.revision.Some? {
      RevisionEffect(st, l.id, tool, l.call, refusal);
    } else {
      OrdinaryEffect(cat, st, l.id, tool, l.call);
    }
  }

  /** The first base binding of a slot is final. */
  lemma BaseGrows(cat: Catalog, st: State, l: Label, slot: (string, string))
    requires Enabled(st, l) && slot in st.ledger.base
    ensures slot in Step(cat, st, l).ledger.base && Step(cat, st, l).ledger.base[slot] == st.ledger.base[slot]
  {
    StepEffect(cat, st, l);
    if l.Return? {
      ConcludeKeepsBase(st, l.id, l.raw, l.late, slot);
    }
  }

  lemma ConcludeKeepsBase(st: State, id: TaskId, raw: Raw, late: Option<Fault>, slot: (string, string))
    requires id in st.tasks && slot in st.ledger.base
    ensures var st1 := Conclude(st, id, raw, late);
      slot in st1.ledger.base && st1.ledger.base[slot] == st.ledger.base[slot]
  {
    if raw.Raised? {
      FailEffect(st, id, raw.fault, st.tasks[id].arguments);
    } else {
      PublishEffect(st, id, raw);
      if late.Some? {
        FailEffect(Publish(st, id, raw), id, late.value, st.tasks[id].arguments);
      }
    }
  }

  lemma {:induction false} RunKeepsBase(cat: Catalog, st: State, ls: seq<Label>, slot: (string, string))
    requires IsRun(cat, st, ls) && slot in st.ledger.base
    ensures slot in After(cat, st, ls).ledger.base && After(cat, st, ls).ledger.base[slot] == st.ledger.base[slot]
    decreases |ls|
  {
    if ls != [] {
      BaseGrows(cat, st, ls[0], slot);
      RunKeepsBase(cat, Step(cat, st, ls[0]), ls[1..], slot);
    }
  }

  /** The call ids of a chain are new and pairwise distinct. */
  ghost predicate Distinct(gens: seq<Generation>, used: set<CallId>) {
    && (forall i :: 0 <= i < |gens| ==> gens[i].callId !in used)
    && (forall i, j :: 0 <= i < j < |gens| ==> gens[i].callId != gens[j].callId)
  }

  /** Each generation replaces exactly the one its parent call id names. */
  ghost predicate Chained(gens: seq<Generation>) {
    forall i, j :: 0 <= i < |gens| && j == i + 1 < |gens| ==> gens[j].parent == Some(gens[i].callId)
  }

  /** The first generation replaces the branch binding of the first state, else the invocation's base
      binding or the failed root call: `AdmittedReplacesVisible` says which, at its admission. */
  ghost predicate StartsAt(st: State, last: State, c: Claim, gens: seq<Generation>) {
    gens != [] ==>
      if c in st.branches then gens[0].parent == Some(st.branches[c].callId)
      else
        || gens[0].parent == Some(c.root)
        || ((c.invocation, c.tool) in last.ledger.base &&
             gens[0].parent == Some(last.ledger.base[(c.invocation, c.tool)].callId))
  }

  /** The branch binding in force is the last generation. */
  ghost predicate EndsAt(st: State, last: State, c: Claim, gens: seq<Generation>) {
    if gens == [] then
      (c in last.branches <==> c in st.branches) && (c in st.branches ==> last.branches[c] == st.branches[c])
    else c in last.branches && last.branches[c].callId == gens[|gens| - 1].callId
  }

  lemma Prepended(first: Generation, rest: seq<Generation>, used: set<CallId>)
    requires first.callId !in used && Distinct(rest, used + {first.callId}) && Chained(rest)
    requires rest != [] ==> rest[0].parent == Some(first.callId)
    ensures Distinct([first] + rest, used) && Chained([first] + rest)
  {
    var gens := [first] + rest;
    assert forall i :: 1 <= i < |gens| ==> gens[i] == rest[i - 1];
  }

  /** The whole chain between two states of a run. */
  ghost predicate IsHistory(st: State, last: State, c: Claim, gens: seq<Generation>, used: set<CallId>) {
    Distinct(gens, used) && Chained(gens) && StartsAt(st, last, c, gens) && EndsAt(st, last, c, gens)
  }

  lemma PublishedFirst(cat: Catalog, st: State, l: Label, c: Claim, last: State, rest: seq<Generation>,
                       used: set<CallId>)
    requires Sound(cat, st) && Linear(st) && Enabled(st, l) && Publishes(st, l, c) && Unused(st, c, used)
    requires IsHistory(Step(cat, st, l), last, c, rest, used + {st.tasks[l.id].call.id})
    requires var slot := (c.invocation, c.tool);
      slot in st.ledger.base ==> slot in last.ledger.base && last.ledger.base[slot] == st.ledger.base[slot]
    ensures IsHistory(st, last, c, [GenerationOf(st.tasks[l.id])] + rest, used)
  {
    var task := st.tasks[l.id];
    StepOnBranches(cat, st, l, c);
    assert Linked(st.branches, st.ledger.base, task);
    Prepended(GenerationOf(task), rest, used);
  }

  lemma {:induction false} GenerationsChain(cat: Catalog, st: State, ls: seq<Label>, c: Claim, used: set<CallId>)
    requires Sound(cat, st) && Linear(st) && IsRun(cat, st, ls) && Unused(st, c, used)
    ensures IsHistory(st, After(cat, st, ls), c, Generations(cat, st, ls, c), used)
    decreases |ls|
  {
    if ls != [] {
      var l := ls[0];
      var st1 := Step(cat, st, l);
      StepKeepsSound(cat, st, l);
      StepKeepsLinear(cat, st, l);
      StepKeepsUnused(cat, st, l, c, used);
      if Publishes(st, l, c) {
        var now := used + {st.tasks[l.id].call.id};
        GenerationsChain(cat, st1, ls[1..], c, now);
        if (c.invocation, c.tool) in st.ledger.base {
          RunKeepsBase(cat, st, ls, (c.invocation, c.tool));
        }
        PublishedFirst(cat, st, l, c, After(cat, st, ls), Generations(cat, st1, ls[1..], c), used);
      } else {
        StepOnBranches(cat, st, l, c);
        GenerationsChain(cat, st1, ls[1..], c, used);
      }
    }
  }

  /** Linear revision history of every run: for each invocation, failed root and tool, the
      published generations have distinct call ids, each replaces the one its parent
      names, and the last is the binding in force; meanwhile at most one is in flight. */
  lemma RevisionHistoryIsLinear(cat: Catalog, ls: seq<Label>, c: Claim)
    requires IsRun(cat, EMPTY, ls)
    ensures var gens, last := Generations(cat, EMPTY, ls, c), After(cat, EMPTY, ls);
      && IsHistory(EMPTY, last, c, gens, {})
      && (c in last.claims <==> exists id :: id in last.tasks && InFlight(last.tasks[id], c))
      && (forall id, other ::
           id in last.tasks && other in last.tasks && InFlight(last.tasks[id], c) && InFlight(last.tasks[other], c) ==>
           id == other)
  {
    GenerationsChain(cat, EMPTY, ls, c, {});
    RunKeepsLinear(cat, EMPTY, ls);
  }

  lemma {:induction false} RunKeepsLinear(cat: Catalog, st: State, ls: seq<Label>)
    requires Sound(cat, st) && Linear(st) && IsRun(cat, st, ls)
    ensures Linear(After(cat, st, ls))
    decreases |ls|
  {
    if ls != [] {
      StepKeepsSound(cat, st, ls[0]);
      StepKeepsLinear(cat, st, ls[0]);
      RunKeepsLinear(cat, Step(cat, st, ls[0]), ls[1..]);
    }
  }
}
