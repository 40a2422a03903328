/** `LocalToolRuntime` as a transition system: one step is what the event loop runs between two awaits. */
module ToolRuntime {
  import opened Options
  import opened ToolCatalog
  import opened RevisionPaths

  /** Results and arguments are only stored, compared and handed on. */
  type Value = int
  type CallId = string
  type TaskId = nat

  datatype Rejection =
    | Stale | InvalidLineage | RootNotFailed | ParentMismatch
    | Unsupported | NotAuthorized | Conflict | NoDependencyChange

  datatype Fault = ValidationFault | Rejected(reason: Rejection) | OtherFault

  datatype Lineage = Lineage(root: Option<CallId>, parent: Option<CallId>)

  /** A result of an earlier turn bound to an argument; `sound` when it comes from another session and an
      SDK tool of this version, and every placeholder in it resolves. */
  datatype Retained = Retained(result: Value, thread: string, producer: string, sound: bool)

  /** `revision` is present exactly for a `dependency_revision` call. */
  datatype Call = Call(
    id: CallId,
    toolId: string,
    invocation: string,
    message: Option<string>,
    revision: Option<Lineage>,
    supplied: map<string, Value>,
    retained: map<string, Retained>)

  datatype Record = Record(invocation: string, tool: string, accepted: map<string, Value>, fault: Option<Fault>)
  datatype Binding = Binding(callId: CallId, result: Value)
  datatype Claim = Claim(invocation: string, root: CallId, tool: string)

  datatype Outcome = Ok(value: Value) | Skip | Error(fault: Fault) | Cancelled

  /** Where one suspended `outcome_for_event` frame stands. */
  datatype Phase =
    | Asking(input: nat)
    | Resolving(dependency: nat, yielded: bool)
    | Waiting(dependency: nat, key: string, event: TaskId)
    | Queued
    | Running
    | Finished(outcome: Outcome)

  /** One frame: `event` is the completion event an ordinary call holds, `branch` the
      failed root whose result branch an admitted revision works in. */
  datatype Task = Task(
    call: Call,
    tool: Tool,
    event: Option<TaskId>,
    branch: Option<CallId>,
    owns: bool,
    arguments: map<string, Value>,
    phase: Phase)
  {
    predicate Unfinished() { !phase.Finished? }
    predicate Ordinary() { call.revision.None? }
    function BranchClaim(): Claim
      requires branch.Some?
    { Claim(call.invocation, branch.value, tool.name) }
  }

  /** What ordinary calls share. An event is named by the call that created it. */
  datatype Ledger = Ledger(
    results: map<string, Value>,
    failures: set<string>,
    reserved: set<string>,
    events: map<string, TaskId>,
    fired: set<TaskId>,
    rounds: map<string, set<(string, string)>>,
    base: map<(string, string), Binding>)

  datatype State = State(
    ledger: Ledger,
    branches: map<Claim, Binding>,
    claims: set<Claim>,
    calls: map<CallId, Record>,
    lanes: map<string, TaskId>,
    tasks: map<TaskId, Task>)

  const EMPTY := State(Ledger(map[], {}, {}, map[], {}, map[], map[]), map[], {}, map[], map[], map[])

  /** What the target did: the callable itself is not modelled. */
  datatype Raw = Value(value: Value) | DecisionSkip | Raised(fault: Fault)

  /** `fault` is a refusal while the call is being prepared, `late` one after the result
      was published (serialising it, or the completion callback). */
  datatype Label =
    | Arrive(id: TaskId, call: Call, fault: Option<Fault>)
    | Answer(id: TaskId, value: Option<Value>)
    | Look(id: TaskId)
    | Wake(id: TaskId)
    | Enter(id: TaskId)
    | Return(id: TaskId, raw: Raw, late: Option<Fault>)
    | Cancel(id: TaskId)

  // ---------------------------------------------------------------- ordinary arrival

  function BeginInputRound(led: Ledger, id: TaskId, tool: Tool, call: Call): Ledger {
    if call.message.None? || tool.inputs == [] then led
    else
      var batch := (call.invocation, call.message.value);
      var seen := if tool.name in led.rounds then led.rounds[tool.name] else {};
      if batch in seen then led
      else
        var noted := led.(rounds := led.rounds[tool.name := seen + {batch}]);
        if tool.name !in led.events || led.events[tool.name] !in led.fired then noted
        else Rewind(noted, id, tool.name)
  }

  /** A key as if it had never been called, with a new event. */
  function Rewind(led: Ledger, id: TaskId, key: string): Ledger {
    led.(reserved := led.reserved - {key}, results := led.results - {key}, failures := led.failures - {key},
         events := led.events[key := id])
  }

  function OpenEvent(led: Ledger, id: TaskId, key: string): Ledger {
    if key in led.events then led else led.(events := led.events[key := id])
  }

  function ArriveOrdinary(cat: Catalog, st: State, id: TaskId, tool: Tool, call: Call): State {
    var led := OpenEvent(BeginInputRound(st.ledger, id, tool, call), id, tool.name);
    var fed := DependencyFed(cat.tools, tool.name);
    var owns := !fed || tool.name !in led.reserved;
    var reserved := if fed then led.reserved + {tool.name} else led.reserved;
    var task := Task(call, tool, Some(led.events[tool.name]), None, owns, call.supplied, Asking(0));
    st.(ledger := led.(reserved := reserved), tasks := st.tasks[id := task])
  }

  // ---------------------------------------------------------------- revision admission

  function Visible(st: State, claim: Claim, rootTool: string): Option<CallId> {
    if claim in st.branches then Some(st.branches[claim].callId)
    else if (claim.invocation, claim.tool) in st.ledger.base then
      Some(st.ledger.base[(claim.invocation, claim.tool)].callId)
    else if claim.tool == rootTool then Some(claim.root)
    else None
  }

  /** `_revision_context`: the first failing check, or `None` when the call is admitted. */
  ghost function Admission(cat: Catalog, st: State, tool: Tool, call: Call): Option<Rejection>
    requires call.revision.Some?
  {
    var lineage := call.revision.value;
    if call.id in st.calls then Some(Stale)
    else if lineage.root.None? || lineage.parent.None? then Some(InvalidLineage)
    else if lineage.root.value !in st.calls || lineage.parent.value !in st.calls then Some(InvalidLineage)
    else
      var root, parent := st.calls[lineage.root.value], st.calls[lineage.parent.value];
      if root.invocation != call.invocation then Some(InvalidLineage)
      else if root.fault != Some(ValidationFault) then Some(RootNotFailed)
      else if parent.invocation != call.invocation || parent.tool != tool.name then Some(ParentMismatch)
      else
        var rootTool := Find(cat.tools, root.tool);
        if rootTool.None? then Some(Unsupported)
        else
          var verdict := JudgeSpec(cat.tools, tool, rootTool.value);
          var claim := Claim(call.invocation, lineage.root.value, tool.name);
          if verdict.NoPath? || verdict.NotConstructors? then Some(Unsupported)
          else if verdict.NotOptedIn? then Some(NotAuthorized)
          else if Visible(st, claim, root.tool) != Some(lineage.parent.value) then Some(Stale)
          else if claim in st.claims then Some(Conflict)
          else None
  }

  function ArriveRevision(st: State, id: TaskId, tool: Tool, call: Call, refusal: Option<Rejection>): State
    requires call.revision.Some?
  {
    var branch := if refusal.Some? then None else call.revision.value.root;
    var task := Task(call, tool, None, branch, false, call.supplied, Asking(0));
    var st1 := st.(tasks := st.tasks[id := task],
                   claims := if branch.Some? then st.claims + {task.BranchClaim()} else st.claims);
    if refusal.Some? then Fail(st1, id, Rejected(refusal.value), map[]) else st1
  }

  // ---------------------------------------------------------------- leaving a frame

  function LanesWithout(lanes: map<string, TaskId>, id: TaskId): map<string, TaskId> {
    map lane | lane in lanes && lanes[lane] != id :: lanes[lane]
  }

  /** The `finally` block: drop the claim, set the held event, and the frame is gone. */
  function Settle(st: State, id: TaskId, outcome: Outcome): State
    requires id in st.tasks
  {
    var task := st.tasks[id];
    st.(
      ledger := if task.event.Some? then st.ledger.(fired := st.ledger.fired + {task.event.value}) else st.ledger,
      claims := if task.branch.Some? then st.claims - {task.BranchClaim()} else st.claims,
      lanes := LanesWithout(st.lanes, id),
      tasks := st.tasks[id := task.(phase := Finished(outcome))])
  }

  function RecordCall(st: State, task: Task, accepted: map<string, Value>, fault: Option<Fault>): State {
    st.(calls := st.calls[task.call.id := Record(task.call.invocation, task.tool.name, accepted, fault)])
  }

  /** The failure a dependent will find, and the reservation handed back for a retry. */
  function FailLedger(led: Ledger, task: Task): Ledger {
    if !task.Ordinary() then led
    else led.(
      failures := led.failures + {task.tool.name},
      reserved := if task.owns then led.reserved - {task.tool.name} else led.reserved)
  }

  /** The `except` block. */
  function NoteFailure(st: State, task: Task, fault: Fault, accepted: map<string, Value>): State {
    var st1 := st.(ledger := FailLedger(st.ledger, task));
    if task.Ordinary() || task.call.id !in st.calls then RecordCall(st1, task, accepted, Some(fault)) else st1
  }

  /** The `except` block, then `finally`. */
  function Fail(st: State, id: TaskId, fault: Fault, accepted: map<string, Value>): State
    requires id in st.tasks
  {
    Settle(NoteFailure(st, st.tasks[id], fault, accepted), id, Error(fault))
  }

  function PublishOrdinary(led: Ledger, task: Task, raw: Raw): Ledger
    requires !raw.Raised?
  {
    var key := task.tool.name;
    if !task.owns then led
    else if raw.DecisionSkip? then led.(failures := led.failures + {key}, results := led.results - {key})
    else
      var slot := (task.call.invocation, key);
      led.(
        failures := led.failures - {key},
        results := led.results[key := raw.value],
        base := if slot in led.base then led.base else led.base[slot := Binding(task.call.id, raw.value)])
  }

  function Publish(st: State, id: TaskId, raw: Raw): State
    requires id in st.tasks && !raw.Raised?
  {
    var task := st.tasks[id];
    var st1 :=
      if task.Ordinary() then st.(ledger := PublishOrdinary(st.ledger, task, raw))
      else if raw.DecisionSkip? || task.branch.None? then st
      else st.(branches := st.branches[task.BranchClaim() := Binding(task.call.id, raw.value)]);
    RecordCall(st1, task, task.arguments, None)
  }

  function Conclude(st: State, id: TaskId, raw: Raw, late: Option<Fault>): State
    requires id in st.tasks
  {
    var task := st.tasks[id];
    if raw.Raised? then Fail(st, id, raw.fault, task.arguments)
    else
      var st1 := Publish(st, id, raw);
      if late.Some? then Fail(st1, id, late.value, task.arguments)
      else Settle(st1, id, if raw.DecisionSkip? then Skip else Ok(raw.value))
  }

  // ---------------------------------------------------------------- dependency arguments

  /** `_dependency_result_key`. */
  function ResultKey(led: Ledger, dependency: Dependency): Option<string> {
    if Known(led, dependency.toolId) then Some(dependency.toolId)
    else if Known(led, dependency.toolName) then Some(dependency.toolName)
    else None
  }

  predicate Known(led: Ledger, key: string) {
    key in led.results || key in led.failures || key in led.events
  }

  /** What a revision call reads: its own branch first, then the invocation's base bindings. */
  function BranchValue(st: State, invocation: string, root: CallId, dependency: Dependency): Option<Value> {
    var own := Claim(invocation, root, dependency.toolId);
    var ownByName := Claim(invocation, root, dependency.toolName);
    if own in st.branches then Some(st.branches[own].result)
    else if ownByName in st.branches then Some(st.branches[ownByName].result)
    else if (invocation, dependency.toolId) in st.ledger.base then
      Some(st.ledger.base[(invocation, dependency.toolId)].result)
    else if (invocation, dependency.toolName) in st.ledger.base then
      Some(st.ledger.base[(invocation, dependency.toolName)].result)
    else None
  }

  /** A resumed frame either goes on, or raises before its target was reached. */
  datatype Advance = Continue(task: Task) | GiveUp(fault: Fault, accepted: map<string, Value>)

  function Resume(st: State, id: TaskId, advance: Advance): State
    requires id in st.tasks
  {
    match advance
    case Continue(task) => st.(tasks := st.tasks[id := task])
    case GiveUp(fault, accepted) => Fail(st, id, fault, accepted)
  }

  function Supply(task: Task, i: nat, value: Value): Advance
    requires i < |task.tool.dependencies|
  {
    var name := task.tool.dependencies[i].argName;
    Continue(task.(arguments := task.arguments[name := value], phase := Resolving(i + 1, false)))
  }

  /** The read after the event: a failure wins over a result. */
  function ReadLedger(led: Ledger, task: Task, i: nat, key: string): Advance
    requires i < |task.tool.dependencies|
  {
    if key in led.failures || key !in led.results then GiveUp(OtherFault, map[])
    else Supply(task, i, led.results[key])
  }

  function Lookup(m: map<string, Value>, key: string): Option<Value> {
    if key in m then Some(m[key]) else None
  }

  /** `_require_revised_root_dependency`, for an admitted revision. */
  function RootRefusal(st: State, task: Task): Option<Rejection>
    requires task.branch.Some?
  {
    if task.call.id == task.branch.value then Some(ParentMismatch)
    else if task.branch.value !in st.calls || st.calls[task.branch.value].tool != task.tool.name then None
    else
      var accepted := st.calls[task.branch.value].accepted;
      if forall i :: 0 <= i < |task.tool.dependencies| ==>
           Lookup(task.arguments, task.tool.dependencies[i].argName) ==
             Lookup(accepted, task.tool.dependencies[i].argName)
      then Some(NoDependencyChange)
      else None
  }

  /** The next dependency of an ordinary call. */
  function LookOrdinary(led: Ledger, task: Task): Advance
    requires task.phase.Resolving?
  {
    var i := task.phase.dependency;
    if i >= |task.tool.dependencies| then Continue(task.(phase := Queued))
    else
      var dependency := task.tool.dependencies[i];
      var key := ResultKey(led, dependency);
      if key.Some? then
        if key.value in led.events then Continue(task.(phase := Waiting(i, key.value, led.events[key.value])))
        else ReadLedger(led, task, i, key.value)
      else if !task.phase.yielded then Continue(task.(phase := Resolving(i, true)))
      else if dependency.argName in task.call.retained then
        Supply(task, i, task.call.retained[dependency.argName].result)
      else GiveUp(OtherFault, map[])
  }

  /** The next dependency of an admitted revision, which never waits. */
  function LookRevision(st: State, task: Task): Advance
    requires task.phase.Resolving? && task.branch.Some?
  {
    var i := task.phase.dependency;
    if i >= |task.tool.dependencies| then
      var refusal := RootRefusal(st, task);
      if refusal.Some? then GiveUp(Rejected(refusal.value), task.arguments) else Continue(task.(phase := Queued))
    else
      var value := BranchValue(st, task.call.invocation, task.branch.value, task.tool.dependencies[i]);
      if value.Some? then Supply(task, i, value.value) else GiveUp(OtherFault, map[])
  }

  function LookAdvance(st: State, task: Task): Advance
    requires task.phase.Resolving?
  {
    if task.branch.Some? then LookRevision(st, task) else LookOrdinary(st.ledger, task)
  }

  function AnswerAdvance(task: Task, answer: Option<Value>): Advance
    requires task.phase.Asking?
  {
    var i := task.phase.input;
    if i >= |task.tool.inputs| then Continue(task.(phase := Resolving(0, false)))
    else if task.tool.inputs[i] in task.arguments then Continue(task.(phase := Asking(i + 1)))
    else if answer.None? then GiveUp(OtherFault, map[])
    else Continue(task.(arguments := task.arguments[task.tool.inputs[i] := answer.value], phase := Asking(i + 1)))
  }

  function EnterLane(st: State, id: TaskId): State
    requires id in st.tasks
  {
    var task := st.tasks[id];
    var st1 := st.(tasks := st.tasks[id := task.(phase := Running)]);
    if task.tool.lane.Some? then st1.(lanes := st.lanes[task.tool.lane.value := id]) else st1
  }

  // ---------------------------------------------------------------- the whole step

  /** A placeholder whose arguments the server must bind first. */
  predicate Deferred(cat: Catalog, tool: Tool, call: Call) {
    cat.canonicalInterrupts && exists i :: 0 <= i < |tool.inputs| && tool.inputs[i] !in call.supplied
  }

  /** Calls that never reach the shared state: unknown, privileged or deferred. */
  predicate Accepted(cat: Catalog, call: Call) {
    var tool := Find(cat.tools, call.toolId);
    tool.Some? && !tool.value.privileged && !Deferred(cat, tool.value, call)
  }

  /** The arrival block of an accepted call, given what admission says about a revision. */
  function ArriveAccepted(cat: Catalog, st: State, id: TaskId, tool: Tool, call: Call,
                          refusal: Option<Rejection>): State {
    if call.revision.Some? then ArriveRevision(st, id, tool, call, refusal) else ArriveOrdinary(cat, st, id, tool, call)
  }

  /** `fault` is what preparing the arguments raised, after the keys were reserved. */
  function Prepared(st: State, id: TaskId, fault: Option<Fault>): State {
    if id in st.tasks && st.tasks[id].Unfinished() && fault.Some? then Fail(st, id, fault.value, map[]) else st
  }

  /** One binding of `validated_retained_dependencies`. */
  predicate AcceptsBinding(cat: Catalog, tool: Tool, argName: string, binding: Retained) {
    var declared := DeclarationOf(tool.dependencies, argName);
    && declared.Some? && declared.value.conversation
    && cat.thread == Some(binding.thread) && binding.sound
    && Feeds(binding.producer, declared.value)
  }

  /** Every retained binding is for an argument declared conversation-scoped, and comes from its producer. */
  predicate AcceptsRetained(cat: Catalog, tool: Tool, call: Call) {
    forall argName :: argName in call.retained ==> AcceptsBinding(cat, tool, argName, call.retained[argName])
  }

  /** What preparing the arguments raises: foreign bindings are refused before anything else. */
  function ArrivalFault(cat: Catalog, tool: Tool, call: Call, fault: Option<Fault>): Option<Fault> {
    if AcceptsRetained(cat, tool, call) then fault else Some(OtherFault)
  }

  ghost function Refusal(cat: Catalog, st: State, tool: Tool, call: Call): Option<Rejection> {
    if call.revision.Some? then Admission(cat, st, tool, call) else None
  }

  ghost function ArriveStep(cat: Catalog, st: State, id: TaskId, call: Call, fault: Option<Fault>): State {
    if !Accepted(cat, call) then st
    else
      var tool := Find(cat.tools, call.toolId).value;
      Prepared(ArriveAccepted(cat, st, id, tool, call, Refusal(cat, st, tool, call)), id,
        ArrivalFault(cat, tool, call, fault))
  }

  predicate LaneFree(st: State, task: Task) {
    task.tool.lane.Some? ==> task.tool.lane.value !in st.lanes
  }

  predicate Enabled(st: State, l: Label) {
    if l.Arrive? then
      l.id !in st.tasks
    else if l.id !in st.tasks then
      false
    else
      var task := st.tasks[l.id];
      match l
      case Answer(_, _) => task.phase.Asking?
      case Look(_) => task.phase.Resolving?
      case Wake(_) => task.phase.Waiting? && task.phase.event in st.ledger.fired &&
        task.phase.dependency < |task.tool.dependencies|
      case Enter(_) => task.phase.Queued? && LaneFree(st, task)
      case Return(_, _, _) => task.phase.Running?
      case Cancel(_) => task.Unfinished()
      case Arrive(_, _, _) => false
  }

  predicate Resumes(l: Label) { l.Answer? || l.Look? || l.Wake? }

  function AdvanceOf(st: State, l: Label): Advance
    requires Enabled(st, l) && Resumes(l)
  {
    var task := st.tasks[l.id];
    match l
    case Answer(_, value) => AnswerAdvance(task, value)
    case Look(_) => LookAdvance(st, task)
    case Wake(_) => ReadLedger(st.ledger, task, task.phase.dependency, task.phase.key)
  }

  ghost function Step(cat: Catalog, st: State, l: Label): State
    requires Enabled(st, l)
  {
    if Resumes(l) then Resume(st, l.id, AdvanceOf(st, l))
    else match l
      case Arrive(id, call, fault) => ArriveStep(cat, st, id, call, fault)
      case Enter(id) => EnterLane(st, id)
      case Return(id, raw, late) => Conclude(st, id, raw, late)
      case Cancel(id) => Settle(st, id, Cancelled)
  }

  /** A run is a sequence of labels, each enabled where it happens. */
  ghost predicate IsRun(cat: Catalog, st: State, ls: seq<Label>)
    decreases |ls|
  {
    ls == [] || (Enabled(st, ls[0]) && IsRun(cat, Step(cat, st, ls[0]), ls[1..]))
  }

  ghost function After(cat: Catalog, st: State, ls: seq<Label>): State
    requires IsRun(cat, st, ls)
    decreases |ls|
  {
    if ls == [] then st else After(cat, Step(cat, st, ls[0]), ls[1..])
  }

  ghost predicate Reachable(cat: Catalog, st: State) {
    exists ls :: IsRun(cat, EMPTY, ls) && After(cat, EMPTY, ls) == st
  }
}
