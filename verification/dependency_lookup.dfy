/** Where an ordinary call finds what a dependency feeds it, which bindings it may bring along, and which calls
    reach the shared state at all. */
module DependencyLookup {
  import opened Options
  import opened ToolCatalog
  import opened ToolRuntime
  import opened RuntimeFrames

  // ---------------------------------------------------------------- calls that are turned away at once

  /** A call of an unknown or privileged tool, or one whose arguments the server has yet to bind, changes nothing;
      any other gets a frame. */
  lemma TurnedAwayIff(cat: Catalog, st: State, id: TaskId, call: Call, fault: Option<Fault>)
    requires id !in st.tasks
    ensures var st1 := Step(cat, st, Arrive(id, call, fault));
      var away := (forall t :: t in cat.tools ==> t.name != call.toolId)
                  || (var tool := Find(cat.tools, call.toolId);
                      tool.Some? && (tool.value.privileged
                                     || (cat.canonicalInterrupts
                                         && exists name :: name in tool.value.inputs && name !in call.supplied)));
      && (away ==> st1 == st)
      && (!away ==> id in st1.tasks && st1.tasks[id].call == call)
  {
    hide ArriveAccepted, Prepared, Refusal, ArrivalFault;
    ArriveEffect(cat, st, id, call, fault);
    var tool := Find(cat.tools, call.toolId);
    if tool.Some? {
      DeferredIff(cat, tool.value, call);
    }
    hide ArriveStep, Deferred;
  }

  lemma DeferredIff(cat: Catalog, tool: Tool, call: Call)
    ensures Deferred(cat, tool, call) <==>
      cat.canonicalInterrupts && exists name :: name in tool.inputs && name !in call.supplied
  {
    if name :| name in tool.inputs && name !in call.supplied {
      var i :| 0 <= i < |tool.inputs| && tool.inputs[i] == name;
    }
  }

  // ---------------------------------------------------------------- results of earlier turns

  /** The binding is for the argument's last declaration, a conversation-scoped one, and comes from its producer in
      this very conversation. */
  ghost predicate Bindable(cat: Catalog, tool: Tool, argName: string, binding: Retained) {
    exists i :: 0 <= i < |tool.dependencies| && BindableBy(cat, tool.dependencies[i], argName, binding)
      && forall j :: i < j < |tool.dependencies| ==> tool.dependencies[j].argName != argName
  }

  predicate BindableBy(cat: Catalog, d: Dependency, argName: string, binding: Retained) {
    && d.argName == argName && d.conversation
    && (binding.producer == d.toolId || binding.producer == d.toolName)
    && cat.thread.Some? && cat.thread.value == binding.thread && binding.sound
  }

  lemma {:induction false} LastDeclaration(ds: seq<Dependency>, argName: string) returns (i: nat)
    requires DeclarationOf(ds, argName).Some?
    ensures i < |ds| && DeclarationOf(ds, argName) == Some(ds[i]) && ds[i].argName == argName
    ensures forall j :: i < j < |ds| ==> ds[j].argName != argName
  {
    i := |ds| - 1;
    if ds[i].argName != argName {
      var shorter := ds[..i];
      i := LastDeclaration(shorter, argName);
      assert ds[i] == shorter[i];
      assert forall j :: i < j < |ds| - 1 ==> ds[j] == shorter[j];
    }
  }

  lemma AcceptsBindingIff(cat: Catalog, tool: Tool, argName: string, binding: Retained)
    ensures AcceptsBinding(cat, tool, argName, binding) <==> Bindable(cat, tool, argName, binding)
  {
    if DeclarationOf(tool.dependencies, argName).Some? {
      var i := LastDeclaration(tool.dependencies, argName);
      if Bindable(cat, tool, argName, binding) {
        var j :| 0 <= j < |tool.dependencies| && BindableBy(cat, tool.dependencies[j], argName, binding)
            && forall k :: j < k < |tool.dependencies| ==> tool.dependencies[k].argName != argName;
        assert i == j;
      }
      assert BindableBy(cat, tool.dependencies[i], argName, binding) ==> Bindable(cat, tool, argName, binding);
    } else {
      assert forall i :: 0 <= i < |tool.dependencies| ==> tool.dependencies[i] in tool.dependencies;
    }
  }

  /** One foreign binding fails the call as it arrives; with none, and nothing else wrong, it goes on. */
  lemma ForeignBindingFails(cat: Catalog, st: State, id: TaskId, call: Call)
    requires id !in st.tasks && Accepted(cat, call) && call.revision.None?
    ensures var st1, tool := Step(cat, st, Arrive(id, call, None)), Find(cat.tools, call.toolId).value;
      var foreign := exists name: string :: name in call.retained && !Bindable(cat, tool, name, call.retained[name]);
      && id in st1.tasks
      && (foreign ==> st1.tasks[id].phase == Finished(Error(OtherFault)))
      && (!foreign ==> st1.tasks[id].phase == Asking(0) && st1.tasks[id].arguments == call.supplied)
  {
    var tool := Find(cat.tools, call.toolId).value;
    forall name: string | name in call.retained
      ensures AcceptsBinding(cat, tool, name, call.retained[name]) <==> Bindable(cat, tool, name, call.retained[name])
    {
      AcceptsBindingIff(cat, tool, name, call.retained[name]);
    }
    hide Bindable, AcceptsBinding, Accepted, Fail;
    var raised := ArrivalFault(cat, tool, call, None);
    OrdinaryEffect(cat, st, id, tool, call);
    StartsAsking(cat, st, id, tool, call);
    hide ArriveOrdinary;
    var st1 := ArriveOrdinary(cat, st, id, tool, call);
    assert Step(cat, st, Arrive(id, call, None)) == Prepared(st1, id, raised);
    if raised.Some? {
      FailEffect(st1, id, raised.value, map[]);
    }
  }

  lemma StartsAsking(cat: Catalog, st: State, id: TaskId, tool: Tool, call: Call)
    ensures var st1 := ArriveOrdinary(cat, st, id, tool, call);
      id in st1.tasks && st1.tasks[id].phase == Asking(0) && st1.tasks[id].arguments == call.supplied
  {
    hide BeginInputRound, OpenEvent, DependencyFed;
  }

  // ---------------------------------------------------------------- one dependency of an ordinary call

  /** The tool has been called: it has a result, a failure or a completion event. */
  predicate Called(led: Ledger, key: string) {
    key in led.results || key in led.failures || key in led.events
  }

  /** What becomes of a frame that looks for a dependency. */
  datatype Found = Waits(key: string) | Takes(value: Value) | Yields | Fails

  /** The producer under its id, else under its name. Called by now, it is waited for while it has an event, whatever
      else is there; not called, the frame lets the others go first, once; still not called, a result of an earlier
      turn does. */
  ghost predicate FindsFrom(led: Ledger, task: Task, d: Dependency, found: Found)
    requires task.phase.Resolving?
  {
    if Called(led, d.toolId) || Called(led, d.toolName) then
      var key := if Called(led, d.toolId) then d.toolId else d.toolName;
      && (key in led.events <==> found == Waits(key))
      && (key !in led.events && key in led.failures ==> found == Fails)
      && (key !in led.events && key !in led.failures ==> key in led.results && found == Takes(led.results[key]))
    else
      && (found.Yields? <==> !task.phase.yielded)
      && (task.phase.yielded && d.argName in task.call.retained ==>
            found == Takes(task.call.retained[d.argName].result))
      && (task.phase.yielded && d.argName !in task.call.retained ==> found == Fails)
  }

  /** The frame after it: it waits on the producer's event, has the argument and goes to the next dependency, has
      yielded, or has failed. */
  ghost predicate Becomes(st: State, st1: State, id: TaskId, i: nat, found: Found)
    requires id in st.tasks && i < |st.tasks[id].tool.dependencies|
  {
    var task := st.tasks[id];
    match found
    case Waits(key) =>
      key in st.ledger.events &&
        st1 == st.(tasks := st.tasks[id := task.(phase := Waiting(i, key, st.ledger.events[key]))])
    case Takes(value) =>
      var name := task.tool.dependencies[i].argName;
      st1 == st.(tasks := st.tasks[id := task.(arguments := task.arguments[name := value],
                                               phase := Resolving(i + 1, false))])
    case Yields => st1 == st.(tasks := st.tasks[id := task.(phase := Resolving(i, true))])
    case Fails => id in st1.tasks && st1.tasks[id].phase == Finished(Error(OtherFault))
  }

  lemma DependencyIsFound(cat: Catalog, st: State, id: TaskId) returns (found: Found)
    requires Enabled(st, Look(id)) && st.tasks[id].branch.None?
    requires st.tasks[id].phase.dependency < |st.tasks[id].tool.dependencies|
    ensures var task := st.tasks[id];
      FindsFrom(st.ledger, task, task.tool.dependencies[task.phase.dependency], found)
    ensures Becomes(st, Step(cat, st, Look(id)), id, st.tasks[id].phase.dependency, found)
  {
    var task := st.tasks[id];
    var i := task.phase.dependency;
    found := WhatIsFound(st.ledger, task, task.tool.dependencies[i]);
    FailEffect(st, id, OtherFault, map[]);
    assert Step(cat, st, Look(id)) == Resume(st, id, LookOrdinary(st.ledger, task));
    FoundAdvances(st.ledger, task, found);
    hide Fail, Step, LookOrdinary, FindsFrom;
  }

  lemma WhatIsFound(led: Ledger, task: Task, d: Dependency) returns (found: Found)
    requires task.phase.Resolving?
    ensures FindsFrom(led, task, d, found)
  {
    var key := if Called(led, d.toolId) then d.toolId else d.toolName;
    found :=
      if Called(led, key) then
        if key in led.events then Waits(key) else if key in led.failures then Fails else Takes(led.results[key])
      else if !task.phase.yielded then Yields
      else if d.argName in task.call.retained then Takes(task.call.retained[d.argName].result)
      else Fails;
  }

  lemma FoundAdvances(led: Ledger, task: Task, found: Found)
    requires task.phase.Resolving? && task.phase.dependency < |task.tool.dependencies|
    requires FindsFrom(led, task, task.tool.dependencies[task.phase.dependency], found)
    ensures found.Waits? ==> found.key in led.events
    ensures var i := task.phase.dependency;
      var name := task.tool.dependencies[i].argName;
      LookOrdinary(led, task) ==
        match found
        case Waits(key) => Continue(task.(phase := Waiting(i, key, led.events[key])))
        case Takes(value) =>
          Continue(task.(arguments := task.arguments[name := value], phase := Resolving(i + 1, false)))
        case Yields => Continue(task.(phase := Resolving(i, true)))
        case Fails => GiveUp(OtherFault, map[])
  {
  }

  /** Behind the event a failure wins over a result, and without either the call fails too. */
  lemma WokenReads(cat: Catalog, st: State, id: TaskId)
    requires Enabled(st, Wake(id))
    ensures var task := st.tasks[id];
      var key := task.phase.key;
      Becomes(st, Step(cat, st, Wake(id)), id, task.phase.dependency,
        if key in st.ledger.results && key !in st.ledger.failures then Takes(st.ledger.results[key]) else Fails)
  {
    FailEffect(st, id, OtherFault, map[]);
    hide Fail;
  }

  /** Behind its last dependency an ordinary call queues for its lane. */
  lemma LastDependencyQueues(cat: Catalog, st: State, id: TaskId)
    requires Enabled(st, Look(id)) && st.tasks[id].branch.None?
    requires st.tasks[id].phase.dependency >= |st.tasks[id].tool.dependencies|
    ensures Step(cat, st, Look(id)) == st.(tasks := st.tasks[id := st.tasks[id].(phase := Queued)])
  {
    hide Fail, LookRevision;
  }

  // ---------------------------------------------------------------- letting the others go first

  /** The frame is at its `i`-th dependency, and has already let the others go first. */
  predicate HasYielded(st: State, id: TaskId, i: nat) {
    id in st.tasks && st.tasks[id].phase == Resolving(i, true)
  }

  lemma StepYields(cat: Catalog, st: State, l: Label, id: TaskId, i: nat)
    requires Enabled(st, l) && HasYielded(Step(cat, st, l), id, i) && !HasYielded(st, id, i)
    ensures l == Look(id) && st.tasks[id].phase == Resolving(i, false)
  {
    StepEffect(cat, st, l);
    hide Fail, Conclude;
    if Resumes(l) {
      AdvanceYields(st, l);
      ResumeEffect(st, l.id, AdvanceOf(st, l));
      hide AdvanceOf;
      if AdvanceOf(st, l).GiveUp? {
        FailEffect(st, l.id, AdvanceOf(st, l).fault, AdvanceOf(st, l).accepted);
      }
    } else if l.Arrive? {
      ArrivesAsking(cat, st, l.id, l.call, l.fault);
      hide ArriveStep;
    }
  }

  lemma AdvanceYields(st: State, l: Label)
    requires Enabled(st, l) && Resumes(l)
    ensures var advance, task := AdvanceOf(st, l), st.tasks[l.id];
      advance.Continue? && advance.task.phase.Resolving? && advance.task.phase.yielded ==>
        l.Look? && task.phase == Resolving(advance.task.phase.dependency, false)
  {
    hide ResultKey, BranchValue, RootRefusal;
  }

  lemma ArrivesAsking(cat: Catalog, st: State, id: TaskId, call: Call, fault: Option<Fault>)
    requires id !in st.tasks
    ensures var st1 := ArriveStep(cat, st, id, call, fault); id in st1.tasks ==> !st1.tasks[id].phase.Resolving?
  {
    hide Refusal, ArrivalFault, Fail, BeginInputRound;
    if Accepted(cat, call) {
      var tool := Find(cat.tools, call.toolId).value;
      var refusal, raised := Refusal(cat, st, tool, call), ArrivalFault(cat, tool, call, fault);
      var st1 := ArriveAccepted(cat, st, id, tool, call, refusal);
      if call.revision.Some? {
        RevisionEffect(st, id, tool, call, refusal);
      }
      assert id in st1.tasks && !st1.tasks[id].phase.Resolving?;
      hide ArriveAccepted;
      if st1.tasks[id].Unfinished() && raised.Some? {
        FailEffect(st1, id, raised.value, map[]);
      }
    }
  }

  /** At the `j`-th step the frame looked for its `i`-th dependency for the first time. */
  ghost predicate LooksFirst(cat: Catalog, st: State, ls: seq<Label>, j: nat, id: TaskId, i: nat) {
    && j < |ls| && ls[j] == Look(id) && IsRun(cat, st, ls[..j])
    && var st1 := After(cat, st, ls[..j]);
       id in st1.tasks && st1.tasks[id].phase == Resolving(i, false)
  }

  /** Over runs: no frame has let the others go first without having looked before, for each dependency anew; so
      whoever fails for a dependency that was never called has looked for it twice. */
  lemma {:induction false} LooksTwice(cat: Catalog, st: State, ls: seq<Label>, id: TaskId, i: nat)
    requires IsRun(cat, st, ls) && HasYielded(After(cat, st, ls), id, i) && !HasYielded(st, id, i)
    ensures exists j: nat :: LooksFirst(cat, st, ls, j, id, i)
    decreases |ls|
  {
    hide Step, Enabled, HasYielded;
    var st1 := Step(cat, st, ls[0]);
    if HasYielded(st1, id, i) {
      StepYields(cat, st, ls[0], id, i);
      assert ls[..0] == [];
      NotMissing(cat, st, ls[0], id, i);
      assert LooksFirst(cat, st, ls, 0, id, i);
    } else {
      LooksTwice(cat, st1, ls[1..], id, i);
      var j: nat :| LooksFirst(cat, st1, ls[1..], j, id, i);
      assert ls[..j + 1][1..] == ls[1..][..j];
      assert LooksFirst(cat, st, ls, j + 1, id, i);
    }
  }

  lemma NotMissing(cat: Catalog, st: State, l: Label, id: TaskId, i: nat)
    requires Enabled(st, l) && l == Look(id)
    ensures id in st.tasks
  {
  }
}
