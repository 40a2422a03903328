/** A key that feeds other tools is filled by one planned call, and its consumers receive that call's value. */
module PlannedResults {
  import opened Options
  import opened ToolCatalog
  import opened ToolRuntime
  import opened RuntimeFrames
  import opened RuntimeProgress

  /** A key some dependency reads, of a tool that asks no human. */
  ghost predicate Guarded(cat: Catalog, key: string) {
    DependencyFed(cat.tools, key) && forall t :: t in cat.tools && t.name == key ==> t.inputs == []
  }

  /** The call holds the key: it reserved it on arrival and has not failed. */
  predicate Owns(t: Task, key: string) {
    t.Ordinary() && t.owns && t.tool.name == key && !(t.phase.Finished? && t.phase.outcome.Error?)
  }

  /** The call holds the key and returned `value`. */
  predicate Filled(t: Task, key: string, value: Value) {
    Owns(t, key) && t.phase == Finished(Ok(value))
  }

  ghost predicate OneOwner(reserved: set<string>, tasks: map<TaskId, Task>, key: string) {
    && (key in reserved <==> exists id :: id in tasks && Owns(tasks[id], key))
    && (forall id, other ::
         id in tasks && other in tasks && Owns(tasks[id], key) && Owns(tasks[other], key) ==> id == other)
  }

  ghost predicate ResultsPlanned(results: map<string, Value>, failures: set<string>, tasks: map<TaskId, Task>,
                                 key: string) {
    && (forall id :: id in tasks && Owns(tasks[id], key) && tasks[id].phase.Finished? && tasks[id].phase.outcome.Ok? ==>
          key in results && results[key] == tasks[id].phase.outcome.value)
    && (forall id :: id in tasks && Owns(tasks[id], key) && tasks[id].phase == Finished(Skip) ==> key !in results)
    && (key in results && key !in failures ==> exists id :: id in tasks && Filled(tasks[id], key, results[key]))
  }

  ghost predicate Planned(st: State, key: string) {
    && OneOwner(st.ledger.reserved, st.tasks, key)
    && ResultsPlanned(st.ledger.results, st.ledger.failures, st.tasks, key)
  }

  /** A frame that moves without finishing changes nothing about the plan. */
  lemma MovedKeepsPlanned(st: State, id: TaskId, task: Task, key: string)
    requires Planned(st, key) && id in st.tasks && st.tasks[id].Unfinished()
    requires SameCall(st.tasks[id], task) && (task.Unfinished() || task.phase == Finished(Cancelled))
    ensures OneOwner(st.ledger.reserved, st.tasks[id := task], key)
    ensures ResultsPlanned(st.ledger.results, st.ledger.failures, st.tasks[id := task], key)
  {
    var tasks := st.tasks[id := task];
    assert forall other :: other in st.tasks ==> (Owns(st.tasks[other], key) <==> Owns(tasks[other], key));
    if key in st.ledger.results && key !in st.ledger.failures {
      var other :| other in st.tasks && Filled(st.tasks[other], key, st.ledger.results[key]);
      assert Filled(tasks[other], key, st.ledger.results[key]);
    }
  }

  /** A frame ends in failure: its key is free again. */
  lemma FailedOwner(reserved: set<string>, tasks: map<TaskId, Task>, id: TaskId, task: Task, key: string)
    requires OneOwner(reserved, tasks, key) && id in tasks && tasks[id].Unfinished()
    requires SameCall(tasks[id], task) && task.phase.Finished? && task.phase.outcome.Error?
    ensures var reserved1 := if task.Ordinary() && task.owns then reserved - {task.tool.name} else reserved;
      OneOwner(reserved1, tasks[id := task], key)
  {
    var tasks1 := tasks[id := task];
    if key in reserved {
      var owner :| owner in tasks && Owns(tasks[owner], key);
      if owner != id { assert Owns(tasks1[owner], key); }
    }
  }

  /** A failing call leaves a failure behind, so what `results` holds is no longer handed out. */
  lemma FailedResults(led: Ledger, tasks: map<TaskId, Task>, id: TaskId, task: Task, key: string)
    requires id in tasks && tasks[id].Unfinished() && OneOwner(led.reserved, tasks, key)
    requires Owns(tasks[id], key) || ResultsPlanned(led.results, led.failures, tasks, key)
    requires SameCall(tasks[id], task) && task.phase.Finished? && task.phase.outcome.Error?
    ensures var failures := if task.Ordinary() then led.failures + {task.tool.name} else led.failures;
      ResultsPlanned(led.results, failures, tasks[id := task], key)
  {
    var tasks1 := tasks[id := task];
    if key in led.results && key !in led.failures && !(task.Ordinary() && task.tool.name == key) {
      var other :| other in tasks && Filled(tasks[other], key, led.results[key]);
      assert Filled(tasks1[other], key, led.results[key]);
    }
  }

  lemma FailKeepsPlanned(st: State, id: TaskId, fault: Fault, accepted: map<string, Value>, key: string)
    requires id in st.tasks && st.tasks[id].Unfinished() && OneOwner(st.ledger.reserved, st.tasks, key)
    requires Owns(st.tasks[id], key) || ResultsPlanned(st.ledger.results, st.ledger.failures, st.tasks, key)
    ensures Planned(Fail(st, id, fault, accepted), key)
  {
    FailEffect(st, id, fault, accepted);
    var task := Fail(st, id, fault, accepted).tasks[id];
    FailedOwner(st.ledger.reserved, st.tasks, id, task, key);
    FailedResults(st.ledger, st.tasks, id, task, key);
    FailLedgerFields(st, id, fault, accepted);
  }

  lemma FailLedgerFields(st: State, id: TaskId, fault: Fault, accepted: map<string, Value>)
    requires id in st.tasks
    ensures var led, task := Fail(st, id, fault, accepted).ledger, st.tasks[id];
      && led.results == st.ledger.results
      && led.failures == (if task.Ordinary() then st.ledger.failures + {task.tool.name} else st.ledger.failures)
      && led.reserved ==
           (if task.Ordinary() && task.owns then st.ledger.reserved - {task.tool.name} else st.ledger.reserved)
  {
    NoteFailureEffect(st, st.tasks[id], fault, accepted);
  }

  /** The owner publishes; anyone else leaves the key's result and failure alone. */
  lemma PublishOnKey(led: Ledger, task: Task, raw: Raw, key: string)
    requires !raw.Raised?
    ensures var led1 := PublishOrdinary(led, task, raw);
      && led1.reserved == led.reserved
      && (if task.owns && task.tool.name == key
          then (if raw.DecisionSkip? then key !in led1.results && key in led1.failures
                else key in led1.results && led1.results[key] == raw.value && key !in led1.failures)
          else (key in led1.results <==> key in led.results)
               && (key in led.results ==> led1.results[key] == led.results[key])
               && (key in led1.failures <==> key in led.failures))
  {
  }

  lemma ReturnedResults(led: Ledger, led1: Ledger, tasks: map<TaskId, Task>, id: TaskId, task: Task, raw: Raw,
                        key: string)
    requires OneOwner(led.reserved, tasks, key) && ResultsPlanned(led.results, led.failures, tasks, key)
    requires id in tasks && tasks[id].Unfinished() && SameCall(tasks[id], task) && !raw.Raised?
    requires task.phase == Finished(if raw.DecisionSkip? then Skip else Ok(raw.value))
    requires led1 == if task.Ordinary() then PublishOrdinary(led, task, raw) else led
    ensures OneOwner(led1.reserved, tasks[id := task], key)
    ensures ResultsPlanned(led1.results, led1.failures, tasks[id := task], key)
  {
    var tasks1 := tasks[id := task];
    PublishOnKey(led, task, raw, key);
    hide PublishOrdinary;
    assert forall other :: other in tasks ==> (Owns(tasks[other], key) <==> Owns(tasks1[other], key));
    if key in led1.results && key !in led1.failures {
      if Owns(task, key) {
        assert Filled(tasks1[id], key, led1.results[key]);
      } else {
        var other :| other in tasks && Filled(tasks[other], key, led.results[key]);
        assert Filled(tasks1[other], key, led1.results[key]);
      }
    }
  }

  lemma PublishFields(st: State, id: TaskId, raw: Raw)
    requires id in st.tasks && !raw.Raised?
    ensures var st1, task := Publish(st, id, raw), st.tasks[id];
      st1.tasks == st.tasks &&
        st1.ledger == if task.Ordinary() then PublishOrdinary(st.ledger, task, raw) else st.ledger
  {
  }

  lemma SettleFields(st: State, id: TaskId, outcome: Outcome)
    requires id in st.tasks
    ensures var st1, task := Settle(st, id, outcome), st.tasks[id];
      && st1.tasks == st.tasks[id := task.(phase := Finished(outcome))]
      && st1.ledger.results == st.ledger.results && st1.ledger.failures == st.ledger.failures &&
           st1.ledger.reserved == st.ledger.reserved
  {
  }

  lemma ConcludeKeepsPlanned(st: State, id: TaskId, raw: Raw, late: Option<Fault>, key: string)
    requires Planned(st, key) && id in st.tasks && st.tasks[id].Unfinished()
    ensures Planned(Conclude(st, id, raw, late), key)
  {
    var task := st.tasks[id];
    if raw.Raised? {
      FailKeepsPlanned(st, id, raw.fault, task.arguments, key);
    } else {
      PublishFields(st, id, raw);
      var st1 := Publish(st, id, raw);
      PublishOnKey(st.ledger, task, raw, key);
      if late.Some? {
        FailKeepsPlanned(st1, id, late.value, task.arguments, key);
      } else {
        var outcome := if raw.DecisionSkip? then Skip else Ok(raw.value);
        SettleFields(st1, id, outcome);
        ReturnedResults(st.ledger, st1.ledger, st.tasks, id, task.(phase := Finished(outcome)), raw, key);
      }
    }
  }

  /** On arrival the call owns a fed key exactly when nobody holds it. */
  lemma ArrivalOnKey(cat: Catalog, st: State, id: TaskId, tool: Tool, call: Call, key: string)
    requires Guarded(cat, key) && tool in cat.tools
    ensures var st1 := ArriveOrdinary(cat, st, id, tool, call);
      && id in st1.tasks && st1.tasks == st.tasks[id := st1.tasks[id]]
      && st1.tasks[id].call == call && st1.tasks[id].tool == tool && st1.tasks[id].Unfinished()
      && (tool.name == key ==> (st1.tasks[id].owns <==> key !in st.ledger.reserved))
      && (key in st1.ledger.results <==> key in st.ledger.results)
      && (key in st.ledger.results ==> st1.ledger.results[key] == st.ledger.results[key])
      && (key in st1.ledger.failures <==> key in st.ledger.failures)
      && (key in st1.ledger.reserved <==> key in st.ledger.reserved || tool.name == key)
  {
  }

  lemma AddedKeepsPlanned(led: Ledger, led1: Ledger, tasks: map<TaskId, Task>, id: TaskId, task: Task, key: string)
    requires OneOwner(led.reserved, tasks, key) && ResultsPlanned(led.results, led.failures, tasks, key)
    requires id !in tasks && (task.Unfinished() || !Owns(task, key))
    requires Owns(task, key) ==> key !in led.reserved
    requires key in led1.reserved <==> key in led.reserved || Owns(task, key)
    requires key in led1.results <==> key in led.results
    requires key in led.results ==> led1.results[key] == led.results[key]
    requires key in led1.failures <==> key in led.failures
    ensures OneOwner(led1.reserved, tasks[id := task], key)
    ensures ResultsPlanned(led1.results, led1.failures, tasks[id := task], key)
  {
    var tasks1 := tasks[id := task];
    if key in led.reserved {
      var owner :| owner in tasks && Owns(tasks[owner], key);
      assert Owns(tasks1[owner], key);
    } else if Owns(task, key) {
      assert Owns(tasks1[id], key);
    }
    if key in led.results && key !in led.failures {
      var other :| other in tasks && Filled(tasks[other], key, led.results[key]);
      assert Filled(tasks1[other], key, led.results[key]);
    }
  }

  lemma AcceptedKeepsPlanned(cat: Catalog, st: State, id: TaskId, tool: Tool, call: Call, refusal: Option<Rejection>,
                             key: string)
    requires Guarded(cat, key) && Planned(st, key) && id !in st.tasks && tool in cat.tools
    ensures Planned(ArriveAccepted(cat, st, id, tool, call, refusal), key)
  {
    var st1 := ArriveAccepted(cat, st, id, tool, call, refusal);
    if call.revision.Some? {
      RevisionEffect(st, id, tool, call, refusal);
    } else {
      ArrivalOnKey(cat, st, id, tool, call, key);
    }
    AddedKeepsPlanned(st.ledger, st1.ledger, st.tasks, id, st1.tasks[id], key);
  }

  lemma ArriveKeepsPlanned(cat: Catalog, st: State, id: TaskId, call: Call, fault: Option<Fault>, key: string)
    requires Guarded(cat, key) && Planned(st, key) && id !in st.tasks
    ensures Planned(ArriveStep(cat, st, id, call, fault), key)
  {
    if Accepted(cat, call) {
      var tool := Find(cat.tools, call.toolId).value;
      var refusal := Refusal(cat, st, tool, call);
      AcceptedKeepsPlanned(cat, st, id, tool, call, refusal, key);
      var st1 := ArriveAccepted(cat, st, id, tool, call, refusal);
      var raised := ArrivalFault(cat, tool, call, fault);
      if id in st1.tasks && st1.tasks[id].Unfinished() && raised.Some? {
        FailKeepsPlanned(st1, id, raised.value, map[], key);
      }
    }
  }

  lemma StepKeepsPlanned(cat: Catalog, st: State, l: Label, key: string)
    requires Guarded(cat, key) && Planned(st, key) && Enabled(st, l)
    ensures Planned(Step(cat, st, l), key)
  {
    if Resumes(l) {
      AdvanceEffect(st, l);
      match AdvanceOf(st, l)
      case Continue(task) => MovedKeepsPlanned(st, l.id, task, key);
      case GiveUp(fault, accepted) => FailKeepsPlanned(st, l.id, fault, accepted, key);
    } else {
      match l
      case Arrive(id, call, fault) => ArriveKeepsPlanned(cat, st, id, call, fault, key);
      case Enter(id) => MovedKeepsPlanned(st, id, st.tasks[id].(phase := Running), key);
      case Return(id, raw, late) => ConcludeKeepsPlanned(st, id, raw, late, key);
      case Cancel(id) =>
        SettleFields(st, id, Cancelled);
        MovedKeepsPlanned(st, id, st.tasks[id].(phase := Finished(Cancelled)), key);
    }
  }

  lemma {:induction false} RunKeepsPlanned(cat: Catalog, st: State, ls: seq<Label>, key: string)
    requires Guarded(cat, key) && Planned(st, key) && IsRun(cat, st, ls)
    ensures Planned(After(cat, st, ls), key)
    decreases |ls|
  {
    if ls != [] {
      StepKeepsPlanned(cat, st, ls[0], key);
      RunKeepsPlanned(cat, Step(cat, st, ls[0]), ls[1..], key);
    }
  }

  lemma ReachablePlanned(cat: Catalog, st: State, key: string)
    requires Reachable(cat, st) && Guarded(cat, key)
    ensures Sound(cat, st) && Planned(st, key)
  {
    var ls :| IsRun(cat, EMPTY, ls) && After(cat, EMPTY, ls) == st;
    RunKeepsSound(cat, EMPTY, ls);
    RunKeepsPlanned(cat, EMPTY, ls, key);
  }

  /** Single ownership: in every reachable state at most one call holds a fed key, and an
      arriving call gets to hold it exactly when nobody does and its retained bindings are
      accepted; so after a holder fails, the next call takes the key and the ones after it do not. */
  lemma ArrivalOwnsExactlyFreeKeys(cat: Catalog, st: State, id: TaskId, call: Call)
    requires Reachable(cat, st) && id !in st.tasks && Accepted(cat, call) && call.revision.None?
    requires Guarded(cat, call.toolId)
    ensures var key, st1 := call.toolId, Step(cat, st, Arrive(id, call, None));
      && (forall a, b :: a in st.tasks && b in st.tasks && Owns(st.tasks[a], key) && Owns(st.tasks[b], key) ==> a == b)
      && id in st1.tasks
      && (Owns(st1.tasks[id], key) <==>
            && AcceptsRetained(cat, Find(cat.tools, key).value, call)
            && !exists other :: other in st.tasks && Owns(st.tasks[other], key))
  {
    ReachablePlanned(cat, st, call.toolId);
    var tool := Find(cat.tools, call.toolId).value;
    ArrivalOnKey(cat, st, id, tool, call, call.toolId);
    if !AcceptsRetained(cat, tool, call) {
      FailEffect(ArriveOrdinary(cat, st, id, tool, call), id, OtherFault, map[]);
    }
  }

  lemma {:induction false} FilledStays(cat: Catalog, st: State, ls: seq<Label>, id: TaskId, key: string, value: Value)
    requires Guarded(cat, key) && Planned(st, key) && IsRun(cat, st, ls)
    requires id in st.tasks && Filled(st.tasks[id], key, value)
    ensures var last := After(cat, st, ls);
      && id in last.tasks && Filled(last.tasks[id], key, value)
      && key in last.ledger.results && last.ledger.results[key] == value
    decreases |ls|
  {
    if ls != [] {
      StepKeepsPlanned(cat, st, ls[0], key);
      StepEffect(cat, st, ls[0]);
      if Resumes(ls[0]) { AdvanceEffect(st, ls[0]); }
      FilledStays(cat, Step(cat, st, ls[0]), ls[1..], id, key, value);
    }
  }

  /** Once the holder of a fed key has returned, no later call changes the key's result. */
  lemma PlannedResultIsFinal(cat: Catalog, st: State, ls: seq<Label>, id: TaskId, key: string, value: Value)
    requires Reachable(cat, st) && Guarded(cat, key) && IsRun(cat, st, ls)
    requires id in st.tasks && Filled(st.tasks[id], key, value)
    ensures key in After(cat, st, ls).ledger.results && After(cat, st, ls).ledger.results[key] == value
  {
    ReachablePlanned(cat, st, key);
    FilledStays(cat, st, ls, id, key, value);
  }

  lemma WokenFrame(st: State, id: TaskId)
    requires Enabled(st, Wake(id))
    ensures var task := st.tasks[id];
      var i, key := task.phase.dependency, task.phase.key;
      var name := task.tool.dependencies[i].argName;
      var t1 := Resume(st, id, AdvanceOf(st, Wake(id))).tasks[id];
      if key in st.ledger.results && key !in st.ledger.failures
      then t1.Unfinished() && t1.arguments == task.arguments[name := st.ledger.results[key]]
      else t1.phase == Finished(Error(OtherFault))
  {
  }

  /** A consumer woken on a fed key receives the value its one holder returned, or fails. */
  lemma ConsumerReceivesPlannedResult(cat: Catalog, st: State, id: TaskId)
    requires Reachable(cat, st) && Enabled(st, Wake(id)) && Guarded(cat, st.tasks[id].phase.key)
    ensures var task, st1 := st.tasks[id], Step(cat, st, Wake(id));
      var key, name := task.phase.key, task.tool.dependencies[task.phase.dependency].argName;
      if st1.tasks[id].Unfinished()
      then exists owner ::
        owner in st.tasks && name in st1.tasks[id].arguments &&
        Filled(st.tasks[owner], key, st1.tasks[id].arguments[name])
      else (st1.tasks[id].phase == Finished(Error(OtherFault))
            && (key in st.ledger.failures || key !in st.ledger.results))
  {
    var key := st.tasks[id].phase.key;
    ReachablePlanned(cat, st, key);
    ResumeEffect(st, id, AdvanceOf(st, Wake(id)));
    WokenFrame(st, id);
    hide Resume, Reachable;
    if key in st.ledger.results && key !in st.ledger.failures {
      var owner :| owner in st.tasks && Filled(st.tasks[owner], key, st.ledger.results[key]);
    }
  }

  // ---------------------------------------------------------------- a cancelled holder

  /** The call holds the key and was cancelled. */
  predicate HoldsCancelled(t: Task, key: string) {
    Owns(t, key) && t.phase == Finished(Cancelled)
  }

  lemma {:induction false} CancelledStays(cat: Catalog, st: State, ls: seq<Label>, id: TaskId, key: string)
    requires Guarded(cat, key) && Planned(st, key) && IsRun(cat, st, ls)
    requires id in st.tasks && HoldsCancelled(st.tasks[id], key)
    ensures var last := After(cat, st, ls);
      Planned(last, key) && id in last.tasks && HoldsCancelled(last.tasks[id], key)
    decreases |ls|
  {
    if |ls| > 0 {
      StepKeepsPlanned(cat, st, ls[0], key);
      StepEffect(cat, st, ls[0]);
      if Resumes(ls[0]) { AdvanceEffect(st, ls[0]); }
      CancelledStays(cat, Step(cat, st, ls[0]), ls[1..], id, key);
    }
  }

  /** A cancelled holder keeps its fed key for good: in every later state of every run no call has filled
      the key, no arriving call comes to hold it, and nothing is there for a consumer to receive. */
  lemma CancelledHolderKeepsKey(cat: Catalog, st: State, ls: seq<Label>, id: TaskId, key: string)
    requires Reachable(cat, st) && Guarded(cat, key) && IsRun(cat, st, ls)
    requires id in st.tasks && HoldsCancelled(st.tasks[id], key)
    ensures var last := After(cat, st, ls);
      && key in last.ledger.reserved
      && (forall other :: other in last.tasks && Owns(last.tasks[other], key) ==> other == id)
      && (forall other, value :: other in last.tasks ==> !Filled(last.tasks[other], key, value))
      && !(key in last.ledger.results && key !in last.ledger.failures)
  {
    ReachablePlanned(cat, st, key);
    CancelledStays(cat, st, ls, id, key);
    hide Reachable, IsRun, After;
  }

  // ---------------------------------------------------------------- failing extra calls

  /** In this step an ordinary call of `key` ends in an error. */
  ghost predicate FailsOn(cat: Catalog, st: State, l: Label, key: string)
    requires Enabled(st, l)
  {
    var st1 := Step(cat, st, l);
    && l.id in st1.tasks
    && (l.id in st.tasks ==> st.tasks[l.id].Unfinished())
    && st1.tasks[l.id].Ordinary()
    && st1.tasks[l.id].tool.name == key
    && st1.tasks[l.id].phase.Finished? && st1.tasks[l.id].phase.outcome.Error?
  }

  ghost predicate SomeCallFails(cat: Catalog, st: State, ls: seq<Label>, key: string)
    requires IsRun(cat, st, ls)
    decreases |ls|
  {
    ls != [] && (FailsOn(cat, st, ls[0], key) || SomeCallFails(cat, Step(cat, st, ls[0]), ls[1..], key))
  }

  lemma FailureIsNoted(st: State, id: TaskId, fault: Fault, accepted: map<string, Value>, key: string)
    requires id in st.tasks
    ensures var st1, task := Fail(st, id, fault, accepted), st.tasks[id];
      && st1.tasks == st.tasks[id := task.(phase := Finished(Error(fault)))]
      && (key in st1.ledger.failures <==> key in st.ledger.failures || (task.Ordinary() && task.tool.name == key))
  {
    FailEffect(st, id, fault, accepted);
    FailLedgerFields(st, id, fault, accepted);
  }

  lemma ConcludeFailures(st: State, id: TaskId, raw: Raw, late: Option<Fault>, key: string)
    requires id in st.tasks && st.tasks[id].Unfinished() && !Owns(st.tasks[id], key)
    ensures var st1, task := Conclude(st, id, raw, late), st.tasks[id];
      && id in st1.tasks && SameCall(st1.tasks[id], task) && st1.tasks[id].phase.Finished?
      && (key in st1.ledger.failures <==>
            key in st.ledger.failures ||
              (task.Ordinary() && task.tool.name == key && st1.tasks[id].phase.outcome.Error?))
  {
    var task := st.tasks[id];
    if raw.Raised? {
      FailureIsNoted(st, id, raw.fault, task.arguments, key);
    } else {
      PublishFields(st, id, raw);
      PublishOnKey(st.ledger, task, raw, key);
      var st1 := Publish(st, id, raw);
      if late.Some? {
        FailureIsNoted(st1, id, late.value, task.arguments, key);
      } else {
        SettleFields(st1, id, if raw.DecisionSkip? then Skip else Ok(raw.value));
      }
    }
  }

  /** A call that cannot be prepared leaves a failure of its key. */
  lemma PreparedFailures(st: State, id: TaskId, raised: Option<Fault>, key: string)
    requires id in st.tasks
    ensures var st1, task, fails := Prepared(st, id, raised), st.tasks[id], st.tasks[id].Unfinished() && raised.Some?;
      && id in st1.tasks && st1.tasks[id] == (if fails then task.(phase := Finished(Error(raised.value))) else task)
      && (key in st1.ledger.failures <==>
           key in st.ledger.failures || (fails && task.Ordinary() && task.tool.name == key))
  {
    if st.tasks[id].Unfinished() && raised.Some? {
      FailureIsNoted(st, id, raised.value, map[], key);
    }
  }

  lemma AcceptedFailures(cat: Catalog, st: State, id: TaskId, tool: Tool, call: Call, refusal: Option<Rejection>,
                         key: string)
    requires Guarded(cat, key) && id !in st.tasks && tool in cat.tools
    ensures var st1 := ArriveAccepted(cat, st, id, tool, call, refusal);
      && id in st1.tasks && (st1.tasks[id].Ordinary() ==> st1.tasks[id].Unfinished())
      && (key in st1.ledger.failures <==> key in st.ledger.failures)
  {
    if call.revision.Some? {
      RevisionEffect(st, id, tool, call, refusal);
    } else {
      ArrivalOnKey(cat, st, id, tool, call, key);
    }
  }

  lemma ArriveFailures(cat: Catalog, st: State, id: TaskId, call: Call, fault: Option<Fault>, key: string)
    requires Guarded(cat, key) && id !in st.tasks
    ensures key in ArriveStep(cat, st, id, call, fault).ledger.failures <==>
      key in st.ledger.failures || FailsOn(cat, st, Arrive(id, call, fault), key)
  {
    ArriveEffect(cat, st, id, call, fault);
    if Accepted(cat, call) {
      var tool := Find(cat.tools, call.toolId).value;
      var refusal := Refusal(cat, st, tool, call);
      AcceptedFailures(cat, st, id, tool, call, refusal, key);
      PreparedFailures(ArriveAccepted(cat, st, id, tool, call, refusal), id, ArrivalFault(cat, tool, call, fault), key);
      hide Accepted, Guarded, ArriveAccepted, Prepared, ArrivalFault, Refusal;
    }
  }

  /** After the holder has returned, only a failing call of the same key adds a failure, and nothing removes one. */
  lemma FailuresAfterStep(cat: Catalog, st: State, l: Label, key: string)
    requires Guarded(cat, key) && Planned(st, key) && Enabled(st, l)
    requires exists owner, value :: owner in st.tasks && Filled(st.tasks[owner], key, value)
    ensures key in Step(cat, st, l).ledger.failures <==> key in st.ledger.failures || FailsOn(cat, st, l, key)
  {
    var owner, value :| owner in st.tasks && Filled(st.tasks[owner], key, value);
    if Resumes(l) {
      AdvanceEffect(st, l);
      match AdvanceOf(st, l)
      case Continue(task) =>
      case GiveUp(fault, accepted) => FailureIsNoted(st, l.id, fault, accepted, key);
    } else {
      match l
      case Arrive(id, call, fault) => ArriveFailures(cat, st, id, call, fault, key);
      case Enter(id) =>
      case Return(id, raw, late) => ConcludeFailures(st, id, raw, late, key);
      case Cancel(id) => SettleFields(st, id, Cancelled);
    }
  }

  /** When exactly the planned value stays available: a consumer of a filled key is refused
      if and only if its failure was on record already or an ordinary call of that producer has
      ended in an error since. */
  lemma {:induction false} OnlyFailingExtrasPoison(cat: Catalog, st: State, ls: seq<Label>, id: TaskId, key: string,
                                                   value: Value)
    requires Guarded(cat, key) && Planned(st, key) && IsRun(cat, st, ls)
    requires id in st.tasks && Filled(st.tasks[id], key, value)
    ensures key in After(cat, st, ls).ledger.failures <==> key in st.ledger.failures || SomeCallFails(cat, st, ls, key)
    decreases |ls|
  {
    if ls != [] {
      FailuresAfterStep(cat, st, ls[0], key);
      StepKeepsPlanned(cat, st, ls[0], key);
      StepEffect(cat, st, ls[0]);
      if Resumes(ls[0]) { AdvanceEffect(st, ls[0]); }
      OnlyFailingExtrasPoison(cat, Step(cat, st, ls[0]), ls[1..], id, key, value);
    }
  }

  /** The planned value can be lost to its consumers: an extra call that does not hold the key
      and fails leaves a failure that a later consumer reads before the result. */
  lemma FailingExtraCallPoisonsConsumer(producer: Tool, consumer: Tool, planned: Call, extra: Call, reader: Call,
                                        value: Value, thread: Option<string>)
    requires producer.dependencies == [] && producer.inputs == [] && !producer.privileged && producer.lane.None?
    requires consumer.inputs == [] && !consumer.privileged && consumer.name != producer.name
    requires consumer.dependencies != [] && consumer.dependencies[0].toolId == producer.name
    requires planned.toolId == extra.toolId == producer.name && reader.toolId == consumer.name
    requires planned.revision.None? && extra.revision.None? && reader.revision.None?
    requires var cat := Catalog([producer, consumer], false, thread);
      AcceptsRetained(cat, producer, planned) && AcceptsRetained(cat, consumer, reader)
    ensures exists st: State :: (
      && Reachable(Catalog([producer, consumer], false, thread), st)
      && 0 in st.tasks && Filled(st.tasks[0], producer.name, value)
      && 2 in st.tasks && st.tasks[2].phase == Finished(Error(OtherFault)))
  {
    var cat, key := Catalog([producer, consumer], false, thread), producer.name;
    assert cat.tools[1].dependencies[0] == consumer.dependencies[0] && Feeds(key, consumer.dependencies[0]) &&
      DependencyFed(cat.tools, key);
    assert Find(cat.tools, key) == Some(producer);
    assert Find(cat.tools[1..], consumer.name) == Some(consumer) && Find(cat.tools, consumer.name) == Some(consumer);
    var filled := PlannedCallReturns(cat, producer, planned, value);
    var poisoned := ExtraCallFails(cat, filled, producer, extra);
    var st := PoisonedReader(cat, poisoned, consumer, reader, key);
  }

  lemma PlannedCallReturns(cat: Catalog, producer: Tool, planned: Call, value: Value) returns (st: State)
    requires producer.dependencies == [] && producer.inputs == [] && !producer.privileged && producer.lane.None?
    requires Find(cat.tools, planned.toolId) == Some(producer) && planned.revision.None?
    requires DependencyFed(cat.tools, producer.name)
    requires AcceptsRetained(cat, producer, planned)
    ensures Reachable(cat, st) && st.tasks.Keys == {0} && Filled(st.tasks[0], producer.name, value)
    ensures producer.name in st.ledger.reserved && producer.name in st.ledger.events
    ensures st.ledger.events[producer.name] in st.ledger.fired
  {
    hide Reachable, Conclude;
    StartReachable(cat);
    var s1 := ArriveAndLook(cat, EMPTY, 0, producer, planned);
    assert s1.tasks == map[0 := Task(planned, producer, Some(0), None, true, planned.supplied, Queued)];
    ReachStep(cat, s1, Enter(0));
    var s2 := EnterLane(s1, 0);
    st := Step(cat, s2, Return(0, Raw.Value(value), None));
    ReachStep(cat, s2, Return(0, Raw.Value(value), None));
    HolderReturns(s2, 0, value);
  }

  lemma HolderReturns(st: State, id: TaskId, value: Value)
    requires id in st.tasks && st.tasks[id].Ordinary() && st.tasks[id].owns && st.tasks[id].event.Some?
    ensures var st1, task := Conclude(st, id, Raw.Value(value), None), st.tasks[id];
      && st1.tasks == st.tasks[id := task.(phase := Finished(Ok(value)))]
      && st1.ledger.reserved == st.ledger.reserved && st1.ledger.events == st.ledger.events
      && task.event.value in st1.ledger.fired
  {
  }

  lemma ExtraCallFails(cat: Catalog, st: State, producer: Tool, extra: Call) returns (last: State)
    requires Reachable(cat, st) && 1 !in st.tasks && producer.name in st.ledger.reserved
    requires producer.name in st.ledger.events && st.ledger.events[producer.name] in st.ledger.fired
    requires producer.inputs == [] && !producer.privileged && DependencyFed(cat.tools, producer.name)
    requires Find(cat.tools, extra.toolId) == Some(producer) && extra.revision.None?
    ensures Reachable(cat, last) && last.tasks.Keys == st.tasks.Keys + {1}
    ensures forall id :: id in st.tasks ==> last.tasks[id] == st.tasks[id]
    ensures producer.name in last.ledger.failures && producer.name in last.ledger.events
    ensures last.ledger.events[producer.name] in last.ledger.fired
  {
    hide Reachable, Step;
    var l := Arrive(1, extra, Some(OtherFault));
    ReachStep(cat, st, l);
    last := ExtraArrives(cat, st, producer, extra);
  }

  lemma ExtraArrives(cat: Catalog, st: State, producer: Tool, extra: Call) returns (last: State)
    requires 1 !in st.tasks && producer.name in st.ledger.events && st.ledger.events[producer.name] in st.ledger.fired
    requires producer.inputs == [] && !producer.privileged
    requires Find(cat.tools, extra.toolId) == Some(producer) && extra.revision.None?
    ensures last == Step(cat, st, Arrive(1, extra, Some(OtherFault))) && last.tasks.Keys == st.tasks.Keys + {1}
    ensures forall id :: id in st.tasks ==> last.tasks[id] == st.tasks[id]
    ensures producer.name in last.ledger.failures && producer.name in last.ledger.events
    ensures last.ledger.events[producer.name] in last.ledger.fired
  {
    hide AcceptsRetained, DependencyFed, Fail;
    last := Step(cat, st, Arrive(1, extra, Some(OtherFault)));
    var s1 := ArriveOrdinary(cat, st, 1, producer, extra);
    assert last == Fail(s1, 1, OtherFault, map[]);
    FailLedgerFields(s1, 1, OtherFault, map[]);
    FailEffect(s1, 1, OtherFault, map[]);
  }

  lemma PoisonedReader(cat: Catalog, st: State, consumer: Tool, reader: Call, key: string) returns (last: State)
    requires Reachable(cat, st) && 2 !in st.tasks
    requires key in st.ledger.failures && key in st.ledger.events && st.ledger.events[key] in st.ledger.fired
    requires Find(cat.tools, reader.toolId) == Some(consumer) && reader.revision.None? && consumer.name != key
    requires AcceptsRetained(cat, consumer, reader)
    requires consumer.inputs == [] && !consumer.privileged && consumer.dependencies != []
    requires consumer.dependencies[0].toolId == key
    ensures Reachable(cat, last) && 2 in last.tasks && last.tasks[2].phase == Finished(Error(OtherFault))
    ensures forall id :: id in st.tasks ==> id in last.tasks && last.tasks[id] == st.tasks[id]
  {
    var waiting := ReaderWaits(cat, st, consumer, reader, key);
    last := PoisonedWake(cat, waiting, key);
  }

  lemma PoisonedWake(cat: Catalog, st: State, key: string) returns (last: State)
    requires Reachable(cat, st) && 2 in st.tasks && st.tasks[2].phase.Waiting? && Enabled(st, Wake(2))
    requires st.tasks[2].phase.key in st.ledger.failures
    ensures Reachable(cat, last) && 2 in last.tasks && last.tasks[2].phase == Finished(Error(OtherFault))
    ensures forall id :: id in st.tasks && id != 2 ==> id in last.tasks && last.tasks[id] == st.tasks[id]
  {
    last := Fail(st, 2, OtherFault, map[]);
    assert last == Step(cat, st, Wake(2));
    ReachStep(cat, st, Wake(2));
    FailEffect(st, 2, OtherFault, map[]);
  }

  lemma ReaderWaits(cat: Catalog, st: State, consumer: Tool, reader: Call, key: string) returns (last: State)
    requires Reachable(cat, st) && 2 !in st.tasks
    requires key in st.ledger.failures && key in st.ledger.events && st.ledger.events[key] in st.ledger.fired
    requires Find(cat.tools, reader.toolId) == Some(consumer) && reader.revision.None? && consumer.name != key
    requires AcceptsRetained(cat, consumer, reader)
    requires consumer.inputs == [] && !consumer.privileged && consumer.dependencies != []
    requires consumer.dependencies[0].toolId == key
    ensures Reachable(cat, last) && 2 in last.tasks && last.tasks[2].phase == Waiting(0, key, st.ledger.events[key])
    ensures Enabled(last, Wake(2))
    ensures key in last.ledger.failures
    ensures forall id :: id in st.tasks ==> id in last.tasks && last.tasks[id] == st.tasks[id]
  {
    var arrived := ArriveOrdinary(cat, st, 2, consumer, reader);
    OrdinaryEffect(cat, st, 2, consumer, reader);
    OtherKeyUntouched(cat, st, 2, consumer, reader, key);
    assert ResultKey(arrived.ledger, consumer.dependencies[0]) == Some(key);
    last := ArriveAndLook(cat, st, 2, consumer, reader);
    assert last.tasks[2] == arrived.tasks[2].(phase := Waiting(0, key, st.ledger.events[key]));
  }

  lemma OtherKeyUntouched(cat: Catalog, st: State, id: TaskId, tool: Tool, call: Call, key: string)
    requires tool.name != key && tool.inputs == []
    ensures var led := ArriveOrdinary(cat, st, id, tool, call).ledger;
      && led.fired == st.ledger.fired
      && (key in led.failures <==> key in st.ledger.failures)
      && (key in led.events <==> key in st.ledger.events)
      && (key in st.ledger.events ==> led.events[key] == st.ledger.events[key])
  {
  }
}
