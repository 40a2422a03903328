/** What a call leaves behind: its result or failure for its dependents, and the record by which later revisions are
    judged. */
module CallRecords {
  import opened Options
  import opened ToolCatalog
  import opened ToolRuntime
  import opened RuntimeFrames

  /** The arguments a failing call is recorded with: all of them once it was through its dependencies, else none. */
  function AcceptedBy(task: Task): map<string, Value> {
    match task.phase
    case Running => task.arguments
    case Resolving(i, _) => if i >= |task.tool.dependencies| then task.arguments else map[]
    case _ => map[]
  }

  /** The records after the step `l` of a call that ends with `outcome`. A refused or failing revision writes no
      record over another of its id, and one that fails after it has published stays recorded as done. */
  function RecordsAfter(calls: map<CallId, Record>, task: Task, l: Label, outcome: Outcome): map<CallId, Record> {
    var done := Record(task.call.invocation, task.tool.name, task.arguments, None);
    match outcome
    case Ok(_) => calls[task.call.id := done]
    case Skip => calls[task.call.id := done]
    case Cancelled => calls
    case Error(fault) =>
      var published := l.Return? && !l.raw.Raised?;
      if task.call.revision.None? || (task.call.id !in calls && !published) then
        calls[task.call.id := Record(task.call.invocation, task.tool.name, AcceptedBy(task), Some(fault))]
      else if published then calls[task.call.id := done]
      else calls
  }

  lemma FailRecords(st: State, id: TaskId, fault: Fault, accepted: map<string, Value>)
    requires id in st.tasks
    ensures var task, st1 := st.tasks[id], Fail(st, id, fault, accepted);
      && st1.calls ==
           (if task.call.revision.None? || task.call.id !in st.calls
            then st.calls[task.call.id := Record(task.call.invocation, task.tool.name, accepted, Some(fault))]
            else st.calls)
      && st1.tasks == st.tasks[id := task.(phase := Finished(Error(fault)))]
  {
    hide FailLedger, LanesWithout;
  }

  lemma PublishRecords(st: State, id: TaskId, raw: Raw)
    requires id in st.tasks && !raw.Raised?
    ensures var task, st1 := st.tasks[id], Publish(st, id, raw);
      && st1.calls == st.calls[task.call.id := Record(task.call.invocation, task.tool.name, task.arguments, None)]
      && st1.tasks == st.tasks
  {
    hide PublishOrdinary;
  }

  lemma ReturnRecords(st: State, id: TaskId, raw: Raw, late: Option<Fault>)
    requires id in st.tasks && st.tasks[id].phase.Running?
    ensures var st1 := Conclude(st, id, raw, late);
      && id in st1.tasks && st1.tasks[id].phase.Finished?
      && st1.calls == RecordsAfter(st.calls, st.tasks[id], Return(id, raw, late), st1.tasks[id].phase.outcome)
  {
    var task := st.tasks[id];
    hide Fail, Publish, LanesWithout;
    if raw.Raised? {
      FailRecords(st, id, raw.fault, task.arguments);
    } else {
      PublishRecords(st, id, raw);
      if late.Some? {
        FailRecords(Publish(st, id, raw), id, late.value, task.arguments);
      }
    }
  }

  lemma AdvanceAccepted(st: State, l: Label)
    requires Enabled(st, l) && Resumes(l)
    ensures var advance := AdvanceOf(st, l);
      && (advance.Continue? ==> !advance.task.phase.Finished?)
      && (advance.GiveUp? ==> advance.accepted == AcceptedBy(st.tasks[l.id]))
  {
    hide ResultKey, BranchValue, RootRefusal;
  }

  /** A call that ends leaves exactly its record; one that goes on changes none. */
  lemma FinishedCallIsRecorded(cat: Catalog, st: State, l: Label)
    requires Enabled(st, l) && !l.Arrive?
    ensures var st1 := Step(cat, st, l);
      && l.id in st1.tasks
      && st1.calls == if st1.tasks[l.id].phase.Finished?
                      then RecordsAfter(st.calls, st.tasks[l.id], l, st1.tasks[l.id].phase.outcome)
                      else st.calls
  {
    hide Conclude, Fail;
    if Resumes(l) {
      AdvanceAccepted(st, l);
      var advance := AdvanceOf(st, l);
      hide AdvanceOf;
      if advance.GiveUp? {
        FailRecords(st, l.id, advance.fault, advance.accepted);
      }
    } else {
      match l
      case Return(id, raw, late) => ReturnRecords(st, id, raw, late);
      case Enter(_) =>
      case Cancel(_) =>
    }
  }

  /** Of a call that has ended while it arrived: it was refused, or preparing it failed. */
  lemma ArrivalIsRecorded(cat: Catalog, st: State, id: TaskId, call: Call, fault: Option<Fault>)
    requires id !in st.tasks && Accepted(cat, call)
    ensures var st1, tool := ArriveStep(cat, st, id, call, fault), Find(cat.tools, call.toolId).value;
      && id in st1.tasks
      && (st1.tasks[id].phase.Finished? ==>
            && st1.tasks[id].phase.outcome.Error?
            && st1.calls == if call.revision.None? || call.id !in st.calls
                            then st.calls[call.id := Record(call.invocation, tool.name, map[],
                                                            Some(st1.tasks[id].phase.outcome.fault))]
                            else st.calls)
      && (st1.tasks[id].Unfinished() ==> st1.calls == st.calls)
  {
    var tool := Find(cat.tools, call.toolId).value;
    var refusal, raised := Refusal(cat, st, tool, call), ArrivalFault(cat, tool, call, fault);
    var st1 := ArriveAccepted(cat, st, id, tool, call, refusal);
    hide Refusal, ArrivalFault, Fail, ArriveOrdinary;
    if call.revision.Some? {
      if refusal.Some? {
        var task := Task(call, tool, None, None, false, call.supplied, Asking(0));
        FailRecords(st.(tasks := st.tasks[id := task]), id, Rejected(refusal.value), map[]);
      }
    } else {
      OrdinaryEffect(cat, st, id, tool, call);
    }
    hide ArriveAccepted, ArriveRevision;
    if st1.tasks[id].Unfinished() && raised.Some? {
      FailRecords(st1, id, raised.value, map[]);
    }
  }

  // ---------------------------------------------------------------- results and failures

  /** What an ordinary call that ends leaves under its key. Only a call that holds the key puts its result there, or
      takes it away as it skips; every error is noted as a failure and hands the reservation back. */
  ghost predicate LeavesKey(led: Ledger, led1: Ledger, task: Task, published: Option<Raw>, failed: bool) {
    var key, slot := task.tool.name, (task.call.invocation, task.tool.name);
    var returned := task.owns && published.Some? && published.value.Value?;
    var skipped := task.owns && published.Some? && published.value.DecisionSkip?;
    && (key in led1.results <==> returned || (key in led.results && !skipped))
    && (key in led1.results ==>
          led1.results[key] == if returned then published.value.value else led.results[key])
    && (key in led1.failures <==> failed || skipped || (key in led.failures && !returned))
    && (key in led1.reserved <==> key in led.reserved && !(failed && task.owns))
    && (slot in led1.base <==> slot in led.base || returned)
    && (slot in led1.base ==>
          led1.base[slot] ==
            if slot in led.base then led.base[slot] else Binding(task.call.id, published.value.value))
  }

  ghost predicate OtherKeysStay(led: Ledger, led1: Ledger, task: Task) {
    && led1.results - {task.tool.name} == led.results - {task.tool.name}
    && led1.failures - {task.tool.name} == led.failures - {task.tool.name}
    && led1.reserved - {task.tool.name} == led.reserved - {task.tool.name}
    && led1.base - {(task.call.invocation, task.tool.name)} == led.base - {(task.call.invocation, task.tool.name)}
    && led1.events == led.events && led1.rounds == led.rounds
  }

  lemma PublishLeaves(led: Ledger, task: Task, raw: Raw)
    requires task.call.revision.None? && !raw.Raised?
    ensures var led1, led2 := PublishOrdinary(led, task, raw), FailLedger(PublishOrdinary(led, task, raw), task);
      && LeavesKey(led, led1, task, Some(raw), false) && OtherKeysStay(led, led1, task) && led1.fired == led.fired
      && LeavesKey(led, led2, task, Some(raw), true) && OtherKeysStay(led, led2, task) && led2.fired == led.fired
  {
  }

  lemma FailureLeaves(led: Ledger, task: Task)
    requires task.call.revision.None?
    ensures var led1 := FailLedger(led, task);
      LeavesKey(led, led1, task, None, true) && OtherKeysStay(led, led1, task) && led1.fired == led.fired
  {
  }

  lemma FailLedgerIs(st: State, id: TaskId, fault: Fault, accepted: map<string, Value>)
    requires id in st.tasks
    ensures var task, led := st.tasks[id], FailLedger(st.ledger, st.tasks[id]);
      Fail(st, id, fault, accepted).ledger ==
        if task.event.Some? then led.(fired := st.ledger.fired + {task.event.value}) else led
  {
    NoteFailureEffect(st, st.tasks[id], fault, accepted);
    hide LanesWithout, NoteFailure;
  }

  /** Setting its event, which is all else a call does as it leaves. */
  function WithEvent(led: Ledger, task: Task): Ledger {
    if task.event.Some? then led.(fired := led.fired + {task.event.value}) else led
  }

  lemma ReturnedLedger(st: State, id: TaskId, raw: Raw, late: Option<Fault>)
    requires id in st.tasks && st.tasks[id].call.revision.None?
    ensures var task, led := st.tasks[id], st.ledger;
      Conclude(st, id, raw, late).ledger ==
        WithEvent(if raw.Raised? then FailLedger(led, task)
                  else if late.Some? then FailLedger(PublishOrdinary(led, task, raw), task)
                  else PublishOrdinary(led, task, raw), task)
  {
    hide FailLedger, PublishOrdinary, LanesWithout;
    if raw.Raised? {
      FailLedgerIs(st, id, raw.fault, st.tasks[id].arguments);
      FailKeepsFired(st.ledger, st.tasks[id]);
    } else {
      PublishEffect(st, id, raw);
      if late.Some? {
        FailLedgerIs(Publish(st, id, raw), id, late.value, st.tasks[id].arguments);
        FailKeepsFired(Publish(st, id, raw).ledger, st.tasks[id]);
      }
    }
    hide Fail, Publish;
  }

  lemma FailKeepsFired(led: Ledger, task: Task)
    ensures FailLedger(led, task).fired == led.fired
  {
  }

  lemma EventChangesNoKey(led: Ledger, led1: Ledger, task: Task, published: Option<Raw>, failed: bool)
    requires LeavesKey(led, led1, task, published, failed) && OtherKeysStay(led, led1, task) && led1.fired == led.fired
    ensures LeavesKey(led, WithEvent(led1, task), task, published, failed)
    ensures OtherKeysStay(led, WithEvent(led1, task), task)
  {
  }

  /** A target that returned publishes its value or its skip, also when the call then fails late. */
  lemma ReturnPublishes(cat: Catalog, st: State, id: TaskId, raw: Raw, late: Option<Fault>)
    requires Enabled(st, Return(id, raw, late)) && st.tasks[id].call.revision.None?
    ensures var task, led1 := st.tasks[id], Step(cat, st, Return(id, raw, late)).ledger;
      && LeavesKey(st.ledger, led1, task, if raw.Raised? then None else Some(raw), raw.Raised? || late.Some?)
      && OtherKeysStay(st.ledger, led1, task)
      && led1.fired == (if task.event.Some? then st.ledger.fired + {task.event.value} else st.ledger.fired)
  {
    var task, led := st.tasks[id], st.ledger;
    ReturnedLedger(st, id, raw, late);
    assert Step(cat, st, Return(id, raw, late)) == Conclude(st, id, raw, late);
    hide Conclude, Step, LeavesKey, OtherKeysStay, FailLedger, PublishOrdinary;
    if raw.Raised? {
      FailureLeaves(led, task);
      EventChangesNoKey(led, FailLedger(led, task), task, None, true);
    } else {
      PublishLeaves(led, task, raw);
      var led1 := PublishOrdinary(led, task, raw);
      if late.Some? {
        EventChangesNoKey(led, FailLedger(led1, task), task, Some(raw), true);
      } else {
        EventChangesNoKey(led, led1, task, Some(raw), false);
      }
    }
  }

  /** A call that fails before its target leaves no result. */
  lemma FailureIsLeft(cat: Catalog, st: State, l: Label)
    requires Enabled(st, l) && Resumes(l) && st.tasks[l.id].call.revision.None?
    ensures var task, st1 := st.tasks[l.id], Step(cat, st, l);
      && l.id in st1.tasks
      && (st1.tasks[l.id].phase.Finished? ==> LeavesKey(st.ledger, st1.ledger, task, None, true))
      && (st1.tasks[l.id].phase.Finished? ==> OtherKeysStay(st.ledger, st1.ledger, task))
      && (st1.tasks[l.id].Unfinished() ==> st1.ledger == st.ledger)
  {
    AdvanceAccepted(st, l);
    var advance, task := AdvanceOf(st, l), st.tasks[l.id];
    hide AdvanceOf, LeavesKey, OtherKeysStay, FailLedger;
    if advance.GiveUp? {
      FailLedgerIs(st, l.id, advance.fault, advance.accepted);
      FailureLeaves(st.ledger, task);
      EventChangesNoKey(st.ledger, FailLedger(st.ledger, task), task, None, true);
    }
    hide Fail;
  }

  /** A revision never touches what ordinary calls share, and a cancelled call only sets its event. */
  lemma OthersLeaveNothing(cat: Catalog, st: State, l: Label)
    requires Enabled(st, l) && !l.Arrive? && (l.Cancel? || st.tasks[l.id].call.revision.Some?)
    ensures var task, led1 := st.tasks[l.id], Step(cat, st, l).ledger;
      && led1.(fired := {}) == st.ledger.(fired := {})
      && (l.Cancel? ==>
            led1.fired == if task.event.Some? then st.ledger.fired + {task.event.value} else st.ledger.fired)
  {
    hide LanesWithout;
    var task := st.tasks[l.id];
    if Resumes(l) {
      var advance := AdvanceOf(st, l);
      hide AdvanceOf;
      if advance.GiveUp? {
        FailLedgerIs(st, l.id, advance.fault, advance.accepted);
      }
      hide Fail;
    } else if l.Return? {
      assert Step(cat, st, l) == Conclude(st, l.id, l.raw, l.late);
      hide Step;
      if l.raw.Raised? {
        FailLedgerIs(st, l.id, l.raw.fault, task.arguments);
      } else {
        PublishEffect(st, l.id, l.raw);
        if l.late.Some? {
          FailLedgerIs(Publish(st, l.id, l.raw), l.id, l.late.value, task.arguments);
        }
      }
      hide Fail, Publish;
    }
  }

  // ---------------------------------------------------------------- over runs

  /** The record tells of this call: whose it is, and how it ended. */
  predicate TellsOf(record: Record, task: Task) {
    && task.phase.Finished?
    && record.invocation == task.call.invocation && record.tool == task.tool.name
    && match task.phase.outcome
       case Ok(_) => record.fault == None
       case Skip => record.fault == None
       case Cancelled => false
       case Error(fault) => record.fault == Some(fault) || (record.fault == None && task.call.revision.Some?)
  }

  ghost predicate Told(st: State, c: CallId) {
    c in st.calls &&
      exists id: TaskId :: id in st.tasks && st.tasks[id].call.id == c && TellsOf(st.calls[c], st.tasks[id])
  }

  /** Every record is of a call that ended, and every call that ended, unless cancelled, is on record. */
  ghost predicate AllTold(st: State) {
    && (forall c :: c in st.calls ==> Told(st, c))
    && (forall id: TaskId ::
          id in st.tasks && st.tasks[id].phase.Finished? && !st.tasks[id].phase.outcome.Cancelled? ==>
          st.tasks[id].call.id in st.calls)
  }

  lemma StepTells(cat: Catalog, st: State, l: Label)
    requires Enabled(st, l) && AllTold(st)
    ensures AllTold(Step(cat, st, l))
  {
    StepEffect(cat, st, l);
    hide AllTold;
    if l.Arrive? {
      ArrivalTells(cat, st, l.id, l.call, l.fault);
    } else {
      FinishedCallIsRecorded(cat, st, l);
      hide Step, RecordsAfter;
      assert st.tasks[l.id].Unfinished();
      EndTells(st, Step(cat, st, l), l);
    }
  }

  lemma ArrivalTells(cat: Catalog, st: State, id: TaskId, call: Call, fault: Option<Fault>)
    requires id !in st.tasks && AllTold(st) && Touches(st, ArriveStep(cat, st, id, call, fault), id)
    requires var st1 := ArriveStep(cat, st, id, call, fault);
      id in st1.tasks ==>
        (st1.tasks[id].call == call && Accepted(cat, call) && st1.tasks[id].tool == Find(cat.tools, call.toolId).value)
    ensures AllTold(ArriveStep(cat, st, id, call, fault))
  {
    var st1 := ArriveStep(cat, st, id, call, fault);
    if Accepted(cat, call) {
      ArrivalIsRecorded(cat, st, id, call, fault);
      hide ArriveStep, Accepted, AllTold;
      TouchTells(st, st1, id);
    }
  }

  lemma EndTells(st: State, st1: State, l: Label)
    requires AllTold(st) && Touches(st, st1, l.id) && l.id in st.tasks && st.tasks[l.id].Unfinished()
    requires l.id in st1.tasks && st1.calls ==
      if st1.tasks[l.id].phase.Finished? then RecordsAfter(st.calls, st.tasks[l.id], l, st1.tasks[l.id].phase.outcome)
      else st.calls
    ensures AllTold(st1)
  {
    hide AllTold, AcceptedBy;
    TouchTells(st, st1, l.id);
  }

  lemma TouchTells(st: State, st1: State, id: TaskId)
    requires AllTold(st) && Touches(st, st1, id) && id in st1.tasks && (id in st.tasks ==> st.tasks[id].Unfinished())
    requires forall c :: c in st1.calls && c != st1.tasks[id].call.id ==> c in st.calls && st1.calls[c] == st.calls[c]
    requires var c := st1.tasks[id].call.id;
      c in st1.calls ==> TellsOf(st1.calls[c], st1.tasks[id]) || (c in st.calls && st1.calls[c] == st.calls[c])
    requires st1.tasks[id].phase.Finished? && !st1.tasks[id].phase.outcome.Cancelled? ==>
      st1.tasks[id].call.id in st1.calls
    ensures AllTold(st1)
  {
    forall c | c in st1.calls
      ensures Told(st1, c)
    {
      if c != st1.tasks[id].call.id || !TellsOf(st1.calls[c], st1.tasks[id]) {
        assert Told(st, c);
        var other: TaskId :| other in st.tasks && st.tasks[other].call.id == c && TellsOf(st.calls[c], st.tasks[other]);
        assert other in st1.tasks && st1.tasks[other] == st.tasks[other];
      }
    }
  }

  lemma {:induction false} RunTells(cat: Catalog, st: State, ls: seq<Label>)
    requires IsRun(cat, st, ls) && AllTold(st)
    ensures AllTold(After(cat, st, ls))
    decreases |ls|
  {
    hide Step, Enabled, AllTold;
    if |ls| > 0 {
      StepTells(cat, st, ls[0]);
      RunTells(cat, Step(cat, st, ls[0]), ls[1..]);
    }
  }

  /** Over all runs: a call id is on record with a failure or without if and only if some call with that id ended
      so, where a revision that failed after it had published counts as done; a cancelled call leaves no record. */
  lemma RecordsAreOutcomes(cat: Catalog, st: State)
    requires Reachable(cat, st)
    ensures AllTold(st)
  {
    var ls :| IsRun(cat, EMPTY, ls) && After(cat, EMPTY, ls) == st;
    RunTells(cat, EMPTY, ls);
  }
}
