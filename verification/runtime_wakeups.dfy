/** A waiting call goes on only behind a finished call of the tool it waits for. */
module RuntimeWakeups {
  import opened Options
  import opened ToolCatalog
  import opened ToolRuntime
  import opened RuntimeFrames
  import opened RuntimeProgress

  /** A finished call that held the event, and was of the tool whose call opened it. */
  ghost predicate Left(tasks: map<TaskId, Task>, e: TaskId) {
    && e in tasks
    && exists id: TaskId ::
         && id in tasks && tasks[id].phase.Finished? && tasks[id].event == Some(e)
         && tasks[id].tool.name == tasks[e].tool.name
  }

  /** An event is named by the call that opened it, and whoever holds or awaits it knows it by that call's tool. */
  predicate KnowsEvent(tasks: map<TaskId, Task>, task: Task) {
    && (task.event.Some? ==> task.event.value in tasks && tasks[task.event.value].tool.name == task.tool.name)
    && (task.phase.Waiting? ==>
          task.phase.event in tasks && tasks[task.phase.event].tool.name == task.phase.key)
  }

  ghost predicate Attributed(st: State) {
    && (forall e :: e in st.ledger.fired ==> Left(st.tasks, e))
    && (forall id :: id in st.tasks ==> KnowsEvent(st.tasks, st.tasks[id]))
  }

  // ---------------------------------------------------------------- one step

  /** The events a step sets: that of the call which leaves by it. */
  ghost predicate FiresOwn(st: State, st1: State, id: TaskId) {
    forall e :: e in st1.ledger.fired && e !in st.ledger.fired ==>
      id in st1.tasks && st1.tasks[id].phase.Finished? && st1.tasks[id].event == Some(e)
  }

  lemma FailFires(st: State, id: TaskId, fault: Fault, accepted: map<string, Value>)
    requires id in st.tasks
    ensures FiresOwn(st, Fail(st, id, fault, accepted), id)
  {
    FailEffect(st, id, fault, accepted);
    hide Fail, FailLedger;
  }

  lemma ConcludeFires(st: State, id: TaskId, raw: Raw, late: Option<Fault>)
    requires id in st.tasks
    ensures FiresOwn(st, Conclude(st, id, raw, late), id)
  {
    hide LanesWithout;
    if raw.Raised? {
      FailFires(st, id, raw.fault, st.tasks[id].arguments);
    } else {
      PublishEffect(st, id, raw);
      if late.Some? {
        FailFires(Publish(st, id, raw), id, late.value, st.tasks[id].arguments);
      }
    }
    hide Fail, Publish;
  }

  lemma ArriveFires(cat: Catalog, st: State, id: TaskId, call: Call, fault: Option<Fault>)
    requires id !in st.tasks
    ensures FiresOwn(st, ArriveStep(cat, st, id, call, fault), id)
  {
    hide ArriveOrdinary, ArriveRevision, Refusal, ArrivalFault, Fail;
    if Accepted(cat, call) {
      var tool := Find(cat.tools, call.toolId).value;
      var refusal, raised := Refusal(cat, st, tool, call), ArrivalFault(cat, tool, call, fault);
      var st1 := ArriveAccepted(cat, st, id, tool, call, refusal);
      AcceptedEffect(cat, st, id, tool, call, refusal);
      if call.revision.Some? {
        RevisionEffect(st, id, tool, call, refusal);
      } else {
        ArriveOrdinaryEvents(cat, st, id, tool, call);
      }
      hide ArriveAccepted;
      if st1.tasks[id].Unfinished() && raised.Some? {
        FailFires(st1, id, raised.value, map[]);
      }
    }
  }

  lemma StepFires(cat: Catalog, st: State, l: Label)
    requires Enabled(st, l)
    ensures FiresOwn(st, Step(cat, st, l), l.id)
  {
    hide Fail, Conclude, ArriveStep, LanesWithout;
    if Resumes(l) {
      var advance := AdvanceOf(st, l);
      hide AdvanceOf;
      if advance.GiveUp? {
        FailFires(st, l.id, advance.fault, advance.accepted);
      }
    } else {
      match l
      case Arrive(id, call, fault) => ArriveFires(cat, st, id, call, fault);
      case Enter(_) =>
      case Return(id, raw, late) => ConcludeFires(st, id, raw, late);
      case Cancel(_) =>
    }
  }

  /** Whom the call a step is about knows its events by. */
  lemma StepKnows(cat: Catalog, st: State, l: Label)
    requires Enabled(st, l) && Attributed(st) && Sound(cat, st)
    ensures var st1 := Step(cat, st, l); l.id in st1.tasks ==> KnowsEvent(st1.tasks, st1.tasks[l.id])
  {
    StepEffect(cat, st, l);
    if l.Arrive? {
      ArrivalKnows(cat, st, l.id, l.call, l.fault);
    } else {
      assert KnowsEvent(st.tasks, st.tasks[l.id]);
      MoveWaits(cat, st, l);
      hide Step, Attributed, Sound;
    }
  }

  /** A call that begins to wait, waits for the current event of the key. */
  lemma MoveWaits(cat: Catalog, st: State, l: Label)
    requires Enabled(st, l) && !l.Arrive? && Sound(cat, st)
    ensures var st1 := Step(cat, st, l);
      l.id in st1.tasks && st1.tasks[l.id].phase.Waiting? ==>
        var phase := st1.tasks[l.id].phase;
        phase.event in st.tasks && st.tasks[phase.event].tool.name == phase.key
  {
    hide Sound;
    if Resumes(l) {
      AdvanceWaits(cat, st, l);
      var advance := AdvanceOf(st, l);
      hide AdvanceOf;
      if advance.GiveUp? {
        FailEffect(st, l.id, advance.fault, advance.accepted);
      }
      hide Fail;
    } else if l.Return? {
      ConcludeEffect(st, l.id, l.raw, l.late);
      hide Conclude;
    }
  }

  lemma AdvanceWaits(cat: Catalog, st: State, l: Label)
    requires Enabled(st, l) && Resumes(l) && Sound(cat, st)
    ensures var advance := AdvanceOf(st, l);
      advance.Continue? && advance.task.phase.Waiting? ==>
        var phase := advance.task.phase;
        phase.event in st.tasks && st.tasks[phase.event].tool.name == phase.key
  {
    var advance := AdvanceOf(st, l);
    if advance.Continue? && advance.task.phase.Waiting? {
      var key := advance.task.phase.key;
      assert key in st.ledger.events && advance.task.phase.event == st.ledger.events[key];
      hide AdvanceOf;
      assert EventHeld(st.ledger, st.tasks, key);
    }
  }

  lemma ArrivalKnows(cat: Catalog, st: State, id: TaskId, call: Call, fault: Option<Fault>)
    requires id !in st.tasks && Sound(cat, st)
    ensures var st1 := ArriveStep(cat, st, id, call, fault); id in st1.tasks ==> KnowsEvent(st1.tasks, st1.tasks[id])
  {
    hide Refusal, ArrivalFault, Fail, BeginInputRound;
    if Accepted(cat, call) {
      var tool := Find(cat.tools, call.toolId).value;
      var refusal, raised := Refusal(cat, st, tool, call), ArrivalFault(cat, tool, call, fault);
      var st1 := ArriveAccepted(cat, st, id, tool, call, refusal);
      AcceptedKnows(cat, st, id, tool, call, refusal);
      hide ArriveAccepted, Sound;
      if st1.tasks[id].Unfinished() && raised.Some? {
        FailEffect(st1, id, raised.value, map[]);
      }
    }
  }

  lemma AcceptedKnows(cat: Catalog, st: State, id: TaskId, tool: Tool, call: Call, refusal: Option<Rejection>)
    requires id !in st.tasks && Sound(cat, st)
    ensures var st1 := ArriveAccepted(cat, st, id, tool, call, refusal);
      id in st1.tasks && KnowsEvent(st1.tasks, st1.tasks[id])
  {
    hide Fail, BeginInputRound;
    if call.revision.Some? {
      RevisionEffect(st, id, tool, call, refusal);
    } else {
      ArriveOrdinaryEvents(cat, st, id, tool, call);
      OrdinaryEffect(cat, st, id, tool, call);
      var st1 := ArriveOrdinary(cat, st, id, tool, call);
      var e := st1.ledger.events[tool.name];
      assert st1.tasks[id].event == Some(e) && st1.tasks[id].phase.Asking?;
      hide ArriveOrdinary;
      if e != id {
        assert EventHeld(st.ledger, st.tasks, tool.name);
      }
    }
  }

  // ---------------------------------------------------------------- over runs

  lemma StepAttributes(cat: Catalog, st: State, l: Label)
    requires Enabled(st, l) && Attributed(st) && Sound(cat, st)
    ensures Attributed(Step(cat, st, l))
  {
    StepEffect(cat, st, l);
    StepFires(cat, st, l);
    StepKnows(cat, st, l);
    assert l.id in st.tasks ==> st.tasks[l.id].Unfinished();
    hide Step, Sound, Enabled, Attributed;
    TouchAttributes(st, Step(cat, st, l), l.id);
  }

  lemma TouchAttributes(st: State, st1: State, id: TaskId)
    requires Attributed(st) && Touches(st, st1, id) && FiresOwn(st, st1, id)
    requires id in st.tasks ==> st.tasks[id].Unfinished()
    requires id in st1.tasks ==> KnowsEvent(st1.tasks, st1.tasks[id])
    ensures Attributed(st1)
  {
    forall e | e in st1.ledger.fired
      ensures Left(st1.tasks, e)
    {
      if e in st.ledger.fired {
        assert Left(st.tasks, e);
        var holder: TaskId :|
          holder in st.tasks && st.tasks[holder].phase.Finished? && st.tasks[holder].event == Some(e) &&
          st.tasks[holder].tool.name == st.tasks[e].tool.name;
        assert holder in st1.tasks && st1.tasks[holder] == st.tasks[holder];
      }
    }
    forall other | other in st1.tasks && other != id
      ensures KnowsEvent(st1.tasks, st1.tasks[other])
    {
      assert KnowsEvent(st.tasks, st.tasks[other]);
    }
  }

  lemma {:induction false} RunAttributes(cat: Catalog, st: State, ls: seq<Label>)
    requires IsRun(cat, st, ls) && Attributed(st) && Sound(cat, st)
    ensures Attributed(After(cat, st, ls)) && Sound(cat, After(cat, st, ls))
    decreases |ls|
  {
    hide Step, Enabled, Attributed, Sound;
    if |ls| > 0 {
      StepAttributes(cat, st, ls[0]);
      StepKeepsSound(cat, st, ls[0]);
      RunAttributes(cat, Step(cat, st, ls[0]), ls[1..]);
    }
  }

  /** In every reachable state a call can be woken only when a call of the very tool it waits for, which feeds the
      dependency it is at, has finished. */
  lemma WokenBehindFinishedCall(cat: Catalog, st: State, id: TaskId)
    requires Reachable(cat, st) && Enabled(st, Wake(id))
    ensures Feeds(st.tasks[id].phase.key, st.tasks[id].tool.dependencies[st.tasks[id].phase.dependency])
    ensures exists done: TaskId ::
      && done in st.tasks && st.tasks[done].phase.Finished?
      && st.tasks[done].tool.name == st.tasks[id].phase.key && st.tasks[done].event == Some(st.tasks[id].phase.event)
  {
    var ls :| IsRun(cat, EMPTY, ls) && After(cat, EMPTY, ls) == st;
    RunAttributes(cat, EMPTY, ls);
    var e := st.tasks[id].phase.event;
    assert TaskShape(cat, st.ledger, st.tasks[id]) && KnowsEvent(st.tasks, st.tasks[id]);
    assert Left(st.tasks, e);
    var done: TaskId :|
      done in st.tasks && st.tasks[done].phase.Finished? && st.tasks[done].event == Some(e) &&
      st.tasks[done].tool.name == st.tasks[e].tool.name;
  }
}
