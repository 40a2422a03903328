/** When a human is asked again: once for each later model decision, never for a call of the same one. */
module InputRounds {
  import opened Options
  import opened ToolCatalog
  import opened ToolRuntime
  import opened RuntimeFrames

  /** An assistant message of an invocation. */
  type Batch = (string, string)

  ghost predicate InRounds(led: Ledger, key: string, batch: Batch) {
    key in led.rounds && batch in led.rounds[key]
  }

  /** The arrival of an ordinary call of the tool `key` that `batch` decided on, where the tool asks a human. */
  predicate Decides(cat: Catalog, l: Label, key: string, batch: Batch) {
    && l.Arrive? && l.call.toolId == key && l.call.revision.None? && Accepted(cat, l.call)
    && |Find(cat.tools, key).value.inputs| > 0
    && l.call.message == Some(batch.1) && l.call.invocation == batch.0
  }

  ghost predicate Decided(cat: Catalog, ls: seq<Label>, key: string, batch: Batch) {
    exists l :: l in ls && Decides(cat, l, key, batch)
  }

  // ---------------------------------------------------------------- the rounds are the decisions so far

  lemma FailKeepsRounds(st: State, id: TaskId, fault: Fault, accepted: map<string, Value>)
    requires id in st.tasks
    ensures Fail(st, id, fault, accepted).ledger.rounds == st.ledger.rounds
  {
    NoteFailureEffect(st, st.tasks[id], fault, accepted);
    hide NoteFailure;
  }

  lemma ConcludeKeepsRounds(st: State, id: TaskId, raw: Raw, late: Option<Fault>)
    requires id in st.tasks
    ensures Conclude(st, id, raw, late).ledger.rounds == st.ledger.rounds
  {
    if raw.Raised? {
      FailKeepsRounds(st, id, raw.fault, st.tasks[id].arguments);
    } else {
      PublishEffect(st, id, raw);
      if late.Some? {
        FailKeepsRounds(Publish(st, id, raw), id, late.value, st.tasks[id].arguments);
      }
    }
    hide Fail, Publish;
  }

  lemma OrdinaryRounds(cat: Catalog, st: State, id: TaskId, tool: Tool, call: Call, key: string, batch: Batch)
    ensures InRounds(ArriveOrdinary(cat, st, id, tool, call).ledger, key, batch) <==>
      InRounds(st.ledger, key, batch)
      || (key == tool.name && |tool.inputs| > 0 && call.message == Some(batch.1) && call.invocation == batch.0)
  {
    hide DependencyFed;
    var led := BeginInputRound(st.ledger, id, tool, call);
    assert OpenEvent(led, id, tool.name).rounds == led.rounds;
  }

  lemma ArriveRounds(cat: Catalog, st: State, id: TaskId, call: Call, fault: Option<Fault>, key: string, batch: Batch)
    requires id !in st.tasks
    ensures InRounds(ArriveStep(cat, st, id, call, fault).ledger, key, batch) <==>
      InRounds(st.ledger, key, batch) || Decides(cat, Arrive(id, call, fault), key, batch)
  {
    if Accepted(cat, call) {
      var tool := Find(cat.tools, call.toolId).value;
      var refusal := Refusal(cat, st, tool, call);
      var st1 := ArriveAccepted(cat, st, id, tool, call, refusal);
      if call.revision.Some? {
        RevisionEffect(st, id, tool, call, refusal);
      } else {
        OrdinaryRounds(cat, st, id, tool, call, key, batch);
        OrdinaryEffect(cat, st, id, tool, call);
      }
      var raised := ArrivalFault(cat, tool, call, fault);
      hide ArriveRevision, ArriveOrdinary, Refusal, ArrivalFault;
      if id in st1.tasks && raised.Some? {
        FailKeepsRounds(st1, id, raised.value, map[]);
      }
      hide Fail;
    }
  }

  lemma StepRounds(cat: Catalog, st: State, l: Label, key: string, batch: Batch)
    requires Enabled(st, l)
    ensures InRounds(Step(cat, st, l).ledger, key, batch) <==>
      InRounds(st.ledger, key, batch) || Decides(cat, l, key, batch)
  {
    hide InRounds, Decides;
    if Resumes(l) {
      var advance := AdvanceOf(st, l);
      if advance.GiveUp? {
        FailKeepsRounds(st, l.id, advance.fault, advance.accepted);
      }
      hide Fail, AdvanceOf;
      SameRounds(st, Step(cat, st, l), cat, l, key, batch);
    } else {
      match l
      case Arrive(id, call, fault) => ArriveRounds(cat, st, id, call, fault, key, batch);
      case Return(id, raw, late) =>
        ConcludeKeepsRounds(st, id, raw, late);
        hide Conclude;
        SameRounds(st, Step(cat, st, l), cat, l, key, batch);
      case Enter(_) => SameRounds(st, Step(cat, st, l), cat, l, key, batch);
      case Cancel(_) => SameRounds(st, Step(cat, st, l), cat, l, key, batch);
    }
  }

  lemma SameRounds(st: State, st1: State, cat: Catalog, l: Label, key: string, batch: Batch)
    requires st1.ledger.rounds == st.ledger.rounds && !l.Arrive?
    ensures InRounds(st1.ledger, key, batch) <==> InRounds(st.ledger, key, batch) || Decides(cat, l, key, batch)
  {
  }

  lemma {:induction false} RunRounds(cat: Catalog, st: State, ls: seq<Label>, key: string, batch: Batch)
    requires IsRun(cat, st, ls)
    ensures InRounds(After(cat, st, ls).ledger, key, batch) <==>
      InRounds(st.ledger, key, batch) || Decided(cat, ls, key, batch)
    decreases |ls|
  {
    hide Step, Enabled, InRounds, Decides;
    if |ls| > 0 {
      StepRounds(cat, st, ls[0], key, batch);
      RunRounds(cat, Step(cat, st, ls[0]), ls[1..], key, batch);
      assert forall l :: l in ls <==> l == ls[0] || l in ls[1..];
    }
  }

  // ---------------------------------------------------------------- what the next decision does

  /** The first call of a later decision, after the answer is there. */
  ghost predicate AsksAgain(cat: Catalog, ls: seq<Label>, st: State, call: Call) {
    && Accepted(cat, call) && |Find(cat.tools, call.toolId).value.inputs| > 0
    && call.message.Some? && !Decided(cat, ls, call.toolId, (call.invocation, call.message.value))
    && call.toolId in st.ledger.events && st.ledger.events[call.toolId] in st.ledger.fired
  }

  /** Everything recorded under another tool's key stays. */
  ghost predicate OthersStay(led: Ledger, led1: Ledger, key: string) {
    forall other: string :: other != key ==>
      && (other in led1.results <==> other in led.results)
      && (other in led.results ==> led1.results[other] == led.results[other])
      && (other in led1.failures <==> other in led.failures)
      && (other in led1.reserved <==> other in led.reserved)
      && (other in led1.events <==> other in led.events)
      && (other in led.events ==> led1.events[other] == led.events[other])
  }

  /** What a call leaves behind as it arrives: asked `again`, the key is as if never called, apart from this call's
      new event, which it fills; else it joins what is there. A key some dependency reads (`fed`) is then reserved, and
      the call holds it if nobody did. A refusal while it is prepared notes a failure and hands the key back. */
  ghost predicate Joins(led: Ledger, led1: Ledger, t: Task, id: TaskId, key: string, fed: bool, again: bool) {
    && (key in led1.results <==> key in led.results && !again)
    && (key in led1.failures <==> t.phase.Finished? || (key in led.failures && !again))
    && key in led1.events && t.event == Some(led1.events[key])
    && (led1.events[key] == if again || key !in led.events then id else led.events[key])
    && (t.owns <==> !fed || again || key !in led.reserved)
    && (key in led1.reserved <==> (fed || (key in led.reserved && !again)) && !(t.phase.Finished? && t.owns))
  }

  /** Over all runs: a call of a tool that asks a human forgets the tool's result and failure, and holds a new
      completion event that it fills, if and only if no earlier call of the tool came from the same model
      decision and the last answer is complete. Otherwise it joins what is there. Other tools keep everything. */
  lemma LaterDecisionAsksAgain(cat: Catalog, ls: seq<Label>, id: TaskId, call: Call, fault: Option<Fault>)
    requires IsRun(cat, EMPTY, ls) && id !in After(cat, EMPTY, ls).tasks
    requires call.revision.None? && Accepted(cat, call)
    ensures Enabled(After(cat, EMPTY, ls), Arrive(id, call, fault))
    ensures var st := After(cat, EMPTY, ls);
      var st1 := Step(cat, st, Arrive(id, call, fault));
      && id in st1.tasks
      && Joins(st.ledger, st1.ledger, st1.tasks[id], id, call.toolId, DependencyFed(cat.tools, call.toolId),
               AsksAgain(cat, ls, st, call))
      && OthersStay(st.ledger, st1.ledger, call.toolId)
  {
    var st := After(cat, EMPTY, ls);
    if call.message.Some? {
      RunRounds(cat, EMPTY, ls, call.toolId, (call.invocation, call.message.value));
    }
    RoundBegins(cat, ls, st, id, Find(cat.tools, call.toolId).value, call);
    hide IsRun, After, AsksAgain, Decided, ArriveOrdinary, InRounds, Joins, OthersStay, DependencyFed;
    ArrivesJoining(cat, st, id, call, fault, AsksAgain(cat, ls, st, call));
    hide ArriveStep, Accepted;
  }

  lemma ArrivesJoining(cat: Catalog, st: State, id: TaskId, call: Call, fault: Option<Fault>, again: bool)
    requires id !in st.tasks && call.revision.None? && Accepted(cat, call)
    requires var tool := Find(cat.tools, call.toolId).value;
      var st1 := ArriveOrdinary(cat, st, id, tool, call);
      id in st1.tasks && st1.tasks[id].Unfinished() && st1.tasks[id].call == call && st1.tasks[id].tool == tool
      && Joins(st.ledger, st1.ledger, st1.tasks[id], id, call.toolId, DependencyFed(cat.tools, call.toolId), again)
      && OthersStay(st.ledger, st1.ledger, call.toolId)
    ensures var st1 := ArriveStep(cat, st, id, call, fault);
      && id in st1.tasks
      && Joins(st.ledger, st1.ledger, st1.tasks[id], id, call.toolId, DependencyFed(cat.tools, call.toolId), again)
      && OthersStay(st.ledger, st1.ledger, call.toolId)
  {
    hide ArriveOrdinary, Prepared, ArrivalFault, DependencyFed;
    var tool := Find(cat.tools, call.toolId).value;
    var st1 := ArriveOrdinary(cat, st, id, tool, call);
    var fault1 := ArrivalFault(cat, tool, call, fault);
    PreparedStays(st1, id, fault1);
    var st2 := Prepared(st1, id, fault1);
    assert ArriveStep(cat, st, id, call, fault) == st2;
    hide ArriveStep, Accepted;
    KeepsJoined(st.ledger, st1.ledger, st2.ledger, st1.tasks[id], st2.tasks[id], id, call.toolId,
      DependencyFed(cat.tools, call.toolId), again);
  }

  lemma KeepsJoined(led: Ledger, led1: Ledger, led2: Ledger, t1: Task, t2: Task, id: TaskId, key: string, fed: bool,
                    again: bool)
    requires Joins(led, led1, t1, id, key, fed, again) && OthersStay(led, led1, key)
    requires SameCall(t1, t2) && t1.Unfinished() && led2.results == led1.results && led2.events == led1.events
    requires led2.failures == if t2.phase.Finished? then led1.failures + {key} else led1.failures
    requires led2.reserved == if t2.phase.Finished? && t2.owns then led1.reserved - {key} else led1.reserved
    ensures Joins(led, led2, t2, id, key, fed, again) && OthersStay(led, led2, key)
  {
  }

  lemma RoundBegins(cat: Catalog, ls: seq<Label>, st: State, id: TaskId, tool: Tool, call: Call)
    requires call.revision.None? && Accepted(cat, call) && tool == Find(cat.tools, call.toolId).value
    requires call.message.Some? ==>
      (InRounds(st.ledger, call.toolId, (call.invocation, call.message.value)) <==>
         Decided(cat, ls, call.toolId, (call.invocation, call.message.value)))
    ensures var st1 := ArriveOrdinary(cat, st, id, tool, call);
      && id in st1.tasks && st1.tasks[id].Unfinished() && st1.tasks[id].call == call && st1.tasks[id].tool == tool
      && Joins(st.ledger, st1.ledger, st1.tasks[id], id, call.toolId, DependencyFed(cat.tools, call.toolId),
               AsksAgain(cat, ls, st, call))
      && OthersStay(st.ledger, st1.ledger, call.toolId)
  {
    hide DependencyFed, Decided;
    assert tool.name == call.toolId;
  }

  /** A refusal while the arguments are prepared notes a failure and nothing else. */
  lemma PreparedStays(st: State, id: TaskId, fault: Option<Fault>)
    requires id in st.tasks && st.tasks[id].Unfinished() && st.tasks[id].Ordinary()
    ensures var st1, key := Prepared(st, id, fault), st.tasks[id].tool.name;
      && id in st1.tasks && SameCall(st.tasks[id], st1.tasks[id])
      && st1.ledger.results == st.ledger.results && st1.ledger.events == st.ledger.events
      && var failed, led := st1.tasks[id].phase.Finished?, st.ledger;
         && st1.ledger.reserved == (if failed && st1.tasks[id].owns then led.reserved - {key} else led.reserved)
         && st1.ledger.failures == (if failed then led.failures + {key} else led.failures)
  {
    PreparedEffect(st, id, fault);
    if fault.Some? {
      FailEffect(st, id, fault.value, map[]);
    }
  }
}
