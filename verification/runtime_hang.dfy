/** Carrying a plan out: the tools that can finish do, one after the other, and the others come to wait. */
module RuntimeHang {
  import opened Options
  import opened ToolCatalog
  import opened ToolFeeding
  import opened ToolPlan
  import opened ToolRuntime
  import opened RuntimeFrames
  import opened RuntimeProgress
  import opened RuntimeDeadlock

  function ArgNames(dependencies: seq<Dependency>): (names: seq<string>)
    ensures |names| == |dependencies| && forall i :: 0 <= i < |names| ==> names[i] == dependencies[i].argName
  {
    if |dependencies| == 0 then [] else [dependencies[0].argName] + ArgNames(dependencies[1..])
  }

  /** An earlier result may be bound to the argument. */
  predicate Bindable(cat: Catalog, tool: Tool, argName: string) {
    var declared := DeclarationOf(tool.dependencies, argName);
    cat.thread.Some? && declared.Some? && declared.value.conversation
  }

  function Bound(cat: Catalog, tool: Tool, argName: string): Retained
    requires Bindable(cat, tool, argName)
  {
    Retained(0, cat.thread.value, DeclarationOf(tool.dependencies, argName).value.toolId, true)
  }

  /** An ordinary call with its human-supplied arguments, and every earlier result it may be given. */
  function PlannedCall(cat: Catalog, tool: Tool): Call {
    Call("", tool.name, "", None, None,
         map name | name in tool.inputs :: 0,
         map name | name in ArgNames(tool.dependencies) && Bindable(cat, tool, name) :: Bound(cat, tool, name))
  }

  lemma PlannedIsAccepted(cat: Catalog, tool: Tool)
    requires Callable(cat, tool)
    ensures Accepted(cat, PlannedCall(cat, tool)) && AcceptsRetained(cat, tool, PlannedCall(cat, tool))
    ensures Find(cat.tools, PlannedCall(cat, tool).toolId) == Some(tool) && PlannedCall(cat, tool).revision.None?
  {
    var call := PlannedCall(cat, tool);
    forall argName | argName in call.retained
      ensures AcceptsBinding(cat, tool, argName, call.retained[argName])
    {
    }
  }

  lemma RetainableIsBound(cat: Catalog, tool: Tool, i: nat)
    requires i < |tool.dependencies| && Retainable(cat, tool, tool.dependencies[i])
    ensures tool.dependencies[i].argName in PlannedCall(cat, tool).retained
  {
    assert ArgNames(tool.dependencies)[i] == tool.dependencies[i].argName;
  }

  function Names(ks: seq<Tool>): set<string> {
    set k | k in ks :: k.name
  }

  /** Exactly the keys in `done` have a result and a set event, exactly those in `open` an unset one. */
  ghost predicate Steady(led: Ledger, done: set<string>, open: set<string>) {
    && led.failures == {} && led.results.Keys == done && led.events.Keys == done + open
    && forall key :: key in led.events ==> (led.events[key] in led.fired <==> key in done)
  }

  /** No key beside those counted on. */
  predicate Within(how: Reading, names: set<string>) {
    how.Among? && names <= how.called
  }

  /** A frame of a planned call, wherever it stands before its target. */
  predicate Planned(cat: Catalog, task: Task, tool: Tool) {
    && task.call == PlannedCall(cat, tool) && task.tool == tool && task.branch.None?
    && forall name :: name in tool.inputs ==> name in task.arguments
  }

  /** Only one frame has moved. */
  predicate MovedOnly(st: State, last: State, id: TaskId) {
    id in last.tasks && last == st.(tasks := st.tasks[id := last.tasks[id]])
  }

  // ---------------------------------------------------------------- one frame on its way

  /** The human-supplied arguments are all there. */
  lemma {:induction false} AskThrough(cat: Catalog, st: State, id: TaskId, tool: Tool) returns (last: State)
    requires Reachable(cat, st) && id in st.tasks && Planned(cat, st.tasks[id], tool) && st.tasks[id].phase.Asking?
    ensures Reachable(cat, last) && MovedOnly(st, last, id)
    ensures Planned(cat, last.tasks[id], tool) && last.tasks[id].phase == Resolving(0, false)
    ensures last.tasks[id].event == st.tasks[id].event && last.tasks[id].owns == st.tasks[id].owns
    decreases Ahead(|tool.inputs|, st.tasks[id].phase.input)
  {
    hide Reachable, PlannedCall;
    AskOnce(cat, st, id, tool);
    ReachStep(cat, st, Answer(id, None));
    var next := Step(cat, st, Answer(id, None));
    if st.tasks[id].phase.input >= |tool.inputs| {
      last := next;
    } else {
      hide Step, Enabled, Planned;
      last := AskThrough(cat, next, id, tool);
    }
  }

  lemma AskOnce(cat: Catalog, st: State, id: TaskId, tool: Tool)
    requires id in st.tasks && Planned(cat, st.tasks[id], tool) && st.tasks[id].phase.Asking?
    ensures Enabled(st, Answer(id, None))
    ensures var next, task := Step(cat, st, Answer(id, None)), st.tasks[id];
      && MovedOnly(st, next, id) && Planned(cat, next.tasks[id], tool)
      && next.tasks[id].event == task.event && next.tasks[id].owns == task.owns
      && next.tasks[id].phase ==
           if task.phase.input >= |tool.inputs| then Resolving(0, false) else Asking(task.phase.input + 1)
  {
    hide PlannedCall;
    var task := st.tasks[id];
    assert Step(cat, st, Answer(id, None)) == Resume(st, id, AnswerAdvance(task, None));
    if task.phase.input < |tool.inputs| {
      assert tool.inputs[task.phase.input] in task.arguments;
    }
  }

  /** The key a lookup reads has an event, and none is found only for a dependency nobody called feeds. */
  lemma ReadsEvent(led: Ledger, d: Dependency, done: set<string>, open: set<string>)
    requires Steady(led, done, open)
    ensures var key := ResultKey(led, d);
      if d.toolId in done + open then key == Some(d.toolId)
      else if d.toolName in done + open then key == Some(d.toolName)
      else key.None?
  {
  }

  /** One look: it waits for a key that has an event, else it yields, else it takes the bound result. */
  lemma LookOnce(cat: Catalog, st: State, id: TaskId, tool: Tool, done: set<string>, open: set<string>)
    requires Steady(st.ledger, done, open) && id in st.tasks && Planned(cat, st.tasks[id], tool)
    requires st.tasks[id].phase.Resolving? && st.tasks[id].phase.dependency < |tool.dependencies|
    requires var d := tool.dependencies[st.tasks[id].phase.dependency];
      ResultKey(st.ledger, d).None? ==> d.argName in PlannedCall(cat, tool).retained
    ensures Enabled(st, Look(id))
    ensures var next, i := Step(cat, st, Look(id)), st.tasks[id].phase.dependency;
      var key := ResultKey(st.ledger, tool.dependencies[i]);
      && MovedOnly(st, next, id) && Planned(cat, next.tasks[id], tool)
      && next.tasks[id].event == st.tasks[id].event && next.tasks[id].owns == st.tasks[id].owns
      && (key.Some? ==>
           key.value in st.ledger.events && next.tasks[id].phase == Waiting(i, key.value, st.ledger.events[key.value]))
      && (key.None? ==>
           next.tasks[id].phase == if st.tasks[id].phase.yielded then Resolving(i + 1, false) else Resolving(i, true))
  {
    hide PlannedCall;
    var task := st.tasks[id];
    assert Step(cat, st, Look(id)) == Resume(st, id, LookOrdinary(st.ledger, task));
    ReadsEvent(st.ledger, tool.dependencies[task.phase.dependency], done, open);
    hide ResultKey;
  }

  /** A frame woken by a set event receives the result. */
  lemma WakeOnce(cat: Catalog, st: State, id: TaskId, tool: Tool, done: set<string>, open: set<string>)
    requires Steady(st.ledger, done, open) && id in st.tasks && Planned(cat, st.tasks[id], tool)
    requires st.tasks[id].phase.Waiting? && st.tasks[id].phase.dependency < |tool.dependencies|
    requires st.tasks[id].phase.key in done
    requires st.tasks[id].phase.event == st.ledger.events[st.tasks[id].phase.key]
    ensures Enabled(st, Wake(id))
    ensures var next := Step(cat, st, Wake(id));
      && MovedOnly(st, next, id) && Planned(cat, next.tasks[id], tool)
      && next.tasks[id].event == st.tasks[id].event && next.tasks[id].owns == st.tasks[id].owns
      && next.tasks[id].phase == Resolving(st.tasks[id].phase.dependency + 1, false)
  {
    hide PlannedCall;
    var task := st.tasks[id];
    assert Step(cat, st, Wake(id)) ==
      Resume(st, id, ReadLedger(st.ledger, task, task.phase.dependency, task.phase.key));
  }

  lemma MovedTwice(st: State, next: State, last: State, id: TaskId)
    requires MovedOnly(st, next, id) && MovedOnly(next, last, id)
    ensures MovedOnly(st, last, id)
  {
  }

  /** A dependency that passes out of the finished tools is either bound, or read from one of them. */
  lemma PassedKey(cat: Catalog, how: Reading, fs: seq<Tool>, open: set<string>, tool: Tool, d: Dependency, led: Ledger)
    requires Callable(cat, tool) && Passes(cat, how, ToSet(fs), tool, d) && Steady(led, Names(fs), open)
    requires Within(how, Names(fs) + open)
    ensures ResultKey(led, d).None? ==> Retainable(cat, tool, d)
    ensures open == {tool.name} && tool.name !in Names(fs) && ResultKey(led, d).Some? ==>
      ResultKey(led, d).value in Names(fs)
  {
    ReadsEvent(led, d, Names(fs), open);
    if !Retainable(cat, tool, d) {
      var f :| f in ToSet(fs) && Reads(cat, how, f, d);
      assert f.name in Names(fs);
    }
  }

  /** One dependency is met, unless the frame comes to wait for an unset event. */
  lemma PassOne(cat: Catalog, how: Reading, st: State, id: TaskId, tool: Tool, fs: seq<Tool>, open: set<string>)
    returns (last: State)
    requires Reachable(cat, st) && Steady(st.ledger, Names(fs), open) && Callable(cat, tool)
    requires Within(how, Names(fs) + open)
    requires id in st.tasks && Planned(cat, st.tasks[id], tool) && st.tasks[id].phase.Resolving?
    requires var i := st.tasks[id].phase.dependency;
      i < |tool.dependencies| && Passes(cat, how, ToSet(fs), tool, tool.dependencies[i])
    ensures Reachable(cat, last) && MovedOnly(st, last, id) && Planned(cat, last.tasks[id], tool)
    ensures last.tasks[id].event == st.tasks[id].event && last.tasks[id].owns == st.tasks[id].owns
    ensures WaitsUnset(last, id) || last.tasks[id].phase == Resolving(st.tasks[id].phase.dependency + 1, false)
    ensures open == {tool.name} && tool.name !in Names(fs) ==> !WaitsUnset(last, id)
    decreases if st.tasks[id].phase.yielded then 0 else 1
  {
    hide Reachable, Step, Enabled, Planned, ResultKey, Passes, Callable, Names, Retainable, PlannedCall, Steady;
    var i := st.tasks[id].phase.dependency;
    var d := tool.dependencies[i];
    PassedKey(cat, how, fs, open, tool, d, st.ledger);
    if ResultKey(st.ledger, d).None? { RetainableIsBound(cat, tool, i); }
    LookOnce(cat, st, id, tool, Names(fs), open);
    ReachStep(cat, st, Look(id));
    var next := Step(cat, st, Look(id));
    if ResultKey(st.ledger, d).Some? {
      last := ReadOrWait(cat, next, id, tool, Names(fs), open);
      MovedTwice(st, next, last, id);
    } else if st.tasks[id].phase.yielded {
      last := next;
    } else {
      last := PassOne(cat, how, next, id, tool, fs, open);
      MovedTwice(st, next, last, id);
    }
  }

  /** A frame at an event goes on if the event is set, and else stays where it is. */
  lemma ReadOrWait(cat: Catalog, st: State, id: TaskId, tool: Tool, done: set<string>, open: set<string>)
    returns (last: State)
    requires Reachable(cat, st) && Steady(st.ledger, done, open) && id in st.tasks && Planned(cat, st.tasks[id], tool)
    requires st.tasks[id].phase.Waiting? && st.tasks[id].phase.dependency < |tool.dependencies|
    requires st.tasks[id].phase.key in st.ledger.events
    requires st.tasks[id].phase.event == st.ledger.events[st.tasks[id].phase.key]
    ensures Reachable(cat, last) && MovedOnly(st, last, id) && Planned(cat, last.tasks[id], tool)
    ensures last.tasks[id].event == st.tasks[id].event && last.tasks[id].owns == st.tasks[id].owns
    ensures if st.tasks[id].phase.key in done then
      last.tasks[id].phase == Resolving(st.tasks[id].phase.dependency + 1, false)
            else WaitsUnset(last, id)
  {
    hide Reachable, Step, Enabled, Planned;
    if st.tasks[id].phase.key in done {
      WakeOnce(cat, st, id, tool, done, open);
      ReachStep(cat, st, Wake(id));
      last := Step(cat, st, Wake(id));
    } else {
      last := st;
    }
  }

  /** Dependencies are met one after the other, unless the frame comes to wait on the way. */
  lemma {:induction false} PassUpTo(cat: Catalog, how: Reading, st: State, id: TaskId, tool: Tool, fs: seq<Tool>,
                                    open: set<string>, i: nat, p: nat)
    returns (last: State)
    requires Reachable(cat, st) && Steady(st.ledger, Names(fs), open) && Callable(cat, tool)
    requires Within(how, Names(fs) + open)
    requires id in st.tasks && Planned(cat, st.tasks[id], tool) && st.tasks[id].phase == Resolving(i, false)
    requires i <= p && PassesTo(cat, how, ToSet(fs), tool, p)
    ensures Reachable(cat, last) && MovedOnly(st, last, id) && Planned(cat, last.tasks[id], tool)
    ensures last.tasks[id].event == st.tasks[id].event && last.tasks[id].owns == st.tasks[id].owns
    ensures WaitsUnset(last, id) || last.tasks[id].phase == Resolving(p, false)
    ensures open == {tool.name} && tool.name !in Names(fs) ==> !WaitsUnset(last, id)
    decreases p - i
  {
    hide Reachable, Planned, Passes, Callable, Names, Steady;
    if i == p {
      last := st;
    } else {
      var next := PassOne(cat, how, st, id, tool, fs, open);
      if WaitsUnset(next, id) {
        last := next;
      } else {
        last := PassUpTo(cat, how, next, id, tool, fs, open, i + 1, p);
        MovedTwice(st, next, last, id);
      }
    }
  }

  // ---------------------------------------------------------------- letting tools finish

  /** Every call so far has returned a value. */
  ghost predicate AllDone(st: State, fs: seq<Tool>) {
    && Steady(st.ledger, Names(fs), {}) && st.ledger.reserved <= Names(fs) && st.lanes == map[]
    && (forall e :: e in st.ledger.fired ==> e < |fs|)
    && (forall id: TaskId :: id in st.tasks ==> id < |fs| && st.tasks[id].phase.Finished?)
  }

  /** Two callable tools of one name are one. */
  lemma FreshName(cat: Catalog, ks: seq<Tool>, t: Tool)
    requires Callable(cat, t) && t !in ks && forall k :: k in ks ==> Callable(cat, k)
    ensures t.name !in Names(ks)
  {
  }

  lemma NamesAppend(ks: seq<Tool>, t: Tool)
    ensures Names(ks + [t]) == Names(ks) + {t.name}
  {
    var longer := ks + [t];
    assert forall k :: k in longer <==> k in ks || k == t;
    assert t in longer;
    forall name
      ensures name in Names(longer) <==> name in Names(ks) || name == t.name
    {
      if name in Names(ks) {
        var k :| k in ks && k.name == name;
        assert k in longer;
      }
    }
  }

  /** What an arriving call that belongs to no input round changes. */
  lemma ArrivalTables(cat: Catalog, st: State, id: TaskId, tool: Tool, call: Call)
    requires call.message.None?
    ensures var st1 := ArriveOrdinary(cat, st, id, tool, call);
      && st1.ledger.results == st.ledger.results && st1.ledger.failures == st.ledger.failures &&
           st1.ledger.fired == st.ledger.fired
      && st1.ledger.events ==
           (if tool.name in st.ledger.events then st.ledger.events else st.ledger.events[tool.name := id])
      && st1.lanes == st.lanes && st1.ledger.reserved <= st.ledger.reserved + {tool.name}
      && id in st1.tasks && st1.tasks == st.tasks[id := st1.tasks[id]]
      && st1.tasks[id].call == call && st1.tasks[id].tool == tool && st1.tasks[id].branch.None?
      && st1.tasks[id].arguments == call.supplied && st1.tasks[id].phase == Asking(0)
      && st1.tasks[id].event == Some(st1.ledger.events[tool.name])
      && (tool.name !in st.ledger.reserved ==> st1.tasks[id].owns)
  {
    hide DependencyFed;
  }

  lemma SteadyOpens(led: Ledger, led1: Ledger, done: set<string>, open: set<string>, name: string, id: TaskId)
    requires Steady(led, done, open) && name !in done && id !in led.fired
    requires led1.results == led.results && led1.failures == led.failures && led1.fired == led.fired
    requires led1.events == if name in led.events then led.events else led.events[name := id]
    ensures Steady(led1, done, open + {name})
  {
  }

  /** A planned call arrives: its key has an event, unset if it is new. */
  lemma ArriveOne(cat: Catalog, st: State, id: TaskId, tool: Tool, done: set<string>, open: set<string>)
    requires Callable(cat, tool) && id !in st.tasks && id !in st.ledger.fired && tool.name !in done
    requires Steady(st.ledger, done, open)
    ensures Enabled(st, Arrive(id, PlannedCall(cat, tool), None))
    ensures var st1 := Step(cat, st, Arrive(id, PlannedCall(cat, tool), None));
      && Steady(st1.ledger, done, open + {tool.name}) && st1.ledger.fired == st.ledger.fired && st1.lanes == st.lanes
      && id in st1.tasks && st1.tasks == st.tasks[id := st1.tasks[id]]
      && Planned(cat, st1.tasks[id], tool) && st1.tasks[id].phase == Asking(0)
      && st1.ledger.reserved <= st.ledger.reserved + {tool.name}
      && (tool.name !in st.ledger.reserved ==> st1.tasks[id].owns)
      && (tool.name !in open ==> st1.tasks[id].event == Some(id) && st1.ledger.events[tool.name] == id)
  {
    var call := PlannedCall(cat, tool);
    assert call.message.None? && forall name :: name in tool.inputs ==> name in call.supplied;
    hide PlannedCall, ArriveOrdinary, Step, Callable;
    PlannedIsAccepted(cat, tool);
    ArrivalStep(cat, st, id, tool, call);
    ArrivalTables(cat, st, id, tool, call);
    SteadyOpens(st.ledger, ArriveOrdinary(cat, st, id, tool, call).ledger, done, open, tool.name, id);
  }

  lemma ArrivalStep(cat: Catalog, st: State, id: TaskId, tool: Tool, call: Call)
    requires id !in st.tasks && Accepted(cat, call) && AcceptsRetained(cat, tool, call) && call.revision.None?
    requires Find(cat.tools, call.toolId) == Some(tool)
    ensures Step(cat, st, Arrive(id, call, None)) == ArriveOrdinary(cat, st, id, tool, call)
  {
    hide ArriveOrdinary, AcceptsRetained, Accepted;
  }

  /** A frame whose dependencies are all met comes to run its target. */
  lemma ReachTarget(cat: Catalog, st: State, id: TaskId, tool: Tool) returns (last: State)
    requires Reachable(cat, st) && st.lanes == map[] && id in st.tasks && Planned(cat, st.tasks[id], tool)
    requires st.tasks[id].phase == Resolving(|tool.dependencies|, false)
    ensures Reachable(cat, last) && id in last.tasks && last.tasks == st.tasks[id := st.tasks[id].(phase := Running)]
    ensures last.ledger == st.ledger && forall lane :: lane in last.lanes ==> last.lanes[lane] == id
  {
    hide PlannedCall, Reachable;
    var s1 := st.(tasks := st.tasks[id := st.tasks[id].(phase := Queued)]);
    assert Step(cat, st, Look(id)) == s1;
    ReachStep(cat, st, Look(id));
    ReachStep(cat, s1, Enter(id));
    last := EnterLane(s1, id);
    assert last == Step(cat, s1, Enter(id));
  }

  lemma PlannedIsOrdinary(cat: Catalog, tool: Tool)
    ensures PlannedCall(cat, tool).revision.None?
  {
  }

  lemma SteadyCloses(led: Ledger, led1: Ledger, done: set<string>, name: string, id: TaskId)
    requires Steady(led, done, {name}) && name !in done && led.events[name] == id
    requires forall key :: key in done ==> led.events[key] != id
    requires led1.results == led.results[name := 0] && led1.failures == led.failures - {name}
    requires led1.events == led.events && led1.fired == led.fired + {id}
    ensures Steady(led1, done + {name}, {})
  {
  }

  /** The target returns a value, and its key's event is set. */
  lemma FinishOne(cat: Catalog, st: State, id: TaskId, tool: Tool, done: set<string>) returns (last: State)
    requires Reachable(cat, st) && Steady(st.ledger, done, {tool.name}) && tool.name !in done && st.lanes == map[]
    requires id in st.tasks && Planned(cat, st.tasks[id], tool)
    requires st.tasks[id].phase == Resolving(|tool.dependencies|, false)
    requires st.tasks[id].owns && st.tasks[id].event == Some(id) && st.ledger.events[tool.name] == id
    requires id !in st.ledger.fired
    ensures Reachable(cat, last) && Steady(last.ledger, done + {tool.name}, {}) && last.lanes == map[]
    ensures last.ledger.reserved == st.ledger.reserved && last.ledger.fired == st.ledger.fired + {id}
    ensures id in last.tasks && last.tasks[id].phase.Finished? && last.tasks == st.tasks[id := last.tasks[id]]
  {
    hide PlannedCall, Reachable, Conclude;
    PlannedIsOrdinary(cat, tool);
    var running := ReachTarget(cat, st, id, tool);
    ReachStep(cat, running, Return(id, Raw.Value(0), None));
    last := Conclude(running, id, Raw.Value(0), None);
    FinishedTables(running, id);
    SteadyCloses(st.ledger, last.ledger, done, tool.name, id);
  }

  lemma FinishedTables(st: State, id: TaskId)
    requires id in st.tasks && st.tasks[id].Ordinary() && st.tasks[id].owns && st.tasks[id].event == Some(id)
    requires st.tasks[id].branch.None?
    ensures var st1, key := Conclude(st, id, Raw.Value(0), None), st.tasks[id].tool.name;
      && st1.ledger.results == st.ledger.results[key := 0] && st1.ledger.failures == st.ledger.failures - {key}
      && st1.ledger.events == st.ledger.events && st1.ledger.fired == st.ledger.fired + {id}
      && st1.ledger.reserved == st.ledger.reserved
      && st1.lanes == LanesWithout(st.lanes, id)
      && st1.tasks == st.tasks[id := st.tasks[id].(phase := Finished(Ok(0)))]
  {
  }

  /** One tool more is let finish. */
  lemma FeedOne(cat: Catalog, how: Reading, st: State, fs: seq<Tool>, tool: Tool) returns (last: State)
    requires Reachable(cat, st) && AllDone(st, fs) && Callable(cat, tool) && tool.name !in Names(fs)
    requires Within(how, Names(fs) + {tool.name})
    requires PassesAll(cat, how, ToSet(fs), tool)
    ensures Reachable(cat, last) && AllDone(last, fs + [tool])
  {
    hide Reachable, Planned, PlannedCall, Callable, Passes, Names, Step, Enabled;
    var id := |fs|;
    var open := {tool.name};
    ArriveOne(cat, st, id, tool, Names(fs), {});
    assert {} + open == open;
    ReachStep(cat, st, Arrive(id, PlannedCall(cat, tool), None));
    var arrived := Step(cat, st, Arrive(id, PlannedCall(cat, tool), None));
    var asked := AskThrough(cat, arrived, id, tool);
    var passed := PassUpTo(cat, how, asked, id, tool, fs, open, 0, |tool.dependencies|);
    last := FinishOne(cat, passed, id, tool, Names(fs));
    NamesAppend(fs, tool);
  }

  /** All tools of an order are let finish. */
  lemma {:induction false} FeedAll(cat: Catalog, how: Reading, fs: seq<Tool>) returns (st: State)
    requires how.Among? && FeedOrder(cat, how, fs)
    ensures Reachable(cat, st) && AllDone(st, fs)
  {
    if |fs| == 0 {
      StartReachable(cat);
      st := EMPTY;
      assert Names(fs) == {};
    } else {
      var front, tool := fs[..|fs| - 1], fs[|fs| - 1];
      OrderIsCallable(cat, how, front);
      FreshName(cat, front, tool);
      NamesWithin(cat, how, front);
      assert front + [tool] == fs;
      hide Reachable, AllDone, PassesAll, Callable, Names;
      var before := FeedAll(cat, how, front);
      st := FeedOne(cat, how, before, front, tool);
    }
  }

  // ---------------------------------------------------------------- leaving tools waiting

  /** A call for each of the first `n` tools has arrived beside the finished ones. */
  ghost predicate Gathered(cat: Catalog, st: State, fs: seq<Tool>, ts: seq<Tool>, n: nat)
    requires n <= |ts|
  {
    && Steady(st.ledger, Names(fs), Names(ts[..n])) && (forall e :: e in st.ledger.fired ==> e < |fs|)
    && (forall id: TaskId :: id in st.tasks ==> id < |fs| + n && (id < |fs| ==> st.tasks[id].phase.Finished?))
    && (forall id: TaskId :: |fs| <= id < |fs| + n ==>
          id in st.tasks && Planned(cat, st.tasks[id], ts[id - |fs|]) && st.tasks[id].phase == Asking(0))
  }

  lemma OneMoreGathered(cat: Catalog, st: State, st1: State, fs: seq<Tool>, ts: seq<Tool>, n: nat)
    requires n < |ts| && Gathered(cat, st, fs, ts, n)
    requires var id := |fs| + n;
      && Steady(st1.ledger, Names(fs), Names(ts[..n]) + {ts[n].name}) && st1.ledger.fired == st.ledger.fired
      && id in st1.tasks && st1.tasks == st.tasks[id := st1.tasks[id]]
      && Planned(cat, st1.tasks[id], ts[n]) && st1.tasks[id].phase == Asking(0)
    ensures Gathered(cat, st1, fs, ts, n + 1)
  {
    hide Planned, Names;
    assert ts[..n + 1] == ts[..n] + [ts[n]];
    NamesAppend(ts[..n], ts[n]);
  }

  lemma {:induction false} GatherAll(cat: Catalog, st: State, fs: seq<Tool>, ts: seq<Tool>, n: nat)
    returns (last: State)
    requires Reachable(cat, st) && n <= |ts| && Gathered(cat, st, fs, ts, n)
    requires forall t :: t in ts ==> Callable(cat, t) && t.name !in Names(fs)
    ensures Reachable(cat, last) && Gathered(cat, last, fs, ts, |ts|)
    decreases |ts| - n
  {
    hide Reachable, Planned, PlannedCall, Callable, Names, Step, Enabled;
    if n == |ts| {
      last := st;
    } else {
      var id, tool := |fs| + n, ts[n];
      ArriveOne(cat, st, id, tool, Names(fs), Names(ts[..n]));
      ReachStep(cat, st, Arrive(id, PlannedCall(cat, tool), None));
      var next := Step(cat, st, Arrive(id, PlannedCall(cat, tool), None));
      OneMoreGathered(cat, st, next, fs, ts, n);
      last := GatherAll(cat, next, fs, ts, n + 1);
    }
  }

  /** What a waiting tool surely reads behind what passes is an unset event. */
  lemma SureRead(cat: Catalog, how: Reading, fs: seq<Tool>, ts: seq<Tool>, u: Tool, d: Dependency, led: Ledger)
    requires Steady(led, Names(fs), Names(ts)) && Within(how, Names(fs) + Names(ts))
    requires u in ts && u.name !in Names(fs) && Reads(cat, how, u, d)
    ensures ResultKey(led, d) == Some(u.name) && led.events[u.name] !in led.fired
  {
    assert u.name in Names(ts);
    ReadsEvent(led, d, Names(fs), Names(ts));
  }

  lemma WaitOne(cat: Catalog, how: Reading, st: State, id: TaskId, tool: Tool, fs: seq<Tool>, ts: seq<Tool>)
    returns (last: State)
    requires Reachable(cat, st) && Steady(st.ledger, Names(fs), Names(ts)) && Within(how, Names(fs) + Names(ts))
    requires id in st.tasks && Planned(cat, st.tasks[id], tool) && st.tasks[id].phase == Asking(0)
    requires Callable(cat, tool) && ComesToWait(cat, how, fs, ToSet(ts), tool)
    requires forall t :: t in ts ==> t.name !in Names(fs)
    ensures Reachable(cat, last) && MovedOnly(st, last, id) && WaitsUnset(last, id) && last.tasks[id].tool == tool
  {
    var p: nat :| p < |tool.dependencies| && PassesTo(cat, how, ToSet(fs), tool, p)
      && exists u :: u in ToSet(ts) && Reads(cat, how, u, tool.dependencies[p]);
    var u :| u in ToSet(ts) && Reads(cat, how, u, tool.dependencies[p]);
    hide Reachable, PlannedCall, Callable, Names, Step, Enabled, ComesToWait, Reads, Steady, ResultKey, Within,
      PassesTo;
    var asked := AskThrough(cat, st, id, tool);
    var passed := PassUpTo(cat, how, asked, id, tool, fs, Names(ts), 0, p);
    MovedTwice(st, asked, passed, id);
    if WaitsUnset(passed, id) {
      last := passed;
    } else {
      SureRead(cat, how, fs, ts, u, tool.dependencies[p], passed.ledger);
      LookOnce(cat, passed, id, tool, Names(fs), Names(ts));
      ReachStep(cat, passed, Look(id));
      last := Step(cat, passed, Look(id));
      MovedTwice(st, passed, last, id);
    }
  }

  /** The first `m` of the gathered calls have come to wait. */
  ghost predicate Settling(cat: Catalog, st: State, fs: seq<Tool>, ts: seq<Tool>, m: nat) {
    && Steady(st.ledger, Names(fs), Names(ts))
    && (forall id: TaskId :: id in st.tasks ==> id < |fs| + |ts| && (id < |fs| ==> st.tasks[id].phase.Finished?))
    && (forall id: TaskId :: |fs| <= id < |fs| + |ts| ==> id in st.tasks && st.tasks[id].tool == ts[id - |fs|])
    && (forall id: TaskId :: |fs| <= id < |fs| + m && id < |fs| + |ts| ==> WaitsUnset(st, id))
    && (forall id: TaskId :: |fs| + m <= id < |fs| + |ts| ==>
          id in st.tasks && Planned(cat, st.tasks[id], ts[id - |fs|]) && st.tasks[id].phase == Asking(0))
  }

  lemma OneMoreSettles(cat: Catalog, st: State, last: State, fs: seq<Tool>, ts: seq<Tool>, m: nat)
    requires m < |ts| && Settling(cat, st, fs, ts, m)
    requires MovedOnly(st, last, |fs| + m) && WaitsUnset(last, |fs| + m) && last.tasks[|fs| + m].tool == ts[m]
    ensures Settling(cat, last, fs, ts, m + 1)
  {
    hide Planned, Names, Steady;
    assert last.ledger == st.ledger;
    forall id: TaskId | |fs| <= id < |fs| + m
      ensures WaitsUnset(last, id)
    {
      assert WaitsUnset(st, id);
    }
  }

  lemma {:induction false} SettleAll(cat: Catalog, how: Reading, st: State, fs: seq<Tool>, ts: seq<Tool>, m: nat)
    returns (last: State)
    requires Reachable(cat, st) && m <= |ts| && Settling(cat, st, fs, ts, m) && Within(how, Names(fs) + Names(ts))
    requires forall t :: t in ts ==> Callable(cat, t) && t.name !in Names(fs) && ComesToWait(cat, how, fs, ToSet(ts), t)
    ensures Reachable(cat, last) && Settling(cat, last, fs, ts, |ts|)
    decreases |ts| - m
  {
    hide Reachable, Planned, Callable, Names, ComesToWait, Within, WaitsUnset;
    if m == |ts| {
      last := st;
    } else {
      var next := WaitOne(cat, how, st, |fs| + m, ts[m], fs, ts);
      OneMoreSettles(cat, st, next, fs, ts, m);
      last := SettleAll(cat, how, next, fs, ts, m + 1);
    }
  }

  lemma GatheredSettles(cat: Catalog, st: State, fs: seq<Tool>, ts: seq<Tool>)
    requires Gathered(cat, st, fs, ts, |ts|)
    ensures Settling(cat, st, fs, ts, 0)
  {
    hide Names, PlannedCall;
    assert ts[..|ts|] == ts;
  }

  lemma DoneGathers(cat: Catalog, st: State, fs: seq<Tool>, ts: seq<Tool>)
    requires AllDone(st, fs)
    ensures Gathered(cat, st, fs, ts, 0)
  {
    assert Names(ts[..0]) == {};
  }

  lemma SettledWaits(cat: Catalog, st: State, fs: seq<Tool>, ts: seq<Tool>)
    requires Settling(cat, st, fs, ts, |ts|)
    ensures AllWait(st)
    ensures forall id: TaskId :: |fs| <= id < |fs| + |ts| ==> InFlight(st, id) && st.tasks[id].tool == ts[id - |fs|]
  {
    hide Names, Steady, Planned;
    forall id: TaskId | InFlight(st, id)
      ensures WaitsUnset(st, id)
    {
      assert |fs| <= id < |fs| + |ts|;
    }
    forall id: TaskId | |fs| <= id < |fs| + |ts|
      ensures InFlight(st, id)
    {
      assert WaitsUnset(st, id);
    }
  }

  lemma {:induction false} Enumerated<T>(s: set<T>) returns (items: seq<T>)
    ensures ToSet(items) == s
  {
    if s == {} {
      items := [];
    } else {
      var x :| x in s;
      var rest := Enumerated(s - {x});
      items := [x] + rest;
      forall y
        ensures y in items <==> y in s
      {
        assert y in rest <==> y in ToSet(rest);
      }
    }
  }

  lemma NamesWithin(cat: Catalog, how: Reading, ks: seq<Tool>)
    requires how.Among? && forall k :: k in ks ==> MayCall(cat, how, k)
    ensures Within(how, Names(ks))
  {
  }

  /** A plan can be carried out: in the end a call of each of its tools waits for ever. */
  lemma PlanHangs(cat: Catalog, how: Reading, fs: seq<Tool>, ts: seq<Tool>) returns (st: State)
    requires how.Among? && Plan(cat, how, fs, ToSet(ts))
    ensures Reachable(cat, st) && !CanProgress(st)
    ensures forall id: TaskId :: |fs| <= id < |fs| + |ts| ==> InFlight(st, id) && st.tasks[id].tool == ts[id - |fs|]
  {
    OrderIsCallable(cat, how, fs);
    forall t | t in ts
      ensures MayCall(cat, how, t) && t.name !in Names(fs) && ComesToWait(cat, how, fs, ToSet(ts), t)
    {
      assert t in ToSet(ts);
      FreshName(cat, fs, t);
    }
    NamesWithin(cat, how, fs);
    NamesWithin(cat, how, ts);
    hide Reachable, CanProgress, AllDone, Gathered, Settling, Callable, Names, ComesToWait, Within, AllWait, FeedOrder;
    var done := FeedAll(cat, how, fs);
    DoneGathers(cat, done, fs, ts);
    var gathered := GatherAll(cat, done, fs, ts, 0);
    GatheredSettles(cat, gathered, fs, ts);
    st := SettleAll(cat, how, gathered, fs, ts, 0);
    SettledWaits(cat, st, fs, ts);
    StuckIffAllWait(cat, st);
  }

  /** Choose which tools are called at all: any cycle in which each tool comes to wait for the next has a
      run after which a call of each is in flight for ever. */
  lemma CycleHangs(cat: Catalog, how: Reading, tools: seq<Tool>) returns (st: State)
    requires how.Among? && FedCycle(cat, how, tools)
    ensures Reachable(cat, st) && !CanProgress(st)
    ensures forall t :: t in tools ==> exists id: TaskId :: InFlight(st, id) && st.tasks[id].tool == t
    ensures CanHang(cat)
  {
    hide Reachable, CanProgress, Plan, FedCycle;
    CycleIsNotEmpty(cat, how, tools);
    var fs, ts := CyclePlan(cat, how, tools);
    var items := Enumerated(ts);
    st := PlanHangs(cat, how, fs, items);
    forall t | t in tools
      ensures t in items
    {
      assert t in ToSet(items);
    }
    EachInFlight(st, |fs|, items, tools);
    assert tools[0] in tools;
  }

  lemma EachInFlight(st: State, base: nat, items: seq<Tool>, tools: seq<Tool>)
    requires forall id: TaskId ::
      base <= id < base + |items| ==> InFlight(st, id) && st.tasks[id].tool == items[id - base]
    requires forall t :: t in tools ==> t in items
    ensures forall t :: t in tools ==> exists id: TaskId :: InFlight(st, id) && st.tasks[id].tool == t
  {
    forall t | t in tools
      ensures exists id: TaskId :: InFlight(st, id) && st.tasks[id].tool == t
    {
      var i: nat :| i < |items| && items[i] == t;
      assert InFlight(st, base + i);
    }
  }

  /** Some run hangs if and only if tools can come to wait for one another in a cycle, every dependency
      ahead of the one waited for being bound to an earlier turn's result or fed by a tool that can return.
      Where a declared id and name are the names of two callable tools, which of them a lookup reads depends
      on the calls made by then, and the condition splits: a cycle among chosen calls is enough, and one in
      which either of the two may be read is needed. */
  lemma HangsIffCycle(cat: Catalog)
    ensures (exists called, tools :: FedCycle(cat, Among(called), tools)) ==> CanHang(cat)
    ensures CanHang(cat) ==> exists tools :: FedCycle(cat, Possibly, tools)
    ensures Unambiguous(cat) ==> (CanHang(cat) <==> exists tools :: FedCycle(cat, AnyCall(cat), tools))
  {
    hide CanHang, FedCycle, Unambiguous;
    if CanHang(cat) {
      HangHasCycle(cat);
      var tools :| FedCycle(cat, Possibly, tools);
      if Unambiguous(cat) {
        CyclesAgree(cat, tools);
      }
    }
    if called, tools :| FedCycle(cat, Among(called), tools) {
      var st := CycleHangs(cat, Among(called), tools);
    }
    if tools :| FedCycle(cat, AnyCall(cat), tools) {
      var st := CycleHangs(cat, AnyCall(cat), tools);
    }
  }

  // ---------------------------------------------------------------- what stands ahead decides

  function Edge(argName: string, name: string, conversation: bool): Dependency {
    Dependency(argName, name, name, false, conversation)
  }

  function Local(name: string, dependencies: seq<Dependency>): Tool {
    Tool(name, dependencies, [], false, false, None)
  }

  /** `a` needs an unregistered `x` and then `b`, which needs `a`. */
  function BlockedCycle(thread: Option<string>): Catalog {
    Catalog([Local("a", [Edge("x", "x", true), Edge("b", "b", false)]), Local("b", [Edge("a", "a", false)])], false,
      thread)
  }

  /** The cycle hangs if and only if there is a conversation in which `x` can be bound to an earlier result:
      else `a` fails at `x`, which wakes `b`. */
  lemma BlockedCycleHangsIff(thread: Option<string>)
    ensures CanHang(BlockedCycle(thread)) <==> thread.Some?
  {
    hide CanHang;
    var cat := BlockedCycle(thread);
    var a, b := cat.tools[0], cat.tools[1];
    if thread.Some? {
      var called := {"a", "b"};
      BlockedLeads(thread, called);
      var st := CycleHangs(cat, Among(called), [a, b]);
    } else if CanHang(cat) {
      HangHasCycle(cat);
      var tools :| FedCycle(cat, Possibly, tools);
      var next := if |tools| == 1 then 0 else 1;
      assert Leads(cat, Possibly, tools[0], tools[next]) && Leads(cat, Possibly, tools[next], Following(tools, next));
      BlockedLeadsNowhere(tools[0], tools[next]);
      BlockedLeadsNowhere(tools[next], Following(tools, next));
    }
  }

  lemma BlockedLeads(thread: Option<string>, called: set<string>)
    requires thread.Some? && called == {"a", "b"}
    ensures var cat := BlockedCycle(thread); FedCycle(cat, Among(called), cat.tools)
  {
    var cat, how := BlockedCycle(thread), Among(called);
    var a, b := cat.tools[0], cat.tools[1];
    assert MayCall(cat, how, a) && MayCall(cat, how, b);
    assert DeclarationOf(a.dependencies[..1], "x") == Some(a.dependencies[0]);
    assert Retainable(cat, a, a.dependencies[0]);
    assert Reads(cat, how, b, a.dependencies[1]) && PassesTo(cat, how, AllFed(cat, how), a, 1);
    assert Reads(cat, how, a, b.dependencies[0]) && PassesTo(cat, how, AllFed(cat, how), b, 0);
    assert Leads(cat, how, a, b) && Leads(cat, how, b, a);
  }

  /** Without a conversation `a` comes to wait for nothing, and `b` for nothing but `a`. */
  lemma BlockedLeadsNowhere(t: Tool, u: Tool)
    ensures var cat := BlockedCycle(None);
      Leads(cat, Possibly, t, u) ==> t == cat.tools[1] && u == cat.tools[0]
  {
    var cat := BlockedCycle(None);
    if Leads(cat, Possibly, t, u) {
      var j: nat :| j < |t.dependencies| && Reads(cat, Possibly, u, t.dependencies[j])
          && PassesTo(cat, Possibly, AllFed(cat, Possibly), t, j);
      hide AllFed;
      NobodyReadsX(u);
      if t == cat.tools[0] && j > 0 {
        assert Passes(cat, Possibly, AllFed(cat, Possibly), t, t.dependencies[0]);
        var feeder :| feeder in AllFed(cat, Possibly) && Reads(cat, Possibly, feeder, t.dependencies[0]);
        NobodyReadsX(feeder);
      }
    }
  }

  lemma NobodyReadsX(feeder: Tool)
    ensures var cat := BlockedCycle(None);
      !Reads(cat, Possibly, feeder, cat.tools[0].dependencies[0])
  {
  }
}
