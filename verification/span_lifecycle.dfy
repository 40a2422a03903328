/** The OpenTelemetry adapter: one span per run and per tool call, each started once and ended once. */
module SpanLifecycle {
  import opened Options

  /** Spans are numbered in the order the tracer starts them. */
  type SpanId = nat

  datatype RunState = RunState(span: SpanId, completedTools: seq<string>)

  datatype ToolKey = ToolKey(run: string, tool: string)

  /** The adapter's tables, and what it has asked of the tracer: how many spans it started, the run
      span each tool span was started under, and the spans it ended, in order. */
  datatype Adapter = Adapter(
    runs: map<string, RunState>,
    tools: map<ToolKey, SpanId>,
    completedRuns: seq<string>,
    started: nat,
    parent: map<SpanId, SpanId>,
    ends: seq<SpanId>)

  const FRESH := Adapter(map[], map[], [], 0, map[], [])

  const LIMIT: nat := 1024

  /** What decides spans in an event: its run, its tool call if any, and what it finishes. */
  datatype Event = Event(run: Option<string>, tool: Option<string>, finishesTool: bool, finishesRun: bool)

  // ---------------------------------------------------------------- steps

  /** `_remember_recent` on an insertion-ordered dict. */
  function Remember(kept: seq<string>, key: string): seq<string> {
    var longer := if key in kept then kept else kept + [key];
    if |longer| > LIMIT then longer[1..] else longer
  }

  function EnsureRun(a: Adapter, run: string): Adapter {
    if run in a.runs then a
    else a.(runs := a.runs[run := RunState(a.started, [])], started := a.started + 1)
  }

  function StartTool(a: Adapter, key: ToolKey): Adapter
    requires key.run in a.runs
  {
    a.(tools := a.tools[key := a.started], started := a.started + 1,
      parent := a.parent[a.started := a.runs[key.run].span])
  }

  function EndTool(a: Adapter, key: ToolKey): Adapter {
    if key !in a.tools then a
    else
      var ended := a.(tools := a.tools - {key}, ends := a.ends + [a.tools[key]]);
      if key.run !in a.runs then ended
      else
        var run := a.runs[key.run];
        ended.(runs := a.runs[key.run := run.(completedTools := Remember(run.completedTools, key.tool))])
  }

  function EndTools(a: Adapter, keys: seq<ToolKey>): Adapter
    decreases |keys|
  {
    if |keys| == 0 then a else EndTools(EndTool(a, keys[0]), keys[1..])
  }

  function ApplyTool(a: Adapter, key: ToolKey, finishes: bool): Adapter
    requires key.run in a.runs
  {
    if key.tool in a.runs[key.run].completedTools then a
    else
      var begun := if key in a.tools then a else StartTool(a, key);
      if finishes then EndTool(begun, key) else begun
  }

  function CloseRun(a: Adapter, run: string): Adapter {
    if run !in a.runs then a
    else a.(runs := a.runs - {run}, ends := a.ends + [a.runs[run].span],
      completedRuns := Remember(a.completedRuns, run))
  }

  function CloseRuns(a: Adapter, runs: seq<string>): Adapter
    decreases |runs|
  {
    if |runs| == 0 then a else CloseRuns(CloseRun(a, runs[0]), runs[1..])
  }

  /** `keys` are the open tools of the run, in the table's order. */
  ghost predicate ListsToolsOf(a: Adapter, run: string, keys: seq<ToolKey>) {
    forall key :: key in keys <==> key in a.tools && key.run == run
  }

  ghost predicate ListsTools(a: Adapter, keys: seq<ToolKey>) {
    forall key :: key in keys <==> key in a.tools
  }

  ghost predicate ListsRuns(a: Adapter, runs: seq<string>) {
    forall run :: run in runs <==> run in a.runs
  }

  // ---------------------------------------------------------------- what every step keeps

  function RunSpans(runs: map<string, RunState>): set<SpanId> {
    set run | run in runs :: runs[run].span
  }

  function ToolSpans(tools: map<ToolKey, SpanId>): set<SpanId> {
    set key | key in tools :: tools[key]
  }

  function OpenSpans(a: Adapter): set<SpanId> {
    RunSpans(a.runs) + ToolSpans(a.tools)
  }

  predicate NoRepeats<T(==)>(kept: seq<T>) {
    forall i, j :: 0 <= i < j < |kept| ==> kept[i] != kept[j]
  }

  /** Started spans are the open and the ended ones; nothing is open and ended, or ended twice. */
  ghost predicate Balance(open: set<SpanId>, started: nat, ends: seq<SpanId>, count: nat) {
    && (forall span: nat :: span < started <==> span in open || span in ends)
    && (forall span :: span in open ==> span !in ends)
    && NoRepeats(ends)
    && started == |ends| + count
  }

  ghost predicate Balanced(a: Adapter) {
    Balance(OpenSpans(a), a.started, a.ends, |a.runs| + |a.tools|)
  }

  /** No span is open in two places. */
  ghost predicate OneHolder(runs: map<string, RunState>, tools: map<ToolKey, SpanId>) {
    && (forall r, r1 :: r in runs && r1 in runs && runs[r].span == runs[r1].span ==> r == r1)
    && (forall k, k1 :: k in tools && k1 in tools && tools[k] == tools[k1] ==> k == k1)
    && (forall r, k :: r in runs && k in tools ==> runs[r].span != tools[k])
  }

  /** Every open tool span was started under the span of a run that is still open. */
  ghost predicate ToolsUnderRuns(a: Adapter) {
    forall key :: key in a.tools ==>
      key.run in a.runs && a.tools[key] in a.parent && a.parent[a.tools[key]] == a.runs[key.run].span
  }

  /** Run spans are nobody's children, so no tool span is a parent. */
  ghost predicate RunsAreRoots(a: Adapter) {
    && (forall run :: run in a.runs ==> a.runs[run].span !in a.parent)
    && (forall tool :: tool in a.parent ==> a.parent[tool] !in a.parent)
  }

  /** A run's span ends only after every tool span started under it. */
  ghost predicate EndFirst(parent: map<SpanId, SpanId>, started: nat, tools: set<SpanId>, ends: seq<SpanId>) {
    && (forall tool :: tool in parent ==> tool < started && parent[tool] < started && (tool in tools || tool in ends))
    && (forall tool, j :: tool in parent && 0 <= j < |ends| && ends[j] == parent[tool] ==> tool in ends[..j])
  }

  ghost predicate ToolsEndFirst(a: Adapter) {
    EndFirst(a.parent, a.started, ToolSpans(a.tools), a.ends)
  }

  /** Both tables stay within their limit, and nothing remembered as completed is open. */
  ghost predicate Retained(a: Adapter) {
    && |a.completedRuns| <= LIMIT && NoRepeats(a.completedRuns)
    && (forall run :: run in a.runs ==>
          run !in a.completedRuns && |a.runs[run].completedTools| <= LIMIT && NoRepeats(a.runs[run].completedTools))
    && (forall key :: key in a.tools && key.run in a.runs ==> key.tool !in a.runs[key.run].completedTools)
  }

  ghost predicate Sound(a: Adapter) {
    Balanced(a) && OneHolder(a.runs, a.tools) && ToolsUnderRuns(a) && RunsAreRoots(a) && ToolsEndFirst(a) && Retained(a)
  }

  lemma RememberKeeps(kept: seq<string>, key: string)
    requires |kept| <= LIMIT && NoRepeats(kept)
    ensures |Remember(kept, key)| <= LIMIT && NoRepeats(Remember(kept, key))
    ensures forall other :: other in Remember(kept, key) ==> other in kept || other == key
  {
  }

  // ---------------------------------------------------------------- one span at a time

  lemma BalanceStarts(open: set<SpanId>, started: nat, ends: seq<SpanId>, count: nat)
    requires Balance(open, started, ends, count)
    ensures Balance(open + {started}, started + 1, ends, count + 1) && started !in open && started !in ends
  {
  }

  lemma BalanceEnds(open: set<SpanId>, started: nat, ends: seq<SpanId>, count: nat, span: SpanId)
    requires Balance(open, started, ends, count) && span in open && count > 0
    ensures Balance(open - {span}, started, ends + [span], count - 1)
  {
  }

  lemma RunPut(runs: map<string, RunState>, tools: map<ToolKey, SpanId>, run: string, state: RunState)
    requires OneHolder(runs, tools) && (run in runs ==> runs[run].span == state.span)
    requires run !in runs ==> state.span !in RunSpans(runs) && state.span !in ToolSpans(tools)
    ensures OneHolder(runs[run := state], tools) && RunSpans(runs[run := state]) == RunSpans(runs) + {state.span}
    ensures |runs[run := state]| == if run in runs then |runs| else |runs| + 1
  {
    RunPutSpans(runs, run, state);
    RunPutHolder(runs, tools, run, state);
    assert runs[run := state].Keys == runs.Keys + {run};
    hide OneHolder, RunSpans, ToolSpans;
  }

  lemma RunPutHolder(runs: map<string, RunState>, tools: map<ToolKey, SpanId>, run: string, state: RunState)
    requires OneHolder(runs, tools) && (run in runs ==> runs[run].span == state.span)
    requires run !in runs ==> state.span !in RunSpans(runs) && state.span !in ToolSpans(tools)
    ensures OneHolder(runs[run := state], tools)
  {
    if run !in runs {
      assert forall r :: r in runs ==> runs[r].span in RunSpans(runs);
      assert forall k :: k in tools ==> tools[k] in ToolSpans(tools);
      assert forall r :: r in runs ==> runs[r].span != state.span;
      assert forall k :: k in tools ==> tools[k] != state.span;
    }
    hide RunSpans, ToolSpans;
  }

  lemma RunPutSpans(runs: map<string, RunState>, run: string, state: RunState)
    requires run in runs ==> runs[run].span == state.span
    ensures RunSpans(runs[run := state]) == RunSpans(runs) + {state.span}
  {
    var runs1 := runs[run := state];
    forall span
      ensures span in RunSpans(runs1) <==> span in RunSpans(runs) || span == state.span
    {
      assert runs1[run].span in RunSpans(runs1);
      if span in RunSpans(runs) {
        var r :| r in runs && runs[r].span == span;
        assert runs1[r].span == span;
      }
    }
  }

  lemma RunDropped(runs: map<string, RunState>, tools: map<ToolKey, SpanId>, run: string)
    requires OneHolder(runs, tools) && run in runs
    ensures OneHolder(runs - {run}, tools) && RunSpans(runs - {run}) == RunSpans(runs) - {runs[run].span}
    ensures |runs - {run}| == |runs| - 1
  {
    var runs1 := runs - {run};
    assert runs.Keys == runs1.Keys + {run};
    forall span
      ensures span in RunSpans(runs1) <==> span in RunSpans(runs) && span != runs[run].span
    {
      if span in RunSpans(runs) && span != runs[run].span {
        var r :| r in runs && runs[r].span == span;
        assert r in runs1;
      }
    }
  }

  lemma ToolPut(runs: map<string, RunState>, tools: map<ToolKey, SpanId>, key: ToolKey, span: SpanId)
    requires OneHolder(runs, tools) && key !in tools && span !in RunSpans(runs) && span !in ToolSpans(tools)
    ensures OneHolder(runs, tools[key := span]) && ToolSpans(tools[key := span]) == ToolSpans(tools) + {span}
    ensures |tools[key := span]| == |tools| + 1
  {
    ToolPutSpans(tools, key, span);
    ToolPutHolder(runs, tools, key, span);
    assert tools[key := span].Keys == tools.Keys + {key};
    hide OneHolder, RunSpans, ToolSpans;
  }

  lemma ToolPutHolder(runs: map<string, RunState>, tools: map<ToolKey, SpanId>, key: ToolKey, span: SpanId)
    requires OneHolder(runs, tools) && key !in tools && span !in RunSpans(runs) && span !in ToolSpans(tools)
    ensures OneHolder(runs, tools[key := span])
  {
    assert forall r :: r in runs ==> runs[r].span in RunSpans(runs);
    assert forall k :: k in tools ==> tools[k] in ToolSpans(tools);
    assert forall r :: r in runs ==> runs[r].span != span;
    assert forall k :: k in tools ==> tools[k] != span;
    hide RunSpans, ToolSpans;
  }

  lemma ToolPutSpans(tools: map<ToolKey, SpanId>, key: ToolKey, span: SpanId)
    requires key !in tools
    ensures ToolSpans(tools[key := span]) == ToolSpans(tools) + {span}
  {
    var tools1 := tools[key := span];
    forall other
      ensures other in ToolSpans(tools1) <==> other in ToolSpans(tools) || other == span
    {
      assert tools1[key] in ToolSpans(tools1);
      if other in ToolSpans(tools) {
        var k :| k in tools && tools[k] == other;
        assert tools1[k] == other;
      }
    }
  }

  lemma ToolDropped(runs: map<string, RunState>, tools: map<ToolKey, SpanId>, key: ToolKey)
    requires OneHolder(runs, tools) && key in tools
    ensures OneHolder(runs, tools - {key}) && ToolSpans(tools - {key}) == ToolSpans(tools) - {tools[key]}
    ensures |tools - {key}| == |tools| - 1
  {
    var tools1 := tools - {key};
    assert tools.Keys == tools1.Keys + {key};
    forall span
      ensures span in ToolSpans(tools1) <==> span in ToolSpans(tools) && span != tools[key]
    {
      if span in ToolSpans(tools) && span != tools[key] {
        var k :| k in tools && tools[k] == span;
        assert k in tools1;
      }
    }
  }

  /** An open run's span and an open tool's span are different spans. */
  lemma Apart(a: Adapter, run: string)
    requires OneHolder(a.runs, a.tools) && run in a.runs
    ensures a.runs[run].span in RunSpans(a.runs) && a.runs[run].span !in ToolSpans(a.tools)
  {
  }

  // ---------------------------------------------------------------- one step at a time

  lemma SoundParts(a: Adapter)
    requires Balanced(a) && OneHolder(a.runs, a.tools) && ToolsUnderRuns(a) && RunsAreRoots(a) && ToolsEndFirst(a)
    requires Retained(a)
    ensures Sound(a)
  {
  }

  /** A run that is not completed has an open span afterwards: the one it had, or else a root span that
      was never used before; every other run and tool keeps its own. */
  lemma EnsureRunKeeps(a: Adapter, run: string)
    requires Sound(a) && run !in a.completedRuns
    ensures Sound(EnsureRun(a, run)) && run in EnsureRun(a, run).runs
    ensures run in a.runs ==> EnsureRun(a, run).runs[run] == a.runs[run] && EnsureRun(a, run).started == a.started
    ensures run !in a.runs ==>
      EnsureRun(a, run).runs[run].span !in OpenSpans(a) && EnsureRun(a, run).runs[run].span !in a.ends
    ensures EnsureRun(a, run).tools == a.tools && EnsureRun(a, run).runs - {run} == a.runs - {run}
  {
    if run !in a.runs {
      NextSpanIsFresh(a);
      EnsuredBalance(a, run);
      EnsuredUnder(a, run);
      EnsuredRetained(a, run);
      EnsuredOthers(a, run);
      hide *;
      SoundParts(EnsureRun(a, run));
    }
  }

  lemma NextSpanIsFresh(a: Adapter)
    requires Balanced(a)
    ensures a.started !in OpenSpans(a) && a.started !in a.ends
  {
  }

  lemma EnsuredOthers(a: Adapter, run: string)
    requires run !in a.runs
    ensures run in EnsureRun(a, run).runs && EnsureRun(a, run).runs[run].span == a.started
    ensures EnsureRun(a, run).tools == a.tools && EnsureRun(a, run).runs - {run} == a.runs - {run}
  {
  }

  lemma EnsuredUnder(a: Adapter, run: string)
    requires ToolsUnderRuns(a) && RunsAreRoots(a) && ToolsEndFirst(a) && run !in a.runs
    ensures ToolsUnderRuns(EnsureRun(a, run)) && RunsAreRoots(EnsureRun(a, run)) && ToolsEndFirst(EnsureRun(a, run))
  {
    hide ToolSpans;
  }

  lemma EnsuredRetained(a: Adapter, run: string)
    requires Retained(a) && ToolsUnderRuns(a) && run !in a.runs && run !in a.completedRuns
    ensures Retained(EnsureRun(a, run))
  {
    assert NoRepeats<string>([]);
    hide NoRepeats;
  }

  lemma EnsuredBalance(a: Adapter, run: string)
    requires Balanced(a) && OneHolder(a.runs, a.tools) && run !in a.runs
    ensures Balanced(EnsureRun(a, run)) && OneHolder(EnsureRun(a, run).runs, a.tools)
  {
    var a1 := EnsureRun(a, run);
    BalanceStarts(OpenSpans(a), a.started, a.ends, |a.runs| + |a.tools|);
    hide Balance, OneHolder, RunSpans, ToolSpans;
    RunPut(a.runs, a.tools, run, RunState(a.started, []));
    assert OpenSpans(a1) == OpenSpans(a) + {a.started};
  }

  /** A tool that is started gets a span never used before, under its own run's span. */
  lemma StartToolKeeps(a: Adapter, key: ToolKey)
    requires Sound(a) && key.run in a.runs && key !in a.tools && key.tool !in a.runs[key.run].completedTools
    ensures Sound(StartTool(a, key)) && key in StartTool(a, key).tools
    ensures var span := StartTool(a, key).tools[key];
      && span !in OpenSpans(a) && span !in a.ends
      && span in StartTool(a, key).parent && StartTool(a, key).parent[span] == a.runs[key.run].span
      && a.runs[key.run].span !in a.ends
  {
    NextSpanIsFresh(a);
    StartedSpan(a, key);
    RunSpanIsLive(a, key.run);
    StartedBalance(a, key);
    StartedUnder(a, key);
    StartedTools(a, key);
    StartedRetained(a, key);
    hide *;
    SoundParts(StartTool(a, key));
  }

  lemma StartedSpan(a: Adapter, key: ToolKey)
    requires key.run in a.runs
    ensures key in StartTool(a, key).tools && StartTool(a, key).tools[key] == a.started
    ensures a.started in StartTool(a, key).parent && StartTool(a, key).parent[a.started] == a.runs[key.run].span
  {
  }

  lemma StartedUnder(a: Adapter, key: ToolKey)
    requires ToolsUnderRuns(a) && RunsAreRoots(a) && ToolsEndFirst(a) && key.run in a.runs && key !in a.tools
    requires a.runs[key.run].span < a.started && a.started !in RunSpans(a.runs)
    ensures ToolsUnderRuns(StartTool(a, key)) && RunsAreRoots(StartTool(a, key))
  {
    assert forall run :: run in a.runs ==> a.runs[run].span in RunSpans(a.runs);
    hide RunSpans, ToolSpans;
  }

  lemma StartedTools(a: Adapter, key: ToolKey)
    requires ToolsEndFirst(a) && OneHolder(a.runs, a.tools) && key.run in a.runs && key !in a.tools
    requires a.runs[key.run].span < a.started && a.runs[key.run].span !in a.ends
    requires a.started !in RunSpans(a.runs) && a.started !in ToolSpans(a.tools)
    ensures ToolsEndFirst(StartTool(a, key))
  {
    ToolPut(a.runs, a.tools, key, a.started);
    hide RunSpans, ToolSpans, OneHolder;
  }

  lemma StartedRetained(a: Adapter, key: ToolKey)
    requires Retained(a) && key.run in a.runs && key.tool !in a.runs[key.run].completedTools
    ensures Retained(StartTool(a, key))
  {
    hide NoRepeats;
  }

  /** An open run's span has been started and not ended. */
  lemma RunSpanIsLive(a: Adapter, run: string)
    requires Balanced(a) && OneHolder(a.runs, a.tools) && run in a.runs
    ensures a.runs[run].span < a.started && a.runs[run].span !in a.ends
    ensures a.started !in RunSpans(a.runs) && a.started !in ToolSpans(a.tools)
  {
    BalanceStarts(OpenSpans(a), a.started, a.ends, |a.runs| + |a.tools|);
    Apart(a, run);
    assert a.runs[run].span in OpenSpans(a);
    hide RunSpans, ToolSpans, OneHolder;
  }

  lemma StartedBalance(a: Adapter, key: ToolKey)
    requires Balanced(a) && OneHolder(a.runs, a.tools) && key.run in a.runs && key !in a.tools
    ensures Balanced(StartTool(a, key)) && OneHolder(a.runs, StartTool(a, key).tools)
  {
    var a1 := StartTool(a, key);
    BalanceStarts(OpenSpans(a), a.started, a.ends, |a.runs| + |a.tools|);
    hide Balance, OneHolder, RunSpans, ToolSpans;
    ToolPut(a.runs, a.tools, key, a.started);
    assert OpenSpans(a1) == OpenSpans(a) + {a.started};
  }

  lemma EndToolKeeps(a: Adapter, key: ToolKey)
    requires Sound(a)
    ensures Sound(EndTool(a, key)) && EndTool(a, key).tools == a.tools - {key}
    ensures EndTool(a, key).runs.Keys == a.runs.Keys
    ensures EndTool(a, key).completedRuns == a.completedRuns
  {
    EndToolShape(a, key);
    if key in a.tools {
      EndedBalance(a, key);
      EndedTools(a, key);
      EndedRetained(a, key);
      EndedUnder(a, key);
      hide *;
      SoundParts(EndTool(a, key));
    }
  }

  lemma EndToolShape(a: Adapter, key: ToolKey)
    ensures EndTool(a, key).tools == a.tools - {key} && EndTool(a, key).runs.Keys == a.runs.Keys
    ensures EndTool(a, key).completedRuns == a.completedRuns
    ensures key !in a.tools ==> EndTool(a, key) == a
  {
    if key !in a.tools { assert a.tools - {key} == a.tools; }
    hide Remember;
  }

  lemma EndedBalance(a: Adapter, key: ToolKey)
    requires Balanced(a) && OneHolder(a.runs, a.tools) && key in a.tools && key.run in a.runs
    ensures Balanced(EndTool(a, key)) && OneHolder(EndTool(a, key).runs, EndTool(a, key).tools)
  {
    var a1, run, span := EndTool(a, key), a.runs[key.run], a.tools[key];
    var run1 := run.(completedTools := Remember(run.completedTools, key.tool));
    assert a1 == a.(tools := a.tools - {key}, ends := a.ends + [span], runs := a.runs[key.run := run1]);
    assert span in OpenSpans(a);
    hide Balance, OneHolder, Remember, EndTool, OpenSpans;
    EndedOpen(a, key, run1);
    BalanceEnds(OpenSpans(a), a.started, a.ends, |a.runs| + |a.tools|, span);
  }

  /** What is open without the ended tool, its run having a new list. */
  lemma EndedOpen(a: Adapter, key: ToolKey, run1: RunState)
    requires OneHolder(a.runs, a.tools) && key in a.tools && key.run in a.runs && run1.span == a.runs[key.run].span
    ensures var a1 := a.(tools := a.tools - {key}, ends := a.ends + [a.tools[key]], runs := a.runs[key.run := run1]);
      && OneHolder(a1.runs, a1.tools) && OpenSpans(a1) == OpenSpans(a) - {a.tools[key]}
      && |a1.runs| == |a.runs| && |a1.tools| == |a.tools| - 1
  {
    Apart(a, key.run);
    ToolSpanApart(a, key);
    hide OneHolder, RunSpans, ToolSpans;
    ToolDropped(a.runs, a.tools, key);
    RunPut(a.runs, a.tools - {key}, key.run, run1);
  }

  lemma ToolSpanApart(a: Adapter, key: ToolKey)
    requires OneHolder(a.runs, a.tools) && key in a.tools
    ensures a.tools[key] !in RunSpans(a.runs)
  {
  }

  lemma EndedTools(a: Adapter, key: ToolKey)
    requires Sound(a) && key in a.tools
    ensures ToolsEndFirst(EndTool(a, key))
  {
    ToolDropped(a.runs, a.tools, key);
    forall tool | tool in a.parent
      ensures a.parent[tool] != a.tools[key]
    {
      ParentIsNoTool(a, tool, key);
    }
    hide Balanced, OneHolder, ToolSpans, Retained, ToolsUnderRuns, RunsAreRoots, Remember, EndFirst;
    EndFirstAppends(a.parent, a.started, ToolSpans(a.tools), a.ends, a.tools[key]);
  }

  /** A span that ends after all its children, if it has any, keeps the order. */
  lemma EndFirstAppends(parent: map<SpanId, SpanId>, started: nat, tools: set<SpanId>, ends: seq<SpanId>, span: SpanId)
    requires EndFirst(parent, started, tools, ends)
    requires forall tool :: tool in parent && parent[tool] == span ==> tool in ends
    ensures EndFirst(parent, started, tools - {span}, ends + [span])
  {
    var longer := ends + [span];
    assert longer[..|ends|] == ends;
    forall tool, j | tool in parent && 0 <= j < |longer| && longer[j] == parent[tool]
      ensures tool in longer[..j]
    {
      assert longer[..j] == ends[..j];
      if j == |ends| { assert ends[..j] == ends; }
    }
  }

  /** A tool span is never another span's parent. */
  lemma ParentIsNoTool(a: Adapter, tool: SpanId, key: ToolKey)
    requires Sound(a) && tool in a.parent && key in a.tools
    ensures a.parent[tool] != a.tools[key]
  {
  }

  lemma EndedRetained(a: Adapter, key: ToolKey)
    requires Sound(a) && key in a.tools
    ensures Retained(EndTool(a, key))
  {
    RememberKeeps(a.runs[key.run].completedTools, key.tool);
    hide Remember, NoRepeats, Balanced, OneHolder, ToolsEndFirst, RunsAreRoots;
  }

  lemma EndedUnder(a: Adapter, key: ToolKey)
    requires Sound(a) && key in a.tools
    ensures ToolsUnderRuns(EndTool(a, key)) && RunsAreRoots(EndTool(a, key))
  {
    hide Remember, NoRepeats, Balanced, OneHolder, ToolsEndFirst, Retained;
  }

  /** A run with no open tool can be closed. */
  lemma CloseRunKeeps(a: Adapter, run: string)
    requires Sound(a) && forall key :: key in a.tools ==> key.run != run
    ensures Sound(CloseRun(a, run)) && run !in CloseRun(a, run).runs && CloseRun(a, run).tools == a.tools
    ensures CloseRun(a, run).runs == a.runs - {run}
  {
    CloseRunShape(a, run);
    if run in a.runs {
      ClosedBalance(a, run);
      ClosedTools(a, run);
      ClosedRetained(a, run);
      ClosedUnder(a, run);
      hide *;
      SoundParts(CloseRun(a, run));
    }
  }

  lemma CloseRunShape(a: Adapter, run: string)
    ensures run !in CloseRun(a, run).runs && CloseRun(a, run).tools == a.tools
    ensures CloseRun(a, run).runs == a.runs - {run}
    ensures run !in a.runs ==> CloseRun(a, run) == a
  {
    if run !in a.runs { assert a.runs - {run} == a.runs; }
    hide Remember;
  }

  lemma ClosedUnder(a: Adapter, run: string)
    requires ToolsUnderRuns(a) && RunsAreRoots(a) && run in a.runs && forall key :: key in a.tools ==> key.run != run
    ensures ToolsUnderRuns(CloseRun(a, run)) && RunsAreRoots(CloseRun(a, run))
  {
    hide Remember;
  }

  lemma ClosedRetained(a: Adapter, run: string)
    requires Retained(a) && ToolsUnderRuns(a) && run in a.runs && forall key :: key in a.tools ==> key.run != run
    ensures Retained(CloseRun(a, run))
  {
    RememberKeeps(a.completedRuns, run);
    hide Remember, NoRepeats;
  }

  lemma ClosedBalance(a: Adapter, run: string)
    requires Balanced(a) && OneHolder(a.runs, a.tools) && run in a.runs
    ensures Balanced(CloseRun(a, run)) && OneHolder(CloseRun(a, run).runs, a.tools)
  {
    var a1, span := CloseRun(a, run), a.runs[run].span;
    Apart(a, run);
    assert span in OpenSpans(a);
    BalanceEnds(OpenSpans(a), a.started, a.ends, |a.runs| + |a.tools|, span);
    hide Balance, OneHolder, RunSpans, ToolSpans, Remember;
    RunDropped(a.runs, a.tools, run);
    assert OpenSpans(a1) == OpenSpans(a) - {span};
  }

  lemma ClosedTools(a: Adapter, run: string)
    requires Sound(a) && run in a.runs && forall key :: key in a.tools ==> key.run != run
    ensures ToolsEndFirst(CloseRun(a, run))
  {
    forall tool | tool in a.parent && a.parent[tool] == a.runs[run].span
      ensures tool in a.ends
    {
      ChildHasEnded(a, run, tool);
    }
    Apart(a, run);
    var span := a.runs[run].span;
    assert ToolSpans(a.tools) - {span} == ToolSpans(a.tools);
    hide Balanced, OneHolder, ToolSpans, Retained, ToolsUnderRuns, RunsAreRoots, Remember, EndFirst;
    EndFirstAppends(a.parent, a.started, ToolSpans(a.tools), a.ends, span);
  }

  /** No tool of the run being open, every child of its span has ended. */
  lemma ChildHasEnded(a: Adapter, run: string, tool: SpanId)
    requires Sound(a) && run in a.runs && forall key :: key in a.tools ==> key.run != run
    requires tool in a.parent && a.parent[tool] == a.runs[run].span
    ensures tool in a.ends
  {
    assert forall key :: key in a.tools ==> a.runs[key.run].span != a.runs[run].span;
    assert tool !in ToolSpans(a.tools);
  }

  // ---------------------------------------------------------------- whole events

  lemma ApplyToolKeeps(a: Adapter, key: ToolKey, finishes: bool)
    requires Sound(a) && key.run in a.runs
    ensures Sound(ApplyTool(a, key, finishes)) && ApplyTool(a, key, finishes).runs.Keys == a.runs.Keys
    ensures ApplyTool(a, key, finishes).completedRuns == a.completedRuns
  {
    if key.tool !in a.runs[key.run].completedTools {
      if key !in a.tools {
        StartToolKeeps(a, key);
      }
      hide Sound;
      if finishes {
        EndToolKeeps(if key in a.tools then a else StartTool(a, key), key);
      }
    }
  }

  lemma {:induction false} EndToolsKeeps(a: Adapter, keys: seq<ToolKey>)
    requires Sound(a)
    ensures var a1 := EndTools(a, keys);
      && Sound(a1) && a1.runs.Keys == a.runs.Keys && a1.completedRuns == a.completedRuns
      && (forall key :: key in a1.tools <==> key in a.tools && key !in keys)
    decreases |keys|
  {
    if |keys| > 0 {
      EndToolKeeps(a, keys[0]);
      hide Sound, EndTool;
      EndToolsKeeps(EndTool(a, keys[0]), keys[1..]);
      assert forall key :: key in keys <==> key == keys[0] || key in keys[1..];
    }
  }

  lemma {:induction false} CloseRunsKeeps(a: Adapter, runs: seq<string>)
    requires Sound(a) && |a.tools| == 0
    ensures var a1 := CloseRuns(a, runs);
      && Sound(a1) && |a1.tools| == 0 && (forall run :: run in a1.runs <==> run in a.runs && run !in runs)
    decreases |runs|
  {
    if |runs| > 0 {
      CloseRunKeeps(a, runs[0]);
      hide Sound, CloseRun;
      CloseRunsKeeps(CloseRun(a, runs[0]), runs[1..]);
      assert forall run :: run in runs <==> run == runs[0] || run in runs[1..];
    }
  }

  /** One call of the listener; `keys` are the run's open tools when the event ends it. */
  function Handle(a: Adapter, e: Event, keys: seq<ToolKey>): Adapter {
    if e.run.None? || e.run.value in a.completedRuns then a
    else
      var run := e.run.value;
      var begun := EnsureRun(a, run);
      var applied := if e.tool.Some? then ApplyTool(begun, ToolKey(run, e.tool.value), e.finishesTool) else begun;
      if e.finishesRun then CloseRun(EndTools(applied, keys), run) else applied
  }

  /** Where the run's open tools are listed: after the event's own tool was applied. */
  function BeforeEnd(a: Adapter, e: Event): Adapter {
    if e.run.None? || e.run.value in a.completedRuns then a
    else
      var begun := EnsureRun(a, e.run.value);
      if e.tool.Some? then ApplyTool(begun, ToolKey(e.run.value, e.tool.value), e.finishesTool) else begun
  }

  function Shutdown(a: Adapter, keys: seq<ToolKey>, runs: seq<string>): Adapter {
    CloseRuns(EndTools(a, keys), runs)
  }

  datatype Step = OnEvent(event: Event, keys: seq<ToolKey>) | OnShutdown(open: seq<ToolKey>, runs: seq<string>)

  ghost predicate Enabled(a: Adapter, step: Step) {
    match step
    case OnEvent(e, keys) => e.run.Some? ==> ListsToolsOf(BeforeEnd(a, e), e.run.value, keys)
    case OnShutdown(open, runs) => ListsTools(a, open) && ListsRuns(a, runs)
  }

  function Next(a: Adapter, step: Step): Adapter {
    match step
    case OnEvent(e, keys) => Handle(a, e, keys)
    case OnShutdown(open, runs) => Shutdown(a, open, runs)
  }

  ghost predicate IsRun(a: Adapter, steps: seq<Step>)
    decreases |steps|
  {
    |steps| == 0 || (Enabled(a, steps[0]) && IsRun(Next(a, steps[0]), steps[1..]))
  }

  ghost function After(a: Adapter, steps: seq<Step>): Adapter
    requires IsRun(a, steps)
    decreases |steps|
  {
    if |steps| == 0 then a else After(Next(a, steps[0]), steps[1..])
  }

  lemma BeforeEndKeeps(a: Adapter, e: Event)
    requires Sound(a) && e.run.Some? && e.run.value !in a.completedRuns
    ensures Sound(BeforeEnd(a, e)) && BeforeEnd(a, e).completedRuns == a.completedRuns
    ensures e.run.value in BeforeEnd(a, e).runs
  {
    EnsureRunKeeps(a, e.run.value);
    BeforeEndIs(a, e);
    hide *;
    if e.tool.Some? {
      ApplyToolKeeps(EnsureRun(a, e.run.value), ToolKey(e.run.value, e.tool.value), e.finishesTool);
    }
  }

  lemma BeforeEndIs(a: Adapter, e: Event)
    requires e.run.Some? && e.run.value !in a.completedRuns
    ensures var ensured := EnsureRun(a, e.run.value);
      && e.run.value in ensured.runs
      && BeforeEnd(a, e) ==
           if e.tool.Some? then ApplyTool(ensured, ToolKey(e.run.value, e.tool.value), e.finishesTool) else ensured
  {
    hide ApplyTool;
  }

  lemma HandleKeeps(a: Adapter, e: Event, keys: seq<ToolKey>)
    requires Sound(a) && Enabled(a, OnEvent(e, keys))
    ensures Sound(Handle(a, e, keys))
  {
    if e.run.Some? && e.run.value !in a.completedRuns {
      BeforeEndKeeps(a, e);
      var applied := BeforeEnd(a, e);
      assert Handle(a, e, keys) == if e.finishesRun then CloseRun(EndTools(applied, keys), e.run.value) else applied;
      hide Sound, Handle, BeforeEnd;
      EndToolsKeeps(applied, keys);
      CloseRunKeeps(EndTools(applied, keys), e.run.value);
    }
  }

  /** Whatever was open, shutting down leaves nothing open. */
  lemma ShutdownEndsAll(a: Adapter, keys: seq<ToolKey>, runs: seq<string>)
    requires Sound(a) && ListsTools(a, keys) && ListsRuns(a, runs)
    ensures var a1 := Shutdown(a, keys, runs);
      Sound(a1) && a1.runs == map[] && a1.tools == map[] && |a1.ends| == a1.started
  {
    var ended := EndTools(a, keys);
    hide Sound, EndTools, CloseRuns;
    AllToolsEnded(a, keys);
    var a1 := CloseRuns(ended, runs);
    CloseRunsKeeps(ended, runs);
    assert a1.runs == map[] && a1.tools == map[];
    AllEnded(a1);
  }

  lemma AllToolsEnded(a: Adapter, keys: seq<ToolKey>)
    requires Sound(a) && ListsTools(a, keys)
    ensures var ended := EndTools(a, keys);
      Sound(ended) && ended.tools == map[] && ended.runs.Keys == a.runs.Keys
  {
    hide Sound, EndTools;
    EndToolsKeeps(a, keys);
    assert EndTools(a, keys).tools.Keys == {};
  }

  lemma AllEnded(a: Adapter)
    requires Sound(a) && a.runs == map[] && a.tools == map[]
    ensures |a.ends| == a.started
  {
  }

  lemma StepKeeps(a: Adapter, step: Step)
    requires Sound(a) && Enabled(a, step)
    ensures Sound(Next(a, step))
  {
    match step
    case OnEvent(e, keys) =>
      hide Sound, Handle;
      HandleKeeps(a, e, keys);
    case OnShutdown(open, runs) =>
      hide Sound, Shutdown;
      ShutdownEndsAll(a, open, runs);
  }

  lemma {:induction false} RunKeeps(a: Adapter, steps: seq<Step>)
    requires Sound(a) && IsRun(a, steps)
    ensures Sound(After(a, steps))
    decreases |steps|
  {
    if |steps| > 0 {
      StepKeeps(a, steps[0]);
      hide Sound, Next, Enabled;
      RunKeeps(Next(a, steps[0]), steps[1..]);
    }
  }

  /** For every sequence of events and shutdowns: started spans are exactly the ended and the open
      ones, no span ends twice, open tools belong to open runs, tool spans end before their run's
      span, and the tables stay within their limit. */
  lemma SpansAreConserved(steps: seq<Step>)
    requires IsRun(FRESH, steps)
    ensures var a := After(FRESH, steps);
      && a.started == |a.ends| + |a.runs| + |a.tools| && NoRepeats(a.ends)
      && (forall span :: span in a.ends ==> span < a.started && span !in OpenSpans(a))
      && (forall key ::
           key in a.tools ==>
           key.run in a.runs && a.tools[key] in a.parent && a.parent[a.tools[key]] == a.runs[key.run].span)
      && (forall tool, j ::
           tool in a.parent && 0 <= j < |a.ends| && a.ends[j] == a.parent[tool] ==> tool in a.ends[..j])
      && |a.completedRuns| <= LIMIT && forall run :: run in a.runs ==> |a.runs[run].completedTools| <= LIMIT
  {
    assert OpenSpans(FRESH) == {};
    assert Sound(FRESH);
    RunKeeps(FRESH, steps);
  }

  // ---------------------------------------------------------------- the object

  class OpenTelemetryAdapter {
    var runs: map<string, RunState>
    var tools: map<ToolKey, SpanId>
    var completedRuns: seq<string>
    /** The tracer's side: what it was asked to start and to end. */
    var started: nat
    ghost var parent: map<SpanId, SpanId>
    ghost var ends: seq<SpanId>

    ghost function Snapshot(): Adapter
      reads this
    {
      Adapter(runs, tools, completedRuns, started, parent, ends)
    }

    constructor ()
      ensures Snapshot() == FRESH
    {
      runs, tools, completedRuns, started, parent, ends := map[], map[], [], 0, map[], [];
    }

    method Ensure(run: string)
      modifies this
      ensures Snapshot() == EnsureRun(old(Snapshot()), run)
    {
      if run !in runs {
        runs := runs[run := RunState(started, [])];
        started := started + 1;
      }
    }

    method Begin(key: ToolKey)
      requires key.run in runs
      modifies this
      ensures Snapshot() == StartTool(old(Snapshot()), key)
    {
      parent := parent[started := runs[key.run].span];
      tools := tools[key := started];
      started := started + 1;
    }

    method Finish(key: ToolKey)
      modifies this
      ensures Snapshot() == EndTool(old(Snapshot()), key)
    {
      if key !in tools {
        return;
      }
      var span := tools[key];
      tools := tools - {key};
      ends := ends + [span];
      if key.run in runs {
        var run := runs[key.run];
        var longer := if key.tool in run.completedTools then run.completedTools else run.completedTools + [key.tool];
        runs := runs[key.run := run.(completedTools := if |longer| > LIMIT then longer[1..] else longer)];
      }
    }

    method FinishAll(keys: seq<ToolKey>)
      modifies this
      ensures Snapshot() == EndTools(old(Snapshot()), keys)
    {
      assert keys[0..] == keys;
      for i := 0 to |keys|
        invariant EndTools(Snapshot(), keys[i..]) == EndTools(old(Snapshot()), keys)
      {
        assert keys[i..][0] == keys[i] && keys[i..][1..] == keys[i + 1..];
        Finish(keys[i]);
        hide EndTool;
      }
    }

    method ApplyToolEvent(key: ToolKey, finishes: bool)
      requires key.run in runs
      modifies this
      ensures Snapshot() == ApplyTool(old(Snapshot()), key, finishes)
    {
      if key.tool in runs[key.run].completedTools {
        return;
      }
      if finishes {
        if key !in tools {
          Begin(key);
        }
        Finish(key);
        return;
      }
      if key !in tools {
        Begin(key);
      }
    }

    method Close(run: string)
      modifies this
      ensures Snapshot() == CloseRun(old(Snapshot()), run)
    {
      if run !in runs {
        return;
      }
      ends := ends + [runs[run].span];
      runs := runs - {run};
      var longer := if run in completedRuns then completedRuns else completedRuns + [run];
      completedRuns := if |longer| > LIMIT then longer[1..] else longer;
    }

    /** The listener; `keys` are the run's open tools, in the table's order, when the event ends it. */
    method Consume(e: Event, keys: seq<ToolKey>)
      modifies this
      ensures Snapshot() == Handle(old(Snapshot()), e, keys)
    {
      if e.run.None? || e.run.value in completedRuns {
        return;
      }
      var run := e.run.value;
      Ensure(run);
      if e.tool.Some? {
        ApplyToolEvent(ToolKey(run, e.tool.value), e.finishesTool);
      }
      hide ApplyTool, EndTools;
      if e.finishesRun {
        FinishAll(keys);
        Close(run);
      }
    }

    method ShutDown(keys: seq<ToolKey>, openRuns: seq<string>)
      modifies this
      ensures Snapshot() == Shutdown(old(Snapshot()), keys, openRuns)
    {
      FinishAll(keys);
      ghost var ended := Snapshot();
      assert openRuns[0..] == openRuns;
      for i := 0 to |openRuns|
        invariant CloseRuns(Snapshot(), openRuns[i..]) == CloseRuns(ended, openRuns)
      {
        assert openRuns[i..][0] == openRuns[i] && openRuns[i..][1..] == openRuns[i + 1..];
        Close(openRuns[i]);
        hide CloseRun;
      }
    }
  }
}
