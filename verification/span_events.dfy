/** What one telemetry event does to the spans, in terms of the tables before and after. */
module SpanEvents {
  import opened Options
  import opened SpanLifecycle

  /** A newly remembered key is there, and at most the oldest one had to go. */
  lemma RememberedIsThere(kept: seq<string>, key: string)
    requires |kept| <= LIMIT
    ensures var after := Remember(kept, key);
      && key in after
      && (key in kept ==> after == kept)
      && (key !in kept ==> after[|after| - 1] == key)
      && (|kept| < LIMIT ==> kept <= after)
      && (forall i :: 1 <= i < |kept| ==> kept[i] in after)
  {
    if key !in kept {
      var longer := kept + [key];
      assert longer[|kept|] == key;
      if |longer| > LIMIT {
        assert longer[1..][|kept| - 1] == key;
        assert forall i :: 1 <= i < |kept| ==> longer[1..][i - 1] == kept[i];
      }
    }
  }

  /** A tool that finishes is ended and remembered; one that goes on is open; one already finished is left. */
  ghost predicate ToolApplied(a: Adapter, a1: Adapter, key: ToolKey, finishes: bool)
    requires key.run in a.runs
  {
    && key.run in a1.runs && a1.runs[key.run].span == a.runs[key.run].span
    && (if key.tool in a.runs[key.run].completedTools then a1 == a
        else if finishes then
          && key !in a1.tools && key.tool in a1.runs[key.run].completedTools
          && a1.ends == a.ends + [if key in a.tools then a.tools[key] else a.started]
        else
          && key in a1.tools && a1.tools[key] == (if key in a.tools then a.tools[key] else a.started)
          && a1.ends == a.ends && a1.runs == a.runs)
    && (forall other :: other != key ==>
          (other in a1.tools <==> other in a.tools) && (other in a.tools ==> a1.tools[other] == a.tools[other]))
    && OtherRunsStay(a, a1, key.run) && a1.completedRuns == a.completedRuns
  }

  ghost predicate OtherRunsStay(a: Adapter, a1: Adapter, run: string) {
    forall other :: other != run ==>
      (other in a1.runs <==> other in a.runs) && (other in a.runs ==> a1.runs[other] == a.runs[other])
  }

  lemma BeginEffect(a: Adapter, key: ToolKey)
    requires key.run in a.runs && key !in a.tools
    ensures var b := StartTool(a, key);
      b.tools == a.tools[key := a.started] && b.runs == a.runs && b.ends == a.ends && b.completedRuns == a.completedRuns
  {
  }

  lemma FinishEffect(a: Adapter, key: ToolKey)
    requires key in a.tools && key.run in a.runs && |a.runs[key.run].completedTools| <= LIMIT
    ensures var b := EndTool(a, key);
      && b.tools == a.tools - {key} && b.ends == a.ends + [a.tools[key]] && b.completedRuns == a.completedRuns
      && key.run in b.runs && b.runs[key.run].span == a.runs[key.run].span
      && key.tool in b.runs[key.run].completedTools && OtherRunsStay(a, b, key.run)
  {
    RememberedIsThere(a.runs[key.run].completedTools, key.tool);
    hide Remember;
  }

  lemma ToolEffect(a: Adapter, key: ToolKey, finishes: bool)
    requires key.run in a.runs && |a.runs[key.run].completedTools| <= LIMIT
    ensures ToolApplied(a, ApplyTool(a, key, finishes), key, finishes)
  {
    hide StartTool, EndTool;
    if key.tool !in a.runs[key.run].completedTools {
      if key !in a.tools {
        BeginEffect(a, key);
      }
      if finishes {
        FinishEffect(if key in a.tools then a else StartTool(a, key), key);
      }
    }
  }

  /** Ending listed tools ends the spans of exactly those. */
  ghost predicate ToolsEnded(a: Adapter, a1: Adapter, keys: seq<ToolKey>) {
    && (forall key :: key in a1.tools <==> key in a.tools && key !in keys)
    && (forall key :: key in a1.tools ==> a1.tools[key] == a.tools[key])
    && (forall key :: key in a.tools && key in keys ==> a.tools[key] in a1.ends)
    && a.ends <= a1.ends && a1.completedRuns == a.completedRuns && a1.runs.Keys == a.runs.Keys
    && (forall run :: run in a.runs ==> a1.runs[run].span == a.runs[run].span)
    && (forall run :: run in a.runs && (forall key :: key in keys ==> key.run != run) ==> a1.runs[run] == a.runs[run])
  }

  lemma EndToolEffect(a: Adapter, key: ToolKey)
    ensures ToolsEnded(a, EndTool(a, key), [key])
  {
    hide Remember;
    var a1 := EndTool(a, key);
    if key in a.tools {
      assert a1.ends[|a.ends|] == a.tools[key];
    }
  }

  lemma {:induction false} EndToolsEffect(a: Adapter, keys: seq<ToolKey>)
    ensures ToolsEnded(a, EndTools(a, keys), keys)
    decreases |keys|
  {
    if |keys| > 0 {
      EndToolEffect(a, keys[0]);
      EndToolsEffect(EndTool(a, keys[0]), keys[1..]);
      hide EndTool, EndTools;
      EndedTwice(a, EndTool(a, keys[0]), EndTools(EndTool(a, keys[0]), keys[1..]), keys);
    }
  }

  lemma EndedTwice(a: Adapter, mid: Adapter, last: Adapter, keys: seq<ToolKey>)
    requires |keys| > 0 && ToolsEnded(a, mid, [keys[0]]) && ToolsEnded(mid, last, keys[1..])
    ensures ToolsEnded(a, last, keys)
  {
    assert forall key :: key in keys <==> key == keys[0] || key in keys[1..];
    forall key | key in a.tools && key in keys
      ensures a.tools[key] in last.ends
    {
      if key == keys[0] {
        var i :| 0 <= i < |mid.ends| && mid.ends[i] == a.tools[key];
        assert last.ends[i] == a.tools[key];
      }
    }
  }

  /** An event of a run that is over, or of none, changes nothing. */
  lemma LateEventsAreIgnored(a: Adapter, e: Event, keys: seq<ToolKey>)
    requires e.run.None? || e.run.value in a.completedRuns
    ensures Handle(a, e, keys) == a
  {
  }

  /** What an event that does not end its run does to the tool it is about. */
  ghost predicate ToolGoesOn(a: Adapter, a1: Adapter, key: ToolKey, finishes: bool) {
    && (if key.run in a.runs && key.tool in a.runs[key.run].completedTools then a1 == a
        else if finishes then
          && key !in a1.tools && key.run in a1.runs && key.tool in a1.runs[key.run].completedTools
          && |a1.ends| == |a.ends| + 1 && a.ends <= a1.ends
          && (if key in a.tools then a1.ends[|a.ends|] == a.tools[key] else a1.ends[|a.ends|] >= a.started)
        else
          && key in a1.tools && a1.ends == a.ends
          && (if key in a.tools then a1.tools[key] == a.tools[key] else a1.tools[key] >= a.started))
    && OtherToolsStay(a, a1, key)
  }

  ghost predicate OtherToolsStay(a: Adapter, a1: Adapter, key: ToolKey) {
    forall other: ToolKey :: other != key ==>
      (other in a1.tools <==> other in a.tools) && (other in a.tools ==> a1.tools[other] == a.tools[other])
  }

  /** An event that does not end its run opens the run if need be and applies its tool, if it has one. */
  lemma EventGoesOn(a: Adapter, e: Event, keys: seq<ToolKey>)
    requires Sound(a) && e.run.Some? && e.run.value !in a.completedRuns && !e.finishesRun
    ensures var run, a1 := e.run.value, Handle(a, e, keys);
      && run in a1.runs && OtherRunsStay(a, a1, run)
      && (if run in a.runs then a1.runs[run].span == a.runs[run].span else a1.runs[run].span >= a.started)
      && (if e.tool.None? then a1.tools == a.tools && a1.ends == a.ends
          else ToolGoesOn(a, a1, ToolKey(run, e.tool.value), e.finishesTool))
  {
    var run := e.run.value;
    EnsureRunKeeps(a, run);
    EnsureRunEffect(a, run);
    var begun := EnsureRun(a, run);
    assert |begun.runs[run].completedTools| <= LIMIT;
    hide Sound, ApplyTool, EnsureRun, ToolGoesOn, ToolApplied, OtherRunsStay;
    if e.tool.Some? {
      var key := ToolKey(run, e.tool.value);
      ToolEffect(begun, key, e.finishesTool);
      AppliedGoesOn(a, begun, ApplyTool(begun, key, e.finishesTool), key, e.finishesTool);
    }
  }

  lemma AppliedGoesOn(a: Adapter, begun: Adapter, a1: Adapter, key: ToolKey, finishes: bool)
    requires key.run in begun.runs && OtherRunsStay(a, begun, key.run) && begun.started >= a.started
    requires begun.tools == a.tools && begun.ends == a.ends
    requires if key.run in a.runs then begun == a else begun.runs[key.run] == RunState(a.started, [])
    requires ToolApplied(begun, a1, key, finishes)
    ensures ToolGoesOn(a, a1, key, finishes) && key.run in a1.runs && OtherRunsStay(a, a1, key.run)
    ensures a1.runs[key.run].span == begun.runs[key.run].span
  {
  }

  lemma EnsureRunEffect(a: Adapter, run: string)
    ensures var a1 := EnsureRun(a, run);
      && run in a1.runs && OtherRunsStay(a, a1, run) && a1.started >= a.started
      && a1.tools == a.tools && a1.ends == a.ends && a1.completedRuns == a.completedRuns
      && (if run in a.runs then a1 == a else a1.runs[run] == RunState(a.started, []))
  {
  }

  /** An event that ends its run ends every span of it, and the run is remembered. */
  lemma EventEndsItsRun(a: Adapter, e: Event, keys: seq<ToolKey>)
    requires Sound(a) && Enabled(a, OnEvent(e, keys)) && e.run.Some? && e.run.value !in a.completedRuns && e.finishesRun
    ensures var run, a1 := e.run.value, Handle(a, e, keys);
      && run !in a1.runs && run in a1.completedRuns
      && (forall key: ToolKey :: key in a1.tools ==> key.run != run)
      && (run in a.runs ==> a.runs[run].span in a1.ends)
      && (forall key: ToolKey :: key in a.tools && key.run == run ==> a.tools[key] in a1.ends)
      && a.ends <= a1.ends
      && OtherRunsStay(a, a1, run)
      && (forall key: ToolKey :: key.run != run ==> (key in a1.tools <==> key in a.tools))
  {
    var run, going := e.run.value, e.(finishesRun := false);
    assert Handle(a, going, keys) == BeforeEnd(a, e);
    EventGoesOn(a, going, keys);
    BeforeEndKeeps(a, e);
    hide Handle;
    var mid := BeforeEnd(a, e);
    EndToolsEffect(mid, keys);
    var last := EndTools(mid, keys);
    assert Handle(a, e, keys) == CloseRun(last, run) by { EndsByClosing(a, e, keys); }
    hide BeforeEnd, EndTools, Enabled;
    assert forall key: ToolKey :: key in keys <==> key in mid.tools && key.run == run;
    assert |last.completedRuns| <= LIMIT;
    hide Sound;
    ClosingEffect(last, run);
    EverySpanEnds(a, mid, last, CloseRun(last, run), run, keys, e);
  }

  lemma EndsByClosing(a: Adapter, e: Event, keys: seq<ToolKey>)
    requires e.run.Some? && e.run.value !in a.completedRuns && e.finishesRun
    ensures Handle(a, e, keys) == CloseRun(EndTools(BeforeEnd(a, e), keys), e.run.value)
  {
    hide CloseRun, EndTools, ApplyTool, EnsureRun;
  }

  lemma ClosingEffect(a: Adapter, run: string)
    requires run in a.runs && |a.completedRuns| <= LIMIT
    ensures var a1 := CloseRun(a, run);
      && a1.runs == a.runs - {run} && a1.tools == a.tools && a1.ends == a.ends + [a.runs[run].span]
      && run in a1.completedRuns
  {
    RememberedIsThere(a.completedRuns, run);
    hide Remember;
  }

  lemma EverySpanEnds(a: Adapter, mid: Adapter, last: Adapter, a1: Adapter, run: string, keys: seq<ToolKey>, e: Event)
    requires e.run == Some(run)
    requires run in mid.runs && OtherRunsStay(a, mid, run) && (run in a.runs ==> mid.runs[run].span == a.runs[run].span)
    requires if e.tool.None? then mid.tools == a.tools && mid.ends == a.ends
             else ToolGoesOn(a, mid, ToolKey(run, e.tool.value), e.finishesTool)
    requires ToolsEnded(mid, last, keys) && forall key: ToolKey :: key in keys <==> key in mid.tools && key.run == run
    requires a1.runs == last.runs - {run} && a1.tools == last.tools && a1.ends == last.ends + [last.runs[run].span]
    ensures (forall key: ToolKey :: key in a1.tools ==> key.run != run) && a.ends <= a1.ends
    ensures run in a.runs ==> a.runs[run].span in a1.ends
    ensures forall key: ToolKey :: key in a.tools && key.run == run ==> a.tools[key] in a1.ends
    ensures OtherRunsStay(a, a1, run) && forall key: ToolKey :: key.run != run ==> (key in a1.tools <==> key in a.tools)
  {
    assert a1.ends[|last.ends|] == last.runs[run].span;
    assert last.ends <= a1.ends && mid.ends <= last.ends && a.ends <= mid.ends;
    forall key: ToolKey | key in a.tools && key.run == run
      ensures a.tools[key] in a1.ends
    {
      if key in mid.tools {
        assert key in keys && mid.tools[key] == a.tools[key];
        var i :| 0 <= i < |last.ends| && last.ends[i] == a.tools[key];
        assert a1.ends[i] == a.tools[key];
      } else {
        assert mid.ends[|a.ends|] == a.tools[key];
        assert a1.ends[|a.ends|] == a.tools[key];
      }
    }
  }
}
