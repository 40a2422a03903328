/** Files that come back, and what an acknowledgement is for. */
module WatchReturns {
  import opened Options
  import opened FileWatch
  import opened QuietPeriod

  // ---------------------------------------------------------------- a file that was gone is new

  /** Some event after the first `n` is about the path. */
  ghost predicate ToldSince(appended: seq<Event>, n: nat, path: Path) {
    exists i :: n <= i < |appended| && appended[i].path == path
  }

  /** The path is unknown to the journal unless an event has told of it since. */
  ghost predicate UnknownUntilTold(w: Watch, n: nat, path: Path) {
    w.ready && (path in w.cursor ==> ToldSince(w.appended, n, path))
  }

  lemma ToldLonger(appended: seq<Event>, event: Event, n: nat, path: Path)
    requires n <= |appended|
    ensures ToldSince(appended, n, path) || event.path == path ==> ToldSince(appended + [event], n, path)
  {
    var longer := appended + [event];
    if ToldSince(appended, n, path) {
      var i :| n <= i < |appended| && appended[i].path == path;
      assert longer[i].path == path;
    } else if event.path == path {
      assert longer[|appended|].path == path;
    }
  }

  lemma VisitTells(cfg: Config, w: Watch, prior: map<Path, Identity>, at: Path, identity: Identity, now: real,
                   id: EventId, n: nat, path: Path)
    requires UnknownUntilTold(w, n, path) && n <= |w.appended|
    ensures var w1 := Visit(cfg, w, prior, at, identity, now, id);
      UnknownUntilTold(w1, n, path) && n <= |w1.appended|
  {
    ToldLonger(w.appended, Event(id, at, at !in prior, identity.size, identity.mtime), n, path);
    hide ToldSince, Ready;
  }

  lemma {:induction false} VisitedTells(cfg: Config, w: Watch, prior: map<Path, Identity>, s: Scan, k: nat, n: nat,
                                        path: Path)
    requires k <= |s.order| == |s.ids| && forall p :: p in s.order ==> p in s.found
    requires UnknownUntilTold(w, n, path) && n <= |w.appended|
    ensures var w1 := Visited(cfg, w, prior, s, k); UnknownUntilTold(w1, n, path) && n <= |w1.appended|
  {
    hide Visit, UnknownUntilTold;
    if k > 0 {
      VisitedTells(cfg, w, prior, s, k - 1, n, path);
      VisitTells(cfg, Visited(cfg, w, prior, s, k - 1), prior, s.order[k - 1], s.found[s.order[k - 1]], s.now,
        s.ids[k - 1], n, path);
    }
  }

  lemma StepTells(cfg: Config, w: Watch, l: Label, n: nat, path: Path)
    requires Enabled(w, l) && UnknownUntilTold(w, n, path) && n <= |w.appended|
    ensures UnknownUntilTold(Step(cfg, w, l), n, path) && n <= |Step(cfg, w, l).appended|
  {
    if l.DoScan? {
      var forgot := Forget(w, l.scan.found);
      assert UnknownUntilTold(forgot, n, path) && Baseline(cfg, w, l.scan.found) == w;
      VisitedTells(cfg, forgot, w.cursor, l.scan, l.scan.reached, n, path);
    }
    hide ToldSince, Visited, Without;
  }

  lemma {:induction false} RunTells(cfg: Config, w: Watch, ls: seq<Label>, n: nat, path: Path)
    requires IsRun(cfg, w, ls) && UnknownUntilTold(w, n, path) && n <= |w.appended|
    ensures UnknownUntilTold(After(cfg, w, ls), n, path)
    decreases |ls|
  {
    hide Step, UnknownUntilTold;
    if |ls| > 0 {
      StepTells(cfg, w, ls[0], n, path);
      RunTells(cfg, Step(cfg, w, ls[0]), ls[1..], n, path);
    }
  }

  lemma MissingIsForgotten(cfg: Config, w: Watch, s: Scan, path: Path)
    requires GoodScan(w, s) && path !in s.found
    ensures var w1 := ScanStep(cfg, w, s); w1.ready && path !in w1.cursor && path !in w1.candidates
  {
    forall k | 0 <= k < s.reached
      ensures s.order[k] != path
    {
      assert s.order[k] in s.order;
    }
    PathUnvisited(cfg, w, s, path);
    VisitedAccepts(cfg, Forget(Baseline(cfg, w, s.found), s.found), Baseline(cfg, w, s.found).cursor, s, s.reached);
    hide Visited;
  }

  lemma {:induction false} RunsJoin(cfg: Config, w: Watch, first: seq<Label>, second: seq<Label>)
    requires IsRun(cfg, w, first) && IsRun(cfg, After(cfg, w, first), second)
    ensures IsRun(cfg, w, first + second) && After(cfg, w, first + second) == After(cfg, After(cfg, w, first), second)
    decreases |first|
  {
    hide Step;
    if |first| == 0 {
      assert first + second == second;
    } else {
      assert (first + second)[0] == first[0] && (first + second)[1..] == first[1..] + second;
      RunsJoin(cfg, Step(cfg, w, first[0]), first[1..], second);
    }
  }

  lemma StaysReachable(cfg: Config, before: seq<Label>, gone: Scan, later: seq<Label>)
    requires IsRun(cfg, FRESH, before) && Enabled(After(cfg, FRESH, before), DoScan(gone))
    requires IsRun(cfg, ScanStep(cfg, After(cfg, FRESH, before), gone), later)
    ensures Reachable(cfg, After(cfg, ScanStep(cfg, After(cfg, FRESH, before), gone), later))
  {
    var w := After(cfg, FRESH, before);
    hide ScanStep;
    assert Step(cfg, w, DoScan(gone)) == ScanStep(cfg, w, gone);
    var rest := [DoScan(gone)] + later;
    assert rest[0] == DoScan(gone) && rest[1..] == later;
    assert IsRun(cfg, w, rest) && After(cfg, w, rest) == After(cfg, ScanStep(cfg, w, gone), later);
    RunsJoin(cfg, FRESH, before, rest);
  }

  /** Over all runs: a file that some scan missed is new when it returns. However much of its old size and time it
      has kept, the first scan that has then seen it unchanged over the quiet period, and has room, queues it as
      created, unless an event has told of it in between. */
  lemma ReturnedFileIsCreated(cfg: Config, before: seq<Label>, gone: Scan, later: seq<Label>, s: Scan, k: nat, i: nat)
    requires IsRun(cfg, FRESH, before) && Enabled(After(cfg, FRESH, before), DoScan(gone))
    requires IsRun(cfg, ScanStep(cfg, After(cfg, FRESH, before), gone), later)
    requires k < |s.order| && s.order[k] !in gone.found
    requires var w1 := ScanStep(cfg, After(cfg, FRESH, before), gone);
      var w := After(cfg, w1, later);
      && Enabled(w, DoScan(s)) && k < s.reached
      && !ToldSince(w.appended, |w1.appended|, s.order[k])
      && StillSince(w.log, s.order[k], s.found[s.order[k]], i) && s.now - w.log[i].now >= cfg.quiet
    requires cfg.needsMarker ==> s.found[s.order[k]].marker != ""
    ensures var w := After(cfg, ScanStep(cfg, After(cfg, FRESH, before), gone), later);
      var path, identity := s.order[k], s.found[s.order[k]];
      && s.order[k] !in w.cursor
      && (|Before(cfg, w, s, k).pending| < cfg.maxPending ==>
            Before(cfg, w, s, k + 1).appended == Before(cfg, w, s, k).appended +
              [Event(s.ids[k], path, true, identity.size, identity.mtime)])
  {
    var w1 := ScanStep(cfg, After(cfg, FRESH, before), gone);
    var w, path, identity := After(cfg, w1, later), s.order[k], s.found[s.order[k]];
    MissingIsForgotten(cfg, After(cfg, FRESH, before), gone, path);
    StaysReachable(cfg, before, gone, later);
    RunTells(cfg, w1, later, |w1.appended|, path);
    hide IsRun, ScanStep, ToldSince, StillSince;
    assert path !in w.cursor && Baseline(cfg, w, s.found) == w;
    QuietChangeIsQueuedWhenThereIsRoom(cfg, w, s, k, i);
    PathBeforeVisit(cfg, w, s, k);
    VisitEffect(cfg, Before(cfg, w, s, k), w.cursor, path, identity, s.now, s.ids[k]);
    hide Reachable, GoodScan, Ready;
  }

  // ---------------------------------------------------------------- acknowledgements

  lemma StepAccepts(cfg: Config, w: Watch, l: Label)
    requires Enabled(w, l)
    ensures Step(cfg, w, l).accepted <==> l.Send? && l.acknowledged
  {
    if l.DoScan? {
      ScanAccepts(cfg, w, l.scan);
    }
    hide Without, ScanStep;
  }

  lemma ScanAccepts(cfg: Config, w: Watch, s: Scan)
    requires |s.ids| == |s.order| && s.reached <= |s.order| && forall p :: p in s.order ==> p in s.found
    ensures ScanStep(cfg, w, s).accepted == w.accepted
  {
    var begun := Baseline(cfg, w, s.found);
    VisitedAccepts(cfg, Forget(begun, s.found), begun.cursor, s, s.reached);
  }

  lemma {:induction false} VisitedAccepts(cfg: Config, w: Watch, prior: map<Path, Identity>, s: Scan, k: nat)
    requires k <= |s.order| == |s.ids| && forall p :: p in s.order ==> p in s.found
    ensures Visited(cfg, w, prior, s, k).accepted == w.accepted && Visited(cfg, w, prior, s, k).ready == w.ready
  {
    if k > 0 {
      VisitedAccepts(cfg, w, prior, s, k - 1);
      hide Ready;
    }
  }

  lemma {:induction false} RunAccepts(cfg: Config, w: Watch, ls: seq<Label>)
    requires IsRun(cfg, w, ls) && |ls| > 0
    ensures After(cfg, w, ls).accepted <==> ls[|ls| - 1].Send? && ls[|ls| - 1].acknowledged
    decreases |ls|
  {
    hide Step;
    StepAccepts(cfg, w, ls[0]);
    if |ls| > 1 {
      RunAccepts(cfg, Step(cfg, w, ls[0]), ls[1..]);
    }
  }

  /** Over all runs an event can be settled if and only if the very last thing that happened was its own delivery,
      acknowledged: not after a failed settlement, a restart or a scan. */
  lemma SettlesOnlyTheAcknowledged(cfg: Config, ls: seq<Label>)
    requires IsRun(cfg, FRESH, ls)
    ensures var w := After(cfg, FRESH, ls);
      w.accepted <==> |ls| > 0 && ls[|ls| - 1].Send? && ls[|ls| - 1].acknowledged
    ensures Enabled(After(cfg, FRESH, ls), Settle) ==> |ls| > 0 && ls[|ls| - 1].Send? && ls[|ls| - 1].acknowledged
    ensures |ls| > 0 && ls[|ls| - 1].Send? && ls[|ls| - 1].acknowledged ==>
      !Enabled(After(cfg, FRESH, ls), Send(true, true)) && Enabled(After(cfg, FRESH, ls), SettleFails)
  {
    if |ls| > 0 {
      RunAccepts(cfg, FRESH, ls);
    }
  }
}
