/** When exactly a change is announced: after every scan over the quiet period saw it unchanged. */
module QuietPeriod {
  import opened Options
  import opened FileWatch

  /** From the `i`-th scan of this process on, `path` was always there, and every scan that
      reached it, the `i`-th among them, saw `identity`. */
  ghost predicate StillSince(log: seq<Observation>, path: Path, identity: Identity, i: nat) {
    && i < |log|
    && path in log[i].visited
    && forall j ::
         i <= j < |log| ==> path in log[j].found && (path in log[j].visited ==> log[j].found[path] == identity)
  }

  /** The candidate dates from the start of a streak of a change still worth announcing. */
  ghost predicate Fits(cfg: Config, log: seq<Observation>, cursor: Option<Identity>, path: Path, candidate: Candidate) {
    && Eligible(cfg, cursor, candidate.identity)
    && exists i: nat :: StillSince(log, path, candidate.identity, i) && log[i].now == candidate.since
  }

  /** Every streak of a change worth announcing has its candidate, at least as old as the streak. */
  ghost predicate Covers(cfg: Config, log: seq<Observation>, cursor: Option<Identity>, path: Path,
                         candidate: Option<Candidate>) {
    forall identity, i: nat :: StillSince(log, path, identity, i) && Eligible(cfg, cursor, identity) ==>
      candidate.Some? && candidate.value.identity == identity && candidate.value.since <= log[i].now
  }

  ghost predicate Exact(cfg: Config, log: seq<Observation>, cursor: Option<Identity>, path: Path,
                        candidate: Option<Candidate>) {
    (candidate.Some? ==> Fits(cfg, log, cursor, path, candidate.value)) && Covers(cfg, log, cursor, path, candidate)
  }

  ghost predicate InTimeOrder(log: seq<Observation>) {
    forall i, j :: 0 <= i <= j < |log| ==> log[i].now <= log[j].now
  }

  /** The candidate table is exactly the quiet streaks of the scans so far. */
  ghost predicate Streaks(cfg: Config, w: Watch) {
    && (w.candidates != map[] || w.log != [] ==> w.ready)
    && InTimeOrder(w.log)
    && (forall path :: Exact(cfg, w.log, Get(w.cursor, path), path, Get(w.candidates, path)))
  }

  // ---------------------------------------------------------------- one path through one scan

  lemma VisitFrame(cfg: Config, w: Watch, prior: map<Path, Identity>, path: Path, identity: Identity, now: real,
                   id: EventId, other: Path)
    requires other != path
    ensures var w1 := Visit(cfg, w, prior, path, identity, now, id);
      Get(w1.cursor, other) == Get(w.cursor, other) && Get(w1.candidates, other) == Get(w.candidates, other)
  {
  }

  lemma {:induction false} UnvisitedFrame(cfg: Config, w: Watch, prior: map<Path, Identity>, s: Scan, from: nat,
                                          n: nat, other: Path)
    requires from <= n <= |s.order| == |s.ids| && forall p :: p in s.order ==> p in s.found
    requires forall k :: from <= k < n ==> s.order[k] != other
    ensures var w0, w1 := Visited(cfg, w, prior, s, from), Visited(cfg, w, prior, s, n);
      Get(w1.cursor, other) == Get(w0.cursor, other) && Get(w1.candidates, other) == Get(w0.candidates, other)
    decreases n - from
  {
    hide Visit;
    if from < n {
      UnvisitedFrame(cfg, w, prior, s, from, n - 1, other);
      VisitFrame(cfg, Visited(cfg, w, prior, s, n - 1), prior, s.order[n - 1], s.found[s.order[n - 1]], s.now,
        s.ids[n - 1], other);
    }
  }

  /** Where the loop stands when it reaches the `k`-th path. */
  function Before(cfg: Config, w: Watch, s: Scan, k: nat): Watch
    requires k <= |s.order| == |s.ids| && forall p :: p in s.order ==> p in s.found
  {
    var begun := Baseline(cfg, w, s.found);
    Visited(cfg, Forget(begun, s.found), begun.cursor, s, k)
  }

  /** A path the scan did not find is forgotten; one it did not reach is left alone. */
  lemma PathUnvisited(cfg: Config, w: Watch, s: Scan, path: Path)
    requires GoodScan(w, s) && path !in Observe(s).visited
    ensures var w1, begun := ScanStep(cfg, w, s), Baseline(cfg, w, s.found);
      if path in s.found
      then Get(w1.cursor, path) == Get(begun.cursor, path) && Get(w1.candidates, path) == Get(w.candidates, path)
      else path !in w1.cursor && path !in w1.candidates
  {
    var begun := Baseline(cfg, w, s.found);
    forall k | 0 <= k < s.reached
      ensures s.order[k] != path
    {
      assert s.order[k] in Observe(s).visited;
    }
    UnvisitedFrame(cfg, Forget(begun, s.found), begun.cursor, s, 0, s.reached, path);
  }

  /** The scan is its visits and one more observation. */
  lemma ScanIsItsVisits(cfg: Config, w: Watch, s: Scan)
    requires GoodScan(w, s)
    ensures var begun, w1 := Baseline(cfg, w, s.found), ScanStep(cfg, w, s);
      && Before(cfg, w, s, 0) == Forget(begun, s.found)
      && w1.cursor == Before(cfg, w, s, s.reached).cursor && w1.candidates == Before(cfg, w, s, s.reached).candidates
  {
  }

  /** Until its own visit a path stands where the baseline and the last scan left it. */
  lemma PathBeforeVisit(cfg: Config, w: Watch, s: Scan, k: nat)
    requires GoodScan(w, s) && k < s.reached
    ensures var begun, before, path := Baseline(cfg, w, s.found), Before(cfg, w, s, k), s.order[k];
      Get(before.cursor, path) == Get(begun.cursor, path) && Get(before.candidates, path) == Get(w.candidates, path)
  {
    var begun, path := Baseline(cfg, w, s.found), s.order[k];
    var forgot := Forget(begun, s.found);
    assert path in s.order;
    ForgetFrame(begun, s.found, path);
    hide Visit, Forget;
    UnvisitedFrame(cfg, forgot, begun.cursor, s, 0, k, path);
  }

  lemma ForgetFrame(w: Watch, found: map<Path, Identity>, path: Path)
    requires path in found
    ensures Get(Forget(w, found).cursor, path) == Get(w.cursor, path)
    ensures Get(Forget(w, found).candidates, path) == Get(w.candidates, path)
  {
  }

  /** A path the scan reached is settled by its own visit. */
  lemma PathAfterVisit(cfg: Config, w: Watch, s: Scan, k: nat)
    requires GoodScan(w, s) && k < s.reached
    ensures var w1, visited, path := ScanStep(cfg, w, s), Before(cfg, w, s, k + 1), s.order[k];
      Get(w1.cursor, path) == Get(visited.cursor, path) && Get(w1.candidates, path) == Get(visited.candidates, path)
  {
    var begun := Baseline(cfg, w, s.found);
    ScanIsItsVisits(cfg, w, s);
    hide Visit, Visited, ScanStep, Forget, Baseline;
    UnvisitedFrame(cfg, Forget(begun, s.found), begun.cursor, s, k + 1, s.reached, s.order[k]);
  }

  /** The scan queues an event for the `k`-th path it visits. */
  predicate Queues(cfg: Config, w: Watch, s: Scan, k: nat)
    requires k < |s.order| == |s.ids| && forall p :: p in s.order ==> p in s.found
  {
    |Before(cfg, w, s, k + 1).appended| > |Before(cfg, w, s, k).appended|
  }

  /** The scan's own verdict on one path, in terms of where the path stood before the scan. */
  lemma VisitVerdict(cfg: Config, w: Watch, s: Scan, k: nat)
    requires GoodScan(w, s) && k < s.reached
    ensures var w1, begun, path := ScanStep(cfg, w, s), Baseline(cfg, w, s.found), s.order[k];
      var (candidate, ready) := Ready(cfg, Get(w.candidates, path), Get(begun.cursor, path), s.found[path], s.now);
      && (Queues(cfg, w, s, k) <==> ready && |Before(cfg, w, s, k).pending| < cfg.maxPending)
      && (if Queues(cfg, w, s, k)
          then Get(w1.cursor, path) == Some(s.found[path]) && Get(w1.candidates, path) == None
          else Get(w1.cursor, path) == Get(begun.cursor, path) && Get(w1.candidates, path) == candidate)
  {
    PathBeforeVisit(cfg, w, s, k);
    PathAfterVisit(cfg, w, s, k);
    VisitEffect(cfg, Before(cfg, w, s, k), Baseline(cfg, w, s.found).cursor, s.order[k], s.found[s.order[k]], s.now,
      s.ids[k]);
  }

  lemma VisitEffect(cfg: Config, w: Watch, prior: map<Path, Identity>, path: Path, identity: Identity, now: real,
                    id: EventId)
    requires Get(w.cursor, path) == Get(prior, path)
    ensures var w1 := Visit(cfg, w, prior, path, identity, now, id);
      var (candidate, ready) := Ready(cfg, Get(w.candidates, path), Get(prior, path), identity, now);
      var queues := ready && |w.pending| < cfg.maxPending;
      && (|w1.appended| > |w.appended| <==> queues)
      && (queues ==> w1.appended == w.appended + [Event(id, path, path !in prior, identity.size, identity.mtime)])
      && (if queues then Get(w1.cursor, path) == Some(identity) && Get(w1.candidates, path) == None
          else Get(w1.cursor, path) == Get(prior, path) && Get(w1.candidates, path) == candidate)
  {
  }

  // ---------------------------------------------------------------- the streaks stay exact

  /** One more observation prolongs a streak, ends it, or starts one. */
  lemma StreakProlonged(log: seq<Observation>, last: Observation, path: Path, identity: Identity, i: nat)
    ensures StillSince(log + [last], path, identity, i) <==>
      (path in last.found && (path in last.visited ==> last.found[path] == identity)
       && (StillSince(log, path, identity, i) || (i == |log| && path in last.visited)))
  {
    var longer := log + [last];
    assert longer[|log|] == last;
    assert forall j :: 0 <= j < |log| ==> longer[j] == log[j];
  }

  /** What a scan did to one path: cursor and candidate before and after. */
  predicate PathStep(cfg: Config, last: Observation, path: Path,
                     cursor: Option<Identity>, cursor1: Option<Identity>, candidate: Option<Candidate>,
                     candidate1: Option<Candidate>) {
    if path !in last.found then cursor1 == None && candidate1 == None
    else if path !in last.visited then cursor1 == cursor && candidate1 == candidate
    else
      || (cursor1 == Some(last.found[path]) && candidate1 == None)
      || (cursor1 == cursor && candidate1 == Ready(cfg, candidate, cursor, last.found[path], last.now).0)
  }

  lemma ScanIsPathStep(cfg: Config, w: Watch, s: Scan, path: Path)
    requires GoodScan(w, s)
    ensures var w1, begun := ScanStep(cfg, w, s), Baseline(cfg, w, s.found);
      PathStep(cfg, Observe(s), path, Get(begun.cursor, path), Get(w1.cursor, path), Get(w.candidates, path),
        Get(w1.candidates, path))
  {
    if path in Observe(s).visited {
      var k :| 0 <= k < s.reached && s.order[k] == path;
      VisitVerdict(cfg, w, s, k);
    } else {
      PathUnvisited(cfg, w, s, path);
    }
  }

  lemma PathStepKeepsFit(cfg: Config, log: seq<Observation>, last: Observation, path: Path,
                         cursor: Option<Identity>, cursor1: Option<Identity>, candidate: Option<Candidate>,
                         candidate1: Option<Candidate>)
    requires Exact(cfg, log, cursor, path, candidate)
    requires PathStep(cfg, last, path, cursor, cursor1, candidate, candidate1)
    requires candidate1.Some?
    ensures Fits(cfg, log + [last], cursor1, path, candidate1.value)
  {
    var identity := candidate1.value.identity;
    if candidate == candidate1 {
      var i: nat :| StillSince(log, path, identity, i) && log[i].now == candidate.value.since;
      StreakProlonged(log, last, path, identity, i);
      assert (log + [last])[i] == log[i];
    } else {
      StreakProlonged(log, last, path, identity, |log|);
    }
  }

  lemma PathStepKeepsCover(cfg: Config, log: seq<Observation>, last: Observation, path: Path,
                           cursor: Option<Identity>, cursor1: Option<Identity>, candidate: Option<Candidate>,
                           candidate1: Option<Candidate>)
    requires Exact(cfg, log, cursor, path, candidate)
    requires PathStep(cfg, last, path, cursor, cursor1, candidate, candidate1)
    requires InTimeOrder(log + [last])
    ensures Covers(cfg, log + [last], cursor1, path, candidate1)
  {
    var log1 := log + [last];
    forall identity, i: nat | StillSince(log1, path, identity, i) && Eligible(cfg, cursor1, identity)
      ensures candidate1.Some? && candidate1.value.identity == identity && candidate1.value.since <= log1[i].now
    {
      StreakProlonged(log, last, path, identity, i);
      assert !Eligible(cfg, Some(identity), identity);
      if i < |log| {
        assert log1[i] == log[i];
      } else if candidate.Some? {
        var start: nat :|
          StillSince(log, path, candidate.value.identity, start) && log[start].now == candidate.value.since;
        assert log1[start] == log[start] && log1[|log|] == last;
      }
    }
  }

  lemma ScanKeepsStreaks(cfg: Config, w: Watch, s: Scan)
    requires Streaks(cfg, w) && GoodScan(w, s)
    ensures Streaks(cfg, ScanStep(cfg, w, s))
  {
    var w1, begun := ScanStep(cfg, w, s), Baseline(cfg, w, s.found);
    ReadyAfterScan(cfg, w, s);
    forall path
      ensures Exact(cfg, w1.log, Get(w1.cursor, path), path, Get(w1.candidates, path))
    {
      ScanIsPathStep(cfg, w, s, path);
      BaselineKeepsExact(cfg, w, s.found, path);
      var cursor, cursor1, candidate, candidate1 :=
        Get(begun.cursor, path), Get(w1.cursor, path), Get(w.candidates, path), Get(w1.candidates, path);
      PathStepKeepsCover(cfg, w.log, Observe(s), path, cursor, cursor1, candidate, candidate1);
      if candidate1.Some? {
        PathStepKeepsFit(cfg, w.log, Observe(s), path, cursor, cursor1, candidate, candidate1);
      }
    }
  }

  /** The baseline is taken before this process has any streak. */
  lemma BaselineKeepsExact(cfg: Config, w: Watch, found: map<Path, Identity>, path: Path)
    requires Streaks(cfg, w)
    ensures Exact(cfg, w.log, Get(Baseline(cfg, w, found).cursor, path), path, Get(w.candidates, path))
  {
    assert Exact(cfg, w.log, Get(w.cursor, path), path, Get(w.candidates, path));
  }

  lemma ReadyAfterScan(cfg: Config, w: Watch, s: Scan)
    requires Streaks(cfg, w) && GoodScan(w, s)
    ensures var w1 := ScanStep(cfg, w, s);
      w1.ready && w1.log == w.log + [Observe(s)] && InTimeOrder(w1.log)
  {
    VisitedReady(cfg, Forget(Baseline(cfg, w, s.found), s.found), Baseline(cfg, w, s.found).cursor, s, s.reached);
  }

  lemma {:induction false} VisitedReady(cfg: Config, w: Watch, prior: map<Path, Identity>, s: Scan, n: nat)
    requires n <= |s.order| == |s.ids| && forall p :: p in s.order ==> p in s.found
    ensures Visited(cfg, w, prior, s, n).ready == w.ready && Visited(cfg, w, prior, s, n).log == w.log
  {
    if n > 0 {
      VisitedReady(cfg, w, prior, s, n - 1);
    }
  }

  lemma StepKeepsStreaks(cfg: Config, w: Watch, l: Label)
    requires Streaks(cfg, w) && Enabled(w, l)
    ensures Streaks(cfg, Step(cfg, w, l))
  {
    match l
    case DoScan(s) => ScanKeepsStreaks(cfg, w, s);
    case ScanStopsAtForget(found) =>
      forall path
        ensures Exact(cfg, w.log, Get(Baseline(cfg, w, found).cursor, path), path, Get(w.candidates, path))
      {
        BaselineKeepsExact(cfg, w, found, path);
      }
    case Send(delivered, acknowledged) => SameStreaks(cfg, w, Step(cfg, w, l));
    case Settle => SameStreaks(cfg, w, Step(cfg, w, l));
    case SettleFails => SameStreaks(cfg, w, Step(cfg, w, l));
    case Restart =>
  }

  lemma SameStreaks(cfg: Config, w: Watch, w1: Watch)
    requires Streaks(cfg, w)
    requires w1.ready == w.ready && w1.cursor == w.cursor && w1.candidates == w.candidates && w1.log == w.log
    ensures Streaks(cfg, w1)
  {
  }

  lemma {:induction false} RunKeepsStreaks(cfg: Config, w: Watch, ls: seq<Label>)
    requires Streaks(cfg, w) && IsRun(cfg, w, ls)
    ensures Streaks(cfg, After(cfg, w, ls))
    decreases |ls|
  {
    if ls != [] {
      StepKeepsStreaks(cfg, w, ls[0]);
      RunKeepsStreaks(cfg, Step(cfg, w, ls[0]), ls[1..]);
    }
  }

  /** Soundness over whole runs: a queued identity differs from the cursor, carries the marker asked
      for, and every scan of this process from some scan at least the quiet period ago on,
      this one included, found the path and saw that identity whenever it reached it. */
  lemma QueuedOnlyAfterQuietPeriod(cfg: Config, w: Watch, s: Scan, k: nat)
    requires Reachable(cfg, w) && Enabled(w, DoScan(s)) && k < s.reached && Queues(cfg, w, s, k)
    ensures var path, identity := s.order[k], s.found[s.order[k]];
      var known := Get(Baseline(cfg, w, s.found).cursor, path);
      && (known.Some? ==> identity.size != known.value.size || identity.mtime != known.value.mtime)
      && (cfg.needsMarker ==> identity.marker != "" && (known.Some? ==> identity.marker != known.value.marker))
      && exists i: nat :: StillSince(w.log, path, identity, i) && s.now - w.log[i].now >= cfg.quiet
  {
    var ls :| IsRun(cfg, FRESH, ls) && After(cfg, FRESH, ls) == w;
    RunKeepsStreaks(cfg, FRESH, ls);
    VisitVerdict(cfg, w, s, k);
    BaselineKeepsExact(cfg, w, s.found, s.order[k]);
  }

  /** Completeness: the first scan that reaches a path whose pending change has been quiet long
      enough queues it, if there is room; and if there is none, the candidate keeps its age,
      so a full queue delays a change but never drops it. */
  lemma QuietChangeIsQueuedWhenThereIsRoom(cfg: Config, w: Watch, s: Scan, k: nat, i: nat)
    requires Reachable(cfg, w) && Enabled(w, DoScan(s)) && k < s.reached
    requires var known, identity := Get(Baseline(cfg, w, s.found).cursor, s.order[k]), s.found[s.order[k]];
      && (known.Some? ==> identity.size != known.value.size || identity.mtime != known.value.mtime)
      && (cfg.needsMarker ==> identity.marker != "" && (known.Some? ==> identity.marker != known.value.marker))
    requires StillSince(w.log, s.order[k], s.found[s.order[k]], i) && s.now - w.log[i].now >= cfg.quiet
    ensures Queues(cfg, w, s, k) <==> |Before(cfg, w, s, k).pending| < cfg.maxPending
    ensures !Queues(cfg, w, s, k) ==>
      s.order[k] in w.candidates && Get(ScanStep(cfg, w, s).candidates, s.order[k]) == Some(w.candidates[s.order[k]])
  {
    var ls :| IsRun(cfg, FRESH, ls) && After(cfg, FRESH, ls) == w;
    RunKeepsStreaks(cfg, FRESH, ls);
    VisitVerdict(cfg, w, s, k);
    BaselineKeepsExact(cfg, w, s.found, s.order[k]);
  }
}
