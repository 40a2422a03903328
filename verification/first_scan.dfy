/** What the very first scan does with files that are already there. */
module FirstScan {
  import opened Options
  import opened FileWatch
  import opened QuietPeriod

  predicate Scans(l: Label) { l.DoScan? || l.ScanStopsAtForget? }

  function FoundBy(l: Label): map<Path, Identity>
    requires Scans(l)
  {
    if l.DoScan? then l.scan.found else l.found
  }

  predicate SameFile(a: Identity, b: Identity) {
    a.size == b.size && a.mtime == b.mtime
  }

  /** No event was ever queued for the path. */
  ghost predicate Silent(appended: seq<Event>, path: Path) {
    forall i :: 0 <= i < |appended| ==> appended[i].path != path
  }

  lemma SilentAppends(appended: seq<Event>, event: Event, path: Path)
    ensures Silent(appended + [event], path) <==> Silent(appended, path) && event.path != path
  {
    var longer := appended + [event];
    assert longer[|appended|] == event && forall i :: 0 <= i < |appended| ==> longer[i] == appended[i];
  }

  /** Nothing has been scanned yet. */
  lemma {:induction false} UnscannedIsFresh(cfg: Config, w: Watch, ls: seq<Label>)
    requires IsRun(cfg, w, ls) && !w.ready && w.cursor == map[] && w.candidates == map[]
    requires w.appended == [] && w.log == []
    requires forall i :: 0 <= i < |ls| ==> !Scans(ls[i])
    requires w.pending == []
    ensures var w1 := After(cfg, w, ls);
      !w1.ready && w1.cursor == map[] && w1.appended == [] && w1.log == [] && w1.candidates == map[] && w1.pending == []
    decreases |ls|
  {
    if |ls| > 0 {
      UnscannedIsFresh(cfg, Step(cfg, w, ls[0]), ls[1..]);
    }
  }

  // ---------------------------------------------------------------- existing files are not announced

  /** The file is on record as it is, and was never announced. */
  ghost predicate OnRecord(w: Watch, path: Path, identity: Identity) {
    w.ready && path in w.cursor && SameFile(w.cursor[path], identity) && Silent(w.appended, path)
  }

  lemma VisitKeepsRecord(cfg: Config, w: Watch, prior: map<Path, Identity>, path: Path, identity: Identity, now: real,
                         id: EventId, other: Path, known: Identity)
    requires OnRecord(w, other, known)
    requires path == other ==> path in prior && SameFile(prior[path], identity)
    ensures OnRecord(Visit(cfg, w, prior, path, identity, now, id), other, known)
  {
    SilentAppends(w.appended, Event(id, path, path !in prior, identity.size, identity.mtime), other);
  }

  lemma {:induction false} VisitedKeepsRecord(cfg: Config, w: Watch, prior: map<Path, Identity>, s: Scan, n: nat,
                                              path: Path, known: Identity)
    requires n <= |s.order| == |s.ids| && forall p :: p in s.order ==> p in s.found
    requires OnRecord(w, path, known) && path in prior && path in s.found && SameFile(prior[path], s.found[path])
    ensures OnRecord(Visited(cfg, w, prior, s, n), path, known)
  {
    hide Visit, OnRecord;
    if n > 0 {
      VisitedKeepsRecord(cfg, w, prior, s, n - 1, path, known);
      VisitKeepsRecord(cfg, Visited(cfg, w, prior, s, n - 1), prior, s.order[n - 1], s.found[s.order[n - 1]], s.now,
        s.ids[n - 1], path, known);
    }
  }

  lemma ScanKeepsRecord(cfg: Config, w: Watch, s: Scan, path: Path, known: Identity)
    requires GoodScan(w, s) && path in s.found && SameFile(s.found[path], known)
    requires OnRecord(Baseline(cfg, w, s.found), path, known)
    ensures OnRecord(ScanStep(cfg, w, s), path, known)
  {
    var begun := Baseline(cfg, w, s.found);
    ForgetFrame(begun, s.found, path);
    VisitedKeepsRecord(cfg, Forget(begun, s.found), begun.cursor, s, s.reached, path, known);
  }

  lemma StepKeepsRecord(cfg: Config, w: Watch, l: Label, path: Path, known: Identity)
    requires Enabled(w, l) && OnRecord(w, path, known)
    requires l.DoScan? ==> path in l.scan.found && SameFile(l.scan.found[path], known)
    ensures OnRecord(Step(cfg, w, l), path, known)
  {
    if l.DoScan? {
      ScanKeepsRecord(cfg, w, l.scan, path, known);
    }
  }

  lemma {:induction false} RunKeepsRecord(cfg: Config, w: Watch, ls: seq<Label>, path: Path, known: Identity)
    requires IsRun(cfg, w, ls) && OnRecord(w, path, known)
    requires forall i :: 0 <= i < |ls| && ls[i].DoScan? ==>
      path in ls[i].scan.found && SameFile(ls[i].scan.found[path], known)
    ensures OnRecord(After(cfg, w, ls), path, known)
    decreases |ls|
  {
    hide Step, OnRecord, SameFile;
    if |ls| > 0 {
      StepKeepsRecord(cfg, w, ls[0], path, known);
      RunKeepsRecord(cfg, Step(cfg, w, ls[0]), ls[1..], path, known);
    }
  }

  /** Unless existing files are to be announced, no run queues an event for a file that the first scan
      found, as long as every later scan finds it with the size and time it had then. */
  lemma ExistingFilesAreSilent(cfg: Config, before: seq<Label>, first: Label, later: seq<Label>, path: Path)
    requires !cfg.emitExisting && IsRun(cfg, FRESH, before) && Scans(first) && Enabled(After(cfg, FRESH, before), first)
    requires forall i :: 0 <= i < |before| ==> !Scans(before[i])
    requires path in FoundBy(first)
    requires IsRun(cfg, Step(cfg, After(cfg, FRESH, before), first), later)
    requires forall i :: 0 <= i < |later| && later[i].DoScan? ==>
      path in later[i].scan.found && SameFile(later[i].scan.found[path], FoundBy(first)[path])
    ensures Silent(After(cfg, Step(cfg, After(cfg, FRESH, before), first), later).appended, path)
  {
    var w, known := After(cfg, FRESH, before), FoundBy(first)[path];
    UnscannedIsFresh(cfg, FRESH, before);
    hide Step, OnRecord, IsRun, After, SameFile;
    FirstScanRecords(cfg, w, first, path);
    RunKeepsRecord(cfg, Step(cfg, w, first), later, path, known);
    RecordIsSilent(After(cfg, Step(cfg, w, first), later), path, known);
  }

  lemma FirstScanRecords(cfg: Config, w: Watch, first: Label, path: Path)
    requires !cfg.emitExisting && !w.ready && w.cursor == map[] && w.appended == []
    requires Scans(first) && Enabled(w, first) && path in FoundBy(first)
    ensures OnRecord(Step(cfg, w, first), path, FoundBy(first)[path])
  {
    assert OnRecord(Baseline(cfg, w, FoundBy(first)), path, FoundBy(first)[path]);
    if first.DoScan? {
      ScanKeepsRecord(cfg, w, first.scan, path, FoundBy(first)[path]);
    }
  }

  lemma RecordIsSilent(w: Watch, path: Path, known: Identity)
    requires OnRecord(w, path, known)
    ensures Silent(w.appended, path)
  {
  }

  // ---------------------------------------------------------------- existing files are announced

  /** Only what was announced is on record. */
  ghost predicate RecordedIsAnnounced(w: Watch) {
    forall path :: path in w.cursor ==> !Silent(w.appended, path)
  }

  lemma VisitAnnounces(cfg: Config, w: Watch, prior: map<Path, Identity>, path: Path, identity: Identity, now: real,
                       id: EventId)
    requires RecordedIsAnnounced(w)
    ensures RecordedIsAnnounced(Visit(cfg, w, prior, path, identity, now, id))
  {
    var event := Event(id, path, path !in prior, identity.size, identity.mtime);
    forall other
      ensures Silent(w.appended + [event], other) <==> Silent(w.appended, other) && event.path != other
    {
      SilentAppends(w.appended, event, other);
    }
    hide Silent;
  }

  lemma {:induction false} VisitedAnnounces(cfg: Config, w: Watch, prior: map<Path, Identity>, s: Scan, n: nat)
    requires n <= |s.order| == |s.ids| && forall p :: p in s.order ==> p in s.found
    requires RecordedIsAnnounced(w)
    ensures RecordedIsAnnounced(Visited(cfg, w, prior, s, n))
  {
    hide Visit, RecordedIsAnnounced;
    if n > 0 {
      VisitedAnnounces(cfg, w, prior, s, n - 1);
      VisitAnnounces(cfg, Visited(cfg, w, prior, s, n - 1), prior, s.order[n - 1], s.found[s.order[n - 1]], s.now,
        s.ids[n - 1]);
    }
  }

  lemma StepAnnounces(cfg: Config, w: Watch, l: Label)
    requires cfg.emitExisting && Enabled(w, l) && RecordedIsAnnounced(w)
    ensures RecordedIsAnnounced(Step(cfg, w, l))
  {
    if l.DoScan? {
      var begun := Baseline(cfg, w, l.scan.found);
      var forgot := Forget(begun, l.scan.found);
      assert RecordedIsAnnounced(forgot);
      VisitedAnnounces(cfg, forgot, begun.cursor, l.scan, l.scan.reached);
    }
    hide Silent;
  }

  lemma {:induction false} RunAnnounces(cfg: Config, w: Watch, ls: seq<Label>)
    requires cfg.emitExisting && IsRun(cfg, w, ls) && RecordedIsAnnounced(w)
    ensures RecordedIsAnnounced(After(cfg, w, ls))
    decreases |ls|
  {
    hide Step, RecordedIsAnnounced;
    if |ls| > 0 {
      StepAnnounces(cfg, w, ls[0]);
      RunAnnounces(cfg, Step(cfg, w, ls[0]), ls[1..]);
    }
  }

  /** When existing files are to be announced, the first scan that reaches one never announced before,
      seen unchanged for the quiet period and with its marker if one is asked for, queues it as created
      if there is room, and leaves it alone if there is none. */
  lemma ExistingFilesAreAnnounced(cfg: Config, ls: seq<Label>, s: Scan, k: nat, i: nat)
    requires cfg.emitExisting && IsRun(cfg, FRESH, ls)
    requires var w := After(cfg, FRESH, ls);
      && Enabled(w, DoScan(s)) && k < s.reached && Silent(w.appended, s.order[k])
      && StillSince(w.log, s.order[k], s.found[s.order[k]], i) && s.now - w.log[i].now >= cfg.quiet
    requires cfg.needsMarker ==> s.found[s.order[k]].marker != ""
    ensures var w, path, identity := After(cfg, FRESH, ls), s.order[k], s.found[s.order[k]];
      var before, after := Before(cfg, w, s, k), Before(cfg, w, s, k + 1);
      after.appended == if |before.pending| < cfg.maxPending
        then before.appended + [Event(s.ids[k], path, true, identity.size, identity.mtime)] else before.appended
  {
    var w, path, identity := After(cfg, FRESH, ls), s.order[k], s.found[s.order[k]];
    RunAnnounces(cfg, FRESH, ls);
    assert path !in w.cursor && Baseline(cfg, w, s.found).cursor == w.cursor;
    QuietChangeIsQueuedWhenThereIsRoom(cfg, w, s, k, i);
    PathBeforeVisit(cfg, w, s, k);
    VisitEffect(cfg, Before(cfg, w, s, k), w.cursor, path, identity, s.now, s.ids[k]);
    VisitAppends(cfg, Before(cfg, w, s, k), w.cursor, path, identity, s.now, s.ids[k]);
  }

  lemma VisitAppends(cfg: Config, w: Watch, prior: map<Path, Identity>, path: Path, identity: Identity, now: real,
                     id: EventId)
    ensures var w1 := Visit(cfg, w, prior, path, identity, now, id);
      |w1.appended| <= |w.appended| ==> w1.appended == w.appended
  {
  }
}
