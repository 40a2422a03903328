/** How successive events of one path relate. */
module EventSequence {
  import opened Options
  import opened FileWatch
  import opened QuietPeriod

  function LastFor(events: seq<Event>, path: Path): Option<Event> {
    if events == [] then None
    else if events[|events| - 1].path == path then Some(events[|events| - 1])
    else LastFor(events[..|events| - 1], path)
  }

  /** The cursor of a known path is what its last event announced. */
  ghost predicate CursorMatches(cursor: map<Path, Identity>, appended: seq<Event>) {
    forall path :: path in cursor && LastFor(appended, path).Some? ==>
      var event := LastFor(appended, path).value;
      (cursor[path].size, cursor[path].mtime) == (event.size, event.mtime)
  }

  /** A `modified` event differs in size or time from the event before it for the same path. */
  ghost predicate ModifiedDiffer(appended: seq<Event>) {
    forall j :: 0 <= j < |appended| && !appended[j].created && LastFor(appended[..j], appended[j].path).Some? ==>
      var before := LastFor(appended[..j], appended[j].path).value;
      (before.size, before.mtime) != (appended[j].size, appended[j].mtime)
  }

  ghost predicate Told(w: Watch) {
    && CursorMatches(w.cursor, w.appended) && ModifiedDiffer(w.appended)
    && (!w.ready ==> w.appended == [] && w.cursor == map[])
  }

  lemma LastAppended(events: seq<Event>, event: Event, path: Path)
    ensures LastFor(events + [event], path) == if event.path == path then Some(event) else LastFor(events, path)
  {
    assert (events + [event])[..|events|] == events;
  }

  lemma AppendKeepsTold(cursor: map<Path, Identity>, appended: seq<Event>, event: Event, identity: Identity)
    requires CursorMatches(cursor, appended) && ModifiedDiffer(appended)
    requires (identity.size, identity.mtime) == (event.size, event.mtime)
    requires !event.created ==>
      event.path in cursor && (cursor[event.path].size, cursor[event.path].mtime) != (event.size, event.mtime)
    ensures CursorMatches(cursor[event.path := identity], appended + [event]) && ModifiedDiffer(appended + [event])
  {
    forall path | path in cursor[event.path := identity]
      ensures LastFor(appended + [event], path) == if event.path == path then Some(event) else LastFor(appended, path)
    {
      LastAppended(appended, event, path);
    }
    var longer := appended + [event];
    assert longer[..|appended|] == appended;
    forall j | 0 <= j < |appended|
      ensures longer[..j] == appended[..j]
    {
    }
  }

  lemma VisitKeepsTold(cfg: Config, w: Watch, prior: map<Path, Identity>, path: Path, identity: Identity, now: real,
                       id: EventId)
    requires Told(w) && w.ready && Get(w.cursor, path) == Get(prior, path)
    ensures Told(Visit(cfg, w, prior, path, identity, now, id)) && Visit(cfg, w, prior, path, identity, now, id).ready
  {
    var w1 := Visit(cfg, w, prior, path, identity, now, id);
    VisitEffect(cfg, w, prior, path, identity, now, id);
    if |w1.appended| > |w.appended| {
      var event := Event(id, path, path !in prior, identity.size, identity.mtime);
      assert w1.cursor == w.cursor[path := identity];
      AppendKeepsTold(w.cursor, w.appended, event, identity);
    } else {
      assert w1.cursor == w.cursor && w1.appended == w.appended;
    }
  }

  lemma {:induction false} VisitedKeepsTold(cfg: Config, w: Watch, prior: map<Path, Identity>, s: Scan, n: nat)
    requires n <= |s.order| == |s.ids| && (forall p :: p in s.order ==> p in s.found)
    requires forall i, j :: 0 <= i < j < |s.order| ==> s.order[i] != s.order[j]
    requires Told(w) && w.ready && forall p :: p in s.found ==> Get(w.cursor, p) == Get(prior, p)
    ensures Told(Visited(cfg, w, prior, s, n)) && Visited(cfg, w, prior, s, n).ready
  {
    hide Visit, Told;
    if n > 0 {
      VisitedKeepsTold(cfg, w, prior, s, n - 1);
      UnvisitedFrame(cfg, w, prior, s, 0, n - 1, s.order[n - 1]);
      VisitKeepsTold(cfg, Visited(cfg, w, prior, s, n - 1), prior, s.order[n - 1], s.found[s.order[n - 1]], s.now,
        s.ids[n - 1]);
    }
  }

  lemma StepKeepsTold(cfg: Config, w: Watch, l: Label)
    requires Told(w) && Enabled(w, l)
    ensures Told(Step(cfg, w, l))
  {
    match l
    case DoScan(s) =>
      var begun := Baseline(cfg, w, s.found);
      VisitedKeepsTold(cfg, Forget(begun, s.found), begun.cursor, s, s.reached);
    case _ =>
  }

  lemma {:induction false} RunKeepsTold(cfg: Config, w: Watch, ls: seq<Label>)
    requires Told(w) && IsRun(cfg, w, ls)
    ensures Told(After(cfg, w, ls))
    decreases |ls|
  {
    if ls != [] {
      StepKeepsTold(cfg, w, ls[0]);
      RunKeepsTold(cfg, Step(cfg, w, ls[0]), ls[1..]);
    }
  }

  /** No scan of the run missed the path. */
  predicate AlwaysFound(ls: seq<Label>, path: Path) {
    forall i :: 0 <= i < |ls| && ls[i].DoScan? ==> path in ls[i].scan.found
  }

  lemma {:induction false} VisitedKnows(cfg: Config, w: Watch, prior: map<Path, Identity>, s: Scan, n: nat, path: Path)
    requires n <= |s.order| == |s.ids| && (forall p :: p in s.order ==> p in s.found)
    requires path in w.cursor && path in prior
    ensures var w1 := Visited(cfg, w, prior, s, n);
      path in w1.cursor && |w.appended| <= |w1.appended|
      && forall j :: |w.appended| <= j < |w1.appended| && w1.appended[j].path == path ==> !w1.appended[j].created
  {
    if n > 0 {
      VisitedKnows(cfg, w, prior, s, n - 1, path);
    }
  }

  lemma {:induction false} KnownPathIsOnlyModified(cfg: Config, w: Watch, ls: seq<Label>, path: Path)
    requires IsRun(cfg, w, ls) && path in w.cursor && AlwaysFound(ls, path)
    ensures var last := After(cfg, w, ls);
      path in last.cursor && |w.appended| <= |last.appended|
      && forall j :: |w.appended| <= j < |last.appended| && last.appended[j].path == path ==> !last.appended[j].created
    decreases |ls|
  {
    if ls != [] {
      var w1 := Step(cfg, w, ls[0]);
      if ls[0].DoScan? {
        var s := ls[0].scan;
        var begun := Baseline(cfg, w, s.found);
        VisitedKnows(cfg, Forget(begun, s.found), begun.cursor, s, s.reached, path);
      }
      assert path in w1.cursor;
      assert AlwaysFound(ls[1..], path);
      KnownPathIsOnlyModified(cfg, w1, ls[1..], path);
      AppendedGrows(cfg, w1, ls[1..]);
    }
  }

  lemma {:induction false} AppendedGrows(cfg: Config, w: Watch, ls: seq<Label>)
    requires IsRun(cfg, w, ls)
    ensures w.appended <= After(cfg, w, ls).appended
    decreases |ls|
  {
    if ls != [] {
      if ls[0].DoScan? {
        var more := ScanExtends(cfg, w, ls[0].scan);
      }
      AppendedGrows(cfg, Step(cfg, w, ls[0]), ls[1..]);
    }
  }

  /** Two successive events of a path that never disappeared in between differ in size or time. */
  lemma SuccessiveEventsDiffer(cfg: Config, w: Watch, ls: seq<Label>, path: Path, j: nat)
    requires Reachable(cfg, w) && IsRun(cfg, w, ls) && path in w.cursor && AlwaysFound(ls, path)
    requires |w.appended| <= j < |After(cfg, w, ls).appended| && After(cfg, w, ls).appended[j].path == path
    ensures var events := After(cfg, w, ls).appended;
      && !events[j].created
      && (LastFor(events[..j], path).Some? ==>
            var before := LastFor(events[..j], path).value;
              (before.size, before.mtime) != (events[j].size, events[j].mtime))
  {
    var first :| IsRun(cfg, FRESH, first) && After(cfg, FRESH, first) == w;
    RunKeepsTold(cfg, FRESH, first);
    RunKeepsTold(cfg, w, ls);
    KnownPathIsOnlyModified(cfg, w, ls, path);
  }
}
