/** The journal and the watcher as objects: one durable, one volatile. */
module LocalFileWatching {
  import opened Options
  import opened FileWatch

  /** The private SQLite file: every method is one transaction that commits whole or not at all.
      `failsAt` is the write at which SQLite raises, if any; what was written is rolled back. */
  class FileJournal {
    var ready: bool
    var files: map<Path, Identity>
    var pending: seq<Event>
    /** Every event ever appended, and every event ever settled. */
    ghost var appended: seq<Event>
    ghost var settled: seq<Event>

    /** What was settled followed by what is pending is everything ever appended, each event once. */
    ghost predicate Valid()
      reads this
    {
      settled + pending == appended && DistinctIds(appended)
    }

    constructor ()
      ensures Valid() && !ready && files == map[] && pending == [] && appended == [] && settled == []
    {
      ready, files, pending := false, map[], [];
      appended, settled := [], [];
    }

    /** The initial observations and the initialized flag, all of them or none. */
    method Baseline(found: map<Path, Identity>, failsAt: Option<nat>) returns (committed: bool)
      modifies this`ready, this`files
      ensures committed ==> ready && files == old(files) + found
      ensures !committed ==> ready == old(ready) && files == old(files)
      ensures committed <==> failsAt.None? || failsAt.value > |found.Keys|
    {
      var savedFiles, left, written := files, found.Keys, 0;
      WrittenEnds(savedFiles, found);
      hide Written;
      while left != {}
        invariant left <= found.Keys && ready == old(ready)
        invariant files == Written(savedFiles, found, left)
        invariant Counts(left, found.Keys, written, failsAt)
        decreases |left|
      {
        OneMoreCounted(left, found.Keys, written, failsAt);
        hide Counts;
        if failsAt == Some(written) {
          files := savedFiles;
          return false;
        }
        var path :| path in left;
        OneMoreWritten(savedFiles, found, left, path);
        files := files[path := found[path]];
        left, written := left - {path}, written + 1;
      }
      if failsAt == Some(written) {
        files := savedFiles;
        return false;
      }
      ready := true;
      return true;
    }

    /** Disappeared paths leave the cursor, all of them or none; no event tells of it. */
    method Forget(paths: set<Path>, failsAt: Option<nat>) returns (committed: bool)
      modifies this`files
      ensures files == if committed then old(files) - paths else old(files)
      ensures committed <==> failsAt.None? || failsAt.value >= |paths|
    {
      var savedFiles, left, written := files, paths, 0;
      while left != {}
        invariant left <= paths && files == savedFiles - (paths - left)
        invariant Counts(left, paths, written, failsAt)
        decreases |left|
      {
        if failsAt == Some(written) {
          files := savedFiles;
          return false;
        }
        var path :| path in left;
        files := files - {path};
        assert paths - (left - {path}) == (paths - left) + {path};
        left, written := left - {path}, written + 1;
      }
      assert paths - left == paths;
      return true;
    }

    /** The event and the cursor it announces become durable together or not at all, so that an event
        with a fresh id keeps the journal's promise whatever write fails. */
    method Append(event: Event, identity: Identity, failsAt: Option<nat>) returns (committed: bool)
      modifies this`files, this`pending, this`appended
      ensures committed ==>
        pending == old(pending) + [event] && appended == old(appended) + [event] &&
          files == old(files)[event.path := identity]
      ensures !committed ==> pending == old(pending) && appended == old(appended) && files == old(files)
      ensures committed <==> failsAt.None? || failsAt.value > 2
      ensures old(Valid()) && (forall k :: 0 <= k < |old(appended)| ==> old(appended)[k].id != event.id) ==> Valid()
    {
      var savedFiles, savedPending := files, pending;
      if failsAt == Some(0) {
        return false;
      }
      pending := pending + [event];
      if failsAt == Some(1) {
        pending := savedPending;
        return false;
      }
      files := files[event.path := identity];
      if failsAt == Some(2) {
        files, pending := savedFiles, savedPending;
        return false;
      }
      appended := appended + [event];
      assert settled + (savedPending + [event]) == (settled + savedPending) + [event];
      return true;
    }

    /** The event to deliver is the oldest one ever appended that is not settled; there is none exactly
        when everything is settled. */
    method First() returns (event: Option<Event>)
      ensures event.None? <==> pending == []
      ensures event.Some? ==> event.value == pending[0]
      ensures Valid() ==> (event.None? <==> settled == appended)
      ensures Valid() && event.Some? ==> |settled| < |appended| && event.value == appended[|settled|]
    {
      if |pending| == 0 {
        assert settled + [] == settled;
        return None;
      }
      assert |settled + pending| == |settled| + |pending| && (settled + pending)[|settled|] == pending[0];
      return Some(pending[0]);
    }

    /** Delete the rows with this event id: of the oldest event, exactly that one. */
    method Settle(event: Event)
      modifies this`pending, this`settled
      ensures pending == Without(old(pending), event.id) && settled == old(settled) + [event]
      ensures old(Valid()) && |old(pending)| > 0 && event == old(pending)[0] ==> Valid() && pending == old(pending)[1..]
    {
      SettlesHead(settled, pending, appended, event);
      var kept := [];
      for i := 0 to |pending|
        invariant pending == old(pending) && settled == old(settled)
        invariant kept + Without(pending[i..], event.id) == Without(pending, event.id)
      {
        assert pending[i..][0] == pending[i] && pending[i..][1..] == pending[i + 1..];
        if pending[i].id != event.id {
          assert kept + ([pending[i]] + Without(pending[i + 1..], event.id)) ==
            (kept + [pending[i]]) + Without(pending[i + 1..], event.id);
          kept := kept + [pending[i]];
        }
      }
      assert pending[|pending|..] == [];
      pending := kept;
      settled := settled + [event];
    }
  }

  /** The cursor while the observations of `left` are still to be written. */
  function Written(saved: map<Path, Identity>, found: map<Path, Identity>, left: set<Path>): map<Path, Identity> {
    saved + (found - left)
  }

  lemma OneMoreWritten(saved: map<Path, Identity>, found: map<Path, Identity>, left: set<Path>, path: Path)
    requires path in left && path in found
    ensures Written(saved, found, left)[path := found[path]] == Written(saved, found, left - {path})
  {
  }

  /** The writes so far, none of which failed. */
  predicate Counts(left: set<Path>, all: set<Path>, written: nat, failsAt: Option<nat>) {
    written + |left| == |all| && (failsAt.Some? ==> failsAt.value >= written)
  }

  lemma OneMoreCounted(left: set<Path>, all: set<Path>, written: nat, failsAt: Option<nat>)
    requires left != {} && Counts(left, all, written, failsAt)
    ensures failsAt == Some(written) ==> written < |all|
    ensures failsAt != Some(written) ==>
      forall path :: path in left ==> Counts(left - {path}, all, written + 1, failsAt)
  {
  }

  lemma WrittenEnds(saved: map<Path, Identity>, found: map<Path, Identity>)
    ensures Written(saved, found, found.Keys) == saved && Written(saved, found, {}) == saved + found
  {
    assert found - found.Keys == map[] && found - {} == found;
  }

  lemma SettlesHead(settled: seq<Event>, pending: seq<Event>, appended: seq<Event>, event: Event)
    ensures settled + pending == appended && DistinctIds(appended) && |pending| > 0 && event == pending[0] ==>
      Without(pending, event.id) == pending[1..] && (settled + [event]) + pending[1..] == appended
  {
    if settled + pending == appended && DistinctIds(appended) && |pending| > 0 && event == pending[0] {
      assert forall i :: 0 <= i < |pending| ==> pending[i] == appended[|settled| + i];
      WithoutHead(pending[1..], event.id);
    }
  }

  /** How one POST went: it may reach the receiver without its 202 coming back. */
  datatype Reply = Reply(delivered: bool, acknowledged: bool)

  /** `deliver_pending`, as sends and settlements of the head. */
  function Delivered(cfg: Config, w: Watch, replies: seq<Reply>): Watch
    decreases |replies|
  {
    if replies == [] || w.pending == [] then w
    else
      var sent := Step(cfg, w, Send(replies[0].delivered, replies[0].acknowledged));
      if !replies[0].acknowledged then sent else Delivered(cfg, Step(cfg, sent, Label.Settle), replies[1..])
  }

  /** A quiet change at the `n`-th path of a scan that meets a full queue. */
  ghost predicate FindsNoRoom(cfg: Config, begun: Watch, prior: map<Path, Identity>, s: Scan, n: nat)
    requires n < s.reached <= |s.order| && |s.order| == |s.ids| && forall p :: p in s.order ==> p in s.found
  {
    var w, path := Visited(cfg, begun, prior, s, n), s.order[n];
    |w.pending| >= cfg.maxPending && Ready(cfg, Get(w.candidates, path), Get(prior, path), s.found[path], s.now).1
  }

  /** Among the first `n` paths of a scan. */
  ghost predicate MeetsFullQueue(cfg: Config, begun: Watch, prior: map<Path, Identity>, s: Scan, n: nat)
    requires n <= s.reached <= |s.order| && |s.order| == |s.ids| && forall p :: p in s.order ==> p in s.found
  {
    exists m :: 0 <= m < n && FindsNoRoom(cfg, begun, prior, s, m)
  }

  lemma OneMorePath(cfg: Config, begun: Watch, prior: map<Path, Identity>, s: Scan, n: nat)
    requires n < s.reached <= |s.order| && |s.order| == |s.ids| && forall p :: p in s.order ==> p in s.found
    ensures var w, path := Visited(cfg, begun, prior, s, n), s.order[n];
      MeetsFullQueue(cfg, begun, prior, s, n + 1) <==>
        MeetsFullQueue(cfg, begun, prior, s, n)
        || (|w.pending| >= cfg.maxPending &&
              Ready(cfg, Get(w.candidates, path), Get(prior, path), s.found[path], s.now).1)
  {
    hide Visited, Ready;
    if MeetsFullQueue(cfg, begun, prior, s, n + 1) {
      var m :| 0 <= m < n + 1 && FindsNoRoom(cfg, begun, prior, s, m);
      assert m < n ==> MeetsFullQueue(cfg, begun, prior, s, n);
    }
    if FindsNoRoom(cfg, begun, prior, s, n) {
      assert MeetsFullQueue(cfg, begun, prior, s, n + 1);
    }
  }

  class LocalFileWatcher {
    const config: Config
    const journal: FileJournal
    var candidates: map<Path, Candidate>
    /** The observations of this process, and what reached the receiver. */
    ghost var log: seq<Observation>
    ghost var received: seq<Event>

    constructor (config: Config, journal: FileJournal)
      ensures this.config == config && this.journal == journal && candidates == map[] && log == [] && received == []
    {
      this.config, this.journal := config, journal;
      candidates, log, received := map[], [], [];
    }

    ghost function Snapshot(): Watch
      reads this, journal
    {
      Watch(journal.ready, journal.files, journal.pending, candidates, false, log, journal.appended, journal.settled,
        received)
    }

    /** `_ready`. */
    method IsReady(path: Path, identity: Identity, previous: Option<Identity>, now: real) returns (ready: bool)
      modifies this`candidates
      ensures ready == Ready(config, Get(old(candidates), path), previous, identity, now).1
      ensures candidates ==
        PutCandidate(old(candidates), path, Ready(config, Get(old(candidates), path), previous, identity, now).0)
    {
      if previous.Some? && (previous.value.size, previous.value.mtime) == (identity.size, identity.mtime) {
        candidates := candidates - {path};
        return false;
      }
      if config.needsMarker && (identity.marker == "" || (previous.Some? && identity.marker == previous.value.marker)) {
        candidates := candidates - {path};
        return false;
      }
      if path !in candidates || candidates[path].identity != identity {
        candidates := candidates[path := Candidate(identity, now)];
        return false;
      }
      assert candidates[path := candidates[path]] == candidates;
      return now - candidates[path].since >= config.quiet;
    }

    /** The baseline of a first scan, then forgetting what disappeared; returns the cursor the scan compares against. */
    method BeginScan(found: map<Path, Identity>) returns (prior: map<Path, Identity>)
      modifies this`candidates, journal`ready, journal`files
      ensures prior == Baseline(config, old(Snapshot()), found).cursor
      ensures Snapshot() == FileWatch.Forget(Baseline(config, old(Snapshot()), found), found)
    {
      if !journal.ready {
        var _ := journal.Baseline(if config.emitExisting then map[] else found, None);
        assert config.emitExisting ==> old(journal.files) + map[] == old(journal.files);
      }
      prior := journal.files;
      var _ := journal.Forget(prior.Keys - found.Keys, None);
      assert journal.files == map p | p in prior && p in found :: prior[p];
      candidates := map p | p in candidates && p in found :: candidates[p];
    }

    /** One iteration of the scan loop. */
    method VisitPath(prior: map<Path, Identity>, path: Path, identity: Identity, now: real, id: EventId)
      returns (queued: bool, queueFull: bool)
      modifies this`candidates, journal`files, journal`pending, journal`appended
      ensures Snapshot() == Visit(config, old(Snapshot()), prior, path, identity, now, id)
      ensures queued ==> |old(journal.pending)| < config.maxPending && |journal.pending| == |old(journal.pending)| + 1
      ensures !queued ==> journal.pending == old(journal.pending)
      ensures var ready := Ready(config, Get(old(candidates), path), Get(prior, path), identity, now).1;
        && (queued <==> ready && |old(journal.pending)| < config.maxPending)
        && (queueFull <==> ready && |old(journal.pending)| >= config.maxPending)
    {
      var previous := Get(prior, path);
      var ready := IsReady(path, identity, previous, now);
      queued, queueFull := false, false;
      if ready {
        if |journal.pending| >= config.maxPending {
          queueFull := true;
        } else {
          var _ := journal.Append(Event(id, path, previous.None?, identity.size, identity.mtime), identity, None);
          candidates := candidates - {path};
          queued := true;
        }
      }
    }

    /** One snapshot: baseline, forget, then queue what is quiet while there is room. */
    method ScanOnce(s: Scan) returns (queued: nat, queueFull: bool)
      requires GoodScan(Snapshot(), s)
      modifies this, journal
      ensures Snapshot() == ScanStep(config, old(Snapshot()), s)
      ensures queued == |journal.pending| - |old(journal.pending)|
      ensures var begun := Baseline(config, old(Snapshot()), s.found);
        queueFull <==>
          MeetsFullQueue(config, FileWatch.Forget(begun, s.found), begun.cursor, s, s.reached)
    {
      hide Visit, Ready, Get, FileWatch.Baseline, FileWatch.Forget, FindsNoRoom;
      ghost var was := Snapshot();
      var prior := BeginScan(s.found);
      ghost var forgot := Snapshot();
      queued, queueFull := 0, false;
      assert !MeetsFullQueue(config, forgot, prior, s, 0);
      assert forall p :: p in s.order ==> p in s.found;
      hide GoodScan, MeetsFullQueue;
      for n := 0 to s.reached
        invariant Snapshot() == Visited(config, forgot, prior, s, n)
        invariant queued == |journal.pending| - |was.pending|
        invariant queueFull <==> MeetsFullQueue(config, forgot, prior, s, n)
      {
        OneMorePath(config, forgot, prior, s, n);
        var isQueued, isFull := VisitPath(prior, s.order[n], s.found[s.order[n]], s.now, s.ids[n]);
        queued := if isQueued then queued + 1 else queued;
        queueFull := queueFull || isFull;
      }
      log := log + [Observe(s)];
    }

    /** Attempt the oldest pending events once each, settling only on an acknowledgement. */
    method DeliverPending(replies: seq<Reply>) returns (accepted: nat)
      requires forall i :: 0 <= i < |replies| ==> replies[i].acknowledged ==> replies[i].delivered
      modifies this`received, journal
      ensures Snapshot() == Delivered(config, old(Snapshot()), replies).(accepted := false)
      ensures |journal.settled| == |old(journal.settled)| + accepted
    {
      accepted := 0;
      ghost var was := Snapshot();
      for n := 0 to |replies|
        invariant Delivered(config, was, replies) == Delivered(config, Snapshot(), replies[n..])
        invariant |journal.settled| == |old(journal.settled)| + accepted
      {
        assert replies[n..][0] == replies[n] && replies[n..][1..] == replies[n + 1..];
        var first := journal.First();
        if first.None? {
          break;
        }
        ghost var head := journal.pending[0];
        if replies[n].delivered {
          received := received + [head];
        }
        if !replies[n].acknowledged {
          return;
        }
        journal.Settle(first.value);
        accepted := accepted + 1;
      }
    }
  }

  /** A delivery is a run of the watcher, so everything proved of runs holds of it. */
  lemma {:induction false} DeliveryIsRun(cfg: Config, w: Watch, replies: seq<Reply>) returns (ls: seq<Label>)
    requires !w.accepted && forall i :: 0 <= i < |replies| ==> replies[i].acknowledged ==> replies[i].delivered
    ensures IsRun(cfg, w, ls) && After(cfg, w, ls) == Delivered(cfg, w, replies)
    decreases |replies|
  {
    if replies == [] || w.pending == [] {
      ls := [];
    } else {
      var send := Send(replies[0].delivered, replies[0].acknowledged);
      var sent := Step(cfg, w, send);
      if !replies[0].acknowledged {
        ls := [send];
        assert ls[1..] == [] && IsRun(cfg, sent, []);
      } else {
        var settled := Step(cfg, sent, Label.Settle);
        var rest := DeliveryIsRun(cfg, settled, replies[1..]);
        ls := [send, Label.Settle] + rest;
        assert ls[1..] == [Label.Settle] + rest && ls[1..][1..] == rest;
        assert IsRun(cfg, sent, ls[1..]) && After(cfg, sent, ls[1..]) == After(cfg, settled, rest);
      }
    }
  }
}
