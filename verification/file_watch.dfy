/** The file watcher over its durable journal, as whole runs: scans, deliveries, failures and restarts. */
module FileWatch {
  import opened Options

  type Path = string
  type EventId = nat

  /** `marker` is empty when no completion marker was found beside the file. */
  datatype Identity = Identity(size: int, mtime: int, marker: string)

  /** One queued event; its encoded bytes are a function of these fields. */
  datatype Event = Event(id: EventId, path: Path, created: bool, size: int, mtime: int)

  datatype Config = Config(quiet: real, needsMarker: bool, emitExisting: bool, maxPending: nat)

  datatype Candidate = Candidate(identity: Identity, since: real)

  /** One scan of this process: what was found, which paths the loop reached, and when. */
  datatype Observation = Observation(found: map<Path, Identity>, visited: set<Path>, now: real)

  /** `ready`, `cursor` and `pending` are durable; `candidates`, `accepted` and `log` belong to the
      process; `appended`, `settled` and `received` record the whole history. */
  datatype Watch = Watch(
    ready: bool,
    cursor: map<Path, Identity>,
    pending: seq<Event>,
    candidates: map<Path, Candidate>,
    accepted: bool,
    log: seq<Observation>,
    appended: seq<Event>,
    settled: seq<Event>,
    received: seq<Event>)

  const FRESH := Watch(false, map[], [], map[], false, [], [], [], [])

  function Get<T>(m: map<Path, T>, path: Path): Option<T> {
    if path in m then Some(m[path]) else None
  }

  /** A change worth announcing: new size or time, and a fresh completion marker if one is asked for. */
  predicate Eligible(cfg: Config, previous: Option<Identity>, identity: Identity) {
    && (previous.Some? ==> (previous.value.size, previous.value.mtime) != (identity.size, identity.mtime))
    && (cfg.needsMarker ==> identity.marker != "" && (previous.Some? ==> identity.marker != previous.value.marker))
  }

  /** `_ready`, as the candidate it leaves and its verdict. */
  function Ready(cfg: Config, candidate: Option<Candidate>, previous: Option<Identity>, identity: Identity,
                 now: real): (Option<Candidate>, bool) {
    if !Eligible(cfg, previous, identity) then (None, false)
    else if candidate.None? || candidate.value.identity != identity then (Some(Candidate(identity, now)), false)
    else (candidate, now - candidate.value.since >= cfg.quiet)
  }

  function PutCandidate(candidates: map<Path, Candidate>, path: Path,
                        candidate: Option<Candidate>): map<Path, Candidate> {
    if candidate.Some? then candidates[path := candidate.value] else candidates - {path}
  }

  /** `FileJournal.append`: event and cursor commit together. */
  function Append(w: Watch, event: Event, identity: Identity): Watch {
    w.(pending := w.pending + [event], appended := w.appended + [event], cursor := w.cursor[event.path := identity])
  }

  /** One iteration of the scan loop. */
  function Visit(cfg: Config, w: Watch, prior: map<Path, Identity>, path: Path, identity: Identity, now: real,
                 id: EventId): Watch {
    var previous := Get(prior, path);
    var (candidate, ready) := Ready(cfg, Get(w.candidates, path), previous, identity, now);
    var w1 := w.(candidates := PutCandidate(w.candidates, path, candidate));
    if !ready || |w.pending| >= cfg.maxPending then w1
    else
      var w2 := Append(w1, Event(id, path, previous.None?, identity.size, identity.mtime), identity);
      w2.(candidates := w2.candidates - {path})
  }

  /** What one scan is given; `reached` counts the paths visited before an exception, if any, ended it. */
  datatype Scan = Scan(found: map<Path, Identity>, order: seq<Path>, now: real, ids: seq<EventId>, reached: nat)

  /** `order` lists what was found, each path once; event ids are fresh. */
  ghost predicate GoodScan(w: Watch, s: Scan) {
    && |s.ids| == |s.order| && s.reached <= |s.order|
    && (forall p :: p in s.order <==> p in s.found)
    && (forall i, j :: 0 <= i < j < |s.order| ==> s.order[i] != s.order[j])
    && (forall i, j :: 0 <= i < j < |s.ids| ==> s.ids[i] != s.ids[j])
    && (forall i, k :: 0 <= i < |s.ids| && 0 <= k < |w.appended| ==> s.ids[i] != w.appended[k].id)
    && (w.log != [] ==> w.log[|w.log| - 1].now <= s.now)
  }

  /** The baseline transaction of the very first scan. */
  function Baseline(cfg: Config, w: Watch, found: map<Path, Identity>): Watch {
    if w.ready then w
    else w.(ready := true, cursor := if cfg.emitExisting then w.cursor else w.cursor + found)
  }

  /** Forget what disappeared, in the journal and among the candidates. */
  function Forget(w: Watch, found: map<Path, Identity>): Watch {
    w.(cursor := map p | p in w.cursor && p in found :: w.cursor[p],
       candidates := map p | p in w.candidates && p in found :: w.candidates[p])
  }

  function Visited(cfg: Config, w: Watch, prior: map<Path, Identity>, s: Scan, n: nat): Watch
    requires n <= |s.order| == |s.ids|
    requires forall p :: p in s.order ==> p in s.found
  {
    if n == 0 then w
    else Visit(cfg, Visited(cfg, w, prior, s, n - 1), prior, s.order[n - 1], s.found[s.order[n - 1]], s.now,
      s.ids[n - 1])
  }

  function Observe(s: Scan): Observation
    requires s.reached <= |s.order|
  {
    Observation(s.found, set i | 0 <= i < s.reached :: s.order[i], s.now)
  }

  function ScanStep(cfg: Config, w: Watch, s: Scan): Watch
    requires |s.ids| == |s.order| && s.reached <= |s.order| && forall p :: p in s.order ==> p in s.found
  {
    var begun := Baseline(cfg, w, s.found);
    var last := Visited(cfg, Forget(begun, s.found), begun.cursor, s, s.reached);
    last.(log := last.log + [Observe(s)])
  }

  /** `settle`: drop the row with this id. */
  function Without(pending: seq<Event>, id: EventId): seq<Event> {
    if pending == [] then []
    else if pending[0].id == id then Without(pending[1..], id)
    else [pending[0]] + Without(pending[1..], id)
  }

  datatype Label =
    | DoScan(scan: Scan)
    | ScanStopsAtForget(found: map<Path, Identity>)
    | Send(delivered: bool, acknowledged: bool)
    | Settle
    | SettleFails
    | Restart

  ghost predicate Enabled(w: Watch, l: Label) {
    match l
    case DoScan(s) => !w.accepted && GoodScan(w, s)
    case ScanStopsAtForget(_) => !w.accepted
    case Send(delivered, acknowledged) => !w.accepted && w.pending != [] && (acknowledged ==> delivered)
    case Settle => w.accepted && w.pending != []
    case SettleFails => w.accepted
    case Restart => true
  }

  function Step(cfg: Config, w: Watch, l: Label): Watch
    requires l.DoScan? ==>
      |l.scan.ids| == |l.scan.order| && l.scan.reached <= |l.scan.order| &&
      forall p :: p in l.scan.order ==> p in l.scan.found
    requires l.Send? || l.Settle? ==> w.pending != []
  {
    match l
    case DoScan(s) => ScanStep(cfg, w, s)
    case ScanStopsAtForget(found) => Baseline(cfg, w, found)
    case Send(delivered, acknowledged) =>
      w.(received := if delivered then w.received + [w.pending[0]] else w.received, accepted := acknowledged)
    case Settle => w.(pending := Without(w.pending, w.pending[0].id), settled := w.settled + [w.pending[0]],
      accepted := false)
    case SettleFails => w.(accepted := false)
    case Restart => w.(candidates := map[], accepted := false, log := [])
  }

  ghost predicate IsRun(cfg: Config, w: Watch, ls: seq<Label>)
    decreases |ls|
  {
    ls == [] || (Enabled(w, ls[0]) && IsRun(cfg, Step(cfg, w, ls[0]), ls[1..]))
  }

  ghost function After(cfg: Config, w: Watch, ls: seq<Label>): Watch
    requires IsRun(cfg, w, ls)
    decreases |ls|
  {
    if ls == [] then w else After(cfg, Step(cfg, w, ls[0]), ls[1..])
  }

  /** A watcher opened on a fresh journal, or on one an earlier process left behind. */
  ghost predicate Reachable(cfg: Config, w: Watch) {
    exists ls :: IsRun(cfg, FRESH, ls) && After(cfg, FRESH, ls) == w
  }

  // ---------------------------------------------------------------- conservation

  ghost predicate DistinctIds(events: seq<Event>) {
    forall i, j :: 0 <= i < j < |events| ==> events[i].id != events[j].id
  }

  /** The receiver keeps the first arrival of each event and drops repeats. */
  function FirstArrivals(received: seq<Event>): seq<Event> {
    if received == [] then []
    else
      var before := FirstArrivals(received[..|received| - 1]);
      var last := received[|received| - 1];
      if last in before then before else before + [last]
  }

  /** Nothing is lost, repeated, reordered or altered on its way through the journal, and the
      receiver is at most the event in delivery ahead of what is settled. */
  ghost predicate Conserved(w: Watch) {
    && w.settled + w.pending == w.appended
    && DistinctIds(w.appended)
    && (FirstArrivals(w.received) == w.settled
        || (w.pending != [] && FirstArrivals(w.received) == w.settled + [w.pending[0]]))
    && (w.accepted ==> w.pending != [] && FirstArrivals(w.received) == w.settled + [w.pending[0]])
  }

  lemma {:induction false} WithoutHead(pending: seq<Event>, id: EventId)
    requires forall i :: 0 <= i < |pending| ==> pending[i].id != id
    ensures Without(pending, id) == pending
  {
    if pending != [] {
      WithoutHead(pending[1..], id);
    }
  }

  /** What a scan adds to the journal goes to the end of the queue and of the history alike. */
  ghost predicate Extends(w: Watch, w1: Watch, more: seq<Event>) {
    && w1.pending == w.pending + more
    && w1.appended == w.appended + more
    && w1.settled == w.settled && w1.received == w.received && w1.accepted == w.accepted && w1.log == w.log
  }

  lemma VisitExtends(cfg: Config, w: Watch, prior: map<Path, Identity>, path: Path, identity: Identity, now: real,
                     id: EventId)
    returns (more: seq<Event>)
    ensures Extends(w, Visit(cfg, w, prior, path, identity, now, id), more)
    ensures more == [] || (|more| == 1 && more[0].id == id && |w.pending| < cfg.maxPending)
  {
    var w1 := Visit(cfg, w, prior, path, identity, now, id);
    more := w1.appended[|w.appended|..];
  }

  lemma ExtendsTwice(w: Watch, w1: Watch, w2: Watch, more: seq<Event>, last: seq<Event>)
    requires Extends(w, w1, more) && Extends(w1, w2, last)
    ensures Extends(w, w2, more + last)
  {
  }

  /** Everything appended by the first `n` visits carries one of their ids. */
  lemma {:induction false} VisitedExtends(cfg: Config, w: Watch, prior: map<Path, Identity>, s: Scan, n: nat)
    returns (more: seq<Event>)
    requires n <= |s.order| == |s.ids| && forall p :: p in s.order ==> p in s.found
    requires forall i, j :: 0 <= i < j < |s.ids| ==> s.ids[i] != s.ids[j]
    ensures Extends(w, Visited(cfg, w, prior, s, n), more)
    ensures DistinctIds(more)
    ensures forall k :: 0 <= k < |more| ==> more[k].id in s.ids[..n]
    ensures |w.pending| + |more| <= if |w.pending| <= cfg.maxPending then cfg.maxPending else |w.pending|
  {
    hide Visit;
    if n == 0 {
      more := [];
    } else {
      more := VisitedExtends(cfg, w, prior, s, n - 1);
      var w0 := Visited(cfg, w, prior, s, n - 1);
      var last := VisitExtends(cfg, w0, prior, s.order[n - 1], s.found[s.order[n - 1]], s.now, s.ids[n - 1]);
      ExtendsTwice(w, w0, Visited(cfg, w, prior, s, n), more, last);
      assert s.ids[..n] == s.ids[..n - 1] + [s.ids[n - 1]];
      more := more + last;
    }
  }

  lemma ScanExtends(cfg: Config, w: Watch, s: Scan) returns (more: seq<Event>)
    requires GoodScan(w, s)
    ensures Extends(w.(log := w.log + [Observe(s)]), ScanStep(cfg, w, s), more)
    ensures DistinctIds(w.appended) ==> DistinctIds(w.appended + more)
    ensures |w.pending| + |more| <= if |w.pending| <= cfg.maxPending then cfg.maxPending else |w.pending|
  {
    var begun := Baseline(cfg, w, s.found);
    more := VisitedExtends(cfg, Forget(begun, s.found), begun.cursor, s, s.reached);
  }

  lemma StepKeepsConserved(cfg: Config, w: Watch, l: Label)
    requires Conserved(w) && Enabled(w, l)
    ensures Conserved(Step(cfg, w, l))
  {
    match l
    case DoScan(s) => ScanKeepsConserved(cfg, w, s);
    case ScanStopsAtForget(found) =>
    case Send(delivered, acknowledged) => SendKeepsConserved(w, delivered, acknowledged);
    case Settle => SettleKeepsConserved(w);
    case SettleFails =>
    case Restart =>
  }

  lemma ScanKeepsConserved(cfg: Config, w: Watch, s: Scan)
    requires Conserved(w) && !w.accepted && GoodScan(w, s)
    ensures Conserved(ScanStep(cfg, w, s))
  {
    var more := ScanExtends(cfg, w, s);
    assert w.settled + (w.pending + more) == (w.settled + w.pending) + more;
  }

  lemma SettleKeepsConserved(w: Watch)
    requires Conserved(w) && w.accepted
    ensures Conserved(w.(pending := Without(w.pending, w.pending[0].id), settled := w.settled + [w.pending[0]],
      accepted := false))
    ensures Without(w.pending, w.pending[0].id) == w.pending[1..]
  {
    var head := w.pending[0];
    assert forall i :: 0 <= i < |w.pending| ==> w.pending[i] == w.appended[|w.settled| + i];
    WithoutHead(w.pending[1..], head.id);
    assert w.settled + w.pending == (w.settled + [head]) + w.pending[1..];
  }

  lemma SendKeepsConserved(w: Watch, delivered: bool, acknowledged: bool)
    requires Conserved(w) && !w.accepted && w.pending != [] && (acknowledged ==> delivered)
    ensures Conserved(w.(received := if delivered then w.received + [w.pending[0]] else w.received,
      accepted := acknowledged))
  {
    var head := w.pending[0];
    var longer := w.received + [head];
    assert longer[..|w.received|] == w.received;
    assert head == w.appended[|w.settled|];
    assert head !in w.settled by {
      forall i | 0 <= i < |w.settled|
        ensures w.settled[i] != head
      {
        assert w.settled[i] == w.appended[i];
      }
    }
  }

  lemma {:induction false} RunKeepsConserved(cfg: Config, w: Watch, ls: seq<Label>)
    requires Conserved(w) && IsRun(cfg, w, ls)
    ensures Conserved(After(cfg, w, ls))
    decreases |ls|
  {
    if ls != [] {
      StepKeepsConserved(cfg, w, ls[0]);
      RunKeepsConserved(cfg, Step(cfg, w, ls[0]), ls[1..]);
    }
  }

  /** Conservation over every run, with crashes, lost acknowledgements and failed transactions:
      settled events followed by pending ones are exactly the events ever appended, in order
      and unaltered, and the receiver's first arrivals are a prefix of that history, at most
      one event ahead of what is settled. */
  lemma JournalConserves(cfg: Config, w: Watch)
    requires Reachable(cfg, w)
    ensures w.settled + w.pending == w.appended && DistinctIds(w.appended)
    ensures FirstArrivals(w.received) <= w.appended
    ensures |w.settled| <= |FirstArrivals(w.received)| <= |w.settled| + 1
  {
    var ls :| IsRun(cfg, FRESH, ls) && After(cfg, FRESH, ls) == w;
    RunKeepsConserved(cfg, FRESH, ls);
    if w.pending != [] {
      assert w.settled + [w.pending[0]] <= w.settled + w.pending;
    }
  }

  /** History is append-only: no later step alters or withdraws an appended or a settled event. */
  lemma {:induction false} HistoryGrows(cfg: Config, w: Watch, ls: seq<Label>)
    requires Conserved(w) && IsRun(cfg, w, ls)
    ensures w.appended <= After(cfg, w, ls).appended && w.settled <= After(cfg, w, ls).settled
    decreases |ls|
  {
    if ls != [] {
      StepKeepsConserved(cfg, w, ls[0]);
      if ls[0].DoScan? {
        var more := ScanExtends(cfg, w, ls[0].scan);
      }
      HistoryGrows(cfg, Step(cfg, w, ls[0]), ls[1..]);
    }
  }

  /** Backpressure: the queue never grows past the limit, or past what it was opened with. */
  lemma {:induction false} PendingIsBounded(cfg: Config, w: Watch, ls: seq<Label>)
    requires Conserved(w) && IsRun(cfg, w, ls)
    ensures |After(cfg, w, ls).pending| <= if |w.pending| <= cfg.maxPending then cfg.maxPending else |w.pending|
    decreases |ls|
  {
    if ls != [] {
      StepKeepsConserved(cfg, w, ls[0]);
      match ls[0] {
        case DoScan(s) => var more := ScanExtends(cfg, w, s);
        case Settle => SettleKeepsConserved(w);
        case _ =>
      }
      PendingIsBounded(cfg, Step(cfg, w, ls[0]), ls[1..]);
    }
  }
}
