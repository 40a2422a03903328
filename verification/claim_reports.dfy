/** `WorkLoop`: one coroutine that claims, runs and reports, one that keeps the lease alive, and
    cancellation at any await. A step is what the event loop runs between two awaits. */
module ClaimReports {
  import opened Options

  type Claim = nat

  datatype Status = Working | Completed | Failed | Abandoned

  /** A call of `report`, noted when it begins. */
  datatype Report = Report(claim: Claim, status: Status)

  /** How one call of `report` ends. */
  datatype Reply = Accepted | Lost | Transient | Refused

  /** What the loop is awaiting. */
  datatype Main =
    | Asking
    | Resting
    | Running(claim: Claim)
    | Stopping(claim: Claim, result: Option<Status>)
    | Posting(claim: Claim, status: Status, attempt: nat)
    | Backing(claim: Claim, status: Status, attempt: nat, delay: real)
    | Stopped

  /** The keep-alive task: sleeping, awaiting a `working` report, or gone. */
  datatype Keeper = Sleeping | Extending | Gone

  /** `queue` holds what the same pass was handed besides the current claim; `slept` is the time the
      current outcome has been held back by retries. */
  datatype Loop = Loop(
    main: Main,
    keeper: Keeper,
    held: Option<Claim>,
    queue: seq<Claim>,
    claimed: nat,
    slept: real,
    log: seq<Report>)

  const START := Loop(Asking, Gone, None, [], 0, 0.0, [])

  const FIRST_BACKOFF := 0.5
  const MAX_BACKOFF := 8.0
  const MAX_ATTEMPTS: nat := 5

  datatype Label =
    | Handed(count: nat)
    | ClaimFailed(terminal: bool)
    | Rested
    | KeeperWoke
    | KeeperHeard(reply: Reply)
    | RunnerEnded(result: Option<Status>)
    | KeeperStopped
    | Heard(reply: Reply)
    | BackedOff
    | Cancel

  predicate Enabled(s: Loop, l: Label) {
    match l
    case Handed(_) => s.main.Asking?
    case ClaimFailed(_) => s.main.Asking?
    case Rested => s.main.Resting?
    case KeeperWoke => s.main.Running? && s.keeper.Sleeping?
    case KeeperHeard(_) => s.main.Running? && s.keeper.Extending?
    case RunnerEnded(result) => s.main.Running? &&
      (result.Some? ==> result.value == Completed || result.value == Failed)
    case KeeperStopped => s.main.Stopping?
    case Heard(_) => s.main.Posting?
    case BackedOff => s.main.Backing?
    case Cancel => !s.main.Stopped?
  }

  /** `_perform` begins on the next claim of the pass, if there is one. */
  function Take(s: Loop): Loop {
    if |s.queue| == 0 then s.(main := Resting, keeper := Gone, held := None)
    else s.(main := Running(s.queue[0]), keeper := Sleeping, held := Some(s.queue[0]), queue := s.queue[1..])
  }

  /** `_report` begins: the held claim is let go first. */
  function Announce(s: Loop, claim: Claim, status: Status): Loop {
    s.(main := Posting(claim, status, 1), keeper := Gone, held := None, slept := 0.0,
      log := s.log + [Report(claim, status)])
  }

  /** `run`'s own exit: hand back what is still held. */
  function Leave(s: Loop): Loop {
    if s.held.Some? then Announce(s, s.held.value, Abandoned) else s.(main := Stopped, keeper := Gone)
  }

  /** `_report` returns, to the pass or to `run`'s exit. */
  function Reported(s: Loop, status: Status): Loop {
    if status == Abandoned then s.(main := Stopped) else Take(s)
  }

  function Delay(attempt: nat): real
    requires attempt > 0
  {
    if attempt == 1 then FIRST_BACKOFF
      else if Delay(attempt - 1) * 2.0 <= MAX_BACKOFF then Delay(attempt - 1) * 2.0 else MAX_BACKOFF
  }

  function Hear(s: Loop, reply: Reply): Loop
    requires s.main.Posting? && s.main.attempt > 0
  {
    var Posting(claim, status, attempt) := s.main;
    if reply.Transient? && attempt < MAX_ATTEMPTS then s.(main := Backing(claim, status, attempt, Delay(attempt)))
    else Reported(s, status)
  }

  function Step(s: Loop, l: Label): Loop
    requires Enabled(s, l) && (s.main.Posting? ==> s.main.attempt > 0)
  {
    match l
    case Handed(count) =>
      Take(s.(queue := seq(count, i requires 0 <= i < count => s.claimed + i), claimed := s.claimed + count))
    case ClaimFailed(terminal) => if terminal then Leave(s) else s.(main := Resting)
    case Rested => s.(main := Asking)
    case KeeperWoke => s.(keeper := Extending, log := s.log + [Report(s.main.claim, Working)])
    case KeeperHeard(reply) => s.(keeper := if reply.Lost? then Gone else Sleeping)
    case RunnerEnded(result) => s.(main := Stopping(s.main.claim, result))
    case KeeperStopped => if s.main.result.Some? then Announce(s, s.main.claim, s.main.result.value) else Leave(s)
    case Heard(reply) => Hear(s, reply)
    case BackedOff =>
      s.(main := Posting(s.main.claim, s.main.status, s.main.attempt + 1), slept := s.slept + s.main.delay,
         log := s.log + [Report(s.main.claim, s.main.status)])
    case Cancel => if s.main.Running? then s.(main := Stopping(s.main.claim, None)) else Leave(s)
  }

  // ---------------------------------------------------------------- what every step keeps

  predicate Terminal(status: Status) { status != Working }

  /** How often this claim's outcome was attempted. */
  function Attempts(log: seq<Report>, claim: Claim): nat {
    if |log| == 0 then 0
    else
      var last := log[|log| - 1];
      Attempts(log[..|log| - 1], claim) + if last.claim == claim && Terminal(last.status) then 1 else 0
  }

  /** After the first attempt to report an outcome, a claim's reports all carry that outcome. */
  ghost predicate OneOutcome(log: seq<Report>) {
    forall i, j ::
      0 <= i < j < |log| && log[i].claim == log[j].claim && Terminal(log[i].status) ==> log[j].status == log[i].status
  }

  ghost predicate FewAttempts(log: seq<Report>) {
    forall claim :: Attempts(log, claim) <= MAX_ATTEMPTS
  }

  /** The claim the loop is busy with, before its outcome is reported. */
  function Current(main: Main): Option<Claim> {
    if main.Running? || main.Stopping? then Some(main.claim) else None
  }

  /** The claim whose outcome is being reported, how often so far, and with what outcome. */
  ghost predicate Reporting(s: Loop) {
    match s.main
    case Posting(claim, status, attempt) => ReportingOf(s, claim, status, attempt)
    case Backing(claim, status, attempt, delay) => ReportingOf(s, claim, status, attempt) && attempt < MAX_ATTEMPTS &&
      delay == Delay(attempt)
    case _ => true
  }

  /** Four pauses at most, doubling from half a second. */
  function Pauses(attempt: nat): real {
    if attempt <= 1 then 0.0 else Pauses(attempt - 1) + Delay(attempt - 1)
  }

  ghost predicate ReportingOf(s: Loop, claim: Claim, status: Status, attempt: nat) {
    && 1 <= attempt <= MAX_ATTEMPTS && Attempts(s.log, claim) == attempt && Terminal(status)
    && s.slept == Pauses(attempt) && s.held.None?
    && (forall i ::
         0 <= i < |s.log| && s.log[i].claim == claim && Terminal(s.log[i].status) ==> s.log[i].status == status)
  }

  /** Every claim is waiting in the pass, held, or has had its outcome attempted. */
  ghost predicate Accounted(s: Loop) {
    && s.held == Current(s.main)
    && (forall claim: nat ::
         claim < s.claimed <==> claim in s.queue || s.held == Some(claim) || Attempts(s.log, claim) > 0)
    && (forall claim :: claim in s.queue || s.held == Some(claim) ==> Attempts(s.log, claim) == 0)
    && (forall i :: 0 <= i < |s.log| ==> s.log[i].claim < s.claimed && s.log[i].claim !in s.queue)
    && (forall i, j :: 0 <= i < j < |s.queue| ==> s.queue[i] != s.queue[j])
    && (s.held.Some? ==> s.held.value !in s.queue)
  }

  predicate Shaped(s: Loop) {
    && (s.main.Asking? || s.main.Resting? ==> |s.queue| == 0)
    && (s.main.Stopping? && s.main.result.Some? ==> s.main.result.value == Completed || s.main.result.value == Failed)
  }

  ghost predicate Sound(s: Loop) {
    OneOutcome(s.log) && FewAttempts(s.log) && Reporting(s) && Accounted(s) && Shaped(s)
  }

  lemma AttemptsAppend(log: seq<Report>, report: Report, claim: Claim)
    ensures Attempts(log + [report], claim) ==
      Attempts(log, claim) + if report.claim == claim && Terminal(report.status) then 1 else 0
  {
    assert (log + [report])[..|log|] == log;
  }

  lemma {:induction false} NoAttempts(log: seq<Report>, claim: Claim)
    requires Attempts(log, claim) == 0
    ensures forall i :: 0 <= i < |log| && log[i].claim == claim ==> log[i].status == Working
  {
    if |log| > 0 {
      NoAttempts(log[..|log| - 1], claim);
      assert forall i :: 0 <= i < |log| - 1 ==> log[i] == log[..|log| - 1][i];
    }
  }

  // ---------------------------------------------------------------- one report more

  lemma WorkingAppends(log: seq<Report>, claim: Claim)
    requires OneOutcome(log) && FewAttempts(log) && Attempts(log, claim) == 0
    ensures OneOutcome(log + [Report(claim, Working)]) && FewAttempts(log + [Report(claim, Working)])
    ensures forall other :: Attempts(log + [Report(claim, Working)], other) == Attempts(log, other)
  {
    NoAttempts(log, claim);
    forall other
      ensures Attempts(log + [Report(claim, Working)], other) == Attempts(log, other)
    {
      AttemptsAppend(log, Report(claim, Working), other);
    }
  }

  /** The outcome of a claim, attempted for the first time or once more. */
  lemma OutcomeAppends(log: seq<Report>, claim: Claim, status: Status)
    requires OneOutcome(log) && FewAttempts(log) && Terminal(status) && Attempts(log, claim) < MAX_ATTEMPTS
    requires forall i :: 0 <= i < |log| && log[i].claim == claim && Terminal(log[i].status) ==> log[i].status == status
    ensures OneOutcome(log + [Report(claim, status)]) && FewAttempts(log + [Report(claim, status)])
    ensures forall other ::
      Attempts(log + [Report(claim, status)], other) == Attempts(log, other) + if other == claim then 1 else 0
  {
    forall other
      ensures Attempts(log + [Report(claim, status)], other) == Attempts(log, other) + if other == claim then 1 else 0
    {
      AttemptsAppend(log, Report(claim, status), other);
    }
  }

  // ---------------------------------------------------------------- one step

  /** The held claim goes over to being reported. */
  lemma AnnounceKeeps(s: Loop, status: Status)
    requires Sound(s) && s.held.Some? && Terminal(status)
    ensures Sound(Announce(s, s.held.value, status))
  {
    NoAttempts(s.log, s.held.value);
    OutcomeAppends(s.log, s.held.value, status);
    assert Pauses(1) == 0.0;
    hide OneOutcome, FewAttempts, Attempts, Pauses, Delay;
  }

  /** The next claim of the pass is taken up, none being held. */
  lemma TakeKeeps(s: Loop)
    requires OneOutcome(s.log) && FewAttempts(s.log) && s.held.None?
    requires forall claim: nat :: claim < s.claimed <==> claim in s.queue || Attempts(s.log, claim) > 0
    requires forall claim :: claim in s.queue ==> Attempts(s.log, claim) == 0
    requires forall i :: 0 <= i < |s.log| ==> s.log[i].claim < s.claimed && s.log[i].claim !in s.queue
    requires forall i, j :: 0 <= i < j < |s.queue| ==> s.queue[i] != s.queue[j]
    ensures Sound(Take(s))
  {
    hide OneOutcome, FewAttempts, Attempts;
    if |s.queue| > 0 {
      assert s.queue == [s.queue[0]] + s.queue[1..];
      assert forall claim :: claim in s.queue <==> claim == s.queue[0] || claim in s.queue[1..];
      assert forall i :: 0 <= i < |s.queue[1..]| ==> s.queue[1..][i] == s.queue[i + 1];
    }
  }

  lemma HandedKeeps(s: Loop, count: nat)
    requires Sound(s) && s.main.Asking?
    ensures Sound(Step(s, Handed(count)))
  {
    hide OneOutcome, FewAttempts, Take, Attempts;
    var queue := seq(count, i requires 0 <= i < count => s.claimed + i);
    NewClaims(s.claimed, count, queue);
    forall claim | claim in queue
      ensures Attempts(s.log, claim) == 0
    {
      Unreported(s.log, claim, s.claimed);
    }
    TakeKeeps(s.(queue := queue, claimed := s.claimed + count));
  }

  lemma NewClaims(claimed: nat, count: nat, queue: seq<Claim>)
    requires |queue| == count && forall i :: 0 <= i < count ==> queue[i] == claimed + i
    ensures forall claim: nat :: claim in queue <==> claimed <= claim < claimed + count
    ensures forall i, j :: 0 <= i < j < |queue| ==> queue[i] != queue[j]
  {
    forall claim: nat | claimed <= claim < claimed + count
      ensures claim in queue
    {
      assert queue[claim - claimed] == claim;
    }
  }

  lemma {:induction false} Unreported(log: seq<Report>, claim: Claim, claimed: nat)
    requires (forall i :: 0 <= i < |log| ==> log[i].claim < claimed) && claimed <= claim
    ensures Attempts(log, claim) == 0
  {
    if |log| > 0 {
      assert forall i :: 0 <= i < |log| - 1 ==> log[..|log| - 1][i] == log[i];
      Unreported(log[..|log| - 1], claim, claimed);
    }
  }

  lemma KeeperWokeKeeps(s: Loop)
    requires Sound(s) && Enabled(s, KeeperWoke)
    ensures Sound(Step(s, KeeperWoke))
  {
    WorkingAppends(s.log, s.main.claim);
    hide OneOutcome, FewAttempts, Attempts;
  }

  lemma LeaveKeeps(s: Loop)
    requires Sound(s)
    ensures Sound(Leave(s))
  {
    if s.held.Some? {
      AnnounceKeeps(s, Abandoned);
    }
    hide OneOutcome, FewAttempts, Attempts, Announce;
  }

  lemma BackedOffKeeps(s: Loop)
    requires Sound(s) && Enabled(s, BackedOff)
    ensures Sound(Step(s, BackedOff))
  {
    OutcomeAppends(s.log, s.main.claim, s.main.status);
    hide OneOutcome, FewAttempts, Attempts, Delay;
  }

  lemma HeardKeeps(s: Loop, reply: Reply)
    requires Sound(s) && s.main.Posting?
    ensures Sound(Hear(s, reply))
  {
    hide OneOutcome, FewAttempts, Attempts, Delay, Pauses;
    if !(reply.Transient? && s.main.attempt < MAX_ATTEMPTS) && s.main.status != Abandoned {
      TakeKeeps(s);
    }
    hide Take;
  }

  lemma StepKeepsSound(s: Loop, l: Label)
    requires Sound(s) && Enabled(s, l)
    ensures Sound(Step(s, l))
  {
    hide OneOutcome, FewAttempts, Attempts, Delay, Pauses;
    match l
    case Handed(count) => HandedKeeps(s, count);
    case ClaimFailed(terminal) => if terminal { LeaveKeeps(s); }
    case Rested =>
    case KeeperWoke => KeeperWokeKeeps(s);
    case KeeperHeard(reply) =>
    case RunnerEnded(result) =>
    case KeeperStopped =>
      if s.main.result.Some? {
        AnnounceKeeps(s, s.main.result.value);
      } else {
        LeaveKeeps(s);
      }
    case Heard(reply) => HeardKeeps(s, reply);
    case BackedOff => BackedOffKeeps(s);
    case Cancel => if !s.main.Running? { LeaveKeeps(s); }
  }

  // ---------------------------------------------------------------- whole runs

  ghost predicate IsRun(s: Loop, ls: seq<Label>)
    decreases |ls|
  {
    |ls| == 0 || (Enabled(s, ls[0]) && (s.main.Posting? ==> s.main.attempt > 0) && IsRun(Step(s, ls[0]), ls[1..]))
  }

  ghost function After(s: Loop, ls: seq<Label>): Loop
    requires IsRun(s, ls)
    decreases |ls|
  {
    if |ls| == 0 then s else After(Step(s, ls[0]), ls[1..])
  }

  lemma {:induction false} RunKeepsSound(s: Loop, ls: seq<Label>)
    requires Sound(s) && IsRun(s, ls)
    ensures Sound(After(s, ls))
    decreases |ls|
  {
    if |ls| > 0 {
      StepKeepsSound(s, ls[0]);
      hide Sound, Step, Enabled;
      RunKeepsSound(Step(s, ls[0]), ls[1..]);
    }
  }

  lemma {:induction false} PausesAreShort(attempt: nat)
    requires attempt <= MAX_ATTEMPTS
    ensures Pauses(attempt) <= 7.5
  {
    assert Delay(1) == 0.5 && Delay(2) == 1.0 && Delay(3) == 2.0 && Delay(4) == 4.0;
    assert Pauses(1) == 0.0 && Pauses(2) == 0.5 && Pauses(3) == 1.5 && Pauses(4) == 3.5 && Pauses(5) == 7.5;
  }

  /** For every run, under any number of cancellations at any await: a claim's reports are some
      `working` ones followed by at most five attempts that all carry one outcome, so nothing follows
      an outcome but the same outcome; and the retries of one outcome pause 7.5 seconds at most. */
  lemma ReportsFollowTheProtocol(ls: seq<Label>)
    requires IsRun(START, ls)
    ensures var s := After(START, ls);
      && (forall i, j :: 0 <= i < j < |s.log| && s.log[i].claim == s.log[j].claim && Terminal(s.log[i].status) ==>
            s.log[j].status == s.log[i].status)
      && (forall claim :: Attempts(s.log, claim) <= MAX_ATTEMPTS)
      && (s.main.Posting? || s.main.Backing? ==> s.slept <= 7.5)
  {
    assert Sound(START);
    RunKeepsSound(START, ls);
    var s := After(START, ls);
    if s.main.Posting? || s.main.Backing? {
      PausesAreShort(s.main.attempt);
    }
  }

  /** When the loop has stopped, the claims whose outcome was never attempted are exactly those its
      last pass was handed behind the one it was working on. */
  lemma StoppedLoopOwesOnlyTheQueue(ls: seq<Label>, claim: Claim)
    requires IsRun(START, ls) && After(START, ls).main.Stopped? && claim < After(START, ls).claimed
    ensures Attempts(After(START, ls).log, claim) == 0 <==> claim in After(START, ls).queue
  {
    assert Sound(START);
    RunKeepsSound(START, ls);
  }

  /** No pass of the run is handed more than one claim. */
  predicate OnePerPass(ls: seq<Label>) {
    forall i :: 0 <= i < |ls| && ls[i].Handed? ==> ls[i].count <= 1
  }

  lemma {:induction false} QueueStaysEmpty(s: Loop, ls: seq<Label>)
    requires IsRun(s, ls) && OnePerPass(ls) && |s.queue| == 0
    ensures |After(s, ls).queue| == 0
    decreases |ls|
  {
    if |ls| > 0 {
      QueueStaysEmpty(Step(s, ls[0]), ls[1..]);
    }
  }

  /** With one claim per pass no claim is dropped in silence: each one handed over is held or has had
      its outcome attempted, whatever was cancelled and when. */
  lemma NoClaimIsDropped(ls: seq<Label>, claim: Claim)
    requires IsRun(START, ls) && OnePerPass(ls) && claim < After(START, ls).claimed
    ensures After(START, ls).held == Some(claim) || Attempts(After(START, ls).log, claim) > 0
  {
    assert Sound(START);
    RunKeepsSound(START, ls);
    QueueStaysEmpty(START, ls);
  }

  // ---------------------------------------------------------------- a cancelled run

  lemma LogGrows(s: Loop, l: Label)
    requires Enabled(s, l) && (s.main.Posting? ==> s.main.attempt > 0)
    ensures s.log <= Step(s, l).log
  {
  }

  lemma {:induction false} RunsSplit(s: Loop, first: seq<Label>, second: seq<Label>)
    requires IsRun(s, first + second)
    ensures IsRun(s, first) && IsRun(After(s, first), second)
    ensures After(After(s, first), second) == After(s, first + second)
    decreases |first|
  {
    hide Step, Enabled;
    if |first| == 0 {
      assert first + second == second;
    } else {
      assert (first + second)[1..] == first[1..] + second;
      RunsSplit(Step(s, first[0]), first[1..], second);
    }
  }

  /** The run of this claim was cancelled: it is being stopped without a result, or was abandoned. */
  ghost predicate Doomed(s: Loop, claim: Claim) {
    s.main == Stopping(claim, None) || (Report(claim, Abandoned) in s.log && Current(s.main) != Some(claim))
  }

  lemma CancelDooms(s: Loop)
    requires Sound(s) && (s.main.Running? || s.main.Stopping?)
    ensures Doomed(Step(s, Cancel), s.main.claim)
  {
    if s.main.Stopping? {
      var s1 := Leave(s);
      assert s1.log[|s.log|] == Report(s.main.claim, Abandoned);
    }
  }

  lemma StepKeepsDoomed(s: Loop, l: Label, claim: Claim)
    requires Sound(s) && Enabled(s, l) && Doomed(s, claim)
    ensures Doomed(Step(s, l), claim)
  {
    var s1 := Step(s, l);
    StepKeepsSound(s, l);
    LogGrows(s, l);
    if s.main == Stopping(claim, None) {
      assert s1.log[|s.log|] == Report(claim, Abandoned);
    } else {
      var i :| 0 <= i < |s.log| && s.log[i] == Report(claim, Abandoned);
      assert s1.log[i] == Report(claim, Abandoned);
      if Attempts(s1.log, claim) == 0 { NoAttempts(s1.log, claim); }
    }
  }

  lemma {:induction false} RunKeepsDoomed(s: Loop, ls: seq<Label>, claim: Claim)
    requires Sound(s) && IsRun(s, ls) && Doomed(s, claim)
    ensures Doomed(After(s, ls), claim)
    decreases |ls|
  {
    if |ls| > 0 {
      StepKeepsSound(s, ls[0]);
      StepKeepsDoomed(s, ls[0], claim);
      hide Sound, Step, Enabled, Doomed;
      RunKeepsDoomed(Step(s, ls[0]), ls[1..], claim);
    }
  }

  lemma DoomedIsAbandoned(s: Loop, claim: Claim)
    requires Sound(s) && Doomed(s, claim)
    ensures Current(s.main) != Some(claim) ==> Report(claim, Abandoned) in s.log
    ensures forall report ::
      report in s.log && report.claim == claim ==> report.status == Working || report.status == Abandoned
  {
    if s.main == Stopping(claim, None) {
      NoAttempts(s.log, claim);
    } else {
      var i :| 0 <= i < |s.log| && s.log[i] == Report(claim, Abandoned);
    }
  }

  /** For every run in which a cancellation strikes while a claim is being run or its keep-alive stopped,
      whatever happened before and happens afterwards, further cancellations included: once the loop has
      left that claim it has reported it abandoned, and it never reports it completed or failed. */
  lemma CancelledRunAbandons(before: seq<Label>, after: seq<Label>, claim: Claim)
    requires IsRun(START, before) && Current(After(START, before).main) == Some(claim)
    requires IsRun(START, before + [Cancel] + after)
    ensures var s := After(START, before + [Cancel] + after);
      && (Current(s.main) != Some(claim) ==> Report(claim, Abandoned) in s.log)
      && (forall report ::
           report in s.log && report.claim == claim ==> report.status == Working || report.status == Abandoned)
  {
    assert Sound(START);
    hide Sound, Step, Enabled, Doomed;
    assert before + [Cancel] + after == before + ([Cancel] + after);
    RunsSplit(START, before, [Cancel] + after);
    RunKeepsSound(START, before);
    var s := After(START, before);
    CancelDooms(s);
    assert ([Cancel] + after)[0] == Cancel && ([Cancel] + after)[1..] == after;
    StepKeepsSound(s, Cancel);
    RunKeepsSound(Step(s, Cancel), after);
    RunKeepsDoomed(Step(s, Cancel), after, claim);
    DoomedIsAbandoned(After(START, before + [Cancel] + after), claim);
  }

  // ---------------------------------------------------------------- what is reported is what happened

  lemma {:induction false} RunsJoin(s: Loop, first: seq<Label>, second: seq<Label>)
    requires IsRun(s, first) && IsRun(After(s, first), second)
    ensures IsRun(s, first + second) && After(s, first + second) == After(After(s, first), second)
    decreases |first|
  {
    hide Step, Enabled;
    if |first| == 0 {
      assert first + second == second;
    } else {
      assert (first + second)[1..] == first[1..] + second;
      RunsJoin(Step(s, first[0]), first[1..], second);
    }
  }

  /** Somewhere in the run the runner of this claim ended with this status. */
  ghost predicate RunnerSaid(ls: seq<Label>, claim: Claim, status: Status)
    requires IsRun(START, ls)
  {
    exists i :: 0 <= i < |ls| && ls[i] == RunnerEnded(Some(status)) && PrefixRuns(ls, i)
      && After(START, ls[..i]).main == Running(claim)
  }

  ghost predicate PrefixRuns(ls: seq<Label>, i: nat)
    requires i <= |ls|
  {
    IsRun(START, ls[..i])
  }

  /** Every completion and failure reported, on its way to be or held for a report, is what a runner said. */
  ghost predicate AllSaid(ls: seq<Label>)
    requires IsRun(START, ls)
  {
    var s := After(START, ls);
    && (forall report :: report in s.log && (report.status == Completed || report.status == Failed) ==>
          RunnerSaid(ls, report.claim, report.status))
    && (s.main.Stopping? && s.main.result.Some? ==> RunnerSaid(ls, s.main.claim, s.main.result.value))
    && ((s.main.Posting? || s.main.Backing?) && (s.main.status == Completed || s.main.status == Failed) ==>
          RunnerSaid(ls, s.main.claim, s.main.status))
  }

  lemma SaidStays(ls: seq<Label>, l: Label, claim: Claim, status: Status)
    requires IsRun(START, ls) && IsRun(START, ls + [l]) && RunnerSaid(ls, claim, status)
    ensures RunnerSaid(ls + [l], claim, status)
  {
    var i :| 0 <= i < |ls| && ls[i] == RunnerEnded(Some(status)) && PrefixRuns(ls, i)
      && After(START, ls[..i]).main == Running(claim);
    assert (ls + [l])[..i] == ls[..i] && (ls + [l])[i] == ls[i];
    assert PrefixRuns(ls + [l], i);
  }

  lemma SaysNow(ls: seq<Label>, status: Status)
    requires IsRun(START, ls) && After(START, ls).main.Running?
    requires IsRun(START, ls + [RunnerEnded(Some(status))])
    ensures RunnerSaid(ls + [RunnerEnded(Some(status))], After(START, ls).main.claim, status)
  {
    var longer := ls + [RunnerEnded(Some(status))];
    assert longer[..|ls|] == ls;
    assert PrefixRuns(longer, |ls|);
  }

  lemma {:induction false} EverythingIsSaid(ls: seq<Label>)
    requires IsRun(START, ls)
    ensures AllSaid(ls)
  {
    if |ls| > 0 {
      var front, l := ls[..|ls| - 1], ls[|ls| - 1];
      assert ls == front + [l];
      RunsSplit(START, front, [l]);
      EverythingIsSaid(front);
      OneMoreIsSaid(front, l);
    }
  }

  lemma OneMoreIsSaid(ls: seq<Label>, l: Label)
    requires IsRun(START, ls) && AllSaid(ls) && IsRun(START, ls + [l])
    ensures AllSaid(ls + [l])
  {
    RunsSplit(START, ls, [l]);
    var s := After(START, ls);
    assert [l][1..] == [];
    assert After(s, [l]) == Step(s, l);
    forall claim, status | RunnerSaid(ls, claim, status)
      ensures RunnerSaid(ls + [l], claim, status)
    {
      SaidStays(ls, l, claim, status);
    }
    if l.RunnerEnded? && l.result.Some? {
      SaysNow(ls, l.result.value);
    }
    StepReports(s, l);
    hide RunnerSaid, Step, Enabled;
  }

  /** What one step adds to the log, and what it takes on to report. */
  lemma StepReports(s: Loop, l: Label)
    requires Enabled(s, l) && (s.main.Posting? ==> s.main.attempt > 0)
    ensures var s1 := Step(s, l);
      && (forall report ::
           report in s1.log ==>
            || report in s.log || report.status == Working || report.status == Abandoned
            || (s.main.Stopping? && s.main.result == Some(report.status) && s.main.claim == report.claim)
            || (s.main.Backing? && s.main.status == report.status && s.main.claim == report.claim))
      && (s1.main.Stopping? && s1.main.result.Some? ==>
            l == RunnerEnded(s1.main.result) && s.main == Running(s1.main.claim))
      && ((s1.main.Posting? || s1.main.Backing?) ==>
            || s1.main.status == Abandoned
            || (s.main.Stopping? && s.main.result == Some(s1.main.status) && s.main.claim == s1.main.claim)
            || ((s.main.Posting? || s.main.Backing?) && s.main.status == s1.main.status &&
                 s.main.claim == s1.main.claim))
  {
  }

  /** No claim is ever reported completed or failed unless its own runner ended just so before. */
  lemma OutcomeIsTheRunners(ls: seq<Label>, claim: Claim, status: Status)
    requires IsRun(START, ls) && (status == Completed || status == Failed)
    requires Report(claim, status) in After(START, ls).log
    ensures RunnerSaid(ls, claim, status)
  {
    EverythingIsSaid(ls);
  }

  /** And when a runner ends with a status and no cancellation strikes while its keep-alive is stopped, the
      very next step reports that status, the first outcome of that claim, and no other one follows. */
  lemma RunnersOutcomeIsReported(ls: seq<Label>, i: nat, status: Status, claim: Claim)
    requires IsRun(START, ls) && i + 1 < |ls| && IsRun(START, ls[..i]) && IsRun(START, ls[..i + 2])
    requires After(START, ls[..i]).main == Running(claim) && ls[i] == RunnerEnded(Some(status)) && !ls[i + 1].Cancel?
    ensures After(START, ls[..i + 2]).log == After(START, ls[..i]).log + [Report(claim, status)]
    ensures OnlyOutcome(After(START, ls[..i]).log, claim, Working)
    ensures OnlyOutcome(After(START, ls).log, claim, status)
  {
    hide IsRun, After, Step, Enabled, OnlyOutcome;
    TwoEnabled(ls, i);
    assert ls[..i] + [ls[i], ls[i + 1]] == ls[..i + 2];
    RunnerThenReport(ls[..i], status, ls[i + 1], claim);
    assert ls[..i + 2] + ls[i + 2..] == ls;
    OnlyThatOutcome(ls[..i + 2], ls[i + 2..], claim, status);
  }

  lemma TwoEnabled(ls: seq<Label>, i: nat)
    requires IsRun(START, ls) && i + 1 < |ls| && IsRun(START, ls[..i]) && !After(START, ls[..i]).main.Posting?
    ensures var s := After(START, ls[..i]); Enabled(s, ls[i]) && Enabled(Step(s, ls[i]), ls[i + 1])
  {
    hide Step, Enabled;
    assert ls[..i] + ls[i..] == ls;
    RunsSplit(START, ls[..i], ls[i..]);
    FirstTwo(After(START, ls[..i]), ls[i..]);
  }

  ghost predicate OnlyOutcome(log: seq<Report>, claim: Claim, status: Status) {
    forall report :: report in log && report.claim == claim ==> report.status == Working || report.status == status
  }

  lemma TwoSteps(s: Loop, a: Label, b: Label)
    requires Enabled(s, a) && !s.main.Posting? && Enabled(Step(s, a), b) && !Step(s, a).main.Posting?
    ensures IsRun(s, [a, b]) && After(s, [a, b]) == Step(Step(s, a), b)
  {
    hide Step, Enabled;
    assert [a, b][1..] == [b] && [b][1..] == [];
    assert IsRun(Step(s, a), [b]) && After(Step(s, a), [b]) == Step(Step(s, a), b);
  }

  lemma FirstTwo(s: Loop, ls: seq<Label>)
    requires IsRun(s, ls) && |ls| >= 2
    ensures Enabled(s, ls[0]) && (s.main.Posting? ==> s.main.attempt > 0) && Enabled(Step(s, ls[0]), ls[1])
  {
    hide Step, Enabled;
    assert IsRun(Step(s, ls[0]), ls[1..]);
  }

  lemma RunnerThenReport(before: seq<Label>, status: Status, l: Label, claim: Claim)
    requires IsRun(START, before) && After(START, before).main == Running(claim)
    requires var s := After(START, before);
      Enabled(s, RunnerEnded(Some(status))) && Enabled(Step(s, RunnerEnded(Some(status))), l) && !l.Cancel?
    ensures var s, first := After(START, before), before + [RunnerEnded(Some(status)), l];
      && IsRun(START, first) && After(START, first).log == s.log + [Report(claim, status)]
      && OnlyOutcome(s.log, claim, Working)
      && Report(claim, status) in After(START, first).log && status != Working
  {
    var s, pair := After(START, before), [RunnerEnded(Some(status)), l];
    assert Sound(START);
    RunKeepsSound(START, before);
    NoAttempts(s.log, claim);
    hide Sound;
    assert l == KeeperStopped;
    TwoSteps(s, pair[0], l);
    hide IsRun, After, Attempts;
    RunsJoin(START, before, pair);
    assert (s.log + [Report(claim, status)])[|s.log|] == Report(claim, status);
  }

  lemma OnlyThatOutcome(first: seq<Label>, rest: seq<Label>, claim: Claim, status: Status)
    requires IsRun(START, first) && IsRun(START, first + rest)
    requires Report(claim, status) in After(START, first).log && status != Working
    ensures OnlyOutcome(After(START, first + rest).log, claim, status)
  {
    RunsSplit(START, first, rest);
    ReportsFollowTheProtocol(first + rest);
    RunLogGrows(After(START, first), rest);
    hide Step, Enabled, IsRun, After;
    var log := After(START, first + rest).log;
    var i :| 0 <= i < |After(START, first).log| && After(START, first).log[i] == Report(claim, status);
    assert log[i] == Report(claim, status);
  }

  lemma {:induction false} RunLogGrows(s: Loop, ls: seq<Label>)
    requires IsRun(s, ls)
    ensures s.log <= After(s, ls).log
    decreases |ls|
  {
    if |ls| > 0 {
      LogGrows(s, ls[0]);
      hide Step, Enabled;
      RunLogGrows(Step(s, ls[0]), ls[1..]);
    }
  }

  /** A second claim of one pass is lost without a word when the first is cancelled. */
  lemma SecondClaimIsDropped()
    ensures var handed := Step(START, Handed(2));
      var cancelled := Step(Step(handed, Cancel), KeeperStopped);
      var stopped := Step(cancelled, Heard(Accepted));
      stopped.main.Stopped? && stopped.queue == [1] && Attempts(stopped.log, 1) == 0
  {
    var handed := Step(START, Handed(2));
    assert handed.main == Running(0) && handed.queue == [1];
    AttemptsAppend([], Report(0, Abandoned), 1);
    assert [] + [Report(0, Abandoned)] == [Report(0, Abandoned)];
  }

  // ---------------------------------------------------------------- the retry loop

  /** `_report`, given the reply each attempt would get: it stops at the first that is not transient. */
  method ReportOutcome(claim: Claim, status: Status, replies: seq<Reply>) returns (sent: seq<Report>, slept: real)
    requires |replies| >= MAX_ATTEMPTS
    ensures 1 <= |sent| <= MAX_ATTEMPTS && forall i :: 0 <= i < |sent| ==> sent[i] == Report(claim, status)
    ensures forall i :: 0 <= i < |sent| - 1 ==> replies[i].Transient?
    ensures |sent| == MAX_ATTEMPTS || !replies[|sent| - 1].Transient?
    ensures slept == Pauses(|sent|)
  {
    var delay := FIRST_BACKOFF;
    sent, slept := [], 0.0;
    for attempt := 1 to MAX_ATTEMPTS + 1
      invariant |sent| == attempt - 1 && forall i :: 0 <= i < |sent| ==> sent[i] == Report(claim, status)
      invariant forall i :: 0 <= i < |sent| ==> replies[i].Transient?
      invariant attempt <= MAX_ATTEMPTS && delay == Delay(attempt) && slept == Pauses(attempt)
    {
      sent := sent + [Report(claim, status)];
      if attempt == MAX_ATTEMPTS || !replies[attempt - 1].Transient? {
        return;
      }
      slept := slept + delay;
      delay := if delay * 2.0 <= MAX_BACKOFF then delay * 2.0 else MAX_BACKOFF;
    }
  }
}
