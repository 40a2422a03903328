/** How the work loop goes on: what ends it, that it comes round to asking again, and its keep-alive. */
module ClaimLoop {
  import opened Options
  import opened ClaimReports

  // ---------------------------------------------------------------- what ends the loop

  /** The loop or its runner is cancelled, or the loop is refused for good. */
  predicate Tells(l: Label) {
    l.Cancel? || (l.ClaimFailed? && l.terminal) || (l.RunnerEnded? && l.result.None?)
  }

  /** On its way out: gone, handing a claim back, or cancelled out of a run. */
  predicate Leaving(main: Main) {
    match main
    case Stopped => true
    case Stopping(_, result) => result.None? || result.value == Abandoned
    case Posting(_, status, _) => status == Abandoned
    case Backing(_, status, _, _) => status == Abandoned
    case _ => false
  }

  lemma StepLeaves(s: Loop, l: Label)
    requires Sound(s) && Enabled(s, l) && (s.main.Posting? ==> s.main.attempt > 0)
    ensures Leaving(Step(s, l).main) <==> Leaving(s.main) || Tells(l)
  {
    assert s.held == Current(s.main) && Shaped(s);
    hide Sound, Delay;
  }

  lemma {:induction false} RunLeaves(s: Loop, ls: seq<Label>)
    requires Sound(s) && IsRun(s, ls)
    ensures Leaving(After(s, ls).main) <==> Leaving(s.main) || exists l :: l in ls && Tells(l)
    decreases |ls|
  {
    hide Step, Enabled, Sound, Leaving, Tells;
    if |ls| > 0 {
      StepLeaves(s, ls[0]);
      StepKeepsSound(s, ls[0]);
      assert forall l :: l in ls <==> l == ls[0] || l in ls[1..];
      RunLeaves(Step(s, ls[0]), ls[1..]);
    }
  }

  /** In every run the loop is on its way out if and only if it was told to be; a transient failure, of whatever call,
      never ends it. */
  lemma LeavesIffTold(ls: seq<Label>)
    requires IsRun(START, ls)
    ensures Leaving(After(START, ls).main) <==> exists l :: l in ls && Tells(l)
  {
    assert Sound(START);
    RunLeaves(START, ls);
  }

  // ---------------------------------------------------------------- it comes round

  /** A step of the loop itself, other than asking. */
  predicate GoesRound(l: Label) {
    l.Rested? || l.RunnerEnded? || l.KeeperStopped? || l.Heard? || l.BackedOff?
  }

  predicate Asks(l: Label) { l.Handed? || l.ClaimFailed? }

  /** Steps until the loop asks again: eleven a claim at most, and the rest. */
  function Ahead(s: Loop): nat {
    match s.main
    case Asking => 0
    case Resting => 1
    case Running(_) => 12 + 11 * |s.queue|
    case Stopping(_, _) => 11 + 11 * |s.queue|
    case Posting(_, _, attempt) => (if attempt <= 5 then 2 * (5 - attempt) else 0) + 2 + 11 * |s.queue|
    case Backing(_, _, attempt, _) => (if attempt <= 5 then 2 * (5 - attempt) else 0) + 1 + 11 * |s.queue|
    case Stopped => 0
  }

  lemma StepComesRound(s: Loop, l: Label)
    requires Sound(s) && Enabled(s, l) && (s.main.Posting? ==> s.main.attempt > 0) && !Asks(l)
    ensures Ahead(Step(s, l)) + (if GoesRound(l) then 1 else 0) <= Ahead(s)
  {
    assert Reporting(s) && s.held == Current(s.main) && Shaped(s);
    hide Sound, Delay, Accounted, OneOutcome, FewAttempts, Attempts, Pauses;
  }

  function Rounds(ls: seq<Label>): nat {
    if |ls| == 0 then 0 else (if GoesRound(ls[0]) then 1 else 0) + Rounds(ls[1..])
  }

  /** However the keep-alive and cancellations interleave, the loop takes boundedly many steps before it asks again. */
  lemma {:induction false} LoopComesRound(s: Loop, ls: seq<Label>)
    requires Sound(s) && IsRun(s, ls) && forall l :: l in ls ==> !Asks(l)
    ensures Rounds(ls) + Ahead(After(s, ls)) <= Ahead(s)
    decreases |ls|
  {
    hide Step, Enabled, Sound, Ahead, Asks, GoesRound;
    if |ls| > 0 {
      assert ls[0] in ls && !Asks(ls[0]);
      StepComesRound(s, ls[0]);
      StepKeepsSound(s, ls[0]);
      LoopComesRound(Step(s, ls[0]), ls[1..]);
    }
  }

  function AskCount(ls: seq<Label>): nat {
    if |ls| == 0 then 0 else (if Asks(ls[0]) then 1 else 0) + AskCount(ls[1..])
  }

  function RestCount(ls: seq<Label>): nat {
    if |ls| == 0 then 0 else (if ls[0].Rested? then 1 else 0) + RestCount(ls[1..])
  }

  lemma StepRests(s: Loop, l: Label)
    requires Enabled(s, l) && (s.main.Posting? ==> s.main.attempt > 0) && !l.Cancel?
    ensures s.main.Asking? <==> Asks(l)
    ensures Step(s, l).main.Asking? <==> l.Rested?
  {
    hide Delay;
  }

  /** It rests exactly once between asking and asking again. */
  lemma {:induction false} RestsBetweenAsks(s: Loop, ls: seq<Label>)
    requires IsRun(s, ls) && forall l :: l in ls ==> !l.Cancel?
    ensures AskCount(ls) + (if After(s, ls).main.Asking? then 1 else 0) ==
      RestCount(ls) + (if s.main.Asking? then 1 else 0)
    decreases |ls|
  {
    hide Step, Enabled, Asks;
    if |ls| > 0 {
      assert ls[0] in ls;
      StepRests(s, ls[0]);
      RestsBetweenAsks(Step(s, ls[0]), ls[1..]);
    }
  }

  /** A reply to an outcome is waited out and the outcome reported once more, four times at most, exactly when it is a
      transient failure; any other reply is the last. */
  lemma TransientIsRetried(s: Loop, reply: Reply)
    requires Sound(s) && s.main.Posting?
    ensures s.main.attempt > 0
    ensures var Posting(claim, status, attempt) := s.main;
      var s1 := Step(s, Heard(reply));
      if reply.Transient? && attempt < 5 then
        s1.main.Backing? && s1.log == s.log
        && var s2 := Step(s1, BackedOff);
           s2.main == Posting(claim, status, attempt + 1) && s2.log == s.log + [Report(claim, status)]
           && s2.slept == s.slept + Delay(attempt)
      else !s1.main.Posting? && !s1.main.Backing? && s1.log == s.log
  {
    assert Reporting(s);
    hide Sound, Delay, Attempts;
  }

  // ---------------------------------------------------------------- the keep-alive

  /** A claim that is taken up is held, and its keep-alive starts; with none left the loop rests and holds nothing. */
  lemma TakenClaimIsKept(s: Loop, l: Label)
    requires Sound(s) && Enabled(s, l) && (s.main.Posting? ==> s.main.attempt > 0)
    ensures var s1 := Step(s, l);
      && (s1.main.Running? && !s.main.Running? ==>
            s1.keeper.Sleeping? && s1.held == Some(s1.main.claim) && s1.log == s.log)
      && (s.main.Running? && s1.main.Running? ==>
            s1.main == s.main && s1.held == s.held && (l.KeeperWoke? || l.KeeperHeard?))
      && (!s.main.Running? ==> !l.KeeperWoke? && !l.KeeperHeard?)
  {
    assert s.held == Current(s.main);
    hide Sound, Delay;
  }

  predicate Loses(l: Label) { l.KeeperHeard? && l.reply.Lost? }

  function Wakes(ls: seq<Label>): nat {
    if |ls| == 0 then 0 else (if ls[0].KeeperWoke? then 1 else 0) + Wakes(ls[1..])
  }

  /** While a claim is run, each wake of its keep-alive is one `working` report of that claim and of no other; it goes
      on whatever the replies, until one says that the claim is lost, which ends it. */
  lemma {:induction false} KeptUntilLost(s: Loop, ls: seq<Label>)
    requires IsRun(s, ls) && s.main.Running? && forall l :: l in ls ==> l.KeeperWoke? || l.KeeperHeard?
    ensures var s1 := After(s, ls);
      && s1.main == s.main
      && s1.log == s.log + seq(Wakes(ls), _ => Report(s.main.claim, Working))
      && (s1.keeper.Gone? <==> s.keeper.Gone? || exists l :: l in ls && Loses(l))
      && (s.keeper.Gone? ==> |ls| == 0)
      && (|ls| > 0 ==> (s1.keeper.Extending? <==> ls[|ls| - 1].KeeperWoke?))
    decreases |ls|
  {
    if |ls| > 0 {
      assert ls[0] in ls;
      var s1 := Step(s, ls[0]);
      KeptUntilLost(s1, ls[1..]);
      assert forall l :: l in ls <==> l == ls[0] || l in ls[1..];
      assert |ls| > 1 ==> ls[1..][|ls| - 2] == ls[|ls| - 1];
      assert s1.log == if ls[0].KeeperWoke? then s.log + [Report(s.main.claim, Working)] else s.log;
    }
  }

  /** The keep-alive lives beside a run and its end alone, and the claim held is the one of that run. */
  predicate Alone(s: Loop) {
    match s.main
    case Running(claim) => s.held == Some(claim)
    case Stopping(claim, _) => s.held == Some(claim)
    case _ => s.keeper.Gone? && s.held.None?
  }

  lemma StepAlone(s: Loop, l: Label)
    requires Enabled(s, l) && (s.main.Posting? ==> s.main.attempt > 0) && Alone(s)
    ensures Alone(Step(s, l))
  {
    hide Delay;
  }

  lemma {:induction false} RunAlone(s: Loop, ls: seq<Label>)
    requires IsRun(s, ls) && Alone(s)
    ensures Alone(After(s, ls))
    decreases |ls|
  {
    hide Step, Enabled, Alone;
    if |ls| > 0 {
      StepAlone(s, ls[0]);
      RunAlone(Step(s, ls[0]), ls[1..]);
    }
  }

  /** In every run a claim is held exactly while it is run, and once it is not, nothing keeps it alive: no `working`
      report can follow or overtake its outcome. */
  lemma OutcomeIsReportedAlone(ls: seq<Label>)
    requires IsRun(START, ls)
    ensures var s := After(START, ls);
      if s.main.Running? || s.main.Stopping? then s.held == Some(s.main.claim)
      else s.held.None? && s.keeper.Gone?
  {
    RunAlone(START, ls);
    hide IsRun, After;
  }
}
