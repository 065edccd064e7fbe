/** The per-child shutdown escalation ladder. */
module StopLadder {
  import opened Common
  import opened Clock

  datatype Shutdown = Graceful(grace: NonZeroDuration) | Abort
  datatype Phase = Idle | Cooperative | Escalated | AbortingFramework | Finished
  datatype GracePhase = WithinGrace | AfterGrace

  datatype Action =
    | Cancel
    | Escalate
    | AbortFramework(phase: GracePhase)
    | HardAbort(phase: GracePhase)

  datatype Ladder = Ladder(
    policy: Shutdown,
    phase: Phase,
    deadline: Option<Instant>,
    gracePhase: GracePhase,
    forceRequested: bool,
    frameworkDriver: bool,
    frameworkAbortAcked: bool)

  datatype Call = Advance(now: Instant) | Force(now: Instant) | Acknowledge

  datatype Reply = Reply(ladder: Ladder, action: Option<Action>)

  function New(policy: Shutdown, frameworkDriver: bool): Ladder {
    Ladder(policy, Idle, None, WithinGrace, false, frameworkDriver, false)
  }

  function Grace(policy: Shutdown): Duration {
    if policy.Graceful? then policy.grace else 0
  }

  function Forced(l: Ladder, now: Instant): Ladder {
    if l.phase.Finished? then l
    else if l.phase.Cooperative? then
      l.(gracePhase := if !l.forceRequested && l.policy.Graceful? && IsDue(l.deadline, now)
                       then AfterGrace else l.gracePhase,
         deadline := if l.deadline.Some? && l.deadline.value <= now then l.deadline else Some(now),
         forceRequested := true)
    else l.(forceRequested := true)
  }

  function Acknowledged(l: Ladder): Ladder {
    if l.phase.AbortingFramework? then l.(frameworkAbortAcked := true) else l
  }

  function Advanced(l: Ladder, now: Instant): Reply {
    match l.phase
    case Idle =>
      var deadline := if l.forceRequested || l.policy.Abort? then Some(now)
                      else DeadlineAfter(now, l.policy.grace);
      Reply(l.(phase := Cooperative, deadline := deadline), Some(Cancel))
    case Cooperative =>
      if !IsDue(l.deadline, now) then Reply(l, None)
      else
        var beat := if l.forceRequested then 0 else Grace(l.policy);
        Reply(l.(phase := Escalated,
                 gracePhase := if l.policy.Graceful? && !l.forceRequested
                               then AfterGrace else l.gracePhase,
                 deadline := DeadlineAfter(now, TidyBeat(beat))),
              Some(Escalate))
    case Escalated =>
      if !IsDue(l.deadline, now) then Reply(l, None)
      else if l.frameworkDriver then
        Reply(l.(phase := AbortingFramework, deadline := DeadlineAfter(now, TidyBeat(0))),
              Some(AbortFramework(l.gracePhase)))
      else
        Reply(l.(phase := Finished, deadline := None), Some(HardAbort(l.gracePhase)))
    case AbortingFramework =>
      if !IsDue(l.deadline, now) then Reply(l, None)
      else
        Reply(l.(phase := Finished, deadline := None),
              if l.frameworkAbortAcked then None else Some(HardAbort(l.gracePhase)))
    case Finished => Reply(l, None)
  }

  function Called(l: Ladder, call: Call): Reply {
    match call
    case Advance(now) => Advanced(l, now)
    case Force(now) => Reply(Forced(l, now), None)
    case Acknowledge => Reply(Acknowledged(l), None)
  }

  // --------------------------------------------------------- the mutable form

  class StopLadderCell {
    const policy: Shutdown
    const frameworkDriver: bool
    var phase: Phase
    var deadline: Option<Instant>
    var gracePhase: GracePhase
    var forceRequested: bool
    var frameworkAbortAcked: bool

    ghost function View(): Ladder
      reads this
    {
      Ladder(policy, phase, deadline, gracePhase, forceRequested, frameworkDriver, frameworkAbortAcked)
    }

    constructor (policy: Shutdown, frameworkDriver: bool)
      ensures View() == New(policy, frameworkDriver)
    {
      this.policy := policy;
      this.frameworkDriver := frameworkDriver;
      phase := Idle;
      deadline := None;
      gracePhase := WithinGrace;
      forceRequested := false;
      frameworkAbortAcked := false;
    }

    method ForceNow(now: Instant)
      modifies this
      ensures View() == Called(old(View()), Force(now)).ladder
    {
      if phase == Finished {
        return;
      }
      if phase == Cooperative {
        if !forceRequested && policy.Graceful? && deadline.Some? && now >= deadline.value {
          gracePhase := AfterGrace;
        }
        deadline := if deadline.None? || now < deadline.value then Some(now) else deadline;
      }
      forceRequested := true;
    }

    method AcknowledgeFrameworkAbort()
      modifies this
      ensures View() == Called(old(View()), Acknowledge).ladder
    {
      if phase == AbortingFramework {
        frameworkAbortAcked := true;
      }
    }

    method AdvanceTo(now: Instant) returns (action: Option<Action>)
      modifies this
      ensures Reply(View(), action) == Called(old(View()), Advance(now))
    {
      var due := deadline.Some? && now >= deadline.value;
      action := None;
      match phase {
        case Idle =>
          phase := Cooperative;
          if forceRequested {
            deadline := Some(now);
          } else {
            match policy {
              case Graceful(grace) => deadline := DeadlineAfter(now, grace);
              case Abort => deadline := Some(now);
            }
          }
          action := Some(Cancel);
        case Cooperative =>
          if due {
            var grace: Duration := 0;
            if policy.Graceful? {
              if !forceRequested { gracePhase := AfterGrace; }
              grace := policy.grace;
            }
            phase := Escalated;
            var beat := if forceRequested then 0 else grace;
            deadline := DeadlineAfter(now, TidyBeat(beat));
            action := Some(Escalate);
          }
        case Escalated =>
          if due {
            if frameworkDriver {
              phase := AbortingFramework;
              deadline := DeadlineAfter(now, TidyBeat(0));
              action := Some(AbortFramework(gracePhase));
            } else {
              phase := Finished;
              deadline := None;
              action := Some(HardAbort(gracePhase));
            }
          }
        case AbortingFramework =>
          if due {
            phase := Finished;
            deadline := None;
            if !frameworkAbortAcked {
              action := Some(HardAbort(gracePhase));
            }
          }
        case Finished =>
      }
    }
  }

  // ------------------------------------------------- forcing never slows a stop

  /** One step of two ladders run side by side. The second receives every call
      the first does, and forces of its own; acknowledgements are independent. */
  datatype Joint =
    | AdvanceBoth(now: Instant)
    | ForceBoth(now: Instant)
    | ForceSecond(now: Instant)
    | AckFirst
    | AckSecond

  datatype Pair = Pair(first: Ladder, second: Ladder)

  function Joined(p: Pair, step: Joint): Pair {
    match step
    case AdvanceBoth(now) => Pair(Advanced(p.first, now).ladder, Advanced(p.second, now).ladder)
    case ForceBoth(now) => Pair(Forced(p.first, now), Forced(p.second, now))
    case ForceSecond(now) => Pair(p.first, Forced(p.second, now))
    case AckFirst => Pair(Acknowledged(p.first), p.second)
    case AckSecond => Pair(p.first, Acknowledged(p.second))
  }

  function RunPair(policy: Shutdown, frameworkDriver: bool, steps: seq<Joint>): Pair
    decreases |steps|
  {
    if steps == [] then Pair(New(policy, frameworkDriver), New(policy, frameworkDriver))
    else Joined(RunPair(policy, frameworkDriver, steps[..|steps| - 1]), steps[|steps| - 1])
  }

  /** Only the times of advances have to be nondecreasing. */
  predicate AdvancesInOrder(steps: seq<Joint>) {
    forall i, j :: 0 <= i < j < |steps| && steps[i].AdvanceBoth? && steps[j].AdvanceBoth? ==>
      steps[i].now <= steps[j].now
  }

  function Rank(phase: Phase): nat {
    match phase
    case Idle => 0
    case Cooperative => 1
    case Escalated => 2
    case AbortingFramework => 3
    case Finished => 4
  }

  /** At or beyond the other ladder's phase, and in the same phase armed no later. */
  predicate AtLeastAsFar(l: Ladder, other: Ladder) {
    || Rank(l.phase) > Rank(other.phase)
    || (l.phase == other.phase && NoLater(l.deadline, other.deadline))
  }

  /** Everything about a ladder but its acknowledgement. */
  predicate Alike(l: Ladder, other: Ladder) {
    l == other.(frameworkAbortAcked := l.frameworkAbortAcked)
  }

  /** The simulation: a second ladder never forced on its own is the first one;
      one that has run ahead escalated with the shortest beat, no later than
      the latest advance. */
  predicate Simulates(p: Pair, latest: Instant) {
    && p.first.policy == p.second.policy && p.first.frameworkDriver == p.second.frameworkDriver
    && (p.first.forceRequested ==> p.second.forceRequested)
    && (!p.second.forceRequested ==> Alike(p.first, p.second))
    && AtLeastAsFar(p.second, p.first)
    && (p.first.phase.Idle? <==> p.second.phase.Idle?)
    && (p.second.phase.AbortingFramework? ==> p.second.frameworkDriver)
    && (Rank(p.second.phase) > Rank(p.first.phase) ==>
          && p.second.forceRequested
          && (p.second.phase.Escalated? || p.second.phase.AbortingFramework? ==>
                NoLater(p.second.deadline, DeadlineAfter(latest, MILLISECOND))))
  }

  lemma AdvanceTogether(p: Pair, latest: Instant, now: Instant)
    requires Simulates(p, latest) && p.first.phase == p.second.phase
    ensures Simulates(Joined(p, AdvanceBoth(now)), now)
  {
    hide DeadlineAfter, TidyBeat;
    var grace := Grace(p.first.policy);
    TidyBeatBounds(grace);
    DeadlineNotBefore(now, grace);
    DeadlineMonotone(now, now, MILLISECOND, TidyBeat(grace));
  }

  lemma AdvanceApart(p: Pair, latest: Instant, now: Instant)
    requires Simulates(p, latest) && latest <= now && Rank(p.first.phase) < Rank(p.second.phase)
    ensures Simulates(Joined(p, AdvanceBoth(now)), now)
  {
    hide DeadlineAfter, TidyBeat;
    var grace := Grace(p.first.policy);
    TidyBeatBounds(grace);
    DeadlineMonotone(latest, now, MILLISECOND, MILLISECOND);
    DeadlineMonotone(now, now, MILLISECOND, TidyBeat(grace));
  }

  lemma SimulatesAdvance(p: Pair, latest: Instant, now: Instant)
    requires Simulates(p, latest) && latest <= now
    ensures Simulates(Joined(p, AdvanceBoth(now)), now)
  {
    hide Joined, NoLater, DeadlineAfter;
    if p.first.phase == p.second.phase {
      AdvanceTogether(p, latest, now);
    } else {
      AdvanceApart(p, latest, now);
    }
    hide Simulates;
  }

  lemma SimulatesForce(p: Pair, latest: Instant, step: Joint)
    requires Simulates(p, latest) && !step.AdvanceBoth?
    ensures Simulates(Joined(p, step), latest)
  {
  }

  /** The time of the last advance so far. */
  function Latest(steps: seq<Joint>): Instant {
    if steps == [] then 0
    else if steps[|steps| - 1].AdvanceBoth? then steps[|steps| - 1].now
    else Latest(steps[..|steps| - 1])
  }

  lemma {:induction false} LatestIsBelow(steps: seq<Joint>, now: Instant)
    requires forall i :: 0 <= i < |steps| && steps[i].AdvanceBoth? ==> steps[i].now <= now
    ensures Latest(steps) <= now
  {
    if steps != [] { LatestIsBelow(steps[..|steps| - 1], now); }
  }

  lemma {:induction false} SimulatesRun(policy: Shutdown, frameworkDriver: bool, steps: seq<Joint>)
    requires AdvancesInOrder(steps)
    ensures Simulates(RunPair(policy, frameworkDriver, steps), Latest(steps))
    decreases |steps|
  {
    if steps != [] {
      var n := |steps| - 1;
      SimulatesRun(policy, frameworkDriver, steps[..n]);
      hide Simulates, Joined;
      if steps[n].AdvanceBoth? {
        LatestIsBelow(steps[..n], steps[n].now);
        SimulatesAdvance(RunPair(policy, frameworkDriver, steps[..n]), Latest(steps[..n]), steps[n].now);
      } else {
        SimulatesForce(RunPair(policy, frameworkDriver, steps[..n]), Latest(steps[..n]), steps[n]);
      }
    }
  }

  /** Forcing never slows a stop. At every point of every side-by-side run the
      extra-forced ladder is at or beyond the other's phase, and in equal phases
      its deadline is no later, including at the clock ceiling. */
  lemma ForcingNeverSlows(policy: Shutdown, frameworkDriver: bool, steps: seq<Joint>)
    requires AdvancesInOrder(steps)
    ensures AtLeastAsFar(RunPair(policy, frameworkDriver, steps).second,
                         RunPair(policy, frameworkDriver, steps).first)
  {
    SimulatesRun(policy, frameworkDriver, steps);
  }
}
