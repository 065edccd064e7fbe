/** What every run of one stop ladder emits, and when. */
module StopLadderTraces {
  import opened Common
  import opened Clock
  import opened StopLadder

  datatype Config = Config(policy: Shutdown, frameworkDriver: bool)

  function Run(c: Config, calls: seq<Call>): Ladder
    decreases |calls|
  {
    if calls == [] then New(c.policy, c.frameworkDriver)
    else Called(Run(c, calls[..|calls| - 1]), calls[|calls| - 1]).ladder
  }

  /** The ladder call `i` is made on. */
  function At(c: Config, calls: seq<Call>, i: nat): Ladder
    requires i <= |calls|
  {
    Run(c, calls[..i])
  }

  /** What call `i` emits. */
  function Emits(c: Config, calls: seq<Call>, i: nat): Option<Action>
    requires i < |calls|
  {
    Called(At(c, calls, i), calls[i]).action
  }

  /** The actions the first `i` calls emit. */
  function Actions(c: Config, calls: seq<Call>, i: nat): seq<Action>
    requires i <= |calls|
  {
    if i == 0 then []
    else Actions(c, calls, i - 1)
         + (if Emits(c, calls, i - 1).Some? then [Emits(c, calls, i - 1).value] else [])
  }

  lemma AtNext(c: Config, calls: seq<Call>, i: nat)
    requires i < |calls|
    ensures At(c, calls, i + 1) == Called(At(c, calls, i), calls[i]).ladder
  {
    assert calls[..i + 1][..i] == calls[..i];
  }

  lemma {:induction false} ConfigKept(c: Config, calls: seq<Call>, i: nat)
    requires i <= |calls|
    ensures At(c, calls, i).policy == c.policy && At(c, calls, i).frameworkDriver == c.frameworkDriver
  {
    if i > 0 { AtNext(c, calls, i - 1); ConfigKept(c, calls, i - 1); }
  }

  // ------------------------------------------------------------ the sequence

  /** Every action of a ladder that runs to its end. */
  function FullLadder(frameworkDriver: bool, phase: GracePhase): seq<Action> {
    if frameworkDriver then [Cancel, Escalate, AbortFramework(phase), HardAbort(phase)]
    else [Cancel, Escalate, HardAbort(phase)]
  }

  /** How many of those the ladder has emitted. */
  function Emitted(l: Ladder): nat {
    match l.phase
    case Idle => 0
    case Cooperative => 1
    case Escalated => 2
    case AbortingFramework => 3
    case Finished => if !l.frameworkDriver then 3 else if l.frameworkAbortAcked then 3 else 4
  }

  predicate LadderInv(l: Ladder) {
    && (l.phase.AbortingFramework? ==> l.frameworkDriver)
    && (l.frameworkAbortAcked ==> l.frameworkDriver && Rank(l.phase) >= 3)
  }

  lemma {:induction false} InvAt(c: Config, calls: seq<Call>, i: nat)
    requires i <= |calls|
    ensures LadderInv(At(c, calls, i))
  {
    if i > 0 { AtNext(c, calls, i - 1); InvAt(c, calls, i - 1); }
  }

  /** The emitted actions are always a prefix of the full ladder, each at most
      once, and every abort carries the ladder's one grace verdict. Only an
      acknowledged framework abort withholds the last action of a finished
      ladder. */
  lemma {:induction false} ActionsArePrefix(c: Config, calls: seq<Call>, i: nat)
    requires i <= |calls|
    ensures var l := At(c, calls, i);
            && Emitted(l) <= |FullLadder(c.frameworkDriver, l.gracePhase)|
            && Actions(c, calls, i) == FullLadder(c.frameworkDriver, l.gracePhase)[..Emitted(l)]
    decreases i
  {
    if i > 0 {
      hide Run;
      ActionsArePrefix(c, calls, i - 1);
      AtNext(c, calls, i - 1);
      InvAt(c, calls, i - 1);
      ConfigKept(c, calls, i - 1);
      PrefixStep(At(c, calls, i - 1), calls[i - 1], Actions(c, calls, i - 1));
    }
  }

  lemma PrefixStep(l: Ladder, call: Call, before: seq<Action>)
    requires LadderInv(l)
    requires Emitted(l) <= |FullLadder(l.frameworkDriver, l.gracePhase)|
    requires before == FullLadder(l.frameworkDriver, l.gracePhase)[..Emitted(l)]
    ensures var r := Called(l, call);
            && Emitted(r.ladder) <= |FullLadder(l.frameworkDriver, r.ladder.gracePhase)|
            && before + (if r.action.Some? then [r.action.value] else [])
               == FullLadder(l.frameworkDriver, r.ladder.gracePhase)[..Emitted(r.ladder)]
  {
    hide DeadlineAfter, TidyBeat;
  }

  /** An acknowledgement made while the framework abort is in flight. */
  predicate AckedAt(c: Config, calls: seq<Call>, j: nat)
    requires j < |calls|
  {
    calls[j].Acknowledge? && At(c, calls, j).phase.AbortingFramework?
  }

  ghost predicate Acked(c: Config, calls: seq<Call>, i: nat)
    requires i <= |calls|
  {
    exists j: nat :: j < i && AckedAt(c, calls, j)
  }

  lemma NoneAcked(c: Config, calls: seq<Call>)
    ensures !Acked(c, calls, 0)
  {
  }

  lemma AckedExtends(c: Config, calls: seq<Call>, i: nat)
    requires 0 < i <= |calls|
    ensures Acked(c, calls, i) <==> Acked(c, calls, i - 1) || AckedAt(c, calls, i - 1)
  {
    hide AckedAt;
    if Acked(c, calls, i - 1) {
      var j: nat :| j < i - 1 && AckedAt(c, calls, j);
      assert Acked(c, calls, i);
    }
  }

  /** The flag records exactly the acknowledgements made in flight. */
  lemma {:induction false} AckHasHistory(c: Config, calls: seq<Call>, i: nat)
    requires i <= |calls|
    ensures At(c, calls, i).frameworkAbortAcked <==> Acked(c, calls, i)
    decreases i
  {
    hide DeadlineAfter, TidyBeat, Acked;
    if i > 0 {
      AtNext(c, calls, i - 1);
      AckHasHistory(c, calls, i - 1);
      AckedExtends(c, calls, i);
    } else {
      NoneAcked(c, calls);
    }
  }

  /** A finished ladder has hard-aborted exactly when no acknowledgement arrived
      while its framework abort was in flight. */
  lemma HardAbortOrAck(c: Config, calls: seq<Call>, i: nat)
    requires i <= |calls| && At(c, calls, i).phase.Finished?
    ensures HardAbort(At(c, calls, i).gracePhase) in Actions(c, calls, i) <==> !Acked(c, calls, i)
  {
    hide Run, Acked;
    ActionsArePrefix(c, calls, i);
    ConfigKept(c, calls, i);
    InvAt(c, calls, i);
    AckHasHistory(c, calls, i);
    var full := FullLadder(c.frameworkDriver, At(c, calls, i).gracePhase);
    if !At(c, calls, i).frameworkAbortAcked {
      assert full[..|full|] == full;
      assert full[|full| - 1] in full;
    }
  }

  // -------------------------------------------------------------- the timing

  predicate EmitsAt(c: Config, calls: seq<Call>, i: nat, action: Action)
    requires i < |calls|
  {
    calls[i].Advance? && Emits(c, calls, i) == Some(action)
  }

  ghost predicate ForcedBefore(calls: seq<Call>, i: nat)
    requires i <= |calls|
  {
    exists j :: 0 <= j < i && calls[j].Force?
  }

  /** The force flag records exactly that some force came, as long as the
      ladder has not finished. */
  lemma {:induction false} ForceFlag(c: Config, calls: seq<Call>, i: nat)
    requires i <= |calls| && !At(c, calls, i).phase.Finished?
    ensures At(c, calls, i).forceRequested <==> ForcedBefore(calls, i)
    decreases i
  {
    if i > 0 {
      AtNext(c, calls, i - 1);
      ForceFlag(c, calls, i - 1);
      if calls[i - 1].Force? { assert ForcedBefore(calls, i); }
      if ForcedBefore(calls, i) && !ForcedBefore(calls, i - 1) {
        var j :| 0 <= j < i && calls[j].Force?;
        assert j == i - 1;
      }
    }
  }

  /** Where the deadline of the phase the ladder is in comes from. */
  ghost predicate Armed(c: Config, calls: seq<Call>, i: nat)
    requires i <= |calls|
  {
    var l := At(c, calls, i);
    match l.phase
    case Cooperative =>
      l.policy.Graceful? && !l.forceRequested ==>
        exists j: nat :: j < i && EmitsAt(c, calls, j, Cancel)
                         && l.deadline == DeadlineAfter(calls[j].now, l.policy.grace)
    case Escalated =>
      exists j: nat :: j < i && EmitsAt(c, calls, j, Escalate)
                       && l.deadline == DeadlineAfter(calls[j].now, Beat(c, calls, j))
    case AbortingFramework =>
      exists j: nat, p :: j < i && EmitsAt(c, calls, j, AbortFramework(p))
                          && l.deadline == DeadlineAfter(calls[j].now, MILLISECOND)
    case _ => true
  }

  /** The tidy beat an escalation at call `j` arms. */
  function Beat(c: Config, calls: seq<Call>, j: nat): Duration
    requires j < |calls|
  {
    TidyBeat(if At(c, calls, j).forceRequested then 0 else Grace(c.policy))
  }

  /** A call that acts arms the deadline of the phase it enters. */
  lemma ArmedByAction(c: Config, calls: seq<Call>, i: nat)
    requires i < |calls| && Called(At(c, calls, i), calls[i]).action.Some?
    ensures Armed(c, calls, i + 1)
  {
    hide Run, DeadlineAfter, TidyBeat;
    AtNext(c, calls, i);
    ConfigKept(c, calls, i);
    TidyBeatBounds(0);
    assert EmitsAt(c, calls, i, Called(At(c, calls, i), calls[i]).action.value);
  }

  /** Any other call keeps it, a force apart. */
  lemma ArmedKept(c: Config, calls: seq<Call>, i: nat)
    requires i < |calls| && Called(At(c, calls, i), calls[i]).action.None?
    requires Armed(c, calls, i)
    ensures Armed(c, calls, i + 1)
  {
    hide Run, DeadlineAfter, TidyBeat, EmitsAt, Beat;
    AtNext(c, calls, i);
    var l, r := At(c, calls, i), At(c, calls, i + 1);
    assert r.phase == l.phase || r.phase.Finished?;
    if r.phase == l.phase && (calls[i].Advance? || !l.phase.Cooperative?) {
      assert r.deadline == l.deadline;
    }
  }

  lemma {:induction false} ArmedAt(c: Config, calls: seq<Call>, i: nat)
    requires i <= |calls|
    ensures Armed(c, calls, i)
    decreases i
  {
    if i > 0 {
      hide Called, Armed, At;
      if Called(At(c, calls, i - 1), calls[i - 1]).action.Some? {
        ArmedByAction(c, calls, i - 1);
      } else {
        ArmedAt(c, calls, i - 1);
        ArmedKept(c, calls, i - 1);
      }
    }
  }

  /** An unforced graceful ladder escalates no sooner than its grace after the
      cancel. */
  lemma EscalateWaitsForGrace(c: Config, calls: seq<Call>, e: nat)
    requires e < |calls| && EmitsAt(c, calls, e, Escalate)
    requires c.policy.Graceful? && !ForcedBefore(calls, e)
    ensures exists j: nat :: j < e && EmitsAt(c, calls, j, Cancel)
                             && calls[j].now + c.policy.grace <= calls[e].now
  {
    ArmedAt(c, calls, e);
    ConfigKept(c, calls, e);
    ForceFlag(c, calls, e);
    var l := At(c, calls, e);
    var j: nat :| j < e && EmitsAt(c, calls, j, Cancel)
                  && l.deadline == DeadlineAfter(calls[j].now, l.policy.grace);
  }

  /** The action after an escalation comes at least the tidy beat later: one
      millisecond after a forced escalation, otherwise a tenth of the grace
      held between one and ten milliseconds. */
  lemma AbortWaitsForBeat(c: Config, calls: seq<Call>, n: nat, action: Action)
    requires n < |calls| && EmitsAt(c, calls, n, action)
    requires At(c, calls, n).phase.Escalated?
    ensures exists j: nat :: j < n && EmitsAt(c, calls, j, Escalate)
                             && MILLISECOND <= Beat(c, calls, j) <= 10 * MILLISECOND
                             && calls[j].now + Beat(c, calls, j) <= calls[n].now
  {
    ArmedAt(c, calls, n);
    var l := At(c, calls, n);
    var j: nat :| j < n && EmitsAt(c, calls, j, Escalate)
                  && l.deadline == DeadlineAfter(calls[j].now, Beat(c, calls, j));
    TidyBeatBounds(if At(c, calls, j).forceRequested then 0 else Grace(c.policy));
  }

  /** A framework ladder's hard abort comes at least a millisecond after its
      framework abort. */
  lemma HardAbortWaitsForFramework(c: Config, calls: seq<Call>, n: nat, action: Action)
    requires n < |calls| && EmitsAt(c, calls, n, action)
    requires At(c, calls, n).phase.AbortingFramework?
    ensures exists j: nat, p :: j < n && EmitsAt(c, calls, j, AbortFramework(p))
                                && calls[j].now + MILLISECOND <= calls[n].now
  {
    ArmedAt(c, calls, n);
    var l := At(c, calls, n);
    var j: nat, p :| j < n && EmitsAt(c, calls, j, AbortFramework(p))
                     && l.deadline == DeadlineAfter(calls[j].now, MILLISECOND);
  }

  // ------------------------------------------------------- the grace verdict

  predicate InOrder(calls: seq<Call>) {
    forall i, j :: 0 <= i < j < |calls| && !calls[i].Acknowledge? && !calls[j].Acknowledge? ==>
      calls[i].now <= calls[j].now
  }

  /** The first advance, which is the one that cancels. */
  function FirstAdvance(calls: seq<Call>, i: nat): Option<Instant>
    requires i <= |calls|
  {
    if i == 0 then None
    else if FirstAdvance(calls, i - 1).Some? then FirstAdvance(calls, i - 1)
    else if calls[i - 1].Advance? then Some(calls[i - 1].now)
    else None
  }

  /** Call `j` forces before the grace that follows the cancel has expired. */
  predicate EarlyForce(c: Config, calls: seq<Call>, j: nat)
    requires j < |calls|
  {
    && calls[j].Force?
    && (c.policy.Graceful? ==>
          var cancelled := FirstAdvance(calls, j);
          cancelled.None? || !IsDue(DeadlineAfter(cancelled.value, c.policy.grace), calls[j].now))
  }

  ghost predicate EarlyForceBefore(c: Config, calls: seq<Call>, i: nat)
    requires i <= |calls|
  {
    exists j: nat :: j < i && EarlyForce(c, calls, j)
  }

  lemma EarlyForceExtends(c: Config, calls: seq<Call>, i: nat)
    requires 0 < i <= |calls|
    ensures EarlyForceBefore(c, calls, i) <==>
            EarlyForceBefore(c, calls, i - 1) || EarlyForce(c, calls, i - 1)
    ensures EarlyForceBefore(c, calls, i - 1) ==> ForcedBefore(calls, i - 1)
  {
  }

  /** The ladder while its grace verdict is still open. */
  ghost predicate Open(c: Config, calls: seq<Call>, i: nat)
    requires i <= |calls|
  {
    var l := At(c, calls, i);
    var cancelled := FirstAdvance(calls, i);
    && (l.phase.Idle? <==> cancelled.None?)
    && (l.phase.Cooperative? && l.policy.Graceful? && !l.forceRequested ==>
          l.deadline == DeadlineAfter(cancelled.value, l.policy.grace))
    && (l.gracePhase.AfterGrace? <==>
          l.policy.Graceful? && l.forceRequested && !EarlyForceBefore(c, calls, i))
  }

  lemma {:induction false} OpenAt(c: Config, calls: seq<Call>, i: nat)
    requires InOrder(calls) && i <= |calls| && Rank(At(c, calls, i).phase) <= 1
    ensures Open(c, calls, i)
    decreases i
  {
    hide Run, DeadlineAfter, TidyBeat, EarlyForceBefore, ForcedBefore;
    if i == 0 {
      OpenAtStart(c, calls);
    } else {
      AtNext(c, calls, i - 1);
      ConfigKept(c, calls, i - 1);
      OpenAt(c, calls, i - 1);
      EarlyForceExtends(c, calls, i);
      ForceFlag(c, calls, i - 1);
      if calls[i - 1].Force? && At(c, calls, i - 1).forceRequested
         && !EarlyForceBefore(c, calls, i - 1) {
        LateStaysLate(c, calls, i - 1);
      }
    }
  }

  lemma OpenAtStart(c: Config, calls: seq<Call>)
    ensures Open(c, calls, 0)
  {
  }

  /** Once one force has been late, a force after it is late. */
  lemma LateStaysLate(c: Config, calls: seq<Call>, i: nat)
    requires InOrder(calls) && i < |calls| && calls[i].Force?
    requires ForcedBefore(calls, i) && !EarlyForceBefore(c, calls, i)
    ensures !EarlyForce(c, calls, i)
  {
    var j :| 0 <= j < i && calls[j].Force?;
    assert !EarlyForce(c, calls, j);
    FirstAdvanceKept(calls, j, i);
  }

  lemma {:induction false} FirstAdvanceKept(calls: seq<Call>, j: nat, i: nat)
    requires j <= i <= |calls| && FirstAdvance(calls, j).Some?
    ensures FirstAdvance(calls, i) == FirstAdvance(calls, j)
    decreases i
  {
    if j < i { FirstAdvanceKept(calls, j, i - 1); }
  }

  /** Past the escalation no call changes the grace verdict or goes back. */
  lemma VerdictFixed(l: Ladder, call: Call)
    requires Rank(l.phase) >= 2
    ensures Called(l, call).ladder.gracePhase == l.gracePhase
    ensures Rank(Called(l, call).ladder.phase) >= 2
  {
    hide DeadlineAfter, TidyBeat;
  }

  lemma VerdictStarts(c: Config, calls: seq<Call>, e: nat)
    requires InOrder(calls) && e < |calls|
    requires Rank(At(c, calls, e).phase) < 2 <= Rank(At(c, calls, e + 1).phase)
    ensures EmitsAt(c, calls, e, Escalate)
    ensures At(c, calls, e + 1).gracePhase.AfterGrace? <==>
              c.policy.Graceful? && !EarlyForceBefore(c, calls, e)
  {
    hide Run, DeadlineAfter, TidyBeat, EarlyForceBefore, ForcedBefore;
    AtNext(c, calls, e);
    ConfigKept(c, calls, e);
    OpenAt(c, calls, e);
    ForceFlag(c, calls, e);
    EarlyForceExtends(c, calls, e + 1);
  }

  /** The verdict, fixed when the ladder escalates. */
  lemma {:induction false} VerdictAt(c: Config, calls: seq<Call>, i: nat)
    requires InOrder(calls) && i <= |calls| && Rank(At(c, calls, i).phase) >= 2
    ensures exists e: nat :: e < i && EmitsAt(c, calls, e, Escalate)
                             && (At(c, calls, i).gracePhase.AfterGrace? <==>
                                   c.policy.Graceful? && !EarlyForceBefore(c, calls, e))
    decreases i
  {
    hide EarlyForceBefore, Called, EmitsAt;
    if i > 0 {
      AtNext(c, calls, i - 1);
      if Rank(At(c, calls, i - 1).phase) >= 2 {
        VerdictFixed(At(c, calls, i - 1), calls[i - 1]);
        VerdictAt(c, calls, i - 1);
      } else {
        VerdictStarts(c, calls, i - 1);
      }
    }
  }

  /** An abort reports that grace had expired exactly when the policy was
      graceful and no force came, before the escalation, ahead of the grace
      that follows the cancel. */
  lemma AbortReportsGrace(c: Config, calls: seq<Call>, n: nat, action: Action)
    requires InOrder(calls) && n < |calls| && EmitsAt(c, calls, n, action)
    requires action.AbortFramework? || action.HardAbort?
    ensures exists e: nat :: e < n && EmitsAt(c, calls, e, Escalate)
                             && (action.phase.AfterGrace? <==>
                                   c.policy.Graceful? && !EarlyForceBefore(c, calls, e))
  {
    VerdictAt(c, calls, n);
  }
}
