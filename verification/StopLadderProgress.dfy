/** How soon the stop ladder acts. */
module StopLadderProgress {
  import opened Common
  import opened Clock
  import opened StopLadder
  import opened StopLadderTraces

  /** An advance that finds the ladder idle, or at or past its armed deadline,
      moves it on. It emits an action, except that an acknowledged framework
      abort ends in silence. */
  lemma DueAdvanceActs(c: Config, calls: seq<Call>, i: nat)
    requires i < |calls| && calls[i].Advance? && !At(c, calls, i).phase.Finished?
    requires var l := At(c, calls, i);
             l.phase.Idle? || (l.deadline.Some? && l.deadline.value <= calls[i].now)
    ensures Rank(At(c, calls, i).phase) < Rank(At(c, calls, i + 1).phase)
    ensures Emits(c, calls, i).Some?
            || (At(c, calls, i).phase.AbortingFramework? && Acked(c, calls, i))
  {
    hide Run, Acked, TidyBeat, DeadlineAfter;
    AtNext(c, calls, i);
    AckHasHistory(c, calls, i);
  }

  /** A call moves the ladder on, or leaves its phase and brings its deadline no
      further. */
  lemma CallNears(l: Ladder, call: Call)
    ensures var t := Called(l, call).ladder;
            Rank(l.phase) < Rank(t.phase) || (t.phase == l.phase && NoLater(t.deadline, l.deadline))
  {
    hide TidyBeat, DeadlineAfter;
  }

  /** Once in a phase, the ladder is past it or no further from leaving it. */
  lemma {:induction false} DeadlineNears(c: Config, calls: seq<Call>, j: nat, k: nat)
    requires j <= k <= |calls|
    ensures var l, t := At(c, calls, j), At(c, calls, k);
            Rank(l.phase) < Rank(t.phase) || (t.phase == l.phase && NoLater(t.deadline, l.deadline))
    decreases k
  {
    if j < k {
      hide Run, Called;
      DeadlineNears(c, calls, j, k - 1);
      AtNext(c, calls, k - 1);
      CallNears(At(c, calls, k - 1), calls[k - 1]);
    }
  }

  /** An advance at or past a deadline the ladder ever armed finds it past that
      phase, or moves it past. */
  lemma StageEnds(c: Config, calls: seq<Call>, j: nat, k: nat)
    requires j <= k < |calls| && calls[k].Advance?
    requires var l := At(c, calls, j);
             !l.phase.Idle? && !l.phase.Finished?
             && l.deadline.Some? && l.deadline.value <= calls[k].now
    ensures Rank(At(c, calls, k + 1).phase) > Rank(At(c, calls, j).phase)
  {
    hide Run, Called, Acked;
    DeadlineNears(c, calls, j, k);
    AtNext(c, calls, k);
    CallNears(At(c, calls, k), calls[k]);
    if At(c, calls, k).phase == At(c, calls, j).phase {
      DueAdvanceActs(c, calls, k);
    }
  }

  /** A force made after the cancel escalates at the first advance at or after
      it. */
  lemma ForceEscalates(c: Config, calls: seq<Call>, j: nat, k: nat)
    requires j < k < |calls| && calls[j].Force? && !At(c, calls, j).phase.Idle?
    requires calls[k].Advance? && calls[j].now <= calls[k].now
    ensures Rank(At(c, calls, k + 1).phase) >= Rank(Escalated)
  {
    hide Run;
    AtNext(c, calls, j);
    if At(c, calls, j).phase.Cooperative? {
      StageEnds(c, calls, j + 1, k);
    } else {
      DeadlineNears(c, calls, j, k + 1);
    }
  }

  /** After a force that came first, the advance after the cancel escalates; and
      so it does under an abort policy. */
  lemma ForcedCancelEscalates(c: Config, calls: seq<Call>, j: nat, k: nat)
    requires j < k < |calls| && EmitsAt(c, calls, j, Cancel)
    requires ForcedBefore(calls, j) || c.policy.Abort?
    requires calls[k].Advance? && calls[j].now <= calls[k].now
    ensures Rank(At(c, calls, k + 1).phase) >= Rank(Escalated)
  {
    hide Run, ForcedBefore;
    CancelArms(c, calls, j);
    ForceFlag(c, calls, j);
    StageEnds(c, calls, j + 1, k);
  }

  /** What the cancel arms. */
  lemma CancelArms(c: Config, calls: seq<Call>, j: nat)
    requires j < |calls| && EmitsAt(c, calls, j, Cancel)
    ensures At(c, calls, j).phase.Idle? && At(c, calls, j + 1).phase.Cooperative?
    ensures At(c, calls, j + 1).deadline
            == if At(c, calls, j).forceRequested || c.policy.Abort? then Some(calls[j].now)
               else DeadlineAfter(calls[j].now, c.policy.grace)
  {
    hide Run, TidyBeat, DeadlineAfter;
    AtNext(c, calls, j);
    ConfigKept(c, calls, j);
  }

  /** The grace is not overrun: the first advance at or after it escalates,
      forced or not. */
  lemma GraceEndsInEscalation(c: Config, calls: seq<Call>, j: nat, k: nat)
    requires j < k < |calls| && EmitsAt(c, calls, j, Cancel) && c.policy.Graceful?
    requires calls[k].Advance? && calls[j].now + c.policy.grace <= calls[k].now
    requires calls[k].now + ARMING_HEADROOM <= CLOCK_CEILING
    ensures Rank(At(c, calls, k + 1).phase) >= Rank(Escalated)
  {
    hide Run, DeadlineAfter;
    CancelArms(c, calls, j);
    DeadlineExact(calls[j].now, c.policy.grace);
    StageEnds(c, calls, j + 1, k);
  }

  /** Nor is the tidy beat: the first advance at or after it aborts. */
  lemma BeatEndsInAbort(c: Config, calls: seq<Call>, j: nat, k: nat)
    requires j < k < |calls| && EmitsAt(c, calls, j, Escalate)
    requires calls[k].Advance? && calls[j].now + Beat(c, calls, j) <= calls[k].now
    requires calls[k].now + ARMING_HEADROOM <= CLOCK_CEILING
    ensures Rank(At(c, calls, k + 1).phase) >= Rank(AbortingFramework)
  {
    hide Run, DeadlineAfter, TidyBeat;
    AtNext(c, calls, j);
    ConfigKept(c, calls, j);
    TidyBeatBounds(if At(c, calls, j).forceRequested then 0 else Grace(c.policy));
    DeadlineExact(calls[j].now, Beat(c, calls, j));
    StageEnds(c, calls, j + 1, k);
  }

  /** Nor the framework's millisecond: the first advance at or after it finishes
      the ladder. */
  lemma FrameworkAbortEnds(c: Config, calls: seq<Call>, j: nat, k: nat, p: GracePhase)
    requires j < k < |calls| && EmitsAt(c, calls, j, AbortFramework(p))
    requires calls[k].Advance? && calls[j].now + MILLISECOND <= calls[k].now
    requires calls[k].now + ARMING_HEADROOM <= CLOCK_CEILING
    ensures At(c, calls, k + 1).phase.Finished?
  {
    hide Run, DeadlineAfter, TidyBeat;
    AtNext(c, calls, j);
    TidyBeatBounds(0);
    DeadlineExact(calls[j].now, MILLISECOND);
    StageEnds(c, calls, j + 1, k);
  }
}
