/** The finish verdict over whole runs. */
module SupervisorFinish {
  import opened SupervisorSpec
  import opened SupervisorRuns

  /** The drain reasons the first `i` calls gave, in order of arrival. */
  function Given(ops: seq<Op>, i: nat): seq<StopReason>
    requires i <= |ops|
  {
    if i == 0 then []
    else match ops[i - 1]
      case BeginDrain(reason) => Given(ops, i - 1) + [reason]
      case Force => Given(ops, i - 1) + [ShutdownRequested]
      case _ => Given(ops, i - 1)
  }

  /** `r` is the earliest of the greatest-precedence reasons. */
  ghost predicate Prevails(reasons: seq<StopReason>, r: StopReason) {
    exists n :: 0 <= n < |reasons| && PrevailsAt(reasons, n) && reasons[n] == r
  }

  predicate PrevailsAt(reasons: seq<StopReason>, n: nat)
    requires n < |reasons|
  {
    && (forall m :: 0 <= m < |reasons| ==> Precedence(reasons[m]) <= Precedence(reasons[n]))
    && (forall m :: 0 <= m < n ==> Precedence(reasons[m]) < Precedence(reasons[n]))
  }

  lemma PrevailsUnique(reasons: seq<StopReason>, r: StopReason, q: StopReason)
    requires Prevails(reasons, r) && Prevails(reasons, q)
    ensures r == q
  {
    var n :| 0 <= n < |reasons| && PrevailsAt(reasons, n) && reasons[n] == r;
    var m :| 0 <= m < |reasons| && PrevailsAt(reasons, m) && reasons[m] == q;
    assert !(n < m) && !(m < n);
  }

  lemma PrevailsExtend(reasons: seq<StopReason>, r: StopReason, next: StopReason)
    requires Prevails(reasons, r)
    ensures Prevails(reasons + [next],
                     if Precedence(next) > Precedence(r) then next else r)
  {
    var n :| 0 <= n < |reasons| && PrevailsAt(reasons, n) && reasons[n] == r;
    var longer := reasons + [next];
    if Precedence(next) > Precedence(r) {
      assert PrevailsAt(longer, |reasons|);
    } else {
      assert PrevailsAt(longer, n);
    }
  }

  /** What prevails, by kind of reason: a requested shutdown over any failure, a
      failed startup over a tripped intensity, and a natural finish only alone. Of
      equals it is the first that came. */
  lemma PrevailsBySeverity(reasons: seq<StopReason>, r: StopReason)
    requires Prevails(reasons, r) && NeverStarted !in reasons
    ensures r.ShutdownRequested? <==> ShutdownRequested in reasons
    ensures r.StartupFailure? <==>
              ShutdownRequested !in reasons && exists q :: q in reasons && q.StartupFailure?
    ensures r.Finished? <==> forall q :: q in reasons ==> q.Finished?
    ensures exists n :: 0 <= n < |reasons| && reasons[n] == r
                        && forall m :: 0 <= m < n ==> !SameKind(reasons[m], r)
  {
    var n :| 0 <= n < |reasons| && PrevailsAt(reasons, n) && reasons[n] == r;
    assert forall q :: q in reasons ==> Precedence(q) <= Precedence(r);
  }

  predicate SameKind(a: StopReason, b: StopReason) {
    && (a.Finished? <==> b.Finished?) && (a.ShutdownRequested? <==> b.ShutdownRequested?)
    && (a.IntensityTripped? <==> b.IntensityTripped?) && (a.StartupFailure? <==> b.StartupFailure?)
  }

  /** How a call changes the drain and its reason. */
  lemma DrainReasonStep(s: State, op: Op)
    ensures var t := Step(s, op).state;
            match op
            case BeginDrain(reason) =>
              t.lifecycle.Draining? && t.lifecycle.reason ==
                (if s.lifecycle.Draining? && Precedence(reason) <= Precedence(s.lifecycle.reason)
                 then s.lifecycle.reason else reason)
            case Force =>
              t.lifecycle.Draining? && t.lifecycle.reason ==
                (if s.lifecycle.Draining? && Precedence(ShutdownRequested) <= Precedence(s.lifecycle.reason)
                 then s.lifecycle.reason else ShutdownRequested)
            case _ =>
              s.lifecycle.Draining? == t.lifecycle.Draining?
              && (s.lifecycle.Draining? ==> s.lifecycle == t.lifecycle)
  {
    hide Settled, IncompleteKeys, Stops, Forces;
    if op == Apply(Settle) { SettleShape(s); }
  }

  /** A scope drains exactly when some call asked for it, for the reason that
      prevails among all those given so far. */
  lemma {:induction false} DrainReasonPrevails(flavor: Flavor, ops: seq<Op>, i: nat)
    requires i <= |ops|
    ensures At(flavor, ops, i).lifecycle.Draining? <==> Given(ops, i) != []
    ensures At(flavor, ops, i).lifecycle.Draining? ==>
              Prevails(Given(ops, i), At(flavor, ops, i).lifecycle.reason)
    decreases i
  {
    if i > 0 {
      hide Step, Run, Prevails, Precedence;
      DrainReasonPrevails(flavor, ops, i - 1);
      AtNext(flavor, ops, i - 1);
      var s := At(flavor, ops, i - 1);
      DrainReasonStep(s, ops[i - 1]);
      if ops[i - 1].BeginDrain? || ops[i - 1].Force? {
        var next: StopReason := if ops[i - 1].Force? then ShutdownRequested else ops[i - 1].reason;
        if s.lifecycle.Draining? {
          PrevailsExtend(Given(ops, i - 1), s.lifecycle.reason, next);
        } else {
          PrevailsAlone(next);
          assert Given(ops, i) == [next];
        }
      }
    }
  }

  lemma PrevailsAlone(r: StopReason)
    ensures Prevails([r], r)
  {
    assert PrevailsAt([r], 0);
  }

  lemma OnlySettlementFinishes(s: State, op: Op, r: StopReason)
    requires op != Apply(Settle)
    ensures ScopeFinished(r) !in Step(s, op).effects
  {
    hide Settled, IncompleteKeys;
  }

  /** The state in which a settlement's finish phase runs. */
  lemma FinishPhase(s: State)
    ensures var b := SettledStop(SettledStartup(s).state).state;
            && b.children == s.children && b.flavor == s.flavor && b.finishEmitted == s.finishEmitted
            && b.lifecycle == Settled(s).state.lifecycle
            && (s.lifecycle.Draining? ==> b.lifecycle == s.lifecycle)
            && (b.lifecycle.Draining? ==> s.lifecycle.Draining?)
            && Settled(s).state.finishEmitted == SettledFinish(b).state.finishEmitted
  {
    var a := SettledStartup(s);
    StartupShape(s);
    StopShape(a.state);
    FinishShape(SettledStop(a.state).state);
    hide SettledStartup, SettledStop, SettledFinish;
  }

  lemma FinishStep(s: State, op: Op, r: StopReason)
    requires ScopeFinished(r) in Step(s, op).effects
    ensures op == Apply(Settle) && !s.finishEmitted && Step(s, op).state.finishEmitted
    ensures AllJoined(s.children)
    ensures multiset(Step(s, op).effects)[ScopeFinished(r)] == 1
    ensures if s.lifecycle.Draining? then r == s.lifecycle.reason
            else r == Finished && s.flavor.Ordered? && s.children != map[]
                 && StartupComplete(Step(s, op).state.lifecycle)
  {
    hide Settled, SettledStartup, SettledStop, AllJoined, StartupComplete, DrainBegun, Forced;
    if op != Apply(Settle) {
      OnlySettlementFinishes(s, op, r);
    } else {
      FinishPhase(s);
      SettleEffect(s, ScopeFinished(r));
    }
  }

  /** A scope finishes at most once, only when every child has joined. In a
      drain the verdict is the prevailing reason so far; otherwise it is the
      natural finish of a non-empty ordered scope whose startup completed. */
  lemma {:induction false} FinishVerdict(flavor: Flavor, ops: seq<Op>, i: nat, r: StopReason)
    requires i < |ops| && ScopeFinished(r) in Emitted(flavor, ops, i)
    ensures forall k :: k in At(flavor, ops, i).children ==>
              At(flavor, ops, i).children[k].state.incarnation == Joined
    ensures forall j: nat, q: StopReason :: j < |ops| && ScopeFinished(q) in Emitted(flavor, ops, j)
              ==> j == i && q == r
    ensures multiset(Emitted(flavor, ops, i))[ScopeFinished(r)] == 1
    ensures if Given(ops, i) != [] then Prevails(Given(ops, i), r)
            else r == Finished && flavor.Ordered? && At(flavor, ops, i).children != map[]
                 && StartupComplete(At(flavor, ops, i + 1).lifecycle)
  {
    JoinedMeans(At(flavor, ops, i).children);
    hide Step, Run, Prevails, AllJoined;
    InvAt(flavor, ops, i);
    FinishStep(At(flavor, ops, i), ops[i], r);
    DrainReasonPrevails(flavor, ops, i);
    AtNext(flavor, ops, i);
    forall j: nat, q: StopReason | j < |ops| && ScopeFinished(q) in Emitted(flavor, ops, j)
      ensures j == i && q == r
    {
      FinishStep(At(flavor, ops, j), ops[j], q);
      AtNext(flavor, ops, j);
      if i < j { LaterAt(flavor, ops, i + 1, j); }
      if j < i { LaterAt(flavor, ops, j + 1, i); }
      if i == j { OneVerdict(At(flavor, ops, i), ops[i], r, q); }
    }
  }

  lemma OneVerdict(s: State, op: Op, r: StopReason, q: StopReason)
    requires ScopeFinished(r) in Step(s, op).effects && ScopeFinished(q) in Step(s, op).effects
    ensures r == q
  {
    hide Step, AllJoined, StartupComplete;
    FinishStep(s, op, r);
    FinishStep(s, op, q);
  }

  /** A scope whose finish has been emitted emitted it at some earlier call. */
  lemma {:induction false} EmittedHasHistory(flavor: Flavor, ops: seq<Op>, i: nat)
    requires i <= |ops| && At(flavor, ops, i).finishEmitted
    ensures exists j: nat, r: StopReason :: j < i && ScopeFinished(r) in Emitted(flavor, ops, j)
    decreases i
  {
    hide Step;
    if i > 0 {
      AtNext(flavor, ops, i - 1);
      var s := At(flavor, ops, i - 1);
      if s.finishEmitted {
        EmittedHasHistory(flavor, ops, i - 1);
      } else {
        var r := FinishIsEmitted(s, ops[i - 1]);
        assert ScopeFinished(r) in Emitted(flavor, ops, i - 1);
      }
    }
  }

  lemma FinishIsEmitted(s: State, op: Op) returns (r: StopReason)
    requires !s.finishEmitted && Step(s, op).state.finishEmitted
    ensures ScopeFinished(r) in Step(s, op).effects
  {
    hide Settled, SettledStartup, SettledStop, Verdict, IncompleteKeys, DrainBegun, Forced;
    if op == Apply(Settle) {
      FinishPhase(s);
      r := Verdict(SettledStop(SettledStartup(s).state).state).value;
      SettleEffect(s, ScopeFinished(r));
    } else {
      r := Finished;
      if op.FailStartup? || op.BeginDrain? || op.Force? {
        hide Step;
        OwnerShape(s, op);
      }
    }
  }

  /** A scope finishes at the first settlement that finds every child joined, if
      it is draining, or is a non-empty ordered scope whose startup has completed:
      no settlement finds that without a verdict having been issued by then. */
  lemma FinishIsPrompt(flavor: Flavor, ops: seq<Op>, i: nat)
    requires i < |ops| && ops[i] == Apply(Settle)
    requires forall k :: k in At(flavor, ops, i).children ==>
               At(flavor, ops, i).children[k].state.incarnation == Joined
    requires Given(ops, i) != []
             || (flavor.Ordered? && At(flavor, ops, i).children != map[]
                 && At(flavor, ops, i + 1).lifecycle.Running?)
    ensures exists j: nat, r: StopReason :: j <= i && ScopeFinished(r) in Emitted(flavor, ops, j)
  {
    hide Step, Run;
    DrainReasonPrevails(flavor, ops, i);
    var s := At(flavor, ops, i);
    if s.finishEmitted {
      EmittedHasHistory(flavor, ops, i);
    } else {
      AtNext(flavor, ops, i);
      FlavorKept(flavor, ops, i);
      SettleFinishes(s);
      var r := FinishIsEmitted(s, ops[i]);
      assert ScopeFinished(r) in Emitted(flavor, ops, i);
    }
  }

  lemma {:induction false} FlavorKept(flavor: Flavor, ops: seq<Op>, i: nat)
    requires i <= |ops|
    ensures At(flavor, ops, i).flavor == flavor
    decreases i
  {
    if i > 0 {
      hide Step, Run, Inv;
      FlavorKept(flavor, ops, i - 1);
      AtNext(flavor, ops, i - 1);
      InvAt(flavor, ops, i - 1);
      InvStep(At(flavor, ops, i - 1), ops[i - 1]);
    }
  }

  lemma JoinedMeans(children: Children)
    ensures AllJoined(children) ==> forall k :: k in children ==> children[k].state.incarnation == Joined
  {
  }

  lemma SettleFinishes(s: State)
    requires AllJoined(s.children)
    requires s.lifecycle.Draining?
             || (s.flavor.Ordered? && s.children != map[]
                 && Step(s, Apply(Settle)).state.lifecycle.Running?)
    ensures Step(s, Apply(Settle)).state.finishEmitted
  {
    hide Settled, SettledStartup, SettledStop, AllJoined;
    FinishPhase(s);
    SettleShape(s);
  }
}
