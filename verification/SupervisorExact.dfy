/** What the reducer must do: the other half of what it may do. */
module SupervisorExact {
  import opened Common
  import opened Identity
  import opened Keys
  import opened SupervisorSpec
  import opened SupervisorRuns
  import opened SupervisorStartup
  import opened SupervisorRemoval

  // ----------------------------------------------------------------- startup

  /** Ordered startup passes this member by. */
  predicate SettledIn(r: Record) {
    r.state.Resident? && r.spawnedOnce && r.startup != Initial(false)
  }

  /** The member ordered startup is held at: the first registered key at or after
      the cursor that has not settled in. */
  predicate HeldAt(s: State, k: Key) {
    && k in s.children && s.nextStart.Some? && s.nextStart.value <= k && !SettledIn(s.children[k])
    && forall j :: j in s.children && s.nextStart.value <= j < k ==> SettledIn(s.children[j])
  }

  lemma GateIsHeld(s: State, k: Key)
    ensures StartGate(s.children, s.nextStart) == Some(k) <==> HeldAt(s, k)
  {
    var gating := GatingKeys(s.children);
    assert forall j :: j in s.children ==> (j in gating <==> !SettledIn(s.children[j]));
  }

  /** A settlement of a starting ordered scope asks for exactly the member it is
      held at, if that was never spawned and may be, leaves the members before it
      behind for good, and completes startup exactly when it is held at none and
      every initial member is ready. */
  lemma OrderedStartupSettles(s: State, k: Key)
    requires s.lifecycle.Starting? && s.flavor.Ordered?
    ensures StartChild(k) in Settled(s).effects
            <==> HeldAt(s, k) && !s.children[k].spawnedOnce
                 && s.children[k].state in {Resident(Unstarted), Resident(RestartPending)}
    ensures multiset(Settled(s).effects)[StartupCompleted]
            == if (forall j :: !HeldAt(s, j))
                  && (forall j :: j in s.children ==> s.children[j].startup != Initial(false))
               then 1 else 0
    ensures Settled(s).state.nextStart == Some(k) <==> HeldAt(s, k)
  {
    SettleShape(s);
    SettleEffect(s, StartChild(k));
    SettleEffect(s, StartupCompleted);
    hide Settled, SettledStop, SettledFinish, HeldAt, StartGate;
    var gate := StartGate(s.children, s.nextStart);
    GateIsHeld(s, k);
    if gate.Some? {
      GateIsHeld(s, gate.value);
    }
    forall j: Key ensures HeldAt(s, j) <==> gate == Some(j) { GateIsHeld(s, j); }
    assert StartChild(k) in Settled(s).effects <==> multiset(Settled(s).effects)[StartChild(k)] > 0;
  }

  /** A settlement of a starting dynamic scope asks for exactly the initial
      members never spawned that may be, and completes startup exactly when every
      initial member is ready. */
  lemma DynamicStartupSettles(s: State, k: Key)
    requires s.lifecycle.Starting? && s.flavor.Dynamic?
    ensures StartChild(k) in Settled(s).effects
            <==> && k in s.children && s.children[k].startup.Initial? && !s.children[k].spawnedOnce
                 && s.children[k].state in {Resident(Unstarted), Resident(RestartPending)}
    ensures multiset(Settled(s).effects)[StartupCompleted]
            == if forall j :: j in s.children ==> s.children[j].startup != Initial(false)
               then 1 else 0
  {
    SettleEffect(s, StartChild(k));
    SettleEffect(s, StartupCompleted);
    hide Settled, SettledStop, SettledFinish, Sorted;
    var keys := UnspawnedInitial(s.children);
    SortedHas(keys, k);
    var starts := Starts(Sorted(keys));
    assert StartChild(k) in starts <==> k in Sorted(keys);
    assert StartupCompleted !in starts;
    assert StartChild(k) in Settled(s).effects <==> multiset(Settled(s).effects)[StartChild(k)] > 0;
  }

  /** The cursor never leaves behind an initial member that was not spawned. */
  lemma {:induction false} CursorPassesSpawned(ops: seq<Op>, i: nat, k: Key)
    requires i <= |ops| && k in At(Ordered, ops, i).children
    requires At(Ordered, ops, i).children[k].startup.Initial? && Passed(At(Ordered, ops, i), k)
    ensures At(Ordered, ops, i).children[k].spawnedOnce
    decreases i
  {
    if i > 0 {
      hide Step, Run, Inv;
      AtNext(Ordered, ops, i - 1);
      InvAt(Ordered, ops, i - 1);
      InvAt(Ordered, ops, i);
      var s := At(Ordered, ops, i - 1);
      PassStep(s, ops[i - 1], k);
      if Passed(s, k) {
        CursorPassesSpawned(ops, i - 1, k);
      }
      SpawnMarkStays(s, ops[i - 1], k);
    }
  }

  lemma SpawnMarkStays(s: State, op: Op, k: Key)
    requires Inv(s) && k in s.children && s.children[k].spawnedOnce
    requires k in Step(s, op).state.children
    ensures Step(s, op).state.children[k].spawnedOnce
  {
    hide Step;
    LaterStep(s, op);
    assert RecordLater(s.children[k], Step(s, op).state.children[k]);
  }

  /** Ordered startup keeps going: the first initial member not yet spawned is
      asked for once every smaller registered one has settled in. */
  lemma NextMemberIsAsked(ops: seq<Op>, i: nat, k: Key)
    requires i < |ops| && ops[i] == Apply(Settle)
    requires var s := At(Ordered, ops, i);
             && s.lifecycle.Starting? && k in s.children
             && s.children[k].startup.Initial? && !s.children[k].spawnedOnce
             && s.children[k].state == Resident(Unstarted)
             && forall j :: j in s.children && j < k ==> SettledIn(s.children[j])
    ensures StartChild(k) in Emitted(Ordered, ops, i)
  {
    hide Run, Settled;
    var s := At(Ordered, ops, i);
    InvAt(Ordered, ops, i);
    FlavorAt(Ordered, ops, i);
    if Passed(s, k) {
      CursorPassesSpawned(ops, i, k);
    }
    OrderedStartupSettles(s, k);
  }

  lemma {:induction false} FlavorAt(flavor: Flavor, ops: seq<Op>, i: nat)
    requires i <= |ops|
    ensures At(flavor, ops, i).flavor == flavor
  {
    if i > 0 {
      hide Step, Run, Inv;
      FlavorAt(flavor, ops, i - 1);
      AtNext(flavor, ops, i - 1);
      InvAt(flavor, ops, i - 1);
      InvStep(At(flavor, ops, i - 1), ops[i - 1]);
    }
  }

  /** Startup completes at the first settlement that finds every initial member
      ready and, in an ordered scope, every member settled in. */
  lemma StartupCompletesPromptly(flavor: Flavor, ops: seq<Op>, i: nat)
    requires i < |ops| && ops[i] == Apply(Settle) && At(flavor, ops, i).lifecycle.Starting?
    requires forall j :: j in At(flavor, ops, i).children ==>
               && At(flavor, ops, i).children[j].startup != Initial(false)
               && (flavor.Ordered? ==> SettledIn(At(flavor, ops, i).children[j]))
    ensures multiset(Emitted(flavor, ops, i))[StartupCompleted] == 1
    ensures At(flavor, ops, i + 1).lifecycle.Running?
  {
    hide Run, Settled;
    var s := At(flavor, ops, i);
    FlavorAt(flavor, ops, i);
    AtNext(flavor, ops, i);
    if flavor.Ordered? {
      OrderedStartupSettles(s, 0);
    } else {
      DynamicStartupSettles(s, 0);
    }
    assert StartupCompleted in Emitted(flavor, ops, i);
    CompletionStep(s, ops[i]);
  }

  // ----------------------------------------------------------------- removal

  /** Call `j` committed the removal of a child that had not joined. */
  predicate CommittedAt(flavor: Flavor, ops: seq<Op>, j: nat, k: Key)
    requires j < |ops|
  {
    && ops[j] == Apply(RemovalLatched(k)) && k in At(flavor, ops, j).children
    && !At(flavor, ops, j).children[k].state.Removing?
    && At(flavor, ops, j).children[k].state.incarnation != Joined
  }

  ghost predicate Committed(flavor: Flavor, ops: seq<Op>, i: nat, k: Key)
    requires i <= |ops|
  {
    exists j: nat :: j < i && CommittedAt(flavor, ops, j, k)
  }

  lemma CommitStops(s: State, k: Key)
    ensures multiset(Step(s, Apply(RemovalLatched(k))).effects)[StopChild(k)]
            == if k in s.children && !s.children[k].state.Removing?
                  && s.children[k].state.incarnation != Joined
               then 1 else 0
  {
    hide Settled;
  }

  /** A removal commit stops its child exactly once if it finds it not joined, and
      never otherwise. */
  lemma {:induction false} RemovalStopsExactly(flavor: Flavor, ops: seq<Op>, i: nat, k: Key)
    requires i <= |ops|
    ensures RemovalStops(flavor, ops, i, k) == if Committed(flavor, ops, i, k) then 1 else 0
    decreases i
  {
    if i > 0 {
      hide Step, Run, Committed;
      RemovalStopsExactly(flavor, ops, i - 1, k);
      RemovalStopsOnce(flavor, ops, i, k);
      CommitStops(At(flavor, ops, i - 1), k);
      CommittedExtends(flavor, ops, i, k);
    }
  }

  lemma CommittedExtends(flavor: Flavor, ops: seq<Op>, i: nat, k: Key)
    requires 0 < i <= |ops|
    ensures Committed(flavor, ops, i, k)
            <==> Committed(flavor, ops, i - 1, k) || CommittedAt(flavor, ops, i - 1, k)
  {
    hide Run, Step, CommittedAt;
  }

  // ------------------------------------------------------------ drain opening

  /** Opening the drain of a dynamic scope stops exactly the children that still
      owe a join; that of an ordered scope stops nobody before it settles. */
  lemma DrainOpeningStops(s: State, reason: DrainReason, k: Key)
    requires !s.lifecycle.Draining?
    ensures StopChild(k) in Step(s, BeginDrain(reason)).effects
            <==> s.flavor.Dynamic? && k in s.children && s.children[k].state.incarnation != Joined
    ensures StopChild(k) in Step(s, Force).effects
            <==> s.flavor.Dynamic? && k in s.children && s.children[k].state.incarnation != Joined
  {
    hide Sorted;
    SortedHas(Owing(s.children), k);
    var stops := Stops(IncompleteKeys(s.children));
    assert StopChild(k) in stops <==> k in IncompleteKeys(s.children);
    var forces := Forces(IncompleteKeys(s.children));
    assert StopChild(k) !in forces;
  }

  /** A force sends exactly one force to each child that still owes a join, in
      ascending key order and after every stop. */
  lemma ForceIsExact(s: State, k: Key)
    ensures ForceChild(k) in Step(s, Force).effects
            <==> k in s.children && s.children[k].state.incarnation != Joined
    ensures forall i, j :: 0 <= i < j < |Step(s, Force).effects| && Step(s, Force).effects[i].ForceChild? ==>
              Step(s, Force).effects[j].ForceChild?
              && Step(s, Force).effects[i].child < Step(s, Force).effects[j].child
  {
    hide Sorted;
    SortedLists(Owing(s.children));
    var forces := Forces(IncompleteKeys(s.children));
    assert ForceChild(k) in forces <==> k in IncompleteKeys(s.children);
    var o := DrainBegun(s.(hardForced := true), ShutdownRequested);
    assert forall e :: e in o.effects ==> e.StopChild?;
    assert Step(s, Force).effects == o.effects + forces;
  }

  ghost predicate EverForced(ops: seq<Op>, i: nat)
    requires i <= |ops|
  {
    exists j: nat :: j < i && ops[j].Force?
  }

  lemma ForcedExtends(ops: seq<Op>, i: nat)
    requires 0 < i <= |ops|
    ensures EverForced(ops, i) <==> EverForced(ops, i - 1) || ops[i - 1].Force?
  {
  }

  lemma AtStart(flavor: Flavor, ops: seq<Op>)
    ensures At(flavor, ops, 0) == Initially(flavor)
    ensures !EverForced(ops, 0) && !EverCompleted(flavor, ops, 0) && !EverFailed(flavor, ops, 0)
  {
  }

  /** A scope is marked forced exactly when a force has come. */
  lemma {:induction false} ForcedIsRecorded(flavor: Flavor, ops: seq<Op>, i: nat)
    requires i <= |ops|
    ensures At(flavor, ops, i).hardForced <==> EverForced(ops, i)
    decreases i
  {
    hide Run, Step, EverForced;
    if i == 0 {
      AtStart(flavor, ops);
    } else {
      ForcedIsRecorded(flavor, ops, i - 1);
      AtNext(flavor, ops, i - 1);
      ForceStep(At(flavor, ops, i - 1), ops[i - 1]);
      ForcedExtends(ops, i);
    }
  }

  lemma ForceStep(s: State, op: Op)
    ensures Step(s, op).state.hardForced == (s.hardForced || op.Force?)
  {
    hide Settled, IncompleteKeys;
    if op == Apply(Settle) { SettleShape(s); }
  }

  /** Startup was completed by an earlier call. */
  ghost predicate EverCompleted(flavor: Flavor, ops: seq<Op>, i: nat)
    requires i <= |ops|
  {
    exists j: nat :: j < i && StartupCompleted in Emitted(flavor, ops, j)
  }

  /** A call failed startup while it was pending. */
  ghost predicate EverFailed(flavor: Flavor, ops: seq<Op>, i: nat)
    requires i <= |ops|
  {
    exists j: nat :: j < i && ops[j].FailStartup? && At(flavor, ops, j).lifecycle.Starting?
  }

  function VerdictOf(l: Lifecycle): StartupPhase {
    match l
    case Starting => Pending
    case Running => Done
    case StartupFailed => Failed
    case Draining(_, startup) => startup
  }

  lemma VerdictStarts(s: State)
    ensures var o := SettledStartup(s);
            VerdictOf(o.state.lifecycle)
            == if StartupCompleted in o.effects then Done else VerdictOf(s.lifecycle)
  {
    hide StartGate, Sorted, AllInitialReady, UnspawnedInitial;
    var starts := Starts(Sorted(UnspawnedInitial(s.children)));
    assert StartupCompleted !in starts;
    assert !s.lifecycle.Starting? ==> SettledStartup(s) == Outcome(s, []);
  }

  lemma Counts(effects: seq<Effect>, e: Effect)
    ensures e in effects <==> multiset(effects)[e] > 0
  {
  }

  lemma VerdictSettles(s: State)
    ensures VerdictOf(Settled(s).state.lifecycle)
            == if StartupCompleted in Settled(s).effects then Done else VerdictOf(s.lifecycle)
  {
    hide Settled, SettledStartup, SettledStop, SettledFinish, VerdictOf;
    SettleEffect(s, StartupCompleted);
    SettlePhases(s);
    VerdictStarts(s);
    Counts(SettledStartup(s).effects, StartupCompleted);
    Counts(Settled(s).effects, StartupCompleted);
  }

  lemma VerdictOwned(s: State, op: Op)
    requires op != Apply(Settle)
    ensures StartupCompleted !in Step(s, op).effects
    ensures VerdictOf(Step(s, op).state.lifecycle)
            == if op.FailStartup? && s.lifecycle.Starting? then Failed else VerdictOf(s.lifecycle)
  {
    OnlySettlementStarts(s, op, 0);
    hide Settled, IncompleteKeys, Stops, Forces, RecordAfter, RecordEffects;
  }

  lemma VerdictStep(s: State, op: Op)
    ensures VerdictOf(Step(s, op).state.lifecycle)
            == if StartupCompleted in Step(s, op).effects then Done
               else if op.FailStartup? && s.lifecycle.Starting? then Failed
               else VerdictOf(s.lifecycle)
  {
    if op == Apply(Settle) {
      VerdictSettles(s);
    } else {
      VerdictOwned(s, op);
    }
    hide Settled, DrainBegun, Forced, VerdictOf;
  }

  /** The lifecycle, a drain's included, keeps the startup verdict: done exactly
      when startup completed, failed exactly when it failed first. */
  lemma {:induction false} StartupVerdictKept(flavor: Flavor, ops: seq<Op>, i: nat)
    requires i <= |ops|
    ensures VerdictOf(At(flavor, ops, i).lifecycle).Done? <==> EverCompleted(flavor, ops, i)
    ensures VerdictOf(At(flavor, ops, i).lifecycle).Failed? <==> EverFailed(flavor, ops, i)
    decreases i
  {
    hide Run, Step, EverCompleted, EverFailed;
    if i == 0 {
      AtStart(flavor, ops);
    } else {
      var s := At(flavor, ops, i - 1);
      StartupVerdictKept(flavor, ops, i - 1);
      AtNext(flavor, ops, i - 1);
      VerdictStep(s, ops[i - 1]);
      CompletedExtends(flavor, ops, i);
      FailedExtends(flavor, ops, i);
      if StartupCompleted in Emitted(flavor, ops, i - 1) {
        CompletionStep(s, ops[i - 1]);
      }
    }
  }

  lemma CompletedExtends(flavor: Flavor, ops: seq<Op>, i: nat)
    requires 0 < i <= |ops|
    ensures EverCompleted(flavor, ops, i)
            <==> EverCompleted(flavor, ops, i - 1) || StartupCompleted in Emitted(flavor, ops, i - 1)
  {
    hide Run, Step;
  }

  lemma FailedExtends(flavor: Flavor, ops: seq<Op>, i: nat)
    requires 0 < i <= |ops|
    ensures EverFailed(flavor, ops, i)
            <==> EverFailed(flavor, ops, i - 1)
                 || (ops[i - 1].FailStartup? && At(flavor, ops, i - 1).lifecycle.Starting?)
  {
    hide Run, Step;
  }

  // ---------------------------------------------------------------- the life

  /** The edges of a child's life. */
  const EDGES: set<(Incarnation, Incarnation)> := {
    (Unstarted, Active), (RestartPending, Active), (Active, Stopping),
    (Active, Complete), (Stopping, Complete), (Complete, RestartPending),
    (Unstarted, Disposing), (Complete, Disposing), (RestartPending, Disposing),
    (Disposing, Joined)}

  /** One event takes a child from one phase to another. */
  predicate Takes(r: Record, starting: bool, event: Event, to: Incarnation) {
    RecordAfter(r, starting, event).state.incarnation == to
  }

  /** No event takes a child off the edges of its life. */
  lemma LifeFollowsEdges(r: Record, starting: bool, event: Event)
    ensures var q := RecordAfter(r, starting, event);
            q.state.incarnation == r.state.incarnation
            || (r.state.incarnation, q.state.incarnation) in EDGES
  {
  }

  /** And every edge can be taken: some event takes a child not being removed
      along it. */
  lemma EveryEdgeIsTaken(r: Record, starting: bool, k: Key, to: Incarnation) returns (event: Event)
    requires r.state.Resident? && (r.state.incarnation, to) in EDGES
    ensures !event.Settle? && event.child == k && Takes(r, starting, event, to)
  {
    match to
    case Active => event := Spawned(k);
    case Stopping => event := StopStarted(k);
    case Complete => event := IncarnationComplete(k);
    case RestartPending => event := RestartScheduled(k);
    case Disposing => event := DisposalStarted(k);
    case Joined => event := Terminalized(k);
    case Unstarted =>
  }

  /** One event after another. */
  function Fed(s: State, events: seq<Event>): State {
    if events == [] then s else Applied(Fed(s, events[..|events| - 1]), events[|events| - 1]).state
  }

  lemma FedMore(s: State, events: seq<Event>, event: Event)
    ensures Fed(s, events + [event]) == Applied(Fed(s, events), event).state
  {
    assert (events + [event])[..|events|] == events;
  }

  lemma FedNone(s: State, k: Key)
    requires k in s.children
    ensures Fed(s, []) == WithRecord(s, k, s.children[k])
  {
  }

  /** A whole life: in any state, a resident child that has not started can be
      spawned, become ready, stop, complete, be disposed of, join, and be
      reclaimed, and nothing else changes. */
  lemma LifeRunsThrough(s: State, k: Key)
    requires k in s.children && s.children[k].state == Resident(Unstarted)
    requires s.children[k].startup.Initial?
    ensures var lived := Fed(s, [] + [Spawned(k)] + [Ready(k)]);
            && k in lived.children && lived.children[k].state == Resident(Active)
            && lived.children[k].startup == Initial(true) && lived.children[k].spawnedOnce
    ensures var ended := Fed(s, [] + [Spawned(k)] + [Ready(k)] + [StopStarted(k)]
                                + [IncarnationComplete(k)] + [DisposalStarted(k)] + [Terminalized(k)]
                                + [Reclaim(k)]);
            && ended.children == s.children - {k}
            && ended == s.(children := ended.children, childKeys := ended.childKeys)
  {
    hide Fed, Applied, WithRecord;
    var e1 := [] + [Spawned(k)];
    var e2 := e1 + [Ready(k)];
    var e3 := e2 + [StopStarted(k)];
    var e4 := e3 + [IncarnationComplete(k)];
    var e5 := e4 + [DisposalStarted(k)];
    FedNone(s, k);
    var r1 := FedRecord(s, [], k, s.children[k], Spawned(k));
    var r2 := FedRecord(s, e1, k, r1, Ready(k));
    var r3 := FedRecord(s, e2, k, r2, StopStarted(k));
    var r4 := FedRecord(s, e3, k, r3, IncarnationComplete(k));
    var r5 := FedRecord(s, e4, k, r4, DisposalStarted(k));
    var r6 := FedRecord(s, e5, k, r5, Terminalized(k));
    FedMore(s, e5 + [Terminalized(k)], Reclaim(k));
    RecordOf(s, k, r2);
    JoinedIsReclaimed(s, k, r6);
  }

  lemma FedRecord(s: State, events: seq<Event>, k: Key, r: Record, event: Event) returns (q: Record)
    requires Fed(s, events) == WithRecord(s, k, r)
    requires !event.Settle? && !event.Reclaim? && event.child == k
    ensures q == RecordAfter(r, s.lifecycle.Starting?, event)
    ensures Fed(s, events + [event]) == WithRecord(s, k, q)
  {
    hide Fed, RecordAfter, RecordEffects, Settled;
    FedMore(s, events, event);
    q := RecordAfter(r, s.lifecycle.Starting?, event);
  }

  lemma RecordOf(s: State, k: Key, r: Record)
    ensures k in WithRecord(s, k, r).children && WithRecord(s, k, r).children[k] == r
  {
  }

  lemma JoinedIsReclaimed(s: State, k: Key, r: Record)
    requires r.IsJoined()
    ensures var t := Applied(WithRecord(s, k, r), Reclaim(k)).state;
            t.children == s.children - {k} && t == s.(children := t.children, childKeys := t.childKeys)
  {
    hide Settled;
  }

  // --------------------------------------------------------------- readiness

  /** Call `j` reports `k` ready while one of its incarnations is up. */
  predicate ReadiedAt(flavor: Flavor, ops: seq<Op>, j: nat, k: Key)
    requires j < |ops|
  {
    && ops[j] == Apply(Ready(k)) && k in At(flavor, ops, j).children
    && At(flavor, ops, j).children[k].state in {Resident(Active), Resident(Stopping)}
  }

  /** Call `j` schedules `k` to start over while startup lasts. */
  predicate RearmedAt(flavor: Flavor, ops: seq<Op>, j: nat, k: Key)
    requires j < |ops|
  {
    && ops[j] == Apply(RestartScheduled(k)) && k in At(flavor, ops, j).children
    && At(flavor, ops, j).lifecycle.Starting?
    && At(flavor, ops, j).children[k].state.incarnation == Complete
  }

  /** The last such call was a report. */
  predicate LastReadied(flavor: Flavor, ops: seq<Op>, i: nat, k: Key)
    requires i <= |ops|
  {
    i > 0 && (ReadiedAt(flavor, ops, i - 1, k)
              || (!RearmedAt(flavor, ops, i - 1, k) && LastReadied(flavor, ops, i - 1, k)))
  }

  /** Before its key is minted nothing is reported of a child. */
  lemma {:induction false} UnmintedIsUnready(flavor: Flavor, ops: seq<Op>, i: nat, k: Key)
    requires i <= |ops| && At(flavor, ops, i).keys < k
    ensures !LastReadied(flavor, ops, i, k)
    decreases i
  {
    if i > 0 {
      hide Step, Run;
      AtNext(flavor, ops, i - 1);
      InvAt(flavor, ops, i - 1);
      LaterStep(At(flavor, ops, i - 1), ops[i - 1]);
      UnmintedIsUnready(flavor, ops, i - 1, k);
    }
  }

  /** An initial member counts as ready exactly when the last of its reports and
      restarts within startup was a report. */
  lemma {:induction false} ReadinessIsHistory(flavor: Flavor, ops: seq<Op>, i: nat, k: Key)
    requires i <= |ops| && k in At(flavor, ops, i).children
    requires At(flavor, ops, i).children[k].startup.Initial?
    ensures At(flavor, ops, i).children[k].startup.ready <==> LastReadied(flavor, ops, i, k)
    decreases i
  {
    hide Step, Run, Inv;
    if i == 0 {
      AtStart(flavor, ops);
    } else {
      AtNext(flavor, ops, i - 1);
      InvAt(flavor, ops, i - 1);
      var s := At(flavor, ops, i - 1);
      ReadinessStep(s, ops[i - 1], k);
      if k in s.children {
        ReadinessIsHistory(flavor, ops, i - 1, k);
      } else {
        UnmintedIsUnready(flavor, ops, i - 1, k);
      }
    }
  }

  /** What one event makes of a member's startup status. */
  function Readied(r: Record, starting: bool, event: Event): Startup {
    if r.startup.Runtime? then Runtime
    else if event.Ready? && r.state in {Resident(Active), Resident(Stopping)} then Initial(true)
    else if event.RestartScheduled? && starting && r.state.incarnation == Complete then Initial(false)
    else r.startup
  }

  lemma ReadinessEvent(r: Record, starting: bool, event: Event)
    ensures RecordAfter(r, starting, event).startup == Readied(r, starting, event)
  {
  }

  lemma ReadinessStep(s: State, op: Op, k: Key)
    requires Inv(s) && k in Step(s, op).state.children
    ensures var q := Step(s, op).state.children[k];
            if k !in s.children then s.keys < k && q.startup != Initial(true) && op.Admit?
            else if op.Apply? && !op.event.Settle? && op.event.child == k
            then q.startup == Readied(s.children[k], s.lifecycle.Starting?, op.event)
            else q.startup == s.children[k].startup
  {
    hide Settled, DrainBegun, Forced, RecordAfter;
    if op == Apply(Settle) {
      SettleShape(s);
    } else if op.BeginDrain? || op.Force? {
      OwnerShape(s, op);
    } else if op.Apply? && op.event.child in s.children {
      ReadinessEvent(s.children[op.event.child], s.lifecycle.Starting?, op.event);
    }
  }

  // ------------------------------------------------------------ registration

  /** Removal goes on with the life it finds: a sample and a commit keep the
      phase, and a committed child that then ends is finalized as it joins. */
  lemma RemovalKeepsPhase(r: Record, starting: bool, k: Key)
    ensures RecordAfter(r, starting, RemovalSample(k)).state.incarnation == r.state.incarnation
    ensures r.state.Resident? <==>
              RecordAfter(r, starting, RemovalSample(k)).state == RemovalSampled(r.state.incarnation)
              && !r.state.RemovalSampled?
    ensures RecordAfter(r, starting, RemovalLatched(k)).state == Removing(r.state.incarnation)
    ensures r.state == Removing(Disposing) ==>
              RecordAfter(r, starting, Terminalized(k)).state == Removing(Joined)
              && RecordEffects(k, r, Terminalized(k)) == [FinalizeRemoval(k)]
  {
  }

  /** An admission registers a fresh key in the first phase of its life, an
      initial member unready, and points an idle ordered cursor at it. Only that
      moves the cursor. */
  lemma AdmissionRegisters(s: State, m: Membership, initial: bool)
    requires Inv(s)
    ensures var t := Step(s, Admit(m, initial)).state;
            && t.children.Keys == s.children.Keys + {s.keys + 1} && s.keys + 1 !in s.children
            && (forall k :: k in s.children ==> t.children[k] == s.children[k])
            && t.children[s.keys + 1].membership == m && t.childKeys[m] == s.keys + 1
            && t.children[s.keys + 1].state == Resident(Unstarted)
            && (t.children[s.keys + 1].startup == Initial(false) <==> initial)
            && t.children[s.keys + 1].startup.Initial? == initial
            && !t.children[s.keys + 1].spawnedOnce
            && (initial && s.flavor.Ordered? ==> t.nextStart.Some? && t.nextStart.value <= s.keys + 1)
            && (!initial || s.nextStart.Some? ==> t.nextStart == s.nextStart)
  {
  }

  /** Reclaiming removes exactly a joined child, and its index entry unless a
      later admission took that over. */
  lemma ReclaimRemovesJoined(s: State, k: Key)
    ensures Applied(s, Reclaim(k)).effects == []
    ensures Applied(s, Reclaim(k)).state.children
            == if k in s.children && s.children[k].state.incarnation == Joined then s.children - {k}
               else s.children
    ensures var t := Applied(s, Reclaim(k)).state;
            && (forall m :: m in s.childKeys && s.childKeys[m] != k ==>
                  m in t.childKeys && t.childKeys[m] == s.childKeys[m])
            && (k in s.children && k !in t.children && s.children[k].membership in t.childKeys ==>
                  t.childKeys[s.children[k].membership] != k)
  {
  }
}
