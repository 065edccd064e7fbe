/** Ordered startup over whole runs. */
module SupervisorStartup {
  import opened Common
  import opened Keys
  import opened SupervisorSpec
  import opened SupervisorRuns

  /** Call `j` is a readiness edge the reducer accepted from an initial member. */
  predicate ReadyAccepted(flavor: Flavor, ops: seq<Op>, j: nat, k: Key)
    requires j < |ops|
  {
    && ops[j] == Apply(Ready(k))
    && k in At(flavor, ops, j).children
    && At(flavor, ops, j).children[k].AcceptsReady()
    && At(flavor, ops, j).children[k].startup.Initial?
  }

  /** Call `j` is a spawn edge the reducer accepted. */
  predicate SpawnAccepted(flavor: Flavor, ops: seq<Op>, j: nat, k: Key)
    requires j < |ops|
  {
    && ops[j] == Apply(Spawned(k))
    && k in At(flavor, ops, j).children
    && At(flavor, ops, j).children[k].Startable()
  }

  /** Readiness of `k` was accepted by one of the first `i` calls. */
  ghost predicate WasReady(flavor: Flavor, ops: seq<Op>, i: nat, k: Key)
    requires i <= |ops|
  {
    exists j: nat :: j < i && ReadyAccepted(flavor, ops, j, k)
  }

  /** `k` was spawned by one of the first `i` calls. */
  ghost predicate WasSpawned(flavor: Flavor, ops: seq<Op>, i: nat, k: Key)
    requires i <= |ops|
  {
    exists j: nat :: j < i && SpawnAccepted(flavor, ops, j, k)
  }

  /** A registered record either was admitted by this call, or answers it. */
  lemma RecordStep(s: State, op: Op, k: Key)
    requires k in Step(s, op).state.children
    ensures var r := Step(s, op).state.children[k];
            if op.Apply? && !op.event.Settle? && op.event.child == k then
              k in s.children && r == RecordAfter(s.children[k], s.lifecycle.Starting?, op.event)
            else if op.Admit? && k == s.keys + 1 then
              r == Record(op.membership, Resident(Unstarted),
                          if op.initial then Initial(false) else Runtime, false)
            else k in s.children && r == s.children[k]
  {
    hide Settled, RecordEffects;
    if op == Apply(Settle) { SettleShape(s); }
  }

  /** A ready mark was put there by an accepted readiness edge. */
  lemma {:induction false} ReadyHasHistory(flavor: Flavor, ops: seq<Op>, i: nat, k: Key)
    requires i <= |ops|
    requires k in At(flavor, ops, i).children
    requires At(flavor, ops, i).children[k].startup == Initial(true)
    ensures WasReady(flavor, ops, i, k)
    decreases i
  {
    if i > 0 {
      hide Step, Run;
      AtNext(flavor, ops, i - 1);
      var s := At(flavor, ops, i - 1);
      RecordStep(s, ops[i - 1], k);
      if k in s.children && s.children[k].startup == Initial(true) {
        ReadyHasHistory(flavor, ops, i - 1, k);
      } else {
        assert ReadyAccepted(flavor, ops, i - 1, k);
      }
    }
  }

  /** A spawned mark was put there by an accepted spawn edge. */
  lemma {:induction false} SpawnHasHistory(flavor: Flavor, ops: seq<Op>, i: nat, k: Key)
    requires i <= |ops|
    requires k in At(flavor, ops, i).children && At(flavor, ops, i).children[k].spawnedOnce
    ensures WasSpawned(flavor, ops, i, k)
    decreases i
  {
    if i > 0 {
      hide Step, Run;
      AtNext(flavor, ops, i - 1);
      var s := At(flavor, ops, i - 1);
      RecordStep(s, ops[i - 1], k);
      if k in s.children && s.children[k].spawnedOnce {
        SpawnHasHistory(flavor, ops, i - 1, k);
      } else {
        assert SpawnAccepted(flavor, ops, i - 1, k);
      }
    }
  }

  /** The startup cursor lies beyond `k`. */
  predicate Passed(s: State, k: Key) {
    s.nextStart.None? || k < s.nextStart.value
  }

  /** Only a settlement that finds `k` spawned and ready moves the cursor past it. */
  lemma PassStep(s: State, op: Op, k: Key)
    requires Inv(s) && s.flavor.Ordered?
    requires k in Step(s, op).state.children && Step(s, op).state.children[k].startup.Initial?
    requires Passed(Step(s, op).state, k)
    ensures k in s.children
    ensures Passed(s, k) || (s.children[k].spawnedOnce && s.children[k].startup == Initial(true))
    ensures s.children[k].startup.Initial?
  {
    hide Settled, SettledStartup, RecordAfter, RecordEffects, DrainBegun, Forced;
    match op
    case Apply(event) =>
      RecordStep(s, op, k);
      if event.Settle? {
        SettleShape(s);
        StartupShape(s);
        if !Passed(s, k) {
          assert k !in GatingKeys(s.children);
        }
      } else {
        if event.child in s.children {
          StartupKindKept(s.children[event.child], s.lifecycle.Starting?, event);
        }
      }
    case Admit(_, _) => hide Applied;
    case _ =>
      hide Step, Applied;
      OwnerShape(s, op);
  }

  lemma StartupKindKept(r: Record, starting: bool, event: Event)
    ensures RecordAfter(r, starting, event).startup.Initial? == r.startup.Initial?
  {
  }

  lemma {:induction false} PassedWereReady(ops: seq<Op>, i: nat, k: Key)
    requires i <= |ops|
    requires k in At(Ordered, ops, i).children && At(Ordered, ops, i).children[k].startup.Initial?
    requires Passed(At(Ordered, ops, i), k)
    ensures WasReady(Ordered, ops, i, k) && WasSpawned(Ordered, ops, i, k)
    decreases i
  {
    if i > 0 {
      hide Step, Run, Inv;
      AtNext(Ordered, ops, i - 1);
      InvAt(Ordered, ops, i - 1);
      var s := At(Ordered, ops, i - 1);
      PassStep(s, ops[i - 1], k);
      if Passed(s, k) {
        PassedWereReady(ops, i - 1, k);
      } else {
        ReadyHasHistory(Ordered, ops, i - 1, k);
        SpawnHasHistory(Ordered, ops, i - 1, k);
      }
    }
  }

  /** Only settlement asks for construction, and in an ordered scope only of
      the member gating startup. */
  lemma OnlySettlementStarts(s: State, op: Op, k: Key)
    requires op != Apply(Settle)
    ensures StartChild(k) !in Step(s, op).effects && StartupCompleted !in Step(s, op).effects
  {
    hide Settled, IncompleteKeys;
  }

  lemma StartNamesGate(s: State, op: Op, k: Key)
    requires s.flavor.Ordered? && StartChild(k) in Step(s, op).effects
    ensures op == Apply(Settle) && s.lifecycle.Starting?
    ensures StartGate(s.children, s.nextStart) == Some(k)
    ensures k in s.children && s.children[k].NeverSpawnedStartable()
    ensures multiset(Step(s, op).effects)[StartChild(k)] == 1
  {
    hide Settled, AllInitialReady, DrainBegun, Forced;
    if op != Apply(Settle) {
      OnlySettlementStarts(s, op, k);
    } else {
      SettleEffect(s, StartChild(k));
      hide SettledStop, SettledFinish, Applied;
    }
  }

  /** Ordered startup: when a settlement asks for `k`, every smaller initial
      member still registered was spawned and had its readiness accepted by an
      earlier call, whatever has happened to it since. */
  lemma StartsFollowReadiness(ops: seq<Op>, i: nat, k: Key, lower: Key)
    requires i < |ops| && StartChild(k) in Emitted(Ordered, ops, i)
    requires lower < k && lower in At(Ordered, ops, i).children
    requires At(Ordered, ops, i).children[lower].startup.Initial?
    ensures WasReady(Ordered, ops, i, lower) && WasSpawned(Ordered, ops, i, lower)
  {
    hide Step, Run;
    var s := At(Ordered, ops, i);
    InvAt(Ordered, ops, i);
    StartNamesGate(s, ops[i], k);
    if Passed(s, lower) {
      PassedWereReady(ops, i, lower);
    } else {
      assert lower !in GatingKeys(s.children);
      ReadyHasHistory(Ordered, ops, i, lower);
      SpawnHasHistory(Ordered, ops, i, lower);
    }
  }

  /** One call starts at most one child of an ordered scope. */
  lemma {:induction false} AtMostOneStart(ops: seq<Op>, i: nat, k: Key, other: Key)
    requires i < |ops|
    requires StartChild(k) in Emitted(Ordered, ops, i) && StartChild(other) in Emitted(Ordered, ops, i)
    ensures k == other
    ensures multiset(Emitted(Ordered, ops, i))[StartChild(k)] == 1
  {
    hide Step, Run, StartGate;
    InvAt(Ordered, ops, i);
    StartNamesGate(At(Ordered, ops, i), ops[i], k);
    StartNamesGate(At(Ordered, ops, i), ops[i], other);
  }

  /** In a scope of either flavor, every requested start is of a registered,
      never-spawned member whose spawn edge the very same state accepts. */
  lemma StartsAreAccepted(s: State, op: Op, k: Key)
    requires StartChild(k) in Step(s, op).effects
    ensures op == Apply(Settle)
    ensures k in s.children && s.children[k].NeverSpawnedStartable()
    ensures Settled(s).state.children == s.children
  {
    if s.flavor.Ordered? {
      StartNamesGate(s, op, k);
    } else {
      StartNamesUnspawned(s, op, k);
    }
    SettleShape(s);
  }

  lemma StartNamesUnspawned(s: State, op: Op, k: Key)
    requires s.flavor.Dynamic? && StartChild(k) in Step(s, op).effects
    ensures op == Apply(Settle)
    ensures k in s.children && s.children[k].NeverSpawnedStartable()
  {
    hide Settled, AllInitialReady, DrainBegun, Forced, Sorted;
    if op != Apply(Settle) {
      OnlySettlementStarts(s, op, k);
    } else {
      SettleEffect(s, StartChild(k));
      hide SettledStop, SettledFinish, Applied;
      assert StartChild(k) in SettledStartup(s).effects;
      assert StartChild(k) in Starts(Sorted(UnspawnedInitial(s.children)));
      SortedHas(UnspawnedInitial(s.children), k);
    }
  }

  /** Startup completes only from the starting state, with every registered
      initial member ready. */
  lemma CompletionStep(s: State, op: Op)
    requires StartupCompleted in Step(s, op).effects
    ensures op == Apply(Settle) && s.lifecycle.Starting? && AllInitialReady(s.children)
    ensures Step(s, op).state.lifecycle.Running?
  {
    hide Settled, AllInitialReady, DrainBegun, Forced, Sorted, StartGate, UnspawnedInitial;
    if op != Apply(Settle) {
      OnlySettlementStarts(s, op, 0);
    } else {
      SettleEffect(s, StartupCompleted);
      SettlePhases(s);
      hide SettledStop, SettledFinish, Applied;
      assert StartupCompleted in SettledStartup(s).effects;
    }
  }

  lemma SettlePhases(s: State)
    ensures Settled(s).state.lifecycle == SettledStartup(s).state.lifecycle
  {
    var a := SettledStartup(s).state;
    StopShape(a);
    FinishShape(SettledStop(a).state);
    hide SettledStartup, SettledStop, SettledFinish;
  }

  /** Startup completes at most once, only when every registered initial
      member is ready, and never after a startup failure or a drain. */
  lemma StartupCompletesOnce(flavor: Flavor, ops: seq<Op>, i: nat)
    requires i < |ops| && StartupCompleted in Emitted(flavor, ops, i)
    ensures AllInitialReady(At(flavor, ops, i).children)
    ensures forall j: nat :: j < |ops| && j != i ==> StartupCompleted !in Emitted(flavor, ops, j)
    ensures forall j: nat :: j < i ==> !ops[j].FailStartup? && !ops[j].BeginDrain? && !ops[j].Force?
  {
    hide Run, AllInitialReady;
    CompletionStep(At(flavor, ops, i), ops[i]);
    AtNext(flavor, ops, i);
    forall j: nat | j < |ops| && j != i ensures StartupCompleted !in Emitted(flavor, ops, j) {
      if StartupCompleted in Emitted(flavor, ops, j) {
        hide Step;
        CompletionStep(At(flavor, ops, j), ops[j]);
        AtNext(flavor, ops, j);
        if i < j { LaterAt(flavor, ops, i + 1, j); } else { LaterAt(flavor, ops, j + 1, i); }
      }
    }
    forall j: nat | j < i
      ensures !ops[j].FailStartup? && !ops[j].BeginDrain? && !ops[j].Force?
    {
      if ops[j].FailStartup? || ops[j].BeginDrain? || ops[j].Force? {
        LeavesStarting(At(flavor, ops, j), ops[j]);
        hide Step;
        AtNext(flavor, ops, j);
        LaterAt(flavor, ops, j + 1, i);
      }
    }
  }

  lemma LeavesStarting(s: State, op: Op)
    requires op.FailStartup? || op.BeginDrain? || op.Force?
    ensures !Step(s, op).state.lifecycle.Starting?
  {
  }
}
