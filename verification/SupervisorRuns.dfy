/** What every run of the supervision reducer guarantees.

    A run is any sequence of entry-point calls on a fresh scope. Theorems speak
    about the state before the `i`th call (`At`) and the effects that call
    appended (`Emitted`). */
module SupervisorRuns {
  import opened Common
  import opened Keys
  import opened Identity
  import opened SupervisorSpec

  function Run(flavor: Flavor, ops: seq<Op>): State
    decreases |ops|
  {
    if ops == [] then Initially(flavor)
    else Step(Run(flavor, ops[..|ops| - 1]), ops[|ops| - 1]).state
  }

  /** The state in which call `i` is made. */
  function At(flavor: Flavor, ops: seq<Op>, i: nat): State
    requires i <= |ops|
  {
    Run(flavor, ops[..i])
  }

  /** The effects call `i` appends. */
  function Emitted(flavor: Flavor, ops: seq<Op>, i: nat): seq<Effect>
    requires i < |ops|
  {
    Step(At(flavor, ops, i), ops[i]).effects
  }

  lemma AtNext(flavor: Flavor, ops: seq<Op>, i: nat)
    requires i < |ops|
    ensures At(flavor, ops, i + 1) == Step(At(flavor, ops, i), ops[i]).state
  {
    assert ops[..i + 1][..i] == ops[..i];
  }

  // -------------------------------------------------------- basic invariant

  predicate RecordInv(r: Record) {
    && (r.state.incarnation.Unstarted? ==> !r.spawnedOnce)
    && (!r.spawnedOnce ==> r.state.incarnation in {Unstarted, Disposing, Joined})
    && (r.startup == Initial(true) ==> r.spawnedOnce)
  }

  predicate Within(c: Option<Key>, keys: nat) {
    c.Some? ==> c.value <= keys
  }

  /** Holds in every reachable state. */
  predicate Inv(s: State) {
    && (forall k :: k in s.children ==> k <= s.keys && RecordInv(s.children[k]))
    && Within(s.nextStart, s.keys) && Within(s.stopCursor, s.keys)
    && Within(s.stopWaiting, s.keys)
    && (s.flavor.Dynamic? ==> s.nextStart.None? && s.stopCursor.None? && s.stopWaiting.None?)
    && (s.stopWaiting.Some? && s.stopCursor.Some? ==> s.stopCursor.value < s.stopWaiting.value)
    && (!s.lifecycle.Draining? ==>
          s.stopCursor.None? && s.stopWaiting.None? && s.inspections == 0)
  }

  lemma {:induction false} ScanSelects(children: Children, cursor: Option<Key>)
    ensures var scan := StopScan(children, cursor);
            && (scan.found.Some? ==>
                  && cursor.Some? && scan.found.value <= cursor.value
                  && Incomplete(children, scan.found.value)
                  && scan.cursor == LastBefore(children.Keys, scan.found.value))
            && (scan.found.None? ==> scan.cursor.None?)
            && (forall k: Key :: Incomplete(children, k) && cursor.Some? && k <= cursor.value ==>
                  scan.found.Some? && k <= scan.found.value)
    decreases if cursor.Some? then cursor.value + 1 else 0
  {
    if cursor.Some? && !Incomplete(children, cursor.value) {
      ScanSelects(children, LastBefore(children.Keys, cursor.value));
    }
  }

  /** What one settlement phase may change. */
  lemma StartupShape(s: State)
    ensures var t := SettledStartup(s).state;
            t == s.(nextStart := t.nextStart, lifecycle := t.lifecycle)
            && (t.lifecycle == s.lifecycle || (s.lifecycle.Starting? && t.lifecycle.Running?))
            && (t.nextStart == s.nextStart
                || (s.flavor.Ordered? && t.nextStart == StartGate(s.children, s.nextStart)))
  {
    hide StartGate, Sorted, Starts, AllInitialReady, UnspawnedInitial;
  }

  lemma StopShape(s: State)
    ensures var t := SettledStop(s).state;
            t == s.(stopCursor := t.stopCursor, stopWaiting := t.stopWaiting,
                    inspections := t.inspections)
            && (!s.flavor.Ordered? || !s.lifecycle.Draining? ==> t == s)
  {
    hide StopScan, Incomplete;
  }

  lemma FinishShape(s: State)
    ensures var t := SettledFinish(s).state;
            t == s.(finishEmitted := t.finishEmitted) && (s.finishEmitted ==> t.finishEmitted)
  {
    hide Verdict;
  }

  lemma SettleShape(s: State)
    ensures var t := Settled(s).state;
            && t.children == s.children && t.keys == s.keys && t.childKeys == s.childKeys
            && t.flavor == s.flavor && t.hardForced == s.hardForced
            && (t.lifecycle == s.lifecycle || (s.lifecycle.Starting? && t.lifecycle.Running?))
            && t.nextStart == SettledStartup(s).state.nextStart
            && (s.finishEmitted ==> t.finishEmitted)
  {
    hide SettledStartup, SettledStop, SettledFinish;
    var a := SettledStartup(s).state;
    var b := SettledStop(a).state;
    StartupShape(s);
    StopShape(a);
    FinishShape(b);
  }

  /** The phase of a settlement each kind of effect comes from. */
  lemma SettleEffect(s: State, e: Effect)
    ensures var a := SettledStartup(s);
            var b := SettledStop(a.state);
            var c := SettledFinish(b.state);
            multiset(Settled(s).effects)[e] ==
              match e
              case StartChild(_) => multiset(a.effects)[e]
              case StartupCompleted => multiset(a.effects)[e]
              case StopChild(_) => multiset(b.effects)[e]
              case ScopeFinished(_) => multiset(c.effects)[e]
              case _ => 0
  {
    var a := SettledStartup(s);
    var b := SettledStop(a.state);
    var c := SettledFinish(b.state);
    if !e.StartChild? && !e.StartupCompleted? { StartupEffects(s, e); }
    if !e.StopChild? { StopEffects(a.state, e); }
    if !e.ScopeFinished? { FinishEffects(b.state, e); }
    hide SettledStartup, SettledStop, SettledFinish;
    assert Settled(s).effects == a.effects + b.effects + c.effects;
  }

  lemma StartupEffects(s: State, e: Effect)
    requires !e.StartChild? && !e.StartupCompleted?
    ensures multiset(SettledStartup(s).effects)[e] == 0
  {
    hide StartGate, Sorted, AllInitialReady, UnspawnedInitial;
    assert e !in SettledStartup(s).effects;
  }

  lemma StopEffects(s: State, e: Effect)
    requires !e.StopChild?
    ensures multiset(SettledStop(s).effects)[e] == 0
  {
    hide StopScan, Incomplete;
    assert e !in SettledStop(s).effects;
  }

  lemma FinishEffects(s: State, e: Effect)
    requires !e.ScopeFinished?
    ensures multiset(SettledFinish(s).effects)[e] == 0
  {
    hide Verdict;
    assert e !in SettledFinish(s).effects;
  }

  lemma InvSettle(s: State)
    requires Inv(s)
    ensures Inv(Settled(s).state)
  {
    hide SettledStartup, SettledStop, SettledFinish;
    var a := SettledStartup(s).state;
    var b := SettledStop(a).state;
    StartupShape(s);
    assert Inv(a);
    InvStop(a);
    FinishShape(b);
  }

  lemma InvStop(s: State)
    requires Inv(s)
    ensures Inv(SettledStop(s).state)
  {
    hide StopScan;
    StopShape(s);
    ScanSelects(s.children, s.stopCursor);
  }

  lemma InvApplied(s: State, event: Event)
    requires Inv(s) && !event.Settle?
    ensures Inv(Applied(s, event).state)
  {
    hide Settled;
  }

  lemma InvAdmit(s: State, m: Membership, initial: bool)
    requires Inv(s)
    ensures Inv(Admitted(s, m, initial))
  {
  }

  /** What opening, upgrading or forcing a drain, or failing startup, may change. */
  lemma OwnerShape(s: State, op: Op)
    requires op.FailStartup? || op.BeginDrain? || op.Force?
    ensures var t := Step(s, op).state;
            && t == s.(lifecycle := t.lifecycle, stopCursor := t.stopCursor, hardForced := t.hardForced)
            && !t.lifecycle.Starting?
            && (s.lifecycle.Draining? ==> t.lifecycle.Draining? && t.stopCursor == s.stopCursor)
            && (op.FailStartup? ==> t.stopCursor == s.stopCursor
                                    && (t.lifecycle.Draining? == s.lifecycle.Draining?))
            && (!op.FailStartup? && !s.lifecycle.Draining? ==>
                  && t.lifecycle.Draining?
                  && t.stopCursor == if s.flavor.Ordered? then Last(s.children.Keys) else s.stopCursor)
  {
    hide IncompleteKeys, Stops, Forces, Applied;
  }

  lemma InvStep(s: State, op: Op)
    requires Inv(s)
    ensures Inv(Step(s, op).state) && Step(s, op).state.flavor == s.flavor
  {
    hide Settled, DrainBegun, Forced;
    match op
    case Admit(m, initial) => InvAdmit(s, m, initial); hide Inv, Applied;
    case Apply(event) =>
      if event.Settle? {
        InvSettle(s);
        SettleShape(s);
      } else {
        InvApplied(s, event);
      }
      hide Inv;
    case _ =>
      hide Applied, Step;
      OwnerShape(s, op);
  }

  lemma {:induction false} InvRun(flavor: Flavor, ops: seq<Op>)
    ensures Inv(Run(flavor, ops)) && Run(flavor, ops).flavor == flavor
    decreases |ops|
  {
    if ops != [] {
      hide Step, Inv;
      InvRun(flavor, ops[..|ops| - 1]);
      InvStep(Run(flavor, ops[..|ops| - 1]), ops[|ops| - 1]);
    }
  }

  lemma InvAt(flavor: Flavor, ops: seq<Op>, i: nat)
    requires i <= |ops|
    ensures Inv(At(flavor, ops, i)) && At(flavor, ops, i).flavor == flavor
  {
    InvRun(flavor, ops[..i]);
  }

  // ------------------------------------------------------------ monotonicity

  /** What no call ever undoes about one registration. */
  predicate RecordLater(r: Record, q: Record) {
    && r.state.RemovalRank() <= q.state.RemovalRank()
    && (r.IsJoined() ==> q.IsJoined())
    && (r.spawnedOnce ==> q.spawnedOnce)
    && (q.NeverSpawnedStartable() ==> r.NeverSpawnedStartable())
    && r.membership == q.membership && r.startup.Initial? == q.startup.Initial?
  }

  /** What no call ever undoes: keys are never reused, so a key registered
      later that was already minted has been registered all along. */
  predicate Later(s: State, t: State) {
    && s.keys <= t.keys
    && (t.lifecycle.Starting? ==> s.lifecycle.Starting?)
    && (s.lifecycle.Draining? ==> t.lifecycle.Draining?)
    && (s.finishEmitted ==> t.finishEmitted)
    && (forall k :: k in t.children && k <= s.keys ==>
          k in s.children && RecordLater(s.children[k], t.children[k]))
  }

  lemma LaterTrans(s: State, t: State, u: State)
    requires Later(s, t) && Later(t, u)
    ensures Later(s, u)
  {
    forall k | k in u.children && k <= s.keys
      ensures k in s.children && RecordLater(s.children[k], u.children[k])
    {
      assert k in t.children && k in s.children;
      assert RecordLater(s.children[k], t.children[k]) && RecordLater(t.children[k], u.children[k]);
    }
  }

  lemma RecordLaterAfter(r: Record, starting: bool, event: Event)
    requires RecordInv(r)
    ensures RecordLater(r, RecordAfter(r, starting, event))
  {
  }

  lemma LaterApplied(s: State, event: Event)
    requires Inv(s) && !event.Settle?
    ensures Later(s, Applied(s, event).state)
  {
    hide Settled, RecordAfter, RecordEffects;
    if event.child in s.children {
      RecordLaterAfter(s.children[event.child], s.lifecycle.Starting?, event);
    }
    hide RecordLater;
    forall k | k in s.children ensures RecordLater(s.children[k], s.children[k]) {
      SameRecordLater(s.children[k]);
    }
  }

  lemma SameRecordLater(r: Record)
    ensures RecordLater(r, r)
  {
  }

  lemma LaterStep(s: State, op: Op)
    requires Inv(s)
    ensures Later(s, Step(s, op).state)
  {
    hide Settled, DrainBegun, Forced;
    match op
    case Apply(event) =>
      if event.Settle? {
        SettleShape(s);
      } else {
        LaterApplied(s, event);
        hide Applied, Later;
      }
    case Admit(_, _) => hide Applied;
    case _ =>
      hide Step, Applied;
      OwnerShape(s, op);
  }

  lemma {:induction false} LaterAt(flavor: Flavor, ops: seq<Op>, i: nat, j: nat)
    requires i <= j <= |ops|
    ensures Later(At(flavor, ops, i), At(flavor, ops, j))
    decreases j
  {
    if i < j {
      hide Step, Inv, Run, Later;
      LaterAt(flavor, ops, i, j - 1);
      InvAt(flavor, ops, j - 1);
      LaterStep(At(flavor, ops, j - 1), ops[j - 1]);
      AtNext(flavor, ops, j - 1);
      LaterTrans(At(flavor, ops, i), At(flavor, ops, j - 1), At(flavor, ops, j));
    }
  }
}
