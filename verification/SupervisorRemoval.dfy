/** Removal over whole runs: edge-triggered, irreversible, on keys that are
    never reused. */
module SupervisorRemoval {
  import opened Keys
  import opened Identity
  import opened SupervisorSpec
  import opened SupervisorRuns
  import opened SupervisorStartup

  /** A registration's removal status only rises. */
  lemma RemovalRises(flavor: Flavor, ops: seq<Op>, i: nat, j: nat, k: Key)
    requires i <= j <= |ops|
    requires k in At(flavor, ops, i).children && k in At(flavor, ops, j).children
    ensures At(flavor, ops, i).children[k].state.RemovalRank()
            <= At(flavor, ops, j).children[k].state.RemovalRank()
  {
    hide Run;
    InvAt(flavor, ops, i);
    LaterAt(flavor, ops, i, j);
  }

  /** Once a removal has been sampled, no spawn or readiness edge is accepted
      again. */
  lemma SampleForbidsConstruction(flavor: Flavor, ops: seq<Op>, i: nat, j: nat, k: Key)
    requires i <= j < |ops|
    requires k in At(flavor, ops, i).children && !At(flavor, ops, i).children[k].state.Resident?
    ensures !SpawnAccepted(flavor, ops, j, k) && !ReadyAccepted(flavor, ops, j, k)
  {
    hide Run;
    if SpawnAccepted(flavor, ops, j, k) || ReadyAccepted(flavor, ops, j, k) {
      RemovalRises(flavor, ops, i, j, k);
    }
  }

  /** A key minted by an admission was never registered before, and once
      reclaimed it is never registered again. */
  lemma KeysNeverReused(flavor: Flavor, ops: seq<Op>, i: nat, j: nat, k: Key)
    requires i <= j <= |ops|
    ensures k in At(flavor, ops, i).children ==>
              k <= At(flavor, ops, i).keys
    ensures k <= At(flavor, ops, i).keys && k !in At(flavor, ops, i).children ==>
              k !in At(flavor, ops, j).children
    ensures i < j && ops[i].Admit? ==>
              At(flavor, ops, i).keys < At(flavor, ops, i + 1).keys
              && At(flavor, ops, i + 1).keys !in At(flavor, ops, i).children
  {
    hide Run;
    InvAt(flavor, ops, i);
    LaterAt(flavor, ops, i, j);
    if i < j && ops[i].Admit? { AtNext(flavor, ops, i); }
  }

  // ------------------------------------------------------ effect cardinality

  /** How often the first `i` calls issued `effect`. */
  function Issued(flavor: Flavor, ops: seq<Op>, i: nat, effect: Effect): nat
    requires i <= |ops|
  {
    if i == 0 then 0
    else Issued(flavor, ops, i - 1, effect) + multiset(Emitted(flavor, ops, i - 1))[effect]
  }

  /** How often the removal commits among the first `i` calls stopped `k`. */
  function RemovalStops(flavor: Flavor, ops: seq<Op>, i: nat, k: Key): nat
    requires i <= |ops|
  {
    if i == 0 then 0
    else RemovalStops(flavor, ops, i - 1, k)
         + if ops[i - 1] == Apply(RemovalLatched(k))
           then multiset(Emitted(flavor, ops, i - 1))[StopChild(k)] else 0
  }

  predicate Finalized(s: State, k: Key) {
    k in s.children && s.children[k].state == Removing(Joined)
  }

  lemma OwnersFinalizeNothing(s: State, op: Op, k: Key)
    requires !op.Apply?
    ensures multiset(Step(s, op).effects)[FinalizeRemoval(k)] == 0
  {
    hide IncompleteKeys;
    assert FinalizeRemoval(k) !in Step(s, op).effects;
  }

  lemma RecordFinalizes(child: Key, r: Record, starting: bool, event: Event, k: Key)
    requires !event.Settle? && !event.Reclaim?
    ensures var q := RecordAfter(r, starting, event);
            multiset(RecordEffects(child, r, event))[FinalizeRemoval(k)]
            == if k == child && q.state == Removing(Joined) && r.state != Removing(Joined) then 1 else 0
    ensures r.state == Removing(Joined) ==> RecordAfter(r, starting, event).state == Removing(Joined)
  {
  }

  lemma FinalizeApplied(s: State, event: Event, k: Key)
    requires !event.Settle?
    ensures FinalizeCounts(s, Applied(s, event), k)
  {
    hide Settled, RecordAfter, RecordEffects;
    if event.child in s.children && !event.Reclaim? {
      RecordFinalizes(event.child, s.children[event.child], s.lifecycle.Starting?, event, k);
    }
  }

  /** A finalize is issued exactly at the call that leaves the registration
      committed and joined. */
  predicate FinalizeCounts(s: State, o: Outcome, k: Key) {
    var n := multiset(o.effects)[FinalizeRemoval(k)];
    && (k !in s.children ==> n == 0)
    && (k in s.children && k in o.state.children ==>
          n == if Finalized(o.state, k) && !Finalized(s, k) then 1 else 0)
    && (k in s.children && k !in o.state.children ==> n == 0)
    && (Finalized(s, k) && k in o.state.children ==> Finalized(o.state, k))
  }

  lemma FinalizeStep(s: State, op: Op, k: Key)
    requires Inv(s)
    ensures FinalizeCounts(s, Step(s, op), k)
  {
    hide Settled, DrainBegun, Forced;
    match op
    case Apply(event) =>
      if event.Settle? {
        SettleShape(s);
        SettleEffect(s, FinalizeRemoval(k));
      } else {
        hide Applied, FinalizeCounts;
        FinalizeApplied(s, event, k);
      }
    case Admit(_, _) => hide Applied;
    case _ =>
      hide Applied, Step;
      OwnersFinalizeNothing(s, op, k);
      OwnerShape(s, op);
  }

  /** A removal's finalize has been issued exactly once when its registration is
      committed and joined, never while it is anything else, and at most once
      for a key no longer registered. */
  lemma {:induction false} FinalizeIssuedOnce(flavor: Flavor, ops: seq<Op>, i: nat, k: Key)
    requires i <= |ops|
    ensures var s := At(flavor, ops, i);
            var n := Issued(flavor, ops, i, FinalizeRemoval(k));
            && n <= 1
            && (k in s.children ==> (n == 1 <==> s.children[k].state == Removing(Joined)))
            && (k > s.keys ==> n == 0)
    decreases i
  {
    if i > 0 {
      hide Step, Run;
      FinalizeIssuedOnce(flavor, ops, i - 1, k);
      InvAt(flavor, ops, i - 1);
      InvAt(flavor, ops, i);
      AtNext(flavor, ops, i - 1);
      LaterAt(flavor, ops, i - 1, i);
      FinalizeStep(At(flavor, ops, i - 1), ops[i - 1], k);
      if k !in At(flavor, ops, i - 1).children && k in At(flavor, ops, i).children {
        FreshIsNotFinal(At(flavor, ops, i - 1), ops[i - 1], k);
      }
    }
  }

  lemma FreshIsNotFinal(s: State, op: Op, k: Key)
    requires k !in s.children && k in Step(s, op).state.children
    ensures k == s.keys + 1 && Step(s, op).state.children[k].state == Resident(Unstarted)
  {
    hide Settled;
    if op == Apply(Settle) { SettleShape(s); }
  }

  lemma CommitStep(s: State, op: Op, k: Key)
    ensures var n := if op == Apply(RemovalLatched(k))
                     then multiset(Step(s, op).effects)[StopChild(k)] else 0;
            && n <= 1
            && (n == 1 ==> k in s.children && !s.children[k].state.Removing?
                           && k in Step(s, op).state.children
                           && Step(s, op).state.children[k].state.Removing?)
  {
    hide Settled;
  }

  lemma CommitmentStays(s: State, op: Op, k: Key)
    requires Inv(s)
    ensures var t := Step(s, op).state;
            && s.keys <= t.keys && (k in s.children ==> k <= s.keys)
            && (k in t.children && k <= s.keys ==>
                  k in s.children && (s.children[k].state.Removing? ==> t.children[k].state.Removing?))
  {
    hide Step;
    LaterStep(s, op);
    var t := Step(s, op).state;
    if k in t.children && k <= s.keys {
      assert RecordLater(s.children[k], t.children[k]);
    }
  }

  /** The removal commit stops its child at most once per key, and only once
      the removal is committed. */
  lemma {:induction false} RemovalStopsOnce(flavor: Flavor, ops: seq<Op>, i: nat, k: Key)
    requires i <= |ops|
    ensures var s := At(flavor, ops, i);
            && RemovalStops(flavor, ops, i, k) <= 1
            && (k in s.children && !s.children[k].state.Removing? ==>
                  RemovalStops(flavor, ops, i, k) == 0)
            && (k > s.keys ==> RemovalStops(flavor, ops, i, k) == 0)
    decreases i
  {
    hide Step, Inv;
    if i > 0 {
      RemovalStopsOnce(flavor, ops, i - 1, k);
      InvAt(flavor, ops, i - 1);
      AtNext(flavor, ops, i - 1);
      CommitmentStays(At(flavor, ops, i - 1), ops[i - 1], k);
      CommitStep(At(flavor, ops, i - 1), ops[i - 1], k);
    }
  }

  // ---------------------------------------------------------- membership index

  /** Each membership is admitted once. */
  predicate AdmittedOnce(ops: seq<Op>) {
    forall i, j :: 0 <= i < j < |ops| && ops[i].Admit? && ops[j].Admit? ==>
      ops[i].membership != ops[j].membership
  }

  /** The membership index is the exact inverse of the child table. */
  predicate IndexInv(s: State) {
    && (forall k :: k in s.children ==>
          s.children[k].membership in s.childKeys && s.childKeys[s.children[k].membership] == k)
    && (forall m :: m in s.childKeys ==>
          s.childKeys[m] in s.children && s.children[s.childKeys[m]].membership == m)
  }

  predicate Seen(ops: seq<Op>, i: nat, m: Membership)
    requires i <= |ops|
  {
    exists j :: 0 <= j < i && ops[j].Admit? && ops[j].membership == m
  }

  lemma IndexAdmit(s: State, m: Membership, initial: bool)
    requires IndexInv(s) && Inv(s) && m !in s.childKeys
    ensures IndexInv(Admitted(s, m, initial))
  {
  }

  lemma IndexReclaim(s: State, k: Key)
    requires IndexInv(s)
    ensures IndexInv(Applied(s, Reclaim(k)).state)
  {
    hide RecordEffects;
  }

  lemma IndexApplied(s: State, event: Event)
    requires IndexInv(s) && Inv(s) && !event.Settle? && !event.Reclaim?
    ensures IndexInv(Applied(s, event).state) && Applied(s, event).state.childKeys == s.childKeys
  {
    hide Settled, RecordAfter, RecordEffects;
    if event.child in s.children {
      RecordLaterAfter(s.children[event.child], s.lifecycle.Starting?, event);
    }
  }

  lemma IndexStep(s: State, op: Op)
    requires IndexInv(s) && Inv(s)
    requires op.Admit? ==> op.membership !in s.childKeys
    ensures IndexInv(Step(s, op).state)
    ensures forall m :: m in Step(s, op).state.childKeys ==>
              m in s.childKeys || (op.Admit? && m == op.membership)
  {
    hide Settled, Inv, DrainBegun, Forced;
    match op
    case Apply(event) =>
      if event.Settle? {
        SettleShape(s);
      } else if event.Reclaim? {
        IndexReclaim(s, event.child);
        hide IndexInv;
      } else {
        IndexApplied(s, event);
        hide IndexInv, Applied;
      }
    case Admit(m, initial) =>
      IndexAdmit(s, m, initial);
      hide IndexInv, Applied;
    case _ =>
      hide Step, Applied;
      OwnerShape(s, op);
  }

  /** Whatever the run, the index and the table stay mutually inverse. */
  lemma {:induction false} IndexIsInverse(flavor: Flavor, ops: seq<Op>, i: nat)
    requires i <= |ops| && AdmittedOnce(ops)
    ensures IndexInv(At(flavor, ops, i))
    ensures forall m :: m in At(flavor, ops, i).childKeys ==> Seen(ops, i, m)
    decreases i
  {
    if i > 0 {
      hide Step, Run, Inv, IndexInv;
      IndexIsInverse(flavor, ops, i - 1);
      InvAt(flavor, ops, i - 1);
      AtNext(flavor, ops, i - 1);
      IndexStep(At(flavor, ops, i - 1), ops[i - 1]);
    }
  }
}
