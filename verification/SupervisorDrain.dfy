/** Ordered drain over whole runs. */
module SupervisorDrain {
  import opened Common
  import opened Keys
  import opened SupervisorSpec
  import opened SupervisorRuns

  /** The runtime facade rejects admission before it reaches a draining scope. */
  predicate NoDrainAdmission(flavor: Flavor, ops: seq<Op>) {
    forall i: nat :: i < |ops| && ops[i].Admit? ==> !At(flavor, ops, i).lifecycle.Draining?
  }

  predicate AtOrBelow(k: Key, cursor: Option<Key>) {
    cursor.Some? && k <= cursor.value
  }

  /** Every child the walk has gone past has joined, except the awaited one. */
  predicate DrainInv(s: State) {
    s.flavor.Ordered? && s.lifecycle.Draining? ==>
      forall k :: k in s.children ==>
        s.children[k].IsJoined() || AtOrBelow(k, s.stopCursor) || s.stopWaiting == Some(k)
  }

  lemma DrainInvStop(s: State)
    requires DrainInv(s)
    ensures DrainInv(SettledStop(s).state)
  {
    hide StopScan;
    ScanSelects(s.children, s.stopCursor);
    var t := SettledStop(s).state;
    if s.flavor.Ordered? && s.lifecycle.Draining? {
      forall k | k in s.children
        ensures s.children[k].IsJoined() || AtOrBelow(k, t.stopCursor) || t.stopWaiting == Some(k)
      {
        assert s.children[k].IsJoined() || Incomplete(s.children, k);
      }
    }
  }

  lemma DrainInvApplied(s: State, event: Event)
    requires DrainInv(s) && !event.Settle?
    ensures DrainInv(Applied(s, event).state)
  {
    hide Settled, RecordEffects;
    var t := Applied(s, event).state;
    if event.child in s.children && !event.Reclaim? {
      var r := s.children[event.child];
      assert r.IsJoined() ==> RecordAfter(r, s.lifecycle.Starting?, event).IsJoined();
    }
  }

  lemma DrainInvStep(s: State, op: Op)
    requires Inv(s) && DrainInv(s)
    requires op.Admit? ==> !s.lifecycle.Draining?
    ensures DrainInv(Step(s, op).state)
  {
    match op
    case Apply(event) =>
      if event.Settle? {
        hide SettledStartup, SettledStop, SettledFinish;
        var a := SettledStartup(s).state;
        var b := SettledStop(a).state;
        StartupShape(s);
        DrainInvStop(a);
        FinishShape(b);
      } else {
        hide Applied;
        DrainInvApplied(s, event);
      }
    case Admit(_, _) => hide Applied;
    case _ =>
      hide Step, Applied;
      OwnerShape(s, op);
  }

  lemma {:induction false} DrainInvAt(flavor: Flavor, ops: seq<Op>, i: nat)
    requires i <= |ops| && NoDrainAdmission(flavor, ops)
    ensures DrainInv(At(flavor, ops, i))
    decreases i
  {
    if i > 0 {
      hide Step, Run, Inv, DrainInv;
      DrainInvAt(flavor, ops, i - 1);
      InvAt(flavor, ops, i - 1);
      AtNext(flavor, ops, i - 1);
      DrainInvStep(At(flavor, ops, i - 1), ops[i - 1]);
    }
  }

  /** A stop issued by settlement is the one its stop phase issues. */
  lemma SettlementStop(s: State, k: Key)
    requires s.flavor.Ordered? && StopChild(k) in Settled(s).effects
    ensures s.lifecycle.Draining? && StopScan(s.children, s.stopCursor).found == Some(k)
    ensures !(s.stopWaiting.Some? && Incomplete(s.children, s.stopWaiting.value))
    ensures Settled(s).state.stopCursor == StopScan(s.children, s.stopCursor).cursor
  {
    hide StartGate, StopScan, Verdict, AllInitialReady;
    var a := SettledStartup(s);
    var b := SettledStop(a.state);
    assert StopChild(k) in b.effects;
  }

  /** When settlement stops `k`, `k` still owes its join and every larger
      registered key has joined: the rest were reclaimed. */
  lemma StopsFollowLargerJoins(ops: seq<Op>, i: nat, k: Key, larger: Key)
    requires NoDrainAdmission(Ordered, ops)
    requires i < |ops| && ops[i] == Apply(Settle) && StopChild(k) in Emitted(Ordered, ops, i)
    requires k < larger && larger in At(Ordered, ops, i).children
    ensures Incomplete(At(Ordered, ops, i).children, k)
    ensures At(Ordered, ops, i).children[larger].IsJoined()
  {
    hide Run, Settled, StopScan, LastBefore;
    var s := At(Ordered, ops, i);
    InvAt(Ordered, ops, i);
    DrainInvAt(Ordered, ops, i);
    SettlementStop(s, k);
    ScanSelects(s.children, s.stopCursor);
    assert s.children[larger].IsJoined() || Incomplete(s.children, larger);
  }

  predicate CursorNotAbove(cursor: Option<Key>, bound: Option<Key>) {
    cursor.Some? ==> bound.Some? && cursor.value <= bound.value
  }

  /** During a drain the stop cursor only descends. */
  lemma CursorDescends(s: State, op: Op)
    requires s.lifecycle.Draining?
    ensures CursorNotAbove(Step(s, op).state.stopCursor, s.stopCursor)
  {
    match op
    case Apply(event) =>
      if event.Settle? {
        hide SettledStartup, SettledStop, SettledFinish;
        var a := SettledStartup(s).state;
        var b := SettledStop(a).state;
        StartupShape(s);
        StopCursorDescends(a);
        FinishShape(b);
      } else {
        hide Settled;
      }
    case Admit(_, _) => hide Applied;
    case _ =>
      hide Step, Applied;
      OwnerShape(s, op);
  }

  lemma StopCursorDescends(s: State)
    ensures CursorNotAbove(SettledStop(s).state.stopCursor, s.stopCursor)
  {
    hide StopScan;
    ScanSelects(s.children, s.stopCursor);
  }

  lemma {:induction false} CursorDescendsAt(flavor: Flavor, ops: seq<Op>, i: nat, j: nat)
    requires i <= j <= |ops| && At(flavor, ops, i).lifecycle.Draining?
    ensures CursorNotAbove(At(flavor, ops, j).stopCursor, At(flavor, ops, i).stopCursor)
    decreases j
  {
    if i < j {
      hide Step, Run;
      CursorDescendsAt(flavor, ops, i, j - 1);
      StillDraining(flavor, ops, i, j - 1);
      AtNext(flavor, ops, j - 1);
      CursorDescends(At(flavor, ops, j - 1), ops[j - 1]);
    }
  }

  lemma StillDraining(flavor: Flavor, ops: seq<Op>, i: nat, j: nat)
    requires i <= j <= |ops| && At(flavor, ops, i).lifecycle.Draining?
    ensures At(flavor, ops, j).lifecycle.Draining?
  {
    hide Run;
    LaterAt(flavor, ops, i, j);
  }

  /** Stops issued by settlement have strictly decreasing keys. This needs no
      restriction on admission. */
  lemma StopsDescend(ops: seq<Op>, i: nat, j: nat, first: Key, second: Key)
    requires i < j < |ops| && ops[i] == Apply(Settle) == ops[j]
    requires StopChild(first) in Emitted(Ordered, ops, i)
    requires StopChild(second) in Emitted(Ordered, ops, j)
    ensures second < first
  {
    hide Run, Settled, StopScan;
    var s, t := At(Ordered, ops, i), At(Ordered, ops, j);
    InvAt(Ordered, ops, i);
    InvAt(Ordered, ops, j);
    SettlementStop(s, first);
    ScanSelects(s.children, s.stopCursor);
    SettlementStop(t, second);
    ScanSelects(t.children, t.stopCursor);
    AtNext(Ordered, ops, i);
    LaterAt(Ordered, ops, i, i + 1);
    CursorDescendsAt(Ordered, ops, i + 1, j);
  }

  /** Some settlement before `i` stopped `k`. */
  ghost predicate StoppedBefore(ops: seq<Op>, i: nat, k: Key)
    requires i <= |ops|
  {
    exists j: nat :: j < i && ops[j] == Apply(Settle) && StopChild(k) in Emitted(Ordered, ops, j)
  }

  lemma StoppedExtends(ops: seq<Op>, i: nat, k: Key)
    requires i < |ops|
    requires StoppedBefore(ops, i, k)
             || (ops[i] == Apply(Settle) && StopChild(k) in Emitted(Ordered, ops, i))
    ensures StoppedBefore(ops, i + 1, k)
  {
    hide Emitted;
  }

  /** Only a settlement that stops a child begins to wait on it. */
  lemma WaitBegins(s: State, op: Op, k: Key)
    requires Step(s, op).state.stopWaiting == Some(k) != s.stopWaiting
    ensures op == Apply(Settle) && StopChild(k) in Step(s, op).effects
  {
    if op != Apply(Settle) {
      hide IncompleteKeys, Stops, Forces;
    } else {
      StopBegins(s, k);
    }
  }

  lemma StopBegins(s: State, k: Key)
    requires Settled(s).state.stopWaiting == Some(k) != s.stopWaiting
    ensures StopChild(k) in Settled(s).effects
  {
    hide StartGate, StopScan, Verdict, AllInitialReady, Incomplete;
    var a := SettledStartup(s);
    var b := SettledStop(a.state);
    assert StopChild(k) in b.effects;
  }

  /** A child the drain waits on is one a settlement stopped. */
  lemma {:induction false} WaitedWasStopped(ops: seq<Op>, i: nat, k: Key)
    requires i <= |ops| && At(Ordered, ops, i).stopWaiting == Some(k)
    ensures StoppedBefore(ops, i, k)
    decreases i
  {
    hide Step, StoppedBefore;
    if i > 0 {
      AtNext(Ordered, ops, i - 1);
      if At(Ordered, ops, i - 1).stopWaiting == Some(k) {
        WaitedWasStopped(ops, i - 1, k);
      } else {
        WaitBegins(At(Ordered, ops, i - 1), ops[i - 1], k);
      }
      StoppedExtends(ops, i - 1, k);
    }
  }

  /** After a settlement of a draining ordered scope, either one incomplete
      child, stopped before, is being waited on, or every child has joined. */
  lemma SettleWaitsOrDone(ops: seq<Op>, i: nat)
    requires NoDrainAdmission(Ordered, ops)
    requires i < |ops| && ops[i] == Apply(Settle) && At(Ordered, ops, i).lifecycle.Draining?
    ensures var t := At(Ordered, ops, i + 1);
            if t.stopWaiting.Some? then
              Incomplete(t.children, t.stopWaiting.value) && StoppedBefore(ops, i + 1, t.stopWaiting.value)
            else AllJoined(t.children)
  {
    hide SettledStartup, SettledStop, SettledFinish, Run, StoppedBefore;
    var s := At(Ordered, ops, i);
    InvAt(Ordered, ops, i);
    DrainInvAt(Ordered, ops, i);
    AtNext(Ordered, ops, i);
    var a := SettledStartup(s).state;
    var b := SettledStop(a).state;
    StartupShape(s);
    FinishShape(b);
    StopWaitsOrDone(a);
    var t := At(Ordered, ops, i + 1);
    if t.stopWaiting.Some? { WaitedWasStopped(ops, i + 1, t.stopWaiting.value); }
  }

  lemma StopWaitsOrDone(s: State)
    requires s.flavor.Ordered? && s.lifecycle.Draining? && DrainInv(s)
    ensures var t := SettledStop(s).state;
            t.children == s.children
            && if t.stopWaiting.Some? then Incomplete(t.children, t.stopWaiting.value)
               else AllJoined(t.children)
  {
    hide StopScan;
    ScanSelects(s.children, s.stopCursor);
    DrainInvStop(s);
  }

  // ----------------------------------------------------- linear inspections

  function UpTo(keys: set<Key>, cursor: Option<Key>): set<Key> {
    set k | k in keys && AtOrBelow(k, cursor)
  }

  /** The walk inspects each key of the drained roster at most once. A key minted
      since the drain began lies above the cursor for good. */
  predicate Walk(s: State, roster: set<Key>, minted: nat) {
    && minted <= s.keys
    && (forall k :: k in s.children && k <= minted ==> k in roster)
    && (s.stopCursor.Some? ==> s.stopCursor.value in roster && s.stopCursor.value <= minted)
    && s.inspections + |UpTo(roster, s.stopCursor)| <= |roster|
  }

  lemma {:induction false} ScanInspects(children: Children, cursor: Option<Key>, roster: set<Key>)
    requires forall k :: k in children && AtOrBelow(k, cursor) ==> k in roster
    requires cursor.Some? ==> cursor.value in roster
    ensures var scan := StopScan(children, cursor);
            && (scan.cursor.Some? ==> scan.cursor.value in roster && AtOrBelow(scan.cursor.value, cursor))
            && scan.inspected + |UpTo(roster, scan.cursor)| <= |UpTo(roster, cursor)|
    decreases if cursor.Some? then cursor.value + 1 else 0
  {
    if cursor.Some? {
      var below := LastBefore(children.Keys, cursor.value);
      assert cursor.value in UpTo(roster, cursor) && cursor.value !in UpTo(roster, below);
      Smaller(UpTo(roster, below), UpTo(roster, cursor), cursor.value);
      if !Incomplete(children, cursor.value) {
        ScanInspects(children, below, roster);
      }
    }
  }

  /** The keys one scan looks at: those from its cursor down to where it stops. */
  function Visited(children: Children, from: Option<Key>, to: Option<Key>): set<Key> {
    set k | k in children.Keys + (if from.Some? then {from.value} else {})
            && AtOrBelow(k, from) && !AtOrBelow(k, to)
  }

  lemma VisitedFirst(children: Children, c: Key)
    ensures Visited(children, Some(c), LastBefore(children.Keys, c)) == {c}
  {
  }

  lemma VisitedMore(children: Children, c: Key, to: Option<Key>)
    requires CursorNotAbove(to, LastBefore(children.Keys, c))
    ensures var rest := Visited(children, LastBefore(children.Keys, c), to);
            Visited(children, Some(c), to) == rest + {c} && c !in rest
  {
  }

  /** A scan counts every key it looks at, once. */
  lemma {:induction false} ScanCounts(children: Children, cursor: Option<Key>)
    ensures var scan := StopScan(children, cursor);
            scan.inspected == |Visited(children, cursor, scan.cursor)|
            && CursorNotAbove(scan.cursor, cursor)
    decreases if cursor.Some? then cursor.value + 1 else 0
  {
    if cursor.None? {
      assert Visited(children, cursor, None) == {};
    } else {
      hide Visited;
      var below := LastBefore(children.Keys, cursor.value);
      if Incomplete(children, cursor.value) {
        VisitedFirst(children, cursor.value);
      } else {
        ScanCounts(children, below);
        VisitedMore(children, cursor.value, StopScan(children, below).cursor);
      }
    }
  }

  /** Settling a drain that waits on nobody inspects each key it passes once, and
      nothing else inspects. */
  lemma InspectionsAreExact(s: State, op: Op)
    ensures var t := Step(s, op).state;
            if op == Apply(Settle) && s.flavor.Ordered? && s.lifecycle.Draining?
               && (s.stopWaiting.None? || !Incomplete(s.children, s.stopWaiting.value))
            then t.inspections == s.inspections + |Visited(s.children, s.stopCursor, t.stopCursor)|
            else t.inspections == s.inspections
  {
    hide StopScan, Visited, StartGate, AllInitialReady, Verdict, IncompleteKeys, Incomplete;
    ScanCounts(s.children, s.stopCursor);
  }

  lemma WalkStep(s: State, op: Op, roster: set<Key>, minted: nat)
    requires s.lifecycle.Draining? && Walk(s, roster, minted)
    ensures Walk(Step(s, op).state, roster, minted)
  {
    match op
    case Apply(event) =>
      if event.Settle? {
        hide SettledStartup, SettledStop, SettledFinish;
        var a := SettledStartup(s).state;
        var b := SettledStop(a).state;
        StartupShape(s);
        WalkStop(a, roster, minted);
        FinishShape(b);
      } else {
        hide Settled;
      }
    case Admit(_, _) => hide Applied;
    case _ =>
      hide Step, Applied;
      OwnerShape(s, op);
  }

  lemma WalkStop(s: State, roster: set<Key>, minted: nat)
    requires Walk(s, roster, minted)
    ensures Walk(SettledStop(s).state, roster, minted)
  {
    hide StopScan;
    ScanInspects(s.children, s.stopCursor, roster);
  }

  lemma {:induction false} WalkAt(ops: seq<Op>, d: nat, n: nat)
    requires d < n <= |ops|
    requires !At(Ordered, ops, d).lifecycle.Draining? && At(Ordered, ops, d + 1).lifecycle.Draining?
    ensures Walk(At(Ordered, ops, n), At(Ordered, ops, d).children.Keys, At(Ordered, ops, d).keys)
    decreases n
  {
    hide Run, Step, Walk, Inv;
    var roster := At(Ordered, ops, d).children.Keys;
    if n == d + 1 {
      InvAt(Ordered, ops, d);
      AtNext(Ordered, ops, d);
      DrainOpens(At(Ordered, ops, d), ops[d]);
    } else {
      WalkAt(ops, d, n - 1);
      LaterAt(Ordered, ops, d + 1, n - 1);
      AtNext(Ordered, ops, n - 1);
      WalkStep(At(Ordered, ops, n - 1), ops[n - 1], roster, At(Ordered, ops, d).keys);
    }
  }

  lemma DrainOpens(s: State, op: Op)
    requires Inv(s) && s.flavor.Ordered?
    requires !s.lifecycle.Draining? && Step(s, op).state.lifecycle.Draining?
    ensures Walk(Step(s, op).state, s.children.Keys, s.keys)
  {
    hide IncompleteKeys, Stops, Forces;
    if op == Apply(Settle) { SettleShape(s); }
    Subset(UpTo(s.children.Keys, Last(s.children.Keys)), s.children.Keys);
  }

  /** However the drain interleaves with joins, reclaims and even admissions, its
      walk inspects no more keys than the scope had children when it began. */
  lemma InspectionsAreLinear(ops: seq<Op>, d: nat, n: nat)
    requires d < n <= |ops|
    requires !At(Ordered, ops, d).lifecycle.Draining? && At(Ordered, ops, d + 1).lifecycle.Draining?
    ensures At(Ordered, ops, n).inspections <= |At(Ordered, ops, d).children|
  {
    hide Run, Step;
    WalkAt(ops, d, n);
    assert |At(Ordered, ops, d).children.Keys| == |At(Ordered, ops, d).children|;
  }
}
