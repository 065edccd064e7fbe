/** The driver's settlement loop around the reducer.

    The runtime shell is an arbitrary script: handling its `n`th effect it may,
    any number of times, feed the reducer child events, fail startup, begin a
    drain, which settles and flushes re-entrantly, or flush the queued effects.
    It admits no member. It answers a start request with the spawn edge, a
    removal sample, or the disposal of a scope stopped before it ran; in a drain
    with a removal sample or not at all. */
module Driver {
  import opened Common
  import opened Keys
  import opened SupervisorSpec
  import opened SupervisorRuns
  import opened SupervisorStartup
  import opened SupervisorDrain
  import opened SupervisorFinish
  import Supervisor

  type ShellEvent = e: Event | !e.Settle? witness Reclaim(0)

  /** One thing the shell does while it handles an effect. */
  datatype Action = Feed(event: ShellEvent) | FailNow | DrainNow(reason: DrainReason) | FlushNow

  predicate Drains(actions: seq<Action>) {
    exists a :: a in actions && a.DrainNow?
  }

  /** What constructing a requested child comes to. */
  datatype Answer = Launched | Latched | StoppedFirst

  // ------------------------------------------------------------- quiescence

  /** Settlement that emits nothing has reached a fixed point: settling again
      changes nothing and emits nothing. */
  lemma QuietSettleIsFixed(s: State)
    requires Settled(s).effects == []
    ensures Settled(Settled(s).state) == Outcome(Settled(s).state, [])
  {
    var a := SettledStartup(s);
    var b := SettledStop(a.state);
    var c := SettledFinish(b.state);
    assert a.effects == [] && b.effects == [] && c.effects == [];
    StopShape(a.state);
    FinishShape(b.state);
    StartupFixed(s, c.state);
    StopFixed(a.state);
    FinishFixed(b.state);
    hide SettledStartup, SettledStop, SettledFinish;
  }

  lemma StartupFixed(s: State, t: State)
    requires SettledStartup(s).effects == []
    requires StartupView(t) == StartupView(SettledStartup(s).state)
    ensures SettledStartup(t) == Outcome(t, [])
  {
    if t.lifecycle.Starting? && t.flavor.Ordered? {
      hide AllInitialReady;
      GateIsStable(s.children, s.nextStart);
      hide StartGate;
    } else {
      hide AllInitialReady, StartGate, Sorted, UnspawnedInitial;
    }
  }

  lemma GateIsStable(children: Children, cursor: Option<Key>)
    ensures StartGate(children, StartGate(children, cursor)) == StartGate(children, cursor)
  {
  }

  /** What the startup phase reads. */
  function StartupView(s: State): (Lifecycle, Flavor, Children, Option<Key>) {
    (s.lifecycle, s.flavor, s.children, s.nextStart)
  }

  lemma StopFixed(s: State)
    requires SettledStop(s).effects == []
    ensures SettledStop(SettledStop(s).state) == Outcome(SettledStop(s).state, [])
  {
    ScanSelects(s.children, s.stopCursor);
  }

  lemma FinishFixed(s: State)
    requires SettledFinish(s).effects == []
    ensures SettledFinish(s).state == s
  {
  }

  // ------------------------------------------------------------ the measure

  /** Children the reducer may still ask the shell to start. */
  function Unspawned(s: State): set<Key> {
    set k | k in s.children && s.children[k].NeverSpawnedStartable()
  }

  /** Registered keys the ordered stop walk has yet to reach. */
  function Unwalked(s: State): set<Key> {
    set k | k in s.children && s.stopCursor.Some? && k <= s.stopCursor.value
  }

  /** Registered keys that settlement may still stop, in this drain or a later
      one. */
  function Unstopped(s: State): set<Key> {
    if s.flavor.Dynamic? then {} else if s.lifecycle.Draining? then Unwalked(s) else s.children.Keys
  }

  /** Children that settlement may still ask for while startup lasts. */
  function Awaited(s: State): set<Key> {
    if s.lifecycle.Starting? then Unspawned(s) else {}
  }

  /** Passes still to come, if `stops` are all that settlement may stop. */
  function Load(s: State, stops: set<Key>): nat {
    |Awaited(s)| + (if s.lifecycle.Starting? then 1 else 0)
    + |stops| + (if s.finishEmitted then 0 else 1)
  }

  /** A bound on the effect-emitting settlement passes still to come. */
  function Work(s: State): nat {
    Load(s, Unstopped(s))
  }

  /** A bound on those still to come until a drain opens, or, in a drain, on all
      of them. */
  function NearWork(s: State): nat {
    Load(s, Unwalked(s))
  }

  /** Registrations whose removal may still emit an effect. */
  function Debt(s: State): nat {
    |Uncommitted(s.children)| + |Owing(s.children)|
  }

  function Uncommitted(children: Children): set<Key> {
    set k | k in children && !children[k].state.Removing?
  }

  /** Whether a drain can still be opened. */
  function Openable(s: State): nat {
    if s.lifecycle.Draining? then 0 else 1
  }

  /** What nothing but admission undoes. */
  predicate Onward(s: State, t: State) {
    && Inv(t) && Later(s, t) && t.keys == s.keys && t.flavor == s.flavor
    && (s.lifecycle.Draining? ==> CursorNotAbove(t.stopCursor, s.stopCursor))
  }

  lemma OnwardRefl(s: State)
    requires Inv(s)
    ensures Onward(s, s)
  {
  }

  lemma OnwardTrans(s: State, t: State, u: State)
    requires Onward(s, t) && Onward(t, u)
    ensures Onward(s, u)
  {
    LaterTrans(s, t, u);
  }

  lemma OnwardStep(s: State, op: Op)
    requires Inv(s) && !op.Admit?
    ensures Onward(s, Step(s, op).state)
  {
    hide Inv, Later, Step;
    InvStep(s, op);
    LaterStep(s, op);
    if s.lifecycle.Draining? {
      CursorDescends(s, op);
    }
    KeysKept(s, op);
  }

  lemma KeysKept(s: State, op: Op)
    requires !op.Admit?
    ensures Step(s, op).state.keys == s.keys
  {
    hide Settled;
    if op == Apply(Settle) {
      SettleShape(s);
    }
  }

  lemma FewerAwaited(s: State, t: State)
    requires Inv(s) && Onward(s, t)
    ensures Awaited(t) <= Awaited(s) && |Awaited(t)| <= |Awaited(s)|
    ensures Awaited(t) != Awaited(s) ==> |Awaited(t)| < |Awaited(s)|
  {
    forall k | k in Awaited(t) ensures k in Awaited(s) {
      assert RecordLater(s.children[k], t.children[k]);
    }
    Subset(Awaited(t), Awaited(s));
    if Awaited(t) != Awaited(s) {
      var k :| k in Awaited(s) && k !in Awaited(t);
      Smaller(Awaited(t), Awaited(s), k);
    }
  }

  lemma FewerUnstopped(s: State, t: State)
    requires Inv(s) && Onward(s, t)
    ensures Unstopped(t) <= Unstopped(s) && |Unstopped(t)| <= |Unstopped(s)|
  {
    hide RecordLater, RecordInv;
    Subset(Unstopped(t), Unstopped(s));
  }

  /** While no drain opens, the keys at or below the stop cursor only shrink. */
  lemma FewerUnwalked(s: State, t: State)
    requires Inv(s) && Onward(s, t)
    ensures Openable(t) <= Openable(s)
    ensures Openable(t) == Openable(s) ==> Unwalked(t) <= Unwalked(s) && |Unwalked(t)| <= |Unwalked(s)|
  {
    hide RecordLater, RecordInv;
    if Openable(t) == Openable(s) {
      Subset(Unwalked(t), Unwalked(s));
    }
  }

  lemma WorkFalls(s: State, t: State)
    requires Inv(s) && Onward(s, t)
    ensures forall p: nat :: Paid(p, s, p, t)
  {
    FewerAwaited(s, t);
    FewerUnstopped(s, t);
    FewerUnwalked(s, t);
    LaterLifecycle(s, t);
    hide Inv, Awaited, Unstopped, Unwalked, Openable, Later;
  }

  /** Passes made are paid for by work no longer to do; by near work alone while
      no drain has opened. */
  predicate Covered(p: nat, s: State, q: nat, t: State) {
    && p <= q && q + Work(t) <= p + Work(s)
    && Openable(t) <= Openable(s)
    && (Openable(t) == Openable(s) ==> q + NearWork(t) <= p + NearWork(s))
  }

  /** And so is every awaited child that is no longer awaited. */
  predicate Paid(p: nat, s: State, q: nat, t: State) {
    Covered(p, s, q, t)
    && (Awaited(t) != Awaited(s) ==>
          && q + Work(t) < p + Work(s)
          && (Openable(t) == Openable(s) ==> q + NearWork(t) < p + NearWork(s)))
  }

  lemma CoveredTrans(p: nat, s: State, q: nat, t: State, r: nat, u: State)
    requires Covered(p, s, q, t) && Covered(q, t, r, u)
    ensures Covered(p, s, r, u)
  {
    hide Work, NearWork, Openable;
  }

  lemma PaidTrans(p: nat, s: State, q: nat, t: State, r: nat, u: State)
    requires Paid(p, s, q, t) && Paid(q, t, r, u)
    ensures Paid(p, s, r, u)
  {
    hide Work, NearWork, Openable, Awaited;
  }

  lemma RecordDebt(k: Key, r: Record, starting: bool, event: Event)
    ensures var q := RecordAfter(r, starting, event);
            && (r.state.Removing? ==> q.state.Removing?)
            && (r.IsJoined() ==> q.IsJoined())
            && |RecordEffects(k, r, event)| <= 1
            && (RecordEffects(k, r, event) != [] ==>
                  (!r.state.Removing? && q.state.Removing?) || (!r.IsJoined() && q.IsJoined()))
  {
  }

  lemma ShellDebt(s: State, event: ShellEvent)
    ensures Debt(Applied(s, event).state) + |Applied(s, event).effects| <= Debt(s)
  {
    hide RecordAfter, RecordEffects, Settled;
    var t := Applied(s, event).state;
    if event.child in s.children && !event.Reclaim? {
      RecordDebt(event.child, s.children[event.child], s.lifecycle.Starting?, event);
    }
    var u, u' := Uncommitted(s.children), Uncommitted(t.children);
    var j, j' := Owing(s.children), Owing(t.children);
    assert u' <= u && j' <= j;
    Subset(u', u);
    Subset(j', j);
    if Applied(s, event).effects != [] {
      if event.child in u && event.child !in u' {
        Smaller(u', u, event.child);
      } else {
        Smaller(j', j, event.child);
      }
    }
  }

  /** A settlement pass with effects, once none of the children it asked for is
      awaited, is itself paid for, whatever else has happened. */
  lemma PassProgress(s: State, p: nat, q: nat, t: State)
    requires Inv(s) && Settled(s).effects != []
    requires Paid(p, Settled(s).state, q, t)
    requires forall k :: StartChild(k) in Settled(s).effects ==> k !in Awaited(t)
    ensures Covered(p, s, q + 1, t)
  {
    hide Settled, Inv, Later, Awaited, Unstopped, Unwalked, Openable;
    var m := Settled(s).state;
    OnwardStep(s, Apply(Settle));
    FewerAwaited(s, m);
    FewerUnstopped(s, m);
    FewerUnwalked(s, m);
    SettleWork(s);
    EffectsAreWork(s);
    SettleOpensNothing(s);
    LaterLifecycle(s, m);
    var e := Settled(s).effects[0];
    assert e in Settled(s).effects;
    match e
    case StopChild(k) =>
      Smaller(Unstopped(m), Unstopped(s), k);
      Smaller(Unwalked(m), Unwalked(s), k);
    case _ =>
  }

  lemma SettleOpensNothing(s: State)
    ensures Openable(Settled(s).state) == Openable(s)
  {
    hide Settled;
    SettleShape(s);
  }

  lemma LaterLifecycle(s: State, t: State)
    requires Later(s, t)
    ensures t.lifecycle.Starting? ==> s.lifecycle.Starting?
    ensures s.finishEmitted ==> t.finishEmitted
  {
  }

  lemma EffectsAreWork(s: State)
    requires Inv(s)
    ensures forall k :: StartChild(k) in Settled(s).effects ==> k in Awaited(s)
    ensures forall k :: StopChild(k) in Settled(s).effects ==>
              k in Unstopped(s) && k !in Unstopped(Settled(s).state)
  {
    hide Settled, SettledStartup, SettledStop, Unwalked, Unspawned, Inv;
    SettleShape(s);
    SettleWork(s);
    forall k | StartChild(k) in Settled(s).effects ensures k in Awaited(s) {
      SettleEffect(s, StartChild(k));
      StartsWhileStarting(s, StartChild(k));
    }
    forall k | StopChild(k) in Settled(s).effects
      ensures k in Unstopped(s) && k !in Unstopped(Settled(s).state)
    {
      SettleEffect(s, StopChild(k));
      StartupShape(s);
      StopsWhileDraining(SettledStartup(s).state, StopChild(k));
    }
  }

  lemma StartsWhileStarting(s: State, e: Effect)
    requires e in SettledStartup(s).effects
    ensures s.lifecycle.Starting?
  {
    hide StartGate, Sorted, AllInitialReady, UnspawnedInitial;
  }

  lemma StopsWhileDraining(s: State, e: Effect)
    requires e in SettledStop(s).effects
    ensures s.lifecycle.Draining? && s.flavor.Ordered?
  {
    hide StopScan, Incomplete;
  }

  /** What each kind of settlement effect consumes. */
  lemma SettleWork(s: State)
    requires Inv(s)
    ensures var m := Settled(s).state;
            && Unwalked(m) <= Unwalked(s)
            && (forall k :: StartChild(k) in Settled(s).effects ==> k in Unspawned(s))
            && (forall k :: StopChild(k) in Settled(s).effects ==> k in Unwalked(s) && k !in Unwalked(m))
            && (StartupCompleted in Settled(s).effects ==> s.lifecycle.Starting? && !m.lifecycle.Starting?)
            && (forall r :: ScopeFinished(r) in Settled(s).effects ==> !s.finishEmitted && m.finishEmitted)
            && (forall e :: e in Settled(s).effects ==>
                  e.StartChild? || e.StopChild? || e.StartupCompleted? || e.ScopeFinished?)
  {
    forall k | StartChild(k) in Settled(s).effects ensures k in Unspawned(s) {
      StartsAreAccepted(s, Apply(Settle), k);
    }
    if StartupCompleted in Settled(s).effects { CompletionStep(s, Apply(Settle)); }
    StopWork(s);
    FinishWork(s);
    hide Settled, Inv;
  }

  lemma StopWork(s: State)
    requires Inv(s)
    ensures var m := Settled(s).state;
            && Unwalked(m) <= Unwalked(s)
            && (forall k :: StopChild(k) in Settled(s).effects ==> k in Unwalked(s) && k !in Unwalked(m))
  {
    var a := SettledStartup(s);
    var b := SettledStop(a.state);
    assert Settled(s).state.stopCursor == b.state.stopCursor by {
      FinishShape(b.state);
      hide SettledStartup, SettledStop, SettledFinish;
    }
    hide Settled, SettledStartup, StopScan, Inv;
    StartupShape(s);
    SettleShape(s);
    ScanSelects(a.state.children, a.state.stopCursor);
    forall k | StopChild(k) in Settled(s).effects
      ensures k in Unwalked(s) && k !in Unwalked(Settled(s).state)
    {
      SettleEffect(s, StopChild(k));
      assert StopChild(k) in b.effects;
    }
  }

  lemma FinishWork(s: State)
    ensures forall r :: ScopeFinished(r) in Settled(s).effects ==>
              !s.finishEmitted && Settled(s).state.finishEmitted
    ensures forall e :: e in Settled(s).effects ==>
              e.StartChild? || e.StopChild? || e.StartupCompleted? || e.ScopeFinished?
  {
    hide Settled, SettledStartup, SettledStop, SettledFinish;
    forall r | ScopeFinished(r) in Settled(s).effects
      ensures !s.finishEmitted && Settled(s).state.finishEmitted
    {
      FinishStep(s, Apply(Settle), r);
    }
    forall e | e in Settled(s).effects
      ensures e.StartChild? || e.StopChild? || e.StartupCompleted? || e.ScopeFinished?
    {
      SettleEffect(s, e);
    }
  }

  // --------------------------------------------------------------- the loop

  /** Fewer effects are to come than there were, or a drain has been opened. */
  predicate Settling(s: State, queued: nat, t: State, left: nat) {
    Openable(t) < Openable(s) || (Openable(t) == Openable(s) && Debt(t) + left <= Debt(s) + queued)
  }

  lemma SettlingTrans(s: State, a: nat, t: State, b: nat, u: State, c: nat)
    requires Settling(s, a, t, b) && Settling(t, b, u, c)
    ensures Settling(s, a, u, c)
  {
  }

  /** How far handling may take the driver: from `s` with `a` effects queued and
      `p` passes made, to `t` with `b` and `q`. */
  predicate Handled(s: State, a: nat, p: nat, t: State, b: nat, q: nat) {
    Onward(s, t) && Settling(s, a, t, b) && Paid(p, s, q, t)
  }

  lemma HandledNothing(s: State, a: nat, p: nat)
    requires Inv(s)
    ensures Handled(s, a, p, s, a, p)
  {
    OnwardRefl(s);
  }

  lemma HandledTrans(s: State, a: nat, p: nat, t: State, b: nat, q: nat, u: State, c: nat, r: nat)
    requires Handled(s, a, p, t, b, q) && Handled(t, b, q, u, c, r)
    ensures Handled(s, a, p, u, c, r)
  {
    hide Onward, Settling, Paid;
    OnwardTrans(s, t, u);
    SettlingTrans(s, a, t, b, u, c);
    PaidTrans(p, s, q, t, r, u);
  }

  lemma HandledInv(s: State, a: nat, p: nat, t: State, b: nat, q: nat)
    requires Handled(s, a, p, t, b, q)
    ensures Inv(t) && Openable(t) <= Openable(s)
    ensures Openable(t) == Openable(s) ==> Debt(t) + b <= Debt(s) + a
  {
  }

  lemma HandledMore(s: State, a: nat, p: nat, t: State, b: nat, q: nat, more: nat)
    requires Handled(s, a, p, t, b, q)
    ensures Handled(s, a + more, p, t, b, q)
  {
  }

  /** A start request that is no longer awaited stays so. */
  lemma StaysAnswered(s: State, t: State, k: Key)
    requires Inv(s) && Onward(s, t) && k !in Awaited(s)
    ensures k !in Awaited(t)
  {
    FewerAwaited(s, t);
  }

  lemma FeedHandles(s: State, event: ShellEvent, a: nat, p: nat)
    requires Inv(s)
    ensures var o := Applied(s, event); Handled(s, a, p, o.state, a + |o.effects|, p)
  {
    hide Inv, Onward, Debt, Work, Awaited, Settled;
    OnwardStep(s, Apply(event));
    WorkFalls(s, Step(s, Apply(event)).state);
    ShellDebt(s, event);
  }

  lemma FailHandles(s: State, a: nat, p: nat)
    requires Inv(s)
    ensures Handled(s, a, p, Step(s, FailStartup).state, a, p)
  {
    OnwardStep(s, FailStartup);
    WorkFalls(s, Step(s, FailStartup).state);
    hide Inv, Onward, Work, Awaited;
  }

  /** Beginning a drain either upgrades the reason of one, emitting nothing, or
      opens it. */
  lemma DrainHandles(s: State, reason: DrainReason, a: nat, p: nat)
    requires Inv(s)
    ensures var o := Step(s, BeginDrain(reason));
            && Handled(s, a, p, o.state, a + |o.effects|, p)
            && o.state.lifecycle.Draining?
            && (s.lifecycle.Draining? ==> o.effects == [])
  {
    OnwardStep(s, BeginDrain(reason));
    WorkFalls(s, Step(s, BeginDrain(reason)).state);
    hide Inv, Onward, Work, Awaited, IncompleteKeys;
  }

  /** Any answer to a start request leaves the child no longer awaited. */
  lemma AnswerSpends(s: State, answer: Event)
    requires answer.Spawned? || answer.RemovalSample? || answer.DisposalStarted?
    ensures answer.child !in Awaited(Applied(s, answer).state)
  {
    hide Settled;
  }

  function AnswerEvent(k: Key, answer: Answer): ShellEvent {
    match answer
    case Launched => Spawned(k)
    case Latched => RemovalSample(k)
    case StoppedFirst => DisposalStarted(k)
  }

  /** What each answer makes of a child not started before. */
  predicate Answered(s: State, k: Key, answer: Answer, t: State) {
    k in s.children && s.children[k].state == Resident(Unstarted) ==>
      && k in t.children
      && t.children[k].state == match answer
                                case Launched => Resident(Active)
                                case Latched => RemovalSampled(Unstarted)
                                case StoppedFirst => Resident(Disposing)
  }

  lemma AnswerMoves(s: State, k: Key, answer: Answer)
    ensures Answered(s, k, answer, Applied(s, AnswerEvent(k, answer)).state)
  {
    hide Settled;
  }

  /** What has been handled, in order, what is queued, what the reducer has issued, and the
      verdict recorded. */
  datatype Books = Books(
    done: seq<Effect>, queued: multiset<Effect>, issued: multiset<Effect>,
    finished: Option<StopReason>)

  /** Every effect issued since was handled or is still queued, once, and a verdict
      recorded since was one of those handled; a verdict once recorded stays. */
  ghost predicate Accounted(b: Books, c: Books) {
    && multiset(c.done) + c.queued + b.issued == multiset(b.done) + b.queued + c.issued
    && b.done <= c.done
    && (b.finished.Some? ==> c.finished == b.finished)
    && (b.finished.None? && c.finished.Some? ==> ScopeFinished(c.finished.value) in c.done)
  }

  lemma AccountedNothing(b: Books)
    ensures Accounted(b, b)
  {
  }

  lemma AccountedTrans(a: Books, b: Books, c: Books)
    requires Accounted(a, b) && Accounted(b, c)
    ensures Accounted(a, c)
  {
    var x, y, z := multiset(a.done), multiset(b.done), multiset(c.done);
    forall e: Effect ensures (z + c.queued + a.issued)[e] == (x + a.queued + c.issued)[e] {
      assert (y + b.queued + a.issued)[e] == (x + a.queued + b.issued)[e];
      assert (z + c.queued + b.issued)[e] == (y + b.queued + c.issued)[e];
    }
  }

  /** The account with more effects outstanding throughout. */
  lemma AccountedBeside(b: Books, c: Books, more: multiset<Effect>)
    requires Accounted(b, c)
    ensures Accounted(b.(queued := b.queued + more), c.(queued := c.queued + more))
  {
    var y, z := multiset(b.done), multiset(c.done);
    assert z + (c.queued + more) + b.issued == (z + c.queued + b.issued) + more;
    assert y + (b.queued + more) + c.issued == (y + b.queued + c.issued) + more;
  }

  /** Handling an effect settles it. */
  lemma AccountedDone(b: Books, effect: Effect)
    ensures Accounted(b.(queued := b.queued + multiset{effect}),
                      b.(done := b.done + [effect],
                         finished := if b.finished.None? && effect.ScopeFinished?
                                     then Some(effect.reason) else b.finished))
  {
    var y := multiset(b.done);
    assert multiset(b.done + [effect]) == y + multiset{effect};
    assert y + (b.queued + multiset{effect}) == y + multiset{effect} + b.queued;
  }

  /** `a` is a subsequence of `b`. */
  predicate InOrder(a: seq<Effect>, b: seq<Effect>)
    decreases |b|
  {
    a == []
    || (b != [] && (InOrder(a, b[..|b| - 1])
                    || (a[|a| - 1] == b[|b| - 1] && InOrder(a[..|a| - 1], b[..|b| - 1]))))
  }

  lemma NothingInOrder(b: seq<Effect>)
    ensures InOrder([], b)
  {
  }

  lemma {:induction false} InOrderLonger(a: seq<Effect>, b: seq<Effect>, more: seq<Effect>)
    requires InOrder(a, b)
    ensures InOrder(a, b + more)
    decreases |more|
  {
    if more == [] {
      assert b + more == b;
    } else {
      InOrderLonger(a, b, more[..|more| - 1]);
      assert (b + more)[..|b + more| - 1] == b + more[..|more| - 1];
    }
  }

  lemma InOrderLater(a: seq<Effect>, start: seq<Effect>, before: seq<Effect>, after: seq<Effect>)
    requires start <= before <= after && InOrder(a, before[|start|..])
    ensures InOrder(a, after[|start|..])
  {
    hide InOrder;
    InOrderLonger(a, before[|start|..], after[|before|..]);
    assert after[|start|..] == before[|start|..] + after[|before|..];
  }

  /** Handling `effect` next keeps the order, whatever is handled within it. */
  lemma InOrderNext(a: seq<Effect>, start: seq<Effect>, before: seq<Effect>, effect: Effect, after: seq<Effect>)
    requires start <= before && before + [effect] <= after && InOrder(a, before[|start|..])
    ensures InOrder(a + [effect], after[|start|..])
  {
    var b := before[|start|..];
    assert (b + [effect])[..|b|] == b && (a + [effect])[..|a|] == a;
    assert InOrder(a + [effect], b + [effect]);
    InOrderLonger(a + [effect], b + [effect], after[|before| + 1..]);
    assert after[|start|..] == b + [effect] + after[|before| + 1..];
  }

  class ScopeDriver {
    const supervisor: Supervisor.SupervisorState
    var effects: seq<Effect>
    var finished: Option<StopReason>
    /** How many effects the shell has handled. */
    var handled: nat
    /** How many settlement passes have emitted effects, re-entrant ones
        included. */
    var passes: nat
    /** What has been handled, in order, and what the reducer has issued. */
    ghost var done: seq<Effect>
    ghost var issued: multiset<Effect>
    const answers: nat -> Answer
    const script: nat -> seq<Action>

    constructor (supervisor: Supervisor.SupervisorState, answers: nat -> Answer,
                 script: nat -> seq<Action>)
      ensures this.supervisor == supervisor && effects == [] && finished.None? && passes == 0
      ensures done == [] && issued == multiset{}
    {
      this.supervisor := supervisor;
      this.answers := answers;
      this.script := script;
      effects := [];
      finished := None;
      handled := 0;
      passes := 0;
      done := [];
      issued := multiset{};
    }

    ghost function Ledger(): Books
      reads this
    {
      Books(done, multiset(effects), issued, finished)
    }

    method Reduce(event: Event)
      modifies this`effects, this`issued, supervisor
      ensures supervisor.View() == Applied(old(supervisor.View()), event).state
      ensures effects == old(effects) + Applied(old(supervisor.View()), event).effects
      ensures Accounted(old(Ledger()), Ledger()) && done == old(done)
    {
      var emitted := supervisor.ApplyEvent(event);
      Collect(emitted);
    }

    /** Queues what the reducer issued. */
    method Collect(emitted: seq<Effect>)
      modifies this`effects, this`issued
      ensures effects == old(effects) + emitted
      ensures Accounted(old(Ledger()), Ledger()) && done == old(done)
    {
      effects := effects + emitted;
      issued := issued + multiset(emitted);
    }

    /** Plays the shell's script. */
    method Play(actions: seq<Action>)
      requires Inv(supervisor.View())
      modifies this, supervisor
      ensures Handled(old(supervisor.View()), |old(effects)|, old(passes),
                      supervisor.View(), |effects|, passes)
      ensures Accounted(old(Ledger()), Ledger())
      ensures Drains(actions) ==> supervisor.View().lifecycle.Draining?
      decreases Openable(supervisor.View()), 0, Debt(supervisor.View()) + |effects|, 4
    {
      hide Inv, Handled, Debt, Openable, Applied, Step, Accounted;
      HandledNothing(supervisor.View(), |effects|, passes);
      AccountedNothing(Ledger());
      for i := 0 to |actions|
        invariant Handled(old(supervisor.View()), |old(effects)|, old(passes),
                          supervisor.View(), |effects|, passes)
        invariant Accounted(old(Ledger()), Ledger())
        invariant Drains(actions[..i]) ==> supervisor.View().lifecycle.Draining?
      {
        ghost var before, queued, made := supervisor.View(), |effects|, passes;
        ghost var books := Ledger();
        HandledInv(old(supervisor.View()), |old(effects)|, old(passes), before, queued, made);
        match actions[i] {
          case Feed(event) =>
            FeedHandles(before, event, queued, made);
            Reduce(event);
          case FailNow =>
            FailHandles(before, queued, made);
            var _ := supervisor.RecordStartupFailure();
          case DrainNow(reason) => BeginDrain(reason);
          case FlushNow => FlushEffects();
        }
        HandledTrans(old(supervisor.View()), |old(effects)|, old(passes), before, queued, made,
                     supervisor.View(), |effects|, passes);
        AccountedTrans(old(Ledger()), books, Ledger());
        assert actions[..i + 1] == actions[..i] + [actions[i]];
        HandledDrains(before, queued, made, supervisor.View(), |effects|, passes);
      }
      assert actions[..|actions|] == actions;
    }

    /** A drain that is newly opened settles, flushes and settles to the end
        before its caller goes on. */
    method BeginDrain(reason: DrainReason)
      requires Inv(supervisor.View())
      modifies this, supervisor
      ensures Handled(old(supervisor.View()), |old(effects)|, old(passes),
                      supervisor.View(), |effects|, passes)
      ensures Accounted(old(Ledger()), Ledger())
      ensures supervisor.View().lifecycle.Draining?
      ensures !old(supervisor.View()).lifecycle.Draining? ==>
                effects == []
                && (finished.Some? || Settled(supervisor.View()) == Outcome(supervisor.View(), []))
      decreases Openable(supervisor.View()), 0, Debt(supervisor.View()) + |effects|, 3
    {
      hide Inv, Handled, Debt, Settled, Onward, Paid, Later, Accounted, Step, Awaited, Covered, DrainBegun;
      ghost var start := supervisor.View();
      DrainHandles(start, reason, |effects|, passes);
      var publication, emitted := supervisor.OpenDrain(reason);
      Collect(emitted);
      if publication.None? {
        return;
      }
      ghost var draining := supervisor.View();
      HandledInv(start, |old(effects)|, passes, draining, |effects|, passes);
      ghost var made := passes;
      ghost var books := Ledger();
      var queued := |effects|;
      Reduce(Settle);
      AccountedTrans(old(Ledger()), books, Ledger());
      books := Ledger();
      var emits := |effects| > queued;
      ghost var settled, waiting := supervisor.View(), |effects|;
      SettleStep(draining, made);
      StaysDraining(draining, settled);
      OnwardOpens(draining, settled);
      FlushEffects();
      HandledInv(settled, waiting, made, supervisor.View(), 0, passes);
      AccountedTrans(old(Ledger()), books, Ledger());
      books := Ledger();
      DrainPass(start, |old(effects)|, draining, queued, made, settled, waiting,
                supervisor.View(), |effects|, passes);
      if emits {
        passes := passes + 1;
      }
      ghost var flushed, paid := supervisor.View(), passes;
      SettleSupervisor();
      DrainEnds(start, |old(effects)|, made, flushed, paid, supervisor.View(), passes);
      StaysDraining(flushed, supervisor.View());
      AccountedTrans(old(Ledger()), books, Ledger());
    }

    /** Handles one effect: answers a start request, then lets the shell act. */
    method Handle(effect: Effect)
      requires Inv(supervisor.View())
      modifies this, supervisor
      ensures Handled(old(supervisor.View()), |old(effects)|, old(passes),
                      supervisor.View(), |effects|, passes)
      ensures effect.StartChild? ==> effect.child !in Awaited(supervisor.View())
      ensures effect.ScopeFinished? && old(finished).None? ==> finished == Some(effect.reason)
      ensures effect.ScopeFinished? ==> finished.Some?
      ensures old(done) + [effect] <= done
      ensures Drains(script(old(handled))) ==> supervisor.View().lifecycle.Draining?
      ensures Accounted(old(Ledger()).(queued := old(Ledger()).queued + multiset{effect}), Ledger())
      decreases Openable(supervisor.View()), 0, Debt(supervisor.View()) + |effects| + 1, 0
    {
      hide Inv, Handled, Debt, Applied, Unspawned, Awaited, Accounted, Answered, Onward, Openable, Drains;
      ghost var start, owing := supervisor.View(), Ledger().(queued := Ledger().queued + multiset{effect});
      AnswerStart(effect);
      ghost var answered, queued, books := supervisor.View(), |effects|, Ledger();
      AccountedBeside(old(Ledger()), books, multiset{effect});
      Record(effect);
      AccountedTrans(owing, books.(queued := books.queued + multiset{effect}), Ledger());
      books := Ledger();
      HandledInv(start, |old(effects)|, passes, answered, queued, passes);
      handled := handled + 1;
      Play(script(handled - 1));
      AccountedTrans(owing, books, Ledger());
      VerdictStays(books, Ledger());
      HandledOnward(answered, queued, old(passes), supervisor.View(), |effects|, passes);
      if effect.StartChild? {
        StaysAnswered(answered, supervisor.View(), effect.child);
      }
      HandledTrans(start, |old(effects)|, old(passes), answered, queued, old(passes),
                   supervisor.View(), |effects|, passes);
    }

    /** Marks an effect as handled. The first verdict to come is kept. */
    method Record(effect: Effect)
      modifies this`done, this`finished
      ensures done == old(done) + [effect]
      ensures Accounted(old(Ledger()).(queued := old(Ledger()).queued + multiset{effect}), Ledger())
      ensures effect.ScopeFinished? ==>
                finished == if old(finished).None? then Some(effect.reason) else old(finished)
    {
      AccountedDone(Ledger(), effect);
      done := done + [effect];
      if effect.ScopeFinished? && finished.None? {
        finished := Some(effect.reason);
      }
    }

    /** Answers a start request. In a drain only a fired removal latch does. */
    method AnswerStart(effect: Effect)
      requires Inv(supervisor.View())
      modifies this`effects, this`issued, supervisor
      ensures Handled(old(supervisor.View()), |old(effects)|, passes,
                      supervisor.View(), |effects|, passes)
      ensures effect.StartChild? ==> effect.child !in Awaited(supervisor.View())
      ensures effect.StartChild?
              && (answers(handled).Latched? || !old(supervisor.View()).lifecycle.Draining?) ==>
                Answered(old(supervisor.View()), effect.child, answers(handled), supervisor.View())
      ensures !answers(handled).Latched? && old(supervisor.View()).lifecycle.Draining? ==>
                supervisor.View() == old(supervisor.View())
      ensures Accounted(old(Ledger()), Ledger()) && done == old(done)
    {
      hide Inv, Handled, Debt, Applied, Unspawned, Accounted, Answered;
      ghost var start := supervisor.View();
      HandledNothing(start, |effects|, passes);
      AccountedNothing(Ledger());
      if effect.StartChild? && (answers(handled).Latched? || !supervisor.lifecycle.Draining?) {
        var answer := AnswerEvent(effect.child, answers(handled));
        FeedHandles(start, answer, |effects|, passes);
        AnswerSpends(start, answer);
        AnswerMoves(start, effect.child, answers(handled));
        Reduce(answer);
      }
    }

    /** Runs every queued effect, and every effect those produce. */
    method FlushEffects()
      requires Inv(supervisor.View())
      modifies this, supervisor
      ensures effects == []
      ensures Handled(old(supervisor.View()), |old(effects)|, old(passes), supervisor.View(), 0, passes)
      ensures forall k :: StartChild(k) in old(effects) ==> k !in Awaited(supervisor.View())
      ensures (exists r :: ScopeFinished(r) in old(effects)) ==> finished.Some?
      ensures Accounted(old(Ledger()), Ledger())
      ensures old(done) <= done && InOrder(old(effects), done[|old(done)|..])
      decreases Openable(supervisor.View()), 0, Debt(supervisor.View()) + |effects|, 2
    {
      hide Inv, Handled, Debt, Openable, Awaited, Accounted, InOrder;
      HandledNothing(supervisor.View(), |effects|, passes);
      AccountedNothing(Ledger());
      ghost var first := effects;
      ghost var untouched := true;
      while effects != []
        invariant Handled(old(supervisor.View()), |old(effects)|, old(passes),
                          supervisor.View(), |effects|, passes)
        invariant untouched ==> effects == first && finished == old(finished)
        invariant !untouched ==> forall k :: StartChild(k) in first ==> k !in Awaited(supervisor.View())
        invariant !untouched && (exists r :: ScopeFinished(r) in first) ==> finished.Some?
        invariant Accounted(old(Ledger()), Ledger())
        invariant old(done) <= done && (!untouched ==> InOrder(first, done[|old(done)|..]))
        invariant untouched ==> done == old(done)
        decreases Openable(supervisor.View()), Debt(supervisor.View()) + |effects|
      {
        ghost var books := Ledger();
        ghost var start, queued, made := supervisor.View(), |effects|, passes;
        HandledInv(old(supervisor.View()), |old(effects)|, old(passes), start, queued, made);
        var batch := effects;
        effects := [];
        RunBatch(batch);
        VerdictStays(books, Ledger());
        AccountedTrans(old(Ledger()), books, Ledger());
        if !untouched { InOrderLater(first, old(done), books.done, done); }
        HandledInv(start, 0, made, supervisor.View(), |effects|, passes);
        HandledMore(start, 0, made, supervisor.View(), |effects|, passes, queued);
        HandledTrans(old(supervisor.View()), |old(effects)|, old(passes), start, queued, made,
                     supervisor.View(), |effects|, passes);
        if !untouched {
          HandledOnward(start, 0, made, supervisor.View(), |effects|, passes);
          forall k | StartChild(k) in first ensures k !in Awaited(supervisor.View()) {
            StaysAnswered(start, supervisor.View(), k);
          }
        }
        untouched := false;
      }
      if untouched { NothingInOrder(done[|old(done)|..]); }
    }

    method RunBatch(batch: seq<Effect>)
      requires Inv(supervisor.View()) && effects == [] && batch != []
      modifies this, supervisor
      ensures Handled(old(supervisor.View()), 0, old(passes), supervisor.View(), |effects|, passes)
      ensures forall k :: StartChild(k) in batch ==> k !in Awaited(supervisor.View())
      ensures (exists r :: ScopeFinished(r) in batch) ==> finished.Some?
      ensures Accounted(old(Ledger()).(queued := multiset(batch)), Ledger())
      ensures old(done) <= done && InOrder(batch, done[|old(done)|..])
      decreases Openable(supervisor.View()), 0, Debt(supervisor.View()) + |batch|, 1
    {
      hide Inv, Handled, Debt, Openable, Awaited, Accounted, InOrder;
      HandledNothing(supervisor.View(), 0, passes);
      NothingInOrder(done[|done|..]);
      AccountedNothing(old(Ledger()).(queued := multiset(batch)));
      assert batch[0..] == batch && multiset(effects) + multiset(batch) == multiset(batch);
      for i := 0 to |batch|
        invariant Handled(old(supervisor.View()), 0, old(passes), supervisor.View(), |effects|, passes)
        invariant forall k :: StartChild(k) in batch[..i] ==> k !in Awaited(supervisor.View())
        invariant (exists r :: ScopeFinished(r) in batch[..i]) ==> finished.Some?
        invariant Accounted(old(Ledger()).(queued := multiset(batch)),
                            Ledger().(queued := multiset(effects) + multiset(batch[i..])))
        invariant old(done) <= done && InOrder(batch[..i], done[|old(done)|..])
      {
        ghost var books := Ledger();
        ghost var before, queued, made := supervisor.View(), |effects|, passes;
        HandledInv(old(supervisor.View()), 0, old(passes), before, queued, made);
        assert batch[..i + 1] == batch[..i] + [batch[i]];
        Handle(batch[i]);
        InOrderNext(batch[..i], old(done), books.done, batch[i], done);
        VerdictStays(books.(queued := books.queued + multiset{batch[i]}), Ledger());
        BatchAccount(old(Ledger()).(queued := multiset(batch)), books, batch, i, Ledger());
        HandledOnward(before, queued, made, supervisor.View(), |effects|, passes);
        HandledTrans(old(supervisor.View()), 0, old(passes), before, queued, made,
                     supervisor.View(), |effects|, passes);
        forall k | StartChild(k) in batch[..i] ensures k !in Awaited(supervisor.View()) {
          StaysAnswered(before, supervisor.View(), k);
        }
      }
      assert batch[..|batch|] == batch && batch[|batch|..] == [];
      assert multiset(effects) + multiset(batch[|batch|..]) == multiset(effects);
    }

    /** The settlement loop terminates whatever the scripted shell does, drains
        and failures included, and stops either on a verdict or at a fixed point.
        Its effect-emitting passes are bounded by the keys at or below the stop
        cursor unless a drain opens inside it, and then by the registered keys,
        beside the children never spawned. */
    method SettleSupervisor()
      requires Inv(supervisor.View()) && effects == []
      modifies this, supervisor
      ensures Onward(old(supervisor.View()), supervisor.View()) && effects == []
      ensures Covered(old(passes), old(supervisor.View()), passes, supervisor.View())
      ensures passes - old(passes)
              <= |Unspawned(old(supervisor.View()))| + |Unstopped(old(supervisor.View()))| + 2
      ensures Openable(supervisor.View()) == Openable(old(supervisor.View())) ==>
                passes - old(passes)
                <= |Unspawned(old(supervisor.View()))| + |Unwalked(old(supervisor.View()))| + 2
      ensures finished.Some? || Settled(supervisor.View()) == Outcome(supervisor.View(), [])
      ensures Accounted(old(Ledger()), Ledger())
      decreases Openable(supervisor.View()), 1, 0, 0
    {
      hide Inv, Handled, Debt, Onward, Paid, Settled, Work, Covered, Unspawned, Unwalked, Unstopped,
        Accounted;
      AccountedNothing(Ledger());
      PaidNothing(supervisor.View(), passes);
      while true
        invariant Onward(old(supervisor.View()), supervisor.View()) && effects == []
        invariant Covered(old(passes), old(supervisor.View()), passes, supervisor.View())
        invariant Accounted(old(Ledger()), Ledger())
        decreases Work(supervisor.View())
      {
        ghost var books := Ledger();
        ghost var start, made := supervisor.View(), passes;
        OnwardOpens(old(supervisor.View()), start);
        SettleStep(start, passes);
        Reduce(Settle);
        ghost var settled := supervisor.View();
        AccountedTrans(old(Ledger()), books, Ledger());
        books := Ledger();
        OnwardTrans(old(supervisor.View()), start, settled);
        if effects == [] {
          QuietSettleIsFixed(start);
          CoveredTrans(old(passes), old(supervisor.View()), made, start, made, settled);
          BillBounds(old(passes), old(supervisor.View()), passes, settled);
          return;
        }
        OnwardOpens(start, settled);
        ghost var queued := |effects|;
        FlushEffects();
        AccountedTrans(old(Ledger()), books, Ledger());
        HandledOnward(settled, queued, made, supervisor.View(), 0, passes);
        PassProgress(start, made, passes, supervisor.View());
        passes := passes + 1;
        OnwardTrans(old(supervisor.View()), settled, supervisor.View());
        CoveredTrans(old(passes), old(supervisor.View()), made, start, passes, supervisor.View());
        CoveredLess(made, start, passes, supervisor.View());
        if finished.Some? {
          BillBounds(old(passes), old(supervisor.View()), passes, supervisor.View());
          return;
        }
      }
    }
  }

  /** One effect of a batch is handled while the rest wait. */
  lemma BatchAccount(a: Books, b: Books, batch: seq<Effect>, i: nat, c: Books)
    requires i < |batch|
    requires Accounted(a, b.(queued := b.queued + multiset(batch[i..])))
    requires Accounted(b.(queued := b.queued + multiset{batch[i]}), c)
    ensures Accounted(a, c.(queued := c.queued + multiset(batch[i + 1..])))
  {
    hide Accounted;
    assert batch[i..] == [batch[i]] + batch[i + 1..];
    assert b.queued + multiset(batch[i..]) == b.queued + multiset{batch[i]} + multiset(batch[i + 1..]);
    AccountedBeside(b.(queued := b.queued + multiset{batch[i]}), c, multiset(batch[i + 1..]));
    AccountedTrans(a, b.(queued := b.queued + multiset(batch[i..])),
                   c.(queued := c.queued + multiset(batch[i + 1..])));
  }

  lemma VerdictStays(b: Books, c: Books)
    requires Accounted(b, c)
    ensures b.finished.Some? ==> c.finished == b.finished
    ensures b.done <= c.done
  {
  }

  lemma HandledDrains(s: State, a: nat, p: nat, t: State, b: nat, q: nat)
    requires Handled(s, a, p, t, b, q)
    ensures s.lifecycle.Draining? ==> t.lifecycle.Draining?
  {
  }

  lemma HandledOnward(s: State, a: nat, p: nat, t: State, b: nat, q: nat)
    requires Handled(s, a, p, t, b, q)
    ensures Onward(s, t) && Paid(p, s, q, t) && p <= q
  {
  }

  lemma OnwardOpens(s: State, t: State)
    requires Onward(s, t)
    ensures Inv(t) && Openable(t) <= Openable(s)
  {
  }

  lemma PaidNothing(s: State, p: nat)
    requires Inv(s)
    ensures Covered(p, s, p, s) && Onward(s, s)
  {
    OnwardRefl(s);
  }

  /** A pass that is paid for leaves less work. */
  lemma CoveredLess(p: nat, s: State, q: nat, t: State)
    requires Covered(p, s, q, t) && p < q
    ensures Work(t) < Work(s)
  {
  }

  lemma BillBounds(p: nat, s: State, q: nat, t: State)
    requires Covered(p, s, q, t)
    ensures q - p <= |Unspawned(s)| + |Unstopped(s)| + 2
    ensures Openable(t) == Openable(s) ==> q - p <= |Unspawned(s)| + |Unwalked(s)| + 2
  {
  }

  lemma SettleStep(s: State, p: nat)
    requires Inv(s)
    ensures Onward(s, Settled(s).state)
    ensures Paid(p, s, p, Settled(s).state) && Covered(p, s, p, Settled(s).state)
  {
    hide Inv, Onward, Settled, Work, Awaited;
    OnwardStep(s, Apply(Settle));
    WorkFalls(s, Settled(s).state);
  }

  /** A newly opened drain's own pass: opened, settled, flushed. */
  lemma DrainPass(start: State, a: nat, draining: State, queued: nat, p: nat, settled: State,
                  waiting: nat, t: State, left: nat, q: nat)
    requires Inv(draining) && !start.lifecycle.Draining? && draining.lifecycle.Draining?
    requires Handled(start, a, p, draining, queued, p)
    requires settled == Settled(draining).state
    requires Handled(settled, waiting, p, t, left, q)
    ensures Handled(start, a, p, t, left, q) && t.lifecycle.Draining?
    ensures Settled(draining).effects != [] ==> Handled(start, a, p, t, left, q + 1)
  {
    hide Inv, Settled, Work, Awaited, Onward, Debt, Paid, Covered;
    SettleStep(draining, p);
    OnwardTrans(draining, settled, t);
    OnwardTrans(start, draining, t);
    PaidTrans(p, draining, p, settled, q, t);
    PaidTrans(p, start, p, draining, q, t);
    StaysDraining(draining, t);
    if Settled(draining).effects != [] {
      PassProgress(draining, p, q, t);
      NothingAwaited(p, draining, q + 1, t);
      PaidTrans(p, start, p, draining, q + 1, t);
    }
  }

  lemma NothingAwaited(p: nat, s: State, q: nat, t: State)
    requires Covered(p, s, q, t) && s.lifecycle.Draining? && t.lifecycle.Draining?
    ensures Paid(p, s, q, t)
  {
  }

  lemma StaysDraining(s: State, t: State)
    requires Onward(s, t) && s.lifecycle.Draining?
    ensures t.lifecycle.Draining? && Awaited(t) == {}
  {
  }

  /** The drain's settlement, to the end. */
  lemma DrainEnds(start: State, a: nat, p: nat, flushed: State, q: nat, t: State, r: nat)
    requires Handled(start, a, p, flushed, 0, q) && !start.lifecycle.Draining?
    requires flushed.lifecycle.Draining? && Onward(flushed, t) && Covered(q, flushed, r, t)
    ensures Handled(start, a, p, t, 0, r)
  {
    hide Inv, Work, Awaited, Onward, Paid, Debt, Covered;
    OnwardTrans(start, flushed, t);
    StaysDraining(flushed, t);
    NothingAwaited(q, flushed, r, t);
    PaidTrans(p, start, q, flushed, r, t);
  }
}
