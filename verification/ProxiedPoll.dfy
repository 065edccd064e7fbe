/** The proxied poll as a transition system: one owner polling a level-ready
    target through the proxy, and any number of threads waking the proxy. Every
    critical section, target poll and effect flush is one step. */
module ProxiedPoll {
  import opened Common
  import opened WakerProxy

  /** What the target holds to wake. */
  datatype Parked = NoWaker | NoopWaker | ProxyWaker(proxy: nat)

  /** Where the owner is inside one poll by caller `w`. */
  datatype Pc =
    | Idle
    | Probing(w: Waker)
    | Registering(w: Waker)
    | Cloning(w: Waker, observed: u64, window: nat)
    | Flushing(w: Waker, effects: seq<Effect>)
    | Repolling(w: Waker)
    | Retiring(w: Waker)

  /** `proxies` holds every proxy ever made, since a thread may still hold one
      that was retired; `waking` the wakes whose critical section has not run;
      `inFlight` the wakes taken but not yet handed to their caller. The last
      four fields record the latest poll: who polled, whether it returned
      pending, whether that caller has been handed a wake since it began, and
      whether the target has changed since it returned pending. */
  datatype State = State(
    ready: bool,
    parked: Parked,
    current: Option<nat>,
    proxies: map<nat, Registration>,
    next: nat,
    pc: Pc,
    waking: multiset<nat>,
    inFlight: multiset<Effect>,
    stored: multiset<Waker>,
    settled: multiset<Effect>,
    caller: Waker,
    pending: bool,
    handed: bool,
    changed: bool)

  datatype Step =
    | StartPoll(w: Waker)
    | Probe(consumed: bool)
    | Observe
    | Install
    | Flush
    | Repoll(consumed: bool)
    | RetireReady
    | Cancel(action: Action)
    | Change
    | StartWake(proxy: nat)
    | RunWake(proxy: nat)
    | Hand(effect: Effect)

  function Initial(): State {
    State(false, NoWaker, None, map[], 0, Idle, multiset{}, multiset{}, multiset{}, multiset{},
          0, false, false, false)
  }

  predicate Enabled(s: State, step: Step) {
    match step
    case StartPoll(_) => s.pc.Idle?
    case Probe(_) => s.pc.Probing?
    case Observe => s.pc.Registering? && s.current.Some? && s.current.value in s.proxies
    case Install => s.pc.Cloning? && s.current.Some? && s.current.value in s.proxies
    case Flush => s.pc.Flushing?
    case Repoll(_) => s.pc.Repolling? && s.current.Some?
    case RetireReady => s.pc.Retiring?
    case Cancel(_) => s.pc.Idle?
    case Change => true
    case StartWake(p) => p in s.proxies
    case RunWake(p) => p in s.waking && p in s.proxies
    case Hand(effect) => effect in s.inFlight
  }

  function Bag(effects: seq<Effect>): multiset<Effect> {
    multiset(effects)
  }

  lemma BagSum(a: seq<Effect>, b: seq<Effect>)
    ensures Bag(a + b) == Bag(a) + Bag(b)
  {
  }

  /** Retires the installed proxy through `action`, leaving its slot empty. */
  function Retired(s: State, action: Action): State {
    if s.current.None? || s.current.value !in s.proxies then s.(current := None)
    else
      var section := Taken(s.proxies[s.current.value], action);
      s.(current := None, proxies := s.proxies[s.current.value := section.registration],
         settled := s.settled + Bag(section.effects))
  }

  function Fire(s: State, step: Step): State
    requires Enabled(s, step)
  {
    match step
    case StartPoll(w) =>
      s.(pc := if s.current.None? then Probing(w) else Registering(w),
         caller := w, pending := false, handed := false, changed := false)
    case Probe(consumed) =>
      if s.ready then s.(pc := Idle, ready := !consumed)
      else
        s.(parked := NoopWaker, current := Some(s.next),
           proxies := s.proxies[s.next := Registration(None, 0)], next := s.next + 1,
           pc := Registering(s.pc.w))
    case Observe =>
      var observed := Observed(s.proxies[s.current.value], s.pc.w);
      s.(pc := if observed.None? then Repolling(s.pc.w) else Cloning(s.pc.w, observed.value, 0))
    case Install =>
      var p := s.current.value;
      var section := Installed(s.proxies[p], s.pc.w, s.pc.observed);
      s.(proxies := s.proxies[p := section.registration],
         stored := s.stored + multiset{s.pc.w},
         pc := Flushing(s.pc.w, section.effects))
    case Flush =>
      s.(pc := Repolling(s.pc.w),
         handed := s.handed || Effect(s.caller, Wake) in s.pc.effects,
         settled := s.settled + Bag(s.pc.effects))
    case Repoll(consumed) =>
      if s.ready then s.(pc := Retiring(s.pc.w), ready := !consumed)
      else s.(pc := Idle, parked := ProxyWaker(s.current.value), pending := true)
    case RetireReady => Retired(s.(pc := Idle), Drop)
    case Cancel(action) => Retired(s.(pending := false, changed := false), action)
    case Change =>
      s.(ready := true, parked := NoWaker,
         waking := if s.parked.ProxyWaker? then s.waking + multiset{s.parked.proxy} else s.waking,
         changed := s.changed || (s.pc.Idle? && s.pending))
    case StartWake(p) => s.(waking := s.waking + multiset{p})
    case RunWake(p) =>
      var section := Woken(s.proxies[p]);
      s.(waking := s.waking - multiset{p},
         proxies := s.proxies[p := section.registration],
         inFlight := s.inFlight + Bag(section.effects),
         pc := if s.pc.Cloning? && s.current == Some(p)
               then s.pc.(window := s.pc.window + 1) else s.pc)
    case Hand(effect) =>
      s.(inFlight := s.inFlight - multiset{effect}, settled := s.settled + multiset{effect},
         handed := s.handed || effect == Effect(s.caller, Wake))
  }

  /** A step that is not enabled changes nothing, so every sequence of steps is
      a run. */
  function Next(s: State, step: Step): State {
    if Enabled(s, step) then Fire(s, step) else s
  }

  function After(steps: seq<Step>): State {
    if steps == [] then Initial()
    else Next(After(steps[..|steps| - 1]), steps[|steps| - 1])
  }

  // ------------------------------------------------------------ the invariant

  predicate Slot(s: State, w: Waker) {
    s.current.Some? && s.current.value in s.proxies && s.proxies[s.current.value].caller == Some(w)
  }

  /** The latest caller was woken, is about to be, or is where a wake finds it. */
  predicate Covered(s: State) {
    s.handed || Effect(s.caller, Wake) in s.inFlight || Slot(s, s.caller)
  }

  predicate Shape(s: State) {
    && (forall p :: p in s.proxies ==> p < s.next)
    && (s.current.Some? ==> s.current.value in s.proxies)
    && (forall p :: p in s.proxies && s.current != Some(p) ==> s.proxies[p].caller.None?)
    && (s.parked.ProxyWaker? ==> s.parked.proxy in s.proxies)
    && (forall p :: p in s.waking ==> p in s.proxies)
    && (!s.pc.Idle? ==> s.pc.w == s.caller && !s.pending)
    && (s.pending ==> s.current.Some?)
    && (s.changed ==> s.pending)
    && (!s.pc.Idle? ==> s.pc.Probing? == s.current.None?)
  }

  /** While the caller's waker is being cloned, the wake count has moved by
      the number of wakes that landed in the window. */
  predicate Windowed(s: State)
    requires Shape(s)
  {
    s.pc.Cloning? ==>
      s.proxies[s.current.value].wakes == Wrapped(s.pc.observed + s.pc.window)
  }

  /** From `register`'s return on, the caller is covered; once the target has
      changed, by a wake that was handed or is on its way. */
  predicate Promised(s: State)
    requires Shape(s)
  {
    && (s.pc.Flushing? ==> Effect(s.caller, Wake) in s.pc.effects || Covered(s))
    && (s.pc.Repolling? ==> Covered(s))
    && (s.pending && s.changed ==>
          s.handed || Effect(s.caller, Wake) in s.inFlight
          || (Slot(s, s.caller) && s.current.value in s.waking))
    && (s.pending && !s.changed ==> Covered(s) && s.parked == ProxyWaker(s.current.value))
  }

  /** Between polls a proxy stays installed only for a pending one. */
  predicate Vacated(s: State) {
    s.pc.Idle? && s.current.Some? ==> s.pending
  }

  /** A poll that returned pending found its target not ready, so a target that
      is ready now has changed since. */
  predicate FoundNotReady(s: State) {
    s.pending ==> (s.ready <==> s.changed)
  }

  predicate Inv(s: State) {
    Shape(s) && Windowed(s) && Promised(s) && Vacated(s) && FoundNotReady(s)
  }

  function Count(effects: multiset<Effect>, w: Waker): nat {
    effects[Effect(w, Wake)] + effects[Effect(w, Drop)] + effects[Effect(w, RunDisposer)]
  }

  /** Every clone of `w` ever stored is in the slot, in flight, in the owner's
      unflushed effects, or has been woken, dropped or disposed of once. */
  predicate Conserved(s: State, w: Waker) {
    s.stored[w] == (if Slot(s, w) then 1 else 0) + Count(s.inFlight, w) + Count(s.settled, w)
                   + if s.pc.Flushing? then Count(Bag(s.pc.effects), w) else 0
  }

  lemma KeepsStartPoll(s: State, w: Waker)
    requires Inv(s) && Enabled(s, StartPoll(w))
    ensures Inv(Fire(s, StartPoll(w)))
  {
  }

  lemma KeepsProbe(s: State, consumed: bool)
    requires Inv(s) && Enabled(s, Probe(consumed))
    ensures Inv(Fire(s, Probe(consumed)))
  {
  }

  lemma KeepsObserve(s: State)
    requires Inv(s) && Enabled(s, Observe)
    ensures Inv(Fire(s, Observe))
  {
  }

  lemma KeepsInstall(s: State)
    requires Inv(s) && Enabled(s, Install)
    ensures Inv(Fire(s, Install))
  {
  }

  lemma KeepsFlush(s: State)
    requires Inv(s) && Enabled(s, Flush)
    ensures Inv(Fire(s, Flush))
  {
  }

  lemma KeepsRepoll(s: State, consumed: bool)
    requires Inv(s) && Enabled(s, Repoll(consumed))
    ensures Inv(Fire(s, Repoll(consumed)))
  {
  }

  lemma KeepsRetired(s: State, action: Action)
    requires Shape(s) && s.pc.Idle? && !s.pending
    ensures Inv(Retired(s, action))
  {
    hide Wrapped, Bag;
  }

  lemma KeepsRetireReady(s: State)
    requires Inv(s) && Enabled(s, RetireReady)
    ensures Inv(Fire(s, RetireReady))
  {
    hide Retired, Promised, Windowed;
    KeepsRetired(s.(pc := Idle), Drop);
  }

  lemma KeepsCancel(s: State, action: Action)
    requires Inv(s) && Enabled(s, Cancel(action))
    ensures Inv(Fire(s, Cancel(action)))
  {
    hide Retired, Promised, Windowed;
    KeepsRetired(s.(pending := false, changed := false), action);
  }

  lemma ShapeChange(s: State)
    requires Shape(s)
    ensures Shape(Fire(s, Change))
  {
  }

  lemma KeepsChange(s: State)
    requires Inv(s) && Enabled(s, Change)
    ensures Inv(Fire(s, Change))
  {
    hide Wrapped;
    ShapeChange(s);
    var t := Fire(s, Change);
    assert Slot(s, s.caller) == Slot(t, s.caller);
  }

  lemma KeepsStartWake(s: State, proxy: nat)
    requires Inv(s) && Enabled(s, StartWake(proxy))
    ensures Inv(Fire(s, StartWake(proxy)))
  {
  }

  /** What running a wake on `proxy` leaves alone, and where a stored caller
      goes. */
  lemma RunWakeMoves(s: State, proxy: nat)
    requires Shape(s) && Enabled(s, RunWake(proxy))
    ensures var t := Fire(s, RunWake(proxy));
            && t == s.(waking := t.waking, proxies := t.proxies, inFlight := t.inFlight, pc := t.pc)
            && t.waking == s.waking - multiset{proxy}
            && t.proxies == s.proxies[proxy := Woken(s.proxies[proxy]).registration]
            && t.inFlight == s.inFlight + Bag(Woken(s.proxies[proxy]).effects)
            && t.pc == if s.pc.Cloning? && s.current == Some(proxy)
                       then s.pc.(window := s.pc.window + 1) else s.pc
  {
  }

  lemma WokenParts(r: Registration)
    ensures Woken(r).registration == Registration(None, Wrapped(r.wakes + 1))
    ensures Woken(r).effects == if r.caller.Some? then [Effect(r.caller.value, Wake)] else []
  {
  }

  lemma ShapeRunWake(s: State, proxy: nat)
    requires Shape(s) && Enabled(s, RunWake(proxy))
    ensures Shape(Fire(s, RunWake(proxy)))
  {
    hide Woken, Wrapped, Fire, Bag;
    RunWakeMoves(s, proxy);
    WokenParts(s.proxies[proxy]);
  }

  lemma CoverRunWake(s: State, proxy: nat)
    requires Shape(s) && Enabled(s, RunWake(proxy))
    ensures var t := Fire(s, RunWake(proxy));
            && (forall e :: e in s.inFlight ==> e in t.inFlight)
            && (Slot(s, s.caller) ==>
                  Effect(s.caller, Wake) in t.inFlight || (Slot(t, s.caller) && s.current != Some(proxy)))
            && (forall q :: q != proxy && q in s.waking ==> q in t.waking)
  {
    hide Woken, Wrapped, Fire;
    RunWakeMoves(s, proxy);
    WokenParts(s.proxies[proxy]);
  }

  lemma WindowRunWake(s: State, proxy: nat)
    requires Shape(s) && Windowed(s) && Enabled(s, RunWake(proxy))
    requires Shape(Fire(s, RunWake(proxy)))
    ensures Windowed(Fire(s, RunWake(proxy)))
  {
    hide Woken, Wrapped, Fire, Slot, Bag;
    RunWakeMoves(s, proxy);
    if s.pc.Cloning? {
      WokenParts(s.proxies[proxy]);
      if s.current.value == proxy {
        WrappedNext(s.pc.observed + s.pc.window);
      }
    }
  }

  lemma PromiseRunWake(s: State, proxy: nat)
    requires Shape(s) && Promised(s) && Enabled(s, RunWake(proxy))
    requires Shape(Fire(s, RunWake(proxy)))
    ensures Promised(Fire(s, RunWake(proxy)))
  {
    hide Woken, Wrapped, Fire, Slot, Bag;
    RunWakeMoves(s, proxy);
    CoverRunWake(s, proxy);
  }

  lemma KeepsRunWake(s: State, proxy: nat)
    requires Inv(s) && Enabled(s, RunWake(proxy))
    ensures Inv(Fire(s, RunWake(proxy)))
  {
    hide Fire, Woken, Shape, Windowed, Promised;
    RunWakeMoves(s, proxy);
    ShapeRunWake(s, proxy);
    WindowRunWake(s, proxy);
    PromiseRunWake(s, proxy);
  }

  lemma KeepsHand(s: State, effect: Effect)
    requires Inv(s) && Enabled(s, Hand(effect))
    ensures Inv(Fire(s, Hand(effect)))
  {
  }

  lemma InvStep(s: State, step: Step)
    requires Inv(s)
    ensures Inv(Next(s, step))
  {
    hide Inv, Enabled, Fire;
    if Enabled(s, step) {
      match step
      case StartPoll(w) => KeepsStartPoll(s, w);
      case Probe(consumed) => KeepsProbe(s, consumed);
      case Observe => KeepsObserve(s);
      case Install => KeepsInstall(s);
      case Flush => KeepsFlush(s);
      case Repoll(consumed) => KeepsRepoll(s, consumed);
      case RetireReady => KeepsRetireReady(s);
      case Cancel(action) => KeepsCancel(s, action);
      case Change => KeepsChange(s);
      case StartWake(proxy) => KeepsStartWake(s, proxy);
      case RunWake(proxy) => KeepsRunWake(s, proxy);
      case Hand(effect) => KeepsHand(s, effect);
    }
  }

  lemma CountSum(a: multiset<Effect>, b: multiset<Effect>, w: Waker)
    ensures Count(a + b, w) == Count(a, w) + Count(b, w)
  {
  }

  lemma CountOption(caller: Option<Waker>, action: Action, w: Waker)
    ensures Count(Bag(if caller.Some? then [Effect(caller.value, action)] else []), w)
            == if caller == Some(w) then 1 else 0
  {
  }

  lemma InstalledParts(r: Registration, w: Waker, observed: u64)
    ensures var section := Installed(r, w, observed);
            && section.registration.caller == (if r.wakes == observed then Some(w) else None)
            && section.effects == (if r.caller.Some? then [Effect(r.caller.value, Drop)] else [])
                                  + (if r.wakes == observed then [] else [Effect(w, Wake)])
  {
  }

  lemma ConservedInstall(s: State, w: Waker)
    requires Shape(s) && Conserved(s, w) && Enabled(s, Install)
    ensures Conserved(Fire(s, Install), w)
  {
    hide Installed, Count, Bag;
    var r := s.proxies[s.current.value];
    InstalledParts(r, s.pc.w, s.pc.observed);
    var dropped := if r.caller.Some? then [Effect(r.caller.value, Drop)] else [];
    var woken := if r.wakes == s.pc.observed then [] else [Effect(s.pc.w, Wake)];
    BagSum(dropped, woken);
    CountSum(Bag(dropped), Bag(woken), w);
    CountOption(r.caller, Drop, w);
    CountOption(if r.wakes == s.pc.observed then None else Some(s.pc.w), Wake, w);
  }

  lemma ConservedRunWake(s: State, proxy: nat, w: Waker)
    requires Shape(s) && Conserved(s, w) && Enabled(s, RunWake(proxy))
    ensures Conserved(Fire(s, RunWake(proxy)), w)
  {
    hide Fire, Woken, Wrapped, Count, Bag;
    var r := s.proxies[proxy];
    RunWakeMoves(s, proxy);
    WokenParts(r);
    CountSum(s.inFlight, Bag(Woken(r).effects), w);
    CountOption(r.caller, Wake, w);
  }

  lemma ConservedRetired(s: State, action: Action, w: Waker)
    requires Shape(s) && Conserved(s, w) && !s.pc.Flushing?
    ensures Conserved(Retired(s, action), w)
    ensures !Retired(s, action).pc.Flushing?
  {
    hide Count, Bag;
    if s.current.Some? {
      var r := s.proxies[s.current.value];
      CountSum(s.settled, Bag(Taken(r, action).effects), w);
      CountOption(r.caller, action, w);
    }
  }

  lemma ConservedHand(s: State, effect: Effect, w: Waker)
    requires Conserved(s, w) && Enabled(s, Hand(effect))
    ensures Conserved(Fire(s, Hand(effect)), w)
  {
    hide Count;
    CountSum(s.inFlight - multiset{effect}, multiset{effect}, w);
    assert s.inFlight - multiset{effect} + multiset{effect} == s.inFlight;
    CountSum(s.settled, multiset{effect}, w);
  }

  lemma ConservedProbe(s: State, consumed: bool, w: Waker)
    requires Shape(s) && Conserved(s, w) && Enabled(s, Probe(consumed))
    ensures Conserved(Fire(s, Probe(consumed)), w)
  {
    hide Count, Bag;
  }

  /** The other steps move no waker. */
  lemma ConservedQuiet(s: State, step: Step, w: Waker)
    requires Conserved(s, w) && Enabled(s, step)
    requires step.StartPoll? || step.Observe? || step.Repoll? || step.Change? || step.StartWake?
    ensures Conserved(Fire(s, step), w)
  {
    hide Count, Bag;
  }

  lemma ConservedFlush(s: State, w: Waker)
    requires Conserved(s, w) && Enabled(s, Flush)
    ensures Conserved(Fire(s, Flush), w)
  {
    hide Count, Bag;
    CountSum(s.settled, Bag(s.pc.effects), w);
  }

  lemma ConservedStep(s: State, step: Step, w: Waker)
    requires Shape(s) && Conserved(s, w)
    ensures Conserved(Next(s, step), w)
  {
    hide Wrapped, Woken, Installed, Retired, Count, Bag;
    if Enabled(s, step) {
      match step
      case Probe(consumed) => ConservedProbe(s, consumed, w);
      case Install => ConservedInstall(s, w);
      case Flush => ConservedFlush(s, w);
      case RunWake(p) => ConservedRunWake(s, p, w);
      case RetireReady => ConservedRetired(s.(pc := Idle), Drop, w);
      case Cancel(action) =>
        ConservedRetired(s.(pending := false, changed := false), action, w);
      case Hand(effect) => ConservedHand(s, effect, w);
      case _ => ConservedQuiet(s, step, w);
    }
  }

  // ------------------------------------------------------------------- runs

  lemma InvInitial(w: Waker)
    ensures Inv(Initial()) && Conserved(Initial(), w)
  {
  }

  lemma {:induction false} InvRun(steps: seq<Step>, w: Waker)
    ensures Inv(After(steps)) && Conserved(After(steps), w)
  {
    hide Inv, Shape, Conserved, Next, Enabled, Initial;
    if steps == [] {
      InvInitial(w);
    } else {
      var n := |steps| - 1;
      InvRun(steps[..n], w);
      InvStep(After(steps[..n]), steps[n]);
      ShapeOf(After(steps[..n]));
      ConservedStep(After(steps[..n]), steps[n], w);
    }
  }

  lemma ShapeOf(s: State)
    requires Inv(s)
    ensures Shape(s)
  {
  }

  /** No lost wake. In every interleaving, if the latest poll returned pending,
      its target is ready now, and every wake that reached its proxy has
      finished, then the caller of that poll has been handed a wake since the
      poll began. */
  lemma {:induction false} NoLostWake(steps: seq<Step>)
    requires After(steps).pending && After(steps).ready
    requires After(steps).current.Some? ==> After(steps).current.value !in After(steps).waking
    requires Effect(After(steps).caller, Wake) !in After(steps).inFlight
    ensures After(steps).handed
  {
    hide After;
    InvRun(steps, 0);
  }

  /** A poll's answer is its target's: the probe and the re-poll are pending
      exactly when the target is not ready, and a pending answer leaves the proxy
      with the target. */
  lemma {:induction false} PollAnswersTarget(steps: seq<Step>, consumed: bool)
    requires After(steps).pc.Probing? || After(steps).pc.Repolling?
    ensures var s := After(steps);
            if s.pc.Probing? then
              && Enabled(s, Probe(consumed))
              && (Fire(s, Probe(consumed)).pc.Registering? <==> !s.ready)
              && (s.ready ==> Fire(s, Probe(consumed)) == s.(pc := Idle, ready := !consumed))
            else
              && Enabled(s, Repoll(consumed))
              && (Fire(s, Repoll(consumed)).pending <==> !s.ready)
              && (Fire(s, Repoll(consumed)).pc.Retiring? <==> s.ready)
              && (!s.ready ==> Fire(s, Repoll(consumed)).parked == ProxyWaker(s.current.value))
  {
    hide After;
    InvRun(steps, 0);
  }

  // ------------------------------------------------------------- progress

  /** How far a poll has come. */
  function Stage(pc: Pc): nat {
    match pc
    case Probing(_) => 0
    case Registering(_) => 1
    case Cloning(_, _, _) => 2
    case Flushing(_, _) => 3
    case Repolling(_) => 4
    case Retiring(_) => 5
    case Idle => 6
  }

  /** The owner's steps, in order. */
  function OwnSteps(consumed: bool): seq<Step> {
    [Probe(consumed), Observe, Install, Flush, Repoll(consumed), RetireReady]
  }

  function Alone(s: State, consumed: bool, k: nat): State
    requires k <= 6
  {
    if k == 0 then s else Next(Alone(s, consumed, k - 1), OwnSteps(consumed)[k - 1])
  }

  /** What step `k` must have reached. A poll past re-polling has its answer. */
  predicate Reached(s: State, t: State, k: nat) {
    && Stage(t.pc) >= k
    && (Stage(t.pc) <= 4 ==> t.ready == s.ready)
    && (t.pc.Idle? ==> t.pending == !s.ready)
    && (t.pc.Retiring? ==> s.ready)
  }

  lemma OwnStep(s: State, t: State, consumed: bool, k: nat)
    requires k < 6 && Shape(t) && Reached(s, t, k)
    ensures Reached(s, Next(t, OwnSteps(consumed)[k]), k + 1)
  {
    hide Shape, Installed, Observed, Taken, Bag, Fire, Enabled;
    if Stage(t.pc) > k {
      OwnSkipped(t, consumed, k);
    } else {
      OwnEnabled(t, consumed);
      OwnMoves(t, consumed);
    }
  }

  /** Each stage's own step is enabled at it. */
  lemma OwnEnabled(t: State, consumed: bool)
    requires Shape(t) && !t.pc.Idle?
    ensures Enabled(t, OwnSteps(consumed)[Stage(t.pc)]) && !t.pending
  {
  }

  /** And at no later one. */
  lemma OwnSkipped(t: State, consumed: bool, k: nat)
    requires k < 6 && Stage(t.pc) > k
    ensures !Enabled(t, OwnSteps(consumed)[k])
  {
  }

  /** It moves the poll on, keeps the target until the re-poll, and answers. */
  lemma OwnMoves(t: State, consumed: bool)
    requires !t.pc.Idle? && Enabled(t, OwnSteps(consumed)[Stage(t.pc)]) && !t.pending
    ensures var u := Fire(t, OwnSteps(consumed)[Stage(t.pc)]);
            && Stage(u.pc) > Stage(t.pc)
            && (Stage(u.pc) <= 4 ==> u.ready == t.ready)
            && (t.pc.Retiring? ==> u.pc.Idle? && !u.pending)
            && (!t.pc.Retiring? && u.pc.Idle? ==> u.pending == !t.ready)
            && (u.pc.Retiring? ==> t.ready)
  {
    hide Installed, Observed, Taken, Bag, Retired;
    RetiredKeeps(t.(pc := Idle), Drop);
  }

  lemma RetiredKeeps(t: State, action: Action)
    ensures Retired(t, action).pc == t.pc && Retired(t, action).pending == t.pending
  {
  }

  /** In every reachable state, a poll whose owner is left alone ends in at most
      six steps, pending exactly when the target is not ready. */
  lemma {:induction false} PollRunsThrough(steps: seq<Step>, consumed: bool)
    requires var pc := After(steps).pc; !pc.Idle? && !pc.Retiring?
    ensures var t := Alone(After(steps), consumed, 6);
            t.pc.Idle? && t.pending == !After(steps).ready
  {
    hide Inv, Next;
    InvRun(steps, 0);
    var s := After(steps);
    ShapeOf(s);
    for k := 0 to 6
      invariant var t := Alone(s, consumed, k); Inv(t) && Reached(s, t, k)
    {
      var t := Alone(s, consumed, k);
      ShapeOf(t);
      OwnStep(s, t, consumed, k);
      InvStep(t, OwnSteps(consumed)[k]);
    }
  }

  /** A wake that has begun can run, and one that has run can be handed on. */
  lemma {:induction false} WakesRunThrough(steps: seq<Step>)
    ensures forall p :: p in After(steps).waking ==> Enabled(After(steps), RunWake(p))
    ensures forall e :: e in After(steps).inFlight ==> Enabled(After(steps), Hand(e))
  {
    hide After, Inv;
    InvRun(steps, 0);
    ShapeOf(After(steps));
  }

  /** Where every stored clone of a waker is, in every reachable state: in the
      installed proxy's slot, in flight, queued by the owner, or consumed by one
      wake, drop or disposal. A retired proxy holds none, and between polls one
      is installed only while the last poll is pending. */
  lemma {:induction false} ClonesConserved(steps: seq<Step>, w: Waker)
    ensures Conserved(After(steps), w)
    ensures forall p :: p in After(steps).proxies && After(steps).current != Some(p) ==>
                          After(steps).proxies[p].caller.None?
    ensures After(steps).pc.Idle? ==> (After(steps).pending <==> After(steps).current.Some?)
  {
    InvRun(steps, w);
  }

  lemma InstallDetects(s: State)
    requires Inv(s) && s.pc.Cloning?
    ensures Enabled(s, Install)
    ensures Effect(s.caller, Wake) in Fire(s, Install).pc.effects <==> Wrapped(s.pc.window) != 0
  {
    hide Wrapped, Installed, Promised, Bag;
    InstalledParts(s.proxies[s.current.value], s.pc.w, s.pc.observed);
    WrappedReturns(s.pc.observed, s.pc.window);
  }

  /** A wake that lands while the caller's waker is being cloned is delivered to
      that caller, unless exactly a multiple of 2^64 of them landed. */
  lemma {:induction false} WindowWakesDetected(steps: seq<Step>)
    requires After(steps).pc.Cloning?
    ensures Enabled(After(steps), Install)
    ensures Effect(After(steps).caller, Wake) in Fire(After(steps), Install).pc.effects
            <==> Wrapped(After(steps).pc.window) != 0
  {
    hide Wrapped, Inv, Conserved, Fire, After, Enabled;
    InvRun(steps, 0);
    InstallDetects(After(steps));
  }

  /** Registration skips the clone exactly when the caller is stored already, so
      that the next wake of the proxy reaches it; it never stores anything. */
  lemma {:induction false} ObserveDecides(steps: seq<Step>)
    requires After(steps).pc.Registering?
    ensures Enabled(After(steps), Observe)
    ensures var s := After(steps);
            var t := Fire(s, Observe);
            && t.stored == s.stored && t.proxies == s.proxies
            && (t.pc.Repolling? <==> Slot(s, s.caller))
            && (t.pc.Repolling? <==>
                  Woken(s.proxies[s.current.value]).effects == [Effect(s.caller, Wake)])
  {
    hide After, Wrapped;
    InvRun(steps, 0);
  }

  /** A first poll by caller 1 that meets `n` wakes in its clone window. */
  function BusyWindow(n: nat): seq<Step> {
    if n == 0 then [] + [StartPoll(1)] + [Probe(false)] + [Observe]
    else BusyWindow(n - 1) + [StartWake(0)] + [RunWake(0)]
  }

  lemma AfterMore(steps: seq<Step>, step: Step)
    ensures After(steps + [step]) == Next(After(steps), step)
  {
    hide Next;
    assert (steps + [step])[..|steps|] == steps;
  }

  lemma FirstPoll(s: State)
    requires s == Initial()
    ensures var t := Next(Next(Next(s, StartPoll(1)), Probe(false)), Observe);
            t.pc == Cloning(1, 0, 0) && t.current == Some(0) && 0 in t.proxies
  {
  }

  lemma OneMoreWake(s: State)
    requires s.pc.Cloning? && s.current == Some(0) && 0 in s.proxies
    ensures var t := Next(Next(s, StartWake(0)), RunWake(0));
            t.pc == s.pc.(window := s.pc.window + 1) && t.current == Some(0) && 0 in t.proxies
  {
    hide Woken, Bag;
  }

  lemma {:induction false} BusyWindowReached(n: nat)
    ensures var s := After(BusyWindow(n));
            s.pc == Cloning(1, 0, n) && s.current == Some(0) && 0 in s.proxies
  {
    hide Next, After;
    if n == 0 {
      AfterNone();
      AfterMore([], StartPoll(1));
      AfterMore([] + [StartPoll(1)], Probe(false));
      AfterMore([] + [StartPoll(1)] + [Probe(false)], Observe);
      FirstPoll(Initial());
    } else {
      BusyWindowReached(n - 1);
      AfterMore(BusyWindow(n - 1), StartWake(0));
      AfterMore(BusyWindow(n - 1) + [StartWake(0)], RunWake(0));
      OneMoreWake(After(BusyWindow(n - 1)));
    }
  }

  lemma AfterNone()
    ensures After([]) == Initial()
  {
  }

  /** The excepted case can be reached: 2^64 wakes in one window go undetected. */
  lemma WrappedWindowGoesUndetected()
    ensures var s := After(BusyWindow(U64));
            && s.pc.Cloning? && s.pc.window == U64
            && Enabled(s, Install)
            && Effect(s.caller, Wake) !in Fire(s, Install).pc.effects
  {
    hide Fire, BusyWindow, After;
    BusyWindowReached(U64);
    WindowWakesDetected(BusyWindow(U64));
    assert Wrapped(U64) == 0;
  }
}
