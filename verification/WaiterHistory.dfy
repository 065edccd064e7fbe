/** What the state of the waiter protocol says about the run that led to it. */
module WaiterHistory {
  import opened WakerProxy
  import opened WaiterRegistry
  import opened WaiterProtocol

  /** Whether the last step of a run took effect. */
  predicate Effective(shared: Shared, steps: seq<Step>)
    requires steps != []
  {
    Enabled(After(shared, steps[..|steps| - 1]), steps[|steps| - 1])
  }

  /** How often `step` took effect. */
  function Times(shared: Shared, steps: seq<Step>, step: Step): nat {
    if steps == [] then 0
    else
      Times(shared, steps[..|steps| - 1], step)
      + if steps[|steps| - 1] == step && Effective(shared, steps) then 1 else 0
  }

  // ------------------------------------------------------------ publications

  /** The shared state counts what was published, and `owed` the drains still to
      come: one for each pulse, for the first fire, and for the last drop. */
  predicate Counts(shared: Shared, s: State, pulses: nat, clones: nat, drops: nat, fires: nat, drains: nat) {
    match shared
    case Latch(fired) =>
      && s.shared == Latch(fired || fires > 0)
      && s.owed + drains == if !fired && fires > 0 then 1 else 0
    case Watch(version, senders) =>
      && s.shared.Watch? && s.shared.version == Wrapped(version + pulses) && s.pulses == pulses
      && s.shared.senders + drops == senders + clones
      && s.owed + drains == pulses + (if senders > 0 && s.shared.senders == 0 then 1 else 0)
      && (senders == 0 ==> pulses == clones == drops == 0)
  }

  predicate Counted(shared: Shared, steps: seq<Step>) {
    Counts(shared, After(shared, steps), Times(shared, steps, Pulse), Times(shared, steps, CloneSender),
           Times(shared, steps, DropSender), Times(shared, steps, FireSilently),
           Times(shared, steps, WakeAll(true)))
  }

  function Add(step: Step, kind: Step): nat {
    if step == kind then 1 else 0
  }

  lemma CountsStep(shared: Shared, s: State, step: Step, pulses: nat, clones: nat, drops: nat, fires: nat,
                   drains: nat)
    requires Counts(shared, s, pulses, clones, drops, fires, drains) && Enabled(s, step)
    ensures Counts(shared, Fire(s, step), pulses + Add(step, Pulse), clones + Add(step, CloneSender),
                   drops + Add(step, DropSender), fires + Add(step, FireSilently),
                   drains + Add(step, WakeAll(true)))
  {
    hide Wrapped, Drained, Loaded, LoadedSenders, Removed, Delivered;
    WaitsKeepShared(s, step);
    if shared.Watch? { WrappedNext(shared.version + pulses); }
  }

  /** A waiter's own step, and a delivery, publish nothing. */
  lemma WaitsKeepShared(s: State, step: Step)
    requires Enabled(s, step)
    ensures step.Load? || step.LoadSenders? || step.Remove? || step.Deliver? ==>
              var t := Fire(s, step); t.shared == s.shared && t.owed == s.owed && t.pulses == s.pulses
  {
    hide Wrapped, Drained;
  }

  /** In every run the shared state is what was published, and the drains owed are
      the publications not yet answered. */
  lemma {:induction false} SharedIsHistory(shared: Shared, steps: seq<Step>)
    ensures Counted(shared, steps)
  {
    hide Counts, Fire, Enabled;
    if steps == [] {
      CountsInitial(shared);
    } else {
      var n := |steps| - 1;
      SharedIsHistory(shared, steps[..n]);
      if Effective(shared, steps) {
        CountsStep(shared, After(shared, steps[..n]), steps[n], Times(shared, steps[..n], Pulse),
                   Times(shared, steps[..n], CloneSender), Times(shared, steps[..n], DropSender),
                   Times(shared, steps[..n], FireSilently), Times(shared, steps[..n], WakeAll(true)));
      }
    }
  }

  lemma CountsInitial(shared: Shared)
    ensures Counts(shared, Initial(shared), 0, 0, 0, 0, 0)
  {
    if shared.Watch? { WrappedSmall(shared.version); }
  }

  // ------------------------------------------------------------ registrations

  function Listing(s: State, r: Registered): nat {
    if r.identity in s.registry && s.registry[r.identity] == r.waker then 1 else 0
  }

  /** Whether `step` registers `r`. */
  function Stores(s: State, step: Step, r: Registered): nat {
    if step == Register(r.identity) && Enabled(s, step) && s.waiters[r.identity].waker == r.waker
    then 1 else 0
  }

  /** Whether `step` gives `r` up without waking it: registers anew over it, ends
      its wait, or drops its waiter. */
  function Releases(s: State, step: Step, r: Registered): nat {
    if (step == Register(r.identity) || step == Remove(r.identity) || step == DropWaiter(r.identity))
       && Enabled(s, step)
    then Listing(s, r) else 0
  }

  function Stored(shared: Shared, steps: seq<Step>, r: Registered): nat {
    if steps == [] then 0
    else
      Stored(shared, steps[..|steps| - 1], r)
      + Stores(After(shared, steps[..|steps| - 1]), steps[|steps| - 1], r)
  }

  function Released(shared: Shared, steps: seq<Step>, r: Registered): nat {
    if steps == [] then 0
    else
      Released(shared, steps[..|steps| - 1], r)
      + Releases(After(shared, steps[..|steps| - 1]), steps[|steps| - 1], r)
  }

  lemma DrainedCounts(registry: map<Identity, Waker>, r: Registered)
    ensures Drained(registry)[r]
            == if r.identity in registry && registry[r.identity] == r.waker then 1 else 0
  {
    var wakers := set id | id in registry :: Registered(id, registry[id]);
    assert r in wakers <==> r.identity in registry && registry[r.identity] == r.waker;
  }

  lemma WakersStep(s: State, step: Step, r: Registered)
    requires Enabled(s, step)
    ensures var t := Fire(s, step);
            Listing(s, r) + s.inFlight[r] + Stores(s, step, r)
            == Listing(t, r) + t.inFlight[r] + Add(step, Deliver(r)) + Releases(s, step, r)
  {
    hide Wrapped, Drained, Loaded, LoadedSenders, Removed, Delivered;
    WaitsMoveRegistry(s, step);
    DrainedCounts(s.registry, r);
  }

  lemma WaitsMoveRegistry(s: State, step: Step)
    requires Enabled(s, step)
    ensures var t := Fire(s, step);
            && (step.Load? || step.LoadSenders? ==> t.registry == s.registry && t.inFlight == s.inFlight)
            && (step.Remove? ==> t.registry == s.registry - {step.id} && t.inFlight == s.inFlight)
            && (step.Deliver? ==>
                  t.registry == s.registry && t.inFlight == s.inFlight - multiset{step.registered})
  {
    hide Wrapped, Drained;
  }

  /** In every run each registered waker is listed, on its way, or was delivered or
      given up, and once. */
  lemma {:induction false} WakersConserved(shared: Shared, steps: seq<Step>, r: Registered)
    ensures var s := After(shared, steps);
            Stored(shared, steps, r)
            == Listing(s, r) + s.inFlight[r] + Times(shared, steps, Deliver(r)) + Released(shared, steps, r)
  {
    hide Fire, Enabled, Listing;
    if steps == [] {
      NothingListed(shared, r);
    } else {
      var n := |steps| - 1;
      WakersConserved(shared, steps[..n], r);
      if Effective(shared, steps) {
        WakersStep(After(shared, steps[..n]), steps[n], r);
      }
    }
  }

  lemma NothingListed(shared: Shared, r: Registered)
    ensures Listing(Initial(shared), r) == 0
  {
  }

  // ------------------------------------------------------------------- wakes

  /** The last step of the run starts a poll of `id`. */
  predicate Polls(shared: Shared, steps: seq<Step>, id: Identity)
    requires steps != []
  {
    steps[|steps| - 1].Poll? && steps[|steps| - 1].id == id && Effective(shared, steps)
  }

  /** A wake of `w` was delivered to `id` since its last poll began. */
  predicate WokenSince(shared: Shared, steps: seq<Step>, id: Identity, w: Waker) {
    && steps != []
    && ((steps[|steps| - 1] == Deliver(Registered(id, w)) && Effective(shared, steps))
        || (!Polls(shared, steps, id) && WokenSince(shared, steps[..|steps| - 1], id, w)))
  }

  /** A waiter counts as woken exactly when its waker was delivered since its last
      poll began. */
  lemma {:induction false} WokenIsHistory(shared: Shared, steps: seq<Step>, id: Identity)
    requires id in After(shared, steps).waiters && !After(shared, steps).waiters[id].pc.Fresh?
    ensures var w := After(shared, steps).waiters[id];
            w.woken <==> WokenSince(shared, steps, id, w.waker)
  {
    hide After, Fire, Enabled, Inv;
    AfterStart(shared);
    if steps != [] {
      var n := |steps| - 1;
      var s := After(shared, steps[..n]);
      AfterLast(shared, steps);
      InvRun(shared, steps[..n], id);
      if Effective(shared, steps) {
        WokenStep(s, steps[n], id);
      }
      if !Polls(shared, steps, id) {
        WokenIsHistory(shared, steps[..n], id);
      }
    }
  }

  lemma AfterStart(shared: Shared)
    ensures After(shared, []).waiters == map[]
  {
  }

  lemma AfterLast(shared: Shared, steps: seq<Step>)
    requires steps != []
    ensures After(shared, steps)
            == if Effective(shared, steps)
               then Fire(After(shared, steps[..|steps| - 1]), steps[|steps| - 1])
               else After(shared, steps[..|steps| - 1])
  {
  }

  lemma WokenStep(s: State, step: Step, id: Identity)
    requires Enabled(s, step) && Inv(s, id)
    requires id in Fire(s, step).waiters && !Fire(s, step).waiters[id].pc.Fresh?
    ensures id in s.waiters
    ensures var v, w := s.waiters[id], Fire(s, step).waiters[id];
            if step.Poll? && step.id == id then !w.woken
            else
              && !v.pc.Fresh? && w.waker == v.waker
              && w.woken == (v.woken || step == Deliver(Registered(id, v.waker)))
  {
    hide Wrapped, Drained, Loaded, LoadedSenders, Removed;
    if step.Load? || step.LoadSenders? || step.Remove? { WaitsKeepWakers(s, step, id); }
  }

  lemma WaitsKeepWakers(s: State, step: Step, id: Identity)
    requires Enabled(s, step) && (step.Load? || step.LoadSenders? || step.Remove?)
    ensures id in s.waiters <==> id in Fire(s, step).waiters
    ensures id in s.waiters ==>
              var v, w := s.waiters[id], Fire(s, step).waiters[id];
              w.waker == v.waker && w.woken == v.woken && w.pc.Fresh? == v.pc.Fresh?
  {
    hide Wrapped, Drained;
  }
}
