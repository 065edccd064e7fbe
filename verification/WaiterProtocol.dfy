/** Any number of waiters polling one latch or one watch through its registry.
    Every atomic load, locked registry operation and wake is one step. */
module WaiterProtocol {
  import opened WakerProxy
  import opened WaiterRegistry

  /** The atomics the waiters read. */
  datatype Shared =
    | Latch(fired: bool)
    | Watch(version: u64, senders: nat)

  datatype Mode = Fired | Changed | ChangedOrClosed

  /** What one readiness check found: a publication, with the pulse count at its
      load, or closure, with the pulses between its two loads. */
  datatype Outcome = Published(upTo: nat) | Closed(raced: nat)

  /** Where a waiter is: `First` and `Second` are the two readiness checks of a
      poll, each about to load the flag or the version; `since` is the pulse
      count when the version was loaded. */
  datatype Pc =
    | Fresh
    | First
    | FirstSenders(since: nat)
    | Registering
    | Second
    | SecondSenders(since: nat)
    | Removing(outcome: Outcome)
    | Parked
    | ParkedClosed(raced: nat)
    | Finished(outcome: Outcome)

  /** `waker` is the caller of the latest poll and `woken` whether it has been
      woken since that poll began. */
  datatype Waiter = Waiter(mode: Mode, seen: u64, pc: Pc, waker: Waker, woken: bool)

  /** `owed` counts publications whose drain has not run yet; `inFlight` the
      drained registrations not yet woken; `pulses` every pulse so far. */
  datatype State = State(
    shared: Shared,
    registry: map<Identity, Waker>,
    waiters: map<Identity, Waiter>,
    next: Identity,
    owed: nat,
    inFlight: multiset<Registered>,
    pulses: nat)

  datatype Step =
    | Create(mode: Mode, seen: u64)
    | Poll(id: Identity, waker: Waker)
    | Load(id: Identity)
    | LoadSenders(id: Identity)
    | Register(id: Identity)
    | Remove(id: Identity)
    | DropWaiter(id: Identity)
    | FireSilently
    | Pulse
    | CloneSender
    | DropSender
    | WakeAll(answers: bool)
    | Deliver(registered: Registered)

  function Initial(shared: Shared): State {
    State(shared, map[], map[], 0, 0, multiset{}, 0)
  }

  predicate Enabled(s: State, step: Step) {
    match step
    case Create(mode, _) => s.shared.Latch? == mode.Fired?
    case Poll(id, _) =>
      id in s.waiters && var pc := s.waiters[id].pc; pc.Fresh? || pc.Parked? || pc.ParkedClosed?
    case Load(id) => id in s.waiters && var pc := s.waiters[id].pc; pc.First? || pc.Second?
    case LoadSenders(id) =>
      id in s.waiters && s.shared.Watch?
      && var pc := s.waiters[id].pc; pc.FirstSenders? || pc.SecondSenders?
    case Register(id) => id in s.waiters && s.waiters[id].pc.Registering?
    case Remove(id) => id in s.waiters && s.waiters[id].pc.Removing?
    case DropWaiter(id) =>
      id in s.waiters
      && var pc := s.waiters[id].pc; pc.Fresh? || pc.Parked? || pc.ParkedClosed? || pc.Finished?
    case FireSilently => s.shared.Latch?
    case Pulse => s.shared.Watch? && s.shared.senders > 0
    case CloneSender => s.shared.Watch? && s.shared.senders > 0
    case DropSender => s.shared.Watch? && s.shared.senders > 0
    case WakeAll(answers) => answers ==> s.owed > 0
    case Deliver(r) => r in s.inFlight
  }

  function Moved(s: State, id: Identity, pc: Pc): State
    requires id in s.waiters
  {
    s.(waiters := s.waiters[id := s.waiters[id].(pc := pc)])
  }

  /** The first load of a readiness check. */
  function Loaded(s: State, id: Identity): State
    requires Enabled(s, Load(id))
  {
    var w := s.waiters[id];
    var first := w.pc.First?;
    match s.shared
    case Latch(fired) =>
      Moved(s, id, if fired then Removing(Published(s.pulses)) else if first then Registering else Parked)
    case Watch(version, _) =>
      if version != w.seen then
        s.(waiters := s.waiters[id := w.(seen := version, pc := Removing(Published(s.pulses)))])
      else Moved(s, id, if first then FirstSenders(s.pulses) else SecondSenders(s.pulses))
  }

  /** The second load of a watch's readiness check. */
  function LoadedSenders(s: State, id: Identity): State
    requires Enabled(s, LoadSenders(id))
  {
    var pc := s.waiters[id].pc;
    if s.shared.senders == 0 then
      Moved(s, id, Removing(Closed(if s.pulses >= pc.since then s.pulses - pc.since else 0)))
    else Moved(s, id, if pc.FirstSenders? then Registering else Parked)
  }

  /** A waiter whose check succeeded leaves the registry. Closure ends a
      `changed_or_closed` wait; `changed` turns it into pending. */
  function Removed(s: State, id: Identity): State
    requires Enabled(s, Remove(id))
  {
    var w := s.waiters[id];
    var outcome := w.pc.outcome;
    Moved(s.(registry := s.registry - {id}), id,
          if outcome.Closed? && w.mode.Changed? then ParkedClosed(outcome.raced)
          else Finished(outcome))
  }

  function Drained(registry: map<Identity, Waker>): multiset<Registered> {
    multiset(set id | id in registry :: Registered(id, registry[id]))
  }

  function Delivered(s: State, r: Registered): State
    requires r in s.inFlight
  {
    var t := s.(inFlight := s.inFlight - multiset{r});
    if r.identity in s.waiters && s.waiters[r.identity].waker == r.waker
    then t.(waiters := s.waiters[r.identity := s.waiters[r.identity].(woken := true)])
    else t
  }

  function Fire(s: State, step: Step): State
    requires Enabled(s, step)
  {
    match step
    case Create(mode, seen) =>
      s.(waiters := s.waiters[s.next := Waiter(mode, seen, Fresh, 0, false)], next := s.next + 1)
    case Poll(id, waker) =>
      s.(waiters := s.waiters[id := s.waiters[id].(pc := First, waker := waker, woken := false)])
    case Load(id) => Loaded(s, id)
    case LoadSenders(id) => LoadedSenders(s, id)
    case Register(id) => Moved(s.(registry := s.registry[id := s.waiters[id].waker]), id, Second)
    case Remove(id) => Removed(s, id)
    case DropWaiter(id) => s.(waiters := s.waiters - {id}, registry := s.registry - {id})
    case FireSilently =>
      if s.shared.fired then s else s.(shared := Latch(true), owed := s.owed + 1)
    case Pulse =>
      s.(shared := s.shared.(version := Wrapped(s.shared.version + 1)),
         owed := s.owed + 1, pulses := s.pulses + 1)
    case CloneSender => s.(shared := s.shared.(senders := s.shared.senders + 1))
    case DropSender =>
      s.(shared := s.shared.(senders := s.shared.senders - 1),
         owed := if s.shared.senders == 1 then s.owed + 1 else s.owed)
    case WakeAll(answers) =>
      s.(registry := map[], inFlight := s.inFlight + Drained(s.registry),
         owed := if answers then s.owed - 1 else s.owed)
    case Deliver(r) => Delivered(s, r)
  }

  /** A step that is not enabled changes nothing, so every sequence of steps is
      a run. */
  function Next(s: State, step: Step): State {
    if Enabled(s, step) then Fire(s, step) else s
  }

  function After(shared: Shared, steps: seq<Step>): State {
    if steps == [] then Initial(shared)
    else Next(After(shared, steps[..|steps| - 1]), steps[|steps| - 1])
  }

  // ------------------------------------------------------------ the invariant

  /** What the waiter is waiting for has happened. */
  predicate Due(shared: Shared, w: Waiter) {
    match shared
    case Latch(fired) => fired
    case Watch(version, senders) => version != w.seen || (w.mode.ChangedOrClosed? && senders == 0)
  }

  predicate Waking(s: State, id: Identity)
    requires id in s.waiters
  {
    s.waiters[id].woken || Registered(id, s.waiters[id].waker) in s.inFlight
  }

  /** The next drain will wake this waiter. */
  predicate Listed(s: State, id: Identity)
    requires id in s.waiters
  {
    id in s.registry && s.registry[id] == s.waiters[id].waker
  }

  predicate ClosedBy(s: State, w: Waiter, raced: nat) {
    && s.shared.Watch? && s.shared.senders == 0
    && s.shared.version == Wrapped(w.seen + raced)
    && !w.mode.Fired?
  }

  /** The latch fired, or the waiter has marked as seen exactly the pulses up to
      its load. */
  predicate SawUpTo(s: State, w: Waiter, upTo: nat) {
    match s.shared
    case Latch(fired) => fired
    case Watch(version, _) => upTo <= s.pulses && version == Wrapped(w.seen + (s.pulses - upTo))
  }

  predicate Sound(s: State, id: Identity)
    requires id in s.waiters
  {
    var w := s.waiters[id];
    && id < s.next
    && s.shared.Latch? == w.mode.Fired?
    && (w.pc.Second? || w.pc.SecondSenders? || w.pc.Parked? ==> Waking(s, id) || Listed(s, id))
    && (w.pc.FirstSenders? || w.pc.SecondSenders? ==>
          s.shared.Watch? && w.pc.since <= s.pulses
          && s.shared.version == Wrapped(w.seen + (s.pulses - w.pc.since))
          && (w.pc.SecondSenders? && w.pc.since < s.pulses ==> Waking(s, id) || s.owed > 0))
    && (w.pc.Parked? && Due(s.shared, w) ==> Waking(s, id) || s.owed > 0)
    && (w.pc.Removing? || w.pc.Finished? ==>
          match w.pc.outcome
          case Published(upTo) => SawUpTo(s, w, upTo)
          case Closed(raced) => ClosedBy(s, w, raced))
    && (w.pc.Finished? && w.pc.outcome.Closed? ==> w.mode.ChangedOrClosed?)
    && (w.pc.ParkedClosed? ==> w.mode.Changed? && ClosedBy(s, w, w.pc.raced))
  }

  /** Only a waiter inside or pending after a poll is registered. */
  predicate Registrable(s: State, id: Identity) {
    id in s.waiters
    && var pc := s.waiters[id].pc; !pc.Fresh? && !pc.Finished? && !pc.ParkedClosed?
  }

  predicate Inv(s: State, id: Identity) {
    (id in s.waiters ==> Sound(s, id)) && (id in s.registry ==> Registrable(s, id))
  }

  lemma KeepsCreate(s: State, mode: Mode, seen: u64, id: Identity)
    requires Inv(s, id) && Enabled(s, Create(mode, seen))
    ensures Inv(Fire(s, Create(mode, seen)), id)
  {
    hide Wrapped;
  }

  lemma KeepsPoll(s: State, of: Identity, waker: Waker, id: Identity)
    requires Inv(s, id) && Enabled(s, Poll(of, waker))
    ensures Inv(Fire(s, Poll(of, waker)), id)
  {
    hide Wrapped;
  }

  lemma KeepsLoad(s: State, of: Identity, id: Identity)
    requires Inv(s, id) && Enabled(s, Load(of))
    ensures Inv(Fire(s, Load(of)), id)
  {
    hide Wrapped;
    WrappedSmall(s.waiters[of].seen);
    if s.shared.Watch? {
      WrappedSmall(s.shared.version);
    }
  }

  lemma KeepsLoadSenders(s: State, of: Identity, id: Identity)
    requires Inv(s, id) && Enabled(s, LoadSenders(of))
    ensures Inv(Fire(s, LoadSenders(of)), id)
  {
    hide Wrapped;
    WrappedSmall(s.waiters[of].seen);
  }

  lemma KeepsRegister(s: State, of: Identity, id: Identity)
    requires Inv(s, id) && Enabled(s, Register(of))
    ensures Inv(Fire(s, Register(of)), id)
  {
    hide Wrapped;
  }

  lemma KeepsRemove(s: State, of: Identity, id: Identity)
    requires Inv(s, id) && Enabled(s, Remove(of))
    ensures Inv(Fire(s, Remove(of)), id)
  {
    hide Wrapped;
  }

  lemma KeepsDropWaiter(s: State, of: Identity, id: Identity)
    requires Inv(s, id) && Enabled(s, DropWaiter(of))
    ensures Inv(Fire(s, DropWaiter(of)), id)
  {
    hide Wrapped;
  }

  lemma KeepsFireSilently(s: State, id: Identity)
    requires Inv(s, id) && Enabled(s, FireSilently)
    ensures Inv(Fire(s, FireSilently), id)
  {
    hide Wrapped;
  }

  lemma KeepsPulse(s: State, id: Identity)
    requires Inv(s, id) && Enabled(s, Pulse)
    ensures Inv(Fire(s, Pulse), id)
  {
    hide Wrapped;
    if id in s.waiters {
      var w := s.waiters[id];
      if w.pc.FirstSenders? || w.pc.SecondSenders? {
        WrappedNext(w.seen + (s.pulses - w.pc.since));
      } else if (w.pc.Removing? || w.pc.Finished?) && w.pc.outcome.Published? && s.shared.Watch? {
        WrappedNext(w.seen + (s.pulses - w.pc.outcome.upTo));
      }
    }
  }

  lemma KeepsCloneSender(s: State, id: Identity)
    requires Inv(s, id) && Enabled(s, CloneSender)
    ensures Inv(Fire(s, CloneSender), id)
  {
    hide Wrapped;
  }

  lemma KeepsDropSender(s: State, id: Identity)
    requires Inv(s, id) && Enabled(s, DropSender)
    ensures Inv(Fire(s, DropSender), id)
  {
    hide Wrapped;
  }

  lemma KeepsWakeAll(s: State, answers: bool, id: Identity)
    requires Inv(s, id) && Enabled(s, WakeAll(answers))
    ensures Inv(Fire(s, WakeAll(answers)), id)
  {
    hide Wrapped;
  }

  lemma KeepsDeliver(s: State, registered: Registered, id: Identity)
    requires Inv(s, id) && Enabled(s, Deliver(registered))
    ensures Inv(Fire(s, Deliver(registered)), id)
  {
    hide Wrapped;
  }

  lemma InvStep(s: State, step: Step, id: Identity)
    requires Inv(s, id)
    ensures Inv(Next(s, step), id)
  {
    hide Inv, Enabled, Fire;
    if Enabled(s, step) {
      match step
      case Create(mode, seen) => KeepsCreate(s, mode, seen, id);
      case Poll(of, waker) => KeepsPoll(s, of, waker, id);
      case Load(of) => KeepsLoad(s, of, id);
      case LoadSenders(of) => KeepsLoadSenders(s, of, id);
      case Register(of) => KeepsRegister(s, of, id);
      case Remove(of) => KeepsRemove(s, of, id);
      case DropWaiter(of) => KeepsDropWaiter(s, of, id);
      case FireSilently => KeepsFireSilently(s, id);
      case Pulse => KeepsPulse(s, id);
      case CloneSender => KeepsCloneSender(s, id);
      case DropSender => KeepsDropSender(s, id);
      case WakeAll(answers) => KeepsWakeAll(s, answers, id);
      case Deliver(registered) => KeepsDeliver(s, registered, id);
    }
  }

  lemma {:induction false} InvRun(shared: Shared, steps: seq<Step>, id: Identity)
    ensures Inv(After(shared, steps), id)
  {
    hide Inv, Next;
    if steps == [] {
      InvInitial(shared, id);
    } else {
      InvRun(shared, steps[..|steps| - 1], id);
      InvStep(After(shared, steps[..|steps| - 1]), steps[|steps| - 1], id);
    }
  }

  lemma InvInitial(shared: Shared, id: Identity)
    ensures Inv(Initial(shared), id)
  {
  }

  // ----------------------------------------------------------------- theorems

  /** Every publication has drained the registry and every drained waker has
      been woken. */
  predicate Quiet(s: State) {
    s.owed == 0 && s.inFlight == multiset{}
  }

  /** Parked, never woken since its poll began, and what it waits for has
      happened. */
  predicate Stranded(s: State, id: Identity) {
    && id in s.waiters
    && (s.waiters[id].pc.Parked? || s.waiters[id].pc.ParkedClosed?)
    && !s.waiters[id].woken
    && Due(s.shared, s.waiters[id])
  }

  lemma StrandedWhen(s: State, id: Identity)
    requires Quiet(s) && Inv(s, id)
    ensures Stranded(s, id)
            <==> && id in s.waiters && s.waiters[id].pc.ParkedClosed? && !s.waiters[id].woken
                 && Wrapped(s.waiters[id].pc.raced) != 0
  {
    hide Wrapped;
    if id in s.waiters && s.waiters[id].pc.ParkedClosed? {
      WrappedReturns(s.waiters[id].seen, s.waiters[id].pc.raced);
    }
  }

  /** Exactly when a waiter is stranded in a quiet state: its `changed` poll
      turned closure into pending, and pulses landed between the version load
      and the sender load of the check that saw closure. */
  lemma StrandedExactly(shared: Shared, steps: seq<Step>, id: Identity)
    requires Quiet(After(shared, steps))
    ensures Stranded(After(shared, steps), id)
            <==> var s := After(shared, steps);
                 && id in s.waiters && s.waiters[id].pc.ParkedClosed? && !s.waiters[id].woken
                 && Wrapped(s.waiters[id].pc.raced) != 0
  {
    hide Wrapped, After, Inv, Quiet, Stranded;
    InvRun(shared, steps, id);
    StrandedWhen(After(shared, steps), id);
  }

  /** No stranded waiter, for the latch, for `changed_or_closed`, and for
      `changed` for as long as a sender is left. */
  lemma NoneStranded(shared: Shared, steps: seq<Step>, id: Identity)
    requires Quiet(After(shared, steps)) && id in After(shared, steps).waiters
    requires var s := After(shared, steps);
             s.waiters[id].mode.Changed? && s.shared.Watch? ==> s.shared.senders > 0
    ensures !Stranded(After(shared, steps), id)
  {
    hide Wrapped, After;
    InvRun(shared, steps, id);
  }

  /** A finished wait tells the truth: the latch fired, every sender left, or the
      waiter has marked as seen exactly the pulses up to its load, so every later
      pulse will still be reported. */
  lemma OutcomesAreTrue(shared: Shared, steps: seq<Step>, id: Identity)
    requires id in After(shared, steps).waiters && After(shared, steps).waiters[id].pc.Finished?
    ensures var s := After(shared, steps);
            var w := s.waiters[id];
            match w.pc.outcome
            case Published(upTo) => SawUpTo(s, w, upTo)
            case Closed(_) => w.mode.ChangedOrClosed? && s.shared.Watch? && s.shared.senders == 0
  {
    hide Wrapped, After;
    InvRun(shared, steps, id);
  }

  // ------------------------------------------------------------- progress

  /** How far a poll has come. */
  function Stage(pc: Pc): nat {
    match pc
    case First => 0
    case FirstSenders(_) => 1
    case Registering => 2
    case Second => 3
    case SecondSenders(_) => 4
    case Removing(_) => 5
    case _ => 6
  }

  /** The waiter's steps, in order. */
  function OwnSteps(id: Identity): seq<Step> {
    [Load(id), LoadSenders(id), Register(id), Load(id), LoadSenders(id), Remove(id)]
  }

  function Alone(s: State, id: Identity, k: nat): State
    requires k <= 6
  {
    if k == 0 then s else Next(Alone(s, id, k - 1), OwnSteps(id)[k - 1])
  }

  /** The latch fired, or a pulse the waiter has not seen came. */
  predicate Shows(shared: Shared, seen: u64) {
    match shared
    case Latch(fired) => fired
    case Watch(version, _) => version != seen
  }

  predicate AllGone(shared: Shared) { shared.Watch? && shared.senders == 0 }

  /** What an undisturbed poll of `w` knows once it is at its program counter. */
  predicate Reached(shared: Shared, w: Waiter, t: State, id: Identity, k: nat) {
    && id in t.waiters && t.shared == shared && shared.Latch? == w.mode.Fired?
    && var u := t.waiters[id];
    && Stage(u.pc) >= k && u.mode == w.mode && u.waker == w.waker
    && (Stage(u.pc) <= 4 || u.pc.Parked? ==> u.seen == w.seen)
    && match u.pc
       case First => true
       case FirstSenders(_) => shared.Watch? && !Shows(shared, w.seen)
       case Registering => !Shows(shared, w.seen) && !AllGone(shared)
       case Second => !Shows(shared, w.seen) && !AllGone(shared) && Listed(t, id)
       case SecondSenders(_) =>
         shared.Watch? && !Shows(shared, w.seen) && !AllGone(shared) && Listed(t, id)
       case Parked => !Shows(shared, w.seen) && !AllGone(shared) && Listed(t, id)
       case Removing(outcome) =>
         if outcome.Published? then Shows(shared, w.seen) && (shared.Watch? ==> u.seen == shared.version)
         else !Shows(shared, w.seen) && AllGone(shared)
       case Finished(outcome) =>
         && id !in t.registry
         && if outcome.Published? then
              Shows(shared, w.seen) && (shared.Watch? ==> u.seen == shared.version)
            else !Shows(shared, w.seen) && AllGone(shared) && w.mode.ChangedOrClosed?
       case ParkedClosed(_) =>
         id !in t.registry && !Shows(shared, w.seen) && AllGone(shared) && w.mode.Changed?
       case Fresh => false
  }

  lemma OwnStep(shared: Shared, w: Waiter, t: State, id: Identity, k: nat)
    requires k < 6 && Reached(shared, w, t, id, k)
    ensures Reached(shared, w, Next(t, OwnSteps(id)[k]), id, k + 1)
  {
  }

  lemma PollBegins(s: State, id: Identity, waker: Waker)
    requires Enabled(s, Poll(id, waker)) && id in s.waiters && Sound(s, id)
    ensures var t := Next(s, Poll(id, waker));
            && id in t.waiters && Reached(s.shared, t.waiters[id], t, id, 0)
            && t.waiters[id] == s.waiters[id].(pc := First, waker := waker, woken := false)
  {
  }

  /** A poll left alone finishes exactly when what it waits for has happened, with
      the version it saw marked. Otherwise it parks, registered under its waker;
      only `changed` with no sender left parks without. */
  lemma {:induction false} PollRunsThrough(shared: Shared, steps: seq<Step>, id: Identity, waker: Waker)
    requires id in After(shared, steps).waiters && Enabled(After(shared, steps), Poll(id, waker))
    ensures var s := After(shared, steps);
            var w := s.waiters[id];
            var t := Alone(Next(s, Poll(id, waker)), id, 6);
            && id in t.waiters && t.waiters[id].waker == waker
            && (t.waiters[id].pc.Finished? <==> Due(s.shared, w))
            && (t.waiters[id].pc.Finished? && s.shared.Watch? ==>
                  if s.shared.version != w.seen
                  then t.waiters[id].pc.outcome.Published? && t.waiters[id].seen == s.shared.version
                  else t.waiters[id].pc.outcome.Closed?)
            && (t.waiters[id].pc.Parked? <==> !Due(s.shared, w) && !AllGone(s.shared))
            && (t.waiters[id].pc.ParkedClosed? <==> !Due(s.shared, w) && AllGone(s.shared))
            && (t.waiters[id].pc.Parked? <==> Listed(t, id))
            && (id in t.registry <==> Listed(t, id))
  {
    hide After, Next, Enabled;
    var s := After(shared, steps);
    InvRun(shared, steps, id);
    PollBegins(s, id, waker);
    var t := Next(s, Poll(id, waker));
    var w := t.waiters[id];
    for k := 0 to 6
      invariant Reached(s.shared, w, Alone(t, id, k), id, k)
    {
      OwnStep(s.shared, w, Alone(t, id, k), id, k);
    }
  }

  /** Every waiter inside a poll can take its next step, every wake on its way can
      be delivered, and every drain owed can run. */
  lemma {:induction false} WaitersCanAct(shared: Shared, steps: seq<Step>, id: Identity)
    ensures var s := After(shared, steps);
            && (id in s.waiters && Stage(s.waiters[id].pc) < 6 ==>
                  Enabled(s, OwnSteps(id)[Stage(s.waiters[id].pc)]))
            && (forall r :: r in s.inFlight ==> Enabled(s, Deliver(r)))
            && (s.owed > 0 ==> Enabled(s, WakeAll(true)))
  {
    hide After, Wrapped;
    InvRun(shared, steps, id);
  }

  /** A wait that finished, was dropped, or was never polled leaves nothing in
      the registry. */
  lemma NoLeftoverRegistration(shared: Shared, steps: seq<Step>, id: Identity)
    requires id in After(shared, steps).registry
    ensures Registrable(After(shared, steps), id)
  {
    hide Wrapped, After, Sound;
    InvRun(shared, steps, id);
  }

  function RacedPoll(): seq<Step> {
    PulsedPoll() + [DropSender] + [WakeAll(true)] + [LoadSenders(0)] + [Remove(0)]
  }

  lemma AfterMore(shared: Shared, steps: seq<Step>, step: Step)
    ensures After(shared, steps + [step]) == Next(After(shared, steps), step)
  {
    assert (steps + [step])[..|steps|] == steps;
  }

  /** The run up to the pulse that the poll will miss. */
  function PulsedPoll(): seq<Step> {
    [] + [Create(Changed, 0)] + [Poll(0, 1)] + [Load(0)] + [Pulse] + [WakeAll(true)]
  }

  lemma PulsedPollReached()
    ensures After(Watch(0, 1), PulsedPoll())
            == State(Watch(1, 1), map[], map[0 := Waiter(Changed, 0, FirstSenders(0), 1, false)],
                     1, 0, multiset{}, 1)
  {
    hide After;
    var shared := Watch(0, 1);
    var s0: seq<Step> := [];
    var s1 := s0 + [Create(Changed, 0)];
    var s2 := s1 + [Poll(0, 1)];
    var s3 := s2 + [Load(0)];
    AfterNone(shared);
    AfterMore(shared, s0, Create(Changed, 0));
    AfterMore(shared, s1, Poll(0, 1));
    AfterMore(shared, s2, Load(0));
    AfterMore(shared, s3, Pulse);
    AfterMore(shared, s3 + [Pulse], WakeAll(true));
    assert Drained(map[]) == multiset{};
  }

  lemma LastSenderGone()
    ensures After(Watch(0, 1), PulsedPoll() + [DropSender] + [WakeAll(true)])
            == State(Watch(1, 0), map[], map[0 := Waiter(Changed, 0, FirstSenders(0), 1, false)],
                     1, 0, multiset{}, 1)
  {
    hide After, PulsedPoll;
    PulsedPollReached();
    AfterMore(Watch(0, 1), PulsedPoll(), DropSender);
    AfterMore(Watch(0, 1), PulsedPoll() + [DropSender], WakeAll(true));
    assert Drained(map[]) == multiset{};
  }

  /** The excepted case can be reached: a pulse and the drop of the last sender
      between the two loads of one `changed` poll strand it for good. */
  lemma ChangedCanStrand()
    ensures Quiet(After(Watch(0, 1), RacedPoll()))
    ensures Stranded(After(Watch(0, 1), RacedPoll()), 0)
  {
    hide After, PulsedPoll, Drained;
    LastSenderGone();
    var s7 := PulsedPoll() + [DropSender] + [WakeAll(true)];
    AfterMore(Watch(0, 1), s7, LoadSenders(0));
    AfterMore(Watch(0, 1), s7 + [LoadSenders(0)], Remove(0));
  }

  lemma AfterNone(shared: Shared)
    ensures After(shared, []) == Initial(shared)
  {
  }
}
