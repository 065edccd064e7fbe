/** What a watch receiver may conclude from its version: publishers and receivers
    of one watch, with the value lock. Every locked section of a publisher, every
    atomic operation, and every part of a receiver's locked read is one step. */
module WatchValue {
  import opened WakerProxy
  import opened Common

  type ReceiverId = nat

  datatype Pc = Idle | Locked | Loaded

  /** `seen` is the version last marked as seen. The other fields are history:
      the pulse count and the last pulsed value when `seen` was loaded, whether
      the value has been cloned since, and the value cloned last. */
  datatype Receiver = Receiver(seen: u64, upTo: nat, promised: nat, read: bool, cloned: nat, pc: Pc)

  /** `value` counts the modifications made, so that a larger one is newer, and
      `pulsed` is the value at the latest pulse. */
  datatype State = State(
    value: nat,
    version: u64,
    lock: Option<ReceiverId>,
    receivers: map<ReceiverId, Receiver>,
    next: ReceiverId,
    pulses: nat,
    pulsed: nat)

  datatype Step =
    | ModifySilently
    | Pulse
    | Watcher
    | CloneReceiver(id: ReceiverId)
    | LockValue(id: ReceiverId)
    | LoadVersion(id: ReceiverId)
    | CloneValue(id: ReceiverId)
    | Borrow(id: ReceiverId)
    | Notice(id: ReceiverId)

  function Initial(): State {
    State(0, 0, None, map[], 0, 0, 0)
  }

  predicate At(s: State, id: ReceiverId, pc: Pc) {
    id in s.receivers && s.receivers[id].pc == pc
  }

  predicate Enabled(s: State, step: Step) {
    match step
    case ModifySilently => s.lock.None?
    case Pulse => true
    case Watcher => true
    case CloneReceiver(id) => At(s, id, Idle)
    case LockValue(id) => At(s, id, Idle) && s.lock.None?
    case LoadVersion(id) => At(s, id, Locked)
    case CloneValue(id) => At(s, id, Loaded)
    case Borrow(id) => At(s, id, Idle) && s.lock.None?
    case Notice(id) => At(s, id, Idle) && s.version != s.receivers[id].seen
  }

  /** A receiver marks the current version as seen. */
  function Marked(s: State, r: Receiver): Receiver {
    r.(seen := s.version, upTo := s.pulses, promised := s.pulsed, read := false)
  }

  function With(s: State, id: ReceiverId, r: Receiver): State {
    s.(receivers := s.receivers[id := r])
  }

  function Fire(s: State, step: Step): State
    requires Enabled(s, step)
  {
    match step
    case ModifySilently => s.(value := s.value + 1)
    case Pulse =>
      s.(version := Wrapped(s.version + 1), pulses := s.pulses + 1, pulsed := s.value)
    case Watcher =>
      With(s, s.next, Marked(s, Receiver(0, 0, 0, false, 0, Idle))).(next := s.next + 1)
    case CloneReceiver(id) =>
      With(s, s.next, s.receivers[id].(read := false)).(next := s.next + 1)
    case LockValue(id) => With(s, id, s.receivers[id].(pc := Locked)).(lock := Some(id))
    case LoadVersion(id) => With(s, id, Marked(s, s.receivers[id]).(pc := Loaded))
    case CloneValue(id) =>
      With(s, id, s.receivers[id].(cloned := s.value, read := true, pc := Idle)).(lock := None)
    case Borrow(id) => With(s, id, s.receivers[id].(cloned := s.value, read := true))
    case Notice(id) => With(s, id, Marked(s, s.receivers[id]))
  }

  /** A step that is not enabled changes nothing, so every sequence of steps is
      a run. */
  function Next(s: State, step: Step): State {
    if Enabled(s, step) then Fire(s, step) else s
  }

  function After(steps: seq<Step>): State {
    if steps == [] then Initial()
    else Next(After(steps[..|steps| - 1]), steps[|steps| - 1])
  }

  // ------------------------------------------------------------ the invariant

  predicate Sound(s: State, r: Receiver) {
    && r.upTo <= s.pulses && s.version == Wrapped(r.seen + (s.pulses - r.upTo))
    && r.promised <= s.pulsed && (r.upTo == s.pulses ==> r.promised == s.pulsed)
    && (r.read ==> r.promised <= r.cloned)
  }

  predicate Inv(s: State, id: ReceiverId) {
    s.pulsed <= s.value && (id in s.receivers ==> Sound(s, s.receivers[id]))
  }

  lemma MarkedIsSound(s: State, r: Receiver)
    ensures Sound(s, Marked(s, r))
  {
    WrappedSmall(s.version);
  }

  lemma PulseKeeps(s: State, r: Receiver)
    requires Sound(s, r) && s.pulsed <= s.value
    ensures Sound(Fire(s, Pulse), r)
  {
    hide Wrapped;
    WrappedNext(r.seen + (s.pulses - r.upTo));
  }

  lemma InvStep(s: State, step: Step, id: ReceiverId)
    requires Inv(s, id) && (step.CloneReceiver? ==> Inv(s, step.id))
    ensures Inv(Next(s, step), id)
  {
    hide Wrapped, Marked;
    if Enabled(s, step) {
      match step
      case Pulse => if id in s.receivers { PulseKeeps(s, s.receivers[id]); }
      case Watcher => MarkedIsSound(s, Receiver(0, 0, 0, false, 0, Idle));
      case LoadVersion(r) => MarkedIsSound(s, s.receivers[r]);
      case Notice(r) => MarkedIsSound(s, s.receivers[r]);
      case _ =>
    }
  }

  lemma {:induction false} InvRun(steps: seq<Step>, id: ReceiverId)
    ensures Inv(After(steps), id)
  {
    hide Inv, Next;
    if steps == [] {
      InvInitial(id);
    } else {
      InvRun(steps[..|steps| - 1], id);
      var step := steps[|steps| - 1];
      if step.CloneReceiver? {
        InvRun(steps[..|steps| - 1], step.id);
      }
      InvStep(After(steps[..|steps| - 1]), step, id);
    }
  }

  lemma InvInitial(id: ReceiverId)
    ensures Inv(Initial(), id)
  {
  }

  // ----------------------------------------------------------------- theorems

  /** In every interleaving a receiver that read the value after marking its
      version as seen has a value at least as new as every pulse it marked. */
  lemma ReadsCoverSeenPulses(steps: seq<Step>, id: ReceiverId)
    requires id in After(steps).receivers && After(steps).receivers[id].read
    ensures After(steps).receivers[id].promised <= After(steps).receivers[id].cloned
  {
    hide After, Wrapped;
    InvRun(steps, id);
  }

  /** A receiver whose version is current has read a value at least as new as the
      last one published. Stated the other way round: a receiver that has missed
      the last published value is behind, so its next wait reports a change. The
      only exception is 2^64 pulses since it marked its version. */
  lemma CurrentMeansFresh(steps: seq<Step>, id: ReceiverId)
    requires id in After(steps).receivers && After(steps).receivers[id].read
    ensures var s := After(steps);
            var r := s.receivers[id];
            && r.upTo <= s.pulses
            && (r.seen == s.version <==> Wrapped(s.pulses - r.upTo) == 0)
            && (r.seen == s.version && s.pulses - r.upTo < U64 ==> s.pulsed <= r.cloned)
  {
    hide After, Wrapped;
    InvRun(steps, id);
    var s := After(steps);
    var r := s.receivers[id];
    WrappedReturns(r.seen, s.pulses - r.upTo);
    if s.pulses - r.upTo < U64 {
      WrappedSmall(s.pulses - r.upTo);
    }
  }

  /** A read at the start, one modification, then `n` pulses. */
  function PulsedAfterRead(n: nat): seq<Step> {
    if n == 0 then
      [] + [Watcher] + [LockValue(0)] + [LoadVersion(0)] + [CloneValue(0)] + [ModifySilently]
    else PulsedAfterRead(n - 1) + [Pulse]
  }

  lemma AfterMore(steps: seq<Step>, step: Step)
    ensures After(steps + [step]) == Next(After(steps), step)
  {
    hide Next;
    assert (steps + [step])[..|steps|] == steps;
  }

  lemma AfterNone()
    ensures After([]) == Initial()
  {
  }

  lemma ReadThenModified()
    ensures After(PulsedAfterRead(0))
            == State(1, 0, None, map[0 := Receiver(0, 0, 0, true, 0, Idle)], 1, 0, 0)
  {
    hide After;
    var s1 := [] + [Watcher];
    var s2 := s1 + [LockValue(0)];
    var s3 := s2 + [LoadVersion(0)];
    AfterNone();
    AfterMore([], Watcher);
    AfterMore(s1, LockValue(0));
    AfterMore(s2, LoadVersion(0));
    AfterMore(s3, CloneValue(0));
    AfterMore(s3 + [CloneValue(0)], ModifySilently);
  }

  predicate Pulsed(s: State, n: nat) {
    && s.receivers == map[0 := Receiver(0, 0, 0, true, 0, Idle)]
    && s.value == 1 && s.pulses == n && s.version == Wrapped(n)
    && (n > 0 ==> s.pulsed == 1)
  }

  lemma PulsedOnce(s: State, n: nat)
    requires Pulsed(s, n)
    ensures Pulsed(Next(s, Pulse), n + 1)
  {
    hide Wrapped;
    WrappedNext(n);
  }

  lemma {:induction false} PulsedReached(n: nat)
    ensures Pulsed(After(PulsedAfterRead(n)), n)
  {
    hide After, Pulsed, Next;
    if n == 0 {
      ReadThenPulsed();
    } else {
      PulsedReached(n - 1);
      AfterMore(PulsedAfterRead(n - 1), Pulse);
      PulsedOnce(After(PulsedAfterRead(n - 1)), n - 1);
    }
  }

  lemma ReadThenPulsed()
    ensures Pulsed(After(PulsedAfterRead(0)), 0)
  {
    hide After;
    ReadThenModified();
  }

  /** The exception can be reached: after 2^64 pulses a receiver looks current
      although it has missed the value they published. */
  lemma WrappedVersionLooksCurrent()
    ensures var s := After(PulsedAfterRead(U64));
            && 0 in s.receivers && s.receivers[0].read
            && s.receivers[0].seen == s.version && s.receivers[0].cloned < s.pulsed
  {
    hide After, PulsedAfterRead;
    PulsedReached(U64);
    assert Wrapped(U64) == 0;
  }

  /** The value lock is held by at most one receiver's read, for its whole
      length, so no publisher changes the value under it. Freshness does not rest
      on this, but on loading the version before cloning the value. */
  predicate LockHeld(s: State) {
    && (forall id :: id in s.receivers && !s.receivers[id].pc.Idle? ==> s.lock == Some(id))
    && (s.lock.Some? ==> s.lock.value in s.receivers && !s.receivers[s.lock.value].pc.Idle?)
    && s.next !in s.receivers && forall id :: id in s.receivers ==> id < s.next
  }

  lemma {:induction false} LockIsExclusive(steps: seq<Step>)
    ensures LockHeld(After(steps))
  {
    if steps != [] {
      LockIsExclusive(steps[..|steps| - 1]);
      LockStep(After(steps[..|steps| - 1]), steps[|steps| - 1]);
    }
  }

  lemma LockStep(s: State, step: Step)
    requires LockHeld(s)
    ensures LockHeld(Next(s, step))
  {
    hide Wrapped;
  }

  /** A wait that reports a change marks the version it saw, and only then. */
  lemma NoticeCatchesUp(s: State, id: ReceiverId)
    requires id in s.receivers
    ensures var t := Next(s, Notice(id));
            && id in t.receivers && t.version == s.version && t.value == s.value
            && (s.receivers[id].pc.Idle? ==> t.receivers[id].seen == s.version)
            && (s.receivers[id].seen == s.version ==> t == s)
  {
  }

  // ---------------------------------------------------------- one locked read

  function Actor(step: Step): Option<ReceiverId> {
    match step
    case CloneReceiver(id) => Some(id)
    case LockValue(id) => Some(id)
    case LoadVersion(id) => Some(id)
    case CloneValue(id) => Some(id)
    case Borrow(id) => Some(id)
    case Notice(id) => Some(id)
    case _ => None
  }

  /** Steps of publishers and of other receivers. */
  predicate Others(steps: seq<Step>, id: ReceiverId) {
    forall i :: 0 <= i < |steps| ==> Actor(steps[i]) != Some(id)
  }

  /** While a receiver holds the lock, nobody else changes it or the value. */
  lemma {:induction false} OthersKeep(run: seq<Step>, others: seq<Step>, id: ReceiverId)
    requires Others(others, id) && id in After(run).receivers && After(run).lock == Some(id)
    ensures var s, t := After(run), After(run + others);
            && id in t.receivers && t.receivers[id] == s.receivers[id]
            && t.lock == s.lock && t.value == s.value
    decreases |others|
  {
    hide After, Wrapped, Marked;
    if others == [] {
      assert run + others == run;
    } else {
      var n := |others| - 1;
      OthersKeep(run, others[..n], id);
      LockIsExclusive(run + others[..n]);
      AfterMore(run + others[..n], others[n]);
      assert run + others == run + others[..n] + [others[n]];
    }
  }

  /** A locked read is a snapshot, whatever runs between its parts: it marks the
      version it loads, clones the value that was there all along, and frees the
      lock. */
  lemma ReadIsSnapshot(run: seq<Step>, first: seq<Step>, second: seq<Step>, id: ReceiverId)
    requires At(After(run), id, Idle) && After(run).lock.None? && Others(first, id) && Others(second, id)
    ensures var loading := run + [LockValue(id)] + first;
            var t := After(loading + [LoadVersion(id)] + second + [CloneValue(id)]);
            && At(t, id, Idle) && t.lock.None?
            && t.receivers[id].seen == After(loading).version
            && t.receivers[id].cloned == After(run).value == t.value
  {
    hide After;
    AfterMore(run, LockValue(id));
    OthersKeep(run + [LockValue(id)], first, id);
    var loading := run + [LockValue(id)] + first;
    AfterMore(loading, LoadVersion(id));
    OthersKeep(loading + [LoadVersion(id)], second, id);
    AfterMore(loading + [LoadVersion(id)] + second, CloneValue(id));
  }
}
