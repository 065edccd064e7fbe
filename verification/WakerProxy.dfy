/** The waker proxy's critical sections.

    A caller's waker is an opaque identifier. Each critical section moves
    wakers between the slot and the effects that run after unlock. */
module WakerProxy {
  import opened Common

  type Waker = nat

  const U64: nat := 0x1_0000_0000_0000_0000
  type u64 = n: nat | n < U64

  /** `wrapping_add`'s reduction. */
  function Wrapped(n: nat): (r: u64) {
    n % U64
  }

  lemma WrappedSmall(n: u64)
    ensures Wrapped(n) == n
  {
  }

  lemma WrappedNext(n: nat)
    ensures Wrapped(Wrapped(n) + 1) == Wrapped(n + 1)
  {
  }

  /** A wrapped count is back where it started exactly when a multiple of 2^64
      was added. */
  lemma WrappedReturns(start: u64, added: nat)
    ensures Wrapped(start + added) == start <==> Wrapped(added) == 0
  {
  }

  datatype Registration = Registration(caller: Option<Waker>, wakes: u64)

  datatype Action = Wake | Drop | RunDisposer

  datatype Effect = Effect(waker: Waker, action: Action)

  datatype Section = Section(registration: Registration, effects: seq<Effect>)

  /** Moves the stored waker, if any, into an effect. */
  function Taken(r: Registration, action: Action): Section {
    Section(r.(caller := None), if r.caller.Some? then [Effect(r.caller.value, action)] else [])
  }

  /** Stores `waker`, moving a displaced one into an effect. */
  function Replaced(r: Registration, waker: Waker): Section {
    Section(r.(caller := Some(waker)), if r.caller.Some? then [Effect(r.caller.value, Drop)] else [])
  }

  /** A wake is counted whether or not a caller is installed. */
  function Woken(r: Registration): Section {
    Taken(r.(wakes := Wrapped(r.wakes + 1)), Wake)
  }

  /** `register`'s first critical section: nothing to do for the caller already
      stored, otherwise the wake count to compare with later. */
  function Observed(r: Registration, waker: Waker): Option<u64> {
    if r.caller == Some(waker) then None else Some(r.wakes)
  }

  /** `register`'s second critical section. */
  function Installed(r: Registration, waker: Waker, observed: u64): Section {
    var a := Replaced(r, waker);
    if r.wakes == observed then a
    else
      var b := Taken(a.registration, Wake);
      Section(b.registration, a.effects + b.effects)
  }

  class WakerProxyState {
    var caller: Option<Waker>
    var wakes: u64

    ghost function View(): Registration
      reads this
    {
      Registration(caller, wakes)
    }

    constructor ()
      ensures View() == Registration(None, 0)
    {
      caller := None;
      wakes := 0;
    }

    method Take(action: Action) returns (effects: seq<Effect>)
      modifies this`caller
      ensures Section(View(), effects) == Taken(old(View()), action)
    {
      effects := if caller.Some? then [Effect(caller.value, action)] else [];
      caller := None;
    }

    /** Registration may stop here exactly when any wake already reaches
        `current`. Otherwise the count it took lets the second section tell
        whether a wake came between: installing at once stores the caller and
        wakes nobody, installing after one wake hands that wake on. */
    method Observe(current: Waker) returns (observed: Option<u64>)
      ensures observed == Observed(View(), current)
      ensures observed.None? <==> Woken(View()).effects == [Effect(current, Wake)]
      ensures observed.Some? ==>
                && Installed(View(), current, observed.value).registration.caller == Some(current)
                && Effect(current, Wake) !in Installed(View(), current, observed.value).effects
                && Effect(current, Wake)
                   in Installed(Woken(View()).registration, current, observed.value).effects
    {
      if caller == Some(current) {
        return None;
      }
      observed := Some(wakes);
    }

    method Install(replacement: Waker, observed: u64) returns (effects: seq<Effect>)
      modifies this
      ensures Section(View(), effects) == Installed(old(View()), replacement, observed)
    {
      effects := if caller.Some? then [Effect(caller.value, Drop)] else [];
      caller := Some(replacement);
      if wakes != observed {
        var woken := Take(Wake);
        effects := effects + woken;
      }
    }

    method WakeByRef() returns (effects: seq<Effect>)
      modifies this
      ensures Section(View(), effects) == Woken(old(View()))
    {
      wakes := Wrapped(wakes + 1);
      effects := Take(Wake);
    }
  }
}
