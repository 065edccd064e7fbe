/** The registry of parked wakers shared by the latch and the watch. */
module WaiterRegistry {
  import opened Common
  import opened WakerProxy

  type Identity = nat

  datatype Registered = Registered(identity: Identity, waker: Waker)

  predicate Distinct(waiters: seq<Registered>) {
    forall i, j :: 0 <= i < j < |waiters| ==> waiters[i].identity != waiters[j].identity
  }

  /** The registration a vector holds for each identity. */
  function Entries(waiters: seq<Registered>): map<Identity, Waker> {
    if waiters == [] then map[]
    else Entries(waiters[..|waiters| - 1])[waiters[|waiters| - 1].identity := waiters[|waiters| - 1].waker]
  }

  function Lookup(entries: map<Identity, Waker>, identity: Identity): Option<Registered> {
    if identity in entries then Some(Registered(identity, entries[identity])) else None
  }

  lemma {:induction false} EntriesHold(waiters: seq<Registered>, i: nat)
    requires Distinct(waiters) && i < |waiters|
    ensures waiters[i].identity in Entries(waiters)
    ensures Entries(waiters)[waiters[i].identity] == waiters[i].waker
  {
    if i < |waiters| - 1 {
      EntriesHold(waiters[..|waiters| - 1], i);
    }
  }

  lemma {:induction false} EntriesComeFrom(waiters: seq<Registered>, identity: Identity) returns (i: nat)
    requires identity in Entries(waiters)
    ensures i < |waiters| && waiters[i].identity == identity
  {
    if waiters[|waiters| - 1].identity == identity {
      i := |waiters| - 1;
    } else {
      i := EntriesComeFrom(waiters[..|waiters| - 1], identity);
    }
  }

  /** Two vectors of distinct identities with the same members hold the same
      registrations. */
  lemma SameMembers(a: seq<Registered>, b: map<Identity, Waker>)
    requires Distinct(a)
    requires forall i :: 0 <= i < |a| ==> a[i].identity in b && b[a[i].identity] == a[i].waker
    requires forall identity :: identity in b ==> exists i :: 0 <= i < |a| && a[i].identity == identity
    ensures Entries(a) == b
  {
    forall identity | identity in Entries(a)
      ensures identity in b && Entries(a)[identity] == b[identity]
    {
      var i := EntriesComeFrom(a, identity);
      EntriesHold(a, i);
    }
    forall identity | identity in b
      ensures identity in Entries(a)
    {
      var i :| 0 <= i < |a| && a[i].identity == identity;
      EntriesHold(a, i);
    }
  }

  class Registry {
    var waiters: seq<Registered>

    ghost predicate Valid()
      reads this
    {
      Distinct(waiters)
    }

    ghost function View(): map<Identity, Waker>
      reads this
    {
      Entries(waiters)
    }

    constructor ()
      ensures Valid() && View() == map[]
    {
      waiters := [];
    }

    /** The position of `identity`, if it is registered. */
    method Position(identity: Identity) returns (index: Option<nat>)
      requires Valid()
      ensures index.Some? ==> index.value < |waiters| && waiters[index.value].identity == identity
      ensures index.Some? <==> identity in View()
    {
      var i := 0;
      while i < |waiters|
        invariant i <= |waiters|
        invariant forall j :: 0 <= j < i ==> waiters[j].identity != identity
      {
        if waiters[i].identity == identity {
          EntriesHold(waiters, i);
          return Some(i);
        }
        i := i + 1;
      }
      if identity in View() {
        var j := EntriesComeFrom(waiters, identity);
      }
      return None;
    }

    /** Registers `waker`, returning the registration it displaced. */
    method Register(identity: Identity, waker: Waker) returns (displaced: Option<Registered>)
      requires Valid()
      modifies this
      ensures Valid()
      ensures View() == old(View())[identity := waker]
      ensures displaced == Lookup(old(View()), identity)
    {
      var index := Position(identity);
      ghost var was := waiters;
      if index.Some? {
        EntriesHold(waiters, index.value);
        displaced := Some(waiters[index.value]);
        waiters := waiters[index.value := Registered(identity, waker)];
        Update(was, waiters, index.value, waker);
      } else {
        forall j | 0 <= j < |was|
          ensures was[j].identity != identity
        {
          EntriesHold(was, j);
        }
        waiters := waiters + [Registered(identity, waker)];
        assert waiters[..|was|] == was;
        displaced := None;
      }
    }

    /** Removes and returns the registration of `identity`. */
    method Remove(identity: Identity) returns (removed: Option<Registered>)
      requires Valid()
      modifies this
      ensures Valid()
      ensures View() == old(View()) - {identity}
      ensures removed == Lookup(old(View()), identity)
    {
      var index := Position(identity);
      if index.Some? {
        ghost var was := waiters;
        EntriesHold(waiters, index.value);
        removed := Some(waiters[index.value]);
        var last := |waiters| - 1;
        waiters := waiters[index.value := waiters[last]][..last];
        SwapRemove(was, waiters, index.value);
      } else {
        removed := None;
      }
    }

    /** Takes every registration; each is woken once, in vector order. */
    method WakeAll() returns (woken: seq<Registered>)
      requires Valid()
      modifies this
      ensures Valid() && View() == map[]
      ensures Distinct(woken) && Entries(woken) == old(View())
    {
      var taken := waiters;
      waiters := [];
      woken := [];
      for i := 0 to |taken|
        invariant waiters == [] && woken == taken[..i]
      {
        woken := woken + [taken[i]];
      }
      assert taken[..|taken|] == taken;
    }
  }

  lemma Update(was: seq<Registered>, now: seq<Registered>, i: nat, waker: Waker)
    requires Distinct(was) && i < |was|
    requires now == was[i := Registered(was[i].identity, waker)]
    ensures Distinct(now)
    ensures Entries(now) == Entries(was)[was[i].identity := waker]
  {
    var target := Entries(was)[was[i].identity := waker];
    forall j | 0 <= j < |now|
      ensures now[j].identity in target && target[now[j].identity] == now[j].waker
    {
      EntriesHold(was, j);
    }
    forall identity | identity in target
      ensures exists j :: 0 <= j < |now| && now[j].identity == identity
    {
      if identity == was[i].identity {
        assert now[i].identity == identity;
      } else {
        var j := EntriesComeFrom(was, identity);
        assert now[j].identity == identity;
      }
    }
    SameMembers(now, target);
  }

  lemma SwapRemove(was: seq<Registered>, now: seq<Registered>, i: nat)
    requires Distinct(was) && i < |was|
    requires now == was[i := was[|was| - 1]][..|was| - 1]
    ensures Distinct(now)
    ensures Entries(now) == Entries(was) - {was[i].identity}
  {
    var target := Entries(was) - {was[i].identity};
    forall j | 0 <= j < |now|
      ensures now[j].identity in target && target[now[j].identity] == now[j].waker
    {
      EntriesHold(was, if j == i then |was| - 1 else j);
    }
    forall identity | identity in target
      ensures exists j :: 0 <= j < |now| && now[j].identity == identity
    {
      var j := EntriesComeFrom(was, identity);
      if j == |was| - 1 {
        assert now[i].identity == identity;
      } else {
        assert now[j].identity == identity;
      }
    }
    SameMembers(now, target);
  }
}
