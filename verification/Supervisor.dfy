/** The structural supervision reducer, as the object the driver mutates.

    Every method's new state and appended effects equal the specification's;
    the loops are the cursor walks and enumerations of the source. */
module Supervisor {
  import opened Common
  import opened Keys
  import opened Identity
  import opened SupervisorSpec

  class SupervisorState {
    const flavor: Flavor
    var lifecycle: Lifecycle
    var children: map<Key, Record>
    var childKeys: map<Membership, Key>
    var keys: nat
    var nextOrderedStart: Option<Key>
    var orderedStopCursor: Option<Key>
    var orderedStopWaiting: Option<Key>
    var hardForced: bool
    var finishEmitted: bool
    var orderedStopInspections: nat

    ghost function View(): State
      reads this
    {
      State(flavor, lifecycle, children, childKeys, keys, nextOrderedStart,
            orderedStopCursor, orderedStopWaiting, hardForced, finishEmitted,
            orderedStopInspections)
    }

    constructor (flavor: Flavor)
      ensures View() == Initially(flavor)
    {
      this.flavor := flavor;
      lifecycle := Starting;
      children := map[];
      childKeys := map[];
      keys := 0;
      nextOrderedStart := None;
      orderedStopCursor := None;
      orderedStopWaiting := None;
      hardForced := false;
      finishEmitted := false;
      orderedStopInspections := 0;
    }

    method AdmitMember(membership: Membership, initial: bool) returns (child: Key)
      modifies this
      ensures View() == Step(old(View()), Admit(membership, initial)).state
      ensures child == keys == old(keys) + 1
    {
      keys := keys + 1;
      child := keys;
      children := children[child := Record(membership, Resident(Unstarted),
                                           if initial then Initial(false) else Runtime, false)];
      childKeys := childKeys[membership := child];
      if initial && flavor == Ordered && nextOrderedStart.None? {
        nextOrderedStart := Some(child);
      }
    }

    /** Reports whether this call recorded the first startup failure. */
    method RecordStartupFailure() returns (published: bool)
      modifies this
      ensures View() == Step(old(View()), FailStartup).state
      ensures published <==> old(lifecycle).Starting?
    {
      published := lifecycle.Starting?;
      if published {
        lifecycle := StartupFailed;
      }
    }

    /** Reports the newly opened drain as whether startup was still pending. */
    method OpenDrain(reason: DrainReason) returns (publication: Option<bool>, emitted: seq<Effect>)
      modifies this
      ensures Outcome(View(), emitted) == Step(old(View()), BeginDrain(reason))
      ensures publication == if old(lifecycle).Draining? then None else Some(old(lifecycle).Starting?)
    {
      emitted := [];
      match lifecycle {
        case Draining(current, startup) =>
          if Precedence(reason) > Precedence(current) {
            lifecycle := Draining(reason, startup);
          }
          publication := None;
        case _ =>
          publication := Some(lifecycle.Starting?);
          lifecycle := Draining(reason, PhaseOf(lifecycle));
          if flavor == Ordered {
            orderedStopCursor := Last(children.Keys);
          } else {
            emitted := StopIncomplete();
          }
      }
    }

    /** Enumerates children in key order, stopping each one not yet joined. */
    method StopIncomplete() returns (emitted: seq<Effect>)
      ensures emitted == Stops(IncompleteKeys(children))
      ensures forall k :: StopChild(k) in emitted <==> Incomplete(children, k)
    {
      var found := EnumerateIncomplete();
      emitted := Stops(found);
    }

    method EnumerateIncomplete() returns (found: seq<Key>)
      ensures found == IncompleteKeys(children)
      ensures Ascending(found) && forall k :: k in found <==> Incomplete(children, k)
    {
      hide Sorted;
      var rest := children.Keys;
      found := [];
      ghost var wanted := Owing(children);
      assert wanted * rest == wanted;
      while rest != {}
        invariant rest <= children.Keys
        invariant Sorted(wanted) == found + Sorted(wanted * rest)
        decreases rest
      {
        var k := First(rest);
        SortedVisit(wanted, rest);
        ghost var tail := Sorted(wanted * (rest - {k}));
        assert found + ([k] + tail) == found + [k] + tail;
        if !children[k].IsJoined() {
          found := found + [k];
        }
        rest := rest - {k};
      }
      assert wanted * {} == {};
      SortedEmpty();
      SortedLists(wanted);
    }

    method ForceAll() returns (publication: Option<bool>, emitted: seq<Effect>)
      modifies this
      ensures Outcome(View(), emitted) == Step(old(View()), Force)
      ensures publication == if old(lifecycle).Draining? then None else Some(old(lifecycle).Starting?)
      ensures forall k :: ForceChild(k) in emitted <==> Incomplete(children, k)
    {
      hardForced := true;
      publication, emitted := OpenDrain(ShutdownRequested);
      var pending := EnumerateIncomplete();
      emitted := emitted + Forces(pending);
    }

    /** Moves the startup cursor past every member it may pass. */
    method AdvanceStartCursor()
      modifies this`nextOrderedStart
      ensures nextOrderedStart == StartGate(children, old(nextOrderedStart))
    {
      while nextOrderedStart.Some?
        invariant StartGate(children, nextOrderedStart) == StartGate(children, old(nextOrderedStart))
        decreases if nextOrderedStart.Some? then KeysFrom(nextOrderedStart.value) else {},
                  nextOrderedStart.Some? && nextOrderedStart.value !in children
      {
        var child := nextOrderedStart.value;
        if child in children && children[child].Gates() {
          GateHolds(children, child);
          return;
        }
        nextOrderedStart := FirstFrom(children.Keys, child + 1);
        GatePassed(children, child, nextOrderedStart);
        assert child in children ==> child in old(KeysFrom(child));
      }
    }

    ghost function KeysFrom(key: Key): set<Key>
      reads this`children
    {
      set k | k in children && key <= k
    }

    method EnumerateUnspawned() returns (found: seq<Key>)
      ensures found == Sorted(UnspawnedInitial(children))
      ensures Ascending(found)
      ensures forall k :: k in found <==>
                            k in children && children[k].startup.Initial? && children[k].NeverSpawnedStartable()
    {
      hide Sorted;
      var rest := children.Keys;
      found := [];
      ghost var wanted := UnspawnedInitial(children);
      assert wanted * rest == wanted;
      while rest != {}
        invariant rest <= children.Keys
        invariant Sorted(wanted) == found + Sorted(wanted * rest)
        decreases rest
      {
        var k := First(rest);
        SortedVisit(wanted, rest);
        ghost var tail := Sorted(wanted * (rest - {k}));
        assert found + ([k] + tail) == found + [k] + tail;
        if children[k].startup.Initial? && !children[k].spawnedOnce && children[k].Startable() {
          found := found + [k];
        }
        rest := rest - {k};
      }
      assert wanted * {} == {};
      SortedEmpty();
      SortedLists(wanted);
    }

    method SettleStartup() returns (emitted: seq<Effect>)
      modifies this
      ensures Outcome(View(), emitted) == SettledStartup(old(View()))
    {
      emitted := [];
      if !lifecycle.Starting? {
        return;
      }
      match flavor {
        case Ordered =>
          AdvanceStartCursor();
          if nextOrderedStart.Some? {
            // Whatever gates startup is asked to start only when the request
            // could still produce a spawn edge.
            var record := children[nextOrderedStart.value];
            if record.state.Resident? && !record.spawnedOnce && record.Startable() {
              emitted := [StartChild(nextOrderedStart.value)];
            }
            return;
          }
        case Dynamic =>
          var found := EnumerateUnspawned();
          emitted := Starts(found);
      }
      if forall k :: k in children.Keys ==> children[k].startup != Initial(false) {
        lifecycle := Running;
        emitted := emitted + [StartupCompleted];
      }
    }

    /** Resumes the downward stop walk once the awaited child has joined. */
    method SettleOrderedStop() returns (emitted: seq<Effect>)
      modifies this
      ensures Outcome(View(), emitted) == SettledStop(old(View()))
    {
      emitted := [];
      if flavor != Ordered || !lifecycle.Draining? {
        return;
      }
      if orderedStopWaiting.Some? {
        if Incomplete(children, orderedStopWaiting.value) {
          return;
        }
        orderedStopWaiting := None;
      }
      ghost var scan := StopScan(children, orderedStopCursor);
      while orderedStopCursor.Some?
        invariant View() == old(View()).(stopWaiting := None, stopCursor := orderedStopCursor,
                                         inspections := orderedStopInspections)
        invariant StopScan(children, orderedStopCursor).cursor == scan.cursor
        invariant StopScan(children, orderedStopCursor).found == scan.found
        invariant orderedStopInspections + StopScan(children, orderedStopCursor).inspected
                  == old(orderedStopInspections) + scan.inspected
        decreases if orderedStopCursor.Some? then orderedStopCursor.value + 1 else 0
      {
        var child := orderedStopCursor.value;
        orderedStopCursor := LastBefore(children.Keys, child);
        orderedStopInspections := orderedStopInspections + 1;
        if !Incomplete(children, child) {
          continue;
        }
        orderedStopWaiting := Some(child);
        emitted := [StopChild(child)];
        return;
      }
    }

    method SettleFinish() returns (emitted: seq<Effect>)
      modifies this
      ensures Outcome(View(), emitted) == SettledFinish(old(View()))
    {
      emitted := [];
      if finishEmitted {
        return;
      }
      var allTerminal := forall k :: k in children.Keys ==> children[k].IsJoined();
      var reason: Option<StopReason> := None;
      if lifecycle.Draining? {
        if allTerminal { reason := Some(lifecycle.reason); }
      } else if StartupComplete(lifecycle) && flavor == Ordered
                && children != map[] && allTerminal {
        reason := Some(Finished);
      }
      if reason.Some? {
        finishEmitted := true;
        emitted := [ScopeFinished(reason.value)];
      }
    }

    method TransitionIncarnation(child: Key, expected: set<Incarnation>, next: Incarnation)
      returns (moved: bool)
      modifies this`children
      ensures moved <==> child in old(children) && !old(children)[child].IsJoined()
                         && old(children)[child].state.incarnation in expected
      ensures children == if moved
                          then old(children)[child := old(children)[child].(
                                 state := old(children)[child].state.WithIncarnation(next))]
                          else old(children)
    {
      if child !in children { return false; }
      var record := children[child];
      if record.IsJoined() || record.state.incarnation !in expected { return false; }
      children := children[child := record.(state := record.state.WithIncarnation(next))];
      return true;
    }

    method ApplyEvent(event: Event) returns (emitted: seq<Effect>)
      modifies this
      ensures Outcome(View(), emitted) == Step(old(View()), Apply(event))
    {
      if event.Settle? {
        var a := SettleStartup();
        var b := SettleOrderedStop();
        var c := SettleFinish();
        hide SettledStartup, SettledStop, SettledFinish;
        emitted := a + b + c;
      } else if event.child in children {
        emitted := ApplyToChild(event);
      } else {
        emitted := [];
      }
    }

    method ApplyToChild(event: Event) returns (emitted: seq<Effect>)
      requires !event.Settle? && event.child in children
      modifies this
      ensures Outcome(View(), emitted) == Applied(old(View()), event)
    {
      hide Settled;
      emitted := [];
      var child := event.child;
      var record := children[child];
      match event {
        case Spawned(_) =>
          if record.Startable() {
            children := children[child := record.(
              spawnedOnce := true, state := record.state.WithIncarnation(Active))];
          }
        case Ready(_) =>
          if record.state.Resident? && !record.IsJoined()
             && record.state.incarnation in {Active, Stopping} && record.startup.Initial? {
            children := children[child := record.(startup := Initial(true))];
          }
        case IncarnationComplete(_) =>
          var _ := TransitionIncarnation(child, {Active, Stopping}, Incarnation.Complete);
        case RestartScheduled(_) =>
          var moved := TransitionIncarnation(child, {Incarnation.Complete}, RestartPending);
          if moved && lifecycle.Starting? && record.startup.Initial? {
            children := children[child := children[child].(startup := Initial(false))];
          }
        case StopStarted(_) =>
          var _ := TransitionIncarnation(child, {Active}, Stopping);
        case DisposalStarted(_) =>
          var _ := TransitionIncarnation(
            child, {Unstarted, Incarnation.Complete, RestartPending}, Disposing);
        case Terminalized(_) =>
          var moved := TransitionIncarnation(child, {Disposing}, Joined);
          if moved && children[child].state.Removing? {
            emitted := [FinalizeRemoval(child)];
          }
        case RemovalSample(_) =>
          if record.state.Resident? {
            children := children[child := record.(state := RemovalSampled(record.state.incarnation))];
          }
        case RemovalLatched(_) =>
          if record.state.Removing? {
            return;
          }
          children := children[child := record.(state := Removing(record.state.incarnation))];
          if record.state.incarnation.Joined? {
            emitted := [FinalizeRemoval(child)];
          } else {
            emitted := [StopChild(child)];
          }
        case Reclaim(_) =>
          if !record.IsJoined() {
            return;
          }
          children := children - {child};
          if record.membership in childKeys && childKeys[record.membership] == child {
            childKeys := childKeys - {record.membership};
          }
      }
    }
  }

  lemma GatePassed(children: Children, child: Key, next: Option<Key>)
    requires child in children ==> !children[child].Gates()
    requires next == FirstFrom(children.Keys, child + 1)
    ensures StartGate(children, Some(child)) == StartGate(children, next)
  {
  }

  lemma GateHolds(children: Children, child: Key)
    requires child in children && children[child].Gates()
    ensures StartGate(children, Some(child)) == Some(child)
  {
    assert child in GatingKeys(children);
  }
}
