/** Specification of the structural supervision reducer.

    The reducer's state is one value, and every entry point is a function from
    a state to a new state and the effects it appends. The two settlement
    cursors are specified by what they select, not by how the loops walk. */
module SupervisorSpec {
  import opened Common
  import opened Keys
  import opened Identity

  datatype Flavor = Ordered | Dynamic

  // ---------------------------------------------------------------- children

  datatype Incarnation =
    Unstarted | Active | Stopping | Complete | RestartPending | Disposing | Joined

  /** Membership and removal status in one value. */
  datatype ChildState =
    | Resident(incarnation: Incarnation)
    | RemovalSampled(incarnation: Incarnation)
    | Removing(incarnation: Incarnation)
  {
    function WithIncarnation(next: Incarnation): ChildState {
      match this
      case Resident(_) => Resident(next)
      case RemovalSampled(_) => RemovalSampled(next)
      case Removing(_) => Removing(next)
    }

    /** 0 resident, 1 sampled, 2 committed. */
    function RemovalRank(): nat {
      match this
      case Resident(_) => 0
      case RemovalSampled(_) => 1
      case Removing(_) => 2
    }
  }

  datatype Startup = Initial(ready: bool) | Runtime

  datatype Record = Record(
    membership: Membership, state: ChildState, startup: Startup, spawnedOnce: bool)
  {
    /** The states in which a spawn edge is accepted. */
    predicate Startable() {
      state == Resident(Unstarted) || state == Resident(RestartPending)
    }

    predicate IsJoined() { state.incarnation.Joined? }

    /** The states in which a readiness edge is accepted. */
    predicate AcceptsReady() {
      state == Resident(Active) || state == Resident(Stopping)
    }

    /** Whether ordered startup may not pass this member yet. */
    predicate Gates() {
      !state.Resident? || !spawnedOnce || startup == Initial(false)
    }

    predicate NeverSpawnedStartable() { !spawnedOnce && Startable() }
  }

  type Children = map<Key, Record>

  predicate Incomplete(children: Children, key: Key) {
    key in children && !children[key].IsJoined()
  }

  predicate AllJoined(children: Children) {
    forall k :: k in children ==> children[k].IsJoined()
  }

  // --------------------------------------------------------------- lifecycle

  datatype StopReason =
    | Finished
    | ShutdownRequested
    | IntensityTripped(evidence: nat)
    | StartupFailure(evidence: nat)
    | NeverStarted

  /** Severity-ascending precedence of stop reasons. */
  function Precedence(reason: StopReason): nat {
    match reason
    case Finished => 0
    case IntensityTripped(_) => 1
    case StartupFailure(_) => 2
    case ShutdownRequested => 3
    case NeverStarted => 4
  }

  /** A drain never carries the reason of a scope that did not start. */
  type DrainReason = r: StopReason | !r.NeverStarted? witness Finished

  datatype StartupPhase = Pending | Done | Failed

  datatype Lifecycle =
    | Starting
    | Running
    | StartupFailed
    | Draining(reason: DrainReason, startup: StartupPhase)

  predicate StartupComplete(l: Lifecycle) {
    l.Running? || (l.Draining? && l.startup.Done?)
  }

  // ------------------------------------------------------------ the reducer

  datatype Event =
    | Spawned(child: Key)
    | Ready(child: Key)
    | IncarnationComplete(child: Key)
    | RestartScheduled(child: Key)
    | StopStarted(child: Key)
    | DisposalStarted(child: Key)
    | Terminalized(child: Key)
    | RemovalSample(child: Key)
    | RemovalLatched(child: Key)
    | Reclaim(child: Key)
    | Settle

  datatype Effect =
    | StartChild(child: Key)
    | StopChild(child: Key)
    | ForceChild(child: Key)
    | FinalizeRemoval(child: Key)
    | StartupCompleted
    | ScopeFinished(reason: StopReason)

  /** One entry-point call. */
  datatype Op =
    | Admit(membership: Membership, initial: bool)
    | FailStartup
    | BeginDrain(reason: DrainReason)
    | Force
    | Apply(event: Event)

  datatype State = State(
    flavor: Flavor,
    lifecycle: Lifecycle,
    children: Children,
    childKeys: map<Membership, Key>,
    keys: nat,
    nextStart: Option<Key>,
    stopCursor: Option<Key>,
    stopWaiting: Option<Key>,
    hardForced: bool,
    finishEmitted: bool,
    inspections: nat)

  datatype Outcome = Outcome(state: State, effects: seq<Effect>)

  function Initially(flavor: Flavor): State {
    State(flavor, Starting, map[], map[], 0, None, None, None, false, false, 0)
  }

  function Admitted(s: State, membership: Membership, initial: bool): State {
    var key := s.keys + 1;
    var record := Record(membership, Resident(Unstarted),
                         if initial then Initial(false) else Runtime, false);
    s.(keys := key,
       children := s.children[key := record],
       childKeys := s.childKeys[membership := key],
       nextStart := if initial && s.flavor.Ordered? && s.nextStart.None?
                    then Some(key) else s.nextStart)
  }

  function StartupFailedNow(s: State): State {
    if s.lifecycle.Starting? then s.(lifecycle := StartupFailed) else s
  }

  /** Stops, in key order, for every child that still owes a join. */
  function IncompleteKeys(children: Children): seq<Key> {
    Sorted(Owing(children))
  }

  function Owing(children: Children): set<Key> {
    set k | k in children && !children[k].IsJoined()
  }

  function Stops(ks: seq<Key>): (es: seq<Effect>)
    ensures |es| == |ks| && forall i :: 0 <= i < |ks| ==> es[i] == StopChild(ks[i])
  {
    seq(|ks|, i requires 0 <= i < |ks| => StopChild(ks[i]))
  }

  function Forces(ks: seq<Key>): (es: seq<Effect>)
    ensures |es| == |ks| && forall i :: 0 <= i < |ks| ==> es[i] == ForceChild(ks[i])
  {
    seq(|ks|, i requires 0 <= i < |ks| => ForceChild(ks[i]))
  }

  function Starts(ks: seq<Key>): (es: seq<Effect>)
    ensures |es| == |ks| && forall i :: 0 <= i < |ks| ==> es[i] == StartChild(ks[i])
  {
    seq(|ks|, i requires 0 <= i < |ks| => StartChild(ks[i]))
  }

  /** The drain's startup evidence is fixed by the state it interrupts. */
  function PhaseOf(l: Lifecycle): StartupPhase
    requires !l.Draining?
  {
    match l
    case Starting => Pending
    case Running => Done
    case StartupFailed => Failed
  }

  function DrainBegun(s: State, reason: DrainReason): Outcome {
    if s.lifecycle.Draining? then
      if Precedence(reason) > Precedence(s.lifecycle.reason) then
        Outcome(s.(lifecycle := s.lifecycle.(reason := reason)), [])
      else
        Outcome(s, [])
    else
      var s' := s.(lifecycle := Draining(reason, PhaseOf(s.lifecycle)));
      match s.flavor
      case Ordered => Outcome(s'.(stopCursor := Last(s.children.Keys)), [])
      case Dynamic => Outcome(s', Stops(IncompleteKeys(s.children)))
  }

  function Forced(s: State): Outcome {
    var o := DrainBegun(s.(hardForced := true), ShutdownRequested);
    Outcome(o.state, o.effects + Forces(IncompleteKeys(s.children)))
  }

  // -------------------------------------------------------------- settlement

  /** The smallest registered member at or after the cursor that startup may
      not pass. */
  function StartGate(children: Children, cursor: Option<Key>): Option<Key> {
    if cursor.None? then None
    else FirstFrom(GatingKeys(children), cursor.value)
  }

  function GatingKeys(children: Children): set<Key> {
    set k | k in children && children[k].Gates()
  }

  predicate AllInitialReady(children: Children) {
    forall k :: k in children ==> children[k].startup != Initial(false)
  }

  function CompletedStartup(s: State): Outcome {
    if AllInitialReady(s.children) && s.lifecycle.Starting? then
      Outcome(s.(lifecycle := Running), [StartupCompleted])
    else
      Outcome(s, [])
  }

  function UnspawnedInitial(children: Children): set<Key> {
    set k | k in children && children[k].startup.Initial? && children[k].NeverSpawnedStartable()
  }

  function SettledStartup(s: State): Outcome {
    if !s.lifecycle.Starting? then Outcome(s, [])
    else match s.flavor
      case Ordered =>
        var gate := StartGate(s.children, s.nextStart);
        var s' := s.(nextStart := gate);
        if gate.Some? then
          Outcome(s', if s.children[gate.value].NeverSpawnedStartable()
                      then [StartChild(gate.value)] else [])
        else CompletedStartup(s')
      case Dynamic =>
        var o := CompletedStartup(s);
        Outcome(o.state, Starts(Sorted(UnspawnedInitial(s.children))) + o.effects)
  }

  datatype Scan = Scan(cursor: Option<Key>, found: Option<Key>, inspected: nat)

  /** Walks registered keys downwards from the cursor to the first child that
      still owes a join. */
  function StopScan(children: Children, cursor: Option<Key>): (scan: Scan)
    decreases if cursor.Some? then cursor.value + 1 else 0
  {
    if cursor.None? then Scan(None, None, 0)
    else
      var below := LastBefore(children.Keys, cursor.value);
      if Incomplete(children, cursor.value) then Scan(below, Some(cursor.value), 1)
      else
        var rest := StopScan(children, below);
        rest.(inspected := rest.inspected + 1)
  }

  function SettledStop(s: State): Outcome {
    if !s.flavor.Ordered? || !s.lifecycle.Draining? then Outcome(s, [])
    else if s.stopWaiting.Some? && Incomplete(s.children, s.stopWaiting.value) then
      Outcome(s, [])
    else
      var scan := StopScan(s.children, s.stopCursor);
      Outcome(s.(stopCursor := scan.cursor, stopWaiting := scan.found,
                 inspections := s.inspections + scan.inspected),
              if scan.found.Some? then [StopChild(scan.found.value)] else [])
  }

  /** The verdict a scope may finish with, if it may finish. */
  function Verdict(s: State): Option<StopReason> {
    if s.lifecycle.Draining? then
      if AllJoined(s.children) then Some(s.lifecycle.reason) else None
    else if StartupComplete(s.lifecycle) && s.flavor.Ordered?
            && s.children != map[] && AllJoined(s.children) then
      Some(Finished)
    else None
  }

  function SettledFinish(s: State): Outcome {
    if s.finishEmitted || Verdict(s).None? then Outcome(s, [])
    else Outcome(s.(finishEmitted := true), [ScopeFinished(Verdict(s).value)])
  }

  function Settled(s: State): Outcome {
    var a := SettledStartup(s);
    var b := SettledStop(a.state);
    var c := SettledFinish(b.state);
    Outcome(c.state, a.effects + b.effects + c.effects)
  }

  // ------------------------------------------------------------ child events

  function WithRecord(s: State, key: Key, record: Record): State {
    s.(children := s.children[key := record])
  }

  /** The incarnation edge an event asks for: its accepted sources and target. */
  function Edge(event: Event): Option<(set<Incarnation>, Incarnation)> {
    match event
    case IncarnationComplete(_) => Some(({Active, Stopping}, Complete))
    case RestartScheduled(_) => Some(({Complete}, RestartPending))
    case StopStarted(_) => Some(({Active}, Stopping))
    case DisposalStarted(_) => Some(({Unstarted, Complete, RestartPending}, Disposing))
    case Terminalized(_) => Some(({Disposing}, Joined))
    case _ => None
  }

  /** One registered child's response to an event naming it. */
  function RecordAfter(record: Record, starting: bool, event: Event): Record {
    match event
    case Spawned(_) =>
      if record.Startable() then record.(spawnedOnce := true, state := Resident(Active))
      else record
    case Ready(_) =>
      if record.AcceptsReady() && record.startup.Initial? then record.(startup := Initial(true))
      else record
    case RemovalSample(_) =>
      if record.state.Resident? then record.(state := RemovalSampled(record.state.incarnation))
      else record
    case RemovalLatched(_) =>
      record.(state := Removing(record.state.incarnation))
    case Reclaim(_) => record
    case Settle => record
    case _ =>
      var edge := Edge(event).value;
      if record.state.incarnation in edge.0 then
        var moved := record.(state := record.state.WithIncarnation(edge.1));
        if event.RestartScheduled? && starting && record.startup.Initial?
        then moved.(startup := Initial(false)) else moved
      else record
  }

  /** The effects of one registered child's response. */
  function RecordEffects(key: Key, record: Record, event: Event): seq<Effect> {
    match event
    case Terminalized(_) =>
      if record.state == Removing(Disposing) then [FinalizeRemoval(key)] else []
    case RemovalLatched(_) =>
      if record.state.Removing? then []
      else if record.IsJoined() then [FinalizeRemoval(key)]
      else [StopChild(key)]
    case _ => []
  }

  function Applied(s: State, event: Event): Outcome {
    if event.Settle? then Settled(s)
    else if event.child !in s.children then Outcome(s, [])
    else
      var record := s.children[event.child];
      if event.Reclaim? then
        if !record.IsJoined() then Outcome(s, [])
        else
          Outcome(s.(children := s.children - {event.child},
                     childKeys := if record.membership in s.childKeys
                                     && s.childKeys[record.membership] == event.child
                                  then s.childKeys - {record.membership} else s.childKeys), [])
      else
        Outcome(WithRecord(s, event.child, RecordAfter(record, s.lifecycle.Starting?, event)),
                RecordEffects(event.child, record, event))
  }

  function Step(s: State, op: Op): Outcome {
    match op
    case Admit(m, initial) => Outcome(Admitted(s, m, initial), [])
    case FailStartup => Outcome(StartupFailedNow(s), [])
    case BeginDrain(reason) => DrainBegun(s, reason)
    case Force => Forced(s)
    case Apply(event) => Applied(s, event)
  }
}
