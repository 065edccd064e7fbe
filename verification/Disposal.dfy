/** Disposal as a transition system: any number of submitters, the blocking
    pool, and the fallback worker. Every locked section, reference-count sample
    and user destruction is one step. */
module Disposal {
  import opened Common
  import opened FallbackQueue

  type Value = nat
  type ThreadId = nat

  datatype Job = Job(value: Value, critical: bool, pending: bool)

  datatype Kind = Submitter | Pool | Worker

  /** Where a thread is with its job. The orphan states run a job's drop glue
      after the last reference to it has gone. */
  datatype Pc =
    | Offering
    | Sampling
    | CheckingPending
    | Retrying
    | RetryLocking
    | Queueing
    | Taking
    | Destroying(value: Value)
    | Completing(value: Value)
    | Releasing
    | OrphanDestroying(value: Value)
    | OrphanCompleting(value: Value)
    | Rerouting(value: Value)
    | Popping

  datatype Thread = Thread(kind: Kind, job: JobId, pc: Pc)

  /** Where a submitted value is: pending in a job, taken by a thread, destroyed
      by a thread that still owes its completion, or done with. */
  datatype Place = InJob(job: JobId) | Taken(thread: ThreadId) | Spent(thread: ThreadId) | Over

  datatype PoolOutcome = Unavailable | Rejected | Accepted

  /** `pool` holds the jobs whose closure the pool has and has not started, and
      `worker` names the fallback worker's thread. The last five fields are
      history. */
  datatype State = State(
    jobs: map<JobId, Job>,
    threads: map<ThreadId, Thread>,
    pool: set<JobId>,
    fallback: Fallback,
    worker: Option<ThreadId>,
    nextJob: JobId,
    nextThread: ThreadId,
    places: map<Value, Place>,
    critical: set<Value>,
    destroyed: multiset<Value>,
    completed: multiset<Value>,
    bySubmitter: set<Value>)

  datatype Step =
    | Submit(critical: bool)
    | Offer(thread: ThreadId, outcome: PoolOutcome)
    | Act(thread: ThreadId, spawns: bool)
    | PoolRun(job: JobId)
    | PoolDrop(job: JobId)

  function Initial(): State {
    State(map[], map[], {}, Fallback([], false, false), None, 0, 0, map[], {}, multiset{}, multiset{}, {})
  }

  predicate Holding(pc: Pc) {
    !pc.OrphanDestroying? && !pc.OrphanCompleting? && !pc.Rerouting? && !pc.Popping?
  }

  predicate Holds(s: State, t: ThreadId, j: JobId) {
    t in s.threads && s.threads[t].job == j && Holding(s.threads[t].pc)
  }

  /** Some reference to `j` exists besides thread `t`'s. */
  ghost predicate Shared(s: State, t: ThreadId, j: JobId) {
    j in s.pool || j in s.fallback.queue || exists other :: other != t && Holds(s, other, j)
  }

  ghost predicate Enabled(s: State, step: Step) {
    match step
    case Submit(_) => true
    case Offer(t, _) => t in s.threads && s.threads[t].pc.Offering? && s.threads[t].job in s.jobs
    case Act(t, _) =>
      && t in s.threads && !s.threads[t].pc.Offering?
      && (Holding(s.threads[t].pc) ==> s.threads[t].job in s.jobs)
    case PoolRun(j) => j in s.pool && j in s.jobs
    case PoolDrop(j) => j in s.pool && j in s.jobs
  }

  function Moved(s: State, t: ThreadId, pc: Pc): State
    requires t in s.threads
  {
    s.(threads := s.threads[t := s.threads[t].(pc := pc)])
  }

  /** A finished worker step goes back to the queue; any other thread ends. */
  function Ended(s: State, t: ThreadId): State
    requires t in s.threads
  {
    if s.threads[t].kind.Worker? then Moved(s, t, Popping) else s.(threads := s.threads - {t})
  }

  /** Replaces the fallback state, with a thread for a newly started worker. */
  function Relocked(s: State, fallback: Fallback): State {
    if fallback.live && !s.fallback.live
    then s.(fallback := fallback,
            threads := s.threads[s.nextThread := Thread(Worker, 0, Popping)],
            worker := Some(s.nextThread), nextThread := s.nextThread + 1)
    else s.(fallback := fallback)
  }

  /** A value is named by the first job that held it. */
  function Submitted(s: State, critical: bool): State {
    var v := s.nextJob;
    s.(jobs := s.jobs[v := Job(v, critical, true)],
       threads := s.threads[s.nextThread := Thread(Submitter, v, Offering)],
       nextJob := s.nextJob + 1, nextThread := s.nextThread + 1,
       places := s.places[v := InJob(v)],
       critical := if critical then s.critical + {v} else s.critical)
  }

  /** The submission: a rejected closure is destroyed on the spot, an accepted
      one becomes the pool's reference. */
  function Offered(s: State, t: ThreadId, outcome: PoolOutcome): State
    requires t in s.threads
  {
    match outcome
    case Unavailable => Moved(s, t, Queueing)
    case Rejected => Moved(s, t, Sampling)
    case Accepted => Moved(s.(pool := s.pool + {s.threads[t].job}), t, Sampling)
  }

  /** The pool's reference becomes a thread's, to run the job or only drop it. */
  function PoolMoved(s: State, j: JobId, pc: Pc): State {
    s.(pool := s.pool - {j},
       threads := s.threads[s.nextThread := Thread(Pool, j, pc)],
       nextThread := s.nextThread + 1)
  }

  /** Locks the queue for thread `t`, which then goes to `pc`. */
  function LockedMove(s: State, t: ThreadId, fallback: Fallback, pc: Pc): State
    requires t in s.threads
  {
    Relocked(Moved(s, t, pc), fallback)
  }

  function QueuedBy(s: State, t: ThreadId, spawns: bool): State
    requires t in s.threads && s.threads[t].job in s.jobs
  {
    var j := s.threads[t].job;
    var f := Queued(s.fallback, j, spawns, s.jobs[j].critical);
    LockedMove(s, t, f, if f.live || s.jobs[j].critical then Releasing else Taking)
  }

  /** Thread `t` takes the payload of its job. */
  function TakenBy(s: State, t: ThreadId, pc: Pc): State
    requires t in s.threads && s.threads[t].job in s.jobs
  {
    var j := s.threads[t].job;
    Moved(s, t, pc).(jobs := s.jobs[j := s.jobs[j].(pending := false)],
                     places := s.places[s.jobs[j].value := Taken(t)])
  }

  function DestroyedBy(s: State, t: ThreadId, v: Value, pc: Pc): State
    requires t in s.threads
  {
    Moved(s, t, pc).(destroyed := s.destroyed + multiset{v},
                     places := s.places[v := Spent(t)],
                     bySubmitter := if s.threads[t].kind.Submitter? then s.bySubmitter + {v}
                                    else s.bySubmitter)
  }

  function CompletedBy(s: State, v: Value): State {
    s.(completed := s.completed + multiset{v}, places := s.places[v := Over])
  }

  /** Dropping a reference. The last one to a pending job runs its drop glue:
      an ordinary payload is finished here, a critical one is moved on. */
  ghost function ReleasedBy(s: State, t: ThreadId): State
    requires t in s.threads && s.threads[t].job in s.jobs
  {
    var j := s.threads[t].job;
    if Shared(s, t, j) || !s.jobs[j].pending then Ended(s, t)
    else
      TakenBy(s, t, if s.jobs[j].critical then Rerouting(s.jobs[j].value)
                    else OrphanDestroying(s.jobs[j].value))
  }

  function ReroutedBy(s: State, t: ThreadId, v: Value, spawns: bool): State
    requires t in s.threads
  {
    var j := s.nextJob;
    var u := s.(jobs := s.jobs[j := Job(v, true, true)], nextJob := j + 1,
                places := s.places[v := InJob(j)]);
    Relocked(Ended(u, t), Queued(s.fallback, j, spawns, true))
  }

  function PoppedBy(s: State, t: ThreadId): State
    requires t in s.threads
  {
    if s.fallback.queue == []
    then s.(fallback := Popped(s.fallback), worker := None, threads := s.threads - {t})
    else s.(fallback := Popped(s.fallback),
            threads := s.threads[t := s.threads[t].(job := s.fallback.queue[0], pc := Taking)])
  }

  ghost function Acted(s: State, t: ThreadId, spawns: bool): State
    requires Enabled(s, Act(t, spawns))
  {
    var j := s.threads[t].job;
    match s.threads[t].pc
    case Offering => s
    case Sampling => Moved(s, t, if Shared(s, t, j) then Retrying else CheckingPending)
    case CheckingPending => Moved(s, t, if s.jobs[j].pending then Queueing else Retrying)
    case Retrying => Moved(s, t, if s.fallback.stranded then RetryLocking else Releasing)
    case RetryLocking => LockedMove(s, t, Retried(s.fallback, spawns), Releasing)
    case Queueing => QueuedBy(s, t, spawns)
    case Taking =>
      if s.jobs[j].pending then TakenBy(s, t, Destroying(s.jobs[j].value)) else Moved(s, t, Releasing)
    case Destroying(v) => DestroyedBy(s, t, v, Completing(v))
    case Completing(v) => CompletedBy(Moved(s, t, Releasing), v)
    case Releasing => ReleasedBy(s, t)
    case OrphanDestroying(v) => DestroyedBy(s, t, v, OrphanCompleting(v))
    case OrphanCompleting(v) => CompletedBy(Ended(s, t), v)
    case Rerouting(v) => ReroutedBy(s, t, v, spawns)
    case Popping => PoppedBy(s, t)
  }

  ghost function Fire(s: State, step: Step): State
    requires Enabled(s, step)
  {
    match step
    case Submit(critical) => Submitted(s, critical)
    case Offer(t, outcome) => Offered(s, t, outcome)
    case Act(t, spawns) => Acted(s, t, spawns)
    case PoolRun(j) => PoolMoved(s, j, Taking)
    case PoolDrop(j) => PoolMoved(s, j, Releasing)
  }

  /** A step that is not enabled changes nothing, so every sequence of steps is
      a run. */
  ghost function Next(s: State, step: Step): State {
    if Enabled(s, step) then Fire(s, step) else s
  }

  ghost function After(steps: seq<Step>): State {
    if steps == [] then Initial()
    else Next(After(steps[..|steps| - 1]), steps[|steps| - 1])
  }

  // ------------------------------------------------------------ the invariant

  /** Some reference to `j` exists. */
  ghost predicate Referenced(s: State, j: JobId) {
    j in s.pool || j in s.fallback.queue || exists t :: Holds(s, t, j)
  }

  predicate CarriesTaken(pc: Pc, v: Value) {
    pc == Destroying(v) || pc == OrphanDestroying(v) || pc == Rerouting(v)
  }

  predicate CarriesSpent(pc: Pc, v: Value) {
    pc == Completing(v) || pc == OrphanCompleting(v)
  }

  predicate ThreadOk(s: State, t: ThreadId) {
    t in s.threads ==>
      var thread := s.threads[t];
      && t < s.nextThread
      && (Holding(thread.pc) ==> thread.job in s.jobs)
      && (thread.pc.Popping? ==> thread.kind.Worker?)
      && (thread.kind.Worker? <==> s.worker == Some(t))
      && (thread.kind.Submitter? && thread.pc.Taking? ==> !s.jobs[thread.job].critical)
      && (thread.pc.Destroying? || thread.pc.OrphanDestroying? || thread.pc.Rerouting? ==>
            thread.pc.value in s.places && s.places[thread.pc.value] == Taken(t))
      && (thread.pc.Completing? || thread.pc.OrphanCompleting? ==>
            thread.pc.value in s.places && s.places[thread.pc.value] == Spent(t))
      && (thread.pc.Rerouting? ==> thread.pc.value in s.critical)
      && (thread.kind.Submitter? && (thread.pc.Destroying? || thread.pc.OrphanDestroying?) ==>
            thread.pc.value !in s.critical)
  }

  predicate JobOk(s: State, j: JobId) {
    j in s.jobs ==>
      && j < s.nextJob
      && s.jobs[j].value in s.places
      && (s.jobs[j].critical <==> s.jobs[j].value in s.critical)
      && (s.jobs[j].pending ==> s.places[s.jobs[j].value] == InJob(j))
  }

  ghost predicate PlaceOk(s: State, v: Value) {
    if v !in s.places then s.destroyed[v] == 0 && s.completed[v] == 0
    else
      && v < s.nextJob
      && match s.places[v]
         case InJob(j) =>
           && j in s.jobs && s.jobs[j].value == v && s.jobs[j].pending && Referenced(s, j)
           && s.destroyed[v] == 0 && s.completed[v] == 0
         case Taken(t) =>
           && t in s.threads && CarriesTaken(s.threads[t].pc, v)
           && s.destroyed[v] == 0 && s.completed[v] == 0
         case Spent(t) =>
           && t in s.threads && CarriesSpent(s.threads[t].pc, v)
           && s.destroyed[v] == 1 && s.completed[v] == 0
         case Over => s.destroyed[v] == 1 && s.completed[v] == 1
  }

  ghost predicate QueueOk(s: State) {
    && HintExact(s.fallback)
    && (s.fallback.live <==> s.worker.Some?)
    && (s.worker.Some? ==> s.worker.value in s.threads)
    && (forall j :: j in s.pool ==> j in s.jobs)
    && (forall j :: j in s.fallback.queue ==> j in s.jobs)
    && s.bySubmitter !! s.critical
    && (forall v :: v in s.critical || v in s.bySubmitter ==> v in s.places)
  }

  ghost predicate Inv(s: State) {
    && QueueOk(s)
    && (forall t :: ThreadOk(s, t))
    && (forall j :: JobOk(s, j))
    && (forall v :: PlaceOk(s, v))
  }

  predicate Plain(pc: Pc) {
    pc in {Offering, Sampling, CheckingPending, Retrying, RetryLocking, Queueing, Taking, Releasing}
  }

  lemma Witness(s: State, j: JobId) returns (t: ThreadId)
    requires Referenced(s, j) && j !in s.pool && j !in s.fallback.queue
    ensures Holds(s, t, j)
  {
    t :| Holds(s, t, j);
  }

  /** What one thread's change must respect for the jobs to stay referenced. */
  lemma StillHeld(s: State, u: State, j: JobId)
    requires Referenced(s, j) && s.pool <= u.pool
    requires j in s.fallback.queue ==> j in u.fallback.queue
    requires forall t :: Holds(s, t, j) ==> Holds(u, t, j)
    ensures Referenced(u, j)
  {
    if j !in s.pool && j !in s.fallback.queue {
      var t := Witness(s, j);
      assert Holds(u, t, j);
    }
  }

  // A thread that only moves on, holding its reference throughout.

  lemma MoveThread(s: State, t: ThreadId, pc: Pc, x: ThreadId)
    requires QueueOk(s) && ThreadOk(s, x) && t in s.threads && Plain(pc)
    requires pc.Taking? && s.threads[t].kind.Submitter? && s.threads[t].job in s.jobs ==>
               !s.jobs[s.threads[t].job].critical
    requires Holding(s.threads[t].pc)
    ensures ThreadOk(Moved(s, t, pc), x)
  {
  }

  lemma MovePlace(s: State, t: ThreadId, pc: Pc, v: Value)
    requires PlaceOk(s, v) && t in s.threads && Plain(s.threads[t].pc) && Plain(pc)
    ensures PlaceOk(Moved(s, t, pc), v)
  {
    if v in s.places && s.places[v].InJob? {
      StillHeld(s, Moved(s, t, pc), s.places[v].job);
    }
  }

  lemma KeepsMove(s: State, t: ThreadId, pc: Pc)
    requires Inv(s) && t in s.threads && Plain(s.threads[t].pc) && Plain(pc)
    requires pc.Taking? && s.threads[t].kind.Submitter? && s.threads[t].job in s.jobs ==>
               !s.jobs[s.threads[t].job].critical
    ensures Inv(Moved(s, t, pc))
  {
    hide ThreadOk, PlaceOk;
    var u := Moved(s, t, pc);
    forall x ensures ThreadOk(u, x) { MoveThread(s, t, pc, x); }
    forall j ensures JobOk(u, j) { assert JobOk(s, j); }
    forall v ensures PlaceOk(u, v) { MovePlace(s, t, pc, v); }
  }

  // A submission.

  predicate Fresh(s: State) {
    s.nextJob !in s.jobs && s.nextJob !in s.places && s.nextThread !in s.threads
  }

  lemma IdsAreFresh(s: State)
    requires Inv(s)
    ensures Fresh(s)
  {
    assert JobOk(s, s.nextJob) && PlaceOk(s, s.nextJob) && ThreadOk(s, s.nextThread);
  }

  lemma SubmitThread(s: State, critical: bool, x: ThreadId)
    requires Fresh(s) && QueueOk(s) && ThreadOk(s, x)
    ensures ThreadOk(Submitted(s, critical), x)
  {
  }

  lemma SubmitJob(s: State, critical: bool, j: JobId)
    requires Fresh(s) && QueueOk(s) && JobOk(s, j)
    ensures JobOk(Submitted(s, critical), j)
  {
  }

  lemma SubmitPlace(s: State, critical: bool, v: Value)
    requires Fresh(s) && PlaceOk(s, v) && PlaceOk(s, s.nextJob)
    ensures PlaceOk(Submitted(s, critical), v)
  {
    var u := Submitted(s, critical);
    if v == s.nextJob {
      assert Holds(u, s.nextThread, v);
    } else if v in s.places && s.places[v].InJob? {
      StillHeld(s, u, s.places[v].job);
    }
  }

  lemma KeepsSubmit(s: State, critical: bool)
    requires Inv(s)
    ensures Inv(Submitted(s, critical))
  {
    hide ThreadOk, JobOk, PlaceOk;
    var u := Submitted(s, critical);
    IdsAreFresh(s);
    forall x ensures ThreadOk(u, x) { SubmitThread(s, critical, x); }
    forall j ensures JobOk(u, j) { SubmitJob(s, critical, j); }
    forall v ensures PlaceOk(u, v) { SubmitPlace(s, critical, v); }
  }

  // The pool's reference.

  lemma KeepsAccept(s: State, j: JobId)
    requires Inv(s) && j in s.jobs
    ensures Inv(s.(pool := s.pool + {j}))
  {
    hide ThreadOk;
    var u := s.(pool := s.pool + {j});
    forall x ensures ThreadOk(u, x) { SameThread(s, u, x); }
    forall i ensures JobOk(u, i) { assert JobOk(s, i); }
    forall v ensures PlaceOk(u, v) {
      assert PlaceOk(s, v);
      if v in s.places && s.places[v].InJob? {
        StillHeld(s, u, s.places[v].job);
      }
    }
  }

  lemma SameThread(s: State, u: State, x: ThreadId)
    requires ThreadOk(s, x)
    requires u.threads == s.threads && u.jobs == s.jobs && u.places == s.places
    requires u.worker == s.worker && u.nextThread >= s.nextThread && u.critical == s.critical
    ensures ThreadOk(u, x)
  {
  }

  lemma PoolThread(s: State, j: JobId, pc: Pc, x: ThreadId)
    requires Fresh(s) && QueueOk(s) && ThreadOk(s, x) && j in s.jobs && (pc.Taking? || pc.Releasing?)
    ensures ThreadOk(PoolMoved(s, j, pc), x)
  {
  }

  lemma PoolPlace(s: State, j: JobId, pc: Pc, v: Value)
    requires Fresh(s) && PlaceOk(s, v) && (pc.Taking? || pc.Releasing?)
    ensures PlaceOk(PoolMoved(s, j, pc), v)
  {
    var u := PoolMoved(s, j, pc);
    if v in s.places && s.places[v].InJob? {
      var i := s.places[v].job;
      if i == j {
        assert Holds(u, s.nextThread, j);
      } else if i !in s.pool && i !in s.fallback.queue {
        var t := Witness(s, i);
        assert Holds(u, t, i);
      }
    }
  }

  lemma KeepsPool(s: State, j: JobId, pc: Pc)
    requires Inv(s) && j in s.pool && (pc.Taking? || pc.Releasing?)
    ensures Inv(PoolMoved(s, j, pc))
  {
    hide ThreadOk, PlaceOk;
    var u := PoolMoved(s, j, pc);
    IdsAreFresh(s);
    forall x ensures ThreadOk(u, x) { PoolThread(s, j, pc, x); }
    forall i ensures JobOk(u, i) { assert JobOk(s, i); }
    forall v ensures PlaceOk(u, v) { PoolPlace(s, j, pc, v); }
  }

  // A locked change to the fallback queue that loses no job and retires no
  // worker.

  ghost predicate Grows(s: State, f: Fallback) {
    && HintExact(f)
    && (s.fallback.live ==> f.live)
    && (forall j :: j in s.fallback.queue ==> j in f.queue)
    && (forall j :: j in f.queue ==> j in s.jobs)
  }

  lemma RelockThread(s: State, f: Fallback, x: ThreadId)
    requires Fresh(s) && QueueOk(s) && ThreadOk(s, x) && Grows(s, f)
    ensures ThreadOk(Relocked(s, f), x)
  {
  }

  lemma RelockPlace(s: State, f: Fallback, v: Value)
    requires Fresh(s) && PlaceOk(s, v) && Grows(s, f)
    ensures PlaceOk(Relocked(s, f), v)
  {
    if v in s.places && s.places[v].InJob? {
      StillHeld(s, Relocked(s, f), s.places[v].job);
    }
  }

  lemma KeepsRelock(s: State, f: Fallback)
    requires Inv(s) && Grows(s, f)
    ensures Inv(Relocked(s, f))
  {
    hide ThreadOk, PlaceOk;
    var u := Relocked(s, f);
    IdsAreFresh(s);
    forall x ensures ThreadOk(u, x) { RelockThread(s, f, x); }
    forall j ensures JobOk(u, j) { assert JobOk(s, j); }
    forall v ensures PlaceOk(u, v) { RelockPlace(s, f, v); }
  }

  // Taking a payload out of its job.

  predicate MayTake(s: State, t: ThreadId, pc: Pc) {
    && t in s.threads && s.threads[t].job in s.jobs
    && (s.threads[t].pc.Taking? || s.threads[t].pc.Releasing?)
    && var job := s.jobs[s.threads[t].job];
    && job.pending
    && CarriesTaken(pc, job.value)
    && (pc.Rerouting? ==> job.critical)
    && (s.threads[t].kind.Submitter? && !pc.Rerouting? ==> !job.critical)
  }

  lemma TakeThread(s: State, t: ThreadId, pc: Pc, x: ThreadId)
    requires MayTake(s, t, pc) && ThreadOk(s, x) && ThreadOk(s, t) && JobOk(s, s.threads[t].job)
    ensures ThreadOk(TakenBy(s, t, pc), x)
  {
  }

  lemma TakeJob(s: State, t: ThreadId, pc: Pc, j: JobId)
    requires MayTake(s, t, pc) && JobOk(s, j) && JobOk(s, s.threads[t].job)
    ensures JobOk(TakenBy(s, t, pc), j)
  {
  }

  lemma TakePlace(s: State, t: ThreadId, pc: Pc, v: Value)
    requires MayTake(s, t, pc) && PlaceOk(s, v) && JobOk(s, s.threads[t].job)
    ensures PlaceOk(TakenBy(s, t, pc), v)
  {
    var j := s.threads[t].job;
    if v in s.places && s.places[v].InJob? && v != s.jobs[j].value {
      StillHeld(s, TakenBy(s, t, pc), s.places[v].job);
    }
  }

  lemma KeepsTake(s: State, t: ThreadId, pc: Pc)
    requires Inv(s) && MayTake(s, t, pc)
    ensures Inv(TakenBy(s, t, pc))
  {
    hide ThreadOk, JobOk, PlaceOk;
    var u := TakenBy(s, t, pc);
    forall x ensures ThreadOk(u, x) { TakeThread(s, t, pc, x); }
    forall j ensures JobOk(u, j) { TakeJob(s, t, pc, j); }
    forall v ensures PlaceOk(u, v) { TakePlace(s, t, pc, v); }
  }

  // Destroying a value.

  predicate MayDestroy(s: State, t: ThreadId, v: Value, pc: Pc) {
    && t in s.threads
    && ((s.threads[t].pc == Destroying(v) && pc == Completing(v))
        || (s.threads[t].pc == OrphanDestroying(v) && pc == OrphanCompleting(v)))
  }

  lemma DestroyThread(s: State, t: ThreadId, v: Value, pc: Pc, x: ThreadId)
    requires MayDestroy(s, t, v, pc) && ThreadOk(s, x) && ThreadOk(s, t)
    ensures ThreadOk(DestroyedBy(s, t, v, pc), x)
  {
  }

  lemma DestroyPlace(s: State, t: ThreadId, v: Value, pc: Pc, w: Value)
    requires MayDestroy(s, t, v, pc) && PlaceOk(s, w) && ThreadOk(s, t)
    ensures PlaceOk(DestroyedBy(s, t, v, pc), w)
  {
    if w in s.places && s.places[w].InJob? {
      StillHeld(s, DestroyedBy(s, t, v, pc), s.places[w].job);
    }
  }

  lemma KeepsDestroy(s: State, t: ThreadId, v: Value, pc: Pc)
    requires Inv(s) && MayDestroy(s, t, v, pc)
    ensures Inv(DestroyedBy(s, t, v, pc))
  {
    hide PlaceOk;
    var u := DestroyedBy(s, t, v, pc);
    assert ThreadOk(s, t);
    forall x ensures ThreadOk(u, x) { DestroyThread(s, t, v, pc, x); }
    forall j ensures JobOk(u, j) { assert JobOk(s, j); }
    forall w ensures PlaceOk(u, w) { DestroyPlace(s, t, v, pc, w); }
  }

  // Running a completion.

  lemma CompleteThread(s: State, t: ThreadId, v: Value, x: ThreadId)
    requires t in s.threads && CarriesSpent(s.threads[t].pc, v) && ThreadOk(s, x) && ThreadOk(s, t)
    ensures s.threads[t].pc.Completing? ==> ThreadOk(CompletedBy(Moved(s, t, Releasing), v), x)
    ensures s.threads[t].pc.OrphanCompleting? ==> ThreadOk(CompletedBy(Ended(s, t), v), x)
  {
  }

  lemma CompletePlace(s: State, t: ThreadId, v: Value, w: Value)
    requires t in s.threads && CarriesSpent(s.threads[t].pc, v)
    requires ThreadOk(s, t) && PlaceOk(s, w) && PlaceOk(s, v)
    ensures s.threads[t].pc.Completing? ==> PlaceOk(CompletedBy(Moved(s, t, Releasing), v), w)
    ensures s.threads[t].pc.OrphanCompleting? ==> PlaceOk(CompletedBy(Ended(s, t), v), w)
  {
    if w in s.places && s.places[w].InJob? {
      if s.threads[t].pc.Completing? {
        StillHeld(s, CompletedBy(Moved(s, t, Releasing), v), s.places[w].job);
      } else {
        StillHeld(s, CompletedBy(Ended(s, t), v), s.places[w].job);
      }
    }
  }

  lemma KeepsComplete(s: State, t: ThreadId, v: Value)
    requires Inv(s) && t in s.threads && s.threads[t].pc == Completing(v)
    ensures Inv(CompletedBy(Moved(s, t, Releasing), v))
  {
    hide PlaceOk;
    var u := CompletedBy(Moved(s, t, Releasing), v);
    assert ThreadOk(s, t);
    forall x ensures ThreadOk(u, x) { CompleteThread(s, t, v, x); }
    forall j ensures JobOk(u, j) { assert JobOk(s, j); }
    forall w ensures PlaceOk(u, w) { CompletePlace(s, t, v, w); }
  }

  lemma KeepsOrphanComplete(s: State, t: ThreadId, v: Value)
    requires Inv(s) && t in s.threads && s.threads[t].pc == OrphanCompleting(v)
    ensures Inv(CompletedBy(Ended(s, t), v))
  {
    hide PlaceOk;
    var u := CompletedBy(Ended(s, t), v);
    assert ThreadOk(s, t);
    forall x ensures ThreadOk(u, x) { CompleteThread(s, t, v, x); }
    forall j ensures JobOk(u, j) { assert JobOk(s, j); }
    forall w ensures PlaceOk(u, w) { CompletePlace(s, t, v, w); }
  }

  // Dropping a reference that is not the last one to a pending job.

  lemma EndThread(s: State, t: ThreadId, x: ThreadId)
    requires t in s.threads && s.threads[t].pc.Releasing? && ThreadOk(s, x) && ThreadOk(s, t)
    ensures ThreadOk(Ended(s, t), x)
  {
  }

  lemma EndPlace(s: State, t: ThreadId, v: Value)
    requires t in s.threads && s.threads[t].pc.Releasing? && PlaceOk(s, v)
    requires var j := s.threads[t].job; j in s.jobs && (Shared(s, t, j) || !s.jobs[j].pending)
    ensures PlaceOk(Ended(s, t), v)
  {
    var u := Ended(s, t);
    if v in s.places && s.places[v].InJob? {
      var j := s.places[v].job;
      if j !in s.pool && j !in s.fallback.queue {
        var x := Witness(s, j);
        if x == t {
          x :| x != t && Holds(s, x, j);
        }
        assert Holds(u, x, j);
      }
    }
  }

  lemma KeepsEnd(s: State, t: ThreadId)
    requires Inv(s) && t in s.threads && s.threads[t].pc.Releasing?
    requires var j := s.threads[t].job; j in s.jobs && (Shared(s, t, j) || !s.jobs[j].pending)
    ensures Inv(Ended(s, t))
  {
    hide PlaceOk;
    var u := Ended(s, t);
    assert ThreadOk(s, t);
    forall x ensures ThreadOk(u, x) { EndThread(s, t, x); }
    forall j ensures JobOk(u, j) { assert JobOk(s, j); }
    forall v ensures PlaceOk(u, v) { EndPlace(s, t, v); }
  }

  // Moving a critical payload to a new queued job.

  lemma RerouteThread(s: State, t: ThreadId, v: Value, spawns: bool, x: ThreadId)
    requires Fresh(s) && QueueOk(s) && t in s.threads && s.threads[t].pc == Rerouting(v)
    requires ThreadOk(s, x) && ThreadOk(s, t)
    ensures ThreadOk(ReroutedBy(s, t, v, spawns), x)
  {
  }

  lemma RerouteJob(s: State, t: ThreadId, v: Value, spawns: bool, j: JobId)
    requires Fresh(s) && t in s.threads && s.threads[t].pc == Rerouting(v)
    requires JobOk(s, j) && ThreadOk(s, t)
    ensures JobOk(ReroutedBy(s, t, v, spawns), j)
  {
  }

  lemma ReroutePlace(s: State, t: ThreadId, v: Value, spawns: bool, w: Value)
    requires Fresh(s) && t in s.threads && s.threads[t].pc == Rerouting(v)
    requires PlaceOk(s, w) && PlaceOk(s, v) && ThreadOk(s, t)
    ensures PlaceOk(ReroutedBy(s, t, v, spawns), w)
  {
    var u := ReroutedBy(s, t, v, spawns);
    assert u.fallback.queue == s.fallback.queue + [s.nextJob];
    if w != v && w in s.places && s.places[w].InJob? {
      StillHeld(s, u, s.places[w].job);
    }
  }

  lemma KeepsReroute(s: State, t: ThreadId, v: Value, spawns: bool)
    requires Inv(s) && t in s.threads && s.threads[t].pc == Rerouting(v)
    ensures Inv(ReroutedBy(s, t, v, spawns))
  {
    hide PlaceOk;
    var u := ReroutedBy(s, t, v, spawns);
    IdsAreFresh(s);
    assert ThreadOk(s, t);
    assert u.fallback.queue == s.fallback.queue + [s.nextJob];
    forall x ensures ThreadOk(u, x) { RerouteThread(s, t, v, spawns, x); }
    forall j ensures JobOk(u, j) { RerouteJob(s, t, v, spawns, j); }
    forall w ensures PlaceOk(u, w) { ReroutePlace(s, t, v, spawns, w); }
  }

  // The worker's turn at the queue.

  lemma PopThread(s: State, t: ThreadId, x: ThreadId)
    requires QueueOk(s) && t in s.threads && s.threads[t].pc.Popping?
    requires ThreadOk(s, x) && ThreadOk(s, t)
    ensures ThreadOk(PoppedBy(s, t), x)
  {
  }

  lemma PopPlace(s: State, t: ThreadId, v: Value)
    requires t in s.threads && s.threads[t].pc.Popping? && PlaceOk(s, v)
    ensures PlaceOk(PoppedBy(s, t), v)
  {
    var u := PoppedBy(s, t);
    if v in s.places && s.places[v].InJob? {
      var j := s.places[v].job;
      if s.fallback.queue != [] && j == s.fallback.queue[0] {
        assert Holds(u, t, j);
      } else if j !in s.pool && j !in s.fallback.queue {
        var x := Witness(s, j);
        assert Holds(u, x, j);
      }
    }
  }

  lemma KeepsPop(s: State, t: ThreadId)
    requires Inv(s) && t in s.threads && s.threads[t].pc.Popping?
    ensures Inv(PoppedBy(s, t))
  {
    hide PlaceOk;
    var u := PoppedBy(s, t);
    assert ThreadOk(s, t);
    forall x ensures ThreadOk(u, x) { PopThread(s, t, x); }
    forall j ensures JobOk(u, j) { assert JobOk(s, j); }
    forall v ensures PlaceOk(u, v) { PopPlace(s, t, v); }
  }

  // Every step.

  lemma KeepsLocked(s: State, t: ThreadId, f: Fallback, pc: Pc)
    requires Inv(s) && Grows(s, f) && t in s.threads && Plain(s.threads[t].pc) && Plain(pc)
    requires pc.Taking? && s.threads[t].kind.Submitter? && s.threads[t].job in s.jobs ==>
               !s.jobs[s.threads[t].job].critical
    ensures Inv(LockedMove(s, t, f, pc))
  {
    hide Inv, Relocked;
    KeepsMove(s, t, pc);
    KeepsRelock(Moved(s, t, pc), f);
  }

  lemma KeepsAct(s: State, t: ThreadId, spawns: bool)
    requires Inv(s) && Enabled(s, Act(t, spawns))
    ensures Inv(Acted(s, t, spawns))
  {
    hide PlaceOk, JobOk, Relocked, Shared;
    assert ThreadOk(s, t);
    var j := s.threads[t].job;
    match s.threads[t].pc
    case Offering =>
    case Sampling => KeepsMove(s, t, if Shared(s, t, j) then Retrying else CheckingPending);
    case CheckingPending => KeepsMove(s, t, if s.jobs[j].pending then Queueing else Retrying);
    case Retrying => KeepsMove(s, t, if s.fallback.stranded then RetryLocking else Releasing);
    case RetryLocking => KeepsLocked(s, t, Retried(s.fallback, spawns), Releasing);
    case Queueing =>
      var f := Queued(s.fallback, j, spawns, s.jobs[j].critical);
      KeepsLocked(s, t, f, if f.live || s.jobs[j].critical then Releasing else Taking);
    case Taking =>
      if s.jobs[j].pending {
        KeepsTake(s, t, Destroying(s.jobs[j].value));
      } else {
        KeepsMove(s, t, Releasing);
      }
    case Destroying(v) => KeepsDestroy(s, t, v, Completing(v));
    case Completing(v) => KeepsComplete(s, t, v);
    case Releasing =>
      if Shared(s, t, j) || !s.jobs[j].pending {
        KeepsEnd(s, t);
      } else {
        KeepsTake(s, t, if s.jobs[j].critical then Rerouting(s.jobs[j].value)
                        else OrphanDestroying(s.jobs[j].value));
      }
    case OrphanDestroying(v) => KeepsDestroy(s, t, v, OrphanCompleting(v));
    case OrphanCompleting(v) => KeepsOrphanComplete(s, t, v);
    case Rerouting(v) => KeepsReroute(s, t, v, spawns);
    case Popping => KeepsPop(s, t);
  }

  lemma KeepsOffer(s: State, t: ThreadId, outcome: PoolOutcome)
    requires Inv(s) && Enabled(s, Offer(t, outcome))
    ensures Inv(Offered(s, t, outcome))
  {
    hide Inv;
    match outcome
    case Unavailable => KeepsMove(s, t, Queueing);
    case Rejected => KeepsMove(s, t, Sampling);
    case Accepted =>
      KeepsAccept(s, s.threads[t].job);
      KeepsMove(s.(pool := s.pool + {s.threads[t].job}), t, Sampling);
  }

  lemma InvStep(s: State, step: Step)
    requires Inv(s)
    ensures Inv(Next(s, step))
  {
    hide Inv, Submitted, Offered, Acted, PoolMoved;
    if Enabled(s, step) {
      match step
      case Submit(critical) => KeepsSubmit(s, critical);
      case Offer(t, outcome) => KeepsOffer(s, t, outcome);
      case Act(t, spawns) => KeepsAct(s, t, spawns);
      case PoolRun(j) => KeepsPool(s, j, Taking);
      case PoolDrop(j) => KeepsPool(s, j, Releasing);
    }
  }

  lemma {:induction false} InvRun(steps: seq<Step>)
    ensures Inv(After(steps))
  {
    hide Inv, Next;
    if steps == [] {
      InvInitial();
    } else {
      InvRun(steps[..|steps| - 1]);
      InvStep(After(steps[..|steps| - 1]), steps[|steps| - 1]);
    }
  }

  lemma InvInitial()
    ensures Inv(Initial())
  {
  }

  // ----------------------------------------------------------------- theorems

  /** Every submitted value is destroyed at most once; its completion runs at
      most once, and only after the destruction. */
  lemma DestroyedAtMostOnce(steps: seq<Step>, v: Value)
    ensures After(steps).completed[v] <= After(steps).destroyed[v] <= 1
  {
    hide After;
    InvRun(steps);
    assert PlaceOk(After(steps), v);
  }

  /** A value that was submitted and not destroyed is never lost: it is pending
      in a job that something still refers to, or in the hands of one thread. A
      destroyed value whose completion has not run has a thread about to run it. */
  lemma NeverLost(steps: seq<Step>, v: Value)
    requires v in After(steps).places
    ensures var s := After(steps);
            s.destroyed[v] == 0 ==>
              || (exists j :: j in s.jobs && s.jobs[j].value == v && s.jobs[j].pending && Referenced(s, j))
              || (exists t :: t in s.threads && CarriesTaken(s.threads[t].pc, v))
    ensures var s := After(steps);
            s.destroyed[v] == 1 && s.completed[v] == 0 ==>
              exists t :: t in s.threads && CarriesSpent(s.threads[t].pc, v)
  {
    hide After;
    InvRun(steps);
    assert PlaceOk(After(steps), v);
  }

  /** A critical value is never destroyed in a submitter's step. */
  lemma CriticalNeverInline(steps: seq<Step>, v: Value)
    requires v in After(steps).critical
    ensures v !in After(steps).bySubmitter
  {
    hide After;
    InvRun(steps);
  }

  /** Whenever the lock is free, the hint says exactly that jobs are queued and
      no worker is live, and a live worker is one that really exists. */
  lemma {:induction false} HintIsExact(steps: seq<Step>)
    ensures var s := After(steps);
            && (s.fallback.stranded <==> s.fallback.queue != [] && !s.fallback.live)
            && (s.fallback.live <==> exists t :: t in s.threads && s.threads[t].kind.Worker?)
  {
    hide After, JobOk, PlaceOk;
    InvRun(steps);
    var s := After(steps);
    if s.fallback.live {
      assert ThreadOk(s, s.worker.value);
    }
    forall t | t in s.threads && s.threads[t].kind.Worker?
      ensures s.fallback.live
    {
      assert ThreadOk(s, t);
    }
  }

  /** When every thread has ended and the pool and the queue are empty, every
      submitted value has been destroyed and its completion has run. */
  lemma {:induction false} QuietMeansDone(steps: seq<Step>, v: Value)
    requires v in After(steps).places
    requires var s := After(steps); s.threads == map[] && s.pool == {} && s.fallback.queue == []
    ensures After(steps).destroyed[v] == 1 && After(steps).completed[v] == 1
  {
    hide After;
    InvRun(steps);
    assert PlaceOk(After(steps), v);
  }

  /** A thread that has not ended can always take its next step. */
  lemma {:induction false} ThreadsCanAct(steps: seq<Step>, t: ThreadId, spawns: bool, outcome: PoolOutcome)
    requires t in After(steps).threads
    ensures if After(steps).threads[t].pc.Offering? then Enabled(After(steps), Offer(t, outcome))
            else Enabled(After(steps), Act(t, spawns))
  {
    hide After;
    InvRun(steps);
    assert ThreadOk(After(steps), t);
  }

  /** While a value is not done with, a thread is at work, the pool has a job to
      start, or the hint tells the next submission to start a worker. */
  lemma {:induction false} NothingIsForgotten(steps: seq<Step>, v: Value)
    requires v in After(steps).places && After(steps).completed[v] == 0
    ensures var s := After(steps);
            s.threads != map[] || s.pool != {} || s.fallback.stranded
  {
    hide After;
    InvRun(steps);
    assert PlaceOk(After(steps), v);
  }

  /** A thread that runs a pending job destroys its value and then completes it. */
  lemma {:induction false} FinishRunsThrough(steps: seq<Step>, t: ThreadId)
    requires var s := After(steps);
             && t in s.threads && s.threads[t].pc.Taking?
             && s.threads[t].job in s.jobs && s.jobs[s.threads[t].job].pending
    ensures var s := After(steps);
            var v := s.jobs[s.threads[t].job].value;
            var taken := Next(s, Act(t, false));
            var spent := Next(taken, Act(t, false));
            var over := Next(spent, Act(t, false));
            && taken.destroyed == s.destroyed && taken.completed == s.completed
            && spent.destroyed == s.destroyed + multiset{v} && spent.completed == s.completed
            && over.destroyed == spent.destroyed && over.completed == s.completed + multiset{v}
  {
    hide After, Shared;
  }

  /** A submission counts as accepted exactly when something else refers to the
      job or it has run already; any other goes to the fallback queue. */
  lemma {:induction false} AcceptanceIsExact(steps: seq<Step>, t: ThreadId)
    requires t in After(steps).threads && After(steps).threads[t].pc.Sampling?
    ensures var s := After(steps);
            var j := s.threads[t].job;
            var u := Next(s, Act(t, false));
            var w := if Shared(s, t, j) then u else Next(u, Act(t, false));
            && t in w.threads && j in s.jobs
            && (w.threads[t].pc.Retrying? <==> Shared(s, t, j) || !s.jobs[j].pending)
            && (w.threads[t].pc.Queueing? <==> !Shared(s, t, j) && s.jobs[j].pending)
  {
    hide After, Shared;
    InvRun(steps);
    assert ThreadOk(After(steps), t);
  }

  /** A job that the pool refused is queued for a worker; with no worker to be
      had, a critical one stays queued and any other is finished by its submitter. */
  lemma {:induction false} FallbackIsExact(steps: seq<Step>, t: ThreadId, spawns: bool)
    requires t in After(steps).threads && After(steps).threads[t].pc.Queueing?
    ensures var s := After(steps);
            var j := s.threads[t].job;
            var u := Next(s, Act(t, spawns));
            && j in s.jobs && t in u.threads
            && (u.fallback.live <==> s.fallback.live || spawns)
            && u.fallback.queue == (if u.fallback.live || s.jobs[j].critical
                                    then s.fallback.queue + [j] else s.fallback.queue)
            && u.threads[t].pc == if u.fallback.live || s.jobs[j].critical then Releasing else Taking
  {
    hide After, Shared;
    InvRun(steps);
    assert ThreadOk(After(steps), t) && ThreadOk(After(steps), After(steps).nextThread);
  }
  /** A retry that can start a worker leaves the queue with one; a retry that
      cannot changes nothing there. */
  lemma {:induction false} RetryIsExact(steps: seq<Step>, t: ThreadId, spawns: bool)
    requires t in After(steps).threads && After(steps).threads[t].pc.RetryLocking?
    ensures var s, u := After(steps), Next(After(steps), Act(t, spawns));
            && u.fallback.queue == s.fallback.queue && t in u.threads && u.threads[t].pc.Releasing?
            && (spawns && s.fallback.queue != [] ==>
                  u.fallback.live && u.worker.Some? && u.worker.value in u.threads)
            && (!spawns ==> u.fallback == s.fallback)
  {
    hide After, Shared;
    InvRun(steps);
    assert ThreadOk(After(steps), t) && ThreadOk(After(steps), After(steps).nextThread);
  }
}
