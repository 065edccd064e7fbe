/** The fallback queue's locked state. */
module FallbackQueue {
  import opened Common

  type JobId = nat

  /** `live` is whether a worker has been started and not yet retired;
      `stranded` the hint that submissions read without the lock. */
  datatype Fallback = Fallback(queue: seq<JobId>, live: bool, stranded: bool)

  predicate HintExact(f: Fallback) {
    f.stranded <==> f.queue != [] && !f.live
  }

  function Settled(f: Fallback): Fallback {
    f.(stranded := !f.live && f.queue != [])
  }

  /** Starts a worker unless one is live; `spawns` is whether the thread can be
      created. */
  function Started(f: Fallback, spawns: bool): Fallback {
    f.(live := f.live || spawns)
  }

  /** Appends `job`, and takes it back when no worker can run it and it need
      not be retained. */
  function Queued(f: Fallback, job: JobId, spawns: bool, retain: bool): Fallback {
    var g := Started(f.(queue := f.queue + [job]), spawns);
    Settled(if g.live || retain then g else f)
  }

  function Retried(f: Fallback, spawns: bool): Fallback {
    Settled(if f.queue != [] then Started(f, spawns) else f)
  }

  /** The worker takes the oldest job, or retires. */
  function Popped(f: Fallback): Fallback {
    if f.queue == [] then Settled(f.(live := false)) else f.(queue := f.queue[1..])
  }

  class FallbackDisposals {
    var queue: seq<JobId>
    var workerLive: bool
    var stranded: bool

    ghost function View(): Fallback
      reads this
    {
      Fallback(queue, workerLive, stranded)
    }

    constructor ()
      ensures View() == Fallback([], false, false) && HintExact(View())
    {
      queue := [];
      workerLive := false;
      stranded := false;
    }

    method SettleLocked()
      modifies this`stranded
      ensures View() == Settled(old(View())) && HintExact(View())
    {
      stranded := !workerLive && queue != [];
    }

    method StartWorkerLocked(spawns: bool) returns (live: bool)
      modifies this`workerLive
      ensures View() == Started(old(View()), spawns) && live == workerLive
    {
      if workerLive {
        return true;
      }
      workerLive := spawns;
      return spawns;
    }

    /** Reports whether a worker is live to drain `job`; if none is and the job
        is not retained, the queue is as it was. */
    method QueueFallbackDisposal(job: JobId, spawns: bool, retain: bool) returns (live: bool)
      modifies this
      ensures View() == Queued(old(View()), job, spawns, retain) && HintExact(View())
      ensures live == workerLive && (live <==> old(workerLive) || spawns)
      ensures queue == if live || retain then old(queue) + [job] else old(queue)
    {
      queue := queue + [job];
      live := StartWorkerLocked(spawns);
      if !live && !retain {
        queue := queue[..|queue| - 1];
      }
      SettleLocked();
    }

    /** Submissions that the hint turns away skip the lock. The hint being exact,
        that is as good as locking and finding nothing to start. */
    method RetryStranded(spawns: bool)
      requires HintExact(View())
      modifies this
      ensures View() == Retried(old(View()), spawns) && HintExact(View())
      ensures !spawns ==> View() == old(View())
      ensures spawns ==> queue == [] || workerLive
    {
      if !stranded {
        return;
      }
      if queue != [] {
        var _ := StartWorkerLocked(spawns);
      }
      SettleLocked();
    }

    method NextJob() returns (job: Option<JobId>)
      requires HintExact(View()) && workerLive
      modifies this
      ensures View() == Popped(old(View())) && HintExact(View())
      ensures job == if old(queue) == [] then None else Some(old(queue)[0])
    {
      if queue == [] {
        workerLive := false;
        SettleLocked();
        return None;
      }
      job := Some(queue[0]);
      queue := queue[1..];
    }
  }
}
