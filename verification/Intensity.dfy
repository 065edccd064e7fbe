/** The restart-intensity window. */
module Intensity {
  import opened Clock

  const U64_MAX: nat := 0xFFFF_FFFF_FFFF_FFFF

  datatype Policy = Policy(maxRestarts: nat, within: NonZeroDuration)

  datatype Charge = Charge(inWindow: nat, totalRestarts: nat, tripped: bool)

  /** A charge older than the window. A charge the clock reports in the future
      has no age and is kept. */
  predicate Expired(charge: Instant, within: Duration, now: Instant) {
    charge <= now && now - charge > within
  }

  function DropExpired(charges: seq<Instant>, within: Duration, now: Instant): seq<Instant> {
    if charges != [] && Expired(charges[0], within, now)
    then DropExpired(charges[1..], within, now) else charges
  }

  /** The deque after one charge. */
  function Charged(charges: seq<Instant>, within: Duration, now: Instant): seq<Instant> {
    DropExpired(charges, within, now) + [now]
  }

  class IntensityState {
    var charges: seq<Instant>
    var totalRestarts: nat

    constructor ()
      ensures charges == [] && totalRestarts == 0
    {
      charges := [];
      totalRestarts := 0;
    }

    method ChargeRestart(policy: Policy, now: Instant) returns (charge: Charge)
      modifies this
      ensures charges == Charged(old(charges), policy.within, now)
      ensures totalRestarts == if old(totalRestarts) < U64_MAX then old(totalRestarts) + 1
                               else old(totalRestarts)
      ensures charge == Charge(|charges|, totalRestarts, |charges| > policy.maxRestarts)
    {
      while charges != [] && charges[0] <= now && now - charges[0] > policy.within
        invariant DropExpired(charges, policy.within, now) == DropExpired(old(charges), policy.within, now)
        invariant totalRestarts == old(totalRestarts)
        decreases |charges|
      {
        charges := charges[1..];
      }
      charges := charges + [now];
      totalRestarts := if totalRestarts < U64_MAX then totalRestarts + 1 else totalRestarts;
      charge := Charge(|charges|, totalRestarts, |charges| > policy.maxRestarts);
    }
  }

  // ------------------------------------------------- against the full history

  /** The deque after every charge of `times`. */
  function Deque(times: seq<Instant>, within: Duration): seq<Instant>
    decreases |times|
  {
    if times == [] then []
    else Charged(Deque(times[..|times| - 1], within), within, times[|times| - 1])
  }

  predicate Nondecreasing(times: seq<Instant>) {
    forall i, j :: 0 <= i < j < |times| ==> times[i] <= times[j]
  }

  /** How many charges fall in the closed interval. */
  function Count(times: seq<Instant>, lo: int, hi: int): nat
    decreases |times|
  {
    if times == [] then 0
    else Count(times[..|times| - 1], lo, hi)
         + if lo <= times[|times| - 1] <= hi then 1 else 0
  }

  lemma {:induction false} DropKeepsSuffix(times: seq<Instant>, k: nat, within: Duration, now: Instant)
    returns (m: nat)
    requires k <= |times| && Nondecreasing(times)
    requires forall i :: 0 <= i < |times| ==> times[i] <= now
    requires forall i :: 0 <= i < k ==> Expired(times[i], within, now)
    ensures k <= m <= |times| && DropExpired(times[k..], within, now) == times[m..]
    ensures forall i :: 0 <= i < m ==> Expired(times[i], within, now)
    ensures forall i :: m <= i < |times| ==> !Expired(times[i], within, now)
    decreases |times| - k
  {
    if k < |times| && Expired(times[k], within, now) {
      assert times[k..][1..] == times[k + 1..];
      m := DropKeepsSuffix(times, k + 1, within, now);
    } else {
      m := k;
    }
  }

  /** `times[m..]` are exactly the charges not expired at `now`. */
  predicate SplitsAt(times: seq<Instant>, m: nat, within: Duration, now: Instant) {
    && m <= |times|
    && (forall i :: 0 <= i < m ==> Expired(times[i], within, now))
    && (forall i :: m <= i < |times| ==> !Expired(times[i], within, now))
  }

  lemma ChargeStep(earlier: seq<Instant>, k: nat, within: Duration, last: Instant, now: Instant)
    returns (m: nat)
    requires Nondecreasing(earlier + [now]) && SplitsAt(earlier, k, within, last) && last <= now
    ensures m <= |earlier| && SplitsAt(earlier + [now], m, within, now)
    ensures Charged(earlier[k..], within, now) == (earlier + [now])[m..]
  {
    hide DropExpired;
    var times := earlier + [now];
    forall i | 0 <= i < |earlier| ensures earlier[i] <= now {
      assert times[i] <= times[|earlier|];
    }
    assert earlier == times[..|earlier|];
    m := DropKeepsSuffix(earlier, k, within, now);
    assert earlier[m..] + [now] == times[m..];
  }

  /** The deque holds exactly the charges of the whole history still inside the
      window, in order. */
  lemma {:induction false} DequeIsWindow(times: seq<Instant>, within: Duration) returns (m: nat)
    requires Nondecreasing(times) && times != []
    ensures m < |times| && Deque(times, within) == times[m..]
    ensures SplitsAt(times, m, within, times[|times| - 1])
    decreases |times|
  {
    hide Charged, SplitsAt;
    var n := |times| - 1;
    assert times[..n] + [times[n]] == times;
    if n == 0 {
      SplitsNothing(within, times[n]);
      m := ChargeStep([], 0, within, times[n], times[n]);
    } else {
      var k := DequeIsWindow(times[..n], within);
      m := ChargeStep(times[..n], k, within, times[n - 1], times[n]);
    }
  }

  lemma SplitsNothing(within: Duration, now: Instant)
    ensures SplitsAt([], 0, within, now)
  {
  }

  lemma {:induction false} CountSuffix(times: seq<Instant>, m: nat, lo: int, hi: int)
    requires m <= |times|
    requires forall i :: 0 <= i < m ==> times[i] < lo
    requires forall i :: m <= i < |times| ==> lo <= times[i] <= hi
    ensures Count(times, lo, hi) == |times| - m
    decreases |times|
  {
    if times != [] {
      var n := |times| - 1;
      if m <= n {
        CountSuffix(times[..n], m, lo, hi);
      } else {
        CountSuffix(times[..n], n, lo, hi);
      }
    }
  }

  /** For nondecreasing times, the reported in-window count is the number of
      all charges ever made within the window ending now. */
  lemma CountIsFullHistory(times: seq<Instant>, within: Duration)
    requires Nondecreasing(times) && times != []
    ensures var now := times[|times| - 1];
            |Deque(times, within)| == Count(times, now - within, now)
  {
    var m := DequeIsWindow(times, within);
    var now := times[|times| - 1];
    CountSuffix(times, m, now - within, now);
  }

  /** No prefix of the history tripped the budget. */
  predicate NeverTripped(times: seq<Instant>, policy: Policy) {
    forall n :: 0 < n <= |times| ==> |Deque(times[..n], policy.within)| <= policy.maxRestarts
  }

  lemma {:induction false} CountWider(times: seq<Instant>, lo: int, hi: int, lo': int, hi': int)
    requires lo' <= lo && hi <= hi'
    ensures Count(times, lo, hi) <= Count(times, lo', hi')
    decreases |times|
  {
    if times != [] { CountWider(times[..|times| - 1], lo, hi, lo', hi'); }
  }

  lemma {:induction false} CountUpTo(times: seq<Instant>, lo: int, hi: int, cap: int)
    requires forall i :: 0 <= i < |times| ==> times[i] <= cap
    ensures Count(times, lo, hi) == Count(times, lo, if cap < hi then cap else hi)
    decreases |times|
  {
    if times != [] { CountUpTo(times[..|times| - 1], lo, hi, cap); }
  }

  /** If no charge tripped, every window of the policy's width, wherever it
      lies, holds at most the allowed number of restarts. */
  lemma {:induction false} EveryWindowIsBounded(times: seq<Instant>, policy: Policy, start: int)
    requires Nondecreasing(times) && NeverTripped(times, policy)
    ensures Count(times, start, start + policy.within) <= policy.maxRestarts
    decreases |times|
  {
    if times != [] {
      var n := |times| - 1;
      var now := times[n];
      if start <= now <= start + policy.within {
        CountIsFullHistory(times, policy.within);
        CountUpTo(times, start, start + policy.within, now);
        CountWider(times, start, now, now - policy.within, now);
        assert times[..|times|] == times;
      } else {
        forall k | 0 < k <= n ensures |Deque(times[..n][..k], policy.within)| <= policy.maxRestarts {
          assert times[..n][..k] == times[..k];
        }
        EveryWindowIsBounded(times[..n], policy, start);
      }
    }
  }
}
