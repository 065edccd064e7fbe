/** Instants, durations and deadlines, in nanoseconds.

    The clock has a ceiling. A deadline that the clock cannot represent, or
    that leaves less than the arming headroom below the ceiling, never
    arrives. */
module Clock {
  import opened Common

  const CLOCK_CEILING: nat := 9_223_372_036_854_775_807 * 1_000_000_000 + 999_999_999
  const ARMING_HEADROOM: nat := 1_000_000_000
  const MILLISECOND: nat := 1_000_000

  type Instant = t: nat | t <= CLOCK_CEILING
  type Duration = nat
  type NonZeroDuration = d: nat | d > 0 witness 1

  function CheckedAdd(t: Instant, d: Duration): Option<Instant> {
    if t + d <= CLOCK_CEILING then Some(t + d) else None
  }

  /** An absolute deadline, kept only when it can be armed. */
  function DeadlineAt(t: Instant): Option<Instant> {
    if CheckedAdd(t, ARMING_HEADROOM).Some? then Some(t) else None
  }

  /** A deadline relative to `start`. A zero budget is already due and never
      has to be armed. */
  function DeadlineAfter(start: Instant, budget: Duration): Option<Instant> {
    var t := CheckedAdd(start, budget);
    if t.None? then None
    else if budget == 0 then t
    else DeadlineAt(t.value)
  }

  predicate IsDue(deadline: Option<Instant>, now: Instant) {
    deadline.Some? && deadline.value <= now
  }

  /** Deadline order, with a deadline that never arrives last. */
  predicate NoLater(a: Option<Instant>, b: Option<Instant>) {
    b.Some? ==> a.Some? && a.value <= b.value
  }

  /** Exactly when a relative deadline arrives, and when: at its start plus its
      budget, unless that comes too close to the ceiling to be armed. */
  lemma DeadlineExact(start: Instant, budget: Duration)
    ensures DeadlineAfter(start, 0) == Some(start)
    ensures budget > 0 ==>
              DeadlineAfter(start, budget)
              == if start + budget + ARMING_HEADROOM <= CLOCK_CEILING then Some(start + budget) else None
  {
  }

  /** Starting no later with no more budget gives no later a deadline, at the
      ceiling too. */
  lemma DeadlineMonotone(s: Instant, t: Instant, d: Duration, e: Duration)
    requires s <= t && d <= e
    ensures NoLater(DeadlineAfter(s, d), DeadlineAfter(t, e))
  {
  }

  /** The pause between escalation and hard abort. */
  function TidyBeat(grace: Duration): Duration {
    var tenth := grace / 10;
    if tenth < MILLISECOND then MILLISECOND
    else if tenth > 10 * MILLISECOND then 10 * MILLISECOND
    else tenth
  }

  /** The pause lies between one and ten milliseconds. */
  lemma TidyBeatBounds(grace: Duration)
    ensures MILLISECOND <= TidyBeat(grace) <= 10 * MILLISECOND
    ensures TidyBeat(0) == MILLISECOND
    ensures 10 * MILLISECOND <= grace <= 100 * MILLISECOND ==> TidyBeat(grace) == grace / 10
    ensures grace >= 100 * MILLISECOND ==> TidyBeat(grace) == 10 * MILLISECOND
  {
  }

  /** A relative deadline is never before its start. */
  lemma DeadlineNotBefore(start: Instant, budget: Duration)
    ensures NoLater(Some(start), DeadlineAfter(start, budget))
  {
  }
}
