/** Points in time. */
module Clock {
  /** Counted in microseconds. */
  type Moment = nat

  const SECOND := 1_000_000

  function WholeSeconds(t: Moment): nat {
    t / SECOND
  }
}
