/** Instants as Python datetimes count them, and clocks that never go back. */
module Clock {
  /** Python datetimes count microseconds; configured durations count seconds. */
  const TICKS_PER_SECOND := 1_000_000

  type Instant = int

  /** The instants read off a run never decrease. */
  ghost predicate Nondecreasing<R(!new)>(rs: seq<R>, at: R -> Instant) {
    forall i, j :: 0 <= i <= j < |rs| ==> at(rs[i]) <= at(rs[j])
  }
}
