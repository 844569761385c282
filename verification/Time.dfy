/** Clocks count nanoseconds. */
module Time {
  const TICKS_PER_MS := 1_000_000
  const TICKS_PER_SECOND := 1_000_000_000

  /** Whole seconds of a duration, rounded toward zero. */
  function WholeSeconds(ticks: int): int {
    if ticks >= 0 then ticks / TICKS_PER_SECOND else -(-ticks / TICKS_PER_SECOND)
  }
}
