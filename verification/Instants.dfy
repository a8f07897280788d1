/** Instants and durations, in nanoseconds. */
module Instants {

  /** Nanoseconds since the zero `time.Time`. */
  type Instant = int

  /** The zero `time.Time`, which stands for "not given" or "never seen". */
  const ZERO_TIME: Instant := 0

  const SECOND: int := 1_000_000_000
  const MINUTE: int := 60 * SECOND
}
