/** Instants are integer nanoseconds since the Unix epoch, as in Go's time package. */
module Clock {
  const SECOND: int := 1_000_000_000
  const MILLISECOND: int := 1_000_000
  const MINUTE: int := 60 * SECOND
  const HOUR: int := 60 * MINUTE

  /** time.Time.Unix: the second an instant falls in (rounding down, also before 1970). */
  function Unix(instant: int): (second: int)
    ensures second * SECOND <= instant < (second + 1) * SECOND
  {
    instant / SECOND
  }
}
