/** Times are nanoseconds since the epoch; tables keep whole seconds. */
module Clock {

  const SECOND: int := 1_000_000_000

  /** The zero time.Time, in seconds: the due time of a delivery that dies at once. */
  const ZERO_TIME_SEC: int := -62135596800

  /** time.Time.Unix: whole seconds, rounding down. */
  function Unix(t: int): (s: int)
    ensures s * SECOND <= t < (s + 1) * SECOND
  {
    t / SECOND
  }
}
