/**
 * Wall-clock time made explicit. Go's `time.Time` is modelled as a count of
 * nanoseconds since Go's zero instant (January 1, year 1, UTC), so the zero
 * value `time.Time{}` is 0 and `IsZero` is a comparison with 0.
 * `time.Duration` is a signed nanosecond count.
 */
module Clock {

  type Time = int
  type Duration = int

  /** `time.Time{}`: the value the source uses for "no expiry". */
  const Zero: Time := 0

  const Millisecond: Duration := 1_000_000
  const Second: Duration := 1000 * Millisecond
  const Minute: Duration := 60 * Second
  const Hour: Duration := 60 * Minute

  predicate IsZero(t: Time) {
    t == Zero
  }

  /** `t.Add(d)`; Go saturates on overflow, which unbounded integers never reach. */
  function Add(t: Time, d: Duration): Time {
    t + d
  }

  /** `now.After(t)`: strictly later. */
  predicate After(now: Time, t: Time) {
    now > t
  }
}
