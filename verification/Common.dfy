/** Small definitions shared by the whole model. */
module Common {

  datatype Option<+T> = None | Some(value: T)

  /** A clock reading in nanoseconds, as Go's monotonic clock gives it. */
  type Time = int

  const SECOND: Time := 1_000_000_000

  /** Whole seconds in a duration, truncated toward zero as Go's float-to-int conversion does. */
  function WholeSeconds(d: Time): int {
    if d >= 0 then d / SECOND else -((-d) / SECOND)
  }
}
