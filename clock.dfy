/**
 * Go's time arithmetic as the clean-up rules use it. Instants are integer
 * nanosecond timestamps; a time.Duration is a signed 64-bit nanosecond count,
 * and `Time.Sub` saturates at the ends of its range.
 */
module Clock {
  const MinDuration: int := -0x8000_0000_0000_0000
  const MaxDuration: int := 0x7fff_ffff_ffff_ffff
  const Hour: int := 3_600_000_000_000

  /**
   * `time.Duration(days)*24*time.Hour`, exact: the 64-bit wrap-around for
   * day counts above 106751 is not modelled.
   */
  function DaysDuration(days: int): int {
    days * 24 * Hour
  }

  /** `now.Sub(t)`: the elapsed nanoseconds, clamped to the Duration range. */
  function Sub(now: int, t: int): (d: int)
    ensures MinDuration <= d <= MaxDuration
    ensures MinDuration <= now - t <= MaxDuration ==> d == now - t
  {
    if now - t > MaxDuration then MaxDuration
    else if now - t < MinDuration then MinDuration
    else now - t
  }
}
