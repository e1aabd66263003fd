/**
 * Time as the learning companion uses it. An instant is a whole number of
 * seconds on a naive (time-zone free) time line; `datetime.now()` becomes a
 * parameter of every operation that reads the clock.
 */
module Clock {
  type Instant = int

  const SecondsPerMinute: int := 60
  const SecondsPerHour: int := 3600
  const SecondsPerDay: int := 86400

  /** The calendar day of an instant, as `.date()` gives it (floor division). */
  function DayOf(t: Instant): (d: int)
    ensures d * SecondsPerDay <= t < (d + 1) * SecondsPerDay
  {
    t / SecondsPerDay
  }

  /** `t + timedelta(days=k)`. */
  function AddDays(t: Instant, k: int): (r: Instant)
    ensures DayOf(r) == DayOf(t) + k
    ensures r - DayOf(r) * SecondsPerDay == t - DayOf(t) * SecondsPerDay
  {
    t + k * SecondsPerDay
  }

  /** `t + timedelta(hours=h)`. */
  function AddHours(t: Instant, h: int): (r: Instant)
    ensures h > 0 ==> r > t
    ensures h < 0 ==> r < t
  {
    t + h * SecondsPerHour
  }
}
