/**
 * System.DateTime and System.TimeSpan as tick counts (one tick is 100 ns).
 * The clock itself (DateTime.UtcNow) is not modelled: every operation that
 * reads it takes the current time as a parameter.
 */
module Clock {
  import opened Wrappers

  const TicksPerMinute: int := 600_000_000
  const TicksPerHour: int := 60 * TicksPerMinute

  /** DateTime.MaxValue.Ticks: the last tick of 31 December 9999. */
  const MaxTicks: int := 3_155_378_975_999_999_999

  /** A DateTime; default(DateTime) is tick 0. */
  type DateTime = t: int | 0 <= t <= MaxTicks

  /** A TimeSpan, which may be negative. */
  type TimeSpan = int

  /**
   * DateTime.Add: None where the sum leaves the DateTime range, where .NET
   * throws ArgumentOutOfRangeException.
   */
  function Add(t: DateTime, span: TimeSpan): (r: Option<DateTime>)
    ensures r.Some? <==> 0 <= t + span <= MaxTicks
    ensures r.Some? ==> r.value - t == span
  {
    if 0 <= t + span <= MaxTicks then Some(t + span) else None
  }
}
