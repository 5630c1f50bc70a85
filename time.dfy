/**
 * Instants as whole milliseconds since the epoch, read in one fixed time
 * zone, with the calendar arithmetic the controllers use.
 */
module Time {
  const Hour: int := 3_600_000

  const Day: int := 24 * Hour

  /** The first instant of the day holding `t`. */
  function StartOfDay(t: int): (s: int)
    ensures s <= t < s + Day && s % Day == 0
  {
    t - t % Day
  }
}
