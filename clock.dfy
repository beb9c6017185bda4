/**
 * Times of day in the exchange's local time (IST). The watchdog and the
 * market-hours check compare `datetime` values that carry microseconds, so
 * they work on microseconds since midnight; the signal validator parses the
 * clock as `%H:%M:%S` and works on whole seconds.
 */
module Clock {

  const MicrosPerSecond: nat := 1000000
  const SecondsPerDay: nat := 86400

  /** Seconds since midnight of the wall-clock time h:m:s. */
  function Seconds(h: nat, m: nat, s: nat): nat
  {
    h * 3600 + m * 60 + s
  }

  /** Microseconds since midnight of h:m:s.000000. */
  function Micros(h: nat, m: nat, s: nat): nat
  {
    Seconds(h, m, s) * MicrosPerSecond
  }

  /** A point in time: a calendar day and the microseconds since its midnight. */
  datatype Timestamp = Timestamp(day: int, micros: nat)
}
