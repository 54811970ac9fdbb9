/** Durations in nanoseconds and the timeval that select consumes (TimeUtils.h). */
module Time {

  const NANOS_PER_MICRO: int := 1_000
  const NANOS_PER_MILLI: int := 1_000_000
  const NANOS_PER_SECOND: int := 1_000_000_000
  const MICROS_PER_SECOND: int := 1_000_000
  const MICROS_PER_MILLI: int := 1_000

  /** clock::time_point::max(), in nanoseconds. */
  const MAX_TIME: int := 0x7FFF_FFFF_FFFF_FFFF

  /** A time_point of the steady clock. */
  type TimePoint = t: int | t <= MAX_TIME witness 0

  datatype Timeval = Timeval(sec: int, usec: int)

  function Micros(tv: Timeval): int { tv.sec * MICROS_PER_SECOND + tv.usec }

  /** What select accepts as a timeout. */
  predicate Selectable(tv: Timeval) { tv.sec >= 0 && 0 <= tv.usec < MICROS_PER_SECOND }

  /** duration_cast rounds towards zero. */
  function Truncated(n: int, d: int): int
    requires d > 0
  {
    if n >= 0 then n / d else -(-n / d)
  }

  function ToTimeval(nanos: int): Timeval {
    var secs := Truncated(nanos, NANOS_PER_SECOND);
    Timeval(secs, Truncated(nanos - secs * NANOS_PER_SECOND, NANOS_PER_MICRO))
  }

  /** The conversion loses less than a microsecond, never lengthens, and is fit for select unless a whole microsecond is overdue. */
  lemma TimevalBounds(nanos: int)
    ensures Selectable(ToTimeval(nanos)) <==> nanos > -NANOS_PER_MICRO
    ensures nanos >= 0 ==>
              Micros(ToTimeval(nanos)) * NANOS_PER_MICRO <= nanos < (Micros(ToTimeval(nanos)) + 1) * NANOS_PER_MICRO
  {
    var secs := Truncated(nanos, NANOS_PER_SECOND);
    var rest := nanos - secs * NANOS_PER_SECOND;
    if nanos >= 0 {
      assert 0 <= rest < NANOS_PER_SECOND;
    } else {
      assert -NANOS_PER_SECOND < rest <= 0;
    }
  }
}
