/** Instants, wall-clock days in a fixed-offset zone, and the two clock rules of the notifier.

    An instant is an `int` number of nanoseconds.  `ZERO` is Go's unset `time.Time`; every instant
    read from a clock is positive. */
module Clock {
  type Time = int

  const ZERO: Time := 0
  const SECOND: int := 1_000_000_000
  const MINUTE: int := 60_000_000_000
  const HOUR: int := 3_600_000_000_000
  const DAY: int := 86_400_000_000_000

  /** Number of the local calendar day that holds `at`. */
  function LocalDay(offset: int, at: Time): int {
    (at + offset) / DAY
  }

  /** Time elapsed since local midnight. */
  function TimeOfDay(offset: int, at: Time): int {
    (at + offset) % DAY
  }

  predicate SameLocalDate(offset: int, a: Time, b: Time) {
    LocalDay(offset, a) == LocalDay(offset, b)
  }

  function LocalHour(offset: int, at: Time): int {
    TimeOfDay(offset, at) / HOUR
  }

  /** The instant at which the local clock shows `clock` on the local day of `at`. */
  function LocalTimeOn(offset: int, at: Time, clock: int): Time {
    LocalDay(offset, at) * DAY + clock - offset
  }

  /** `e` is an instant at which the local clock shows `clock`. */
  ghost predicate IsBoundary(offset: int, clock: int, e: Time) {
    exists day: int :: e == day * DAY + clock - offset
  }

  function DigestEnd(offset: int, clock: int, at: Time): Time {
    var end := LocalTimeOn(offset, at, clock);
    if at < end then end else end + DAY
  }

  lemma DigestEndIsLeastBoundary(offset: int, clock: int, at: Time)
    requires 0 <= clock < DAY
    ensures IsBoundary(offset, clock, DigestEnd(offset, clock, at))
    ensures at < DigestEnd(offset, clock, at) <= at + DAY
    ensures forall b :: IsBoundary(offset, clock, b) && at < b ==> DigestEnd(offset, clock, at) <= b
  {
    var day := LocalDay(offset, at);
    if at < LocalTimeOn(offset, at, clock) {
      assert DigestEnd(offset, clock, at) == day * DAY + clock - offset;
    } else {
      assert DigestEnd(offset, clock, at) == (day + 1) * DAY + clock - offset;
    }
  }

  lemma DigestEndMonotone(offset: int, clock: int, a: Time, b: Time)
    requires 0 <= clock < DAY && a <= b
    ensures DigestEnd(offset, clock, a) <= DigestEnd(offset, clock, b)
  {
    DigestEndIsLeastBoundary(offset, clock, a);
    DigestEndIsLeastBoundary(offset, clock, b);
  }

  /** An instant in the half-open day before boundary `e` belongs to exactly that boundary. */
  lemma DigestEndOwnsDay(offset: int, clock: int, at: Time, e: Time)
    requires 0 <= clock < DAY && IsBoundary(offset, clock, e)
    ensures e - DAY <= at < e <==> DigestEnd(offset, clock, at) == e
  {
    DigestEndIsLeastBoundary(offset, clock, at);
    var day: int :| e == day * DAY + clock - offset;
    var other: int :| DigestEnd(offset, clock, at) == other * DAY + clock - offset;
    if e - DAY <= at < e {
      assert 0 <= (day - other) * DAY < DAY;
    }
  }

  /** Boundaries follow each other at one-day distance. */
  lemma NextBoundary(offset: int, clock: int, e: Time)
    requires 0 <= clock < DAY && IsBoundary(offset, clock, e)
    ensures IsBoundary(offset, clock, e + DAY)
    ensures DigestEnd(offset, clock, e) == e + DAY
    ensures LocalTimeOn(offset, e + DAY, clock) == e + DAY
  {
    var day: int :| e == day * DAY + clock - offset;
    assert e + DAY == (day + 1) * DAY + clock - offset;
    assert LocalDay(offset, e) == day && LocalDay(offset, e + DAY) == day + 1;
  }

  function QuietUntil(offset: int, quietStart: int, quietEnd: int, at: Time): Time {
    var start := LocalTimeOn(offset, at, quietStart);
    var end := LocalTimeOn(offset, at, quietEnd);
    if end < start then
      if at < end then end
      else if at >= start then end + DAY
      else ZERO
    else if start <= at < end then end
    else ZERO
  }

  /** The local clock shows a time inside the daily quiet period, which may wrap past midnight. */
  predicate InQuietPeriod(offset: int, quietStart: int, quietEnd: int, at: Time) {
    var tod := TimeOfDay(offset, at);
    if quietStart < quietEnd then quietStart <= tod < quietEnd
    else quietStart <= tod || tod < quietEnd
  }

  /** `QuietUntil` is set exactly inside the quiet period, and then is the first later instant at
      which the local clock shows the end of the quiet period. */
  lemma QuietUntilIsEndOfQuiet(offset: int, quietStart: int, quietEnd: int, at: Time)
    requires 0 <= quietStart < DAY && 0 <= quietEnd < DAY && quietStart != quietEnd && at > ZERO
    ensures QuietUntil(offset, quietStart, quietEnd, at) != ZERO <==> InQuietPeriod(offset, quietStart, quietEnd, at)
    ensures InQuietPeriod(offset, quietStart, quietEnd, at) ==>
              QuietUntil(offset, quietStart, quietEnd, at) == DigestEnd(offset, quietEnd, at)
  {
    assert at + offset == LocalDay(offset, at) * DAY + TimeOfDay(offset, at);
  }
}
