/** The weekly reset boundary computed at the top of each iteration of the reset loop
    (api.py, lines 103-107): the next Monday 00:00 after `now`, and how long to sleep
    until then. Time is local wall-clock time in whole seconds. */
module Schedule {

  const SecondsPerDay: int := 86400
  const DaysPerWeek: int := 7

  /** Python's `date.weekday()`, 0 = Monday … 6 = Sunday, of the day with proleptic
      Gregorian ordinal `ordinal` (ordinal 1 is 0001-01-01, a Monday): the number of days
      since the latest Monday, the days whose ordinal is 1 modulo 7. */
  function Weekday(ordinal: int): (w: nat)
    ensures w < DaysPerWeek && (ordinal - w) % DaysPerWeek == 1
  {
    (ordinal + 6) % DaysPerWeek
  }

  /** A moment: a day ordinal and the second within that day. */
  datatype Instant = Instant(day: int, second: int)

  predicate ValidInstant(t: Instant)
  {
    0 <= t.second < SecondsPerDay
  }

  /** Seconds since the start of the day with ordinal 0. */
  function Seconds(t: Instant): int
  {
    t.day * SecondsPerDay + t.second
  }

  /** The reset moment, midnight at the start of day `day`, and the wait until it. */
  datatype Reset = Reset(day: int, wait: int)

  /** `now + timedelta(days = 7 - now.weekday())`, truncated to midnight, and the
      seconds from `now` to it. */
  function NextMonday(now: Instant): (r: Reset)
    requires ValidInstant(now)
    ensures Weekday(r.day) == 0
    ensures now.day < r.day <= now.day + DaysPerWeek
    ensures r.wait == r.day * SecondsPerDay - Seconds(now)
    ensures 0 < r.wait <= DaysPerWeek * SecondsPerDay
    ensures Weekday(now.day) == 0 ==> r.day == now.day + DaysPerWeek
  {
    var x := now.day + 6;
    assert x == DaysPerWeek * (x / DaysPerWeek) + x % DaysPerWeek;
    var day := now.day + (DaysPerWeek - Weekday(now.day));
    assert day + 6 == DaysPerWeek * (x / DaysPerWeek + 1);
    Reset(day, day * SecondsPerDay - Seconds(now))
  }

  /** No Monday midnight lies strictly between `now` and the computed reset: the reset
      is the first Monday midnight strictly after `now`, so a `now` that is itself
      Monday 00:00:00 resets a week later, never at once. */
  lemma NextMondayIsEarliest(now: Instant, d: int)
    requires ValidInstant(now)
    requires Weekday(d) == 0 && d * SecondsPerDay > Seconds(now)
    ensures NextMonday(now).day <= d
  {
  }
}
