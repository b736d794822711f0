/** Calendar dates as whole days, and the weekend-deferral rule of the scheduler.

    A date is the number of days since 1970-01-01 (UTC), which was a Thursday.
    Adding a 24-hour duration to a UTC time is adding one to its day number. */
module Calendar {

  type Date = int

  datatype Weekday = Sunday | Monday | Tuesday | Wednesday | Thursday | Friday | Saturday

  /** The day of the week of `d`; day 0 is a Thursday, so `(d + 4) % 7` counts
      from Sunday = 0, the numbering of Go's `time.Weekday`. */
  function WeekdayOf(d: Date): Weekday {
    match (d + 4) % 7
    case 0 => Sunday
    case 1 => Monday
    case 2 => Tuesday
    case 3 => Wednesday
    case 4 => Thursday
    case 5 => Friday
    case _ => Saturday
  }

  /** The day of the week that follows `w`, Saturday wrapping round to Sunday. */
  function NextWeekday(w: Weekday): Weekday {
    match w
    case Sunday => Monday
    case Monday => Tuesday
    case Tuesday => Wednesday
    case Wednesday => Thursday
    case Thursday => Friday
    case Friday => Saturday
    case Saturday => Sunday
  }

  /** Day 0 is a Thursday and each day falls on the weekday after the one before
      it, which fixes the weekday of every date; the cycle repeats every seven days. */
  lemma WeekdaySuccession(d: Date)
    ensures WeekdayOf(0) == Thursday
    ensures WeekdayOf(d + 1) == NextWeekday(WeekdayOf(d))
    ensures WeekdayOf(d + 7) == WeekdayOf(d)
  {
  }

  predicate IsWeekend(d: Date) {
    WeekdayOf(d) == Saturday || WeekdayOf(d) == Sunday
  }

  /** Moves a Saturday forward two days and a Sunday forward one day; any other
      day is returned as it is. The result is the first business day on or after `d`. */
  function DeferDateToWeekDay(d: Date): (r: Date)
    ensures d <= r <= d + 2
    ensures !IsWeekend(r)
    ensures forall k :: d <= k < r ==> IsWeekend(k)
  {
    match WeekdayOf(d)
    case Saturday => d + 2
    case Sunday => d + 1
    case _ => d
  }

  /** A business day is never moved, so deferring twice is deferring once. */
  lemma DeferKeepsBusinessDays(d: Date)
    ensures !IsWeekend(d) <==> DeferDateToWeekDay(d) == d
    ensures DeferDateToWeekDay(DeferDateToWeekDay(d)) == DeferDateToWeekDay(d)
  {
    var r := DeferDateToWeekDay(d);
    assert !IsWeekend(r);
  }

  /** Saturday moves two days and Sunday one day, and both land on a Monday. */
  lemma WeekendLandsOnMonday(d: Date)
    requires IsWeekend(d)
    ensures WeekdayOf(d) == Saturday ==> DeferDateToWeekDay(d) == d + 2
    ensures WeekdayOf(d) == Sunday ==> DeferDateToWeekDay(d) == d + 1
    ensures WeekdayOf(DeferDateToWeekDay(d)) == Monday
  {
  }

  /** Deferral preserves the order of dates (it may merge a weekend with the
      Monday after it, but never swaps two dates). */
  lemma DeferMonotonic(d1: Date, d2: Date)
    requires d1 <= d2
    ensures DeferDateToWeekDay(d1) <= DeferDateToWeekDay(d2)
  {
  }
}
