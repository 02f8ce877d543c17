/**
 * The part of Python's naive `datetime` that the tracker relies on: a
 * calendar date and time of day, its position on the time line (counted in
 * microseconds from 0001-01-01T00:00:00, as `toordinal` counts days), and
 * `replace` of the hour or the day field, which raises `ValueError` when the
 * new field is out of range.
 */
module Clock {
  import opened Wrappers

  datatype DateTime = DateTime(
    year: int, month: int, day: int,
    hour: int, minute: int, second: int, microsecond: int)

  /** The error `datetime.replace` raises for an out-of-range field. */
  datatype ValueError = HourOutOfRange | DayOutOfRange

  const MinYear := 1
  const MaxYear := 9999
  const MicrosPerSecond := 1_000_000
  const MicrosPerHour := 3_600_000_000
  const MicrosPerDay := 86_400_000_000

  /** Gregorian leap year. */
  predicate IsLeap(year: int) {
    year % 4 == 0 && (year % 100 != 0 || year % 400 == 0)
  }

  function DaysInMonth(year: int, month: int): (n: int)
    requires 1 <= month <= 12
    ensures 28 <= n <= 31
    ensures n == 29 <==> month == 2 && IsLeap(year)
  {
    if month == 2 then (if IsLeap(year) then 29 else 28)
    else if month == 4 || month == 6 || month == 9 || month == 11 then 30
    else 31
  }

  /** The range checks the `datetime` constructor and `replace` perform. */
  predicate Valid(dt: DateTime) {
    && MinYear <= dt.year <= MaxYear
    && 1 <= dt.month <= 12
    && 1 <= dt.day <= DaysInMonth(dt.year, dt.month)
    && 0 <= dt.hour < 24
    && 0 <= dt.minute < 60
    && 0 <= dt.second < 60
    && 0 <= dt.microsecond < MicrosPerSecond
  }

  /** Days in the years before `year` (year >= 1). */
  function DaysBeforeYear(year: int): int
    requires year >= 1
  {
    var y := year - 1;
    y * 365 + y / 4 - y / 100 + y / 400
  }

  /** Days in the months of `year` before `month`. */
  function DaysBeforeMonth(year: int, month: int): int
    requires 1 <= month <= 12
  {
    [0, 31, 59, 90, 120, 151, 181, 212, 243, 273, 304, 334][month - 1]
      + (if month > 2 && IsLeap(year) then 1 else 0)
  }

  /** Python's `date.toordinal()`: 0001-01-01 is day 1. */
  function Ordinal(dt: DateTime): int
    requires Valid(dt)
  {
    DaysBeforeYear(dt.year) + DaysBeforeMonth(dt.year, dt.month) + dt.day
  }

  /** The position of `dt` on the time line, in microseconds. */
  function Instant(dt: DateTime): int
    requires Valid(dt)
  {
    ((Ordinal(dt) - 1) * 86400 + dt.hour * 3600 + dt.minute * 60 + dt.second) * MicrosPerSecond
      + dt.microsecond
  }

  /** `dt.replace(hour=hour)`. */
  function ReplaceHour(dt: DateTime, hour: int): (r: Result<DateTime, ValueError>)
    requires Valid(dt)
    ensures r.Err? <==> hour < 0 || hour >= 24
    ensures r.Ok? ==> Valid(r.value) && r.value.hour == hour && Ordinal(r.value) == Ordinal(dt)
    ensures r.Ok? ==> Instant(r.value) == Instant(dt) + (hour - dt.hour) * MicrosPerHour
  {
    if 0 <= hour < 24 then Ok(dt.(hour := hour)) else Err(HourOutOfRange)
  }

  /** `dt.replace(day=day)`. */
  function ReplaceDay(dt: DateTime, day: int): (r: Result<DateTime, ValueError>)
    requires Valid(dt)
    ensures r.Err? <==> day < 1 || day > DaysInMonth(dt.year, dt.month)
    ensures r.Ok? ==> Valid(r.value) && r.value.day == day && TimeOfDay(r.value) == TimeOfDay(dt)
    ensures r.Ok? ==> Instant(r.value) == Instant(dt) + (day - dt.day) * MicrosPerDay
  {
    if 1 <= day <= DaysInMonth(dt.year, dt.month) then Ok(dt.(day := day)) else Err(DayOutOfRange)
  }

  /**
   * Decrementing the hour field fails exactly at hour 0; otherwise it moves
   * the time exactly one hour back.
   */
  lemma HourDecrement(dt: DateTime)
    requires Valid(dt)
    ensures ReplaceHour(dt, dt.hour - 1).Err? <==> dt.hour == 0
    ensures ReplaceHour(dt, dt.hour - 1).Err? ==> ReplaceHour(dt, dt.hour - 1).error == HourOutOfRange
    ensures ReplaceHour(dt, dt.hour - 1).Ok? ==>
      Instant(ReplaceHour(dt, dt.hour - 1).value) == Instant(dt) - MicrosPerHour
  {
  }

  /**
   * Decrementing the day field fails exactly on the first of a month;
   * otherwise it moves the time exactly one day back.
   */
  lemma DayDecrement(dt: DateTime)
    requires Valid(dt)
    ensures ReplaceDay(dt, dt.day - 1).Err? <==> dt.day == 1
    ensures ReplaceDay(dt, dt.day - 1).Err? ==> ReplaceDay(dt, dt.day - 1).error == DayOutOfRange
    ensures ReplaceDay(dt, dt.day - 1).Ok? ==>
      Instant(ReplaceDay(dt, dt.day - 1).value) == Instant(dt) - MicrosPerDay
  {
  }

  /**
   * The field order of two dates: earlier year, else earlier month, and so on
   * down to the microsecond. It is also the order of their `isoformat()`
   * strings, which the stored timestamps are compared as.
   */
  predicate Before(a: DateTime, b: DateTime) {
    || a.year < b.year
    || (a.year == b.year && a.month < b.month)
    || (a.year == b.year && a.month == b.month && a.day < b.day)
    || (a.year == b.year && a.month == b.month && a.day == b.day && TimeOfDay(a) < TimeOfDay(b))
  }

  /** Microseconds since midnight. */
  function TimeOfDay(dt: DateTime): int {
    (dt.hour * 3600 + dt.minute * 60 + dt.second) * MicrosPerSecond + dt.microsecond
  }

  function DaysInYear(year: int): int {
    if IsLeap(year) then 366 else 365
  }

  lemma TimeOfDayBounds(dt: DateTime)
    requires Valid(dt)
    ensures 0 <= TimeOfDay(dt) < MicrosPerDay
  {
  }

  lemma DayOfYearBound(dt: DateTime)
    requires Valid(dt)
    ensures DaysBeforeMonth(dt.year, dt.month) + dt.day <= DaysInYear(dt.year)
  {
  }

  lemma DaysBeforeMonthIncreasing(year: int, m1: int, m2: int, d1: int)
    requires 1 <= m1 < m2 <= 12
    requires d1 <= DaysInMonth(year, m1)
    ensures DaysBeforeMonth(year, m1) + d1 <= DaysBeforeMonth(year, m2)
  {
  }

  lemma DaysBeforeNextYear(year: int)
    requires year >= 1
    ensures DaysBeforeYear(year + 1) == DaysBeforeYear(year) + DaysInYear(year)
  {
    var y := year - 1;
    assert year / 4 == y / 4 + (if year % 4 == 0 then 1 else 0);
    assert year / 100 == y / 100 + (if year % 100 == 0 then 1 else 0);
    assert year / 400 == y / 400 + (if year % 400 == 0 then 1 else 0);
  }

  lemma {:induction false} DaysBeforeYearIncreasing(y1: int, y2: int)
    requires 1 <= y1 < y2
    ensures DaysBeforeYear(y1) + DaysInYear(y1) <= DaysBeforeYear(y2)
    decreases y2 - y1
  {
    DaysBeforeNextYear(y1);
    if y1 + 1 < y2 {
      DaysBeforeYearIncreasing(y1 + 1, y2);
    }
  }

  /**
   * The instant order agrees with the field order: a date-time that comes
   * first field by field is strictly earlier on the time line.
   */
  lemma InstantRespectsFieldOrder(a: DateTime, b: DateTime)
    requires Valid(a) && Valid(b)
    requires Before(a, b)
    ensures Instant(a) < Instant(b)
  {
    TimeOfDayBounds(a);
    TimeOfDayBounds(b);
    assert Instant(a) == (Ordinal(a) - 1) * MicrosPerDay + TimeOfDay(a);
    assert Instant(b) == (Ordinal(b) - 1) * MicrosPerDay + TimeOfDay(b);
    if a.year < b.year {
      DayOfYearBound(a);
      DaysBeforeYearIncreasing(a.year, b.year);
    } else if a.month < b.month {
      DaysBeforeMonthIncreasing(a.year, a.month, b.month, a.day);
    }
    if Ordinal(a) < Ordinal(b) {
      assert (Ordinal(a) - 1) * MicrosPerDay + MicrosPerDay <= (Ordinal(b) - 1) * MicrosPerDay;
    }
  }
}
