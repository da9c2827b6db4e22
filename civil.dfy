/** Proleptic Gregorian civil date-times down to the microsecond, as Python's
    `datetime` holds them. Arithmetic is total over all integer years; Python's
    representable range (years 1 to 9999) is the separate predicate `InRange`, so
    that an `OverflowError` is a result that falls outside it. */
module Civil {

  const MicrosPerSecond: int := 1_000_000
  const MicrosPerDay: int := 86_400_000_000
  const MinYear: int := 1
  const MaxYear: int := 9999

  /** The `tzinfo` of an aware value: a `ZoneInfo(key)` or a fixed UTC offset. */
  datatype TzInfo = ZoneKey(key: string) | FixedOffset(seconds: int)

  datatype DateTime = DateTime(year: int, month: int, day: int,
                               hour: int, minute: int, second: int, microsecond: int,
                               tz: TzInfo)
  {
    /** Fields in their calendar ranges, any year. */
    predicate WellFormed() {
      && 1 <= month <= 12
      && 1 <= day <= DaysInMonth(year, month)
      && 0 <= hour < 24 && 0 <= minute < 60 && 0 <= second < 60
      && 0 <= microsecond < MicrosPerSecond
    }

    /** A value Python can represent (`datetime.min` to `datetime.max`). */
    predicate InRange() {
      WellFormed() && MinYear <= year <= MaxYear
    }
  }

  /** Every `datetime` object the plugin handles. */
  type PyDateTime = d: DateTime | d.InRange() witness DateTime(1, 1, 1, 0, 0, 0, 0, FixedOffset(0))

  predicate IsLeapYear(y: int) {
    y % 4 == 0 && (y % 100 != 0 || y % 400 == 0)
  }

  function DaysInYear(y: int): int {
    if IsLeapYear(y) then 366 else 365
  }

  function DaysInMonth(y: int, m: int): int
    requires 1 <= m <= 12
  {
    if m == 2 then (if IsLeapYear(y) then 29 else 28)
    else if m == 4 || m == 6 || m == 9 || m == 11 then 30
    else 31
  }

  /** Days from 0001-01-01 to January 1 of year `y` (negative before year 1). */
  function DaysBeforeYear(y: int): int
    decreases if y >= 1 then y - 1 else 1 - y
  {
    if y == 1 then 0
    else if y > 1 then DaysBeforeYear(y - 1) + DaysInYear(y - 1)
    else DaysBeforeYear(y + 1) - DaysInYear(y)
  }

  /** Days from January 1 to the first of month `m` in year `y`. */
  function DaysBeforeMonth(y: int, m: int): int
    requires 1 <= m <= 12
  {
    [0, 31, 59, 90, 120, 151, 181, 212, 243, 273, 304, 334][m - 1]
    + (if m > 2 && IsLeapYear(y) then 1 else 0)
  }

  /** Days since 0001-01-01 (Python's `toordinal() - 1`). */
  function DayNumber(d: DateTime): int
    requires 1 <= d.month <= 12
  {
    DaysBeforeYear(d.year) + DaysBeforeMonth(d.year, d.month) + d.day - 1
  }

  /** Python's `weekday()`: Monday is 0. 0001-01-01 was a Monday. */
  function Weekday(d: DateTime): int
    requires 1 <= d.month <= 12
  {
    DayNumber(d) % 7
  }

  /** Microseconds since midnight. */
  function TimeOfDayMicros(d: DateTime): int {
    ((d.hour * 60 + d.minute) * 60 + d.second) * MicrosPerSecond + d.microsecond
  }

  /** The wall-clock instant as microseconds since 0001-01-01T00:00:00. Aware
      values sharing one `tzinfo` compare and subtract by these wall-clock fields. */
  function Instant(d: DateTime): int
    requires 1 <= d.month <= 12
  {
    DayNumber(d) * MicrosPerDay + TimeOfDayMicros(d)
  }

  /** `d.replace(hour=0, minute=0, second=0, microsecond=0)` */
  function Midnight(d: DateTime): DateTime {
    d.(hour := 0, minute := 0, second := 0, microsecond := 0)
  }

  /** `d.replace(day=1, hour=0, minute=0, second=0, microsecond=0)` */
  function FirstOfMonth(d: DateTime): DateTime {
    d.(day := 1, hour := 0, minute := 0, second := 0, microsecond := 0)
  }

  /** `d.replace(month=1, day=1, hour=0, minute=0, second=0, microsecond=0)` */
  function FirstOfYear(d: DateTime): DateTime {
    d.(month := 1, day := 1, hour := 0, minute := 0, second := 0, microsecond := 0)
  }

  /** The same wall-clock time one calendar day later. */
  function NextDay(d: DateTime): (r: DateTime)
    requires d.WellFormed()
    ensures r.WellFormed()
    ensures TimeOfDayMicros(r) == TimeOfDayMicros(d) && r.tz == d.tz
    ensures DayNumber(r) == DayNumber(d) + 1
  {
    if d.day < DaysInMonth(d.year, d.month) then d.(day := d.day + 1)
    else if d.month < 12 then
      MonthStep(d.year, d.month);
      d.(month := d.month + 1, day := 1)
    else
      YearStep(d.year);
      d.(year := d.year + 1, month := 1, day := 1)
  }

  /** The same wall-clock time one calendar day earlier. */
  function PrevDay(d: DateTime): (r: DateTime)
    requires d.WellFormed()
    ensures r.WellFormed()
    ensures TimeOfDayMicros(r) == TimeOfDayMicros(d) && r.tz == d.tz
    ensures DayNumber(r) == DayNumber(d) - 1
  {
    if d.day > 1 then d.(day := d.day - 1)
    else if d.month > 1 then
      MonthStep(d.year, d.month - 1);
      d.(month := d.month - 1, day := DaysInMonth(d.year, d.month - 1))
    else
      YearStep(d.year - 1);
      d.(year := d.year - 1, month := 12, day := 31)
  }

  /** `d + timedelta(days=n)` before Python's range check. */
  function AddDays(d: DateTime, n: int): (r: DateTime)
    requires d.WellFormed()
    ensures r.WellFormed()
    decreases if n >= 0 then n else -n
  {
    if n == 0 then d
    else if n > 0 then AddDays(NextDay(d), n - 1)
    else AddDays(PrevDay(d), n + 1)
  }

  /** `d - timedelta(microseconds=1)` before Python's range check. */
  function PrevMicrosecond(d: DateTime): (r: DateTime)
    requires d.WellFormed()
    ensures r.WellFormed() && r.tz == d.tz
  {
    if d.microsecond > 0 then d.(microsecond := d.microsecond - 1)
    else if d.second > 0 then d.(second := d.second - 1, microsecond := MicrosPerSecond - 1)
    else if d.minute > 0 then d.(minute := d.minute - 1, second := 59, microsecond := MicrosPerSecond - 1)
    else if d.hour > 0 then d.(hour := d.hour - 1, minute := 59, second := 59, microsecond := MicrosPerSecond - 1)
    else PrevDay(d).(hour := 23, minute := 59, second := 59, microsecond := MicrosPerSecond - 1)
  }

  lemma MonthStep(y: int, m: int)
    requires 1 <= m < 12
    ensures DaysBeforeMonth(y, m + 1) == DaysBeforeMonth(y, m) + DaysInMonth(y, m)
  {
  }

  lemma YearStep(y: int)
    ensures DaysBeforeYear(y + 1) == DaysBeforeYear(y) + DaysInYear(y)
    ensures DaysBeforeMonth(y, 12) + 31 == DaysInYear(y)
  {
  }

  /** Adding `n` days moves the instant by exactly `n` whole days and keeps the
      time of day and the zone. */
  lemma AddDaysShift(d: DateTime, n: int)
    requires d.WellFormed()
    ensures Instant(AddDays(d, n)) == Instant(d) + n * MicrosPerDay
    ensures DayNumber(AddDays(d, n)) == DayNumber(d) + n
    ensures TimeOfDayMicros(AddDays(d, n)) == TimeOfDayMicros(d)
    ensures AddDays(d, n).tz == d.tz
  {
    AddDaysDayNumber(d, n);
    var r := AddDays(d, n);
    assert DayNumber(r) * MicrosPerDay == DayNumber(d) * MicrosPerDay + n * MicrosPerDay;
  }

  /** The day count moves by `n`; the clock time and the zone stay. */
  lemma {:induction false} AddDaysDayNumber(d: DateTime, n: int)
    requires d.WellFormed()
    ensures DayNumber(AddDays(d, n)) == DayNumber(d) + n
    ensures TimeOfDayMicros(AddDays(d, n)) == TimeOfDayMicros(d)
    ensures AddDays(d, n).tz == d.tz
    decreases if n >= 0 then n else -n
  {
    if n > 0 {
      assert AddDays(d, n) == AddDays(NextDay(d), n - 1);
      AddDaysDayNumber(NextDay(d), n - 1);
    } else if n < 0 {
      assert AddDays(d, n) == AddDays(PrevDay(d), n + 1);
      AddDaysDayNumber(PrevDay(d), n + 1);
    } else {
      assert AddDays(d, n) == d;
    }
  }

  /** Adding days to a midnight gives a midnight. */
  lemma {:induction false} AddDaysKeepsClock(d: DateTime, n: int)
    requires d.WellFormed()
    ensures AddDays(d, n).hour == d.hour && AddDays(d, n).minute == d.minute
    ensures AddDays(d, n).second == d.second && AddDays(d, n).microsecond == d.microsecond
    decreases if n >= 0 then n else -n
  {
    if n > 0 {
      assert AddDays(d, n) == AddDays(NextDay(d), n - 1);
      AddDaysKeepsClock(NextDay(d), n - 1);
    } else if n < 0 {
      assert AddDays(d, n) == AddDays(PrevDay(d), n + 1);
      AddDaysKeepsClock(PrevDay(d), n + 1);
    } else {
      assert AddDays(d, n) == d;
    }
  }

  /** The previous microsecond is the instant one microsecond earlier. */
  lemma PrevMicrosecondShift(d: DateTime)
    requires d.WellFormed()
    ensures Instant(PrevMicrosecond(d)) == Instant(d) - 1
  {
  }

  /** Flooring to midnight keeps the day and goes back less than one day. */
  lemma MidnightBounds(d: DateTime)
    requires d.WellFormed()
    ensures Midnight(d).WellFormed() && DayNumber(Midnight(d)) == DayNumber(d)
    ensures Instant(Midnight(d)) <= Instant(d) < Instant(Midnight(d)) + MicrosPerDay
  {
  }

  /** Flooring to the first of the month stays in the month and never moves forward. */
  lemma FirstOfMonthBounds(d: DateTime)
    requires d.WellFormed()
    ensures FirstOfMonth(d).WellFormed()
    ensures DayNumber(FirstOfMonth(d)) == DayNumber(d) - (d.day - 1)
    ensures Instant(FirstOfMonth(d)) <= Instant(d)
  {
  }

  /** Flooring to January 1 never moves forward. */
  lemma FirstOfYearBounds(d: DateTime)
    requires d.WellFormed()
    ensures FirstOfYear(d).WellFormed()
    ensures DayNumber(FirstOfYear(d)) == DaysBeforeYear(d.year)
    ensures Instant(FirstOfYear(d)) <= Instant(d)
  {
    assert DaysBeforeMonth(d.year, d.month) >= 0;
  }

  /** 0001-01-01 is day 0 and every in-range date has a non-negative day number. */
  lemma {:induction false} DaysBeforeYearNonNegative(y: int)
    requires y >= 1
    ensures DaysBeforeYear(y) >= 0
    decreases y
  {
    if y > 1 {
      DaysBeforeYearNonNegative(y - 1);
    }
  }

  /** Year 0 and before lie at negative day numbers. */
  lemma {:induction false} DaysBeforeYearNegative(y: int)
    requires y <= 0
    ensures DaysBeforeYear(y) + DaysBeforeMonth(y, 12) + 31 <= 0
    decreases 1 - y
  {
    YearStep(y);
    if y < 0 {
      DaysBeforeYearNegative(y + 1);
      YearStep(y + 1);
    }
  }

  /** A well-formed value is at or after 0001-01-01 exactly when its year is positive. */
  lemma DayNumberSign(d: DateTime)
    requires d.WellFormed()
    ensures d.year >= 1 <==> DayNumber(d) >= 0
  {
    if d.year >= 1 {
      DaysBeforeYearNonNegative(d.year);
    } else {
      DaysBeforeYearNegative(d.year);
      assert DaysBeforeMonth(d.year, d.month) + d.day <= DaysBeforeMonth(d.year, 12) + 31;
    }
  }

  /** Going back in days never increases the year, going forward never decreases it. */
  lemma {:induction false} AddDaysYearBound(d: DateTime, n: int)
    requires d.WellFormed()
    ensures n <= 0 ==> AddDays(d, n).year <= d.year
    ensures n >= 0 ==> AddDays(d, n).year >= d.year
    decreases if n >= 0 then n else -n
  {
    if n > 0 {
      AddDaysYearBound(NextDay(d), n - 1);
    } else if n < 0 {
      AddDaysYearBound(PrevDay(d), n + 1);
    }
  }

  /** One day after `d`, as Python computes `d + timedelta(days=1)`. */
  lemma AddOneDay(d: DateTime)
    requires d.WellFormed()
    ensures AddDays(d, 1) == NextDay(d)
  {
  }

  /** Going back `-n` days from a value no later than year 9999 stays in Python's range
      exactly when it does not pass 0001-01-01; the clock and zone are kept. */
  lemma AddDaysBack(d: DateTime, n: int)
    requires d.WellFormed() && d.year <= MaxYear && n <= 0
    ensures AddDays(d, n).InRange() <==> DayNumber(d) + n >= 0
    ensures Instant(AddDays(d, n)) == Instant(d) + n * MicrosPerDay
    ensures DayNumber(AddDays(d, n)) == DayNumber(d) + n
    ensures AddDays(d, n).hour == d.hour && AddDays(d, n).minute == d.minute
    ensures AddDays(d, n).second == d.second && AddDays(d, n).microsecond == d.microsecond
    ensures AddDays(d, n).tz == d.tz
  {
    AddDaysShift(d, n);
    AddDaysKeepsClock(d, n);
    AddDaysYearBound(d, n);
    DayNumberSign(AddDays(d, n));
  }
}
