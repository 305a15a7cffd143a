/** Python's `datetime.date` and its `weekday()` method.

    A civil date of the proleptic Gregorian calendar lies between years 1
    and 9999. `ToOrdinal` numbers the days from 0001-01-01 (day 1), as
    `date.toordinal()` does. A `Date` is a day given by that number, which
    is all the calendar needs to name its weekday: `Weekday` is
    `(ordinal + 6) % 7`, so that Monday is 0 and Sunday is 6. */
module PyDate {

  const MIN_YEAR := 1
  const MAX_YEAR := 9999
  /** `date.max.toordinal()`, the number of 9999-12-31. */
  const MAX_ORDINAL := 3652059

  datatype YearMonthDay = YMD(year: int, month: int, day: int)

  predicate IsLeap(year: int)
  {
    year % 4 == 0 && (year % 100 != 0 || year % 400 == 0)
  }

  function DaysInMonth(year: int, month: int): (n: int)
    requires 1 <= month <= 12
    ensures 28 <= n <= 31
    ensures month == 2 ==> (n == 29 <==> IsLeap(year))
  {
    if month == 2 then (if IsLeap(year) then 29 else 28)
    else if month == 4 || month == 6 || month == 9 || month == 11 then 30
    else 31
  }

  /** What the `date(year, month, day)` constructor accepts. */
  predicate Valid(d: YearMonthDay)
  {
    && MIN_YEAR <= d.year <= MAX_YEAR
    && 1 <= d.month <= 12
    && 1 <= d.day <= DaysInMonth(d.year, d.month)
  }

  type CivilDate = d: YearMonthDay | Valid(d) witness YMD(1, 1, 1)

  /** Days in the years before `year`. */
  function DaysBeforeYear(year: int): (n: int)
  {
    var y := year - 1;
    y * 365 + y / 4 - y / 100 + y / 400
  }

  /** Days in `year` before the first day of `month`. */
  function DaysBeforeMonth(year: int, month: int): (n: int)
    requires 1 <= month <= 12
  {
    [0, 31, 59, 90, 120, 151, 181, 212, 243, 273, 304, 334][month - 1]
    + (if month > 2 && IsLeap(year) then 1 else 0)
  }

  /** `date.toordinal()`: 0001-01-01 is day 1. */
  function ToOrdinal(d: CivilDate): (n: int)
    ensures n >= 1
  {
    DaysBeforeYear(d.year) + DaysBeforeMonth(d.year, d.month) + d.day
  }

  /** A day, by its ordinal. */
  datatype Day = Day(ordinal: int)

  type Date = d: Day | 1 <= d.ordinal <= MAX_ORDINAL witness Day(1)

  /** `date(year, month, day)`. */
  function FromCivil(c: CivilDate): (d: Date)
    ensures d.ordinal == ToOrdinal(c)
  {
    ToOrdinalBounded(c);
    Day(ToOrdinal(c))
  }

  /** `date.weekday()`: Monday is 0, Sunday is 6. */
  function Weekday(d: Date): (w: int)
    ensures 0 <= w <= 6
  {
    (d.ordinal + 6) % 7
  }

  /** The day after `d`; Python raises OverflowError after 9999-12-31. */
  function NextDay(d: CivilDate): (next: CivilDate)
    requires d != YMD(MAX_YEAR, 12, 31)
  {
    if d.day < DaysInMonth(d.year, d.month) then YMD(d.year, d.month, d.day + 1)
    else if d.month < 12 then YMD(d.year, d.month + 1, 1)
    else YMD(d.year + 1, 1, 1)
  }

  lemma DaysBeforeNextMonth(year: int, month: int)
    requires 1 <= month < 12
    ensures DaysBeforeMonth(year, month + 1) == DaysBeforeMonth(year, month) + DaysInMonth(year, month)
  {
  }

  /** How `n / k` grows from `n - 1` to `n`, for the divisors the calendar uses. */
  lemma DivStep(n: int)
    ensures n / 4 == (n - 1) / 4 + (if n % 4 == 0 then 1 else 0)
    ensures n / 100 == (n - 1) / 100 + (if n % 100 == 0 then 1 else 0)
    ensures n / 400 == (n - 1) / 400 + (if n % 400 == 0 then 1 else 0)
    ensures n % 400 == 0 ==> n % 100 == 0
    ensures n % 100 == 0 ==> n % 4 == 0
  {
  }

  /** A year has 366 days when it is a leap year and 365 otherwise. */
  lemma DaysBeforeNextYear(year: int)
    requires year >= 1
    ensures DaysBeforeYear(year + 1) == DaysBeforeYear(year) + (if IsLeap(year) then 366 else 365)
  {
    var y := year - 1;
    assert DaysBeforeYear(year + 1) == year * 365 + year / 4 - year / 100 + year / 400;
    assert DaysBeforeYear(year) == y * 365 + y / 4 - y / 100 + y / 400;
    DivStep(year);
  }

  /** Consecutive dates have consecutive ordinals. */
  lemma NextDayOrdinal(d: CivilDate)
    requires d != YMD(MAX_YEAR, 12, 31)
    ensures ToOrdinal(NextDay(d)) == ToOrdinal(d) + 1
  {
    if d.day == DaysInMonth(d.year, d.month) {
      if d.month < 12 {
        DaysBeforeNextMonth(d.year, d.month);
      } else {
        DaysBeforeNextYear(d.year);
        assert DaysBeforeMonth(d.year, 12) + DaysInMonth(d.year, 12) == if IsLeap(d.year) then 366 else 365;
      }
    }
  }

  /** Every civil date numbers a day between 1 and `MAX_ORDINAL`. */
  lemma ToOrdinalBounded(d: CivilDate)
    ensures ToOrdinal(d) <= MAX_ORDINAL
  {
    var y := d.year - 1;
    assert y / 4 - y / 100 + y / 400 <= 2424;
  }

  /** From one day to the next the weekday advances by one, modulo 7. */
  lemma WeekdaySucc(a: Date, b: Date)
    requires b.ordinal == a.ordinal + 1
    ensures Weekday(b) == (Weekday(a) + 1) % 7
  {
  }

  /** The weekday advances by one, modulo 7, from each civil date to the next. */
  lemma NextDayWeekday(d: CivilDate)
    requires d != YMD(MAX_YEAR, 12, 31)
    ensures Weekday(FromCivil(NextDay(d))) == (Weekday(FromCivil(d)) + 1) % 7
  {
    NextDayOrdinal(d);
    WeekdaySucc(FromCivil(d), FromCivil(NextDay(d)));
  }

  /** `date.min`, 0001-01-01, is day 1. */
  lemma FirstOrdinal()
    ensures ToOrdinal(YMD(MIN_YEAR, 1, 1)) == 1
  {
  }

  /** `date.max`, 9999-12-31, is day `MAX_ORDINAL`. */
  lemma LastOrdinal()
    ensures ToOrdinal(YMD(MAX_YEAR, 12, 31)) == MAX_ORDINAL
  {
  }

  /** 1 January 2024 was a Monday: `date(2024, 1, 1).toordinal()` is 738886. */
  lemma KnownWeekday()
    ensures ToOrdinal(YMD(2024, 1, 1)) == 738886
    ensures Weekday(FromCivil(YMD(2024, 1, 1))) == 0
  {
  }
}
