/** The part of System.DateTime that the registration rules read: the calendar
    date (proleptic Gregorian, years 1 to 9999), its year and its ordinal day of
    the year. The time of day is kept so that a timestamp such as CriadoEm has a
    place to live; neither Year nor DayOfYear depends on it. */
module Calendar {

  /** Ticks (units of 100 ns) in one day, as System.TimeSpan counts them. */
  const TicksPerDay: int := 864_000_000_000

  datatype Instant = Instant(year: int, month: int, day: int, ticks: int)

  /** The Gregorian leap rule: every fourth year, except centuries not divisible by 400. */
  predicate IsLeapYear(y: int) {
    y % 4 == 0 && (y % 100 != 0 || y % 400 == 0)
  }

  function DaysInYear(y: int): (n: int)
    ensures n == 365 || n == 366
    ensures n == 366 <==> IsLeapYear(y)
  {
    if IsLeapYear(y) then 366 else 365
  }

  function DaysInMonth(y: int, m: int): (n: int)
    requires 1 <= m <= 12
    ensures 28 <= n <= 31
    ensures m == 2 ==> (n == 29 <==> IsLeapYear(y))
  {
    if m == 2 then (if IsLeapYear(y) then 29 else 28)
    else if m == 4 || m == 6 || m == 9 || m == 11 then 30
    else 31
  }

  /** What the DateTime constructor accepts; anything else makes it throw. */
  predicate IsValid(i: Instant) {
    1 <= i.year <= 9999 && 1 <= i.month <= 12 &&
    1 <= i.day <= DaysInMonth(i.year, i.month) &&
    0 <= i.ticks < TicksPerDay
  }

  type DateTime = i: Instant | IsValid(i) witness Instant(1, 1, 1, 0)

  /** A date at midnight, as `new DateTime(y, m, d)` builds it. */
  function Date(y: int, m: int, d: int): (t: DateTime)
    requires 1 <= y <= 9999 && 1 <= m <= 12 && 1 <= d <= DaysInMonth(y, m)
    ensures t.year == y && t.month == m && t.day == d && t.ticks == 0
  {
    Instant(y, m, d, 0)
  }

  /** The number of days of year y that lie in the months before month m. */
  function DaysBeforeMonth(y: int, m: int): nat
    requires 1 <= m <= 13
  {
    if m == 1 then 0 else DaysBeforeMonth(y, m - 1) + DaysInMonth(y, m - 1)
  }

  /** Every day of the months before m2 that is not before m1 lies in a whole month. */
  lemma {:induction false} DaysBeforeMonthGrows(y: int, m1: int, m2: int)
    requires 1 <= m1 < m2 <= 13
    ensures DaysBeforeMonth(y, m1) + DaysInMonth(y, m1) <= DaysBeforeMonth(y, m2)
  {
    if m2 > m1 + 1 {
      DaysBeforeMonthGrows(y, m1, m2 - 1);
    }
  }

  /** The twelve months fill the year exactly. */
  lemma DaysBeforeMonthYear(y: int)
    ensures DaysBeforeMonth(y, 13) == DaysInYear(y)
  {
    assert DaysBeforeMonth(y, 2) == 31;
    assert DaysBeforeMonth(y, 3) == 59 + (if IsLeapYear(y) then 1 else 0);
    assert DaysBeforeMonth(y, 4) == 90 + (if IsLeapYear(y) then 1 else 0);
    assert DaysBeforeMonth(y, 5) == 120 + (if IsLeapYear(y) then 1 else 0);
    assert DaysBeforeMonth(y, 6) == 151 + (if IsLeapYear(y) then 1 else 0);
    assert DaysBeforeMonth(y, 7) == 181 + (if IsLeapYear(y) then 1 else 0);
    assert DaysBeforeMonth(y, 8) == 212 + (if IsLeapYear(y) then 1 else 0);
    assert DaysBeforeMonth(y, 9) == 243 + (if IsLeapYear(y) then 1 else 0);
    assert DaysBeforeMonth(y, 10) == 273 + (if IsLeapYear(y) then 1 else 0);
    assert DaysBeforeMonth(y, 11) == 304 + (if IsLeapYear(y) then 1 else 0);
    assert DaysBeforeMonth(y, 12) == 334 + (if IsLeapYear(y) then 1 else 0);
    assert DaysBeforeMonth(y, 13) == 365 + (if IsLeapYear(y) then 1 else 0);
  }

  /** Two years with the same leap status have the same month lengths before m. */
  lemma {:induction false} DaysBeforeMonthLeapOnly(y1: int, y2: int, m: int)
    requires 1 <= m <= 13
    requires IsLeapYear(y1) == IsLeapYear(y2)
    ensures DaysBeforeMonth(y1, m) == DaysBeforeMonth(y2, m)
  {
    if m > 1 {
      DaysBeforeMonthLeapOnly(y1, y2, m - 1);
    }
  }

  /** DateTime.DayOfYear: 1 on the first of January, up to 365 or 366. */
  function DayOfYear(t: DateTime): (n: int)
    ensures 1 <= n <= DaysInYear(t.year)
  {
    DaysBeforeMonthGrows(t.year, t.month, 13);
    DaysBeforeMonthYear(t.year);
    DaysBeforeMonth(t.year, t.month) + t.day
  }

  /** (month, day) of a strictly precedes (month, day) of b. */
  predicate MonthDayBefore(a: DateTime, b: DateTime) {
    a.month < b.month || (a.month == b.month && a.day < b.day)
  }

  /** Within years of the same leap status, ordinal days are ordered as the
      calendar orders month and day. */
  lemma DayOfYearOrder(a: DateTime, b: DateTime)
    requires IsLeapYear(a.year) == IsLeapYear(b.year)
    ensures DayOfYear(a) < DayOfYear(b) <==> MonthDayBefore(a, b)
  {
    DaysBeforeMonthLeapOnly(a.year, b.year, a.month);
    DaysBeforeMonthLeapOnly(a.year, b.year, b.month);
    if a.month < b.month {
      DaysBeforeMonthGrows(a.year, a.month, b.month);
    } else if b.month < a.month {
      DaysBeforeMonthGrows(a.year, b.month, a.month);
    }
  }

  /** a falls on the same day as b or on an earlier one (time of day aside). */
  predicate OnOrBefore(a: DateTime, b: DateTime) {
    a.year < b.year || (a.year == b.year && !MonthDayBefore(b, a))
  }

  /** The ordinal of (month, day) in a common year (year 1 is one); 29
      February shares day 60 with 1 March. */
  function CommonDayOfYear(t: DateTime): int {
    DaysBeforeMonth(1, t.month) + t.day
  }

  /** A leap year has one day more before every month from March on. */
  lemma {:induction false} DaysBeforeMonthLeapShift(y: int, m: int)
    requires 1 <= m <= 13
    ensures DaysBeforeMonth(y, m) ==
      DaysBeforeMonth(1, m) + (if IsLeapYear(y) && m >= 3 then 1 else 0)
  {
    if m > 1 {
      DaysBeforeMonthLeapShift(y, m - 1);
    }
  }

  /** DayOfYear is the common-year ordinal, plus one from March on in a leap year. */
  lemma DayOfYearShift(t: DateTime)
    ensures DayOfYear(t) ==
      CommonDayOfYear(t) + (if IsLeapYear(t.year) && t.month >= 3 then 1 else 0)
  {
    DaysBeforeMonthLeapShift(t.year, t.month);
  }

  /** An earlier (month, day) never has a larger common-year ordinal. */
  lemma CommonDayOfYearOrder(a: DateTime, b: DateTime)
    requires MonthDayBefore(a, b)
    ensures CommonDayOfYear(a) <= CommonDayOfYear(b)
  {
    if a.month < b.month {
      DaysBeforeMonthGrows(1, a.month, b.month);
      assert a.day <= DaysInMonth(1, a.month) + 1;
    }
  }

  /** The first of March is day 61 in a leap year and day 60 otherwise. */
  lemma FirstOfMarch(y: int)
    requires 1 <= y <= 9999
    ensures DayOfYear(Date(y, 3, 1)) == if IsLeapYear(y) then 61 else 60
  {
    assert DaysBeforeMonth(y, 2) == 31;
  }
}
