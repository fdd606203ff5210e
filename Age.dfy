/** Age in whole years as the person tests' CalculaIdade and the Idade getter
    of Pessoa compute it: the difference of the calendar years, one less when
    today's ordinal day of the year comes before that of the birth date. The
    clock is an explicit `now` parameter. */
module Age {
  import opened Calendar

  /** The age the getter and CalculaIdade return at instant `now`. */
  function AgeAt(dataNascimento: DateTime, now: DateTime): (idade: int)
    ensures now.year - dataNascimento.year - 1 <= idade <= now.year - dataNascimento.year
    ensures idade == now.year - dataNascimento.year <==>
      DayOfYear(dataNascimento) <= DayOfYear(now)
  {
    var idade := now.year - dataNascimento.year;
    if DayOfYear(now) < DayOfYear(dataNascimento) then idade - 1 else idade
  }

  /** CalculaIdade of the person tests, statement by statement. */
  method CalculaIdade(dataNascimento: DateTime, now: DateTime) returns (idade: int)
    ensures idade == AgeAt(dataNascimento, now)
  {
    idade := now.year - dataNascimento.year;
    if DayOfYear(now) < DayOfYear(dataNascimento) {
      idade := idade - 1;
    }
  }

  /** Age as the calendar counts it: one year more on each birthday, compared
      by month and day. This is the reference the ordinal-day rule is judged by. */
  function CalendarAge(dataNascimento: DateTime, now: DateTime): int {
    now.year - dataNascimento.year - (if MonthDayBefore(now, dataNascimento) then 1 else 0)
  }

  /** When the birth year and the current year are both leap years or both
      common years, the ordinal-day rule gives the calendar age. */
  lemma AgeAgreesWithCalendarAge(dataNascimento: DateTime, now: DateTime)
    requires IsLeapYear(dataNascimento.year) == IsLeapYear(now.year)
    ensures AgeAt(dataNascimento, now) == CalendarAge(dataNascimento, now)
  {
    DayOfYearOrder(now, dataNascimento);
  }

  /** In general the two ages differ by at most one year, and only when
      today's (month, day) is the birthday or the day before it, counted in a
      common year. */
  lemma AgeNearCalendarAge(dataNascimento: DateTime, now: DateTime)
    ensures -1 <= AgeAt(dataNascimento, now) - CalendarAge(dataNascimento, now) <= 1
    ensures AgeAt(dataNascimento, now) == CalendarAge(dataNascimento, now) ||
      CommonDayOfYear(dataNascimento) - 1 <= CommonDayOfYear(now) <= CommonDayOfYear(dataNascimento)
  {
    DayOfYearShift(dataNascimento);
    DayOfYearShift(now);
    if MonthDayBefore(now, dataNascimento) {
      CommonDayOfYearOrder(now, dataNascimento);
    }
    if MonthDayBefore(dataNascimento, now) {
      CommonDayOfYearOrder(dataNascimento, now);
    }
  }

  /** Born in a common year, one's age by the rule is the full year difference
      on every birthday. */
  lemma CommonYearBirthday(dataNascimento: DateTime, now: DateTime)
    requires !IsLeapYear(dataNascimento.year)
    requires now.month == dataNascimento.month && now.day == dataNascimento.day
    ensures AgeAt(dataNascimento, now) == now.year - dataNascimento.year
  {
    DayOfYearShift(dataNascimento);
    DayOfYearShift(now);
  }

  /** Born on 1 March 2000 (a leap year), the rule still gives 0 on 1 March
      2001, the first birthday: day 60 of 2001 comes before day 61 of 2000. */
  lemma LateAfterLeapBirth()
    ensures AgeAt(Date(2000, 3, 1), Date(2001, 3, 1)) == 0
    ensures CalendarAge(Date(2000, 3, 1), Date(2001, 3, 1)) == 1
  {
    FirstOfMarch(2000);
    FirstOfMarch(2001);
  }

  /** Born on 1 March 2001, the rule already gives 3 on 29 February 2004, the
      day before the third birthday: both are day 60 of their year. */
  lemma EarlyInLeapYear()
    ensures AgeAt(Date(2001, 3, 1), Date(2004, 2, 29)) == 3
    ensures CalendarAge(Date(2001, 3, 1), Date(2004, 2, 29)) == 2
  {
    FirstOfMarch(2001);
    assert DaysBeforeMonth(2004, 2) == 31;
  }

  /** Nobody has a negative age from the day of birth on. */
  lemma AgeNonNegative(dataNascimento: DateTime, now: DateTime)
    requires OnOrBefore(dataNascimento, now)
    ensures AgeAt(dataNascimento, now) >= 0
  {
    if now.year == dataNascimento.year {
      DayOfYearOrder(now, dataNascimento);
    }
  }

  /** The age never decreases as time goes on. */
  lemma AgeMonotone(dataNascimento: DateTime, now1: DateTime, now2: DateTime)
    requires OnOrBefore(now1, now2)
    ensures AgeAt(dataNascimento, now1) <= AgeAt(dataNascimento, now2)
  {
    if now1.year == now2.year {
      DayOfYearOrder(now2, now1);
    }
  }

  /** The adult birth dates of the person tests give ages above 18 from 2022 on. */
  lemma AdultFixtures(now: DateTime)
    requires now.year >= 2022
    ensures AgeAt(Date(1997, 12, 2), now) > 18
    ensures AgeAt(Date(1996, 2, 11), now) > 18
    ensures AgeAt(Date(2002, 2, 12), now) > 18
    ensures AgeAt(Date(2000, 3, 17), now) > 18
    ensures AgeAt(Date(1980, 11, 11), now) > 18
  {
  }

  /** The minor birth dates of the person tests give ages below 18 up to the end of 2021. */
  lemma MinorFixtures(now: DateTime)
    requires now.year <= 2021
    ensures AgeAt(Date(2010, 5, 28), now) < 18
    ensures AgeAt(Date(2004, 1, 31), now) < 18
    ensures AgeAt(Date(2005, 11, 5), now) < 18
    ensures AgeAt(Date(2006, 10, 15), now) < 18
    ensures AgeAt(Date(2007, 3, 14), now) < 18
  {
  }
}
