/** Proleptic Gregorian dates and calendar-day arithmetic. */
module Gregorian {

  datatype Date = Date(year: int, month: int, day: int)

  /** RFC 3339, Appendix C. */
  predicate Leap(year: int) { year % 4 == 0 && (year % 100 != 0 || year % 400 == 0) }

  function MonthLength(year: int, month: int): int {
    if month == 2 then (if Leap(year) then 29 else 28)
    else if month in {4, 6, 9, 11} then 30 else 31
  }

  predicate Valid(d: Date) { 1 <= d.month <= 12 && 1 <= d.day <= MonthLength(d.year, d.month) }

  /** The day after, carried by hand. */
  function NextDay(d: Date): Date {
    if d.day < MonthLength(d.year, d.month) then d.(day := d.day + 1)
    else if d.month < 12 then Date(d.year, d.month + 1, 1)
    else Date(d.year + 1, 1, 1)
  }

  // ------------------------------------------- days since 1970, both ways

  function YearDays(year: int): int { if Leap(year) then 366 else 365 }

  /** The day number of January 1, counted year by year from 1970. */
  function DayFromYear(y: int): int
    decreases if y < 1970 then 1970 - y else y - 1970
  {
    if y == 1970 then 0
    else if y > 1970 then DayFromYear(y - 1) + YearDays(y - 1)
    else DayFromYear(y + 1) - YearDays(y)
  }

  /** The closed formula of ECMA-262, section 21.4.1.3. */
  function DayFormula(y: int): int {
    365 * (y - 1970) + (y - 1969) / 4 - (y - 1901) / 100 + (y - 1601) / 400
  }

  lemma Quarter(y: int) ensures (y - 1968) / 4 - (y - 1969) / 4 == if y % 4 == 0 then 1 else 0 {}
  lemma Century(y: int) ensures (y - 1900) / 100 - (y - 1901) / 100 == if y % 100 == 0 then 1 else 0 {}
  lemma FourCenturies(y: int) ensures (y - 1600) / 400 - (y - 1601) / 400 == if y % 400 == 0 then 1 else 0 {}

  lemma HundredByFour(y: int) requires y % 100 == 0 ensures y % 4 == 0 {
    var q := y / 100;
    assert y == 4 * (25 * q);
  }

  lemma FourHundredByHundred(y: int) requires y % 400 == 0 ensures y % 100 == 0 {
    var q := y / 400;
    assert y == 100 * (4 * q);
  }

  lemma FormulaStep(y: int)
    ensures DayFormula(y + 1) - DayFormula(y) == YearDays(y)
  {
    Quarter(y);
    Century(y);
    FourCenturies(y);
    if y % 400 == 0 { FourHundredByHundred(y); }
    if y % 100 == 0 { HundredByFour(y); }
  }

  /** Counting year by year and the closed formula are the same number. */
  lemma {:induction false} DayFormulaCounts(y: int)
    ensures DayFromYear(y) == DayFormula(y)
    decreases if y < 1970 then 1970 - y else y - 1970
  {
    if y > 1970 {
      DayFormulaCounts(y - 1);
      FormulaStep(y - 1);
    } else if y < 1970 {
      DayFormulaCounts(y + 1);
      FormulaStep(y);
    }
  }

  function DaysBeforeMonth(year: int, month: int): int
    decreases month
  {
    if month <= 1 then 0 else DaysBeforeMonth(year, month - 1) + MonthLength(year, month - 1)
  }

  /** MakeDay: the day field may be any integer. */
  function DayNumber(d: Date): int {
    DayFromYear(d.year) + DaysBeforeMonth(d.year, d.month) + d.day - 1
  }

  lemma YearLength(y: int)
    ensures DayFromYear(y + 1) - DayFromYear(y) == YearDays(y)
  {
  }

  lemma {:induction false} YearsGrow(a: int, b: int)
    requires a <= b
    ensures DayFromYear(b) - DayFromYear(a) >= 365 * (b - a)
    decreases b - a
  {
    if a < b {
      YearsGrow(a, b - 1);
      YearLength(b - 1);
    }
  }

  lemma {:induction false} MonthsFit(y: int, m: int)
    requires 1 <= m <= 12
    ensures 0 <= DaysBeforeMonth(y, m)
    ensures DaysBeforeMonth(y, m) + MonthLength(y, m) <= YearDays(y)
    ensures m == 12 ==> DaysBeforeMonth(y, m) + MonthLength(y, m) == YearDays(y)
    decreases m
  {
    assert DaysBeforeMonth(y, 2) == 31;
    var feb := MonthLength(y, 2);
    assert DaysBeforeMonth(y, 3) == 31 + feb;
    assert DaysBeforeMonth(y, 4) == 62 + feb;
    assert DaysBeforeMonth(y, 5) == 92 + feb;
    assert DaysBeforeMonth(y, 6) == 123 + feb;
    assert DaysBeforeMonth(y, 7) == 153 + feb;
    assert DaysBeforeMonth(y, 8) == 184 + feb;
    assert DaysBeforeMonth(y, 9) == 215 + feb;
    assert DaysBeforeMonth(y, 10) == 245 + feb;
    assert DaysBeforeMonth(y, 11) == 276 + feb;
    assert DaysBeforeMonth(y, 12) == 306 + feb;
  }

  lemma {:induction false} MonthsGrow(y: int, a: int, b: int)
    requires 1 <= a < b <= 12
    ensures DaysBeforeMonth(y, a) + MonthLength(y, a) <= DaysBeforeMonth(y, b)
    decreases b
  {
  }

  /** The year a day falls in, searched upwards from one that starts no later. */
  function YearFrom(n: int, y: int): (r: int)
    requires DayFromYear(y) <= n
    ensures DayFromYear(r) <= n < DayFromYear(r + 1)
    decreases n - DayFromYear(y)
  {
    YearLength(y);
    if n < DayFromYear(y + 1) then y else YearFrom(n, y + 1)
  }

  function YearOf(n: int): (r: int)
    ensures DayFromYear(r) <= n < DayFromYear(r + 1)
  {
    if n >= 0 then YearFrom(n, 1970)
    else
      var years := (-n + 364) / 365;
      YearsGrow(1970 - years, 1970);
      YearFrom(n, 1970 - years)
  }

  lemma YearUnique(n: int, a: int, b: int)
    requires DayFromYear(a) <= n < DayFromYear(a + 1) && DayFromYear(b) <= n < DayFromYear(b + 1)
    ensures a == b
  {
    if a < b { YearsGrow(a + 1, b); }
    if b < a { YearsGrow(b + 1, a); }
  }

  function MonthFrom(year: int, dayOfYear: int, m: int): (r: int)
    requires 1 <= m <= 12 && DaysBeforeMonth(year, m) <= dayOfYear < YearDays(year)
    ensures 1 <= r <= 12 && DaysBeforeMonth(year, r) <= dayOfYear < DaysBeforeMonth(year, r) + MonthLength(year, r)
    decreases 12 - m
  {
    MonthsFit(year, m);
    if dayOfYear < DaysBeforeMonth(year, m) + MonthLength(year, m) then m else MonthFrom(year, dayOfYear, m + 1)
  }

  /** The date of a day number. */
  function DateOf(n: int): Date {
    var year := YearOf(n);
    YearLength(year);
    var dayOfYear := n - DayFromYear(year);
    var month := MonthFrom(year, dayOfYear, 1);
    Date(year, month, dayOfYear - DaysBeforeMonth(year, month) + 1)
  }

  lemma DayNumberOfDate(n: int)
    ensures Valid(DateOf(n)) && DayNumber(DateOf(n)) == n
  {
  }

  lemma MonthUnique(year: int, dayOfYear: int, a: int, b: int)
    requires 1 <= a <= 12 && 1 <= b <= 12
    requires DaysBeforeMonth(year, a) <= dayOfYear < DaysBeforeMonth(year, a) + MonthLength(year, a)
    requires DaysBeforeMonth(year, b) <= dayOfYear < DaysBeforeMonth(year, b) + MonthLength(year, b)
    ensures a == b
  {
    if a < b { MonthsGrow(year, a, b); }
    if b < a { MonthsGrow(year, b, a); }
  }

  lemma DateOfDayNumber(d: Date)
    requires Valid(d)
    ensures DateOf(DayNumber(d)) == d
  {
    var n := DayNumber(d);
    YearLength(d.year);
    MonthsFit(d.year, d.month);
    YearUnique(n, d.year, YearOf(n));
    var dayOfYear := n - DayFromYear(d.year);
    MonthUnique(d.year, dayOfYear, d.month, MonthFrom(d.year, dayOfYear, 1));
  }

  /** The formula counts days: stepping to the next day by hand adds one. */
  lemma NextDayCounts(d: Date)
    requires Valid(d)
    ensures Valid(NextDay(d)) && DayNumber(NextDay(d)) == DayNumber(d) + 1
  {
  }

  /** The calendar of a year: when each month starts, counted from January 1. */
  lemma MonthStarts(y: int)
    ensures var leap := if y % 4 == 0 && (y % 100 != 0 || y % 400 == 0) then 1 else 0;
            && DaysBeforeMonth(y, 1) == 0 && DaysBeforeMonth(y, 2) == 31 && DaysBeforeMonth(y, 3) == 59 + leap
            && DaysBeforeMonth(y, 4) == 90 + leap && DaysBeforeMonth(y, 5) == 120 + leap
            && DaysBeforeMonth(y, 6) == 151 + leap && DaysBeforeMonth(y, 7) == 181 + leap
            && DaysBeforeMonth(y, 8) == 212 + leap && DaysBeforeMonth(y, 9) == 243 + leap
            && DaysBeforeMonth(y, 10) == 273 + leap && DaysBeforeMonth(y, 11) == 304 + leap
            && DaysBeforeMonth(y, 12) == 334 + leap && MonthLength(y, 12) == 31
  {
    assert DaysBeforeMonth(y, 2) == 31;
    var feb := MonthLength(y, 2);
    assert DaysBeforeMonth(y, 3) == 31 + feb;
    assert DaysBeforeMonth(y, 4) == 62 + feb;
    assert DaysBeforeMonth(y, 5) == 92 + feb;
    assert DaysBeforeMonth(y, 6) == 123 + feb;
    assert DaysBeforeMonth(y, 7) == 153 + feb;
    assert DaysBeforeMonth(y, 8) == 184 + feb;
    assert DaysBeforeMonth(y, 9) == 215 + feb;
    assert DaysBeforeMonth(y, 10) == 245 + feb;
    assert DaysBeforeMonth(y, 11) == 276 + feb;
  }

  /** The day number of a date by ordinary arithmetic: January 1, 1970 is day 0, and leap
      days fall into the years divisible by 4, not by 100 unless by 400. */
  lemma DayNumberFormula(d: Date)
    requires Valid(d)
    ensures DayNumber(d) == 365 * (d.year - 1970) + (d.year - 1969) / 4 - (d.year - 1901) / 100 + (d.year - 1601) / 400
                            + DaysBeforeMonth(d.year, d.month) + d.day - 1
  {
    DayFormulaCounts(d.year);
  }

  // --------------------------------------------------------- shifting by days

  /** Date.UTC reads the years 0 to 99 as 1900 to 1999. */
  predicate TwoDigit(year: int) { 0 <= year <= 99 }

  /** shiftCivilDate, on the numbers it splits its argument into. */
  function Shift(d: Date, days: int): Date
    requires 1 <= d.month <= 12
  {
    DateOf(DayNumber(Date(if TwoDigit(d.year) then 1900 + d.year else d.year, d.month, d.day + days)))
  }

  lemma ShiftIs(d: Date, days: int)
    requires 1 <= d.month <= 12 && !TwoDigit(d.year)
    ensures Shift(d, days) == DateOf(DayNumber(d) + days)
  {
  }

  /** Shifting moves the day number by exactly the shift. */
  lemma ShiftMoves(d: Date, days: int)
    requires Valid(d) && !TwoDigit(d.year)
    ensures Valid(Shift(d, days)) && DayNumber(Shift(d, days)) == DayNumber(d) + days
  {
  }

  lemma YearNoEarlier(y: int, m: int, day: int)
    requires 1 <= m <= 12 && 1 <= day
    ensures DateOf(DayNumber(Date(y, m, day))).year >= y
  {
    MonthsFit(y, m);
    var r := YearOf(DayNumber(Date(y, m, day)));
    if r < y { YearsGrow(r + 1, y); }
  }

  /** Shifting by nothing is nothing, except for a two-digit year. */
  lemma ShiftZeroIff(d: Date)
    requires Valid(d)
    ensures Shift(d, 0) == d <==> !TwoDigit(d.year)
  {
    if TwoDigit(d.year) {
      YearNoEarlier(1900 + d.year, d.month, d.day);
    } else {
      ShiftIs(d, 0);
      DateOfDayNumber(d);
    }
  }

  /** The integers act on dates: one shift after another is the shift by the sum. */
  lemma ShiftComposes(d: Date, a: int, b: int)
    requires Valid(d) && !TwoDigit(d.year) && !TwoDigit(Shift(d, a).year)
    ensures Shift(Shift(d, a), b) == Shift(d, a + b)
  {
  }

  /** Tomorrow is the next date, yesterday the one it follows. */
  lemma ShiftOne(d: Date)
    requires Valid(d) && !TwoDigit(d.year)
    ensures Shift(d, 1) == NextDay(d)
    ensures NextDay(Shift(d, -1)) == d
  {
    NextDayCounts(d);
    ShiftIs(d, 1);
    DateOfDayNumber(NextDay(d));
    ShiftMoves(d, -1);
    NextDayCounts(Shift(d, -1));
    DateOfDayNumber(NextDay(Shift(d, -1)));
    DateOfDayNumber(d);
  }
}
