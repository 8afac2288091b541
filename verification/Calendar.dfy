/**
 The Gregorian calendar behind JavaScript dates: day numbers count days from 1 January
 1970, following sections 21.4.1.3 to 21.4.1.13 of ECMA-262.
 */
module Calendar {

  /** A year, a month from 0 to 11 and a day of the month from 1. */
  datatype Civil = Civil(year: int, month: int, day: int)

  // ----- years -----

  predicate Leap(y: int) {
    y % 4 == 0 && (y % 100 != 0 || y % 400 == 0)
  }

  function DaysInYear(y: int): int { if Leap(y) then 366 else 365 }

  /** The number of the first day of a year. */
  function DayFromYear(y: int): int {
    365 * (y - 1970) + (y - 1969) / 4 - (y - 1901) / 100 + (y - 1601) / 400
  }

  lemma MultipleOfFour(n: int)
    ensures 4 * n % 4 == 0
  {
  }

  lemma MultipleOfHundred(n: int)
    ensures 100 * n % 100 == 0
  {
  }

  lemma LeapRules(y: int)
    ensures y % 100 == 0 ==> y % 4 == 0
    ensures y % 400 == 0 ==> y % 100 == 0
  {
    MultipleOfFour(25 * (y / 100));
    MultipleOfHundred(4 * (y / 400));
  }

  lemma FourYearStep(y: int)
    ensures (y - 1968) / 4 == (y - 1969) / 4 + if y % 4 == 0 then 1 else 0
  {
  }

  lemma CenturyStep(y: int)
    ensures (y - 1900) / 100 == (y - 1901) / 100 + if y % 100 == 0 then 1 else 0
  {
  }

  lemma FourCenturyStep(y: int)
    ensures (y - 1600) / 400 == (y - 1601) / 400 + if y % 400 == 0 then 1 else 0
  {
  }

  lemma NextYear(y: int)
    ensures DayFromYear(y + 1) == DayFromYear(y) + DaysInYear(y)
  {
    FourYearStep(y);
    CenturyStep(y);
    FourCenturyStep(y);
    LeapRules(y);
  }

  lemma {:induction false} YearsGrow(x: int, y: int)
    requires x <= y
    ensures DayFromYear(x) + 365 * (y - x) <= DayFromYear(y)
    decreases y - x
  {
    if x < y {
      YearsGrow(x, y - 1);
      NextYear(y - 1);
    }
  }

  function Above(x: int): nat { if x > 0 then x else 0 }

  function YearDown(n: int, y: int): (r: int)
    requires n < DayFromYear(y + 1)
    ensures DayFromYear(r) <= n < DayFromYear(r + 1)
    decreases Above(DayFromYear(y) - n)
  {
    NextYear(y - 1);
    if n < DayFromYear(y) then YearDown(n, y - 1) else y
  }

  function YearUp(n: int, y: int): (r: int)
    requires DayFromYear(y) <= n
    ensures DayFromYear(r) <= n < DayFromYear(r + 1)
    decreases n - DayFromYear(y)
  {
    NextYear(y);
    if n >= DayFromYear(y + 1) then YearUp(n, y + 1) else y
  }

  /** The year a day number lies in, searched from 1970. */
  function YearOf(n: int): (r: int)
    ensures DayFromYear(r) <= n < DayFromYear(r + 1)
  {
    if n < 0 then YearDown(n, 1969) else YearUp(n, 1970)
  }

  lemma YearsDoNotOverlap(n: int, x: int, y: int)
    requires n < DayFromYear(x + 1) && DayFromYear(y) <= n
    ensures y <= x
  {
    if x < y {
      YearsGrow(x + 1, y);
    }
  }

  /** A day number lies in only one year. */
  lemma YearIsUnique(n: int, y: int)
    requires DayFromYear(y) <= n < DayFromYear(y + 1)
    ensures YearOf(n) == y
  {
    YearsDoNotOverlap(n, YearOf(n), y);
    YearsDoNotOverlap(n, y, YearOf(n));
  }

  // ----- months -----

  /** Days of the year before a month, in a year with or without a leap day. */
  function MonthStart(m: int, leap: bool): int
    requires 0 <= m <= 12
  {
    [0, 31, 59, 90, 120, 151, 181, 212, 243, 273, 304, 334, 365][m] + if leap && m >= 2 then 1 else 0
  }

  function MonthLength(y: int, m: int): int
    requires 0 <= m <= 11
  {
    if m == 1 then (if Leap(y) then 29 else 28)
    else if m in {3, 5, 8, 10} then 30
    else 31
  }

  lemma MonthFits(y: int, m: int)
    requires 0 <= m <= 11
    ensures MonthStart(m + 1, Leap(y)) == MonthStart(m, Leap(y)) + MonthLength(y, m)
  {
  }

  /** The month a day of the year lies in. */
  function MonthOf(d: int, leap: bool, m: int): (r: int)
    requires 0 <= m <= 11 && MonthStart(m, leap) <= d < if leap then 366 else 365
    ensures 0 <= r <= 11 && MonthStart(r, leap) <= d < MonthStart(r + 1, leap)
    decreases 12 - m
  {
    if d < MonthStart(m + 1, leap) then m else MonthOf(d, leap, m + 1)
  }

  lemma {:induction false} MonthStartsGrow(m: int, k: int, leap: bool)
    requires 0 <= m <= k <= 12
    ensures MonthStart(m, leap) <= MonthStart(k, leap)
    decreases k - m
  {
    if m < k {
      MonthStartsGrow(m, k - 1, leap);
    }
  }

  // ----- dates and day numbers -----

  /** A date that exists in the calendar. */
  predicate Real(c: Civil) {
    0 <= c.month <= 11 && 1 <= c.day <= MonthLength(c.year, c.month)
  }

  /** The day number of a month of a year and a day offset, both free to overflow: the month
      carries into the year, the day into the following months. */
  function MakeDay(year: int, month: int, day: int): int {
    var y, m := year + month / 12, month % 12;
    DayFromYear(y) + MonthStart(m, Leap(y)) + day - 1
  }

  lemma MonthWithoutCarry(year: int, month: int, day: int)
    requires 0 <= month <= 11
    ensures MakeDay(year, month, day) == DayFromYear(year) + MonthStart(month, Leap(year)) + day - 1
  {
    assert month / 12 == 0 && month % 12 == month;
  }

  /** The date of a day of a year. */
  function DateInYear(y: int, d: int): (c: Civil)
    requires 0 <= d < DaysInYear(y)
    ensures Real(c) && c.year == y
  {
    var m := MonthOf(d, Leap(y), 0);
    MonthFits(y, m);
    Civil(y, m, d - MonthStart(m, Leap(y)) + 1)
  }

  function ToCivil(n: int): (c: Civil)
    ensures Real(c) && c.year == YearOf(n)
  {
    NextYear(YearOf(n));
    DateInYear(YearOf(n), n - DayFromYear(YearOf(n)))
  }

  function ToDay(c: Civil): int { MakeDay(c.year, c.month, c.day) }

  /** Every day number names a real date, and that date has this number. */
  lemma DayToCivilAndBack(n: int)
    ensures Real(ToCivil(n)) && ToDay(ToCivil(n)) == n
  {
    var c := ToCivil(n);
    MonthWithoutCarry(c.year, c.month, c.day);
  }

  lemma MonthIsUnique(d: int, leap: bool, m: int)
    requires 0 <= m <= 11 && MonthStart(m, leap) <= d < MonthStart(m + 1, leap)
    ensures 0 <= d < if leap then 366 else 365
    ensures MonthOf(d, leap, 0) == m
  {
    MonthStartsGrow(0, m, leap);
    MonthStartsGrow(m + 1, 12, leap);
    var r := MonthOf(d, leap, 0);
    if r < m {
      MonthStartsGrow(r + 1, m, leap);
    } else if m < r {
      MonthStartsGrow(m + 1, r, leap);
    }
  }

  function DayInYear(c: Civil): int
    requires 0 <= c.month <= 11
  {
    MonthStart(c.month, Leap(c.year)) + c.day - 1
  }

  lemma DayInYearFits(c: Civil)
    requires Real(c)
    ensures MonthStart(c.month, Leap(c.year)) <= DayInYear(c) < MonthStart(c.month + 1, Leap(c.year))
    ensures 0 <= DayInYear(c) < DaysInYear(c.year)
    ensures ToDay(c) == DayFromYear(c.year) + DayInYear(c)
    ensures MonthOf(DayInYear(c), Leap(c.year), 0) == c.month
  {
    MonthFits(c.year, c.month);
    MonthIsUnique(DayInYear(c), Leap(c.year), c.month);
    MonthWithoutCarry(c.year, c.month, c.day);
  }

  lemma DateOfDayInYear(c: Civil)
    requires Real(c)
    ensures 0 <= DayInYear(c) < DaysInYear(c.year) && DateInYear(c.year, DayInYear(c)) == c
  {
    DayInYearFits(c);
  }

  lemma DayOfYearLiesInYear(n: int, y: int, d: int)
    requires n == DayFromYear(y) + d && 0 <= d < DaysInYear(y)
    ensures YearOf(n) == y
  {
    NextYear(y);
    YearIsUnique(n, y);
  }

  lemma DayLiesInItsYear(c: Civil)
    requires Real(c)
    ensures YearOf(ToDay(c)) == c.year
  {
    DayInYearFits(c);
    DayOfYearLiesInYear(ToDay(c), c.year, DayInYear(c));
  }

  /** Every real date is the date of its own day number. */
  lemma CivilToDayAndBack(c: Civil)
    requires Real(c)
    ensures ToCivil(ToDay(c)) == c
  {
    DayInYearFits(c);
    DayLiesInItsYear(c);
    DateOfDayInYear(c);
  }

  /** Calendar order. */
  predicate Before(a: Civil, b: Civil) {
    a.year < b.year || (a.year == b.year && (a.month < b.month || (a.month == b.month && a.day < b.day)))
  }

  lemma EarlierYearHasSmallerNumber(a: Civil, b: Civil)
    requires Real(a) && Real(b) && a.year < b.year
    ensures ToDay(a) < ToDay(b)
  {
    DayLiesInItsYear(a);
    DayLiesInItsYear(b);
    YearsGrow(a.year + 1, b.year);
  }

  lemma EarlierDayOfYear(a: Civil, b: Civil)
    requires Real(a) && Real(b) && a.year == b.year && Before(a, b)
    ensures DayInYear(a) < DayInYear(b)
  {
    if a.month < b.month {
      DayInYearFits(a);
      DayInYearFits(b);
      MonthStartsGrow(a.month + 1, b.month, Leap(a.year));
    }
  }

  lemma EarlierDateHasSmallerNumber(a: Civil, b: Civil)
    requires Real(a) && Real(b) && Before(a, b)
    ensures ToDay(a) < ToDay(b)
  {
    if a.year < b.year {
      EarlierYearHasSmallerNumber(a, b);
    } else {
      EarlierDayOfYear(a, b);
      DayInYearFits(a);
      DayInYearFits(b);
    }
  }

  /** Calendar order is the order of day numbers. */
  lemma OrderIsDayOrder(a: Civil, b: Civil)
    requires Real(a) && Real(b)
    ensures Before(a, b) <==> ToDay(a) < ToDay(b)
  {
    if Before(a, b) {
      EarlierDateHasSmallerNumber(a, b);
    } else if a != b {
      EarlierDateHasSmallerNumber(b, a);
    }
  }

  // ----- times -----

  type Time = int
  const DAY_MS := 86_400_000

  function DayOf(t: Time): int { t / DAY_MS }

  /** The years 0 to 99 stand for 1900 to 1999 (section 21.4.3.4 of ECMA-262). */
  function FullYear(year: int): int { if 0 <= year <= 99 then 1900 + year else year }

  /** `Date.UTC` of a year, a month from 0 and a day, at midnight. */
  function DateUTC(year: int, month: int, day: int): Time {
    MakeDay(FullYear(year), month, day) * DAY_MS
  }

  lemma MidnightDay(n: int)
    ensures DayOf(n * DAY_MS) == n
  {
  }
}
