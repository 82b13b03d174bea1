/** The proleptic Gregorian calendar on day numbers, as the date library behind the
    recurrence engine sees it.  Day 0 is 0001-01-01, an ISO Monday. */
module Calendar {

  predicate IsLeap(year: int) {
    year % 4 == 0 && (year % 100 != 0 || year % 400 == 0)
  }

  function DaysInMonth(year: int, month: int): (n: int)
    requires 1 <= month <= 12
    ensures 28 <= n <= 31
  {
    if month == 2 then (if IsLeap(year) then 29 else 28)
    else if month in {4, 6, 9, 11} then 30
    else 31
  }

  /** Day number of 1 January. */
  function YearStart(year: int): int {
    365 * (year - 1) + (year - 1) / 4 - (year - 1) / 100 + (year - 1) / 400
  }

  function DaysBeforeMonth(year: int, month: int): (n: int)
    requires 1 <= month <= 12
    ensures 0 <= n <= 335
  {
    [0, 31, 59, 90, 120, 151, 181, 212, 243, 273, 304, 334][month - 1]
    + if month > 2 && IsLeap(year) then 1 else 0
  }

  /** Months are numbered 12 * year + (month - 1), so that months follow each other by 1. */
  function MonthIndex(year: int, month: int): int { 12 * year + month - 1 }

  function IndexYear(index: int): int { index / 12 }

  function IndexMonth(index: int): (m: int)
    ensures 1 <= m <= 12
  {
    index % 12 + 1
  }

  function MonthStart(index: int): int {
    YearStart(IndexYear(index)) + DaysBeforeMonth(IndexYear(index), IndexMonth(index))
  }

  function MonthLength(index: int): (n: int)
    ensures 28 <= n <= 31
  {
    DaysInMonth(IndexYear(index), IndexMonth(index))
  }

  function FromCivil(year: int, month: int, day: int): int
    requires 1 <= month <= 12
  {
    YearStart(year) + DaysBeforeMonth(year, month) + day - 1
  }

  /** ISO weekday: 1 is Monday, 7 is Sunday. */
  function DayOfWeek(date: int): (w: int)
    ensures 1 <= w <= 7
  {
    date % 7 + 1
  }

  /** The average Gregorian year has 146097 / 400 days; the estimate is off by at most one. */
  function YearOf(date: int): int {
    var guess := date * 400 / 146097 + 1;
    if date < YearStart(guess) then guess - 1
    else if date >= YearStart(guess + 1) then guess + 1
    else guess
  }

  function MonthOf(date: int): (m: int)
    ensures 1 <= m <= 12
  {
    var year := YearOf(date);
    var n := date - YearStart(year);
    if n < DaysBeforeMonth(year, 2) then 1
    else if n < DaysBeforeMonth(year, 3) then 2
    else if n < DaysBeforeMonth(year, 4) then 3
    else if n < DaysBeforeMonth(year, 5) then 4
    else if n < DaysBeforeMonth(year, 6) then 5
    else if n < DaysBeforeMonth(year, 7) then 6
    else if n < DaysBeforeMonth(year, 8) then 7
    else if n < DaysBeforeMonth(year, 9) then 8
    else if n < DaysBeforeMonth(year, 10) then 9
    else if n < DaysBeforeMonth(year, 11) then 10
    else if n < DaysBeforeMonth(year, 12) then 11
    else 12
  }

  /** The month that contains a date. */
  function IndexOf(date: int): int { MonthIndex(YearOf(date), MonthOf(date)) }

  function DayOfMonth(date: int): int { date - MonthStart(IndexOf(date)) + 1 }

  lemma DivStep(n: int, k: int)
    requires k in {4, 100, 400}
    ensures n / k == (n - 1) / k + if n % k == 0 then 1 else 0
  {
  }

  lemma MultipleOf(q: int, k: int, m: int)
    requires k in {4, 100} && m == k * q
    ensures m % k == 0
  {
  }

  lemma Centuries(n: int)
    ensures n % 400 == 0 ==> n % 100 == 0
    ensures n % 100 == 0 ==> n % 4 == 0
  {
    MultipleOf(4 * (n / 400), 100, 400 * (n / 400));
    MultipleOf(25 * (n / 100), 4, 100 * (n / 100));
  }

  lemma YearStartStep(year: int)
    ensures YearStart(year + 1) == YearStart(year) + if IsLeap(year) then 366 else 365
  {
    DivStep(year, 4);
    DivStep(year, 100);
    DivStep(year, 400);
    Centuries(year);
  }

  lemma YearOfBounds(date: int)
    ensures YearStart(YearOf(date)) <= date < YearStart(YearOf(date) + 1)
  {
    var guess := date * 400 / 146097 + 1;
    YearStartStep(guess);
    YearStartStep(guess - 1);
    YearStartStep(guess + 1);
  }

  lemma MonthStartStep(index: int)
    ensures MonthStart(index + 1) == MonthStart(index) + MonthLength(index)
  {
    YearStartStep(IndexYear(index));
    if IndexMonth(index) < 12 {
      assert IndexYear(index + 1) == IndexYear(index);
    } else {
      assert IndexYear(index + 1) == IndexYear(index) + 1;
      assert IndexMonth(index + 1) == 1;
    }
  }

  lemma {:induction false} MonthStartMonotone(a: int, b: int)
    requires a < b
    ensures MonthStart(a) + MonthLength(a) <= MonthStart(b)
    decreases b - a
  {
    hide MonthStart, MonthLength;
    MonthStartStep(a);
    if a + 1 < b {
      MonthStartMonotone(a + 1, b);
      assert MonthLength(a + 1) >= 28;
    }
  }

  /** Every date lies in the month that MonthOf and YearOf name. */
  lemma IndexOfBounds(date: int)
    ensures MonthStart(IndexOf(date)) <= date < MonthStart(IndexOf(date)) + MonthLength(IndexOf(date))
    ensures IndexYear(IndexOf(date)) == YearOf(date) && IndexMonth(IndexOf(date)) == MonthOf(date)
  {
    var year := YearOf(date);
    YearOfBounds(date);
    YearStartStep(year);
    hide YearStart, YearOf;
  }

  /** A date lies in no other month. */
  lemma IndexOfUnique(date: int, index: int)
    requires MonthStart(index) <= date < MonthStart(index) + MonthLength(index)
    ensures IndexOf(date) == index
  {
    var found := IndexOf(date);
    IndexOfBounds(date);
    if found < index {
      MonthStartMonotone(found, index);
    } else if index < found {
      MonthStartMonotone(index, found);
    }
  }

  /** The calendar is a bijection: a date is its own existing year, month and day ... */
  lemma CivilRoundTrip(date: int)
    ensures FromCivil(YearOf(date), MonthOf(date), DayOfMonth(date)) == date
    ensures 1 <= DayOfMonth(date) <= DaysInMonth(YearOf(date), MonthOf(date))
  {
    IndexOfBounds(date);
  }

  /** ... and every existing year, month and day names exactly one date. */
  lemma CivilUnique(year: int, month: int, day: int)
    requires 1 <= month <= 12 && 1 <= day <= DaysInMonth(year, month)
    ensures var date := FromCivil(year, month, day);
            YearOf(date) == year && MonthOf(date) == month && DayOfMonth(date) == day
  {
    var date := FromCivil(year, month, day);
    var index := MonthIndex(year, month);
    assert IndexYear(index) == year && IndexMonth(index) == month;
    IndexOfUnique(date, index);
    IndexOfBounds(date);
  }

  predicate FallsOn(year: int, month: int, day: int, weekday: int) {
    1 <= month <= 12 && DayOfWeek(FromCivil(year, month, day)) == weekday
  }

  lemma Falls(year: int, month: int, day: int, start: int, before: int)
    requires 1 <= month <= 12 && YearStart(year) == start && DaysBeforeMonth(year, month) == before
    ensures FallsOn(year, month, day, (start + before + day - 1) % 7 + 1)
  {
    hide YearStart, DaysBeforeMonth;
  }

  lemma KnownYears()
    ensures YearStart(1900) == 693595 && YearStart(1970) == 719162 && YearStart(2000) == 730119
    ensures YearStart(2023) == 738520 && YearStart(2024) == 738885
    ensures !IsLeap(1900) && IsLeap(2000) && !IsLeap(2023) && IsLeap(2024) && !IsLeap(1970)
  {
  }

  lemma KnownMonths(year: int)
    ensures DaysBeforeMonth(year, 1) == 0 && DaysBeforeMonth(year, 2) == 31
    ensures !IsLeap(year) ==> forall m :: 3 <= m <= 12 ==> DaysBeforeMonth(year, m) == [59, 90, 120, 151, 181, 212, 243, 273, 304, 334][m - 3]
    ensures IsLeap(year) ==> DaysBeforeMonth(year, 3) == 60
  {
    hide IsLeap;
  }

  /** Dates whose weekday is well known, in every month and around the leap days of 1900, 2000 and 2024. */
  lemma KnownDates()
    ensures FallsOn(2023, 1, 1, 7) && FallsOn(2023, 2, 1, 3) && FallsOn(2023, 3, 1, 3)
    ensures FallsOn(2023, 4, 1, 6) && FallsOn(2023, 5, 1, 1) && FallsOn(2023, 6, 1, 4)
    ensures FallsOn(2023, 7, 1, 6) && FallsOn(2023, 8, 1, 2) && FallsOn(2023, 9, 1, 5)
    ensures FallsOn(2023, 10, 1, 7) && FallsOn(2023, 11, 1, 3) && FallsOn(2023, 12, 1, 5)
    ensures FallsOn(2024, 1, 1, 1) && FallsOn(2024, 2, 29, 4) && FallsOn(2024, 3, 1, 5)
    ensures FallsOn(2000, 2, 29, 2) && FallsOn(1900, 3, 1, 4) && FallsOn(1970, 1, 1, 4)
  {
    hide FallsOn, YearStart, DaysBeforeMonth, IsLeap;
    KnownYears();
    KnownMonths(2023);
    KnownMonths(2024);
    KnownMonths(2000);
    KnownMonths(1900);
    KnownMonths(1970);
    Falls(2023, 1, 1, 738520, 0);
    Falls(2023, 2, 1, 738520, 31);
    Falls(2023, 3, 1, 738520, 59);
    Falls(2023, 4, 1, 738520, 90);
    Falls(2023, 5, 1, 738520, 120);
    Falls(2023, 6, 1, 738520, 151);
    Falls(2023, 7, 1, 738520, 181);
    Falls(2023, 8, 1, 738520, 212);
    Falls(2023, 9, 1, 738520, 243);
    Falls(2023, 10, 1, 738520, 273);
    Falls(2023, 11, 1, 738520, 304);
    Falls(2023, 12, 1, 738520, 334);
    Falls(2024, 1, 1, 738885, 0);
    Falls(2024, 2, 29, 738885, 31);
    Falls(2024, 3, 1, 738885, 60);
    Falls(2000, 2, 29, 730119, 31);
    Falls(1900, 3, 1, 693595, 59);
    Falls(1970, 1, 1, 719162, 0);
  }
}
