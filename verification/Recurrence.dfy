/** Occurrences of a lighting schedule: dates enumerated per recurrence kind and turned into
    real-time intervals through a time zone. */
module Recurrence {
  import opened Calendar
  import opened Options

  datatype Kind = Once | Daily | Weekly | Monthly | Yearly

  datatype Rule = Rule(
    kind: Kind,
    weeklyDays: seq<int>,
    monthlyDay: Option<int>,
    yearlyMonth: Option<int>,
    yearlyDay: Option<int>
  )

  /** The recurrence schema's constraints that the enumeration relies on. */
  predicate ValidRule(rule: Rule) {
    && (forall i, j :: 0 <= i < j < |rule.weeklyDays| ==> rule.weeklyDays[i] != rule.weeklyDays[j])
    && (forall w :: w in rule.weeklyDays ==> 1 <= w <= 7)
    && (rule.monthlyDay.Some? ==> 1 <= rule.monthlyDay.value <= 31)
    && (rule.yearlyMonth.Some? ==> 1 <= rule.yearlyMonth.value <= 12)
    && (rule.yearlyDay.Some? ==> 1 <= rule.yearlyDay.value <= 31)
  }

  /** What the recurrence means, date by date. */
  predicate Matches(rule: Rule, activeFrom: int, date: int) {
    match rule.kind
    case Once => date == activeFrom
    case Daily => true
    case Weekly => DayOfWeek(date) in rule.weeklyDays
    case Monthly => rule.monthlyDay == Some(DayOfMonth(date))
    case Yearly => rule.yearlyMonth == Some(MonthOf(date)) && rule.yearlyDay == Some(DayOfMonth(date))
  }

  predicate Ascending(s: seq<int>) {
    forall i, j :: 0 <= i < j < |s| ==> s[i] < s[j]
  }

  /** s lists, in order and once each, the matching dates of first..last that are below bound. */
  ghost predicate ListedBelow(s: seq<int>, rule: Rule, activeFrom: int, first: int, last: int, bound: int) {
    && Ascending(s)
    && forall d :: d in s <==> first <= d <= last && d < bound && Matches(rule, activeFrom, d)
  }

  lemma ListedEmpty(rule: Rule, activeFrom: int, first: int, last: int, bound: int)
    requires bound <= first || last < first
    ensures ListedBelow([], rule, activeFrom, first, last, bound)
  {
  }

  lemma ListedAll(s: seq<int>, rule: Rule, activeFrom: int, first: int, last: int, bound: int)
    requires ListedBelow(s, rule, activeFrom, first, last, bound)
    requires last < bound || last < first
    ensures ListedBelow(s, rule, activeFrom, first, last, last + 1)
  {
  }

  /** A block of days bound..next that holds at most one match, namely hit. */
  lemma ListedStep(s: seq<int>, rule: Rule, activeFrom: int, first: int, last: int, bound: int, next: int, hit: Option<int>)
    requires bound <= next && ListedBelow(s, rule, activeFrom, first, last, bound)
    requires hit.Some? ==> bound <= hit.value < next
    requires forall d :: bound <= d < next ==> (Matches(rule, activeFrom, d) <==> hit == Some(d))
    ensures var s' := if hit.Some? && first <= hit.value <= last then s + [hit.value] else s;
            ListedBelow(s', rule, activeFrom, first, last, next)
  {
    if hit.Some? {
      forall i | 0 <= i < |s| ensures s[i] < hit.value {
        assert s[i] in s;
      }
    }
  }

  lemma AscendingPrefix(s: seq<int>, n: nat)
    requires Ascending(s) && n < |s|
    ensures forall x :: x in s[..n] ==> x < s[n]
  {
  }

  /** The weekdays in increasing order, as the source's numeric sort leaves them. */
  function SortedDays(days: seq<int>): seq<int> {
    if days == [] then [] else InsertDay(days[0], SortedDays(days[1..]))
  }

  function InsertDay(day: int, sorted: seq<int>): seq<int> {
    if sorted == [] || day <= sorted[0] then [day] + sorted
    else [sorted[0]] + InsertDay(day, sorted[1..])
  }

  lemma {:induction false} InsertDaySorts(day: int, sorted: seq<int>)
    requires Ascending(sorted) && day !in sorted
    ensures Ascending(InsertDay(day, sorted))
    ensures forall w :: w in InsertDay(day, sorted) <==> w == day || w in sorted
  {
    if sorted != [] && day > sorted[0] {
      var rest := InsertDay(day, sorted[1..]);
      InsertDaySorts(day, sorted[1..]);
      assert sorted == [sorted[0]] + sorted[1..];
      forall j | 0 <= j < |rest| ensures sorted[0] < rest[j] {
        assert rest[j] in rest;
      }
    }
  }

  lemma {:induction false} SortedDaysSorts(days: seq<int>)
    requires forall i, j :: 0 <= i < j < |days| ==> days[i] != days[j]
    ensures Ascending(SortedDays(days))
    ensures forall w :: w in SortedDays(days) <==> w in days
  {
    if days != [] {
      assert days == [days[0]] + days[1..];
      SortedDaysSorts(days[1..]);
      InsertDaySorts(days[0], SortedDays(days[1..]));
    }
  }

  /** The listing while the week that starts at weekStart is under way: weekdays in done are handled. */
  ghost predicate WeekListed(s: seq<int>, rule: Rule, activeFrom: int, first: int, last: int, weekStart: int, done: seq<int>) {
    && Ascending(s)
    && forall d :: d in s <==>
         && first <= d <= last && Matches(rule, activeFrom, d)
         && (d < weekStart || (d < weekStart + 7 && DayOfWeek(d) in done))
  }

  lemma WeekdayStep(s: seq<int>, rule: Rule, activeFrom: int, first: int, last: int, weekStart: int, done: seq<int>, day: int)
    requires rule.kind == Weekly && weekStart % 7 == 0
    requires WeekListed(s, rule, activeFrom, first, last, weekStart, done)
    requires day in rule.weeklyDays && 1 <= day <= 7 && forall w :: w in done ==> w < day
    ensures var date := weekStart + (day - 1);
            var s' := if first <= date <= last then s + [date] else s;
            WeekListed(s', rule, activeFrom, first, last, weekStart, done + [day])
  {
    var date := weekStart + (day - 1);
    assert DayOfWeek(date) == day;
    forall d | weekStart <= d < weekStart + 7 ensures DayOfWeek(d) == d - weekStart + 1 {
    }
    forall i | 0 <= i < |s| ensures s[i] < date {
      assert s[i] in s;
    }
  }

  lemma WeekOpens(s: seq<int>, rule: Rule, activeFrom: int, first: int, last: int, weekStart: int)
    requires ListedBelow(s, rule, activeFrom, first, last, weekStart)
    ensures WeekListed(s, rule, activeFrom, first, last, weekStart, [])
  {
  }

  lemma WeekCloses(s: seq<int>, rule: Rule, activeFrom: int, first: int, last: int, weekStart: int, done: seq<int>)
    requires rule.kind == Weekly && WeekListed(s, rule, activeFrom, first, last, weekStart, done)
    requires forall w :: w in done <==> w in rule.weeklyDays
    ensures ListedBelow(s, rule, activeFrom, first, last, weekStart + 7)
  {
  }

  lemma Monday(date: int)
    ensures (date - (DayOfWeek(date) - 1)) % 7 == 0
  {
  }

  method WeeklyDates(rule: Rule, first: int, last: int, activeFrom: int) returns (dates: seq<int>)
    requires ValidRule(rule) && rule.kind == Weekly
    ensures ListedBelow(dates, rule, activeFrom, first, last, last + 1)
  {
    hide WeekListed, ListedBelow, DayOfWeek, Matches, Ascending, SortedDays;
    var weekdays := SortedDays(rule.weeklyDays);
    SortedDaysSorts(rule.weeklyDays);
    var weekStart := first - (DayOfWeek(first) - 1);
    Monday(first);
    dates := [];
    ListedEmpty(rule, activeFrom, first, last, weekStart);
    while weekStart <= last
      invariant weekStart % 7 == 0
      invariant ListedBelow(dates, rule, activeFrom, first, last, weekStart)
      decreases last - weekStart
    {
      WeekOpens(dates, rule, activeFrom, first, last, weekStart);
      assert weekdays[..0] == [];
      for i := 0 to |weekdays|
        invariant WeekListed(dates, rule, activeFrom, first, last, weekStart, weekdays[..i])
      {
        assert weekdays[i] in weekdays && weekdays[..i + 1] == weekdays[..i] + [weekdays[i]];
        AscendingPrefix(weekdays, i);
        WeekdayStep(dates, rule, activeFrom, first, last, weekStart, weekdays[..i], weekdays[i]);
        var date := weekStart + (weekdays[i] - 1);
        if first <= date <= last {
          dates := dates + [date];
        }
      }
      assert weekdays[..|weekdays|] == weekdays;
      WeekCloses(dates, rule, activeFrom, first, last, weekStart, weekdays);
      weekStart := weekStart + 7;
    }
    ListedAll(dates, rule, activeFrom, first, last, weekStart);
  }

  /** The day that a monthly rule names in a month, if the month is long enough. */
  function MonthlyHit(rule: Rule, month: int): Option<int>
    requires rule.monthlyDay.Some?
  {
    if rule.monthlyDay.value <= MonthLength(month) then Some(MonthStart(month) + rule.monthlyDay.value - 1) else None
  }

  lemma MonthlyHitMeans(rule: Rule, activeFrom: int, month: int)
    requires ValidRule(rule) && rule.kind == Monthly && rule.monthlyDay.Some?
    ensures MonthStart(month) <= MonthStart(month + 1)
    ensures var hit := MonthlyHit(rule, month); hit.Some? ==> MonthStart(month) <= hit.value < MonthStart(month + 1)
    ensures forall d :: MonthStart(month) <= d < MonthStart(month + 1) ==>
              (Matches(rule, activeFrom, d) <==> MonthlyHit(rule, month) == Some(d))
  {
    hide MonthStart, MonthLength, IndexOf;
    MonthStartStep(month);
    forall d | MonthStart(month) <= d < MonthStart(month + 1)
      ensures Matches(rule, activeFrom, d) <==> MonthlyHit(rule, month) == Some(d)
    {
      IndexOfUnique(d, month);
    }
  }

  method MonthlyDates(rule: Rule, first: int, last: int, activeFrom: int) returns (dates: seq<int>)
    requires ValidRule(rule) && rule.kind == Monthly
    ensures ListedBelow(dates, rule, activeFrom, first, last, last + 1)
  {
    hide MonthStart, IndexOf, ListedBelow, Matches;
    dates := [];
    if rule.monthlyDay == None {
      NullListed(rule, activeFrom, first, last);
      return;
    }
    var month, lastMonth := IndexOf(first), IndexOf(last);
    IndexOfBounds(first);
    EmptyRange(first, last);
    ListedEmpty(rule, activeFrom, first, last, MonthStart(month));
    while month <= lastMonth
      invariant ListedBelow(dates, rule, activeFrom, first, last, MonthStart(month))
      invariant month <= lastMonth || last < MonthStart(month) || last < first
      decreases lastMonth - month
    {
      MonthlyHitMeans(rule, activeFrom, month);
      ListedStep(dates, rule, activeFrom, first, last, MonthStart(month), MonthStart(month + 1), MonthlyHit(rule, month));
      if rule.monthlyDay.value <= MonthLength(month) {
        var date := MonthStart(month) + rule.monthlyDay.value - 1;
        if first <= date <= last {
          dates := dates + [date];
        }
      }
      month := month + 1;
      if month > lastMonth { LastMonthEnds(last, month); }
    }
    ListedAll(dates, rule, activeFrom, first, last, MonthStart(month));
  }

  lemma NullListed(rule: Rule, activeFrom: int, first: int, last: int)
    requires (rule.kind == Monthly && rule.monthlyDay == None)
          || (rule.kind == Yearly && (rule.yearlyMonth == None || rule.yearlyDay == None))
    ensures ListedBelow([], rule, activeFrom, first, last, last + 1)
  {
    hide DayOfMonth, MonthOf;
  }

  lemma LastMonthEnds(last: int, month: int)
    requires month > IndexOf(last)
    ensures last < MonthStart(month)
  {
    IndexOfBounds(last);
    MonthStartMonotone(IndexOf(last), month);
  }

  lemma EmptyRange(first: int, last: int)
    ensures IndexOf(first) > IndexOf(last) ==> last < first
  {
    IndexOfBounds(first);
    if IndexOf(first) > IndexOf(last) { LastMonthEnds(last, IndexOf(first)); }
  }

  /** The day that a yearly rule names in a year; 29 February exists in leap years only. */
  function YearlyHit(rule: Rule, year: int): Option<int>
    requires rule.yearlyMonth.Some? && rule.yearlyDay.Some?
  {
    var month := MonthIndex(year, rule.yearlyMonth.value);
    if rule.yearlyDay.value <= MonthLength(month) then Some(MonthStart(month) + rule.yearlyDay.value - 1) else None
  }

  lemma MonthWithinYear(year: int, month: int)
    requires 1 <= month <= 12
    ensures var index := MonthIndex(year, month);
            && IndexYear(index) == year && IndexMonth(index) == month
            && YearStart(year) <= MonthStart(index) && MonthStart(index) + MonthLength(index) <= YearStart(year + 1)
  {
    YearStartStep(year);
  }

  lemma YearlyHitMeans(rule: Rule, activeFrom: int, year: int)
    requires ValidRule(rule) && rule.kind == Yearly && rule.yearlyMonth.Some? && rule.yearlyDay.Some?
    ensures YearStart(year) <= YearStart(year + 1)
    ensures var hit := YearlyHit(rule, year); hit.Some? ==> YearStart(year) <= hit.value < YearStart(year + 1)
    ensures forall d :: YearStart(year) <= d < YearStart(year + 1) ==>
              (Matches(rule, activeFrom, d) <==> YearlyHit(rule, year) == Some(d))
  {
    hide MonthStart, MonthLength, YearStart, YearOf, MonthOf;
    var index := MonthIndex(year, rule.yearlyMonth.value);
    MonthWithinYear(year, rule.yearlyMonth.value);
    forall d | YearStart(year) <= d < YearStart(year + 1)
      ensures Matches(rule, activeFrom, d) <==> YearlyHit(rule, year) == Some(d)
    {
      YearOfUnique(d, year);
      IndexOfBounds(d);
      if d == MonthStart(index) + rule.yearlyDay.value - 1 && rule.yearlyDay.value <= MonthLength(index) {
        IndexOfUnique(d, index);
      }
    }
  }

  method YearlyDates(rule: Rule, first: int, last: int, activeFrom: int) returns (dates: seq<int>)
    requires ValidRule(rule) && rule.kind == Yearly
    ensures ListedBelow(dates, rule, activeFrom, first, last, last + 1)
  {
    hide MonthStart, YearStart, YearOf, ListedBelow, Matches;
    dates := [];
    if rule.yearlyMonth == None || rule.yearlyDay == None {
      NullListed(rule, activeFrom, first, last);
      return;
    }
    var year, lastYear := YearOf(first), YearOf(last);
    YearOfBounds(first);
    EmptyYears(first, last);
    ListedEmpty(rule, activeFrom, first, last, YearStart(year));
    while year <= lastYear
      invariant ListedBelow(dates, rule, activeFrom, first, last, YearStart(year))
      invariant year <= lastYear || last < YearStart(year) || last < first
      decreases lastYear - year
    {
      YearlyHitMeans(rule, activeFrom, year);
      ListedStep(dates, rule, activeFrom, first, last, YearStart(year), YearStart(year + 1), YearlyHit(rule, year));
      var month := MonthIndex(year, rule.yearlyMonth.value);
      if rule.yearlyDay.value <= MonthLength(month) {
        var date := MonthStart(month) + rule.yearlyDay.value - 1;
        if first <= date <= last {
          dates := dates + [date];
        }
      }
      year := year + 1;
      if year > lastYear { LastYearEnds(last, year); }
    }
    ListedAll(dates, rule, activeFrom, first, last, YearStart(year));
  }

  lemma YearOfUnique(date: int, year: int)
    requires YearStart(year) <= date < YearStart(year + 1)
    ensures YearOf(date) == year
  {
    hide YearStart, YearOf;
    YearOfBounds(date);
    if YearOf(date) < year { YearStartMonotone(YearOf(date) + 1, year); }
    if year < YearOf(date) { YearStartMonotone(year + 1, YearOf(date)); }
  }

  lemma YearStartMonotone(a: int, b: int)
    requires a <= b
    ensures YearStart(a) <= YearStart(b)
  {
  }

  lemma LastYearEnds(last: int, year: int)
    requires year > YearOf(last)
    ensures last < YearStart(year)
  {
    YearOfBounds(last);
    YearStartMonotone(YearOf(last) + 1, year);
  }

  lemma EmptyYears(first: int, last: int)
    ensures YearOf(first) > YearOf(last) ==> last < first
  {
    YearOfBounds(first);
    if YearOf(first) > YearOf(last) { LastYearEnds(last, YearOf(first)); }
  }
}
