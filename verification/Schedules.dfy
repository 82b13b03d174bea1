/** Schedules in a time zone: which occurrences exist, and what the range queries return. */
module Schedules {
  import opened Calendar
  import opened Options
  import opened Recurrence

  const MINUTES_PER_DAY := 1440
  const SPILL_LOOKBACK_DAYS := 2

  /** A time zone: instantOf resolves a wall time ("compatible" disambiguation) to an instant,
      localMinuteOf reads the wall clock at an instant.  Wall times count minutes since day 0;
      the unit of instants does not matter. */
  datatype Zone = Zone(instantOf: int -> int, localMinuteOf: int -> int)

  function DateOf(zone: Zone, instant: int): int { zone.localMinuteOf(instant) / MINUTES_PER_DAY }

  /** A wall time at least 24 hours later never resolves to an earlier instant. */
  ghost predicate OrderedByDay(zone: Zone) {
    forall v, w :: v + MINUTES_PER_DAY <= w ==> zone.instantOf(v) <= zone.instantOf(w)
  }

  ghost predicate DatesNeverRunBackwards(zone: Zone) {
    forall t, u :: t <= u ==> DateOf(zone, t) <= DateOf(zone, u)
  }

  /** A wall time inside a gap resolves to a later local time, at most 24 hours later. */
  ghost predicate ResolvesWithinADay(zone: Zone) {
    forall w :: w <= zone.localMinuteOf(zone.instantOf(w)) <= w + MINUTES_PER_DAY
  }

  datatype Schedule = Schedule(
    id: string,
    enabled: bool,
    activeFrom: int,
    activeUntil: int,
    startMinute: int,
    endMinute: int,
    rule: Rule,
    fixtureIds: seq<string>,
    allowed: int -> bool  // weekend and holiday exclusion, per start date
  )

  predicate ValidSchedule(s: Schedule) {
    0 <= s.startMinute < MINUTES_PER_DAY && 0 <= s.endMinute < MINUTES_PER_DAY && ValidRule(s.rule)
  }

  datatype Occurrence = Occurrence(scheduleId: string, date: int, starts: int, ends: int)

  function OccurrenceOn(s: Schedule, date: int, zone: Zone): Option<Occurrence> {
    var endDate := if s.endMinute <= s.startMinute then date + 1 else date;
    var starts := zone.instantOf(date * MINUTES_PER_DAY + s.startMinute);
    var ends := zone.instantOf(endDate * MINUTES_PER_DAY + s.endMinute);
    if ends <= starts then None else Some(Occurrence(s.id, date, starts, ends))
  }

  /** w is the first wall time after v at which the clock shows the end time of day. */
  predicate NextEnd(s: Schedule, v: int, w: int) { v < w <= v + 1440 && w % 1440 == s.endMinute }

  /** The occurrence of a date runs from the start time on that date to the end time that comes next,
      overnight if need be, and exists exactly if that takes any real time. */
  lemma OccurrenceRuns(s: Schedule, date: int, zone: Zone) returns (w: int)
    requires ValidSchedule(s)
    ensures var v := date * 1440 + s.startMinute;
            && NextEnd(s, v, w) && (forall x :: NextEnd(s, v, x) ==> x == w)
            && OccurrenceOn(s, date, zone) ==
               if zone.instantOf(v) < zone.instantOf(w)
               then Some(Occurrence(s.id, date, zone.instantOf(v), zone.instantOf(w))) else None
  {
    var v := date * 1440 + s.startMinute;
    w := (if s.endMinute <= s.startMinute then date + 1 else date) * 1440 + s.endMinute;
    forall x | NextEnd(s, v, x) ensures x == w {
      assert (x - w) % 1440 == 0;
    }
  }

  /** The schedule as a whole has an occurrence that starts on this local date. */
  predicate Occurs(s: Schedule, zone: Zone, date: int) {
    && s.enabled
    && DateOf(zone, s.activeFrom) <= date <= DateOf(zone, s.activeUntil)
    && Matches(s.rule, DateOf(zone, s.activeFrom), date)
    && s.allowed(date)
    && OccurrenceOn(s, date, zone).Some?
  }

  function On(s: Schedule, zone: Zone, date: int): (o: Occurrence)
    requires Occurs(s, zone, date)
    ensures o.date == date
  {
    OccurrenceOn(s, date, zone).value
  }

  predicate Meets(o: Occurrence, from: int, until: int) { o.starts < until && from < o.ends }

  predicate ByDate(list: seq<Occurrence>) {
    forall i, j :: 0 <= i < j < |list| ==> list[i].date < list[j].date
  }

  /** Every listed occurrence really belongs to the schedule. */
  predicate Genuine(list: seq<Occurrence>, s: Schedule, zone: Zone) {
    forall i :: 0 <= i < |list| ==> Occurs(s, zone, list[i].date) && list[i] == On(s, zone, list[i].date)
  }

  predicate Has(list: seq<Occurrence>, date: int) { exists i :: 0 <= i < |list| && list[i].date == date }

  /** list is exactly the schedule's occurrences on first..last, in date order. */
  ghost predicate Lists(list: seq<Occurrence>, s: Schedule, zone: Zone, first: int, last: int) {
    && ByDate(list) && Genuine(list, s, zone)
    && forall d :: Has(list, d) <==> first <= d <= last && Occurs(s, zone, d)
  }

  /** list is exactly the schedule's occurrences that meet an interval, in date order. */
  ghost predicate ListsMeeting(list: seq<Occurrence>, s: Schedule, zone: Zone, from: int, until: int) {
    && ByDate(list) && Genuine(list, s, zone)
    && forall d :: Has(list, d) <==> Occurs(s, zone, d) && Meets(On(s, zone, d), from, until)
  }

  function Later(a: int, b: int): int { if a >= b then a else b }
  function Earlier(a: int, b: int): int { if a <= b then a else b }

  /** One generator, one date list: in order, each once, and exactly the matching dates in range. */
  method CandidateDates(rule: Rule, first: int, last: int, activeFrom: int) returns (dates: seq<int>)
    requires ValidRule(rule)
    ensures ListedBelow(dates, rule, activeFrom, first, last, last + 1)
  {
    match rule.kind {
      case Once =>
        dates := if first <= activeFrom <= last then [activeFrom] else [];
      case Daily =>
        dates := [];
        var date := first;
        while date <= last
          invariant ListedBelow(dates, rule, activeFrom, first, last, date)
          invariant first <= date
          decreases last - date
        {
          ListedStep(dates, rule, activeFrom, first, last, date, date + 1, Some(date));
          dates := dates + [date];
          date := date + 1;
        }
      case Weekly =>
        dates := WeeklyDates(rule, first, last, activeFrom);
      case Monthly =>
        dates := MonthlyDates(rule, first, last, activeFrom);
      case Yearly =>
        dates := YearlyDates(rule, first, last, activeFrom);
    }
  }

  method IterateOccurrences(s: Schedule, first: int, last: int, zone: Zone) returns (list: seq<Occurrence>)
    requires ValidSchedule(s)
    ensures Lists(list, s, zone, first, last)
  {
    list := [];
    if !s.enabled || first > last { return; }
    var activeFrom, activeUntil := DateOf(zone, s.activeFrom), DateOf(zone, s.activeUntil);
    var start, end := Later(first, activeFrom), Earlier(last, activeUntil);
    var dates := CandidateDates(s.rule, start, end, activeFrom);
    hide Matches;
    for i := 0 to |dates|
      invariant ByDate(list) && Genuine(list, s, zone)
      invariant forall d :: Has(list, d) <==> d in dates[..i] && Occurs(s, zone, d)
    {
      assert dates[..i + 1] == dates[..i] + [dates[i]];
      assert dates[i] in dates;
      AscendingPrefix(dates, i);
      if s.allowed(dates[i]) {
        var occurrence := OccurrenceOn(s, dates[i], zone);
        if occurrence.Some? {
          ListGrows(list, occurrence.value);
          list := list + [occurrence.value];
        }
      }
    }
    assert dates[..|dates|] == dates;
  }

  lemma ListGrows(list: seq<Occurrence>, o: Occurrence)
    ensures forall d :: Has(list + [o], d) <==> Has(list, d) || d == o.date
    ensures ByDate(list) && (forall d :: Has(list, d) ==> d < o.date) ==> ByDate(list + [o])
  {
    forall d ensures Has(list + [o], d) <==> Has(list, d) || d == o.date {
      if Has(list, d) {
        var i :| 0 <= i < |list| && list[i].date == d;
        assert (list + [o])[i].date == d;
      }
      assert (list + [o])[|list|] == o;
    }
    if forall d :: Has(list, d) ==> d < o.date {
      forall i | 0 <= i < |list| ensures list[i].date < o.date {
        assert Has(list, list[i].date);
      }
    }
  }

  /** An occurrence that covers some instant of [t, u) starts on one of the dates that the range
      queries look at. */
  lemma OccurrenceNearby(s: Schedule, zone: Zone, d: int, t: int, u: int)
    requires DatesNeverRunBackwards(zone) && ResolvesWithinADay(zone)
    requires ValidSchedule(s) && Occurs(s, zone, d) && Meets(On(s, zone, d), t, u)
    ensures DateOf(zone, t) - SPILL_LOOKBACK_DAYS <= d <= DateOf(zone, u)
    ensures forall v :: On(s, zone, d).starts <= v ==> d <= DateOf(zone, v)
  {
    hide Matches;
    var o := On(s, zone, d);
    var startWall := d * MINUTES_PER_DAY + s.startMinute;
    var endDate := if s.endMinute <= s.startMinute then d + 1 else d;
    var endWall := endDate * MINUTES_PER_DAY + s.endMinute;
    assert startWall <= zone.localMinuteOf(zone.instantOf(startWall));
    assert zone.localMinuteOf(zone.instantOf(endWall)) <= endWall + MINUTES_PER_DAY;
    assert d <= DateOf(zone, o.starts);
    assert DateOf(zone, o.ends) <= d + 2;
    assert DateOf(zone, t) <= DateOf(zone, o.ends);
  }

  method GetOccurrences(s: Schedule, from: int, until: int, zone: Zone) returns (list: seq<Occurrence>)
    requires ValidSchedule(s)
    ensures until <= from ==> list == []
    ensures from < until ==> ByDate(list) && Genuine(list, s, zone)
    ensures from < until && DatesNeverRunBackwards(zone) && ResolvesWithinADay(zone)
            ==> ListsMeeting(list, s, zone, from, until)
  {
    list := [];
    if until <= from { return; }
    var first := DateOf(zone, from) - SPILL_LOOKBACK_DAYS;
    var last := DateOf(zone, until) + 1;
    var all := IterateOccurrences(s, first, last, zone);
    hide Matches, OccurrenceOn, DateOf;
    for i := 0 to |all|
      invariant ByDate(list) && Genuine(list, s, zone)
      invariant forall d :: Has(list, d) ==> exists j :: 0 <= j < i && all[j].date == d
      invariant forall d :: Has(list, d) <==> Has(all[..i], d) && Meets(On(s, zone, d), from, until)
    {
      assert Has(all, all[i].date);
      assert all[..i + 1] == all[..i] + [all[i]];
      ListGrows(all[..i], all[i]);
      ListGrows(list, all[i]);
      if Meets(all[i], from, until) {
        list := list + [all[i]];
      }
    }
    assert all[..|all|] == all;
    if DatesNeverRunBackwards(zone) && ResolvesWithinADay(zone) {
      forall d ensures Has(list, d) <==> Occurs(s, zone, d) && Meets(On(s, zone, d), from, until) {
        if Occurs(s, zone, d) && Meets(On(s, zone, d), from, until) {
          OccurrenceNearby(s, zone, d, from, until);
        }
      }
    }
  }

  predicate Covers(s: Schedule, zone: Zone, d: int, t: int) {
    Occurs(s, zone, d) && On(s, zone, d).starts <= t < On(s, zone, d).ends
  }

  /** r is the earliest-dated occurrence of the whole schedule that covers t, if there is one. */
  ghost predicate IsActive(r: Option<Occurrence>, s: Schedule, zone: Zone, t: int) {
    match r
    case None => forall d :: !Covers(s, zone, d, t)
    case Some(o) => Covers(s, zone, o.date, t) && o == On(s, zone, o.date) && forall d :: Covers(s, zone, d, t) ==> o.date <= d
  }

  method GetActiveOccurrence(s: Schedule, t: int, zone: Zone) returns (r: Option<Occurrence>)
    requires ValidSchedule(s)
    ensures r.Some? ==> Covers(s, zone, r.value.date, t) && r.value == On(s, zone, r.value.date)
    ensures DatesNeverRunBackwards(zone) && ResolvesWithinADay(zone) ==> IsActive(r, s, zone, t)
  {
    var localDate := DateOf(zone, t);
    var first := localDate - SPILL_LOOKBACK_DAYS;
    var all := IterateOccurrences(s, first, localDate, zone);
    hide Matches, OccurrenceOn, DateOf, ResolvesWithinADay, DatesNeverRunBackwards, IsActive;
    for i := 0 to |all|
      invariant Misses(all, i, t)
    {
      if all[i].starts <= t < all[i].ends {
        FirstIsActive(all, i, s, zone, t);
        return Some(all[i]);
      }
    }
    NoneIsActive(all, s, zone, t);
    return None;
  }

  /** None of the first n listed occurrences covers t. */
  predicate Misses(list: seq<Occurrence>, n: nat, t: int)
    requires n <= |list|
  {
    forall i :: 0 <= i < n ==> !(list[i].starts <= t < list[i].ends)
  }

  /** The first listed occurrence that covers t is the earliest of the whole schedule that does. */
  lemma FirstIsActive(all: seq<Occurrence>, n: nat, s: Schedule, zone: Zone, t: int)
    requires ValidSchedule(s) && Lists(all, s, zone, DateOf(zone, t) - SPILL_LOOKBACK_DAYS, DateOf(zone, t))
    requires n < |all| && Misses(all, n, t) && all[n].starts <= t < all[n].ends
    ensures Covers(s, zone, all[n].date, t) && all[n] == On(s, zone, all[n].date)
    ensures DatesNeverRunBackwards(zone) && ResolvesWithinADay(zone) ==> IsActive(Some(all[n]), s, zone, t)
  {
    hide Matches, OccurrenceOn, DateOf, ResolvesWithinADay, DatesNeverRunBackwards;
    if DatesNeverRunBackwards(zone) && ResolvesWithinADay(zone) {
      forall d | Covers(s, zone, d, t) ensures all[n].date <= d {
        var j := CoveringIsListed(all, s, zone, d, t);
      }
    }
  }

  lemma NoneIsActive(all: seq<Occurrence>, s: Schedule, zone: Zone, t: int)
    requires ValidSchedule(s) && Lists(all, s, zone, DateOf(zone, t) - SPILL_LOOKBACK_DAYS, DateOf(zone, t))
    requires Misses(all, |all|, t)
    ensures DatesNeverRunBackwards(zone) && ResolvesWithinADay(zone) ==> IsActive(None, s, zone, t)
  {
    hide Matches, OccurrenceOn, DateOf, ResolvesWithinADay, DatesNeverRunBackwards;
    if DatesNeverRunBackwards(zone) && ResolvesWithinADay(zone) {
      forall d | Covers(s, zone, d, t) ensures false {
        var j := CoveringIsListed(all, s, zone, d, t);
      }
    }
  }

  lemma CoveringIsListed(all: seq<Occurrence>, s: Schedule, zone: Zone, d: int, t: int) returns (j: nat)
    requires DatesNeverRunBackwards(zone) && ResolvesWithinADay(zone)
    requires ValidSchedule(s) && Lists(all, s, zone, DateOf(zone, t) - SPILL_LOOKBACK_DAYS, DateOf(zone, t))
    requires Covers(s, zone, d, t)
    ensures j < |all| && all[j].date == d && all[j].starts <= t < all[j].ends
  {
    OccurrenceNearby(s, zone, d, t, t + 1);
    hide Matches, OccurrenceOn, DateOf, DatesNeverRunBackwards, ResolvesWithinADay;
    assert Has(all, d);
    j :| 0 <= j < |all| && all[j].date == d;
  }

  /** The point query is the first element of the range query on [t, t + 1). */
  lemma ActiveAgreesWithRange(r: Option<Occurrence>, list: seq<Occurrence>, s: Schedule, zone: Zone, t: int)
    requires IsActive(r, s, zone, t) && ListsMeeting(list, s, zone, t, t + 1)
    ensures r == if list == [] then None else Some(list[0])
  {
    hide Matches, OccurrenceOn, DateOf;
    assert r.Some? ==> Has(list, r.value.date);
    if list != [] {
      assert Has(list, list[0].date);
      assert Covers(s, zone, list[0].date, t);
    }
  }

  predicate StartsAfter(s: Schedule, zone: Zone, d: int, t: int) {
    Occurs(s, zone, d) && t < On(s, zone, d).starts
  }

  /** r is the earliest-dated occurrence of the whole schedule that starts after t, if there is one. */
  ghost predicate IsNext(r: Option<Occurrence>, s: Schedule, zone: Zone, t: int) {
    match r
    case None => forall d :: !StartsAfter(s, zone, d, t)
    case Some(o) => StartsAfter(s, zone, o.date, t) && o == On(s, zone, o.date) && forall d :: StartsAfter(s, zone, d, t) ==> o.date <= d
  }

  /** The search begins on the local date of t, so it is right exactly when the occurrence of the
      local date before, which a skipped date can push past t, does not start after t. */
  method GetNextOccurrence(s: Schedule, t: int, zone: Zone) returns (r: Option<Occurrence>)
    requires ValidSchedule(s)
    ensures r.Some? ==> StartsAfter(s, zone, r.value.date, t) && r.value == On(s, zone, r.value.date)
    ensures DatesNeverRunBackwards(zone) && ResolvesWithinADay(zone)
            ==> (IsNext(r, s, zone, t) <==> !StartsAfter(s, zone, DateOf(zone, t) - 1, t))
  {
    r := None;
    if s.enabled {
      var activeFrom, activeUntil := DateOf(zone, s.activeFrom), DateOf(zone, s.activeUntil);
      var first := Later(DateOf(zone, t), activeFrom);
      var all := IterateOccurrences(s, first, activeUntil, zone);
      hide Matches, OccurrenceOn, IsNext, DateOf, DatesNeverRunBackwards, ResolvesWithinADay;
      for i := 0 to |all|
        invariant r.None? && forall j :: 0 <= j < i ==> all[j].starts <= t
      {
        if all[i].starts > t {
          assert Has(all, all[i].date);
          r := Some(all[i]);
          break;
        }
      }
      ListedFromHere(all, s, zone, t);
    }
    NextFromHere(r, s, zone, t);
  }

  /** Every occurrence from the local date of t on is in the list the search walks. */
  lemma ListedFromHere(all: seq<Occurrence>, s: Schedule, zone: Zone, t: int)
    requires Lists(all, s, zone, Later(DateOf(zone, t), DateOf(zone, s.activeFrom)), DateOf(zone, s.activeUntil))
    ensures forall d :: Occurs(s, zone, d) && DateOf(zone, t) <= d ==> exists j :: 0 <= j < |all| && all[j] == On(s, zone, d)
  {
    hide Matches, OccurrenceOn, DateOf;
    forall d | Occurs(s, zone, d) && DateOf(zone, t) <= d ensures exists j :: 0 <= j < |all| && all[j] == On(s, zone, d) {
      assert Has(all, d);
      var j :| 0 <= j < |all| && all[j].date == d;
    }
  }

  /** What is right among the dates from the local date of t on misses at most the date before. */
  lemma NextFromHere(r: Option<Occurrence>, s: Schedule, zone: Zone, t: int)
    requires ValidSchedule(s)
    requires r.Some? ==> StartsAfter(s, zone, r.value.date, t) && r.value == On(s, zone, r.value.date) && DateOf(zone, t) <= r.value.date
    requires forall d :: StartsAfter(s, zone, d, t) && DateOf(zone, t) <= d ==> r.Some? && r.value.date <= d
    ensures DatesNeverRunBackwards(zone) && ResolvesWithinADay(zone)
            ==> (IsNext(r, s, zone, t) <==> !StartsAfter(s, zone, DateOf(zone, t) - 1, t))
  {
    if DatesNeverRunBackwards(zone) && ResolvesWithinADay(zone) {
      forall d | StartsAfter(s, zone, d, t) ensures DateOf(zone, t) - 1 <= d {
        StartsNearby(s, zone, d, t);
      }
    }
    hide Occurs, On, DateOf, DatesNeverRunBackwards, ResolvesWithinADay, StartsAfter;
  }

  lemma StartsNearby(s: Schedule, zone: Zone, d: int, t: int)
    requires DatesNeverRunBackwards(zone) && ResolvesWithinADay(zone)
    requires ValidSchedule(s) && StartsAfter(s, zone, d, t)
    ensures DateOf(zone, t) - 1 <= d
  {
    hide Matches;
    var startWall := d * MINUTES_PER_DAY + s.startMinute;
    assert zone.localMinuteOf(zone.instantOf(startWall)) <= startWall + MINUTES_PER_DAY;
    assert DateOf(zone, On(s, zone, d).starts) <= d + 1;
    assert DateOf(zone, t) <= DateOf(zone, On(s, zone, d).starts);
  }

  /** A zone that skips local date 10, as the dateline jumps of real zones do: wall times of the
      skipped date resolve into date 11.  It obeys every zone law of this model. */
  const SKIPPING_ZONE := Zone(
    w => if w < 15840 then w else w - 1440,
    t => if t < 14400 then t else t + 1440)

  /** A weekly rule for the skipped weekday, 10:00 to 12:00. */
  const SKIPPED_DAY_SCHEDULE := Schedule("s", true, 0, 30000, 600, 720,
    Rule(Weekly, [4], None, None, None), [], d => true)

  /** At 05:00 on date 11 that day's displaced 10:00 start is still ahead, and the search from
      the local date on does not see it. */
  lemma SkippedDateIsMissed()
    ensures OrderedByDay(SKIPPING_ZONE) && DatesNeverRunBackwards(SKIPPING_ZONE) && ResolvesWithinADay(SKIPPING_ZONE)
    ensures ValidSchedule(SKIPPED_DAY_SCHEDULE)
    ensures var t := 14700;
            && DateOf(SKIPPING_ZONE, t) == 11
            && StartsAfter(SKIPPED_DAY_SCHEDULE, SKIPPING_ZONE, 10, t)
            && On(SKIPPED_DAY_SCHEDULE, SKIPPING_ZONE, 10).starts == 15000
  {
    SkippingZoneIsLawful();
    assert DayOfWeek(10) == 4 && 4 in SKIPPED_DAY_SCHEDULE.rule.weeklyDays;
    hide OrderedByDay, DatesNeverRunBackwards, ResolvesWithinADay;
  }

  lemma SkippingZoneIsLawful()
    ensures OrderedByDay(SKIPPING_ZONE) && DatesNeverRunBackwards(SKIPPING_ZONE) && ResolvesWithinADay(SKIPPING_ZONE)
  {
  }
}
