/** Whether two schedules ever drive a common fixture at the same instant. */
module Overlap {
  import opened Recurrence
  import opened Schedules

  predicate HasCommonFixture(left: Schedule, right: Schedule) {
    exists f :: f in left.fixtureIds && f in right.fixtureIds
  }

  predicate Intersect(a: Occurrence, b: Occurrence) { a.starts < b.ends && b.starts < a.ends }

  ghost predicate AnyIntersect(left: seq<Occurrence>, right: seq<Occurrence>) {
    exists i, j :: 0 <= i < |left| && 0 <= j < |right| && Intersect(left[i], right[j])
  }

  /** Starts and ends both never decrease along the list. */
  predicate Monotone(list: seq<Occurrence>) {
    && (forall i :: 0 <= i < |list| ==> list[i].starts < list[i].ends)
    && (forall i, j :: 0 <= i <= j < |list| ==> list[i].starts <= list[j].starts && list[i].ends <= list[j].ends)
  }

  /** The two-pointer sweep decides whether any element of one list meets any element of the
      other, although neighbours inside one list may overlap. */
  method IntervalsOverlap(left: seq<Occurrence>, right: seq<Occurrence>) returns (overlap: bool)
    ensures overlap ==> AnyIntersect(left, right)
    ensures Monotone(left) && Monotone(right) ==> (overlap <==> AnyIntersect(left, right))
  {
    var i, j := 0, 0;
    while i < |left| && j < |right|
      invariant 0 <= i <= |left| && 0 <= j <= |right|
      invariant Monotone(left) && Monotone(right) ==>
        forall a, b :: 0 <= a < |left| && 0 <= b < |right| && (a < i || b < j) ==> !Intersect(left[a], right[b])
      decreases |left| - i + |right| - j
    {
      if left[i].starts < right[j].ends && right[j].starts < left[i].ends {
        assert Intersect(left[i], right[j]);
        return true;
      }
      if left[i].ends <= right[j].ends {
        i := i + 1;
      } else {
        j := j + 1;
      }
    }
    return false;
  }

  lemma ListsMonotone(list: seq<Occurrence>, s: Schedule, zone: Zone, first: int, last: int)
    requires OrderedByDay(zone) && ValidSchedule(s) && Lists(list, s, zone, first, last)
    ensures Monotone(list)
  {
    hide Matches;
    forall i, j | 0 <= i <= j < |list| ensures list[i].starts <= list[j].starts && list[i].ends <= list[j].ends {
      if i < j {
        LaterDateLaterInterval(s, zone, list[i].date, list[j].date);
      }
    }
  }

  lemma LaterDateLaterInterval(s: Schedule, zone: Zone, d: int, e: int)
    requires OrderedByDay(zone) && Occurs(s, zone, d) && Occurs(s, zone, e) && d < e
    ensures On(s, zone, d).starts <= On(s, zone, e).starts && On(s, zone, d).ends <= On(s, zone, e).ends
  {
    hide Matches;
    var spill := if s.endMinute <= s.startMinute then 1 else 0;
    assert zone.instantOf(d * MINUTES_PER_DAY + s.startMinute) <= zone.instantOf(e * MINUTES_PER_DAY + s.startMinute);
    assert zone.instantOf((d + spill) * MINUTES_PER_DAY + s.endMinute)
        <= zone.instantOf((e + spill) * MINUTES_PER_DAY + s.endMinute);
  }

  /** An occurrence ends before one that starts three or more local dates later. */
  lemma FarDatesDoNotMeet(s: Schedule, t: Schedule, zone: Zone, d: int, e: int)
    requires OrderedByDay(zone) && ValidSchedule(s) && ValidSchedule(t)
    requires Occurs(s, zone, d) && Occurs(t, zone, e) && d + SPILL_LOOKBACK_DAYS < e
    ensures !Intersect(On(s, zone, d), On(t, zone, e)) && !Intersect(On(t, zone, e), On(s, zone, d))
  {
    hide Matches;
    var spill := if s.endMinute <= s.startMinute then 1 else 0;
    assert zone.instantOf((d + spill) * MINUTES_PER_DAY + s.endMinute)
        <= zone.instantOf(e * MINUTES_PER_DAY + t.startMinute);
  }

  /** Some occurrence of one whole schedule meets some occurrence of the other. */
  ghost predicate SomeMeet(left: Schedule, right: Schedule, zone: Zone) {
    exists d, e :: Occurs(left, zone, d) && Occurs(right, zone, e) && Intersect(On(left, zone, d), On(right, zone, e))
  }

  /** The dates from which the source starts and to which it runs the comparison. */
  function ComparisonStart(left: Schedule, right: Schedule, zone: Zone): int {
    Later(DateOf(zone, left.activeFrom), DateOf(zone, right.activeFrom)) - SPILL_LOOKBACK_DAYS
  }

  function ComparisonEnd(left: Schedule, right: Schedule, zone: Zone): int {
    Earlier(DateOf(zone, left.activeUntil), DateOf(zone, right.activeUntil)) + SPILL_LOOKBACK_DAYS
  }

  /** The clamp loses nothing: occurrences that meet both start inside the comparison range. */
  lemma ClampKeepsMeetings(left: Schedule, right: Schedule, zone: Zone, d: int, e: int)
    requires OrderedByDay(zone) && ValidSchedule(left) && ValidSchedule(right)
    requires Occurs(left, zone, d) && Occurs(right, zone, e) && Intersect(On(left, zone, d), On(right, zone, e))
    ensures ComparisonStart(left, right, zone) <= d <= ComparisonEnd(left, right, zone)
    ensures ComparisonStart(left, right, zone) <= e <= ComparisonEnd(left, right, zone)
  {
    hide Matches, On, Intersect;
    if d + SPILL_LOOKBACK_DAYS < e { FarDatesDoNotMeet(left, right, zone, d, e); }
    if e + SPILL_LOOKBACK_DAYS < d { FarDatesDoNotMeet(right, left, zone, e, d); }
  }

  lemma ListsMeetWhenSchedulesDo(left: Schedule, right: Schedule, zone: Zone, start: int, end: int,
                                 ls: seq<Occurrence>, rs: seq<Occurrence>)
    requires Lists(ls, left, zone, start, end) && Lists(rs, right, zone, start, end)
    ensures AnyIntersect(ls, rs) ==> SomeMeet(left, right, zone)
    ensures OrderedByDay(zone) && ValidSchedule(left) && ValidSchedule(right) && SomeMeet(left, right, zone)
            && start == ComparisonStart(left, right, zone) && end == ComparisonEnd(left, right, zone)
            ==> AnyIntersect(ls, rs)
  {
    hide Matches, On, Intersect, ComparisonStart, ComparisonEnd, OccurrenceOn;
    if OrderedByDay(zone) && ValidSchedule(left) && ValidSchedule(right) && SomeMeet(left, right, zone)
       && start == ComparisonStart(left, right, zone) && end == ComparisonEnd(left, right, zone) {
      var d, e :| Occurs(left, zone, d) && Occurs(right, zone, e) && Intersect(On(left, zone, d), On(right, zone, e));
      ClampKeepsMeetings(left, right, zone, d, e);
      assert Has(ls, d) && Has(rs, e);
      var i :| 0 <= i < |ls| && ls[i].date == d;
      var j :| 0 <= j < |rs| && rs[j].date == e;
      assert Intersect(ls[i], rs[j]);
    }
  }

  /** A reported overlap is always real; in every zone ordered by day none is missed. */
  method SchedulesOverlap(left: Schedule, right: Schedule, zone: Zone) returns (overlap: bool)
    requires ValidSchedule(left) && ValidSchedule(right)
    ensures overlap ==> left.enabled && right.enabled && HasCommonFixture(left, right) && SomeMeet(left, right, zone)
    ensures OrderedByDay(zone) ==>
      (overlap <==> left.enabled && right.enabled && HasCommonFixture(left, right) && SomeMeet(left, right, zone))
  {
    if !left.enabled || !right.enabled || !HasCommonFixture(left, right) { return false; }
    var start, end := ComparisonStart(left, right, zone), ComparisonEnd(left, right, zone);
    hide Matches, Intersect, Monotone, OccurrenceOn, ComparisonStart, ComparisonEnd;
    if start > end {
      ListsMeetWhenSchedulesDo(left, right, zone, start, end, [], []);
      return false;
    }
    var ls := IterateOccurrences(left, start, end, zone);
    var rs := IterateOccurrences(right, start, end, zone);
    if OrderedByDay(zone) {
      ListsMonotone(ls, left, zone, start, end);
      ListsMonotone(rs, right, zone, start, end);
    }
    overlap := IntervalsOverlap(ls, rs);
    ListsMeetWhenSchedulesDo(left, right, zone, start, end, ls, rs);
  }
}
