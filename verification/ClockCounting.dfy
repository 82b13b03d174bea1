/** What a run of the attestor says about its generations, its revision and its evidence, told from the
    observations, samples and approvals of the run alone. */
module ClockCounting {
  import opened ClockHistory
  import opened ClockTrust
  import opened Options

  // ----- Generations count what happened -----

  /** Between two readings the continuous clock moved by at most one second, and wall time moved
      with it to within 10 ms. */
  predicate MovesAlong(last: Clock, wall: real, continuousNs: nat) {
    var ns := continuousNs - last.continuousNs;
    0 < ns <= 1_000_000_000 && -10.0 <= wall - last.wall - ns as real / 1_000_000.0 <= 10.0
  }

  /** The op is a malformed observation, or a reading that does not move along from the one before. */
  predicate ClockFault(before: seq<Op>, op: Op) {
    op.Observe? &&
    (op.o.Malformed? ||
     (LastReading(before).Some? && !MovesAlong(LastReading(before).value, op.o.wall, op.o.continuousNs)))
  }

  /** The latest reading, if any, found the bound process on the primary port. */
  predicate OnPrimary(ops: seq<Op>) {
    if ops == [] then false
    else
      var op := ops[|ops| - 1];
      if op.Observe? && op.o.Reading? then op.o.matches else OnPrimary(ops[..|ops| - 1])
  }

  predicate Looked(ops: seq<Op>) {
    ops != [] && (ops[|ops| - 1].Observe? || Looked(ops[..|ops| - 1]))
  }

  /** The op is a reading away from the primary, and the one before was on it or nothing was observed
      before. */
  predicate Departure(before: seq<Op>, op: Op) {
    op.Observe? && op.o.Reading? && !op.o.matches && (OnPrimary(before) || !Looked(before))
  }

  function ClockFaults(ops: seq<Op>): nat {
    if ops == [] then 0
    else ClockFaults(ops[..|ops| - 1]) + if ClockFault(ops[..|ops| - 1], ops[|ops| - 1]) then 1 else 0
  }

  function Departures(ops: seq<Op>): nat {
    if ops == [] then 0
    else Departures(ops[..|ops| - 1]) + if Departure(ops[..|ops| - 1], ops[|ops| - 1]) then 1 else 0
  }

  function Capped(n: int): int { if n <= MAX_SAFE_INTEGER then n else MAX_SAFE_INTEGER }

  ghost predicate JustBooted(t: Trust) {
    Unseen(t) && !t.primaryMatches && t.latchReason == Some(NotApproved) && !t.fatal
  }

  /** Before anything was observed the latch is the one of the boot; later, away from the primary,
      it never is. */
  ghost predicate KnowsPrimary(t: Trust, ops: seq<Op>) {
    t.primaryMatches == OnPrimary(ops) && (!t.primaryMatches ==> (t.latchReason == Some(NotApproved) <==> !Looked(ops)))
  }

  /** fault and away tell what the observation adds to the two generations. */
  ghost predicate CountsUp(t: Trust, u: Trust, fault: bool, away: bool) {
    && u.generations.step == Capped(t.generations.step + if fault then 1 else 0)
    && u.generations.failover == Capped(t.generations.failover + if away then 1 else 0)
    && (u.fatal <==> t.fatal || (fault && t.generations.step == MAX_SAFE_INTEGER) ||
                     (away && t.generations.failover == MAX_SAFE_INTEGER))
  }

  lemma InvalidationCounts(t: Trust, reason: Reason, generation: Generation)
    requires GenerationsGood(t)
    ensures CountsUp(t, Invalidated(t, reason, Some(generation)), generation.StepGeneration?, generation.FailoverGeneration?)
    ensures var u := Invalidated(t, reason, Some(generation));
            u.latchReason == Some(reason) && u.primaryMatches == t.primaryMatches && GenerationsGood(u)
  {
  }

  lemma SteadyMeans(last: Clock, wall: real, continuousNs: nat)
    ensures Steady(last, wall, continuousNs) <==> MovesAlong(last, wall, continuousNs)
  {
  }

  lemma ObservationCounts(t: Trust, ops: seq<Op>, o: Observation)
    requires Inv(t) && t.last == LastReading(ops) && KnowsPrimary(t, ops)
    ensures CountsUp(t, Observed(t, o), ClockFault(ops, Observe(o)), Departure(ops, Observe(o)))
    ensures KnowsPrimary(Observed(t, o), ops + [Observe(o)])
  {
    hide CountsUp, KnowsPrimary, ClockFault, Departure, LastReading, Observed;
    if o.Malformed? { MalformedCounts(t, ops); } else { ReadingCounts(t, ops, o); }
  }

  lemma MalformedCounts(t: Trust, ops: seq<Op>)
    requires GenerationsGood(t) && KnowsPrimary(t, ops)
    ensures CountsUp(t, Observed(t, Malformed), ClockFault(ops, Observe(Malformed)), Departure(ops, Observe(Malformed)))
    ensures KnowsPrimary(Observed(t, Malformed), ops + [Observe(Malformed)])
  {
    hide Invalidated, GenerationsGood, LastReading;
    assert (ops + [Observe(Malformed)])[..|ops|] == ops;
    InvalidationCounts(t, ClockUnhealthy, StepGeneration);
  }

  /** A reading first departs from the primary or not, and then moves along or not. */
  function Departed(t: Trust, matches: bool): Trust {
    (if !matches && (t.primaryMatches || t.latchReason == Some(NotApproved))
     then Invalidated(t, PrimaryChanged, Some(FailoverGeneration)) else t).(primaryMatches := matches)
  }

  lemma DepartureCounts(t: Trust, ops: seq<Op>, o: Observation)
    requires GenerationsGood(t) && KnowsPrimary(t, ops) && o.Reading?
    ensures var u := Departed(t, o.matches);
            && CountsUp(t, u, false, Departure(ops, Observe(o))) && GenerationsGood(u) && u.last == t.last
            && u.primaryMatches == o.matches && (!o.matches ==> u.latchReason != Some(NotApproved))
  {
    GoodIsSafe(t);
    InvalidationCounts(t, PrimaryChanged, FailoverGeneration);
    LastStays(t, PrimaryChanged, FailoverGeneration);
    hide Invalidated, GenerationsGood;
    var v := if !o.matches && (t.primaryMatches || t.latchReason == Some(NotApproved))
             then Invalidated(t, PrimaryChanged, Some(FailoverGeneration)) else t;
    GoodWithout(v, o.matches);
  }

  lemma GoodWithout(v: Trust, matches: bool)
    requires GenerationsGood(v)
    ensures GenerationsGood(v.(primaryMatches := matches))
  {
  }

  lemma ReadingCounts(t: Trust, ops: seq<Op>, o: Observation)
    requires GenerationsGood(t) && t.last == LastReading(ops) && KnowsPrimary(t, ops) && o.Reading?
    ensures CountsUp(t, Observed(t, o), ClockFault(ops, Observe(o)), Departure(ops, Observe(o)))
    ensures KnowsPrimary(Observed(t, o), ops + [Observe(o)])
  {
    hide Steady, MovesAlong, Invalidated, GenerationsGood, LastReading, Departure, Departed;
    assert (ops + [Observe(o)])[..|ops|] == ops;
    var u := Departed(t, o.matches);
    DepartureCounts(t, ops, o);
    GoodIsSafe(t);
    GoodIsSafe(u);
    InvalidationCounts(u, if o.matches then ClockUnhealthy else PrimaryChanged, StepGeneration);
    ReadingAfterDeparture(t, o);
    if u.last.Some? { SteadyMeans(u.last.value, o.wall, o.continuousNs); }
  }

  lemma ReadingAfterDeparture(t: Trust, o: Observation)
    requires GenerationsGood(t) && o.Reading?
    ensures var u := Departed(t, o.matches);
            var v := if u.last.Some? && !Steady(u.last.value, o.wall, o.continuousNs)
                     then Invalidated(u, if o.matches then ClockUnhealthy else PrimaryChanged, Some(StepGeneration)) else u;
            Observed(t, o) == v.(last := Some(Clock(o.wall, o.continuousNs)), wall := Some(o.wall), observationValid := true)
  {
    hide Steady, Invalidated, GenerationsGood;
  }

  lemma GoodIsSafe(t: Trust)
    requires GenerationsGood(t)
    ensures t.generations.step <= MAX_SAFE_INTEGER && t.generations.failover <= MAX_SAFE_INTEGER
  {
  }

  lemma LastStays(t: Trust, reason: Reason, generation: Generation)
    ensures Invalidated(t, reason, Some(generation)).last == t.last
  {
  }

  lemma OtherOpCounts(t: Trust, ops: seq<Op>, op: Op)
    requires Inv(t) && !op.Observe? && KnowsPrimary(t, ops)
    ensures CountsUp(t, Apply(t, op), false, false) && KnowsPrimary(Apply(t, op), ops + [op])
  {
    assert (ops + [op])[..|ops|] == ops;
    hide Acceptable, ToWire, Fresh;
  }

  lemma {:induction false} RunKnowsPrimary(t0: Trust, ops: seq<Op>)
    requires JustBooted(t0)
    ensures KnowsPrimary(Run(t0, ops), ops)
  {
    if ops != [] {
      hide KnowsPrimary, Inv;
      RunKnowsPrimary(t0, ops[..|ops| - 1]);
      OpCounts(t0, ops);
    }
  }

  lemma OpCounts(t0: Trust, ops: seq<Op>)
    requires JustBooted(t0) && ops != [] && KnowsPrimary(Run(t0, ops[..|ops| - 1]), ops[..|ops| - 1])
    ensures var before, op := ops[..|ops| - 1], ops[|ops| - 1];
            && CountsUp(Run(t0, before), Run(t0, ops), ClockFault(before, op), Departure(before, op))
            && KnowsPrimary(Run(t0, ops), ops)
  {
    hide KnowsPrimary, Inv, CountsUp, Observed, LastReading;
    var before, op := ops[..|ops| - 1], ops[|ops| - 1];
    RunInv(t0, before);
    assert before + [op] == ops;
    if op.Observe? { ObservationCounts(Run(t0, before), before, op.o); } else { OtherOpCounts(Run(t0, before), before, op); }
  }

  /** Over any run the step generation is the one of the boot plus the clock faults, and the failover
      generation the one of the boot plus the departures from the primary, up to the greatest safe
      integer; the state is fatal if and only if one of them would exceed it. */
  lemma {:induction false} GenerationsCount(persisted: Option<Generations>, t0: Trust, ops: seq<Op>)
    requires Boot(persisted) == Some(t0)
    ensures var booted := if persisted.None? then Generations(0, 0, 0, 0) else persisted.value;
            var steps, failovers := booted.step + 1 + ClockFaults(ops), booted.failover + Departures(ops);
            && Run(t0, ops).generations.step == Capped(steps) && Run(t0, ops).generations.failover == Capped(failovers)
            && (Run(t0, ops).fatal <==> steps > MAX_SAFE_INTEGER || failovers > MAX_SAFE_INTEGER)
  {
    hide Inv, KnowsPrimary, ClockFault, Departure, JustBooted, Run;
    BootKnows(persisted);
    if ops == [] {
      assert Run(t0, ops) == t0 by { RunsNothing(t0); }
    } else {
      GenerationsCount(persisted, t0, ops[..|ops| - 1]);
      RunKnowsPrimary(t0, ops[..|ops| - 1]);
      OpCounts(t0, ops);
    }
  }

  lemma RunsNothing(t0: Trust)
    ensures Run(t0, []) == t0
  {
  }

  lemma BootKnows(persisted: Option<Generations>)
    requires Boot(persisted).Some?
    ensures JustBooted(Boot(persisted).value)
  {
    BootInv(persisted);
  }
}
