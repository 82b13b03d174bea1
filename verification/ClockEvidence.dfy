/** Exactly when the attestor is approved and hands out evidence, and what an approval is given for. */
module ClockEvidence {
  import opened ClockCounting
  import opened ClockHistory
  import opened ClockTrust
  import opened Options

  // ----- The approval -----

  /** Op j is an approval that takes effect. */
  ghost predicate ApprovalAt(t0: Trust, ops: seq<Op>, j: nat) {
    j < |ops| && ops[j].Approve? && Approves(Run(t0, ops[..j]), ops[j].revision, ops[j].uid)
  }

  ghost predicate ApprovedBy(t0: Trust, ops: seq<Op>, j: nat) { ApprovalAt(t0, ops, j) && SteadySince(ops, j) }

  /** The attestor is approved if and only if an approval took effect and every observation since was
      steady and on the primary. */
  lemma ApprovedExactly(t0: Trust, ops: seq<Op>)
    requires Unseen(t0)
    ensures Run(t0, ops).approved <==> exists j: nat :: ApprovedBy(t0, ops, j)
  {
    hide Inv, Run, SteadySince, Approves;
    if Run(t0, ops).approved {
      var j := ApprovalBehindIt(t0, ops);
      assert ApprovedBy(t0, ops, j);
    }
    if j: nat :| ApprovedBy(t0, ops, j) { ApprovalLasts(t0, ops, j); }
  }

  lemma {:induction false} ApprovalLasts(t0: Trust, ops: seq<Op>, j: nat)
    requires Unseen(t0) && ApprovedBy(t0, ops, j)
    ensures Run(t0, ops).approved
  {
    var n := |ops| - 1;
    RunInv(t0, ops[..n]);
    if j < n {
      SteadyBefore(ops, j);
      assert ops[..n][..j] == ops[..j];
      ApprovalLasts(t0, ops[..n], j);
      RunLast(t0, ops);
      hide Run, Inv, SteadySince, Steady, Approves;
      KeepsApproval(Run(t0, ops[..n]), ops[n]);
    } else {
      RunLast(t0, ops);
      hide Run, Inv, SteadySince;
    }
  }

  lemma SteadyBefore(ops: seq<Op>, j: nat)
    requires j < |ops| - 1 && SteadySince(ops, j)
    ensures var n := |ops| - 1;
            && SteadySince(ops[..n], j)
            && (ops[n].Observe? ==> ops[n].o.Reading? && ops[n].o.matches && LastReading(ops[..n]).Some?
                                    && Steady(LastReading(ops[..n]).value, ops[n].o.wall, ops[n].o.continuousNs))
  {
    hide Steady, LastReading;
    var n := |ops| - 1;
    forall k | j < k < n ensures ops[..n][k] == ops[k] && ops[..n][..k] == ops[..k] {
    }
  }

  lemma KeepsApproval(t: Trust, op: Op)
    requires Inv(t) && t.approved
    requires op.Observe? ==> op.o.Reading? && op.o.matches && t.last.Some? && Steady(t.last.value, op.o.wall, op.o.continuousNs)
    ensures Apply(t, op).approved
  {
    hide Steady, Acceptable, ToWire, Approvable;
  }

  // ----- The sample -----

  /** Op k brought a new sample, and nothing after it brought another or dropped it. */
  ghost predicate SampleStands(t0: Trust, ops: seq<Op>, k: nat) {
    && k < |ops| && NewSample(Run(t0, ops[..k]), ops[k])
    && forall i :: k < i < |ops| ==> Quiet(t0, ops, i)
  }

  ghost predicate Quiet(t0: Trust, ops: seq<Op>, i: nat)
    requires i < |ops|
  {
    !Disturbs(Run(t0, ops[..i]), ops[i]) && !NewSample(Run(t0, ops[..i]), ops[i])
  }

  lemma NewSampleStays(t: Trust, op: Op)
    requires Inv(t)
    ensures NewSample(t, op) ==> op.s.Sample? && Apply(t, op).sample == Some(ToWire(op.s)) && !Disturbs(t, op)
    ensures Disturbs(t, op) ==> Apply(t, op).sample == None
    ensures !Disturbs(t, op) && !NewSample(t, op) ==> Apply(t, op).sample == t.sample
  {
    if op.Observe? { ObservedEffect(t, op.o); }
    if op.Approve? { ApprovedLeavesClock(t, op.revision, op.uid); }
    hide WithinBudget, ToWire, Steady, Fresh, Approvable, Observed;
  }

  /** The op of the sample that stands, if one does. */
  function Standing(t0: Trust, ops: seq<Op>): (k: Option<nat>)
    ensures k.Some? ==> k.value < |ops| && ops[k.value].Record? && ops[k.value].s.Sample?
  {
    if ops == [] then None
    else
      var n := |ops| - 1;
      if NewSample(Run(t0, ops[..n]), ops[n]) then Some(n)
      else if Disturbs(Run(t0, ops[..n]), ops[n]) then None
      else Standing(t0, ops[..n])
  }

  lemma {:induction false} StandingStands(t0: Trust, ops: seq<Op>, k: nat)
    ensures Standing(t0, ops) == Some(k) <==> SampleStands(t0, ops, k)
  {
    hide Run, NewSample, Disturbs;
    if ops != [] {
      var n := |ops| - 1;
      StandingStands(t0, ops[..n], k);
      QuietBefore(t0, ops[..n], ops);
      if k < n {
        assert ops[..n][..k] == ops[..k] && ops[..n][k] == ops[k];
        assert SampleStands(t0, ops, k) ==> Quiet(t0, ops, n);
      }
    }
  }

  lemma QuietBefore(t0: Trust, before: seq<Op>, ops: seq<Op>)
    requires ops != [] && before == ops[..|ops| - 1]
    ensures forall i :: 0 <= i < |before| ==> Quiet(t0, before, i) == Quiet(t0, ops, i)
  {
    forall i | 0 <= i < |before| ensures Quiet(t0, before, i) == Quiet(t0, ops, i) {
      assert before[..i] == ops[..i];
      hide Run, NewSample, Disturbs;
    }
  }

  lemma {:induction false} StandingIsTheSample(t0: Trust, ops: seq<Op>)
    requires Unseen(t0)
    ensures Run(t0, ops).sample ==
      if Standing(t0, ops).None? then None else Some(ToWire(ops[Standing(t0, ops).value].s))
  {
    if ops != [] {
      var n := |ops| - 1;
      StandingIsTheSample(t0, ops[..n]);
      RunInv(t0, ops[..n]);
      NewSampleStays(Run(t0, ops[..n]), ops[n]);
      RunLast(t0, ops);
      hide Run, Inv, Apply, Disturbs, NewSample, ToWire, Unseen;
    }
  }

  // ----- What is accepted -----

  /** A sample issued at most a second before the latest reading and at most 100 ms after it. */
  predicate IsRecent(ops: seq<Op>, s: RawSample) {
    LastReading(ops).Some? && s.Sample? && -100.0 <= LastReading(ops).value.wall - s.issuedMs as real <= 1000.0
  }

  /** Whole microseconds of offset, uncertainty and bracket that make at most 98 ms. */
  predicate Budget(s: RawSample, offsetUs: int, uncertaintyUs: int, bracketUs: int) {
    && s.Sample? && s.uncertainty >= 0.0 && s.bracket >= 0.0
    && -(offsetUs as real) <= s.offset * 1000.0 <= offsetUs as real
    && s.uncertainty * 1000.0 <= uncertaintyUs as real && s.bracket * 1000.0 <= bracketUs as real
    && offsetUs + uncertaintyUs + bracketUs <= 98_000
  }

  /** A sample is accepted if and only if its parts, rounded up to whole microseconds, make at most
      98 ms, it is recent and not older than the one before, the latest reading was on the primary,
      and no generation has run out. */
  lemma AcceptedExactly(t0: Trust, ops: seq<Op>, s: RawSample)
    requires JustBooted(t0)
    ensures var t := Run(t0, ops);
            Acceptable(t, s) <==>
              && (exists a, b, c :: Budget(s, a, b, c)) && IsRecent(ops, s) && OnPrimary(ops) && !t.fatal
              && (t.lastIndependentMs.Some? ==> t.lastIndependentMs.value <= s.issuedMs)
  {
    RunIsSound(t0, ops);
    RunKnowsPrimary(t0, ops);
    hide Run, OnPrimary, LastReading, WithinBudget, Budget;
    if s.Sample? {
      BudgetExactly(s);
    } else if a, b, c :| Budget(s, a, b, c) {
      NoBudget(s, a, b, c);
    }
  }

  lemma NoBudget(s: RawSample, a: int, b: int, c: int)
    requires Budget(s, a, b, c)
    ensures s.Sample?
  {
  }

  lemma BudgetExactly(s: RawSample)
    requires s.Sample?
    ensures WithinBudget(s) <==> exists a, b, c :: Budget(s, a, b, c)
  {
    var a, b, c := Ceiling(Abs(s.offset) * 1000.0), Ceiling(s.uncertainty * 1000.0), Ceiling(s.bracket * 1000.0);
    RoundsUp(Abs(s.offset) * 1000.0, a);
    RoundsUp(s.uncertainty * 1000.0, b);
    RoundsUp(s.bracket * 1000.0, c);
    hide Ceiling;
    assert WithinBudget(s) ==> Budget(s, a, b, c);
    if x, y, z :| Budget(s, x, y, z) {
      RoundsUp(Abs(s.offset) * 1000.0, x);
      RoundsUp(s.uncertainty * 1000.0, y);
      RoundsUp(s.bracket * 1000.0, z);
    }
  }

  lemma RoundsUp(x: real, n: int)
    ensures x <= Ceiling(x) as real && (x <= n as real ==> Ceiling(x) <= n)
  {
  }

  // ----- The evidence -----

  ghost predicate Backed(t0: Trust, ops: seq<Op>, k: nat) { SampleStands(t0, ops, k) && IsRecent(ops, ops[k].s) }

  /** Evidence is given out if and only if an effective approval was followed by steady observations on
      the primary only, and a recent sample stands; it then carries that sample. */
  lemma EvidenceExactly(persisted: Option<Generations>, t0: Trust, ops: seq<Op>)
    requires Boot(persisted) == Some(t0)
    ensures EvidenceOf(Run(t0, ops)).Evidence? <==>
            (exists j: nat :: ApprovedBy(t0, ops, j)) && (exists k: nat :: Backed(t0, ops, k))
    ensures forall k: nat :: SampleStands(t0, ops, k) && EvidenceOf(Run(t0, ops)).Evidence? ==>
              ops[k].s.Sample? && EvidenceOf(Run(t0, ops)).sample == ToWire(ops[k].s)
  {
    hide Run, Inv, ApprovedBy, SampleStands, ToWire, Standing, Unseen, LastReading;
    BootIsUnseen(persisted);
    ApprovedExactly(t0, ops);
    StandingIsTheSample(t0, ops);
    forall k: nat ensures Standing(t0, ops) == Some(k) <==> SampleStands(t0, ops, k) { StandingStands(t0, ops, k); }
    RunIsSound(t0, ops);
    if k :| Standing(t0, ops) == Some(k) {
      IssuedOnTheWire(ops[k].s);
      assert Backed(t0, ops, k) <==> IsRecent(ops, ops[k].s);
    }
    EvidenceMeans(Run(t0, ops));
  }

  lemma BootIsUnseen(persisted: Option<Generations>)
    requires Boot(persisted).Some?
    ensures Unseen(Boot(persisted).value)
  {
    BootInv(persisted);
  }

  lemma RunIsSound(t0: Trust, ops: seq<Op>)
    requires Unseen(t0)
    ensures Inv(Run(t0, ops)) && Run(t0, ops).last == LastReading(ops)
    ensures Run(t0, ops).last.Some? ==> Run(t0, ops).wall == Some(LastReading(ops).value.wall)
  {
    RunInv(t0, ops);
    hide Run, LastReading;
  }

  lemma IssuedOnTheWire(s: RawSample)
    requires s.Sample?
    ensures ToWire(s).issuedMs == s.issuedMs
  {
  }

  lemma EvidenceMeans(t: Trust)
    requires Inv(t)
    ensures EvidenceOf(t).Evidence? <==>
            t.approved && t.sample.Some? && t.last.Some? && t.wall.Some?
            && -100.0 <= t.wall.value - t.sample.value.issuedMs as real <= 1000.0
    ensures EvidenceOf(t).Evidence? ==> EvidenceOf(t).sample == t.sample.value
  {
  }

  // ----- What an approval is given for -----

  lemma RevisionMoves(t: Trust, op: Op)
    requires Inv(t)
    ensures var u := Apply(t, op);
            && u.revision >= t.revision
            && (u.revision == t.revision <==> !Disturbs(t, op) && !NewSample(t, op))
            && (u.revision == t.revision ==>
                  && u.sample == t.sample && u.consecutive == t.consecutive
                  && u.generations.step == t.generations.step && u.generations.failover == t.generations.failover)
  {
    match op {
      case Observe(o) =>
        ObservedEffect(t, o);
        ObservationRotates(t, o);
        hide Observed, Calm;
      case Record(s) => hide Acceptable, ToWire;
      case Approve(revision, uid) => hide Approvable;
    }
  }

  lemma ObservationRotates(t: Trust, o: Observation)
    requires Inv(t)
    ensures Observed(t, o).revision >= t.revision && (Calm(t, o) <==> Observed(t, o).revision == t.revision)
  {
    hide Steady, GenerationsOrdered;
  }

  /** While the observation keeps its id, no sample comes or goes and no generation moves: an approval
      that names the id of an earlier status approves exactly what that status showed. */
  lemma {:induction false} ApprovesWhatWasSeen(t0: Trust, ops: seq<Op>, i: nat)
    requires Unseen(t0) && i <= |ops|
    ensures var seen, now := Run(t0, ops[..i]), Run(t0, ops);
            && now.revision >= seen.revision
            && (now.revision == seen.revision <==> forall m :: i <= m < |ops| ==> Quiet(t0, ops, m))
            && (now.revision == seen.revision ==>
                  && now.sample == seen.sample && now.consecutive == seen.consecutive
                  && now.generations.step == seen.generations.step && now.generations.failover == seen.generations.failover)
  {
    hide Run, Inv, Apply, Disturbs, NewSample, Unseen;
    if i == |ops| {
      assert ops[..i] == ops;
    } else {
      var n := |ops| - 1;
      ApprovesWhatWasSeen(t0, ops[..n], i);
      assert ops[..n][..i] == ops[..i];
      RunIsSound(t0, ops[..n]);
      RunLast(t0, ops);
      RevisionMoves(Run(t0, ops[..n]), ops[n]);
      QuietBefore(t0, ops[..n], ops);
      assert Quiet(t0, ops, n) <==> Run(t0, ops).revision == Run(t0, ops[..n]).revision;
    }
  }

  // ----- What has been cleared -----

  /** The generations that the last effective approval found, or else those of the boot. */
  function LastCleared(t0: Trust, ops: seq<Op>): (int, int) {
    if ops == [] then (t0.generations.clearedStep, t0.generations.clearedFailover)
    else
      var before, op := Run(t0, ops[..|ops| - 1]), ops[|ops| - 1];
      if op.Approve? && Approves(before, op.revision, op.uid) then (before.generations.step, before.generations.failover)
      else LastCleared(t0, ops[..|ops| - 1])
  }

  lemma OpClears(t: Trust, op: Op)
    requires Inv(t)
    ensures var g := Apply(t, op).generations;
            (g.clearedStep, g.clearedFailover) ==
            if op.Approve? && Approves(t, op.revision, op.uid) then (t.generations.step, t.generations.failover)
            else (t.generations.clearedStep, t.generations.clearedFailover)
  {
    match op {
      case Observe(o) => ObservationClearsNothing(t, o);
      case Record(s) => RecordedLeavesClock(t, s);
      case Approve(revision, uid) =>
    }
    hide Observed, Recorded, Fresh;
  }

  lemma ObservationClearsNothing(t: Trust, o: Observation)
    requires Inv(t)
    ensures Observed(t, o).generations.clearedStep == t.generations.clearedStep
    ensures Observed(t, o).generations.clearedFailover == t.generations.clearedFailover
  {
    hide Steady, GenerationsGood, Invalidated;
    if o.Malformed? {
      InvalidationClearsNothing(t, ClockUnhealthy, StepGeneration);
    } else {
      ReadingAfterDeparture(t, o);
      InvalidationClearsNothing(t, PrimaryChanged, FailoverGeneration);
      InvalidationClearsNothing(Departed(t, o.matches), if o.matches then ClockUnhealthy else PrimaryChanged, StepGeneration);
    }
    hide Observed;
  }

  lemma InvalidationClearsNothing(t: Trust, reason: Reason, generation: Generation)
    ensures Invalidated(t, reason, Some(generation)).generations.clearedStep == t.generations.clearedStep
    ensures Invalidated(t, reason, Some(generation)).generations.clearedFailover == t.generations.clearedFailover
  {
  }

  /** Cleared generations change by an effective approval only, and only to what it found. */
  lemma {:induction false} ClearedExactly(persisted: Option<Generations>, t0: Trust, ops: seq<Op>)
    requires Boot(persisted) == Some(t0)
    ensures var booted, g := if persisted.None? then Generations(0, 0, 0, 0) else persisted.value, Run(t0, ops).generations;
            && (g.clearedStep, g.clearedFailover) == LastCleared(t0, ops)
            && LastCleared(t0, []) == (booted.clearedStep, booted.clearedFailover)
  {
    BootIsUnseen(persisted);
    if ops != [] {
      ClearedExactly(persisted, t0, ops[..|ops| - 1]);
      RunIsSound(t0, ops[..|ops| - 1]);
      RunLast(t0, ops);
      OpClears(Run(t0, ops[..|ops| - 1]), ops[|ops| - 1]);
      hide Run, Inv, Apply, Approves, Unseen;
    }
  }

  // ----- Why there is no evidence -----

  /** The reason of the last clock fault or departure, or that nobody has approved yet. */
  function Latched(ops: seq<Op>): Reason {
    if ops == [] then NotApproved
    else
      var before, op := ops[..|ops| - 1], ops[|ops| - 1];
      if ClockFault(before, op) then (if op.o.Reading? && !op.o.matches then PrimaryChanged else ClockUnhealthy)
      else if Departure(before, op) then PrimaryChanged
      else Latched(before)
  }

  /** Whether the last sample that was not a repetition was rejected. */
  function SampleFault(t0: Trust, ops: seq<Op>): Reason {
    if ops == [] then SampleUnavailable
    else
      var before, op := ops[..|ops| - 1], ops[|ops| - 1];
      if op.Record? && Disturbs(Run(t0, before), op) then ClockUnhealthy
      else if NewSample(Run(t0, before), op) then SampleUnavailable
      else SampleFault(t0, before)
  }

  /** While unapproved the latch is the reason of the run. */
  ghost predicate TellsWhy(t: Trust, t0: Trust, ops: seq<Op>) {
    (!t.approved ==> t.latchReason == Some(Latched(ops))) && t.sampleReason == SampleFault(t0, ops)
  }

  lemma ObservationLatches(t: Trust, ops: seq<Op>, o: Observation)
    requires Inv(t) && t.last == LastReading(ops) && KnowsPrimary(t, ops)
    ensures var u := Observed(t, o);
            && u.sampleReason == t.sampleReason
            && (if ClockFault(ops, Observe(o)) then
                  !u.approved && u.latchReason == Some(if o.Reading? && !o.matches then PrimaryChanged else ClockUnhealthy)
                else if Departure(ops, Observe(o)) then !u.approved && u.latchReason == Some(PrimaryChanged)
                else u.latchReason == t.latchReason && u.approved == t.approved)
  {
    hide LastReading, MovesAlong, Steady, GenerationsGood, KnowsPrimary, Counted;
    if o.Malformed? {
      CountedLeavesReasons(Dropped(t, ClockUnhealthy), StepGeneration);
    } else {
      DepartureExactly(t, ops, o);
      ReadingAfterDeparture(t, o);
      var u := Departed(t, o.matches);
      CountedLeavesReasons(Dropped(t, PrimaryChanged), FailoverGeneration);
      CountedLeavesReasons(Dropped(u, if o.matches then ClockUnhealthy else PrimaryChanged), StepGeneration);
      if t.last.Some? { SteadyMeans(t.last.value, o.wall, o.continuousNs); }
    }
    hide Observed;
  }

  lemma CountedLeavesReasons(t: Trust, generation: Generation)
    ensures var u := Counted(t, generation);
            u.approved == t.approved && u.latchReason == t.latchReason && u.sampleReason == t.sampleReason && u.last == t.last
  {
  }

  lemma DepartureExactly(t: Trust, ops: seq<Op>, o: Observation)
    requires KnowsPrimary(t, ops) && o.Reading?
    ensures Departure(ops, Observe(o)) <==> !o.matches && (t.primaryMatches || t.latchReason == Some(NotApproved))
  {
  }

  lemma OpTellsWhy(t0: Trust, ops: seq<Op>)
    requires JustBooted(t0) && ops != [] && TellsWhy(Run(t0, ops[..|ops| - 1]), t0, ops[..|ops| - 1])
    ensures TellsWhy(Run(t0, ops), t0, ops)
  {
    hide Run, Inv, KnowsPrimary, ClockFault, Departure, Observed, Recorded, Approved, JustBooted, Unseen, Acceptable, Calm, Approves;
    var before, op := ops[..|ops| - 1], ops[|ops| - 1];
    var t := Run(t0, before);
    BootedIsUnseen(t0);
    RunIsSound(t0, before);
    RunKnowsPrimary(t0, before);
    RunLast(t0, ops);
    match op {
      case Observe(o) => ObservationLatches(t, before, o);
      case Record(s) => RecordTellsWhy(t, s);
      case Approve(revision, uid) => ApprovalTellsWhy(t, revision, uid);
    }
    NoFaultElsewhere(before, op);
  }

  lemma BootedIsUnseen(t0: Trust)
    requires JustBooted(t0)
    ensures Unseen(t0) && t0.latchReason == Some(NotApproved)
  {
  }

  lemma NoFaultElsewhere(before: seq<Op>, op: Op)
    ensures !op.Observe? ==> !ClockFault(before, op) && !Departure(before, op)
  {
  }

  lemma RecordTellsWhy(t: Trust, s: RawSample)
    requires Inv(t)
    ensures var u := Recorded(t, s);
            && u.approved == t.approved && u.latchReason == t.latchReason
            && u.sampleReason == (if !Acceptable(t, s) then ClockUnhealthy
                                  else if t.lastIndependentMs != Some(s.issuedMs) then SampleUnavailable else t.sampleReason)
  {
    hide Acceptable, ToWire;
    if Acceptable(t, s) { AcceptableIsSample(t, s); }
  }

  lemma ApprovalTellsWhy(t: Trust, revision: nat, uid: int)
    requires Inv(t)
    ensures var u := Approved(t, revision, uid);
            && u.sampleReason == t.sampleReason && (u.approved || (!t.approved && u.latchReason == t.latchReason))
  {
    hide Approvable;
  }

  lemma {:induction false} RunTellsWhy(t0: Trust, ops: seq<Op>)
    requires JustBooted(t0) && t0.sampleReason == SampleUnavailable
    ensures TellsWhy(Run(t0, ops), t0, ops)
  {
    if ops == [] {
      BootedIsUnseen(t0);
    } else {
      hide TellsWhy, JustBooted, Run;
      RunTellsWhy(t0, ops[..|ops| - 1]);
      OpTellsWhy(t0, ops);
    }
  }

  /** A refusal gives the first reason that applies: a generation has run out or the latest observation
      was no reading; the latest reading was away from the primary; nobody has approved since the last
      fault or departure, with its reason; the sample is missing, with its reason; or it is too old. */
  lemma ReasonExactly(persisted: Option<Generations>, t0: Trust, ops: seq<Op>)
    requires Boot(persisted) == Some(t0) && EvidenceOf(Run(t0, ops)).Unavailable?
    ensures EvidenceOf(Run(t0, ops)).reason ==
      if Run(t0, ops).fatal || LastReading(ops).None? then ClockUnhealthy
      else if !OnPrimary(ops) then PrimaryChanged
      else if !exists j: nat :: ApprovedBy(t0, ops, j) then Latched(ops)
      else if !exists k: nat :: SampleStands(t0, ops, k) then SampleFault(t0, ops)
      else SampleUnavailable
  {
    BootKnows(persisted);
    hide Run, LastReading, OnPrimary, ApprovedBy, SampleStands, Latched, SampleFault, JustBooted, Unseen, Standing, Fresh;
    BootedIsUnseen(t0);
    RunTellsWhy(t0, ops);
    RunIsSound(t0, ops);
    RunKnowsPrimary(t0, ops);
    ApprovedExactly(t0, ops);
    StandingIsTheSample(t0, ops);
    forall k: nat ensures Standing(t0, ops) == Some(k) <==> SampleStands(t0, ops, k) { StandingStands(t0, ops, k); }
    ReasonOf(Run(t0, ops));
  }

  lemma ReasonOf(t: Trust)
    requires Inv(t) && EvidenceOf(t).Unavailable?
    ensures EvidenceOf(t).reason ==
      if t.fatal || t.last.None? then ClockUnhealthy
      else if !t.primaryMatches then PrimaryChanged
      else if !t.approved then (if t.latchReason.Some? then t.latchReason.value else NotApproved)
      else if t.sample.None? then t.sampleReason
      else SampleUnavailable
  {
    hide Fresh;
  }
}
