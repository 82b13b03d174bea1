/** What a run must have looked like for the attestor to hand out evidence. */
module ClockHistory {
  import opened ClockTrust
  import opened Options

  datatype Op = Observe(o: Observation) | Record(s: RawSample) | Approve(revision: nat, uid: int)

  function Apply(t: Trust, op: Op): Trust {
    match op
    case Observe(o) => Observed(t, o)
    case Record(s) => Recorded(t, s)
    case Approve(revision, uid) => Approved(t, revision, uid)
  }

  function Run(t0: Trust, ops: seq<Op>): Trust {
    if ops == [] then t0 else Apply(Run(t0, ops[..|ops| - 1]), ops[|ops| - 1])
  }

  /** The latest reading of the system clock, unless the latest observation was malformed. */
  function LastReading(ops: seq<Op>): Option<Clock> {
    if ops == [] then None
    else
      match ops[|ops| - 1]
      case Observe(Reading(wall, ns, _)) => Some(Clock(wall, ns))
      case Observe(Malformed) => None
      case _ => LastReading(ops[..|ops| - 1])
  }

  ghost predicate Inv(t: Trust) {
    && GenerationsGood(t) && (t.approved ==> !t.fatal)
    && (t.approved ==> t.latchReason == None && t.primaryMatches && t.observationValid)
    && (t.observationValid <==> t.last.Some?) && (t.last.Some? ==> t.wall == Some(t.last.value.wall))
    && t.consecutive <= 3
    && (t.consecutive > 0 ==> t.sample.Some?)
    && (t.sample.Some? ==> t.lastIndependentMs == Some(t.sample.value.issuedMs))
  }

  lemma BootInv(persisted: Option<Generations>)
    requires Boot(persisted).Some?
    ensures Inv(Boot(persisted).value)
  {
  }

  lemma InvalidatedKeeps(t: Trust, reason: Reason, generation: Option<Generation>)
    requires GenerationsGood(t)
    ensures var u := Invalidated(t, reason, generation);
            && GenerationsGood(u) && !u.approved && u.consecutive == 0 && u.sample == None && u.lastIndependentMs == None
            && u == t.(approved := false, latchReason := Some(reason), sample := None, lastIndependentMs := None,
                       consecutive := 0, revision := t.revision + 1, generations := u.generations, fatal := u.fatal)
            && u.generations.step >= t.generations.step && u.generations.failover >= t.generations.failover
            && u.generations.clearedStep == t.generations.clearedStep
            && u.generations.clearedFailover == t.generations.clearedFailover
  {
  }

  /** The observation does not invalidate what has been built up. */
  predicate Calm(t: Trust, o: Observation) {
    && o.Reading?
    && !(!o.matches && (t.primaryMatches || t.latchReason == Some(NotApproved)))
    && (t.last.Some? ==> Steady(t.last.value, o.wall, o.continuousNs))
  }

  /** A calm observation only updates what is known about the clock; any other drops everything. */
  lemma ObservedEffect(t: Trust, o: Observation)
    requires Inv(t)
    ensures var u := Observed(t, o);
            && Inv(u) && u.generations.step >= t.generations.step
            && u.last == (if o.Reading? then Some(Clock(o.wall, o.continuousNs)) else None)
            && (if Calm(t, o)
                then u == t.(primaryMatches := o.matches, last := u.last, wall := u.wall, observationValid := true)
                else u.consecutive == 0 && u.sample == None && !u.approved)
  {
    hide Steady, Invalidated, GenerationsGood;
    if o.Malformed? {
      InvalidatedKeeps(t, ClockUnhealthy, Some(StepGeneration));
    } else {
      var t1 := if !o.matches && (t.primaryMatches || t.latchReason == Some(NotApproved))
                then Invalidated(t, PrimaryChanged, Some(FailoverGeneration)) else t;
      InvalidatedKeeps(t, PrimaryChanged, Some(FailoverGeneration));
      var t2 := t1.(primaryMatches := o.matches);
      assert GenerationsGood(t2) by { SameGenerations(t1, t2); }
      var reason := if o.matches then ClockUnhealthy else PrimaryChanged;
      InvalidatedKeeps(t2, reason, Some(StepGeneration));
      var t3 := if t2.last.Some? && !Steady(t2.last.value, o.wall, o.continuousNs)
                then Invalidated(t2, reason, Some(StepGeneration)) else t2;
      SameGenerations(t3, Observed(t, o));
    }
    SameGenerations(Invalidated(t, ClockUnhealthy, Some(StepGeneration)),
      Invalidated(t, ClockUnhealthy, Some(StepGeneration)).(last := None, observationValid := false));
  }

  lemma SameGenerations(t: Trust, u: Trust)
    requires u.generations == t.generations && u.approved == t.approved
    ensures GenerationsGood(u) == GenerationsGood(t)
  {
  }

  lemma RecordedEffect(t: Trust, s: RawSample)
    requires Inv(t)
    ensures Inv(Recorded(t, s))
  {
    hide Acceptable, ToWire;
    if Acceptable(t, s) {
      AcceptableIsSample(t, s);
      assert ToWire(s).issuedMs == s.issuedMs by { WireKeepsTime(s); }
    }
  }

  lemma WireKeepsTime(s: RawSample)
    requires s.Sample?
    ensures ToWire(s).issuedMs == s.issuedMs
  {
  }

  lemma ApprovedEffect(t: Trust, revision: nat, uid: int)
    requires Inv(t)
    ensures Inv(Approved(t, revision, uid))
  {
    hide Fresh;
  }

  lemma {:induction false} RunInv(t0: Trust, ops: seq<Op>)
    requires Inv(t0) && t0.last == None
    ensures Inv(Run(t0, ops))
    ensures Run(t0, ops).last == LastReading(ops)
    ensures Run(t0, ops).generations.step >= t0.generations.step
  {
    if ops != [] {
      var n := |ops| - 1;
      RunInv(t0, ops[..n]);
      var t := Run(t0, ops[..n]);
      hide Inv, Observed, Recorded, Approved;
      match ops[n] {
        case Observe(o) => ObservedEffect(t, o);
        case Record(s) =>
          RecordedEffect(t, s);
          RecordedLeavesClock(t, s);
        case Approve(revision, uid) =>
          ApprovedEffect(t, revision, uid);
          ApprovedLeavesClock(t, revision, uid);
      }
    }
  }

  lemma RecordedLeavesClock(t: Trust, s: RawSample)
    requires Inv(t)
    ensures var u := Recorded(t, s);
            u.last == t.last && u.generations == t.generations && u.approved == t.approved
  {
    hide Acceptable, ToWire;
    if Acceptable(t, s) { AcceptableIsSample(t, s); }
  }

  lemma ApprovedLeavesClock(t: Trust, revision: nat, uid: int)
    requires Inv(t)
    ensures var u := Approved(t, revision, uid);
            && u.last == t.last && u.generations.step == t.generations.step && u.consecutive == t.consecutive
            && u.sample == t.sample && u.lastIndependentMs == t.lastIndependentMs
            && (u.approved && !t.approved ==> Approves(t, revision, uid))
  {
    hide Approvable;
  }

  // ----- Since the approval -----

  /** Every observation after position j matched the primary and moved wall time within 10 ms of
      continuous time, over an interval in (0, 1000] ms since the observation before it. */
  ghost predicate SteadySince(ops: seq<Op>, j: nat) {
    forall k :: j < k < |ops| && ops[k].Observe? ==>
      && ops[k].o.Reading? && ops[k].o.matches && LastReading(ops[..k]).Some?
      && Steady(LastReading(ops[..k]).value, ops[k].o.wall, ops[k].o.continuousNs)
  }

  lemma {:induction false} ApprovalBehindIt(t0: Trust, ops: seq<Op>) returns (j: nat)
    requires Inv(t0) && t0.last == None && !t0.approved && Run(t0, ops).approved
    ensures j < |ops| && ops[j].Approve? && Approves(Run(t0, ops[..j]), ops[j].revision, ops[j].uid)
    ensures SteadySince(ops, j)
  {
    j := 0;
    if ops != [] {
      var n := |ops| - 1;
      var t := Run(t0, ops[..n]);
      RunInv(t0, ops[..n]);
      if ops[n].Approve? && Approves(t, ops[n].revision, ops[n].uid) {
        j := n;
      } else {
        assert t.approved && (ops[n].Observe? ==> Calm(t, ops[n].o) && ops[n].o.matches) by {
          StaysApproved(t, ops[n]);
        }
        hide Run, Inv, Steady, Approves;
        j := ApprovalBehindIt(t0, ops[..n]);
        assert ops[..n][..j] == ops[..j];
        SteadyGrows(ops, j);
      }
    }
  }

  lemma StaysApproved(t: Trust, op: Op)
    requires Inv(t) && Apply(t, op).approved
    requires op.Approve? ==> !Approves(t, op.revision, op.uid)
    ensures t.approved
    ensures op.Observe? ==> Calm(t, op.o) && op.o.matches
  {
    match op {
      case Observe(o) =>
        ObservedEffect(t, o);
        hide Steady;
      case Record(s) => RecordedLeavesClock(t, s);
      case Approve(revision, uid) => ApprovedLeavesClock(t, revision, uid);
    }
  }

  lemma SteadyGrows(ops: seq<Op>, j: nat)
    requires ops != [] && SteadySince(ops[..|ops| - 1], j)
    requires var n := |ops| - 1; ops[n].Observe? ==>
      && ops[n].o.Reading? && ops[n].o.matches && LastReading(ops[..n]).Some?
      && Steady(LastReading(ops[..n]).value, ops[n].o.wall, ops[n].o.continuousNs)
    ensures SteadySince(ops, j)
  {
    hide Steady, LastReading;
    var n := |ops| - 1;
    forall k | j < k < n && ops[k].Observe? ensures ops[..n][k] == ops[k] && ops[..n][..k] == ops[..k] {
    }
  }

  // ----- The samples behind an approval -----

  /** An op that resets the count of accepted samples. */
  predicate Disturbs(t: Trust, op: Op) {
    (op.Observe? && !Calm(t, op.o)) || (op.Record? && !Acceptable(t, op.s))
  }

  predicate IsSample(ops: seq<Op>, k: nat) { k < |ops| && ops[k].Record? && ops[k].s.Sample? }

  predicate AllSamples(ops: seq<Op>, idx: seq<nat>) { forall m :: 0 <= m < |idx| ==> IsSample(ops, idx[m]) }

  predicate IssuedInOrder(ops: seq<Op>, idx: seq<nat>)
    requires AllSamples(ops, idx)
  {
    forall m, l :: 0 <= m < l < |idx| ==> idx[m] < idx[l] && ops[idx[m]].s.issuedMs < ops[idx[l]].s.issuedMs
  }

  /** At the indices idx samples were accepted, issued at strictly increasing times, and from the
      first of them on nothing was invalidated or rejected. */
  ghost predicate Streak(t0: Trust, ops: seq<Op>, idx: seq<nat>) {
    && AllSamples(ops, idx) && IssuedInOrder(ops, idx)
    && (forall m :: 0 <= m < |idx| ==> Acceptable(Run(t0, ops[..idx[m]]), ops[idx[m]].s))
    && (idx != [] ==> forall k :: idx[0] <= k < |ops| ==> !Disturbs(Run(t0, ops[..k]), ops[k]))
  }

  lemma StreakGrows(t0: Trust, ops: seq<Op>, idx: seq<nat>)
    requires ops != [] && Streak(t0, ops[..|ops| - 1], idx)
    requires !Disturbs(Run(t0, ops[..|ops| - 1]), ops[|ops| - 1])
    ensures Streak(t0, ops, idx)
  {
    var n := |ops| - 1;
    hide Run, Acceptable, Disturbs;
    forall k | 0 <= k < n ensures ops[..n][k] == ops[k] && ops[..n][..k] == ops[..k] {
    }
  }

  lemma StreakForgets(t0: Trust, ops: seq<Op>, idx: seq<nat>)
    requires Streak(t0, ops, idx) && |idx| >= 2
    ensures Streak(t0, ops, idx[1..])
  {
    hide Run, Acceptable, Disturbs;
    assert idx[0] < idx[1];
  }

  /** The last op is a sample issued later than the samples at idx. */
  ghost predicate EndsLater(ops: seq<Op>, idx: seq<nat>) {
    && ops != [] && IsSample(ops, |ops| - 1)
    && (forall m :: 0 <= m < |idx| ==>
          idx[m] < |ops| - 1 && IsSample(ops, idx[m]) && ops[idx[m]].s.issuedMs < ops[|ops| - 1].s.issuedMs)
  }

  lemma StreakPush(t0: Trust, ops: seq<Op>, idx: seq<nat>)
    requires EndsLater(ops, idx) && Streak(t0, ops, idx)
    requires Acceptable(Run(t0, ops[..|ops| - 1]), ops[|ops| - 1].s)
    ensures Streak(t0, ops, idx + [|ops| - 1])
  {
    var n := |ops| - 1;
    assert !Disturbs(Run(t0, ops[..n]), ops[n]);
    OrderPush(ops, idx);
    hide Run, Acceptable, Disturbs, IssuedInOrder;
  }

  lemma OrderPush(ops: seq<Op>, idx: seq<nat>)
    requires EndsLater(ops, idx) && AllSamples(ops, idx) && IssuedInOrder(ops, idx)
    ensures AllSamples(ops, idx + [|ops| - 1]) && IssuedInOrder(ops, idx + [|ops| - 1])
  {
  }

  lemma StreakExtends(t0: Trust, ops: seq<Op>, idx: seq<nat>) returns (longer: seq<nat>)
    requires EndsLater(ops, idx) && Streak(t0, ops, idx) && |idx| <= 3
    requires Acceptable(Run(t0, ops[..|ops| - 1]), ops[|ops| - 1].s)
    ensures Streak(t0, ops, longer) && |longer| == (if |idx| + 1 < 3 then |idx| + 1 else 3)
    ensures longer[|longer| - 1] == |ops| - 1
  {
    hide Run, Acceptable, Streak;
    if |idx| == 3 {
      StreakForgets(t0, ops, idx);
      StreakPush(t0, ops, idx[1..]);
      longer := idx[1..] + [|ops| - 1];
    } else {
      StreakPush(t0, ops, idx);
      longer := idx + [|ops| - 1];
    }
  }

  /** A newly accepted sample is counted, up to three. */
  predicate NewSample(t: Trust, op: Op) { op.Record? && Acceptable(t, op.s) && t.lastIndependentMs != Some(op.s.issuedMs) }

  lemma NewSampleCounts(t: Trust, op: Op)
    requires Inv(t) && NewSample(t, op)
    ensures op.s.Sample?
    ensures Apply(t, op).lastIndependentMs == Some(op.s.issuedMs)
    ensures Apply(t, op).consecutive == if t.consecutive + 1 < 3 then t.consecutive + 1 else 3
  {
  }

  /** What SamplesBehindIt finds: as many samples as the state counts, ending with the latest. */
  ghost predicate Explains(t0: Trust, ops: seq<Op>, idx: seq<nat>) {
    && Streak(t0, ops, idx) && |idx| == Run(t0, ops).consecutive
    && (idx != [] ==> Run(t0, ops).lastIndependentMs == Some(ops[idx[|idx| - 1]].s.issuedMs))
  }

  lemma {:induction false} SamplesBehindIt(t0: Trust, ops: seq<Op>) returns (idx: seq<nat>)
    requires Inv(t0) && t0.last == None && t0.consecutive == 0
    ensures Explains(t0, ops, idx)
  {
    idx := [];
    if ops != [] {
      var n := |ops| - 1;
      var t, op := Run(t0, ops[..n]), ops[n];
      RunInv(t0, ops[..n]);
      hide Inv, Apply, Streak, Acceptable;
      if !Disturbs(t, op) {
        var before := SamplesBehindIt(t0, ops[..n]);
        StreakGrows(t0, ops, before);
        if NewSample(t, op) {
          idx := ExplainsNew(t0, ops, before);
        } else {
          idx := before;
          QuietOp(t, op);
          StreakWithin(t0, ops[..n], before);
        }
      } else {
        DisturbedCount(t, op);
        assert Streak(t0, ops, []) by { NoStreak(t0, ops); }
      }
    }
  }

  lemma NoStreak(t0: Trust, ops: seq<Op>)
    ensures Streak(t0, ops, [])
  {
  }

  lemma StreakWithin(t0: Trust, ops: seq<Op>, idx: seq<nat>)
    requires Streak(t0, ops, idx)
    ensures forall m :: 0 <= m < |idx| ==> idx[m] < |ops| && ops[idx[m]].Record? && ops[idx[m]].s.Sample?
  {
  }

  lemma RunLast(t0: Trust, ops: seq<Op>)
    requires ops != []
    ensures Run(t0, ops) == Apply(Run(t0, ops[..|ops| - 1]), ops[|ops| - 1])
  {
  }

  lemma ExplainsNew(t0: Trust, ops: seq<Op>, before: seq<nat>) returns (idx: seq<nat>)
    requires ops != [] && Inv(Run(t0, ops[..|ops| - 1])) && Explains(t0, ops[..|ops| - 1], before)
    requires Streak(t0, ops, before) && NewSample(Run(t0, ops[..|ops| - 1]), ops[|ops| - 1])
    ensures Explains(t0, ops, idx)
  {
    hide Streak, Acceptable, Apply, Run, EndsLater;
    var n := |ops| - 1;
    var t, op := Run(t0, ops[..n]), ops[n];
    NewSampleCounts(t, op);
    RunLast(t0, ops);
    LaterThanAll(t0, ops, before);
    idx := StreakExtends(t0, ops, before);
  }

  lemma LaterThanAll(t0: Trust, ops: seq<Op>, idx: seq<nat>)
    requires ops != [] && Streak(t0, ops, idx) && Explains(t0, ops[..|ops| - 1], idx)
    requires NewSample(Run(t0, ops[..|ops| - 1]), ops[|ops| - 1])
    ensures EndsLater(ops, idx)
  {
    hide Run, Acceptable, Disturbs;
    var n := |ops| - 1;
    StreakWithin(t0, ops[..n], idx);
    AcceptableMeans(Run(t0, ops[..n]), ops[n].s);
    assert forall m :: 0 <= m < |idx| ==> ops[..n][idx[m]] == ops[idx[m]];
  }

  lemma AcceptableMeans(t: Trust, s: RawSample)
    requires Acceptable(t, s)
    ensures s.Sample? && (t.lastIndependentMs.Some? ==> s.issuedMs >= t.lastIndependentMs.value)
  {
  }

  /** Nothing but a newly accepted sample changes the count or the latest independent sample. */
  lemma QuietOp(t: Trust, op: Op)
    requires Inv(t) && !Disturbs(t, op) && !NewSample(t, op)
    ensures Apply(t, op).consecutive == t.consecutive && Apply(t, op).lastIndependentMs == t.lastIndependentMs
  {
    match op {
      case Observe(o) => ObservedEffect(t, o);
      case Record(s) =>
      case Approve(revision, uid) => ApprovedLeavesClock(t, revision, uid);
    }
  }

  lemma DisturbedCount(t: Trust, op: Op)
    requires Inv(t) && Disturbs(t, op)
    ensures Apply(t, op).consecutive == 0
  {
    match op {
      case Observe(o) => ObservedEffect(t, o);
      case Record(s) =>
    }
  }

  // ----- The main result -----

  /** Evidence is only ever handed out when a root approval, given on three fresh and strictly
      later and later samples since the last disturbance, has been followed by nothing but steady
      matching observations. */
  lemma EvidenceIsEarned(persisted: Option<Generations>, t0: Trust, ops: seq<Op>) returns (j: nat, idx: seq<nat>)
    requires Boot(persisted) == Some(t0) && EvidenceOf(Run(t0, ops)).Evidence?
    ensures j < |ops| && ops[j].Approve? && ops[j].uid == 0
    ensures Approves(Run(t0, ops[..j]), ops[j].revision, ops[j].uid)
    ensures |idx| == 3 && Streak(t0, ops[..j], idx)
    ensures SteadySince(ops, j)
  {
    BootInv(persisted);
    j, idx := EarnedSince(t0, ops);
  }

  /** Nothing seen, counted or approved yet. */
  ghost predicate Unseen(t: Trust) {
    Inv(t) && t.last == None && !t.approved && t.sample == None && t.consecutive == 0
  }

  lemma EarnedSince(t0: Trust, ops: seq<Op>) returns (j: nat, idx: seq<nat>)
    requires Unseen(t0) && EvidenceOf(Run(t0, ops)).Evidence?
    ensures j < |ops| && ops[j].Approve? && ops[j].uid == 0
    ensures Approves(Run(t0, ops[..j]), ops[j].revision, ops[j].uid)
    ensures |idx| == 3 && Streak(t0, ops[..j], idx)
    ensures SteadySince(ops, j)
  {
    hide Run, Streak, SteadySince, Acceptable;
    RunInv(t0, ops);
    j := ApprovalBehindIt(t0, ops);
    idx := SamplesBehindIt(t0, ops[..j]);
    RunInv(t0, ops[..j]);
  }

  lemma Append(t0: Trust, ops: seq<Op>, op: Op) returns (more: seq<Op>)
    ensures more == ops + [op] && Run(t0, more) == Apply(Run(t0, ops), op)
  {
    more := ops + [op];
    assert more[..|ops|] == ops;
  }

  /** Evidence can be earned: three samples on a matching clock, an approval of that very
      observation, and one more steady reading. */
  lemma EvidenceCanBeEarned() returns (t0: Trust, ops: seq<Op>)
    ensures Boot(None) == Some(t0) && EvidenceOf(Run(t0, ops)).Evidence?
  {
    t0 := Boot(None).value;
    var look, again := Observe(Reading(1000.0, 0, true)), Observe(Reading(1100.0, 100000000, true));
    var a, b, c := Record(Sample(900, 1.0, 2.0, 0.0)), Record(Sample(950, 1.0, 2.0, 0.0)), Record(Sample(1000, 1.0, 2.0, 0.0));
    hide Apply, EvidenceOf;
    assert Run(t0, []) == t0;
    ops := Append(t0, [], look);
    ops := Append(t0, ops, a);
    ops := Append(t0, ops, b);
    ops := Append(t0, ops, c);
    ops := Append(t0, ops, Approve(4, 0));
    ops := Append(t0, ops, again);
    EarnsEvidence(t0, look, a, b, c, again);
  }

  lemma EarnsEvidence(t0: Trust, look: Op, a: Op, b: Op, c: Op, again: Op)
    requires Boot(None) == Some(t0)
    requires look == Observe(Reading(1000.0, 0, true)) && again == Observe(Reading(1100.0, 100000000, true))
    requires a == Record(Sample(900, 1.0, 2.0, 0.0)) && b == Record(Sample(950, 1.0, 2.0, 0.0))
    requires c == Record(Sample(1000, 1.0, 2.0, 0.0))
    ensures EvidenceOf(Apply(Apply(Apply(Apply(Apply(Apply(t0, look), a), b), c), Approve(4, 0)), again)).Evidence?
  {
    assert ToWire(c.s).issuedMs == 1000;
    hide WithinBudget, ToWire, Steady, Fresh;
    var t1 := Apply(t0, look);
    SmallSample(t1, 900);
    var t2 := Apply(t1, a);
    SmallSample(t2, 950);
    var t3 := Apply(t2, b);
    SmallSample(t3, 1000);
    var t4 := Apply(t3, c);
    ApprovalEarns(t4, again);
  }

  lemma SmallSample(t: Trust, issuedMs: int)
    requires GenerationsGood(t) && t.observationValid && t.primaryMatches && !t.fatal
    requires t.wall == Some(1000.0) && 0 <= issuedMs <= 1000
    requires t.lastIndependentMs.Some? ==> t.lastIndependentMs.value < issuedMs
    ensures var s := Sample(issuedMs, 1.0, 2.0, 0.0);
            Recorded(t, s) == t.(lastIndependentMs := Some(issuedMs), sample := Some(ToWire(s)),
                                 consecutive := if t.consecutive + 1 < 3 then t.consecutive + 1 else 3,
                                 sampleReason := SampleUnavailable, revision := t.revision + 1)
  {
    assert WithinBudget(Sample(issuedMs, 1.0, 2.0, 0.0));
    hide WithinBudget, ToWire, GenerationsGood;
  }

  lemma ApprovalEarns(t: Trust, again: Op)
    requires GenerationsGood(t) && t.observationValid && t.primaryMatches && !t.fatal && t.wall == Some(1000.0)
    requires t.last == Some(Clock(1000.0, 0)) && t.revision == 4 && t.consecutive == 3
    requires t.sample.Some? && t.sample.value.issuedMs == 1000
    requires again == Observe(Reading(1100.0, 100000000, true))
    ensures EvidenceOf(Apply(Apply(t, Approve(4, 0)), again)).Evidence?
  {
    var u := Apply(t, Approve(4, 0));
    assert u.approved && u.latchReason == None && Cleared(u.generations);
    assert Steady(Clock(1000.0, 0), 1100.0, 100000000);
    hide Steady;
  }

  function Observations(ops: seq<Op>): nat {
    if ops == [] then 0 else Observations(ops[..|ops| - 1]) + if ops[|ops| - 1].Observe? then 1 else 0
  }

  /** How far wall time has moved away from continuous time. */
  function Drift(a: Clock, b: Clock): real { b.wall - a.wall - ElapsedMs(a, b.continuousNs) }

  lemma DriftAdds(a: Clock, b: Clock, c: Clock)
    ensures Drift(a, c) == Drift(a, b) + Drift(b, c)
  {
    assert (c.continuousNs - a.continuousNs) as real
        == (b.continuousNs - a.continuousNs) as real + (c.continuousNs - b.continuousNs) as real;
  }

  /** Over n observations since position j the drift is at most 10 n ms. */
  lemma {:induction false} DriftIsBounded(ops: seq<Op>, j: nat)
    requires j < |ops| && !ops[j].Observe? && SteadySince(ops, j) && LastReading(ops[..j]).Some?
    ensures LastReading(ops).Some?
    ensures Abs(Drift(LastReading(ops[..j]).value, LastReading(ops).value))
         <= 10.0 * (Observations(ops) - Observations(ops[..j])) as real
  {
    var n := |ops| - 1;
    var start := LastReading(ops[..j]).value;
    if j == n {
      assert LastReading(ops) == LastReading(ops[..n]);
    } else {
      assert SteadySince(ops[..n], j) by {
        forall k | j < k < n ensures ops[..n][k] == ops[k] && ops[..n][..k] == ops[..k] {
        }
      }
      assert ops[..n][..j] == ops[..j];
      DriftIsBounded(ops[..n], j);
      var before := LastReading(ops[..n]).value;
      if ops[n].Observe? {
        DriftAdds(start, before, LastReading(ops).value);
      }
    }
  }

  /** The drift bound for handed-out evidence. */
  lemma EvidenceHasLittleDrift(persisted: Option<Generations>, t0: Trust, ops: seq<Op>) returns (j: nat)
    requires Boot(persisted) == Some(t0) && EvidenceOf(Run(t0, ops)).Evidence?
    ensures j < |ops| && ops[j].Approve? && ops[j].uid == 0
    ensures LastReading(ops[..j]).Some? && LastReading(ops).Some?
    ensures Abs(Drift(LastReading(ops[..j]).value, LastReading(ops).value))
         <= 10.0 * (Observations(ops) - Observations(ops[..j])) as real
  {
    var idx;
    j, idx := EvidenceIsEarned(persisted, t0, ops);
    BootInv(persisted);
    RunInv(t0, ops[..j]);
    hide Run, Streak, Drift, Observations, LastReading;
    DriftIsBounded(ops, j);
  }

  // ----- The error budget -----

  /** Evidence carries the rounded form of a sample that was accepted in the run. */
  lemma {:induction false} SampleBehindIt(t0: Trust, ops: seq<Op>) returns (k: nat)
    requires Inv(t0) && t0.last == None && t0.sample == None && Run(t0, ops).sample.Some?
    ensures k < |ops| && ops[k].Record? && ops[k].s.Sample? && WithinBudget(ops[k].s)
    ensures Run(t0, ops).sample == Some(ToWire(ops[k].s))
  {
    k := 0;
    if ops != [] {
      var n := |ops| - 1;
      RunInv(t0, ops[..n]);
      var t, op := Run(t0, ops[..n]), ops[n];
      hide WithinBudget, ToWire, Steady;
      if op.Record? && Acceptable(t, op.s) && t.lastIndependentMs != Some(op.s.issuedMs) {
        k := n;
      } else {
        SampleStays(t, op);
        k := SampleBehindIt(t0, ops[..n]);
      }
    }
  }

  lemma SampleStays(t: Trust, op: Op)
    requires Inv(t) && Apply(t, op).sample.Some?
    requires op.Record? ==> !Acceptable(t, op.s) || t.lastIndependentMs == Some(op.s.issuedMs)
    ensures Apply(t, op).sample == t.sample
  {
    match op {
      case Observe(o) => ObservedEffect(t, o);
      case Record(s) =>
      case Approve(revision, uid) => ApprovedLeavesClock(t, revision, uid);
    }
  }

  lemma CeilingBounds(x: real)
    ensures x <= Ceiling(x) as real < x + 1.0
  {
  }

  lemma HalfUpBounds(x: real)
    ensures Abs(HalfUp(x) as real - x) <= 0.5
    ensures (if HalfUp(x) < 0 then -HalfUp(x) else HalfUp(x)) <= Ceiling(Abs(x))
  {
    CeilingBounds(Abs(x));
  }

  /** Both the exact parts of a sample and the parts on the wire stay within 98 ms, the wire offset
      is within half a microsecond of the measured one, and the other two are rounded up. */
  predicate BudgetKept(s: RawSample, w: Wire) {
    && s.Sample? && w.issuedMs == s.issuedMs
    && Abs(s.offset) + s.uncertainty + s.bracket <= 98.0
    && (if w.offsetUs < 0 then -w.offsetUs else w.offsetUs) + w.uncertaintyUs + w.bracketUs <= 98000
    && Abs(w.offsetUs as real - s.offset * 1000.0) <= 0.5
    && s.uncertainty * 1000.0 <= w.uncertaintyUs as real < s.uncertainty * 1000.0 + 1.0
    && s.bracket * 1000.0 <= w.bracketUs as real < s.bracket * 1000.0 + 1.0
  }

  /** Admission rounds every part up, so both the exact error and the wire values stay within
      98 ms, and the wire offset is within half a microsecond of the measured one. */
  lemma BudgetIsExact(s: RawSample)
    requires s.Sample? && WithinBudget(s)
    ensures BudgetKept(s, ToWire(s))
  {
    HalfUpBounds(s.offset * 1000.0);
    assert Abs(s.offset * 1000.0) == Abs(s.offset) * 1000.0;
    CeilingBounds(Abs(s.offset) * 1000.0);
    CeilingBounds(s.uncertainty * 1000.0);
    CeilingBounds(s.bracket * 1000.0);
    hide Ceiling, HalfUp;
  }

  /** Everything a consumer reads in evidence obeys the budget. */
  lemma EvidenceIsWithinBudget(persisted: Option<Generations>, t0: Trust, ops: seq<Op>) returns (k: nat)
    requires Boot(persisted) == Some(t0) && EvidenceOf(Run(t0, ops)).Evidence?
    ensures k < |ops| && ops[k].Record? && ops[k].s.Sample?
    ensures BudgetKept(ops[k].s, EvidenceOf(Run(t0, ops)).sample)
  {
    BootInv(persisted);
    k := WithinBudgetSince(t0, ops);
  }

  lemma WithinBudgetSince(t0: Trust, ops: seq<Op>) returns (k: nat)
    requires Unseen(t0) && EvidenceOf(Run(t0, ops)).Evidence?
    ensures k < |ops| && ops[k].Record? && ops[k].s.Sample?
    ensures BudgetKept(ops[k].s, EvidenceOf(Run(t0, ops)).sample)
  {
    hide Run, Ceiling, HalfUp, WithinBudget, ToWire;
    RunInv(t0, ops);
    k := SampleBehindIt(t0, ops);
    BudgetIsExact(ops[k].s);
  }
}
