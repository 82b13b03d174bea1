/** The clock attestor's trust state: a latch over observations of the system clock, independent
    time samples and an operator's approval, with persisted generations. */
module ClockTrust {
  import opened Options

  const MAX_SAFE_INTEGER: int := 9007199254740991

  datatype Generations = Generations(step: int, clearedStep: int, failover: int, clearedFailover: int)

  datatype Generation = StepGeneration | FailoverGeneration

  datatype Reason = NotApproved | SampleUnavailable | ClockUnhealthy | PrimaryChanged

  /** A reading of the system clock: wall time in ms, continuous time in ns, and whether the
      process on the primary port is the bound one.  Malformed stands for a reading that is not
      finite or not of the right type. */
  datatype Observation = Malformed | Reading(wall: real, continuousNs: nat, matches: bool)

  /** A time sample in ms.  Absent stands for None and for fields that do not parse. */
  datatype RawSample = Absent | Sample(issuedMs: int, offset: real, uncertainty: real, bracket: real)

  /** An accepted sample as it goes on the wire, in microseconds. */
  datatype Wire = Wire(issuedMs: int, offsetUs: int, uncertaintyUs: int, bracketUs: int)

  datatype Clock = Clock(wall: real, continuousNs: nat)

  /** The observation id is a hash of the boot id and the revision; the revision stands for it. */
  datatype Trust = Trust(
    generations: Generations,
    revision: nat,
    last: Option<Clock>,
    wall: Option<real>,
    primaryMatches: bool,
    observationValid: bool,
    sample: Option<Wire>,
    lastIndependentMs: Option<int>,
    consecutive: nat,
    approved: bool,
    latchReason: Option<Reason>,
    sampleReason: Reason,
    fatal: bool
  )

  datatype Reply = Unavailable(reason: Reason) | Evidence(revision: nat, sample: Wire, generations: Generations)

  predicate SafeInteger(n: int) { 0 <= n <= MAX_SAFE_INTEGER }

  predicate GenerationsOrdered(g: Generations) {
    && SafeInteger(g.step) && SafeInteger(g.clearedStep) && SafeInteger(g.failover) && SafeInteger(g.clearedFailover)
    && g.clearedStep <= g.step && g.clearedFailover <= g.failover
  }

  predicate Cleared(g: Generations) { g.clearedStep == g.step && g.clearedFailover == g.failover }

  /** Construction from persisted generations; None stands for the exceptions. */
  function Boot(persisted: Option<Generations>): Option<Trust> {
    var g := if persisted.None? then Generations(0, 0, 0, 0) else persisted.value;
    if !GenerationsOrdered(g) || g.step == MAX_SAFE_INTEGER then None
    else Some(Trust(g.(step := g.step + 1), 1, None, None, false, false, None, None, 0, false,
                    Some(NotApproved), SampleUnavailable, false))
  }

  /** Approval and samples are gone, and the observation gets a new id. */
  function Dropped(t: Trust, reason: Reason): Trust {
    t.(approved := false, latchReason := Some(reason), sample := None, lastIndependentMs := None,
       consecutive := 0, revision := t.revision + 1)
  }

  function Counted(t: Trust, generation: Generation): Trust {
    match generation
    case StepGeneration =>
      if t.generations.step == MAX_SAFE_INTEGER then t.(fatal := true)
      else t.(generations := t.generations.(step := t.generations.step + 1))
    case FailoverGeneration =>
      if t.generations.failover == MAX_SAFE_INTEGER then t.(fatal := true)
      else t.(generations := t.generations.(failover := t.generations.failover + 1))
  }

  /** _invalidate: drop approval and samples, and count the event in a generation. */
  function Invalidated(t: Trust, reason: Reason, generation: Option<Generation>): Trust {
    if generation.None? then Dropped(t, reason) else Counted(Dropped(t, reason), generation.value)
  }

  predicate GenerationsGood(t: Trust) {
    GenerationsOrdered(t.generations) && (t.approved ==> Cleared(t.generations))
  }

  function Checked(t: Trust): Trust {
    if GenerationsGood(t) then t else Invalidated(t, ClockUnhealthy, None).(fatal := true)
  }

  function ElapsedMs(last: Clock, continuousNs: nat): real { (continuousNs - last.continuousNs) as real / 1000000.0 }

  function Abs(x: real): real { if x < 0.0 then -x else x }

  /** The wall clock moved with the continuous clock, within 10 ms over at most one second. */
  predicate Steady(last: Clock, wall: real, continuousNs: nat) {
    var elapsed := ElapsedMs(last, continuousNs);
    0.0 < elapsed <= 1000.0 && Abs(wall - last.wall - elapsed) <= 10.0
  }

  function Observed(t: Trust, o: Observation): Trust {
    if !GenerationsGood(t) then Checked(t)
    else match o
      case Malformed =>
        Invalidated(t, ClockUnhealthy, Some(StepGeneration)).(last := None, observationValid := false)
      case Reading(wall, ns, matches) =>
        var t1 := if !matches && (t.primaryMatches || t.latchReason == Some(NotApproved))
                  then Invalidated(t, PrimaryChanged, Some(FailoverGeneration)) else t;
        var t2 := t1.(primaryMatches := matches);
        var t3 := if t2.last.Some? && !Steady(t2.last.value, wall, ns)
                  then Invalidated(t2, if matches then ClockUnhealthy else PrimaryChanged, Some(StepGeneration)) else t2;
        t3.(last := Some(Clock(wall, ns)), wall := Some(wall), observationValid := true)
  }

  predicate Fresh(t: Trust, issuedMs: int) {
    t.wall.Some? && -100.0 <= t.wall.value - issuedMs as real <= 1000.0
  }

  function Ceiling(x: real): int { -((-x).Floor) }

  /** Round half away from zero. */
  function HalfUp(x: real): int { if x >= 0.0 then (x + 0.5).Floor else -((-x + 0.5).Floor) }

  function ToWire(s: RawSample): Wire
    requires s.Sample?
  {
    Wire(s.issuedMs, HalfUp(s.offset * 1000.0), Ceiling(s.uncertainty * 1000.0), Ceiling(s.bracket * 1000.0))
  }

  predicate WithinBudget(s: RawSample)
    requires s.Sample?
  {
    && s.uncertainty >= 0.0 && s.bracket >= 0.0
    && Ceiling(Abs(s.offset) * 1000.0) + Ceiling(s.uncertainty * 1000.0) + Ceiling(s.bracket * 1000.0) + 2000 <= 100000
  }

  predicate Acceptable(t: Trust, s: RawSample) {
    && s.Sample? && WithinBudget(s)
    && t.observationValid && t.primaryMatches && Fresh(t, s.issuedMs) && !t.fatal
    && (t.lastIndependentMs.Some? ==> s.issuedMs >= t.lastIndependentMs.value)
  }

  function Recorded(t: Trust, s: RawSample): Trust {
    if !GenerationsGood(t) then Checked(t)
    else if !Acceptable(t, s) then
      t.(sample := None, consecutive := 0, sampleReason := ClockUnhealthy, revision := t.revision + 1)
    else if t.lastIndependentMs == Some(s.issuedMs) then t
    else
      t.(lastIndependentMs := Some(s.issuedMs), sample := Some(ToWire(s)),
         consecutive := if t.consecutive + 1 < 3 then t.consecutive + 1 else 3,
         sampleReason := SampleUnavailable, revision := t.revision + 1)
  }

  predicate Approvable(t: Trust, revision: nat) {
    && revision == t.revision && t.consecutive >= 3 && t.sample.Some?
    && t.primaryMatches && t.observationValid && !t.fatal && Fresh(t, t.sample.value.issuedMs)
  }

  predicate Approves(t: Trust, revision: nat, uid: int) {
    uid == 0 && GenerationsGood(t) && Approvable(t, revision)
  }

  function Approved(t: Trust, revision: nat, uid: int): Trust {
    if uid != 0 then t
    else if !GenerationsGood(t) then Checked(t)
    else if !Approvable(t, revision) then t
    else
      var g := t.generations;
      t.(generations := g.(clearedStep := g.step, clearedFailover := g.failover), approved := true, latchReason := None)
  }

  function EvidenceOf(t0: Trust): Reply {
    var t := Checked(t0);
    if t.fatal || !t.observationValid then Unavailable(ClockUnhealthy)
    else if !t.primaryMatches then Unavailable(PrimaryChanged)
    else if !t.approved then Unavailable(if t.latchReason.Some? then t.latchReason.value else NotApproved)
    else if t.sample.None? then Unavailable(t.sampleReason)
    else if !Fresh(t, t.sample.value.issuedMs) then Unavailable(SampleUnavailable)
    else if t.latchReason.Some? then Unavailable(t.latchReason.value)
    else Evidence(t.revision, t.sample.value, t.generations)
  }

  class ClockTrustState {
    var generations: Generations
    var revision: nat
    var last: Option<Clock>
    var wall: Option<real>
    var primaryMatches: bool
    var observationValid: bool
    var sample: Option<Wire>
    var lastIndependentMs: Option<int>
    var consecutive: nat
    var approved: bool
    var latchReason: Option<Reason>
    var sampleReason: Reason
    var fatal: bool

    function View(): Trust
      reads this
    {
      Trust(generations, revision, last, wall, primaryMatches, observationValid, sample, lastIndependentMs,
            consecutive, approved, latchReason, sampleReason, fatal)
    }

    constructor (persisted: Generations)
      requires Boot(Some(persisted)).Some?
      ensures View() == Boot(Some(persisted)).value
    {
      generations := persisted.(step := persisted.step + 1);
      revision, last, wall, primaryMatches, observationValid := 1, None, None, false, false;
      sample, lastIndependentMs, consecutive, approved := None, None, 0, false;
      latchReason, sampleReason, fatal := Some(NotApproved), SampleUnavailable, false;
    }

    method Increment(generation: Generation)
      modifies this`generations, this`fatal
      ensures View() == Counted(old(View()), generation)
    {
      match generation {
        case StepGeneration =>
          if generations.step == MAX_SAFE_INTEGER {
            fatal := true;
          } else {
            generations := generations.(step := generations.step + 1);
          }
        case FailoverGeneration =>
          if generations.failover == MAX_SAFE_INTEGER {
            fatal := true;
          } else {
            generations := generations.(failover := generations.failover + 1);
          }
      }
    }

    method Drop(reason: Reason)
      modifies this
      ensures View() == Dropped(old(View()), reason)
    {
      approved, latchReason := false, Some(reason);
      sample, lastIndependentMs, consecutive := None, None, 0;
      revision := revision + 1;
    }

    method Invalidate(reason: Reason, generation: Option<Generation>)
      modifies this
      ensures View() == Invalidated(old(View()), reason, generation)
    {
      hide Dropped, Counted;
      Drop(reason);
      if generation.Some? { Increment(generation.value); }
    }

    method CheckGenerations() returns (good: bool)
      modifies this
      ensures View() == Checked(old(View())) && good == GenerationsGood(old(View()))
    {
      if GenerationsOrdered(generations) && (approved ==> Cleared(generations)) { return true; }
      Invalidate(ClockUnhealthy, None);
      fatal := true;
      return false;
    }

    method Observe(o: Observation)
      modifies this
      ensures View() == Observed(old(View()), o)
    {
      hide Steady, GenerationsGood, Checked, Invalidated;
      var good := CheckGenerations();
      if !good { return; }
      assert View() == old(View()) by { GoodIsUnchanged(old(View())); }
      if o.Malformed? {
        Invalidate(ClockUnhealthy, Some(StepGeneration));
        last, observationValid := None, false;
        return;
      }
      if !o.matches && (primaryMatches || latchReason == Some(NotApproved)) {
        Invalidate(PrimaryChanged, Some(FailoverGeneration));
      }
      primaryMatches := o.matches;
      if last.Some? && !Steady(last.value, o.wall, o.continuousNs) {
        Invalidate(if o.matches then ClockUnhealthy else PrimaryChanged, Some(StepGeneration));
      }
      last, wall, observationValid := Some(Clock(o.wall, o.continuousNs)), Some(o.wall), true;
    }

    method RecordSample(s: RawSample)
      modifies this
      ensures View() == Recorded(old(View()), s)
    {
      hide GenerationsGood, Checked, Acceptable, ToWire;
      var good := CheckGenerations();
      if !good { return; }
      assert View() == old(View()) by { GoodIsUnchanged(old(View())); }
      if !Acceptable(View(), s) {
        sample, consecutive, sampleReason := None, 0, ClockUnhealthy;
        revision := revision + 1;
        return;
      }
      assert s.Sample? by { AcceptableIsSample(View(), s); }
      if lastIndependentMs == Some(s.issuedMs) { return; }
      lastIndependentMs, sample := Some(s.issuedMs), Some(ToWire(s));
      consecutive := if consecutive + 1 < 3 then consecutive + 1 else 3;
      sampleReason, revision := SampleUnavailable, revision + 1;
    }

    method Approve(observation: nat, uid: int) returns (ok: bool)
      modifies this
      ensures View() == Approved(old(View()), observation, uid) && ok == Approves(old(View()), observation, uid)
    {
      hide GenerationsGood, Checked, Approvable;
      if uid != 0 { return false; }
      var good := CheckGenerations();
      if !good { return false; }
      assert View() == old(View()) by { GoodIsUnchanged(old(View())); }
      if !Approvable(View(), observation) { return false; }
      generations := generations.(clearedStep := generations.step, clearedFailover := generations.failover);
      approved, latchReason := true, None;
      return true;
    }

    method GetEvidence() returns (reply: Reply)
      modifies this
      ensures View() == Checked(old(View())) && reply == EvidenceOf(old(View()))
    {
      hide GenerationsGood, Checked, Fresh;
      var _ := CheckGenerations();
      var reason := latchReason;
      if fatal || !observationValid {
        reason := Some(ClockUnhealthy);
      } else if !primaryMatches {
        reason := Some(PrimaryChanged);
      } else if !approved {
        reason := if reason.Some? then reason else Some(NotApproved);
      } else if sample.None? {
        reason := Some(sampleReason);
      } else if !Fresh(View(), sample.value.issuedMs) {
        reason := Some(SampleUnavailable);
      }
      if reason.Some? { return Unavailable(reason.value); }
      return Evidence(revision, sample.value, generations);
    }
  }

  lemma GoodIsUnchanged(t: Trust)
    requires GenerationsGood(t)
    ensures Checked(t) == t
  {
  }

  lemma AcceptableIsSample(t: Trust, s: RawSample)
    requires Acceptable(t, s)
    ensures s.Sample?
  {
  }
}
