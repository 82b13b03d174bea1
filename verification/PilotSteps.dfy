/** The pilot runtime: serial jobs over an asynchronous port, with a journal written ahead of every
    physical write.  A job is split at its awaits; faults, stops and cap checks may come at any of them. */
module PilotSteps {
  import opened Options

  datatype Luminaire = A | B

  datatype Phase = New | Captured | Observing | Degraded | Recovering | RestorePending | Closed

  type Byte = n: nat | n < 256

  /** A notification: rising or falling body, sequence and time of receipt; wellFormed stands for
      the checks of opcode, device, address, network, generation, body and finite time. */
  datatype Candidate = Candidate(wellFormed: bool, rising: bool, sequence: Byte, at: real)

  /** The part of the state that the journal records. */
  datatype Snapshot = Snapshot(phase: Phase, captured: bool, pending: set<Luminaire>, occurrence: nat, deadline: Option<real>)

  /** The await at which the current job is suspended. */
  datatype Pc =
    | Idle
    | Preparing | SavingCaptured | SavingIntentA | Sensing | SavingObserving
    | SavingIntentB | ApplyingB | SavingPulse
    | Linking | RestoringB | SavingRestored
    | SavingAfterFault
    | SavingRecovering | StopRestoring(which: Luminaire) | StopSaving(which: Luminaire, before: set<Luminaire>)
    | SavingFinal | Closing

  /** exposed, for the proofs only, is the set of luminaires on which a write under normal control
      has started and whose restore has not succeeded since; durable is what the journal holds. */
  datatype State = State(
    now: Snapshot,
    stopping: bool,
    degraded: bool,
    started: bool,
    startedAt: real,
    last: Option<Candidate>,
    pc: Pc,
    inFlight: Option<Snapshot>,
    durable: Option<Snapshot>,
    journalErrors: nat,
    stopErrors: nat,
    stopOutcome: Option<bool>,
    exposed: set<Luminaire>
  )

  const CAP: real := 300000.0

  const FRESH := State(Snapshot(New, false, {}, 0, None), false, false, false, 0.0, None, Idle, None, None, 0, 0, None, {})

  // ----- Calls that do not await -----

  function Faulted(s: State): State { s.(degraded := true, now := s.now.(phase := Degraded)) }

  function Stopped(s: State): State { s.(stopping := true) }

  predicate CapReached(s: State, time: real) { s.started && time - s.startedAt >= CAP }

  /** capReached: reaching the cap stops the run. */
  function Checked(s: State, time: real): State { if CapReached(s, time) then Stopped(s) else s }

  predicate MayWrite(s: State, time: real) { !CapReached(s, time) && !s.stopping && !s.degraded }

  function Saving(s: State, pc: Pc): State { s.(pc := pc, inFlight := Some(s.now)) }

  // ----- The beginnings of jobs -----

  function BeginStart(s: State): State {
    if s.now.phase != New || s.stopping then s else s.(pc := Preparing)
  }

  predicate Admits(s: State, c: Candidate, time: real) {
    && !s.stopping && !s.degraded && s.now.phase == Observing
    && c.wellFormed && s.startedAt <= c.at <= time && time - c.at <= 3000.0 && time - s.startedAt < CAP
    && (s.last.Some? ==>
          var delta := (c.sequence - s.last.value.sequence + 256) % 256;
          c.at >= s.last.value.at && 0 < delta <= 127
          && !(c.rising == s.last.value.rising && c.at - s.last.value.at < 250.0))
  }

  function BeginPulse(s: State, c: Candidate, time: real, holdMs: real): State {
    if !Admits(s, c, time) then s
    else
      var t := s.(last := Some(c));
      if B !in t.now.pending then
        Saving(t.(now := t.now.(pending := t.now.pending + {B}, occurrence := t.now.occurrence + 1,
                                deadline := Some(c.at + holdMs))), SavingIntentB)
      else Saving(t.(now := t.now.(deadline := Some(c.at + holdMs))), SavingPulse)
  }

  function BeginTick(s: State, time: real): State {
    if s.stopping || s.degraded || s.now.deadline.None? || time < s.now.deadline.value then s else s.(pc := Linking)
  }

  /** The stop job runs once, after stop() was called. */
  function BeginStop(s: State): State {
    if !s.stopping || s.stopOutcome.Some? then s
    else Saving(s.(now := s.now.(phase := Recovering)), SavingRecovering)
  }

  // ----- The rest of jobs: what runs when an await settles -----

  function Ended(s: State): State { s.(pc := Idle) }

  function FaultAndSave(s: State): State { Saving(Faulted(s), SavingAfterFault) }

  /** The stop job goes on with luminaire B, then A, then the end. */
  function RestoreNext(s: State, fromB: bool): State {
    if fromB && B in s.now.pending && s.now.captured then s.(pc := StopRestoring(B))
    else if A in s.now.pending && s.now.captured then s.(pc := StopRestoring(A))
    else Conclude(s)
  }

  function Conclude(s: State): State {
    Saving(s.(now := s.now.(phase := if s.now.pending != {} then RestorePending else Closed)), SavingFinal)
  }

  function GoOn(s: State, which: Luminaire): State { if which == B then RestoreNext(s, false) else Conclude(s) }

  function Restored(s: State, which: Luminaire): State {
    s.(now := s.now.(pending := s.now.pending - {which}), exposed := s.exposed - {which})
  }

  predicate IsSave(pc: Pc) {
    pc.SavingCaptured? || pc.SavingIntentA? || pc.SavingObserving? || pc.SavingIntentB? || pc.SavingPulse? ||
    pc.SavingRestored? || pc.SavingAfterFault? || pc.SavingRecovering? || pc.StopSaving? || pc.SavingFinal?
  }

  /** The journal write settles: a success is durable, a failure is remembered. */
  function Journaled(s: State, ok: bool): State {
    if ok then s.(durable := if s.inFlight.Some? then s.inFlight else s.durable, inFlight := None)
    else s.(journalErrors := s.journalErrors + 1, inFlight := None)
  }

  function ResumeSave(s0: State, ok: bool): State
    requires IsSave(s0.pc)
  {
    var s := Journaled(s0, ok);
    match s.pc
    case SavingCaptured =>
      if ok then Saving(s.(now := s.now.(pending := s.now.pending + {A})), SavingIntentA) else Ended(Faulted(s))
    case SavingIntentA => if ok then s.(pc := Sensing) else Ended(Faulted(s))
    case SavingObserving => if ok then Ended(s) else Ended(Faulted(s))
    case SavingIntentB => if ok then s.(pc := ApplyingB) else FaultAndSave(s)
    case SavingPulse => if ok then Ended(s) else FaultAndSave(s)
    case SavingRestored => if ok then Ended(s) else FaultAndSave(s)
    case SavingAfterFault => Ended(s)
    case SavingRecovering => RestoreNext(if ok then s else s.(stopErrors := s.stopErrors + 1), true)
    case StopSaving(which, before) =>
      GoOn(if ok then s else s.(now := s.now.(pending := before), stopErrors := s.stopErrors + 1), which)
    case SavingFinal => (if ok then s else s.(stopErrors := s.stopErrors + 1)).(pc := Closing)
  }

  function ResumePort(s: State, ok: bool, linked: bool, time: real): State
    requires !IsSave(s.pc)
  {
    match s.pc
    case Idle => s
    case Preparing =>
      if ok then Saving(s.(now := s.now.(captured := true, phase := Captured)), SavingCaptured) else Ended(Faulted(s))
    case Sensing =>
      if ok && !s.stopping && !s.degraded
      then Saving(s.(startedAt := time, started := true, now := s.now.(phase := Observing)), SavingObserving)
      else Ended(Faulted(s))
    case ApplyingB =>
      if !ok then FaultAndSave(s)
      else if MayWrite(s, time) then Saving(s, SavingPulse) else Ended(Checked(s, time))
    case Linking =>
      if !ok || !linked then FaultAndSave(s)
      else if MayWrite(s, time) then s.(pc := RestoringB) else Ended(Checked(s, time))
    case RestoringB =>
      if ok then Saving(Restored(s, B).(now := Restored(s, B).now.(deadline := None)), SavingRestored) else FaultAndSave(s)
    case StopRestoring(which) =>
      if ok then Saving(Restored(s, which), StopSaving(which, s.now.pending))
      else GoOn(s.(stopErrors := s.stopErrors + 1), which)
    case Closing =>
      var t := if ok then s else s.(stopErrors := s.stopErrors + 1);
      Ended(t.(stopOutcome := Some(t.stopErrors == 0 && t.journalErrors == 0 && t.now.pending == {})))
  }

  /** The luminaire that the port may be writing to under normal control. */
  function NormalTarget(pc: Pc): Option<Luminaire> {
    match pc
    case Sensing => Some(A)
    case ApplyingB => Some(B)
    case RestoringB => Some(B)
    case _ => None
  }

  // ----- Events -----

  datatype Event =
    | StartJob
    | PulseJob(c: Candidate, time: real, holdMs: real)
    | TickJob(time: real)
    | StopJob
    | Settles(ok: bool, linked: bool, time: real)
    | WriteLands
    | WriteStarts(time: real)
    | Fault
    | Stop
    | CapCheck(time: real)

  /** A normal write starts only if mayWrite allows it at that moment. */
  predicate StartsWrite(s: State, e: Event) {
    e.WriteStarts? && NormalTarget(s.pc).Some? && MayWrite(s, e.time)
  }

  function Step(s: State, e: Event): State {
    match e
    case StartJob => if s.pc == Idle then BeginStart(s) else s
    case PulseJob(c, time, holdMs) => if s.pc == Idle then BeginPulse(s, c, time, holdMs) else s
    case TickJob(time) => if s.pc == Idle then BeginTick(s, time) else s
    case StopJob => if s.pc == Idle then BeginStop(s) else s
    case Settles(ok, linked, time) => if IsSave(s.pc) then ResumeSave(s, ok) else ResumePort(s, ok, linked, time)
    case WriteLands => if s.inFlight.Some? then s.(durable := s.inFlight) else s
    case WriteStarts(time) =>
      if StartsWrite(s, e) then s.(exposed := s.exposed + {NormalTarget(s.pc).value}) else Checked(s, time)
    case Fault => Faulted(s)
    case Stop => Stopped(s)
    case CapCheck(time) => Checked(s, time)
  }

  function After(events: seq<Event>): State {
    if events == [] then FRESH else Step(After(events[..|events| - 1]), events[|events| - 1])
  }
}
