/** What every run of the pilot runtime keeps. */
module PilotSafety {
  import opened Options
  import opened PilotSteps

  function PendingOf(d: Option<Snapshot>): set<Luminaire> { if d.None? then {} else d.value.pending }

  // ----- The write-ahead discipline -----

  /** In memory, in the write under way and on disk. */
  ghost predicate WriteAhead(s: State) {
    && s.exposed <= s.now.pending && s.exposed <= PendingOf(s.durable)
    && (NormalTarget(s.pc).Some? ==> NormalTarget(s.pc).value in s.now.pending && NormalTarget(s.pc).value in PendingOf(s.durable))
  }

  predicate IsStopPc(pc: Pc) { pc.SavingRecovering? || pc.StopRestoring? || pc.StopSaving? || pc.SavingFinal? || pc.Closing? }

  ghost predicate SavesPending(s: State) {
    && (IsStopPc(s.pc) ==> s.stopping)
    && (s.inFlight.Some? <==> IsSave(s.pc))
    && (s.inFlight.Some? ==> s.inFlight.value.pending == s.now.pending)
    && (s.pc.StopSaving? ==> s.now.pending <= s.pc.before)
    && (s.pc == SavingIntentA ==> A in s.now.pending)
    && (s.pc == SavingIntentB ==> B in s.now.pending)
  }

  /** While the run is healthy, what is pending in memory is pending on disk. */
  ghost predicate Backed(s: State) {
    && (!s.degraded && !s.stopping && s.pc != SavingIntentA && s.pc != SavingIntentB ==> s.now.pending <= PendingOf(s.durable))
    && (!s.degraded && !s.stopping && s.now.deadline.Some? ==> B in s.now.pending)
    && (!s.degraded && !s.stopping && s.pc == Linking ==> s.now.deadline.Some?)
  }

  ghost predicate Ahead(s: State) { WriteAhead(s) && SavesPending(s) && Backed(s) }

  lemma StepKeepsAhead(s: State, e: Event)
    requires Ahead(s)
    ensures Ahead(Step(s, e))
  {
    match e {
      case PulseJob(c, time, holdMs) => if s.pc == Idle { PulseKeepsAhead(s, c, time, holdMs); }
      case TickJob(time) =>
      case Settles(ok, linked, time) =>
        if IsSave(s.pc) { SaveKeepsAhead(s, ok); } else { PortKeepsAhead(s, ok, linked, time); }
      case _ =>
    }
    hide ResumeSave, ResumePort, BeginPulse;
  }

  lemma PulseKeepsAhead(s: State, c: Candidate, time: real, holdMs: real)
    requires Ahead(s) && s.pc == Idle
    ensures Ahead(BeginPulse(s, c, time, holdMs))
  {
    if Admits(s, c, time) {
      assert !s.stopping && !s.degraded;
      hide Admits;
    }
  }

  lemma SaveKeepsAhead(s: State, ok: bool)
    requires Ahead(s) && IsSave(s.pc)
    ensures Ahead(ResumeSave(s, ok))
  {
    hide Ahead, ResumeSave;
    if IsStopPc(s.pc) {
      StopSaveKeepsAhead(s, ok);
    } else if OfStart(s.pc) || s.pc == SavingObserving {
      StartSaveKeepsAhead(s, ok);
    } else {
      PulseSaveKeepsAhead(s, ok);
    }
  }

  lemma StartSaveKeepsAhead(s: State, ok: bool)
    requires Ahead(s) && IsSave(s.pc) && (OfStart(s.pc) || s.pc == SavingObserving)
    ensures Ahead(ResumeSave(s, ok))
  {
    hide GoOn, RestoreNext;
  }

  lemma PulseSaveKeepsAhead(s: State, ok: bool)
    requires Ahead(s) && IsSave(s.pc) && !IsStopPc(s.pc) && !OfStart(s.pc) && s.pc != SavingObserving
    ensures Ahead(ResumeSave(s, ok))
  {
    hide GoOn, RestoreNext;
  }

  /** Between two awaits of the stop job. */
  ghost predicate Between(s: State) {
    s.stopping && s.inFlight.None? && s.exposed <= s.now.pending && s.exposed <= PendingOf(s.durable)
  }

  lemma StopGoesOnAhead(s: State, fromB: bool)
    requires Between(s)
    ensures Ahead(RestoreNext(s, fromB)) && Ahead(Conclude(s))
  {
  }

  lemma StopSaveKeepsAhead(s: State, ok: bool)
    requires Ahead(s) && IsSave(s.pc) && IsStopPc(s.pc)
    ensures Ahead(ResumeSave(s, ok))
  {
    hide Ahead, Between, RestoreNext, Conclude, Journaled, ResumeSave;
    var t := Journaled(s, ok);
    var errors := if ok then t.stopErrors else t.stopErrors + 1;
    JournaledIsBetween(s, ok);
    StopSaveResumes(s, ok);
    if s.pc == SavingRecovering {
      StillBetween(t, t.now.pending, errors);
      StopGoesOnAhead(t.(stopErrors := errors), true);
    } else if s.pc.StopSaving? {
      var pending := if ok then t.now.pending else s.pc.before;
      StillBetween(t, pending, errors);
      StopGoesOnAhead(t.(now := t.now.(pending := pending), stopErrors := errors), false);
    } else {
      FinalSaveKeepsAhead(t, errors);
    }
  }

  /** How the stop job goes on after a journal write. */
  lemma StopSaveResumes(s: State, ok: bool)
    requires IsSave(s.pc) && IsStopPc(s.pc)
    ensures var t, u := Journaled(s, ok), ResumeSave(s, ok);
            var errors := if ok then t.stopErrors else t.stopErrors + 1;
            && (s.pc == SavingRecovering ==> u == RestoreNext(t.(stopErrors := errors), true))
            && (s.pc == SavingFinal ==> u == t.(pc := Closing, stopErrors := errors))
            && (s.pc.StopSaving? ==>
                  var v := t.(now := t.now.(pending := if ok then t.now.pending else s.pc.before), stopErrors := errors);
                  u == if s.pc.which == B then RestoreNext(v, false) else Conclude(v))
  {
    hide RestoreNext, Conclude;
  }

  lemma StillBetween(s: State, pending: set<Luminaire>, errors: nat)
    requires Between(s) && s.now.pending <= pending
    ensures Between(s.(now := s.now.(pending := pending), stopErrors := errors))
    ensures Between(s.(stopErrors := errors))
  {
  }

  lemma JournaledIsBetween(s: State, ok: bool)
    requires Ahead(s) && IsSave(s.pc) && IsStopPc(s.pc)
    ensures var t := Journaled(s, ok);
            Between(t) && t.pc == s.pc && (s.pc.StopSaving? ==> t.now.pending <= s.pc.before)
  {
  }

  lemma FinalSaveKeepsAhead(s: State, errors: nat)
    requires Between(s)
    ensures Ahead(s.(pc := Closing, stopErrors := errors))
  {
  }

  lemma PortKeepsAhead(s: State, ok: bool, linked: bool, time: real)
    requires Ahead(s) && !IsSave(s.pc)
    ensures Ahead(ResumePort(s, ok, linked, time))
  {
    if IsStopPc(s.pc) {
      StopPortKeepsAhead(s, ok, linked, time);
      hide ResumePort, WriteAhead, SavesPending, Backed;
    } else {
      match s.pc {
        case Idle =>
        case Preparing =>
        case Sensing =>
        case ApplyingB =>
        case Linking =>
        case RestoringB =>
      }
    }
  }

  lemma StopPortKeepsAhead(s: State, ok: bool, linked: bool, time: real)
    requires Ahead(s) && !IsSave(s.pc) && IsStopPc(s.pc)
    ensures Ahead(ResumePort(s, ok, linked, time))
  {
    hide GoOn;
    if s.pc.StopRestoring? {
      GoOnKeepsAhead(s.(stopErrors := s.stopErrors + 1), s.pc.which);
    }
  }

  lemma GoOnKeepsAhead(s: State, which: Luminaire)
    requires Between(s)
    ensures Ahead(GoOn(s, which))
  {
    hide RestoreNext, Conclude, Ahead;
    StopGoesOnAhead(s, false);
  }

  lemma {:induction false} AlwaysAhead(events: seq<Event>)
    ensures Ahead(After(events))
  {
    if events != [] {
      AlwaysAhead(events[..|events| - 1]);
      StepKeepsAhead(After(events[..|events| - 1]), events[|events| - 1]);
    }
  }

  /** At every moment of every run the journal names every luminaire whose write has started and
      whose restore has not succeeded. */
  lemma JournalCoversWrites(events: seq<Event>)
    ensures After(events).exposed <= PendingOf(After(events).durable)
  {
    AlwaysAhead(events);
  }

  /** A write starts only on a luminaire that the journal already names. */
  lemma WritesAreAnnounced(events: seq<Event>, e: Event)
    requires StartsWrite(After(events), e)
    ensures NormalTarget(After(events).pc).value in PendingOf(After(events).durable)
  {
    AlwaysAhead(events);
  }

  // ----- No write after a stop, a fault or the cap -----

  lemma {:induction false} HaltedForGood(events: seq<Event>, more: seq<Event>)
    requires After(events).stopping || After(events).degraded
    ensures After(events + more).stopping || After(events + more).degraded
  {
    if more == [] {
      assert events + more == events;
    } else {
      var n := |more| - 1;
      assert (events + more)[..|events + more| - 1] == events + more[..n];
      HaltedForGood(events, more[..n]);
      StepHalts(After(events + more[..n]), more[n]);
    }
  }

  /** What the end of a journal write leaves alone. */
  predicate LeavesRest(s: State, u: State) {
    && u.started == s.started && u.last == s.last && u.now.deadline == s.now.deadline
    && u.stopping == s.stopping && (s.degraded ==> u.degraded)
    && (OfStart(u.pc) ==> OfStart(s.pc)) && (OnB(u.pc) ==> OnB(s.pc))
    && (u.now.phase == s.now.phase || u.now.phase in {Degraded, RestorePending, Closed})
  }

  lemma SaveLeavesRest(s: State, ok: bool)
    requires IsSave(s.pc)
    ensures LeavesRest(s, ResumeSave(s, ok))
  {
    hide ResumeSave, LeavesRest, OrdinarySaved;
    if IsStopPc(s.pc) {
      StopSaveLeavesRest(s, ok);
    } else {
      OrdinarySaveMeans(s, ok);
      OrdinaryLeavesRest(s, ResumeSave(s, ok));
    }
  }

  lemma OrdinaryLeavesRest(s: State, u: State)
    requires OrdinarySaved(s, u)
    ensures LeavesRest(s, u)
  {
  }

  lemma StopSaveLeavesRest(s: State, ok: bool)
    requires IsSave(s.pc) && IsStopPc(s.pc)
    ensures LeavesRest(s, ResumeSave(s, ok))
  {
    hide ResumeSave, RestoreNext, Conclude;
    var t := Journaled(s, ok);
    var errors := if ok then t.stopErrors else t.stopErrors + 1;
    StopSaveResumes(s, ok);
    if s.pc == SavingRecovering {
      RestoringLeavesRest(t.(stopErrors := errors), true);
    } else if s.pc.StopSaving? {
      RestoringLeavesRest(t.(now := t.now.(pending := if ok then t.now.pending else s.pc.before), stopErrors := errors), false);
    }
  }

  lemma RestoringLeavesRest(s: State, fromB: bool)
    ensures LeavesRest(s, RestoreNext(s, fromB)) && LeavesRest(s, Conclude(s))
  {
  }

  /** How a start, pulse or tick goes on after a journal write. */
  predicate OrdinarySaved(s: State, u: State) {
    && u.started == s.started && u.last == s.last && u.stopping == s.stopping && u.stopOutcome == s.stopOutcome
    && u.stopErrors == s.stopErrors && u.now.deadline == s.now.deadline && u.now.captured == s.now.captured
    && (s.degraded ==> u.degraded)
    && !IsStopPc(u.pc) && (OfStart(u.pc) ==> OfStart(s.pc)) && (OnB(u.pc) ==> OnB(s.pc))
    && (u.pc in {SavingIntentA, Sensing} ==> s.pc in {SavingCaptured, SavingIntentA})
    && u.pc != SavingCaptured && u.pc != SavingObserving
    && (u.now.phase == s.now.phase || u.now.phase == Degraded)
    && (u.now.pending == s.now.pending || (s.pc == SavingCaptured && u.now.pending == s.now.pending + {A}))
    && (u.durable == s.durable || u.durable == s.inFlight) && (u.inFlight == None || u.inFlight == Some(u.now))
  }

  lemma OrdinarySaveMeans(s: State, ok: bool)
    requires IsSave(s.pc) && !IsStopPc(s.pc)
    ensures OrdinarySaved(s, ResumeSave(s, ok))
  {
    hide ResumeSave, OrdinarySaved;
    if OfStart(s.pc) || s.pc == SavingObserving { StartSaveMeans(s, ok); } else { PulseSaveMeans(s, ok); }
  }

  lemma StartSaveMeans(s: State, ok: bool)
    requires s.pc in {SavingCaptured, SavingIntentA, SavingObserving}
    ensures OrdinarySaved(s, ResumeSave(s, ok))
  {
    hide GoOn, RestoreNext, FaultAndSave;
  }

  lemma PulseSaveMeans(s: State, ok: bool)
    requires s.pc in {SavingIntentB, SavingPulse, SavingRestored, SavingAfterFault}
    ensures OrdinarySaved(s, ResumeSave(s, ok))
  {
    hide GoOn, RestoreNext;
  }

  predicate Halted(s: State) { s.stopping || s.degraded }

  /** No normal write starts after a step that halts the run, whatever follows. */
  lemma NoWriteAfterHalt(events: seq<Event>, halt: Event, more: seq<Event>, e: Event)
    requires Halted(Step(After(events), halt))
    ensures !StartsWrite(After(events + [halt] + more), e)
  {
    assert (events + [halt])[..|events|] == events;
    HaltedForGood(events + [halt], more);
  }

  /** An await of a start, pulse or tick whose failure the job turns into a fault. */
  predicate FaultsOnFailure(pc: Pc) {
    pc.Preparing? || pc.SavingCaptured? || pc.SavingIntentA? || pc.Sensing? || pc.SavingObserving? ||
    pc.SavingIntentB? || pc.ApplyingB? || pc.SavingPulse? || pc.Linking? || pc.RestoringB? || pc.SavingRestored?
  }

  /** A stop, a fault, a check that finds the cap reached, or a failed port call or journal write of
      a start, pulse or tick. */
  predicate Halts(s: State, e: Event) {
    match e
    case Stop => true
    case Fault => true
    case CapCheck(time) => CapReached(s, time)
    case WriteStarts(time) => CapReached(s, time)
    case Settles(ok, linked, time) =>
      || (FaultsOnFailure(s.pc) && !ok)
      || (s.pc == Linking && !linked)
      || ((s.pc == ApplyingB || s.pc == Linking) && CapReached(s, time))
    case _ => false
  }

  predicate HaltsAt(events: seq<Event>, i: nat) { i < |events| && Halts(After(events[..i]), events[i]) }

  /** A run is halted if and only if one of its steps was such a step. */
  lemma {:induction false} HaltedExactly(events: seq<Event>)
    ensures Halted(After(events)) <==> exists i: nat :: HaltsAt(events, i)
  {
    hide Halts, Halted, Step;
    if events == [] {
      FreshRuns();
    } else {
      var n := |events| - 1;
      HaltedExactly(events[..n]);
      StepHalts(After(events[..n]), events[n]);
      assert HaltsAt(events, n) <==> Halts(After(events[..n]), events[n]);
      forall i: nat ensures HaltsAt(events, i) <==> HaltsAt(events[..n], i) || (i == n && HaltsAt(events, n)) {
        if i < n { assert events[..n][..i] == events[..i]; }
      }
      hide HaltsAt;
    }
  }

  lemma FreshRuns()
    ensures !Halted(After([]))
  {
  }

  lemma StepHalts(s: State, e: Event)
    ensures Halted(Step(s, e)) <==> Halted(s) || Halts(s, e)
  {
    hide ResumeSave, ResumePort, FaultsOnFailure, Admits;
    match e {
      case Settles(ok, linked, time) =>
        if IsSave(s.pc) { SaveHalts(s, ok); } else { PortHalts(s, ok, linked, time); }
      case _ =>
    }
  }

  lemma SaveHalts(s: State, ok: bool)
    requires IsSave(s.pc)
    ensures Halted(ResumeSave(s, ok)) <==> Halted(s) || (FaultsOnFailure(s.pc) && !ok)
  {
    hide RestoreNext, Conclude, ResumeSave, Halted;
    if IsStopPc(s.pc) {
      var t := Journaled(s, ok);
      var errors := if ok then t.stopErrors else t.stopErrors + 1;
      StopSaveResumes(s, ok);
      StopSaveHalts(s, t.(stopErrors := errors));
      if s.pc.StopSaving? {
        StopSaveHalts(s, t.(now := t.now.(pending := if ok then t.now.pending else s.pc.before), stopErrors := errors));
      }
    } else {
      OrdinarySaveHalts(s, ok);
    }
  }

  lemma StopSaveHalts(s: State, t: State)
    requires t.stopping == s.stopping && t.degraded == s.degraded
    ensures Halted(RestoreNext(t, true)) == Halted(RestoreNext(t, false)) == Halted(Conclude(t)) == Halted(s)
    ensures Halted(t.(pc := Closing)) == Halted(s)
  {
  }

  lemma OrdinarySaveHalts(s: State, ok: bool)
    requires IsSave(s.pc) && !IsStopPc(s.pc)
    ensures Halted(ResumeSave(s, ok)) <==> Halted(s) || (FaultsOnFailure(s.pc) && !ok)
  {
    hide RestoreNext, GoOn, Conclude;
  }

  lemma PortHalts(s: State, ok: bool, linked: bool, time: real)
    requires !IsSave(s.pc)
    ensures Halted(ResumePort(s, ok, linked, time)) <==> Halted(s) || Halts(s, Settles(ok, linked, time))
  {
    if s.pc.StopRestoring? {
      StopSaveHalts(s, s.(stopErrors := s.stopErrors + 1));
      hide RestoreNext, Conclude;
    } else {
      hide GoOn;
    }
  }

  // ----- When writes may start at all -----

  predicate OfStart(pc: Pc) {
    pc.Preparing? || pc.SavingCaptured? || pc.SavingIntentA? || pc.Sensing?
  }

  predicate OnB(pc: Pc) {
    pc.SavingIntentB? || pc.ApplyingB? || pc.SavingPulse? || pc.Linking? || pc.RestoringB? || pc.SavingRestored?
  }

  /** Jobs on luminaire B belong to a started run, and the start job to one not started yet. */
  ghost predicate Staged(s: State) {
    && (OnB(s.pc) || s.now.phase == Observing || s.now.deadline.Some? ==> s.started)
    && (OfStart(s.pc) || s.now.phase == New ==> !s.started)
  }

  lemma StepKeepsStaged(s: State, e: Event)
    requires Staged(s)
    ensures Staged(Step(s, e))
  {
    match e {
      case PulseJob(c, time, holdMs) =>
        assert Admits(s, c, time) ==> s.started;
        hide Admits;
      case Settles(ok, linked, time) =>
        if IsSave(s.pc) { SaveKeepsStaged(s, ok); } else { PortKeepsStaged(s, ok, linked, time); }
      case _ =>
    }
    hide ResumeSave, ResumePort;
  }

  lemma SaveKeepsStaged(s: State, ok: bool)
    requires Staged(s) && IsSave(s.pc)
    ensures Staged(ResumeSave(s, ok))
  {
    hide ResumeSave, LeavesRest, Staged;
    SaveLeavesRest(s, ok);
    RestStaged(s, ResumeSave(s, ok));
  }

  lemma PortKeepsStaged(s: State, ok: bool, linked: bool, time: real)
    requires Staged(s) && !IsSave(s.pc)
    ensures Staged(ResumePort(s, ok, linked, time))
  {
    if s.pc.StopRestoring? {
      RestorePortKeepsStaged(s, ok, linked, time);
      hide ResumePort, Staged;
    } else {
      hide GoOn;
    }
  }

  lemma RestorePortKeepsStaged(s: State, ok: bool, linked: bool, time: real)
    requires Staged(s) && s.pc.StopRestoring?
    ensures Staged(ResumePort(s, ok, linked, time))
  {
    hide RestoreNext, Conclude, LeavesRest;
    var t := s.(stopErrors := s.stopErrors + 1);
    RestoringLeavesRest(t, false);
    RestStaged(t, RestoreNext(t, false));
    RestStaged(t, Conclude(t));
  }

  lemma RestStaged(s: State, u: State)
    requires Staged(s) && LeavesRest(s, u)
    ensures Staged(u)
  {
  }

  lemma {:induction false} AlwaysStaged(events: seq<Event>)
    ensures Staged(After(events))
  {
    if events != [] {
      AlwaysStaged(events[..|events| - 1]);
      StepKeepsStaged(After(events[..|events| - 1]), events[|events| - 1]);
    }
  }

  /** A write on luminaire B starts only in a started run and before the cap; a write on A only
      before the run is started. */
  lemma NoWriteFromTheCapOn(events: seq<Event>, e: Event)
    requires StartsWrite(After(events), e)
    ensures var s := After(events);
            if NormalTarget(s.pc) == Some(B) then s.started && e.time < s.startedAt + CAP else !s.started
  {
    AlwaysStaged(events);
    hide After;
  }

  // ----- The end of a run -----

  ghost predicate ClosedIsEmpty(d: Option<Snapshot>) { d.Some? && d.value.phase == Closed ==> d.value.pending == {} }

  ghost predicate StopShape(s: State) {
    && (IsStopPc(s.pc) ==> s.stopping && s.stopOutcome.None?)
    && (s.stopOutcome.Some? ==> s.stopping && s.pc == Idle)
    && (s.now.phase == Closed ==> s.stopping && s.pc in {SavingFinal, Closing, Idle})
    && ClosedIsEmpty(Some(s.now)) && ClosedIsEmpty(s.inFlight) && ClosedIsEmpty(s.durable)
  }

  /** Without an error the stop job has emptied what it has passed. */
  ghost predicate StopProgress(s: State) {
    && (!s.now.captured ==>
          && s.now.pending == {} && s.now.phase != Captured && s.now.phase != Observing
          && s.pc !in {SavingCaptured, SavingIntentA, Sensing, SavingObserving})
    && (!s.stopping ==> s.stopErrors == 0)
    && (s.stopErrors == 0 && (s.pc == StopRestoring(A) || (s.pc.StopSaving? && s.pc.which == A)) ==> B !in s.now.pending)
    && (s.pc.StopSaving? ==> s.pc.which !in s.now.pending)
    && (s.pc.StopSaving? || s.pc.StopRestoring? ==> s.now.captured)
    && (s.stopErrors == 0 && (s.pc == SavingFinal || s.pc == Closing) ==> s.now.pending == {})
    && (s.pc == SavingFinal && s.now.pending == {} ==> s.inFlight.Some? && s.inFlight.value.phase == Closed && s.inFlight.value.pending == {})
    && (s.pc == Closing && s.stopErrors == 0 ==> s.durable.Some? && s.durable.value.phase == Closed)
    && (s.stopOutcome.Some? ==>
          && (s.stopOutcome.value <==> s.stopErrors == 0 && s.journalErrors == 0)
          && (s.stopOutcome.value ==> s.now.pending == {} && s.durable.Some? && s.durable.value.phase == Closed))
  }

  lemma StepKeepsShape(s: State, e: Event)
    requires StopShape(s)
    ensures StopShape(Step(s, e))
  {
    match e {
      case Settles(ok, linked, time) =>
        if IsSave(s.pc) { SaveKeepsShape(s, ok); } else { PortKeepsShape(s, ok, linked, time); }
      case _ =>
    }
    hide ResumeSave, ResumePort;
  }

  lemma SaveKeepsShape(s: State, ok: bool)
    requires StopShape(s) && IsSave(s.pc)
    ensures StopShape(ResumeSave(s, ok))
  {
    hide ResumeSave, RestoreNext, Conclude;
    if IsStopPc(s.pc) {
      var t := Journaled(s, ok);
      var errors := if ok then t.stopErrors else t.stopErrors + 1;
      StopSaveResumes(s, ok);
      if s.pc == SavingRecovering {
        RestoringKeepsShape(t.(stopErrors := errors), true);
      } else if s.pc.StopSaving? {
        RestoringKeepsShape(t.(now := t.now.(pending := if ok then t.now.pending else s.pc.before), stopErrors := errors), false);
      }
    } else {
      OrdinarySaveMeans(s, ok);
    }
  }

  lemma RestoringKeepsShape(s: State, fromB: bool)
    requires s.stopping && s.stopOutcome.None? && s.now.phase != Closed && s.inFlight.None? && ClosedIsEmpty(s.durable)
    ensures StopShape(RestoreNext(s, fromB)) && StopShape(Conclude(s))
  {
  }

  lemma PortKeepsShape(s: State, ok: bool, linked: bool, time: real)
    requires StopShape(s) && !IsSave(s.pc)
    ensures StopShape(ResumePort(s, ok, linked, time))
  {
    hide ResumePort, StopShape;
    match s.pc {
      case StopRestoring(which) => RestorePortKeepsShape(s, ok, linked, time);
      case Closing => ClosingKeepsShape(s, ok, linked, time);
      case Idle => StartPortKeepsShape(s, ok, linked, time);
      case Preparing => StartPortKeepsShape(s, ok, linked, time);
      case Sensing => StartPortKeepsShape(s, ok, linked, time);
      case _ => PulsePortKeepsShape(s, ok, linked, time);
    }
  }

  lemma StartPortKeepsShape(s: State, ok: bool, linked: bool, time: real)
    requires StopShape(s) && s.pc in {Idle, Preparing, Sensing}
    ensures StopShape(ResumePort(s, ok, linked, time))
  {
    hide GoOn, FaultAndSave, Checked, Restored;
  }

  lemma PulsePortKeepsShape(s: State, ok: bool, linked: bool, time: real)
    requires StopShape(s) && s.pc in {ApplyingB, Linking, RestoringB}
    ensures StopShape(ResumePort(s, ok, linked, time))
  {
    hide GoOn;
  }

  lemma RestorePortKeepsShape(s: State, ok: bool, linked: bool, time: real)
    requires StopShape(s) && s.pc.StopRestoring?
    ensures StopShape(ResumePort(s, ok, linked, time))
  {
    hide GoOn;
    if !ok { GoOnKeepsShape(s.(stopErrors := s.stopErrors + 1), s.pc.which); }
  }

  lemma GoOnKeepsShape(s: State, which: Luminaire)
    requires StopShape(s) && s.pc.StopRestoring?
    ensures StopShape(GoOn(s, which))
  {
  }

  lemma ClosingKeepsShape(s: State, ok: bool, linked: bool, time: real)
    requires StopShape(s) && s.pc == Closing
    ensures StopShape(ResumePort(s, ok, linked, time))
  {
    hide GoOn;
  }

  lemma StepKeepsProgress(s: State, e: Event)
    requires Ahead(s) && StopShape(s) && StopProgress(s)
    ensures StopProgress(Step(s, e))
  {
    match e {
      case PulseJob(c, time, holdMs) => if s.pc == Idle { PulseKeepsProgress(s, c, time, holdMs); }
      case Settles(ok, linked, time) =>
        if IsSave(s.pc) { SaveKeepsProgress(s, ok); } else { PortKeepsProgress(s, ok, linked, time); }
      case _ =>
    }
    hide ResumeSave, ResumePort, BeginPulse;
  }

  lemma PulseKeepsProgress(s: State, c: Candidate, time: real, holdMs: real)
    requires StopShape(s) && StopProgress(s) && s.pc == Idle
    ensures StopProgress(BeginPulse(s, c, time, holdMs))
  {
    if Admits(s, c, time) {
      hide Admits;
    }
  }

  lemma SaveKeepsProgress(s: State, ok: bool)
    requires Ahead(s) && StopShape(s) && StopProgress(s) && IsSave(s.pc)
    ensures StopProgress(ResumeSave(s, ok))
  {
    hide Ahead, StopShape, StopProgress, ResumeSave;
    if s.pc.StopSaving? {
      StopSavingKeepsProgress(s, ok);
    } else if s.pc == SavingRecovering {
      RecoveringKeepsProgress(s, ok);
    } else if s.pc == SavingFinal {
      FinalKeepsProgress(s, ok);
    } else {
      OrdinarySaveKeepsProgress(s, ok);
    }
  }

  lemma RecoveringKeepsProgress(s: State, ok: bool)
    requires StopShape(s) && StopProgress(s) && s.pc == SavingRecovering
    ensures StopProgress(ResumeSave(s, ok))
  {
    NeitherMeansEmpty(s.now.pending);
  }

  lemma OrdinarySaveKeepsProgress(s: State, ok: bool)
    requires StopShape(s) && StopProgress(s) && IsSave(s.pc) && !IsStopPc(s.pc)
    ensures StopProgress(ResumeSave(s, ok))
  {
    hide ResumeSave;
    OrdinarySaveMeans(s, ok);
  }

  lemma FinalKeepsProgress(s: State, ok: bool)
    requires StopShape(s) && StopProgress(s) && s.pc == SavingFinal
    ensures StopProgress(ResumeSave(s, ok))
  {
  }

  lemma StopSavingKeepsProgress(s: State, ok: bool)
    requires Ahead(s) && StopShape(s) && StopProgress(s) && s.pc.StopSaving?
    ensures StopProgress(ResumeSave(s, ok))
  {
    hide ResumeSave, RestoreNext, Conclude;
    var t := Journaled(s, ok);
    var errors := if ok then t.stopErrors else t.stopErrors + 1;
    var v := t.(now := t.now.(pending := if ok then t.now.pending else s.pc.before), stopErrors := errors);
    StopSaveResumes(s, ok);
    if s.pc.which == B { RestoringKeepsProgress(v); } else { ConcludeKeepsProgress(v); }
  }

  /** The stop job goes on from luminaire B to luminaire A. */
  lemma RestoringKeepsProgress(s: State)
    requires s.stopping && s.stopOutcome.None? && s.now.captured
    requires s.stopErrors == 0 ==> B !in s.now.pending
    ensures StopProgress(RestoreNext(s, false))
  {
    hide Conclude;
    if !(A in s.now.pending) {
      ConcludeKeepsProgress(s);
      hide StopProgress;
    }
  }

  lemma ConcludeKeepsProgress(s: State)
    requires s.stopping && s.stopOutcome.None? && s.now.captured
    requires s.stopErrors == 0 ==> A !in s.now.pending && B !in s.now.pending
    ensures StopProgress(Conclude(s))
  {
    NeitherMeansEmpty(s.now.pending);
  }

  lemma NeitherMeansEmpty(pending: set<Luminaire>)
    ensures A !in pending && B !in pending <==> pending == {}
  {
    if l :| l in pending {
      match l {
        case A =>
        case B =>
      }
    }
  }

  lemma PortKeepsProgress(s: State, ok: bool, linked: bool, time: real)
    requires Ahead(s) && StopShape(s) && StopProgress(s) && !IsSave(s.pc)
    ensures StopProgress(ResumePort(s, ok, linked, time))
  {
    hide Ahead, StopShape, StopProgress, ResumePort;
    match s.pc {
      case StopRestoring(which) => StopRestoringKeepsProgress(s, ok, linked, time);
      case Closing => ClosingKeepsProgress(s, ok, linked, time);
      case Idle => StartPortKeepsProgress(s, ok, linked, time);
      case Preparing => StartPortKeepsProgress(s, ok, linked, time);
      case Sensing => StartPortKeepsProgress(s, ok, linked, time);
      case _ => PulsePortKeepsProgress(s, ok, linked, time);
    }
  }

  lemma StartPortKeepsProgress(s: State, ok: bool, linked: bool, time: real)
    requires StopShape(s) && StopProgress(s) && s.pc in {Idle, Preparing, Sensing}
    ensures StopProgress(ResumePort(s, ok, linked, time))
  {
    hide GoOn, FaultAndSave, Checked, Restored;
  }

  lemma PulsePortKeepsProgress(s: State, ok: bool, linked: bool, time: real)
    requires StopShape(s) && StopProgress(s) && s.pc in {ApplyingB, Linking, RestoringB}
    ensures StopProgress(ResumePort(s, ok, linked, time))
  {
    hide GoOn;
  }

  lemma ClosingKeepsProgress(s: State, ok: bool, linked: bool, time: real)
    requires StopShape(s) && StopProgress(s) && s.pc == Closing
    ensures StopProgress(ResumePort(s, ok, linked, time))
  {
    hide GoOn;
  }

  lemma StopRestoringKeepsProgress(s: State, ok: bool, linked: bool, time: real)
    requires StopShape(s) && StopProgress(s) && s.pc.StopRestoring?
    ensures StopProgress(ResumePort(s, ok, linked, time))
  {
    hide GoOn, StopProgress, Saving, Restored;
    RestoreKeepsProgress(s);
    RestoringMeans(s);
    FailedRestoreKeepsProgress(s.(stopErrors := s.stopErrors + 1), s.pc.which);
  }

  lemma RestoringMeans(s: State)
    requires StopShape(s) && StopProgress(s) && s.pc.StopRestoring?
    ensures s.stopping && s.stopOutcome.None? && s.now.captured
  {
  }

  lemma RestoreKeepsProgress(s: State)
    requires StopShape(s) && StopProgress(s) && s.pc.StopRestoring?
    ensures StopProgress(Saving(Restored(s, s.pc.which), StopSaving(s.pc.which, s.now.pending)))
  {
  }

  /** After a failed restore the stop job has an error and goes on. */
  lemma FailedRestoreKeepsProgress(s: State, which: Luminaire)
    requires s.stopping && s.stopOutcome.None? && s.now.captured && s.stopErrors > 0
    ensures StopProgress(GoOn(s, which))
  {
    hide RestoreNext, Conclude;
    RestoringKeepsProgress(s);
    ConcludeKeepsProgress(s);
  }

  lemma {:induction false} AlwaysShaped(events: seq<Event>)
    ensures StopShape(After(events)) && StopProgress(After(events))
  {
    if events != [] {
      var before := events[..|events| - 1];
      AlwaysShaped(before);
      AlwaysAhead(before);
      StepKeepsShape(After(before), events[|events| - 1]);
      StepKeepsProgress(After(before), events[|events| - 1]);
      hide Step, StopShape, StopProgress, Ahead;
    }
  }

  /** The phase "closed", in memory or in the journal, means that nothing is pending. */
  lemma ClosedMeansNothingPending(events: seq<Event>)
    ensures ClosedIsEmpty(Some(After(events).now)) && ClosedIsEmpty(After(events).durable)
  {
    AlwaysShaped(events);
    hide After;
  }

  /** stop() succeeds exactly if no step of it and no journal write of the run failed, and then the
      journal says closed and no luminaire is left changed. */
  lemma StopOutcomeIsExact(events: seq<Event>)
    requires After(events).stopOutcome.Some?
    ensures var s := After(events);
            && (s.stopOutcome.value <==> s.stopErrors == 0 && s.journalErrors == 0)
            && (s.stopOutcome.value ==>
                  && s.exposed == {} && s.durable.Some? && s.durable.value.phase == Closed && s.durable.value.pending == {})
  {
    AlwaysShaped(events);
    AlwaysAhead(events);
    hide After;
  }

  // ----- The hold time -----

  predicate HoldsFor(events: seq<Event>, holdMs: real) {
    forall i :: 0 <= i < |events| && events[i].PulseJob? ==> events[i].holdMs == holdMs
  }

  /** A deadline is always the hold time after the pulse accepted last. */
  predicate DeadlineIsLast(s: State, holdMs: real) {
    s.now.deadline.Some? ==> s.last.Some? && s.now.deadline.value == s.last.value.at + holdMs
  }

  lemma StepKeepsDeadline(s: State, e: Event, holdMs: real)
    requires DeadlineIsLast(s, holdMs) && (e.PulseJob? ==> e.holdMs == holdMs)
    ensures DeadlineIsLast(Step(s, e), holdMs)
  {
    match e {
      case Settles(ok, linked, time) =>
        if IsSave(s.pc) { SaveKeepsDeadline(s, ok); } else { PortKeepsDeadline(s, ok, linked, time); }
      case _ =>
    }
    hide ResumeSave, ResumePort, Admits;
  }

  lemma SaveKeepsDeadline(s: State, ok: bool)
    requires IsSave(s.pc)
    ensures ResumeSave(s, ok).now.deadline == s.now.deadline && ResumeSave(s, ok).last == s.last
  {
    hide ResumeSave;
    SaveLeavesRest(s, ok);
  }

  lemma PortKeepsDeadline(s: State, ok: bool, linked: bool, time: real)
    requires !IsSave(s.pc)
    ensures var u := ResumePort(s, ok, linked, time);
            u.last == s.last && (u.now.deadline == s.now.deadline || u.now.deadline == None)
  {
    match s.pc {
      case StopRestoring(which) =>
      case _ =>
    }
  }

  /** A tick sets out to switch the luminaire back only when the hold time has passed since the
      pulse accepted last. */
  lemma {:induction false} HoldIsRespected(events: seq<Event>, time: real, holdMs: real)
    requires HoldsFor(events, holdMs)
    ensures DeadlineIsLast(After(events), holdMs)
    ensures After(events).pc == Idle && Step(After(events), TickJob(time)).pc == Linking ==>
      After(events).last.Some? && time >= After(events).last.value.at + holdMs
  {
    if events != [] {
      var n := |events| - 1;
      HoldIsRespected(events[..n], time, holdMs);
      StepKeepsDeadline(After(events[..n]), events[n], holdMs);
    }
    hide After;
  }
}
