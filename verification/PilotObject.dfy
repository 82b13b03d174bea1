/** The pilot runtime as an object, proved to take the steps of PilotSteps. */
module PilotObject {
  import opened Options
  import opened PilotSteps

  class PilotRuntime {
    const holdMs: real
    var now: Snapshot
    var stopping: bool
    var degraded: bool
    var started: bool
    var startedAt: real
    var last: Option<Candidate>
    var pc: Pc
    var inFlight: Option<Snapshot>
    var durable: Option<Snapshot>
    var journalErrors: nat
    var stopErrors: nat
    var stopOutcome: Option<bool>
    ghost var exposed: set<Luminaire>

    ghost function View(): State
      reads this
    {
      State(now, stopping, degraded, started, startedAt, last, pc, inFlight, durable, journalErrors, stopErrors,
            stopOutcome, exposed)
    }

    constructor (holdSeconds: int)
      requires 10 <= holdSeconds <= 1800
      ensures View() == FRESH && holdMs == holdSeconds as real * 1000.0
    {
      holdMs := holdSeconds as real * 1000.0;
      now := Snapshot(New, false, {}, 0, None);
      stopping, degraded, started, startedAt, last := false, false, false, 0.0, None;
      pc, inFlight, durable := Idle, None, None;
      journalErrors, stopErrors, stopOutcome, exposed := 0, 0, None, {};
    }

    method Fault()
      modifies this
      ensures View() == Faulted(old(View()))
    {
      degraded := true;
      now := now.(phase := Degraded);
    }

    method Stop()
      modifies this
      ensures View() == Stopped(old(View()))
    {
      stopping := true;
    }

    method CheckCap(time: real) returns (reached: bool)
      modifies this
      ensures View() == Checked(old(View()), time) && reached == CapReached(old(View()), time)
    {
      if !started || time - startedAt < CAP { return false; }
      if !stopping { Stop(); }
      return true;
    }

    method AskMayWrite(time: real) returns (allowed: bool)
      modifies this
      ensures View() == Checked(old(View()), time) && allowed == MayWrite(old(View()), time)
      ensures allowed ==> View() == old(View())
    {
      var reached := CheckCap(time);
      return !reached && !stopping && !degraded;
    }

    /** The port asks before every physical write of a normal operation. */
    method PortWrites(time: real) returns (goes: bool)
      modifies this
      ensures goes == StartsWrite(old(View()), WriteStarts(time))
      ensures View() == Step(old(View()), WriteStarts(time))
    {
      var allowed := AskMayWrite(time);
      goes := allowed && NormalTarget(pc).Some?;
      if goes { exposed := exposed + {NormalTarget(pc).value}; }
    }

    method Save(where: Pc)
      modifies this
      ensures View() == Saving(old(View()), where)
    {
      pc, inFlight := where, Some(now);
    }

    method StartJob()
      requires pc == Idle
      modifies this
      ensures View() == BeginStart(old(View()))
    {
      if now.phase == New && !stopping { pc := Preparing; }
    }

    method PulseJob(c: Candidate, time: real)
      requires pc == Idle
      modifies this
      ensures View() == BeginPulse(old(View()), c, time, holdMs)
    {
      ghost var s := View();
      if stopping || degraded || now.phase != Observing { return; }
      if !c.wellFormed || c.at < startedAt || c.at > time || time - c.at > 3000.0 || time - startedAt >= CAP { return; }
      if last.Some? {
        var delta := (c.sequence - last.value.sequence + 256) % 256;
        if c.at < last.value.at || delta == 0 || delta > 127 || (c.rising == last.value.rising && c.at - last.value.at < 250.0) {
          return;
        }
      }
      assert Admits(s, c, time);
      hide Admits;
      last := Some(c);
      if B !in now.pending {
        now := now.(pending := now.pending + {B}, occurrence := now.occurrence + 1, deadline := Some(c.at + holdMs));
        Save(SavingIntentB);
      } else {
        now := now.(deadline := Some(c.at + holdMs));
        Save(SavingPulse);
      }
    }

    method TickJob(time: real)
      requires pc == Idle
      modifies this
      ensures View() == BeginTick(old(View()), time)
    {
      if !stopping && !degraded && now.deadline.Some? && time >= now.deadline.value { pc := Linking; }
    }

    method StopJob()
      requires pc == Idle
      modifies this
      ensures View() == BeginStop(old(View()))
    {
      if stopping && stopOutcome.None? {
        now := now.(phase := Recovering);
        Save(SavingRecovering);
      }
    }

    method SaveAfterFault()
      modifies this
      ensures View() == FaultAndSave(old(View()))
    {
      Fault();
      Save(SavingAfterFault);
    }

    method Finish()
      modifies this
      ensures View() == Conclude(old(View()))
    {
      now := now.(phase := if now.pending != {} then RestorePending else Closed);
      Save(SavingFinal);
    }

    method Next(fromB: bool)
      modifies this
      ensures View() == RestoreNext(old(View()), fromB)
    {
      if fromB && B in now.pending && now.captured {
        pc := StopRestoring(B);
      } else if A in now.pending && now.captured {
        pc := StopRestoring(A);
      } else {
        Finish();
      }
    }

    method Advance(which: Luminaire)
      modifies this
      ensures View() == GoOn(old(View()), which)
    {
      if which == B { Next(false); } else { Finish(); }
    }

    method JournalSettles(ok: bool)
      modifies this
      ensures View() == Journaled(old(View()), ok)
    {
      if ok {
        if inFlight.Some? { durable := inFlight; }
      } else {
        journalErrors := journalErrors + 1;
      }
      inFlight := None;
    }

    method AfterSave(ok: bool)
      requires IsSave(pc)
      modifies this
      ensures View() == ResumeSave(old(View()), ok)
    {
      hide Saving, RestoreNext, GoOn, FaultAndSave, Journaled, Faulted;
      JournalSettles(ok);
      assert pc == old(pc) by { JournaledFrame(old(View()), ok); }
      match pc {
        case SavingCaptured =>
          if ok {
            now := now.(pending := now.pending + {A});
            Save(SavingIntentA);
          } else {
            Fault();
            pc := Idle;
          }
        case SavingIntentA =>
          if ok { pc := Sensing; } else { Fault(); pc := Idle; }
        case SavingObserving =>
          if !ok { Fault(); }
          pc := Idle;
        case SavingIntentB =>
          if ok { pc := ApplyingB; } else { SaveAfterFault(); }
        case SavingPulse =>
          if ok { pc := Idle; } else { SaveAfterFault(); }
        case SavingRestored =>
          if ok { pc := Idle; } else { SaveAfterFault(); }
        case SavingAfterFault => pc := Idle;
        case SavingRecovering =>
          if !ok { stopErrors := stopErrors + 1; }
          Next(true);
        case StopSaving(which, before) =>
          if !ok {
            now := now.(pending := before);
            stopErrors := stopErrors + 1;
          }
          Advance(which);
        case SavingFinal =>
          if !ok { stopErrors := stopErrors + 1; }
          pc := Closing;
      }
    }

    /** The port calls of the stop job: a restore, and closing the port. */
    method AfterStopPort(ok: bool, linked: bool, time: real)
      requires pc.StopRestoring? || pc.Closing?
      modifies this
      ensures View() == ResumePort(old(View()), ok, linked, time)
    {
      hide Saving, GoOn;
      if pc.StopRestoring? {
        var which := pc.which;
        if ok {
          exposed := exposed - {which};
          var before := now.pending;
          now := now.(pending := now.pending - {which});
          Save(StopSaving(which, before));
        } else {
          stopErrors := stopErrors + 1;
          Advance(which);
        }
      } else {
        if !ok { stopErrors := stopErrors + 1; }
        stopOutcome := Some(stopErrors == 0 && journalErrors == 0 && now.pending == {});
        pc := Idle;
      }
    }

    method AfterPort(ok: bool, linked: bool, time: real)
      requires !IsSave(pc)
      modifies this
      ensures View() == ResumePort(old(View()), ok, linked, time)
    {
      hide Saving, RestoreNext, GoOn, FaultAndSave, Faulted, CapReached, Checked, MayWrite;
      match pc {
        case Idle =>
        case Preparing =>
          if ok {
            now := now.(captured := true, phase := Captured);
            Save(SavingCaptured);
          } else {
            Fault();
            pc := Idle;
          }
        case Sensing =>
          if ok && !stopping && !degraded {
            startedAt, started := time, true;
            now := now.(phase := Observing);
            Save(SavingObserving);
          } else {
            Fault();
            pc := Idle;
          }
        case ApplyingB =>
          if !ok {
            SaveAfterFault();
          } else {
            var allowed := AskMayWrite(time);
            if allowed { Save(SavingPulse); } else { pc := Idle; }
          }
        case Linking =>
          if !ok || !linked {
            SaveAfterFault();
          } else {
            var allowed := AskMayWrite(time);
            pc := if allowed then RestoringB else Idle;
          }
        case RestoringB =>
          if ok {
            exposed := exposed - {B};
            now := now.(pending := now.pending - {B}, deadline := None);
            Save(SavingRestored);
          } else {
            SaveAfterFault();
          }
        case StopRestoring(_) => AfterStopPort(ok, linked, time);
        case Closing => AfterStopPort(ok, linked, time);
      }
    }
  }

  lemma JournaledFrame(s: State, ok: bool)
    ensures Journaled(s, ok).pc == s.pc
  {
  }
}
