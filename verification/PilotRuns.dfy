/** What the pilot runtime does when it is due: a tick switches back exactly when it should, and jobs
    whose calls succeed reach their end. */
module PilotRuns {
  import opened Options
  import opened PilotSafety
  import opened PilotSteps

  // ----- When a tick switches back -----

  /** While the run is healthy, a switched luminaire has a deadline. */
  predicate Timed(s: State) { !Halted(s) && B in s.now.pending ==> s.now.deadline.Some? }

  lemma StepKeepsTimed(s: State, e: Event)
    requires Ahead(s) && Timed(s)
    ensures Timed(Step(s, e))
  {
    match e {
      case PulseJob(c, time, holdMs) => PulseKeepsTimed(s, c, time, holdMs);
      case Settles(ok, linked, time) =>
        if IsSave(s.pc) { SaveKeepsTimed(s, ok); } else { PortKeepsTimed(s, ok, linked, time); }
      case _ =>
    }
    hide ResumeSave, ResumePort, BeginPulse, Ahead;
  }

  lemma PulseKeepsTimed(s: State, c: Candidate, time: real, holdMs: real)
    requires Timed(s)
    ensures Timed(BeginPulse(s, c, time, holdMs))
  {
    hide Admits;
  }

  lemma SaveKeepsTimed(s: State, ok: bool)
    requires Ahead(s) && Timed(s) && IsSave(s.pc)
    ensures Timed(ResumeSave(s, ok))
  {
    hide ResumeSave;
    SaveLeavesRest(s, ok);
    SaveHalts(s, ok);
    if !IsStopPc(s.pc) { OrdinarySaveMeans(s, ok); }
  }

  lemma PortKeepsTimed(s: State, ok: bool, linked: bool, time: real)
    requires Ahead(s) && Timed(s) && !IsSave(s.pc)
    ensures Timed(ResumePort(s, ok, linked, time))
  {
    if IsStopPc(s.pc) {
      PortHalts(s, ok, linked, time);
      hide ResumePort;
    } else {
      hide GoOn, WriteAhead, Backed;
      match s.pc {
        case Idle =>
        case Preparing =>
        case Sensing =>
        case ApplyingB =>
        case Linking =>
        case RestoringB =>
      }
    }
  }

  lemma {:induction false} AlwaysTimed(events: seq<Event>)
    ensures Timed(After(events))
  {
    if events != [] {
      AlwaysTimed(events[..|events| - 1]);
      AlwaysAhead(events[..|events| - 1]);
      StepKeepsTimed(After(events[..|events| - 1]), events[|events| - 1]);
      hide Step, Timed, Ahead;
    }
  }

  /** An idle tick sets out to switch back if and only if the run is not halted, the luminaire is
      switched, and the hold time has passed since the pulse accepted last. */
  lemma TickExactly(events: seq<Event>, time: real, holdMs: real)
    requires HoldsFor(events, holdMs) && After(events).pc == Idle
    ensures var s := After(events);
            Step(s, TickJob(time)).pc == Linking <==>
              !Halted(s) && B in s.now.pending && s.last.Some? && time >= s.last.value.at + holdMs
  {
    AlwaysTimed(events);
    AlwaysAhead(events);
    HoldIsRespected(events, time, holdMs);
    hide After, WriteAhead, SavesPending;
  }

  /** The notification is new: later, ahead of the last one by 1 to 127 on the 8-bit circle, and not a
      bounce of the same kind within a quarter of a second. */
  ghost predicate Succeeds(last: Candidate, c: Candidate) {
    && last.at <= c.at && (exists d: int :: 1 <= d <= 127 && c.sequence == Ahead256(last.sequence, d))
    && (c.rising == last.rising ==> c.at - last.at >= 250.0)
  }

  function Ahead256(sequence: int, d: int): int { (sequence + d) % 256 }

  /** An idle run takes up a pulse if and only if it observes and is not halted, the notification is
      well formed, at most 3 s old and not older than the start, the cap is not reached, and the
      notification is new. */
  lemma PulseExactly(events: seq<Event>, c: Candidate, time: real, holdMs: real)
    requires After(events).pc == Idle
    ensures var s := After(events);
            Step(s, PulseJob(c, time, holdMs)).pc != Idle <==>
              && s.now.phase == Observing && !Halted(s) && c.wellFormed
              && s.startedAt <= c.at <= time <= c.at + 3000.0 && time < s.startedAt + 300000.0
              && (s.last.Some? ==> Succeeds(s.last.value, c))
  {
    hide After, Admits, Succeeds;
    PulseBegins(After(events), c, time, holdMs);
    AdmitsMeans(After(events), c, time);
  }

  lemma PulseBegins(s: State, c: Candidate, time: real, holdMs: real)
    requires s.pc == Idle
    ensures Step(s, PulseJob(c, time, holdMs)).pc != Idle <==> Admits(s, c, time)
  {
    hide Admits;
  }

  lemma AdmitsMeans(s: State, c: Candidate, time: real)
    ensures Admits(s, c, time) <==>
      && s.now.phase == Observing && !Halted(s) && c.wellFormed
      && s.startedAt <= c.at <= time <= c.at + 3000.0 && time < s.startedAt + 300000.0
      && (s.last.Some? ==> Succeeds(s.last.value, c))
  {
    if s.last.Some? { SucceedsMeans(s.last.value, c); }
    hide Succeeds;
  }

  lemma SucceedsMeans(last: Candidate, c: Candidate)
    ensures Succeeds(last, c) <==>
      var delta := (c.sequence - last.sequence + 256) % 256;
      c.at >= last.at && 0 < delta <= 127 && !(c.rising == last.rising && c.at - last.at < 250.0)
  {
    AheadOnTheCircle(last.sequence, c.sequence);
    hide Ahead256;
  }

  lemma AheadOnTheCircle(a: Byte, b: Byte)
    ensures 0 < (b - a + 256) % 256 <= 127 <==> exists d: int :: 1 <= d <= 127 && b == Ahead256(a, d)
  {
    var d := (b - a + 256) % 256;
    assert Ahead256(a, d) == b;
    forall x: int | 1 <= x <= 127 && b == Ahead256(a, x) ensures x == d {
      assert (x - d) % 256 == 0;
    }
  }

  // ----- Jobs whose calls succeed -----

  function Steps(s: State, events: seq<Event>): State {
    if events == [] then s else Step(Steps(s, events[..|events| - 1]), events[|events| - 1])
  }

  lemma {:induction false} StepsFollow(events: seq<Event>, more: seq<Event>)
    ensures After(events + more) == Steps(After(events), more)
  {
    if more == [] {
      assert events + more == events;
    } else {
      var n := |more| - 1;
      StepsFollow(events, more[..n]);
      assert (events + more)[..|events + more| - 1] == events + more[..n];
    }
  }

  ghost predicate Leads(s: State, events: seq<Event>, u: State) { Steps(s, events) == u }

  lemma Onward(s: State, events: seq<Event>, u: State, e: Event) returns (more: seq<Event>, v: State)
    requires Leads(s, events, u)
    ensures more == events + [e] && v == Step(u, e) && Leads(s, more, v)
  {
    more, v := events + [e], Step(u, e);
    assert more[..|events|] == events;
  }

  lemma Nowhere(s: State)
    ensures Leads(s, [], s)
  {
  }

  const DONE := Settles(true, true, 0.0)

  /** A fresh runtime captures, announces luminaire A, writes to it, and observes. */
  lemma StartWorks(time: real) returns (events: seq<Event>, u: State)
    requires time >= 0.0
    ensures Leads(FRESH, events, u)
    ensures 4 < |events| && StartsWrite(Steps(FRESH, events[..4]), events[4]) && NormalTarget(Steps(FRESH, events[..4]).pc) == Some(A)
    ensures u == FRESH.(now := Snapshot(Observing, true, {A}, 0, None), started := true, startedAt := time,
                        durable := Some(Snapshot(Observing, true, {A}, 0, None)), exposed := {A})
  {
    hide Leads;
    Nowhere(FRESH);
    events, u := Onward(FRESH, [], FRESH, StartJob);
    events, u := Onward(FRESH, events, u, DONE);
    events, u := Onward(FRESH, events, u, DONE);
    events, u := Onward(FRESH, events, u, DONE);
    assert u.pc == Sensing && u.now.pending == {A};
    ghost var before, sensing := events, u;
    events, u := Onward(FRESH, events, u, WriteStarts(time));
    ghost var writes := events;
    events, u := Onward(FRESH, events, u, Settles(true, true, time));
    events, u := Onward(FRESH, events, u, DONE);
    assert events[..4] == before && events[4] == WriteStarts(time);
    assert Steps(FRESH, before) == sensing by { LeadsTo(FRESH, before, sensing); }
  }

  lemma LeadsTo(s: State, events: seq<Event>, u: State)
    requires Leads(s, events, u)
    ensures Steps(s, events) == u
  {
  }

  /** A run that waits for its next job. */
  predicate Waiting(s: State) { !Halted(s) && s.pc == Idle && s.started && s.now.captured && s.now.phase == Observing }

  /** An admitted pulse on an unswitched luminaire announces B, writes to it before the cap, and sets
      the deadline. */
  lemma PulseWorks(s: State, c: Candidate, time: real, holdMs: real, write: real) returns (events: seq<Event>, u: State)
    requires Waiting(s) && Admits(s, c, time) && B !in s.now.pending && write < s.startedAt + CAP
    ensures Leads(s, events, u) && Waiting(u)
    ensures 2 < |events| && StartsWrite(Steps(s, events[..2]), events[2]) && NormalTarget(Steps(s, events[..2]).pc) == Some(B)
    ensures u.now == s.now.(pending := s.now.pending + {B}, occurrence := s.now.occurrence + 1, deadline := Some(c.at + holdMs))
    ensures u.durable == Some(u.now) && u.exposed == s.exposed + {B} && u.last == Some(c)
    ensures u.startedAt == s.startedAt && u.journalErrors == s.journalErrors && u.stopErrors == s.stopErrors && u.stopOutcome == s.stopOutcome
  {
    hide Leads, Admits, GoOn, RestoreNext;
    Nowhere(s);
    events, u := Onward(s, [], s, PulseJob(c, time, holdMs));
    events, u := Onward(s, events, u, DONE);
    assert u.pc == ApplyingB;
    ghost var before, applying := events, u;
    events, u := Onward(s, events, u, WriteStarts(write));
    events, u := Onward(s, events, u, Settles(true, true, write));
    events, u := Onward(s, events, u, DONE);
    assert events[..2] == before && events[2] == WriteStarts(write);
    assert Steps(s, before) == applying by { LeadsTo(s, before, applying); }
  }

  /** A tick at the deadline writes the restore of B before the cap and forgets the deadline. */
  lemma TickWorks(s: State, time: real) returns (events: seq<Event>, u: State)
    requires Waiting(s) && B in s.now.pending && s.now.deadline.Some? && s.now.deadline.value <= time < s.startedAt + CAP
    ensures Leads(s, events, u) && Waiting(u)
    ensures 2 < |events| && StartsWrite(Steps(s, events[..2]), events[2]) && NormalTarget(Steps(s, events[..2]).pc) == Some(B)
    ensures u.now == s.now.(pending := s.now.pending - {B}, deadline := None)
    ensures u.durable == Some(u.now) && u.exposed == s.exposed - {B} && u.last == s.last
    ensures u.startedAt == s.startedAt && u.journalErrors == s.journalErrors && u.stopErrors == s.stopErrors && u.stopOutcome == s.stopOutcome
  {
    hide Leads, BeginPulse, GoOn, RestoreNext;
    Nowhere(s);
    events, u := Onward(s, [], s, TickJob(time));
    assert u == s.(pc := Linking);
    events, u := Onward(s, events, u, Settles(true, true, time));
    assert u == s.(pc := RestoringB);
    ghost var before, restoring := events, u;
    events, u := Onward(s, events, u, WriteStarts(time));
    events, u := Onward(s, events, u, DONE);
    events, u := Onward(s, events, u, DONE);
    assert events[..2] == before && events[2] == WriteStarts(time);
    assert Steps(s, before) == restoring by { LeadsTo(s, before, restoring); }
  }

  lemma OnlyA(pending: set<Luminaire>)
    ensures A in pending && B !in pending ==> pending == {A} && pending - {A} == {}
  {
    NeitherMeansEmpty(pending - {A});
  }

  /** A stop of a waiting run restores what is switched, B before A, and succeeds. */
  lemma StopWorks(s: State) returns (events: seq<Event>, u: State)
    requires Waiting(s) && A in s.now.pending && s.exposed <= s.now.pending
    requires s.journalErrors == 0 && s.stopErrors == 0 && s.stopOutcome.None?
    ensures Leads(s, events, u) && u.pc == Idle && u.stopOutcome == Some(true)
    ensures u.last == s.last && u.now.occurrence == s.now.occurrence
    ensures u.exposed == {} && u.now.pending == {} && u.durable == Some(u.now) && u.now.phase == Closed
  {
    hide Leads, BeginPulse;
    Nowhere(s);
    events, u := Onward(s, [], s, Stop);
    events, u := Onward(s, events, u, StopJob);
    assert u == s.(stopping := true, pc := SavingRecovering, now := u.now, inFlight := Some(u.now)) && u.now == s.now.(phase := Recovering);
    events, u := Onward(s, events, u, DONE);
    if B in s.now.pending { events, u := FirstRestore(s, events, u); }
    events, u := LastRestore(s, events, u);
  }

  lemma FirstRestore(s: State, before: seq<Event>, v: State) returns (events: seq<Event>, u: State)
    requires Leads(s, before, v) && v.pc == StopRestoring(B) && v.now.captured && A in v.now.pending
    requires v.exposed <= v.now.pending && v.journalErrors == 0 && v.stopErrors == 0
    ensures Leads(s, events, u) && AtLast(u) && u.last == v.last && u.now.occurrence == v.now.occurrence
  {
    hide Leads;
    events, u := Onward(s, before, v, DONE);
    events, u := Onward(s, events, u, DONE);
  }

  /** The stop job at its last luminaire, without an error so far. */
  predicate AtLast(u: State) {
    && u.pc == StopRestoring(A) && A in u.now.pending && B !in u.now.pending && u.exposed <= u.now.pending
    && u.journalErrors == 0 && u.stopErrors == 0
  }

  lemma LastRestore(s: State, before: seq<Event>, v: State) returns (events: seq<Event>, u: State)
    requires Leads(s, before, v) && AtLast(v)
    ensures Leads(s, events, u) && u.pc == Idle && u.stopOutcome == Some(true)
    ensures u.last == v.last && u.now.occurrence == v.now.occurrence
    ensures u.exposed == {} && u.now.pending == {} && u.durable == Some(u.now) && u.now.phase == Closed
  {
    hide Leads;
    OnlyA(v.now.pending);
    events, u := Onward(s, before, v, DONE);
    assert u.pc.StopSaving? && u.now.pending == {} && u.exposed == {};
    events, u := Onward(s, events, u, DONE);
    assert u.pc == SavingFinal && u.now.phase == Closed;
    events, u := Onward(s, events, u, DONE);
    events, u := Onward(s, events, u, DONE);
  }

  lemma {:induction false} StepsJoin(s: State, first: seq<Event>, then_: seq<Event>)
    ensures Steps(s, first + then_) == Steps(Steps(s, first), then_)
  {
    if then_ == [] {
      assert first + then_ == first;
    } else {
      var n := |then_| - 1;
      StepsJoin(s, first, then_[..n]);
      assert (first + then_)[..|first + then_| - 1] == first + then_[..n];
    }
  }

  /** From a fresh runtime: start, a pulse, the switch back at its deadline, and a stop that succeeds
      with everything restored and the journal closed. */
  lemma PilotWorks(c: Candidate, holdMs: real) returns (events: seq<Event>)
    requires c.wellFormed && 0.0 <= c.at && 0.0 < holdMs && c.at + holdMs < CAP
    ensures var u := After(events);
            && u.stopOutcome == Some(true) && u.exposed == {} && u.durable.Some? && u.durable.value.phase == Closed
            && u.last == Some(c) && u.now.occurrence == 1
  {
    hide Leads, Admits;
    var e1, u1 := StartWorks(0.0);
    FirstPulse(u1, c);
    var e2, u2 := PulseWorks(u1, c, c.at, holdMs, c.at);
    var e3, u3 := TickWorks(u2, c.at + holdMs);
    var e4, u4 := StopWorks(u3);
    Joins(FRESH, e1, u1, e2, u2);
    Joins(FRESH, e1 + e2, u2, e3, u3);
    Joins(FRESH, e1 + e2 + e3, u3, e4, u4);
    events := e1 + e2 + e3 + e4;
    LeadsAfter(events, u4);
  }

  lemma FirstPulse(s: State, c: Candidate)
    requires Waiting(s) && s.startedAt == 0.0 && s.last.None? && c.wellFormed && 0.0 <= c.at < CAP
    ensures Admits(s, c, c.at)
  {
  }

  lemma Joins(s: State, first: seq<Event>, u: State, then_: seq<Event>, v: State)
    requires Leads(s, first, u) && Leads(u, then_, v)
    ensures Leads(s, first + then_, v)
  {
    StepsJoin(s, first, then_);
  }

  lemma LeadsAfter(events: seq<Event>, u: State)
    requires Leads(FRESH, events, u)
    ensures After(events) == u
  {
    StepsFollow([], events);
    assert [] + events == events;
  }
}
