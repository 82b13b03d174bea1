/** Commands that outlive their session: when a start, although clean, lets a command of an earlier
    session be executed. */
module RuntimeStale {
  import opened RuntimeEpochs
  import opened RuntimeRestart
  import opened RuntimeSafety
  import opened RuntimeSteps

  // ----- Nobody holds a stamped command -----

  /** The command in a thread's hands, if any, was stamped after session k. */
  predicate CarriesLater(p: Producer, k: nat) { Carried(p).Some? ==> Carried(p).value.session > k }

  ghost predicate AllLater(s: State, k: nat) {
    && s.session > k
    && (forall i :: 0 <= i < |s.threads| ==> CarriesLater(s.threads[i], k))
    && (forall i :: 0 <= i < |s.queue| ==> s.queue[i].session > k)
    && (s.worker.CheckingEpoch? || s.worker.Executing? ==> s.worker.command.session > k)
  }

  lemma StepKeepsLater(s: State, a: Action, k: nat)
    requires AllLater(s, k) && Enabled(s, a)
    ensures AllLater(Step(s, a), k)
  {
    if IsThreadAction(a) {
      ThreadLeavesRest(s, a);
      ThreadCarriesLater(s, a, k);
      hide ThreadStep, CarriesLater, Enabled;
    } else if a.WorkerMoves? {
      WorkerLeavesRest(s);
      hide CarriesLater;
      match s.worker {
        case Receiving(n) =>
        case CheckingEpoch(c, n) =>
        case _ =>
      }
    } else {
      hide CarriesLater;
    }
  }

  lemma ThreadCarriesLater(s: State, a: Action, k: nat)
    requires AllLater(s, k) && IsThreadAction(a) && Enabled(s, a)
    ensures var u := ThreadStep(s, a);
            && |u.threads| == |s.threads| && u.threads == s.threads[a.thread := u.threads[a.thread]]
            && CarriesLater(u.threads[a.thread], k)
            && forall j :: 0 <= j < |u.queue| ==> u.queue[j].session > k
  {
    hide ThreadStep, Carried;
    assert CarriesLater(s.threads[a.thread], k);
    ThreadMoves(s, a);
    ThreadCarries(s, a);
    ThreadQueues(s, a);
  }

  lemma {:induction false} ReachKeepsLater(s: State, actions: seq<Action>, u: State, k: nat)
    requires AllLater(s, k) && Reaches(s, actions, u)
    ensures AllLater(u, k)
    decreases |actions|
  {
    hide AllLater, Step, Enabled;
    if actions != [] {
      StepKeepsLater(s, actions[0], k);
      ReachKeepsLater(Step(s, actions[0]), actions[1..], u, k);
    }
  }

  /** The thread holds a stamped command and is not counted yet. */
  predicate HoldsStamp(p: Producer) { (p.Stamped? || p.SawOpen?) && p.job.Enqueue? }

  // ----- A thread that does -----

  /** A session has been opened in which thread i still holds its earlier stamp. */
  ghost predicate Opened(u: State, i: nat, c: Command, front: bool) {
    && i < |u.threads| && (u.threads[i] == Stamped(Enqueue(c, front)) || u.threads[i] == SawOpen(Enqueue(c, front)))
    && u.mode.Open? && u.activated && !u.stopRequested && u.producers == 0 && u.queue == []
    && u.worker.Parked? && u.workerGeneration != u.runGeneration && u.resets == 0
  }

  lemma OpensAgain(s: State, i: nat, c: Command, front: bool) returns (actions: seq<Action>, u: State)
    requires Inv(s) && Enabled(s, StartReset) && s.producers == 0 && i < |s.threads|
    requires s.threads[i] == Stamped(Enqueue(c, front)) || s.threads[i] == SawOpen(Enqueue(c, front))
    ensures Reaches(Step(s, StartReset), actions, u) && Opened(u, i, c, front)
    ensures u.epoch == Increment(s.runGeneration) && u.session == s.session + 1
  {
    hide Reaches, CountInFlight;
    var u1 := Step(s, StartReset);
    ReachesNothing(u1);
    Take(u1, [], u1, StartArm);
    var u2 := Step(u1, StartArm);
    Take(u1, [] + [StartArm], u2, StartOpen);
    var u3 := Step(u2, StartOpen);
    Take(u1, [] + [StartArm] + [StartOpen], u3, Activate);
    actions, u := [] + [StartArm] + [StartOpen] + [Activate], Step(u3, Activate);
  }

  /** A thread that already looked takes the rest of the acquire. */
  lemma AcquiresAnyhow(s: State, acts: seq<Action>, u: State, i: nat, job: Job) returns (actions: seq<Action>, v: State)
    requires Reaches(s, acts, u) && i < |u.threads| && u.mode.Open?
    requires u.threads[i] == Stamped(job) || u.threads[i] == SawOpen(job)
    ensures Reaches(s, actions, v)
    ensures v == u.(threads := u.threads[i := Holding(job)], producers := Increment(u.producers))
  {
    hide Reaches;
    if u.threads[i] == Stamped(job) {
      actions, v := Acquires(s, acts, u, i, job);
    } else {
      Take(s, acts, u, Count(i));
      var u1 := u.(threads := u.threads[i := Counted(job)], producers := Increment(u.producers));
      v := u1.(threads := u.threads[i := Holding(job)]);
      assert u1.threads[i := Holding(job)] == v.threads;
      Take(s, acts + [Count(i)], u1, SecondCheck(i));
      actions := acts + [Count(i)] + [SecondCheck(i)];
    }
  }

  lemma Releases(s: State, acts: seq<Action>, u: State, i: nat) returns (actions: seq<Action>, v: State)
    requires Reaches(s, acts, u) && i < |u.threads| && u.threads[i] == Finished
    ensures Reaches(s, actions, v)
    ensures v == u.(threads := u.threads[i := Idle], producers := Decrement(u.producers))
  {
    Take(s, acts, u, Release(i));
    actions, v := acts + [Release(i)], Step(u, Release(i));
  }

  /** An idle thread resets the runtime once. */
  lemma ResetsOnce(s: State, acts: seq<Action>, u: State, i: nat) returns (actions: seq<Action>, v: State)
    requires Reaches(s, acts, u) && i < |u.threads| && u.mode.Open? && u.threads[i] == Idle && u.producers == 0
    ensures Reaches(s, actions, v)
    ensures v == u.(epoch := Increment(u.epoch), resets := u.resets + 1, resetGeneration := Increment(u.resetGeneration))
  {
    hide Reaches;
    Take(s, acts, u, BeginJob(i, Reset));
    var u1 := u.(threads := u.threads[i := Stamped(Reset)]);
    var a2, u2 := Acquires(s, acts + [BeginJob(i, Reset)], u1, i, Reset);
    Take(s, a2, u2, WorkOn(i));
    var u3 := u2.(epoch := Increment(u.epoch), resets := u.resets + 1, threads := u2.threads[i := ResetHalfDone]);
    Take(s, a2 + [WorkOn(i)], u3, WorkOn(i));
    var u4 := u3.(resetGeneration := Increment(u.resetGeneration), threads := u3.threads[i := Finished]);
    actions, v := Releases(s, a2 + [WorkOn(i)] + [WorkOn(i)], u4, i);
    assert v.threads == u.threads;
  }

  lemma {:induction false} ResetsUntil(s: State, acts: seq<Action>, u: State, i: nat, n: nat)
    returns (actions: seq<Action>, v: State)
    requires Reaches(s, acts, u) && i < |u.threads| && u.mode.Open? && u.threads[i] == Idle && u.producers == 0
    ensures Reaches(s, actions, v)
    ensures v == u.(epoch := (u.epoch + n) % TWO_32, resets := u.resets + n, resetGeneration := v.resetGeneration)
    decreases n
  {
    hide Reaches;
    if n == 0 {
      actions, v := acts, u;
    } else {
      var a1, u1 := ResetsOnce(s, acts, u, i);
      actions, v := ResetsUntil(s, a1, u1, i, n - 1);
      OneMoreRound(u.epoch, n);
    }
  }

  lemma OneMoreRound(e: U32, n: nat)
    requires n > 0
    ensures (Increment(e) + (n - 1)) % TWO_32 == (e + n) % TWO_32
  {
    if e == TWO_32 - 1 { AddMultiple(n - 1, 1); }
  }

  /** How many resets bring the epoch of the next session to the stamp. */
  function ResetsNeeded(s: State, c: Command): nat { (c.epoch - Increment(s.runGeneration)) % TWO_32 }

  lemma RoundArrives(e: U32, c: U32)
    ensures (e + (c - e) % TWO_32) % TWO_32 == c
  {
    if c < e {
      assert (c - e) % TWO_32 == c - e + TWO_32;
      AddMultiple(c, 1);
    }
  }

  /** Epochs restart from the generation, so a command stamped in an earlier session but not yet
      counted can pass the check in the next one, even after a clean start: at once if the epochs
      agree, otherwise after as many resets as bring them together. */
  lemma StaleStampCanPass(s: State, i: nat, c: Command, front: bool) returns (actions: seq<Action>, u: State)
    requires Inv(s) && Enabled(s, StartReset) && s.producers == 0 && i < |s.threads|
    requires s.threads[i] == Stamped(Enqueue(c, front)) || s.threads[i] == SawOpen(Enqueue(c, front))
    ensures Reaches(Step(s, StartReset), actions, u)
    ensures u.worker.Executing? && u.worker.command == c && u.session == s.session + 1 && u.resets == ResetsNeeded(s, c)
  {
    hide Reaches, Inv, Step, Enabled;
    var s1, n := Step(s, StartReset), ResetsNeeded(s, c);
    var a2, u2 := OpensAgain(s, i, c, front);
    var a3, u3 := AcquiresAnyhow(s1, a2, u2, i, Enqueue(c, front));
    var a4, u4 := Sends(s1, a3, u3, i, c, front);
    var a5, u5 := Releases(s1, a4, u4, i);
    assert u5.threads[i] == Idle && u5.producers == 0 && u5.epoch == Increment(s.runGeneration);
    var a6, u6 := ResetsUntil(s1, a5, u5, i, n);
    RoundArrives(Increment(s.runGeneration), c.epoch);
    assert u6.epoch == c.epoch;
    actions, u := WorkerPasses(s1, a6, u6, c);
  }

  // ----- The exact condition -----

  /** After a start taken in s, no command of a session up to that of s is ever executed. */
  ghost predicate StartForgets(s: State)
    requires Enabled(s, StartReset)
  {
    forall actions, u ::
      Reaches(Step(s, StartReset), actions, u) && u.worker.Executing? ==> u.worker.command.session > s.session
  }

  lemma NobodyLeft(s: State)
    requires Inv(s) && Enabled(s, StartReset) && s.producers == 0
    requires forall i :: 0 <= i < |s.threads| ==> !HoldsStamp(s.threads[i])
    ensures AllLater(Step(s, StartReset), s.session)
  {
    forall i | 0 <= i < |s.threads| ensures CarriesLater(s.threads[i], s.session) {
      assert !HoldsStamp(s.threads[i]);
      if InFlight(s.threads[i]) { CountPositive(s.threads, i); }
    }
    hide CountInFlight, CarriesLater;
  }

  lemma {:induction false} ReachKeepsStamps(s: State, actions: seq<Action>, u: State)
    requires Inv(s) && StampsInv(s) && Reaches(s, actions, u)
    ensures StampsInv(u)
    decreases |actions|
  {
    hide Inv, StampsInv, Step, Enabled;
    if actions != [] {
      StepKeepsInv(s, actions[0]);
      StepKeepsStamps(s, actions[0]);
      ReachKeepsStamps(Step(s, actions[0]), actions[1..], u);
    }
  }

  /** In every state that clean starts lead to: a further clean start lets no command of an earlier
      session be executed if and only if no thread holds a stamped command that is not counted. */
  lemma StartForgetsIffNoneStamped(threadCount: nat, before: seq<Action>, s: State)
    requires threadCount < TWO_32 && Reaches(Initial(threadCount), before, s)
    requires Enabled(s, StartReset) && s.producers == 0
    ensures StartForgets(s) <==> forall i :: 0 <= i < |s.threads| ==> !HoldsStamp(s.threads[i])
  {
    InitialInv(threadCount);
    ReachKeepsInv(Initial(threadCount), before, s);
    ReachKeepsStamps(Initial(threadCount), before, s);
    if i :| 0 <= i < |s.threads| && HoldsStamp(s.threads[i]) {
      var Enqueue(c, front) := s.threads[i].job;
      assert CarriesInv(s, s.threads[i]);
      var actions, u := StaleStampCanPass(s, i, c, front);
      assert c.session <= s.session;
    } else {
      NobodyLeft(s);
      forall actions, u | Reaches(Step(s, StartReset), actions, u) && u.worker.Executing?
        ensures u.worker.command.session > s.session
      {
        ReachKeepsLater(Step(s, StartReset), actions, u, s.session);
      }
    }
  }

  /** Such a stamp exists, and its epoch is that of the next session without any further reset: one
      reset in the first session is enough. */
  lemma StaleStampExists() returns (before: seq<Action>, s: State, actions: seq<Action>, u: State)
    ensures Reaches(Initial(2), before, s) && Enabled(s, StartReset) && s.producers == 0
    ensures Reaches(Step(s, StartReset), actions, u)
    ensures u.worker.Executing? && u.worker.command.session < u.session && u.resets == 0
  {
    hide Reaches, CountInFlight;
    var s0 := Initial(2);
    InitialInv(2);
    var a1, u1 := FreshSession();
    var a2, u2 := ResetsOnce(s0, a1, u1, 1);
    Take(s0, a2, u2, Stamp(0, true, false));
    var c := Command(2, true, 1, 1);
    var u3 := u2.(threads := u2.threads[0 := Stamped(Enqueue(c, false))]);
    var a4, u4 := StopAsks(s0, a2 + [Stamp(0, true, false)], u3);
    var a5, u5 := WorkerParks(s0, a4, u4);
    before, s := StopReturns(s0, a5, u5);
    ReachKeepsInv(s0, before, s);
    hide Inv;
    assert s.runGeneration == 1 && s.session == 1 && ResetsNeeded(s, c) == 0;
    actions, u := StaleStampCanPass(s, 0, c, false);
  }
}
