/** When a restart keeps the stop guarantee: exactly when the producer counter reads zero. */
module RuntimeRestart {
  import opened RuntimeSteps
  import opened RuntimeSafety

  /** The actions lead from s to u, and every start among them finds the counter at zero. */
  ghost predicate Reaches(s: State, actions: seq<Action>, u: State)
    decreases |actions|
  {
    if actions == [] then u == s
    else
      && Enabled(s, actions[0]) && StartsClean(s, actions[0])
      && Reaches(Step(s, actions[0]), actions[1..], u)
  }

  lemma {:induction false} Take(s: State, actions: seq<Action>, u: State, a: Action)
    requires Reaches(s, actions, u) && Enabled(u, a) && StartsClean(u, a)
    ensures Reaches(s, actions + [a], Step(u, a))
    decreases |actions|
  {
    if actions == [] {
      assert Reaches(Step(s, a), [], Step(u, a));
      assert ([] + [a])[1..] == [];
    } else {
      Take(Step(s, actions[0]), actions[1..], u, a);
      assert (actions + [a])[1..] == actions[1..] + [a];
    }
  }

  lemma {:induction false} ReachKeepsInv(s: State, actions: seq<Action>, u: State)
    requires Inv(s) && Reaches(s, actions, u)
    ensures Inv(u)
    decreases |actions|
  {
    hide Inv, Step, Enabled;
    if actions != [] {
      StepKeepsInv(s, actions[0]);
      ReachKeepsInv(Step(s, actions[0]), actions[1..], u);
    }
  }

  /** After a restart taken in s, no later stop can return OK with the runtime not fully stopped. */
  ghost predicate RestartKeepsGuarantee(s: State)
    requires Enabled(s, StartReset)
  {
    forall actions, u ::
      Reaches(Step(s, StartReset), actions, u) && u.mode.Stopped? && u.controller.Resting? ==> FullyStopped(u)
  }

  /** A session is open although thread i is inside and the counter does not know. */
  ghost predicate Uncounted(u: State, i: nat) {
    && i < |u.threads| && Inside(u.threads[i]) && u.producers == 0
    && u.mode.Open? && u.controller.Resting?
    && u.worker.Parked? && u.workerGeneration != u.runGeneration
  }

  /** An open session whose counter reads zero while thread i is still in flight. */
  ghost predicate Reopened(u: State, i: nat) {
    && i < |u.threads| && (u.threads[i].Counted? || u.threads[i].Undoing?) && u.producers == 0
    && u.mode.Open? && u.controller.Resting?
    && u.worker.Parked? && u.workerGeneration != u.runGeneration
  }

  lemma Reopen(s: State, i: nat) returns (actions: seq<Action>, u: State)
    requires Inv(s) && Enabled(s, StartReset) && i < |s.threads| && InFlight(s.threads[i])
    ensures Reaches(Step(s, StartReset), actions, u) && Reopened(u, i)
  {
    hide CountInFlight, Reaches;
    var s1 := Step(s, StartReset);
    var s2 := Step(s1, StartArm);
    var s3 := Step(s2, StartOpen);
    assert Reaches(s1, [], s1) by { ReachesNothing(s1); }
    Take(s1, [], s1, StartArm);
    Take(s1, [] + [StartArm], s2, StartOpen);
    actions, u := [] + [StartArm] + [StartOpen], s3;
  }

  lemma ReachesNothing(s: State)
    ensures Reaches(s, [], s)
  {
  }

  /** A late producer that still has to look twice is let in uncounted. */
  lemma LateProducerGetsIn(s: State, acts: seq<Action>, u: State, i: nat) returns (actions: seq<Action>, v: State)
    requires Reaches(s, acts, u) && Reopened(u, i)
    ensures Reaches(s, actions, v) && Uncounted(v, i)
  {
    hide Reaches;
    if u.threads[i].Counted? {
      Take(s, acts, u, SecondCheck(i));
      actions, v := acts + [SecondCheck(i)], Step(u, SecondCheck(i));
    } else {
      actions, v := UnderflowLetsIn(s, acts, u, i);
    }
  }

  /** A late producer that still has to back out makes the counter wrap; the next acquire brings
      it to zero. */
  lemma UnderflowLetsIn(s: State, acts: seq<Action>, u: State, i: nat) returns (actions: seq<Action>, v: State)
    requires Reaches(s, acts, u) && Reopened(u, i) && u.threads[i].Undoing?
    ensures Reaches(s, actions, v) && Uncounted(v, i)
  {
    hide Reaches;
    var u1 := Step(u, Undo(i));
    Take(s, acts, u, Undo(i));
    assert u1.producers == TWO_32 - 1 && u1.threads[i] == Idle;
    var u2 := Step(u1, Stamp(i, true, false));
    Take(s, acts + [Undo(i)], u1, Stamp(i, true, false));
    assert u2.threads[i].Stamped?;
    var u3 := Step(u2, FirstCheck(i));
    Take(s, acts + [Undo(i)] + [Stamp(i, true, false)], u2, FirstCheck(i));
    assert u3.threads[i].SawOpen?;
    var u4 := Step(u3, Count(i));
    Take(s, acts + [Undo(i)] + [Stamp(i, true, false)] + [FirstCheck(i)], u3, Count(i));
    assert u4.threads[i].Counted? && u4.producers == 0;
    v := Step(u4, SecondCheck(i));
    actions := acts + [Undo(i)] + [Stamp(i, true, false)] + [FirstCheck(i)] + [Count(i)];
    Take(s, actions, u4, SecondCheck(i));
    actions := actions + [SecondCheck(i)];
  }

  /** With the counter wrong, stop sees zero, parks the worker and returns OK around the producer. */
  lemma StopOverlooksIt(s: State, acts: seq<Action>, u: State, i: nat) returns (actions: seq<Action>, v: State)
    requires Reaches(s, acts, u) && Uncounted(u, i)
    ensures Reaches(s, actions, v) && v.mode.Stopped? && v.controller.Resting? && !FullyStopped(v)
  {
    hide Reaches;
    var begun, u3 := StopAsks(s, acts, u);
    hide Step, Enabled, ParkedNow;
    var parked, u4 := WorkerParks(s, begun, u3);
    actions, v := StopReturns(s, parked, u4);
    assert Inside(v.threads[i]);
  }

  lemma StopAsks(s: State, acts: seq<Action>, u: State) returns (actions: seq<Action>, v: State)
    requires Reaches(s, acts, u) && u.mode.Open? && u.controller.Resting? && u.producers == 0
    ensures Reaches(s, actions, v) && v == u.(mode := Closing, controller := AwaitingParked, stopRequested := true)
  {
    hide Reaches;
    var u1 := Step(u, StopBegin);
    Take(s, acts, u, StopBegin);
    var u2 := Step(u1, StopSeesNoProducers);
    Take(s, acts + [StopBegin], u1, StopSeesNoProducers);
    v := Step(u2, StopRequest);
    Take(s, acts + [StopBegin] + [StopSeesNoProducers], u2, StopRequest);
    actions := acts + [StopBegin] + [StopSeesNoProducers] + [StopRequest];
  }

  lemma StopReturns(s: State, acts: seq<Action>, u: State) returns (actions: seq<Action>, v: State)
    requires Reaches(s, acts, u) && u.controller.AwaitingParked? && u.parkedGeneration == u.runGeneration
    ensures Reaches(s, actions, v) && v == u.(mode := Stopped, controller := Resting)
  {
    hide Reaches;
    var u1 := Step(u, StopSeesParked);
    Take(s, acts, u, StopSeesParked);
    v := Step(u1, StopDone);
    Take(s, acts + [StopSeesParked], u1, StopDone);
    actions := acts + [StopSeesParked] + [StopDone];
  }

  lemma WorkerParks(s: State, acts: seq<Action>, u: State) returns (actions: seq<Action>, v: State)
    requires Reaches(s, acts, u) && u.stopRequested && u.worker.Parked? && u.workerGeneration != u.runGeneration
    ensures Reaches(s, actions, v)
    ensures v == u.(worker := Parked, workerGeneration := u.runGeneration, parkedGeneration := u.runGeneration, queue := [])
  {
    hide Reaches;
    actions, v := acts, u;
    Take(s, actions, v, WorkerMoves);
    actions, v := actions + [WorkerMoves], u.(workerGeneration := u.runGeneration, worker := AwaitingActivation);
    Take(s, actions, v, WorkerMoves);
    actions, v := actions + [WorkerMoves], v.(worker := LoopHead);
    Take(s, actions, v, WorkerMoves);
    actions, v := actions + [WorkerMoves], v.(worker := Draining);
    Take(s, actions, v, WorkerMoves);
    actions, v := actions + [WorkerMoves], v.(worker := Parking, queue := []);
    Take(s, actions, v, WorkerMoves);
    actions, v := actions + [WorkerMoves], v.(worker := Parked, parkedGeneration := u.runGeneration);
  }

  /** A restart keeps the guarantee if and only if it finds the producer counter at zero: the
      session reset overwrites the counter, so a late producer of the old session would go
      uncounted in the new one. */
  lemma RestartIsSafeIffNoneInFlight(s: State)
    requires Inv(s) && Enabled(s, StartReset)
    ensures RestartKeepsGuarantee(s) <==> s.producers == 0
  {
    if s.producers == 0 {
      StepKeepsInv(s, StartReset);
      forall actions, u | Reaches(Step(s, StartReset), actions, u) && u.mode.Stopped? && u.controller.Resting?
        ensures FullyStopped(u)
      {
        ReachKeepsInv(Step(s, StartReset), actions, u);
      }
    } else {
      var i := CountWitness(s.threads);
      var a1, u1 := Reopen(s, i);
      var a2, u2 := LateProducerGetsIn(Step(s, StartReset), a1, u1, i);
      var a3, u3 := StopOverlooksIt(Step(s, StartReset), a2, u2, i);
    }
  }
}
