/** What the lifecycle epoch guarantees about commands and resets, and where it stops short. */
module RuntimeEpochs {
  import opened Options
  import opened RuntimeSteps
  import opened RuntimeSafety
  import opened RuntimeRestart

  /** A command of the running session carries the epoch of its stamping. */
  predicate StampInv(s: State, c: Command) {
    && c.session <= s.session
    && (c.session == s.session ==> c.resets <= s.resets && c.epoch == (s.epoch - (s.resets - c.resets)) % TWO_32)
  }

  /** The command a thread has stamped and not yet queued. */
  function Carried(p: Producer): Option<Command> {
    match p
    case Stamped(Enqueue(c, _)) => Some(c)
    case SawOpen(Enqueue(c, _)) => Some(c)
    case Counted(Enqueue(c, _)) => Some(c)
    case Holding(Enqueue(c, _)) => Some(c)
    case Sending(Enqueue(c, _)) => Some(c)
    case _ => None
  }

  predicate CarriesInv(s: State, p: Producer) { Carried(p).Some? ==> StampInv(s, Carried(p).value) }

  /** A thread carries what it carried before, or a command it has just stamped. */
  lemma ThreadCarries(s: State, a: Action)
    requires IsThreadAction(a) && Enabled(s, a)
    ensures var c := Carried(ThreadStep(s, a).threads[a.thread]);
            c.Some? ==> c == Carried(s.threads[a.thread]) ||
                        (c.value.epoch == s.epoch && c.value.session == s.session && c.value.resets == s.resets)
  {
    if a.WorkOn? {
      WorkCarries(s, a.thread);
      hide WorkOnStep;
    }
  }

  lemma WorkCarries(s: State, i: nat)
    requires i < |s.threads| && AtWork(s.threads[i])
    ensures var u := WorkOnStep(s, i);
            i < |u.threads| && (Carried(u.threads[i]).Some? ==> Carried(u.threads[i]) == Carried(s.threads[i]))
  {
    hide Enqueued, Accepts;
  }

  /** The queue gains at most the command that the acting thread carries. */
  lemma ThreadQueues(s: State, a: Action)
    requires IsThreadAction(a) && Enabled(s, a)
    ensures var queue, c := ThreadStep(s, a).queue, Carried(s.threads[a.thread]);
            queue == s.queue || (c.Some? && (queue == [c.value] + s.queue || queue == s.queue + [c.value]))
  {
    if a.WorkOn? {
      WorkQueues(s, a.thread);
      hide WorkOnStep;
    }
  }

  lemma WorkQueues(s: State, i: nat)
    requires i < |s.threads| && AtWork(s.threads[i])
    ensures var queue, c := WorkOnStep(s, i).queue, Carried(s.threads[i]);
            queue == s.queue || (c.Some? && (queue == [c.value] + s.queue || queue == s.queue + [c.value]))
  {
    hide Accepts;
  }

  ghost predicate StampsInv(s: State) {
    && (forall i :: 0 <= i < |s.threads| ==> CarriesInv(s, s.threads[i]))
    && (forall i :: 0 <= i < |s.queue| ==> StampInv(s, s.queue[i]))
    && (forall i :: 0 <= i < |s.table| ==> StampInv(s, s.table[i]))
    && (s.worker.CheckingEpoch? || s.worker.Executing? ==> StampInv(s, s.worker.command))
  }

  /** Resets whose second half is still to come. */
  function CountHalf(threads: seq<Producer>): nat {
    if threads == [] then 0
    else CountHalf(threads[..|threads| - 1]) + if threads[|threads| - 1].ResetHalfDone? then 1 else 0
  }

  lemma {:induction false} HalfUpdate(threads: seq<Producer>, i: nat, p: Producer)
    requires i < |threads|
    ensures CountHalf(threads[i := p])
         == CountHalf(threads) - (if threads[i].ResetHalfDone? then 1 else 0) + if p.ResetHalfDone? then 1 else 0
  {
    var n := |threads| - 1;
    if i == n {
      assert threads[i := p][..n] == threads[..n];
    } else {
      assert threads[i := p][..n] == threads[..n][i := p];
      HalfUpdate(threads[..n], i, p);
    }
  }

  lemma {:induction false} HalfPositive(threads: seq<Producer>, i: nat)
    requires i < |threads| && threads[i].ResetHalfDone?
    ensures CountHalf(threads) >= 1
  {
    if i < |threads| - 1 { HalfPositive(threads[..|threads| - 1], i); }
  }

  lemma {:induction false} NoHalf(threads: seq<Producer>)
    requires NobodyInside(threads)
    ensures CountHalf(threads) == 0
  {
    if threads != [] { NoHalf(threads[..|threads| - 1]); }
  }

  predicate NotOlderThan(s: State, c: Command) { c.session == s.session ==> s.appliedReset <= c.resets }

  /** The delivery table holds nothing older than the last reset applied to it. */
  ghost predicate TableInv(s: State) {
    && s.resets < TWO_32
    && s.resets == s.resetGeneration + CountHalf(s.threads)
    && s.appliedReset <= s.resetGeneration
    && (forall i :: 0 <= i < |s.table| ==> NotOlderThan(s, s.table[i]))
    && (s.worker.Executing? ==> NotOlderThan(s, s.worker.command))
  }

  lemma EpochShift(e: U32, d: nat)
    ensures (e - d) % TWO_32 == (Increment(e) - (d + 1)) % TWO_32
  {
    ModShift(e + 1 - (d + 1), e + 1);
  }

  lemma ModShift(x: int, e: int)
    ensures x % TWO_32 == (e % TWO_32 - (e - x)) % TWO_32
  {
    var q := e / TWO_32;
    assert e % TWO_32 == e - q * TWO_32;
    AddMultiple(x, -q);
  }

  lemma AddMultiple(x: int, k: int)
    ensures (x + k * TWO_32) % TWO_32 == x % TWO_32
  {
    var q := (x + k * TWO_32) / TWO_32;
    assert x == (q - k) * TWO_32 + (x + k * TWO_32) % TWO_32;
  }

  /** Stamps stay right when only the epoch moves on, once per reset. */
  lemma ResetKeepsStamp(s: State, u: State, c: Command)
    requires StampInv(s, c) && u.session == s.session
    requires u.epoch == Increment(s.epoch) && u.resets == s.resets + 1
    ensures StampInv(u, c)
  {
    if c.session == s.session { EpochShift(s.epoch, s.resets - c.resets); }
  }

  lemma ThreadKeepsStamps(s: State, a: Action)
    requires StampsInv(s) && IsThreadAction(a) && Enabled(s, a)
    ensures StampsInv(ThreadStep(s, a))
  {
    var i, u := a.thread, ThreadStep(s, a);
    if u.resets != s.resets {
      forall c | StampInv(s, c) ensures StampInv(u, c) { ResetKeepsStamp(s, u, c); }
      forall j | 0 <= j < |u.threads| ensures CarriesInv(u, u.threads[j]) {
        assert CarriesInv(s, s.threads[j]);
      }
    } else {
      QueueStamps(s, a);
      ThreadLeavesRest(s, a);
      CarriedOn(s, a);
      ThreadMoves(s, a);
      hide ThreadStep, Enabled, Carried;
      assert forall c :: StampInv(s, c) ==> StampInv(u, c);
      hide StampInv;
      forall j | 0 <= j < |u.threads| ensures CarriesInv(u, u.threads[j]) {
        assert CarriesInv(s, s.threads[j]);
      }
    }
  }

  lemma CarriedOn(s: State, a: Action)
    requires StampsInv(s) && IsThreadAction(a) && Enabled(s, a) && ThreadStep(s, a).resets == s.resets
    ensures CarriesInv(s, ThreadStep(s, a).threads[a.thread])
    ensures ThreadStep(s, a).epoch == s.epoch
  {
    hide ThreadStep, Carried;
    assert CarriesInv(s, s.threads[a.thread]);
    ThreadCarries(s, a);
    ThreadResets(s, a);
  }

  lemma QueueStamps(s: State, a: Action)
    requires StampsInv(s) && IsThreadAction(a) && Enabled(s, a)
    ensures forall k :: 0 <= k < |ThreadStep(s, a).queue| ==> StampInv(s, ThreadStep(s, a).queue[k])
  {
    hide ThreadStep, Carried, StampInv;
    assert CarriesInv(s, s.threads[a.thread]);
    ThreadQueues(s, a);
  }

  /** The first half of a reset moves the epoch on, the second half the reset generation. */
  lemma ThreadResets(s: State, a: Action)
    requires IsThreadAction(a) && Enabled(s, a)
    ensures var p, q, u := s.threads[a.thread], ThreadStep(s, a).threads[a.thread], ThreadStep(s, a);
            if a.WorkOn? && p == Holding(Reset) then
              q.ResetHalfDone? && u.resets == s.resets + 1 && u.resetGeneration == s.resetGeneration && u.epoch == Increment(s.epoch)
            else
              && !q.ResetHalfDone? && u.resets == s.resets && u.epoch == s.epoch
              && u.resetGeneration == if p.ResetHalfDone? then Increment(s.resetGeneration) else s.resetGeneration
  {
    if a.WorkOn? {
      WorkResets(s, a.thread);
      hide WorkOnStep;
    }
  }

  lemma WorkResets(s: State, i: nat)
    requires i < |s.threads| && AtWork(s.threads[i])
    ensures var p, u := s.threads[i], WorkOnStep(s, i);
            && i < |u.threads|
            && if p == Holding(Reset) then
                 && u.threads[i].ResetHalfDone? && u.resets == s.resets + 1 && u.resetGeneration == s.resetGeneration
                 && u.epoch == Increment(s.epoch)
               else
                 && !u.threads[i].ResetHalfDone? && u.resets == s.resets && u.epoch == s.epoch
                 && u.resetGeneration == if p.ResetHalfDone? then Increment(s.resetGeneration) else s.resetGeneration
  {
    hide Enqueued, Accepts;
  }

  lemma ThreadKeepsTable(s: State, a: Action)
    requires TableInv(s) && IsThreadAction(a) && Enabled(s, a) && ThreadStep(s, a).resets < TWO_32
    ensures TableInv(ThreadStep(s, a))
  {
    hide CountHalf, ThreadStep;
    var i, u := a.thread, ThreadStep(s, a);
    ThreadMoves(s, a);
    ThreadResets(s, a);
    ThreadLeavesRest(s, a);
    HalfUpdate(s.threads, i, u.threads[i]);
    if s.threads[i].ResetHalfDone? { HalfPositive(s.threads, i); }
  }

  lemma WorkerLeavesRest(s: State)
    requires WorkerEnabled(s)
    ensures var u := WorkerStep(s);
            u == s.(worker := u.worker, queue := u.queue, table := u.table, appliedReset := u.appliedReset,
                    workerGeneration := u.workerGeneration, parkedGeneration := u.parkedGeneration)
  {
    match s.worker {
      case Latching(n) => LatchedOnly(s);
      case _ =>
    }
  }

  /** The worker moves commands along; it makes none up. */
  lemma WorkerKeepsStamps(s: State)
    requires StampsInv(s) && WorkerEnabled(s)
    ensures StampsInv(WorkerStep(s))
  {
    var u := WorkerStep(s);
    WorkerLeavesRest(s);
    assert forall c :: StampInv(s, c) == StampInv(u, c);
    assert forall p :: CarriesInv(s, p) == CarriesInv(u, p);
    hide StampInv, CarriesInv;
    match s.worker {
      case Receiving(n) =>
      case CheckingEpoch(c, n) =>
      case Executing(c, n) =>
      case _ =>
    }
  }

  lemma WorkerKeepsTable(s: State)
    requires StampsInv(s) && TableInv(s) && WorkerEnabled(s)
    ensures TableInv(WorkerStep(s))
  {
    var u := WorkerStep(s);
    WorkerLeavesRest(s);
    hide CountHalf;
    match s.worker {
      case Latching(n) =>
      case CheckingEpoch(c, n) =>
        if c.session == s.session { PassMeansCurrent(s, c); }
      case Executing(c, n) =>
      case _ =>
    }
  }

  lemma PassMeansCurrent(s: State, c: Command)
    requires StampInv(s, c) && s.resets < TWO_32 && c.session == s.session
    ensures c.epoch == s.epoch <==> c.resets == s.resets
  {
    var d := s.resets - c.resets;
    if d > 0 && d <= s.epoch { assert (s.epoch - d) % TWO_32 == s.epoch - d; }
    if d > s.epoch { assert (s.epoch - d) % TWO_32 == s.epoch - d + TWO_32; }
  }

  lemma ControllerKeepsTable(s: State, a: Action)
    requires Inv(s) && StampsInv(s) && TableInv(s) && !IsThreadAction(a) && !a.WorkerMoves? && Enabled(s, a)
    ensures TableInv(ControllerStep(s, a))
  {
    if a.StartReset? { NoHalf(s.threads); }
    hide CountHalf, CountInFlight;
  }

  lemma ControllerKeepsStamps(s: State, a: Action)
    requires StampsInv(s) && !IsThreadAction(a) && !a.WorkerMoves? && Enabled(s, a)
    ensures StampsInv(ControllerStep(s, a))
  {
    var u := ControllerStep(s, a);
    assert u.threads == s.threads;
    assert forall c :: StampInv(s, c) ==> StampInv(u, c);
    assert forall p :: CarriesInv(s, p) ==> CarriesInv(u, p);
    hide StampInv, CarriesInv;
  }

  lemma StepKeepsStamps(s: State, a: Action)
    requires StampsInv(s) && Enabled(s, a)
    ensures StampsInv(Step(s, a))
  {
    if IsThreadAction(a) {
      ThreadKeepsStamps(s, a);
    } else if a.WorkerMoves? {
      WorkerKeepsStamps(s);
    } else {
      ControllerKeepsStamps(s, a);
    }
    hide StampsInv, ThreadStep, WorkerStep, ControllerStep;
  }

  lemma StepKeepsEpochs(s: State, a: Action)
    requires Inv(s) && StampsInv(s) && TableInv(s) && Enabled(s, a)
    requires Step(s, a).resets < TWO_32
    ensures StampsInv(Step(s, a)) && TableInv(Step(s, a))
  {
    StepKeepsStamps(s, a);
    if IsThreadAction(a) {
      ThreadKeepsTable(s, a);
    } else if a.WorkerMoves? {
      WorkerKeepsTable(s);
    } else {
      ControllerKeepsTable(s, a);
    }
    hide StampsInv, ThreadStep, WorkerStep, ControllerStep;
  }

  /** Fewer than 2^32 resets per session, so the 32-bit epoch does not come round. */
  ghost predicate FewResets(t: Trace) { forall i :: 0 <= i < |t.states| ==> t.states[i].resets < TWO_32 }

  lemma {:induction false} RunKeepsEpochs(t: Trace, threadCount: nat, n: nat)
    requires threadCount < TWO_32 && IsRun(t, threadCount) && CleanStarts(t) && FewResets(t) && n < |t.states|
    ensures StampsInv(t.states[n]) && TableInv(t.states[n])
  {
    if n == 0 {
      NoHalf(Initial(threadCount).threads);
    } else {
      RunKeepsEpochs(t, threadCount, n - 1);
      RunKeepsInv(t, threadCount, n - 1);
      hide Inv, StampsInv, TableInv, Step, Enabled;
      assert t.states[n] == Step(t.states[n - 1], t.actions[n - 1]) && t.states[n].resets < TWO_32;
      StepKeepsEpochs(t.states[n - 1], t.actions[n - 1]);
    }
  }

  /** Within a session the worker lets a command through if and only if no reset has happened
      since it was stamped. */
  lemma EpochCheckIsExact(t: Trace, threadCount: nat, n: nat)
    requires threadCount < TWO_32 && IsRun(t, threadCount) && CleanStarts(t) && FewResets(t) && n < |t.states|
    requires t.states[n].worker.CheckingEpoch? && t.states[n].worker.command.session == t.states[n].session
    ensures var s := t.states[n];
            WorkerStep(s).worker.Executing? <==> s.worker.command.resets == s.resets
  {
    RunKeepsEpochs(t, threadCount, n);
    PassMeansCurrent(t.states[n], t.states[n].worker.command);
  }

  /** Whenever the worker has applied every reset so far, every event of the session that is left
      in the delivery table was stamped after the last reset. */
  lemma TableIsFresh(t: Trace, threadCount: nat, n: nat)
    requires threadCount < TWO_32 && IsRun(t, threadCount) && CleanStarts(t) && FewResets(t) && n < |t.states|
    requires t.states[n].appliedReset == t.states[n].resets
    ensures forall i :: 0 <= i < |t.states[n].table| && t.states[n].table[i].session == t.states[n].session
              ==> t.states[n].table[i].resets == t.states[n].resets
  {
    RunKeepsEpochs(t, threadCount, n);
    hide CountHalf;
  }

  // ----- When no command runs after a reset -----

  /** A command of the running session is being executed that was stamped before the last reset. */
  predicate Overtaken(s: State) {
    s.worker.Executing? && s.worker.command.session == s.session && s.worker.command.resets != s.resets
  }

  /** The step resets while the worker is executing a command of the running session. */
  predicate ResetsMidway(s: State, a: Action) {
    && a.WorkOn? && a.thread < |s.threads| && s.threads[a.thread] == Holding(Reset)
    && s.worker.Executing? && s.worker.command.session == s.session
  }

  lemma StepOvertakes(s: State, a: Action)
    requires Inv(s) && StampsInv(s) && TableInv(s) && Enabled(s, a) && !Overtaken(s)
    ensures Overtaken(Step(s, a)) <==> ResetsMidway(s, a)
  {
    if IsThreadAction(a) {
      ThreadLeavesRest(s, a);
      ThreadResets(s, a);
      hide ThreadStep, StampInv, TableInv, Inv;
    } else if a.WorkerMoves? {
      WorkerLeavesRest(s);
      hide CountHalf, CountInFlight;
      match s.worker {
        case CheckingEpoch(c, n) => if c.session == s.session { PassMeansCurrent(s, c); }
        case _ =>
      }
      hide StampsInv, TableInv, Inv;
    } else {
      hide Inv, TableInv;
    }
  }

  lemma {:induction false} NotOvertakenSoFar(t: Trace, threadCount: nat, n: nat)
    requires threadCount < TWO_32 && IsRun(t, threadCount) && CleanStarts(t) && FewResets(t) && n < |t.states|
    requires forall i :: 0 <= i < |t.actions| ==> !ResetsMidway(t.states[i], t.actions[i])
    ensures !Overtaken(t.states[n])
  {
    if n > 0 {
      NotOvertakenSoFar(t, threadCount, n - 1);
      RunKeepsEpochs(t, threadCount, n - 1);
      RunKeepsInv(t, threadCount, n - 1);
      hide Inv, StampsInv, TableInv, Step, Enabled, Overtaken, ResetsMidway;
      assert t.states[n] == Step(t.states[n - 1], t.actions[n - 1]);
      StepOvertakes(t.states[n - 1], t.actions[n - 1]);
    }
  }

  /** In a run no command stamped before a reset is executed after it, if and only if no reset is
      taken while the worker is executing a command of that session. */
  lemma NothingRunsAfterItsResetIff(t: Trace, threadCount: nat)
    requires threadCount < TWO_32 && IsRun(t, threadCount) && CleanStarts(t) && FewResets(t)
    ensures (forall n :: 0 <= n < |t.states| ==> !Overtaken(t.states[n])) <==>
            (forall i :: 0 <= i < |t.actions| ==> !ResetsMidway(t.states[i], t.actions[i]))
  {
    hide Inv, StampsInv, TableInv, Step, Enabled, Overtaken, ResetsMidway;
    if forall i :: 0 <= i < |t.actions| ==> !ResetsMidway(t.states[i], t.actions[i]) {
      forall n | 0 <= n < |t.states| ensures !Overtaken(t.states[n]) { NotOvertakenSoFar(t, threadCount, n); }
    }
    if forall n :: 0 <= n < |t.states| ==> !Overtaken(t.states[n]) {
      forall i | 0 <= i < |t.actions| ensures !ResetsMidway(t.states[i], t.actions[i]) {
        RunKeepsEpochs(t, threadCount, i);
        RunKeepsInv(t, threadCount, i);
        assert t.states[i + 1] == Step(t.states[i], t.actions[i]);
        StepOvertakes(t.states[i], t.actions[i]);
      }
    }
  }

  // ----- Where the guarantee ends -----

  /** A session that has just been opened, with nothing in flight. */
  lemma FreshSession() returns (actions: seq<Action>, u: State)
    ensures Reaches(Initial(2), actions, u)
    ensures u == Initial(2).(mode := Open, runGeneration := 1, epoch := 1, session := 1, activated := true)
  {
    ReachesNothing(Initial(2));
    actions, u := OpensFirst(Initial(2));
  }

  lemma OpensFirst(s: State) returns (actions: seq<Action>, u: State)
    requires s == State(Stopped, 0, s.threads, [], false, false, 0, 0, 0, Parked, Resting, 0, 0, 0, [], 0, 0)
    requires Reaches(s, [], s)
    ensures Reaches(s, actions, u)
    ensures u == s.(mode := Open, runGeneration := 1, epoch := 1, session := 1, activated := true)
  {
    hide Reaches;
    Take(s, [], s, StartReset);
    var u1 := s.(controller := SessionReset, epoch := 1, session := 1);
    Take(s, [] + [StartReset], u1, StartArm);
    var u2 := u1.(controller := Armed, runGeneration := 1);
    Take(s, [] + [StartReset] + [StartArm], u2, StartOpen);
    var u3 := u2.(controller := Resting, mode := Open);
    Take(s, [] + [StartReset] + [StartArm] + [StartOpen], u3, Activate);
    actions, u := [] + [StartReset] + [StartArm] + [StartOpen] + [Activate], u3.(activated := true);
  }

  /** An idle thread acquires the runtime with a job in hand. */
  lemma Acquires(s: State, acts: seq<Action>, u: State, i: nat, job: Job) returns (actions: seq<Action>, v: State)
    requires Reaches(s, acts, u) && i < |u.threads| && u.mode.Open? && u.threads[i] == Stamped(job)
    ensures Reaches(s, actions, v)
    ensures v == u.(threads := u.threads[i := Holding(job)], producers := Increment(u.producers))
  {
    hide Reaches;
    var u1 := u.(threads := u.threads[i := SawOpen(job)]);
    Take(s, acts, u, FirstCheck(i));
    var u2 := u.(threads := u.threads[i := Counted(job)], producers := Increment(u.producers));
    assert u1.threads[i := Counted(job)] == u2.threads;
    Take(s, acts + [FirstCheck(i)], u1, Count(i));
    v := u.(threads := u.threads[i := Holding(job)], producers := Increment(u.producers));
    assert u2.threads[i := Holding(job)] == v.threads;
    Take(s, acts + [FirstCheck(i)] + [Count(i)], u2, SecondCheck(i));
    actions := acts + [FirstCheck(i)] + [Count(i)] + [SecondCheck(i)];
  }

  /** Its command enters an empty queue. */
  lemma Sends(s: State, acts: seq<Action>, u: State, i: nat, c: Command, front: bool)
    returns (actions: seq<Action>, v: State)
    requires Reaches(s, acts, u) && i < |u.threads| && u.threads[i] == Holding(Enqueue(c, front)) && u.queue == []
    ensures Reaches(s, actions, v) && v == u.(threads := u.threads[i := Finished], queue := [c])
  {
    hide Reaches;
    var u1 := u.(threads := u.threads[i := Sending(Enqueue(c, front))]);
    Take(s, acts, u, WorkOn(i));
    v := u.(threads := u.threads[i := Finished], queue := [c]);
    assert u1.threads[i := Finished] == v.threads && [] + [c] == [c] && [c] + [] == [c];
    Take(s, acts + [WorkOn(i)], u1, WorkOn(i));
    actions := acts + [WorkOn(i)] + [WorkOn(i)];
  }

  /** The worker wakes up, takes the command and finds its epoch current. */
  lemma WorkerPasses(s: State, acts: seq<Action>, u: State, c: Command) returns (actions: seq<Action>, v: State)
    requires Reaches(s, acts, u) && u.queue == [c] && c.epoch == u.epoch && u.activated && !u.stopRequested
    requires u.worker.Parked? && u.workerGeneration != u.runGeneration
    ensures Reaches(s, actions, v)
    ensures v == Latched(u).(workerGeneration := u.runGeneration, worker := Executing(c, 0), queue := [])
  {
    hide Reaches;
    var w := u.(workerGeneration := u.runGeneration);
    Take(s, acts, u, WorkerMoves);
    Take(s, acts + [WorkerMoves], w.(worker := AwaitingActivation), WorkerMoves);
    actions := acts + [WorkerMoves] + [WorkerMoves];
    Take(s, actions, w.(worker := LoopHead), WorkerMoves);
    actions := actions + [WorkerMoves];
    Take(s, actions, w.(worker := Latching(0)), WorkerMoves);
    actions, w := actions + [WorkerMoves], Latched(w);
    Take(s, actions, w.(worker := CheckingStop(0)), WorkerMoves);
    actions := actions + [WorkerMoves];
    Take(s, actions, w.(worker := Receiving(0)), WorkerMoves);
    actions := actions + [WorkerMoves];
    assert u.queue[1..] == [];
    Take(s, actions, w.(worker := CheckingEpoch(c, 0), queue := []), WorkerMoves);
    actions, v := actions + [WorkerMoves], w.(worker := Executing(c, 0), queue := []);
  }

  /** The check and the execution are two steps: a reset may fall between them, so a command
      stamped before a reset can still run after it. */
  lemma ResetCanOvertake() returns (actions: seq<Action>, u: State)
    ensures Reaches(Initial(2), actions, u)
    ensures u.worker.Executing? && u.worker.command.session == u.session && u.worker.command.resets < u.resets
  {
    hide Reaches;
    var s := Initial(2);
    var a1, u1 := FreshSession();
    var c := Command(1, true, 1, 0);
    Take(s, a1, u1, Stamp(0, true, false));
    var u2 := u1.(threads := u1.threads[0 := Stamped(Enqueue(c, false))]);
    var a3, u3 := Acquires(s, a1 + [Stamp(0, true, false)], u2, 0, Enqueue(c, false));
    var a4, u4 := Sends(s, a3, u3, 0, c, false);
    var a5, u5 := WorkerPasses(s, a4, u4, c);
    Take(s, a5, u5, BeginJob(1, Reset));
    var u6 := u5.(threads := u5.threads[1 := Stamped(Reset)]);
    var a7, u7 := Acquires(s, a5 + [BeginJob(1, Reset)], u6, 1, Reset);
    Take(s, a7, u7, WorkOn(1));
    actions, u := a7 + [WorkOn(1)], Step(u7, WorkOn(1));
  }

  /** A late producer really can outlive a stop: it looked before the stop and counts itself after. */
  lemma LateProducerExists() returns (actions: seq<Action>, u: State)
    ensures Reaches(Initial(2), actions, u) && Enabled(u, StartReset) && u.producers != 0
  {
    hide Reaches;
    var s := Initial(2);
    var a1, u1 := FreshSession();
    Take(s, a1, u1, BeginJob(0, Configure));
    var u2 := u1.(threads := u1.threads[0 := Stamped(Configure)]);
    Take(s, a1 + [BeginJob(0, Configure)], u2, FirstCheck(0));
    var u3 := u1.(threads := u1.threads[0 := SawOpen(Configure)]);
    assert u2.threads[0 := SawOpen(Configure)] == u3.threads;
    var a4, u4 := StopAsks(s, a1 + [BeginJob(0, Configure)] + [FirstCheck(0)], u3);
    var a5, u5 := WorkerParks(s, a4, u4);
    var a6, u6 := StopReturns(s, a5, u5);
    Take(s, a6, u6, Count(0));
    actions, u := a6 + [Count(0)], Step(u6, Count(0));
  }
}
