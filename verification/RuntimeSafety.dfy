/** What stopping the runtime guarantees, in every interleaving, and when a restart may follow. */
module RuntimeSafety {
  import opened RuntimeSteps

  /** Counted in the producer counter. */
  predicate InFlight(p: Producer) {
    p.Counted? || p.Undoing? || Inside(p)
  }

  /** Between a successful acquire and the release. */
  predicate Inside(p: Producer) { AtWork(p) || p.Finished? }

  ghost predicate NobodyInside(threads: seq<Producer>) {
    forall i :: 0 <= i < |threads| ==> !Inside(threads[i])
  }

  function CountInFlight(threads: seq<Producer>): (n: nat)
    ensures n <= |threads|
  {
    if threads == [] then 0
    else CountInFlight(threads[..|threads| - 1]) + if InFlight(threads[|threads| - 1]) then 1 else 0
  }

  lemma {:induction false} CountUpdate(threads: seq<Producer>, i: nat, p: Producer)
    requires i < |threads|
    ensures CountInFlight(threads[i := p])
         == CountInFlight(threads) - (if InFlight(threads[i]) then 1 else 0) + if InFlight(p) then 1 else 0
  {
    var n := |threads| - 1;
    if i == n {
      assert threads[i := p][..n] == threads[..n];
    } else {
      assert threads[i := p][..n] == threads[..n][i := p];
      CountUpdate(threads[..n], i, p);
    }
  }

  lemma {:induction false} CountPositive(threads: seq<Producer>, i: nat)
    requires i < |threads| && InFlight(threads[i])
    ensures CountInFlight(threads) >= 1
  {
    if i < |threads| - 1 { CountPositive(threads[..|threads| - 1], i); }
  }

  lemma {:induction false} CountWitness(threads: seq<Producer>) returns (i: nat)
    requires CountInFlight(threads) >= 1
    ensures i < |threads| && InFlight(threads[i])
  {
    var n := |threads| - 1;
    if InFlight(threads[n]) { i := n; } else { i := CountWitness(threads[..n]); }
  }

  ghost predicate CounterInv(s: State) {
    |s.threads| < TWO_32 && s.producers == CountInFlight(s.threads)
  }

  /** Once a stop has seen the counter at zero nobody is inside, and nobody can get in. */
  ghost predicate ClosedInv(s: State) {
    (s.stopRequested || s.mode.Stopped? || s.controller.SawNoProducers?) ==> NobodyInside(s.threads)
  }

  predicate LifecycleInv(s: State) {
    && (s.mode.Open? ==> s.controller.Resting? && !s.stopRequested)
    && (s.controller.SessionReset? || s.controller.Armed? ==> s.mode.Stopped? && !s.stopRequested)
    && (s.controller.AwaitingProducers? || s.controller.SawNoProducers? ==> s.mode.Closing?)
    && (s.controller.AwaitingParked? || s.controller.SawParked? ==> s.mode.Closing? && s.stopRequested)
    && (s.controller.SessionReset? ==> s.runGeneration < TWO_32 - 1)
    && (s.mode.Stopped? ==> s.queue == [])
  }

  /** The worker is parked on the current generation. */
  predicate ParkedNow(s: State) { s.worker.Parked? && s.workerGeneration == s.runGeneration }

  predicate WorkerInv(s: State) {
    && (s.worker.Draining? || s.worker.Parking? ==> s.stopRequested)
    && (s.worker.Parking? ==> s.queue == [])
    && (s.worker.Parked? ==> s.parkedGeneration == s.workerGeneration <= s.runGeneration)
    && (!s.worker.Parked? ==> s.parkedGeneration < s.workerGeneration == s.runGeneration)
    && (ParkedNow(s) ==> s.queue == [] && (s.stopRequested || s.mode.Stopped?))
    && (s.mode.Stopped? && !s.controller.Armed? ==> ParkedNow(s))
    && (s.controller.SawParked? ==> ParkedNow(s))
    && (s.controller.Armed? ==> !ParkedNow(s))
  }

  ghost predicate Inv(s: State) {
    CounterInv(s) && ClosedInv(s) && LifecycleInv(s) && WorkerInv(s)
  }

  lemma InitialInv(threadCount: nat)
    requires threadCount < TWO_32
    ensures Inv(Initial(threadCount))
  {
    NoneInFlight(Initial(threadCount).threads);
  }

  lemma {:induction false} NoneInFlight(threads: seq<Producer>)
    requires forall i :: 0 <= i < |threads| ==> threads[i].Idle?
    ensures CountInFlight(threads) == 0
  {
    if threads != [] { NoneInFlight(threads[..|threads| - 1]); }
  }

  lemma ThreadKeepsCounter(s: State, a: Action)
    requires CounterInv(s) && IsThreadAction(a) && Enabled(s, a)
    ensures CounterInv(ThreadStep(s, a))
  {
    hide CountInFlight, ThreadStep, InFlight, Enabled;
    var i, u := a.thread, ThreadStep(s, a);
    ThreadMoves(s, a);
    ThreadCounts(s, a);
    CountUpdate(s.threads, i, u.threads[i]);
    if InFlight(s.threads[i]) { CountPositive(s.threads, i); }
  }

  /** Only the thread that acts moves. */
  lemma ThreadMoves(s: State, a: Action)
    requires IsThreadAction(a) && Enabled(s, a)
    ensures a.thread < |s.threads|
    ensures var u := ThreadStep(s, a); |u.threads| == |s.threads| && u.threads == s.threads[a.thread := u.threads[a.thread]]
  {
    hide Enqueued, Accepts;
  }

  /** A thread is in flight from its increment of the counter to its decrement. */
  lemma ThreadCounts(s: State, a: Action)
    requires IsThreadAction(a) && Enabled(s, a)
    ensures var p, q := s.threads[a.thread], ThreadStep(s, a).threads[a.thread];
            var producers := ThreadStep(s, a).producers;
            if a.Count? then !InFlight(p) && InFlight(q) && producers == Increment(s.producers)
            else if a.Undo? || a.Release? then InFlight(p) && !InFlight(q) && producers == Decrement(s.producers)
            else InFlight(p) == InFlight(q) && producers == s.producers
  {
    if a.WorkOn? {
      WorkCounts(s, a.thread);
      hide WorkOnStep;
    }
  }

  lemma WorkCounts(s: State, i: nat)
    requires i < |s.threads| && AtWork(s.threads[i])
    ensures var u := WorkOnStep(s, i);
            i < |u.threads| && Inside(u.threads[i]) && u.producers == s.producers
  {
    hide Enqueued, Accepts;
  }

  lemma ThreadKeepsClosed(s: State, a: Action)
    requires ClosedInv(s) && LifecycleInv(s) && WorkerInv(s) && IsThreadAction(a) && Enabled(s, a)
    ensures ClosedInv(ThreadStep(s, a)) && LifecycleInv(ThreadStep(s, a)) && WorkerInv(ThreadStep(s, a))
  {
    hide Enqueued, Accepts;
    var i, u := a.thread, ThreadStep(s, a);
    assert u.threads == s.threads[i := u.threads[i]];
    assert u.queue != s.queue ==> Inside(s.threads[i]);
    assert Inside(u.threads[i]) ==> Inside(s.threads[i]) || s.mode.Open?;
    ThreadLeavesRest(s, a);
    hide ThreadStep, WorkOnStep, Enabled, ThreadEnabled;
  }

  lemma ThreadLeavesRest(s: State, a: Action)
    requires IsThreadAction(a) && Enabled(s, a)
    ensures var u := ThreadStep(s, a);
            u == s.(threads := u.threads, queue := u.queue, producers := u.producers, epoch := u.epoch,
                    resets := u.resets, resetGeneration := u.resetGeneration)
  {
    hide Enqueued, Accepts;
  }

  lemma WorkerKeepsInv(s: State)
    requires Inv(s) && WorkerEnabled(s)
    ensures Inv(WorkerStep(s))
  {
    hide CountInFlight, NobodyInside, Latched;
    assert Latched(s) == s.(appliedReset := Latched(s).appliedReset, table := Latched(s).table) by { LatchedOnly(s); }
  }

  lemma LatchedOnly(s: State)
    ensures Latched(s) == s.(appliedReset := Latched(s).appliedReset, table := Latched(s).table)
  {
  }

  lemma ControllerKeepsInv(s: State, a: Action)
    requires Inv(s) && !IsThreadAction(a) && !a.WorkerMoves? && Enabled(s, a)
    requires a.StartReset? ==> s.producers == 0
    ensures Inv(ControllerStep(s, a))
  {
    if a.StopSeesNoProducers? {
      forall i | 0 <= i < |s.threads| ensures !Inside(s.threads[i]) {
        if Inside(s.threads[i]) { CountPositive(s.threads, i); }
      }
    }
    hide CountInFlight, NobodyInside;
  }

  // ----- Runs -----

  /** A start is taken only when no producer is in flight. */
  predicate StartsClean(s: State, a: Action) { a.StartReset? ==> s.producers == 0 }

  lemma StepKeepsInv(s: State, a: Action)
    requires Inv(s) && Enabled(s, a) && StartsClean(s, a)
    ensures Inv(Step(s, a))
  {
    if IsThreadAction(a) {
      ThreadKeepsCounter(s, a);
      ThreadKeepsClosed(s, a);
    } else if a.WorkerMoves? {
      WorkerKeepsInv(s);
    } else {
      ControllerKeepsInv(s, a);
    }
  }

  datatype Trace = Trace(states: seq<State>, actions: seq<Action>)

  ghost predicate IsRun(t: Trace, threadCount: nat) {
    && |t.states| == |t.actions| + 1 && t.states[0] == Initial(threadCount)
    && forall i :: 0 <= i < |t.actions| ==> Enabled(t.states[i], t.actions[i]) && t.states[i + 1] == Step(t.states[i], t.actions[i])
  }

  ghost predicate CleanStarts(t: Trace) {
    |t.states| == |t.actions| + 1 && forall i :: 0 <= i < |t.actions| ==> StartsClean(t.states[i], t.actions[i])
  }

  lemma {:induction false} RunKeepsInv(t: Trace, threadCount: nat, n: nat)
    requires threadCount < TWO_32 && IsRun(t, threadCount) && CleanStarts(t) && n < |t.states|
    ensures Inv(t.states[n])
  {
    if n == 0 {
      InitialInv(threadCount);
    } else {
      RunKeepsInv(t, threadCount, n - 1);
      StepKeepsInv(t.states[n - 1], t.actions[n - 1]);
    }
  }

  /** What a caller may rely on after a stop that returned OK. */
  ghost predicate FullyStopped(s: State) {
    NobodyInside(s.threads) && ParkedNow(s) && s.parkedGeneration == s.runGeneration && s.queue == []
  }

  /** From the moment a stop returns OK until the next start, in every interleaving: no producer is
      between acquire and release, the worker is parked on the current generation, and the queue
      is empty. */
  lemma StopIsFinal(t: Trace, threadCount: nat, n: nat)
    requires threadCount < TWO_32 && IsRun(t, threadCount) && CleanStarts(t) && n < |t.states|
    requires t.states[n].mode.Stopped? && t.states[n].controller.Resting?
    ensures FullyStopped(t.states[n])
  {
    RunKeepsInv(t, threadCount, n);
    hide CountInFlight;
  }
}
