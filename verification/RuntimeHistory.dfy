/** What becomes of every command that enters the runtime's queue, in every interleaving. */
module RuntimeHistory {
  import opened RuntimeEpochs
  import opened RuntimeSafety
  import opened RuntimeSteps

  // ----- What single steps do to commands -----

  predicate EntersQueue(s: State, a: Action) {
    && a.WorkOn? && a.thread < |s.threads| && s.threads[a.thread].Sending? && s.threads[a.thread].job.Enqueue?
    && |s.queue| < 32
  }

  /** The command that enters the queue at the front, or at the back. */
  function ToFront(s: State, a: Action): seq<Command> {
    if EntersQueue(s, a) && s.threads[a.thread].job.front then [s.threads[a.thread].job.command] else []
  }

  function ToBack(s: State, a: Action): seq<Command> {
    if EntersQueue(s, a) && !s.threads[a.thread].job.front then [s.threads[a.thread].job.command] else []
  }

  /** The command that the worker takes off the queue. */
  function Taken(s: State, a: Action): seq<Command> {
    if a.WorkerMoves? && s.worker.Receiving? && s.queue != [] then [s.queue[0]] else []
  }

  /** The commands that a drain or a session reset throws away. */
  function Discarded(s: State, a: Action): seq<Command> {
    if (a.WorkerMoves? && s.worker.Draining?) || a.StartReset? then s.queue else []
  }

  /** The command that is carried out, and the one whose epoch has passed. */
  function Executed(s: State, a: Action): seq<Command> {
    if a.WorkerMoves? && s.worker.Executing? then [s.worker.command] else []
  }

  function Refused(s: State, a: Action): seq<Command> {
    if a.WorkerMoves? && s.worker.CheckingEpoch? && s.worker.command.epoch != s.epoch then [s.worker.command] else []
  }

  /** A reset reaches the delivery table, or a session starts with an empty one. */
  predicate ClearsTable(s: State, a: Action) {
    (a.WorkerMoves? && s.worker.Latching? && s.resetGeneration != s.appliedReset) || a.StartReset?
  }

  // ----- Over runs -----

  function AllSent(t: Trace, n: nat): seq<Command>
    requires n <= |t.actions| <= |t.states|
  {
    if n == 0 then []
    else AllSent(t, n - 1) + ToFront(t.states[n - 1], t.actions[n - 1]) + ToBack(t.states[n - 1], t.actions[n - 1])
  }

  function AllExecuted(t: Trace, n: nat): seq<Command>
    requires n <= |t.actions| <= |t.states|
  {
    if n == 0 then [] else AllExecuted(t, n - 1) + Executed(t.states[n - 1], t.actions[n - 1])
  }

  function AllRefused(t: Trace, n: nat): seq<Command>
    requires n <= |t.actions| <= |t.states|
  {
    if n == 0 then [] else AllRefused(t, n - 1) + Refused(t.states[n - 1], t.actions[n - 1])
  }

  function AllDiscarded(t: Trace, n: nat): seq<Command>
    requires n <= |t.actions| <= |t.states|
  {
    if n == 0 then [] else AllDiscarded(t, n - 1) + Discarded(t.states[n - 1], t.actions[n - 1])
  }

  /** The commands carried out since the table was cleared last. */
  function ExecutedSinceClear(t: Trace, n: nat): seq<Command>
    requires n <= |t.actions| <= |t.states|
  {
    if n == 0 || ClearsTable(t.states[n - 1], t.actions[n - 1]) then []
    else ExecutedSinceClear(t, n - 1) + Executed(t.states[n - 1], t.actions[n - 1])
  }

  function InHand(w: Worker): seq<Command> { if w.CheckingEpoch? || w.Executing? then [w.command] else [] }

  // ----- The queue -----

  lemma ThreadMovesQueue(s: State, a: Action)
    requires IsThreadAction(a) && Enabled(s, a)
    ensures ThreadStep(s, a).queue == ToFront(s, a) + s.queue + ToBack(s, a)
  {
    if a.WorkOn? {
      WorkMovesQueue(s, a.thread);
      hide WorkOnStep, EntersQueue;
    } else {
      assert [] + s.queue + [] == s.queue;
    }
  }

  lemma WorkMovesQueue(s: State, i: nat)
    requires i < |s.threads| && AtWork(s.threads[i])
    ensures WorkOnStep(s, i).queue == ToFront(s, WorkOn(i)) + s.queue + ToBack(s, WorkOn(i))
  {
    hide Accepts;
    assert [] + s.queue + [] == s.queue;
    match s.threads[i] {
      case Sending(Enqueue(command, front)) =>
        assert [] + s.queue + [command] == s.queue + [command] && [command] + s.queue + [] == [command] + s.queue;
      case _ =>
    }
  }

  /** The worker takes from the front only. */
  lemma WorkerMovesQueue(s: State)
    requires WorkerEnabled(s)
    ensures s.queue == Taken(s, WorkerMoves) + Discarded(s, WorkerMoves) + WorkerStep(s).queue
  {
    hide Latched;
    LatchedOnly(s);
    match s.worker {
      case Receiving(n) => if s.queue != [] { assert [s.queue[0]] + s.queue[1..] == s.queue; }
      case Draining =>
      case _ =>
    }
  }

  lemma ControllerMovesQueue(s: State, a: Action)
    requires !IsThreadAction(a) && !a.WorkerMoves? && Enabled(s, a)
    ensures s.queue == Discarded(s, a) + ControllerStep(s, a).queue && ControllerStep(s, a).worker == s.worker
  {
    hide Enabled;
    if a.StartReset? { assert s.queue + [] == s.queue; } else { assert [] + s.queue == s.queue; }
  }

  // ----- The worker's hand -----

  /** What the worker took it carries out, refuses or still holds. */
  lemma WorkerMovesHand(s: State)
    requires WorkerEnabled(s)
    ensures InHand(s.worker) + Taken(s, WorkerMoves) ==
            InHand(WorkerStep(s).worker) + Executed(s, WorkerMoves) + Refused(s, WorkerMoves)
  {
    hide Latched;
    var u := WorkerStep(s);
    match s.worker {
      case Receiving(n) =>
      case CheckingEpoch(command, n) => assert u.worker == if command.epoch == s.epoch then Executing(command, n) else Latching(n + 1);
      case Executing(command, n) => assert u.worker == Latching(n + 1);
      case _ => assert InHand(u.worker) == [];
    }
  }

  /** How often a command occurs. */
  function Times(list: seq<Command>, c: Command): nat { multiset(list)[c] }

  lemma TimesAdd(x: seq<Command>, y: seq<Command>, c: Command)
    ensures Times(x + y, c) == Times(x, c) + Times(y, c)
  {
  }

  lemma TimesNone(c: Command)
    ensures Times([], c) == 0
  {
  }

  /** The step leaves no occurrence of c unaccounted for. */
  ghost predicate Conserves(s: State, a: Action, u: State, c: Command) {
    Times(s.queue, c) + Times(InHand(s.worker), c) + Times(ToFront(s, a), c) + Times(ToBack(s, a), c) ==
    Times(u.queue, c) + Times(InHand(u.worker), c)
      + Times(Executed(s, a), c) + Times(Refused(s, a), c) + Times(Discarded(s, a), c)
  }

  lemma StepConserves(s: State, a: Action, c: Command)
    requires Enabled(s, a)
    ensures Conserves(s, a, Step(s, a), c)
  {
    hide ThreadStep, WorkerStep, ControllerStep, Conserves, Enabled;
    if IsThreadAction(a) {
      ThreadMovesQueue(s, a);
      ThreadLeavesRest(s, a);
      ThreadConserves(s, a, ThreadStep(s, a), c);
    } else if a.WorkerMoves? {
      assert WorkerEnabled(s) by { EnabledMeans(s); }
      WorkerMovesQueue(s);
      WorkerMovesHand(s);
      WorkerConserves(s, WorkerStep(s), c);
    } else {
      ControllerMovesQueue(s, a);
      ControllerConserves(s, a, ControllerStep(s, a), c);
    }
  }

  lemma EnabledMeans(s: State)
    requires Enabled(s, WorkerMoves)
    ensures WorkerEnabled(s)
  {
  }

  lemma ThreadConserves(s: State, a: Action, u: State, c: Command)
    requires IsThreadAction(a) && u.queue == ToFront(s, a) + s.queue + ToBack(s, a) && u.worker == s.worker
    ensures Conserves(s, a, u, c)
  {
    hide InHand, ToFront, ToBack, Executed, Refused, Discarded, Times;
    ThreadsOnlySend(s, a);
    TimesNone(c);
    TimesAdd(ToFront(s, a), s.queue, c);
    TimesAdd(ToFront(s, a) + s.queue, ToBack(s, a), c);
  }

  lemma ThreadsOnlySend(s: State, a: Action)
    requires IsThreadAction(a)
    ensures Executed(s, a) == [] && Refused(s, a) == [] && Discarded(s, a) == [] && Taken(s, a) == []
  {
  }

  lemma WorkerConserves(s: State, u: State, c: Command)
    requires s.queue == Taken(s, WorkerMoves) + Discarded(s, WorkerMoves) + u.queue
    requires InHand(s.worker) + Taken(s, WorkerMoves) == InHand(u.worker) + Executed(s, WorkerMoves) + Refused(s, WorkerMoves)
    ensures Conserves(s, WorkerMoves, u, c)
  {
    assert ToFront(s, WorkerMoves) == [] == ToBack(s, WorkerMoves);
    hide InHand, Taken, Executed, Refused, Discarded, ToFront, ToBack, Times;
    TimesNone(c);
    TimesAdd(Taken(s, WorkerMoves), Discarded(s, WorkerMoves), c);
    TimesAdd(Taken(s, WorkerMoves) + Discarded(s, WorkerMoves), u.queue, c);
    TimesAdd(InHand(s.worker), Taken(s, WorkerMoves), c);
    TimesAdd(InHand(u.worker), Executed(s, WorkerMoves), c);
    TimesAdd(InHand(u.worker) + Executed(s, WorkerMoves), Refused(s, WorkerMoves), c);
  }

  lemma ControllerConserves(s: State, a: Action, u: State, c: Command)
    requires !IsThreadAction(a) && !a.WorkerMoves? && s.queue == Discarded(s, a) + u.queue && u.worker == s.worker
    ensures Conserves(s, a, u, c)
  {
    assert Executed(s, a) == Refused(s, a) == ToFront(s, a) == ToBack(s, a) == [];
    hide InHand, ToFront, ToBack, Executed, Refused, Discarded, Times;
    TimesNone(c);
    TimesAdd(Discarded(s, a), u.queue, c);
  }

  /** Every occurrence of a command that entered the queue is still in it or in the worker's hand, or
      met exactly one end: carried out, refused for its epoch, or thrown away by a drain or a session
      reset. */
  lemma {:induction false} CommandsAreConserved(t: Trace, threadCount: nat, n: nat, c: Command)
    requires IsRun(t, threadCount) && n < |t.states|
    ensures Times(AllSent(t, n), c) ==
            Times(t.states[n].queue, c) + Times(InHand(t.states[n].worker), c)
              + Times(AllExecuted(t, n), c) + Times(AllRefused(t, n), c) + Times(AllDiscarded(t, n), c)
  {
    hide Step, Enabled, Executed, Refused, Discarded, ToFront, ToBack, InHand, Times;
    if n == 0 {
      InitialHand(threadCount);
      TimesNone(c);
    } else {
      var s, a := t.states[n - 1], t.actions[n - 1];
      CommandsAreConserved(t, threadCount, n - 1, c);
      StepConserves(s, a, c);
      TimesAdd(AllSent(t, n - 1), ToFront(s, a), c);
      TimesAdd(AllSent(t, n - 1) + ToFront(s, a), ToBack(s, a), c);
      TimesAdd(AllExecuted(t, n - 1), Executed(s, a), c);
      TimesAdd(AllRefused(t, n - 1), Refused(s, a), c);
      TimesAdd(AllDiscarded(t, n - 1), Discarded(s, a), c);
    }
  }

  lemma InitialHand(threadCount: nat)
    ensures InHand(Initial(threadCount).worker) == [] && Initial(threadCount).queue == [] == Initial(threadCount).table
  {
  }

  // ----- The delivery table -----

  lemma StepFillsTable(s: State, a: Action)
    requires Enabled(s, a)
    ensures Step(s, a).table == if ClearsTable(s, a) then [] else s.table + Executed(s, a)
  {
    assert s.table + [] == s.table;
    if IsThreadAction(a) {
      ThreadLeavesRest(s, a);
      hide ThreadStep;
    } else if a.WorkerMoves? {
      WorkerFillsTable(s);
      hide WorkerStep;
    } else {
      hide Enabled;
    }
  }

  lemma WorkerFillsTable(s: State)
    requires WorkerEnabled(s)
    ensures WorkerStep(s).table == if ClearsTable(s, WorkerMoves) then [] else s.table + Executed(s, WorkerMoves)
  {
    assert s.table + [] == s.table;
    match s.worker {
      case Latching(n) =>
      case Executing(command, n) =>
      case _ =>
    }
  }

  /** The delivery table holds exactly the commands carried out since it was cleared last, in order. */
  lemma {:induction false} TableIsWhatRan(t: Trace, threadCount: nat, n: nat)
    requires IsRun(t, threadCount) && n < |t.states|
    ensures t.states[n].table == ExecutedSinceClear(t, n)
  {
    hide Step, Enabled, Executed, ClearsTable;
    if n == 0 {
      InitialHand(threadCount);
    } else {
      TableIsWhatRan(t, threadCount, n - 1);
      StepFillsTable(t.states[n - 1], t.actions[n - 1]);
    }
  }

  // ----- The order of the queue -----

  /** What enters at the back, and what is taken, from step i to step n. */
  function SentBetween(t: Trace, i: nat, n: nat): seq<Command>
    requires i <= n <= |t.actions| <= |t.states|
  {
    if n == i then [] else SentBetween(t, i, n - 1) + ToBack(t.states[n - 1], t.actions[n - 1])
  }

  function TakenBetween(t: Trace, i: nat, n: nat): seq<Command>
    requires i <= n <= |t.actions| <= |t.states|
  {
    if n == i then [] else TakenBetween(t, i, n - 1) + Taken(t.states[n - 1], t.actions[n - 1])
  }

  /** Nothing jumps the queue and nothing is thrown away. */
  predicate Plain(s: State, a: Action) { ToFront(s, a) == [] && Discarded(s, a) == [] }

  lemma StepIsFair(s: State, a: Action)
    requires Enabled(s, a) && Plain(s, a)
    ensures s.queue + ToBack(s, a) == Taken(s, a) + Step(s, a).queue
  {
    hide ThreadStep, WorkerStep, ControllerStep, ToFront, ToBack, Discarded, Taken;
    if IsThreadAction(a) {
      ThreadMovesQueue(s, a);
      ThreadsOnlySend(s, a);
      assert [] + s.queue == s.queue && [] + Step(s, a).queue == Step(s, a).queue;
    } else if a.WorkerMoves? {
      OthersSendNothing(s, a);
      WorkerMovesQueue(s);
      assert s.queue + [] == s.queue && Taken(s, a) + [] == Taken(s, a);
    } else {
      OthersSendNothing(s, a);
      ControllerMovesQueue(s, a);
      assert s.queue + [] == s.queue && [] + Step(s, a).queue == Step(s, a).queue;
    }
  }

  lemma OthersSendNothing(s: State, a: Action)
    requires !IsThreadAction(a)
    ensures ToBack(s, a) == [] && (!a.WorkerMoves? ==> Taken(s, a) == [])
  {
  }

  /** Commands sent to the back are taken in the order they were sent, behind those already there. */
  lemma {:induction false} FirstInFirstOut(t: Trace, threadCount: nat, i: nat, n: nat)
    requires IsRun(t, threadCount) && i <= n < |t.states|
    requires forall k :: i <= k < n ==> Plain(t.states[k], t.actions[k])
    ensures t.states[i].queue + SentBetween(t, i, n) == TakenBetween(t, i, n) + t.states[n].queue
  {
    hide Step, Enabled, Taken, ToBack, Plain;
    if n == i {
      assert t.states[i].queue + [] == [] + t.states[i].queue;
    } else {
      FirstInFirstOut(t, threadCount, i, n - 1);
      StepIsFair(t.states[n - 1], t.actions[n - 1]);
      Rejoin(t.states[i].queue, SentBetween(t, i, n - 1), ToBack(t.states[n - 1], t.actions[n - 1]),
             TakenBetween(t, i, n - 1), t.states[n - 1].queue, Taken(t.states[n - 1], t.actions[n - 1]), t.states[n].queue);
    }
  }

  lemma Rejoin(q: seq<Command>, sent: seq<Command>, more: seq<Command>, taken: seq<Command>, r: seq<Command>,
               head: seq<Command>, rest: seq<Command>)
    requires q + sent == taken + r && r + more == head + rest
    ensures q + (sent + more) == (taken + head) + rest
  {
    assert q + (sent + more) == (q + sent) + more;
    assert (taken + r) + more == taken + (r + more);
  }

  /** A command sent to the front is the next one taken. */
  lemma FrontIsNext(s: State, a: Action)
    requires Enabled(s, a) && ToFront(s, a) != []
    ensures Step(s, a).queue != [] && Step(s, a).queue[0] == s.threads[a.thread].job.command
  {
    ThreadMovesQueue(s, a);
    hide ThreadStep, Enabled;
  }
}
