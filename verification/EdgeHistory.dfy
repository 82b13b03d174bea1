/** What the vehicle-sensor driver tells its listener: every change among the levels it has read. */
module EdgeHistory {
  import opened EdgeQueue
  import opened Options

  /** The level that a step reads off the pin. */
  function LevelRead(s: State, a: Action): seq<bool> {
    if a == IsrRead || (a == Task && (s.pc.Configured? || s.pc.InterruptEnabled? || s.pc.Resampling?)) then [s.pin] else []
  }

  /** The level that the worker takes up: the head of the queue, or a sample. */
  function LevelTaken(s: State, a: Action): seq<bool> {
    if a != Task then []
    else if s.pc.Resampling? then [s.pin]
    else if (s.pc.Blocked? || s.pc.Draining? || s.pc.FinalCheck?) && s.queue != [] then [s.queue[0]]
    else []
  }

  /** The handler has an edge in hand and the queue is full. */
  predicate Drops(s: State, a: Action) { a == IsrSend && |s.queue| >= 32 }

  function Read(t: Trace, n: nat): seq<bool>
    requires n <= |t.actions| <= |t.states|
  {
    if n == 0 then [] else Read(t, n - 1) + LevelRead(t.states[n - 1], t.actions[n - 1])
  }

  function Taken(t: Trace, n: nat): seq<bool>
    requires n <= |t.actions| <= |t.states|
  {
    if n == 0 then [] else Taken(t, n - 1) + LevelTaken(t.states[n - 1], t.actions[n - 1])
  }

  function Dropped(t: Trace, n: nat): nat
    requires n <= |t.actions| <= |t.states|
  {
    if n == 0 then 0 else Dropped(t, n - 1) + if Drops(t.states[n - 1], t.actions[n - 1]) then 1 else 0
  }

  /** The levels without repetitions of the one before. */
  function Changes(levels: seq<bool>): seq<bool> {
    if levels == [] then []
    else
      var n := |levels| - 1;
      Changes(levels[..n]) + if n > 0 && levels[n - 1] == levels[n] then [] else [levels[n]]
  }

  lemma {:induction false} ChangesEnd(levels: seq<bool>)
    requires levels != []
    ensures Changes(levels) != [] && Changes(levels)[|Changes(levels)| - 1] == levels[|levels| - 1]
  {
    var n := |levels| - 1;
    if n > 0 && levels[n - 1] == levels[n] { ChangesEnd(levels[..n]); }
  }

  lemma ChangesMore(levels: seq<bool>, level: bool)
    ensures Changes(levels + [level]) ==
            if levels != [] && levels[|levels| - 1] == level then Changes(levels) else Changes(levels) + [level]
  {
    assert (levels + [level])[..|levels|] == levels;
  }

  // ----- What is published -----

  /** The level that the worker is about to publish. */
  function InHand(pc: Pc): seq<bool> {
    match pc
    case Publishing(edge) => [edge]
    case PublishingSample(edge) => [edge]
    case _ => []
  }

  /** All but the level in hand has been told. */
  ghost predicate ToldAll(s: State, taken: seq<bool>) {
    exists told: seq<bool> :: taken == told + InHand(s.pc) && s.published == Changes(told)
  }

  lemma StepTells(s: State, a: Action, taken: seq<bool>)
    requires Inv(s) && Enabled(s, a) && ToldAll(s, taken)
    ensures ToldAll(Step(s, a), taken + LevelTaken(s, a))
  {
    hide Inv, Step, Enabled, InHand, LevelTaken, Changes;
    var told: seq<bool> :| taken == told + InHand(s.pc) && s.published == Changes(told);
    var u := Step(s, a);
    if InHand(s.pc) != [] && a == Task {
      PublishTells(s, told);
      assert taken + LevelTaken(s, a) == taken + InHand(u.pc);
    } else {
      OtherStepsTell(s, a, told);
      assert taken + LevelTaken(s, a) == told + InHand(u.pc);
    }
  }

  lemma PublishTells(s: State, told: seq<bool>)
    requires Inv(s) && Enabled(s, Task) && InHand(s.pc) != [] && s.published == Changes(told)
    ensures var u := Step(s, Task); u.published == Changes(told + InHand(s.pc)) && InHand(u.pc) == [] == LevelTaken(s, Task)
  {
    assert Changes([]) == [];
    hide Alternates, Changes, Newest, StartStep, Drained, Receive, IsrSendStep;
    ChangesMore(told, s.pc.edge);
    if told != [] { ChangesEnd(told); }
  }

  lemma OtherStepsTell(s: State, a: Action, told: seq<bool>)
    requires Enabled(s, a) && (InHand(s.pc) == [] || a != Task)
    ensures Step(s, a).published == s.published
    ensures told + InHand(s.pc) + LevelTaken(s, a) == told + InHand(Step(s, a).pc)
  {
    hide InHand, LevelTaken, Step, Enabled;
    if a != Task {
      HandlerTells(s, a);
    } else if Receives(s) {
      ReceiveTells(s);
    } else {
      QuietTaskTells(s);
    }
    assert told + InHand(s.pc) + LevelTaken(s, a) == told + (InHand(s.pc) + LevelTaken(s, a));
  }

  lemma HandlerTells(s: State, a: Action)
    requires Enabled(s, a) && a != Task
    ensures Step(s, a).published == s.published && InHand(s.pc) + LevelTaken(s, a) == InHand(Step(s, a).pc)
  {
    hide InHand, TaskStep;
    assert LevelTaken(s, a) == [];
  }

  lemma ReceiveTells(s: State)
    requires Enabled(s, Task) && Receives(s)
    ensures Step(s, Task) == Receive(s)
    ensures Step(s, Task).published == s.published && InHand(s.pc) + LevelTaken(s, Task) == InHand(Step(s, Task).pc)
  {
  }

  lemma QuietTaskTells(s: State)
    requires Enabled(s, Task) && InHand(s.pc) == [] && !Receives(s)
    ensures Step(s, Task).published == s.published && InHand(s.pc) + LevelTaken(s, Task) == InHand(Step(s, Task).pc)
  {
    if Starting(s.pc) { StartTells(s); } else { WorkerTells(s); }
    assert [] + LevelTaken(s, Task) == LevelTaken(s, Task);
    hide InHand, LevelTaken, StartStep, WorkerStep;
  }

  lemma StartTells(s: State)
    requires Starting(s.pc)
    ensures InHand(s.pc) == LevelTaken(s, Task) == InHand(StartStep(s).pc) == []
  {
    hide StartStep;
  }

  lemma WorkerTells(s: State)
    requires Enabled(s, Task) && !Starting(s.pc) && InHand(s.pc) == [] && !Receives(s)
    ensures WorkerStep(s).published == s.published && LevelTaken(s, Task) == InHand(WorkerStep(s).pc)
  {
    hide Publish, Receive;
    match s.pc {
      case Draining => DrainedTells(s);
      case FinalCheck => DrainedTells(s);
      case Resampling =>
    }
    hide Drained;
  }

  lemma DrainedTells(s: State)
    requires (s.pc.Draining? || s.pc.FinalCheck?) && s.queue == []
    ensures InHand(Drained(s).pc) == []
  {
  }

  /** In every run, the levels published so far are the changes among the levels taken up so far, but
      for the one in hand. */
  lemma {:induction false} PublishedExactly(t: Trace, pin: bool, n: nat)
    requires IsRun(t, pin) && n < |t.states|
    ensures ToldAll(t.states[n], Taken(t, n))
  {
    if n == 0 {
      assert Taken(t, 0) == [] + InHand(t.states[0].pc);
    } else {
      PublishedExactly(t, pin, n - 1);
      RunKeepsInv(t, pin, n - 1);
      hide Inv, Step, Enabled, LevelTaken, ToldAll;
      StepTells(t.states[n - 1], t.actions[n - 1], Taken(t, n - 1));
    }
  }

  // ----- What is taken up -----

  /** What has been read and not taken up yet: the queue, the handler's edge and the starting task's. */
  function Held(s: State): seq<bool> {
    s.queue + (if s.isr.HasRead? then [s.isr.edge] else [])
            + (if s.pc.BootRead? || s.pc.Reconciled? then [s.pc.edge] else [])
  }

  predicate Undisturbed(s: State) { !s.resyncNeeded && !s.pc.Resampling? && !s.pc.PublishingSample? }

  /** What is read and what was held is taken up or still held, in the same order. */
  ghost predicate PassesOn(s: State, a: Action, u: State) {
    Undisturbed(u) && Held(s) + LevelRead(s, a) == LevelTaken(s, a) + Held(u)
  }

  lemma StepPassesOn(s: State, a: Action)
    requires Inv(s) && Enabled(s, a) && Undisturbed(s) && !Drops(s, a)
    ensures PassesOn(s, a, Step(s, a))
  {
    hide PassesOn, Step, Enabled, Undisturbed;
    if a != Task {
      HandlerPassesOn(s, a);
    } else if Starting(s.pc) {
      StartPassesOn(s);
    } else if Receives(s) {
      ReceivePassesOn(s);
    } else {
      WorkerPassesOn(s);
    }
  }

  lemma HandlerPassesOn(s: State, a: Action)
    requires Enabled(s, a) && Undisturbed(s) && !Drops(s, a) && a != Task && (Masked(s.pc) ==> s.isr.Idle?)
    requires Starting(s.pc) ==> s.isr.Idle?
    ensures PassesOn(s, a, Step(s, a))
  {
    hide Publish, Receive;
  }

  lemma StartPassesOn(s: State)
    requires Enabled(s, Task) && Undisturbed(s) && Starting(s.pc) && s.isr.Idle?
    ensures PassesOn(s, Task, Step(s, Task))
  {
    StartTells(s);
    StartHolds(s);
    hide StartStep, LevelTaken, LevelRead, Held, Undisturbed;
    assert [] + Held(StartStep(s)) == Held(StartStep(s));
  }

  lemma StartHolds(s: State)
    requires Undisturbed(s) && Starting(s.pc) && s.isr.Idle?
    ensures Undisturbed(StartStep(s)) && Held(StartStep(s)) == Held(s) + LevelRead(s, Task)
  {
    assert s.queue + [] == s.queue && s.queue + [] + [] == s.queue;
  }

  lemma ReceivePassesOn(s: State)
    requires Enabled(s, Task) && Undisturbed(s) && Receives(s)
    ensures PassesOn(s, Task, Step(s, Task))
  {
    ReceiveTells(s);
    assert [s.queue[0]] + s.queue[1..] == s.queue;
    hide Step, Enabled;
  }

  lemma WorkerPassesOn(s: State)
    requires Enabled(s, Task) && Undisturbed(s) && !Starting(s.pc) && !Receives(s)
    ensures PassesOn(s, Task, Step(s, Task))
  {
    hide Receive;
    match s.pc {
      case Publishing(edge) =>
      case Draining =>
      case FinalCheck =>
    }
  }

  /** Without a drop, nothing that was read is lost or reordered on its way to the worker. */
  lemma {:induction false} ReadIsTakenOrHeld(t: Trace, pin: bool, n: nat)
    requires IsRun(t, pin) && n < |t.states| && Dropped(t, n) == 0
    ensures Undisturbed(t.states[n]) && Read(t, n) == Taken(t, n) + Held(t.states[n])
  {
    if n > 0 {
      ReadIsTakenOrHeld(t, pin, n - 1);
      RunKeepsInv(t, pin, n - 1);
      hide Inv, Step, Enabled, LevelTaken, LevelRead, Held, Undisturbed, Drops;
      StepPassesOn(t.states[n - 1], t.actions[n - 1]);
      Joined(Taken(t, n - 1), Held(t.states[n - 1]), LevelRead(t.states[n - 1], t.actions[n - 1]),
             LevelTaken(t.states[n - 1], t.actions[n - 1]), Held(t.states[n]));
    }
  }

  lemma Joined(a: seq<bool>, b: seq<bool>, c: seq<bool>, d: seq<bool>, e: seq<bool>)
    requires b + c == d + e
    ensures a + b + c == a + d + e
  {
    assert a + b + c == a + (b + c);
  }

  /** The counter of dropped edges is exact up to the greatest 32-bit number. */
  lemma {:induction false} DropsAreCounted(t: Trace, pin: bool, n: nat)
    requires IsRun(t, pin) && n < |t.states|
    ensures t.states[n].droppedEdges == if Dropped(t, n) < UINT32_MAX then Dropped(t, n) else UINT32_MAX
  {
    if n > 0 {
      DropsAreCounted(t, pin, n - 1);
      DropCounts(t.states[n - 1], t.actions[n - 1]);
      hide Step, Enabled, Drops;
    }
  }

  lemma DropCounts(s: State, a: Action)
    requires Enabled(s, a)
    ensures Step(s, a).droppedEdges ==
            if Drops(s, a) && s.droppedEdges != UINT32_MAX then s.droppedEdges + 1 else s.droppedEdges
  {
    if a == Task {
      TaskDropsNone(s);
      hide Step;
    } else {
      hide Publish, Receive, TaskStep;
    }
  }

  lemma TaskDropsNone(s: State)
    requires Enabled(s, Task)
    ensures Step(s, Task).droppedEdges == s.droppedEdges
  {
    hide StartStep, WorkerStep;
    if Receives(s) {
      ReceiveTells(s);
    } else if !Starting(s.pc) {
      WorkerLeavesInputs(s);
    }
  }

  lemma ToldAtRest(s: State, taken: seq<bool>)
    requires ToldAll(s, taken) && s.pc.Blocked?
    ensures s.published == Changes(taken)
  {
    var told: seq<bool> :| taken == told + InHand(s.pc) && s.published == Changes(told);
    assert told == taken;
  }

  /** At rest, in a run that dropped nothing, the published levels are all changes among all levels
      that were read, in order; no pulse is lost, however short the worker's turns. */
  lemma NothingIsLost(t: Trace, pin: bool, n: nat)
    requires IsRun(t, pin) && n < |t.states| && Quiescent(t.states[n]) && t.states[n].droppedEdges == 0
    ensures t.states[n].published == Changes(Read(t, n))
  {
    DropsAreCounted(t, pin, n);
    ReadIsTakenOrHeld(t, pin, n);
    PublishedExactly(t, pin, n);
    hide IsRun, Changes, Read, Taken, Dropped, ToldAll;
    ToldAtRest(t.states[n], Taken(t, n));
    assert Held(t.states[n]) == [];
    assert Taken(t, n) + [] == Taken(t, n);
  }

  /** At rest, in any run, they are all changes among the levels taken from the queue or sampled. */
  lemma NothingTakenIsLost(t: Trace, pin: bool, n: nat)
    requires IsRun(t, pin) && n < |t.states| && t.states[n].pc.Blocked?
    ensures t.states[n].published == Changes(Taken(t, n))
  {
    PublishedExactly(t, pin, n);
    hide IsRun, Changes, Taken, ToldAll;
    ToldAtRest(t.states[n], Taken(t, n));
  }
}
