/** The vehicle-sensor driver: an interrupt handler feeds a bounded edge queue, a worker drains it
    and publishes level changes, and an overflow is repaired by sampling the pin. */
module EdgeQueue {
  import opened Options

  const QUEUE_LENGTH: nat := 32
  const UINT32_MAX: nat := 0xFFFF_FFFF

  datatype Isr = Idle | Entered | HasRead(edge: bool)

  /** Where task code stands: the starting task up to the creation of the worker, then the worker. */
  datatype Pc =
    | Configured
    | BootRead(edge: bool)
    | BootQueued
    | InterruptEnabled
    | Reconciled(edge: bool)
    | Blocked
    | Publishing(edge: bool)
    | Draining
    | FinalCheck
    | Resampling
    | PublishingSample(edge: bool)

  datatype State = State(
    pin: bool,
    interruptEnabled: bool,
    interruptPending: bool,
    isr: Isr,
    pc: Pc,
    queue: seq<bool>,
    resyncNeeded: bool,
    droppedEdges: nat,
    currentLevel: Option<bool>,
    hasLevel: bool,
    level: bool,
    published: seq<bool>
  )

  datatype Action = Edge | IsrEnter | IsrRead | IsrSend | Task

  function Initial(pin: bool): State {
    State(pin, false, false, Idle, Configured, [], false, 0, None, false, false, [])
  }

  /** Interrupts are masked inside the two critical sections. */
  predicate Masked(pc: Pc) { pc.InterruptEnabled? || pc.Reconciled? || pc.FinalCheck? || pc.Resampling? }

  /** On the single core the handler preempts task code, never the reverse. */
  predicate Enabled(s: State, a: Action) {
    match a
    case Edge => true
    case IsrEnter => s.interruptEnabled && s.interruptPending && s.isr.Idle? && !Masked(s.pc)
    case IsrRead => s.isr.Entered?
    case IsrSend => s.isr.HasRead?
    case Task => s.isr.Idle? && (s.pc.Blocked? ==> s.queue != [])
  }

  /** An edge reaches the queue, or is counted as dropped and requests a resync. */
  function IsrSendStep(s: State): State
    requires s.isr.HasRead?
  {
    if |s.queue| < QUEUE_LENGTH then
      s.(isr := Idle, queue := s.queue + [s.isr.edge], currentLevel := Some(s.isr.edge))
    else
      s.(isr := Idle, resyncNeeded := true,
         droppedEdges := if s.droppedEdges != UINT32_MAX then s.droppedEdges + 1 else s.droppedEdges)
  }

  /** Only a change of level is handed to the event handler. */
  function Publish(s: State, edge: bool): (u: State)
    ensures u == s.(hasLevel := u.hasLevel, level := u.level, published := u.published)
  {
    if s.hasLevel && s.level == edge then s
    else s.(hasLevel := true, level := edge, published := s.published + [edge])
  }

  predicate Starting(pc: Pc) { pc.Configured? || pc.BootRead? || pc.BootQueued? || pc.InterruptEnabled? || pc.Reconciled? }

  /** The start routine: the boot level, the interrupt, and a second reading under the lock. */
  function StartStep(s: State): (u: State)
    requires Starting(s.pc)
    ensures u == s.(pc := u.pc, queue := u.queue, currentLevel := u.currentLevel, interruptEnabled := u.interruptEnabled)
    ensures Starting(u.pc) || u.pc.Blocked?
  {
    match s.pc
    case Configured => s.(pc := BootRead(s.pin))
    case BootRead(edge) => s.(pc := BootQueued, queue := s.queue + [edge], currentLevel := Some(edge))
    case BootQueued => s.(pc := InterruptEnabled, interruptEnabled := true)
    case InterruptEnabled => s.(pc := Reconciled(s.pin))
    case Reconciled(edge) => s.(pc := Blocked, queue := s.queue + [edge], currentLevel := Some(edge))
  }

  function Receive(s: State): State
    requires s.queue != []
  {
    s.(pc := Publishing(s.queue[0]), queue := s.queue[1..])
  }

  /** The worker's loop without waiting, and its last look under the lock. */
  function Drained(s: State): State {
    if s.queue != [] then Receive(s)
    else if s.pc.Draining? then s.(pc := FinalCheck)
    else if s.resyncNeeded then s.(pc := Resampling, resyncNeeded := false)
    else s.(pc := Blocked)
  }

  function WorkerStep(s: State): State
    requires !Starting(s.pc) && Enabled(s, Task)
  {
    match s.pc
    case Blocked => Receive(s)
    case Publishing(edge) => Publish(s, edge).(pc := Draining)
    case Draining => Drained(s)
    case FinalCheck => Drained(s)
    case Resampling => s.(pc := PublishingSample(s.pin), currentLevel := Some(s.pin))
    case PublishingSample(edge) => Publish(s, edge).(pc := Blocked)
  }

  function TaskStep(s: State): State
    requires Enabled(s, Task)
  {
    if Starting(s.pc) then StartStep(s) else WorkerStep(s)
  }

  function Step(s: State, a: Action): State
    requires Enabled(s, a)
  {
    match a
    case Edge => s.(pin := !s.pin, interruptPending := s.interruptPending || s.interruptEnabled)
    case IsrEnter => s.(interruptPending := false, isr := Entered)
    case IsrRead => s.(isr := HasRead(s.pin))
    case IsrSend => IsrSendStep(s)
    case Task => TaskStep(s)
  }

  /** The driver's storage.  Each method is one atomic step of the handler or of task code. */
  class Driver {
    var pin: bool
    var interruptEnabled: bool
    var interruptPending: bool
    var isr: Isr
    var pc: Pc
    var queue: seq<bool>
    var resyncNeeded: bool
    var droppedEdges: nat
    var currentLevel: Option<bool>
    var hasLevel: bool
    var level: bool
    ghost var published: seq<bool>

    ghost function View(): State
      reads this
    {
      State(pin, interruptEnabled, interruptPending, isr, pc, queue, resyncNeeded, droppedEdges, currentLevel,
            hasLevel, level, published)
    }

    constructor (pin: bool)
      ensures View() == Initial(pin)
    {
      this.pin, interruptEnabled, interruptPending, isr, pc := pin, false, false, Idle, Configured;
      queue, resyncNeeded, droppedEdges, currentLevel := [], false, 0, None;
      hasLevel, level, published := false, false, [];
    }

    method PhysicalEdge()
      modifies this
      ensures View() == Step(old(View()), Edge)
    {
      pin := !pin;
      if interruptEnabled { interruptPending := true; }
    }

    method EnterHandler()
      requires Enabled(View(), IsrEnter)
      modifies this
      ensures View() == Step(old(View()), IsrEnter)
    {
      interruptPending := false;
      isr := Entered;
    }

    method HandlerReadsPin()
      requires Enabled(View(), IsrRead)
      modifies this
      ensures View() == Step(old(View()), IsrRead)
    {
      isr := HasRead(pin);
    }

    method HandlerSends()
      requires Enabled(View(), IsrSend)
      modifies this
      ensures View() == Step(old(View()), IsrSend)
    {
      if |queue| < QUEUE_LENGTH {
        queue := queue + [isr.edge];
        currentLevel := Some(isr.edge);
      } else {
        if droppedEdges != UINT32_MAX { droppedEdges := droppedEdges + 1; }
        resyncNeeded := true;
      }
      isr := Idle;
    }

    method PublishEdge(edge: bool)
      modifies this`hasLevel, this`level, this`published
      ensures View() == Publish(old(View()), edge)
    {
      if hasLevel && level == edge { return; }
      hasLevel, level := true, edge;
      published := published + [edge];
    }

    /** One step of the start routine, up to the creation of the worker. */
    method StartOneStep()
      requires Enabled(View(), Task) && Starting(pc)
      modifies this
      ensures View() == Step(old(View()), Task)
    {
      match pc {
        case Configured => pc := BootRead(pin);
        case BootRead(edge) =>
          queue := queue + [edge];
          currentLevel := Some(edge);
          pc := BootQueued;
        case BootQueued =>
          interruptEnabled := true;
          pc := InterruptEnabled;
        case InterruptEnabled => pc := Reconciled(pin);
        case Reconciled(edge) =>
          queue := queue + [edge];
          currentLevel := Some(edge);
          pc := Blocked;
      }
    }

    method ReceiveEdge()
      requires queue != []
      modifies this`queue, this`pc
      ensures View() == Receive(old(View()))
    {
      pc := Publishing(queue[0]);
      queue := queue[1..];
    }

    /** The worker asks for the next edge without waiting, at last under the lock. */
    method DrainOneStep()
      requires pc.Draining? || pc.FinalCheck?
      modifies this`queue, this`pc, this`resyncNeeded
      ensures View() == Drained(old(View()))
    {
      hide Receive;
      if queue != [] {
        ReceiveEdge();
      } else if pc.Draining? {
        pc := FinalCheck;
      } else if resyncNeeded {
        resyncNeeded := false;
        pc := Resampling;
      } else {
        pc := Blocked;
      }
    }

    /** One step of the worker's loops. */
    method WorkOneStep()
      requires Enabled(View(), Task) && !Starting(pc)
      modifies this
      ensures View() == Step(old(View()), Task)
    {
      hide Receive, Publish, Drained;
      match pc {
        case Blocked => ReceiveEdge();
        case Publishing(edge) =>
          PublishEdge(edge);
          pc := Draining;
        case Draining => DrainOneStep();
        case FinalCheck => DrainOneStep();
        case Resampling =>
          currentLevel := Some(pin);
          pc := PublishingSample(pin);
        case PublishingSample(edge) =>
          PublishEdge(edge);
          pc := Blocked;
      }
    }
  }

  // ----- What every interleaving keeps -----

  ghost predicate Alternates(levels: seq<bool>) {
    forall i :: 0 <= i < |levels| - 1 ==> levels[i] != levels[i + 1]
  }

  /** Nothing is on its way that could still change what the driver believes about the pin. */
  predicate UpToDate(s: State) {
    s.interruptEnabled && !s.interruptPending && s.isr.Idle? && !s.resyncNeeded && !Starting(s.pc) && !s.pc.Resampling?
  }

  /** The newest level the driver holds, wherever it is. */
  function Newest(s: State): Option<bool> {
    if s.queue != [] then Some(s.queue[|s.queue| - 1])
    else match s.pc
      case Publishing(edge) => Some(edge)
      case PublishingSample(edge) => Some(edge)
      case _ => if s.hasLevel then Some(s.level) else None
  }

  ghost predicate Inv(s: State) {
    && |s.queue| <= QUEUE_LENGTH
    && s.hasLevel == (s.published != [])
    && (s.hasLevel ==> s.level == s.published[|s.published| - 1])
    && Alternates(s.published)
    && (s.interruptEnabled <==> !(s.pc.Configured? || s.pc.BootRead? || s.pc.BootQueued?))
    && (!s.interruptEnabled ==> !s.interruptPending && s.isr.Idle?)
    && (Starting(s.pc) ==> s.isr.Idle? && !s.resyncNeeded && |s.queue| <= 1)
    && (s.pc.Configured? || s.pc.BootRead? ==> s.queue == [])
    && (Masked(s.pc) ==> s.isr.Idle?)
    && (s.isr.HasRead? && !s.interruptPending ==> s.isr.edge == s.pin)
    && (s.pc.Reconciled? && !s.interruptPending ==> s.pc.edge == s.pin)
    && (s.resyncNeeded ==> s.queue != [] || s.pc.Publishing? || s.pc.Draining? || s.pc.FinalCheck?)
    && (s.pc.Resampling? ==> s.queue == [] && !s.resyncNeeded)
    && (UpToDate(s) ==> Newest(s) == Some(s.pin) && s.currentLevel == Some(s.pin))
  }

  lemma InitialInv(pin: bool)
    ensures Inv(Initial(pin))
  {
  }

  lemma StepKeepsInv(s: State, a: Action)
    requires Inv(s) && Enabled(s, a)
    ensures Inv(Step(s, a))
  {
    match a {
      case Edge =>
      case IsrEnter =>
      case IsrRead =>
      case IsrSend => SendKeepsInv(s);
      case Task =>
        if Starting(s.pc) {
          StartKeepsInv(s);
        } else if Receives(s) {
          ReceiveKeepsInv(s);
        } else {
          WorkerKeepsInv(s);
        }
    }
  }

  predicate Receives(s: State) { s.queue != [] && (s.pc.Blocked? || s.pc.Draining? || s.pc.FinalCheck?) }

  lemma SendKeepsInv(s: State)
    requires Inv(s) && s.isr.HasRead?
    ensures Inv(IsrSendStep(s))
  {
    hide Alternates;
  }

  lemma StartKeepsInv(s: State)
    requires Inv(s) && Enabled(s, Task) && Starting(s.pc)
    ensures Inv(StartStep(s))
  {
    hide Alternates;
  }

  lemma ReceiveKeepsInv(s: State)
    requires Inv(s) && Enabled(s, Task) && Receives(s)
    ensures Inv(Receive(s))
  {
    hide Alternates;
  }

  lemma WorkerKeepsInv(s: State)
    requires Inv(s) && Enabled(s, Task) && !Starting(s.pc) && !Receives(s)
    ensures Inv(WorkerStep(s))
  {
    if s.pc.Publishing? || s.pc.PublishingSample? {
      PublishingKeepsInv(s);
    } else {
      IdlingKeepsInv(s);
    }
  }

  lemma PublishingKeepsInv(s: State)
    requires Inv(s) && Enabled(s, Task) && (s.pc.Publishing? || s.pc.PublishingSample?)
    ensures Inv(WorkerStep(s))
  {
    hide Publish, Inv;
    PublishKeeps(s, s.pc.edge);
    PublishedKeepsInv(s, Publish(s, s.pc.edge).published);
  }

  lemma PublishedKeepsInv(s: State, published: seq<bool>)
    requires Inv(s) && s.isr.Idle? && (s.pc.Publishing? || s.pc.PublishingSample?)
    requires published != [] && published[|published| - 1] == s.pc.edge && Alternates(published)
    ensures Inv(s.(hasLevel := true, level := s.pc.edge, published := published,
                   pc := if s.pc.Publishing? then Draining else Blocked))
  {
    hide Alternates;
  }

  /** The worker finds the queue empty, samples, or goes back to sleep. */
  lemma IdlingKeepsInv(s: State)
    requires Inv(s) && Enabled(s, Task) && !Receives(s)
    requires s.pc.Draining? || s.pc.FinalCheck? || s.pc.Resampling?
    ensures Inv(WorkerStep(s))
  {
    hide Alternates, Publish;
  }

  lemma PublishKeeps(s: State, edge: bool)
    requires Inv(s)
    ensures var u := Publish(s, edge);
            && u == s.(hasLevel := true, level := edge, published := u.published)
            && u.published != [] && u.published[|u.published| - 1] == edge && Alternates(u.published)
  {
  }

  datatype Trace = Trace(states: seq<State>, actions: seq<Action>)

  ghost predicate IsRun(t: Trace, pin: bool) {
    && |t.states| == |t.actions| + 1 && t.states[0] == Initial(pin)
    && forall i :: 0 <= i < |t.actions| ==> Enabled(t.states[i], t.actions[i]) && t.states[i + 1] == Step(t.states[i], t.actions[i])
  }

  lemma {:induction false} RunKeepsInv(t: Trace, pin: bool, n: nat)
    requires IsRun(t, pin) && n < |t.states|
    ensures Inv(t.states[n])
  {
    if n == 0 {
      InitialInv(pin);
    } else {
      RunKeepsInv(t, pin, n - 1);
      StepKeepsInv(t.states[n - 1], t.actions[n - 1]);
    }
  }

  /** The worker waits on an empty queue and no interrupt is pending or running. */
  predicate Quiescent(s: State) {
    s.pc.Blocked? && s.queue == [] && !s.interruptPending && s.isr.Idle?
  }

  /** At every quiet moment of every run the driver has caught up with the pin. */
  lemma QuietMeansCaughtUp(t: Trace, pin: bool, n: nat)
    requires IsRun(t, pin) && n < |t.states| && Quiescent(t.states[n])
    ensures var s := t.states[n];
            && !s.resyncNeeded
            && s.published != [] && s.published[|s.published| - 1] == s.pin
            && s.currentLevel == Some(s.pin)
  {
    RunKeepsInv(t, pin, n);
  }

  /** Detected and cleared events strictly alternate. */
  lemma EventsAlternate(t: Trace, pin: bool, n: nat)
    requires IsRun(t, pin) && n < |t.states|
    ensures Alternates(t.states[n].published)
  {
    RunKeepsInv(t, pin, n);
  }

  // ----- Catching up takes bounded work -----

  function PcWork(pc: Pc): nat {
    match pc
    case Configured => 21
    case BootRead(_) => 20
    case BootQueued => 13
    case InterruptEnabled => 12
    case Reconciled(_) => 11
    case Blocked => 0
    case PublishingSample(_) => 1
    case Resampling => 2
    case FinalCheck => 3
    case Draining => 4
    case Publishing(_) => 5
  }

  /** An upper bound on the steps that remain if the pin stays as it is. */
  function Work(s: State): nat {
    6 * |s.queue| + PcWork(s.pc) + (if s.interruptPending then 9 else 0)
    + match s.isr case Idle => 0 case Entered => 8 case HasRead(_) => 7
  }

  /** Every step but a physical edge uses up work, and while the driver is not quiescent some
      such step can run: without further edges it catches up after at most Work(s) steps. */
  lemma StepUsesWork(s: State, a: Action)
    requires Inv(s) && Enabled(s, a) && a != Edge
    ensures Work(Step(s, a)) < Work(s)
  {
    hide Inv, Newest, Alternates;
    if a == Task { TaskUsesWork(s); }
  }

  lemma TaskUsesWork(s: State)
    requires Enabled(s, Task)
    ensures Work(TaskStep(s)) < Work(s)
  {
    if Starting(s.pc) {
      StartUsesWork(s);
    } else if Receives(s) {
      ReceiveUsesWork(s);
      assert WorkerStep(s) == Receive(s);
      hide WorkerStep, Receive, Work;
    } else {
      WorkerUsesWork(s);
    }
  }

  lemma WorkerUsesWork(s: State)
    requires Enabled(s, Task) && !Starting(s.pc) && !Receives(s)
    ensures Work(WorkerStep(s)) < Work(s)
  {
    WorkerAdvances(s);
    WorkerLeavesInputs(s);
    hide WorkerStep, PcWork, Starting, Receives, Enabled;
  }

  lemma WorkerAdvances(s: State)
    requires Enabled(s, Task) && !Starting(s.pc) && !Receives(s)
    ensures PcWork(WorkerStep(s).pc) < PcWork(s.pc)
  {
    match s.pc {
      case Publishing(edge) => assert WorkerStep(s).pc == Draining;
      case Draining => assert WorkerStep(s).pc == FinalCheck;
      case FinalCheck =>
      case Resampling => assert WorkerStep(s).pc == PublishingSample(s.pin);
      case PublishingSample(edge) => assert WorkerStep(s).pc == Blocked;
    }
  }

  lemma WorkerLeavesInputs(s: State)
    requires Enabled(s, Task) && !Starting(s.pc) && !Receives(s)
    ensures var u := WorkerStep(s);
            u.queue == s.queue && u.isr == s.isr && u.interruptPending == s.interruptPending && u.droppedEdges == s.droppedEdges
  {
    match s.pc {
      case Publishing(edge) => PublishLeavesInputs(s, edge);
      case Draining => DrainLeavesInputs(s);
      case FinalCheck => DrainLeavesInputs(s);
      case Resampling =>
      case PublishingSample(edge) => PublishLeavesInputs(s, edge);
    }
    hide Publish, Drained;
  }

  lemma PublishLeavesInputs(s: State, edge: bool)
    ensures var u := Publish(s, edge);
            u.queue == s.queue && u.isr == s.isr && u.interruptPending == s.interruptPending && u.droppedEdges == s.droppedEdges
  {
    hide Publish;
  }

  lemma DrainLeavesInputs(s: State)
    requires s.queue == []
    ensures var u := Drained(s);
            u.queue == s.queue && u.isr == s.isr && u.interruptPending == s.interruptPending && u.droppedEdges == s.droppedEdges
  {
  }

  lemma StartUsesWork(s: State)
    requires Starting(s.pc)
    ensures Work(StartStep(s)) < Work(s)
  {
  }

  lemma ReceiveUsesWork(s: State)
    requires Receives(s)
    ensures Work(Receive(s)) < Work(s)
  {
    assert |Receive(s).queue| == |s.queue| - 1;
  }

  lemma NeverStuck(s: State)
    requires Inv(s) && forall a :: a != Edge ==> !Enabled(s, a)
    ensures Quiescent(s)
  {
    assert !Enabled(s, IsrEnter) && !Enabled(s, IsrRead) && !Enabled(s, IsrSend) && !Enabled(s, Task);
  }

  lemma {:induction false} CatchesUp(t: Trace, pin: bool, from: nat, to: nat)
    requires IsRun(t, pin) && from <= to < |t.states|
    requires forall i :: from <= i < to ==> t.actions[i] != Edge
    ensures to - from <= Work(t.states[from]) - Work(t.states[to])
  {
    hide Inv, Work, Step, Enabled;
    if from < to {
      CatchesUp(t, pin, from, to - 1);
      RunKeepsInv(t, pin, to - 1);
      StepUsesWork(t.states[to - 1], t.actions[to - 1]);
    }
  }

  /** No schedule without edges is longer than Work, and one that cannot be extended ends with
      the pin's level published. */
  lemma SettlesOnThePin(t: Trace, pin: bool, from: nat, to: nat)
    requires IsRun(t, pin) && from <= to < |t.states|
    requires forall i :: from <= i < to ==> t.actions[i] != Edge
    ensures to - from <= Work(t.states[from])
    ensures (forall a :: a != Edge ==> !Enabled(t.states[to], a)) ==>
              var s := t.states[to]; s.published != [] && s.published[|s.published| - 1] == s.pin
  {
    CatchesUp(t, pin, from, to);
    RunKeepsInv(t, pin, to);
    if forall a :: a != Edge ==> !Enabled(t.states[to], a) {
      NeverStuck(t.states[to]);
    }
  }
}
