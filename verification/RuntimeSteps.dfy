/** The vehicle-sensor model runtime: producers guarded by a double-checked counter, a worker with
    parked generations, and the start and stop calls of the one task that owns the lifecycle.
    Each action is one atomic access; the threads interleave freely. */
module RuntimeSteps {

  const TWO_32: nat := 0x1_0000_0000
  const COMMAND_QUEUE_LENGTH: nat := 32
  const EVENT_QUEUE_LIMIT: nat := 24

  type U32 = n: int | 0 <= n < TWO_32 witness 0

  datatype Mode = Stopped | Open | Closing

  /** A queued command.  Besides its epoch stamp it remembers, for the proofs only, the session
      and the number of resets of that session at the moment of stamping. */
  datatype Command = Command(epoch: U32, isEvent: bool, session: nat, resets: nat)

  datatype Job = Enqueue(command: Command, front: bool) | Reset | Configure

  datatype Producer =
    | Idle
    | Stamped(job: Job)
    | SawOpen(job: Job)
    | Counted(job: Job)
    | Undoing
    | Holding(job: Job)
    | Sending(job: Job)
    | ResetHalfDone
    | Finished

  datatype Worker =
    | Parked
    | AwaitingActivation
    | LoopHead
    | Latching(count: nat)
    | CheckingStop(count: nat)
    | Receiving(count: nat)
    | CheckingEpoch(command: Command, count: nat)
    | Executing(command: Command, count: nat)
    | Draining
    | Parking

  datatype Controller = Resting | SessionReset | Armed | AwaitingProducers | SawNoProducers | AwaitingParked | SawParked

  datatype State = State(
    mode: Mode,
    producers: U32,
    threads: seq<Producer>,
    queue: seq<Command>,
    stopRequested: bool,
    activated: bool,
    runGeneration: U32,
    parkedGeneration: U32,
    workerGeneration: U32,
    worker: Worker,
    controller: Controller,
    epoch: U32,
    resetGeneration: U32,
    appliedReset: U32,
    table: seq<Command>,
    session: nat,
    resets: nat
  )

  function Initial(threadCount: nat): State {
    State(Stopped, 0, seq(threadCount, i => Idle), [], false, false, 0, 0, 0, Parked, Resting, 0, 0, 0, [], 0, 0)
  }

  datatype Action =
    | Stamp(thread: nat, isEvent: bool, front: bool)
    | BeginJob(thread: nat, job: Job)
    | FirstCheck(thread: nat)
    | Count(thread: nat)
    | SecondCheck(thread: nat)
    | Undo(thread: nat)
    | WorkOn(thread: nat)
    | Release(thread: nat)
    | WorkerMoves
    | StartReset
    | StartArm
    | StartOpen
    | Activate
    | StopBegin
    | StopSeesNoProducers
    | StopRequest
    | StopSeesParked
    | StopDone
    | StopTimesOut

  function Increment(n: U32): U32 { (n + 1) % TWO_32 }
  function Decrement(n: U32): U32 { (n - 1) % TWO_32 }

  predicate AtWork(p: Producer) { p.Holding? || p.Sending? || p.ResetHalfDone? }

  predicate ThreadEnabled(p: Producer, a: Action) {
    match a
    case Stamp(_, _, _) => p.Idle?
    case BeginJob(_, job) => p.Idle? && !job.Enqueue?
    case FirstCheck(_) => p.Stamped?
    case Count(_) => p.SawOpen?
    case SecondCheck(_) => p.Counted?
    case Undo(_) => p.Undoing?
    case WorkOn(_) => AtWork(p)
    case Release(_) => p.Finished?
    case _ => false
  }

  predicate IsThreadAction(a: Action) {
    a.Stamp? || a.BeginJob? || a.FirstCheck? || a.Count? || a.SecondCheck? || a.Undo? || a.WorkOn? || a.Release?
  }

  predicate WorkerEnabled(s: State) {
    match s.worker
    case Parked => s.runGeneration != s.workerGeneration
    case AwaitingActivation => s.activated || s.stopRequested
    case _ => true
  }

  predicate ControllerEnabled(s: State, a: Action) {
    match a
    case StartReset =>
      s.controller.Resting? && s.mode.Stopped? && s.parkedGeneration == s.runGeneration && s.runGeneration < TWO_32 - 1
    case StartArm => s.controller.SessionReset?
    case StartOpen => s.controller.Armed?
    case Activate => s.controller.Resting? && s.mode.Open?
    case StopBegin => s.controller.Resting? && !s.mode.Stopped?
    case StopSeesNoProducers => s.controller.AwaitingProducers? && s.producers == 0
    case StopRequest => s.controller.SawNoProducers?
    case StopSeesParked => s.controller.AwaitingParked? && s.parkedGeneration == s.runGeneration
    case StopDone => s.controller.SawParked?
    case StopTimesOut => s.controller.AwaitingProducers? || s.controller.AwaitingParked?
    case _ => false
  }

  predicate Enabled(s: State, a: Action) {
    if IsThreadAction(a) then a.thread < |s.threads| && ThreadEnabled(s.threads[a.thread], a)
    else if a.WorkerMoves? then WorkerEnabled(s)
    else ControllerEnabled(s, a)
  }

  function Moved(s: State, i: nat, p: Producer): State
    requires i < |s.threads|
  {
    s.(threads := s.threads[i := p])
  }

  predicate Accepts(s: State, command: Command) {
    !(command.isEvent && |s.queue| >= EVENT_QUEUE_LIMIT)
  }

  function Enqueued(queue: seq<Command>, command: Command, front: bool): seq<Command> {
    if |queue| >= COMMAND_QUEUE_LENGTH then queue
    else if front then [command] + queue
    else queue + [command]
  }

  /** What a producer does between acquire and release. */
  function WorkOnStep(s: State, i: nat): State
    requires i < |s.threads| && AtWork(s.threads[i])
  {
    match s.threads[i]
    case Holding(Enqueue(command, front)) =>
      Moved(s, i, if Accepts(s, command) then Sending(Enqueue(command, front)) else Finished)
    case Sending(Enqueue(command, front)) => Moved(s.(queue := Enqueued(s.queue, command, front)), i, Finished)
    case Holding(Reset) => Moved(s.(epoch := Increment(s.epoch), resets := s.resets + 1), i, ResetHalfDone)
    case ResetHalfDone => Moved(s.(resetGeneration := Increment(s.resetGeneration)), i, Finished)
    case _ => Moved(s, i, Finished)
  }

  function ThreadStep(s: State, a: Action): State
    requires IsThreadAction(a) && Enabled(s, a)
  {
    var i := a.thread;
    match a
    case Stamp(_, isEvent, front) =>
      Moved(s, i, Stamped(Enqueue(Command(s.epoch, isEvent, s.session, s.resets), front)))
    case BeginJob(_, job) => Moved(s, i, Stamped(job))
    case FirstCheck(_) => Moved(s, i, if s.mode.Open? then SawOpen(s.threads[i].job) else Idle)
    case Count(_) => Moved(s.(producers := Increment(s.producers)), i, Counted(s.threads[i].job))
    case SecondCheck(_) => Moved(s, i, if s.mode.Open? then Holding(s.threads[i].job) else Undoing)
    case Undo(_) => Moved(s.(producers := Decrement(s.producers)), i, Idle)
    case WorkOn(_) => WorkOnStep(s, i)
    case Release(_) => Moved(s.(producers := Decrement(s.producers)), i, Idle)
  }

  /** apply_latches, as far as resets go: a new reset generation clears the delivery table. */
  function Latched(s: State): State {
    if s.resetGeneration != s.appliedReset then s.(appliedReset := s.resetGeneration, table := []) else s
  }

  function WorkerStep(s: State): State
    requires WorkerEnabled(s)
  {
    match s.worker
    case Parked => s.(workerGeneration := s.runGeneration, worker := AwaitingActivation)
    case AwaitingActivation => s.(worker := LoopHead)
    case LoopHead => s.(worker := if s.stopRequested then Draining else Latching(0))
    case Latching(n) => Latched(s).(worker := if n < COMMAND_QUEUE_LENGTH then CheckingStop(n) else LoopHead)
    case CheckingStop(n) => s.(worker := if s.stopRequested then Latching(COMMAND_QUEUE_LENGTH) else Receiving(n))
    case Receiving(n) =>
      if s.queue == [] then s.(worker := Latching(COMMAND_QUEUE_LENGTH))
      else s.(worker := CheckingEpoch(s.queue[0], n), queue := s.queue[1..])
    case CheckingEpoch(command, n) =>
      s.(worker := if command.epoch == s.epoch then Executing(command, n) else Latching(n + 1))
    case Executing(command, n) => s.(worker := Latching(n + 1), table := s.table + [command])
    case Draining => s.(worker := Parking, queue := [])
    case Parking => s.(worker := Parked, parkedGeneration := s.workerGeneration)
  }

  function ControllerStep(s: State, a: Action): State
    requires !IsThreadAction(a) && !a.WorkerMoves? && Enabled(s, a)
  {
    match a
    case StartReset =>
      s.(controller := SessionReset, queue := [], producers := 0, epoch := Increment(s.runGeneration),
         resetGeneration := 0, appliedReset := 0, table := [], activated := false, stopRequested := false,
         session := s.session + 1, resets := 0)
    case StartArm => s.(controller := Armed, runGeneration := Increment(s.runGeneration))
    case StartOpen => s.(controller := Resting, mode := Open)
    case Activate => s.(activated := true)
    case StopBegin => s.(controller := AwaitingProducers, mode := if s.mode.Open? then Closing else s.mode)
    case StopSeesNoProducers => s.(controller := SawNoProducers)
    case StopRequest => s.(controller := AwaitingParked, stopRequested := true)
    case StopSeesParked => s.(controller := SawParked)
    case StopDone => s.(controller := Resting, mode := Stopped)
    case StopTimesOut => s.(controller := Resting)
  }

  function Step(s: State, a: Action): (u: State)
    requires Enabled(s, a)
    ensures |u.threads| == |s.threads|
  {
    if IsThreadAction(a) then ThreadStep(s, a)
    else if a.WorkerMoves? then WorkerStep(s)
    else ControllerStep(s, a)
  }
}
