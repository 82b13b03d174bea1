/** The runtime's global struct.  Each method performs one atomic access of one of its threads. */
module RuntimeObject {
  import opened RuntimeSteps

  class Runtime {
    var mode: Mode
    var producers: U32
    var threads: seq<Producer>
    var queue: seq<Command>
    var stopRequested: bool
    var activated: bool
    var runGeneration: U32
    var parkedGeneration: U32
    var workerGeneration: U32
    var worker: Worker
    var controller: Controller
    var epoch: U32
    var resetGeneration: U32
    var appliedReset: U32
    var table: seq<Command>
    var session: nat
    var resets: nat

    function View(): State
      reads this
    {
      State(mode, producers, threads, queue, stopRequested, activated, runGeneration, parkedGeneration,
            workerGeneration, worker, controller, epoch, resetGeneration, appliedReset, table, session, resets)
    }

    constructor (threadCount: nat)
      ensures View() == Initial(threadCount)
    {
      mode, producers, threads, queue := Stopped, 0, seq(threadCount, i => Idle), [];
      stopRequested, activated, runGeneration, parkedGeneration := false, false, 0, 0;
      workerGeneration, worker, controller, epoch := 0, Parked, Resting, 0;
      resetGeneration, appliedReset, table, session, resets := 0, 0, [], 0, 0;
    }

    /** The first load of the state in producer_acquire. */
    method ProducerLooks(i: nat)
      requires Enabled(View(), FirstCheck(i))
      modifies this
      ensures View() == Step(old(View()), FirstCheck(i))
    {
      threads := threads[i := if mode == Open then SawOpen(threads[i].job) else Idle];
    }

    method ProducerCounts(i: nat)
      requires Enabled(View(), Count(i))
      modifies this
      ensures View() == Step(old(View()), Count(i))
    {
      producers := (producers + 1) % TWO_32;
      threads := threads[i := Counted(threads[i].job)];
    }

    /** The second load of the state. */
    method ProducerLooksAgain(i: nat)
      requires Enabled(View(), SecondCheck(i))
      modifies this
      ensures View() == Step(old(View()), SecondCheck(i))
    {
      threads := threads[i := if mode == Open then Holding(threads[i].job) else Undoing];
    }

    method ProducerBacksOut(i: nat)
      requires Enabled(View(), Undo(i))
      modifies this
      ensures View() == Step(old(View()), Undo(i))
    {
      producers := (producers - 1) % TWO_32;
      threads := threads[i := Idle];
    }

    method ProducerReleases(i: nat)
      requires Enabled(View(), Release(i))
      modifies this
      ensures View() == Step(old(View()), Release(i))
    {
      producers := (producers - 1) % TWO_32;
      threads := threads[i := Idle];
    }

    /** The event limit of enqueue_command, and the send to either end of the queue. */
    method ProducerEnqueues(i: nat)
      requires Enabled(View(), WorkOn(i))
      requires (threads[i].Holding? || threads[i].Sending?) && threads[i].job.Enqueue?
      modifies this
      ensures View() == Step(old(View()), WorkOn(i))
    {
      var command, front := threads[i].job.command, threads[i].job.front;
      if threads[i].Holding? {
        if command.isEvent && |queue| >= EVENT_QUEUE_LIMIT {
          threads := threads[i := Finished];
        } else {
          threads := threads[i := Sending(Enqueue(command, front))];
        }
      } else {
        if |queue| < COMMAND_QUEUE_LENGTH {
          queue := if front then [command] + queue else queue + [command];
        }
        threads := threads[i := Finished];
      }
    }

    /** The increments of vehicle_sensor_model_runtime_reset. */
    method ProducerResets(i: nat)
      requires Enabled(View(), WorkOn(i))
      requires threads[i] == Holding(Reset) || threads[i].ResetHalfDone?
      modifies this
      ensures View() == Step(old(View()), WorkOn(i))
    {
      if threads[i].Holding? {
        epoch := (epoch + 1) % TWO_32;
        resets := resets + 1;
        threads := threads[i := ResetHalfDone];
      } else {
        resetGeneration := (resetGeneration + 1) % TWO_32;
        threads := threads[i := Finished];
      }
    }

    method WorkerLatches()
      modifies this
      ensures View() == Latched(old(View()))
    {
      if resetGeneration != appliedReset {
        appliedReset := resetGeneration;
        table := [];
      }
    }

    method WorkerMovesOn()
      requires WorkerEnabled(View())
      modifies this
      ensures View() == WorkerStep(old(View()))
    {
      hide Latched;
      match worker {
        case Parked =>
          workerGeneration := runGeneration;
          worker := AwaitingActivation;
        case AwaitingActivation => worker := LoopHead;
        case LoopHead => worker := if stopRequested then Draining else Latching(0);
        case Latching(n) =>
          WorkerLatches();
          worker := if n < COMMAND_QUEUE_LENGTH then CheckingStop(n) else LoopHead;
        case CheckingStop(n) => worker := if stopRequested then Latching(COMMAND_QUEUE_LENGTH) else Receiving(n);
        case Receiving(n) =>
          if queue == [] {
            worker := Latching(COMMAND_QUEUE_LENGTH);
          } else {
            worker := CheckingEpoch(queue[0], n);
            queue := queue[1..];
          }
        case CheckingEpoch(command, n) =>
          worker := if command.epoch == epoch then Executing(command, n) else Latching(n + 1);
        case Executing(command, n) =>
          table := table + [command];
          worker := Latching(n + 1);
        case Draining =>
          queue := [];
          worker := Parking;
        case Parking =>
          parkedGeneration := workerGeneration;
          worker := Parked;
      }
    }

    method ClearCounters()
      modifies this
      ensures View() == old(View()).(producers := 0, resetGeneration := 0, appliedReset := 0, resets := 0)
    {
      producers, resetGeneration, appliedReset, resets := 0, 0, 0, 0;
    }

    method ClearFlags()
      modifies this
      ensures View() == old(View()).(queue := [], table := [], activated := false, stopRequested := false)
    {
      queue, table, activated, stopRequested := [], [], false, false;
    }

    /** reset_runtime_session. */
    method ResetSession()
      requires Enabled(View(), StartReset)
      modifies this
      ensures View() == Step(old(View()), StartReset)
    {
      ClearFlags();
      ClearCounters();
      controller, session, epoch := SessionReset, session + 1, (runGeneration + 1) % TWO_32;
    }

    method StoreGeneration()
      requires Enabled(View(), StartArm)
      modifies this
      ensures View() == Step(old(View()), StartArm)
    {
      controller, runGeneration := Armed, (runGeneration + 1) % TWO_32;
    }

    method OpenSession()
      requires Enabled(View(), StartOpen)
      modifies this
      ensures View() == Step(old(View()), StartOpen)
    {
      controller, mode := Resting, Open;
    }

    method BeginStop()
      requires Enabled(View(), StopBegin)
      modifies this
      ensures View() == Step(old(View()), StopBegin)
    {
      if mode == Open { mode := Closing; }
      controller := AwaitingProducers;
    }

    method RequestWorkerStop()
      requires Enabled(View(), StopRequest)
      modifies this
      ensures View() == Step(old(View()), StopRequest)
    {
      stopRequested := true;
      controller := AwaitingParked;
    }

    method FinishStop()
      requires Enabled(View(), StopDone)
      modifies this
      ensures View() == Step(old(View()), StopDone)
    {
      mode, controller := Stopped, Resting;
    }
  }
}
