/** The limit on events keeps room in the runtime's queue for acknowledgements and requests. */
module RuntimeRoom {
  import opened RuntimeEpochs
  import opened RuntimeHistory
  import opened RuntimeSafety
  import opened RuntimeSteps

  function Events(queue: seq<Command>): (n: nat)
    ensures n <= |queue|
  {
    if queue == [] then 0 else Events(queue[..|queue| - 1]) + if queue[|queue| - 1].isEvent then 1 else 0
  }

  /** The thread has passed the limit with an event and not sent it yet. */
  predicate SendsEvent(p: Producer) { p.Sending? && p.job.Enqueue? && p.job.command.isEvent }

  function OnTheWay(threads: seq<Producer>): (n: nat)
    ensures n <= |threads|
  {
    if threads == [] then 0 else OnTheWay(threads[..|threads| - 1]) + if SendsEvent(threads[|threads| - 1]) then 1 else 0
  }

  lemma {:induction false} EventsJoin(a: seq<Command>, b: seq<Command>)
    ensures Events(a + b) == Events(a) + Events(b)
  {
    if b == [] {
      assert a + b == a;
    } else {
      EventsJoin(a, b[..|b| - 1]);
      assert (a + b)[..|a + b| - 1] == a + b[..|b| - 1];
    }
  }

  lemma {:induction false} OnTheWayUpdate(threads: seq<Producer>, i: nat, p: Producer)
    requires i < |threads|
    ensures OnTheWay(threads[i := p]) == OnTheWay(threads) - (if SendsEvent(threads[i]) then 1 else 0) + if SendsEvent(p) then 1 else 0
  {
    var n := |threads| - 1;
    if i == n {
      assert threads[i := p][..n] == threads[..n];
    } else {
      assert threads[i := p][..n] == threads[..n][i := p];
      OnTheWayUpdate(threads[..n], i, p);
    }
  }

  lemma {:induction false} NotAllOnTheWay(threads: seq<Producer>, i: nat)
    requires i < |threads| && !SendsEvent(threads[i])
    ensures OnTheWay(threads) < |threads|
  {
    if i < |threads| - 1 { NotAllOnTheWay(threads[..|threads| - 1], i); }
  }

  /** Events in the queue and on their way take at most the limit and one place per other thread. */
  ghost predicate Roomy(s: State) { Events(s.queue) + OnTheWay(s.threads) <= 23 + |s.threads| }

  /** How the acting thread stands to the limit before and after. */
  lemma ThreadMeetsLimit(s: State, a: Action)
    requires IsThreadAction(a) && Enabled(s, a)
    ensures var p, q := s.threads[a.thread], ThreadStep(s, a).threads[a.thread];
            && (SendsEvent(q) ==> !SendsEvent(p) && |s.queue| <= 23 && ToFront(s, a) == [] && ToBack(s, a) == [])
            && (Events(ToFront(s, a)) + Events(ToBack(s, a)) <= if SendsEvent(p) then 1 else 0)
  {
    SentEvents(s, a);
    if a.WorkOn? {
      WorkMeetsLimit(s, a.thread);
      hide WorkOnStep, EntersQueue, Events;
    } else {
      hide EntersQueue, Events;
    }
  }

  lemma SentEvents(s: State, a: Action)
    ensures Events(ToFront(s, a)) + Events(ToBack(s, a)) ==
            if EntersQueue(s, a) && s.threads[a.thread].job.command.isEvent then 1 else 0
  {
    if EntersQueue(s, a) { assert [s.threads[a.thread].job.command][..0] == []; }
  }

  lemma WorkMeetsLimit(s: State, i: nat)
    requires i < |s.threads| && AtWork(s.threads[i])
    ensures var q := WorkOnStep(s, i).threads;
            && |q| == |s.threads|
            && (SendsEvent(q[i]) ==> s.threads[i].Holding? && |s.queue| <= 23)
  {
    hide Enqueued;
  }

  lemma StepKeepsRoom(s: State, a: Action)
    requires Enabled(s, a) && Roomy(s)
    ensures Roomy(Step(s, a)) && |Step(s, a).threads| == |s.threads|
  {
    hide ThreadStep, WorkerStep, ControllerStep, Events, OnTheWay, ToFront, ToBack, Taken, Discarded, SendsEvent;
    if IsThreadAction(a) {
      ThreadMoves(s, a);
      ThreadMovesQueue(s, a);
      ThreadMeetsLimit(s, a);
      EventsJoin(ToFront(s, a), s.queue);
      EventsJoin(ToFront(s, a) + s.queue, ToBack(s, a));
      OnTheWayUpdate(s.threads, a.thread, ThreadStep(s, a).threads[a.thread]);
      if !SendsEvent(s.threads[a.thread]) { NotAllOnTheWay(s.threads, a.thread); }
    } else if a.WorkerMoves? {
      WorkerLeavesRest(s);
      WorkerMovesQueue(s);
      EventsJoin(Taken(s, a), Discarded(s, a));
      EventsJoin(Taken(s, a) + Discarded(s, a), WorkerStep(s).queue);
    } else {
      ControllerMovesQueue(s, a);
      ControllerLeavesThreads(s, a);
      EventsJoin(Discarded(s, a), ControllerStep(s, a).queue);
    }
  }

  lemma ControllerLeavesThreads(s: State, a: Action)
    requires !IsThreadAction(a) && !a.WorkerMoves? && Enabled(s, a)
    ensures ControllerStep(s, a).threads == s.threads
  {
    hide Enabled;
  }

  /** In every interleaving the queue never holds more events than the limit lets in and one more for
      every other producer thread; the rest of its 32 places stays for acknowledgements and requests. */
  lemma {:induction false} EventsLeaveRoom(t: Trace, threadCount: nat, n: nat)
    requires IsRun(t, threadCount) && n < |t.states|
    ensures Roomy(t.states[n]) && |t.states[n].threads| == threadCount
    ensures Events(t.states[n].queue) <= 23 + threadCount
  {
    hide Step, Enabled;
    if n == 0 {
      InitialHand(threadCount);
    } else {
      EventsLeaveRoom(t, threadCount, n - 1);
      StepKeepsRoom(t.states[n - 1], t.actions[n - 1]);
    }
  }

  /** Only an event can meet the limit: a producer goes on to send its command unless it is an event and
      24 commands are waiting, and what is sent enters unless 32 are. */
  lemma OnlyTheLimitRefuses(s: State, i: nat)
    requires i < |s.threads| && (s.threads[i].Holding? || s.threads[i].Sending?) && s.threads[i].job.Enqueue?
    ensures var p, u := s.threads[i], Step(s, WorkOn(i));
            && (p.Holding? ==> (u.threads[i] == Sending(p.job) <==> !(p.job.command.isEvent && |s.queue| >= 24)) && u.queue == s.queue)
            && (p.Sending? ==> |u.queue| == (if |s.queue| < 32 then |s.queue| + 1 else |s.queue|))
  {
    ThreadMovesQueue(s, WorkOn(i));
  }
}
