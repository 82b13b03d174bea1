/** The retry scheduler of the provisioning scan recovery: drains of the journal and retry timers,
    fenced by connection generations. */
module RecoveryPublisher {
  import opened Options

  datatype Bounds = Bounds(initial: nat, max: nat)

  /** boundedRecoveryRetryDelays accepts these; anything else throws in the constructor. */
  predicate Bounded(b: Bounds) { 1 <= b.initial <= b.max }

  /** A connected drain; what it read of the journal, once it has: whether a retry is needed. */
  datatype Run = Run(id: nat, generation: nat, retry: Option<bool>)

  /** The fields of the publisher. waits records, for the proofs only, the delays armed since the
      backoff was last reset. */
  datatype Publisher = Publisher(
    connected: bool,
    generation: nat,
    delay: nat,
    timer: Option<nat>,
    drain: Option<Run>,
    requested: bool,
    waits: seq<nat>
  )

  /** The publisher with its surroundings: abandoned runs of closed connections, whether the journal
      holds terminals, whether one was stored without scheduleRetry having been called for it yet,
      and the acknowledgements between their two awaits, by what they read. */
  datatype World = World(
    p: Publisher,
    abandoned: set<Run>,
    nextId: nat,
    journal: bool,
    owed: bool,
    reading: nat,
    readEmpty: nat,
    readFull: nat
  )

  function Fresh(b: Bounds): World {
    World(Publisher(false, 0, b.initial, None, None, false, []), {}, 0, false, false, 0, 0, 0)
  }

  function Min(a: nat, b: nat): nat { if a <= b then a else b }

  function Reset(p: Publisher, b: Bounds): Publisher { p.(delay := b.initial, waits := []) }

  predicate IsCurrent(p: Publisher, generation: nat) { p.connected && p.generation == generation }

  /** armRetryTimer. */
  function Armed(p: Publisher, generation: nat, b: Bounds): Publisher {
    if p.timer.Some? || p.drain.Some? || !IsCurrent(p, generation) then p
    else p.(timer := Some(generation), delay := Min(p.delay * 2, b.max), waits := p.waits + [p.delay])
  }

  /** runConnectedDrain, up to its first await. */
  function Draining(p: Publisher, generation: nat, id: nat): Publisher {
    if (p.drain.Some? && p.drain.value.generation == generation) || !IsCurrent(p, generation) then p
    else p.(requested := false, drain := Some(Run(id, generation, None)))
  }

  function Connected(p: Publisher, id: nat, b: Bounds): Publisher {
    if p.connected then p
    else
      var q := Reset(p.(connected := true, generation := p.generation + 1, requested := false, timer := None), b);
      Draining(q, q.generation, id)
  }

  function Disconnected(p: Publisher, b: Bounds): Publisher {
    Reset(p.(connected := false, generation := p.generation + 1, requested := false, timer := None, drain := None), b)
  }

  function Requested(p: Publisher, b: Bounds): Publisher {
    if !p.connected then p
    else if p.drain.Some? then p.(requested := true)
    else Armed(p.(requested := true), p.generation, b)
  }

  /** What follows the awaits of a connected drain. */
  function Settled(p: Publisher, run: Run, retry: bool, b: Bounds): Publisher {
    if p.drain.None? || p.drain.value.id != run.id then p
    else
      var q := p.(drain := None);
      if !IsCurrent(q, run.generation) then q
      else if retry || q.requested then Armed(q, run.generation, b)
      else Reset(q, b)
  }

  function Fired(p: Publisher, id: nat): Publisher {
    if p.timer.None? then p
    else
      var q := p.(timer := None);
      if IsCurrent(q, p.timer.value) then Draining(q, p.timer.value, id) else q
  }

  /** What follows the second await of an acknowledgement. */
  function Acknowledged(p: Publisher, empty: bool, b: Bounds): Publisher {
    if empty then Reset(p.(requested := false, timer := None), b) else p
  }

  /** Terminals are recovered before the first connection, or stored while running, and a store is
      followed by scheduleRetry.  A drain settles with what it read, an acknowledgement with its own
      reading. */
  datatype Event =
    | Connect | Disconnect | ScheduleRetry | TimerFires
    | DrainReads(failed: bool)
    | DrainSettles
    | AbandonedSettles(run: Run, retry: bool)
    | TerminalRecovered
    | TerminalStored
    | TerminalAcknowledged(last: bool)
    | AckReads
    | AckFinishes(empty: bool)

  function Step(w: World, e: Event, b: Bounds): World {
    match e
    case Connect => w.(p := Connected(w.p, w.nextId, b), nextId := w.nextId + 1)
    case Disconnect =>
      w.(p := Disconnected(w.p, b), abandoned := if w.p.drain.Some? then w.abandoned + {w.p.drain.value} else w.abandoned)
    case ScheduleRetry => w.(p := Requested(w.p, b), owed := false)
    case TimerFires => w.(p := Fired(w.p, w.nextId), nextId := w.nextId + 1)
    case DrainReads(failed) =>
      if w.p.drain.Some? && w.p.drain.value.retry.None?
      then w.(p := w.p.(drain := Some(w.p.drain.value.(retry := Some(failed || w.journal))))) else w
    case DrainSettles =>
      if w.p.drain.Some? && w.p.drain.value.retry.Some?
      then w.(p := Settled(w.p, w.p.drain.value, w.p.drain.value.retry.value, b)) else w
    case AbandonedSettles(run, retry) =>
      if run in w.abandoned then w.(p := Settled(w.p, run, retry, b), abandoned := w.abandoned - {run}) else w
    case TerminalRecovered => if w.p.connected then w else w.(journal := true)
    case TerminalStored => w.(journal := true, owed := true)
    case TerminalAcknowledged(last) =>
      w.(journal := w.journal && !last, reading := w.reading + if w.p.connected then 1 else 0)
    case AckReads =>
      if w.reading == 0 then w
      else if w.journal then w.(reading := w.reading - 1, readFull := w.readFull + 1)
      else w.(reading := w.reading - 1, readEmpty := w.readEmpty + 1)
    case AckFinishes(empty) =>
      if empty then (if w.readEmpty == 0 then w else w.(readEmpty := w.readEmpty - 1, p := Acknowledged(w.p, true, b)))
      else if w.readFull == 0 then w else w.(readFull := w.readFull - 1, p := Acknowledged(w.p, false, b))
  }

  function After(events: seq<Event>, b: Bounds): World {
    if events == [] then Fresh(b) else Step(After(events[..|events| - 1], b), events[|events| - 1], b)
  }

  // ----- Ownership of the retry -----

  predicate Owned(p: Publisher) {
    && !(p.timer.Some? && p.drain.Some?)
    && (!p.connected ==> p.timer.None? && p.drain.None?)
    && (p.timer.Some? ==> p.timer.value == p.generation)
    && (p.drain.Some? ==> p.drain.value.generation == p.generation)
  }

  ghost predicate Inv(w: World) {
    && Owned(w.p)
    && (w.p.drain.Some? ==> w.p.drain.value.id < w.nextId)
    && (forall run :: run in w.abandoned ==> run.id < w.nextId && run.generation < w.p.generation)
    && (forall run :: run in w.abandoned && w.p.drain.Some? ==> run.id != w.p.drain.value.id)
  }

  lemma StepKeepsInv(w: World, e: Event, b: Bounds)
    requires Inv(w)
    ensures Inv(Step(w, e, b))
  {
    match e {
      case Connect =>
      case Disconnect =>
      case ScheduleRetry =>
      case TimerFires =>
      case DrainReads(failed) =>
      case DrainSettles =>
      case AbandonedSettles(run, retry) =>
      case _ =>
    }
  }

  lemma {:induction false} AlwaysInv(events: seq<Event>, b: Bounds)
    ensures Inv(After(events, b))
  {
    if events != [] {
      AlwaysInv(events[..|events| - 1], b);
      StepKeepsInv(After(events[..|events| - 1], b), events[|events| - 1], b);
    }
  }

  /** Never both a connected drain and a retry timer, neither while disconnected, and both belong to
      the current connection. */
  lemma OneOwner(events: seq<Event>, b: Bounds)
    ensures Owned(After(events, b).p)
  {
    AlwaysInv(events, b);
  }

  /** The completion of a drain of an older connection changes nothing. */
  lemma LateCompletionIsFenced(events: seq<Event>, run: Run, retry: bool, b: Bounds)
    requires run in After(events, b).abandoned
    ensures run.generation < After(events, b).p.generation
    ensures Step(After(events, b), AbandonedSettles(run, retry), b).p == After(events, b).p
  {
    AlwaysInv(events, b);
    hide After;
  }

  // ----- Backoff -----

  function Power(k: nat): (r: nat)
    ensures r >= 1
  {
    if k == 0 then 1 else 2 * Power(k - 1)
  }

  function Backoff(k: nat, b: Bounds): nat { Min(b.initial * Power(k), b.max) }

  ghost predicate OnSchedule(p: Publisher, b: Bounds) {
    p.delay == Backoff(|p.waits|, b) && forall k :: 0 <= k < |p.waits| ==> p.waits[k] == Backoff(k, b)
  }

  lemma Doubled(k: nat, b: Bounds)
    ensures Min(Backoff(k, b) * 2, b.max) == Backoff(k + 1, b)
  {
    var x := b.initial * Power(k);
    assert b.initial * Power(k + 1) == x * 2;
  }

  lemma StepKeepsSchedule(w: World, e: Event, b: Bounds)
    requires OnSchedule(w.p, b) && Bounded(b)
    ensures OnSchedule(Step(w, e, b).p, b)
  {
    assert Backoff(0, b) == b.initial;
    Doubled(|w.p.waits|, b);
    hide Backoff;
    match e {
      case Connect =>
      case Disconnect =>
      case ScheduleRetry =>
      case TimerFires =>
      case DrainSettles =>
      case AbandonedSettles(run, retry) =>
      case _ =>
    }
  }

  /** The k-th timer armed since the backoff was last reset waits initial times two to the k, capped. */
  lemma {:induction false} BackoffDoubles(events: seq<Event>, b: Bounds)
    requires Bounded(b)
    ensures OnSchedule(After(events, b).p, b)
  {
    if events != [] {
      BackoffDoubles(events[..|events| - 1], b);
      StepKeepsSchedule(After(events[..|events| - 1], b), events[|events| - 1], b);
    }
  }

  // ----- No stored terminal is stranded -----

  predicate DrainWillRetry(p: Publisher) { p.drain.Some? && (p.drain.value.retry != Some(false) || p.requested) }

  /** While connected, a stored terminal has a retry timer, a drain that will see it or arm a timer,
      or a scheduleRetry still to come. */
  predicate Covered(w: World) { w.p.connected && w.journal && !w.owed ==> w.p.timer.Some? || DrainWillRetry(w.p) }

  /** An acknowledgement that read the journal empty finds it filled when it clears the timer. */
  predicate Strands(w: World) {
    && w.readEmpty > 0 && w.p.connected && w.journal && !w.owed
    && (w.p.drain.None? || w.p.drain.value.retry == Some(false))
  }

  /** Every step keeps the stored terminals covered, except exactly an acknowledgement that acts on a
      reading the journal has outgrown. */
  lemma CoverageIsLostExactly(w: World, e: Event, b: Bounds)
    requires Inv(w) && Covered(w)
    ensures Covered(Step(w, e, b)) <==> !(e == AckFinishes(true) && Strands(w))
  {
    match e {
      case Connect =>
      case Disconnect =>
      case ScheduleRetry =>
      case TimerFires =>
      case DrainReads(failed) =>
      case DrainSettles =>
      case AbandonedSettles(run, retry) =>
      case AckFinishes(empty) =>
      case _ =>
    }
  }

  /** The journal runs one operation at a time, and an acknowledgement goes on before the operation
      after its reading settles: between an empty reading and what follows it a terminal may be
      stored, but its scheduleRetry is still to come, and none is recovered. */
  predicate InTurn(w: World, e: Event) {
    w.readEmpty > 0 ==> (e.ScheduleRetry? ==> !w.journal) && (e.TerminalRecovered? ==> w.p.connected || w.owed)
  }

  ghost predicate JournalInTurn(events: seq<Event>, b: Bounds) {
    forall i :: 0 <= i < |events| ==> InTurn(After(events[..i], b), events[i])
  }

  /** A reading that found the journal empty is still true, or a scheduleRetry is still to come. */
  predicate ReadingsHold(w: World) { w.readEmpty > 0 ==> !w.journal || w.owed }

  lemma StepKeepsReadings(w: World, e: Event, b: Bounds)
    requires ReadingsHold(w) && InTurn(w, e)
    ensures ReadingsHold(Step(w, e, b))
  {
    match e {
      case AckReads =>
      case AckFinishes(empty) =>
      case _ =>
    }
  }

  /** With the journal's operations in turn, no stored terminal is ever stranded. */
  lemma {:induction false} NothingIsStranded(events: seq<Event>, b: Bounds)
    requires JournalInTurn(events, b)
    ensures Covered(After(events, b)) && ReadingsHold(After(events, b))
  {
    if events != [] {
      var n := |events| - 1;
      var before := After(events[..n], b);
      forall i | 0 <= i < n ensures InTurn(After(events[..n][..i], b), events[..n][i]) {
        assert events[..n][..i] == events[..i];
        assert InTurn(After(events[..i], b), events[i]);
      }
      NothingIsStranded(events[..n], b);
      AlwaysInv(events[..n], b);
      assert InTurn(before, events[n]);
      hide Inv, After, Step;
      StepKeepsReadings(before, events[n], b);
      CoverageIsLostExactly(before, events[n], b);
      assert After(events, b) == Step(before, events[n], b) by { LastStep(events, b); }
    }
  }

  lemma LastStep(events: seq<Event>, b: Bounds)
    requires events != []
    ensures After(events, b) == Step(After(events[..|events| - 1], b), events[|events| - 1], b)
  {
  }

  ghost predicate Reaches(events: seq<Event>, w: World, b: Bounds) { After(events, b) == w }

  lemma Take(events: seq<Event>, w: World, e: Event, b: Bounds) returns (longer: seq<Event>, next: World)
    requires Reaches(events, w, b)
    ensures next == Step(w, e, b) && Reaches(longer, next, b)
  {
    longer, next := events + [e], Step(w, e, b);
    assert longer[..|events|] == events;
  }

  /** The publisher relies on that turn: with a store and its scheduleRetry between an empty reading
      and what follows it, a terminal would be left without a retry.  The journal admits no such
      run. */
  lemma StaleAcknowledgementStrands(b: Bounds) returns (events: seq<Event>)
    requires Bounded(b)
    ensures var w := After(events, b);
            w.p.connected && w.journal && !w.owed && w.p.timer.None? && w.p.drain.None?
    ensures !JournalInTurn(events, b)
  {
    hide After;
    events := [];
    var w := Fresh(b);
    EmptyRun(b);
    events, w := Take(events, w, TerminalStored, b);
    events, w := Take(events, w, Connect, b);
    events, w := Take(events, w, ScheduleRetry, b);
    events, w := Take(events, w, DrainReads(false), b);
    events, w := Take(events, w, DrainSettles, b);
    events, w := Take(events, w, TerminalAcknowledged(true), b);
    events, w := Take(events, w, AckReads, b);
    events, w := Take(events, w, TerminalStored, b);
    events, w := Take(events, w, ScheduleRetry, b);
    events, w := Take(events, w, AckFinishes(true), b);
    if JournalInTurn(events, b) { NothingIsStranded(events, b); }
  }

  lemma EmptyRun(b: Bounds)
    ensures Reaches([], Fresh(b), b)
  {
  }

  // ----- The object -----

  class ProvisioningScanRecoveryPublisher {
    const bounds: Bounds
    var connected: bool
    var generation: nat
    var delay: nat
    var timer: Option<nat>
    var drain: Option<Run>
    var requested: bool
    ghost var waits: seq<nat>

    ghost function View(): Publisher
      reads this
    {
      Publisher(connected, generation, delay, timer, drain, requested, waits)
    }

    constructor (bounds: Bounds)
      requires Bounded(bounds)
      ensures View() == Fresh(bounds).p && this.bounds == bounds
    {
      this.bounds := bounds;
      connected, generation, delay, timer, drain, requested, waits := false, 0, bounds.initial, None, None, false, [];
    }

    method Backdown()
      modifies this`delay, this`waits
      ensures View() == Reset(old(View()), bounds)
    {
      delay := bounds.initial;
      waits := [];
    }

    method ArmRetryTimer(forGeneration: nat)
      modifies this`timer, this`delay, this`waits
      ensures View() == Armed(old(View()), forGeneration, bounds)
    {
      if timer.Some? || drain.Some? || !connected || generation != forGeneration { return; }
      waits := waits + [delay];
      delay := Min(delay * 2, bounds.max);
      timer := Some(forGeneration);
    }

    method RunConnectedDrain(forGeneration: nat, id: nat)
      modifies this`drain, this`requested
      ensures View() == Draining(old(View()), forGeneration, id)
    {
      if drain.Some? && drain.value.generation == forGeneration { return; }
      if !connected || generation != forGeneration { return; }
      requested := false;
      drain := Some(Run(id, forGeneration, None));
    }

    method Connect(id: nat)
      modifies this
      ensures View() == Connected(old(View()), id, bounds)
    {
      if connected { return; }
      connected := true;
      generation := generation + 1;
      Backdown();
      requested := false;
      timer := None;
      RunConnectedDrain(generation, id);
    }

    method ScheduleRetry()
      modifies this
      ensures View() == Requested(old(View()), bounds)
    {
      if !connected { return; }
      requested := true;
      if drain.Some? { return; }
      ArmRetryTimer(generation);
    }

    method FinishAcknowledgement(empty: bool)
      modifies this
      ensures View() == Acknowledged(old(View()), empty, bounds)
    {
      if empty {
        requested := false;
        Backdown();
        timer := None;
      }
    }

    method Disconnect()
      modifies this
      ensures View() == Disconnected(old(View()), bounds)
    {
      connected := false;
      generation := generation + 1;
      requested := false;
      Backdown();
      timer := None;
      drain := None;
    }

    method FinishDrain(run: Run, retry: bool)
      modifies this
      ensures View() == Settled(old(View()), run, retry, bounds)
    {
      if drain.None? || drain.value.id != run.id { return; }
      drain := None;
      if !connected || generation != run.generation { return; }
      if retry || requested { ArmRetryTimer(run.generation); } else { Backdown(); }
    }

    method TimerFires(id: nat)
      modifies this
      ensures View() == Fired(old(View()), id)
    {
      if timer.None? { return; }
      var armedFor := timer.value;
      timer := None;
      if connected && generation == armedFor { RunConnectedDrain(armedFor, id); }
    }
  }
}
