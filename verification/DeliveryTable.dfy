/** At-least-once delivery of vehicle-sensor events: sixteen slots with retry backoff, exact
    acknowledgements and a bounded sequence space. */
module DeliveryTable {

  const CAPACITY: nat := 16
  const MAX_RETRIES: nat := 6
  const UINT32_MAX: nat := 0xFFFF_FFFF
  const TWO_64: nat := 0x1_0000_0000_0000_0000
  const LONGEST_DELAY: nat := 8000

  type U32 = n: int | 0 <= n <= UINT32_MAX witness 0
  type Time = t: int | 0 <= t < TWO_64 witness 0

  datatype EventKind = Detected | Cleared
  datatype Packet = Packet(bootId: U32, sequence: U32, kind: EventKind, level: bool)
  datatype SendResult = SendOk | SendError | SendUnconfigured
  datatype SubmitResult = Submitted | Invalid | PendingFull | SequenceExhausted

  datatype Slot = Slot(occupied: bool, packet: Packet, retryDue: Time, retriesSent: nat)

  datatype Table = Table(
    bootId: U32,
    nextSequence: U32,
    sequenceExhausted: bool,
    levelValid: bool,
    level: bool,
    hasTransport: bool,
    pending: seq<Slot>,
    pendingFull: U32,
    retryExhausted: U32,
    sendErrors: U32,
    unconfiguredSends: U32,
    sequenceExhaustedCount: U32
  )

  /** What an operation did to individual events. */
  datatype Effect =
    | Accepted(sequence: U32, at: Time)
    | Sent(packet: Packet, at: Time, result: SendResult)
    | Exhausted(sequence: U32, at: Time)
    | Acknowledged(sequence: U32)
    | Discarded(sequence: U32)

  datatype Step = Step(table: Table, effects: seq<Effect>)

  const FREE := Slot(false, Packet(0, 0, Detected, false), 0, 0)

  function Initial(bootId: U32, hasTransport: bool): Table {
    Table(bootId, 1, false, false, false, hasTransport, seq(CAPACITY, i => FREE), 0, 0, 0, 0, 0)
  }

  function RetryDelay(index: nat): nat
    requires index < MAX_RETRIES
  {
    [250, 500, 1000, 2000, 4000, 8000][index]
  }

  predicate EventIsValid(kind: EventKind, level: bool) { kind.Detected? == level }

  function Saturating(n: U32): U32 { if n != UINT32_MAX then n + 1 else n }

  function After(now: Time, delay: nat): Time { (now + delay) % TWO_64 }

  /** send_pending: only the error counters change. */
  function Transmit(t: Table, packet: Packet, result: SendResult): Table {
    if !EventIsValid(packet.kind, packet.level) then t.(sendErrors := Saturating(t.sendErrors))
    else if !t.hasTransport then t.(unconfiguredSends := Saturating(t.unconfiguredSends))
    else match result
      case SendOk => t
      case SendError => t.(sendErrors := Saturating(t.sendErrors))
      case SendUnconfigured => t.(unconfiguredSends := Saturating(t.unconfiguredSends))
  }

  function FirstFree(pending: seq<Slot>, i: nat): (r: nat)
    requires i <= |pending|
    ensures i <= r <= |pending|
    ensures r < |pending| ==> !pending[r].occupied
    ensures forall j :: i <= j < r ==> pending[j].occupied
    decreases |pending| - i
  {
    if i == |pending| || !pending[i].occupied then i else FirstFree(pending, i + 1)
  }

  function Submit(t: Table, kind: EventKind, level: bool, now: Time, result: SendResult): Step {
    if !EventIsValid(kind, level) then Step(t, [])
    else
      var t1 := t.(levelValid := true, level := level);
      var i := FirstFree(t1.pending, 0);
      if i == |t1.pending| then Step(t1.(pendingFull := Saturating(t1.pendingFull)), [])
      else if t1.sequenceExhausted then
        Step(t1.(sequenceExhaustedCount := Saturating(t1.sequenceExhaustedCount)), [])
      else
        var s := t1.nextSequence;
        var packet := Packet(t1.bootId, s, kind, level);
        var t2 := if s == UINT32_MAX then t1.(sequenceExhausted := true) else t1.(nextSequence := s + 1);
        var t3 := t2.(pending := t2.pending[i := Slot(true, packet, After(now, RetryDelay(0)), 0)]);
        Step(Transmit(t3, packet, result), [Accepted(s, now), Sent(packet, now, result)])
  }

  function SubmitOutcome(t: Table, kind: EventKind, level: bool): SubmitResult {
    if !EventIsValid(kind, level) then Invalid
    else if FirstFree(t.pending, 0) == |t.pending| then PendingFull
    else if t.sequenceExhausted then SequenceExhausted
    else Submitted
  }

  function Resend(t: Table, i: nat, now: Time, result: SendResult): Table
    requires i < |t.pending|
  {
    var slot := t.pending[i];
    var sent := Transmit(t, slot.packet, result);
    var retries := slot.retriesSent + 1;
    var delay := RetryDelay(if retries < MAX_RETRIES then retries else MAX_RETRIES - 1);
    sent.(pending := sent.pending[i := slot.(retriesSent := retries, retryDue := After(now, delay))])
  }

  function ProcessSlot(t: Table, i: nat, now: Time, result: SendResult): Step
    requires i < |t.pending|
  {
    var slot := t.pending[i];
    if !slot.occupied || now < slot.retryDue then Step(t, [])
    else if slot.retriesSent == MAX_RETRIES then
      Step(t.(pending := t.pending[i := slot.(occupied := false)], retryExhausted := Saturating(t.retryExhausted)),
           [Exhausted(slot.packet.sequence, now)])
    else Step(Resend(t, i, now, result), [Sent(slot.packet, now, result)])
  }

  predicate WellFormed(t: Table) {
    |t.pending| == CAPACITY && forall i :: 0 <= i < CAPACITY ==> t.pending[i].retriesSent <= MAX_RETRIES
  }

  /** The first n slots have been processed. */
  function Process(t: Table, n: nat, now: Time, results: nat -> SendResult): (s: Step)
    requires WellFormed(t) && n <= CAPACITY
    ensures WellFormed(s.table)
    ensures forall i :: n <= i < CAPACITY ==> s.table.pending[i] == t.pending[i]
  {
    if n == 0 then Step(t, [])
    else
      var before := Process(t, n - 1, now, results);
      var last := ProcessSlot(before.table, n - 1, now, results(n - 1));
      Step(last.table, before.effects + last.effects)
  }

  predicate AckMatches(slot: Slot, bootId: U32, sequence: U32) {
    slot.occupied && slot.packet.bootId == bootId && slot.packet.sequence == sequence
  }

  function FirstAck(pending: seq<Slot>, bootId: U32, sequence: U32, i: nat): (r: nat)
    requires i <= |pending|
    ensures i <= r <= |pending|
    ensures r < |pending| ==> AckMatches(pending[r], bootId, sequence)
    ensures forall j :: i <= j < r ==> !AckMatches(pending[j], bootId, sequence)
    decreases |pending| - i
  {
    if i == |pending| || AckMatches(pending[i], bootId, sequence) then i
    else FirstAck(pending, bootId, sequence, i + 1)
  }

  function OnAck(t: Table, bootId: U32, sequence: U32): Step {
    var i := FirstAck(t.pending, bootId, sequence, 0);
    if bootId != t.bootId || i == |t.pending| then Step(t, [])
    else Step(t.(pending := t.pending[i := t.pending[i].(occupied := false)]), [Acknowledged(sequence)])
  }

  function DiscardEffects(pending: seq<Slot>): seq<Effect> {
    if pending == [] then []
    else
      var n := |pending| - 1;
      DiscardEffects(pending[..n]) + if pending[n].occupied then [Discarded(pending[n].packet.sequence)] else []
  }

  function Reset(t: Table): Step {
    Step(t.(pending := seq(CAPACITY, i => FREE)), DiscardEffects(t.pending))
  }

  /** The earliest retry among the first n slots. */
  function NextDeadline(pending: seq<Slot>, n: nat): (d: Time)
    requires n <= |pending|
    ensures forall i :: 0 <= i < n && pending[i].occupied ==> d <= pending[i].retryDue
    ensures d == TWO_64 - 1 || exists i :: 0 <= i < n && pending[i].occupied && d == pending[i].retryDue
  {
    if n == 0 then TWO_64 - 1
    else
      var d := NextDeadline(pending, n - 1);
      if pending[n - 1].occupied && pending[n - 1].retryDue < d then pending[n - 1].retryDue else d
  }

  class Model {
    var bootId: U32
    var nextSequence: U32
    var sequenceExhausted: bool
    var levelValid: bool
    var level: bool
    var hasTransport: bool
    const pending: array<Slot>
    var pendingFull: U32
    var retryExhausted: U32
    var sendErrors: U32
    var unconfiguredSends: U32
    var sequenceExhaustedCount: U32
    /** Everything that has happened to events so far. */
    ghost var trace: seq<Effect>

    ghost predicate Valid()
      reads this, pending
    {
      WellFormed(View())
    }

    function View(): Table
      reads this, pending
    {
      Table(bootId, nextSequence, sequenceExhausted, levelValid, level, hasTransport, pending[..],
            pendingFull, retryExhausted, sendErrors, unconfiguredSends, sequenceExhaustedCount)
    }

    constructor (bootId: U32, hasTransport: bool)
      ensures Valid() && fresh(pending)
      ensures View() == Initial(bootId, hasTransport) && trace == []
    {
      this.bootId, nextSequence, sequenceExhausted := bootId, 1, false;
      levelValid, level, this.hasTransport := false, false, hasTransport;
      pending := new Slot[CAPACITY](i => FREE);
      pendingFull, retryExhausted, sendErrors, unconfiguredSends, sequenceExhaustedCount := 0, 0, 0, 0, 0;
      trace := [];
    }

    method SendPending(packet: Packet, result: SendResult)
      modifies this`sendErrors, this`unconfiguredSends
      ensures View() == Transmit(old(View()), packet, result)
    {
      if !EventIsValid(packet.kind, packet.level) {
        sendErrors := Saturating(sendErrors);
        return;
      }
      if !hasTransport {
        unconfiguredSends := Saturating(unconfiguredSends);
        return;
      }
      match result {
        case SendOk =>
        case SendError => sendErrors := Saturating(sendErrors);
        case SendUnconfigured => unconfiguredSends := Saturating(unconfiguredSends);
      }
    }

    /** The search for a free slot at the head of SubmitEvent. */
    method FindAvailable() returns (available: nat)
      requires Valid()
      ensures available == FirstFree(View().pending, 0)
    {
      available := 0;
      while available < CAPACITY && pending[available].occupied
        invariant 0 <= available <= CAPACITY
        invariant FirstFree(pending[..], 0) == FirstFree(pending[..], available)
      {
        available := available + 1;
      }
    }

    method StoreSlot(index: nat, slot: Slot)
      requires Valid() && index < CAPACITY && slot.retriesSent <= MAX_RETRIES
      modifies pending
      ensures Valid()
      ensures View() == old(View()).(pending := old(View()).pending[index := slot])
    {
      ghost var before := pending[..];
      pending[index] := slot;
      assert pending[..] == before[index := slot];
    }

    method SubmitEvent(kind: EventKind, level: bool, now: Time, result: SendResult) returns (outcome: SubmitResult)
      requires Valid()
      modifies this, pending
      ensures Valid()
      ensures var s := Submit(old(View()), kind, level, now, result);
              View() == s.table && trace == old(trace) + s.effects
      ensures outcome == SubmitOutcome(old(View()), kind, level)
    {
      hide Transmit, FirstFree, RetryDelay, After;
      if !EventIsValid(kind, level) { return Invalid; }
      levelValid := true;
      this.level := level;
      var available := FindAvailable();
      if available == CAPACITY {
        pendingFull := Saturating(pendingFull);
        return PendingFull;
      }
      if sequenceExhausted {
        sequenceExhaustedCount := Saturating(sequenceExhaustedCount);
        return SequenceExhausted;
      }
      Admit(available, kind, level, now, result);
      return Submitted;
    }

    /** The tail of SubmitEvent: number the event, store it and send it once. */
    method Admit(available: nat, kind: EventKind, level: bool, now: Time, result: SendResult)
      requires Valid() && available < CAPACITY
      modifies this, pending
      ensures Valid()
      ensures var t, s := old(View()), old(nextSequence);
              var t2 := if s == UINT32_MAX then t.(sequenceExhausted := true) else t.(nextSequence := s + 1);
              var packet := Packet(t.bootId, s, kind, level);
              var t3 := t2.(pending := t2.pending[available := Slot(true, packet, After(now, RetryDelay(0)), 0)]);
              View() == Transmit(t3, packet, result) && trace == old(trace) + [Accepted(s, now), Sent(packet, now, result)]
    {
      hide Transmit, RetryDelay, After;
      var issued := nextSequence;
      if issued == UINT32_MAX {
        sequenceExhausted := true;
      } else {
        nextSequence := issued + 1;
      }
      var packet := Packet(bootId, issued, kind, level);
      StoreSlot(available, Slot(true, packet, After(now, RetryDelay(0)), 0));
      trace := trace + [Accepted(issued, now), Sent(packet, now, result)];
      SendPending(packet, result);
    }

    /** The body of ProcessTime's loop. */
    method ProcessSlotAt(index: nat, now: Time, result: SendResult)
      requires Valid() && index < CAPACITY
      modifies this, pending
      ensures Valid()
      ensures var s := ProcessSlot(old(View()), index, now, result);
              View() == s.table && trace == old(trace) + s.effects
    {
      hide Transmit, RetryDelay, After, Saturating;
      var slot := pending[index];
      assert slot == View().pending[index];
      if !slot.occupied || now < slot.retryDue { return; }
      if slot.retriesSent == MAX_RETRIES {
        StoreSlot(index, slot.(occupied := false));
        retryExhausted := Saturating(retryExhausted);
        trace := trace + [Exhausted(slot.packet.sequence, now)];
        return;
      }
      ResendSlot(index, now, result);
    }

    method ResendSlot(index: nat, now: Time, result: SendResult)
      requires Valid() && index < CAPACITY && pending[index].retriesSent < MAX_RETRIES
      modifies this, pending
      ensures Valid()
      ensures View() == Resend(old(View()), index, now, result)
      ensures trace == old(trace) + [Sent(old(pending[index]).packet, now, result)]
    {
      hide Transmit, RetryDelay, After;
      var slot := pending[index];
      SendPending(slot.packet, result);
      var retries := slot.retriesSent + 1;
      var delayIndex := if retries < MAX_RETRIES then retries else MAX_RETRIES - 1;
      StoreSlot(index, slot.(retriesSent := retries, retryDue := After(now, RetryDelay(delayIndex))));
      trace := trace + [Sent(slot.packet, now, result)];
    }

    method ProcessTime(now: Time, results: nat -> SendResult)
      requires Valid()
      modifies this, pending
      ensures Valid()
      ensures var s := Process(old(View()), CAPACITY, now, results);
              View() == s.table && trace == old(trace) + s.effects
    {
      hide ProcessSlot;
      ghost var start := View();
      for index := 0 to CAPACITY
        invariant Valid()
        invariant View() == Process(start, index, now, results).table
        invariant trace == old(trace) + Process(start, index, now, results).effects
      {
        ProcessSlotAt(index, now, results(index));
      }
    }

    method Acknowledge(bootId: U32, sequence: U32) returns (found: bool)
      requires Valid()
      modifies this`trace, pending
      ensures Valid()
      ensures var s := OnAck(old(View()), bootId, sequence);
              View() == s.table && trace == old(trace) + s.effects && found == (s.effects != [])
    {
      if bootId != this.bootId { return false; }
      ghost var before := View();
      for index := 0 to CAPACITY
        invariant View() == before && trace == old(trace)
        invariant FirstAck(pending[..], bootId, sequence, 0) == FirstAck(pending[..], bootId, sequence, index)
      {
        var slot := pending[index];
        if AckMatches(slot, bootId, sequence) {
          pending[index] := slot.(occupied := false);
          assert pending[..] == before.pending[index := pending[index]];
          trace := trace + [Acknowledged(sequence)];
          return true;
        }
      }
      return false;
    }

    method ResetPending()
      requires Valid()
      modifies this`trace, pending
      ensures Valid()
      ensures View() == Reset(old(View())).table && trace == old(trace) + Reset(old(View())).effects
    {
      trace := trace + DiscardEffects(pending[..]);
      forall i | 0 <= i < CAPACITY { pending[i] := FREE; }
      assert pending[..] == seq(CAPACITY, i => FREE);
    }

    method NextDeadlineMs() returns (deadline: Time)
      requires Valid()
      ensures deadline == NextDeadline(View().pending, CAPACITY)
    {
      deadline := TWO_64 - 1;
      for index := 0 to CAPACITY
        invariant deadline == NextDeadline(View().pending, index)
      {
        if pending[index].occupied && pending[index].retryDue < deadline {
          deadline := pending[index].retryDue;
        }
      }
    }
  }
}
