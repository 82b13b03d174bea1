/** What the delivery table reports: the level of the vehicle, and how often something went wrong. */
module DeliveryCounters {
  import opened DeliveryHistory
  import opened DeliveryPackets
  import opened DeliveryTable
  import opened Options

  predicate IsValid(op: Op) { op.SubmitOp? && (op.kind == Detected <==> op.level) }

  /** The level of the last valid submission, whether or not it was accepted. */
  function LastLevel(ops: seq<Op>): Option<bool> {
    if ops == [] then None
    else if IsValid(ops[|ops| - 1]) then Some(ops[|ops| - 1].level)
    else LastLevel(ops[..|ops| - 1])
  }

  /** Valid submissions that found every slot taken. */
  ghost function Crowded(bootId: U32, hasTransport: bool, ops: seq<Op>): nat {
    if ops == [] then 0
    else
      var before, op := ops[..|ops| - 1], ops[|ops| - 1];
      Crowded(bootId, hasTransport, before)
      + if IsValid(op) && !HasRoom(Run(bootId, hasTransport, before).table) then 1 else 0
  }

  /** Valid submissions that found a slot but no sequence number left. */
  ghost function Numberless(bootId: U32, hasTransport: bool, ops: seq<Op>): nat {
    if ops == [] then 0
    else
      var before, op := ops[..|ops| - 1], ops[|ops| - 1];
      var t := Run(bootId, hasTransport, before).table;
      Numberless(bootId, hasTransport, before) + if IsValid(op) && HasRoom(t) && t.sequenceExhausted then 1 else 0
  }

  predicate Failed(e: Effect, hasTransport: bool) { e.Sent? && hasTransport && e.result == SendError }

  predicate Unconfigured(e: Effect, hasTransport: bool) { e.Sent? && (hasTransport ==> e.result == SendUnconfigured) }

  function FailedSends(tr: seq<Effect>, hasTransport: bool): nat {
    if tr == [] then 0 else FailedSends(Front(tr), hasTransport) + if Failed(Last(tr), hasTransport) then 1 else 0
  }

  function UnconfiguredSends(tr: seq<Effect>, hasTransport: bool): nat {
    if tr == [] then 0 else UnconfiguredSends(Front(tr), hasTransport) + if Unconfigured(Last(tr), hasTransport) then 1 else 0
  }

  function Capped(n: nat): U32 { if n <= UINT32_MAX then n else UINT32_MAX }

  lemma {:induction false} SendsJoined(tr: seq<Effect>, es: seq<Effect>, hasTransport: bool)
    ensures FailedSends(tr + es, hasTransport) == FailedSends(tr, hasTransport) + FailedSends(es, hasTransport)
    ensures UnconfiguredSends(tr + es, hasTransport) == UnconfiguredSends(tr, hasTransport) + UnconfiguredSends(es, hasTransport)
  {
    if es == [] {
      assert tr + es == tr;
    } else {
      SendsJoined(tr, Front(es), hasTransport);
      assert Front(tr + es) == tr + Front(es);
    }
  }

  /** From t to u the send counters grew by what the effects say, and nothing else was counted. */
  ghost predicate CountsSends(t: Table, u: Step) {
    && u.table.hasTransport == t.hasTransport
    && u.table.sendErrors == Capped(t.sendErrors + FailedSends(u.effects, t.hasTransport))
    && u.table.unconfiguredSends == Capped(t.unconfiguredSends + UnconfiguredSends(u.effects, t.hasTransport))
  }

  ghost predicate SameReports(t: Table, u: Table) {
    && u.levelValid == t.levelValid && u.level == t.level && u.pendingFull == t.pendingFull
    && u.sequenceExhaustedCount == t.sequenceExhaustedCount
  }

  lemma CountsJoin(t: Table, before: Step, last: Step)
    requires CountsSends(t, before) && CountsSends(before.table, last)
    ensures CountsSends(t, Step(last.table, before.effects + last.effects))
  {
    SendsJoined(before.effects, last.effects, t.hasTransport);
    hide FailedSends, UnconfiguredSends;
  }

  lemma OneEffect(e: Effect, hasTransport: bool)
    ensures FailedSends([e], hasTransport) == (if Failed(e, hasTransport) then 1 else 0) && FailedSends([], hasTransport) == 0
    ensures UnconfiguredSends([e], hasTransport) == (if Unconfigured(e, hasTransport) then 1 else 0)
    ensures UnconfiguredSends([], hasTransport) == 0
  {
    assert Front([e]) == [];
  }

  lemma NoEffect(t: Table)
    ensures CountsSends(t, Step(t, []))
  {
  }

  lemma TransmitCounts(t: Table, packet: Packet, at: Time, result: SendResult)
    requires EventIsValid(packet.kind, packet.level)
    ensures CountsSends(t, Step(Transmit(t, packet, result), [Sent(packet, at, result)]))
    ensures var u := Transmit(t, packet, result);
            SameReports(t, u) && u.pending == t.pending && u == t.(sendErrors := u.sendErrors, unconfiguredSends := u.unconfiguredSends)
  {
    OneEffect(Sent(packet, at, result), t.hasTransport);
    hide FailedSends, UnconfiguredSends;
  }

  /** Everything kept for a retry is a valid event. */
  ghost predicate AllValid(t: Table) {
    forall i :: 0 <= i < |t.pending| && t.pending[i].occupied ==> EventIsValid(t.pending[i].packet.kind, t.pending[i].packet.level)
  }

  lemma SlotCounts(t: Table, i: nat, now: Time, result: SendResult)
    requires i < |t.pending| && AllValid(t)
    ensures CountsSends(t, ProcessSlot(t, i, now, result)) && SameReports(t, ProcessSlot(t, i, now, result).table)
    ensures AllValid(ProcessSlot(t, i, now, result).table)
  {
    var slot := t.pending[i];
    if !slot.occupied || now < slot.retryDue {
      NoEffect(t);
    } else if slot.retriesSent == MAX_RETRIES {
      GivingUpCounts(t, i, now);
    } else {
      ResendCounts(t, i, now, result);
    }
    hide Resend, CountsSends, SameReports, AllValid;
  }

  lemma GivingUpCounts(t: Table, i: nat, now: Time)
    requires i < |t.pending| && AllValid(t)
    ensures var slot := t.pending[i];
            var u := t.(pending := t.pending[i := slot.(occupied := false)], retryExhausted := Saturating(t.retryExhausted));
            CountsSends(t, Step(u, [Exhausted(slot.packet.sequence, now)])) && SameReports(t, u) && AllValid(u)
  {
    OneEffect(Exhausted(t.pending[i].packet.sequence, now), t.hasTransport);
    hide FailedSends, UnconfiguredSends, EventIsValid;
  }

  lemma ResendCounts(t: Table, i: nat, now: Time, result: SendResult)
    requires i < |t.pending| && AllValid(t) && t.pending[i].occupied
    ensures var u := Resend(t, i, now, result);
            CountsSends(t, Step(u, [Sent(t.pending[i].packet, now, result)])) && SameReports(t, u) && AllValid(u)
  {
    hide Transmit, RetryDelay, After, FailedSends, UnconfiguredSends, EventIsValid;
    TransmitCounts(t, t.pending[i].packet, now, result);
  }

  lemma {:induction false} ProcessCounts(t: Table, n: nat, now: Time, results: nat -> SendResult)
    requires WellFormed(t) && AllValid(t) && n <= CAPACITY
    ensures var s := Process(t, n, now, results); CountsSends(t, s) && SameReports(t, s.table) && AllValid(s.table)
  {
    if n == 0 {
      NoEffect(t);
    } else {
      hide ProcessSlot, CountsSends, AllValid;
      var before := Process(t, n - 1, now, results);
      ProcessCounts(t, n - 1, now, results);
      SlotCounts(before.table, n - 1, now, results(n - 1));
      CountsJoin(t, before, ProcessSlot(before.table, n - 1, now, results(n - 1)));
    }
  }

  // ----- Over runs -----

  ghost predicate Reports(s: Step, hasTransport: bool, level: Option<bool>, crowded: nat, numberless: nat) {
    && s.table.hasTransport == hasTransport
    && s.table.levelValid == level.Some? && (level.Some? ==> s.table.level == level.value)
    && s.table.pendingFull == Capped(crowded) && s.table.sequenceExhaustedCount == Capped(numberless)
    && s.table.sendErrors == Capped(FailedSends(s.effects, hasTransport))
    && s.table.unconfiguredSends == Capped(UnconfiguredSends(s.effects, hasTransport))
  }

  /** The reported level is that of the last valid submission, and each counter has counted exactly
      its own kind of failure, up to the greatest 32-bit number. */
  lemma {:induction false} ReportsAreExact(bootId: U32, hasTransport: bool, ops: seq<Op>)
    ensures Reports(Run(bootId, hasTransport, ops), hasTransport, LastLevel(ops), Crowded(bootId, hasTransport, ops),
                    Numberless(bootId, hasTransport, ops))
  {
    if ops == [] {
      RunsNothing(bootId, hasTransport);
      hide Run;
    } else {
      hide Reports, Apply, IsValid, HasRoom;
      var before, op := ops[..|ops| - 1], ops[|ops| - 1];
      ReportsAreExact(bootId, hasTransport, before);
      RunIsValid(bootId, hasTransport, before);
      OpReports(Run(bootId, hasTransport, before), hasTransport, LastLevel(before), Crowded(bootId, hasTransport, before),
                Numberless(bootId, hasTransport, before), op);
    }
  }

  lemma RunIsValid(bootId: U32, hasTransport: bool, ops: seq<Op>)
    ensures AllValid(Run(bootId, hasTransport, ops).table)
  {
    var t := Run(bootId, hasTransport, ops).table;
    RunKeepsInv(bootId, hasTransport, ops, false);
    hide Run, Inv;
    InvParts(t, Run(bootId, hasTransport, ops).effects, false);
    hide Sends, AcceptedAt, Issued, LeastAge, EventIsValid;
  }

  lemma OpReports(s: Step, hasTransport: bool, level: Option<bool>, crowded: nat, numberless: nat, op: Op)
    requires WellFormed(s.table) && AllValid(s.table) && Reports(s, hasTransport, level, crowded, numberless)
    ensures Reports(Then(s, op), hasTransport, if IsValid(op) then Some(op.level) else level,
                    crowded + (if IsValid(op) && !HasRoom(s.table) then 1 else 0),
                    numberless + if IsValid(op) && HasRoom(s.table) && s.table.sequenceExhausted then 1 else 0)
  {
    hide Submit, Process, OnAck, Reset, HasRoom, AllValid, FailedSends, UnconfiguredSends;
    var u := Apply(s.table, op);
    SendsJoined(s.effects, u.effects, hasTransport);
    match op {
      case SubmitOp(kind, l, now, result) => SubmitCounts(s.table, op);
      case ProcessOp(now, results) => ProcessCounts(s.table, CAPACITY, now, results);
      case AckOp(bootId, sequence) => AckCounts(s.table, bootId, sequence);
      case ResetOp => ResetCounts(s.table);
    }
  }

  lemma AckCounts(t: Table, bootId: U32, sequence: U32)
    ensures CountsSends(t, OnAck(t, bootId, sequence)) && SameReports(t, OnAck(t, bootId, sequence).table)
  {
    hide FirstAck, FailedSends, UnconfiguredSends;
    NoEffect(t);
    OneEffect(Acknowledged(sequence), t.hasTransport);
  }

  lemma ResetCounts(t: Table)
    ensures CountsSends(t, Reset(t)) && SameReports(t, Reset(t).table)
  {
    hide FailedSends, UnconfiguredSends, DiscardEffects;
    DiscardsOnly(t.pending);
    NothingSent(DiscardEffects(t.pending), t.hasTransport);
  }

  lemma {:induction false} NothingSent(es: seq<Effect>, hasTransport: bool)
    requires forall k :: 0 <= k < |es| ==> es[k].Discarded?
    ensures FailedSends(es, hasTransport) == 0 && UnconfiguredSends(es, hasTransport) == 0
  {
    if es != [] { NothingSent(Front(es), hasTransport); }
  }

  lemma SubmitCounts(t: Table, op: Op)
    requires op.SubmitOp?
    ensures var s := Submit(t, op.kind, op.level, op.now, op.result);
            && CountsSends(t, s)
            && (if IsValid(op) then s.table.levelValid && s.table.level == op.level
                else s.table.levelValid == t.levelValid && s.table.level == t.level)
            && s.table.pendingFull == (if IsValid(op) && !HasRoom(t) then Saturating(t.pendingFull) else t.pendingFull)
            && s.table.sequenceExhaustedCount ==
               if IsValid(op) && HasRoom(t) && t.sequenceExhausted then Saturating(t.sequenceExhaustedCount) else t.sequenceExhaustedCount
  {
    SubmitExactly(t, op);
    var i := FirstFree(t.pending, 0);
    assert IsValid(op) && !IsAccepted(t, op) ==> !HasRoom(t) || t.sequenceExhausted;
    if IsAccepted(t, op) {
      AcceptedCounts(t, op);
      hide Submit;
    } else {
      NoEffect(t);
      hide Transmit, RetryDelay, After, FailedSends, UnconfiguredSends;
      assert i < |t.pending| ==> HasRoom(t);
    }
  }

  lemma AcceptedCounts(t: Table, op: Op)
    requires IsAccepted(t, op)
    ensures var s := Submit(t, op.kind, op.level, op.now, op.result);
            && CountsSends(t, s) && s.table.levelValid && s.table.level == op.level
            && s.table.pendingFull == t.pendingFull && s.table.sequenceExhaustedCount == t.sequenceExhaustedCount
  {
    hide RetryDelay, After, FailedSends, UnconfiguredSends, Transmit, FirstFree;
    var packet := Packet(t.bootId, t.nextSequence, op.kind, op.level);
    var i := FirstFree(t.pending, 0);
    var u := Admitted(t.(levelValid := true, level := op.level), i, op.kind, op.level, op.now);
    OneEffect(Accepted(t.nextSequence, op.now), t.hasTransport);
    TransmitCounts(u, packet, op.now, op.result);
    CountsJoin(t, Step(u, [Accepted(t.nextSequence, op.now)]), Step(Transmit(u, packet, op.result), [Sent(packet, op.now, op.result)]));
    assert [Accepted(t.nextSequence, op.now)] + [Sent(packet, op.now, op.result)]
        == [Accepted(t.nextSequence, op.now), Sent(packet, op.now, op.result)];
  }
}
