/** Which packets the delivery table sends and keeps, when it sends them again, and what it counts. */
module DeliveryPackets {
  import opened DeliveryHistory
  import opened DeliveryTable
  import opened Options

  // ----- Which events are accepted -----

  ghost predicate HasRoom(t: Table) { exists i :: 0 <= i < |t.pending| && !t.pending[i].occupied }

  /** The event says what it means, a slot is free and a sequence number is left. */
  ghost predicate IsAccepted(t: Table, op: Op) {
    op.SubmitOp? && (op.kind == Detected <==> op.level) && HasRoom(t) && !t.sequenceExhausted
  }

  /** The submissions of a run that were accepted, in order. */
  ghost function AcceptedOps(bootId: U32, hasTransport: bool, ops: seq<Op>): seq<Op> {
    if ops == [] then []
    else
      var before, op := ops[..|ops| - 1], ops[|ops| - 1];
      AcceptedOps(bootId, hasTransport, before) + if IsAccepted(Run(bootId, hasTransport, before).table, op) then [op] else []
  }

  /** An accepted submission gets the next number and is sent at once; any other does nothing to
      events, and the answer says which it was. */
  lemma SubmitExactly(t: Table, op: Op)
    requires op.SubmitOp?
    ensures var s := Submit(t, op.kind, op.level, op.now, op.result);
            && s.effects == (if IsAccepted(t, op)
                             then [Accepted(t.nextSequence, op.now),
                                   Sent(Packet(t.bootId, t.nextSequence, op.kind, op.level), op.now, op.result)]
                             else [])
            && (SubmitOutcome(t, op.kind, op.level) == Submitted <==> IsAccepted(t, op))
            && (SubmitOutcome(t, op.kind, op.level) == Invalid <==> (op.kind == Detected <==> !op.level))
            && (SubmitOutcome(t, op.kind, op.level) == PendingFull <==> (op.kind == Detected <==> op.level) && !HasRoom(t))
  {
    hide Transmit, RetryDelay, After;
    var i := FirstFree(t.pending, 0);
    if i < |t.pending| { assert !t.pending[i].occupied; }
  }

  // ----- Which packets are sent and kept -----

  /** The packet carries the kind and the level of the submission of its number. */
  predicate IsPacketOf(p: Packet, bootId: U32, accepted: seq<Op>) {
    && 1 <= p.sequence <= |accepted| && accepted[p.sequence - 1].SubmitOp?
    && p == Packet(bootId, p.sequence, accepted[p.sequence - 1].kind, accepted[p.sequence - 1].level)
  }

  ghost predicate KeepsPackets(t: Table, bootId: U32, accepted: seq<Op>) {
    forall i :: 0 <= i < |t.pending| && t.pending[i].occupied ==> IsPacketOf(t.pending[i].packet, bootId, accepted)
  }

  ghost predicate SendsPackets(tr: seq<Effect>, bootId: U32, accepted: seq<Op>) {
    forall k :: 0 <= k < |tr| && tr[k].Sent? ==> IsPacketOf(tr[k].packet, bootId, accepted)
  }

  ghost predicate PacketsInv(s: Step, bootId: U32, accepted: seq<Op>) {
    && s.table.bootId == bootId && |accepted| == |Issued(s.effects)|
    && KeepsPackets(s.table, bootId, accepted) && SendsPackets(s.effects, bootId, accepted)
  }

  /** Every packet handed to the transport, and every packet kept for a retry, with sequence k carries
      the boot id, and the kind and level of the k-th accepted submission. */
  lemma {:induction false} PacketsAreTheEvents(bootId: U32, hasTransport: bool, ops: seq<Op>)
    ensures PacketsInv(Run(bootId, hasTransport, ops), bootId, AcceptedOps(bootId, hasTransport, ops))
  {
    if ops == [] {
      hide Run;
      assert Run(bootId, hasTransport, ops) == Step(Initial(bootId, hasTransport), []) by { RunsNothing(bootId, hasTransport); }
    } else {
      hide PacketsInv, IsAccepted, Apply;
      var before, op := ops[..|ops| - 1], ops[|ops| - 1];
      PacketsAreTheEvents(bootId, hasTransport, before);
      RunNumbers(bootId, hasTransport, before);
      OpPackets(Run(bootId, hasTransport, before), bootId, AcceptedOps(bootId, hasTransport, before), op);
    }
  }

  lemma RunsNothing(bootId: U32, hasTransport: bool)
    ensures Run(bootId, hasTransport, []) == Step(Initial(bootId, hasTransport), [])
  {
  }

  /** The next number is one more than the numbers given out. */
  lemma RunNumbers(bootId: U32, hasTransport: bool, ops: seq<Op>)
    ensures var s := Run(bootId, hasTransport, ops);
            !s.table.sequenceExhausted ==> s.table.nextSequence == |Issued(s.effects)| + 1
  {
    RunKeepsInv(bootId, hasTransport, ops, false);
    hide Run, Issued, Sends, Fates, Tally, AllGivenUpLate, PendingCount, SlotsInv, EventsInv;
  }

  /** One more operation of a run. */
  function Then(s: Step, op: Op): Step
    requires WellFormed(s.table)
  {
    Step(Apply(s.table, op).table, s.effects + Apply(s.table, op).effects)
  }

  lemma OpPackets(s: Step, bootId: U32, accepted: seq<Op>, op: Op)
    requires WellFormed(s.table) && PacketsInv(s, bootId, accepted)
    requires !s.table.sequenceExhausted ==> s.table.nextSequence == |Issued(s.effects)| + 1
    ensures PacketsInv(Then(s, op), bootId, accepted + if IsAccepted(s.table, op) then [op] else [])
  {
    var u := Apply(s.table, op);
    hide KeepsPackets, SendsPackets, IsAccepted, Issued, Apply;
    IssuedJoin(s.effects, u.effects);
    SendsJoin(s.effects, u.effects, bootId, accepted);
    if IsAccepted(s.table, op) {
      AcceptedPackets(s, bootId, accepted, op);
    } else {
      assert accepted + [] == accepted;
      OldPackets(s.table, op);
      OldPacketsKept(s.table, u, bootId, accepted);
    }
  }

  lemma MorePackets(t: Table, tr: seq<Effect>, bootId: U32, accepted: seq<Op>, op: Op)
    requires KeepsPackets(t, bootId, accepted) && SendsPackets(tr, bootId, accepted)
    ensures KeepsPackets(t, bootId, accepted + [op]) && SendsPackets(tr, bootId, accepted + [op])
  {
    assert forall p :: IsPacketOf(p, bootId, accepted) ==> IsPacketOf(p, bootId, accepted + [op]);
    hide IsPacketOf;
  }

  lemma AcceptedPackets(s: Step, bootId: U32, accepted: seq<Op>, op: Op)
    requires WellFormed(s.table) && PacketsInv(s, bootId, accepted) && IsAccepted(s.table, op)
    requires s.table.nextSequence == |Issued(s.effects)| + 1
    ensures PacketsInv(Then(s, op), bootId, accepted + [op])
  {
    var u := Submit(s.table, op.kind, op.level, op.now, op.result);
    var packet := Packet(bootId, s.table.nextSequence, op.kind, op.level);
    SubmitExactly(s.table, op);
    AcceptedTable(s.table, op);
    assert IsPacketOf(packet, bootId, accepted + [op]);
    hide Submit, IsAccepted, IsPacketOf, Issued;
    MorePackets(s.table, s.effects, bootId, accepted, op);
    IssuedJoin(s.effects, u.effects);
    IssuedPair(s.table.nextSequence, packet, op);
    SendsJoin(s.effects, u.effects, bootId, accepted + [op]);
  }

  lemma IssuedPair(n: U32, packet: Packet, op: Op)
    requires op.SubmitOp?
    ensures Issued([Accepted(n, op.now), Sent(packet, op.now, op.result)]) == [n]
  {
    assert Front([Accepted(n, op.now), Sent(packet, op.now, op.result)]) == [Accepted(n, op.now)];
    assert Front([Accepted(n, op.now)]) == [] && Issued([]) == [];
    assert Issued([Accepted(n, op.now)]) == [n];
  }

  lemma AcceptedTable(t: Table, op: Op)
    requires IsAccepted(t, op)
    ensures var u := Submit(t, op.kind, op.level, op.now, op.result).table;
            && u.bootId == t.bootId && |u.pending| == |t.pending|
            && forall i :: 0 <= i < |t.pending| ==>
                 u.pending[i] == t.pending[i] || u.pending[i].packet == Packet(t.bootId, t.nextSequence, op.kind, op.level)
  {
    hide Transmit, RetryDelay, After;
    var i := FirstFree(t.pending, 0);
    TransmitKeepsIdentity();
  }

  lemma TransmitKeepsIdentity()
    ensures forall u, packet, result :: Transmit(u, packet, result).pending == u.pending && Transmit(u, packet, result).bootId == u.bootId
  {
  }

  lemma {:induction false} IssuedJoin(tr: seq<Effect>, es: seq<Effect>)
    ensures Issued(tr + es) == Issued(tr) + Issued(es)
  {
    if es == [] {
      assert tr + es == tr;
    } else {
      IssuedJoin(tr, Front(es));
      assert Front(tr + es) == tr + Front(es);
    }
  }

  lemma SendsJoin(tr: seq<Effect>, es: seq<Effect>, bootId: U32, accepted: seq<Op>)
    ensures SendsPackets(tr + es, bootId, accepted) <==> SendsPackets(tr, bootId, accepted) && SendsPackets(es, bootId, accepted)
  {
    hide IsPacketOf;
    assert forall k :: 0 <= k < |es| ==> es[k] == (tr + es)[|tr| + k];
    assert forall k :: 0 <= k < |tr| ==> tr[k] == (tr + es)[k];
  }

  /** The operation keeps and sends only packets that were kept before, and gives out no number. */
  ghost predicate OnlyOld(t: Table, u: Step) {
    && u.table.bootId == t.bootId && |u.table.pending| == |t.pending| && Issued(u.effects) == []
    && (forall i :: 0 <= i < |t.pending| && u.table.pending[i].occupied ==>
          t.pending[i].occupied && u.table.pending[i].packet == t.pending[i].packet)
    && (forall k :: 0 <= k < |u.effects| && u.effects[k].Sent? ==> Kept(t, u.effects[k].packet))
  }

  ghost predicate Kept(t: Table, p: Packet) { exists i :: 0 <= i < |t.pending| && t.pending[i].occupied && t.pending[i].packet == p }

  lemma OldPacketsKept(t: Table, u: Step, bootId: U32, accepted: seq<Op>)
    requires OnlyOld(t, u) && KeepsPackets(t, bootId, accepted)
    ensures KeepsPackets(u.table, bootId, accepted) && SendsPackets(u.effects, bootId, accepted)
  {
    hide IsPacketOf, Issued;
  }

  lemma OldPackets(t: Table, op: Op)
    requires WellFormed(t) && !IsAccepted(t, op)
    ensures OnlyOld(t, Apply(t, op))
  {
    hide OnlyOld, Submit, Process, OnAck, Reset, IsAccepted;
    match op {
      case SubmitOp(kind, level, now, result) => RefusedPackets(t, op);
      case ProcessOp(now, results) => ProcessPackets(t, CAPACITY, now, results);
      case AckOp(bootId, sequence) => AckPackets(t, bootId, sequence);
      case ResetOp => ResetPackets(t);
    }
  }

  lemma RefusedPackets(t: Table, op: Op)
    requires op.SubmitOp? && !IsAccepted(t, op)
    ensures OnlyOld(t, Submit(t, op.kind, op.level, op.now, op.result))
  {
    SubmitExactly(t, op);
    RefusedTable(t, op);
    hide Submit, IsAccepted, HasRoom;
  }

  lemma RefusedTable(t: Table, op: Op)
    requires op.SubmitOp? && !IsAccepted(t, op)
    ensures var u := Submit(t, op.kind, op.level, op.now, op.result).table; u.pending == t.pending && u.bootId == t.bootId
  {
    hide Transmit, RetryDelay, After;
    assert FirstFree(t.pending, 0) < |t.pending| ==> HasRoom(t);
  }

  lemma AckPackets(t: Table, bootId: U32, sequence: U32)
    ensures OnlyOld(t, OnAck(t, bootId, sequence))
  {
    NoneIssued(Acknowledged(sequence));
    hide FirstAck;
  }

  lemma ResetPackets(t: Table)
    requires WellFormed(t)
    ensures OnlyOld(t, Reset(t))
  {
    DiscardsOnly(t.pending);
    hide DiscardEffects, Issued;
  }

  lemma {:induction false} DiscardsOnly(pending: seq<Slot>)
    ensures Issued(DiscardEffects(pending)) == []
    ensures forall k :: 0 <= k < |DiscardEffects(pending)| ==> DiscardEffects(pending)[k].Discarded?
  {
    if pending != [] {
      var n := |pending| - 1;
      DiscardsOnly(pending[..n]);
      if pending[n].occupied {
        IssuedJoin(DiscardEffects(pending[..n]), [Discarded(pending[n].packet.sequence)]);
        NoneIssued(Discarded(pending[n].packet.sequence));
      } else {
        assert DiscardEffects(pending[..n]) + [] == DiscardEffects(pending[..n]);
      }
    }
  }

  lemma {:induction false} ProcessPackets(t: Table, n: nat, now: Time, results: nat -> SendResult)
    requires WellFormed(t) && n <= CAPACITY
    ensures OnlyOld(t, Process(t, n, now, results))
  {
    if n > 0 {
      var before := Process(t, n - 1, now, results);
      ProcessPackets(t, n - 1, now, results);
      SlotPackets(before.table, n - 1, now, results(n - 1));
      var last := ProcessSlot(before.table, n - 1, now, results(n - 1));
      hide ProcessSlot, OnlyOld, Process;
      OnlyOldJoin(t, before, last);
    }
  }

  lemma SlotPackets(t: Table, i: nat, now: Time, result: SendResult)
    requires i < |t.pending|
    ensures OnlyOld(t, ProcessSlot(t, i, now, result))
  {
    hide Transmit, RetryDelay, After;
    var slot := t.pending[i];
    TransmitKeepsIdentity();
    NoneIssued(Sent(slot.packet, now, result));
    NoneIssued(Exhausted(slot.packet.sequence, now));
  }

  lemma NoneIssued(e: Effect)
    requires !e.Accepted?
    ensures Issued([e]) == [] && Issued([]) == []
  {
    assert Front([e]) == [];
  }

  lemma OnlyOldJoin(t: Table, before: Step, last: Step)
    requires OnlyOld(t, before) && OnlyOld(before.table, last)
    ensures OnlyOld(t, Step(last.table, before.effects + last.effects))
  {
    IssuedJoin(before.effects, last.effects);
    hide Issued;
    forall k | 0 <= k < |before.effects + last.effects| && (before.effects + last.effects)[k].Sent?
      ensures Kept(t, (before.effects + last.effects)[k].packet)
    {
      var p := (before.effects + last.effects)[k].packet;
      if k >= |before.effects| {
        assert last.effects[k - |before.effects|].packet == p;
        var i :| 0 <= i < |before.table.pending| && before.table.pending[i].occupied && before.table.pending[i].packet == p;
        assert t.pending[i].packet == p;
      }
    }
  }

  // ----- When packets are sent again -----

  /** The wait after the k-th retry: 250 ms, doubled each time, and 8 s in the end. */
  function Backoff(k: nat): nat { if k == 0 then 250 else if k >= 5 then 8000 else 2 * Backoff(k - 1) }

  predicate IsDue(slot: Slot, now: Time) { slot.occupied && slot.retryDue <= now }

  /** What happens to a slot at time now: nothing before it is due, then a retry, and after six
      retries the end. */
  predicate Advances(before: Slot, after: Slot, now: Time) {
    if !IsDue(before, now) then after == before
    else if before.retriesSent < 6 then
      after == Slot(true, before.packet, (now + Backoff(before.retriesSent + 1)) % TWO_64, before.retriesSent + 1)
    else !after.occupied
  }

  /** The packet of slot i is sent again, or given up. */
  predicate DueEffect(t: Table, i: int, now: Time, results: nat -> SendResult, e: Effect) {
    && 0 <= i < |t.pending| && IsDue(t.pending[i], now)
    && e == if t.pending[i].retriesSent < 6 then Sent(t.pending[i].packet, now, results(i))
            else Exhausted(t.pending[i].packet.sequence, now)
  }

  ghost predicate HasDue(t: Table, n: nat, now: Time, results: nat -> SendResult, e: Effect) {
    exists i :: i < n && DueEffect(t, i, now, results, e)
  }

  /** Processing the time sends every due packet again with the next longer wait, gives up those sent
      seven times, and touches nothing else. */
  lemma {:induction false} ProcessExactly(t: Table, n: nat, now: Time, results: nat -> SendResult)
    requires WellFormed(t) && n <= CAPACITY
    ensures var s := Process(t, n, now, results);
            && (forall i :: 0 <= i < n ==> Advances(t.pending[i], s.table.pending[i], now))
            && (forall e :: e in s.effects <==> HasDue(t, n, now, results, e))
  {
    if n > 0 {
      ProcessExactly(t, n - 1, now, results);
      var before := Process(t, n - 1, now, results);
      var last := ProcessSlot(before.table, n - 1, now, results(n - 1));
      SlotExactly(before.table, n - 1, now, results(n - 1));
      hide Advances, ProcessSlot, DueEffect;
      forall e ensures HasDue(t, n, now, results, e) <==>
        HasDue(t, n - 1, now, results, e) || DueEffect(t, n - 1, now, results, e)
      {
      }
      forall e ensures DueEffect(t, n - 1, now, results, e) <==> e in last.effects {
        DueAt(t, before.table, n - 1, now, results, e, last.effects);
      }
      hide HasDue;
    }
  }

  lemma DueAt(t: Table, before: Table, i: nat, now: Time, results: nat -> SendResult, e: Effect, effects: seq<Effect>)
    requires i < |t.pending| == |before.pending| && before.pending[i] == t.pending[i]
    requires effects == if !IsDue(t.pending[i], now) then []
                        else if t.pending[i].retriesSent < 6 then [Sent(t.pending[i].packet, now, results(i))]
                        else [Exhausted(t.pending[i].packet.sequence, now)]
    ensures DueEffect(t, i, now, results, e) <==> e in effects
  {
  }

  lemma SlotExactly(t: Table, i: nat, now: Time, result: SendResult)
    requires WellFormed(t) && i < CAPACITY
    ensures var s := ProcessSlot(t, i, now, result);
            && Advances(t.pending[i], s.table.pending[i], now)
            && (forall j :: 0 <= j < CAPACITY && j != i ==> s.table.pending[j] == t.pending[j])
            && s.effects == (if !IsDue(t.pending[i], now) then []
                             else if t.pending[i].retriesSent < 6 then [Sent(t.pending[i].packet, now, result)]
                             else [Exhausted(t.pending[i].packet.sequence, now)])
  {
    hide Transmit, RetryDelay, After, Backoff;
    TransmitKeepsIdentity();
    if t.pending[i].retriesSent < 6 { DelayIsBackoff(now, t.pending[i].retriesSent + 1); }
  }

  lemma DelayIsBackoff(now: Time, k: nat)
    requires 1 <= k <= 6
    ensures After(now, RetryDelay(if k < MAX_RETRIES then k else MAX_RETRIES - 1)) == (now + Backoff(k)) % TWO_64
  {
    assert Backoff(1) == 500 && Backoff(2) == 1000 && Backoff(3) == 2000 && Backoff(4) == 4000;
  }

  // ----- What a reset does -----

  lemma {:induction false} DiscardsExactly(pending: seq<Slot>, q: U32)
    ensures Discarded(q) in DiscardEffects(pending) <==>
            exists i :: 0 <= i < |pending| && pending[i].occupied && pending[i].packet.sequence == q
  {
    if pending != [] {
      var n := |pending| - 1;
      DiscardsExactly(pending[..n], q);
      if i :| 0 <= i < |pending| && pending[i].occupied && pending[i].packet.sequence == q {
        if i < n { assert pending[..n][i].packet.sequence == q; }
      }
    }
  }

  /** A reset discards every pending event, and none is left. */
  lemma ResetDiscardsAll(t: Table)
    ensures forall q: U32 :: Discarded(q) in Reset(t).effects <==> IsPending(t, q)
    ensures forall e :: e in Reset(t).effects ==> e.Discarded?
    ensures forall q: U32 :: !IsPending(Reset(t).table, q)
  {
    hide DiscardEffects;
    DiscardsOnly(t.pending);
    forall q: U32 ensures Discarded(q) in DiscardEffects(t.pending) <==> IsPending(t, q) { DiscardsExactly(t.pending, q); }
  }
}
