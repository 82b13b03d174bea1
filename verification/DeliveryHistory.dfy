/** What every run of the delivery table does to every single event. */
module DeliveryHistory {
  import opened DeliveryTable
  import opened Options

  // ----- Reading a trace -----

  function Last(tr: seq<Effect>): Effect
    requires tr != []
  {
    tr[|tr| - 1]
  }

  function Front(tr: seq<Effect>): seq<Effect>
    requires tr != []
  {
    tr[..|tr| - 1]
  }

  /** How often an event was handed to the transport. */
  function Sends(tr: seq<Effect>, s: U32): nat {
    if tr == [] then 0
    else Sends(Front(tr), s) + if Last(tr).Sent? && Last(tr).packet.sequence == s then 1 else 0
  }

  function AcceptedAt(tr: seq<Effect>, s: U32): Option<Time> {
    if tr == [] then None
    else if Last(tr).Accepted? && Last(tr).sequence == s then Some(Last(tr).at)
    else AcceptedAt(Front(tr), s)
  }

  predicate IsFate(e: Effect) { e.Exhausted? || e.Acknowledged? || e.Discarded? }

  /** How often an event met an end: acknowledged, given up or discarded by a reset. */
  function Fates(tr: seq<Effect>, s: U32): nat {
    if tr == [] then 0
    else Fates(Front(tr), s) + if IsFate(Last(tr)) && Last(tr).sequence == s then 1 else 0
  }

  /** The sequence numbers given out, in order. */
  function Issued(tr: seq<Effect>): seq<U32> {
    if tr == [] then []
    else Issued(Front(tr)) + if Last(tr).Accepted? then [Last(tr).sequence] else []
  }

  datatype Totals = Totals(acknowledged: nat, exhausted: nat, discarded: nat)

  function Tally(tr: seq<Effect>): Totals {
    if tr == [] then Totals(0, 0, 0)
    else
      var c := Tally(Front(tr));
      match Last(tr)
      case Acknowledged(_) => c.(acknowledged := c.acknowledged + 1)
      case Exhausted(_, _) => c.(exhausted := c.exhausted + 1)
      case Discarded(_) => c.(discarded := c.discarded + 1)
      case _ => c
  }

  function PendingCount(pending: seq<Slot>): nat {
    if pending == [] then 0
    else PendingCount(pending[..|pending| - 1]) + if pending[|pending| - 1].occupied then 1 else 0
  }

  predicate IsPending(t: Table, s: U32) {
    exists i :: 0 <= i < |t.pending| && t.pending[i].occupied && t.pending[i].packet.sequence == s
  }

  /** Least age of an event whose r-th retry is not yet due. */
  function LeastAge(r: nat): nat
    requires r <= MAX_RETRIES
  {
    (if r == 0 then 0 else LeastAge(r - 1)) + RetryDelay(if r < MAX_RETRIES then r else MAX_RETRIES - 1)
  }

  const GIVE_UP_AGE: nat := 23750

  /** An event is given up after seven sends; on a calm clock, one that does not wrap while a retry is
      outstanding, at the earliest 23,750 ms after it was accepted. */
  ghost predicate GivenUpLate(tr: seq<Effect>, s: U32, at: Time, calm: bool) {
    && Sends(tr, s) == MAX_RETRIES + 1 && AcceptedAt(tr, s).Some?
    && (calm ==> at >= AcceptedAt(tr, s).value + GIVE_UP_AGE)
  }

  ghost predicate AllGivenUpLate(tr: seq<Effect>, calm: bool) {
    tr == [] ||
    (AllGivenUpLate(Front(tr), calm) && (Last(tr).Exhausted? ==> GivenUpLate(Front(tr), Last(tr).sequence, Last(tr).at, calm)))
  }

  // ----- The invariant of every run -----

  ghost predicate SlotInv(t: Table, tr: seq<Effect>, slot: Slot, calm: bool) {
    var s := slot.packet.sequence;
    && 1 <= s <= |Issued(tr)|
    && slot.packet.bootId == t.bootId && EventIsValid(slot.packet.kind, slot.packet.level)
    && slot.retriesSent <= MAX_RETRIES
    && Sends(tr, s) == 1 + slot.retriesSent
    && AcceptedAt(tr, s).Some? && (calm ==> slot.retryDue >= AcceptedAt(tr, s).value + LeastAge(slot.retriesSent))
  }

  ghost predicate PendingDistinct(t: Table) {
    forall i, j :: 0 <= i < j < |t.pending| && t.pending[i].occupied && t.pending[j].occupied
      ==> t.pending[i].packet.sequence != t.pending[j].packet.sequence
  }

  ghost predicate SequencesInv(t: Table, tr: seq<Effect>) {
    && (forall k :: 0 <= k < |Issued(tr)| ==> Issued(tr)[k] == k + 1)
    && (if t.sequenceExhausted then |Issued(tr)| == UINT32_MAX else |Issued(tr)| == t.nextSequence - 1)
  }

  ghost predicate EventsInv(t: Table, tr: seq<Effect>) {
    forall s: U32 ::
      && Sends(tr, s) <= MAX_RETRIES + 1
      && (1 <= s <= |Issued(tr)| ==> Fates(tr, s) == if IsPending(t, s) then 0 else 1)
      && (s > |Issued(tr)| || s == 0 ==> Sends(tr, s) == 0 && Fates(tr, s) == 0)
  }

  ghost predicate CountsInv(t: Table, tr: seq<Effect>) {
    && t.retryExhausted == Tally(tr).exhausted
    && |Issued(tr)| == Tally(tr).acknowledged + Tally(tr).exhausted + Tally(tr).discarded + PendingCount(t.pending)
  }

  ghost predicate Inv(t: Table, tr: seq<Effect>, calm: bool) {
    && WellFormed(t)
    && SlotsInv(t, tr, calm) && PendingDistinct(t) && SequencesInv(t, tr) && EventsInv(t, tr) && CountsInv(t, tr) && AllGivenUpLate(tr, calm)
  }

  /** One more effect at the end of a trace. */
  lemma Push(tr: seq<Effect>, e: Effect)
    ensures forall s: U32 :: Sends(tr + [e], s) == Sends(tr, s) + if e.Sent? && e.packet.sequence == s then 1 else 0
    ensures forall s: U32 :: Fates(tr + [e], s) == Fates(tr, s) + if IsFate(e) && e.sequence == s then 1 else 0
    ensures forall s: U32 :: AcceptedAt(tr + [e], s) == if e.Accepted? && e.sequence == s then Some(e.at) else AcceptedAt(tr, s)
    ensures Issued(tr + [e]) == Issued(tr) + if e.Accepted? then [e.sequence] else []
    ensures Front(tr + [e]) == tr && Last(tr + [e]) == e
  {
    assert Front(tr + [e]) == tr;
  }

  lemma {:induction false} PendingCountUpdate(p: seq<Slot>, i: nat, slot: Slot)
    requires i < |p|
    ensures PendingCount(p[i := slot]) == PendingCount(p) - (if p[i].occupied then 1 else 0) + if slot.occupied then 1 else 0
  {
    var n := |p| - 1;
    if i == n {
      assert p[i := slot][..n] == p[..n];
    } else {
      assert p[i := slot][..n] == p[..n][i := slot];
      PendingCountUpdate(p[..n], i, slot);
    }
  }

  /** Only the counters of failed sends differ. */
  ghost predicate SameEvents(t: Table, u: Table) {
    t == u.(sendErrors := t.sendErrors, unconfiguredSends := t.unconfiguredSends, pendingFull := t.pendingFull,
            sequenceExhaustedCount := t.sequenceExhaustedCount, levelValid := t.levelValid, level := t.level)
  }

  lemma SameEventsKeepInv(t: Table, u: Table, tr: seq<Effect>, calm: bool)
    requires Inv(t, tr, calm) && SameEvents(t, u)
    ensures Inv(u, tr, calm)
  {
    hide Sends, Fates, AcceptedAt, Issued, Tally, AllGivenUpLate, PendingCount, LeastAge;
    assert u.pending == t.pending;
    assert forall s: U32 :: IsPending(u, s) == IsPending(t, s);
    hide IsPending;
    assert forall slot :: SlotInv(t, tr, slot, calm) ==> SlotInv(u, tr, slot, calm);
  }

  // ----- One slot changes -----

  ghost predicate SlotsInv(t: Table, tr: seq<Effect>, calm: bool) {
    forall i :: 0 <= i < |t.pending| && t.pending[i].occupied ==> SlotInv(t, tr, t.pending[i], calm)
  }

  /** No slot but i holds sequence s. */
  ghost predicate OnlyAt(t: Table, i: nat, s: U32) {
    forall j :: 0 <= j < |t.pending| && j != i && t.pending[j].occupied ==> t.pending[j].packet.sequence != s
  }

  /** u is t with slot i replaced by one that is free or holds sequence s. */
  ghost predicate SlotChanged(t: Table, u: Table, i: nat, s: U32) {
    && WellFormed(t) && WellFormed(u) && i < CAPACITY && u.bootId == t.bootId
    && u.pending == t.pending[i := u.pending[i]]
    && (u.pending[i].occupied ==> u.pending[i].packet.sequence == s)
    && OnlyAt(t, i, s)
  }

  /** The trace grew only by effects on sequence s. */
  ghost predicate TraceGrewFor(tr: seq<Effect>, tr': seq<Effect>, s: U32) {
    && (forall q: U32 :: q != s ==> Sends(tr', q) == Sends(tr, q) && AcceptedAt(tr', q) == AcceptedAt(tr, q))
    && |Issued(tr)| <= |Issued(tr')|
  }

  lemma SlotsKept(t: Table, u: Table, tr: seq<Effect>, tr': seq<Effect>, i: nat, s: U32, calm: bool)
    requires SlotsInv(t, tr, calm) && PendingDistinct(t) && SlotChanged(t, u, i, s) && TraceGrewFor(tr, tr', s)
    requires u.pending[i].occupied ==> SlotInv(u, tr', u.pending[i], calm)
    ensures SlotsInv(u, tr', calm) && PendingDistinct(u)
  {
    hide Sends, Fates, AcceptedAt, Issued, LeastAge, EventIsValid;
    forall j | 0 <= j < CAPACITY && u.pending[j].occupied ensures SlotInv(u, tr', u.pending[j], calm) {
      if j != i { assert SlotInv(t, tr, t.pending[j], calm); }
    }
  }

  lemma PendingKept(t: Table, u: Table, i: nat, s: U32)
    requires SlotChanged(t, u, i, s) && (t.pending[i].occupied ==> t.pending[i].packet.sequence == s)
    ensures IsPending(t, s) <==> t.pending[i].occupied
    ensures forall q: U32 :: IsPending(u, q) <==> if q == s then u.pending[i].occupied else IsPending(t, q)
  {
    forall q: U32 ensures IsPending(u, q) <==> if q == s then u.pending[i].occupied else IsPending(t, q) {
      if q == s && u.pending[i].occupied {
        assert u.pending[i].packet.sequence == s;
      } else if IsPending(t, q) {
        var j :| 0 <= j < CAPACITY && t.pending[j].occupied && t.pending[j].packet.sequence == q;
        assert j != i ==> u.pending[j] == t.pending[j];
      }
    }
  }

  lemma Unique(t: Table, i: nat)
    requires WellFormed(t) && PendingDistinct(t) && i < CAPACITY && t.pending[i].occupied
    ensures OnlyAt(t, i, t.pending[i].packet.sequence)
  {
  }

  // ----- One event ends -----

  /** The table after an occupied slot is freed for the reason e. */
  function Freed(t: Table, i: nat, slot: Slot, e: Effect): Table
    requires i < |t.pending|
  {
    t.(pending := t.pending[i := slot],
       retryExhausted := if e.Exhausted? then Saturating(t.retryExhausted) else t.retryExhausted)
  }

  lemma FreeKeepsInv(t: Table, tr: seq<Effect>, i: nat, slot: Slot, e: Effect, calm: bool)
    requires Inv(t, tr, calm) && i < CAPACITY && t.pending[i].occupied
    requires !slot.occupied && slot.retriesSent <= MAX_RETRIES
    requires IsFate(e) && e.sequence == t.pending[i].packet.sequence
    requires e.Exhausted? ==> GivenUpLate(tr, e.sequence, e.at, calm)
    ensures Inv(Freed(t, i, slot, e), tr + [e], calm)
  {
    var u, tr', s := Freed(t, i, slot, e), tr + [e], e.sequence;
    Push(tr, e);
    FreeKeepsCounts(t, tr, i, slot, e, calm);
    hide Sends, Fates, AcceptedAt, Issued, Tally, AllGivenUpLate, PendingCount, CountsInv, IsPending;
    assert SlotInv(t, tr, t.pending[i], calm);
    hide SlotInv;
    Unique(t, i);
    SlotsKept(t, u, tr, tr', i, s, calm);
    PendingKept(t, u, i, s);
  }

  lemma FreeKeepsCounts(t: Table, tr: seq<Effect>, i: nat, slot: Slot, e: Effect, calm: bool)
    requires WellFormed(t) && CountsInv(t, tr) && i < CAPACITY && t.pending[i].occupied && !slot.occupied
    requires IsFate(e) && |Issued(tr)| <= UINT32_MAX && AllGivenUpLate(tr, calm)
    requires e.Exhausted? ==> GivenUpLate(tr, e.sequence, e.at, calm)
    ensures CountsInv(Freed(t, i, slot, e), tr + [e]) && AllGivenUpLate(tr + [e], calm)
  {
    assert Front(tr + [e]) == tr;
    PendingCountUpdate(t.pending, i, slot);
    PendingPositive(t.pending, i);
  }

  lemma {:induction false} PendingPositive(p: seq<Slot>, i: nat)
    requires i < |p| && p[i].occupied
    ensures PendingCount(p) >= 1
  {
    if i < |p| - 1 { PendingPositive(p[..|p| - 1], i); }
  }

  // ----- One event is sent again -----

  function DelayAfter(retries: nat): (d: nat)
    requires retries <= MAX_RETRIES
    ensures 250 <= d <= LONGEST_DELAY
  {
    RetryDelay(if retries < MAX_RETRIES then retries else MAX_RETRIES - 1)
  }

  function Resent(slot: Slot, now: Time): Slot
    requires slot.retriesSent < MAX_RETRIES
  {
    slot.(retriesSent := slot.retriesSent + 1, retryDue := After(now, DelayAfter(slot.retriesSent + 1)))
  }

  lemma ResendKeepsInv(t: Table, tr: seq<Effect>, i: nat, now: Time, result: SendResult, calm: bool)
    requires Inv(t, tr, calm) && i < CAPACITY && t.pending[i].occupied && (calm ==> now + LONGEST_DELAY < TWO_64)
    requires now >= t.pending[i].retryDue && t.pending[i].retriesSent < MAX_RETRIES
    ensures Inv(t.(pending := t.pending[i := Resent(t.pending[i], now)]), tr + [Sent(t.pending[i].packet, now, result)], calm)
  {
    var slot := t.pending[i];
    var u := t.(pending := t.pending[i := Resent(slot, now)]);
    var s := slot.packet.sequence;
    var tr' := tr + [Sent(slot.packet, now, result)];
    Push(tr, Sent(slot.packet, now, result));
    SentKeepsTally(tr, Sent(slot.packet, now, result), calm);
    PendingCountUpdate(t.pending, i, Resent(slot, now));
    ResentSlotInv(t, tr, slot, now, result, calm);
    hide Sends, Fates, AcceptedAt, Issued, Tally, AllGivenUpLate, PendingCount, IsPending, Resent;
    assert SlotInv(t, tr, slot, calm) && Sends(tr, s) <= MAX_RETRIES;
    assert Resent(slot, now).packet == slot.packet && Resent(slot, now).occupied by { ResentSame(slot, now); }
    hide SlotInv;
    Unique(t, i);
    SlotsKept(t, u, tr, tr', i, s, calm);
    PendingKept(t, u, i, s);
  }

  lemma ResentSame(slot: Slot, now: Time)
    requires slot.retriesSent < MAX_RETRIES
    ensures Resent(slot, now).packet == slot.packet && Resent(slot, now).occupied == slot.occupied
  {
  }

  lemma ResentSlotInv(t: Table, tr: seq<Effect>, slot: Slot, now: Time, result: SendResult, calm: bool)
    requires SlotInv(t, tr, slot, calm) && (calm ==> now + LONGEST_DELAY < TWO_64)
    requires now >= slot.retryDue && slot.retriesSent < MAX_RETRIES
    ensures SlotInv(t, tr + [Sent(slot.packet, now, result)], Resent(slot, now), calm)
  {
    var r := slot.retriesSent + 1;
    Push(tr, Sent(slot.packet, now, result));
    assert LeastAge(r) == LeastAge(r - 1) + DelayAfter(r);
    hide Sends, Fates, AcceptedAt, Issued, LeastAge, DelayAfter;
  }

  lemma SentKeepsTally(tr: seq<Effect>, e: Effect, calm: bool)
    requires e.Sent?
    ensures Tally(tr + [e]) == Tally(tr) && (AllGivenUpLate(tr, calm) ==> AllGivenUpLate(tr + [e], calm))
  {
    assert Front(tr + [e]) == tr;
  }

  // ----- A new event -----

  /** The table after a new event took slot i. */
  function Admitted(t: Table, i: nat, kind: EventKind, level: bool, now: Time): Table
    requires i < |t.pending|
  {
    var s := t.nextSequence;
    var t2 := if s == UINT32_MAX then t.(sequenceExhausted := true) else t.(nextSequence := s + 1);
    t2.(pending := t.pending[i := Slot(true, Packet(t.bootId, s, kind, level), After(now, RetryDelay(0)), 0)])
  }

  lemma AcceptKeepsInv(t: Table, tr: seq<Effect>, i: nat, kind: EventKind, level: bool, now: Time, result: SendResult,
                       calm: bool)
    requires Inv(t, tr, calm) && i < CAPACITY && !t.pending[i].occupied && !t.sequenceExhausted
    requires EventIsValid(kind, level) && (calm ==> now + LONGEST_DELAY < TWO_64)
    ensures var u := Admitted(t, i, kind, level, now);
            Inv(u, tr + [Accepted(t.nextSequence, now), Sent(u.pending[i].packet, now, result)], calm)
  {
    hide Sends, Fates, AcceptedAt, Issued, Tally, AllGivenUpLate, PendingCount, IsPending;
    var s, u := t.nextSequence, Admitted(t, i, kind, level, now);
    var sent := Sent(u.pending[i].packet, now, result);
    var tr' := tr + [Accepted(s, now), sent];
    AcceptTrace(tr, s, now, sent, calm);
    PendingCountUpdate(t.pending, i, u.pending[i]);
    assert LeastAge(0) == 250;
    assert OnlyAt(t, i, s) by {
      forall j | 0 <= j < CAPACITY && t.pending[j].occupied ensures t.pending[j].packet.sequence != s {
        assert SlotInv(t, tr, t.pending[j], calm);
      }
    }
    assert SlotInv(u, tr', u.pending[i], calm);
    hide SlotInv;
    SlotsKept(t, u, tr, tr', i, s, calm);
    PendingKept(t, u, i, s);
  }

  lemma AcceptTrace(tr: seq<Effect>, s: U32, now: Time, sent: Effect, calm: bool)
    requires sent.Sent? && sent.packet.sequence == s
    ensures var tr' := tr + [Accepted(s, now), sent];
            && (forall q: U32 :: Sends(tr', q) == Sends(tr, q) + if q == s then 1 else 0)
            && (forall q: U32 :: Fates(tr', q) == Fates(tr, q))
            && (forall q: U32 :: AcceptedAt(tr', q) == if q == s then Some(now) else AcceptedAt(tr, q))
            && Issued(tr') == Issued(tr) + [s] && Tally(tr') == Tally(tr)
            && (AllGivenUpLate(tr, calm) ==> AllGivenUpLate(tr', calm))
  {
    var tr1 := tr + [Accepted(s, now)];
    assert tr + [Accepted(s, now), sent] == tr1 + [sent];
    Push(tr, Accepted(s, now));
    Push(tr1, sent);
    SentKeepsTally(tr1, sent, calm);
    assert Tally(tr1) == Tally(tr);
    assert AllGivenUpLate(tr, calm) ==> AllGivenUpLate(tr1, calm);
  }

  // ----- Operations and runs -----

  datatype Op =
    | SubmitOp(kind: EventKind, level: bool, now: Time, result: SendResult)
    | ProcessOp(now: Time, results: nat -> SendResult)
    | AckOp(bootId: U32, sequence: U32)
    | ResetOp

  /** The 64-bit millisecond clock does not wrap while a retry is outstanding. */
  predicate NotWrapping(op: Op) {
    (op.SubmitOp? || op.ProcessOp?) ==> op.now + LONGEST_DELAY < TWO_64
  }

  function Apply(t: Table, op: Op): (s: Step)
    requires WellFormed(t)
    ensures WellFormed(s.table)
  {
    match op
    case SubmitOp(kind, level, now, result) => Submit(t, kind, level, now, result)
    case ProcessOp(now, results) => Process(t, CAPACITY, now, results)
    case AckOp(bootId, sequence) => OnAck(t, bootId, sequence)
    case ResetOp => Reset(t)
  }

  function Run(bootId: U32, hasTransport: bool, ops: seq<Op>): (s: Step)
    ensures WellFormed(s.table)
  {
    if ops == [] then Step(Initial(bootId, hasTransport), [])
    else
      var before := Run(bootId, hasTransport, ops[..|ops| - 1]);
      var last := Apply(before.table, ops[|ops| - 1]);
      Step(last.table, before.effects + last.effects)
  }

  lemma SubmitKeepsInv(t: Table, tr: seq<Effect>, kind: EventKind, level: bool, now: Time, result: SendResult, calm: bool)
    requires Inv(t, tr, calm) && (calm ==> now + LONGEST_DELAY < TWO_64)
    ensures var s := Submit(t, kind, level, now, result); Inv(s.table, tr + s.effects, calm)
  {
    hide Inv, FirstFree;
    assert WellFormed(t) by { InvParts(t, tr, calm); }
    assert tr + [] == tr;
    if EventIsValid(kind, level) {
      var t1 := t.(levelValid := true, level := level);
      SameEventsKeepInv(t, t1, tr, calm);
      var i := FirstFree(t1.pending, 0);
      var s := Submit(t, kind, level, now, result);
      if i == |t1.pending| || t1.sequenceExhausted {
        SameEventsKeepInv(t1, s.table, tr, calm);
      } else {
        AcceptKeepsInv(t1, tr, i, kind, level, now, result, calm);
        SameEventsKeepInv(Admitted(t1, i, kind, level, now), s.table, tr + s.effects, calm);
      }
    }
  }

  lemma InvParts(t: Table, tr: seq<Effect>, calm: bool)
    requires Inv(t, tr, calm)
    ensures WellFormed(t)
    ensures forall i :: 0 <= i < CAPACITY && t.pending[i].occupied ==> SlotInv(t, tr, t.pending[i], calm)
  {
  }

  lemma ProcessSlotKeepsInv(t: Table, tr: seq<Effect>, i: nat, now: Time, result: SendResult, calm: bool)
    requires Inv(t, tr, calm) && i < CAPACITY && (calm ==> now + LONGEST_DELAY < TWO_64)
    ensures var s := ProcessSlot(t, i, now, result); Inv(s.table, tr + s.effects, calm)
  {
    hide Inv, SlotInv;
    InvParts(t, tr, calm);
    assert tr + [] == tr;
    var slot := t.pending[i];
    if slot.occupied && now >= slot.retryDue {
      if slot.retriesSent == MAX_RETRIES {
        LastSlotGivesUpLate(t, tr, slot, now, calm);
        FreeKeepsInv(t, tr, i, slot.(occupied := false), Exhausted(slot.packet.sequence, now), calm);
      } else {
        ResendKeepsInv(t, tr, i, now, result, calm);
        var u := t.(pending := t.pending[i := Resent(slot, now)]);
        var s := ProcessSlot(t, i, now, result);
        SameEventsKeepInv(u, s.table, tr + s.effects, calm);
      }
    }
  }

  lemma LastSlotGivesUpLate(t: Table, tr: seq<Effect>, slot: Slot, now: Time, calm: bool)
    requires SlotInv(t, tr, slot, calm) && slot.retriesSent == MAX_RETRIES && now >= slot.retryDue
    ensures GivenUpLate(tr, slot.packet.sequence, now, calm)
  {
    assert LeastAge(6) == GIVE_UP_AGE by {
      assert LeastAge(1) == 750;
      assert LeastAge(3) == 3750;
      assert LeastAge(5) == 15750;
    }
  }

  lemma {:induction false} ProcessKeepsInv(t: Table, tr: seq<Effect>, n: nat, now: Time, results: nat -> SendResult, calm: bool)
    requires Inv(t, tr, calm) && n <= CAPACITY && (calm ==> now + LONGEST_DELAY < TWO_64)
    ensures var s := Process(t, n, now, results); Inv(s.table, tr + s.effects, calm)
  {
    hide Inv, ProcessSlot;
    InvParts(t, tr, calm);
    if n == 0 {
      assert tr + [] == tr;
    } else {
      ProcessKeepsInv(t, tr, n - 1, now, results, calm);
      var before := Process(t, n - 1, now, results);
      ProcessSlotKeepsInv(before.table, tr + before.effects, n - 1, now, results(n - 1), calm);
      var last := ProcessSlot(before.table, n - 1, now, results(n - 1));
      assert tr + (before.effects + last.effects) == (tr + before.effects) + last.effects;
    }
  }

  lemma AckKeepsInv(t: Table, tr: seq<Effect>, bootId: U32, sequence: U32, calm: bool)
    requires Inv(t, tr, calm)
    ensures var s := OnAck(t, bootId, sequence); Inv(s.table, tr + s.effects, calm)
  {
    hide Inv, FirstAck;
    InvParts(t, tr, calm);
    assert tr + [] == tr;
    var i := FirstAck(t.pending, bootId, sequence, 0);
    if bootId == t.bootId && i < |t.pending| {
      FreeKeepsInv(t, tr, i, t.pending[i].(occupied := false), Acknowledged(sequence), calm);
    }
  }

  /** The first n slots cleared. */
  function Cleared(t: Table, n: nat): Table
    requires |t.pending| == CAPACITY && n <= CAPACITY
  {
    t.(pending := seq(n, i => FREE) + t.pending[n..])
  }

  lemma ClearedStep(t: Table, n: nat)
    requires WellFormed(t) && n < CAPACITY
    ensures Cleared(t, n).pending[n] == t.pending[n]
    ensures Cleared(t, n + 1) == Cleared(t, n).(pending := Cleared(t, n).pending[n := FREE])
    ensures DiscardEffects(t.pending[..n + 1])
         == DiscardEffects(t.pending[..n]) + if t.pending[n].occupied then [Discarded(t.pending[n].packet.sequence)] else []
  {
    assert t.pending[..n + 1][..n] == t.pending[..n];
    assert Cleared(t, n + 1).pending == Cleared(t, n).pending[n := FREE];
  }

  lemma {:induction false} ClearingKeepsInv(t: Table, tr: seq<Effect>, n: nat, calm: bool)
    requires Inv(t, tr, calm) && n <= CAPACITY
    ensures Inv(Cleared(t, n), tr + DiscardEffects(t.pending[..n]), calm)
  {
    hide Inv;
    InvParts(t, tr, calm);
    if n == 0 {
      assert Cleared(t, 0).pending == t.pending;
      assert tr + [] == tr;
    } else {
      ClearingKeepsInv(t, tr, n - 1, calm);
      ClearedStep(t, n - 1);
      hide Cleared, DiscardEffects, SlotInv;
      var u, gone := Cleared(t, n - 1), DiscardEffects(t.pending[..n - 1]);
      var slot := t.pending[n - 1];
      if slot.occupied {
        FreeKeepsInv(u, tr + gone, n - 1, FREE, Discarded(slot.packet.sequence), calm);
        assert tr + (gone + [Discarded(slot.packet.sequence)]) == (tr + gone) + [Discarded(slot.packet.sequence)];
      } else {
        IdleSlotReplaced(u, tr + gone, n - 1, calm);
        assert gone + [] == gone;
      }
    }
  }

  lemma IdleSlotReplaced(t: Table, tr: seq<Effect>, i: nat, calm: bool)
    requires Inv(t, tr, calm) && i < CAPACITY && !t.pending[i].occupied
    ensures Inv(t.(pending := t.pending[i := FREE]), tr, calm)
  {
    var u := t.(pending := t.pending[i := FREE]);
    PendingCountUpdate(t.pending, i, FREE);
    hide Sends, Fates, AcceptedAt, Issued, Tally, AllGivenUpLate, PendingCount, IsPending, SlotInv;
    assert OnlyAt(t, i, 0) by { InvParts(t, tr, calm); NoZero(t, tr, calm); }
    SlotsKept(t, u, tr, tr, i, 0, calm);
    PendingKept(t, u, i, 0);
  }

  lemma NoZero(t: Table, tr: seq<Effect>, calm: bool)
    requires SlotsInv(t, tr, calm)
    ensures forall j :: 0 <= j < |t.pending| && t.pending[j].occupied ==> t.pending[j].packet.sequence != 0
  {
  }

  lemma {:induction false} PendingNone(p: seq<Slot>)
    requires forall i :: 0 <= i < |p| ==> !p[i].occupied
    ensures PendingCount(p) == 0
  {
    if p != [] { PendingNone(p[..|p| - 1]); }
  }

  lemma InitialKeeps(bootId: U32, hasTransport: bool, calm: bool)
    ensures Inv(Initial(bootId, hasTransport), [], calm)
  {
    PendingNone(Initial(bootId, hasTransport).pending);
  }

  lemma ResetKeepsInv(t: Table, tr: seq<Effect>, calm: bool)
    requires Inv(t, tr, calm)
    ensures Inv(Reset(t).table, tr + Reset(t).effects, calm)
  {
    hide Inv;
    InvParts(t, tr, calm);
    ClearingKeepsInv(t, tr, CAPACITY, calm);
    assert Cleared(t, CAPACITY).pending == Reset(t).table.pending;
    assert t.pending[..CAPACITY] == t.pending;
  }

  lemma OpKeepsInv(t: Table, tr: seq<Effect>, op: Op, calm: bool)
    requires WellFormed(t) && Inv(t, tr, calm) && (calm ==> NotWrapping(op))
    ensures Inv(Apply(t, op).table, tr + Apply(t, op).effects, calm)
  {
    hide Inv, Process, Submit, OnAck, Reset;
    match op {
      case SubmitOp(kind, level, now, result) => SubmitKeepsInv(t, tr, kind, level, now, result, calm);
      case ProcessOp(now, results) => ProcessKeepsInv(t, tr, CAPACITY, now, results, calm);
      case AckOp(bootId, sequence) => AckKeepsInv(t, tr, bootId, sequence, calm);
      case ResetOp => ResetKeepsInv(t, tr, calm);
    }
  }

  lemma {:induction false} RunKeepsInv(bootId: U32, hasTransport: bool, ops: seq<Op>, calm: bool)
    requires calm ==> forall k :: 0 <= k < |ops| ==> NotWrapping(ops[k])
    ensures var s := Run(bootId, hasTransport, ops); Inv(s.table, s.effects, calm)
  {
    hide Inv, Initial, Apply;
    if ops == [] {
      InitialKeeps(bootId, hasTransport, calm);
    } else {
      var n := |ops| - 1;
      RunKeepsInv(bootId, hasTransport, ops[..n], calm);
      var before := Run(bootId, hasTransport, ops[..n]);
      OpKeepsInv(before.table, before.effects, ops[n], calm);
    }
  }

  // ----- What the invariant means -----

  /** Every accepted event is pending or has met exactly one end, and the totals add up; the
      give-up counter is exact, it can never saturate. */
  lemma Conservation(bootId: U32, hasTransport: bool, ops: seq<Op>)
    ensures var s := Run(bootId, hasTransport, ops);
            var c := Tally(s.effects);
            && |Issued(s.effects)| == c.acknowledged + c.exhausted + c.discarded + PendingCount(s.table.pending)
            && s.table.retryExhausted == c.exhausted
            && forall q: U32 :: 1 <= q <= |Issued(s.effects)| ==>
                 Fates(s.effects, q) == if IsPending(s.table, q) then 0 else 1
  {
    RunKeepsInv(bootId, hasTransport, ops, false);
    hide Run, Tally, Issued, Fates, Sends, PendingCount;
  }

  /** The k-th accepted event carries sequence k, with no gap and no reuse, and no two pending
      events share a sequence. */
  lemma SequencesAreConsecutive(bootId: U32, hasTransport: bool, ops: seq<Op>)
    ensures var s := Run(bootId, hasTransport, ops);
            && |Issued(s.effects)| <= UINT32_MAX
            && (forall k :: 0 <= k < |Issued(s.effects)| ==> Issued(s.effects)[k] == k + 1)
            && PendingDistinct(s.table)
            && (s.table.sequenceExhausted <==> |Issued(s.effects)| == UINT32_MAX)
  {
    RunKeepsInv(bootId, hasTransport, ops, false);
    hide Run, Tally, Issued, Fates, Sends, PendingCount;
  }

  /** No event is sent more than seven times, and one given up at step p had been sent seven times;
      on a calm clock it had been accepted at least 23,750 ms before. */
  lemma PatienceIsBounded(bootId: U32, hasTransport: bool, ops: seq<Op>, calm: bool)
    requires calm ==> forall k :: 0 <= k < |ops| ==> NotWrapping(ops[k])
    ensures var tr := Run(bootId, hasTransport, ops).effects;
            && (forall q: U32 :: Sends(tr, q) <= 7)
            && forall p :: 0 <= p < |tr| && tr[p].Exhausted? ==> GivenUpLate(tr[..p], tr[p].sequence, tr[p].at, calm)
  {
    RunKeepsInv(bootId, hasTransport, ops, calm);
    hide Run, Tally, Issued, Fates, Sends, PendingCount;
    var tr := Run(bootId, hasTransport, ops).effects;
    forall p | 0 <= p < |tr| && tr[p].Exhausted? ensures GivenUpLate(tr[..p], tr[p].sequence, tr[p].at, calm) {
      GivenUpLateAt(tr, p, calm);
    }
  }

  lemma {:induction false} GivenUpLateAt(tr: seq<Effect>, p: nat, calm: bool)
    requires AllGivenUpLate(tr, calm) && p < |tr| && tr[p].Exhausted?
    ensures GivenUpLate(tr[..p], tr[p].sequence, tr[p].at, calm)
  {
    if p < |tr| - 1 {
      GivenUpLateAt(Front(tr), p, calm);
      assert Front(tr)[..p] == tr[..p];
    }
  }

  /** An acknowledgement ends exactly the pending event it names, in this boot only. */
  lemma AcknowledgementIsExact(t: Table, tr: seq<Effect>, bootId: U32, sequence: U32)
    requires Inv(t, tr, false)
    ensures OnAck(t, bootId, sequence).effects
         == if bootId == t.bootId && IsPending(t, sequence) then [Acknowledged(sequence)] else []
    ensures forall q: U32 ::
      IsPending(OnAck(t, bootId, sequence).table, q) <==> IsPending(t, q) && !(bootId == t.bootId && q == sequence)
  {
    hide FirstAck, Sends, Fates, AcceptedAt, Issued, Tally, PendingCount, AllGivenUpLate, LeastAge;
    InvParts(t, tr, false);
    var i := FirstAck(t.pending, bootId, sequence, 0);
    if bootId == t.bootId && IsPending(t, sequence) {
      var j :| 0 <= j < CAPACITY && t.pending[j].occupied && t.pending[j].packet.sequence == sequence;
      assert AckMatches(t.pending[j], bootId, sequence);
    }
    if bootId == t.bootId && i < |t.pending| {
      assert IsPending(t, sequence);
      Unique(t, i);
      PendingKept(t, OnAck(t, bootId, sequence).table, i, sequence);
    }
  }

  // ----- Deadlines -----

  lemma ProcessSlotIsAhead(t: Table, i: nat, now: Time, result: SendResult)
    requires WellFormed(t) && i < CAPACITY && now + LONGEST_DELAY < TWO_64
    ensures var slot := ProcessSlot(t, i, now, result).table.pending[i]; slot.occupied ==> slot.retryDue > now
    ensures forall j :: 0 <= j < CAPACITY && j != i ==> ProcessSlot(t, i, now, result).table.pending[j] == t.pending[j]
  {
    hide Transmit, RetryDelay, After;
    var slot := t.pending[i];
    var retries := slot.retriesSent + 1;
    TransmitKeepsSlots(t, slot.packet, result);
    if slot.retriesSent < MAX_RETRIES { DelayIsAhead(now, if retries < MAX_RETRIES then retries else MAX_RETRIES - 1); }
  }

  lemma TransmitKeepsSlots(t: Table, packet: Packet, result: SendResult)
    ensures Transmit(t, packet, result).pending == t.pending
  {
  }

  lemma DelayIsAhead(now: Time, index: nat)
    requires index < MAX_RETRIES && now + LONGEST_DELAY < TWO_64
    ensures After(now, RetryDelay(index)) > now
  {
  }

  lemma {:induction false} ProcessedSlotIsAhead(t: Table, n: nat, now: Time, results: nat -> SendResult, i: nat)
    requires WellFormed(t) && now + LONGEST_DELAY < TWO_64 && i < n <= CAPACITY
    ensures var slot := Process(t, n, now, results).table.pending[i]; slot.occupied ==> slot.retryDue > now
  {
    hide ProcessSlot;
    ProcessSlotIsAhead(Process(t, n - 1, now, results).table, n - 1, now, results(n - 1));
    if i < n - 1 { ProcessedSlotIsAhead(t, n - 1, now, results, i); }
  }

  /** After process_time(now) the next deadline lies ahead. */
  lemma DeadlineIsAhead(t: Table, now: Time, results: nat -> SendResult)
    requires WellFormed(t) && now + LONGEST_DELAY < TWO_64
    ensures NextDeadline(Process(t, CAPACITY, now, results).table.pending, CAPACITY) > now
  {
    var pending := Process(t, CAPACITY, now, results).table.pending;
    forall i | 0 <= i < CAPACITY && pending[i].occupied ensures pending[i].retryDue > now {
      ProcessedSlotIsAhead(t, CAPACITY, now, results, i);
    }
  }

  /** Before the next deadline process_time changes nothing and sends nothing. */
  lemma {:induction false} NothingBeforeDeadline(t: Table, now: Time, results: nat -> SendResult, n: nat)
    requires WellFormed(t) && now < NextDeadline(t.pending, CAPACITY) && n <= CAPACITY
    ensures Process(t, n, now, results) == Step(t, [])
  {
    if n > 0 { NothingBeforeDeadline(t, now, results, n - 1); }
  }
}
