/** The duplicate filter of the Light Lightness Server: a fixed array of recent transactions that
    stands in for an unbounded map from message key to first sighting. */
module TransactionCache {

  const CAPACITY: nat := 32
  const WINDOW_MS: nat := 6000
  const TWO_64: nat := 0x1_0000_0000_0000_0000

  type Time = t: int | 0 <= t < TWO_64 witness 0

  type Word = n: nat | n < 0x1_0000

  type Byte = n: nat | n < 0x100

  datatype Key = Key(source: Word, destination: Word, tid: Byte)

  datatype Entry = Entry(firstSeen: Time, key: Key, occupied: bool)

  /** Unsigned 64-bit subtraction. */
  function Elapsed(now: Time, then_: Time): Time { (now - then_) % TWO_64 }

  predicate Live(e: Entry, now: Time) { e.occupied && Elapsed(now, e.firstSeen) < WINDOW_MS }

  /** The first slot from i on that holds the key. */
  function Find(es: seq<Entry>, key: Key, i: nat): (r: nat)
    requires i <= |es|
    ensures i <= r <= |es|
    ensures r < |es| ==> es[r].occupied && es[r].key == key
    ensures forall j :: i <= j < r ==> !(es[j].occupied && es[j].key == key)
    decreases |es| - i
  {
    if i == |es| || (es[i].occupied && es[i].key == key) then i else Find(es, key, i + 1)
  }

  /** The first slot from i on that is empty or expired. */
  function Reusable(es: seq<Entry>, now: Time, i: nat): (r: nat)
    requires i <= |es|
    ensures i <= r <= |es|
    ensures r < |es| ==> !Live(es[r], now)
    ensures forall j :: i <= j < r ==> Live(es[j], now)
    decreases |es| - i
  {
    if i == |es| || !Live(es[i], now) then i else Reusable(es, now, i + 1)
  }

  datatype Champion = Champion(index: nat, elapsed: Time)

  /** The first occupied slot among the first n with the greatest age; slot 0 if no age is positive. */
  function Oldest(es: seq<Entry>, now: Time, n: nat): (c: Champion)
    requires n <= |es|
    ensures forall j :: 0 <= j < n && es[j].occupied ==> Elapsed(now, es[j].firstSeen) <= c.elapsed
    ensures c.elapsed > 0 ==> c.index < n && es[c.index].occupied && Elapsed(now, es[c.index].firstSeen) == c.elapsed
    ensures c.elapsed == 0 ==> c.index == 0
  {
    if n == 0 then Champion(0, 0)
    else
      var c := Oldest(es, now, n - 1);
      if es[n - 1].occupied && Elapsed(now, es[n - 1].firstSeen) > c.elapsed
      then Champion(n - 1, Elapsed(now, es[n - 1].firstSeen)) else c
  }

  datatype Answer = Answer(duplicate: bool, entries: seq<Entry>)

  function Target(es: seq<Entry>, now: Time): (r: nat)
    requires |es| == CAPACITY
    ensures r < |es|
  {
    if Reusable(es, now, 0) < |es| then Reusable(es, now, 0) else Oldest(es, now, |es|).index
  }

  /** One call on the whole array. */
  function Ask(es: seq<Entry>, key: Key, now: Time): (a: Answer)
    requires |es| == CAPACITY
    ensures |a.entries| == CAPACITY
  {
    var i := Find(es, key, 0);
    if i < |es| then
      if Elapsed(now, es[i].firstSeen) < WINDOW_MS then Answer(true, es)
      else Answer(false, es[i := es[i].(firstSeen := now)])
    else Answer(false, es[Target(es, now) := Entry(now, key, true)])
  }

  class Cache {
    const entries: array<Entry>

    ghost predicate Valid() { entries.Length == CAPACITY }

    constructor ()
      ensures Valid() && fresh(entries)
      ensures entries[..] == Empty()
    {
      entries := new Entry[CAPACITY](i => Entry(0, Key(0, 0, 0), false));
    }

    method IsDuplicate(key: Key, now: Time) returns (duplicate: bool)
      requires Valid()
      modifies entries
      ensures Answer(duplicate, entries[..]) == Ask(old(entries[..]), key, now)
    {
      ghost var es := entries[..];
      var reusableIndex: nat := CAPACITY;
      var oldestIndex: nat, oldestElapsed: Time := 0, 0;
      for index := 0 to CAPACITY
        invariant entries[..] == es
        invariant Find(es, key, 0) == Find(es, key, index)
        invariant reusableIndex == CAPACITY ==> Reusable(es, now, 0) == Reusable(es, now, index)
        invariant reusableIndex < CAPACITY ==> Reusable(es, now, 0) == reusableIndex
        invariant reusableIndex <= CAPACITY
        invariant Champion(oldestIndex, oldestElapsed) == Oldest(es, now, index)
      {
        var entry := entries[index];
        assert entry == es[index];
        if !entry.occupied {
          if reusableIndex == CAPACITY { reusableIndex := index; }
          continue;
        }
        var elapsed := Elapsed(now, entry.firstSeen);
        if entry.key == key {
          if elapsed < WINDOW_MS { return true; }
          entries[index] := entry.(firstSeen := now);
          return false;
        }
        if elapsed >= WINDOW_MS && reusableIndex == CAPACITY { reusableIndex := index; }
        if elapsed > oldestElapsed { oldestIndex, oldestElapsed := index, elapsed; }
      }
      var target := if reusableIndex == CAPACITY then oldestIndex else reusableIndex;
      entries[target] := Entry(now, key, true);
      return false;
    }
  }

  function Empty(): seq<Entry> { seq(CAPACITY, i => Entry(0, Key(0, 0, 0), false)) }

  // ----- What is evicted -----

  /** A live transaction is only ever displaced when every slot is live, and then none is older. */
  lemma EvictsOldestOnlyWhenFull(es: seq<Entry>, key: Key, now: Time, j: nat)
    requires |es| == CAPACITY && j < CAPACITY
    requires Live(es[j], now) && Ask(es, key, now).entries[j] != es[j]
    ensures forall k :: 0 <= k < CAPACITY ==> Live(es[k], now) && es[k].key != key
    ensures forall k :: 0 <= k < CAPACITY ==> Elapsed(now, es[k].firstSeen) <= Elapsed(now, es[j].firstSeen)
  {
    assert Find(es, key, 0) == CAPACITY;
    assert j == Target(es, now);
    assert Reusable(es, now, 0) == CAPACITY;
  }

  // ----- Runs -----

  datatype Call = Call(key: Key, now: Time)

  ghost predicate Nondecreasing(calls: seq<Call>) {
    forall i, j :: 0 <= i <= j < |calls| ==> calls[i].now <= calls[j].now
  }

  function After(calls: seq<Call>): (es: seq<Entry>)
    ensures |es| == CAPACITY
  {
    if calls == [] then Empty()
    else
      var last := calls[|calls| - 1];
      Ask(After(calls[..|calls| - 1]), last.key, last.now).entries
  }

  /** The answer to the i-th call of a run. */
  predicate Verdict(calls: seq<Call>, i: nat)
    requires i < |calls|
  {
    Ask(After(calls[..i]), calls[i].key, calls[i].now).duplicate
  }

  /** An entry stands for a call that was answered "not a duplicate". */
  ghost predicate Sighted(calls: seq<Call>, e: Entry, j: nat) {
    j < |calls| && calls[j] == Call(e.key, e.firstSeen) && !Verdict(calls, j)
  }

  lemma {:induction false} EntriesWereSighted(calls: seq<Call>, slot: nat) returns (j: nat)
    requires slot < CAPACITY && After(calls)[slot].occupied
    ensures Sighted(calls, After(calls)[slot], j)
  {
    j := 0;
    if calls != [] {
      var n := |calls| - 1;
      var before := After(calls[..n]);
      if After(calls)[slot] == before[slot] {
        j := EntriesWereSighted(calls[..n], slot);
        assert calls[..n][..j] == calls[..j];
      } else {
        j := n;
      }
    }
  }

  /** Under any load a reported duplicate has a first sighting less than 6000 ms earlier. */
  lemma DuplicatesAreReal(calls: seq<Call>, i: nat) returns (j: nat)
    requires Nondecreasing(calls) && i < |calls| && Verdict(calls, i)
    ensures j < i && calls[j].key == calls[i].key && !Verdict(calls, j)
    ensures calls[i].now - calls[j].now < WINDOW_MS
  {
    var es := After(calls[..i]);
    j := EntriesWereSighted(calls[..i], Find(es, calls[i].key, 0));
    assert calls[..i][..j] == calls[..j];
  }

  // ----- The unbounded first-seen map -----

  predicate MapDuplicate(m: map<Key, Time>, call: Call) {
    call.key in m && call.now - m[call.key] < WINDOW_MS
  }

  function Record(m: map<Key, Time>, call: Call): map<Key, Time> {
    if MapDuplicate(m, call) then m else m[call.key := call.now]
  }

  function FirstSeen(calls: seq<Call>): map<Key, Time> {
    if calls == [] then map[] else Record(FirstSeen(calls[..|calls| - 1]), calls[|calls| - 1])
  }

  /** The other keys whose transaction is still open at a call. */
  function OtherLive(m: map<Key, Time>, call: Call): set<Key> {
    set k | k in m && k != call.key && call.now - m[k] < WINDOW_MS
  }

  ghost predicate Distinct(es: seq<Entry>) {
    forall i, j :: 0 <= i < j < |es| && es[i].occupied && es[j].occupied ==> es[i].key != es[j].key
  }

  ghost predicate Holds(es: seq<Entry>, k: Key) { exists i :: 0 <= i < |es| && es[i].occupied && es[i].key == k }

  /** The array remembers exactly what the map remembers of the window that ends at now. */
  ghost predicate Agrees(es: seq<Entry>, m: map<Key, Time>, now: Time) {
    && |es| == CAPACITY && Distinct(es)
    && (forall i :: 0 <= i < |es| && es[i].occupied ==> es[i].key in m && m[es[i].key] == es[i].firstSeen)
    && (forall k :: k in m ==> m[k] <= now)
    && (forall k :: k in m && now - m[k] < WINDOW_MS ==> Holds(es, k))
  }

  lemma {:induction false} KeysCounted(es: seq<Entry>)
    requires Distinct(es) && forall i :: 0 <= i < |es| ==> es[i].occupied
    ensures |set e | e in es :: e.key| == |es|
  {
    if es != [] {
      var n := |es| - 1;
      var front := es[..n];
      KeysCounted(front);
      assert (set e | e in es :: e.key) == (set e | e in front :: e.key) + {es[n].key};
      forall e | e in front ensures e.key != es[n].key {
      }
    }
  }

  /** If every slot is live with another key, 32 other transactions are open. */
  lemma FullMeansLoaded(es: seq<Entry>, m: map<Key, Time>, call: Call)
    requires Agrees(es, m, call.now)
    requires forall i :: 0 <= i < |es| ==> Live(es[i], call.now) && es[i].key != call.key
    ensures |OtherLive(m, call)| >= CAPACITY
  {
    KeysCounted(es);
    var keys := set e | e in es :: e.key;
    forall k | k in keys ensures k in OtherLive(m, call) {
      var e :| e in es && e.key == k;
      LiveIsOpen(es, m, call, e);
    }
    SubsetSize(keys, OtherLive(m, call));
    hide Agrees, Live, OtherLive;
  }

  lemma LiveIsOpen(es: seq<Entry>, m: map<Key, Time>, call: Call, e: Entry)
    requires Agrees(es, m, call.now) && e in es && Live(e, call.now) && e.key != call.key
    ensures e.key in OtherLive(m, call)
  {
    hide Distinct, Holds;
  }

  lemma {:induction false} SubsetSize(a: set<Key>, b: set<Key>)
    requires a <= b
    ensures |a| <= |b|
  {
    if a != {} {
      var k :| k in a;
      SubsetSize(a - {k}, b - {k});
    }
  }

  /** With fewer than 32 other open transactions one call answers as the map does, and agreement
      carries over. */
  lemma CallAgrees(es: seq<Entry>, m: map<Key, Time>, before: Time, call: Call)
    requires before <= call.now && Agrees(es, m, before) && |OtherLive(m, call)| < CAPACITY
    ensures Ask(es, call.key, call.now).duplicate == MapDuplicate(m, call)
    ensures Agrees(Ask(es, call.key, call.now).entries, Record(m, call), call.now)
  {
    var now := call.now;
    assert Agrees(es, m, now);
    var a := Ask(es, call.key, now);
    var i := Find(es, call.key, 0);
    if i == |es| {
      var t := Target(es, now);
      assert !Live(es[t], now) by {
        if Live(es[t], now) {
          assert Reusable(es, now, 0) == CAPACITY;
          FullMeansLoaded(es, m, call);
        }
      }
      SlotReplaced(es, m, now, t, Entry(now, call.key, true));
    } else if !a.duplicate {
      SlotReplaced(es, m, now, i, es[i].(firstSeen := now));
    }
  }

  lemma SlotReplaced(es: seq<Entry>, m: map<Key, Time>, now: Time, t: nat, e: Entry)
    requires Agrees(es, m, now) && t < |es| && !Live(es[t], now)
    requires e.occupied && e.firstSeen == now
    requires forall i :: 0 <= i < |es| && i != t && es[i].occupied ==> es[i].key != e.key
    ensures Agrees(es[t := e], m[e.key := now], now)
  {
    var es', m' := es[t := e], m[e.key := now];
    forall k | k in m' && now - m'[k] < WINDOW_MS ensures Holds(es', k) {
      if k == e.key {
        assert es'[t].key == k;
      } else {
        var i :| 0 <= i < |es| && es[i].occupied && es[i].key == k;
        assert es'[i].key == k;
      }
    }
  }

  /** At every call fewer than 32 other keys were first seen in the preceding 6000 ms. */
  ghost predicate LightlyLoaded(calls: seq<Call>) {
    forall i :: 0 <= i < |calls| ==> |OtherLive(FirstSeen(calls[..i]), calls[i])| < CAPACITY
  }

  lemma {:induction false} RunAgrees(calls: seq<Call>)
    requires Nondecreasing(calls) && LightlyLoaded(calls)
    ensures Agrees(After(calls), FirstSeen(calls), if calls == [] then 0 else calls[|calls| - 1].now)
  {
    if calls == [] {
      assert forall i :: 0 <= i < CAPACITY ==> !Empty()[i].occupied;
    } else {
      var n := |calls| - 1;
      PrefixLoad(calls, n);
      RunAgrees(calls[..n]);
      CallAgrees(After(calls[..n]), FirstSeen(calls[..n]), if n == 0 then 0 else calls[n - 1].now, calls[n]);
    }
  }

  lemma PrefixLoad(calls: seq<Call>, n: nat)
    requires Nondecreasing(calls) && LightlyLoaded(calls) && n <= |calls|
    ensures Nondecreasing(calls[..n]) && LightlyLoaded(calls[..n])
  {
    forall i | 0 <= i < n ensures |OtherLive(FirstSeen(calls[..n][..i]), calls[..n][i])| < CAPACITY {
      assert calls[..n][..i] == calls[..i];
    }
  }

  /** The 32 slots answer every call of such a run exactly as the unbounded map does. */
  lemma CacheIsTheMap(calls: seq<Call>, i: nat)
    requires Nondecreasing(calls) && LightlyLoaded(calls) && i < |calls|
    ensures Verdict(calls, i) == MapDuplicate(FirstSeen(calls[..i]), calls[i])
  {
    PrefixLoad(calls, i);
    RunAgrees(calls[..i]);
    CallAgrees(After(calls[..i]), FirstSeen(calls[..i]), if i == 0 then 0 else calls[i - 1].now, calls[i]);
  }

  /** With every slot live, one more new key makes the array forget a transaction that the map still
      holds open. */
  lemma FullArrayForgets(es: seq<Entry>, m: map<Key, Time>, call: Call) returns (again: Call)
    requires Agrees(es, m, call.now)
    requires forall i :: 0 <= i < CAPACITY ==> Live(es[i], call.now) && es[i].key != call.key
    ensures again.now == call.now && MapDuplicate(Record(m, call), again)
    ensures !Ask(Ask(es, call.key, call.now).entries, again.key, again.now).duplicate
  {
    assert |es| == CAPACITY;
    hide Ask, Target, Agrees, Live;
    var t := Target(es, call.now);
    again := Call(es[t].key, call.now);
    NewKeyTakesTarget(es, call.key, call.now);
    LiveIsOpen(es, m, call, es[t]);
    OthersKept(es, m, call, t);
    UnknownKeyIsNew(es[t := Entry(call.now, call.key, true)], again.key, again.now);
  }

  lemma OthersKept(es: seq<Entry>, m: map<Key, Time>, call: Call, t: nat)
    requires Agrees(es, m, call.now) && t < |es| && es[t].key != call.key
    requires forall i :: 0 <= i < |es| ==> Live(es[i], call.now)
    ensures forall i :: 0 <= i < |es| && i != t ==> es[i].key != es[t].key
  {
    hide Holds;
  }

  lemma NewKeyTakesTarget(es: seq<Entry>, key: Key, now: Time)
    requires |es| == CAPACITY && forall i :: 0 <= i < CAPACITY ==> es[i].key != key
    ensures Ask(es, key, now).entries == es[Target(es, now) := Entry(now, key, true)]
  {
    hide Target;
    assert Find(es, key, 0) == CAPACITY;
  }

  lemma UnknownKeyIsNew(es: seq<Entry>, key: Key, now: Time)
    requires |es| == CAPACITY && forall i :: 0 <= i < CAPACITY ==> es[i].key != key
    ensures !Ask(es, key, now).duplicate
  {
    hide Target;
    assert Find(es, key, 0) == CAPACITY;
  }

  // ----- The bound is sharp -----

  function KeyOf(n: Byte): Key { Key(0, 0, n) }

  /** Calls with n different keys, all at one instant. */
  function Burst(n: nat): (calls: seq<Call>)
    requires n <= CAPACITY + 1
    ensures |calls| == n
  {
    seq(n, i requires 0 <= i < n => Call(KeyOf(i), 0))
  }

  /** The first n slots hold the first n keys, all seen at instant 0, and the others are free. */
  ghost predicate Filled(es: seq<Entry>, n: nat) {
    && |es| == CAPACITY && n <= CAPACITY
    && (forall i :: 0 <= i < n ==> es[i] == Entry(0, KeyOf(i), true))
    && (forall i :: n <= i < CAPACITY ==> !es[i].occupied)
  }

  lemma TakesNextSlot(es: seq<Entry>, n: nat)
    requires Filled(es, n) && n < CAPACITY
    ensures Ask(es, KeyOf(n), 0) == Answer(false, es[n := Entry(0, KeyOf(n), true)])
    ensures Filled(es[n := Entry(0, KeyOf(n), true)], n + 1)
  {
    assert Find(es, KeyOf(n), 0) == CAPACITY;
    assert forall i :: 0 <= i < n ==> Live(es[i], 0);
    assert !Live(es[n], 0);
    assert Reusable(es, 0, 0) == n;
  }

  /** They take the slots one after the other, and each opens a transaction. */
  lemma {:induction false} BurstFills(n: nat)
    requires n <= CAPACITY
    ensures Filled(After(Burst(n)), n) && Agrees(After(Burst(n)), FirstSeen(Burst(n)), 0)
    ensures forall k :: k in FirstSeen(Burst(n)) ==> k.tid < n
  {
    hide After, FirstSeen, Ask, Burst, Agrees;
    if n == 0 {
      NothingFilled();
    } else {
      var k := n - 1;
      BurstFills(k);
      var es, m := After(Burst(k)), FirstSeen(Burst(k));
      BurstMore(k);
      OneCallMore(Burst(k), Call(KeyOf(k), 0), Burst(n));
      TakesNextSlot(es, k);
      SlotReplaced(es, m, 0, k, Entry(0, KeyOf(k), true));
    }
  }

  lemma BurstMore(k: nat)
    requires k <= CAPACITY
    ensures Burst(k + 1) == Burst(k) + [Call(KeyOf(k), 0)]
  {
  }

  lemma NothingFilled()
    ensures Filled(After(Burst(0)), 0) && Agrees(After(Burst(0)), FirstSeen(Burst(0)), 0) && FirstSeen(Burst(0)) == map[]
  {
  }

  /** The load bound is sharp: from the empty cache, 33 different keys at one instant, and one of
      them again, are answered differently from the map. */
  lemma OneMoreIsTooMany() returns (calls: seq<Call>)
    ensures |calls| == CAPACITY + 2 && Nondecreasing(calls)
    ensures !Verdict(calls, CAPACITY + 1) && MapDuplicate(FirstSeen(calls[..CAPACITY + 1]), calls[CAPACITY + 1])
    ensures forall i :: 0 <= i <= CAPACITY ==> calls[i] == Call(KeyOf(i), 0)
  {
    var again := BurstForgets();
    var burst := Burst(CAPACITY + 1);
    calls := burst + [again];
    assert calls[..CAPACITY + 1] == burst && calls[CAPACITY + 1] == again;
    hide After, FirstSeen, Ask, MapDuplicate, Record;
  }

  lemma BurstForgets() returns (again: Call)
    ensures again.now == 0 && MapDuplicate(FirstSeen(Burst(CAPACITY + 1)), again)
    ensures !Ask(After(Burst(CAPACITY + 1)), again.key, again.now).duplicate
  {
    var last := Call(KeyOf(CAPACITY), 0);
    BurstFills(CAPACITY);
    OneCallMore(Burst(CAPACITY), last, Burst(CAPACITY + 1));
    hide After, FirstSeen, Ask, MapDuplicate, Record, Agrees, Burst;
    again := FullArrayForgets(After(Burst(CAPACITY)), FirstSeen(Burst(CAPACITY)), last);
  }

  lemma OneCallMore(calls: seq<Call>, call: Call, longer: seq<Call>)
    requires longer == calls + [call]
    ensures After(longer) == Ask(After(calls), call.key, call.now).entries
    ensures FirstSeen(longer) == Record(FirstSeen(calls), call)
  {
    assert longer[..|calls|] == calls;
  }
}
