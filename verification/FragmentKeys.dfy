/** The order in which map display fragments are painted. */
module FragmentKeys {

  /** A JavaScript string: its UTF-16 code units. */
  type Text = seq<nat>

  datatype Key = Key(zIndex: int, elementId: Text, fragmentOrder: nat)

  /** The comparison of strings by < and >: -1, 0 or 1. */
  function TextOrder(a: Text, b: Text): int {
    if a == [] then (if b == [] then 0 else -1)
    else if b == [] then 1
    else if a[0] < b[0] then -1
    else if a[0] > b[0] then 1
    else TextOrder(a[1..], b[1..])
  }

  function Compare(a: Key, b: Key): int {
    if a.zIndex != b.zIndex then a.zIndex - b.zIndex
    else if TextOrder(a.elementId, b.elementId) != 0 then TextOrder(a.elementId, b.elementId)
    else a.fragmentOrder - b.fragmentOrder
  }

  lemma {:induction false} TextOrderSign(a: Text, b: Text)
    ensures TextOrder(a, b) == 0 <==> a == b
    ensures TextOrder(b, a) == -TextOrder(a, b)
  {
    if a != [] && b != [] && a[0] == b[0] {
      TextOrderSign(a[1..], b[1..]);
      assert a == [a[0]] + a[1..] && b == [b[0]] + b[1..];
    }
  }

  lemma {:induction false} TextOrderTransitive(a: Text, b: Text, c: Text)
    requires TextOrder(a, b) <= 0 && TextOrder(b, c) <= 0
    ensures TextOrder(a, c) <= 0
    ensures TextOrder(a, b) < 0 || TextOrder(b, c) < 0 ==> TextOrder(a, c) < 0
  {
    if a != [] && b != [] && c != [] && a[0] == b[0] == c[0] {
      TextOrderTransitive(a[1..], b[1..], c[1..]);
    }
  }

  /** The texts agree up to i, where a has ended or has the smaller code unit. */
  predicate PartsAt(a: Text, b: Text, i: nat) {
    i <= |a| && i < |b| && a[..i] == b[..i] && (i == |a| || a[i] < b[i])
  }

  ghost predicate TextBelow(a: Text, b: Text) { exists i: nat :: PartsAt(a, b, i) }

  lemma PartsFirst(a: Text, b: Text, i: nat)
    requires a == [] || b == [] || a[0] != b[0]
    ensures PartsAt(a, b, i) <==> i == 0 && b != [] && (a == [] || a[0] < b[0])
  {
    if a != [] && b != [] && 0 < i <= |a| && i <= |b| { assert a[..i][0] == a[0] && b[..i][0] == b[0]; }
  }

  lemma PartsLater(a: Text, b: Text, i: nat)
    requires a != [] && b != [] && a[0] == b[0]
    ensures !PartsAt(a, b, 0)
    ensures PartsAt(a, b, i + 1) <==> PartsAt(a[1..], b[1..], i)
  {
    if i + 1 <= |a| && i + 1 <= |b| {
      assert a[..i + 1] == [a[0]] + a[1..][..i] && b[..i + 1] == [b[0]] + b[1..][..i];
      assert a[..i + 1][1..] == a[1..][..i] && b[..i + 1][1..] == b[1..][..i];
    }
  }

  lemma {:induction false} TextOrderIsBelow(a: Text, b: Text)
    ensures TextOrder(a, b) < 0 <==> TextBelow(a, b)
  {
    hide PartsAt;
    if a != [] && b != [] && a[0] == b[0] {
      TextOrderIsBelow(a[1..], b[1..]);
      if i: nat :| PartsAt(a[1..], b[1..], i) { PartsLater(a, b, i); }
      if i: nat :| PartsAt(a, b, i) { PartsLater(a, b, if i > 0 then i - 1 else 0); }
    } else {
      PartsFirst(a, b, 0);
      if i: nat :| PartsAt(a, b, i) { PartsFirst(a, b, i); }
    }
  }

  /** A key is painted below another: by the layer first, then by the element, then by the order of
      the fragments of one element. */
  ghost predicate Below(a: Key, b: Key) {
    || a.zIndex < b.zIndex
    || (a.zIndex == b.zIndex && TextBelow(a.elementId, b.elementId))
    || (a.zIndex == b.zIndex && a.elementId == b.elementId && a.fragmentOrder < b.fragmentOrder)
  }

  lemma CompareIsBelow(a: Key, b: Key)
    ensures Compare(a, b) < 0 <==> Below(a, b)
    ensures Compare(a, b) > 0 <==> Below(b, a)
  {
    TextOrderIsBelow(a.elementId, b.elementId);
    TextOrderIsBelow(b.elementId, a.elementId);
    TextOrderSign(a.elementId, b.elementId);
  }

  /** Keys that compare equal are the same key, and the two directions agree. */
  lemma CompareSign(a: Key, b: Key)
    ensures Compare(a, b) == 0 <==> a == b
    ensures Compare(a, b) < 0 <==> Compare(b, a) > 0
  {
    TextOrderSign(a.elementId, b.elementId);
  }

  lemma CompareTransitive(a: Key, b: Key, c: Key)
    requires Compare(a, b) <= 0 && Compare(b, c) <= 0
    ensures Compare(a, c) <= 0
    ensures Compare(a, b) < 0 || Compare(b, c) < 0 ==> Compare(a, c) < 0
  {
    TextOrderSign(a.elementId, b.elementId);
    TextOrderSign(b.elementId, c.elementId);
    if a.zIndex == b.zIndex == c.zIndex {
      TextOrderTransitive(a.elementId, b.elementId, c.elementId);
      TextOrderSign(a.elementId, c.elementId);
    }
  }

  ghost predicate Ascending(keys: seq<Key>) {
    forall i, j :: 0 <= i < j < |keys| ==> Compare(keys[i], keys[j]) < 0
  }

  /** Comparing neighbours is enough. */
  lemma {:induction false} NeighboursSuffice(keys: seq<Key>)
    requires forall i :: 0 < i < |keys| ==> Compare(keys[i - 1], keys[i]) < 0
    ensures Ascending(keys)
  {
    if |keys| > 1 {
      var n := |keys| - 1;
      NeighboursSuffice(keys[..n]);
      forall i | 0 <= i < n ensures Compare(keys[i], keys[n]) < 0 {
        if i < n - 1 {
          assert Compare(keys[..n][i], keys[..n][n - 1]) < 0;
          CompareTransitive(keys[i], keys[n - 1], keys[n]);
        }
      }
    }
  }

  lemma AscendingJoin(a: seq<Key>, b: seq<Key>)
    requires Ascending(a) && Ascending(b) && a != [] && b != []
    requires Compare(a[|a| - 1], b[0]) < 0
    ensures Ascending(a + b)
  {
    var c := a + b;
    forall i, j | 0 <= i < j < |c| ensures Compare(c[i], c[j]) < 0 {
      if i < |a| <= j {
        if i < |a| - 1 { CompareTransitive(a[i], a[|a| - 1], b[0]); }
        if j > |a| { CompareTransitive(a[i], b[0], b[j - |a|]); }
      }
    }
  }
}
