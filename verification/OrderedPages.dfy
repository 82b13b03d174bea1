/** What a map display manifest claims about its ordered pages, and the check of those claims. */
module OrderedPages {
  import opened FragmentKeys
  import opened Options

  const MAX_ASSET_BYTES := 2097152

  type Positive = n: nat | 0 < n witness 1

  /** One page of a tessellated fill. */
  datatype Group = Group(id: Text, elementId: Text, sequence: nat, final: bool,
                         fillColor: Text, opacity: real, pointCount: nat)

  datatype Page = Page(layerId: Text, sequence: nat, start: nat, count: Positive, firstKey: Key, lastKey: Key,
                       group: Option<Group>)

  datatype Tile = Tile(tileX: int, tileY: int, lod: int, primitiveCount: nat, byteSize: nat, pages: Option<seq<Page>>)

  /** Pages are sequenced per cell, level of detail and layer, whatever asset holds them. */
  datatype StreamKey = StreamKey(tileX: int, tileY: int, lod: int, layerId: Text)

  datatype Issue =
    | PagesWithoutOrder | AssetLimit | PageCoverage | SequenceOverlap | GroupElement | Continuation | Incomplete

  // ----- One tile -----

  function Offset(pages: seq<Page>, k: nat): nat
    requires k <= |pages|
  {
    if k == 0 then 0 else Offset(pages, k - 1) + pages[k - 1].count
  }

  lemma {:induction false} OffsetsGrow(pages: seq<Page>, j: nat, k: nat)
    requires j <= k <= |pages|
    ensures Offset(pages, j) + (k - j) <= Offset(pages, k)
    decreases k
  {
    if j < k { OffsetsGrow(pages, j, k - 1); }
  }

  ghost predicate ClaimOk(pages: seq<Page>, k: nat)
    requires k < |pages|
  {
    pages[k].start == Offset(pages, k) && Compare(pages[k].firstKey, pages[k].lastKey) <= 0
  }

  ghost predicate Covers(pages: seq<Page>, total: nat) {
    && (forall k :: 0 <= k < |pages| ==> pages[k].start == Offset(pages, k))
    && Offset(pages, |pages|) == total
  }

  predicate Gate(tile: Tile) { tile.pages.Some? && tile.byteSize <= MAX_ASSET_BYTES }

  ghost predicate TileOk(ordered: bool, tile: Tile) {
    if !ordered then tile.pages.None?
    else
      && Gate(tile) && (forall k :: 0 <= k < |tile.pages.value| ==> ClaimOk(tile.pages.value, k))
      && Offset(tile.pages.value, |tile.pages.value|) == tile.primitiveCount
  }

  lemma {:induction false} PageAt(pages: seq<Page>, n: nat, record: nat) returns (k: nat)
    requires n <= |pages| && record < Offset(pages, n)
    ensures k < n && Offset(pages, k) <= record < Offset(pages, k + 1)
  {
    if record < Offset(pages, n - 1) { k := PageAt(pages, n - 1, record); } else { k := n - 1; }
  }

  /** In a covered tile every record lies in exactly one page. */
  lemma EachRecordInOnePage(pages: seq<Page>, total: nat, record: nat) returns (k: nat)
    requires Covers(pages, total) && record < total
    ensures k < |pages|
    ensures forall j :: 0 <= j < |pages| ==> (pages[j].start <= record < pages[j].start + pages[j].count <==> j == k)
  {
    k := PageAt(pages, |pages|, record);
    assert pages[k].start == Offset(pages, k);
    forall j | 0 <= j < |pages|
      ensures pages[j].start <= record < pages[j].start + pages[j].count <==> j == k
    {
      OnlyPage(pages, record, j, k);
    }
  }

  lemma OnlyPage(pages: seq<Page>, record: nat, j: nat, k: nat)
    requires j < |pages| && k < |pages| && Offset(pages, k) <= record < Offset(pages, k + 1)
    requires pages[j].start == Offset(pages, j)
    ensures pages[j].start <= record < pages[j].start + pages[j].count <==> j == k
  {
    if j < k { OffsetsGrow(pages, j + 1, k); } else if k < j { OffsetsGrow(pages, k + 1, j); }
  }

  // ----- Streams -----

  function InLayer(pages: seq<Page>, layerId: Text): seq<Page> {
    if pages == [] then []
    else
      var last := pages[|pages| - 1];
      InLayer(pages[..|pages| - 1], layerId) + (if last.layerId == layerId then [last] else [])
  }

  predicate InCell(tile: Tile, key: StreamKey) { tile.tileX == key.tileX && tile.tileY == key.tileY && tile.lod == key.lod }

  /** The pages of one stream in the order of the manifest. */
  function PagesOf(tiles: seq<Tile>, key: StreamKey): seq<Page> {
    if tiles == [] then []
    else
      var last := tiles[|tiles| - 1];
      PagesOf(tiles[..|tiles| - 1], key) +
      (if Gate(last) && InCell(last, key) then InLayer(last.pages.value, key.layerId) else [])
  }

  function Insert<T>(x: T, s: seq<T>, rank: T -> int): seq<T> {
    if s == [] || rank(x) >= rank(s[|s| - 1]) then s + [x]
    else Insert(x, s[..|s| - 1], rank) + [s[|s| - 1]]
  }

  /** The stable sort by rank. */
  function Sorted<T>(s: seq<T>, rank: T -> int): seq<T> {
    if s == [] then [] else Insert(s[|s| - 1], Sorted(s[..|s| - 1], rank), rank)
  }

  function Rank(p: Page): int { p.sequence }

  function Pending(group: Option<Group>): Option<Group> {
    if group.Some? && !group.value.final then group else None
  }

  function PendingBefore(pages: seq<Page>, i: nat): Option<Group>
    requires i <= |pages|
  {
    if i == 0 then None else Pending(pages[i - 1].group)
  }

  predicate SameFill(a: Group, b: Group) {
    a.id == b.id && a.elementId == b.elementId && a.fillColor == b.fillColor && a.opacity == b.opacity
  }

  predicate ContinuationOk(pending: Option<Group>, group: Option<Group>) {
    if pending.Some? then
      group.Some? && SameFill(group.value, pending.value) && group.value.sequence == pending.value.sequence + 1
    else group.Some? ==> group.value.sequence == 0
  }

  predicate ElementOk(p: Page) {
    p.group.Some? ==> p.group.value.elementId == p.firstKey.elementId && p.group.value.elementId == p.lastKey.elementId
  }

  ghost predicate InPlace(pages: seq<Page>, i: nat)
    requires i < |pages|
  {
    pages[i].sequence == i && (i > 0 ==> Compare(pages[i - 1].lastKey, pages[i].firstKey) < 0)
  }

  ghost predicate Continues(pages: seq<Page>) {
    && (forall i :: 0 <= i < |pages| ==> ContinuationOk(PendingBefore(pages, i), pages[i].group))
    && PendingBefore(pages, |pages|) == None
  }

  ghost predicate StreamOk(pages: seq<Page>) {
    && (forall i :: 0 <= i < |pages| ==> InPlace(pages, i))
    && (forall i :: 0 <= i < |pages| ==> ElementOk(pages[i]))
    && Continues(pages)
  }

  /** The pages of a stream, in sequence. */
  function Stream(tiles: seq<Tile>, key: StreamKey): seq<Page> { Sorted(PagesOf(tiles, key), Rank) }

  ghost predicate StreamAccepted(tiles: seq<Tile>, key: StreamKey) { StreamOk(Stream(tiles, key)) }

  ghost predicate ManifestOk(ordered: bool, tiles: seq<Tile>) {
    && (forall t :: 0 <= t < |tiles| ==> TileOk(ordered, tiles[t]))
    && (ordered ==> forall key :: StreamAccepted(tiles, key))
  }

  // ----- refineOrderedPages -----

  method CheckTile(tile: Tile, streams0: map<StreamKey, seq<Page>>, order0: seq<StreamKey>, ghost before: seq<Tile>)
    returns (issues: seq<Issue>, streams: map<StreamKey, seq<Page>>, order: seq<StreamKey>)
    requires Gate(tile) && Holds(streams0, before, tile, 0) && Lists(order0, streams0)
    ensures issues == [] <==> TileOk(true, tile)
    ensures Holds(streams, before, tile, |tile.pages.value|) && Lists(order, streams)
  {
    hide Holds, Lists, Lookup, Compare;
    issues, streams, order := [], streams0, order0;
    var pages := tile.pages.value;
    var offset := 0;
    for j := 0 to |pages|
      invariant offset == Offset(pages, j)
      invariant issues == [] <==> forall k :: 0 <= k < j ==> ClaimOk(pages, k)
      invariant Holds(streams, before, tile, j) && Lists(order, streams)
    {
      ghost var earlier := issues;
      var page := pages[j];
      if page.start != offset || Compare(page.firstKey, page.lastKey) > 0 { issues := issues + [PageCoverage]; }
      assert issues == [] <==> earlier == [] && ClaimOk(pages, j);
      offset := offset + page.count;
      var key := StreamKey(tile.tileX, tile.tileY, tile.lod, page.layerId);
      PushHolds(streams, before, tile, j);
      PushLists(streams, order, key, Lookup(streams, key) + [page]);
      if key !in streams { order := order + [key]; }
      streams := streams[key := Lookup(streams, key) + [page]];
    }
    if offset != tile.primitiveCount { issues := issues + [PageCoverage]; }
  }

  function Lookup(streams: map<StreamKey, seq<Page>>, key: StreamKey): seq<Page> {
    if key in streams then streams[key] else []
  }

  ghost predicate Lists(order: seq<StreamKey>, streams: map<StreamKey, seq<Page>>) {
    forall key :: key in streams <==> key in order
  }

  /** The streams collected from the tiles before and the first j pages of tile. */
  ghost predicate Holds(streams: map<StreamKey, seq<Page>>, before: seq<Tile>, tile: Tile, j: nat)
    requires Gate(tile) && j <= |tile.pages.value|
  {
    forall key :: HoldsAt(streams, before, tile, j, key)
  }

  ghost predicate HoldsAt(streams: map<StreamKey, seq<Page>>, before: seq<Tile>, tile: Tile, j: nat, key: StreamKey)
    requires Gate(tile) && j <= |tile.pages.value|
  {
    Lookup(streams, key) == PagesOf(before, key) + if InCell(tile, key) then InLayer(tile.pages.value[..j], key.layerId) else []
  }

  lemma PushHolds(streams: map<StreamKey, seq<Page>>, before: seq<Tile>, tile: Tile, j: nat)
    requires Gate(tile) && j < |tile.pages.value| && Holds(streams, before, tile, j)
    ensures var page := tile.pages.value[j];
            var key := StreamKey(tile.tileX, tile.tileY, tile.lod, page.layerId);
            Holds(streams[key := Lookup(streams, key) + [page]], before, tile, j + 1)
  {
    hide HoldsAt, Lookup;
    var page := tile.pages.value[j];
    var key := StreamKey(tile.tileX, tile.tileY, tile.lod, page.layerId);
    var after := streams[key := Lookup(streams, key) + [page]];
    var more := j + 1;
    forall k ensures HoldsAt(after, before, tile, more, k) {
      PushHoldsAt(streams, before, tile, j, k);
    }
  }

  lemma PushHoldsAt(streams: map<StreamKey, seq<Page>>, before: seq<Tile>, tile: Tile, j: nat, k: StreamKey)
    requires Gate(tile) && j < |tile.pages.value| && HoldsAt(streams, before, tile, j, k)
    ensures var page := tile.pages.value[j];
            var key := StreamKey(tile.tileX, tile.tileY, tile.lod, page.layerId);
            HoldsAt(streams[key := Lookup(streams, key) + [page]], before, tile, j + 1, k)
  {
    hide PagesOf, InLayer;
    InLayerMore(tile.pages.value, j, k.layerId);
  }

  lemma InLayerMore(pages: seq<Page>, j: nat, layerId: Text)
    requires j < |pages|
    ensures InLayer(pages[..j + 1], layerId) == InLayer(pages[..j], layerId) + if pages[j].layerId == layerId then [pages[j]] else []
  {
    assert pages[..j + 1][..j] == pages[..j];
  }

  lemma PushLists(streams: map<StreamKey, seq<Page>>, order: seq<StreamKey>, key: StreamKey, pages: seq<Page>)
    requires Lists(order, streams)
    ensures Lists(if key in streams then order else order + [key], streams[key := pages])
  {
  }

  method CheckStream(pages: seq<Page>) returns (issues: seq<Issue>)
    ensures issues == [] <==> StreamOk(pages)
  {
    hide Compare, ContinuationOk;
    issues := [];
    var pending: Option<Group> := None;
    for i := 0 to |pages|
      invariant pending == PendingBefore(pages, i)
      invariant issues == [] <==> forall k :: 0 <= k < i ==>
                  InPlace(pages, k) && ElementOk(pages[k]) && ContinuationOk(PendingBefore(pages, k), pages[k].group)
    {
      var page := pages[i];
      var group := page.group;
      if page.sequence != i || (i > 0 && Compare(pages[i - 1].lastKey, page.firstKey) >= 0) {
        issues := issues + [SequenceOverlap];
      }
      if group.Some? && (group.value.elementId != page.firstKey.elementId || group.value.elementId != page.lastKey.elementId) {
        issues := issues + [GroupElement];
      }
      if !ContinuationOk(pending, group) { issues := issues + [Continuation]; }
      pending := if group.Some? && !group.value.final then group else None;
    }
    if pending.Some? { issues := issues + [Incomplete]; }
  }

  ghost predicate Collected(streams: map<StreamKey, seq<Page>>, tiles: seq<Tile>) {
    forall key :: Lookup(streams, key) == PagesOf(tiles, key)
  }

  lemma SkippedTile(streams: map<StreamKey, seq<Page>>, tiles: seq<Tile>, t: nat)
    requires t < |tiles| && !Gate(tiles[t]) && Collected(streams, tiles[..t])
    ensures Collected(streams, tiles[..t + 1])
  {
    assert tiles[..t + 1][..t] == tiles[..t];
    forall key ensures Lookup(streams, key) == PagesOf(tiles[..t + 1], key) {
      assert Lookup(streams, key) == PagesOf(tiles[..t], key);
    }
  }

  lemma GateNeeded(ordered: bool, tile: Tile)
    ensures if ordered then TileOk(ordered, tile) ==> Gate(tile) else TileOk(ordered, tile) <==> tile.pages.None?
  {
  }

  lemma Gathered(streams: map<StreamKey, seq<Page>>, tiles: seq<Tile>, key: StreamKey)
    requires Collected(streams, tiles)
    ensures Lookup(streams, key) == PagesOf(tiles, key)
  {
  }

  lemma NothingCollected(tiles: seq<Tile>)
    ensures Collected(map[], tiles[..0]) && Lists([], map[])
  {
  }

  lemma AcceptedMeans(tiles: seq<Tile>, key: StreamKey)
    ensures StreamAccepted(tiles, key) <==> StreamOk(Sorted(PagesOf(tiles, key), Rank))
  {
    hide StreamOk, Sorted, PagesOf;
  }

  lemma StartTile(streams: map<StreamKey, seq<Page>>, before: seq<Tile>, tile: Tile)
    requires Gate(tile) && Collected(streams, before)
    ensures Holds(streams, before, tile, 0)
  {
    hide PagesOf;
    forall key ensures HoldsAt(streams, before, tile, 0, key) {
      assert Lookup(streams, key) == PagesOf(before, key);
    }
  }

  lemma FinishTile(streams: map<StreamKey, seq<Page>>, tiles: seq<Tile>, t: nat)
    requires t < |tiles| && Gate(tiles[t]) && Holds(streams, tiles[..t], tiles[t], |tiles[t].pages.value|)
    ensures Collected(streams, tiles[..t + 1])
  {
    assert tiles[..t + 1][..t] == tiles[..t];
    var pages := tiles[t].pages.value;
    assert pages[..|pages|] == pages;
    hide InLayer;
    forall key ensures Lookup(streams, key) == PagesOf(tiles[..t + 1], key) {
      assert HoldsAt(streams, tiles[..t], tiles[t], |pages|, key);
    }
  }

  lemma StreamsCovered(streams: map<StreamKey, seq<Page>>, order: seq<StreamKey>, tiles: seq<Tile>)
    requires Collected(streams, tiles) && Lists(order, streams)
    ensures (forall j :: 0 <= j < |order| ==> StreamAccepted(tiles, order[j])) <==>
            (forall key :: StreamAccepted(tiles, key))
  {
    if forall j :: 0 <= j < |order| ==> StreamAccepted(tiles, order[j]) {
      forall key ensures StreamAccepted(tiles, key) {
        if key !in order { UnlistedIsEmpty(streams, order, tiles, key); }
        hide Lists, Collected, StreamAccepted;
      }
    }
    hide Lists, Collected, StreamAccepted;
  }

  lemma UnlistedIsEmpty(streams: map<StreamKey, seq<Page>>, order: seq<StreamKey>, tiles: seq<Tile>, key: StreamKey)
    requires Collected(streams, tiles) && Lists(order, streams) && key !in order
    ensures StreamAccepted(tiles, key)
  {
    assert Lookup(streams, key) == PagesOf(tiles, key);
    hide PagesOf;
  }

  /** The manifest is accepted exactly if its claims describe complete tiles and well-formed streams. */
  method Refine(ordered: bool, tiles: seq<Tile>) returns (issues: seq<Issue>)
    ensures issues == [] <==> ManifestOk(ordered, tiles)
  {
    hide Holds, Lists, Collected, TileOk, StreamAccepted, StreamOk, Sorted, PagesOf, Lookup;
    issues := [];
    var streams: map<StreamKey, seq<Page>> := map[];
    var order: seq<StreamKey> := [];
    NothingCollected(tiles);
    for t := 0 to |tiles|
      invariant issues == [] <==> forall k :: 0 <= k < t ==> TileOk(ordered, tiles[k])
      invariant ordered ==> Collected(streams, tiles[..t])
      invariant Lists(order, streams) && (!ordered ==> order == [])
    {
      var tile := tiles[t];
      ghost var earlier := issues;
      if !ordered {
        if tile.pages.Some? { issues := issues + [PagesWithoutOrder]; }
      } else if tile.pages.None? || tile.byteSize > MAX_ASSET_BYTES {
        issues := issues + [AssetLimit];
        SkippedTile(streams, tiles, t);
      } else {
        StartTile(streams, tiles[..t], tile);
        var found;
        found, streams, order := CheckTile(tile, streams, order, tiles[..t]);
        issues := issues + found;
        FinishTile(streams, tiles, t);
      }
      assert issues == [] <==> earlier == [] && TileOk(ordered, tile) by { GateNeeded(ordered, tile); }
    }
    assert tiles[..|tiles|] == tiles;
    if !ordered { assert order == []; }
    ghost var claims := forall t :: 0 <= t < |tiles| ==> TileOk(ordered, tiles[t]);
    for k := 0 to |order|
      invariant issues == [] <==> claims && forall j :: 0 <= j < k ==> StreamAccepted(tiles, order[j])
    {
      ghost var earlier := issues;
      var found := CheckStream(Sorted(Lookup(streams, order[k]), Rank));
      issues := issues + found;
      assert Lookup(streams, order[k]) == PagesOf(tiles, order[k]) by { Gathered(streams, tiles, order[k]); }
      AcceptedMeans(tiles, order[k]);
      assert issues == [] <==> earlier == [] && StreamAccepted(tiles, order[k]);
    }
    if ordered { StreamsCovered(streams, order, tiles); }
  }
}
