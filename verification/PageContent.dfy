/** The check of decoded records against the pages that announce them, and what manifest and content
    guarantee together: one strict paint order per stream. */
module PageContent {
  import opened FragmentKeys
  import opened Options
  import opened OrderedPages
  import opened PageStreams

  datatype Shape = Triangle(points: nat) | Polyline(points: nat, closed: bool) | Other

  datatype Record = Record(key: Key, layerName: Text, shape: Shape, fillColor: Option<Text>,
                           strokeColor: Option<Text>, opacity: real)

  datatype PageError = RecordCount | Coverage | Layer | KeyOrder | FillMismatch | Endpoint | PointCount

  type LayerOf = Text -> Option<Text>

  function PathPoints(s: Shape): nat { if s.Other? then 0 else s.points }

  function Points(records: seq<Record>): nat {
    if records == [] then 0 else Points(records[..|records| - 1]) + PathPoints(records[|records| - 1].shape)
  }

  predicate Fills(r: Record, g: Group) {
    && r.key.elementId == g.elementId && r.fillColor == Some(g.fillColor) && r.strokeColor == None
    && r.opacity == g.opacity && (r.shape.Triangle? || (r.shape.Polyline? && r.shape.closed))
  }

  predicate RecordOk(page: Page, r: Record, layerOf: LayerOf) {
    layerOf(r.layerName) == Some(page.layerId) && (page.group.Some? ==> Fills(r, page.group.value))
  }

  predicate Fits(page: Page, records: seq<Record>) { page.start + page.count <= |records| }

  function Slice(page: Page, records: seq<Record>): seq<Record>
    requires Fits(page, records)
  {
    records[page.start..page.start + page.count]
  }

  predicate After(r: seq<Record>, i: nat)
    requires 0 < i < |r|
  {
    Compare(r[i - 1].key, r[i].key) < 0
  }

  /** What the page says of the records it holds. */
  ghost predicate HoldsFor(page: Page, r: seq<Record>, layerOf: LayerOf) {
    && |r| == page.count
    && (forall i :: 0 <= i < |r| ==> RecordOk(page, r[i], layerOf))
    && (forall i :: 0 < i < |r| ==> After(r, i))
    && page.firstKey == r[0].key && page.lastKey == r[|r| - 1].key
    && (page.group.Some? ==> page.group.value.pointCount == Points(r))
  }

  ghost predicate ContentOk(tile: Tile, records: seq<Record>, layerOf: LayerOf) {
    && |records| == tile.primitiveCount
    && (tile.pages.Some? ==>
          && Covers(tile.pages.value, |records|)
          && forall k :: 0 <= k < |tile.pages.value| ==> PageOk(tile.pages.value[k], records, layerOf))
  }

  ghost predicate PageOk(page: Page, records: seq<Record>, layerOf: LayerOf) {
    Fits(page, records) && HoldsFor(page, Slice(page, records), layerOf)
  }

  // ----- validateMapDisplayPageContent -----

  method ValidatePage(page: Page, records: seq<Record>, layerOf: LayerOf) returns (error: Option<PageError>)
    requires Fits(page, records)
    ensures error.None? <==> HoldsFor(page, Slice(page, records), layerOf)
  {
    hide Compare, Fills, HoldsFor, After, Points, Said;
    ghost var r := Slice(page, records);
    var points := 0;
    var fillStyle: Option<(Option<Text>, real)> := None;
    SaidNothing(page, r, layerOf);
    for i := page.start to page.start + page.count
      invariant Said(page, r, layerOf, i - page.start)
      invariant page.group.Some? ==> points == Points(r[..i - page.start])
      invariant fillStyle.Some? ==>
        page.group.Some? && fillStyle.value == (Some(page.group.value.fillColor), page.group.value.opacity)
    {
      ghost var n := i - page.start;
      var p := records[i];
      assert r[n] == records[page.start + n];
      SaidMore(page, r, layerOf, n);
      if layerOf(p.layerName) != Some(page.layerId) { return Some(Layer); }
      if i > page.start && Compare(records[i - 1].key, p.key) >= 0 {
        assert !After(r, n) by { AfterMeans(r, n); }
        return Some(KeyOrder);
      }
      if i > page.start { AfterMeans(r, n); }
      if page.group.Some? {
        var style := (p.fillColor, p.opacity);
        FillsStyle(p, page.group.value);
        if !Fills(p, page.group.value) || (fillStyle.Some? && fillStyle.value != style) {
          return Some(FillMismatch);
        }
        fillStyle := Some(style);
        PointsStep(r, n);
        points := points + PathPoints(p.shape);
      }
    }
    SaidAll(page, r, layerOf);
    CompareSign(page.firstKey, r[0].key);
    CompareSign(page.lastKey, r[|r| - 1].key);
    if Compare(page.firstKey, records[page.start].key) != 0 ||
       Compare(page.lastKey, records[page.start + page.count - 1].key) != 0 {
      return Some(Endpoint);
    }
    if page.group.Some? && page.group.value.pointCount != points { return Some(PointCount); }
    return None;
  }

  /** The first n records are of the page's layer and group, in ascending order of their keys. */
  ghost predicate Said(page: Page, r: seq<Record>, layerOf: LayerOf, n: nat)
    requires n <= |r|
  {
    && (forall i :: 0 <= i < n ==> RecordOk(page, r[i], layerOf))
    && (forall i :: 0 < i < n ==> After(r, i))
  }

  lemma SaidNothing(page: Page, r: seq<Record>, layerOf: LayerOf)
    ensures Said(page, r, layerOf, 0) && Points(r[..0]) == 0
  {
  }

  lemma SaidMore(page: Page, r: seq<Record>, layerOf: LayerOf, n: nat)
    requires n < |r| && Said(page, r, layerOf, n)
    ensures Said(page, r, layerOf, n + 1) <==> RecordOk(page, r[n], layerOf) && (n == 0 || After(r, n))
    ensures !Said(page, r, layerOf, n + 1) ==> !HoldsFor(page, r, layerOf)
  {
    hide RecordOk, After, Points;
  }

  lemma SaidAll(page: Page, r: seq<Record>, layerOf: LayerOf)
    requires |r| == page.count && Said(page, r, layerOf, |r|)
    ensures r[..|r|] == r
    ensures HoldsFor(page, r, layerOf) <==>
      && page.firstKey == r[0].key && page.lastKey == r[|r| - 1].key
      && (page.group.Some? ==> page.group.value.pointCount == Points(r))
  {
    hide RecordOk, After, Points;
  }

  lemma AfterMeans(r: seq<Record>, n: nat)
    requires 0 < n < |r|
    ensures After(r, n) <==> Compare(r[n - 1].key, r[n].key) < 0
  {
    hide Compare;
  }

  lemma PointsStep(r: seq<Record>, n: nat)
    requires n < |r|
    ensures Points(r[..n + 1]) == Points(r[..n]) + PathPoints(r[n].shape)
  {
    assert r[..n + 1][..n] == r[..n];
  }

  lemma FillsStyle(r: Record, g: Group)
    ensures Fills(r, g) ==> (r.fillColor, r.opacity) == (Some(g.fillColor), g.opacity)
  {
  }

  lemma PageOkMeans(page: Page, records: seq<Record>, layerOf: LayerOf)
    requires Fits(page, records)
    ensures PageOk(page, records, layerOf) <==> HoldsFor(page, Slice(page, records), layerOf)
  {
    hide HoldsFor;
  }

  lemma Misplaced(pages: seq<Page>, total: nat, k: nat)
    requires k < |pages| && (pages[k].start != Offset(pages, k) || Offset(pages, k) + pages[k].count > total)
    ensures !Covers(pages, total)
  {
    OffsetsGrow(pages, k + 1, |pages|);
  }

  lemma OffsetSteps(pages: seq<Page>)
    ensures Offset(pages, 0) == 0
    ensures forall k :: 0 <= k < |pages| ==> Offset(pages, k + 1) == Offset(pages, k) + pages[k].count
  {
  }

  lemma CoversMeans(pages: seq<Page>, total: nat)
    requires forall k :: 0 <= k < |pages| ==> pages[k].start == Offset(pages, k)
    ensures Covers(pages, total) <==> Offset(pages, |pages|) == total
  {
  }

  /** The content is accepted exactly if the pages cut the records into consecutive pieces and every
      page describes its piece. */
  method Validate(tile: Tile, records: seq<Record>, layerOf: LayerOf) returns (error: Option<PageError>)
    ensures error.None? <==> ContentOk(tile, records, layerOf)
  {
    hide HoldsFor, PageOk, Covers, Slice, Offset;
    if |records| != tile.primitiveCount { return Some(RecordCount); }
    if tile.pages.None? { return None; }
    var pages := tile.pages.value;
    var offset := 0;
    OffsetSteps(pages);
    for k := 0 to |pages|
      invariant offset == Offset(pages, k) && offset <= |records|
      invariant forall j :: 0 <= j < k ==> pages[j].start == Offset(pages, j)
      invariant forall j :: 0 <= j < k ==> PageOk(pages[j], records, layerOf)
    {
      var page := pages[k];
      if page.start != offset || offset + page.count > |records| {
        Misplaced(pages, |records|, k);
        return Some(Coverage);
      }
      var found := ValidatePage(page, records, layerOf);
      PageOkMeans(page, records, layerOf);
      if found.Some? { return found; }
      offset := offset + page.count;
    }
    CoversMeans(pages, |records|);
    if offset != |records| { return Some(Coverage); }
    return None;
  }

  // ----- Manifest and content together -----

  datatype Located = Located(page: Page, records: seq<Record>)

  function LocatedRank(l: Located): int { l.page.sequence }

  function Locate(pages: seq<Page>, records: seq<Record>, layerId: Text): seq<Located>
    requires forall k :: 0 <= k < |pages| ==> Fits(pages[k], records)
  {
    if pages == [] then []
    else
      var last := pages[|pages| - 1];
      Locate(pages[..|pages| - 1], records, layerId) +
      (if last.layerId == layerId then [Located(last, Slice(last, records))] else [])
  }

  ghost predicate AllAccepted(tiles: seq<Tile>, contents: seq<seq<Record>>, layerOf: LayerOf) {
    |tiles| == |contents| && forall t :: 0 <= t < |tiles| ==> Gate(tiles[t]) && ContentOk(tiles[t], contents[t], layerOf)
  }

  /** The pages of one stream with their records, in the order of the manifest. */
  ghost function LocatedOf(tiles: seq<Tile>, contents: seq<seq<Record>>, layerOf: LayerOf, key: StreamKey): seq<Located>
    requires AllAccepted(tiles, contents, layerOf)
  {
    if tiles == [] then []
    else
      var n := |tiles| - 1;
      LocatedOf(tiles[..n], contents[..n], layerOf, key) +
      (if InCell(tiles[n], key) then Locate(tiles[n].pages.value, contents[n], key.layerId) else [])
  }

  function PagesIn(ls: seq<Located>): seq<Page> {
    if ls == [] then [] else PagesIn(ls[..|ls| - 1]) + [ls[|ls| - 1].page]
  }

  function KeysIn(ls: seq<Located>): seq<Key> {
    if ls == [] then [] else KeysIn(ls[..|ls| - 1]) + Keys(ls[|ls| - 1].records)
  }

  function Keys(records: seq<Record>): (keys: seq<Key>)
    ensures |keys| == |records| && forall i :: 0 <= i < |keys| ==> keys[i] == records[i].key
  {
    seq(|records|, i requires 0 <= i < |records| => records[i].key)
  }

  /** The stream as it is painted. */
  ghost function Painted(tiles: seq<Tile>, contents: seq<seq<Record>>, layerOf: LayerOf, key: StreamKey): seq<Located>
    requires AllAccepted(tiles, contents, layerOf)
  {
    Sorted(LocatedOf(tiles, contents, layerOf, key), LocatedRank)
  }

  lemma {:induction false} PagesInAt(ls: seq<Located>)
    ensures |PagesIn(ls)| == |ls| && forall i :: 0 <= i < |ls| ==> PagesIn(ls)[i] == ls[i].page
  {
    if ls != [] { PagesInAt(ls[..|ls| - 1]); }
  }

  lemma {:induction false} PagesInJoin(a: seq<Located>, b: seq<Located>)
    ensures PagesIn(a + b) == PagesIn(a) + PagesIn(b)
  {
    PagesInAt(a);
    PagesInAt(b);
    PagesInAt(a + b);
    hide PagesIn;
  }

  lemma {:induction false} InsertProjects(x: Located, ls: seq<Located>)
    ensures PagesIn(Insert(x, ls, LocatedRank)) == Insert(x.page, PagesIn(ls), Rank)
  {
    PagesInAt(ls);
    if ls == [] || LocatedRank(x) >= LocatedRank(ls[|ls| - 1]) {
      PagesInJoin(ls, [x]);
      assert PagesIn([x]) == [x.page];
    } else {
      var n := |ls| - 1;
      InsertProjects(x, ls[..n]);
      PagesInJoin(Insert(x, ls[..n], LocatedRank), [ls[n]]);
      assert PagesIn([ls[n]]) == [ls[n].page];
      assert PagesIn(ls)[..n] == PagesIn(ls[..n]);
    }
  }

  /** Sorting pages with their records sorts the pages. */
  lemma {:induction false} SortProjects(ls: seq<Located>)
    ensures PagesIn(Sorted(ls, LocatedRank)) == Sorted(PagesIn(ls), Rank)
  {
    if ls != [] {
      var n := |ls| - 1;
      SortProjects(ls[..n]);
      InsertProjects(ls[n], Sorted(ls[..n], LocatedRank));
      PagesInAt(ls);
      assert PagesIn(ls)[..n] == PagesIn(ls[..n]);
      hide Insert;
    }
  }

  ghost predicate LocatedOk(l: Located, layerId: Text, layerOf: LayerOf) {
    l.page.layerId == layerId && HoldsFor(l.page, l.records, layerOf)
  }

  lemma {:induction false} LocateProjects(pages: seq<Page>, records: seq<Record>, layerId: Text, layerOf: LayerOf)
    requires forall k :: 0 <= k < |pages| ==> Fits(pages[k], records)
    requires forall k :: 0 <= k < |pages| ==> PageOk(pages[k], records, layerOf)
    ensures PagesIn(Locate(pages, records, layerId)) == InLayer(pages, layerId)
    ensures forall l :: l in Locate(pages, records, layerId) ==> LocatedOk(l, layerId, layerOf)
  {
    hide HoldsFor;
    if pages != [] {
      var n := |pages| - 1;
      LocateProjects(pages[..n], records, layerId, layerOf);
      var before := Locate(pages[..n], records, layerId);
      if pages[n].layerId == layerId {
        var l := Located(pages[n], Slice(pages[n], records));
        PagesInJoin(before, [l]);
        assert PagesIn([l]) == [l.page];
      } else {
        assert Locate(pages, records, layerId) == before;
      }
    }
  }

  lemma {:induction false} StreamProjects(tiles: seq<Tile>, contents: seq<seq<Record>>, layerOf: LayerOf, key: StreamKey)
    requires AllAccepted(tiles, contents, layerOf)
    ensures PagesIn(LocatedOf(tiles, contents, layerOf, key)) == PagesOf(tiles, key)
    ensures forall l :: l in LocatedOf(tiles, contents, layerOf, key) ==> LocatedOk(l, key.layerId, layerOf)
  {
    if tiles != [] {
      var n := |tiles| - 1;
      StreamProjects(tiles[..n], contents[..n], layerOf, key);
      assert ContentOk(tiles[n], contents[n], layerOf) && Gate(tiles[n]);
      TileProjects(tiles[n], contents[n], key.layerId, layerOf);
      hide LocatedOk, AllAccepted, ContentOk, InLayer, PagesIn, Locate;
      var before := LocatedOf(tiles[..n], contents[..n], layerOf, key);
      var here := if InCell(tiles[n], key) then Locate(tiles[n].pages.value, contents[n], key.layerId) else [];
      PagesInJoin(before, here);
      assert PagesIn([]) == [] by { PagesInAt([]); }
    }
  }

  lemma TileProjects(tile: Tile, records: seq<Record>, layerId: Text, layerOf: LayerOf)
    requires Gate(tile) && ContentOk(tile, records, layerOf)
    ensures forall k :: 0 <= k < |tile.pages.value| ==> Fits(tile.pages.value[k], records)
    ensures PagesIn(Locate(tile.pages.value, records, layerId)) == InLayer(tile.pages.value, layerId)
    ensures forall l :: l in Locate(tile.pages.value, records, layerId) ==> LocatedOk(l, layerId, layerOf)
  {
    hide HoldsFor, LocatedOk, InLayer, PagesIn, Locate, Covers;
    var pages := tile.pages.value;
    forall k | 0 <= k < |pages| ensures Fits(pages[k], records) { assert PageOk(pages[k], records, layerOf); }
    LocateProjects(pages, records, layerId, layerOf);
  }

  lemma RecordsAscend(l: Located, layerId: Text, layerOf: LayerOf)
    requires LocatedOk(l, layerId, layerOf)
    ensures Ascending(Keys(l.records)) && l.records != []
    ensures l.page.firstKey == Keys(l.records)[0] && l.page.lastKey == Keys(l.records)[|l.records| - 1]
  {
    var keys := Keys(l.records);
    hide Compare;
    forall i | 0 < i < |keys| ensures Compare(keys[i - 1], keys[i]) < 0 {
      assert After(l.records, i);
    }
    NeighboursSuffice(keys);
  }

  lemma {:induction false} JoinAscends(ls: seq<Located>, layerId: Text, layerOf: LayerOf)
    requires forall l :: l in ls ==> LocatedOk(l, layerId, layerOf)
    requires forall i :: 0 < i < |ls| ==> Compare(ls[i - 1].page.lastKey, ls[i].page.firstKey) < 0
    ensures Ascending(KeysIn(ls))
    ensures ls != [] ==> KeysIn(ls) != [] && KeysIn(ls)[|KeysIn(ls)| - 1] == ls[|ls| - 1].page.lastKey
  {
    if ls != [] {
      var n := |ls| - 1;
      JoinAscends(ls[..n], layerId, layerOf);
      RecordsAscend(ls[n], layerId, layerOf);
      hide LocatedOk, Compare, Ascending, Keys;
      var before := KeysIn(ls[..n]);
      if n > 0 {
        assert ls[..n][n - 1] == ls[n - 1];
        AscendingJoin(before, Keys(ls[n].records));
      } else {
        assert before == [];
        assert before + Keys(ls[n].records) == Keys(ls[n].records);
      }
    }
  }

  // ----- Every record of the layer is painted once -----

  /** The records of a layer, in the order of the asset. */
  function Select(records: seq<Record>, layerId: Text, layerOf: LayerOf): seq<Record> {
    if records == [] then []
    else
      var last := records[|records| - 1];
      Select(records[..|records| - 1], layerId, layerOf) + (if layerOf(last.layerName) == Some(layerId) then [last] else [])
  }

  /** The records of a stream: those of its layer in every asset of its cell and level of detail. */
  ghost function RecordsOf(tiles: seq<Tile>, contents: seq<seq<Record>>, layerOf: LayerOf, key: StreamKey): seq<Record>
    requires |tiles| == |contents|
  {
    if tiles == [] then []
    else
      var n := |tiles| - 1;
      RecordsOf(tiles[..n], contents[..n], layerOf, key) +
      (if InCell(tiles[n], key) then Select(contents[n], key.layerId, layerOf) else [])
  }

  function RecordsIn(ls: seq<Located>): seq<Record> {
    if ls == [] then [] else RecordsIn(ls[..|ls| - 1]) + ls[|ls| - 1].records
  }

  lemma {:induction false} SelectJoins(a: seq<Record>, b: seq<Record>, layerId: Text, layerOf: LayerOf)
    ensures Select(a + b, layerId, layerOf) == Select(a, layerId, layerOf) + Select(b, layerId, layerOf)
  {
    if b == [] {
      assert a + b == a;
    } else {
      var n := |b| - 1;
      SelectJoins(a, b[..n], layerId, layerOf);
      assert (a + b)[..|a + b| - 1] == a + b[..n];
    }
  }

  /** All of the records belong to the layer, or none does. */
  lemma {:induction false} SelectPage(records: seq<Record>, page: Page, layerId: Text, layerOf: LayerOf)
    requires forall i :: 0 <= i < |records| ==> RecordOk(page, records[i], layerOf)
    ensures Select(records, layerId, layerOf) == if page.layerId == layerId then records else []
  {
    if records != [] {
      var n := |records| - 1;
      SelectPage(records[..n], page, layerId, layerOf);
      assert RecordOk(page, records[n], layerOf);
      assert records == records[..n] + [records[n]];
    }
  }

  lemma RecordsInPush(ls: seq<Located>, l: Located)
    ensures RecordsIn(ls + [l]) == RecordsIn(ls) + l.records
  {
    assert (ls + [l])[..|ls|] == ls;
  }

  lemma {:induction false} RecordsInJoin(a: seq<Located>, b: seq<Located>)
    ensures RecordsIn(a + b) == RecordsIn(a) + RecordsIn(b)
  {
    if b == [] {
      assert a + b == a;
    } else {
      var n := |b| - 1;
      RecordsInJoin(a, b[..n]);
      assert a + b == (a + b[..n]) + [b[n]] && b == b[..n] + [b[n]];
      RecordsInPush(a + b[..n], b[n]);
      RecordsInPush(b[..n], b[n]);
    }
  }

  lemma SelectGrows(page: Page, records: seq<Record>, layerId: Text, layerOf: LayerOf)
    requires PageOk(page, records, layerOf)
    ensures Select(records[..page.start + page.count], layerId, layerOf) ==
            Select(records[..page.start], layerId, layerOf) + (if page.layerId == layerId then Slice(page, records) else [])
  {
    var slice := Slice(page, records);
    assert records[..page.start + page.count] == records[..page.start] + slice;
    SelectPage(slice, page, layerId, layerOf);
    SelectJoins(records[..page.start], slice, layerId, layerOf);
  }

  ghost predicate Placed(pages: seq<Page>, records: seq<Record>, layerOf: LayerOf) {
    && (forall j :: 0 <= j < |pages| ==> pages[j].start == Offset(pages, j))
    && (forall j :: 0 <= j < |pages| ==> PageOk(pages[j], records, layerOf))
  }

  lemma PlacedBefore(pages: seq<Page>, records: seq<Record>, layerOf: LayerOf)
    requires Placed(pages, records, layerOf) && pages != []
    ensures var n := |pages| - 1;
            && Placed(pages[..n], records, layerOf) && Offset(pages, n) == Offset(pages[..n], n)
            && pages[n].start == Offset(pages, n) && Offset(pages, n + 1) == Offset(pages, n) + pages[n].count
            && PageOk(pages[n], records, layerOf)
  {
    var n := |pages| - 1;
    hide PageOk;
    forall j | 0 <= j <= n ensures Offset(pages[..n], j) == Offset(pages, j) { OffsetsAgree(pages, n, j); }
  }

  lemma {:induction false} OffsetsAgree(pages: seq<Page>, n: nat, j: nat)
    requires j <= n <= |pages|
    ensures Offset(pages[..n], j) == Offset(pages, j)
  {
    if j > 0 { OffsetsAgree(pages, n, j - 1); }
  }

  lemma AllFit(pages: seq<Page>, records: seq<Record>, layerOf: LayerOf)
    requires Placed(pages, records, layerOf)
    ensures forall j :: 0 <= j < |pages| ==> Fits(pages[j], records)
    ensures Offset(pages, |pages|) <= |records|
  {
    forall j | 0 <= j < |pages| ensures Fits(pages[j], records) { assert PageOk(pages[j], records, layerOf); }
    hide PageOk;
    if pages != [] { assert Fits(pages[|pages| - 1], records); }
  }

  /** The pages of a layer hold exactly the layer's records among those that the pages cover. */
  lemma {:induction false} LocateSelects(pages: seq<Page>, records: seq<Record>, layerId: Text, layerOf: LayerOf)
    requires Placed(pages, records, layerOf)
    ensures forall j :: 0 <= j < |pages| ==> Fits(pages[j], records)
    ensures Offset(pages, |pages|) <= |records|
    ensures RecordsIn(Locate(pages, records, layerId)) == Select(records[..Offset(pages, |pages|)], layerId, layerOf)
    decreases |pages|
  {
    hide Placed, Select, PageOk, Slice, Offset, Locate, RecordsIn, Fits;
    AllFit(pages, records, layerOf);
    if pages == [] {
      NothingLocated(records, layerId, layerOf);
    } else {
      var n := |pages| - 1;
      PlacedBefore(pages, records, layerOf);
      LocateSelects(pages[..n], records, layerId, layerOf);
      SelectGrows(pages[n], records, layerId, layerOf);
      LocateStep(pages, records, layerId);
      var before := Locate(pages[..n], records, layerId);
      if pages[n].layerId == layerId {
        RecordsInPush(before, Located(pages[n], Slice(pages[n], records)));
      } else {
        assert before + [] == before;
      }
    }
  }

  lemma NothingLocated(records: seq<Record>, layerId: Text, layerOf: LayerOf)
    ensures RecordsIn(Locate([], records, layerId)) == Select(records[..Offset([], 0)], layerId, layerOf)
  {
    assert records[..0] == [];
  }

  lemma LocateStep(pages: seq<Page>, records: seq<Record>, layerId: Text)
    requires pages != [] && forall k :: 0 <= k < |pages| ==> Fits(pages[k], records)
    ensures var last := pages[|pages| - 1];
            Locate(pages, records, layerId) == Locate(pages[..|pages| - 1], records, layerId) +
            (if last.layerId == layerId then [Located(last, Slice(last, records))] else [])
  {
  }

  lemma TileSelects(tile: Tile, records: seq<Record>, layerId: Text, layerOf: LayerOf)
    requires Gate(tile) && ContentOk(tile, records, layerOf)
    ensures forall k :: 0 <= k < |tile.pages.value| ==> Fits(tile.pages.value[k], records)
    ensures RecordsIn(Locate(tile.pages.value, records, layerId)) == Select(records, layerId, layerOf)
  {
    var pages := tile.pages.value;
    assert records[..|records|] == records;
    hide PageOk, Select, Locate;
    LocateSelects(pages, records, layerId, layerOf);
  }

  lemma {:induction false} StreamSelects(tiles: seq<Tile>, contents: seq<seq<Record>>, layerOf: LayerOf, key: StreamKey)
    requires AllAccepted(tiles, contents, layerOf)
    ensures RecordsIn(LocatedOf(tiles, contents, layerOf, key)) == RecordsOf(tiles, contents, layerOf, key)
  {
    if tiles != [] {
      var n := |tiles| - 1;
      StreamSelects(tiles[..n], contents[..n], layerOf, key);
      assert ContentOk(tiles[n], contents[n], layerOf) && Gate(tiles[n]);
      TileSelects(tiles[n], contents[n], key.layerId, layerOf);
      hide AllAccepted, ContentOk, RecordsIn, Locate, Select;
      var here := if InCell(tiles[n], key) then Locate(tiles[n].pages.value, contents[n], key.layerId) else [];
      RecordsInJoin(LocatedOf(tiles[..n], contents[..n], layerOf, key), here);
      assert RecordsIn([]) == [] by { NoRecords(); }
    }
  }

  lemma NoRecords()
    ensures RecordsIn([]) == []
  {
  }

  lemma {:induction false} InsertKeepsRecords(x: Located, ls: seq<Located>)
    ensures multiset(RecordsIn(Insert(x, ls, LocatedRank))) == multiset(RecordsIn(ls)) + multiset(x.records)
  {
    if ls == [] || LocatedRank(x) >= LocatedRank(ls[|ls| - 1]) {
      RecordsInPush(ls, x);
    } else {
      var n := |ls| - 1;
      InsertKeepsRecords(x, ls[..n]);
      RecordsInPush(Insert(x, ls[..n], LocatedRank), ls[n]);
    }
  }

  lemma {:induction false} SortKeepsRecords(ls: seq<Located>)
    ensures multiset(RecordsIn(Sorted(ls, LocatedRank))) == multiset(RecordsIn(ls))
  {
    if ls != [] {
      var n := |ls| - 1;
      SortKeepsRecords(ls[..n]);
      InsertKeepsRecords(ls[n], Sorted(ls[..n], LocatedRank));
      hide Insert;
    }
  }

  /** The records painted for a stream are exactly those of its cell, level of detail and layer,
      each as often as the assets hold it. */
  lemma PaintsEveryRecordOnce(tiles: seq<Tile>, contents: seq<seq<Record>>, layerOf: LayerOf, key: StreamKey)
    requires AllAccepted(tiles, contents, layerOf)
    ensures multiset(RecordsIn(Painted(tiles, contents, layerOf, key))) == multiset(RecordsOf(tiles, contents, layerOf, key))
  {
    hide AllAccepted, LocatedOf, RecordsIn, RecordsOf, Sorted;
    StreamSelects(tiles, contents, layerOf, key);
    SortKeepsRecords(LocatedOf(tiles, contents, layerOf, key));
  }

  /** If the manifest and the content of every asset are accepted, exactly the records of the stream's
      cell, level of detail and layer are painted; page after page in sequence they have strictly
      ascending keys; page i carries sequence i; and the stream is cut into plain pages and complete
      fill groups. */
  lemma PaintOrder(tiles: seq<Tile>, contents: seq<seq<Record>>, layerOf: LayerOf, key: StreamKey)
    requires ManifestOk(true, tiles) && AllAccepted(tiles, contents, layerOf)
    ensures var painted := Painted(tiles, contents, layerOf, key);
            && multiset(painted) == multiset(LocatedOf(tiles, contents, layerOf, key))
            && (forall i :: 0 <= i < |painted| ==> painted[i].page.sequence == i)
            && (forall i :: 0 <= i < |painted| ==> LocatedOk(painted[i], key.layerId, layerOf))
            && Ascending(KeysIn(painted))
            && multiset(RecordsIn(painted)) == multiset(RecordsOf(tiles, contents, layerOf, key))
            && exists runs :: Split(PagesIn(painted), runs)
  {
    PaintedPages(tiles, contents, layerOf, key);
    PaintsEveryRecordOnce(tiles, contents, layerOf, key);
    hide RecordsIn, RecordsOf, Painted, LocatedOf, AllAccepted, ManifestOk, LocatedOk, PagesIn, KeysIn, Ascending, Continues, Split, Compare, Stream;
    var painted := Painted(tiles, contents, layerOf, key);
    SplitsIntoGroups(PagesIn(painted));
    PagesInAt(painted);
    forall i | 0 <= i < |painted|
      ensures painted[i].page.sequence == i
      ensures i > 0 ==> Compare(painted[i - 1].page.lastKey, painted[i].page.firstKey) < 0
    {
      assert InPlace(PagesIn(painted), i);
    }
    JoinAscends(painted, key.layerId, layerOf);
  }

  lemma PaintedPages(tiles: seq<Tile>, contents: seq<seq<Record>>, layerOf: LayerOf, key: StreamKey)
    requires ManifestOk(true, tiles) && AllAccepted(tiles, contents, layerOf)
    ensures var painted := Painted(tiles, contents, layerOf, key);
            && multiset(painted) == multiset(LocatedOf(tiles, contents, layerOf, key))
            && StreamOk(PagesIn(painted))
            && forall i :: 0 <= i < |painted| ==> LocatedOk(painted[i], key.layerId, layerOf)
  {
    assert StreamAccepted(tiles, key);
    hide LocatedOf, PagesOf, AllAccepted, ManifestOk, LocatedOk, PagesIn, StreamOk, Sorted;
    var located := LocatedOf(tiles, contents, layerOf, key);
    var painted := Painted(tiles, contents, layerOf, key);
    StreamProjects(tiles, contents, layerOf, key);
    SortProjects(located);
    SortedSorts(located, LocatedRank);
    forall i | 0 <= i < |painted| ensures LocatedOk(painted[i], key.layerId, layerOf) {
      assert painted[i] in multiset(painted);
    }
  }
}
