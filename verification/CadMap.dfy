/** The logical map that an imported CAD drawing is placed on, in exact real arithmetic. */
module CadMap {
  const DEFAULT_LONG_SIDE: real := 16384.0
  const MAX_LONG_SIDE: real := 32768.0
  const MIN_SHORT_SIDE: real := 1024.0
  const EXTREME_MIN_SHORT_SIDE: real := 512.0

  datatype Bounds = Bounds(minX: real, minY: real, maxX: real, maxY: real)

  datatype MapSize = MapSize(width: int, height: int, padding: int, gridSize: int)

  datatype Transform = Transform(scaleX: real, scaleY: real, translateX: real, translateY: real)

  /** The bounds schema: both spans are positive. */
  predicate Valid(b: Bounds) { b.minX < b.maxX && b.minY < b.maxY }

  function Width(b: Bounds): real { b.maxX - b.minX }

  function Height(b: Bounds): real { b.maxY - b.minY }

  function Min(a: real, b: real): real { if a <= b then a else b }

  function Max(a: real, b: real): real { if a >= b then a else b }

  function Quotient(x: real, a: real): real
    requires a > 0.0
  {
    x / a
  }

  function Aspect(b: Bounds): real
    requires Valid(b)
  {
    Quotient(Max(Width(b), Height(b)), Min(Width(b), Height(b)))
  }

  /** Math.round. */
  function Round(x: real): int { (x + 0.5).Floor }

  predicate Within(n: int, x: real) { x - 0.5 <= n as real <= x + 0.5 }

  lemma RoundIsNear(x: real)
    ensures Within(Round(x), x)
  {
  }

  lemma RoundIsMonotone(x: real, y: real)
    requires x <= y
    ensures Round(x) <= Round(y)
  {
  }

  lemma RoundOfInt(n: int)
    ensures Round(n as real) == n
  {
  }

  lemma QuotientBelow(x: real, a: real, c: real)
    requires a > 0.0
    ensures x / a < c <==> x < c * a
    ensures x / a * a == x
  {
    assert x / a * a == x;
    if x / a < c { ProductBelow(x / a, c, a); } else { ProductNotBelow(c, x / a, a); }
  }

  lemma ProductBelow(x: real, y: real, a: real)
    requires x < y && a > 0.0
    ensures x * a < y * a
  {
    assert (y - x) * a > 0.0;
  }

  lemma ProductNotBelow(x: real, y: real, a: real)
    requires x <= y && a >= 0.0
    ensures x * a <= y * a
  {
    assert (y - x) * a >= 0.0;
  }

  lemma AspectIsAtLeastOne(b: Bounds)
    requires Valid(b)
    ensures Aspect(b) >= 1.0
    ensures Aspect(b) * Min(Width(b), Height(b)) == Max(Width(b), Height(b))
  {
    QuotientBelow(Max(Width(b), Height(b)), Min(Width(b), Height(b)), 1.0);
  }

  // ----- Sides before rounding -----

  /** Of a source with this aspect, scaled to the default long side, or enlarged so that the short
      side reaches its minimum, but never beyond the maximal long side. */
  function LongSide(aspect: real): real
    requires aspect > 0.0
  {
    if Quotient(DEFAULT_LONG_SIDE, aspect) < MIN_SHORT_SIDE then Min(MAX_LONG_SIDE, aspect * MIN_SHORT_SIDE) else DEFAULT_LONG_SIDE
  }

  lemma Sides(aspect: real)
    requires aspect >= 1.0
    ensures DEFAULT_LONG_SIDE <= LongSide(aspect) <= MAX_LONG_SIDE
    ensures Quotient(LongSide(aspect), aspect) <= DEFAULT_LONG_SIDE
    ensures Quotient(LongSide(aspect), aspect) < EXTREME_MIN_SHORT_SIDE <==> aspect > 64.0
  {
    QuotientBelow(DEFAULT_LONG_SIDE, aspect, MIN_SHORT_SIDE);
    var long := LongSide(aspect);
    assert DEFAULT_LONG_SIDE <= long <= MAX_LONG_SIDE;
    QuotientBelow(long, aspect, EXTREME_MIN_SHORT_SIDE);
    QuotientAtMost(long, aspect, DEFAULT_LONG_SIDE);
  }

  lemma QuotientAtMost(x: real, a: real, c: real)
    requires a > 0.0 && x <= c * a
    ensures x / a <= c
  {
    QuotientBelow(x, a, c);
  }

  /** What the caller may rely on. */
  predicate SizeOk(b: Bounds, m: MapSize) {
    var long, short := if Width(b) >= Height(b) then m.width else m.height, if Width(b) >= Height(b) then m.height else m.width;
    && 16384 <= long <= 32768 && 512 <= short <= 16384
    && 64 <= m.padding && 4 * m.padding <= short
    && 10 <= m.gridSize <= 100 && m.gridSize % 5 == 0
  }

  /** Both sides are k times the source's, up to rounding. */
  predicate Proportional(b: Bounds, m: MapSize, k: real) {
    k > 0.0 && Within(m.width, k * Width(b)) && Within(m.height, k * Height(b))
  }

  /** The padding is a fiftieth of the long side, unless a quarter of the short side is less. */
  predicate PaddingOk(m: MapSize) {
    var long, short := if m.width >= m.height then m.width else m.height, if m.width >= m.height then m.height else m.width;
    m.padding == (if Round(long as real * 0.02) <= short / 4 then Round(long as real * 0.02) else short / 4)
  }

  /** The grid is the multiple of 5 nearest to a two-hundredth of the long side, but at most 100. */
  predicate GridOk(m: MapSize) {
    var wished := (if m.width >= m.height then m.width else m.height) as real / 200.0;
    m.gridSize as real <= wished + 2.5 && (m.gridSize == 100 || m.gridSize as real >= wished - 2.5)
  }

  /** The size, or the schema error, or the RangeError. */
  datatype Outcome = Size(value: MapSize) | InvalidBounds | AspectOutOfRange

  method NormalizeMapSize(b: Bounds) returns (size: Outcome)
    ensures size.InvalidBounds? <==> !Valid(b)
    ensures Valid(b) ==> (size.AspectOutOfRange? <==> Aspect(b) > 64.0)
    ensures size.Size? ==> SizeOk(b, size.value) && PaddingOk(size.value) && GridOk(size.value)
    ensures size.Size? ==> Proportional(b, size.value, LongSide(Aspect(b)) / Max(Width(b), Height(b)))
  {
    hide Quotient, Round, Within, Max, SizeOk, PaddingOk, GridOk, Proportional;
    if b.minX >= b.maxX || b.minY >= b.maxY { return InvalidBounds; }
    var sourceWidth, sourceHeight := Width(b), Height(b);
    var landscape := sourceWidth >= sourceHeight;
    AspectIsAtLeastOne(b);
    var aspectRatio := Aspect(b);
    var longSide := DEFAULT_LONG_SIDE;
    var shortSide := Quotient(longSide, aspectRatio);
    if shortSide < MIN_SHORT_SIDE {
      longSide := Min(MAX_LONG_SIDE, aspectRatio * MIN_SHORT_SIDE);
      shortSide := Quotient(longSide, aspectRatio);
    }
    Sides(aspectRatio);
    if shortSide < EXTREME_MIN_SHORT_SIDE { return AspectOutOfRange; }
    var normalizedLongSide, normalizedShortSide := Round(longSide), Round(shortSide);
    var requestedPadding := if Round(normalizedLongSide as real * 0.02) >= 64 then Round(normalizedLongSide as real * 0.02) else 64;
    var maximumPadding := normalizedShortSide / 4;
    var stepped := Round(normalizedLongSide as real / 200.0 / 5.0) * 5;
    var gridSize := if stepped < 10 then 10 else if stepped > 100 then 100 else stepped;
    var padding := if requestedPadding <= maximumPadding then requestedPadding else maximumPadding;
    size := Size(MapSize(
      if landscape then normalizedLongSide else normalizedShortSide,
      if landscape then normalizedShortSide else normalizedLongSide,
      padding,
      gridSize));
    RoundedSides(longSide, shortSide);
    Details(normalizedLongSide);
    SizeIsOk(b, normalizedLongSide, normalizedShortSide, padding, gridSize);
    GridIsOk(b, normalizedLongSide, normalizedShortSide, padding, gridSize);
    SizeIsProportional(b, normalizedLongSide, normalizedShortSide, padding, gridSize);
  }

  lemma GridIsOk(b: Bounds, long: int, short: int, padding: int, grid: int)
    requires short <= long
    requires var stepped := Round(long as real / 200.0 / 5.0) * 5; grid == if stepped > 100 then 100 else stepped
    ensures GridOk(Oriented(b, long, short, padding, grid))
  {
    RoundIsNear(long as real / 200.0 / 5.0);
    hide Round;
  }

  function Oriented(b: Bounds, long: int, short: int, padding: int, grid: int): MapSize {
    if Width(b) >= Height(b) then MapSize(long, short, padding, grid) else MapSize(short, long, padding, grid)
  }

  lemma SizeIsOk(b: Bounds, long: int, short: int, padding: int, grid: int)
    requires 16384 <= long <= 32768 && 512 <= short <= 16384 && 10 <= grid <= 100 && grid % 5 == 0
    requires padding == (if Round(long as real * 0.02) <= short / 4 then Round(long as real * 0.02) else short / 4)
    requires Round(long as real * 0.02) >= 64
    ensures SizeOk(b, Oriented(b, long, short, padding, grid)) && PaddingOk(Oriented(b, long, short, padding, grid))
  {
    hide Round;
  }

  lemma SizeIsProportional(b: Bounds, long: int, short: int, padding: int, grid: int)
    requires Valid(b) && Within(long, LongSide(Aspect(b))) && Within(short, Quotient(LongSide(Aspect(b)), Aspect(b)))
    ensures Proportional(b, Oriented(b, long, short, padding, grid), LongSide(Aspect(b)) / Max(Width(b), Height(b)))
  {
    SidesAreProportional(b);
    hide LongSide, Aspect, Within;
  }

  lemma RoundedSides(long: real, short: real)
    requires DEFAULT_LONG_SIDE <= long <= MAX_LONG_SIDE && EXTREME_MIN_SHORT_SIDE <= short <= DEFAULT_LONG_SIDE
    ensures 16384 <= Round(long) <= 32768 && 512 <= Round(short) <= 16384
    ensures Within(Round(long), long) && Within(Round(short), short)
  {
    RoundOfInt(16384);
    RoundOfInt(32768);
    RoundOfInt(512);
    RoundIsMonotone(DEFAULT_LONG_SIDE, long);
    RoundIsMonotone(long, MAX_LONG_SIDE);
    RoundIsMonotone(EXTREME_MIN_SHORT_SIDE, short);
    RoundIsMonotone(short, DEFAULT_LONG_SIDE);
  }

  /** The minimum of 64 for the padding and the lower bound of 10 for the grid never take effect. */
  lemma Details(long: int)
    requires 16384 <= long <= 32768
    ensures 328 <= Round(long as real * 0.02) <= 655
    ensures 80 <= Round(long as real / 200.0 / 5.0) * 5 <= 165
  {
  }

  lemma SidesAreProportional(b: Bounds)
    requires Valid(b)
    ensures var k := LongSide(Aspect(b)) / Max(Width(b), Height(b));
            && k > 0.0 && k * Max(Width(b), Height(b)) == LongSide(Aspect(b))
            && k * Min(Width(b), Height(b)) == Quotient(LongSide(Aspect(b)), Aspect(b))
  {
    AspectIsAtLeastOne(b);
    Sides(Aspect(b));
    var long, a, max, min := LongSide(Aspect(b)), Aspect(b), Max(Width(b), Height(b)), Min(Width(b), Height(b));
    hide LongSide, Aspect;
    QuotientBelow(long, max, 0.0);
    QuotientBelow(long, a, 0.0);
    var k := long / max;
    assert k * (a * min) == long;
    SameQuotient(k * min, long / a, a, k, min, long);
  }

  lemma SameQuotient(x: real, y: real, a: real, k: real, min: real, long: real)
    requires a > 0.0 && x == k * min && k * (a * min) == long && y * a == long
    ensures x == y
  {
    assert x * a == k * (a * min);
    assert (x - y) * a == 0.0;
  }

  // ----- The transform -----

  function SceneTransform(b: Bounds, m: MapSize): Transform
    requires Valid(b)
  {
    var scale := Min(Quotient((m.width - 2 * m.padding) as real, Width(b)),
                     Quotient((m.height - 2 * m.padding) as real, Height(b)));
    var offsetX := (m.width as real - Width(b) * scale) / 2.0;
    var offsetY := (m.height as real - Height(b) * scale) / 2.0;
    Transform(scale, -scale, offsetX - b.minX * scale, offsetY + b.maxY * scale)
  }

  function X(t: Transform, x: real): real { x * t.scaleX + t.translateX }

  function Y(t: Transform, y: real): real { y * t.scaleY + t.translateY }

  /** The map without its padding. */
  predicate Inside(m: MapSize, x: real, y: real) {
    && m.padding as real <= x <= (m.width - m.padding) as real
    && m.padding as real <= y <= (m.height - m.padding) as real
  }

  function InnerWidth(m: MapSize): real { (m.width - 2 * m.padding) as real }

  function InnerHeight(m: MapSize): real { (m.height - 2 * m.padding) as real }

  lemma SizeLeavesRoom(b: Bounds, m: MapSize)
    requires SizeOk(b, m)
    ensures InnerWidth(m) > 0.0 && InnerHeight(m) > 0.0
  {
  }

  /** A product that the lemmas below need not look into. */
  function Times(a: real, b: real): real { a * b }

  lemma TimesGrows(x: real, y: real, a: real)
    requires a > 0.0
    ensures x < y ==> Times(x, a) < Times(y, a)
    ensures x <= y ==> Times(x, a) <= Times(y, a)
    ensures Times(0.0, a) == 0.0
  {
    if x < y { ProductBelow(x, y, a); }
  }

  function ScaleOf(b: Bounds, m: MapSize): real
    requires Valid(b)
  {
    SceneTransform(b, m).scaleX
  }

  /** The scale is the largest at which the source fits between the paddings on both axes. */
  lemma ScaleFits(b: Bounds, m: MapSize)
    requires Valid(b) && SizeOk(b, m)
    ensures var scale := ScaleOf(b, m);
            && scale > 0.0 && Times(Width(b), scale) <= InnerWidth(m) && Times(Height(b), scale) <= InnerHeight(m)
            && (Times(Width(b), scale) == InnerWidth(m) || Times(Height(b), scale) == InnerHeight(m))
  {
    hide SizeOk, Times, Quotient, SceneTransform, ScaleOf;
    SizeLeavesRoom(b, m);
    ScaleIs(b, m);
    TimesFits(Width(b), ScaleOf(b, m), InnerWidth(m));
    TimesFits(Height(b), ScaleOf(b, m), InnerHeight(m));
  }

  lemma ScaleIs(b: Bounds, m: MapSize)
    requires Valid(b)
    ensures ScaleOf(b, m) == Min(Quotient(InnerWidth(m), Width(b)), Quotient(InnerHeight(m), Height(b)))
  {
    hide Quotient, Min;
  }

  lemma TimesFits(w: real, scale: real, room: real)
    requires w > 0.0 && scale <= Quotient(room, w)
    ensures Times(w, scale) <= room
    ensures scale == Quotient(room, w) ==> Times(w, scale) == room
    ensures room > 0.0 ==> Quotient(room, w) > 0.0
  {
    QuotientBelow(room, w, 0.0);
    ProductNotBelow(scale, room / w, w);
  }

  /** Distances are scaled from the left edge of the source, and from its upper edge. */
  lemma ImageOf(b: Bounds, m: MapSize, x: real, y: real)
    requires Valid(b)
    ensures var t, scale := SceneTransform(b, m), ScaleOf(b, m);
            && X(t, x) == (m.width as real - Times(Width(b), scale)) / 2.0 + Times(x - b.minX, scale)
            && Y(t, y) == (m.height as real - Times(Height(b), scale)) / 2.0 + Times(b.maxY - y, scale)
  {
    var t := SceneTransform(b, m);
    assert t.scaleY == -t.scaleX;
    assert x * t.scaleX - b.minX * t.scaleX == (x - b.minX) * t.scaleX;
    assert y * t.scaleY + b.maxY * t.scaleX == (b.maxY - y) * t.scaleX;
  }

  /** The transform keeps the horizontal order and turns the vertical one over. */
  lemma OrderOfImages(b: Bounds, m: MapSize, x0: real, x1: real, y0: real, y1: real)
    requires Valid(b) && SizeOk(b, m) && x0 < x1 && y0 < y1
    ensures var t := SceneTransform(b, m); X(t, x0) < X(t, x1) && Y(t, y1) < Y(t, y0)
  {
    hide SceneTransform, X, Y, SizeOk, Times, ScaleOf;
    ScaleFits(b, m);
    ImageOf(b, m, x0, y0);
    ImageOf(b, m, x1, y1);
    TimesGrows(x0 - b.minX, x1 - b.minX, ScaleOf(b, m));
    TimesGrows(b.maxY - y1, b.maxY - y0, ScaleOf(b, m));
  }

  /** Every point of the source box lands inside the padding. */
  lemma SourceLandsInside(b: Bounds, m: MapSize, x: real, y: real)
    requires Valid(b) && SizeOk(b, m) && b.minX <= x <= b.maxX && b.minY <= y <= b.maxY
    ensures var t := SceneTransform(b, m); Inside(m, X(t, x), Y(t, y))
  {
    hide SceneTransform, X, Y, SizeOk, Times, ScaleOf;
    ScaleFits(b, m);
    ImageOf(b, m, x, y);
    TimesGrows(0.0, x - b.minX, ScaleOf(b, m));
    TimesGrows(x - b.minX, Width(b), ScaleOf(b, m));
    TimesGrows(0.0, b.maxY - y, ScaleOf(b, m));
    TimesGrows(b.maxY - y, Height(b), ScaleOf(b, m));
  }

  /** The source box is centred on the map and reaches the padding on both sides of one axis. */
  lemma SourceIsCentredAndTight(b: Bounds, m: MapSize)
    requires Valid(b) && SizeOk(b, m)
    ensures var t := SceneTransform(b, m);
            && X(t, b.minX) + X(t, b.maxX) == m.width as real && Y(t, b.minY) + Y(t, b.maxY) == m.height as real
            && ((X(t, b.minX) == m.padding as real && X(t, b.maxX) == (m.width - m.padding) as real) ||
                (Y(t, b.maxY) == m.padding as real && Y(t, b.minY) == (m.height - m.padding) as real))
  {
    hide SceneTransform, X, Y, SizeOk, Times, ScaleOf;
    ScaleFits(b, m);
    ImageOf(b, m, b.minX, b.minY);
    ImageOf(b, m, b.maxX, b.maxY);
    TimesGrows(0.0, 0.0, ScaleOf(b, m));
    assert b.minX - b.minX == 0.0 && b.maxY - b.maxY == 0.0;
    assert b.maxX - b.minX == Width(b) && b.maxY - b.minY == Height(b);
  }
}
