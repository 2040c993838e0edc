/** The WebMercatorQuad tile grid (EPSG:3857 metres) as the scripts compute it:
    the bounding box of tile (x, y) at zoom z, and the inclusive range of tile
    indices covering a bounding box, in the unclamped form used by three of the
    scripts and the clamped form of the per-property loop script. */
module WebMercator {
  import opened Numbers

  const WebMercMin: real := -20037508.342789244
  const WebMercMax: real := 20037508.342789244
  const WebMercSize: real := WebMercMax - WebMercMin

  /** A rectangle in Web-Mercator metres, in rasterio's (left, bottom, right, top) order. */
  datatype Bounds = Bounds(left: real, bottom: real, right: real, top: real)

  /** Inclusive column and row ranges, in the order get_tile_range returns them. */
  datatype TileRange = TileRange(xMin: int, xMax: int, yMin: int, yMax: int)

  /** `2 ** z`: the number of tiles along each axis at zoom z. */
  function Pow2(z: nat): (n: nat)
    ensures n >= 1
  {
    if z == 0 then 1 else 2 * Pow2(z - 1)
  }

  /** The side of one tile at zoom z, in metres: `WEBMERC_SIZE / 2 ** z`. */
  function TileSpan(z: nat): (s: real)
    ensures s > 0.0
    ensures s * (Pow2(z) as real) == WebMercSize
  {
    WebMercSize / (Pow2(z) as real)
  }

  /** mercator_tile_bounds as written in three of the scripts:
      the right edge is computed from x + 1. */
  function TileBounds(x: int, y: int, z: nat): (b: Bounds)
    ensures b.right - b.left == TileSpan(z)
    ensures b.top - b.bottom == TileSpan(z)
  {
    var s := TileSpan(z);
    Bounds(WebMercMin + x as real * s, WebMercMax - (y + 1) as real * s,
           WebMercMin + (x + 1) as real * s, WebMercMax - y as real * s)
  }

  /** mercator_tile_bounds as written in the per-property loop script:
      the right edge is the left edge plus one tile side. In exact arithmetic it
      is the same box as TileBounds. */
  function TileBoundsFromCorner(x: int, y: int, z: nat): (b: Bounds)
    ensures b == TileBounds(x, y, z)
  {
    var s := TileSpan(z);
    var minx := WebMercMin + x as real * s;
    Bounds(minx, WebMercMax - (y + 1) as real * s, minx + s, WebMercMax - y as real * s)
  }

  /** Neighbouring tiles share their common edge, so the grid has no gaps or overlaps
      between adjacent tiles. */
  lemma NeighboursShareEdges(x: int, y: int, z: nat)
    ensures TileBounds(x, y, z).right == TileBounds(x + 1, y, z).left
    ensures TileBounds(x, y, z).bottom == TileBounds(x, y + 1, z).top
    ensures TileBounds(x, y, z).left == TileBounds(x, y + 1, z).left
    ensures TileBounds(x, y, z).top == TileBounds(x + 1, y, z).top
  {
  }

  /** Tile (0, 0) starts at the north-west corner of the square and tile
      (2^z - 1, 2^z - 1) ends at its south-east corner. */
  lemma GridCorners(z: nat)
    ensures TileBounds(0, 0, z).left == WebMercMin
    ensures TileBounds(0, 0, z).top == WebMercMax
    ensures TileBounds(Pow2(z) - 1, Pow2(z) - 1, z).right == WebMercMax
    ensures TileBounds(Pow2(z) - 1, Pow2(z) - 1, z).bottom == WebMercMin
  {
    var n := Pow2(z);
    assert ((n - 1) + 1) as real * TileSpan(z) == WebMercSize;
  }

  /** Scaling by a positive tile side preserves and reflects order. */
  lemma ScaleOrder(a: real, b: real, s: real)
    requires s > 0.0
    ensures a <= b <==> a * s <= b * s
    ensures a < b <==> a * s < b * s
  {
    assert b * s - a * s == (b - a) * s;
  }

  lemma DivideThenScale(d: real, s: real)
    requires s > 0.0
    ensures (d / s) * s == d
  {
  }

  /** The tile holding the offset q * s from the grid origin, counted in sides of s. */
  lemma FloorIndex(q: real, s: real, n: int)
    requires s > 0.0 && 0.0 <= q * s < n as real * s
    ensures 0 <= q.Floor < n
    ensures q.Floor as real * s <= q * s < (q.Floor + 1) as real * s
  {
    var x := q.Floor;
    ScaleOrder(q, n as real, s);
    ScaleOrder(0.0, q, s);
    ScaleOrder(x as real, q, s);
    ScaleOrder(q, (x + 1) as real, s);
  }

  /** Two tiles of side s that both hold the offset d are the same tile. */
  lemma IndexUnique(d: real, s: real, x: int, c: int)
    requires s > 0.0
    requires x as real * s <= d < (x + 1) as real * s
    requires c as real * s <= d < (c + 1) as real * s
    ensures x == c
  {
    var xs, xs', cs, cs' := x as real * s, (x + 1) as real * s, c as real * s, (c + 1) as real * s;
    assert xs < cs' && cs < xs';
    ScaleOrder(x as real, (c + 1) as real, s);
    ScaleOrder(c as real, (x + 1) as real, s);
  }

  /** The column of a grid of n tiles of side s that holds the easting p. */
  lemma ColumnIndex(p: real, s: real, n: int)
    requires s > 0.0 && s * (n as real) == WebMercSize
    requires WebMercMin <= p < WebMercMax
    ensures var x := ((p - WebMercMin) / s).Floor;
      && 0 <= x < n
      && WebMercMin + x as real * s <= p < WebMercMin + (x + 1) as real * s
  {
    var d := p - WebMercMin;
    assert 0.0 <= d < n as real * s;
    DivideThenScale(d, s);
    FloorIndex(d / s, s, n);
  }

  /** The row of a grid of n tiles of side s that holds the northing p. */
  lemma RowIndex(p: real, s: real, n: int)
    requires s > 0.0 && s * (n as real) == WebMercSize
    requires WebMercMin < p <= WebMercMax
    ensures var y := ((WebMercMax - p) / s).Floor;
      && 0 <= y < n
      && WebMercMax - (y + 1) as real * s < p <= WebMercMax - y as real * s
  {
    var d := WebMercMax - p;
    assert 0.0 <= d < n as real * s;
    DivideThenScale(d, s);
    FloorIndex(d / s, s, n);
  }

  /** The column whose tiles contain the easting p, for p in the square. */
  function ColumnOf(p: real, z: nat): (x: int)
    requires WebMercMin <= p < WebMercMax
    ensures 0 <= x < Pow2(z)
    ensures TileBounds(x, 0, z).left <= p < TileBounds(x, 0, z).right
  {
    ColumnIndex(p, TileSpan(z), Pow2(z));
    ((p - WebMercMin) / TileSpan(z)).Floor
  }

  /** The row whose tiles contain the northing p, for p in the square; rows count
      down from the north edge, so a row holds its top edge and not its bottom one. */
  function RowOf(p: real, z: nat): (y: int)
    requires WebMercMin < p <= WebMercMax
    ensures 0 <= y < Pow2(z)
    ensures TileBounds(0, y, z).bottom < p <= TileBounds(0, y, z).top
  {
    RowIndex(p, TileSpan(z), Pow2(z));
    ((WebMercMax - p) / TileSpan(z)).Floor
  }

  /** Columns partition the square: an easting lies in exactly one column. */
  lemma ColumnUnique(p: real, z: nat, x: int)
    requires WebMercMin <= p < WebMercMax
    requires TileBounds(x, 0, z).left <= p < TileBounds(x, 0, z).right
    ensures x == ColumnOf(p, z)
  {
    var s := TileSpan(z);
    assert x as real * s <= p - WebMercMin < (x + 1) as real * s;
    IndexUnique(p - WebMercMin, s, x, ColumnOf(p, z));
  }

  /** Rows partition the square: a northing lies in exactly one row. */
  lemma RowUnique(p: real, z: nat, y: int)
    requires WebMercMin < p <= WebMercMax
    requires TileBounds(0, y, z).bottom < p <= TileBounds(0, y, z).top
    ensures y == RowOf(p, z)
  {
    var s := TileSpan(z);
    assert y as real * s <= WebMercMax - p < (y + 1) as real * s;
    IndexUnique(WebMercMax - p, s, y, RowOf(p, z));
  }

  /** The fraction of the square's width at which `d` metres lie, scaled to tiles:
      the expression every index in get_tile_range truncates. */
  function TileCoordinate(d: real, z: nat): real {
    d / WebMercSize * (Pow2(z) as real)
  }

  /** k tile sides of s, as a fraction of the square scaled by n tiles, is k. */
  lemma SpanCoordinate(k: real, s: real, n: real)
    requires s > 0.0 && s * n == WebMercSize
    ensures k * s / WebMercSize * n == k
  {
    assert k * s / WebMercSize * n == k * (s * n) / WebMercSize;
  }

  lemma TileCoordinateOfSpan(k: real, z: nat)
    ensures TileCoordinate(k * TileSpan(z), z) == k
  {
    SpanCoordinate(k, TileSpan(z), Pow2(z) as real);
  }

  lemma TileCoordinateIsSpans(d: real, z: nat)
    ensures TileCoordinate(d, z) == d / TileSpan(z)
  {
    var s := TileSpan(z);
    DivideThenScale(d, s);
    TileCoordinateOfSpan(d / s, z);
  }

  /** Scaled coordinates keep the order of the distances they scale. */
  lemma TileCoordinateMonotone(d: real, e: real, z: nat)
    ensures d <= e ==> TileCoordinate(d, z) <= TileCoordinate(e, z)
  {
    var s := TileSpan(z);
    TileCoordinateIsSpans(d, z);
    TileCoordinateIsSpans(e, z);
    DivideThenScale(d, s);
    DivideThenScale(e, s);
    ScaleOrder(d / s, e / s, s);
  }

  /** get_tile_range as written in three of the scripts: `int()` of each scaled
      coordinate, with no clamping. A box whose edges are in order gets a range
      whose bounds are in order. */
  function TileRangeOf(b: Bounds, z: nat): (r: TileRange)
    ensures b.left <= b.right ==> r.xMin <= r.xMax
    ensures b.bottom <= b.top ==> r.yMin <= r.yMax
  {
    TileCoordinateMonotone(b.left - WebMercMin, b.right - WebMercMin, z);
    TileCoordinateMonotone(WebMercMax - b.top, WebMercMax - b.bottom, z);
    TileRange(Trunc(TileCoordinate(b.left - WebMercMin, z)),
              Trunc(TileCoordinate(b.right - WebMercMin, z)),
              Trunc(TileCoordinate(WebMercMax - b.top, z)),
              Trunc(TileCoordinate(WebMercMax - b.bottom, z)))
  }

  /** get_tile_range of the per-property loop script: the same indices, clamped
      to the valid index range [0, 2^z - 1]. */
  function ClampedTileRangeOf(b: Bounds, z: nat): (r: TileRange)
    ensures 0 <= r.xMin && 0 <= r.yMin
    ensures r.xMax <= Pow2(z) - 1 && r.yMax <= Pow2(z) - 1
  {
    var u := TileRangeOf(b, z);
    var n := Pow2(z);
    TileRange(if u.xMin < 0 then 0 else u.xMin,
              if u.xMax > n - 1 then n - 1 else u.xMax,
              if u.yMin < 0 then 0 else u.yMin,
              if u.yMax > n - 1 then n - 1 else u.yMax)
  }

  /** Clamping changes nothing when the unclamped indices are already valid. */
  lemma ClampAgreesInsideGrid(b: Bounds, z: nat)
    requires var u := TileRangeOf(b, z);
      0 <= u.xMin && 0 <= u.yMin && u.xMax < Pow2(z) && u.yMax < Pow2(z)
    ensures ClampedTileRangeOf(b, z) == TileRangeOf(b, z)
  {
  }

  /** The first column and row of the range are those of the tile holding the
      bounding box's north-west corner. */
  lemma RangeStartsAtCornerTile(b: Bounds, z: nat)
    requires WebMercMin <= b.left < WebMercMax
    requires WebMercMin < b.top <= WebMercMax
    ensures TileRangeOf(b, z).xMin == ColumnOf(b.left, z)
    ensures TileRangeOf(b, z).yMin == RowOf(b.top, z)
  {
    TileCoordinateIsSpans(b.left - WebMercMin, z);
    TileCoordinateIsSpans(WebMercMax - b.top, z);
  }

  /** Unclamped round trip: the range of a tile's own bounds is exactly
      [x, x + 1] x [y, y + 1], for every integer x and y. */
  lemma UnclampedRoundTrip(x: int, y: int, z: nat)
    ensures TileRangeOf(TileBounds(x, y, z), z) == TileRange(x, x + 1, y, y + 1)
  {
    ColumnsRoundTrip(x, y, z);
    RowsRoundTrip(x, y, z);
  }

  lemma ColumnsRoundTrip(x: int, y: int, z: nat)
    ensures TileRangeOf(TileBounds(x, y, z), z).xMin == x
    ensures TileRangeOf(TileBounds(x, y, z), z).xMax == x + 1
  {
    var b := TileBounds(x, y, z);
    assert b.left - WebMercMin == x as real * TileSpan(z);
    assert b.right - WebMercMin == (x + 1) as real * TileSpan(z);
    EdgeIndex(x, z);
    EdgeIndex(x + 1, z);
  }

  lemma RowsRoundTrip(x: int, y: int, z: nat)
    ensures TileRangeOf(TileBounds(x, y, z), z).yMin == y
    ensures TileRangeOf(TileBounds(x, y, z), z).yMax == y + 1
  {
    var b := TileBounds(x, y, z);
    assert WebMercMax - b.top == y as real * TileSpan(z);
    assert WebMercMax - b.bottom == (y + 1) as real * TileSpan(z);
    EdgeIndex(y, z);
    EdgeIndex(y + 1, z);
  }

  /** An offset of exactly k tile sides truncates to index k. */
  lemma EdgeIndex(k: int, z: nat)
    ensures Trunc(TileCoordinate(k as real * TileSpan(z), z)) == k
  {
    TileCoordinateOfSpan(k as real, z);
  }

  /** Clamped round trip: for a valid tile the range starts at the tile itself and
      ends at the next tile, or at the tile itself on the east or south edge. */
  lemma ClampedRoundTrip(x: int, y: int, z: nat)
    requires 0 <= x < Pow2(z) && 0 <= y < Pow2(z)
    ensures var r := ClampedTileRangeOf(TileBounds(x, y, z), z);
      && r.xMin == x && r.yMin == y
      && r.xMax == (if x + 1 < Pow2(z) then x + 1 else x)
      && r.yMax == (if y + 1 < Pow2(z) then y + 1 else y)
  {
    UnclampedRoundTrip(x, y, z);
  }

  /** For a bounding box inside the square, every unclamped index lies in
      [0, 2^z]; 2^z itself is one past the last valid index. */
  lemma UnclampedInsideSquare(b: Bounds, z: nat)
    requires WebMercMin <= b.left <= WebMercMax && WebMercMin <= b.right <= WebMercMax
    requires WebMercMin <= b.bottom <= WebMercMax && WebMercMin <= b.top <= WebMercMax
    ensures var r := TileRangeOf(b, z);
      && 0 <= r.xMin <= Pow2(z) && 0 <= r.xMax <= Pow2(z)
      && 0 <= r.yMin <= Pow2(z) && 0 <= r.yMax <= Pow2(z)
  {
    forall d | 0.0 <= d <= WebMercSize
      ensures 0 <= Trunc(TileCoordinate(d, z)) <= Pow2(z)
    {
      ScaledIndexBounded(d, z);
    }
  }

  lemma ScaledIndexBounded(d: real, z: nat)
    requires 0.0 <= d <= WebMercSize
    ensures 0 <= Trunc(TileCoordinate(d, z)) <= Pow2(z)
  {
    TileCoordinateIsSpans(d, z);
    QuotientBounded(d, TileSpan(z), Pow2(z));
  }

  lemma QuotientBounded(d: real, s: real, n: int)
    requires s > 0.0 && 0.0 <= d <= n as real * s
    ensures 0.0 <= d / s <= n as real
  {
    var q := d / s;
    assert q * s == d;
    ScaleOrder(q, n as real, s);
    ScaleOrder(0.0, q, s);
  }

  /** A bounding box that reaches the east edge yields column 2^z, and one that
      reaches the south edge yields row 2^z: neither tile exists. */
  lemma UnclampedEdgeIndex(b: Bounds, z: nat)
    ensures b.right == WebMercMax ==> TileRangeOf(b, z).xMax == Pow2(z)
    ensures b.bottom == WebMercMin ==> TileRangeOf(b, z).yMax == Pow2(z)
  {
    if b.right == WebMercMax {
      EdgeDistanceIndex(b.right - WebMercMin, z);
    }
    if b.bottom == WebMercMin {
      EdgeDistanceIndex(WebMercMax - b.bottom, z);
    }
  }

  /** The whole width of the square scales to index 2^z. */
  lemma EdgeDistanceIndex(d: real, z: nat)
    requires d == WebMercSize
    ensures Trunc(TileCoordinate(d, z)) == Pow2(z)
  {
    IndexBeyondSquare(d, 0.0, z);
  }

  /** Outside the square the unclamped indices leave [0, 2^z - 1]: a box starting
      two and a half tiles west and north of the square and ending one and a half
      tiles east and south of it gives the range [-2, 2^z + 1] on both axes
      (`int()` truncates -2.5 to -2, where a floor would give -3). */
  lemma UnclampedLeavesGrid(z: nat)
    ensures var s := TileSpan(z);
      var b := Bounds(WebMercMin - 2.5 * s, WebMercMin - 1.5 * s,
                      WebMercMax + 1.5 * s, WebMercMax + 2.5 * s);
      TileRangeOf(b, z) == TileRange(-2, Pow2(z) + 1, -2, Pow2(z) + 1)
  {
    var s := TileSpan(z);
    var b := Bounds(WebMercMin - 2.5 * s, WebMercMin - 1.5 * s,
                    WebMercMax + 1.5 * s, WebMercMax + 2.5 * s);
    IndexOfSpans(b.left - WebMercMin, -2.5, z);
    IndexOfSpans(WebMercMax - b.top, -2.5, z);
    IndexBeyondSquare(b.right - WebMercMin, 1.5, z);
    IndexBeyondSquare(WebMercMax - b.bottom, 1.5, z);
    assert Trunc(-2.5) == -2;
  }

  /** A distance of the square's width plus k tile sides has index `int(2^z + k)`. */
  lemma IndexBeyondSquare(d: real, k: real, z: nat)
    requires d == WebMercSize + k * TileSpan(z)
    ensures k >= 0.0 ==> Trunc(TileCoordinate(d, z)) == Pow2(z) + Trunc(k)
  {
    var s, n := TileSpan(z), Pow2(z) as real;
    SpansBeyondSquare(s, n, k);
    IndexOfSpans(d, n + k, z);
  }

  /** The index of a distance of k tile sides is `int(k)`. */
  lemma IndexOfSpans(d: real, k: real, z: nat)
    requires d == k * TileSpan(z)
    ensures Trunc(TileCoordinate(d, z)) == Trunc(k)
  {
    TileCoordinateOfSpan(k, z);
  }

  /** k sides beyond the far edge lie n + k sides from the near one. */
  lemma SpansBeyondSquare(s: real, n: real, k: real)
    requires s * n == WebMercSize
    ensures WebMercMax + k * s - WebMercMin == (n + k) * s
    ensures WebMercMax - (WebMercMin - k * s) == (n + k) * s
  {
    assert (n + k) * s == n * s + k * s;
  }

  /** The clamped range truncates before it clamps, so it is not the range of
      tiles the box meets: a box lying between 0.9 and 0.1 tiles west of the
      square still gets column 0 (where a floor would give the empty range
      [0, -1]), and a box lying between 3.5 and 2.5 tiles west of it gets the
      empty range [0, -2]. */
  lemma ClampedWestOfSquare(z: nat)
    ensures var s := TileSpan(z);
      var r := ClampedTileRangeOf(Bounds(WebMercMin - 0.9 * s, WebMercMin, WebMercMin - 0.1 * s, WebMercMax), z);
      r.xMin == 0 && r.xMax == 0
    ensures var s := TileSpan(z);
      var r := ClampedTileRangeOf(Bounds(WebMercMin - 3.5 * s, WebMercMin, WebMercMin - 2.5 * s, WebMercMax), z);
      r.xMin == 0 && r.xMax == -2
  {
    var s := TileSpan(z);
    assert WebMercMin - 0.9 * s - WebMercMin == -0.9 * s;
    assert WebMercMin - 0.1 * s - WebMercMin == -0.1 * s;
    assert WebMercMin - 3.5 * s - WebMercMin == -3.5 * s;
    assert WebMercMin - 2.5 * s - WebMercMin == -2.5 * s;
    TileCoordinateOfSpan(-0.9, z);
    TileCoordinateOfSpan(-0.1, z);
    TileCoordinateOfSpan(-3.5, z);
    TileCoordinateOfSpan(-2.5, z);
  }
}
