/**
  The map tiles a bounding box spans.

  Columns are computed exactly from longitudes. Rows need trigonometry in the source;
  here they are any function of latitude that never grows northward.
 */
module TileCover {
  import opened FiniteSets
  import opened RouteBounds

  datatype Tile = Tile(z: nat, x: int, y: int)

  function Pow2(z: nat): nat
    ensures Pow2(z) > 0
  {
    if z == 0 then 1 else 2 * Pow2(z - 1)
  }

  function Clamp(v: int, n: nat): int { if v > n - 1 then n - 1 else if v < 0 then 0 else v }

  function Column(lon: real, z: nat): int { Clamp(((lon + 180.0) / 360.0 * (Pow2(z) as real)).Floor, Pow2(z)) }

  /** A row function: from 0 in the north down to the last row in the south. */
  ghost predicate Rows(row: (real, nat) -> int) {
    && (forall lat, z :: 0 <= row(lat, z) < Pow2(z))
    && (forall lat, other, z {:trigger row(lat, z), row(other, z)} :: lat <= other ==> row(other, z) <= row(lat, z))
  }

  lemma ColumnMonotone(a: real, b: real, z: nat)
    requires a <= b
    ensures 0 <= Column(a, z) <= Column(b, z) < Pow2(z)
  {
    var n := Pow2(z) as real;
    var fa, fb := (a + 180.0) / 360.0, (b + 180.0) / 360.0;
    assert fa <= fb;
    assert (fb - fa) * n >= 0.0;
    assert fb * n - fa * n == (fb - fa) * n;
  }

  /** A column is one of the equal strips that the zoom level cuts the circle into from -180
      eastward; the meridian 180 itself belongs to the last one. */
  lemma ColumnIff(lon: real, z: nat, x: int)
    requires -180.0 <= lon < 180.0
    ensures Column(lon, z) == x <==>
              (x as real) * 360.0 <= (lon + 180.0) * (Pow2(z) as real) < ((x + 1) as real) * 360.0
  {
    hide Pow2;
    var share, n := (lon + 180.0) / 360.0, Pow2(z) as real;
    ShareFloor(share, Pow2(z));
    Scaled(share, n);
    FloorIff(share * n, x);
    assert Column(lon, z) == (share * n).Floor;
    assert share * 360.0 == lon + 180.0;
    assert share * n * 360.0 == (lon + 180.0) * n;
  }

  lemma ShareOfCircle(share: real, n: real)
    requires 0.0 <= share < 1.0 && 0.0 < n
    ensures 0.0 <= share * n < n
  {
    assert (1.0 - share) * n > 0.0;
    assert (1.0 - share) * n == n - share * n;
  }

  lemma ShareFloor(share: real, k: nat)
    requires 0.0 <= share < 1.0 && 0 < k
    ensures 0 <= (share * (k as real)).Floor <= k - 1
  {
    var v := share * (k as real);
    ShareOfCircle(share, k as real);
    assert 0.0 <= v < k as real;
    FloorBelow(v, k);
  }

  lemma Scaled(share: real, n: real)
    ensures share * n * 360.0 == share * 360.0 * n
  {
  }

  lemma FloorIff(v: real, x: int)
    ensures v.Floor == x <==> (x as real) * 360.0 <= v * 360.0 < ((x + 1) as real) * 360.0
  {
  }

  lemma FloorBelow(v: real, k: nat)
    requires 0.0 <= v < k as real
    ensures 0 <= v.Floor <= k - 1
  {
  }

  lemma LastColumn(z: nat)
    ensures Column(180.0, z) == Pow2(z) - 1
  {
    assert (180.0 + 180.0) / 360.0 == 1.0;
  }

  /** The whole circle is one column at zoom 0, and each zoom level halves every column. */
  lemma ColumnHalves(lon: real, z: nat)
    requires ValidLongitude(lon)
    ensures Column(lon, 0) == 0
    ensures Column(lon, z + 1) == 2 * Column(lon, z) || Column(lon, z + 1) == 2 * Column(lon, z) + 1
  {
    if lon < 180.0 {
      ColumnIff(lon, 0, 0);
      ColumnIff(lon, z, Column(lon, z));
      ColumnIff(lon, z + 1, Column(lon, z + 1));
      Doubled(lon + 180.0, Pow2(z) as real);
      var before, after := Column(lon, z), Column(lon, z + 1);
      hide Column;
    } else {
      LastColumn(0);
      LastColumn(z);
      LastColumn(z + 1);
    }
  }

  lemma Doubled(a: real, n: real)
    ensures a * (2.0 * n) == 2.0 * (a * n)
  {
  }

  predicate InColumns(b: BBox, z: nat, x: int) {
    if b.west <= b.east then Column(b.west, z) <= x <= Column(b.east, z)
    else Column(b.west, z) <= x <= Column(180.0, z) || Column(-180.0, z) <= x <= Column(b.east, z)
  }

  predicate InSpan(b: BBox, zoomMin: int, zoomMax: int, row: (real, nat) -> int, t: Tile) {
    && zoomMin <= t.z <= zoomMax
    && InColumns(b, t.z, t.x)
    && row(b.north, t.z) <= t.y <= row(b.south, t.z)
  }

  predicate InBlock(z: nat, x0: int, x1: int, y0: int, y1: int, t: Tile) {
    t.z == z && x0 <= t.x <= x1 && y0 <= t.y <= y1
  }

  /** The tile of every point inside the box, on either side of the antimeridian. */
  lemma PointTileInSpan(b: BBox, zoomMin: int, zoomMax: int, row: (real, nat) -> int, z: nat, lat: real, lon: real)
    requires Rows(row) && zoomMin <= z <= zoomMax
    requires ValidLongitude(b.west) && ValidLongitude(b.east) && ValidLongitude(lon)
    requires b.south <= lat <= b.north
    requires if b.west <= b.east then b.west <= lon <= b.east else b.west <= lon || lon <= b.east
    ensures InSpan(b, zoomMin, zoomMax, row, Tile(z, Column(lon, z), row(lat, z)))
  {
    if b.west <= lon { ColumnMonotone(b.west, lon, z); }
    if lon <= b.east { ColumnMonotone(lon, b.east, z); }
    ColumnMonotone(lon, 180.0, z);
    ColumnMonotone(-180.0, lon, z);
  }

  /** For a box whose west end is not -180, the points between its ends are those the
      eastward arc contains. */
  lemma ArcPointsBetween(b: BBox, lon: real)
    requires -180.0 < b.west <= 180.0 && -180.0 < b.east <= 180.0 && -180.0 < lon <= 180.0
    ensures ArcContains(b.west, b.east, lon)
      <==> if b.west <= b.east then b.west <= lon <= b.east else b.west <= lon || lon <= b.east
  {
  }

  // ----------------------------------------------------------------------- order

  predicate Before(a: Tile, b: Tile) {
    if a.z != b.z then a.z < b.z else if a.x != b.x then a.x < b.x else a.y < b.y
  }

  ghost predicate StrictlySorted(tiles: seq<Tile>) {
    forall i, j :: 0 <= i < j < |tiles| ==> Before(tiles[i], tiles[j])
  }

  /** Lists a set of tiles in the order of zoom, column and row. */
  method SortTiles(tiles: set<Tile>) returns (sorted: seq<Tile>)
    ensures StrictlySorted(sorted)
    ensures forall t :: t in sorted <==> t in tiles
  {
    sorted := [];
    var rest := tiles;
    while rest != {}
      invariant rest <= tiles && StrictlySorted(sorted)
      invariant forall t :: t in sorted <==> t in tiles - rest
      decreases rest
    {
      var t :| t in rest;
      rest := rest - {t};
      sorted := InsertTile(sorted, t);
    }
  }

  method InsertTile(sorted: seq<Tile>, t: Tile) returns (more: seq<Tile>)
    requires StrictlySorted(sorted) && t !in sorted
    ensures StrictlySorted(more)
    ensures forall u :: u in more <==> u in sorted || u == t
  {
    var k := 0;
    while k < |sorted| && Before(sorted[k], t)
      invariant 0 <= k <= |sorted|
      invariant forall i :: 0 <= i < k ==> Before(sorted[i], t)
    {
      k := k + 1;
    }
    more := sorted[..k] + [t] + sorted[k..];
    InsertedInOrder(sorted, k, t);
  }

  lemma InsertedInOrder(sorted: seq<Tile>, k: nat, t: Tile)
    requires StrictlySorted(sorted) && t !in sorted && k <= |sorted|
    requires forall i :: 0 <= i < k ==> Before(sorted[i], t)
    requires k < |sorted| ==> !Before(sorted[k], t)
    ensures var more := sorted[..k] + [t] + sorted[k..];
            StrictlySorted(more) && forall u :: u in more <==> u in sorted || u == t
  {
    var more := sorted[..k] + [t] + sorted[k..];
    forall u
      ensures u in more <==> u in sorted || u == t
    {
      assert sorted == sorted[..k] + sorted[k..];
    }
    if k < |sorted| {
      assert sorted[k] in sorted && Before(t, sorted[k]);
    }
    forall i, j | 0 <= i < j < |more|
      ensures Before(more[i], more[j])
    {
      assert i < k ==> more[i] == sorted[i];
      assert j > k ==> more[j] == sorted[j - 1] && (k < j - 1 ==> Before(sorted[k], sorted[j - 1]));
    }
  }

  // ----------------------------------------------------------------- enumeration

  /** Adds one rectangle of tiles, stopping as soon as the cap is exceeded. */
  method AddBlock(seen: set<Tile>, z: nat, x0: int, x1: int, y0: int, y1: int, cap: int)
      returns (more: set<Tile>, over: bool)
    requires x1 < Pow2(z)
    requires seen == {} || |seen| <= cap
    ensures forall t :: t in more ==> t in seen || InBlock(z, x0, x1, y0, y1, t)
    ensures seen <= more
    ensures over ==> |more| > cap && more != {}
    ensures !over ==> (more == {} || |more| <= cap) && forall t :: InBlock(z, x0, x1, y0, y1, t) ==> t in more
  {
    more := seen;
    var x := x0;
    while x <= x1
      invariant x0 <= x && (x <= x1 + 1 || x == x0)
      invariant forall t :: t in more <==> t in seen || InBlock(z, x0, x - 1, y0, y1, t)
      invariant more == {} || |more| <= cap
    {
      var y := y0;
      while y <= y1
        invariant y0 <= y && (y <= y1 + 1 || y == y0)
        invariant forall t :: t in more <==>
          t in seen || InBlock(z, x0, x - 1, y0, y1, t) || InBlock(z, x, x, y0, y - 1, t)
        invariant more == {} || |more| <= cap
      {
        more := more + {Tile(z, if x < Pow2(z) - 1 then x else Pow2(z) - 1, y)};
        if |more| > cap {
          return more, true;
        }
        y := y + 1;
      }
      x := x + 1;
    }
    over := false;
  }

  ghost predicate IsSpan(span: set<Tile>, b: BBox, zoomMin: int, zoomMax: int, row: (real, nat) -> int) {
    forall t :: t in span <==> InSpan(b, zoomMin, zoomMax, row, t)
  }

  /** Lists exactly the tiles the box spans, strictly sorted, or fails exactly when there
      are more of them than the cap (an empty span never fails). */
  method Enumerate(b: BBox, zoomMin: nat, zoomMax: int, row: (real, nat) -> int, cap: int)
      returns (ok: bool, tiles: seq<Tile>)
    requires Rows(row)
    ensures ok ==> StrictlySorted(tiles) && forall t :: t in tiles <==> InSpan(b, zoomMin, zoomMax, row, t)
    ensures ok ==> forall span :: IsSpan(span, b, zoomMin, zoomMax, row) ==> span == {} || |span| <= cap
    ensures !ok ==> forall span :: IsSpan(span, b, zoomMin, zoomMax, row) ==> span != {} && |span| > cap
  {
    var seen: set<Tile> := {};
    var z := zoomMin;
    while z <= zoomMax
      invariant zoomMin <= z
      invariant forall t :: t in seen <==> t.z < z && InSpan(b, zoomMin, zoomMax, row, t)
      invariant seen == {} || |seen| <= cap
    {
      var over;
      seen, over := AddZoom(seen, b, zoomMin, zoomMax, z, row, cap);
      if over {
        forall span | IsSpan(span, b, zoomMin, zoomMax, row)
          ensures span != {} && |span| > cap
        {
          SubsetSize(seen, span);
        }
        return false, [];
      }
      z := z + 1;
    }
    tiles := SortTiles(seen);
    ok := true;
    forall span | IsSpan(span, b, zoomMin, zoomMax, row)
      ensures span == seen
    {
    }
  }

  /** Adds every tile of one zoom level, from one interval or two. */
  method AddZoom(seen: set<Tile>, b: BBox, zoomMin: nat, zoomMax: int, z: nat, row: (real, nat) -> int, cap: int)
      returns (more: set<Tile>, over: bool)
    requires Rows(row) && zoomMin <= z <= zoomMax
    requires forall t :: t in seen <==> t.z < z && InSpan(b, zoomMin, zoomMax, row, t)
    requires seen == {} || |seen| <= cap
    ensures forall t :: t in more ==> InSpan(b, zoomMin, zoomMax, row, t)
    ensures over ==> |more| > cap && more != {}
    ensures !over ==> more == {} || |more| <= cap
    ensures !over ==> forall t :: t in more <==> t.z < z + 1 && InSpan(b, zoomMin, zoomMax, row, t)
  {
    var yNorth, ySouth := row(b.north, z), row(b.south, z);
    ColumnMonotone(b.west, b.west, z);
    ColumnMonotone(b.east, b.east, z);
    ColumnMonotone(180.0, 180.0, z);
    if b.west <= b.east {
      more, over := AddBlock(seen, z, Column(b.west, z), Column(b.east, z), yNorth, ySouth, cap);
    } else {
      more, over := AddBlock(seen, z, Column(b.west, z), Column(180.0, z), yNorth, ySouth, cap);
      if !over {
        more, over := AddBlock(more, z, Column(-180.0, z), Column(b.east, z), yNorth, ySouth, cap);
      }
    }
  }

  // ------------------------------------------------------------ the tiles of a route

  /** The same meridian, west of the antimeridian only when it is not on it. */
  function Meridian(lon: real): real { Longitude(Position(lon)) }

  lemma MeridianIsItself(lon: real)
    requires ValidLongitude(lon)
    ensures Meridian(lon) == if lon == -180.0 then 180.0 else lon
    ensures -180.0 < Meridian(lon) <= 180.0 && Position(Meridian(lon)) == Position(lon)
  {
  }

  ghost predicate RouteCovered(
    route: seq<Coordinate>, tiles: seq<Tile>, zoomMin: nat, zoomMax: int, row: (real, nat) -> int)
  {
    forall i, z: nat :: 0 <= i < |route| && zoomMin <= z <= zoomMax ==>
      Tile(z, Column(Meridian(route[i].lon), z), row(route[i].lat, z)) in tiles
  }

  /** The bounds of a route span the tile of each of its points. */
  lemma RoutePointInSpan(
    b: BBox, route: seq<Coordinate>, i: nat, z: nat, zoomMin: int, zoomMax: int, row: (real, nat) -> int)
    requires Rows(row) && Encloses(b, route) && i < |route| && ValidLongitude(route[i].lon) && zoomMin <= z <= zoomMax
    requires -180.0 < b.west <= 180.0 && -180.0 < b.east <= 180.0
    ensures InSpan(b, zoomMin, zoomMax, row, Tile(z, Column(Meridian(route[i].lon), z), row(route[i].lat, z)))
  {
    var lon := Meridian(route[i].lon);
    MeridianIsItself(route[i].lon);
    assert ArcContains(b.west, b.east, route[i].lon);
    ArcPointsBetween(b, lon);
    PointTileInSpan(b, zoomMin, zoomMax, row, z, route[i].lat, lon);
  }

  /** The bounds of a route and their tiles: the tile of every route point is listed. */
  method RouteTiles(route: seq<Coordinate>, zoomMin: nat, zoomMax: int, row: (real, nat) -> int, cap: int)
      returns (ok: bool, tiles: seq<Tile>, ghost b: BBox)
    requires Rows(row) && |route| > 0
    requires forall i :: 0 <= i < |route| ==> ValidLongitude(route[i].lon)
    ensures Encloses(b, route)
    ensures ok ==> StrictlySorted(tiles) && RouteCovered(route, tiles, zoomMin, zoomMax, row)
    ensures ok ==> forall t :: t in tiles <==> InSpan(b, zoomMin, zoomMax, row, t)
    ensures !ok ==> forall span :: IsSpan(span, b, zoomMin, zoomMax, row) ==> span != {} && |span| > cap
  {
    var bounds := Bounds(route);
    b := bounds;
    ok, tiles := Enumerate(bounds, zoomMin, zoomMax, row, cap);
    if ok {
      forall i, z: nat | 0 <= i < |route| && zoomMin <= z <= zoomMax
        ensures Tile(z, Column(Meridian(route[i].lon), z), row(route[i].lat, z)) in tiles
      {
        RoutePointInSpan(b, route, i, z, zoomMin, zoomMax, row);
      }
    }
  }

  /** A point written as -180 is taken for 180: of its two names only that tile column is
      sure to be listed. The first column is listed too if and only if the box crosses the
      antimeridian or starts in that column. */
  lemma WestNameListedIff(b: BBox, z: nat)
    requires -180.0 < b.west <= 180.0 && -180.0 < b.east <= 180.0
    ensures Column(-180.0, z) == 0
    ensures InColumns(b, z, Column(-180.0, z)) <==> b.west > b.east || Column(b.west, z) == 0
  {
    assert Column(-180.0, z) == 0;
    ColumnMonotone(-180.0, b.west, z);
    ColumnMonotone(-180.0, b.east, z);
    ColumnMonotone(b.west, 180.0, z);
  }
}
