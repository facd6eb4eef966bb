/**
  The bounding arc of a route on the circle of longitudes.

  Longitudes run from -180 to 180. An arc goes eastward from its west end to its east
  end and may cross the antimeridian, in which case west is the larger number.
 */
module RouteBounds {
  datatype Coordinate = Coordinate(lat: real, lon: real)

  datatype BBox = BBox(south: real, west: real, north: real, east: real)

  predicate ValidLongitude(lon: real) { -180.0 <= lon <= 180.0 }

  /** The position of a longitude on the circle, from 0 up to 360. */
  function Position(lon: real): real { if lon < 0.0 then lon + 360.0 else lon }

  /** How far east one has to travel from one longitude to another. */
  function Eastward(from: real, to: real): real {
    var d := Position(to) - Position(from);
    if d < 0.0 then d + 360.0 else d
  }

  predicate ArcContains(west: real, east: real, lon: real) { Eastward(west, lon) <= Eastward(west, east) }

  ghost predicate Sorted(xs: seq<real>) { forall i, j :: 0 <= i < j < |xs| ==> xs[i] <= xs[j] }

  /** The gap east of the i-th of the sorted positions; the last gap wraps around. */
  function Gap(xs: seq<real>, i: nat): real
    requires i < |xs|
  {
    if i == |xs| - 1 then xs[0] + 360.0 - xs[i] else xs[i + 1] - xs[i]
  }

  function Longitude(position: real): real { if position > 180.0 then position - 360.0 else position }

  lemma LongitudePosition(p: real)
    requires 0.0 <= p < 360.0
    ensures ValidLongitude(Longitude(p)) && Position(Longitude(p)) == p
  {
  }

  /** Sorts the positions in place. */
  method SortPositions(a: array<real>)
    modifies a
    ensures Sorted(a[..])
    ensures multiset(a[..]) == multiset(old(a[..]))
  {
    for n := 0 to a.Length
      invariant forall i, j :: 0 <= i < j < n ==> a[i] <= a[j]
      invariant multiset(a[..]) == multiset(old(a[..]))
    {
      var k := n;
      while k > 0 && a[k - 1] > a[k]
        invariant 0 <= k <= n
        invariant forall i, j :: 0 <= i < j <= n && j != k ==> a[i] <= a[j]
        invariant multiset(a[..]) == multiset(old(a[..]))
      {
        a[k - 1], a[k] := a[k], a[k - 1];
        k := k - 1;
      }
    }
  }

  /** No arc that contains every position is shorter than the circle less the largest gap. */
  lemma ArcCoversGaps(xs: seq<real>, west: real, east: real, largest: real)
    requires |xs| > 0 && Sorted(xs)
    requires forall i :: 0 <= i < |xs| ==> 0.0 <= xs[i] < 360.0
    requires ValidLongitude(west) && ValidLongitude(east)
    requires forall i :: 0 <= i < |xs| ==> ArcContains(west, east, Longitude(xs[i]))
    requires forall i :: 0 <= i < |xs| ==> Gap(xs, i) <= largest
    ensures 360.0 - largest <= Eastward(west, east)
  {
    var w := Position(west);
    var n := |xs|;
    LongitudePosition(xs[0]);
    LongitudePosition(xs[n - 1]);
    assert ArcContains(west, east, Longitude(xs[0])) && ArcContains(west, east, Longitude(xs[n - 1]));
    assert Gap(xs, n - 1) <= largest;
    if xs[0] < w <= xs[n - 1] {
      var j := FirstFrom(xs, w);
      LongitudePosition(xs[j - 1]);
      assert ArcContains(west, east, Longitude(xs[j - 1]));
      assert Gap(xs, j - 1) <= largest;
    }
  }

  /** The first position at or after `w`. */
  lemma FirstFrom(xs: seq<real>, w: real) returns (j: nat)
    requires |xs| > 0 && Sorted(xs) && xs[0] < w <= xs[|xs| - 1]
    ensures 0 < j < |xs| && xs[j - 1] < w <= xs[j]
  {
    j := 1;
    while xs[j] < w
      invariant 0 < j < |xs| && xs[j - 1] < w
      decreases |xs| - j
    {
      j := j + 1;
    }
  }

  ghost predicate Encloses(b: BBox, route: seq<Coordinate>) {
    forall i :: 0 <= i < |route| ==>
      b.south <= route[i].lat <= b.north && ArcContains(b.west, b.east, route[i].lon)
  }

  /** The latitude range of a route and the positions of its longitudes. */
  method Survey(route: seq<Coordinate>) returns (south: real, north: real, longitudes: array<real>)
    requires |route| > 0
    ensures forall k :: 0 <= k < |route| ==> south <= route[k].lat <= north
    ensures exists k :: 0 <= k < |route| && south == route[k].lat
    ensures exists k :: 0 <= k < |route| && north == route[k].lat
    ensures fresh(longitudes) && longitudes.Length == |route|
    ensures forall k :: 0 <= k < |route| ==> longitudes[k] == Position(route[k].lon)
  {
    south, north := route[0].lat, route[0].lat;
    longitudes := new real[|route|];
    for i := 0 to |route|
      invariant forall k :: 0 <= k < i ==> south <= route[k].lat <= north
      invariant exists k :: 0 <= k < |route| && south == route[k].lat
      invariant exists k :: 0 <= k < |route| && north == route[k].lat
      invariant forall k :: 0 <= k < i ==> longitudes[k] == Position(route[k].lon)
    {
      if route[i].lat < south { south := route[i].lat; }
      if route[i].lat > north { north := route[i].lat; }
      longitudes[i] := Position(route[i].lon);
    }
  }

  /** The first of the widest gaps between neighbouring positions. */
  method WidestGap(longitudes: array<real>) returns (largest: real, gapIndex: nat)
    requires longitudes.Length > 0 && Sorted(longitudes[..])
    requires forall i :: 0 <= i < longitudes.Length ==> 0.0 <= longitudes[i] < 360.0
    ensures gapIndex < longitudes.Length && largest == Gap(longitudes[..], gapIndex)
    ensures forall k :: 0 <= k < longitudes.Length ==> Gap(longitudes[..], k) <= largest
  {
    ghost var xs := longitudes[..];
    assert Gap(xs, 0) >= 0.0;
    hide Sorted;
    var n := longitudes.Length;
    largest, gapIndex := -1.0, 0;
    for i := 0 to n
      invariant i > 0 ==> gapIndex < i && largest == Gap(xs, gapIndex)
      invariant i == 0 ==> largest == -1.0
      invariant forall k :: 0 <= k < i ==> Gap(xs, k) <= largest
    {
      NextIndex(i, n);
      var next := longitudes[(i + 1) % n] + if i == n - 1 then 360.0 else 0.0;
      assert next - longitudes[i] == Gap(xs, i);
      if next - longitudes[i] > largest {
        largest, gapIndex := next - longitudes[i], i;
      }
    }
  }

  /** The bounds of a route: the tightest latitudes, and an eastward arc that contains
      every point and is as short as any such arc on the circle. */
  method Bounds(route: seq<Coordinate>) returns (b: BBox)
    requires |route| > 0
    requires forall i :: 0 <= i < |route| ==> ValidLongitude(route[i].lon)
    ensures -180.0 < b.west <= 180.0 && -180.0 < b.east <= 180.0
    ensures Encloses(b, route)
    ensures exists i :: 0 <= i < |route| && b.south == route[i].lat
    ensures exists i :: 0 <= i < |route| && b.north == route[i].lat
    ensures forall other: BBox :: ValidLongitude(other.west) && ValidLongitude(other.east) && Encloses(other, route) ==>
      Eastward(b.west, b.east) <= Eastward(other.west, other.east)
  {
    var south, north, longitudes := Survey(route);
    ghost var positions := longitudes[..];
    SortPositions(longitudes);
    ghost var xs := longitudes[..];
    SortedRange(positions, xs);
    var largest, gapIndex := WidestGap(longitudes);
    var n := longitudes.Length;
    NextIndex(gapIndex, n);
    var west := longitudes[(gapIndex + 1) % n];
    var east := longitudes[gapIndex];
    b := BBox(south, Longitude(west), north, Longitude(east));
    hide ArcContains, Eastward, Position, Longitude, Gap, Sorted;
    LargestGapArc(xs, gapIndex);
    PositionsOfRoute(route, positions, xs, b, largest);
  }

  lemma NextIndex(i: nat, n: nat)
    requires i < n
    ensures (i + 1) % n == if i == n - 1 then 0 else i + 1
  {
  }

  lemma SortedRange(before: seq<real>, xs: seq<real>)
    requires multiset(xs) == multiset(before)
    requires forall i :: 0 <= i < |before| ==> 0.0 <= before[i] < 360.0
    ensures |xs| == |before|
    ensures forall i :: 0 <= i < |xs| ==> 0.0 <= xs[i] < 360.0
    ensures forall x :: x in xs <==> x in before
  {
    assert |multiset(xs)| == |multiset(before)|;
    forall x
      ensures x in xs <==> x in before
    {
      assert x in xs <==> x in multiset(xs);
      assert x in before <==> x in multiset(before);
    }
    forall i | 0 <= i < |xs|
      ensures 0.0 <= xs[i] < 360.0
    {
      assert xs[i] in before;
    }
  }

  /** The arc from after the largest gap to before it: its length and what it contains. */
  lemma LargestGapArc(xs: seq<real>, g: nat)
    requires g < |xs| && Sorted(xs)
    requires forall i :: 0 <= i < |xs| ==> 0.0 <= xs[i] < 360.0
    requires forall i :: 0 <= i < |xs| ==> Gap(xs, i) <= Gap(xs, g)
    ensures var west := Longitude(xs[if g == |xs| - 1 then 0 else g + 1]);
            var east := Longitude(xs[g]);
            && -180.0 < west <= 180.0 && -180.0 < east <= 180.0
            && Eastward(west, east) == 360.0 - Gap(xs, g)
            && forall i :: 0 <= i < |xs| ==> ArcContains(west, east, Longitude(xs[i]))
  {
    var w := if g == |xs| - 1 then 0 else g + 1;
    LongitudePosition(xs[w]);
    LongitudePosition(xs[g]);
    assert Gap(xs, |xs| - 1) <= Gap(xs, g);
    forall i | 0 <= i < |xs|
      ensures ArcContains(Longitude(xs[w]), Longitude(xs[g]), Longitude(xs[i]))
    {
      LongitudePosition(xs[i]);
    }
  }

  lemma PositionsOfRoute(route: seq<Coordinate>, positions: seq<real>, xs: seq<real>, b: BBox, largest: real)
    requires |positions| == |route| == |xs| > 0 && Sorted(xs)
    requires forall i :: 0 <= i < |route| ==> ValidLongitude(route[i].lon) && positions[i] == Position(route[i].lon)
    requires forall x :: x in xs <==> x in positions
    requires forall i :: 0 <= i < |xs| ==> 0.0 <= xs[i] < 360.0 && Gap(xs, i) <= largest
    requires forall i :: 0 <= i < |xs| ==> ArcContains(b.west, b.east, Longitude(xs[i]))
    requires Eastward(b.west, b.east) == 360.0 - largest
    ensures forall i :: 0 <= i < |route| ==> ArcContains(b.west, b.east, route[i].lon)
    ensures forall other: BBox :: ValidLongitude(other.west) && ValidLongitude(other.east) && Encloses(other, route) ==>
      Eastward(b.west, b.east) <= Eastward(other.west, other.east)
  {
    forall i | 0 <= i < |route|
      ensures ArcContains(b.west, b.east, route[i].lon)
    {
      assert positions[i] in xs;
      var k :| 0 <= k < |xs| && xs[k] == positions[i];
      LongitudePosition(xs[k]);
      assert ArcContains(b.west, b.east, Longitude(xs[k]));
    }
    forall other: BBox | ValidLongitude(other.west) && ValidLongitude(other.east) && Encloses(other, route)
      ensures Eastward(b.west, b.east) <= Eastward(other.west, other.east)
    {
      forall k | 0 <= k < |xs|
        ensures ArcContains(other.west, other.east, Longitude(xs[k]))
      {
        assert xs[k] in positions;
        var i :| 0 <= i < |positions| && positions[i] == xs[k];
        LongitudePosition(xs[k]);
        assert ArcContains(other.west, other.east, route[i].lon);
      }
      ArcCoversGaps(xs, other.west, other.east, largest);
    }
  }

  /** The arc crosses the antimeridian exactly when its west end is the larger number:
      then 180 lies on it, and otherwise only as one of its ends. */
  lemma CrossesAntimeridianIff(west: real, east: real)
    requires ValidLongitude(west) && ValidLongitude(east) && west > -180.0 && east > -180.0
    ensures west > east ==> ArcContains(west, east, 180.0)
    ensures west <= east && ArcContains(west, east, 180.0) ==> east == 180.0
  {
  }
}
