/**
  The bounding-box polygon of `utils_extent`: a one-element list holding a GeoJSON
  Polygon whose single linear ring is closed and runs clockwise (the left-hand rule),
  which is the reverse of the exterior-ring orientation of section 3.1.6 of RFC 7946.
*/
module Geometry {

  /** A coordinate pair; `real` is exact, so areas below are computed without rounding. */
  datatype Position = Position(x: real, y: real)

  /** A GeoJSON geometry object: its "type" member and its "coordinates" (a list of rings). */
  datatype GeoObject = GeoObject(kind: string, coordinates: seq<seq<Position>>)

  /** A linear ring in the sense of RFC 7946: at least four positions, first equal to last. */
  predicate IsClosedRing(ring: seq<Position>)
  {
    |ring| >= 4 && ring[0] == ring[|ring| - 1]
  }

  /** The four corners of the box spanned by the two coordinate ranges. */
  function Corners(minx: real, miny: real, maxx: real, maxy: real): set<Position>
  {
    {Position(minx, miny), Position(minx, maxy), Position(maxx, miny), Position(maxx, maxy)}
  }

  /** The positions a ring visits, without repetition. */
  function Vertices(ring: seq<Position>): set<Position>
  {
    set i | 0 <= i < |ring| :: ring[i]
  }

  function Cross(p: Position, q: Position): real
  {
    p.x * q.y - q.x * p.y
  }

  /** Twice the signed area enclosed by a ring (the shoelace sum over consecutive positions). */
  function Shoelace(ring: seq<Position>): real
    decreases |ring|
  {
    if |ring| < 2 then 0.0 else Cross(ring[0], ring[1]) + Shoelace(ring[1..])
  }

  /** Signed area of a ring: positive when it runs counter-clockwise, negative when clockwise. */
  function SignedArea(ring: seq<Position>): real
  {
    Shoelace(ring) / 2.0
  }

  function Reverse(ring: seq<Position>): (r: seq<Position>)
    ensures |r| == |ring|
    ensures forall i :: 0 <= i < |ring| ==> r[i] == ring[|ring| - 1 - i]
  {
    if ring == [] then [] else Reverse(ring[1..]) + [ring[0]]
  }

  /** `utils_extent(minx, miny, maxx, maxy)`. */
  function Extent(minx: real, miny: real, maxx: real, maxy: real): (r: seq<GeoObject>)
    ensures |r| == 1 && r[0].kind == "Polygon" && |r[0].coordinates| == 1
    ensures |r[0].coordinates[0]| == 5 && IsClosedRing(r[0].coordinates[0])
  {
    [GeoObject("Polygon",
       [[Position(maxx, maxy), Position(maxx, miny), Position(minx, miny),
         Position(minx, maxy), Position(maxx, maxy)]])]
  }

  /** The ring of the only polygon `Extent` returns. */
  function ExtentRing(minx: real, miny: real, maxx: real, maxy: real): (ring: seq<Position>)
    ensures |ring| == 5
  {
    Extent(minx, miny, maxx, maxy)[0].coordinates[0]
  }

  /** The ring starts and ends at the upper-right corner and then visits the corners in order. */
  lemma ExtentOrder(minx: real, miny: real, maxx: real, maxy: real)
    ensures var ring := ExtentRing(minx, miny, maxx, maxy);
      && ring[0] == ring[4] == Position(maxx, maxy)
      && ring[1] == Position(maxx, miny)
      && ring[2] == Position(minx, miny)
      && ring[3] == Position(minx, maxy)
  {
  }

  /** The ring visits exactly the box corners, and each edge is parallel to an axis. */
  lemma ExtentCorners(minx: real, miny: real, maxx: real, maxy: real)
    ensures var ring := ExtentRing(minx, miny, maxx, maxy);
      && Vertices(ring) == Corners(minx, miny, maxx, maxy)
      && forall i :: 0 <= i < 4 ==> ring[i].x == ring[i + 1].x || ring[i].y == ring[i + 1].y
  {
    var ring := ExtentRing(minx, miny, maxx, maxy);
    assert Position(minx, miny) == ring[2];
    assert Position(minx, maxy) == ring[3];
    assert Position(maxx, miny) == ring[1];
    assert Position(maxx, maxy) == ring[0];
  }

  /** The signed area of the ring is minus the box's width times its height. */
  lemma ExtentSignedArea(minx: real, miny: real, maxx: real, maxy: real)
    ensures SignedArea(ExtentRing(minx, miny, maxx, maxy)) == -(maxx - minx) * (maxy - miny)
  {
    var ring := ExtentRing(minx, miny, maxx, maxy);
    var r1, r2, r3, r4 := ring[1..], ring[2..], ring[3..], ring[4..];
    assert r1[1..] == r2 && r2[1..] == r3 && r3[1..] == r4;
    assert Shoelace(r4) == 0.0;
    assert Shoelace(r3) == Cross(ring[3], ring[4]);
    assert Shoelace(r2) == Cross(ring[2], ring[3]) + Shoelace(r3);
    assert Shoelace(r1) == Cross(ring[1], ring[2]) + Shoelace(r2);
    assert Shoelace(ring) == Cross(ring[0], ring[1]) + Shoelace(r1);
  }

  /**
    The ring runs clockwise (negative area) exactly when the box is non-degenerate with
    its bounds in the given order, or with both ranges swapped.
  */
  lemma ExtentClockwise(minx: real, miny: real, maxx: real, maxy: real)
    ensures SignedArea(ExtentRing(minx, miny, maxx, maxy)) < 0.0
      <==> (minx < maxx && miny < maxy) || (maxx < minx && maxy < miny)
  {
    ExtentSignedArea(minx, miny, maxx, maxy);
    ProductPositive(maxx - minx, maxy - miny);
  }

  lemma ProductPositive(a: real, b: real)
    ensures a * b > 0.0 <==> (a > 0.0 && b > 0.0) || (a < 0.0 && b < 0.0)
  {
  }

  /** Appending a position adds the edge from the old last position to it. */
  lemma {:induction false} ShoelaceSnoc(ring: seq<Position>, p: Position)
    requires |ring| >= 1
    ensures Shoelace(ring + [p]) == Shoelace(ring) + Cross(ring[|ring| - 1], p)
  {
    if |ring| == 1 {
      assert (ring + [p])[1..] == [p];
    } else {
      assert (ring + [p])[1..] == ring[1..] + [p];
      ShoelaceSnoc(ring[1..], p);
    }
  }

  /** Reversing a ring negates its signed area, so it flips its orientation. */
  lemma {:induction false} ReverseNegatesArea(ring: seq<Position>)
    ensures SignedArea(Reverse(ring)) == -SignedArea(ring)
  {
    ReverseNegatesShoelace(ring);
  }

  lemma {:induction false} ReverseNegatesShoelace(ring: seq<Position>)
    ensures Shoelace(Reverse(ring)) == -Shoelace(ring)
    decreases |ring|
  {
    if |ring| >= 2 {
      var tail := ring[1..];
      ReverseNegatesShoelace(tail);
      var rt := Reverse(tail);
      assert rt[|rt| - 1] == ring[1];
      ShoelaceSnoc(rt, ring[0]);
    }
  }

  /**
    Reversing the extent's ring gives a closed ring over the same corners with positive
    area: an exterior ring as RFC 7946 section 3.1.6 orients it.
  */
  lemma ReversedExtentIsCounterClockwise(minx: real, miny: real, maxx: real, maxy: real)
    requires minx < maxx && miny < maxy
    ensures var ccw := Reverse(ExtentRing(minx, miny, maxx, maxy));
      && IsClosedRing(ccw)
      && Vertices(ccw) == Corners(minx, miny, maxx, maxy)
      && SignedArea(ccw) > 0.0
  {
    var ring := ExtentRing(minx, miny, maxx, maxy);
    var ccw := Reverse(ring);
    ExtentCorners(minx, miny, maxx, maxy);
    ExtentClockwise(minx, miny, maxx, maxy);
    ReverseNegatesArea(ring);
    assert Vertices(ccw) == Vertices(ring) by {
      forall p | p in Vertices(ring) ensures p in Vertices(ccw) {
        var i :| 0 <= i < 5 && ring[i] == p;
        assert ccw[4 - i] == p;
      }
    }
  }
}
