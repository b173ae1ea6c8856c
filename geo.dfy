/**
 Positions and rectangular bounds as the map library represents them, with
 integer latitude and longitude. `Contains` is the library's boundary-inclusive
 containment test for a point; `BoundsOf` is the bounds the library builds from
 a list of points by extending a rectangle one point at a time.
 */
module Geo {
  import opened Wrappers

  datatype Position = Position(lat: int, lng: int)

  /** A rectangle given by its south-west corner (south, west) and north-east corner (north, east). */
  datatype Bounds = Bounds(south: int, west: int, north: int, east: int)

  /** The south-west corner does not lie north or east of the north-east corner. */
  predicate Proper(b: Bounds) {
    b.south <= b.north && b.west <= b.east
  }

  /** Boundary-inclusive containment of a point. */
  predicate Contains(b: Bounds, p: Position) {
    b.south <= p.lat && p.lat <= b.north && b.west <= p.lng && p.lng <= b.east
  }

  /** `outer` covers every point of `inner`. */
  predicate Encloses(outer: Bounds, inner: Bounds) {
    outer.south <= inner.south && inner.north <= outer.north &&
    outer.west <= inner.west && inner.east <= outer.east
  }

  function Min(a: int, b: int): int { if a <= b then a else b }

  function Max(a: int, b: int): int { if a <= b then b else a }

  /**
   Grows a rectangle so that it also covers `p`; a rectangle not yet set
   becomes the single point `p`. The result is the smallest rectangle
   covering both.
   */
  function Extend(b: Option<Bounds>, p: Position): (r: Bounds)
    requires b.Some? ==> Proper(b.value)
    ensures Proper(r) && Contains(r, p)
    ensures b.Some? ==> Encloses(r, b.value)
    ensures forall c :: Contains(c, p) && (b.Some? ==> Encloses(c, b.value)) ==> Encloses(c, r)
  {
    match b
    case None => Bounds(p.lat, p.lng, p.lat, p.lng)
    case Some(x) => Bounds(Min(x.south, p.lat), Min(x.west, p.lng), Max(x.north, p.lat), Max(x.east, p.lng))
  }

  /**
   The bounds built from a list of points, extending by each point in turn.
   An empty list gives no usable bounds.
   */
  function BoundsOf(ps: seq<Position>): (r: Option<Bounds>)
    ensures r.None? <==> ps == []
    ensures r.Some? ==> Proper(r.value)
    ensures r.Some? ==> forall i :: 0 <= i < |ps| ==> Contains(r.value, ps[i])
    decreases |ps|
  {
    if ps == [] then None
    else Some(Extend(BoundsOf(ps[..|ps| - 1]), ps[|ps| - 1]))
  }

  /** Containment is inherited by an enclosing rectangle. */
  lemma EnclosedPointsContained(outer: Bounds, inner: Bounds, p: Position)
    requires Encloses(outer, inner) && Contains(inner, p)
    ensures Contains(outer, p)
  {
  }

  /** The bounds of a list are the smallest rectangle covering all its points. */
  lemma {:induction false} BoundsOfIsLeast(ps: seq<Position>, c: Bounds)
    requires ps != []
    requires forall i :: 0 <= i < |ps| ==> Contains(c, ps[i])
    ensures Encloses(c, BoundsOf(ps).value)
    decreases |ps|
  {
    var init := ps[..|ps| - 1];
    if init != [] {
      forall i | 0 <= i < |init| ensures Contains(c, init[i]) {
        assert init[i] == ps[i];
      }
      BoundsOfIsLeast(init, c);
    }
  }
}
