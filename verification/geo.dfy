/**
 Coordinates and the abstract distance between them.

 The haversine formula is floating-point trigonometry and is not modelled:
 the tracker receives the distance as a function, and the properties that need
 it assume only that it never returns a negative number of meters.
 */
module Geo {

  /** A position as the (latitude, longitude) pair, in degrees, that the GPS source yields. */
  datatype Coord = Coord(lat: real, lon: real)

  /** The distance in meters between two positions (haversine in the program). */
  type Distance = (Coord, Coord) -> real

  /** The one property of the distance the tracker relies on. */
  ghost predicate NonNegative(dist: Distance) {
    forall a, b :: dist(a, b) >= 0.0
  }

  /**
   The length of a walked path: the sum of the distances between consecutive
   positions. This is the reference against which the tracker's accumulated
   distance is compared.
   */
  function PathLength(path: seq<Coord>, dist: Distance): (r: real)
    requires NonNegative(dist)
    ensures r >= 0.0
    ensures |path| >= 2 ==> r >= dist(path[|path| - 2], path[|path| - 1])
  {
    if |path| < 2 then 0.0
    else PathLength(path[..|path| - 1], dist) + dist(path[|path| - 2], path[|path| - 1])
  }
}
