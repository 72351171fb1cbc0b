/**
 * Geographic points and the great-circle distance between them.
 *
 * The tracker's code (app.js) computes the distance with the haversine formula in floating
 * point (sin, cos, atan2, sqrt). Dafny has no such primitives, so the model
 * keeps the distance abstract: any function that is a `Distance` may stand
 * for it. A `Distance` is constrained only by the two facts the formula makes
 * evident: it is `R * c` with `c = 2 * atan2(sqrt(a), sqrt(1 - a))` and
 * `a >= 0`, hence never negative; and for coincident points both differences
 * are zero, so `a`, `c` and the result are zero.
 */
module Geo {

  /** A recorded position, in degrees, as the `{ lat, lon }` records of the log. */
  datatype GeoPoint = GeoPoint(lat: real, lon: real)

  /** The facts about the haversine distance that the model relies on. */
  ghost predicate IsDistance(d: (GeoPoint, GeoPoint) -> real): (r: bool)
    ensures r ==> forall a, b :: d(a, a) <= d(a, b)
  {
    && (forall a, b :: d(a, b) >= 0.0)
    && (forall p :: d(p, p) == 0.0)
  }

  /** The haversine distance in kilometres, known only through `IsDistance`. */
  type Distance = d: (GeoPoint, GeoPoint) -> real | IsDistance(d)
    witness (a: GeoPoint, b: GeoPoint) => 0.0

  /** Whether `p` lies within `radiusKm` of `center`; the boundary counts as inside. */
  predicate WithinRadius(dist: Distance, center: GeoPoint, radiusKm: real, p: GeoPoint): (r: bool)
    ensures p == center && radiusKm >= 0.0 ==> r
    ensures r ==> radiusKm >= 0.0
  {
    dist(center, p) <= radiusKm
  }
}
