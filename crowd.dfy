/**
 * The crowd-density estimator: keep the logged points that lie within a
 * radius of a centre, divide their number by the area of the circle, and
 * cap the density relative to a safe density at 1 to get an overcrowding
 * probability.
 *
 * Reals stand for the JavaScript numbers of app.js; rounding is not
 * modelled, and pi is the real number with the digits of `Math.PI`.
 */
module Crowd {
  import opened Geo

  /** The circle constant `Math.PI` of app.js (the double-precision value of pi). */
  const Pi: real := 3.141592653589793

  /** Density, in people per square kilometre, at which the probability reaches 1. */
  const SafeDensity: real := 50.0

  /** The fresh record the estimator returns. */
  datatype CrowdData = CrowdData(density: real, overcrowdingProb: real)

  /**
   * The logged points within `radiusKm` of `center`, in log order: the
   * filter step of the estimator.
   */
  function PeopleWithinRadius(dist: Distance, center: GeoPoint, radiusKm: real, points: seq<GeoPoint>)
    : (r: seq<GeoPoint>)
    ensures |r| <= |points|
    ensures forall p :: p in r <==> p in points && WithinRadius(dist, center, radiusKm, p)
    ensures |r| == |points| <==> forall i :: 0 <= i < |points| ==> WithinRadius(dist, center, radiusKm, points[i])
    ensures r == [] <==> forall i :: 0 <= i < |points| ==> !WithinRadius(dist, center, radiusKm, points[i])
  {
    if points == [] then
      []
    else
      var rest := PeopleWithinRadius(dist, center, radiusKm, points[1..]);
      assert forall i :: 1 <= i < |points| ==> points[i] == points[1..][i - 1];
      if WithinRadius(dist, center, radiusKm, points[0]) then [points[0]] + rest else rest
  }

  /** The number of logged points within `radiusKm` of `center`. */
  function CountWithinRadius(dist: Distance, center: GeoPoint, radiusKm: real, points: seq<GeoPoint>)
    : (n: nat)
    ensures n <= |points|
    ensures n == 0 <==> forall i :: 0 <= i < |points| ==> !WithinRadius(dist, center, radiusKm, points[i])
  {
    |PeopleWithinRadius(dist, center, radiusKm, points)|
  }

  /** The product of two positive reals, which is positive. */
  function PositiveProduct(x: real, y: real): (p: real)
    requires x > 0.0 && y > 0.0
    ensures p > 0.0
  {
    x * y
  }

  /** Area of the circle of radius `radiusKm`, in square kilometres: pi times the radius squared. */
  function CircleArea(radiusKm: real): (a: real)
    requires radiusKm > 0.0
    ensures a > 0.0
  {
    PositiveProduct(Pi, PositiveProduct(radiusKm, radiusKm))
  }

  /** People per square kilometre when `count` people stand in the circle of radius `radiusKm`. */
  function Density(count: nat, radiusKm: real): (d: real)
    requires radiusKm > 0.0
    ensures d >= 0.0
    ensures d * CircleArea(radiusKm) == count as real
    ensures d == 0.0 <==> count == 0
  {
    count as real / CircleArea(radiusKm)
  }

  function Min(x: real, y: real): real
  {
    if x <= y then x else y
  }

  /** The density relative to the safe density, capped at 1. */
  function OvercrowdingProbability(density: real): (p: real)
    ensures p <= 1.0
    ensures density >= 0.0 ==> p >= 0.0
    ensures p == 1.0 <==> density >= SafeDensity
    ensures density < SafeDensity ==> p * SafeDensity == density
  {
    Min(density / SafeDensity, 1.0)
  }

  /**
   * The estimator over the position log `points`. The tracker's code never checks
   * the radius and always passes a positive one; a zero radius would divide by zero.
   */
  function CalculateCrowdDensity(dist: Distance, points: seq<GeoPoint>, center: GeoPoint, radiusKm: real)
    : (r: CrowdData)
    requires radiusKm > 0.0
    ensures r.density >= 0.0
    ensures 0.0 <= r.overcrowdingProb <= 1.0
    ensures r.density == Density(CountWithinRadius(dist, center, radiusKm, points), radiusKm)
    ensures r.overcrowdingProb == OvercrowdingProbability(r.density)
    ensures r.density == 0.0 <==> forall i :: 0 <= i < |points| ==> !WithinRadius(dist, center, radiusKm, points[i])
  {
    CrowdData(Density(CountWithinRadius(dist, center, radiusKm, points), radiusKm),
              OvercrowdingProbability(Density(CountWithinRadius(dist, center, radiusKm, points), radiusKm)))
  }

  /** An empty log gives density 0 and probability 0, whatever the centre and radius. */
  lemma EmptyLogGivesZero(dist: Distance, center: GeoPoint, radiusKm: real)
    requires radiusKm > 0.0
    ensures CalculateCrowdDensity(dist, [], center, radiusKm) == CrowdData(0.0, 0.0)
  {
  }

  /** Filtering a concatenation filters each part and keeps them in order. */
  lemma {:induction false} PeopleWithinRadiusAppend(dist: Distance, center: GeoPoint, radiusKm: real,
                                                    s: seq<GeoPoint>, t: seq<GeoPoint>)
    ensures PeopleWithinRadius(dist, center, radiusKm, s + t)
         == PeopleWithinRadius(dist, center, radiusKm, s) + PeopleWithinRadius(dist, center, radiusKm, t)
  {
    if s == [] {
      assert s + t == t;
    } else {
      var head := if WithinRadius(dist, center, radiusKm, s[0]) then [s[0]] else [];
      assert (s + t)[0] == s[0] && (s + t)[1..] == s[1..] + t;
      PeopleWithinRadiusAppend(dist, center, radiusKm, s[1..], t);
      calc {
        PeopleWithinRadius(dist, center, radiusKm, s + t);
        head + PeopleWithinRadius(dist, center, radiusKm, s[1..] + t);
        head + (PeopleWithinRadius(dist, center, radiusKm, s[1..]) + PeopleWithinRadius(dist, center, radiusKm, t));
        (head + PeopleWithinRadius(dist, center, radiusKm, s[1..])) + PeopleWithinRadius(dist, center, radiusKm, t);
      }
    }
  }

  /**
   * Appending a point to the log adds one to the count when the point is
   * within the radius and leaves the count unchanged otherwise.
   */
  lemma CountAfterAppend(dist: Distance, center: GeoPoint, radiusKm: real, points: seq<GeoPoint>, p: GeoPoint)
    ensures CountWithinRadius(dist, center, radiusKm, points + [p])
         == CountWithinRadius(dist, center, radiusKm, points)
            + (if WithinRadius(dist, center, radiusKm, p) then 1 else 0)
  {
    PeopleWithinRadiusAppend(dist, center, radiusKm, points, [p]);
    assert [p][1..] == [];
  }

  /** A larger count in the same circle gives a larger density. */
  lemma DensityMonotonic(m: nat, n: nat, radiusKm: real)
    requires radiusKm > 0.0
    requires m <= n
    ensures Density(m, radiusKm) <= Density(n, radiusKm)
    ensures m < n ==> Density(m, radiusKm) < Density(n, radiusKm)
  {
  }

  /** A larger density never gives a smaller overcrowding probability. */
  lemma ProbabilityMonotonic(d: real, e: real)
    requires d <= e
    ensures OvercrowdingProbability(d) <= OvercrowdingProbability(e)
  {
  }

  /**
   * For a fixed centre and radius, appending a point to the log never lowers
   * the density or the probability, and a point within the radius raises the
   * density strictly.
   */
  lemma AppendNeverDecreases(dist: Distance, points: seq<GeoPoint>, center: GeoPoint, radiusKm: real, p: GeoPoint)
    requires radiusKm > 0.0
    ensures CalculateCrowdDensity(dist, points, center, radiusKm).density
         <= CalculateCrowdDensity(dist, points + [p], center, radiusKm).density
    ensures CalculateCrowdDensity(dist, points, center, radiusKm).overcrowdingProb
         <= CalculateCrowdDensity(dist, points + [p], center, radiusKm).overcrowdingProb
    ensures WithinRadius(dist, center, radiusKm, p) ==>
              CalculateCrowdDensity(dist, points, center, radiusKm).density
              < CalculateCrowdDensity(dist, points + [p], center, radiusKm).density
  {
    var before := CountWithinRadius(dist, center, radiusKm, points);
    var after := CountWithinRadius(dist, center, radiusKm, points + [p]);
    CountAfterAppend(dist, center, radiusKm, points, p);
    DensityMonotonic(before, after, radiusKm);
    ProbabilityMonotonic(Density(before, radiusKm), Density(after, radiusKm));
  }

  /**
   * With a non-empty log and its last point as the centre, that point is
   * within any positive radius of itself, so the density is at least one
   * person per circle.
   */
  lemma LatestCountsItself(dist: Distance, points: seq<GeoPoint>, radiusKm: real)
    requires points != []
    requires radiusKm > 0.0
    ensures CountWithinRadius(dist, points[|points| - 1], radiusKm, points) >= 1
    ensures CalculateCrowdDensity(dist, points, points[|points| - 1], radiusKm).density >= Density(1, radiusKm)
  {
    var center := points[|points| - 1];
    assert WithinRadius(dist, center, radiusKm, center);
    assert center in PeopleWithinRadius(dist, center, radiusKm, points);
    DensityMonotonic(1, CountWithinRadius(dist, center, radiusKm, points), radiusKm);
  }

  /**
   * When every logged point coincides with the centre, every one is counted:
   * 100 such points in a 1 km circle give a density of 100 / pi and a
   * probability of 2 / pi.
   */
  lemma CoincidentPointsAllCount(dist: Distance, points: seq<GeoPoint>, center: GeoPoint)
    requires |points| == 100
    requires forall i :: 0 <= i < |points| ==> points[i] == center
    ensures CountWithinRadius(dist, center, 1.0, points) == 100
    ensures CalculateCrowdDensity(dist, points, center, 1.0) == CrowdData(100.0 / Pi, 2.0 / Pi)
  {
  }
}
