# Crowd-density estimator of the cctrl tracker

The tracker logs every position the browser reports for the user, and after
each report it estimates how crowded the user's surroundings are. It takes
the most recent logged point as the centre and keeps the logged points whose
great-circle distance to that centre is at most 0.1 km, with the boundary
counting as inside. It divides their number by the area of the circle to get
a density in people per km². It then caps density / 50 at 1 to get an
overcrowding probability.

The model has three modules:

- `Geo` (geo.dfy) holds the `GeoPoint` record and the abstract haversine
  distance. `Distance` is the type of every function on pairs of points that
  is never negative and is zero for coincident points. These are the only two
  facts the haversine code at app.js:18-27 makes evident: the result is
  `R * c` with `c = 2·atan2(√a, √(1−a))` and `a ≥ 0`, and equal points make
  `a = 0`. The distance is passed to the estimator as a parameter.
- `Crowd` (crowd.dfy) holds the estimator of `calculateCrowdDensity` as pure
  functions: the radius filter, the count, the circle area, the density, the
  capped probability and the returned record. It also holds the lemmas about
  filtering, appending and monotonicity.
- `Tracking` (tracking.dfy) holds the session state as a class,
  `PositionLog`. Its `points` field is the global `populationCoords` array and
  its `currentUserPosition` field is the global of the same name. The class
  has the `push` of `trackUserLocation` (as `Append`), the latest-point lookup,
  the refresh of `updateCrowdData` and the location handler itself.

Reals stand for JavaScript numbers. `Pi` is the real with the digits of
`Math.PI`, and `radiusKm ** 2` is `radiusKm * radiusKm`.

Three points where the code is narrower than a general estimator would be, and the model follows the code:

- The code raises no error for a non-positive radius. A zero
  radius would divide by zero at app.js:36-37, and the only caller passes 0.1
  (app.js:53). The model therefore states `radiusKm > 0` as a precondition.
- The safe density is the literal 50 at app.js:40, not a parameter. The model
  uses the constant `SafeDensity`.
- The code computes the haversine with `atan2` rather than `asin`. It does not
  state symmetry of the distance, so the model does not assume symmetry.

## Model

| member | source | states |
|---|---|---|
| `Geo.IsDistance` | app.js:18-27 | The distance is any function that is never negative and is zero on equal points, the two facts the haversine code makes evident. Consequently a point is never farther from itself than from any other point. |
| `Geo.WithinRadius` | app.js:32-33 | A point is within the radius exactly when `dist(center, p) <= radiusKm`, so the boundary counts as inside. The centre is within every non-negative radius of itself, and nothing is within a negative radius. |
| `Crowd.PeopleWithinRadius` | app.js:31-34 | A point is kept exactly when it is in the log and its distance to the centre is `<= radiusKm`, so boundary points are kept. The result is no longer than the log. It is as long as the log exactly when every point is within the radius, and empty exactly when none is. |
| `Crowd.PeopleWithinRadiusAppend` | app.js:31-34 | Filtering preserves order: filtering `s + t` gives the filtered `s` followed by the filtered `t`. |
| `Crowd.CountWithinRadius` | app.js:31-37 | The number of people within the radius is at most the number of logged points. It is zero exactly when no logged point is within the radius. |
| `Crowd.CircleArea` | app.js:36 | The area `π·r²` of a circle with a positive radius is positive, so the division at app.js:37 is defined. |
| `Crowd.Density` | app.js:37 | The density is non-negative. Multiplied by the area, it gives back the count. It is zero exactly when the count is zero. |
| `Crowd.OvercrowdingProbability` | app.js:40 | The probability is at most 1, and non-negative for a non-negative density. It is exactly 1 if and only if density ≥ 50. Below 50 it is density / 50. |
| `Crowd.CalculateCrowdDensity` | app.js:30-43 | The returned record has density ≥ 0 and probability in [0,1]. Its density is the density of the number of people within the radius, and its probability is the capped ratio of that density. The density is 0 exactly when no logged point is within the radius. |
| `Crowd.EmptyLogGivesZero` | app.js:31-40 | An empty log gives `{density: 0, overcrowdingProb: 0}` for every centre and positive radius. |
| `Crowd.CountAfterAppend` | app.js:31-34 | For a fixed centre and radius, appending a point within the radius adds exactly one to the count. Appending a point outside leaves the count unchanged. |
| `Crowd.DensityMonotonic` | app.js:36-37 | In the same circle, a larger count gives a larger density, strictly when the count is strictly larger. |
| `Crowd.AppendNeverDecreases` | app.js:30-43 | For a fixed centre and radius, appending a point never lowers the density or the probability. Appending a point within the radius raises the density strictly. |
| `Crowd.LatestCountsItself` | app.js:50-53 | With a non-empty log and its last point as centre, that point is counted, since `dist(p, p) = 0 <= r`. So the density is at least 1 / (π·r²). |
| `Crowd.CoincidentPointsAllCount` | app.js:30-43 | With 100 logged points all equal to the centre and a 1 km radius, all 100 are counted. The result is `{density: 100/π, overcrowdingProb: 2/π}`. |
| `Tracking.PositionLog.constructor` | app.js:11-14 | The log is empty and no current position is known at session start. |
| `Tracking.PositionLog.Append` | app.js:79 | The log grows by one and the new point is its last element. Every earlier entry is unchanged, and so is the current position. |
| `Tracking.PositionLog.Latest` | app.js:52 | The result is absent exactly when the log is empty. Otherwise it is the last logged point. |
| `Tracking.PositionLog.UpdateCrowdData` | app.js:46-57 | The people count is the log length. Crowd data is produced exactly when the log is non-empty. It is the estimate around the latest point (`Latest()`) with radius 0.1 km, its density is at least 1 / (π·0.1²), and its probability lies in (0, 1]. |
| `Tracking.PositionLog.TrackUserLocation` | app.js:60-97 | The observed point becomes the current position and is appended to the log. The people count is the old length plus one. The crowd data is the estimate around the new point, with density at least 1 / (π·0.1²). |

## Left out

- The internals of `haversineDistance` (app.js:18-27) are left out. Dafny has no sine, cosine, arctangent or square root on reals, and float rounding is not modelled. The distance is a parameter known only to be non-negative and zero on coincident points.
- Floating-point rounding in the density and probability is not modelled. The model uses exact real arithmetic.
- The Leaflet map, tile layer and markers are left out (app.js:1-8, app.js:82-93, app.js:109-111), including the `userMarker` variable. They are calls into an external rendering library.
- DOM reads and writes, `toFixed` formatting and `alert` are left out (app.js:48, 54-55, 66-71, 75-76, 101-106, 113). They are user-interface output. `UpdateCrowdData` and `TrackUserLocation` return the values the page would show.
- The GPS accuracy value and its warning threshold are left out (app.js:63-71). They only feed a notification.
- `calculateDistance` (app.js:100-115) is left out. It is input parsing and display around a single distance call.
- Geolocation acquisition (app.js:130-132) and `fetchUserIP` (app.js:118-127) are left out. They are a browser service callback and network I/O.
- Calling the estimator twice with the same arguments gives the same result. This holds because Dafny functions are deterministic, so no lemma states it.
