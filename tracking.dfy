/**
 * The session state of the tracker: the position log that every location
 * update appends to, the current user position, and the crowd-data refresh
 * that runs after each update with the latest logged point as the centre.
 */
module Tracking {
  import opened Geo
  import opened Crowd

  /** Radius, in kilometres, of the circle the crowd-data refresh looks at (100 metres). */
  const UpdateRadiusKm: real := 0.1

  datatype Option<T> = None | Some(value: T)

  /** The session's log of observed positions, oldest first. */
  class PositionLog {
    /** Every position observed in this session, in arrival order. */
    var points: seq<GeoPoint>
    /** The most recently observed position, absent before the first observation. */
    var currentUserPosition: Option<GeoPoint>

    /** The log is empty and no position is known at session start. */
    constructor ()
      ensures points == [] && currentUserPosition == None
    {
      points := [];
      currentUserPosition := None;
    }

    /** Adds `p` at the end of the log; earlier entries stay as they were. */
    method Append(p: GeoPoint)
      modifies this
      ensures points == old(points) + [p]
      ensures |points| == |old(points)| + 1 && points[|points| - 1] == p
      ensures forall i :: 0 <= i < |old(points)| ==> points[i] == old(points)[i]
      ensures currentUserPosition == old(currentUserPosition)
    {
      points := points + [p];
    }

    /** The most recently logged point, absent when the log is empty. */
    function Latest(): (r: Option<GeoPoint>)
      reads this
      ensures r.None? <==> points == []
      ensures r.Some? ==> r.value in points && r.value == points[|points| - 1]
    {
      if points == [] then None else Some(points[|points| - 1])
    }

    /**
     * The crowd-data refresh: the number of logged people, and, when the log
     * is not empty, the crowd data around the latest point.
     */
    method UpdateCrowdData(dist: Distance) returns (totalPeople: nat, crowd: Option<CrowdData>)
      ensures totalPeople == |points|
      ensures crowd.None? <==> points == []
      ensures crowd.Some? ==>
                crowd.value == CalculateCrowdDensity(dist, points, Latest().value, UpdateRadiusKm)
      ensures crowd.Some? ==> crowd.value.density >= Density(1, UpdateRadiusKm)
      ensures crowd.Some? ==> 0.0 < crowd.value.overcrowdingProb <= 1.0
    {
      totalPeople := |points|;
      if totalPeople > 0 {
        var center := Latest().value;
        var data := CalculateCrowdDensity(dist, points, center, UpdateRadiusKm);
        LatestCountsItself(dist, points, UpdateRadiusKm);
        assert Density(1, UpdateRadiusKm) > 0.0;
        assert data.density > 0.0;
        crowd := Some(data);
      } else {
        crowd := None;
      }
    }

    /**
     * Handles one observed position: records it as the current position,
     * appends it to the log and refreshes the crowd data around it.
     */
    method TrackUserLocation(dist: Distance, p: GeoPoint) returns (totalPeople: nat, crowd: Option<CrowdData>)
      modifies this
      ensures currentUserPosition == Some(p)
      ensures points == old(points) + [p]
      ensures totalPeople == |old(points)| + 1
      ensures crowd == Some(CalculateCrowdDensity(dist, points, p, UpdateRadiusKm))
      ensures crowd.value.density >= Density(1, UpdateRadiusKm)
    {
      currentUserPosition := Some(p);
      Append(p);
      totalPeople, crowd := UpdateCrowdData(dist);
    }
  }
}
