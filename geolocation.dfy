/**
 * The nearest-summit search of src/utils/geolocation.ts.  The great-circle
 * distance comes from a geodesy library outside this model and is a
 * parameter: every property below holds for any distance function.
 */
module Geolocation {
  import opened Wrappers

  /**
   * The fields of a summit record that the search and the displays use.
   * `lat` and `lon` are computed from the grid reference and may be absent.
   */
  datatype Summit = Summit(
    wotaid: nat,
    sotaid: Option<nat>,
    name: string,
    height: int,
    reference: string,
    lat: Option<real>,
    lon: Option<real>)

  /** `userLocation.distanceTo(summitLocation)` for (userLat, userLon, lat, lon). */
  type Distance = (real, real, real, real) -> real

  /** JavaScript numbers extended by Infinity, the starting value of the minimum. */
  datatype Extended = Finite(value: real) | Infinity

  predicate Below(d: real, bound: Extended)
  {
    bound.Infinity? || d < bound.value
  }

  predicate Located(s: Summit)
  {
    s.lat.Some? && s.lon.Some?
  }

  function DistanceTo(dist: Distance, userLat: real, userLon: real, s: Summit): real
    requires Located(s)
  {
    dist(userLat, userLon, s.lat.value, s.lon.value)
  }

  /** No summit among the first n has both coordinates. */
  predicate NoneLocated(summits: seq<Summit>, n: int)
    requires 0 <= n <= |summits|
  {
    forall j :: 0 <= j < n ==> !Located(summits[j])
  }

  /**
   * Among the first n summits, k is the earliest located one at the least
   * distance: it is located, no located summit is nearer, and every located
   * summit before it is strictly farther.
   */
  predicate FirstNearest(summits: seq<Summit>, n: int, dist: Distance, userLat: real, userLon: real, k: int)
    requires 0 <= n <= |summits|
  {
    0 <= k < n && Located(summits[k]) &&
    (forall j :: 0 <= j < n && Located(summits[j]) ==>
      DistanceTo(dist, userLat, userLon, summits[k]) <= DistanceTo(dist, userLat, userLon, summits[j])) &&
    (forall j :: 0 <= j < k && Located(summits[j]) ==>
      DistanceTo(dist, userLat, userLon, summits[k]) < DistanceTo(dist, userLat, userLon, summits[j]))
  }

  /**
   * `findClosestSummit(userLat, userLon, summits)`: a linear scan that skips
   * summits without coordinates and replaces the best so far only on a
   * strict improvement.  The result is null exactly when no summit is
   * located, and otherwise the earliest located summit at the least distance.
   */
  method FindClosestSummit(userLat: real, userLon: real, summits: seq<Summit>, dist: Distance)
    returns (closest: Option<Summit>)
    ensures |summits| == 0 ==> closest.None?
    ensures closest.None? <==> NoneLocated(summits, |summits|)
    ensures closest.Some? ==> Located(closest.value) && closest.value in summits
    ensures closest.Some? ==>
      exists k :: FirstNearest(summits, |summits|, dist, userLat, userLon, k) && summits[k] == closest.value
  {
    if |summits| == 0 {
      return None;
    }
    closest := None;
    var minDistance := Infinity;
    ghost var best := 0;
    for i := 0 to |summits|
      invariant closest.None? <==> minDistance.Infinity?
      invariant closest.None? ==> NoneLocated(summits, i)
      invariant closest.Some? ==>
        FirstNearest(summits, i, dist, userLat, userLon, best) && closest.value == summits[best] &&
        minDistance == Finite(DistanceTo(dist, userLat, userLon, summits[best]))
    {
      var summit := summits[i];
      if summit.lat.None? || summit.lon.None? {
        continue;
      }
      var distance := dist(userLat, userLon, summit.lat.value, summit.lon.value);
      if Below(distance, minDistance) {
        minDistance := Finite(distance);
        closest := Some(summit);
        best := i;
      }
    }
  }

  /** The earliest nearest located summit is unique, so the scan's result is determined. */
  lemma FirstNearestUnique(summits: seq<Summit>, dist: Distance, userLat: real, userLon: real, k1: int, k2: int)
    requires FirstNearest(summits, |summits|, dist, userLat, userLon, k1)
    requires FirstNearest(summits, |summits|, dist, userLat, userLon, k2)
    ensures k1 == k2
  {
  }

  /**
   * Two located summits, the first nearer: the search picks the first
   * (with the second nearer, it picks the second).
   */
  method NearerOfTwo(userLat: real, userLon: real, a: Summit, b: Summit, dist: Distance)
    returns (closest: Option<Summit>)
    requires Located(a) && Located(b)
    ensures DistanceTo(dist, userLat, userLon, a) <= DistanceTo(dist, userLat, userLon, b) ==> closest == Some(a)
    ensures DistanceTo(dist, userLat, userLon, b) < DistanceTo(dist, userLat, userLon, a) ==> closest == Some(b)
  {
    closest := FindClosestSummit(userLat, userLon, [a, b], dist);
    ghost var k :| FirstNearest([a, b], 2, dist, userLat, userLon, k) && [a, b][k] == closest.value;
    assert [a, b][0] == a && [a, b][1] == b;
  }
}
