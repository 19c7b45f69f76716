/** Path distances over a great-circle distance function.

    The haversine formula itself (`calculateDistance` in src/lib/locationTracking.ts,
    `haversineDistance` in src/components/app/MapTracker.tsx) is not evaluated: both
    trackers are modelled for every distance function that never returns a negative
    length. */
module Geo {

  /** A distance in km between (lat1, lon1) and (lat2, lon2), never negative. */
  type DistanceFn = d: (real, real, real, real) -> real
    | forall lat1, lon1, lat2, lon2 :: d(lat1, lon1, lat2, lon2) >= 0.0
    witness (lat1: real, lon1: real, lat2: real, lon2: real) => 0.0

  /** The sum of `leg` over each consecutive pair of `path`, in order. */
  function PathLength<P>(leg: (P, P) -> real, path: seq<P>): real
    decreases |path|
  {
    if |path| < 2 then 0.0
    else PathLength(leg, path[..|path| - 1]) + leg(path[|path| - 2], path[|path| - 1])
  }

  /** Appending a point adds exactly the leg from the previous last point. */
  lemma PathLengthAppend<P>(leg: (P, P) -> real, path: seq<P>, p: P)
    requires |path| >= 1
    ensures PathLength(leg, path + [p]) == PathLength(leg, path) + leg(path[|path| - 1], p)
  {
    assert (path + [p])[..|path|] == path;
  }

  /** With non-negative legs a path length is never negative. */
  lemma {:induction false} PathLengthNonNegative<P>(leg: (P, P) -> real, path: seq<P>)
    requires forall a, b :: leg(a, b) >= 0.0
    ensures PathLength(leg, path) >= 0.0
  {
    if |path| >= 2 {
      PathLengthNonNegative(leg, path[..|path| - 1]);
    }
  }
}
