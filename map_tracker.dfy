/** The non-map logic of the premium live tracker, src/components/app/MapTracker.tsx.

    `Tracker` holds the component's state (the recorded path, the running flag, the
    live distance, steps and calories, the watch id and the map error). Each position
    is appended unfiltered; the path distance is recomputed from scratch, the speed is
    estimated over the last five positions and both feed the step and MET model. */
module MapTracker {
  import opened Js
  import Geo
  import StepCalculations

  /** A recorded position: degrees and a millisecond timestamp. */
  datatype Position = Position(lat: real, lng: real, timestamp: int)

  /** The profile values the tracker reads; `None` is a missing value. */
  datatype Profile = Profile(height: Option<real>, weight: Option<real>, gender: Option<string>)

  /** What `onUpdate` receives after a position. */
  datatype LiveUpdate = LiveUpdate(distanceKm: real, steps: int, calories: int, speedKmh: Option<real>, met: real)

  /** What `onComplete` receives on stop; the times are the timestamps the source
      formats as ISO strings. */
  datatype Session = Session(
    startTime: Option<int>,
    endTime: Option<int>,
    totalSteps: int,
    totalDistanceKm: real,
    calories: int,
    path: seq<Position>)

  const WindowSize := 5
  const MapStillLoading := "Map is still loading. Please try again in a moment."

  /** The distance between two positions (haversineDistance). */
  function Leg(dist: Geo.DistanceFn): (leg: (Position, Position) -> real)
    ensures forall a, b :: leg(a, b) >= 0.0
  {
    (a: Position, b: Position) => dist(a.lat, a.lng, b.lat, b.lng)
  }

  /** The metrics used for the estimates: a missing (or zero, or empty) height, weight
      or gender becomes 170 cm, 70 kg and "other". */
  function Metrics(user: Profile): (m: StepCalculations.UserMetrics)
    ensures m.height != 0.0 && m.weight != 0.0 && m.gender != ""
    ensures m.height == 170.0 || (user.height.Some? && m.height == user.height.value)
    ensures m.weight == 70.0 || (user.weight.Some? && m.weight == user.weight.value)
    ensures m.gender == "other" || (user.gender.Some? && m.gender == user.gender.value)
    ensures user.height.None? ==> m.height == 170.0
    ensures user.weight.None? ==> m.weight == 70.0
    ensures user.gender.None? ==> m.gender == "other"
    ensures user.height.Some? && user.height.value != 0.0 ==> m.height == user.height.value
    ensures user.weight.Some? && user.weight.value != 0.0 ==> m.weight == user.weight.value
    ensures user.gender.Some? && user.gender.value != "" ==> m.gender == user.gender.value
  {
    StepCalculations.UserMetrics(NumOr(user.height, 170.0), NumOr(user.weight, 70.0), StrOr(user.gender, "other"))
  }

  /** The elapsed seconds summed over consecutive pairs. */
  function ElapsedSeconds(path: seq<Position>): real
    decreases |path|
  {
    if |path| < 2 then 0.0
    else
      var a := path[|path| - 2];
      var b := path[|path| - 1];
      ElapsedSeconds(path[..|path| - 1]) + ((b.timestamp - a.timestamp) as real) / 1000.0
  }

  /** The pairwise sum telescopes: it is the time from the first to the last position. */
  lemma {:induction false} ElapsedTelescopes(path: seq<Position>)
    requires |path| >= 1
    ensures ElapsedSeconds(path) == ((path[|path| - 1].timestamp - path[0].timestamp) as real) / 1000.0
    decreases |path|
  {
    if |path| >= 2 {
      var init := path[..|path| - 1];
      ElapsedTelescopes(init);
      assert init[0] == path[0] && init[|init| - 1] == path[|path| - 2];
    }
  }

  /** The last min(5, n) positions. */
  function Window(path: seq<Position>): (w: seq<Position>)
    ensures |w| == if |path| < WindowSize then |path| else WindowSize
    ensures w == path[|path| - |w|..]
  {
    var size := if |path| < WindowSize then |path| else WindowSize;
    path[|path| - size..]
  }

  /** The windowed speed in km/h: window distance over window time, absent with fewer
      than two positions or when the summed time is not positive. */
  function WindowSpeed(dist: Geo.DistanceFn, path: seq<Position>): (speed: Option<real>)
    ensures speed.Some? <==> |Window(path)| >= 2 && ElapsedSeconds(Window(path)) > 0.0
    ensures speed.Some? ==>
              speed.value * (ElapsedSeconds(Window(path)) / 3600.0) == Geo.PathLength(Leg(dist), Window(path))
  {
    var w := Window(path);
    if |w| < 2 then None
    else
      var timeSum := ElapsedSeconds(w);
      if timeSum > 0.0 then
        var hours := timeSum / 3600.0;
        assert Geo.PathLength(Leg(dist), w) / hours * hours == Geo.PathLength(Leg(dist), w);
        Some(Geo.PathLength(Leg(dist), w) / hours)
      else None
  }

  /** The speed exists exactly when the window's last timestamp is after its first;
      it is then the window distance per elapsed hour. */
  lemma WindowSpeedDefined(dist: Geo.DistanceFn, path: seq<Position>)
    requires |path| >= 2
    ensures var w := Window(path);
            (WindowSpeed(dist, path).Some? <==> w[|w| - 1].timestamp > w[0].timestamp) &&
            (WindowSpeed(dist, path).Some? ==>
               WindowSpeed(dist, path).value * ((w[|w| - 1].timestamp - w[0].timestamp) as real) ==
               Geo.PathLength(Leg(dist), w) * 3600000.0)
  {
    var w := Window(path);
    ElapsedTelescopes(w);
    var t := ElapsedSeconds(w);
    var span := (w[|w| - 1].timestamp - w[0].timestamp) as real;
    assert t == span / 1000.0;
    if t > 0.0 {
      var v := WindowSpeed(dist, path).value;
      SpeedOverSpan(v, Geo.PathLength(Leg(dist), w), t, span);
    }
  }

  /** A speed in km/h that covers `d` km in `t` seconds, where `t` is `span`
      milliseconds: the speed times the span is `d` times 3600000. */
  lemma SpeedOverSpan(v: real, d: real, t: real, span: real)
    requires t > 0.0 && t == span / 1000.0 && v * (t / 3600.0) == d
    ensures v * span == d * 3600000.0
  {
    assert span == t * 1000.0;
  }

  /** The MET model's inputs for a live update. */
  function LiveParams(m: StepCalculations.UserMetrics, totalDist: real, speedKmh: Option<real>): StepCalculations.MetParams
  {
    StepCalculations.MetParams(m.weight, Some(m.height), None, Some(totalDist), Some(m.gender), speedKmh, None)
  }

  /** The update for a path of at least two positions: the whole path's distance, its
      steps, and the MET model fed with that distance and the windowed speed. */
  function UpdateFor(dist: Geo.DistanceFn, user: Profile, path: seq<Position>): (u: LiveUpdate)
    ensures u.distanceKm == Geo.PathLength(Leg(dist), path)
    ensures u.speedKmh == WindowSpeed(dist, path)
    ensures u.steps == StepCalculations.StepsFromDistance(u.distanceKm, Metrics(user))
    ensures var r := StepCalculations.CaloriesMET(LiveParams(Metrics(user), u.distanceKm, u.speedKmh));
            u.calories == r.calories && u.met == r.met
  {
    var m := Metrics(user);
    var total := Geo.PathLength(Leg(dist), path);
    var speed := WindowSpeed(dist, path);
    var r := StepCalculations.CaloriesMET(LiveParams(m, total, speed));
    LiveUpdate(total, StepCalculations.StepsFromDistance(total, m), r.calories, speed, r.met)
  }

  /** With a real profile the live values are never negative. */
  lemma UpdateNonNegative(dist: Geo.DistanceFn, user: Profile, path: seq<Position>)
    requires user.height.Some? ==> user.height.value >= 0.0
    requires user.weight.Some? ==> user.weight.value >= 0.0
    ensures var u := UpdateFor(dist, user, path);
            u.distanceKm >= 0.0 && u.steps >= 0 && u.calories >= 0
  {
    var m := Metrics(user);
    Geo.PathLengthNonNegative(Leg(dist), path);
    var total := Geo.PathLength(Leg(dist), path);
    StepCalculations.CaloriesNonNegative(LiveParams(m, total, WindowSpeed(dist, path)));
  }

  /** The reported distance grows by exactly the new leg with each position, so it
      never decreases. */
  lemma LiveDistanceGrows(dist: Geo.DistanceFn, user: Profile, path: seq<Position>, p: Position)
    requires |path| >= 1
    ensures UpdateFor(dist, user, path + [p]).distanceKm ==
              UpdateFor(dist, user, path).distanceKm + dist(path[|path| - 1].lat, path[|path| - 1].lng, p.lat, p.lng)
    ensures UpdateFor(dist, user, path).distanceKm <= UpdateFor(dist, user, path + [p]).distanceKm
  {
    Geo.PathLengthAppend(Leg(dist), path, p);
  }

  /** The record `stop` emits: first and last timestamps (a missing or zero timestamp
      gives `null`), the live steps and calories, the distance to 3 decimals and the
      path. */
  function SessionOf(positions: seq<Position>, steps: int, distanceKm: real, calories: int): (s: Session)
    ensures s.startTime.Some? <==> |positions| > 0 && positions[0].timestamp != 0
    ensures s.startTime.Some? ==> s.startTime.value == positions[0].timestamp
    ensures s.endTime.Some? <==> |positions| > 0 && positions[|positions| - 1].timestamp != 0
    ensures s.endTime.Some? ==> s.endTime.value == positions[|positions| - 1].timestamp
    ensures s.totalDistanceKm * 1000.0 == RoundHalfAway(distanceKm * 1000.0) as real
    ensures -0.0005 <= s.totalDistanceKm - distanceKm <= 0.0005
    ensures s.totalSteps == steps && s.calories == calories && s.path == positions
  {
    var startTime := if |positions| > 0 && positions[0].timestamp != 0 then Some(positions[0].timestamp) else None;
    var endTime := if |positions| > 0 && positions[|positions| - 1].timestamp != 0 then Some(positions[|positions| - 1].timestamp) else None;
    var rounded := ToFixed(distanceKm, 3);
    assert Scale(3) == 1000.0;
    Session(startTime, endTime, steps, rounded, calories, positions)
  }

  /** The loop summing the haversine distance over every consecutive pair. */
  method TotalDistance(dist: Geo.DistanceFn, next: seq<Position>) returns (totalDist: real)
    ensures totalDist == Geo.PathLength(Leg(dist), next)
    ensures totalDist >= 0.0
  {
    var leg := Leg(dist);
    totalDist := 0.0;
    if |next| < 2 {
      return;
    }
    var i := 1;
    while i < |next|
      invariant 1 <= i <= |next|
      invariant totalDist == Geo.PathLength(leg, next[..i])
    {
      Geo.PathLengthAppend(leg, next[..i], next[i]);
      assert next[..i] + [next[i]] == next[..i + 1];
      totalDist := totalDist + dist(next[i - 1].lat, next[i - 1].lng, next[i].lat, next[i].lng);
      i := i + 1;
    }
    assert next[..i] == next;
    Geo.PathLengthNonNegative(leg, next);
  }

  /** Extending a run of positions by the next one adds its leg to the distance and
      its gap to the seconds. */
  lemma WindowSumsStep(dist: Geo.DistanceFn, path: seq<Position>, first: nat, j: nat)
    requires first <= j < |path| - 1
    ensures Geo.PathLength(Leg(dist), path[first..j + 2]) ==
              Geo.PathLength(Leg(dist), path[first..j + 1]) + dist(path[j].lat, path[j].lng, path[j + 1].lat, path[j + 1].lng)
    ensures ElapsedSeconds(path[first..j + 2]) ==
              ElapsedSeconds(path[first..j + 1]) + ((path[j + 1].timestamp - path[j].timestamp) as real) / 1000.0
  {
    Geo.PathLengthAppend(Leg(dist), path[first..j + 1], path[j + 1]);
    assert path[first..j + 1] + [path[j + 1]] == path[first..j + 2];
    assert path[first..j + 2][..j + 1 - first] == path[first..j + 1];
  }

  /** The loop over the last `min(5, n)` positions summing distance and seconds, and
      the speed taken from those sums. */
  method RecentSpeed(dist: Geo.DistanceFn, next: seq<Position>) returns (speedKmh: Option<real>)
    ensures speedKmh == WindowSpeed(dist, next)
  {
    speedKmh := None;
    var leg := Leg(dist);
    var windowSize := if WindowSize < |next| then WindowSize else |next|;
    if windowSize >= 2 {
      var first := |next| - windowSize;
      var distSum := 0.0;
      var timeSum := 0.0;
      var j := first;
      while j < |next| - 1
        invariant first <= j <= |next| - 1
        invariant distSum == Geo.PathLength(leg, next[first..j + 1])
        invariant timeSum == ElapsedSeconds(next[first..j + 1])
      {
        var a := next[j];
        var b := next[j + 1];
        WindowSumsStep(dist, next, first, j);
        distSum := distSum + dist(a.lat, a.lng, b.lat, b.lng);
        timeSum := timeSum + ((b.timestamp - a.timestamp) as real) / 1000.0;
        j := j + 1;
      }
      assert next[first..j + 1] == Window(next);
      if timeSum > 0.0 {
        var hours := timeSum / 3600.0;
        speedKmh := Some(distSum / hours);
      }
    }
  }

  class Tracker {
    const dist: Geo.DistanceFn
    const user: Profile
    var positions: seq<Position>
    var running: bool
    var distanceKm: real
    var steps: int
    var calories: int
    var mapError: Option<string>
    var watchId: Option<int>

    /** The component's initial state. */
    constructor (dist: Geo.DistanceFn, user: Profile)
      ensures this.dist == dist && this.user == user
      ensures positions == [] && !running && distanceKm == 0.0 && steps == 0 && calories == 0
      ensures mapError.None? && watchId.None?
    {
      this.dist := dist;
      this.user := user;
      positions := [];
      running := false;
      distanceKm := 0.0;
      steps := 0;
      calories := 0;
      mapError := None;
      watchId := None;
    }

    /** `start`: without geolocation nothing changes; otherwise the live values are
        reset, and unless the map is ready the start is abandoned with an error. */
    method Start(geolocationSupported: bool, mapReady: bool, newWatchId: int)
      modifies this
      ensures !geolocationSupported ==>
                positions == old(positions) && running == old(running) && distanceKm == old(distanceKm) &&
                steps == old(steps) && calories == old(calories) && mapError == old(mapError) && watchId == old(watchId)
      ensures geolocationSupported ==> positions == [] && distanceKm == 0.0 && steps == 0 && calories == 0
      ensures geolocationSupported && !mapReady ==>
                !running && mapError == Some(MapStillLoading) && watchId == old(watchId)
      ensures geolocationSupported && mapReady ==>
                running && mapError == old(mapError) && watchId == Some(newWatchId)
    {
      if !geolocationSupported {
        return;
      }
      running := true;
      positions := [];
      distanceKm := 0.0;
      steps := 0;
      calories := 0;
      if !mapReady {
        mapError := Some(MapStillLoading);
        running := false;
        return;
      }
      watchId := Some(newWatchId);
    }

    /** The watch callback for a position: it is always appended; with two or more
        positions the live values are recomputed, stored and returned as the update. */
    method OnPosition(p: Position) returns (update: Option<LiveUpdate>)
      modifies this`positions, this`distanceKm, this`steps, this`calories
      ensures positions == old(positions) + [p]
      ensures |positions| > 1 ==>
                update == Some(UpdateFor(dist, user, positions)) &&
                distanceKm == update.value.distanceKm && steps == update.value.steps &&
                calories == update.value.calories
      ensures |positions| <= 1 ==>
                update.None? && distanceKm == old(distanceKm) && steps == old(steps) && calories == old(calories)
    {
      var next := positions + [p];
      update := None;
      if |next| > 1 {
        var totalDist := TotalDistance(dist, next);
        var userMetrics := Metrics(user);
        var estimatedSteps := StepCalculations.StepsFromDistance(totalDist, userMetrics);
        var speedKmh := RecentSpeed(dist, next);
        var metResult := StepCalculations.CaloriesMET(LiveParams(userMetrics, totalDist, speedKmh));
        var estimatedCalories := metResult.calories;
        distanceKm := totalDist;
        steps := estimatedSteps;
        calories := estimatedCalories;
        update := Some(LiveUpdate(totalDist, estimatedSteps, estimatedCalories, speedKmh, metResult.met));
      }
      positions := next;
    }

    /** `stop`: the watch is cleared if set, tracking stops, and the session built from
        the current path and live values is emitted. */
    method Stop() returns (session: Session)
      modifies this`watchId, this`running
      ensures watchId.None? && !running
      ensures session == SessionOf(positions, steps, distanceKm, calories)
    {
      if watchId.Some? {
        watchId := None;
      }
      running := false;
      session := SessionOf(positions, steps, distanceKm, calories);
    }
  }
}
