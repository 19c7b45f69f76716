/** The filtered live tracker of src/lib/locationTracking.ts.

    `Tracker` is the state object that the position-watch callback updates in place;
    the clock (`Date.now()`), the watch id and each position are method arguments.
    The copy made by stopLocationTracking and the read-only helpers work on
    `TrackingState`, the value of that object. */
module LocationTracking {
  import opened Js
  import Geo

  /** One recorded position (LocationCoordinates); speed in m/s. */
  datatype Fix = Fix(
    latitude: real,
    longitude: real,
    accuracy: real,
    timestamp: int,
    speed: Option<real>,
    altitude: Option<real>)

  /** A browser position turned into a record: `speed || undefined` and
      `altitude || undefined` drop a zero (or missing) reading. */
  function FromPosition(latitude: real, longitude: real, accuracy: real, timestamp: int,
                        speed: Option<real>, altitude: Option<real>): (f: Fix)
    ensures f.latitude == latitude && f.longitude == longitude
    ensures f.accuracy == accuracy && f.timestamp == timestamp
    ensures f.speed.Some? <==> speed.Some? && speed.value != 0.0
    ensures f.speed.Some? ==> f.speed == speed
    ensures f.altitude.Some? <==> altitude.Some? && altitude.value != 0.0
    ensures f.altitude.Some? ==> f.altitude == altitude
  {
    Fix(latitude, longitude, accuracy, timestamp,
        if NumOr(speed, 0.0) != 0.0 then speed else None,
        if NumOr(altitude, 0.0) != 0.0 then altitude else None)
  }

  /** The distance between two recorded positions (calculateDistance). */
  function Leg(dist: Geo.DistanceFn): (leg: (Fix, Fix) -> real)
    ensures forall a, b :: leg(a, b) >= 0.0
  {
    (a: Fix, b: Fix) => dist(a.latitude, a.longitude, b.latitude, b.longitude)
  }

  /** The sum of the distances between consecutive recorded positions. */
  function Recorded(dist: Geo.DistanceFn, locations: seq<Fix>): real
  {
    Geo.PathLength(Leg(dist), locations)
  }

  /** The sample filter: an accuracy under 20 m and a move of more than 5 m
      (0.005 km) from the last recorded position. */
  predicate Accepts(dist: Geo.DistanceFn, last: Fix, candidate: Fix)
    ensures Accepts(dist, last, candidate) <==>
              candidate.accuracy < 20.0 && Recorded(dist, [last, candidate]) > 0.005
  {
    assert [last, candidate][..1] == [last];
    assert Recorded(dist, [last, candidate]) == Geo.PathLength(Leg(dist), [last]) + Leg(dist)(last, candidate);
    candidate.accuracy < 20.0 && Leg(dist)(last, candidate) > 0.005
  }

  const PermissionDenied := "Permission denied. Please enable location access in your browser settings."
  const PositionUnavailable := "Position unavailable. Please check your GPS/location services."
  const TimedOut := "Request timed out. Please try again."
  const UnknownError := "An unknown geolocation error occurred."
  const Unsupported := "Geolocation is not supported by your browser"

  /** getGeolocationErrorMessage: codes 1, 2 and 3 have their own message, any other
      code the unknown-error message. */
  function ErrorMessage(code: int): (msg: string)
    ensures code == 1 <==> msg == PermissionDenied
    ensures code == 2 <==> msg == PositionUnavailable
    ensures code == 3 <==> msg == TimedOut
    ensures code != 1 && code != 2 && code != 3 <==> msg == UnknownError
  {
    if code == 1 then PermissionDenied
    else if code == 2 then PositionUnavailable
    else if code == 3 then TimedOut
    else UnknownError
  }

  /** The rejection of startLocationTracking: no geolocation support, or the error of
      the initial position request. */
  function StartRejection(supported: bool, code: int): (msg: string)
    ensures msg == Unsupported <==> !supported
    ensures supported ==> msg == ErrorMessage(code)
  {
    if !supported then Unsupported else ErrorMessage(code)
  }

  /** The value of a LocationTrackingState object. */
  datatype TrackingState = TrackingState(
    isTracking: bool,
    distance: real,
    locations: seq<Fix>,
    startTime: Option<int>,
    endTime: Option<int>,
    error: Option<string>,
    watchId: Option<int>,
    totalDuration: int)

  /** The live state object shared with the position-watch callbacks. */
  class Tracker {
    const dist: Geo.DistanceFn
    var isTracking: bool
    var distance: real
    var locations: seq<Fix>
    var startTime: Option<int>
    var endTime: Option<int>
    var error: Option<string>
    var watchId: Option<int>
    var totalDuration: int

    /** The running distance is the recorded path's length; there is always a last
        recorded position and a start time. */
    ghost predicate Valid()
      reads this
    {
      |locations| >= 1 && startTime.Some? && distance == Recorded(dist, locations)
    }

    /** The object's current value. */
    function Snapshot(): (s: TrackingState)
      reads this
      ensures s.isTracking == isTracking && s.distance == distance && s.locations == locations
      ensures s.startTime == startTime && s.endTime == endTime && s.error == error
      ensures s.watchId == watchId && s.totalDuration == totalDuration
    {
      TrackingState(isTracking, distance, locations, startTime, endTime, error, watchId, totalDuration)
    }

    /** The state startLocationTracking resolves with once the initial position has
        arrived and the watch is set up; the initial position's accuracy is not
        checked. */
    constructor Start(dist: Geo.DistanceFn, initial: Fix, now: int, watch: int)
      ensures Valid()
      ensures this.dist == dist
      ensures isTracking && distance == 0.0 && locations == [initial]
      ensures startTime == Some(now) && endTime.None? && error.None?
      ensures watchId == Some(watch) && totalDuration == 0
    {
      this.dist := dist;
      isTracking := true;
      distance := 0.0;
      locations := [initial];
      startTime := Some(now);
      endTime := None;
      error := None;
      totalDuration := 0;
      watchId := Some(watch);
    }

    /** The watch callback for a new position at clock time `now`. */
    method OnFix(fix: Fix, now: int)
      requires Valid()
      modifies this`distance, this`locations, this`totalDuration
      ensures Valid()
      ensures var last := old(locations)[|old(locations)| - 1];
              if Accepts(dist, last, fix) then
                distance == old(distance) + Leg(dist)(last, fix) && locations == old(locations) + [fix]
              else
                distance == old(distance) && locations == old(locations)
      ensures old(distance) <= distance && old(locations) <= locations
      ensures totalDuration * 1000 <= now - startTime.value < (totalDuration + 1) * 1000
    {
      var lastLocation := locations[|locations| - 1];
      if fix.accuracy < 20.0 {
        var distanceDelta := dist(lastLocation.latitude, lastLocation.longitude, fix.latitude, fix.longitude);
        if distanceDelta > 0.005 {
          Geo.PathLengthAppend(Leg(dist), locations, fix);
          distance := distance + distanceDelta;
          locations := locations + [fix];
        }
      }
      totalDuration := (now - startTime.value) / 1000;
    }

    /** The watch error callback: only the error message changes. */
    method OnError(code: int)
      requires Valid()
      modifies this`error
      ensures Valid()
      ensures Snapshot() == old(Snapshot()).(error := Some(ErrorMessage(code)))
    {
      error := Some(ErrorMessage(code));
    }
  }

  /** `startTime!` used in arithmetic: JavaScript reads a `null` start time as 0. */
  function StartOrZero(s: TrackingState): int
  {
    s.startTime.GetOr(0)
  }

  /** stopLocationTracking: a copy that is no longer tracking, ends at `now` and lasts
      the whole seconds since the start; the copied object itself is left as it is. */
  function Stop(s: TrackingState, now: int): (r: TrackingState)
    ensures !r.isTracking && r.endTime == Some(now)
    ensures r.totalDuration * 1000 <= now - StartOrZero(s) < (r.totalDuration + 1) * 1000
    ensures r.distance == s.distance && r.locations == s.locations
    ensures r.startTime == s.startTime && r.error == s.error && r.watchId == s.watchId
  {
    s.(isTracking := false, endTime := Some(now), totalDuration := (now - StartOrZero(s)) / 1000)
  }

  /** The duration getAverageSpeed divides by: totalDuration (whole seconds), or when
      that is 0 the elapsed milliseconds; both are read as milliseconds. */
  function SpeedBasis(s: TrackingState, now: int): int
  {
    if s.totalDuration != 0 then s.totalDuration else now - StartOrZero(s)
  }

  /** getAverageSpeed: distance over the duration in hours. `None` stands for the
      non-finite number JavaScript produces when that duration is 0. */
  function AverageSpeed(s: TrackingState, now: int): (r: Option<real>)
    ensures s.startTime.None? || |s.locations| < 2 ==> r == Some(0.0)
    ensures s.startTime.Some? && |s.locations| >= 2 ==>
              (r.Some? <==> SpeedBasis(s, now) != 0) &&
              (r.Some? ==> r.value * (SpeedBasis(s, now) as real) == s.distance * 3600000.0)
  {
    if s.startTime.None? || |s.locations| < 2 then Some(0.0)
    else
      var basis := SpeedBasis(s, now);
      if basis == 0 then None
      else
        var durationHours := (basis as real) / (1000.0 * 60.0 * 60.0);
        assert s.distance / durationHours == s.distance * 3600000.0 / (basis as real);
        Some(s.distance / durationHours)
  }

  /** A positive distance over a positive duration gives a positive average. */
  lemma AverageSpeedPositive(s: TrackingState, now: int)
    requires s.startTime.Some? && |s.locations| >= 2
    requires s.distance > 0.0 && SpeedBasis(s, now) > 0
    ensures AverageSpeed(s, now).Some? && AverageSpeed(s, now).value > 0.0
  {
    var r := AverageSpeed(s, now);
    var b := SpeedBasis(s, now) as real;
    assert r.value * b == s.distance * 3600000.0;
  }

  /** As written, a non-zero totalDuration (whole seconds) is divided as if it were
      milliseconds: one kilometre recorded over one hour reports 1000 km/h. */
  lemma AverageSpeedSecondsReadAsMilliseconds()
    ensures var s := TrackingState(false, 1.0, [Fix(0.0, 0.0, 5.0, 0, None, None), Fix(0.0, 0.0, 5.0, 3600000, None, None)],
                                   Some(0), Some(3600000), None, None, 3600);
            AverageSpeed(s, 3600000) == Some(1000.0) && IntendedAverageSpeed(s, 3600000) == Some(1.0)
  {
    var s := TrackingState(false, 1.0, [Fix(0.0, 0.0, 5.0, 0, None, None), Fix(0.0, 0.0, 5.0, 3600000, None, None)],
                           Some(0), Some(3600000), None, None, 3600);
    assert SpeedBasis(s, 3600000) == 3600;
    assert IntendedBasisMs(s, 3600000) == 3600000;
  }

  /** The duration in milliseconds the average is evidently meant to use: totalDuration
      converted from seconds, or the elapsed milliseconds while it is still 0. */
  function IntendedBasisMs(s: TrackingState, now: int): int
  {
    if s.totalDuration != 0 then s.totalDuration * 1000 else now - StartOrZero(s)
  }

  /** getAverageSpeed with consistent units: distance per hour of the duration. */
  function IntendedAverageSpeed(s: TrackingState, now: int): (r: Option<real>)
    ensures s.startTime.None? || |s.locations| < 2 ==> r == Some(0.0)
    ensures s.startTime.Some? && |s.locations| >= 2 ==>
              (r.Some? <==> IntendedBasisMs(s, now) != 0) &&
              (r.Some? ==> r.value * (IntendedBasisMs(s, now) as real) == s.distance * 3600000.0)
  {
    if s.startTime.None? || |s.locations| < 2 then Some(0.0)
    else
      var basis := IntendedBasisMs(s, now);
      if basis == 0 then None
      else
        var durationHours := (basis as real) / (1000.0 * 60.0 * 60.0);
        assert s.distance / durationHours == s.distance * 3600000.0 / (basis as real);
        Some(s.distance / durationHours)
  }

  /** After stopLocationTracking, the intended average is the distance over the
      recorded whole seconds, read as hours: km/h. */
  lemma IntendedAverageAfterStop(s: TrackingState, now: int)
    requires s.startTime.Some? && |s.locations| >= 2
    requires now - s.startTime.value >= 1000
    ensures var stopped := Stop(s, now);
            IntendedAverageSpeed(stopped, now).Some? &&
            IntendedAverageSpeed(stopped, now).value * (stopped.totalDuration as real) == s.distance * 3600.0
  {
    var stopped := Stop(s, now);
    assert stopped.totalDuration >= 1;
    var r := IntendedAverageSpeed(stopped, now);
    var d := stopped.totalDuration as real;
    assert r.value * (d * 1000.0) == s.distance * 3600000.0;
  }

  /** `if (loc.speed)`: the speed counts only when present and non-zero. */
  predicate HasSpeed(f: Fix)
  {
    f.speed.Some? && f.speed.value != 0.0
  }

  /** The km/h value of a fix's m/s speed. */
  function Kmh(f: Fix): real
    requires HasSpeed(f)
  {
    f.speed.value * 3.6
  }

  /** The largest km/h speed among the fixes that have one, and 0 if none is larger. */
  function PeakSpeed(fixes: seq<Fix>): (peak: real)
    ensures peak >= 0.0
    ensures forall i :: 0 <= i < |fixes| && HasSpeed(fixes[i]) ==> Kmh(fixes[i]) <= peak
    ensures peak == 0.0 || exists i :: 0 <= i < |fixes| && HasSpeed(fixes[i]) && peak == Kmh(fixes[i])
    decreases |fixes|
  {
    if |fixes| == 0 then 0.0
    else
      var rest := PeakSpeed(fixes[..|fixes| - 1]);
      var last := fixes[|fixes| - 1];
      assert forall i :: 0 <= i < |fixes| - 1 ==> fixes[..|fixes| - 1][i] == fixes[i];
      if HasSpeed(last) && Kmh(last) > rest then Kmh(last) else rest
  }

  /** All recorded positions except the last: the ones getMaxSpeed's loop visits. */
  function AllButLast(fixes: seq<Fix>): seq<Fix>
  {
    if |fixes| == 0 then [] else fixes[..|fixes| - 1]
  }

  /** getMaxSpeed. */
  method MaxSpeed(s: TrackingState) returns (maxSpeed: real)
    ensures maxSpeed == PeakSpeed(AllButLast(s.locations))
  {
    maxSpeed := 0.0;
    var i := 0;
    while i < |s.locations| - 1
      invariant 0 <= i <= |AllButLast(s.locations)|
      invariant maxSpeed == PeakSpeed(s.locations[..i])
    {
      var loc := s.locations[i];
      assert s.locations[..i + 1][..i] == s.locations[..i];
      if loc.speed.Some? && loc.speed.value != 0.0 {
        var speedKmh := loc.speed.value * 3.6;
        maxSpeed := if maxSpeed >= speedKmh then maxSpeed else speedKmh;
      }
      i := i + 1;
    }
    assert s.locations[..i] == AllButLast(s.locations);
  }

  /** A session record ready to be saved (TrackingSession); `id` is the clock value whose
      decimal string the source uses as the id. */
  datatype TrackingSession = TrackingSession(
    id: int,
    startTime: Option<int>,
    endTime: Option<int>,
    distance: real,
    locations: seq<Fix>,
    avgSpeed: Option<real>,
    maxSpeed: real,
    saved: bool)

  /** createTrackingSession. */
  function CreateTrackingSession(s: TrackingState, now: int): (t: TrackingSession)
    ensures t.id == now && !t.saved
    ensures t.startTime == s.startTime && t.endTime == s.endTime
    ensures t.distance == s.distance && t.locations == s.locations
    ensures t.avgSpeed == AverageSpeed(s, now)
    ensures t.maxSpeed == PeakSpeed(AllButLast(s.locations))
    ensures t.maxSpeed >= 0.0
    ensures forall i :: 0 <= i < |s.locations| - 1 && HasSpeed(s.locations[i]) ==> Kmh(s.locations[i]) <= t.maxSpeed
  {
    var peak := PeakSpeed(AllButLast(s.locations));
    assert forall i :: 0 <= i < |s.locations| - 1 ==> AllButLast(s.locations)[i] == s.locations[i];
    TrackingSession(now, s.startTime, s.endTime, s.distance, s.locations, AverageSpeed(s, now), peak, false)
  }
}
