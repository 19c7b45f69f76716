/** The server-side step log, server/controllers/stepsController.ts.

    `StepsLog` holds the `steps_entries` table as a map keyed by (user id, date), so
    a key has at most one entry by construction; `AddSteps` validates and upserts,
    `DeleteSteps` removes one key. The weekly and monthly statistics are functions
    of the rows their queries return. */
module StepsController {
  import opened Js

  /** The fields of an `addSteps` request; `userId` is the authenticated user. */
  datatype AddRequest = AddRequest(
    userId: Option<int>,
    date: Option<string>,
    steps: JsValue,
    caloriesBurned: Option<real>,
    distanceKm: Option<real>,
    notes: Option<string>,
    trackingMode: Option<string>)

  /** A stored row of `steps_entries`. */
  datatype StepsEntry = StepsEntry(
    id: int,
    steps: real,
    caloriesBurned: Option<real>,
    distanceKm: Option<real>,
    notes: Option<string>,
    trackingMode: string)

  datatype AddResponse =
    | MissingFields                              // 400
    | InvalidSteps                               // 400
    | Updated(date: string, steps: real)         // 200, an existing entry was overwritten
    | Added(entryId: int, date: string, steps: real)  // 200, a new entry was inserted

  const MaxStepsPerDay := 100000.0

  /** `!userId`: no user, or the falsy id 0. */
  predicate Authenticated(userId: Option<int>)
  {
    userId.Some? && userId.value != 0
  }

  /** `!date`: no date, or the empty string. */
  predicate HasDate(date: Option<string>)
  {
    date.Some? && date.value != ""
  }

  /** The two guards of `addSteps`, in order; `None` when the request is acceptable. */
  function AddCheck(req: AddRequest): (r: Option<AddResponse>)
    ensures r == Some(MissingFields) <==> !Authenticated(req.userId) || !HasDate(req.date) || req.steps.Undefined?
    ensures r == Some(InvalidSteps) <==>
              Authenticated(req.userId) && HasDate(req.date) && !req.steps.Undefined? &&
              !(req.steps.Number? && 0.0 <= req.steps.n <= MaxStepsPerDay)
    ensures r.None? <==>
              Authenticated(req.userId) && HasDate(req.date) && req.steps.Number? && 0.0 <= req.steps.n <= MaxStepsPerDay
  {
    if !Authenticated(req.userId) || !HasDate(req.date) || req.steps.Undefined? then Some(MissingFields)
    else if !req.steps.Number? || req.steps.n < 0.0 || req.steps.n > MaxStepsPerDay then Some(InvalidSteps)
    else None
  }

  /** `x || null` for a number: `0` is stored as null. */
  function NullIfFalsy(x: Option<real>): (r: Option<real>)
    ensures r.None? <==> x.None? || x.value == 0.0
    ensures r.Some? ==> r == x
  {
    if x.Some? && x.value != 0.0 then x else None
  }

  /** `s || null` for a string: `""` is stored as null. */
  function NullIfEmpty(s: Option<string>): (r: Option<string>)
    ensures r.None? <==> s.None? || s.value == ""
    ensures r.Some? ==> r == s
  {
    if s.Some? && s.value != "" then s else None
  }

  /** The row an accepted request writes under id `id`. */
  function EntryFor(req: AddRequest, id: int): (e: StepsEntry)
    requires req.steps.Number?
    ensures e.id == id && e.steps == req.steps.n
    ensures e.caloriesBurned == NullIfFalsy(req.caloriesBurned) && e.distanceKm == NullIfFalsy(req.distanceKm)
    ensures e.notes == NullIfEmpty(req.notes)
    ensures e.trackingMode == StrOr(req.trackingMode, "manual")
    ensures e.trackingMode == "manual" <==> req.trackingMode.None? || req.trackingMode.value in {"", "manual"}
  {
    StepsEntry(id, req.steps.n, NullIfFalsy(req.caloriesBurned), NullIfFalsy(req.distanceKm), NullIfEmpty(req.notes),
               StrOr(req.trackingMode, "manual"))
  }

  datatype DeleteResponse = Unauthorized | Deleted

  class StepsLog {
    var entries: map<(int, string), StepsEntry>
    var nextId: int

    /** Row ids are distinct and below the next id to hand out. */
    ghost predicate Valid()
      reads this
    {
      nextId >= 1 &&
      (forall k :: k in entries ==> 0 < entries[k].id < nextId) &&
      (forall k1, k2 :: k1 in entries && k2 in entries && k1 != k2 ==> entries[k1].id != entries[k2].id)
    }

    constructor ()
      ensures Valid()
      ensures entries == map[] && nextId == 1
    {
      entries := map[];
      nextId := 1;
    }

    /** `addSteps`: a rejected request changes nothing; an accepted one overwrites the
        entry of (user, date) keeping its id, or inserts one under a fresh id. */
    method AddSteps(req: AddRequest) returns (resp: AddResponse)
      requires Valid()
      modifies this
      ensures Valid()
      ensures AddCheck(req).Some? ==> resp == AddCheck(req).value && entries == old(entries) && nextId == old(nextId)
      ensures AddCheck(req).None? ==>
                var key := (req.userId.value, req.date.value);
                key in entries &&
                (forall k :: k != key ==> (k in entries <==> k in old(entries))) &&
                (forall k :: k != key && k in entries ==> entries[k] == old(entries)[k]) &&
                (key in old(entries) ==>
                   resp == Updated(req.date.value, req.steps.n) && nextId == old(nextId) &&
                   entries[key] == EntryFor(req, old(entries)[key].id)) &&
                (key !in old(entries) ==>
                   resp == Added(old(nextId), req.date.value, req.steps.n) && nextId == old(nextId) + 1 &&
                   entries[key] == EntryFor(req, old(nextId)))
    {
      var check := AddCheck(req);
      if check.Some? {
        return check.value;
      }
      var key := (req.userId.value, req.date.value);
      if key in entries {
        var id := entries[key].id;
        entries := entries[key := EntryFor(req, id)];
        resp := Updated(req.date.value, req.steps.n);
      } else {
        entries := entries[key := EntryFor(req, nextId)];
        resp := Added(nextId, req.date.value, req.steps.n);
        nextId := nextId + 1;
      }
    }

    /** `deleteSteps`: an unauthenticated call changes nothing; otherwise exactly the
        (user, date) entry is gone, whether or not it existed. */
    method DeleteSteps(userId: Option<int>, date: string) returns (resp: DeleteResponse)
      requires Valid()
      modifies this`entries
      ensures Valid()
      ensures !Authenticated(userId) ==> resp == Unauthorized && entries == old(entries)
      ensures Authenticated(userId) ==>
                resp == Deleted && (userId.value, date) !in entries &&
                (forall k :: k != (userId.value, date) ==> (k in entries <==> k in old(entries))) &&
                (forall k :: k in entries ==> entries[k] == old(entries)[k])
    {
      if !Authenticated(userId) {
        return Unauthorized;
      }
      entries := entries - {(userId.value, date)};
      resp := Deleted;
    }
  }

  /** A row returned by the weekly or monthly query. */
  datatype StatsRow = StatsRow(steps: real, caloriesBurned: Option<real>)

  datatype PeriodStats = PeriodStats(
    totalSteps: real,
    avgSteps: int,
    maxSteps: real,
    totalCalories: real,
    daysTracked: nat,
    entries: seq<StatsRow>)

  datatype StatsResponse = StatsUnauthorized | Stats(stats: PeriodStats)

  /** The sum of the steps. */
  function TotalSteps(rows: seq<StatsRow>): (t: real)
    ensures |rows| == 0 ==> t == 0.0
  {
    if |rows| == 0 then 0.0
    else
      var init := rows[..|rows| - 1];
      assert forall i :: 0 <= i < |init| ==> init[i] == rows[i];
      TotalSteps(init) + rows[|rows| - 1].steps
  }

  /** The sum of the calories, a missing value counting as 0. */
  function TotalCalories(rows: seq<StatsRow>): (t: real)
    ensures |rows| == 0 ==> t == 0.0
  {
    if |rows| == 0 then 0.0
    else
      var init := rows[..|rows| - 1];
      assert forall i :: 0 <= i < |init| ==> init[i] == rows[i];
      TotalCalories(init) + rows[|rows| - 1].caloriesBurned.GetOr(0.0)
  }

  /** `Math.max` of the steps, 0 for no rows. */
  function MaxSteps(rows: seq<StatsRow>): (m: real)
    ensures |rows| == 0 ==> m == 0.0
    ensures forall i :: 0 <= i < |rows| ==> rows[i].steps <= m
    ensures |rows| > 0 ==> exists i :: 0 <= i < |rows| && rows[i].steps == m
  {
    if |rows| == 0 then 0.0
    else if |rows| == 1 then rows[0].steps
    else
      var rest := MaxSteps(rows[..|rows| - 1]);
      var last := rows[|rows| - 1].steps;
      assert forall i :: 0 <= i < |rows| - 1 ==> rows[..|rows| - 1][i] == rows[i];
      if last > rest then last else rest
  }

  /** The statistics both `getWeeklyStats` and `getMonthlyStats` compute from their rows. */
  function StatsOf(rows: seq<StatsRow>): (s: PeriodStats)
    ensures s.daysTracked == |rows| && s.entries == rows
    ensures s.totalSteps == TotalSteps(rows) && s.totalCalories == TotalCalories(rows)
    ensures |rows| == 0 ==> s.avgSteps == 0 && s.maxSteps == 0.0
    ensures |rows| > 0 ==> s.totalSteps / (|rows| as real) - 0.5 < s.avgSteps as real <= s.totalSteps / (|rows| as real) + 0.5
    ensures forall i :: 0 <= i < |rows| ==> rows[i].steps <= s.maxSteps
    ensures |rows| > 0 ==> exists i :: 0 <= i < |rows| && rows[i].steps == s.maxSteps
  {
    var total := TotalSteps(rows);
    var avg := if |rows| > 0 then Round(total / (|rows| as real)) else 0;
    PeriodStats(total, avg, MaxSteps(rows), TotalCalories(rows), |rows|, rows)
  }

  /** `getWeeklyStats` / `getMonthlyStats`: 401 without a user, else the statistics of
      the rows of the period. */
  function PeriodStatsFor(userId: Option<int>, rows: seq<StatsRow>): (r: StatsResponse)
    ensures r.StatsUnauthorized? <==> !Authenticated(userId)
    ensures r.Stats? ==> r.stats == StatsOf(rows)
  {
    if !Authenticated(userId) then StatsUnauthorized else Stats(StatsOf(rows))
  }

  /** The total is at most `|rows|` times the maximum. */
  lemma {:induction false} TotalAtMostCountTimesMax(rows: seq<StatsRow>, m: real)
    requires forall i :: 0 <= i < |rows| ==> rows[i].steps <= m
    ensures TotalSteps(rows) <= (|rows| as real) * m
  {
    if |rows| > 0 {
      var init := rows[..|rows| - 1];
      assert forall i :: 0 <= i < |init| ==> init[i] == rows[i];
      TotalAtMostCountTimesMax(init, m);
      assert TotalSteps(rows) == TotalSteps(init) + rows[|rows| - 1].steps;
      OneMoreTimes(|init| as real, m);
    }
  }

  lemma OneMoreTimes(n: real, m: real)
    ensures n * m + m == (n + 1.0) * m
  {
  }

  /** With non-negative steps the total is non-negative. */
  lemma {:induction false} TotalStepsNonNegative(rows: seq<StatsRow>)
    requires forall i :: 0 <= i < |rows| ==> rows[i].steps >= 0.0
    ensures TotalSteps(rows) >= 0.0
  {
    if |rows| > 0 {
      var init := rows[..|rows| - 1];
      assert forall i :: 0 <= i < |init| ==> init[i] == rows[i];
      TotalStepsNonNegative(init);
    }
  }

  /** With non-negative calories the calorie total is non-negative. */
  lemma {:induction false} TotalCaloriesNonNegative(rows: seq<StatsRow>)
    requires forall i :: 0 <= i < |rows| ==> rows[i].caloriesBurned.GetOr(0.0) >= 0.0
    ensures TotalCalories(rows) >= 0.0
  {
    if |rows| > 0 {
      var init := rows[..|rows| - 1];
      assert forall i :: 0 <= i < |init| ==> init[i] == rows[i];
      TotalCaloriesNonNegative(init);
    }
  }

  /** The step total of two runs of rows is the sum of their totals, so the reduce
      does not depend on how the rows are split. */
  lemma {:induction false} TotalStepsAppend(a: seq<StatsRow>, b: seq<StatsRow>)
    ensures TotalSteps(a + b) == TotalSteps(a) + TotalSteps(b)
    decreases |b|
  {
    if |b| > 0 {
      var b' := b[..|b| - 1];
      assert (a + b)[..|a + b| - 1] == a + b';
      TotalStepsAppend(a, b');
    } else {
      assert a + b == a;
    }
  }

  /** The calorie total of two runs of rows is the sum of their totals. */
  lemma {:induction false} TotalCaloriesAppend(a: seq<StatsRow>, b: seq<StatsRow>)
    ensures TotalCalories(a + b) == TotalCalories(a) + TotalCalories(b)
    decreases |b|
  {
    if |b| > 0 {
      var b' := b[..|b| - 1];
      assert (a + b)[..|a + b| - 1] == a + b';
      TotalCaloriesAppend(a, b');
    } else {
      assert a + b == a;
    }
  }

  /** With non-negative steps, one row's steps never exceed the total. */
  lemma {:induction false} RowAtMostTotal(rows: seq<StatsRow>, k: nat)
    requires forall i :: 0 <= i < |rows| ==> rows[i].steps >= 0.0
    requires k < |rows|
    ensures rows[k].steps <= TotalSteps(rows)
    decreases |rows|
  {
    var init := rows[..|rows| - 1];
    assert forall i :: 0 <= i < |init| ==> init[i] == rows[i];
    if k < |rows| - 1 {
      RowAtMostTotal(init, k);
    } else {
      TotalStepsNonNegative(init);
    }
  }

  /** For rows of non-negative whole step counts, average <= maximum <= total. (With
      fractional counts the rounded average can exceed the maximum: one row of 0.5
      steps averages to 1.) */
  lemma StatsOrdered(rows: seq<StatsRow>)
    requires |rows| > 0
    requires forall i :: 0 <= i < |rows| ==> rows[i].steps >= 0.0 && rows[i].steps == rows[i].steps.Floor as real
    ensures var s := StatsOf(rows); s.avgSteps as real <= s.maxSteps <= s.totalSteps
  {
    var total := TotalSteps(rows);
    var mx := MaxSteps(rows);
    var k :| 0 <= k < |rows| && rows[k].steps == mx;
    TotalAtMostCountTimesMax(rows, mx);
    RowAtMostTotal(rows, k);
    AverageBetween(total, |rows|, mx);
  }

  /** The rounded mean of a total that is at most `n` times a whole maximum does not
      exceed that maximum. */
  lemma AverageBetween(total: real, n: nat, mx: real)
    requires n > 0 && total <= (n as real) * mx && mx == mx.Floor as real
    ensures Round(total / (n as real)) as real <= mx
  {
    RoundedMeanAtMostMax(total, n, mx.Floor);
  }

  /** A mean that does not exceed a whole number does not round above it. */
  lemma RoundedMeanAtMostMax(total: real, n: nat, m: int)
    requires n > 0 && total <= (n as real) * (m as real)
    ensures Round(total / (n as real)) <= m
  {
    assert total / (n as real) <= m as real;
    RoundMonotone(total / (n as real), m as real);
    RoundOfInt(m);
  }
}
