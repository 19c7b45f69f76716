/** The step, distance and energy model of src/lib/stepCalculations.ts. */
module StepCalculations {
  import opened Js

  /** Body metrics: height in cm, weight in kg and the profile's gender string. */
  datatype UserMetrics = UserMetrics(height: real, weight: real, gender: string)

  /** GENDER_CONSTANTS looked up with the `|| 0.42` fallback: any gender other than
      "male" and "female" gets the constant of "other". */
  function GenderConstant(gender: string): (c: real)
    ensures c == 0.43 <==> gender == "male"
    ensures c == 0.41 <==> gender == "female"
    ensures c == 0.42 <==> gender != "male" && gender != "female"
  {
    if gender == "male" then 0.43
    else if gender == "female" then 0.41
    else 0.42
  }

  /** Body mass index: weight over the square of the height in metres. */
  function Bmi(weight: real, height: real): (bmi: real)
    requires height != 0.0
    ensures bmi * ((height / 100.0) * (height / 100.0)) == weight
  {
    var heightInMeters := height / 100.0;
    weight / (heightInMeters * heightInMeters)
  }

  /** The stride adjustment of a BMI bucket. */
  function AdjustmentForBmi(bmi: real): (adj: real)
    ensures adj == 1.05 <==> bmi < 18.5
    ensures adj == 1.0 <==> 18.5 <= bmi <= 24.9
    ensures adj == 0.95 <==> 24.9 < bmi <= 29.9
    ensures adj == 0.90 <==> 29.9 < bmi
  {
    if bmi < 18.5 then 1.05
    else if bmi <= 24.9 then 1.0
    else if bmi <= 29.9 then 0.95
    else 0.90
  }

  /** getWeightAdjustment: the stride adjustment for the BMI of `weight` and `height`. */
  function WeightAdjustment(weight: real, height: real): (adj: real)
    requires height != 0.0
    ensures adj == 1.05 || adj == 1.0 || adj == 0.95 || adj == 0.90
  {
    AdjustmentForBmi(Bmi(weight, height))
  }

  /** A higher BMI never gets a larger adjustment. */
  lemma AdjustmentNonIncreasing(bmi1: real, bmi2: real)
    requires bmi1 <= bmi2
    ensures AdjustmentForBmi(bmi2) <= AdjustmentForBmi(bmi1)
  {
  }

  /** At a fixed height, a heavier person never gets a larger adjustment. */
  lemma WeightAdjustmentNonIncreasingInWeight(weight1: real, weight2: real, height: real)
    requires height != 0.0 && weight1 <= weight2
    ensures WeightAdjustment(weight2, height) <= WeightAdjustment(weight1, height)
  {
    OverSquareMonotone(weight1, weight2, height / 100.0);
    AdjustmentNonIncreasing(Bmi(weight1, height), Bmi(weight2, height));
  }

  /** The steps-per-km factor 100000 / (height × gender constant × adjustment) shared by
      both conversions. */
  function StepsPerKm(m: UserMetrics): (spk: real)
    requires m.height != 0.0
    ensures spk * (m.height * GenderConstant(m.gender) * WeightAdjustment(m.weight, m.height)) == 100000.0
    ensures m.height > 0.0 ==> spk > 0.0
  {
    var denominator := m.height * GenderConstant(m.gender) * WeightAdjustment(m.weight, m.height);
    assert m.height > 0.0 ==> denominator > 0.0;
    100000.0 / denominator
  }

  /** calculateStepsFromDistance: round(stepsPerKm × distance). */
  function StepsFromDistance(distanceKm: real, m: UserMetrics): (steps: int)
    requires m.height != 0.0
    ensures steps as real - 0.5 <= StepsPerKm(m) * distanceKm < steps as real + 0.5
    ensures distanceKm == 0.0 ==> steps == 0
    ensures m.height > 0.0 && distanceKm >= 0.0 ==> steps >= 0
  {
    Round(StepsPerKm(m) * distanceKm)
  }

  /** A longer distance never gives fewer steps. */
  lemma StepsMonotone(d1: real, d2: real, m: UserMetrics)
    requires m.height > 0.0 && d1 <= d2
    ensures StepsFromDistance(d1, m) <= StepsFromDistance(d2, m)
  {
    var spk := StepsPerKm(m);
    assert spk * d1 <= spk * d2;
    RoundMonotone(spk * d1, spk * d2);
  }

  /** calculateDistanceFromSteps: steps / stepsPerKm, rounded to 2 decimals. */
  function DistanceFromSteps(steps: real, m: UserMetrics): (km: real)
    requires m.height != 0.0
    ensures km * 100.0 == RoundHalfAway(steps / StepsPerKm(m) * 100.0) as real
    ensures -0.005 <= km - steps / StepsPerKm(m) <= 0.005
    ensures m.height > 0.0 && steps >= 0.0 ==> km >= 0.0
  {
    var spk := StepsPerKm(m);
    var r := ToFixed(steps / spk, 2);
    assert Scale(2) == 100.0;
    assert m.height > 0.0 && steps >= 0.0 ==> steps / spk >= 0.0;
    r
  }

  /** Converting a distance to steps and back lands within half a step plus the
      two-decimal rounding of the original distance. */
  lemma {:induction false} StepsDistanceRoundTrip(distanceKm: real, m: UserMetrics)
    requires m.height > 0.0
    ensures var back := DistanceFromSteps(StepsFromDistance(distanceKm, m) as real, m);
            -(0.5 / StepsPerKm(m) + 0.005) <= back - distanceKm <= 0.5 / StepsPerKm(m) + 0.005
  {
    var spk := StepsPerKm(m);
    var steps := StepsFromDistance(distanceKm, m) as real;
    assert -0.5 <= steps - spk * distanceKm <= 0.5;
    var back := DistanceFromSteps(steps, m);
    assert -0.005 <= back - steps / spk <= 0.005;
    RoundTripError(spk, distanceKm, steps, back);
  }

  /** The arithmetic of the round trip: a half-step error divided by the factor, plus
      the decimal rounding. */
  lemma RoundTripError(spk: real, d: real, steps: real, back: real)
    requires spk > 0.0
    requires -0.5 <= steps - spk * d <= 0.5
    requires -0.005 <= back - steps / spk <= 0.005
    ensures -(0.5 / spk + 0.005) <= back - d <= 0.5 / spk + 0.005
  {
    var q := steps / spk;
    var e := steps - spk * d;
    DivideBounds(e, spk, 0.5);
    QuotientOfDifference(steps, spk, d);
    assert back - d == (back - q) + e / spk;
    SumOfBounds(back - q, e / spk, 0.005, 0.5 / spk);
  }

  lemma SumOfBounds(x: real, y: real, a: real, b: real)
    requires -a <= x <= a && -b <= y <= b
    ensures -(b + a) <= x + y <= b + a
  {
  }

  lemma QuotientOfDifference(a: real, s: real, d: real)
    requires s != 0.0
    ensures (a - s * d) / s == a / s - d
  {
    assert (a - s * d) / s == a / s - (s * d) / s;
  }

  /** Walking intensity; estimateCaloriesBurned defaults it to moderate. */
  datatype Intensity = Slow | Moderate | Fast

  function IntensityMultiplier(intensity: Intensity): (m: real)
    ensures intensity == Slow ==> m == 0.8
    ensures intensity == Moderate ==> m == 1.0
    ensures intensity == Fast ==> m == 1.3
  {
    match intensity
    case Slow => 0.8
    case Moderate => 1.0
    case Fast => 1.3
  }

  /** estimateCaloriesBurned: round(weight × distance × 0.57 × intensity multiplier). */
  function EstimateCaloriesBurned(distanceKm: real, weight: real, intensity: Option<Intensity>): (kcal: int)
    ensures var exact := weight * distanceKm * 0.57 * IntensityMultiplier(intensity.GetOr(Moderate));
            exact - 0.5 < kcal as real <= exact + 0.5
    ensures distanceKm == 0.0 || weight == 0.0 ==> kcal == 0
  {
    var baseCalories := weight * distanceKm * 0.57;
    Round(baseCalories * IntensityMultiplier(intensity.GetOr(Moderate)))
  }

  /** Leaving the intensity out is the same as asking for moderate. */
  lemma EstimateDefaultsToModerate(distanceKm: real, weight: real)
    ensures EstimateCaloriesBurned(distanceKm, weight, None) == EstimateCaloriesBurned(distanceKm, weight, Some(Moderate))
  {
  }

  /** For a non-negative weight and distance, slow <= moderate <= fast. */
  lemma EstimateIntensityOrder(distanceKm: real, weight: real)
    requires distanceKm >= 0.0 && weight >= 0.0
    ensures EstimateCaloriesBurned(distanceKm, weight, Some(Slow)) <= EstimateCaloriesBurned(distanceKm, weight, Some(Moderate))
    ensures EstimateCaloriesBurned(distanceKm, weight, Some(Moderate)) <= EstimateCaloriesBurned(distanceKm, weight, Some(Fast))
  {
    var b := weight * distanceKm * 0.57;
    assert b >= 0.0;
    RoundMonotone(b * 0.8, b * 1.0);
    RoundMonotone(b * 1.0, b * 1.3);
  }

  /** The stride as a fraction of height used when a distance is derived from steps. */
  function StrideConstant(gender: string): (c: real)
    ensures c == 0.415 <==> gender == "male"
    ensures c == 0.413 <==> gender == "female"
    ensures c == 0.414 <==> gender != "male" && gender != "female"
  {
    if gender == "male" then 0.415
    else if gender == "female" then 0.413
    else 0.414
  }

  /** The arguments of calculateCaloriesMET; an absent optional field is `None`. */
  datatype MetParams = MetParams(
    weightKg: real,
    heightCm: Option<real>,
    steps: Option<real>,
    distanceKm: Option<real>,
    gender: Option<string>,
    speedKmh: Option<real>,
    met: Option<real>)

  /** What calculateCaloriesMET returns. */
  datatype MetResult = MetResult(calories: int, distanceKm: Option<real>, durationMinutes: Option<real>, met: real)

  /** `speedKmh && speedKmh > 0`. */
  predicate KnownSpeed(speedKmh: Option<real>)
  {
    speedKmh.Some? && speedKmh.value > 0.0
  }

  /** The MET of a walking speed: 2.8 below 3.2 km/h, 3.5 below 4.8 km/h, else 5.0;
      3.5 when no positive speed is known. */
  function MetForSpeed(speedKmh: Option<real>): (met: real)
    ensures !KnownSpeed(speedKmh) ==> met == 3.5
    ensures KnownSpeed(speedKmh) ==> (met == 2.8 <==> speedKmh.value < 3.2)
    ensures KnownSpeed(speedKmh) ==> (met == 3.5 <==> 3.2 <= speedKmh.value < 4.8)
    ensures KnownSpeed(speedKmh) ==> (met == 5.0 <==> 4.8 <= speedKmh.value)
  {
    if KnownSpeed(speedKmh) then
      if speedKmh.value < 3.2 then 2.8
      else if speedKmh.value < 4.8 then 3.5
      else 5.0
    else 3.5
  }

  /** A faster known walk never gets a smaller MET. */
  lemma MetForSpeedMonotone(s1: real, s2: real)
    requires 0.0 < s1 <= s2
    ensures MetForSpeed(Some(s1)) <= MetForSpeed(Some(s2))
  {
  }

  /** The speed assumed for the duration: the given one if positive, else 4.8 km/h. */
  function DurationSpeed(speedKmh: Option<real>): (s: real)
    ensures KnownSpeed(speedKmh) ==> s == speedKmh.value
    ensures !KnownSpeed(speedKmh) ==> s == 4.8
    ensures s > 0.0
  {
    if KnownSpeed(speedKmh) then speedKmh.value else 4.8
  }

  /** The distance used: the given one, else (with truthy steps and height) height in
      metres × stride constant × steps / 1000. */
  function DerivedDistance(p: MetParams): (d: Option<real>)
    ensures p.distanceKm.Some? ==> d == p.distanceKm
    ensures d.Some? <==> p.distanceKm.Some? || (NumOr(p.steps, 0.0) != 0.0 && NumOr(p.heightCm, 0.0) != 0.0)
    // a derived distance is stride length (height in metres times the gender's
    // fraction) times the steps, in kilometres
    ensures p.distanceKm.None? && d.Some? ==>
              d.value * 1000.0 == (p.heightCm.value / 100.0 * StrideConstant(p.gender.GetOr("other"))) * p.steps.value
  {
    if p.distanceKm.None? && NumOr(p.steps, 0.0) != 0.0 && NumOr(p.heightCm, 0.0) != 0.0 then
      var heightM := p.heightCm.value / 100.0;
      var stride := heightM * StrideConstant(p.gender.GetOr("other"));
      var distanceMeters := stride * p.steps.value;
      Some(distanceMeters / 1000.0)
    else p.distanceKm
  }

  /** calculateCaloriesMET. */
  function CaloriesMET(p: MetParams): (r: MetResult)
    // a missing or non-positive weight short-circuits everything
    ensures p.weightKg <= 0.0 ==> r == MetResult(0, None, None, NumOr(p.met, 0.0))
    // otherwise the distance is the given or stride-derived one
    ensures p.weightKg > 0.0 ==> r.distanceKm == DerivedDistance(p)
    // a non-zero override is the MET used; otherwise the speed bucket is
    ensures p.weightKg > 0.0 ==> r.met == (if NumOr(p.met, 0.0) != 0.0 then p.met.value else MetForSpeed(p.speedKmh))
    // the duration is distance over speed, and exists exactly when a distance does
    ensures r.durationMinutes.Some? <==> p.weightKg > 0.0 && r.distanceKm.Some?
    ensures r.durationMinutes.Some? ==>
              r.durationMinutes.value * DurationSpeed(p.speedKmh) == r.distanceKm.value * 60.0
    // with a positive duration, calories follow the MET equation with the MET returned
    ensures r.durationMinutes.Some? && r.durationMinutes.value > 0.0 ==>
              var exact := r.durationMinutes.value * r.met * 3.5 * p.weightKg / 200.0;
              exact - 0.5 < r.calories as real <= exact + 0.5
    // otherwise the steps-only estimate, or nothing
    ensures p.weightKg > 0.0 && !(r.durationMinutes.Some? && r.durationMinutes.value > 0.0) ==>
              r.calories == (if NumOr(p.steps, 0.0) != 0.0 then Round(0.04 * p.steps.value * (p.weightKg / 70.0)) else 0)
  {
    if p.weightKg <= 0.0 then MetResult(0, None, None, NumOr(p.met, 0.0))
    else
      var distanceKm := DerivedDistance(p);
      var usedMet := if NumOr(p.met, 0.0) != 0.0 then p.met.value else MetForSpeed(p.speedKmh);
      var durationMinutes: Option<real> :=
        if distanceKm.Some? && KnownSpeed(p.speedKmh) then Some((distanceKm.value / p.speedKmh.value) * 60.0)
        else if distanceKm.Some? then Some((distanceKm.value / 4.8) * 60.0)
        else None;
      var calories :=
        if durationMinutes.Some? && durationMinutes.value != 0.0 && durationMinutes.value > 0.0 then
          Round((durationMinutes.value * (usedMet * 3.5 * p.weightKg)) / 200.0)
        else if NumOr(p.steps, 0.0) != 0.0 then
          Round(0.04 * p.steps.value * (p.weightKg / 70.0))
        else 0;
      MetResult(calories, distanceKm, durationMinutes, usedMet)
  }

  /** With a given distance the duration is derived from it and the calories from the
      MET equation; the steps-only estimate applies only when no distance can be found. */
  lemma CaloriesUseDistanceWhenGiven(p: MetParams)
    requires p.weightKg > 0.0 && p.distanceKm.Some? && p.distanceKm.value > 0.0
    ensures CaloriesMET(p).distanceKm == p.distanceKm
    ensures CaloriesMET(p).durationMinutes.Some? && CaloriesMET(p).durationMinutes.value > 0.0
  {
    var r := CaloriesMET(p);
    var s := DurationSpeed(p.speedKmh);
    assert r.durationMinutes.value * s == p.distanceKm.value * 60.0;
    assert r.durationMinutes.value * s > 0.0;
  }

  /** With a given positive distance, the calories are the MET equation applied to the
      time that distance takes at the duration speed. */
  lemma MetEquationWithGivenDistance(p: MetParams)
    requires p.weightKg > 0.0 && p.distanceKm.Some? && p.distanceKm.value > 0.0
    ensures var r := CaloriesMET(p);
            var minutes := p.distanceKm.value * 60.0 / DurationSpeed(p.speedKmh);
            var exact := minutes * r.met * 3.5 * p.weightKg / 200.0;
            exact - 0.5 < r.calories as real <= exact + 0.5
  {
    CaloriesUseDistanceWhenGiven(p);
    var r := CaloriesMET(p);
    MinutesForDistance(r.durationMinutes.value, p.distanceKm.value, DurationSpeed(p.speedKmh), r.met, p.weightKg, r.calories);
  }

  lemma MinutesForDistance(duration: real, distanceKm: real, speed: real, met: real, weightKg: real, calories: int)
    requires speed > 0.0 && duration > 0.0 && duration * speed == distanceKm * 60.0
    requires duration * met * 3.5 * weightKg / 200.0 - 0.5 < calories as real <= duration * met * 3.5 * weightKg / 200.0 + 0.5
    ensures var minutes := distanceKm * 60.0 / speed;
            minutes * met * 3.5 * weightKg / 200.0 - 0.5 < calories as real <= minutes * met * 3.5 * weightKg / 200.0 + 0.5
  {
    assert duration == distanceKm * 60.0 / speed;
  }

  /** For a non-negative weight, MET override and step count the estimate is never
      negative, whatever the distance and speed. */
  lemma CaloriesNonNegative(p: MetParams)
    requires p.weightKg >= 0.0
    requires p.met.Some? ==> p.met.value >= 0.0
    requires p.steps.Some? ==> p.steps.value >= 0.0
    ensures CaloriesMET(p).calories >= 0
  {
    var r := CaloriesMET(p);
    if p.weightKg > 0.0 && r.durationMinutes.Some? && r.durationMinutes.value > 0.0 {
      assert r.met > 0.0;
      assert r.durationMinutes.value * r.met * 3.5 * p.weightKg / 200.0 >= 0.0;
    } else if p.weightKg > 0.0 && NumOr(p.steps, 0.0) != 0.0 {
      assert 0.04 * p.steps.value * (p.weightKg / 70.0) >= 0.0;
    }
  }
}
