/** The BMI and hydration calculators of src/pages/app/Tools.tsx.

    `calculateBMI` and `calculateHydration` either produce a result or return
    without touching the displayed one; the buttons first clear the result when an
    input is empty (or 0). Each button is a function from the inputs and the result
    on screen to the result shown afterwards. */
module Tools {
  import opened Js

  datatype BmiCategory = Underweight | NormalWeight | Overweight | Obese

  datatype BmiResult = BmiResult(bmi: real, category: BmiCategory)

  /** The category of a BMI value. */
  function CategoryOf(bmi: real): (c: BmiCategory)
    ensures c == Underweight <==> bmi < 18.5
    ensures c == NormalWeight <==> 18.5 <= bmi < 25.0
    ensures c == Overweight <==> 25.0 <= bmi < 30.0
    ensures c == Obese <==> 30.0 <= bmi
  {
    if bmi < 18.5 then Underweight
    else if bmi < 25.0 then NormalWeight
    else if bmi < 30.0 then Overweight
    else Obese
  }

  /** The position of a category from lightest to heaviest. */
  function Rank(c: BmiCategory): nat
  {
    match c
    case Underweight => 0
    case NormalWeight => 1
    case Overweight => 2
    case Obese => 3
  }

  /** A larger BMI never gets a lighter category. */
  lemma CategoryMonotone(bmi1: real, bmi2: real)
    requires bmi1 <= bmi2
    ensures Rank(CategoryOf(bmi1)) <= Rank(CategoryOf(bmi2))
  {
  }

  /** The body-mass index for a height in cm and a weight in kg. */
  function BmiValue(heightCm: real, weightKg: real): (bmi: real)
    requires heightCm > 0.0
    ensures bmi * ((heightCm / 100.0) * (heightCm / 100.0)) == weightKg
    ensures weightKg > 0.0 ==> bmi > 0.0
  {
    var heightM := heightCm / 100.0;
    assert heightM * heightM > 0.0;
    weightKg / (heightM * heightM)
  }

  /** `calculateBMI`: nothing for a non-positive height or weight, otherwise the BMI
      rounded to one decimal with the category of the unrounded value. */
  function CalculateBmi(heightCm: real, weightKg: real): (r: Option<BmiResult>)
    ensures r.None? <==> heightCm <= 0.0 || weightKg <= 0.0
    ensures r.Some? ==> r.value.bmi == Round(BmiValue(heightCm, weightKg) * 10.0) as real / 10.0
    ensures r.Some? ==>
              r.value.category == CategoryOf(BmiValue(heightCm, weightKg)) &&
              -0.05 <= r.value.bmi - BmiValue(heightCm, weightKg) <= 0.05
  {
    if heightCm <= 0.0 || weightKg <= 0.0 then None
    else
      var bmi := BmiValue(heightCm, weightKg);
      RoundToTenth(bmi);
      Some(BmiResult(Round(bmi * 10.0) as real / 10.0, CategoryOf(bmi)))
  }

  /** A heavier person of the same height never has a lighter category. */
  lemma CategoryMonotoneInWeight(heightCm: real, weight1: real, weight2: real)
    requires heightCm > 0.0 && 0.0 < weight1 <= weight2
    ensures Rank(CalculateBmi(heightCm, weight1).value.category) <= Rank(CalculateBmi(heightCm, weight2).value.category)
  {
    OverSquareMonotone(weight1, weight2, heightCm / 100.0);
    CategoryMonotone(BmiValue(heightCm, weight1), BmiValue(heightCm, weight2));
  }

  /** `Math.round(x * 10) / 10` is within 0.05 of `x`. */
  lemma RoundToTenth(x: real)
    ensures -0.05 <= Round(x * 10.0) as real / 10.0 - x <= 0.05
  {
    var n := Round(x * 10.0) as real;
    assert -0.5 <= n - x * 10.0 <= 0.5;
    assert n / 10.0 - x == (n - x * 10.0) / 10.0;
  }

  /** The BMI button: an empty or zero input clears the result; otherwise the result is
      replaced when `calculateBMI` produces one and kept when it returns early. */
  function BmiButton(heightInput: Option<real>, weightInput: Option<real>, shown: Option<BmiResult>): (r: Option<BmiResult>)
    ensures (heightInput.None? || heightInput.value == 0.0 || weightInput.None? || weightInput.value == 0.0) ==> r.None?
    ensures heightInput.Some? && heightInput.value != 0.0 && weightInput.Some? && weightInput.value != 0.0 ==>
              var computed := CalculateBmi(heightInput.value, weightInput.value);
              (computed.Some? ==> r == computed) && (computed.None? ==> r == shown)
  {
    if heightInput.None? || heightInput.value == 0.0 || weightInput.None? || weightInput.value == 0.0 then None
    else
      var computed := CalculateBmi(heightInput.value, weightInput.value);
      if computed.Some? then computed else shown
  }

  /** The `multipliers[activity] || 1.0` factor. */
  function ActivityFactor(activity: string): (m: real)
    ensures activity == "low" ==> m == 1.0
    ensures activity == "moderate" ==> m == 1.2
    ensures activity == "high" ==> m == 1.5
    ensures activity !in {"low", "moderate", "high"} ==> m == 1.0
  {
    if activity == "moderate" then 1.2
    else if activity == "high" then 1.5
    else 1.0
  }

  /** `calculateHydration`: nothing for a non-positive weight, otherwise 30 ml per kg
      scaled by the activity factor, rounded to whole millilitres. */
  function CalculateHydration(weightKg: real, activity: string): (r: Option<int>)
    ensures r.None? <==> weightKg <= 0.0
    ensures r.Some? ==> weightKg * 30.0 * ActivityFactor(activity) - 0.5 < r.value as real <= weightKg * 30.0 * ActivityFactor(activity) + 0.5
    ensures r.Some? ==> r.value >= 0
  {
    if weightKg <= 0.0 then None
    else
      var baseWater := weightKg * 30.0;
      Some(Round(baseWater * ActivityFactor(activity)))
  }

  /** More activity never means less water. */
  lemma HydrationActivityOrder(weightKg: real)
    requires weightKg > 0.0
    ensures CalculateHydration(weightKg, "low").value <= CalculateHydration(weightKg, "moderate").value
    ensures CalculateHydration(weightKg, "moderate").value <= CalculateHydration(weightKg, "high").value
  {
    RoundMonotone(weightKg * 30.0 * 1.0, weightKg * 30.0 * 1.2);
    RoundMonotone(weightKg * 30.0 * 1.2, weightKg * 30.0 * 1.5);
  }

  /** The hydration button: an empty or zero weight clears the result; otherwise it
      is replaced when a value is produced and kept otherwise. */
  function HydrationButton(weightInput: Option<real>, activity: string, shown: Option<int>): (r: Option<int>)
    ensures (weightInput.None? || weightInput.value == 0.0) ==> r.None?
    ensures weightInput.Some? && weightInput.value < 0.0 ==> r == shown
    ensures weightInput.Some? && weightInput.value > 0.0 ==> r == CalculateHydration(weightInput.value, activity)
  {
    if weightInput.None? || weightInput.value == 0.0 then None
    else
      var computed := CalculateHydration(weightInput.value, activity);
      if computed.Some? then computed else shown
  }
}
