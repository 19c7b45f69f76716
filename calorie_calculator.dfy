/** The daily calorie calculator, src/components/website/CalorieCalculator.tsx.

    The form is checked against its schema; only a form that passes reaches
    `onSubmit`, which applies the Mifflin-St Jeor equation and an activity multiplier
    and shows the rounded total daily energy expenditure. */
module CalorieCalculator {
  import opened Js

  datatype Gender = Male | Female

  datatype Activity = Sedentary | Light | Moderate | Active | VeryActive

  /** The raw form values. */
  datatype FormInput = FormInput(weight: real, height: real, age: real, gender: string, activity: string)

  /** A form that passed the schema. */
  datatype Form = Form(weight: real, height: real, age: real, gender: Gender, activity: Activity)

  function ParseGender(s: string): (g: Option<Gender>)
    ensures g == Some(Male) <==> s == "male"
    ensures g == Some(Female) <==> s == "female"
    ensures g.None? <==> s !in {"male", "female"}
  {
    if s == "male" then Some(Male) else if s == "female" then Some(Female) else None
  }

  function ParseActivity(s: string): (a: Option<Activity>)
    ensures a.None? <==> s !in {"sedentary", "light", "moderate", "active", "very_active"}
    ensures a == Some(Sedentary) <==> s == "sedentary"
    ensures a == Some(Light) <==> s == "light"
    ensures a == Some(Moderate) <==> s == "moderate"
    ensures a == Some(Active) <==> s == "active"
    ensures a == Some(VeryActive) <==> s == "very_active"
  {
    if s == "sedentary" then Some(Sedentary)
    else if s == "light" then Some(Light)
    else if s == "moderate" then Some(Moderate)
    else if s == "active" then Some(Active)
    else if s == "very_active" then Some(VeryActive)
    else None
  }

  /** The numeric bounds of the schema; both ends are accepted. */
  predicate InBounds(input: FormInput)
  {
    20.0 <= input.weight <= 300.0 && 100.0 <= input.height <= 250.0 && 10.0 <= input.age <= 100.0
  }

  /** The schema: the form is accepted exactly when every number is within its bounds
      and both choices are among the listed ones. */
  function Validate(input: FormInput): (r: Option<Form>)
    ensures r.Some? <==> InBounds(input) && ParseGender(input.gender).Some? && ParseActivity(input.activity).Some?
    ensures r.Some? ==>
              r.value.weight == input.weight && r.value.height == input.height && r.value.age == input.age &&
              Some(r.value.gender) == ParseGender(input.gender) && Some(r.value.activity) == ParseActivity(input.activity)
  {
    var g := ParseGender(input.gender);
    var a := ParseActivity(input.activity);
    if InBounds(input) && g.Some? && a.Some? then Some(Form(input.weight, input.height, input.age, g.value, a.value))
    else None
  }

  /** The basal metabolic rate in kcal/day. */
  function Bmr(f: Form): (kcal: real)
    ensures f.gender == Male ==> kcal == 10.0 * f.weight + 6.25 * f.height - 5.0 * f.age + 5.0
    ensures f.gender == Female ==> kcal == 10.0 * f.weight + 6.25 * f.height - 5.0 * f.age - 161.0
  {
    var base := 10.0 * f.weight + 6.25 * f.height - 5.0 * f.age;
    if f.gender == Male then base + 5.0 else base - 161.0
  }

  function Multiplier(a: Activity): (m: real)
    ensures a == Sedentary ==> m == 1.2
    ensures a == Light ==> m == 1.375
    ensures a == Moderate ==> m == 1.55
    ensures a == Active ==> m == 1.725
    ensures a == VeryActive ==> m == 1.9
    ensures m >= 1.2
  {
    match a
    case Sedentary => 1.2
    case Light => 1.375
    case Moderate => 1.55
    case Active => 1.725
    case VeryActive => 1.9
  }

  /** The position of an activity level, least active first. */
  function Level(a: Activity): nat
  {
    match a
    case Sedentary => 0
    case Light => 1
    case Moderate => 2
    case Active => 3
    case VeryActive => 4
  }

  /** The multipliers grow with the activity level. */
  lemma MultiplierIncreasing(a1: Activity, a2: Activity)
    requires Level(a1) < Level(a2)
    ensures Multiplier(a1) < Multiplier(a2)
  {
  }

  /** The shown result: BMR times the activity multiplier, rounded. */
  function Tdee(f: Form): (kcal: int)
    ensures Bmr(f) * Multiplier(f.activity) - 0.5 < kcal as real <= Bmr(f) * Multiplier(f.activity) + 0.5
  {
    Round(Bmr(f) * Multiplier(f.activity))
  }

  /** Submitting: a rejected form leaves the shown result alone; an accepted one
      replaces it with the TDEE. */
  function Submit(input: FormInput, shown: Option<int>): (r: Option<int>)
    ensures Validate(input).None? ==> r == shown
    ensures Validate(input).Some? ==> r == Some(Tdee(Validate(input).value))
  {
    var form := Validate(input);
    if form.Some? then Some(Tdee(form.value)) else shown
  }

  /** With everything else equal, the male BMR is the female one plus 166. */
  lemma MaleFemaleDifference(f: Form)
    ensures Bmr(f.(gender := Male)) == Bmr(f.(gender := Female)) + 166.0
  {
  }

  /** Every accepted form has a BMR of at least 164 kcal (20 kg, 100 cm, 100 years,
      female). */
  lemma BmrPositiveOnValidForms(input: FormInput)
    requires Validate(input).Some?
    ensures Bmr(Validate(input).value) >= 164.0
  {
  }

  lemma TdeeMonotoneInBmr(f1: Form, f2: Form)
    requires f1.activity == f2.activity && Bmr(f1) <= Bmr(f2)
    ensures Tdee(f1) <= Tdee(f2)
  {
    var m := Multiplier(f1.activity);
    assert Bmr(f1) * m <= Bmr(f2) * m;
    RoundMonotone(Bmr(f1) * m, Bmr(f2) * m);
  }

  /** More weight never lowers the result. */
  lemma TdeeMonotoneInWeight(f: Form, weight: real)
    requires f.weight <= weight
    ensures Tdee(f) <= Tdee(f.(weight := weight))
  {
    TdeeMonotoneInBmr(f, f.(weight := weight));
  }

  /** More height never lowers the result. */
  lemma TdeeMonotoneInHeight(f: Form, height: real)
    requires f.height <= height
    ensures Tdee(f) <= Tdee(f.(height := height))
  {
    TdeeMonotoneInBmr(f, f.(height := height));
  }

  /** Being older never raises the result. */
  lemma TdeeNonIncreasingInAge(f: Form, age: real)
    requires f.age <= age
    ensures Tdee(f.(age := age)) <= Tdee(f)
  {
    TdeeMonotoneInBmr(f.(age := age), f);
  }

  /** On an accepted form, a more active level never lowers the result. */
  lemma TdeeMonotoneInActivity(input: FormInput, activity: Activity)
    requires Validate(input).Some?
    requires Level(Validate(input).value.activity) <= Level(activity)
    ensures Tdee(Validate(input).value) <= Tdee(Validate(input).value.(activity := activity))
  {
    var f := Validate(input).value;
    BmrPositiveOnValidForms(input);
    if Level(f.activity) < Level(activity) {
      MultiplierIncreasing(f.activity, activity);
    }
    assert Bmr(f.(activity := activity)) == Bmr(f);
    RoundedProductMonotone(Bmr(f), Multiplier(f.activity), Multiplier(activity));
  }

  lemma RoundedProductMonotone(b: real, m1: real, m2: real)
    requires b >= 0.0 && m1 <= m2
    ensures Round(b * m1) <= Round(b * m2)
  {
    assert b * m1 <= b * m2;
    RoundMonotone(b * m1, b * m2);
  }
}
