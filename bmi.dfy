/** The body-mass-index calculator: two text inputs, a validity check, the
    formula weight / height², a category decided on the unrounded value and
    a recommendation decided on the displayed, one-decimal value. Numbers are
    exact reals; floating-point rounding is not modelled. */
module Bmi {
  import opened Records

  datatype Category = Underweight | NormalWeight | Overweight | Obesity
  {
    /** Position of the category along the BMI scale. */
    function Rank(): nat
    {
      match this
      case Underweight => 0
      case NormalWeight => 1
      case Overweight => 2
      case Obesity => 3
    }
  }

  /** The text the screen shows for a category. */
  function Label(c: Category): string
  {
    match c
    case Underweight => "Underweight"
    case NormalWeight => "Normal weight"
    case Overweight => "Overweight"
    case Obesity => "Obesity"
  }

  /** Labels tell the categories apart. */
  lemma LabelInjective(c1: Category, c2: Category)
    requires Label(c1) == Label(c2)
    ensures c1 == c2
  {
  }

  /** Both parsed inputs are numbers (not NaN) and positive; the input is
      rejected exactly when either is NaN or either is at most 0. */
  predicate ValidInputs(weight: Option<real>, height: Option<real>): (b: bool)
    ensures !b <==> (weight.None? || height.None? || weight.value <= 0.0 || height.value <= 0.0)
  {
    weight.Some? && height.Some? && weight.value > 0.0 && height.value > 0.0
  }

  /** `weightNum / (heightNum * heightNum)` for valid inputs, nothing otherwise. */
  function BmiValue(weight: Option<real>, height: Option<real>): (r: Option<real>)
    ensures r.Some? <==> ValidInputs(weight, height)
    ensures r.Some? ==> r.value > 0.0 && r.value * (height.value * height.value) == weight.value
  {
    if ValidInputs(weight, height) then Some(weight.value / (height.value * height.value)) else None
  }

  /** `determineCategory` as written: Normal weight stops at 24.9, Overweight
      starts at 25 and stops at 29.9, and whatever no branch claims falls to
      the final `else`. */
  function DetermineCategory(v: real): (c: Category)
    ensures c == Underweight <==> v < 18.5
    ensures c == NormalWeight <==> 18.5 <= v < 24.9
    ensures c == Overweight <==> 25.0 <= v < 29.9
    ensures c == Obesity <==> (24.9 <= v < 25.0 || 29.9 <= v)
  {
    if v < 18.5 then Underweight
    else if v >= 18.5 && v < 24.9 then NormalWeight
    else if v >= 25.0 && v < 29.9 then Overweight
    else Obesity
  }

  /** The written thresholds do not order the categories: a value in
      [24.9, 25) is Obesity while 25 itself is Overweight. */
  lemma CategoryGapExample()
    ensures DetermineCategory(24.95) == Obesity
    ensures DetermineCategory(25.0) == Overweight
    ensures DetermineCategory(24.95).Rank() > DetermineCategory(25.0).Rank()
    ensures DetermineCategory(29.95) == Obesity
  {
  }

  /** The clean partition the thresholds stand for: below 18.5, [18.5, 25),
      [25, 30) and from 30 on. */
  function IntendedCategory(v: real): (c: Category)
    ensures c == Underweight <==> v < 18.5
    ensures c == NormalWeight <==> 18.5 <= v < 25.0
    ensures c == Overweight <==> 25.0 <= v < 30.0
    ensures c == Obesity <==> 30.0 <= v
  {
    if v < 18.5 then Underweight
    else if v < 25.0 then NormalWeight
    else if v < 30.0 then Overweight
    else Obesity
  }

  /** A larger value never gets an earlier intended category. */
  lemma IntendedCategoryMonotone(v1: real, v2: real)
    requires v1 <= v2
    ensures IntendedCategory(v1).Rank() <= IntendedCategory(v2).Rank()
  {
  }

  /** The written and intended categories differ exactly on [24.9, 25) and [29.9, 30). */
  lemma CategoryDiscrepancy(v: real)
    ensures DetermineCategory(v) != IntendedCategory(v) <==> (24.9 <= v < 25.0 || 29.9 <= v < 30.0)
  {
  }

  /** `toFixed(1)` read back as a number: the multiple of 0.1 nearest to `v`,
      the larger one on a tie. */
  function RoundToTenth(v: real): (r: real)
    requires v >= 0.0
    ensures (10.0 * r).Floor as real == 10.0 * r
    ensures v - 0.05 < r <= v + 0.05
    ensures r >= 0.0
  {
    (10.0 * v + 0.5).Floor as real / 10.0
  }

  datatype Advice = IncreaseIntake | KeepBalance | ModerateDeficit | ConsultDietitian
  {
    function Rank(): nat
    {
      match this
      case IncreaseIntake => 0
      case KeepBalance => 1
      case ModerateDeficit => 2
      case ConsultDietitian => 3
    }

    /** The text shown under the result card. */
    function Text(): string
    {
      match this
      case IncreaseIntake => "Increase calorie intake with balanced meals."
      case KeepBalance => "Maintain a balanced diet and regular exercise."
      case ModerateDeficit => "Focus on moderate calorie deficit and regular workouts."
      case ConsultDietitian => "Consult a dietitian and focus on cardio exercises."
    }
  }

  /** `getRecommendations`: the thresholds 18.5, 24.9 and 29.9 cut the reals
      into four contiguous bands, checked in order. */
  function GetRecommendation(bmi: real): (a: Advice)
    ensures a == IncreaseIntake <==> bmi < 18.5
    ensures a == KeepBalance <==> 18.5 <= bmi < 24.9
    ensures a == ModerateDeficit <==> 24.9 <= bmi < 29.9
    ensures a == ConsultDietitian <==> 29.9 <= bmi
  {
    if bmi < 18.5 then IncreaseIntake
    else if bmi < 24.9 then KeepBalance
    else if bmi < 29.9 then ModerateDeficit
    else ConsultDietitian
  }

  /** On the one-decimal values the screen displays, the bands end one tenth
      below the next threshold. */
  lemma GridBands(v: real)
    requires (10.0 * v).Floor as real == 10.0 * v
    ensures v < 18.5 <==> v <= 18.4
    ensures v < 24.9 <==> v <= 24.8
    ensures v < 29.9 <==> v <= 29.8
  {
  }

  /** The recommendation shown for a raw value: since it is decided on the
      rounded display, each band starts 0.05 below its threshold. */
  lemma RecommendationOfRaw(raw: real)
    requires raw >= 0.0
    ensures GetRecommendation(RoundToTenth(raw)) == IncreaseIntake <==> raw < 18.45
    ensures GetRecommendation(RoundToTenth(raw)) == KeepBalance <==> 18.45 <= raw < 24.85
    ensures GetRecommendation(RoundToTenth(raw)) == ModerateDeficit <==> 24.85 <= raw < 29.85
    ensures GetRecommendation(RoundToTenth(raw)) == ConsultDietitian <==> 29.85 <= raw
  {
  }

  /** A larger value never selects an earlier recommendation. */
  lemma RecommendationMonotone(v1: real, v2: real)
    requires v1 <= v2
    ensures GetRecommendation(v1).Rank() <= GetRecommendation(v2).Rank()
  {
  }

  /** The category comes from the raw value and the recommendation from the
      rounded display, so the two can disagree: 24.96 is shown as 25.0 with
      the overweight-band advice but classified as Obesity. */
  lemma CategoryAdviceDisagree()
    ensures RoundToTenth(24.96) == 25.0
    ensures DetermineCategory(24.96) == Obesity
    ensures GetRecommendation(RoundToTenth(24.96)) == ModerateDeficit
  {
  }

  /** 70 kg at 1.75 m shows 22.9 and is Normal weight; 50 kg at 1.70 m
      shows 17.3 and is Underweight. */
  lemma WorkedExamples()
    ensures BmiValue(Some(70.0), Some(1.75)).Some?
    ensures RoundToTenth(BmiValue(Some(70.0), Some(1.75)).value) == 22.9
    ensures DetermineCategory(BmiValue(Some(70.0), Some(1.75)).value) == NormalWeight
    ensures BmiValue(Some(50.0), Some(1.70)).Some?
    ensures RoundToTenth(BmiValue(Some(50.0), Some(1.70)).value) == 17.3
    ensures DetermineCategory(BmiValue(Some(50.0), Some(1.70)).value) == Underweight
  {
  }

  /** The calculator screen's four pieces of state. `bmi` is the displayed
      one-decimal value (`bmiValue.toFixed(1)`), or `null` before a result. */
  class BmiScreen {
    var weight: string
    var height: string
    var bmi: Option<real>
    var category: string

    /** A displayed value is a non-negative number with one decimal. */
    ghost predicate Valid()
      reads this
    {
      bmi.Some? ==> bmi.value >= 0.0 && (10.0 * bmi.value).Floor as real == 10.0 * bmi.value
    }

    constructor ()
      ensures weight == "" && height == "" && bmi == None && category == ""
      ensures Valid()
    {
      weight, height, bmi, category := "", "", None, "";
    }

    /** `calculateBMI`, with `parseFloat` given (None stands for NaN). On
        invalid input the alert is raised and nothing changes; otherwise the
        rounded value is shown and the category comes from the raw value. */
    method CalculateBmi(parseFloat: string -> Option<real>) returns (invalidAlert: bool)
      requires Valid()
      modifies this
      ensures Valid()
      ensures weight == old(weight) && height == old(height)
      ensures invalidAlert <==> !ValidInputs(parseFloat(old(weight)), parseFloat(old(height)))
      ensures invalidAlert ==> bmi == old(bmi) && category == old(category)
      ensures !invalidAlert ==>
        var raw := BmiValue(parseFloat(weight), parseFloat(height)).value;
        bmi == Some(RoundToTenth(raw)) && category == Label(DetermineCategory(raw))
    {
      var weightNum := parseFloat(weight);
      var heightNum := parseFloat(height);
      if !ValidInputs(weightNum, heightNum) {
        return true;
      }
      var bmiValue := weightNum.value / (heightNum.value * heightNum.value);
      assert BmiValue(weightNum, heightNum).Some?;
      assert BmiValue(weightNum, heightNum).value == bmiValue;
      bmi := Some(RoundToTenth(bmiValue));
      category := Label(DetermineCategory(bmiValue));
      return false;
    }

    /** `resetCalculator`: inputs and results back to their initial values. */
    method ResetCalculator()
      modifies this
      ensures weight == "" && height == "" && bmi == None && category == ""
      ensures Valid()
    {
      weight := "";
      height := "";
      bmi := None;
      category := "";
    }

    /** The recommendation shown with a result, `getRecommendations` of the
        displayed value. That value has one decimal, so the bands it falls in
        are closed at one tenth below the next threshold. */
    function Recommendation(): (a: Advice)
      reads this
      requires Valid() && bmi.Some?
      ensures a == GetRecommendation(bmi.value)
      ensures a == IncreaseIntake <==> bmi.value <= 18.4
      ensures a == KeepBalance <==> 18.5 <= bmi.value <= 24.8
      ensures a == ModerateDeficit <==> 24.9 <= bmi.value <= 29.8
      ensures a == ConsultDietitian <==> 29.9 <= bmi.value
    {
      GridBands(bmi.value);
      GetRecommendation(bmi.value)
    }
  }
}
