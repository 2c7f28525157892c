/**
 * The first, single-file version of the calculator: `HealthCalculatorBeginnerVersion`.
 * Its arithmetic core is BMI, the 0.95-revised Mifflin-St Jeor BMR, the
 * four-way BMI category and the table of TDEE values per activity level.
 */
module HealthCalculatorBeginnerVersion {
  import opened Outcomes
  import opened TypeConvertor
  import opened BodyMetric
  import UnitConvertor
  import BMICalculator

  /** `getBMI`: the weight divided twice by the height in metres; nothing is checked. */
  function GetBMI(weightKg: real, heightCm: real): (r: real)
    requires heightCm != 0.0
    ensures r * (heightCm / 100.0) * (heightCm / 100.0) == weightKg
  {
    var heightM := heightCm / 100.0;
    weightKg / heightM / heightM
  }

  /** For valid inputs the first version's BMI is the one the later `BMICalculator` computes. */
  lemma {:induction false} BMIAgreesWithBMICalculator(weightKg: real, heightCm: real)
    requires WEIGHT.IsValid(weightKg) && HEIGHT.IsValid(heightCm)
    ensures BMICalculator.CalculateBMI(weightKg, heightCm) == Ok(GetBMI(weightKg, heightCm))
  {
    var hm := UnitConvertor.CmToMetre(heightCm);
    assert hm == heightCm / 100.0;
  }

  /** `5 * ageYear` is an `int` product in the Java code, so it wraps at 32 bits. */
  function FiveTimesAge(ageYear: Int32): (r: Int32)
    ensures -429496729 <= ageYear <= 429496729 ==> r == 5 * ageYear
  {
    Wrap(5 * ageYear)
  }

  /** The revision factor `getBMR` applies for Asian populations. */
  const ReviseRate: real := 0.95

  /** The Mifflin-St Jeor BMR with the given constant term, revised by 0.95. */
  function RevisedBMR(ageYear: Int32, constTerm: real, weightKg: real, heightCm: real): real
  {
    ReviseRate * (10.0 * weightKg + 6.25 * heightCm - FiveTimesAge(ageYear) as real + constTerm)
  }

  /**
   * `getBMR`: the common part, then +5 for "男", −161 for "女" and 0 for any
   * other string (a message is printed), then the 0.95 revision. A `null`
   * gender makes the `switch` throw.
   */
  method GetBMR(ageYear: Int32, gender: Nullable<string>, weightKg: real, heightCm: real) returns (r: Outcome<real>)
    ensures r.IsFailure() <==> gender.Null?
    ensures gender.Null? ==> r == NullPtr
    ensures gender == NonNull("男") ==> r == Ok(RevisedBMR(ageYear, 5.0, weightKg, heightCm))
    ensures gender == NonNull("女") ==> r == Ok(RevisedBMR(ageYear, -161.0, weightKg, heightCm))
    ensures gender.NonNull? && gender.get != "男" && gender.get != "女" ==> r == Ok(0.0)
  {
    if gender.Null? {
      return NullPtr;
    }
    var bmr := 10.0 * weightKg + 6.25 * heightCm - FiveTimesAge(ageYear) as real;
    if gender.get == "男" {
      bmr := bmr + 5.0;
    } else if gender.get == "女" {
      bmr := bmr - 161.0;
    } else {
      bmr := 0.0;
    }
    bmr := bmr * ReviseRate;
    return Ok(bmr);
  }

  /** At equal age, weight and height a man's BMR exceeds a woman's by 0.95 · 166 = 157.7. */
  lemma GenderGap(ageYear: Int32, weightKg: real, heightCm: real)
    ensures RevisedBMR(ageYear, 5.0, weightKg, heightCm) - RevisedBMR(ageYear, -161.0, weightKg, heightCm) == 157.7
  {
  }

  /** For a realistic age, one more year lowers the BMR by 0.95 · 5 = 4.75 for either gender. */
  lemma {:induction false} OneYearLowersBMR(ageYear: Int32, constTerm: real, weightKg: real, heightCm: real)
    requires 0 <= ageYear < 429496729
    ensures RevisedBMR(ageYear, constTerm, weightKg, heightCm) - RevisedBMR(ageYear + 1, constTerm, weightKg, heightCm) == 4.75
  {
    assert FiveTimesAge(ageYear) == 5 * ageYear;
    assert FiveTimesAge(ageYear + 1) == 5 * ageYear + 5;
  }

  /** The status and risk texts that `analyzeBMI` indexes with the category. */
  const HealthStatus: seq<string> := ["体重过低", "正常范围", "超重", "肥胖"]
  const HealthRisk: seq<string> := ["营养不良风险", "健康", "心血管疾病风险增加", "糖尿病、高血压等高风险"]

  /** The ordinals of the local enum `healthType { LOW, NORMAL, OVER, OBESE }`. */
  const Low: nat := 0
  const Normal: nat := 1
  const Over: nat := 2
  const Obese: nat := 3

  /**
   * The category index of `analyzeBMI`: obese from 28, overweight from 24,
   * normal from 18.5, low below. It always indexes both text arrays.
   */
  function BMICategoryIndex(bmi: real): (idx: nat)
    ensures idx < |HealthStatus| && idx < |HealthRisk|
    ensures idx == Obese <==> bmi >= 28.0
    ensures idx == Over <==> 24.0 <= bmi < 28.0
    ensures idx == Normal <==> 18.5 <= bmi < 24.0
    ensures idx == Low <==> bmi < 18.5
  {
    if bmi >= 28.0 then Obese
    else if bmi >= 24.0 then Over
    else if bmi >= 18.5 then Normal
    else Low
  }

  /** A larger BMI never falls in a lower category. */
  lemma CategoryIsMonotone(b1: real, b2: real)
    requires b1 <= b2
    ensures BMICategoryIndex(b1) <= BMICategoryIndex(b2)
  {
  }

  /** The category boundaries: 18.5 and 24 open the normal and overweight bands; 23.9 is still normal. */
  lemma CategoryBoundaries()
    ensures HealthStatus[BMICategoryIndex(18.5)] == "正常范围"
    ensures HealthStatus[BMICategoryIndex(23.9)] == "正常范围"
    ensures HealthStatus[BMICategoryIndex(24.0)] == "超重"
    ensures HealthRisk[BMICategoryIndex(18.49)] == "营养不良风险"
  {
  }

  /** `activityCoefficient` of `analyzeBMR`: a placeholder 0, then sedentary to very intense. */
  const ActivityCoefficients: seq<real> := [0.0, 1.2, 1.375, 1.55, 1.725, 1.9]

  /** Row `i` of the TDEE table: the BMR times the level's coefficient. */
  function TDEERow(bmr: real, i: nat): real
    requires i < |ActivityCoefficients|
  {
    bmr * ActivityCoefficients[i]
  }

  /** The `tdeeArr` fill of `analyzeBMR`: one entry per activity level. */
  method TDEETable(bmr: real) returns (tdeeArr: array<real>)
    ensures fresh(tdeeArr)
    ensures tdeeArr.Length == |ActivityCoefficients|
    ensures forall i :: 0 <= i < tdeeArr.Length ==> tdeeArr[i] == TDEERow(bmr, i)
  {
    var typeNum := |ActivityCoefficients|;
    tdeeArr := new real[typeNum];
    var i := 0;
    while i < typeNum
      invariant 0 <= i <= typeNum
      invariant forall j :: 0 <= j < i ==> tdeeArr[j] == TDEERow(bmr, j)
    {
      tdeeArr[i] := bmr * ActivityCoefficients[i];
      i := i + 1;
    }
  }

  /** The coefficients increase from the placeholder to the most intense level. */
  lemma CoefficientsIncrease(i: nat, j: nat)
    requires i < j < |ActivityCoefficients|
    ensures ActivityCoefficients[i] < ActivityCoefficients[j]
  {
  }

  /**
   * The placeholder row is always 0, and for a non-negative BMR the rows never
   * decrease with the activity level.
   */
  lemma {:induction false} TDEERowsAreOrdered(bmr: real, i: nat, j: nat)
    requires bmr >= 0.0 && i <= j < |ActivityCoefficients|
    ensures TDEERow(bmr, 0) == 0.0
    ensures TDEERow(bmr, i) <= TDEERow(bmr, j)
  {
    if i < j {
      CoefficientsIncrease(i, j);
      assert bmr * ActivityCoefficients[i] <= bmr * ActivityCoefficients[j];
    }
  }
}
