/**
 * Java's `Math` functions the formulas call. They are not computed here: a
 * formula takes the functions as a parameter, and a property that depends on
 * their values states what it needs of them at the point it uses.
 */
module JavaMath {
  datatype MathLib = MathLib(sqrt: real -> real, pow: (real, real) -> real, log10: real -> real)

  /** `Math.PI`, the double closest to pi, as its shortest decimal. */
  const PI: real := 3.141592653589793

  /** `sqrt` returns the non-negative square root of `x`. */
  predicate IsSqrtAt(m: MathLib, x: real)
  {
    m.sqrt(x) >= 0.0 && m.sqrt(x) * m.sqrt(x) == x
  }
}

/** Body mass index and its inversions: `BMICalculator`. */
module BMICalculator {
  import opened Outcomes
  import opened BodyMetric
  import opened JavaMath
  import UnitConvertor
  import BasicBodyParameterValidator
  import HealthMetricValidator

  /** The private `validateBasicParameters`: the weight first, then the height. */
  function ValidateBasicParameters(weight: real, height: real): (r: Check)
    ensures r.Ok? <==> WEIGHT.IsValid(weight) && HEIGHT.IsValid(height)
    ensures r.IsFailure() ==> r == (if !WEIGHT.IsValid(weight) then BasicBodyParameterValidator.ValidateWeight(weight)
                                    else BasicBodyParameterValidator.ValidateHeight(height))
  {
    var _ :- BasicBodyParameterValidator.ValidateWeight(weight);
    BasicBodyParameterValidator.ValidateHeight(height)
  }

  /**
   * `calculateBMI`: weight (kg) over the square of the height in metres; the
   * weight must lie in [2, 635] kg and the height in [50, 272] cm.
   */
  function CalculateBMI(weight: real, height: real): (r: Outcome<real>)
    ensures r.Ok? <==> WEIGHT.IsValid(weight) && HEIGHT.IsValid(height)
    ensures r.IsFailure() ==> r == ValidateBasicParameters(weight, height).PropagateFailure()
    ensures r.Ok? ==> (r.value > 0.0 &&
      r.value * UnitConvertor.CmToMetre(height) * UnitConvertor.CmToMetre(height) == weight)
  {
    var _ :- ValidateBasicParameters(weight, height);
    var heightInMetre := UnitConvertor.CmToMetre(height);
    Ok(weight / heightInMetre / heightInMetre)
  }

  /**
   * `calculateWeightByBMI`: the weight that has the given BMI at the given
   * height; the BMI is checked first, then the height.
   */
  function CalculateWeightByBMI(bmi: real, height: real): (r: Outcome<real>)
    ensures r.Ok? <==> BMI.IsValid(bmi) && HEIGHT.IsValid(height)
    ensures !BMI.IsValid(bmi) ==> r == HealthMetricValidator.ValidateBMI(bmi).PropagateFailure()
    ensures BMI.IsValid(bmi) && !HEIGHT.IsValid(height) ==>
      r == BasicBodyParameterValidator.ValidateHeight(height).PropagateFailure()
    ensures r.Ok? ==> (r.value > 0.0 &&
      r.value / UnitConvertor.CmToMetre(height) / UnitConvertor.CmToMetre(height) == bmi)
  {
    var _ :- HealthMetricValidator.ValidateBMI(bmi);
    var _ :- BasicBodyParameterValidator.ValidateHeight(height);
    var heightInMetre := UnitConvertor.CmToMetre(height);
    var weight := bmi * heightInMetre * heightInMetre;
    assert weight / heightInMetre == bmi * heightInMetre;
    Ok(weight)
  }

  /**
   * `calculateHeightByBMI`: the height (cm) whose square in metres is the
   * weight over the BMI; the BMI is checked first, then the weight.
   */
  function CalculateHeightByBMI(bmi: real, weight: real, m: MathLib): (r: Outcome<real>)
    ensures r.Ok? <==> BMI.IsValid(bmi) && WEIGHT.IsValid(weight)
    ensures !BMI.IsValid(bmi) ==> r == HealthMetricValidator.ValidateBMI(bmi).PropagateFailure()
    ensures BMI.IsValid(bmi) && !WEIGHT.IsValid(weight) ==>
      r == BasicBodyParameterValidator.ValidateWeight(weight).PropagateFailure()
    ensures r.Ok? ==> UnitConvertor.CmToMetre(r.value) == m.sqrt(weight / bmi)
  {
    var _ :- HealthMetricValidator.ValidateBMI(bmi);
    var _ :- BasicBodyParameterValidator.ValidateWeight(weight);
    var heightInMetre := m.sqrt(weight / bmi);
    Ok(UnitConvertor.MetreToCm(heightInMetre))
  }

  /** The weight recovered from a valid BMI at the same height is the weight it was computed from. */
  lemma WeightByBMIInvertsBMI(weight: real, height: real)
    requires CalculateBMI(weight, height).Ok? && BMI.IsValid(CalculateBMI(weight, height).value)
    ensures CalculateWeightByBMI(CalculateBMI(weight, height).value, height) == Ok(weight)
  {
  }

  /** The BMI of a valid weight obtained from a BMI is that BMI. */
  lemma BMIInvertsWeightByBMI(bmi: real, height: real)
    requires CalculateWeightByBMI(bmi, height).Ok? && WEIGHT.IsValid(CalculateWeightByBMI(bmi, height).value)
    ensures CalculateBMI(CalculateWeightByBMI(bmi, height).value, height) == Ok(bmi)
  {
    var hm := UnitConvertor.CmToMetre(height);
    var w := CalculateWeightByBMI(bmi, height).value;
    assert w / hm / hm == bmi;
  }

  /**
   * When `sqrt` is exact at the point used, the height obtained from a BMI
   * and a weight gives back that BMI for that weight.
   */
  lemma BMIInvertsHeightByBMI(bmi: real, weight: real, m: MathLib)
    requires CalculateHeightByBMI(bmi, weight, m).Ok?
    requires IsSqrtAt(m, weight / bmi)
    requires HEIGHT.IsValid(CalculateHeightByBMI(bmi, weight, m).value)
    ensures CalculateBMI(weight, CalculateHeightByBMI(bmi, weight, m).value) == Ok(bmi)
  {
    var h := CalculateHeightByBMI(bmi, weight, m).value;
    var hm := UnitConvertor.CmToMetre(h);
    assert hm == m.sqrt(weight / bmi);
    assert hm * hm == weight / bmi;
    var b := CalculateBMI(weight, h).value;
    var square := hm * hm;
    assert b * square == weight;
    assert bmi * square == weight;
    Cancel(b, bmi, square);
  }

  /** Helper: a non-zero common factor cancels. */
  lemma Cancel(x: real, y: real, k: real)
    requires k != 0.0 && x * k == y * k
    ensures x == y
  {
    assert (x - y) * k == 0.0;
  }

  /** A BMI computed from valid inputs can still fall outside the BMI range [10, 180]. */
  lemma BMICanLeaveItsRange()
    ensures CalculateBMI(2.0, 272.0).Ok? && !BMI.IsValid(CalculateBMI(2.0, 272.0).value)
    ensures CalculateBMI(635.0, 50.0).Ok? && !BMI.IsValid(CalculateBMI(635.0, 50.0).value)
  {
  }
}

/** Waist-to-hip ratio: `WHRCalculator`. */
module WHRCalculator {
  import opened Outcomes
  import opened BodyMetric
  import BasicBodyParameterValidator

  /** The private `validateBasicParameters`: the waist first, then the hip. */
  function ValidateBasicParameters(waistCircumference: real, hipCircumference: real): (r: Check)
    ensures r.Ok? <==> WAIST_CIRCUMFERENCE.IsValid(waistCircumference) && HIP_CIRCUMFERENCE.IsValid(hipCircumference)
    ensures r.IsFailure() ==> r == (if !WAIST_CIRCUMFERENCE.IsValid(waistCircumference)
                                    then BasicBodyParameterValidator.ValidateWaistCircumference(waistCircumference)
                                    else BasicBodyParameterValidator.ValidateHipCircumference(hipCircumference))
  {
    var _ :- BasicBodyParameterValidator.ValidateWaistCircumference(waistCircumference);
    BasicBodyParameterValidator.ValidateHipCircumference(hipCircumference)
  }

  /** `calculateWHR`: the waist as a multiple of the hip. */
  function CalculateWHR(waistCircumference: real, hipCircumference: real): (r: Outcome<real>)
    ensures r.Ok? <==> WAIST_CIRCUMFERENCE.IsValid(waistCircumference) && HIP_CIRCUMFERENCE.IsValid(hipCircumference)
    ensures r.IsFailure() ==> r == ValidateBasicParameters(waistCircumference, hipCircumference).PropagateFailure()
    ensures r.Ok? ==> r.value * hipCircumference == waistCircumference
  {
    var _ :- ValidateBasicParameters(waistCircumference, hipCircumference);
    Ok(waistCircumference / hipCircumference)
  }

  /**
   * Every computed ratio lies between 40/244 and 302/50, which is wider
   * than the WHR range [0.5, 1.5] the validators accept.
   */
  lemma {:induction false} WHRBounds(waist: real, hip: real)
    requires CalculateWHR(waist, hip).Ok?
    ensures 40.0 / 244.0 <= CalculateWHR(waist, hip).value <= 302.0 / 50.0
  {
    var r := CalculateWHR(waist, hip).value;
    assert r == waist / hip;
    RatioBounds(waist, hip);
  }

  /** Helper: the ratio of two values in the waist and hip ranges. */
  lemma RatioBounds(waist: real, hip: real)
    requires 40.0 <= waist <= 302.0 && 50.0 <= hip <= 244.0
    ensures 40.0 / 244.0 <= waist / hip <= 302.0 / 50.0
  {
    var r := waist / hip;
    assert r * hip == waist;
    Scale(r, hip, 50.0, 244.0);
    assert r * 50.0 <= r * hip <= r * 244.0;
    assert r * 244.0 >= 40.0;
    assert r * 50.0 <= 302.0;
  }

  /** Helper: a positive factor keeps the order of a product. */
  lemma Scale(r: real, x: real, lo: real, hi: real)
    requires r > 0.0 && lo <= x <= hi
    ensures r * lo <= r * x <= r * hi
  {
  }

  /** The extreme inputs give ratios outside the WHR range. */
  lemma WHRCanLeaveItsRange()
    ensures CalculateWHR(302.0, 50.0) == Ok(302.0 / 50.0) && !WHR.IsValid(302.0 / 50.0)
    ensures CalculateWHR(40.0, 244.0) == Ok(40.0 / 244.0) && !WHR.IsValid(40.0 / 244.0)
  {
  }
}

/** Body roundness index: `BRICalculator`. */
module BRICalculator {
  import opened Outcomes
  import opened BodyMetric
  import opened JavaMath
  import BasicBodyParameterValidator

  /** The private `validateBasicParameters`: the waist first, then the height. */
  function ValidateBasicParameters(waistCircumference: real, height: real): (r: Check)
    ensures r.Ok? <==> WAIST_CIRCUMFERENCE.IsValid(waistCircumference) && HEIGHT.IsValid(height)
    ensures r.IsFailure() ==> r == (if !WAIST_CIRCUMFERENCE.IsValid(waistCircumference)
                                    then BasicBodyParameterValidator.ValidateWaistCircumference(waistCircumference)
                                    else BasicBodyParameterValidator.ValidateHeight(height))
  {
    var _ :- BasicBodyParameterValidator.ValidateWaistCircumference(waistCircumference);
    BasicBodyParameterValidator.ValidateHeight(height)
  }

  /** The ratio `waist / PI / height`: the waist's diameter over the height. */
  function Fraction(waistCircumference: real, height: real): (f: real)
    requires height > 0.0
    ensures f * PI * height == waistCircumference
  {
    waistCircumference / PI / height
  }

  /** The argument of the square root: `1 - pow(fraction, 2)`. */
  function Radicand(waistCircumference: real, height: real, m: MathLib): real
    requires height > 0.0
  {
    1.0 - m.pow(Fraction(waistCircumference, height), 2.0)
  }

  /**
   * `calculateBRI`: 364.2 minus 365.5 times the square root of the radicand;
   * the waist is checked first, then the height.
   */
  function CalculateBRI(waistCircumference: real, height: real, m: MathLib): (r: Outcome<real>)
    ensures r.Ok? <==> WAIST_CIRCUMFERENCE.IsValid(waistCircumference) && HEIGHT.IsValid(height)
    ensures r.IsFailure() ==> r == ValidateBasicParameters(waistCircumference, height).PropagateFailure()
    ensures r.Ok? ==> (r.value < 0.0 <==> m.sqrt(Radicand(waistCircumference, height, m)) > 364.2 / 365.5)
    ensures r.Ok? ==> (364.2 - r.value) / 365.5 == m.sqrt(Radicand(waistCircumference, height, m))
  {
    var _ :- ValidateBasicParameters(waistCircumference, height);
    var fraction := Fraction(waistCircumference, height);
    Ok(364.2 - 365.5 * m.sqrt(1.0 - m.pow(fraction, 2.0)))
  }

  /**
   * Nothing guards the square root: at waist 302 cm and height 50 cm the
   * fraction exceeds 1, so with `pow` squaring there the radicand is negative.
   */
  lemma RadicandCanBeNegative(m: MathLib)
    requires m.pow(Fraction(302.0, 50.0), 2.0) == Fraction(302.0, 50.0) * Fraction(302.0, 50.0)
    ensures CalculateBRI(302.0, 50.0, m).Ok?
    ensures Fraction(302.0, 50.0) > 1.0 && Radicand(302.0, 50.0, m) < 0.0
  {
    var f := Fraction(302.0, 50.0);
    assert f * PI * 50.0 == 302.0;
    assert f > 1.0;
    assert f * f > 1.0;
  }

  /**
   * Wherever the square root is defined (a fraction of at most 1, so a
   * radicand in [0, 1]), the root lies in [0, 1] and the index in
   * [364.2 - 365.5, 364.2] = [-1.3, 364.2].
   */
  lemma {:induction false} BRIBounds(waist: real, height: real, m: MathLib)
    requires WAIST_CIRCUMFERENCE.IsValid(waist) && HEIGHT.IsValid(height)
    requires m.pow(Fraction(waist, height), 2.0) == Fraction(waist, height) * Fraction(waist, height)
    requires IsSqrtAt(m, Radicand(waist, height, m))
    ensures 0.0 <= Radicand(waist, height, m) <= 1.0
    ensures -1.3 <= CalculateBRI(waist, height, m).value <= 364.2
  {
    var f := Fraction(waist, height);
    var s := m.sqrt(Radicand(waist, height, m));
    assert f * f >= 0.0;
    assert 0.0 <= s * s <= 1.0;
    assert 0.0 <= s <= 1.0;
    assert CalculateBRI(waist, height, m).value == 364.2 - 365.5 * s;
  }

  /**
   * A fraction near zero gives a square root near 1 and an index near
   * 364.2 - 365.5 = -1.3, below the BRI range's lower bound 0.
   */
  lemma SmallFractionLeavesRange(waist: real, height: real, m: MathLib)
    requires CalculateBRI(waist, height, m).Ok?
    requires m.sqrt(Radicand(waist, height, m)) == 1.0
    ensures CalculateBRI(waist, height, m).value == -1.3
    ensures !BRI.IsValid(CalculateBRI(waist, height, m).value)
  {
  }
}

/** Total daily energy expenditure: `TDEECalculator`. */
module TDEECalculator {
  import opened Outcomes
  import opened BodyMetric
  import BasicBodyParameterValidator
  import HealthMetricValidator

  /** The private `validateBasicParameters`: the BMR first, then the activity coefficient. */
  function ValidateBasicParameters(bmr: real, activityCoefficient: real): (r: Check)
    ensures r.Ok? <==> BMR.IsValid(bmr) && ACTIVITY_COEFFICIENT.IsValid(activityCoefficient)
    ensures r.IsFailure() ==> r == (if !BMR.IsValid(bmr) then HealthMetricValidator.ValidateBMR(bmr)
                                    else BasicBodyParameterValidator.ValidateActivityCoefficient(activityCoefficient))
  {
    var _ :- HealthMetricValidator.ValidateBMR(bmr);
    BasicBodyParameterValidator.ValidateActivityCoefficient(activityCoefficient)
  }

  /** `calculateTDEE`: the BMR scaled by the activity coefficient. */
  function CalculateTDEE(bmr: real, activityCoefficient: real): (r: Outcome<real>)
    ensures r.Ok? <==> BMR.IsValid(bmr) && ACTIVITY_COEFFICIENT.IsValid(activityCoefficient)
    ensures r.IsFailure() ==> r == ValidateBasicParameters(bmr, activityCoefficient).PropagateFailure()
    ensures r.Ok? ==> r.value / activityCoefficient == bmr
  {
    var _ :- ValidateBasicParameters(bmr, activityCoefficient);
    var tdee := bmr * activityCoefficient;
    assert tdee / activityCoefficient == bmr by {
      assert activityCoefficient > 0.0;
    }
    Ok(tdee)
  }

  /** The TDEE is at least the BMR and at most 2.6 times it, so up to 26000 kcal/day. */
  lemma {:induction false} TDEEBounds(bmr: real, activity: real)
    requires CalculateTDEE(bmr, activity).Ok?
    ensures bmr <= CalculateTDEE(bmr, activity).value <= 2.6 * bmr
    ensures 500.0 <= CalculateTDEE(bmr, activity).value <= 26000.0
  {
    var t := CalculateTDEE(bmr, activity).value;
    assert t == bmr * activity;
    assert bmr * 1.0 <= bmr * activity <= bmr * 2.6;
  }

  /** A valid BMR and coefficient can give a TDEE above the TDEE range's upper bound 15000. */
  lemma TDEECanLeaveItsRange()
    ensures CalculateTDEE(10000.0, 2.6) == Ok(26000.0) && !TDEE.IsValid(26000.0)
  {
  }
}
