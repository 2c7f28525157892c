/** Null and range checks on method arguments: `MethodParameterValidator`. */
module MethodParameterValidator {
  import opened Outcomes
  import opened Entity

  /** `validateUser`: throws NullPointerException for a `null` user. */
  function ValidateUser(user: User?): (r: Check)
    ensures r.Ok? <==> user != null
    ensures r.IsFailure() ==> r == NullPtr
  {
    if user == null then NullPtr else Pass
  }

  /** `validateScanner`: throws NullPointerException for a `null` scanner. */
  function ValidateScanner(scanner: Scanner?): (r: Check)
    ensures r.Ok? <==> scanner != null
    ensures r.IsFailure() ==> r == NullPtr
  {
    if scanner == null then NullPtr else Pass
  }

  /** `validateUserAndScanner`: the user first, then the scanner. */
  function ValidateUserAndScanner(user: User?, scanner: Scanner?): (r: Check)
    ensures r.Ok? <==> user != null && scanner != null
    ensures r.IsFailure() ==> r == NullPtr
  {
    var _ :- ValidateUser(user);
    ValidateScanner(scanner)
  }

  /**
   * `validateRange`: both bounds non-null (lower checked first) and the lower
   * strictly below the upper.
   */
  function ValidateRange(lowerBound: Nullable<real>, upperBound: Nullable<real>): (r: Check)
    ensures r.Ok? <==> lowerBound.NonNull? && upperBound.NonNull? && lowerBound.get < upperBound.get
    ensures r == NullPtr <==> lowerBound.Null? || upperBound.Null?
    ensures lowerBound.NonNull? && upperBound.NonNull? && lowerBound.get >= upperBound.get ==>
      r == IllegalArg(RangeNotIncreasing(lowerBound.get, upperBound.get))
  {
    if lowerBound.Null? || upperBound.Null? then NullPtr
    else if lowerBound.get >= upperBound.get then IllegalArg(RangeNotIncreasing(lowerBound.get, upperBound.get))
    else Pass
  }
}

/** Range checks on the measured body parameters: `BasicBodyParameterValidator`. */
module BasicBodyParameterValidator {
  import opened Outcomes
  import opened BodyMetric
  import Gender

  /**
   * `validateGender`: a `null` gender throws NullPointerException and an
   * unrecognised one IllegalArgumentException listing the valid options.
   */
  function ValidateGender(gender: Nullable<string>): (r: Check)
    ensures r.Ok? <==> Gender.IsValidGender(gender)
    ensures gender.Null? ==> r == NullPtr
    ensures gender.NonNull? && r.IsFailure() ==> r == IllegalArg(GenderNotAllowed(["女", "男"]))
  {
    if gender.Null? then NullPtr
    else if !Gender.IsValidGender(gender) then IllegalArg(GenderNotAllowed(Gender.ValidGenderOptions()))
    else Pass
  }

  /** `validateAge`: a whole number of years from 1 to 122. */
  function ValidateAge(age: int): (r: Check)
    ensures r.Ok? <==> 1 <= age <= 122
    ensures r.IsFailure() ==> r == IllegalArg(AgeOutOfRange(RangeText(1.0, 122.0, 0)))
  {
    AgeRange(age);
    if !AGE.IsValidInt(age) then
      var range := AGE.FormattedClosedRange().value;
      IllegalArg(AgeOutOfRange(range))
    else Pass
  }

  /** `validateWeight`: the weight must lie in [2.0, 635.0]. */
  function ValidateWeight(weight: real): (r: Check)
    ensures r.Ok? <==> 2.0 <= weight <= 635.0
    ensures r.IsFailure() ==> r == IllegalArg(OutOfRange("WT", RangeText(2.0, 635.0, 1), "kg"))
  {
    ValidateBasicBodyParameter(WEIGHT, weight)
  }

  /** `validateHeight`: the height must lie in [50.0, 272.0]. */
  function ValidateHeight(height: real): (r: Check)
    ensures r.Ok? <==> 50.0 <= height <= 272.0
    ensures r.IsFailure() ==> r == IllegalArg(OutOfRange("HT", RangeText(50.0, 272.0, 1), "cm"))
  {
    ValidateBasicBodyParameter(HEIGHT, height)
  }

  /** `validateWaistCircumference`: the waist circumference must lie in [40.0, 302.0]. */
  function ValidateWaistCircumference(waistCircumference: real): (r: Check)
    ensures r.Ok? <==> 40.0 <= waistCircumference <= 302.0
    ensures r.IsFailure() ==> r == IllegalArg(OutOfRange("WC", RangeText(40.0, 302.0, 1), "cm"))
  {
    ValidateBasicBodyParameter(WAIST_CIRCUMFERENCE, waistCircumference)
  }

  /** `validateHipCircumference`: the hip circumference must lie in [50.0, 244.0]. */
  function ValidateHipCircumference(hipCircumference: real): (r: Check)
    ensures r.Ok? <==> 50.0 <= hipCircumference <= 244.0
    ensures r.IsFailure() ==> r == IllegalArg(OutOfRange("HC", RangeText(50.0, 244.0, 1), "cm"))
  {
    ValidateBasicBodyParameter(HIP_CIRCUMFERENCE, hipCircumference)
  }

  /** `validateNeckCircumference`: the neck circumference must lie in [20.0, 60.0]. */
  function ValidateNeckCircumference(neckCircumference: real): (r: Check)
    ensures r.Ok? <==> 20.0 <= neckCircumference <= 60.0
    ensures r.IsFailure() ==> r == IllegalArg(OutOfRange("NC", RangeText(20.0, 60.0, 1), "cm"))
  {
    ValidateBasicBodyParameter(NECK_CIRCUMFERENCE, neckCircumference)
  }

  /** `validateArmCircumference`: the arm circumference must lie in [15.0, 45.0]. */
  function ValidateArmCircumference(armCircumference: real): (r: Check)
    ensures r.Ok? <==> 15.0 <= armCircumference <= 45.0
    ensures r.IsFailure() ==> r == IllegalArg(OutOfRange("AC", RangeText(15.0, 45.0, 1), "cm"))
  {
    ValidateBasicBodyParameter(ARM_CIRCUMFERENCE, armCircumference)
  }

  /** `validateActivityCoefficient`: the activity coefficient must lie in [1.0, 2.6]. */
  function ValidateActivityCoefficient(activityCoefficient: real): (r: Check)
    ensures r.Ok? <==> 1.0 <= activityCoefficient <= 2.6
    ensures r.IsFailure() ==> r == IllegalArg(OutOfRange("AC", RangeText(1.0, 2.6, 1), ""))
  {
    ValidateBasicBodyParameter(ACTIVITY_COEFFICIENT, activityCoefficient)
  }

  /**
   * The private `validateBasicBodyParameter`: the value lies in the
   * parameter's range, or the message names its abbreviation, range and unit.
   */
  function ValidateBasicBodyParameter(p: BasicBodyParameter, value: real): (r: Check)
    ensures r.Ok? <==> p.IsValid(value)
    ensures r.IsFailure() ==> r.IllegalArg? && r.cause.OutOfRange? && r.cause.name == p.Abbreviation()
                              && r.cause.range.lower == p.MinValue() && r.cause.range.upper == p.MaxValue()
                              && r.cause.unit == p.Unit()
  {
    if !p.IsValid(value) then
      var range := p.FormattedClosedRange().value;
      IllegalArg(OutOfRange(p.Abbreviation(), range, p.Unit()))
    else Pass
  }
}

/** Range checks on the derived health metrics: `HealthMetricValidator`. */
module HealthMetricValidator {
  import opened Outcomes
  import opened BodyMetric

  /** `validateBMI`: the BMI must lie in [10.0, 180.0]. */
  function ValidateBMI(bmi: real): (r: Check)
    ensures r.Ok? <==> 10.0 <= bmi <= 180.0
    ensures r.IsFailure() ==> r == IllegalArg(OutOfRange("BMI", RangeText(10.0, 180.0, 1), "kg/m²"))
  {
    ValidateHealthMetric(BMI, bmi)
  }

  /** `validateWHR`: the WHR must lie in [0.5, 1.5]. */
  function ValidateWHR(whr: real): (r: Check)
    ensures r.Ok? <==> 0.5 <= whr <= 1.5
    ensures r.IsFailure() ==> r == IllegalArg(OutOfRange("WHR", RangeText(0.5, 1.5, 1), ""))
  {
    ValidateHealthMetric(WHR, whr)
  }

  /** `validateBFR`: the BFR must lie in [3.0, 60.0]. */
  function ValidateBFR(bfr: real): (r: Check)
    ensures r.Ok? <==> 3.0 <= bfr <= 60.0
    ensures r.IsFailure() ==> r == IllegalArg(OutOfRange("BFR", RangeText(3.0, 60.0, 1), "%"))
  {
    ValidateHealthMetric(BFR, bfr)
  }

  /** `validateBRI`: the BRI must lie in [0.0, 100.0]. */
  function ValidateBRI(bri: real): (r: Check)
    ensures r.Ok? <==> 0.0 <= bri <= 100.0
    ensures r.IsFailure() ==> r == IllegalArg(OutOfRange("BRI", RangeText(0.0, 100.0, 1), ""))
  {
    ValidateHealthMetric(BRI, bri)
  }

  /** `validateBMR`: the BMR must lie in [500.0, 10000.0]. */
  function ValidateBMR(bmr: real): (r: Check)
    ensures r.Ok? <==> 500.0 <= bmr <= 10000.0
    ensures r.IsFailure() ==> r == IllegalArg(OutOfRange("BMR", RangeText(500.0, 10000.0, 1), "kcal/day"))
  {
    ValidateHealthMetric(BMR, bmr)
  }

  /** `validateTDEE`: the TDEE must lie in [800.0, 15000.0]. */
  function ValidateTDEE(tdee: real): (r: Check)
    ensures r.Ok? <==> 800.0 <= tdee <= 15000.0
    ensures r.IsFailure() ==> r == IllegalArg(OutOfRange("TDEE", RangeText(800.0, 15000.0, 1), "kcal/day"))
  {
    ValidateHealthMetric(TDEE, tdee)
  }

  /** `validateBSA`: the BSA must lie in [0.2, 3.0]. */
  function ValidateBSA(bsa: real): (r: Check)
    ensures r.Ok? <==> 0.2 <= bsa <= 3.0
    ensures r.IsFailure() ==> r == IllegalArg(OutOfRange("BSA", RangeText(0.2, 3.0, 1), "m²"))
  {
    ValidateHealthMetric(BSA, bsa)
  }

  /**
   * The private `validateHealthMetric`: the value lies in the metric's range,
   * or the message names its abbreviation, range and unit.
   */
  function ValidateHealthMetric(m: HealthMetric, value: real): (r: Check)
    ensures r.Ok? <==> m.IsValid(value)
    ensures r.IsFailure() ==> r == IllegalArg(OutOfRange(m.Abbreviation(), RangeText(m.MinValue(), m.MaxValue(), 1), m.Unit()))
  {
    if !m.IsValid(value) then
      var range := m.FormattedClosedRange().value;
      IllegalArg(OutOfRange(m.Abbreviation(), range, m.Unit()))
    else Pass
  }
}
