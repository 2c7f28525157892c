/** The coefficients of the body-fat-rate equations: `BFRCalculatorConstants`. */
module BFRCalculatorConstants {
  /** The coefficients of an equation linear in BMI, age and the male indicator. */
  datatype LinearCoefficients = LinearCoefficients(bmi: real, age: real, gender: real, constTerm: real)

  const DeurenbergAdult := LinearCoefficients(1.20, 0.23, -10.8, -5.4)
  const DeurenbergChild := LinearCoefficients(1.51, -0.70, -3.6, 1.4)
  const GallagherVersion1 := LinearCoefficients(1.46, 0.12, -11.61, -10.02)
  const JacksonPollockSimplified := LinearCoefficients(1.61, 0.13, -12.1, -13.9)

  /** Gallagher's second equation: linear in 1/BMI with two gender interactions. */
  const GallagherVersion2 := LinearCoefficients(-848.0, 0.079, -16.4, 64.5)
  const GallagherVersion2GenderAgeInteraction: real := 0.05
  const GallagherVersion2GenderBmiInteraction: real := 39.0

  /** The coefficients of the US Navy equation: two base-10 logarithm terms and a constant. */
  datatype LogCoefficients = LogCoefficients(logTerm1: real, logTerm2: real, constTerm: real)

  const UsnMale := LogCoefficients(86.010, -70.041, 36.76)
  const UsnFemale := LogCoefficients(163.205, -97.684, -78.387)

  /** The age from which the adult Deurenberg coefficients apply. */
  const DeurenbergAdultAge: int := 16
}

/** Body fat rate (percent): `BFRCalculator`. */
module BFRCalculator {
  import opened Outcomes
  import opened BodyMetric
  import opened JavaMath
  import opened BFRCalculatorConstants
  import Gender
  import UnitConvertor
  import BasicBodyParameterValidator
  import HealthMetricValidator

  /** The private `validateBasicParameters`: gender, then age, then BMI. */
  function ValidateBasicParameters(bmi: real, age: int, gender: Nullable<string>): (r: Check)
    ensures r.Ok? <==> Gender.IsValidGender(gender) && 1 <= age <= 122 && BMI.IsValid(bmi)
    ensures r.IsFailure() ==> r == (if !Gender.IsValidGender(gender) then BasicBodyParameterValidator.ValidateGender(gender)
                                    else if !(1 <= age <= 122) then BasicBodyParameterValidator.ValidateAge(age)
                                    else HealthMetricValidator.ValidateBMI(bmi))
  {
    var _ :- BasicBodyParameterValidator.ValidateGender(gender);
    var _ :- BasicBodyParameterValidator.ValidateAge(age);
    HealthMetricValidator.ValidateBMI(bmi)
  }

  /** The value of a linear equation for a BMI, an age and the male indicator (1 or 0). */
  function Linear(c: LinearCoefficients, bmi: real, age: int, male: int): real
  {
    c.bmi * bmi + c.age * (age as real) + c.gender * (male as real) + c.constTerm
  }

  /**
   * The private `calculateBFRByGeneralFormula`: validates again, then
   * evaluates the linear equation with `intIsMale(gender)`.
   */
  function GeneralFormula(c: LinearCoefficients, bmi: real, age: int, gender: Nullable<string>): (r: Outcome<real>)
    ensures r.Ok? <==> ValidateBasicParameters(bmi, age, gender).Ok?
    ensures r.IsFailure() ==> r == ValidateBasicParameters(bmi, age, gender).PropagateFailure()
    ensures r.Ok? ==> r.value == Linear(c, bmi, age, Gender.IntIsMale(gender).value)
  {
    var _ :- ValidateBasicParameters(bmi, age, gender);
    Ok(Linear(c, bmi, age, Gender.IntIsMale(gender).value))
  }

  /** `calculateBFRByDeurenbergEquation`: the adult coefficients from age 16, the child ones below. */
  function CalculateBFRByDeurenberg(bmi: real, age: int, gender: Nullable<string>): (r: Outcome<real>)
    ensures r.Ok? <==> ValidateBasicParameters(bmi, age, gender).Ok?
    ensures r.IsFailure() ==> r == ValidateBasicParameters(bmi, age, gender).PropagateFailure()
    ensures r.Ok? ==> r.value == Linear(if age >= DeurenbergAdultAge then DeurenbergAdult else DeurenbergChild,
                                        bmi, age, Gender.IntIsMale(gender).value)
  {
    var _ :- ValidateBasicParameters(bmi, age, gender);
    if age >= DeurenbergAdultAge then GeneralFormula(DeurenbergAdult, bmi, age, gender)
    else GeneralFormula(DeurenbergChild, bmi, age, gender)
  }

  /** `calculateBFRByGallagherEquation1`. */
  function CalculateBFRByGallagher1(bmi: real, age: int, gender: Nullable<string>): (r: Outcome<real>)
    ensures r.Ok? <==> ValidateBasicParameters(bmi, age, gender).Ok?
    ensures r.IsFailure() ==> r == ValidateBasicParameters(bmi, age, gender).PropagateFailure()
    ensures r.Ok? ==> r.value == Linear(GallagherVersion1, bmi, age, Gender.IntIsMale(gender).value)
  {
    var _ :- ValidateBasicParameters(bmi, age, gender);
    GeneralFormula(GallagherVersion1, bmi, age, gender)
  }

  /**
   * `calculateBFRByGallagherEquation2`: linear in the reciprocal of the BMI,
   * plus gender-by-age and gender-by-reciprocal interaction terms.
   */
  function CalculateBFRByGallagher2(bmi: real, age: int, gender: Nullable<string>): (r: Outcome<real>)
    ensures r.Ok? <==> ValidateBasicParameters(bmi, age, gender).Ok?
    ensures r.IsFailure() ==> r == ValidateBasicParameters(bmi, age, gender).PropagateFailure()
    ensures r.Ok? ==> r.value == Gallagher2(bmi, age, Gender.IntIsMale(gender).value)
  {
    var _ :- ValidateBasicParameters(bmi, age, gender);
    Ok(Gallagher2(bmi, age, Gender.IntIsMale(gender).value))
  }

  /**
   * Gallagher's second equation: the linear part on the reciprocal of the
   * BMI, plus the male indicator times the age and times that reciprocal.
   */
  function Gallagher2(bmi: real, age: int, male: int): real
    requires bmi != 0.0
  {
    var reciprocalOfBMI := 1.0 / bmi;
    Linear(GallagherVersion2, reciprocalOfBMI, age, male)
    + GallagherVersion2GenderAgeInteraction * (male as real) * (age as real)
    + GallagherVersion2GenderBmiInteraction * (male as real) * reciprocalOfBMI
  }

  /** `calculateBFRByJacksonPollockSimplifiedEquation`. */
  function CalculateBFRByJacksonPollockSimplified(bmi: real, age: int, gender: Nullable<string>): (r: Outcome<real>)
    ensures r.Ok? <==> ValidateBasicParameters(bmi, age, gender).Ok?
    ensures r.IsFailure() ==> r == ValidateBasicParameters(bmi, age, gender).PropagateFailure()
    ensures r.Ok? ==> r.value == Linear(JacksonPollockSimplified, bmi, age, Gender.IntIsMale(gender).value)
  {
    var _ :- ValidateBasicParameters(bmi, age, gender);
    GeneralFormula(JacksonPollockSimplified, bmi, age, gender)
  }

  /** The private `validateUSNEquationParameters`: gender, waist, hip, neck, height, in that order. */
  function ValidateUSNParameters(gender: Nullable<string>, waist: real, hip: real, neck: real, height: real): (r: Check)
    ensures r.Ok? <==> Gender.IsValidGender(gender) && WAIST_CIRCUMFERENCE.IsValid(waist)
                       && HIP_CIRCUMFERENCE.IsValid(hip) && NECK_CIRCUMFERENCE.IsValid(neck) && HEIGHT.IsValid(height)
    ensures r.IsFailure() ==> r == (if !Gender.IsValidGender(gender) then BasicBodyParameterValidator.ValidateGender(gender)
                                    else if !WAIST_CIRCUMFERENCE.IsValid(waist) then BasicBodyParameterValidator.ValidateWaistCircumference(waist)
                                    else if !HIP_CIRCUMFERENCE.IsValid(hip) then BasicBodyParameterValidator.ValidateHipCircumference(hip)
                                    else if !NECK_CIRCUMFERENCE.IsValid(neck) then BasicBodyParameterValidator.ValidateNeckCircumference(neck)
                                    else BasicBodyParameterValidator.ValidateHeight(height))
  {
    var _ :- BasicBodyParameterValidator.ValidateGender(gender);
    var _ :- BasicBodyParameterValidator.ValidateWaistCircumference(waist);
    var _ :- BasicBodyParameterValidator.ValidateHipCircumference(hip);
    var _ :- BasicBodyParameterValidator.ValidateNeckCircumference(neck);
    BasicBodyParameterValidator.ValidateHeight(height)
  }

  /** The private five-argument `calculateBFRByUSNEquation`: two base-10 logarithm terms and a constant. */
  function UsnFormula(c: LogCoefficients, circumference: real, height: real, m: MathLib): real
  {
    c.logTerm1 * m.log10(circumference) + c.logTerm2 * m.log10(height) + c.constTerm
  }

  /**
   * The circumference the US Navy equation takes the logarithm of, in
   * inches: waist minus neck for men, waist plus hip minus neck for women.
   */
  function UsnCircumference(male: bool, waist: real, hip: real, neck: real): (inches: real)
    ensures inches * 2.54 == (if male then waist - neck else waist + hip - neck)
  {
    if male then UnitConvertor.CmToInch(waist - neck) else UnitConvertor.CmToInch(waist + hip - neck)
  }

  /**
   * `calculateBFRByUSNEquation(gender, waist, hip, neck, height)`: the male or
   * female US Navy equation on inches.
   */
  function CalculateBFRByUSN(gender: Nullable<string>, waist: real, hip: real, neck: real, height: real, m: MathLib): (r: Outcome<real>)
    ensures r.Ok? <==> ValidateUSNParameters(gender, waist, hip, neck, height).Ok?
    ensures r.IsFailure() ==> r == ValidateUSNParameters(gender, waist, hip, neck, height).PropagateFailure()
    ensures r.Ok? ==>
      var male := Gender.IsMale(gender).value;
      r.value == UsnFormula(if male then UsnMale else UsnFemale, UsnCircumference(male, waist, hip, neck),
                            UnitConvertor.CmToInch(height), m)
  {
    var _ :- ValidateUSNParameters(gender, waist, hip, neck, height);
    if Gender.IsMale(gender).value then
      Ok(UsnFormula(UsnMale, UnitConvertor.CmToInch(waist - neck), UnitConvertor.CmToInch(height), m))
    else
      Ok(UsnFormula(UsnFemale, UnitConvertor.CmToInch(waist + hip - neck), UnitConvertor.CmToInch(height), m))
  }

  /**
   * At the same BMI and age a man's Deurenberg estimate is 10.8 points
   * below a woman's from age 16 and 3.6 points below it before.
   */
  lemma DeurenbergGenderGap(bmi: real, age: int)
    requires CalculateBFRByDeurenberg(bmi, age, NonNull("男")).Ok?
    ensures CalculateBFRByDeurenberg(bmi, age, NonNull("女")).Ok?
    ensures CalculateBFRByDeurenberg(bmi, age, NonNull("女")).value
            - CalculateBFRByDeurenberg(bmi, age, NonNull("男")).value == (if age >= 16 then 10.8 else 3.6)
  {
    Gender.ChineseNamesClassify();
    assert Gender.IsValidGender(NonNull("女"));
  }

  /** Each linear estimate grows with the BMI: all four BMI coefficients are positive. */
  lemma {:induction false} LinearEstimatesGrowWithBMI(b1: real, b2: real, age: int, gender: Nullable<string>)
    requires b1 < b2
    requires CalculateBFRByDeurenberg(b1, age, gender).Ok? && CalculateBFRByDeurenberg(b2, age, gender).Ok?
    ensures CalculateBFRByDeurenberg(b1, age, gender).value < CalculateBFRByDeurenberg(b2, age, gender).value
    ensures CalculateBFRByGallagher1(b1, age, gender).value < CalculateBFRByGallagher1(b2, age, gender).value
    ensures CalculateBFRByJacksonPollockSimplified(b1, age, gender).value
            < CalculateBFRByJacksonPollockSimplified(b2, age, gender).value
  {
  }

  /**
   * Gallagher's second equation grows with the BMI as well: the reciprocal
   * shrinks and its coefficient, -848 + 39 for men, is negative.
   */
  lemma Gallagher2GrowsWithBMI(b1: real, b2: real, age: int, gender: Nullable<string>)
    requires b1 < b2
    requires CalculateBFRByGallagher2(b1, age, gender).Ok? && CalculateBFRByGallagher2(b2, age, gender).Ok?
    ensures CalculateBFRByGallagher2(b1, age, gender).value < CalculateBFRByGallagher2(b2, age, gender).value
  {
    Gallagher2IsIncreasing(b1, b2, age, Gender.IntIsMale(gender).value);
  }

  /** The equation itself, for positive BMIs and a male indicator of 0 or 1. */
  lemma Gallagher2IsIncreasing(b1: real, b2: real, age: int, male: int)
    requires 0.0 < b1 < b2
    requires male == 0 || male == 1
    ensures Gallagher2(b1, age, male) < Gallagher2(b2, age, male)
  {
    var k := -848.0 + 39.0 * (male as real);
    ReciprocalDecreases(b1, b2);
    assert Gallagher2(b1, age, male) - Gallagher2(b2, age, male) == k * (1.0 / b1 - 1.0 / b2);
  }

  /** Helper: the reciprocal of a positive number decreases. */
  lemma ReciprocalDecreases(a: real, b: real)
    requires 0.0 < a < b
    ensures 1.0 / a > 1.0 / b
  {
  }

  /**
   * Nothing guards the male logarithm: a valid waist below a valid neck
   * makes its argument negative (Java's `log10` then yields NaN).
   */
  lemma UsnMaleArgumentCanBeNegative()
    ensures ValidateUSNParameters(NonNull("男"), 40.0, 90.0, 60.0, 170.0).Ok?
    ensures UsnCircumference(true, 40.0, 90.0, 60.0) < 0.0
  {
    Gender.ChineseNamesClassify();
  }
}
