/** The power-law coefficients of the body-surface-area equations: `BSACalculatorConstants`. */
module BSACalculatorConstants {
  /** `coefficient * height^heightExponent * weight^weightExponent`, height in cm and weight in kg. */
  datatype PowerCoefficients = PowerCoefficients(coefficient: real, heightExponent: real, weightExponent: real)

  const DuBois := PowerCoefficients(0.007184, 0.725, 0.425)
  const Haycock := PowerCoefficients(0.024265, 0.3964, 0.5378)
  const Mosteller := PowerCoefficients(1.0 / 60.0, 0.5, 0.5)
  const SchlichFemale := PowerCoefficients(0.000975482, 1.08, 0.46)
  const SchlichMale := PowerCoefficients(0.000579479, 1.24, 0.38)
}

/** Body surface area (m²): `BSACalculator`. */
module BSACalculator {
  import opened Outcomes
  import opened BodyMetric
  import opened JavaMath
  import opened BSACalculatorConstants
  import Gender
  import BasicBodyParameterValidator

  /** The private `validateBasicParameters(height, weight)`: the height first, then the weight. */
  function ValidateBasicParameters(height: real, weight: real): (r: Check)
    ensures r.Ok? <==> HEIGHT.IsValid(height) && WEIGHT.IsValid(weight)
    ensures r.IsFailure() ==> r == (if !HEIGHT.IsValid(height) then BasicBodyParameterValidator.ValidateHeight(height)
                                    else BasicBodyParameterValidator.ValidateWeight(weight))
  {
    var _ :- BasicBodyParameterValidator.ValidateHeight(height);
    BasicBodyParameterValidator.ValidateWeight(weight)
  }

  /** The private `validateBasicParameters(gender, height, weight)`: the gender before the other two. */
  function ValidateGenderHeightWeight(gender: Nullable<string>, height: real, weight: real): (r: Check)
    ensures r.Ok? <==> Gender.IsValidGender(gender) && HEIGHT.IsValid(height) && WEIGHT.IsValid(weight)
    ensures r.IsFailure() ==> r == (if !Gender.IsValidGender(gender) then BasicBodyParameterValidator.ValidateGender(gender)
                                    else ValidateBasicParameters(height, weight))
  {
    var _ :- BasicBodyParameterValidator.ValidateGender(gender);
    ValidateBasicParameters(height, weight)
  }

  /** The power law itself, with `Math.pow` supplied by the caller. */
  function PowerLaw(c: PowerCoefficients, height: real, weight: real, m: MathLib): real
  {
    c.coefficient * m.pow(height, c.heightExponent) * m.pow(weight, c.weightExponent)
  }

  /** The private `calculateBSAByGeneralFormula`: validates height and weight again, then applies the power law. */
  function GeneralFormula(c: PowerCoefficients, height: real, weight: real, m: MathLib): (r: Outcome<real>)
    ensures r.Ok? <==> ValidateBasicParameters(height, weight).Ok?
    ensures r.IsFailure() ==> r == ValidateBasicParameters(height, weight).PropagateFailure()
    ensures r.Ok? ==> r.value == PowerLaw(c, height, weight, m)
  {
    var _ :- ValidateBasicParameters(height, weight);
    Ok(PowerLaw(c, height, weight, m))
  }

  /** `calculateBSAByDuBoisEquation`: 0.007184 · H^0.725 · W^0.425. */
  function CalculateBSAByDuBois(height: real, weight: real, m: MathLib): (r: Outcome<real>)
    ensures r.Ok? <==> HEIGHT.IsValid(height) && WEIGHT.IsValid(weight)
    ensures r.IsFailure() ==> r == ValidateBasicParameters(height, weight).PropagateFailure()
    ensures r.Ok? ==> r.value == 0.007184 * m.pow(height, 0.725) * m.pow(weight, 0.425)
  {
    var _ :- ValidateBasicParameters(height, weight);
    GeneralFormula(DuBois, height, weight, m)
  }

  /** `calculateBSAByHaycockEquation`: 0.024265 · H^0.3964 · W^0.5378. */
  function CalculateBSAByHaycock(height: real, weight: real, m: MathLib): (r: Outcome<real>)
    ensures r.Ok? <==> HEIGHT.IsValid(height) && WEIGHT.IsValid(weight)
    ensures r.IsFailure() ==> r == ValidateBasicParameters(height, weight).PropagateFailure()
    ensures r.Ok? ==> r.value == 0.024265 * m.pow(height, 0.3964) * m.pow(weight, 0.5378)
  {
    var _ :- ValidateBasicParameters(height, weight);
    GeneralFormula(Haycock, height, weight, m)
  }

  /** `calculateBSAByMostellerEquation`: H^0.5 · W^0.5 / 60. */
  function CalculateBSAByMosteller(height: real, weight: real, m: MathLib): (r: Outcome<real>)
    ensures r.Ok? <==> HEIGHT.IsValid(height) && WEIGHT.IsValid(weight)
    ensures r.IsFailure() ==> r == ValidateBasicParameters(height, weight).PropagateFailure()
    ensures r.Ok? ==> r.value * 60.0 == m.pow(height, 0.5) * m.pow(weight, 0.5)
  {
    var _ :- ValidateBasicParameters(height, weight);
    GeneralFormula(Mosteller, height, weight, m)
  }

  /**
   * `calculateBSABySchlichEquation`: the gender, height and weight are
   * checked, then the gender picks the female or the male coefficients.
   */
  function CalculateBSABySchlich(gender: Nullable<string>, height: real, weight: real, m: MathLib): (r: Outcome<real>)
    ensures r.Ok? <==> ValidateGenderHeightWeight(gender, height, weight).Ok?
    ensures r.IsFailure() ==> r == ValidateGenderHeightWeight(gender, height, weight).PropagateFailure()
    ensures r.Ok? ==> r.value == PowerLaw(if Gender.IsMale(gender).value then SchlichMale else SchlichFemale, height, weight, m)
  {
    var _ :- ValidateGenderHeightWeight(gender, height, weight);
    if Gender.IsMale(gender).value then GeneralFormula(SchlichMale, height, weight, m)
    else GeneralFormula(SchlichFemale, height, weight, m)
  }

  /** `Math.pow` is positive on positive bases. */
  ghost predicate PowIsPositive(m: MathLib)
  {
    forall x: real, e: real :: x > 0.0 ==> m.pow(x, e) > 0.0
  }

  /** `Math.pow` grows with a positive base for a positive exponent. */
  ghost predicate PowIsIncreasing(m: MathLib)
  {
    forall x: real, y: real, e: real :: 0.0 < x < y && e > 0.0 ==> m.pow(x, e) < m.pow(y, e)
  }

  /** Helper: a product of positive factors is positive and grows with either factor. */
  lemma ProductGrows(k: real, a: real, b1: real, b2: real)
    requires k > 0.0 && a > 0.0 && 0.0 < b1 < b2
    ensures 0.0 < k * a * b1 < k * a * b2
  {
    assert k * a > 0.0;
  }

  /** With a positive `pow`, every power law with a positive coefficient gives a positive area. */
  lemma {:induction false} PowerLawIsPositive(c: PowerCoefficients, height: real, weight: real, m: MathLib)
    requires PowIsPositive(m)
    requires c.coefficient > 0.0 && height > 0.0 && weight > 0.0
    ensures PowerLaw(c, height, weight, m) > 0.0
  {
    var ph := m.pow(height, c.heightExponent);
    var pw := m.pow(weight, c.weightExponent);
    assert ph > 0.0 && pw > 0.0;
    assert c.coefficient * ph > 0.0;
  }

  /**
   * With an increasing `pow`, a heavier person of the same height has a
   * larger area under every equation (all weight exponents are positive).
   */
  lemma {:induction false} PowerLawGrowsWithWeight(c: PowerCoefficients, height: real, w1: real, w2: real, m: MathLib)
    requires PowIsPositive(m) && PowIsIncreasing(m)
    requires c.coefficient > 0.0 && c.weightExponent > 0.0
    requires height > 0.0 && 0.0 < w1 < w2
    ensures PowerLaw(c, height, w1, m) < PowerLaw(c, height, w2, m)
  {
    var ph := m.pow(height, c.heightExponent);
    assert ph > 0.0;
    assert 0.0 < m.pow(w1, c.weightExponent) < m.pow(w2, c.weightExponent);
    ProductGrows(c.coefficient, ph, m.pow(w1, c.weightExponent), m.pow(w2, c.weightExponent));
  }

  /** Every equation gives a positive area for valid inputs when `pow` is positive. */
  lemma EquationsArePositive(gender: Nullable<string>, height: real, weight: real, m: MathLib)
    requires PowIsPositive(m)
    requires HEIGHT.IsValid(height) && WEIGHT.IsValid(weight)
    ensures CalculateBSAByDuBois(height, weight, m).value > 0.0
    ensures CalculateBSAByHaycock(height, weight, m).value > 0.0
    ensures CalculateBSAByMosteller(height, weight, m).value > 0.0
    ensures Gender.IsValidGender(gender) ==> CalculateBSABySchlich(gender, height, weight, m).value > 0.0
  {
    PowerLawIsPositive(DuBois, height, weight, m);
    PowerLawIsPositive(Haycock, height, weight, m);
    PowerLawIsPositive(Mosteller, height, weight, m);
    PowerLawIsPositive(SchlichMale, height, weight, m);
    PowerLawIsPositive(SchlichFemale, height, weight, m);
  }

  /**
   * When `pow(x, 0.5)` is the square root and roots multiply, the Mosteller
   * equation is the square root of height times weight over 3600.
   */
  lemma MostellerIsSquareRoot(height: real, weight: real, m: MathLib)
    requires HEIGHT.IsValid(height) && WEIGHT.IsValid(weight)
    requires m.pow(height, 0.5) * m.pow(weight, 0.5) == m.sqrt(height * weight)
    requires IsSqrtAt(m, height * weight)
    ensures CalculateBSAByMosteller(height, weight, m).value >= 0.0
    ensures CalculateBSAByMosteller(height, weight, m).value * CalculateBSAByMosteller(height, weight, m).value
            == height * weight / 3600.0
  {
    var b := CalculateBSAByMosteller(height, weight, m).value;
    var s := m.sqrt(height * weight);
    assert b == s / 60.0;
    assert b * b == s * s / 3600.0;
  }

  /**
   * Mosteller is symmetric: when both values pass both checks, swapping the
   * height and the weight gives the same area.
   */
  lemma MostellerIsSymmetric(height: real, weight: real, m: MathLib)
    requires HEIGHT.IsValid(height) && WEIGHT.IsValid(weight)
    requires HEIGHT.IsValid(weight) && WEIGHT.IsValid(height)
    ensures CalculateBSAByMosteller(weight, height, m) == CalculateBSAByMosteller(height, weight, m)
  {
    var a := m.pow(height, 0.5);
    var b := m.pow(weight, 0.5);
    assert Mosteller.coefficient * a * b == Mosteller.coefficient * b * a;
  }

  /** The Schlich equation reads the gender after trimming: " 男 " takes the male coefficients. */
  lemma SchlichUsesMaleCoefficients(height: real, weight: real, m: MathLib)
    requires HEIGHT.IsValid(height) && WEIGHT.IsValid(weight)
    ensures CalculateBSABySchlich(NonNull(" 男 "), height, weight, m)
            == Ok(0.000579479 * m.pow(height, 1.24) * m.pow(weight, 0.38))
    ensures CalculateBSABySchlich(NonNull("女"), height, weight, m)
            == Ok(0.000975482 * m.pow(height, 1.08) * m.pow(weight, 0.46))
    ensures CalculateBSABySchlich(Null, height, weight, m) == NullPtr
  {
    Gender.ChineseNamesClassify();
    assert PowerLaw(SchlichMale, height, weight, m) == 0.000579479 * m.pow(height, 1.24) * m.pow(weight, 0.38);
    assert PowerLaw(SchlichFemale, height, weight, m) == 0.000975482 * m.pow(height, 1.08) * m.pow(weight, 0.46);
  }
}
