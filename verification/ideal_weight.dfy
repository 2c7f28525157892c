/** The constants of the two ideal-weight methods: `IdealWeightCalculatorConstants`. */
module IdealWeightCalculatorConstants {
  import opened Outcomes
  import Gender

  /** Based on height: the ideal weight times 0.9 and 1.1 bounds the ideal range. */
  const ToMinIdealWeight: real := 0.9
  const ToMaxIdealWeight: real := 1.1
  const FemaleConstTerm: real := 100.0
  const MaleConstTerm: real := 105.0

  /** Based on BMI: the weights at BMI 18.5 and 23.9 bound the ideal range. */
  const MinIdealBMI: real := 18.5
  const MaxIdealBMI: real := 23.9

  /** `BasedOnHeight.getConstTerm`: 105 for a man, 100 for a woman; `isMale` throws for any other gender. */
  function GetConstTerm(gender: Nullable<string>): (r: Outcome<real>)
    ensures r.Ok? <==> Gender.IsValidGender(gender)
    ensures r.IsFailure() ==> r == Gender.IsMale(gender).PropagateFailure()
    ensures r.Ok? ==> (r.value == 105.0 <==> Gender.IsMale(gender).value)
    ensures r.Ok? ==> (r.value == 100.0 <==> !Gender.IsMale(gender).value)
  {
    var male :- Gender.IsMale(gender);
    if male then Ok(MaleConstTerm) else Ok(FemaleConstTerm)
  }
}

/** Ideal weight from the height alone or from the healthy BMI band: `IdealWeightCalculator`. */
module IdealWeightCalculator {
  import opened Outcomes
  import opened BodyMetric
  import opened IdealWeightCalculatorConstants
  import Gender
  import Entity
  import ValueFormatter
  import BMICalculator
  import UnitConvertor
  import BasicBodyParameterValidator
  import MethodParameterValidator

  /** `BasedOnHeight.calculateIdealWeight`: the height less the gender's constant; the height is not checked. */
  function CalculateIdealWeight(gender: Nullable<string>, height: real): (r: Outcome<real>)
    ensures r.Ok? <==> Gender.IsValidGender(gender)
    ensures r.IsFailure() ==> r == Gender.IsMale(gender).PropagateFailure()
    ensures r.Ok? ==> r.value + GetConstTerm(gender).value == height
  {
    var constTerm :- GetConstTerm(gender);
    Ok(height - constTerm)
  }

  /** `BasedOnHeight.calculateMinIdealWeight`: nine tenths of the ideal weight. */
  function CalculateMinIdealWeight(idealWeight: real): (r: real)
    ensures r == idealWeight * 9.0 / 10.0
  {
    idealWeight * ToMinIdealWeight
  }

  /** `BasedOnHeight.calculateMaxIdealWeight`: eleven tenths of the ideal weight. */
  function CalculateMaxIdealWeight(idealWeight: real): (r: real)
    ensures r == idealWeight * 11.0 / 10.0
  {
    idealWeight * ToMaxIdealWeight
  }

  /**
   * `BasedOnHeight.formatIdealWeightRange`: the range from the minimum to the
   * maximum. It is refused exactly when the ideal weight is not positive,
   * since only then is the minimum not below the maximum.
   */
  function FormatIdealWeightRange(idealWeight: real): (r: Outcome<RangeText>)
    ensures r.Ok? <==> idealWeight > 0.0
    ensures r.Ok? ==> r.value == RangeText(CalculateMinIdealWeight(idealWeight), CalculateMaxIdealWeight(idealWeight), 1)
    ensures r.IsFailure() ==>
      r == IllegalArg(RangeNotIncreasing(CalculateMinIdealWeight(idealWeight), CalculateMaxIdealWeight(idealWeight)))
  {
    ValueFormatter.FormatClosedRange(CalculateMinIdealWeight(idealWeight), CalculateMaxIdealWeight(idealWeight))
  }

  /**
   * `BasedOnHeight.getCalculatedIdealWeight`: the gender and the height read
   * from the scanner are stored on the user, then the ideal weight of that
   * gender and height is returned. The reader rejects a null scanner before
   * reading; a null user fails at the first setter, before anything is
   * written. The reader only hands back a valid gender and a height in
   * range, which is what the precondition states.
   */
  method GetCalculatedIdealWeight(user: Entity.User?, scanner: Entity.Scanner?, gender: string, height: real)
    returns (r: Outcome<real>)
    requires Gender.IsValidGender(NonNull(gender)) && HEIGHT.IsValid(height)
    modifies user
    ensures r == NullPtr <==> user == null || scanner == null
    ensures r.IsFailure() ==> r == NullPtr
    ensures user != null && scanner == null ==> user.State() == old(user.State())
    ensures r.Ok? ==> user.State() == old(user.State()).(gender := NonNull(gender), height := height)
    ensures r.Ok? ==> CalculateIdealWeight(NonNull(gender), height) == Ok(r.value)
    ensures r.Ok? ==> CalculateIdealWeight(user.gender, user.height) == Ok(r.value)
  {
    var check := MethodParameterValidator.ValidateScanner(scanner);
    if check.IsFailure() {
      return check.PropagateFailure();
    }
    if user == null {
      return NullPtr;
    }
    user.SetGender(NonNull(gender));
    user.SetHeight(height);
    r := CalculateIdealWeight(NonNull(gender), height);
  }

  /** `BasedOnBMI.calculateMinIdealWeight`: the weight at BMI 18.5 for the height. */
  function CalculateMinIdealWeightByBMI(userHeight: real): (r: Outcome<real>)
    ensures r.Ok? <==> HEIGHT.IsValid(userHeight)
    ensures r.IsFailure() ==> r == BasicBodyParameterValidator.ValidateHeight(userHeight).PropagateFailure()
    ensures r.Ok? ==> WEIGHT.IsValid(r.value) && BMICalculator.CalculateBMI(r.value, userHeight) == Ok(18.5)
  {
    var minWeight :- BMICalculator.CalculateWeightByBMI(MinIdealBMI, userHeight);
    HealthyWeightIsValid(MinIdealBMI, userHeight);
    BMICalculator.BMIInvertsWeightByBMI(MinIdealBMI, userHeight);
    Ok(minWeight)
  }

  /** `BasedOnBMI.calculateMaxIdealWeight`: the weight at BMI 23.9 for the height. */
  function CalculateMaxIdealWeightByBMI(userHeight: real): (r: Outcome<real>)
    ensures r.Ok? <==> HEIGHT.IsValid(userHeight)
    ensures r.IsFailure() ==> r == BasicBodyParameterValidator.ValidateHeight(userHeight).PropagateFailure()
    ensures r.Ok? ==> WEIGHT.IsValid(r.value) && BMICalculator.CalculateBMI(r.value, userHeight) == Ok(23.9)
  {
    var maxWeight :- BMICalculator.CalculateWeightByBMI(MaxIdealBMI, userHeight);
    HealthyWeightIsValid(MaxIdealBMI, userHeight);
    BMICalculator.BMIInvertsWeightByBMI(MaxIdealBMI, userHeight);
    Ok(maxWeight)
  }

  /**
   * `BasedOnBMI.formateIdealWeightRange`: both weights, then the range text.
   * For a height in range the range always exists and is increasing.
   */
  function FormatIdealWeightRangeByBMI(userHeight: real): (r: Outcome<RangeText>)
    ensures r.Ok? <==> HEIGHT.IsValid(userHeight)
    ensures r.IsFailure() ==> r == BasicBodyParameterValidator.ValidateHeight(userHeight).PropagateFailure()
    ensures r.Ok? ==> r.value.lower < r.value.upper &&
                      r.value == RangeText(CalculateMinIdealWeightByBMI(userHeight).value,
                                           CalculateMaxIdealWeightByBMI(userHeight).value, 1)
  {
    var minWeight :- CalculateMinIdealWeightByBMI(userHeight);
    var maxWeight := CalculateMaxIdealWeightByBMI(userHeight).value;
    WeightByBMIIncreases(MinIdealBMI, MaxIdealBMI, userHeight);
    ValueFormatter.FormatClosedRange(minWeight, maxWeight)
  }

  /** Helper: at a BMI between 18.5 and 23.9 every height in range gives a weight in range. */
  lemma HealthyWeightIsValid(bmi: real, height: real)
    requires 18.5 <= bmi <= 23.9 && HEIGHT.IsValid(height)
    ensures BMICalculator.CalculateWeightByBMI(bmi, height).Ok?
    ensures WEIGHT.IsValid(BMICalculator.CalculateWeightByBMI(bmi, height).value)
  {
    var hm := UnitConvertor.CmToMetre(height);
    var w := BMICalculator.CalculateWeightByBMI(bmi, height).value;
    assert 0.5 <= hm <= 2.72;
    assert w == bmi * (hm * hm);
    Bounded(hm, hm, 0.5, 2.72);
    assert hm * hm <= hm * 2.72 && hm * 2.72 <= 7.3984;
    assert hm * hm >= hm * 0.5 && hm * 0.5 >= 0.25;
    Bounded(bmi, hm * hm, 0.25, 7.3984);
  }

  /** Helper: multiplying by a positive factor keeps the order of the bounds. */
  lemma Bounded(x: real, y: real, lo: real, hi: real)
    requires 0.0 < lo <= y <= hi && x > 0.0
    ensures x * lo <= x * y
    ensures x * y <= x * hi
  {
  }

  /** For one height, a larger BMI gives a larger weight. */
  lemma {:induction false} WeightByBMIIncreases(b1: real, b2: real, height: real)
    requires BMI.IsValid(b1) && BMI.IsValid(b2) && b1 < b2 && HEIGHT.IsValid(height)
    ensures BMICalculator.CalculateWeightByBMI(b1, height).value < BMICalculator.CalculateWeightByBMI(b2, height).value
  {
    var hm := UnitConvertor.CmToMetre(height);
    var w1 := BMICalculator.CalculateWeightByBMI(b1, height).value;
    var w2 := BMICalculator.CalculateWeightByBMI(b2, height).value;
    assert w1 / hm / hm == b1 && w2 / hm / hm == b2;
    assert w1 == b1 * (hm * hm) && w2 == b2 * (hm * hm);
    assert hm * hm > 0.0;
  }

  /**
   * The height method has no range below 105 cm for men and 100 cm for
   * women, though such heights are valid: 100 cm for a man is refused.
   */
  lemma ShortHeightsHaveNoIdealRange()
    ensures HEIGHT.IsValid(100.0)
    ensures CalculateIdealWeight(NonNull("男"), 100.0) == Ok(-5.0)
    ensures FormatIdealWeightRange(-5.0).IsFailure()
  {
    Gender.ChineseNamesClassify();
  }

  /** For a valid gender, the height method has a range exactly when the height is above the gender's constant. */
  lemma IdealRangeExistsAboveConstant(gender: Nullable<string>, height: real)
    requires Gender.IsValidGender(gender)
    ensures FormatIdealWeightRange(CalculateIdealWeight(gender, height).value).Ok? <==> height > GetConstTerm(gender).value
  {
  }
}
