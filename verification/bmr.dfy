/** Coefficients and tables of the basal-metabolic-rate equations: `BMRCalculatorConstants`. */
module BMRCalculatorConstants {
  import opened Outcomes
  import Gender
  import TypeConvertor

  /** The zero terms passed for the variables an equation does not use. */
  const HeightCoefficientNone: real := 0.0
  const AgeCoefficientNone: real := 0.0
  const HeightValueZero: real := 0.0
  const AgeValueZero: int := 0

  /** Hours in a day, scaling an hourly BMR to a daily one. */
  const Hours: int := 24

  /** Hourly BMR per m² of body surface, for ages 1, 3, ..., 19, then 20, 25, ..., 80. */
  const FemaleHourlyBMR: seq<real> := [
    53.0, 51.2, 48.4, 45.4, 42.8,
    42.0, 40.3, 37.9, 36.3, 35.5,
    35.3, 35.2, 35.1, 35.0, 34.9,
    34.5, 33.9, 33.3, 32.7, 32.2,
    31.7, 31.3, 30.9]
  const MaleHourlyBMR: seq<real> := [
    53.0, 51.3, 49.3, 47.3, 45.2,
    43.0, 42.3, 41.8, 40.8, 39.2,
    38.6, 37.5, 36.8, 36.5, 36.3,
    36.2, 35.8, 35.4, 34.9, 34.4,
    33.8, 33.2, 33.0]

  /**
   * The private `getBMRIdx`: two-year bands below 20, five-year bands from
   * 20 to 79 starting at index 10, and the last entry from 80 on. Java's
   * truncating division makes the index negative from age -2 down.
   */
  function BMRIdx(age: int): (idx: int)
    ensures idx <= 22
    ensures age >= -1 ==> idx >= 0
    ensures age <= -2 ==> idx < 0
    ensures 0 <= age < 20 ==> 2 * idx <= age < 2 * idx + 2
    ensures 20 <= age < 80 ==> 10 <= idx <= 21 && 20 + 5 * (idx - 10) <= age < 25 + 5 * (idx - 10)
    ensures age >= 80 <==> idx == 22
  {
    if age >= 20 then
      if age >= 80 then 22 else TypeConvertor.JavaDiv(age, 5) + 6
    else
      TypeConvertor.JavaDiv(age, 2)
  }

  /**
   * `getHourlyBMR`: the index is computed first, then the gender chooses the
   * table (throwing for a `null` or unknown gender), then the entry is read
   * (throwing for a negative index).
   */
  function GetHourlyBMR(gender: Nullable<string>, age: int): (r: Outcome<real>)
    ensures r.Ok? <==> Gender.IsValidGender(gender) && age >= -1
    ensures !Gender.IsValidGender(gender) ==> r == Gender.IsMale(gender).PropagateFailure()
    ensures Gender.IsValidGender(gender) && age < -1 ==> r == IndexOutOfBounds
    ensures r.Ok? ==> r.value == (if Gender.IsMale(gender).value then MaleHourlyBMR else FemaleHourlyBMR)[BMRIdx(age)]
  {
    var bmrIdx := BMRIdx(age);
    var male :- Gender.IsMale(gender);
    if bmrIdx < 0 then IndexOutOfBounds
    else if male then Ok(MaleHourlyBMR[bmrIdx])
    else Ok(FemaleHourlyBMR[bmrIdx])
  }

  /** Henry equation, in kJ: the weight coefficient and constant below and from age 30. */
  const HenryFemaleWeightUnder30: real := 47.0
  const HenryFemaleWeightFrom30: real := 39.0
  const HenryFemaleConstUnder30: real := 2880.0
  const HenryFemaleConstFrom30: real := 3070.0
  const HenryMaleWeightUnder30: real := 51.0
  const HenryMaleWeightFrom30: real := 53.0
  const HenryMaleConstUnder30: real := 3500.0
  const HenryMaleConstFrom30: real := 3070.0

  /** `HenryEquation.getWeightCoefficient`: by gender (which may throw), then by `age < 30`. */
  function HenryWeightCoefficient(gender: Nullable<string>, age: int): (r: Outcome<real>)
    ensures r.Ok? <==> Gender.IsValidGender(gender)
    ensures r.IsFailure() ==> r == Gender.IsMale(gender).PropagateFailure()
    ensures r.Ok? ==> r.value == (if Gender.IsMale(gender).value
                                  then (if age < 30 then 51.0 else 53.0)
                                  else (if age < 30 then 47.0 else 39.0))
  {
    var male :- Gender.IsMale(gender);
    if male then Ok(if age < 30 then HenryMaleWeightUnder30 else HenryMaleWeightFrom30)
    else Ok(if age < 30 then HenryFemaleWeightUnder30 else HenryFemaleWeightFrom30)
  }

  /** `HenryEquation.getConstTerm`: by gender (which may throw), then by `age < 30`. */
  function HenryConstTerm(gender: Nullable<string>, age: int): (r: Outcome<real>)
    ensures r.Ok? <==> Gender.IsValidGender(gender)
    ensures r.IsFailure() ==> r == Gender.IsMale(gender).PropagateFailure()
    ensures r.Ok? ==> r.value == (if Gender.IsMale(gender).value
                                  then (if age < 30 then 3500.0 else 3070.0)
                                  else (if age < 30 then 2880.0 else 3070.0))
  {
    var male :- Gender.IsMale(gender);
    if male then Ok(if age < 30 then HenryMaleConstUnder30 else HenryMaleConstFrom30)
    else Ok(if age < 30 then HenryFemaleConstUnder30 else HenryFemaleConstFrom30)
  }

  /** The coefficients of an equation linear in weight, height and age. */
  datatype BmrCoefficients = BmrCoefficients(weight: real, height: real, age: real, constTerm: real)

  const HBFemale := BmrCoefficients(9.5634, 1.8496, -4.6756, 655.0955)
  const HBMale := BmrCoefficients(13.7516, 5.0033, -6.7550, 66.4730)
  const MSJFemale := BmrCoefficients(9.99, 6.25, -4.92, -161.0)
  const MSJMale := BmrCoefficients(9.99, 6.25, -4.92, 5.0)
  const MaoFemale := BmrCoefficients(41.9, HeightCoefficientNone, AgeCoefficientNone, 2269.1)
  const MaoMale := BmrCoefficients(48.5, HeightCoefficientNone, AgeCoefficientNone, 2954.7)
  const ShizgalRosaFemale := BmrCoefficients(39.0, 13.0, -18.0, 1873.0)
  const ShizgalRosaMale := BmrCoefficients(52.0, 20.0, -25.0, 370.0)

  /** Schofield equation tables, indexed by the age bands 0-3, 3-10, 10-18, 18-30, 30-60, 60-75, 75+. */
  const SchofieldFemaleWeight: seq<real> := [60.1, 22.5, 12.2, 14.8, 8.3, 9.2, 9.8]
  const SchofieldFemaleConst: seq<real> := [-51.0, 499.0, 746.0, 487.0, 846.0, 687.0, 624.0]
  const SchofieldMaleWeight: seq<real> := [60.9, 22.7, 17.5, 15.1, 11.5, 11.9, 8.4]
  const SchofieldMaleConst: seq<real> := [-54.0, 495.0, 651.0, 692.0, 873.0, 700.0, 821.0]

  /** The lower age bound of each Schofield band; the first band also takes every younger age. */
  const SchofieldBandStart: seq<int> := [0, 3, 10, 18, 30, 60, 75]

  /**
   * The private `getIdx`: the Schofield band of an age. Every age has one,
   * ages below 0 falling in the first band.
   */
  function SchofieldIdx(age: int): (idx: nat)
    ensures idx < 7
    ensures idx > 0 ==> SchofieldBandStart[idx] <= age
    ensures idx < 6 ==> age < SchofieldBandStart[idx + 1]
  {
    var idx := 3;
    if age >= 30 then
      if age >= 75 then 6 else if age >= 60 then 5 else 4
    else if age < 18 then
      if age >= 10 then 2 else if age >= 3 then 1 else 0
    else idx
  }

  /** `SchofieldEquation.getWeightCoefficient`: the band's entry of the gender's table. */
  function SchofieldWeightCoefficient(gender: Nullable<string>, age: int): (r: Outcome<real>)
    ensures r.Ok? <==> Gender.IsValidGender(gender)
    ensures r.IsFailure() ==> r == Gender.IsMale(gender).PropagateFailure()
    ensures r.Ok? ==> r.value == (if Gender.IsMale(gender).value then SchofieldMaleWeight else SchofieldFemaleWeight)[SchofieldIdx(age)]
  {
    var idx := SchofieldIdx(age);
    var male :- Gender.IsMale(gender);
    Ok(if male then SchofieldMaleWeight[idx] else SchofieldFemaleWeight[idx])
  }

  /** `SchofieldEquation.getConstantTerm`: the band's entry of the gender's table. */
  function SchofieldConstantTerm(gender: Nullable<string>, age: int): (r: Outcome<real>)
    ensures r.Ok? <==> Gender.IsValidGender(gender)
    ensures r.IsFailure() ==> r == Gender.IsMale(gender).PropagateFailure()
    ensures r.Ok? ==> r.value == (if Gender.IsMale(gender).value then SchofieldMaleConst else SchofieldFemaleConst)[SchofieldIdx(age)]
  {
    var idx := SchofieldIdx(age);
    var male :- Gender.IsMale(gender);
    Ok(if male then SchofieldMaleConst[idx] else SchofieldFemaleConst[idx])
  }

  /** An older person never gets a higher hourly BMR: the index grows with age and both tables decrease. */
  lemma {:induction false} HourlyBMRDecreasesWithAge(gender: Nullable<string>, a1: int, a2: int)
    requires -1 <= a1 <= a2 && Gender.IsValidGender(gender)
    ensures GetHourlyBMR(gender, a1).value >= GetHourlyBMR(gender, a2).value
  {
    BMRIdxMonotone(a1, a2);
    TablesDecrease(BMRIdx(a1), BMRIdx(a2));
  }

  /** The BMR index never decreases with age. */
  lemma {:induction false} BMRIdxMonotone(a1: int, a2: int)
    requires -1 <= a1 <= a2
    ensures BMRIdx(a1) <= BMRIdx(a2)
  {
    if a2 < 20 {
      assert a1 < 20;
      assert 2 * BMRIdx(a1) <= a1 <= a2 < 2 * BMRIdx(a2) + 2 || a1 < 0;
    } else if a2 < 80 && a1 >= 20 {
      assert 20 + 5 * (BMRIdx(a1) - 10) <= a1 <= a2 < 25 + 5 * (BMRIdx(a2) - 10);
    }
  }

  /** Both hourly tables strictly decrease, and the male entry is never below the female one. */
  lemma TablesDecrease(i: int, j: int)
    requires 0 <= i <= j < 23
    ensures FemaleHourlyBMR[i] >= FemaleHourlyBMR[j]
    ensures MaleHourlyBMR[i] >= MaleHourlyBMR[j]
    ensures MaleHourlyBMR[i] >= FemaleHourlyBMR[i]
  {
  }

  /** An age of -2 or less passes the gender check and then reads outside the table. */
  lemma NegativeAgeReadsOutsideTable(age: int)
    requires age <= -2
    ensures GetHourlyBMR(NonNull("男"), age) == IndexOutOfBounds
  {
    Gender.ChineseNamesClassify();
  }

  /** The Schofield band never decreases with age. */
  lemma SchofieldIdxMonotone(a1: int, a2: int)
    requires a1 <= a2
    ensures SchofieldIdx(a1) <= SchofieldIdx(a2)
  {
  }
}

/** Basal metabolic rate (kcal/day) by eight equations: `BMRCalculator`. */
module BMRCalculator {
  import opened Outcomes
  import opened BodyMetric
  import opened BMRCalculatorConstants
  import Gender
  import InputProcessor
  import UnitConvertor
  import BasicBodyParameterValidator
  import HealthMetricValidator

  /** The two-argument private `validateBasicParameters`: gender, then weight. */
  function ValidateGenderWeight(gender: Nullable<string>, weight: real): (r: Check)
    ensures r.Ok? <==> Gender.IsValidGender(gender) && WEIGHT.IsValid(weight)
    ensures r.IsFailure() ==> r == (if !Gender.IsValidGender(gender) then BasicBodyParameterValidator.ValidateGender(gender)
                                    else BasicBodyParameterValidator.ValidateWeight(weight))
  {
    var _ :- BasicBodyParameterValidator.ValidateGender(gender);
    BasicBodyParameterValidator.ValidateWeight(weight)
  }

  /** The three-argument private `validateBasicParameters`: gender, weight, then age. */
  function ValidateGenderWeightAge(gender: Nullable<string>, weight: real, age: int): (r: Check)
    ensures r.Ok? <==> Gender.IsValidGender(gender) && WEIGHT.IsValid(weight) && 1 <= age <= 122
    ensures r.IsFailure() ==> r == (if ValidateGenderWeight(gender, weight).IsFailure() then ValidateGenderWeight(gender, weight)
                                    else BasicBodyParameterValidator.ValidateAge(age))
  {
    var _ :- ValidateGenderWeight(gender, weight);
    BasicBodyParameterValidator.ValidateAge(age)
  }

  /** The four-argument private `validateBasicParameters`: height first, then gender, weight and age. */
  function ValidateAll(gender: Nullable<string>, weight: real, height: real, age: int): (r: Check)
    ensures r.Ok? <==> HEIGHT.IsValid(height) && Gender.IsValidGender(gender) && WEIGHT.IsValid(weight) && 1 <= age <= 122
    ensures r.IsFailure() ==> r == (if !HEIGHT.IsValid(height) then BasicBodyParameterValidator.ValidateHeight(height)
                                    else ValidateGenderWeightAge(gender, weight, age))
  {
    var _ :- BasicBodyParameterValidator.ValidateHeight(height);
    ValidateGenderWeightAge(gender, weight, age)
  }

  /** The private `calculateBMRByGeneralFormula`: linear in weight, height and age. */
  function GeneralFormula(c: BmrCoefficients, weight: real, height: real, age: int): real
  {
    c.weight * weight + c.height * height + c.age * (age as real) + c.constTerm
  }

  /** The general formula with the height and age terms switched off, as the weight-only equations call it. */
  function WeightOnlyFormula(weightCoefficient: real, weight: real, constTerm: real): real
  {
    GeneralFormula(BmrCoefficients(weightCoefficient, HeightCoefficientNone, AgeCoefficientNone, constTerm),
                   weight, HeightValueZero, AgeValueZero)
  }

  /** The zero height and age terms drop out: what is left is linear in the weight. */
  lemma ZeroTermsVanish(weightCoefficient: real, weight: real, constTerm: real)
    ensures WeightOnlyFormula(weightCoefficient, weight, constTerm) == weightCoefficient * weight + constTerm
  {
  }

  /** An hourly rate per m² scaled to a day for the given body surface area. */
  function DailyBMR(hourlyBMR: real, bsa: real): real
  {
    hourlyBMR * bsa * (Hours as real)
  }

  /**
   * `calculateBSABasedBMR`: the hourly rate per m² for the age and gender,
   * times the body surface area, times 24 hours. The age and the BSA are
   * checked (the Java method repeats the age check, which changes nothing), but
   * the gender is only checked when the table is chosen.
   */
  function CalculateBSABasedBMR(gender: Nullable<string>, age: int, bsa: real): (r: Outcome<real>)
    ensures r.Ok? <==> 1 <= age <= 122 && BSA.IsValid(bsa) && Gender.IsValidGender(gender)
    ensures !(1 <= age <= 122) ==> r == BasicBodyParameterValidator.ValidateAge(age).PropagateFailure()
    ensures 1 <= age <= 122 && !BSA.IsValid(bsa) ==> r == HealthMetricValidator.ValidateBSA(bsa).PropagateFailure()
    ensures 1 <= age <= 122 && BSA.IsValid(bsa) && !Gender.IsValidGender(gender) ==> r == Gender.IsMale(gender).PropagateFailure()
    ensures r.Ok? ==> r.value == DailyBMR(GetHourlyBMR(gender, age).value, bsa)
  {
    var _ :- BasicBodyParameterValidator.ValidateAge(age);
    var _ :- HealthMetricValidator.ValidateBSA(bsa);
    var hourlyBMR :- GetHourlyBMR(gender, age);
    Ok(DailyBMR(hourlyBMR, bsa))
  }

  /**
   * `calculateBMRByHenryEquation`: the age band's kJ coefficients, the
   * result converted to kcal.
   */
  function CalculateBMRByHenry(gender: Nullable<string>, weight: real, age: int): (r: Outcome<real>)
    ensures r.Ok? <==> ValidateGenderWeightAge(gender, weight, age).Ok?
    ensures r.IsFailure() ==> r == ValidateGenderWeightAge(gender, weight, age).PropagateFailure()
    ensures r.Ok? ==> r.value * 4.184 == WeightOnlyFormula(HenryWeightCoefficient(gender, age).value, weight,
                                                           HenryConstTerm(gender, age).value)
  {
    var _ :- ValidateGenderWeightAge(gender, weight, age);
    var weightCoefficient := HenryWeightCoefficient(gender, age).value;
    var constTerm := HenryConstTerm(gender, age).value;
    Ok(UnitConvertor.JouleToCalorie(WeightOnlyFormula(weightCoefficient, weight, constTerm)))
  }

  /** `calculateBMRByHBEquation`: the Harris-Benedict coefficients of the gender, with no unit conversion. */
  function CalculateBMRByHB(gender: Nullable<string>, weight: real, height: real, age: int): (r: Outcome<real>)
    ensures r.Ok? <==> ValidateAll(gender, weight, height, age).Ok?
    ensures r.IsFailure() ==> r == ValidateAll(gender, weight, height, age).PropagateFailure()
    ensures r.Ok? ==> r.value == GeneralFormula(if Gender.IsMale(gender).value then HBMale else HBFemale, weight, height, age)
  {
    var _ :- ValidateAll(gender, weight, height, age);
    if Gender.IsMale(gender).value then Ok(GeneralFormula(HBMale, weight, height, age))
    else Ok(GeneralFormula(HBFemale, weight, height, age))
  }

  /**
   * `calculateBMRByKatchMcArdleEquation`: 370 plus 21.6 per kg of fat-free
   * mass, the weight less its body-fat percentage; BFR is checked first.
   */
  function CalculateBMRByKatchMcArdle(bfr: real, weight: real): (r: Outcome<real>)
    ensures r.Ok? <==> BFR.IsValid(bfr) && WEIGHT.IsValid(weight)
    ensures !BFR.IsValid(bfr) ==> r == HealthMetricValidator.ValidateBFR(bfr).PropagateFailure()
    ensures BFR.IsValid(bfr) && !WEIGHT.IsValid(weight) ==> r == BasicBodyParameterValidator.ValidateWeight(weight).PropagateFailure()
    ensures r.Ok? ==> (r.value - 370.0) / 21.6 == weight - weight * bfr / 100.0
  {
    var _ :- HealthMetricValidator.ValidateBFR(bfr);
    var _ :- BasicBodyParameterValidator.ValidateWeight(weight);
    var ffm := weight * (1.0 - UnitConvertor.PercentageToDecimal(bfr));
    Ok(370.0 + 21.6 * ffm)
  }

  /** `calculateBMRByMSJEquation`: the Mifflin-St Jeor coefficients of the gender. */
  function CalculateBMRByMSJ(gender: Nullable<string>, weight: real, height: real, age: int): (r: Outcome<real>)
    ensures r.Ok? <==> ValidateAll(gender, weight, height, age).Ok?
    ensures r.IsFailure() ==> r == ValidateAll(gender, weight, height, age).PropagateFailure()
    ensures r.Ok? ==> r.value == GeneralFormula(if Gender.IsMale(gender).value then MSJMale else MSJFemale, weight, height, age)
  {
    var _ :- ValidateAll(gender, weight, height, age);
    if Gender.IsMale(gender).value then Ok(GeneralFormula(MSJMale, weight, height, age))
    else Ok(GeneralFormula(MSJFemale, weight, height, age))
  }

  /** `calculateBMRByMaoEquation`: weight only, in kJ, converted to kcal. */
  function CalculateBMRByMao(gender: Nullable<string>, weight: real): (r: Outcome<real>)
    ensures r.Ok? <==> ValidateGenderWeight(gender, weight).Ok?
    ensures r.IsFailure() ==> r == ValidateGenderWeight(gender, weight).PropagateFailure()
    ensures r.Ok? ==> r.value * 4.184 == (if Gender.IsMale(gender).value then 48.5 * weight + 2954.7 else 41.9 * weight + 2269.1)
  {
    var _ :- ValidateGenderWeight(gender, weight);
    if Gender.IsMale(gender).value then
      Ok(UnitConvertor.JouleToCalorie(GeneralFormula(MaoMale, weight, HeightValueZero, AgeValueZero)))
    else
      Ok(UnitConvertor.JouleToCalorie(GeneralFormula(MaoFemale, weight, HeightValueZero, AgeValueZero)))
  }

  /** `calculateBMRBySchofieldEquation`: the age band's coefficients, with no unit conversion. */
  function CalculateBMRBySchofield(gender: Nullable<string>, weight: real, age: int): (r: Outcome<real>)
    ensures r.Ok? <==> ValidateGenderWeightAge(gender, weight, age).Ok?
    ensures r.IsFailure() ==> r == ValidateGenderWeightAge(gender, weight, age).PropagateFailure()
    ensures r.Ok? ==> r.value == WeightOnlyFormula(SchofieldWeightCoefficient(gender, age).value, weight,
                                                   SchofieldConstantTerm(gender, age).value)
  {
    var _ :- ValidateGenderWeightAge(gender, weight, age);
    var weightCoefficient := SchofieldWeightCoefficient(gender, age).value;
    var constTerm := SchofieldConstantTerm(gender, age).value;
    Ok(WeightOnlyFormula(weightCoefficient, weight, constTerm))
  }

  /** `calculateBMRByShizgalRosaEquation`: the gender's coefficients in kJ, converted to kcal. */
  function CalculateBMRByShizgalRosa(gender: Nullable<string>, weight: real, height: real, age: int): (r: Outcome<real>)
    ensures r.Ok? <==> ValidateAll(gender, weight, height, age).Ok?
    ensures r.IsFailure() ==> r == ValidateAll(gender, weight, height, age).PropagateFailure()
    ensures r.Ok? ==> r.value * 4.184 == GeneralFormula(if Gender.IsMale(gender).value then ShizgalRosaMale else ShizgalRosaFemale,
                                                        weight, height, age)
  {
    var _ :- ValidateAll(gender, weight, height, age);
    if Gender.IsMale(gender).value then Ok(UnitConvertor.JouleToCalorie(GeneralFormula(ShizgalRosaMale, weight, height, age)))
    else Ok(UnitConvertor.JouleToCalorie(GeneralFormula(ShizgalRosaFemale, weight, height, age)))
  }

  /** Mifflin-St Jeor: for the same body a man's BMR is 166 kcal/day above a woman's. */
  lemma MSJGenderGap(weight: real, height: real, age: int)
    requires CalculateBMRByMSJ(NonNull("男"), weight, height, age).Ok?
    ensures CalculateBMRByMSJ(NonNull("女"), weight, height, age).Ok?
    ensures CalculateBMRByMSJ(NonNull("男"), weight, height, age).value
            - CalculateBMRByMSJ(NonNull("女"), weight, height, age).value == 166.0
  {
    Gender.ChineseNamesClassify();
  }

  /** Mifflin-St Jeor: the two sets share the weight, height and age coefficients and differ only in the constant. */
  lemma MSJSetsShareCoefficients(weight: real, height: real, age: int)
    ensures MSJMale.(constTerm := MSJFemale.constTerm) == MSJFemale
    ensures GeneralFormula(MSJMale, weight, height, age) - MSJMale.constTerm
            == GeneralFormula(MSJFemale, weight, height, age) - MSJFemale.constTerm
  {
  }

  /** Schofield: a man's weight coefficient drops from 15.1 at 29 to 11.5 at 30, where the next band starts. */
  lemma SchofieldMaleBandSwitchesAt30()
    ensures SchofieldWeightCoefficient(NonNull("男"), 29) == Ok(15.1)
    ensures SchofieldWeightCoefficient(NonNull("男"), 30) == Ok(11.5)
    ensures SchofieldConstantTerm(NonNull("男"), 29) == Ok(692.0)
    ensures SchofieldConstantTerm(NonNull("男"), 30) == Ok(873.0)
  {
    Gender.ChineseNamesClassify();
  }

  /** Henry: the coefficients switch at age 30, for both genders. */
  lemma HenryBandSwitchesAt30(gender: Nullable<string>, weight: real)
    requires Gender.IsValidGender(gender) && WEIGHT.IsValid(weight)
    ensures CalculateBMRByHenry(gender, weight, 29).Ok? && CalculateBMRByHenry(gender, weight, 30).Ok?
    ensures Gender.IsMale(gender).value ==>
      CalculateBMRByHenry(gender, weight, 29).value * 4.184 == 51.0 * weight + 3500.0 &&
      CalculateBMRByHenry(gender, weight, 30).value * 4.184 == 53.0 * weight + 3070.0
    ensures !Gender.IsMale(gender).value ==>
      CalculateBMRByHenry(gender, weight, 29).value * 4.184 == 47.0 * weight + 2880.0 &&
      CalculateBMRByHenry(gender, weight, 30).value * 4.184 == 39.0 * weight + 3070.0
  {
  }

  /** Katch-McArdle: a larger weight at the same body-fat rate never lowers the BMR. */
  lemma {:induction false} KatchMcArdleGrowsWithWeight(bfr: real, w1: real, w2: real)
    requires w1 < w2
    requires CalculateBMRByKatchMcArdle(bfr, w1).Ok? && CalculateBMRByKatchMcArdle(bfr, w2).Ok?
    ensures CalculateBMRByKatchMcArdle(bfr, w1).value < CalculateBMRByKatchMcArdle(bfr, w2).value
  {
    var f := 1.0 - bfr * 0.01;
    assert f > 0.0;
    assert w1 * f < w2 * f;
  }

  /** The BSA-based BMR of a valid gender and age is the table entry times BSA times 24. */
  lemma BSABasedBMRAtAge80(bsa: real)
    requires BSA.IsValid(bsa)
    ensures CalculateBSABasedBMR(NonNull("男"), 80, bsa) == Ok(33.0 * bsa * 24.0)
    ensures CalculateBSABasedBMR(NonNull("女"), 122, bsa) == Ok(30.9 * bsa * 24.0)
  {
    Gender.ChineseNamesClassify();
    assert Gender.IsValidGender(NonNull("女"));
  }

  /** An unknown gender reaches the BSA-based equation unchecked and fails in `isMale`, not in `validateGender`. */
  lemma BSABasedBMRGenderMessage()
    ensures CalculateBSABasedBMR(NonNull("x"), 30, 1.8) == IllegalArg(GenderNotRecognised("x"))
  {
    InputProcessor.TrimOfTrimmed("x");
  }
}
