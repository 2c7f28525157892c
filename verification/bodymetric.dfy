/** Formatting of closed ranges for messages: the range checks of `ValueFormatter`. */
module ValueFormatter {
  import opened Outcomes
  import MethodParameterValidator

  /**
   * `formatClosedRange(double, double)`: the one-decimal range text; a range
   * that is not strictly increasing is refused.
   */
  function FormatClosedRange(lowerBound: real, upperBound: real): (r: Outcome<RangeText>)
    ensures r.Ok? <==> lowerBound < upperBound
    ensures r.Ok? ==> r.value == RangeText(lowerBound, upperBound, 1)
    ensures r.IsFailure() ==> r == IllegalArg(RangeNotIncreasing(lowerBound, upperBound))
  {
    var _ :- MethodParameterValidator.ValidateRange(NonNull(lowerBound), NonNull(upperBound));
    Ok(RangeText(lowerBound, upperBound, 1))
  }

  /** `formatClosedRange(int, int)`: the same check, printed without decimals. */
  function FormatClosedRangeInt(lowerBound: int, upperBound: int): (r: Outcome<RangeText>)
    ensures r.Ok? <==> lowerBound < upperBound
    ensures r.Ok? ==> r.value == RangeText(lowerBound as real, upperBound as real, 0)
  {
    var _ :- MethodParameterValidator.ValidateRange(NonNull(lowerBound as real), NonNull(upperBound as real));
    Ok(RangeText(lowerBound as real, upperBound as real, 0))
  }
}

/** The measured and derived quantities with their admissible ranges: `BasicBodyParameter` and `HealthMetric`. */
module BodyMetric {
  import opened Outcomes
  import TypeConvertor
  import ValueFormatter

  /** The health metrics the calculators produce. */
  datatype HealthMetric = BMI | WHR | BFR | BRI | BMR | TDEE | BSA
  {
    function Abbreviation(): string
    {
      match this
      case BMI => "BMI" case WHR => "WHR" case BFR => "BFR" case BRI => "BRI"
      case BMR => "BMR" case TDEE => "TDEE" case BSA => "BSA"
    }

    function Unit(): string
    {
      match this
      case BMI => "kg/m²" case WHR => "" case BFR => "%" case BRI => ""
      case BMR => "kcal/day" case TDEE => "kcal/day" case BSA => "m²"
    }

    function MinValue(): real
    {
      match this
      case BMI => 10.0 case WHR => 0.5 case BFR => 3.0 case BRI => 0.0
      case BMR => 500.0 case TDEE => 800.0 case BSA => 0.2
    }

    function MaxValue(): real
    {
      match this
      case BMI => 180.0 case WHR => 1.5 case BFR => 60.0 case BRI => 100.0
      case BMR => 10000.0 case TDEE => 15000.0 case BSA => 3.0
    }

    /** `getFormattedClosedRange`: the metric's range as printed in messages. */
    function FormattedClosedRange(): (r: Outcome<RangeText>)
      ensures r == Ok(RangeText(MinValue(), MaxValue(), 1))
    {
      ValueFormatter.FormatClosedRange(MinValue(), MaxValue())
    }

    /** `isValid(double)`: the value lies in the metric's closed range. */
    predicate IsValid(value: real)
    {
      MinValue() <= value && value <= MaxValue()
    }
  }

  const AllHealthMetrics: seq<HealthMetric> := [BMI, WHR, BFR, BRI, BMR, TDEE, BSA]

  /** The measured body parameters. */
  datatype BasicBodyParameter =
    | AGE | WEIGHT | HEIGHT | WAIST_CIRCUMFERENCE | HIP_CIRCUMFERENCE
    | NECK_CIRCUMFERENCE | ARM_CIRCUMFERENCE | ACTIVITY_COEFFICIENT
  {
    function Abbreviation(): string
    {
      match this
      case AGE => "AGE" case WEIGHT => "WT" case HEIGHT => "HT"
      case WAIST_CIRCUMFERENCE => "WC" case HIP_CIRCUMFERENCE => "HC"
      case NECK_CIRCUMFERENCE => "NC" case ARM_CIRCUMFERENCE => "AC"
      case ACTIVITY_COEFFICIENT => "AC"
    }

    function Unit(): string
    {
      match this
      case AGE => "岁" case WEIGHT => "kg" case ACTIVITY_COEFFICIENT => ""
      case HEIGHT | WAIST_CIRCUMFERENCE | HIP_CIRCUMFERENCE | NECK_CIRCUMFERENCE | ARM_CIRCUMFERENCE => "cm"
    }

    function MinValue(): real
    {
      match this
      case AGE => 1.0 case WEIGHT => 2.0 case HEIGHT => 50.0
      case WAIST_CIRCUMFERENCE => 40.0 case HIP_CIRCUMFERENCE => 50.0
      case NECK_CIRCUMFERENCE => 20.0 case ARM_CIRCUMFERENCE => 15.0
      case ACTIVITY_COEFFICIENT => 1.0
    }

    function MaxValue(): real
    {
      match this
      case AGE => 122.0 case WEIGHT => 635.0 case HEIGHT => 272.0
      case WAIST_CIRCUMFERENCE => 302.0 case HIP_CIRCUMFERENCE => 244.0
      case NECK_CIRCUMFERENCE => 60.0 case ARM_CIRCUMFERENCE => 45.0
      case ACTIVITY_COEFFICIENT => 2.6
    }

    /**
     * `getFormattedClosedRange`: one decimal, except AGE, whose bounds are
     * first cast to `int` and printed without decimals.
     */
    function FormattedClosedRange(): (r: Outcome<RangeText>)
      ensures this != AGE ==> r == Ok(RangeText(MinValue(), MaxValue(), 1))
      ensures this == AGE ==> r == Ok(RangeText(1.0, 122.0, 0))
    {
      if this != AGE then ValueFormatter.FormatClosedRange(MinValue(), MaxValue())
      else ValueFormatter.FormatClosedRangeInt(TypeConvertor.DoubleToInt(MinValue()), TypeConvertor.DoubleToInt(MaxValue()))
    }

    /** `isValid(double)`: the value lies in the parameter's closed range. */
    predicate IsValid(value: real)
    {
      MinValue() <= value && value <= MaxValue()
    }

    /** `isValid(int)`: the value lies between the bounds cast to `int`. */
    predicate IsValidInt(value: int)
    {
      TypeConvertor.DoubleToInt(MinValue()) <= value && value <= TypeConvertor.DoubleToInt(MaxValue())
    }
  }

  const AllBasicBodyParameters: seq<BasicBodyParameter> :=
    [AGE, WEIGHT, HEIGHT, WAIST_CIRCUMFERENCE, HIP_CIRCUMFERENCE, NECK_CIRCUMFERENCE, ARM_CIRCUMFERENCE, ACTIVITY_COEFFICIENT]

  /** Every range is strictly increasing, so formatting a range never throws. */
  lemma RangesAreIncreasing(m: HealthMetric, p: BasicBodyParameter)
    ensures m.MinValue() < m.MaxValue() && m.FormattedClosedRange().Ok?
    ensures p.MinValue() < p.MaxValue() && p.FormattedClosedRange().Ok?
  {
  }

  /**
   * On whole numbers the `int` check agrees with the `double` check for every
   * parameter, because every lower bound is a whole number.
   */
  lemma {:induction false} IntCheckAgreesOnWholeNumbers(p: BasicBodyParameter, v: int)
    ensures p.IsValidInt(v) <==> p.IsValid(v as real)
  {
    var lo, hi := TypeConvertor.DoubleToInt(p.MinValue()), TypeConvertor.DoubleToInt(p.MaxValue());
    assert lo as real == p.MinValue();
    assert hi as real <= p.MaxValue() < hi as real + 1.0;
  }

  /** The age range admits exactly the whole years 1 to 122. */
  lemma AgeRange(age: int)
    ensures AGE.IsValidInt(age) <==> 1 <= age <= 122
  {
  }

  /** Two parameters share an abbreviation: arm circumference and activity coefficient are both "AC". */
  lemma AbbreviationsClash()
    ensures ARM_CIRCUMFERENCE.Abbreviation() == ACTIVITY_COEFFICIENT.Abbreviation()
    ensures forall i, j :: 0 <= i < j < |AllHealthMetrics| ==>
      AllHealthMetrics[i].Abbreviation() != AllHealthMetrics[j].Abbreviation()
  {
  }
}

/** The two accepted genders and the checks on gender strings: `Gender`. */
module Gender {
  import opened Outcomes
  import InputProcessor
  import TypeConvertor

  datatype Gender = FEMALE | MALE
  {
    function ChineseName(): string
    {
      if this == FEMALE then "女" else "男"
    }

    function EnglishName(): string
    {
      if this == FEMALE then "Female" else "Male"
    }

    function Code(): int
    {
      if this == FEMALE then 0 else 1
    }
  }

  const Values: seq<Gender> := [FEMALE, MALE]

  /** `getValidGenderOptions`: the Chinese names in declaration order. */
  function ValidGenderOptions(): (r: seq<string>)
    ensures |r| == |Values| && forall i :: 0 <= i < |r| ==> r[i] == Values[i].ChineseName()
  {
    ["女", "男"]
  }

  /** Java's `Character.toLowerCase` on ASCII letters; other characters are kept. */
  function FoldCase(c: char): char
  {
    if 'A' <= c <= 'Z' then (c as int + 32) as char else c
  }

  /** `String.equalsIgnoreCase`: equal length and equal characters after case folding. */
  predicate EqualsIgnoreCase(a: string, b: string)
  {
    |a| == |b| && forall i :: 0 <= i < |a| ==> FoldCase(a[i]) == FoldCase(b[i])
  }

  /**
   * `isValidGender`: not `null`, and once trimmed either a Chinese name or,
   * ignoring case, an English name.
   */
  predicate IsValidGender(gender: Nullable<string>)
  {
    gender.NonNull? &&
    var trimmed := InputProcessor.ToTrimmedOrEmptyStr(gender);
    Names(FEMALE, trimmed) || Names(MALE, trimmed)
  }

  /** The test `isValidGender` applies to each constant of `values()`. */
  predicate Names(g: Gender, trimmed: string)
  {
    g.ChineseName() == trimmed || EqualsIgnoreCase(g.EnglishName(), trimmed)
  }

  /**
   * `isMale`: `null` throws NullPointerException, an invalid gender throws
   * IllegalArgumentException, and otherwise the trimmed text is "男".
   */
  function IsMale(gender: Nullable<string>): (r: Outcome<bool>)
    ensures gender.Null? <==> r == NullPtr
    ensures r.Ok? <==> IsValidGender(gender)
    ensures gender.NonNull? && !IsValidGender(gender) ==> r == IllegalArg(GenderNotRecognised(gender.get))
    ensures r.Ok? ==> (r.value <==> InputProcessor.Trim(gender.get) == MALE.ChineseName())
  {
    if gender.Null? then NullPtr
    else if !IsValidGender(gender) then IllegalArg(GenderNotRecognised(gender.get))
    else Ok(InputProcessor.ToTrimmedOrEmptyStr(gender) == MALE.ChineseName())
  }

  /** `intIsMale`: the code of the gender, 1 for male and 0 for female. */
  function IntIsMale(gender: Nullable<string>): (r: Outcome<int>)
    ensures r.Ok? <==> IsMale(gender).Ok?
    ensures r.Ok? ==> r.value == TypeConvertor.BoolToInt(IsMale(gender).value)
    ensures r.IsFailure() ==> r == IsMale(gender).PropagateFailure()
  {
    var male :- IsMale(gender);
    Ok(if male then MALE.Code() else FEMALE.Code())
  }

  /** A valid gender string names exactly one gender after trimming. */
  lemma ValidGenderCases(gender: string)
    ensures IsValidGender(NonNull(gender)) <==>
      var t := InputProcessor.Trim(gender);
      t == "女" || t == "男" || EqualsIgnoreCase("Female", t) || EqualsIgnoreCase("Male", t)
  {
  }

  /** Surrounding blanks are ignored: " 男 " is male and "女" is female. */
  lemma ChineseNamesClassify()
    ensures IsMale(NonNull(" 男 ")) == Ok(true)
    ensures IsMale(NonNull("女")) == Ok(false)
    ensures IntIsMale(NonNull("男")) == Ok(1)
  {
    InputProcessor.TrimOfTrimmed("男");
    InputProcessor.TrimOfTrimmed("女");
    assert InputProcessor.LeadingTrimmable(" 男 ") == 1;
    assert InputProcessor.Trim(" 男 ") == "男";
  }

  /**
   * An English name passes the validity check but is never classified as
   * male: "MALE" is accepted and then treated as female.
   */
  lemma EnglishMaleIsNotMale()
    ensures IsValidGender(NonNull("MALE"))
    ensures IsMale(NonNull("MALE")) == Ok(false)
  {
    InputProcessor.TrimOfTrimmed("MALE");
    assert EqualsIgnoreCase(MALE.EnglishName(), "MALE");
  }

  /** A `null` or unknown gender makes every gender-dependent step throw. */
  lemma InvalidGenderThrows()
    ensures IsMale(Null) == NullPtr
    ensures IsMale(NonNull("")).IllegalArg?
  {
    assert InputProcessor.Trim("") == "";
  }
}
