/** Conversions between Java's value types: `TypeConvertor`. */
module TypeConvertor {
  import opened Outcomes

  /** The bounds of a Java `int`. */
  const IntMin: int := -0x8000_0000
  const IntMax: int := 0x7fff_ffff

  /** A Java `int`. */
  type Int32 = x: int | IntMin <= x <= IntMax

  /** Java's 32-bit two's-complement wrap-around of an exact integer result. */
  function Wrap(x: int): (r: Int32)
    ensures (r - x) % 0x1_0000_0000 == 0
    ensures IntMin <= x <= IntMax ==> r == x
  {
    (x - IntMin) % 0x1_0000_0000 + IntMin
  }

  /**
   * Java's `/` on `int` for a positive divisor: the quotient rounded toward
   * zero (Dafny's own `/` rounds toward negative infinity here).
   */
  function JavaDiv(a: int, b: int): (q: int)
    requires b > 0
    ensures a >= 0 ==> 0 <= q * b <= a < q * b + b
    ensures a < 0 ==> q * b - b < a <= q * b <= 0
  {
    var n := if a >= 0 then a else -a;
    var q0 := n / b;
    assert n == q0 * b + n % b && 0 <= n % b < b;
    if a >= 0 then q0 else -q0
  }

  /** `toStringBuilder`: a builder holding the characters of a non-null string. */
  function ToStringBuilder(s: Nullable<string>): (r: Outcome<string>)
    ensures r.Ok? <==> s.NonNull?
    ensures r.Ok? ==> r.value == s.get
    ensures r.IsFailure() ==> r == NullPtr
  {
    match s
    case Null => NullPtr
    case NonNull(text) => Ok(text)
  }

  /** `toString(StringBuilder)`: the text a non-null builder holds. */
  function BuilderToString(sb: Nullable<string>): (r: Outcome<string>)
    ensures r.Ok? <==> sb.NonNull?
    ensures r.Ok? ==> r.value == sb.get
    ensures r.IsFailure() ==> r == NullPtr
  {
    if sb.Null? then NullPtr else Ok(sb.get)
  }

  /** A builder made from a string gives that string back. */
  lemma BuilderRoundTrip(s: string)
    ensures ToStringBuilder(NonNull(s)).Ok?
    ensures BuilderToString(NonNull(ToStringBuilder(NonNull(s)).value)) == Ok(s)
  {
  }

  /** `toInt(boolean)`: 1 for true, 0 for false. */
  function BoolToInt(b: bool): (r: int)
    ensures r == 0 || r == 1
    ensures r == 1 <==> b
  {
    if b then 1 else 0
  }

  /**
   * `toInt(double)`: Java's narrowing cast `(int) value`, which rounds toward
   * zero and saturates at the bounds of `int`.
   */
  function DoubleToInt(x: real): (r: int)
    ensures IntMin <= r <= IntMax
    ensures x >= IntMax as real ==> r == IntMax
    ensures x <= IntMin as real ==> r == IntMin
    ensures IntMin as real < x < IntMax as real ==>
      (0.0 <= x ==> r as real <= x < r as real + 1.0) &&
      (x < 0.0 ==> r as real - 1.0 < x <= r as real)
  {
    if x >= IntMax as real then IntMax
    else if x <= IntMin as real then IntMin
    else if x >= 0.0 then x.Floor
    else -((-x).Floor)
  }

  /** The cast leaves a whole number of `int` range unchanged. */
  lemma DoubleToIntOfInt(n: int)
    requires IntMin <= n <= IntMax
    ensures DoubleToInt(n as real) == n
  {
  }
}

/** Unit conversion factors and the conversions built on them: `UnitConvertor`. */
module UnitConvertor {
  const InchToCmFactor: real := 2.54
  const CmToInchFactor: real := 1.0 / 2.54
  const MetreToCmFactor: real := 100.0
  const CmToMetreFactor: real := 0.01
  const CalorieToJouleFactor: real := 4.184
  const JouleToCalorieFactor: real := 1.0 / 4.184
  const KjToJouleFactor: real := 1000.0
  const JouleToKjFactor: real := 0.001
  const KcalToCalorieFactor: real := 1000.0
  const CalorieToKcalFactor: real := 0.001
  const DecimalToPercentageFactor: real := 100.0
  const PercentageToDecimalFactor: real := 0.01

  /** Centimetres to inches: the inches that, at 2.54 cm each, make up `cm`. */
  function CmToInch(cm: real): (inch: real)
    ensures inch * 2.54 == cm
  {
    cm * CmToInchFactor
  }

  /** Inches to centimetres. */
  function InchToCm(inch: real): (cm: real)
    ensures CmToInch(cm) == inch
  {
    inch * InchToCmFactor
  }

  /** Centimetres to metres. */
  function CmToMetre(cm: real): (m: real)
    ensures m * 100.0 == cm
  {
    cm * CmToMetreFactor
  }

  /** Metres to centimetres. */
  function MetreToCm(m: real): (cm: real)
    ensures CmToMetre(cm) == m
  {
    m * MetreToCmFactor
  }

  /** Joules to calories: the calories that, at 4.184 J each, make up `joule`. */
  function JouleToCalorie(joule: real): (cal: real)
    ensures cal * 4.184 == joule
  {
    joule * JouleToCalorieFactor
  }

  /** Calories to joules. */
  function CalorieToJoule(cal: real): (joule: real)
    ensures JouleToCalorie(joule) == cal
  {
    cal * CalorieToJouleFactor
  }

  /** Joules to kilojoules. */
  function JouleToKj(joule: real): (kj: real)
    ensures kj * 1000.0 == joule
  {
    joule * JouleToKjFactor
  }

  /** Calories to kilocalories. */
  function CalorieToKcal(cal: real): (kcal: real)
    ensures kcal * 1000.0 == cal
  {
    cal * CalorieToKcalFactor
  }

  /** A percentage to the fraction it denotes. */
  function PercentageToDecimal(percent: real): (fraction: real)
    ensures fraction * 100.0 == percent
  {
    percent * PercentageToDecimalFactor
  }

  /** Each pair of reciprocal factors multiplies to one. */
  lemma FactorsAreReciprocal()
    ensures InchToCmFactor * CmToInchFactor == 1.0
    ensures MetreToCmFactor * CmToMetreFactor == 1.0
    ensures CalorieToJouleFactor * JouleToCalorieFactor == 1.0
    ensures KjToJouleFactor * JouleToKjFactor == 1.0
    ensures KcalToCalorieFactor * CalorieToKcalFactor == 1.0
    ensures DecimalToPercentageFactor * PercentageToDecimalFactor == 1.0
  {
  }

  /** Converting there and back gives the starting length or energy. */
  lemma RoundTrips(x: real)
    ensures InchToCm(CmToInch(x)) == x && CmToInch(InchToCm(x)) == x
    ensures MetreToCm(CmToMetre(x)) == x && CmToMetre(MetreToCm(x)) == x
    ensures CalorieToJoule(JouleToCalorie(x)) == x && JouleToCalorie(CalorieToJoule(x)) == x
  {
  }

  /** The conversions preserve order: a longer length or larger energy stays larger. */
  lemma ConversionsAreIncreasing(x: real, y: real)
    requires x < y
    ensures CmToInch(x) < CmToInch(y) && InchToCm(x) < InchToCm(y)
    ensures CmToMetre(x) < CmToMetre(y) && MetreToCm(x) < MetreToCm(y)
    ensures JouleToCalorie(x) < JouleToCalorie(y) && CalorieToJoule(x) < CalorieToJoule(y)
    ensures JouleToKj(x) < JouleToKj(y) && CalorieToKcal(x) < CalorieToKcal(y)
    ensures PercentageToDecimal(x) < PercentageToDecimal(y)
  {
  }
}
