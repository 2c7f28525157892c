/**
 * Values shared by the whole model: Java's nullable references, the exceptions
 * the calculators raise, and the closed-range text the error messages carry.
 */
module Outcomes {

  /** A Java reference that may be `null`. */
  datatype Nullable<T> = Null | NonNull(get: T)

  /**
   * The closed range `[ lower, upper ]` as the error messages print it, with
   * `digits` decimals (0 for the int-valued age range, 1 everywhere else).
   * Rendering the digits is not modelled; the bounds themselves are kept.
   */
  datatype RangeText = RangeText(lower: real, upper: real, digits: nat)

  /** Why an `IllegalArgumentException` was raised: which message the Java code builds. */
  datatype Cause =
    | OutOfRange(name: string, range: RangeText, unit: string)      // "参数 %s 不在有效范围%s%s"
    | AgeOutOfRange(range: RangeText)                               // "参数 age( 年龄 )不在有效范围%s"
    | GenderNotAllowed(options: seq<string>)                        // "参数 gender 不在有效范围%s"
    | GenderNotRecognised(gender: string)                           // "无效的性别参数: "
    | RangeNotIncreasing(lower: real, upper: real)                  // lowerBound must be < upperBound
    | LowerAboveUpper                                               // "参数 lowerBound 不能大于 upperBound"
    | NoMatchingInterval(value: real, name: string, range: RangeText)
    | NoSuchFunction(id: string)                                    // "编号 \"%s\" 对应的方法不存在"

  /**
   * The outcome of a Java call: its value, or the exception it throws.
   * `IndexOutOfBounds` stands for `ArrayIndexOutOfBoundsException`.
   * The failure-compatible members let a body propagate the first exception
   * with `:-`, as the Java code's sequence of validator calls does.
   */
  datatype Outcome<T> = Ok(value: T) | IllegalArg(cause: Cause) | NullPtr | IndexOutOfBounds
  {
    predicate IsFailure() { !Ok? }

    function PropagateFailure<U>(): Outcome<U>
      requires IsFailure()
    {
      match this
      case IllegalArg(c) => IllegalArg(c)
      case NullPtr => NullPtr
      case IndexOutOfBounds => IndexOutOfBounds
    }

    function Extract(): T
      requires Ok?
    {
      value
    }
  }

  /** A check that passes or throws: the result of a `void` validator. */
  type Check = Outcome<()>

  const Pass: Check := Ok(())
}
