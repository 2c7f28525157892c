# Health calculator core, modelled in Dafny

This project models the computational core of a Java console health
calculator (version 3.0.0, plus the arithmetic of the single-file beginner
version 1.0.0). From a user's basic body data (gender, age, weight, height
and body circumferences), the calculator computes body metrics:

- BMI, WHR (waist-hip ratio) and BRI (body roundness index);
- BFR (body fat rate) by several equations;
- BMR (basal metabolic rate) by eight equations;
- TDEE (total daily energy expenditure) and BSA (body surface area);
- ideal-weight ranges.

Every input and every result is checked against a closed validity range,
and a result is classified by looking it up in a table of intervals. A menu
maps function ids to actions.

The model covers:

- **Conversions and input helpers** (`convertors.dfy`, `input.dfy`).
  - Java `int` wrap-around, the `(int)` cast and `int` division.
  - Unit conversions.
  - `String.trim`.
  - Range checks.
  - Array, list and substring membership.
- **Enums** (`bodymetric.dfy`): `HealthMetric`, `BasicBodyParameter` and `Gender`, with their ranges, formatted ranges and gender parsing.
- **Validators** (`validators.dfy`): every check, including which exception is thrown, in which order and with which message data.
- **The user record** (`entity.dfy`): `User` together with its `UserBodyProfile` superclass, as one Dafny class whose setters change exactly one field. Its `compareTo`, `hashCode` and `equals` are modelled too.
- **The calculators** (`basic_calculators.dfy`, `bfr.dfy`, `bmr.dfy`, `bsa.dfy`, `ideal_weight.dfy`) and their constant tables.
- **The composite calculators** (`composite.dfy`): they compute a metric and store it on the user.
- **Interval classification** (`assessment.dfy`, `tables.dfy`): the provider's first-match lookup over an interval table, and every interval table of the analysis service, proved to cover exactly its metric's valid range, to leave documented gaps (BMI), or to reach from 0 up to `Double.MAX_VALUE` (female BRI and both waist tables).
- **`CalculationMethod`** (`calculation_method.dfy`): the enum and its visited flags.
- **`ApplicationConfig`** (`app_config.dfy`): the id-to-name, id-to-`Runnable` and id-to-`BiConsumer` maps and their lookups.
- **The beginner version** (`beginner.dfy`): BMI, the revised BMR, the BMI category and the TDEE table.

Java exceptions are values of `Outcomes.Outcome`:

- `IllegalArg` carries the cause of an `IllegalArgumentException`;
- `NullPtr` is a `NullPointerException`;
- `IndexOutOfBounds` is an `ArrayIndexOutOfBoundsException`.

A Java `null` is `Nullable.Null`. `double` is modelled as `real`. `Math.pow`,
`Math.sqrt` and `Math.log10` are fields of a `JavaMath.MathLib` value that
the formulas take as a parameter. Lemmas that need a property of them, such
as a positive `pow` or a true square root, state it as a precondition.

## Model

| member | source | states |
|---|---|---|
| TypeConvertor.ToStringBuilder | HealthCalculatorV3.0.0/src/com/github/existedname/healthcalculatorv3/util/convertor/TypeConvertor.java:37-40 | NullPointerException on null; otherwise the builder holds exactly the string |
| TypeConvertor.BuilderToString | HealthCalculatorV3.0.0/src/com/github/existedname/healthcalculatorv3/util/convertor/TypeConvertor.java:51-55 | NullPointerException on null; otherwise the text the builder holds |
| TypeConvertor.BuilderRoundTrip | HealthCalculatorV3.0.0/src/com/github/existedname/healthcalculatorv3/util/convertor/TypeConvertor.java:37-55 | string to builder and back gives the original string |
| TypeConvertor.BoolToInt | HealthCalculatorV3.0.0/src/com/github/existedname/healthcalculatorv3/util/convertor/TypeConvertor.java:66-68 | the result is 0 or 1, and 1 exactly for true |
| TypeConvertor.DoubleToInt | HealthCalculatorV3.0.0/src/com/github/existedname/healthcalculatorv3/util/convertor/TypeConvertor.java:76-78 | the `(int)` cast: truncation toward zero, saturating at the `int` bounds |
| TypeConvertor.DoubleToIntOfInt | HealthCalculatorV3.0.0/src/com/github/existedname/healthcalculatorv3/util/convertor/TypeConvertor.java:76-78 | a whole number in `int` range is kept, so the AGE bounds 1.0 and 122.0 become 1 and 122 |
| UnitConvertor.CmToInch | HealthCalculatorV3.0.0/src/com/github/existedname/healthcalculatorv3/util/convertor/UnitConvertor.java:80-82 | the result in inches times 2.54 is the length in cm |
| UnitConvertor.InchToCm | HealthCalculatorV3.0.0/src/com/github/existedname/healthcalculatorv3/util/convertor/UnitConvertor.java:90-92 | converting the result back to inches gives the input |
| UnitConvertor.CmToMetre | HealthCalculatorV3.0.0/src/com/github/existedname/healthcalculatorv3/util/convertor/UnitConvertor.java:100-102 | the result in metres times 100 is the length in cm |
| UnitConvertor.MetreToCm | HealthCalculatorV3.0.0/src/com/github/existedname/healthcalculatorv3/util/convertor/UnitConvertor.java:110-112 | converting the result back to metres gives the input |
| UnitConvertor.JouleToCalorie | HealthCalculatorV3.0.0/src/com/github/existedname/healthcalculatorv3/util/convertor/UnitConvertor.java:124-126 | the result times 4.184 is the energy in joules |
| UnitConvertor.CalorieToJoule | HealthCalculatorV3.0.0/src/com/github/existedname/healthcalculatorv3/util/convertor/UnitConvertor.java:135-137 | converting the result back to calories gives the input |
| UnitConvertor.JouleToKj | HealthCalculatorV3.0.0/src/com/github/existedname/healthcalculatorv3/util/convertor/UnitConvertor.java:145-147 | the result times 1000 is the energy in joules |
| UnitConvertor.CalorieToKcal | HealthCalculatorV3.0.0/src/com/github/existedname/healthcalculatorv3/util/convertor/UnitConvertor.java:155-157 | the result times 1000 is the energy in calories |
| UnitConvertor.PercentageToDecimal | HealthCalculatorV3.0.0/src/com/github/existedname/healthcalculatorv3/util/convertor/UnitConvertor.java:165-167 | the result times 100 is the percentage |
| UnitConvertor.FactorsAreReciprocal | HealthCalculatorV3.0.0/src/com/github/existedname/healthcalculatorv3/util/convertor/UnitConvertor.java:17-51 | each pair of opposite conversion factors multiplies to 1 |
| UnitConvertor.RoundTrips | HealthCalculatorV3.0.0/src/com/github/existedname/healthcalculatorv3/util/convertor/UnitConvertor.java:80-137 | cm/inch, cm/metre and joule/calorie conversions are mutual inverses in both orders |
| UnitConvertor.ConversionsAreIncreasing | HealthCalculatorV3.0.0/src/com/github/existedname/healthcalculatorv3/util/convertor/UnitConvertor.java:80-167 | every conversion preserves strict order |
| InputProcessor.Trim | HealthCalculatorV3.0.0/src/com/github/existedname/healthcalculatorv3/util/input/InputProcessor.java:37 | `String.trim`: the result has no character at or below U+0020 at either end and is the slice of the input between the removed runs |
| InputProcessor.TrimOfTrimmed | HealthCalculatorV3.0.0/src/com/github/existedname/healthcalculatorv3/util/input/InputProcessor.java:37 | an already-trimmed string is returned unchanged |
| InputProcessor.TrimIdempotent | HealthCalculatorV3.0.0/src/com/github/existedname/healthcalculatorv3/util/input/InputProcessor.java:37 | trimming twice equals trimming once |
| InputProcessor.ToTrimmedOrEmptyStr | HealthCalculatorV3.0.0/src/com/github/existedname/healthcalculatorv3/util/input/InputProcessor.java:33-38 | null gives ""; the result is always trimmed; a trimmed input is returned as is |
| InputProcessor.ToTrimmedOrEmptyStrIdempotent | HealthCalculatorV3.0.0/src/com/github/existedname/healthcalculatorv3/util/input/InputProcessor.java:33-38 | normalising a normalised string changes nothing |
| InputValidator.IsInRangeReal | HealthCalculatorV3.0.0/src/com/github/existedname/healthcalculatorv3/util/input/InputValidator.java:42-45 | IllegalArgumentException exactly when lower >= upper (equal bounds too); otherwise whether lower <= value <= upper |
| InputValidator.IsInRangeInt | HealthCalculatorV3.0.0/src/com/github/existedname/healthcalculatorv3/util/input/InputValidator.java:58-61 | IllegalArgumentException exactly when lower > upper; otherwise whether lower <= value <= upper |
| InputValidator.OnePointRange | HealthCalculatorV3.0.0/src/com/github/existedname/healthcalculatorv3/util/input/InputValidator.java:42-61 | on a one-point range the double variant throws while the int variant accepts that value |
| InputValidator.ContainsInArray | HealthCalculatorV3.0.0/src/com/github/existedname/healthcalculatorv3/util/input/InputValidator.java:71-89 | false for a null array or target; otherwise true iff some element equals the target |
| InputValidator.ContainsInList | HealthCalculatorV3.0.0/src/com/github/existedname/healthcalculatorv3/util/input/InputValidator.java:98-106 | false for a null list or target; otherwise true iff the target is an element |
| InputValidator.ArrayAndListAgree | HealthCalculatorV3.0.0/src/com/github/existedname/healthcalculatorv3/util/input/InputValidator.java:71-106 | the array and the list variants give the same answer on the same elements |
| InputValidator.ContainsSubstring | HealthCalculatorV3.0.0/src/com/github/existedname/healthcalculatorv3/util/input/InputValidator.java:115-118 | false if either string is null; otherwise true iff the target occurs in the text at some position |
| InputValidator.ContainsEmptyAndItself | HealthCalculatorV3.0.0/src/com/github/existedname/healthcalculatorv3/util/input/InputValidator.java:115-118 | every text contains the empty string and itself |
| ValueFormatter.FormatClosedRange | HealthCalculatorV3.0.0/src/com/github/existedname/healthcalculatorv3/util/ValueFormatter.java:117-120 | IllegalArgumentException exactly when lower >= upper; otherwise the range with one decimal |
| ValueFormatter.FormatClosedRangeInt | HealthCalculatorV3.0.0/src/com/github/existedname/healthcalculatorv3/util/ValueFormatter.java:103-106 | the same check for `int` bounds; the range is printed without decimals |
| BodyMetric.HealthMetric.FormattedClosedRange | HealthCalculatorV3.0.0/src/com/github/existedname/healthcalculatorv3/model/enums/bodymetric/HealthMetric.java:53-55 | the metric's [min, max] with one decimal, never an exception |
| BodyMetric.BasicBodyParameter.FormattedClosedRange | HealthCalculatorV3.0.0/src/com/github/existedname/healthcalculatorv3/model/enums/bodymetric/BasicBodyParameter.java:56-62 | one decimal for every parameter but AGE, which prints [1, 122] as integers |
| BodyMetric.RangesAreIncreasing | HealthCalculatorV3.0.0/src/com/github/existedname/healthcalculatorv3/model/enums/bodymetric/BasicBodyParameter.java:21-43 | every metric and parameter has min < max, so formatting its range never throws |
| BodyMetric.IntCheckAgreesOnWholeNumbers | HealthCalculatorV3.0.0/src/com/github/existedname/healthcalculatorv3/model/enums/bodymetric/BasicBodyParameter.java:65-72 | `isValid(int)` with truncated bounds agrees with `isValid(double)` on whole numbers |
| BodyMetric.AgeRange | HealthCalculatorV3.0.0/src/com/github/existedname/healthcalculatorv3/model/enums/bodymetric/BasicBodyParameter.java:69-72 | AGE accepts exactly the integers 1 to 122 |
| BodyMetric.AbbreviationsClash | HealthCalculatorV3.0.0/src/com/github/existedname/healthcalculatorv3/model/enums/bodymetric/BasicBodyParameter.java:39-42 | ARM_CIRCUMFERENCE and ACTIVITY_COEFFICIENT share "AC", while the metric abbreviations are distinct |
| Gender.ValidGenderOptions | HealthCalculatorV3.0.0/src/com/github/existedname/healthcalculatorv3/model/enums/bodymetric/Gender.java:46-48 | the Chinese names of the constants in declaration order |
| Gender.IsMale | HealthCalculatorV3.0.0/src/com/github/existedname/healthcalculatorv3/model/enums/bodymetric/Gender.java:71-77 | NullPointerException on null, IllegalArgumentException on an unrecognised gender, otherwise true iff the trimmed input is "男" |
| Gender.IntIsMale | HealthCalculatorV3.0.0/src/com/github/existedname/healthcalculatorv3/model/enums/bodymetric/Gender.java:88-90 | 1 iff `isMale`, else 0, with the same exceptions |
| Gender.ValidGenderCases | HealthCalculatorV3.0.0/src/com/github/existedname/healthcalculatorv3/model/enums/bodymetric/Gender.java:55-62 | a string is valid iff, trimmed, it is "女" or "男" or equals "Female" or "Male" ignoring case |
| Gender.ChineseNamesClassify | HealthCalculatorV3.0.0/src/com/github/existedname/healthcalculatorv3/model/enums/bodymetric/Gender.java:55-77 | surrounding blanks are ignored: " 男 " is male, "女" is female, and `intIsMale("男")` is 1 |
| Gender.EnglishMaleIsNotMale | HealthCalculatorV3.0.0/src/com/github/existedname/healthcalculatorv3/model/enums/bodymetric/Gender.java:55-77 | "MALE" is a valid gender, yet `isMale` returns false for it |
| Gender.InvalidGenderThrows | HealthCalculatorV3.0.0/src/com/github/existedname/healthcalculatorv3/model/enums/bodymetric/Gender.java:71-77 | null gives NullPointerException and "" gives IllegalArgumentException |
| MethodParameterValidator.ValidateUser | HealthCalculatorV3.0.0/src/com/github/existedname/healthcalculatorv3/util/validator/MethodParameterValidator.java:48-50 | NullPointerException exactly for a null user |
| MethodParameterValidator.ValidateScanner | HealthCalculatorV3.0.0/src/com/github/existedname/healthcalculatorv3/util/validator/MethodParameterValidator.java:58-60 | NullPointerException exactly for a null scanner |
| MethodParameterValidator.ValidateUserAndScanner | HealthCalculatorV3.0.0/src/com/github/existedname/healthcalculatorv3/util/validator/MethodParameterValidator.java:37-40 | passes iff both are non-null; otherwise NullPointerException |
| MethodParameterValidator.ValidateRange | HealthCalculatorV3.0.0/src/com/github/existedname/healthcalculatorv3/util/validator/MethodParameterValidator.java:78-85 | NullPointerException iff a bound is null; IllegalArgumentException when lower >= upper; passes iff lower < upper |
| BasicBodyParameterValidator.ValidateGender | HealthCalculatorV3.0.0/src/com/github/existedname/healthcalculatorv3/util/validator/BasicBodyParameterValidator.java:37-44 | NullPointerException on null, then IllegalArgumentException listing ["女", "男"] for an unrecognised string; passes iff valid |
| BasicBodyParameterValidator.ValidateAge | HealthCalculatorV3.0.0/src/com/github/existedname/healthcalculatorv3/util/validator/BasicBodyParameterValidator.java:52-58 | passes iff 1 <= age <= 122; the message carries the integer range |
| BasicBodyParameterValidator.ValidateWeight | HealthCalculatorV3.0.0/src/com/github/existedname/healthcalculatorv3/util/validator/BasicBodyParameterValidator.java:66-68 | passes iff weight is in [2, 635]; the message names WT, the range and kg |
| BasicBodyParameterValidator.ValidateHeight | HealthCalculatorV3.0.0/src/com/github/existedname/healthcalculatorv3/util/validator/BasicBodyParameterValidator.java:76-78 | passes iff height is in [50, 272]; the message names HT, the range and cm |
| BasicBodyParameterValidator.ValidateWaistCircumference | HealthCalculatorV3.0.0/src/com/github/existedname/healthcalculatorv3/util/validator/BasicBodyParameterValidator.java:86-88 | passes iff waist is in [40, 302] |
| BasicBodyParameterValidator.ValidateHipCircumference | HealthCalculatorV3.0.0/src/com/github/existedname/healthcalculatorv3/util/validator/BasicBodyParameterValidator.java:96-98 | passes iff hip is in [50, 244] |
| BasicBodyParameterValidator.ValidateNeckCircumference | HealthCalculatorV3.0.0/src/com/github/existedname/healthcalculatorv3/util/validator/BasicBodyParameterValidator.java:106-108 | passes iff neck is in [20, 60] |
| BasicBodyParameterValidator.ValidateArmCircumference | HealthCalculatorV3.0.0/src/com/github/existedname/healthcalculatorv3/util/validator/BasicBodyParameterValidator.java:116-118 | passes iff arm is in [15, 45] |
| BasicBodyParameterValidator.ValidateActivityCoefficient | HealthCalculatorV3.0.0/src/com/github/existedname/healthcalculatorv3/util/validator/BasicBodyParameterValidator.java:126-128 | passes iff the coefficient is in [1.0, 2.6] |
| BasicBodyParameterValidator.ValidateBasicBodyParameter | HealthCalculatorV3.0.0/src/com/github/existedname/healthcalculatorv3/util/validator/BasicBodyParameterValidator.java:142-149 | passes iff the parameter's closed-range test holds; the failure names its abbreviation |
| HealthMetricValidator.ValidateBMI | HealthCalculatorV3.0.0/src/com/github/existedname/healthcalculatorv3/util/validator/HealthMetricValidator.java:35-37 | passes iff BMI is in [10, 180], boundaries included |
| HealthMetricValidator.ValidateWHR | HealthCalculatorV3.0.0/src/com/github/existedname/healthcalculatorv3/util/validator/HealthMetricValidator.java:45-47 | passes iff WHR is in [0.5, 1.5] |
| HealthMetricValidator.ValidateBFR | HealthCalculatorV3.0.0/src/com/github/existedname/healthcalculatorv3/util/validator/HealthMetricValidator.java:55-57 | passes iff BFR is in [3, 60] |
| HealthMetricValidator.ValidateBRI | HealthCalculatorV3.0.0/src/com/github/existedname/healthcalculatorv3/util/validator/HealthMetricValidator.java:65-67 | passes iff BRI is in [0, 100] |
| HealthMetricValidator.ValidateBMR | HealthCalculatorV3.0.0/src/com/github/existedname/healthcalculatorv3/util/validator/HealthMetricValidator.java:77-79 | passes iff BMR is in [500, 10000] |
| HealthMetricValidator.ValidateTDEE | HealthCalculatorV3.0.0/src/com/github/existedname/healthcalculatorv3/util/validator/HealthMetricValidator.java:87-89 | passes iff TDEE is in [800, 15000] |
| HealthMetricValidator.ValidateBSA | HealthCalculatorV3.0.0/src/com/github/existedname/healthcalculatorv3/util/validator/HealthMetricValidator.java:99-101 | passes iff BSA is in [0.2, 3.0] |
| HealthMetricValidator.ValidateHealthMetric | HealthCalculatorV3.0.0/src/com/github/existedname/healthcalculatorv3/util/validator/HealthMetricValidator.java:114-121 | passes iff the metric's closed-range test holds; the message has the abbreviation, the range and the unit |
| Entity.User.constructor | HealthCalculatorV3.0.0/src/com/github/existedname/healthcalculatorv3/model/entity/User.java:27-31 | every field at its Java default: null strings and zero numbers |
| Entity.User.WithIdentity | HealthCalculatorV3.0.0/src/com/github/existedname/healthcalculatorv3/model/entity/User.java:41-44 | only name and id are set |
| Entity.User.WithGenderAge | HealthCalculatorV3.0.0/src/com/github/existedname/healthcalculatorv3/model/entity/UserBodyProfile.java:86-89 | only gender and age are set |
| Entity.User.WithWeightHeight | HealthCalculatorV3.0.0/src/com/github/existedname/healthcalculatorv3/model/entity/UserBodyProfile.java:91-94 | only weight and height are set |
| Entity.User.WithGenderAgeWeightHeight | HealthCalculatorV3.0.0/src/com/github/existedname/healthcalculatorv3/model/entity/UserBodyProfile.java:96-100 | gender, age, weight and height are set, nothing else |
| Entity.User.SetName | HealthCalculatorV3.0.0/src/com/github/existedname/healthcalculatorv3/model/entity/User.java:42 | writes name and leaves every other field unchanged |
| Entity.User.SetId | HealthCalculatorV3.0.0/src/com/github/existedname/healthcalculatorv3/model/entity/User.java:44 | writes id and leaves every other field unchanged |
| Entity.User.SetGender | HealthCalculatorV3.0.0/src/com/github/existedname/healthcalculatorv3/model/entity/UserBodyProfile.java:40 | writes gender and leaves every other field unchanged; no validation |
| Entity.User.SetAge | HealthCalculatorV3.0.0/src/com/github/existedname/healthcalculatorv3/model/entity/UserBodyProfile.java:42 | writes age and leaves every other field unchanged |
| Entity.User.SetWeight | HealthCalculatorV3.0.0/src/com/github/existedname/healthcalculatorv3/model/entity/UserBodyProfile.java:44 | writes weight and leaves every other field unchanged |
| Entity.User.SetHeight | HealthCalculatorV3.0.0/src/com/github/existedname/healthcalculatorv3/model/entity/UserBodyProfile.java:46 | writes height and leaves every other field unchanged |
| Entity.User.SetWaistCircumference | HealthCalculatorV3.0.0/src/com/github/existedname/healthcalculatorv3/model/entity/UserBodyProfile.java:48 | writes the waist and leaves every other field unchanged |
| Entity.User.SetHipCircumference | HealthCalculatorV3.0.0/src/com/github/existedname/healthcalculatorv3/model/entity/UserBodyProfile.java:50 | writes the hip and leaves every other field unchanged |
| Entity.User.SetNeckCircumference | HealthCalculatorV3.0.0/src/com/github/existedname/healthcalculatorv3/model/entity/UserBodyProfile.java:52 | writes the neck and leaves every other field unchanged |
| Entity.User.SetArmCircumference | HealthCalculatorV3.0.0/src/com/github/existedname/healthcalculatorv3/model/entity/UserBodyProfile.java:54 | writes the arm and leaves every other field unchanged |
| Entity.User.SetActivityCoefficient | HealthCalculatorV3.0.0/src/com/github/existedname/healthcalculatorv3/model/entity/UserBodyProfile.java:56 | writes the activity coefficient and leaves every other field unchanged |
| Entity.User.SetBMI | HealthCalculatorV3.0.0/src/com/github/existedname/healthcalculatorv3/model/entity/UserBodyProfile.java:140-142 | writes bmi and leaves every other field unchanged |
| Entity.User.SetWHR | HealthCalculatorV3.0.0/src/com/github/existedname/healthcalculatorv3/model/entity/UserBodyProfile.java:143-145 | writes whr and leaves every other field unchanged |
| Entity.User.SetBFR | HealthCalculatorV3.0.0/src/com/github/existedname/healthcalculatorv3/model/entity/UserBodyProfile.java:146-148 | writes bfr and leaves every other field unchanged |
| Entity.User.SetBRI | HealthCalculatorV3.0.0/src/com/github/existedname/healthcalculatorv3/model/entity/UserBodyProfile.java:149-151 | writes bri and leaves every other field unchanged |
| Entity.User.SetBMR | HealthCalculatorV3.0.0/src/com/github/existedname/healthcalculatorv3/model/entity/UserBodyProfile.java:154-156 | writes bmr and leaves every other field unchanged |
| Entity.User.SetTDEE | HealthCalculatorV3.0.0/src/com/github/existedname/healthcalculatorv3/model/entity/UserBodyProfile.java:157-159 | writes tdee and leaves every other field unchanged |
| Entity.User.SetBSA | HealthCalculatorV3.0.0/src/com/github/existedname/healthcalculatorv3/model/entity/UserBodyProfile.java:162-164 | writes bsa and leaves every other field unchanged |
| Entity.User.CompareTo | HealthCalculatorV3.0.0/src/com/github/existedname/healthcalculatorv3/model/entity/User.java:89-93 | NullPointerException for null; otherwise the 32-bit wrapped difference of the ids, as written |
| Entity.User.CompareToIntended | HealthCalculatorV3.0.0/src/com/github/existedname/healthcalculatorv3/model/entity/User.java:89-93 | NullPointerException for null; otherwise negative iff this id is smaller and 0 iff the ids are equal |
| Entity.User.HashCode | HealthCalculatorV3.0.0/src/com/github/existedname/healthcalculatorv3/model/entity/User.java:96-98 | `Objects.hash(id)`: 31 + id modulo 2^32 |
| Entity.User.Equals | HealthCalculatorV3.0.0/src/com/github/existedname/healthcalculatorv3/model/entity/User.java:101-106 | true iff the other user is non-null with the same id; reflexive; false for null |
| Entity.IdDifference | HealthCalculatorV3.0.0/src/com/github/existedname/healthcalculatorv3/model/entity/User.java:92 | the difference is congruent to `a - b` modulo 2^32 and exact when it fits in an `int` |
| Entity.IntegerCompare | HealthCalculatorV3.0.0/src/com/github/existedname/healthcalculatorv3/model/entity/User.java:91 | `Integer.compare`: -1, 0 or 1 exactly by the order of the two ints |
| Entity.IdDifferenceOverflows | HealthCalculatorV3.0.0/src/com/github/existedname/healthcalculatorv3/model/entity/User.java:92 | for ids 2147483647 and -1 the difference is negative though the first id is larger |
| Entity.IdDifferenceSignWithoutOverflow | HealthCalculatorV3.0.0/src/com/github/existedname/healthcalculatorv3/model/entity/User.java:92 | without overflow the difference has the sign of the comparison |
| Entity.IntegerCompareIsOrder | HealthCalculatorV3.0.0/src/com/github/existedname/healthcalculatorv3/model/entity/User.java:91 | the intended comparison is antisymmetric and transitive |
| Entity.EqualsAgreesWithHashCode | HealthCalculatorV3.0.0/src/com/github/existedname/healthcalculatorv3/model/entity/User.java:96-106 | equal users have equal hash codes, and `equals` is symmetric |
| BMICalculator.ValidateBasicParameters | HealthCalculatorV3.0.0/src/com/github/existedname/healthcalculatorv3/util/calculator/basic/BMICalculator.java:99-102 | the weight is checked first, then the height; passes iff both are in range |
| BMICalculator.CalculateBMI | HealthCalculatorV3.0.0/src/com/github/existedname/healthcalculatorv3/util/calculator/basic/BMICalculator.java:44-48 | fails iff weight or height is out of range, with that validator's exception; otherwise a positive BMI whose product with the height in metres squared is the weight |
| BMICalculator.CalculateWeightByBMI | HealthCalculatorV3.0.0/src/com/github/existedname/healthcalculatorv3/util/calculator/basic/BMICalculator.java:62-67 | checks the BMI, then the height; the weight returned is positive and divides back to the BMI |
| BMICalculator.CalculateHeightByBMI | HealthCalculatorV3.0.0/src/com/github/existedname/healthcalculatorv3/util/calculator/basic/BMICalculator.java:81-86 | checks the BMI, then the weight; the height in metres is `sqrt(weight / bmi)` |
| BMICalculator.WeightByBMIInvertsBMI | HealthCalculatorV3.0.0/src/com/github/existedname/healthcalculatorv3/util/calculator/basic/BMICalculator.java:44-67 | when the BMI is in range, the weight recovered from it is the original weight |
| BMICalculator.BMIInvertsWeightByBMI | HealthCalculatorV3.0.0/src/com/github/existedname/healthcalculatorv3/util/calculator/basic/BMICalculator.java:44-67 | the BMI of a valid weight obtained from a BMI is that BMI |
| BMICalculator.BMIInvertsHeightByBMI | HealthCalculatorV3.0.0/src/com/github/existedname/healthcalculatorv3/util/calculator/basic/BMICalculator.java:44-86 | with a true square root, the BMI at the height obtained from a BMI is that BMI |
| BMICalculator.BMICanLeaveItsRange | HealthCalculatorV3.0.0/src/com/github/existedname/healthcalculatorv3/util/calculator/basic/BMICalculator.java:44-48 | valid inputs (2 kg at 272 cm, 635 kg at 50 cm) give BMIs outside [10, 180]; the result is not rechecked |
| WHRCalculator.ValidateBasicParameters | HealthCalculatorV3.0.0/src/com/github/existedname/healthcalculatorv3/util/calculator/basic/WHRCalculator.java:59-62 | the waist is checked before the hip |
| WHRCalculator.CalculateWHR | HealthCalculatorV3.0.0/src/com/github/existedname/healthcalculatorv3/util/calculator/basic/WHRCalculator.java:43-46 | fails iff waist or hip is out of range; otherwise the ratio times the hip is the waist |
| WHRCalculator.WHRBounds | HealthCalculatorV3.0.0/src/com/github/existedname/healthcalculatorv3/util/calculator/basic/WHRCalculator.java:43-46 | every result lies in [40/244, 302/50] |
| WHRCalculator.WHRCanLeaveItsRange | HealthCalculatorV3.0.0/src/com/github/existedname/healthcalculatorv3/util/calculator/basic/WHRCalculator.java:43-46 | the extreme inputs give ratios outside WHR's [0.5, 1.5] |
| BRICalculator.ValidateBasicParameters | HealthCalculatorV3.0.0/src/com/github/existedname/healthcalculatorv3/util/calculator/basic/BRICalculator.java:63-66 | the waist is checked before the height |
| BRICalculator.Fraction | HealthCalculatorV3.0.0/src/com/github/existedname/healthcalculatorv3/util/calculator/basic/BRICalculator.java:47 | the fraction times pi times the height is the waist |
| BRICalculator.CalculateBRI | HealthCalculatorV3.0.0/src/com/github/existedname/healthcalculatorv3/util/calculator/basic/BRICalculator.java:45-49 | fails iff waist or height is out of range; otherwise `(364.2 - BRI) / 365.5` is the square root of `1 - fraction²`, and the BRI is negative iff that root exceeds 364.2/365.5 |
| BRICalculator.BRIBounds | HealthCalculatorV3.0.0/src/com/github/existedname/healthcalculatorv3/util/calculator/basic/BRICalculator.java:45-49 | for valid inputs where `pow` squares the fraction and `sqrt` is exact at the radicand, the radicand lies in [0, 1] and the index in [-1.3, 364.2] |
| BRICalculator.RadicandCanBeNegative | HealthCalculatorV3.0.0/src/com/github/existedname/healthcalculatorv3/util/calculator/basic/BRICalculator.java:45-49 | waist 302 at height 50 passes validation yet the radicand is negative |
| BRICalculator.SmallFractionLeavesRange | HealthCalculatorV3.0.0/src/com/github/existedname/healthcalculatorv3/util/calculator/basic/BRICalculator.java:48 | a root of 1 gives -1.3, below BRI's range |
| TDEECalculator.ValidateBasicParameters | HealthCalculatorV3.0.0/src/com/github/existedname/healthcalculatorv3/util/calculator/basic/TDEECalculator.java:82-85 | the BMR is checked before the activity coefficient |
| TDEECalculator.CalculateTDEE | HealthCalculatorV3.0.0/src/com/github/existedname/healthcalculatorv3/util/calculator/basic/TDEECalculator.java:61-64 | fails iff BMR or coefficient is out of range; otherwise the TDEE divided by the coefficient is the BMR |
| TDEECalculator.TDEEBounds | HealthCalculatorV3.0.0/src/com/github/existedname/healthcalculatorv3/util/calculator/basic/TDEECalculator.java:61-64 | the TDEE lies between the BMR and 2.6 times it, so in [500, 26000] |
| TDEECalculator.TDEECanLeaveItsRange | HealthCalculatorV3.0.0/src/com/github/existedname/healthcalculatorv3/util/calculator/basic/TDEECalculator.java:61-64 | BMR 10000 at 2.6 gives 26000, above TDEE's maximum 15000 |
| BFRCalculator.ValidateBasicParameters | HealthCalculatorV3.0.0/src/com/github/existedname/healthcalculatorv3/util/calculator/basic/BFRCalculator.java:250-254 | gender, then age, then BMI; passes iff all three are valid |
| BFRCalculator.GeneralFormula | HealthCalculatorV3.0.0/src/com/github/existedname/healthcalculatorv3/util/calculator/basic/BFRCalculator.java:293-296 | re-validates, then `bmiC·bmi + ageC·age + genderC·intIsMale + const` |
| BFRCalculator.CalculateBFRByDeurenberg | HealthCalculatorV3.0.0/src/com/github/existedname/healthcalculatorv3/util/calculator/basic/BFRCalculator.java:55-70 | the adult coefficients (1.20, 0.23, -10.8, -5.4) iff age >= 16, else the child ones |
| BFRCalculator.CalculateBFRByGallagher1 | HealthCalculatorV3.0.0/src/com/github/existedname/healthcalculatorv3/util/calculator/basic/BFRCalculator.java:93-100 | the linear form with (1.46, 0.12, -11.61, -10.02) |
| BFRCalculator.CalculateBFRByGallagher2 | HealthCalculatorV3.0.0/src/com/github/existedname/healthcalculatorv3/util/calculator/basic/BFRCalculator.java:119-131 | `-848/bmi + 0.079·age - 16.4·g + 64.5 + 0.05·g·age + 39·g/bmi`; 1/bmi is not validated |
| BFRCalculator.CalculateBFRByJacksonPollockSimplified | HealthCalculatorV3.0.0/src/com/github/existedname/healthcalculatorv3/util/calculator/basic/BFRCalculator.java:169-176 | the linear form with (1.61, 0.13, -12.1, -13.9) |
| BFRCalculator.ValidateUSNParameters | HealthCalculatorV3.0.0/src/com/github/existedname/healthcalculatorv3/util/calculator/basic/BFRCalculator.java:269-275 | gender, waist, hip, neck and height, in that order |
| BFRCalculator.UsnCircumference | HealthCalculatorV3.0.0/src/com/github/existedname/healthcalculatorv3/util/calculator/basic/BFRCalculator.java:204-212 | in inches: waist - neck for men, waist + hip - neck for women |
| BFRCalculator.CalculateBFRByUSN | HealthCalculatorV3.0.0/src/com/github/existedname/healthcalculatorv3/util/calculator/basic/BFRCalculator.java:204-221 | fails iff a parameter is invalid; otherwise the gender's log10 coefficients on the circumference and the height in inches |
| BFRCalculator.DeurenbergGenderGap | HealthCalculatorV3.0.0/src/com/github/existedname/healthcalculatorv3/util/calculator/basic/BFRCalculator.java:55-70 | at equal BMI and adult age, the female result exceeds the male one by 10.8 |
| BFRCalculator.LinearEstimatesGrowWithBMI | HealthCalculatorV3.0.0/src/com/github/existedname/healthcalculatorv3/util/calculator/basic/BFRCalculator.java:55-176 | Deurenberg, Gallagher 1 and Jackson-Pollock grow strictly with the BMI |
| BFRCalculator.Gallagher2GrowsWithBMI | HealthCalculatorV3.0.0/src/com/github/existedname/healthcalculatorv3/util/calculator/basic/BFRCalculator.java:119-131 | Gallagher 2 grows strictly with the BMI for a valid gender |
| BFRCalculator.Gallagher2IsIncreasing | HealthCalculatorV3.0.0/src/com/github/existedname/healthcalculatorv3/util/calculator/basic/BFRCalculator.java:119-131 | the Gallagher 2 formula itself increases in BMI for an indicator of 0 or 1 |
| BFRCalculator.UsnMaleArgumentCanBeNegative | HealthCalculatorV3.0.0/src/com/github/existedname/healthcalculatorv3/util/calculator/basic/BFRCalculator.java:204-212 | waist 40 with neck 60 passes validation yet the male log argument is negative |
| BMRCalculatorConstants.BMRIdx | HealthCalculatorV3.0.0/src/com/github/existedname/healthcalculatorv3/util/calculator/constant/BMRCalculatorConstants.java:127-139 | with `int` division: 22 iff age >= 80; the 5-year band from 20; the 2-year band below 20; negative below -1 |
| BMRCalculatorConstants.GetHourlyBMR | HealthCalculatorV3.0.0/src/com/github/existedname/healthcalculatorv3/util/calculator/constant/BMRCalculatorConstants.java:114-120 | the gender's table at that index; gender failures from `isMale`; ArrayIndexOutOfBounds for an age below -1 |
| BMRCalculatorConstants.HenryWeightCoefficient | HealthCalculatorV3.0.0/src/com/github/existedname/healthcalculatorv3/util/calculator/constant/BMRCalculatorConstants.java:206-211 | the gender's 18-30 coefficient iff age < 30, else the 30-60 one |
| BMRCalculatorConstants.HenryConstTerm | HealthCalculatorV3.0.0/src/com/github/existedname/healthcalculatorv3/util/calculator/constant/BMRCalculatorConstants.java:224-229 | the gender's 18-30 constant iff age < 30, else the 30-60 one |
| BMRCalculatorConstants.SchofieldIdx | HealthCalculatorV3.0.0/src/com/github/existedname/healthcalculatorv3/util/calculator/constant/BMRCalculatorConstants.java:437-468 | the age band among 0, 3, 10, 18, 30, 60, 75 containing the age, always within the 7 entries |
| BMRCalculatorConstants.SchofieldWeightCoefficient | HealthCalculatorV3.0.0/src/com/github/existedname/healthcalculatorv3/util/calculator/constant/BMRCalculatorConstants.java:417-422 | the band's entry of the gender's table; gender failures from `isMale` |
| BMRCalculatorConstants.SchofieldConstantTerm | HealthCalculatorV3.0.0/src/com/github/existedname/healthcalculatorv3/util/calculator/constant/BMRCalculatorConstants.java:424-429 | the band's entry of the gender's table; gender failures from `isMale` |
| BMRCalculatorConstants.HourlyBMRDecreasesWithAge | HealthCalculatorV3.0.0/src/com/github/existedname/healthcalculatorv3/util/calculator/constant/BMRCalculatorConstants.java:68-139 | for a valid gender the hourly rate never increases with age |
| BMRCalculatorConstants.BMRIdxMonotone | HealthCalculatorV3.0.0/src/com/github/existedname/healthcalculatorv3/util/calculator/constant/BMRCalculatorConstants.java:127-139 | the index never decreases with age |
| BMRCalculatorConstants.TablesDecrease | HealthCalculatorV3.0.0/src/com/github/existedname/healthcalculatorv3/util/calculator/constant/BMRCalculatorConstants.java:68-100 | both tables are non-increasing and the male entry is at least the female one |
| BMRCalculatorConstants.NegativeAgeReadsOutsideTable | HealthCalculatorV3.0.0/src/com/github/existedname/healthcalculatorv3/util/calculator/constant/BMRCalculatorConstants.java:114-139 | an age below -1 indexes before the array |
| BMRCalculatorConstants.SchofieldIdxMonotone | HealthCalculatorV3.0.0/src/com/github/existedname/healthcalculatorv3/util/calculator/constant/BMRCalculatorConstants.java:437-468 | the band never decreases with age |
| BMRCalculator.ValidateGenderWeight | HealthCalculatorV3.0.0/src/com/github/existedname/healthcalculatorv3/util/calculator/basic/BMRCalculator.java:324-327 | the gender before the weight |
| BMRCalculator.ValidateGenderWeightAge | HealthCalculatorV3.0.0/src/com/github/existedname/healthcalculatorv3/util/calculator/basic/BMRCalculator.java:340-343 | gender, weight, then age |
| BMRCalculator.ValidateAll | HealthCalculatorV3.0.0/src/com/github/existedname/healthcalculatorv3/util/calculator/basic/BMRCalculator.java:355-358 | the height first, then gender, weight and age |
| BMRCalculator.CalculateBSABasedBMR | HealthCalculatorV3.0.0/src/com/github/existedname/healthcalculatorv3/util/calculator/basic/BMRCalculator.java:53-60 | the age, then the BSA, then the gender inside `isMale`; the result is the hourly rate times BSA times 24 |
| BMRCalculator.CalculateBMRByHenry | HealthCalculatorV3.0.0/src/com/github/existedname/healthcalculatorv3/util/calculator/basic/BMRCalculator.java:84-95 | after gender, weight and age, the age band's kJ form divided by 4.184 |
| BMRCalculator.CalculateBMRByHB | HealthCalculatorV3.0.0/src/com/github/existedname/healthcalculatorv3/util/calculator/basic/BMRCalculator.java:117-135 | after all four checks, the Harris-Benedict linear form with no unit conversion |
| BMRCalculator.CalculateBMRByKatchMcArdle | HealthCalculatorV3.0.0/src/com/github/existedname/healthcalculatorv3/util/calculator/basic/BMRCalculator.java:156-161 | BFR, then weight; the result is 370 + 21.6·w·(1 - bfr·0.01) |
| BMRCalculator.CalculateBMRByMSJ | HealthCalculatorV3.0.0/src/com/github/existedname/healthcalculatorv3/util/calculator/basic/BMRCalculator.java:182-199 | after all four checks, the gender's Mifflin-St Jeor form |
| BMRCalculator.CalculateBMRByMao | HealthCalculatorV3.0.0/src/com/github/existedname/healthcalculatorv3/util/calculator/basic/BMRCalculator.java:219-237 | after gender and weight, the weight-only kJ form divided by 4.184 |
| BMRCalculator.CalculateBMRBySchofield | HealthCalculatorV3.0.0/src/com/github/existedname/healthcalculatorv3/util/calculator/basic/BMRCalculator.java:260-269 | after gender, weight and age, the age band's weight-only form |
| BMRCalculator.CalculateBMRByShizgalRosa | HealthCalculatorV3.0.0/src/com/github/existedname/healthcalculatorv3/util/calculator/basic/BMRCalculator.java:290-308 | after all four checks, the gender's kJ form divided by 4.184 |
| BMRCalculator.MSJGenderGap | HealthCalculatorV3.0.0/src/com/github/existedname/healthcalculatorv3/util/calculator/basic/BMRCalculator.java:182-199 | at equal inputs a man's MSJ BMR is 166 above a woman's |
| BMRCalculator.MSJSetsShareCoefficients | HealthCalculatorV3.0.0/src/com/github/existedname/healthcalculatorv3/util/calculator/constant/BMRCalculatorConstants.java:272-299 | the two MSJ sets differ only in the constant term |
| BMRCalculator.SchofieldMaleBandSwitchesAt30 | HealthCalculatorV3.0.0/src/com/github/existedname/healthcalculatorv3/util/calculator/constant/BMRCalculatorConstants.java:385-422 | a man's coefficient is 15.1 at 29 and 11.5 at 30, with constants 692 and 873 |
| BMRCalculator.HenryBandSwitchesAt30 | HealthCalculatorV3.0.0/src/com/github/existedname/healthcalculatorv3/util/calculator/constant/BMRCalculatorConstants.java:154-229 | for both genders the Henry coefficients switch between 29 and 30 |
| BMRCalculator.KatchMcArdleGrowsWithWeight | HealthCalculatorV3.0.0/src/com/github/existedname/healthcalculatorv3/util/calculator/basic/BMRCalculator.java:156-161 | at a fixed valid BFR a heavier weight gives a larger BMR |
| BMRCalculator.BSABasedBMRAtAge80 | HealthCalculatorV3.0.0/src/com/github/existedname/healthcalculatorv3/util/calculator/basic/BMRCalculator.java:53-60 | the last table entries: 33.0·bsa·24 for a man of 80, 30.9·bsa·24 for a woman of 122 |
| BMRCalculator.BSABasedBMRGenderMessage | HealthCalculatorV3.0.0/src/com/github/existedname/healthcalculatorv3/util/calculator/basic/BMRCalculator.java:53-60 | an unknown gender fails in `isMale` with the unrecognised-gender message |
| BSACalculator.ValidateBasicParameters | HealthCalculatorV3.0.0/src/com/github/existedname/healthcalculatorv3/util/calculator/basic/BSACalculator.java:208-211 | the height before the weight |
| BSACalculator.ValidateGenderHeightWeight | HealthCalculatorV3.0.0/src/com/github/existedname/healthcalculatorv3/util/calculator/basic/BSACalculator.java:224-227 | the gender before height and weight |
| BSACalculator.GeneralFormula | HealthCalculatorV3.0.0/src/com/github/existedname/healthcalculatorv3/util/calculator/basic/BSACalculator.java:194-197 | re-validates, then `coef · height^he · weight^we` |
| BSACalculator.CalculateBSAByDuBois | HealthCalculatorV3.0.0/src/com/github/existedname/healthcalculatorv3/util/calculator/basic/BSACalculator.java:60-66 | fails iff height or weight is out of range; otherwise 0.007184·H^0.725·W^0.425 |
| BSACalculator.CalculateBSAByHaycock | HealthCalculatorV3.0.0/src/com/github/existedname/healthcalculatorv3/util/calculator/basic/BSACalculator.java:92-98 | fails iff height or weight is out of range; otherwise 0.024265·H^0.3964·W^0.5378 |
| BSACalculator.CalculateBSAByMosteller | HealthCalculatorV3.0.0/src/com/github/existedname/healthcalculatorv3/util/calculator/basic/BSACalculator.java:125-131 | fails iff height or weight is out of range; otherwise 60 times the area is H^0.5·W^0.5 |
| BSACalculator.CalculateBSABySchlich | HealthCalculatorV3.0.0/src/com/github/existedname/healthcalculatorv3/util/calculator/basic/BSACalculator.java:161-174 | gender, height and weight are checked; the male constants iff `isMale` |
| BSACalculator.PowerLawIsPositive | HealthCalculatorV3.0.0/src/com/github/existedname/healthcalculatorv3/util/calculator/basic/BSACalculator.java:194-197 | with a positive `pow`, a positive coefficient gives a positive area |
| BSACalculator.PowerLawGrowsWithWeight | HealthCalculatorV3.0.0/src/com/github/existedname/healthcalculatorv3/util/calculator/basic/BSACalculator.java:194-197 | with an increasing `pow`, a heavier person of the same height has a larger area |
| BSACalculator.EquationsArePositive | HealthCalculatorV3.0.0/src/com/github/existedname/healthcalculatorv3/util/calculator/basic/BSACalculator.java:60-174 | every equation gives a positive area for valid inputs |
| BSACalculator.MostellerIsSquareRoot | HealthCalculatorV3.0.0/src/com/github/existedname/healthcalculatorv3/util/calculator/basic/BSACalculator.java:125-131 | with a true square root, the Mosteller area squared is height·weight/3600 |
| BSACalculator.MostellerIsSymmetric | HealthCalculatorV3.0.0/src/com/github/existedname/healthcalculatorv3/util/calculator/constant/BSACalculatorConstants.java:48-52 | when both values pass both checks, swapping height and weight gives the same area |
| BSACalculator.SchlichUsesMaleCoefficients | HealthCalculatorV3.0.0/src/com/github/existedname/healthcalculatorv3/util/calculator/constant/BSACalculatorConstants.java:66-84 | " 男 " takes the male constants, "女" the female ones, and null throws |
| IdealWeightCalculatorConstants.GetConstTerm | HealthCalculatorV3.0.0/src/com/github/existedname/healthcalculatorv3/util/calculator/constant/IdealWeightCalculatorConstants.java:51-55 | 105 iff `isMale`, 100 for a woman, and the `isMale` exceptions otherwise |
| IdealWeightCalculator.CalculateIdealWeight | HealthCalculatorV3.0.0/src/com/github/existedname/healthcalculatorv3/util/calculator/basic/IdealWeightCalculator.java:94-98 | the ideal weight plus the gender's constant is the height; the height is not checked |
| IdealWeightCalculator.CalculateMinIdealWeight | HealthCalculatorV3.0.0/src/com/github/existedname/healthcalculatorv3/util/calculator/basic/IdealWeightCalculator.java:109-111 | nine tenths of the ideal weight |
| IdealWeightCalculator.CalculateMaxIdealWeight | HealthCalculatorV3.0.0/src/com/github/existedname/healthcalculatorv3/util/calculator/basic/IdealWeightCalculator.java:122-124 | eleven tenths of the ideal weight |
| IdealWeightCalculator.FormatIdealWeightRange | HealthCalculatorV3.0.0/src/com/github/existedname/healthcalculatorv3/util/calculator/basic/IdealWeightCalculator.java:74-78 | IllegalArgumentException exactly when the ideal weight is not positive |
| IdealWeightCalculator.GetCalculatedIdealWeight | HealthCalculatorV3.0.0/src/com/github/existedname/healthcalculatorv3/util/calculator/basic/IdealWeightCalculator.java:52-59 | NullPointerException iff the user or the scanner is null, with the user unchanged; otherwise writes only gender and height, and the result is the ideal weight of the stored gender and height |
| IdealWeightCalculator.CalculateMinIdealWeightByBMI | HealthCalculatorV3.0.0/src/com/github/existedname/healthcalculatorv3/util/calculator/basic/IdealWeightCalculator.java:163-165 | fails iff the height is out of range; the weight is valid and its BMI is exactly 18.5 |
| IdealWeightCalculator.CalculateMaxIdealWeightByBMI | HealthCalculatorV3.0.0/src/com/github/existedname/healthcalculatorv3/util/calculator/basic/IdealWeightCalculator.java:177-179 | fails iff the height is out of range; the weight is valid and its BMI is exactly 23.9 |
| IdealWeightCalculator.FormatIdealWeightRangeByBMI | HealthCalculatorV3.0.0/src/com/github/existedname/healthcalculatorv3/util/calculator/basic/IdealWeightCalculator.java:147-151 | for a valid height the range always exists and its minimum is below its maximum |
| IdealWeightCalculator.HealthyWeightIsValid | HealthCalculatorV3.0.0/src/com/github/existedname/healthcalculatorv3/util/calculator/constant/IdealWeightCalculatorConstants.java:63-65 | any BMI in [18.5, 23.9] at a valid height gives a valid weight, so the BMI is never rejected |
| IdealWeightCalculator.WeightByBMIIncreases | HealthCalculatorV3.0.0/src/com/github/existedname/healthcalculatorv3/util/calculator/basic/BMICalculator.java:62-67 | for one height a larger BMI gives a larger weight |
| IdealWeightCalculator.ShortHeightsHaveNoIdealRange | HealthCalculatorV3.0.0/src/com/github/existedname/healthcalculatorv3/util/calculator/basic/IdealWeightCalculator.java:74-98 | a man of the valid height 100 cm gets ideal weight -5 and no range |
| IdealWeightCalculator.IdealRangeExistsAboveConstant | HealthCalculatorV3.0.0/src/com/github/existedname/healthcalculatorv3/util/calculator/basic/IdealWeightCalculator.java:74-98 | a range exists iff the height is above the gender's constant |
| IntervalAssessment.InvertedIntervalIsEmpty | HealthCalculatorV3.0.0/src/com/github/existedname/healthcalculatorv3/service/analysis/metrics/HealthMetricIntervalAssessment.java:53-55 | an interval with lower > upper contains no value |
| IntervalAssessment.SharedEndpointIsInBoth | HealthCalculatorV3.0.0/src/com/github/existedname/healthcalculatorv3/service/analysis/metrics/HealthMetricIntervalAssessment.java:53-55 | two intervals sharing an endpoint both contain it |
| HealthMetricsProvider.FirstMatch | HealthCalculatorV3.0.0/src/com/github/existedname/healthcalculatorv3/service/analysis/metrics/HealthMetricsProvider.java:78-82 | the index found is in range and contains the value, no earlier entry does, and none found means no entry does |
| HealthMetricsProvider.FindByValue | HealthCalculatorV3.0.0/src/com/github/existedname/healthcalculatorv3/service/analysis/metrics/HealthMetricsProvider.java:73-88 | NullPointerException iff an argument is null; otherwise the first entry in array order containing the value, or IllegalArgumentException naming the abbreviation and range when none does |
| HealthMetricsProvider.FindByValueOfMetric | HealthCalculatorV3.0.0/src/com/github/existedname/healthcalculatorv3/service/analysis/metrics/HealthMetricsProvider.java:29-36 | as `findByValue`, with the metric's range used only in the message |
| HealthMetricsProvider.FindByValueOfParameter | HealthCalculatorV3.0.0/src/com/github/existedname/healthcalculatorv3/service/analysis/metrics/HealthMetricsProvider.java:50-57 | as `findByValue`, with the parameter's formatted range in the message |
| HealthMetricsProvider.ContiguousTableCovers | HealthCalculatorV3.0.0/src/com/github/existedname/healthcalculatorv3/service/analysis/metrics/HealthMetricsProvider.java:78-82 | a non-empty table whose entries meet end to end finds every value between its first lower and last upper bound |
| HealthMetricsProvider.OutsideEveryIntervalThrows | HealthCalculatorV3.0.0/src/com/github/existedname/healthcalculatorv3/service/analysis/metrics/HealthMetricsProvider.java:83-87 | a value below the first lower bound of an increasing table finds nothing |
| MetricTables.BMIClassifiesAllButGaps | HealthCalculatorV3.0.0/src/com/github/existedname/healthcalculatorv3/service/analysis/metrics/healthmetric/BMIMetrics.java:19-37 | a value is classified iff it lies in one of the six entries, so 24.95 and 49.95 fall in gaps |
| MetricTables.BMIBoundaries | HealthCalculatorV3.0.0/src/com/github/existedname/healthcalculatorv3/service/analysis/metrics/healthmetric/BMIMetrics.java:19-28 | 18.5 is LOW, 22.857 and 70/1.75² are NORMAL, 30 is OBESITY_LEVEL_I |
| MetricTables.MaleWHRCoversValidRange | HealthCalculatorV3.0.0/src/com/github/existedname/healthcalculatorv3/service/analysis/metrics/healthmetric/MaleWHRMetrics.java:19-34 | contiguous from 0.5 to 1.5; a value is classified iff WHR accepts it |
| MetricTables.MaleWHRBoundaryGoesToGood | HealthCalculatorV3.0.0/src/com/github/existedname/healthcalculatorv3/service/analysis/metrics/healthmetric/MaleWHRMetrics.java:25-28 | 0.90 is GOOD, not HIGH |
| MetricTables.FemaleWHRCoversValidRange | HealthCalculatorV3.0.0/src/com/github/existedname/healthcalculatorv3/service/analysis/metrics/healthmetric/FemaleWHRMetrics.java:19-34 | contiguous from 0.5 to 1.5; classified iff WHR accepts it |
| MetricTables.FemaleWHRBoundaryGoesToHigh | HealthCalculatorV3.0.0/src/com/github/existedname/healthcalculatorv3/service/analysis/metrics/healthmetric/FemaleWHRMetrics.java:28-31 | 0.85 is HIGH |
| MetricTables.MaleBFRCoversValidRange | HealthCalculatorV3.0.0/src/com/github/existedname/healthcalculatorv3/service/analysis/metrics/healthmetric/MaleBFRMetrics.java:19-37 | contiguous from 3 to 60; classified iff BFR accepts it |
| MetricTables.MaleBFRBoundaries | HealthCalculatorV3.0.0/src/com/github/existedname/healthcalculatorv3/service/analysis/metrics/healthmetric/MaleBFRMetrics.java:19-37 | 10 is ATHLETE_LEVEL; 2.9 and 60.1 find nothing |
| MetricTables.FemaleBFRCoversValidRange | HealthCalculatorV3.0.0/src/com/github/existedname/healthcalculatorv3/service/analysis/metrics/healthmetric/FemaleBFRMetrics.java:19-37 | contiguous from 3 to 60; classified iff BFR accepts it |
| MetricTables.FemaleBFRBoundaryGoesToAthlete | HealthCalculatorV3.0.0/src/com/github/existedname/healthcalculatorv3/service/analysis/metrics/healthmetric/FemaleBFRMetrics.java:22-25 | 18 is ATHLETE_LEVEL |
| MetricTables.MaleBRICoversValidRange | HealthCalculatorV3.0.0/src/com/github/existedname/healthcalculatorv3/service/analysis/metrics/healthmetric/MaleBRIMetrics.java:19-37 | contiguous from 0 to 100; classified iff BRI accepts it, so negatives and values above 100 find nothing |
| MetricTables.MaleBRIBoundaryGoesToIdeal | HealthCalculatorV3.0.0/src/com/github/existedname/healthcalculatorv3/service/analysis/metrics/healthmetric/MaleBRIMetrics.java:25-28 | 4.5 is IDEAL |
| MetricTables.FemaleBRICoversFromZero | HealthCalculatorV3.0.0/src/com/github/existedname/healthcalculatorv3/service/analysis/metrics/healthmetric/FemaleBRIMetrics.java:19-37 | contiguous up to `Double.MAX_VALUE`; classified iff 0 <= value <= `Double.MAX_VALUE` |
| MetricTables.BRITablesDisagreeAbove100 | HealthCalculatorV3.0.0/src/com/github/existedname/healthcalculatorv3/service/analysis/metrics/healthmetric/FemaleBRIMetrics.java:22-37 | 2.5 is LOW and 150 is EXTREMELY_OBESE for women, while the male table finds nothing for 150 |
| MetricTables.BMRCoversValidRange | HealthCalculatorV3.0.0/src/com/github/existedname/healthcalculatorv3/service/analysis/metrics/healthmetric/BMRMetrics.java:19-37 | contiguous from 500 to 10000; classified iff BMR accepts it |
| MetricTables.BMRBoundaries | HealthCalculatorV3.0.0/src/com/github/existedname/healthcalculatorv3/service/analysis/metrics/healthmetric/BMRMetrics.java:19-37 | 1600 is NORMAL_FEMALE; 499 and 10001 find nothing |
| MetricTables.TDEECoversValidRange | HealthCalculatorV3.0.0/src/com/github/existedname/healthcalculatorv3/service/analysis/metrics/healthmetric/TDEEMetrics.java:20-43 | contiguous from 800 to 15000; classified iff TDEE accepts it |
| MetricTables.TDEEBoundaryGoesToMedium | HealthCalculatorV3.0.0/src/com/github/existedname/healthcalculatorv3/service/analysis/metrics/healthmetric/TDEEMetrics.java:31-35 | 2400 is MEDIUM |
| MetricTables.BSACoversValidRange | HealthCalculatorV3.0.0/src/com/github/existedname/healthcalculatorv3/service/analysis/metrics/healthmetric/BSAMetrics.java:19-34 | contiguous from 0.2 to 3.0; classified iff BSA accepts it |
| MetricTables.BSABoundaryGoesToNormal | HealthCalculatorV3.0.0/src/com/github/existedname/healthcalculatorv3/service/analysis/metrics/healthmetric/BSAMetrics.java:25-28 | 1.9 is NORMAL |
| MetricTables.MaleWaistCoversFromZero | HealthCalculatorV3.0.0/src/com/github/existedname/healthcalculatorv3/service/analysis/metrics/basicbodyparameter/MaleWaistCircumferenceMetrics.java:19-34 | classified iff 0 <= value <= `Double.MAX_VALUE`, so every valid waist is classified |
| MetricTables.MaleWaistBoundaries | HealthCalculatorV3.0.0/src/com/github/existedname/healthcalculatorv3/service/analysis/metrics/basicbodyparameter/MaleWaistCircumferenceMetrics.java:22-34 | 85 is HEALTHY and 110 is VERY_HIGH |
| MetricTables.FemaleWaistCoversFromZero | HealthCalculatorV3.0.0/src/com/github/existedname/healthcalculatorv3/service/analysis/metrics/basicbodyparameter/FemaleWaistCircumferenceMetrics.java:19-34 | classified iff 0 <= value <= `Double.MAX_VALUE` |
| MetricTables.FemaleWaistBoundaries | HealthCalculatorV3.0.0/src/com/github/existedname/healthcalculatorv3/service/analysis/metrics/basicbodyparameter/FemaleWaistCircumferenceMetrics.java:25-31 | 80 is SLIGHTLY_HIGH and 88 is HIGH |
| HealthMetricCalculator.CalculateBMIAndUpdateUser | HealthCalculatorV3.0.0/src/com/github/existedname/healthcalculatorv3/util/calculator/composite/HealthMetricCalculator.java:54-64 | NullPointerException for a null user or scanner; otherwise the BMI calculator's result; on success bmi, weight and height are written and nothing else, and the stored bmi is the BMI of the stored weight and height; on failure nothing changes |
| HealthMetricCalculator.CalculateWHRAndUpdateUser | HealthCalculatorV3.0.0/src/com/github/existedname/healthcalculatorv3/util/calculator/composite/HealthMetricCalculator.java:75-85 | NullPointerException for a null user or scanner; otherwise the WHR calculator's result; on success whr, waist and hip are written and nothing else, and the stored whr is the ratio of the stored waist and hip; on failure nothing changes |
| HealthMetricCalculator.CalculateBFRAndUpdateUser | HealthCalculatorV3.0.0/src/com/github/existedname/healthcalculatorv3/util/calculator/composite/HealthMetricCalculator.java:98-110 | runs the BMI step, then Deurenberg on its BMI; on success bfr, gender and age are written too and the stored values agree with both calculators; if Deurenberg fails the BMI step's writes remain |
| HealthMetricCalculator.CalculateBRIAndUpdateUser | HealthCalculatorV3.0.0/src/com/github/existedname/healthcalculatorv3/util/calculator/composite/HealthMetricCalculator.java:121-131 | NullPointerException for a null user or scanner; otherwise the BRI calculator's result; on success bri, waist and height are written and nothing else, consistent with each other; on failure nothing changes |
| HealthMetricCalculator.CalculateBMRAndUpdateUser | HealthCalculatorV3.0.0/src/com/github/existedname/healthcalculatorv3/util/calculator/composite/HealthMetricCalculator.java:142-155 | NullPointerException for a null user or scanner; otherwise the Mifflin-St Jeor result; on success bmr, gender, age, weight and height are written, consistent with each other; on failure nothing changes |
| HealthMetricCalculator.CalculateTDEEAndUpdateUser | HealthCalculatorV3.0.0/src/com/github/existedname/healthcalculatorv3/util/calculator/composite/HealthMetricCalculator.java:167-178 | runs the BMR step, then the TDEE calculator on its BMR; on success tdee and the activity coefficient are written too and agree with the stored bmr; if the TDEE step fails the BMR step's writes remain |
| HealthMetricCalculator.CalculateBSAAndUpdateUser | HealthCalculatorV3.0.0/src/com/github/existedname/healthcalculatorv3/util/calculator/composite/HealthMetricCalculator.java:189-200 | NullPointerException for a null user or scanner; otherwise DuBois on (height, weight); on success bsa, weight and height are written, consistent with each other; on failure nothing changes |
| HealthMetricCalculator.BFRStepCanFailAfterBMIStep | HealthCalculatorV3.0.0/src/com/github/existedname/healthcalculatorv3/util/calculator/composite/HealthMetricCalculator.java:98-110 | 2 kg at 272 cm passes the BMI step but Deurenberg rejects the resulting BMI |
| CalculationMethod.Ordinal | HealthCalculatorV3.0.0/src/com/github/existedname/healthcalculatorv3/service/calculation/CalculationMethod.java:20-26 | every constant appears in `values()` at its ordinal |
| CalculationMethod.ForMetric | HealthCalculatorV3.0.0/src/com/github/existedname/healthcalculatorv3/service/calculation/CalculationMethod.java:20-26 | each metric has the constant bound to it |
| CalculationMethod.EntriesMatchMetrics | HealthCalculatorV3.0.0/src/com/github/existedname/healthcalculatorv3/service/calculation/CalculationMethod.java:20-26 | the seven constants are distinct and bound to distinct metrics |
| CalculationMethod.AccessFlags.constructor | HealthCalculatorV3.0.0/src/com/github/existedname/healthcalculatorv3/service/calculation/CalculationMethod.java:30 | every flag starts false |
| CalculationMethod.AccessFlags.MarkAsVisited | HealthCalculatorV3.0.0/src/com/github/existedname/healthcalculatorv3/service/calculation/CalculationMethod.java:53-55 | sets one flag true and leaves the others unchanged |
| CalculationMethod.AccessFlags.ResetAccessFlag | HealthCalculatorV3.0.0/src/com/github/existedname/healthcalculatorv3/service/calculation/CalculationMethod.java:57-59 | clears one flag and leaves the others unchanged |
| CalculationMethod.AccessFlags.ResetAllAccessFlags | HealthCalculatorV3.0.0/src/com/github/existedname/healthcalculatorv3/service/calculation/CalculationMethod.java:37-39 | clears all seven flags |
| CalculationMethod.MarkIsIdempotent | HealthCalculatorV3.0.0/src/com/github/existedname/healthcalculatorv3/service/calculation/CalculationMethod.java:53-59 | marking twice equals marking once; a reset after a mark clears the flag |
| ApplicationConfig.ContainsKey | HealthCalculatorV3.0.0/src/com/github/existedname/healthcalculatorv3/app/ApplicationConfig.java:187-207 | `Map.containsKey` on an immutable map: NullPointerException for a null id |
| ApplicationConfig.Get | HealthCalculatorV3.0.0/src/com/github/existedname/healthcalculatorv3/app/ApplicationConfig.java:214-234 | `Map.get`: NullPointerException for a null id, null for an unknown id, the entry otherwise |
| ApplicationConfig.IsValidFunctionId | HealthCalculatorV3.0.0/src/com/github/existedname/healthcalculatorv3/app/ApplicationConfig.java:187-189 | true iff the id is a key of the name map |
| ApplicationConfig.HasRunnableFunction | HealthCalculatorV3.0.0/src/com/github/existedname/healthcalculatorv3/app/ApplicationConfig.java:196-198 | true iff the id has a Runnable |
| ApplicationConfig.HasBiConsumerFunction | HealthCalculatorV3.0.0/src/com/github/existedname/healthcalculatorv3/app/ApplicationConfig.java:205-207 | true iff the id has a BiConsumer |
| ApplicationConfig.GetFunctionName | HealthCalculatorV3.0.0/src/com/github/existedname/healthcalculatorv3/app/ApplicationConfig.java:214-216 | null iff the id is unknown; otherwise its name |
| ApplicationConfig.GetRunnableById | HealthCalculatorV3.0.0/src/com/github/existedname/healthcalculatorv3/app/ApplicationConfig.java:223-225 | null iff the id has no Runnable; otherwise that action |
| ApplicationConfig.GetBiConsumerById | HealthCalculatorV3.0.0/src/com/github/existedname/healthcalculatorv3/app/ApplicationConfig.java:232-234 | null iff the id has no BiConsumer; otherwise that action |
| ApplicationConfig.ExecuteRunnableById | HealthCalculatorV3.0.0/src/com/github/existedname/healthcalculatorv3/app/ApplicationConfig.java:242-251 | NullPointerException iff the id is null; IllegalArgumentException naming the id when it has no Runnable; otherwise its action |
| ApplicationConfig.ExecuteBiConsumerById | HealthCalculatorV3.0.0/src/com/github/existedname/healthcalculatorv3/app/ApplicationConfig.java:265-275 | NullPointerException iff id, user or scanner is null; IllegalArgumentException naming an id with no BiConsumer; otherwise its action |
| ApplicationConfig.DispatchTablesPartitionMenu | HealthCalculatorV3.0.0/src/com/github/existedname/healthcalculatorv3/app/ApplicationConfig.java:31-167 | the Runnable and BiConsumer keys are disjoint and together are exactly the name map's keys |
| ApplicationConfig.ValidIdDispatchesOnce | HealthCalculatorV3.0.0/src/com/github/existedname/healthcalculatorv3/app/ApplicationConfig.java:187-207 | an id is valid iff it has a Runnable or a BiConsumer, and never both |
| HealthCalculatorBeginnerVersion.GetBMI | HealthCalculatorV1.0.0/healthcalculatorv1/HealthCalculatorBeginnerVersion.java:93-97 | the BMI times the height in metres squared is the weight |
| HealthCalculatorBeginnerVersion.BMIAgreesWithBMICalculator | HealthCalculatorV1.0.0/healthcalculatorv1/HealthCalculatorBeginnerVersion.java:93-97 | for valid inputs it equals the later `BMICalculator.calculateBMI` |
| HealthCalculatorBeginnerVersion.FiveTimesAge | HealthCalculatorV1.0.0/healthcalculatorv1/HealthCalculatorBeginnerVersion.java:105 | `5 * ageYear` in `int` arithmetic, exact for ages that do not overflow |
| HealthCalculatorBeginnerVersion.GetBMR | HealthCalculatorV1.0.0/healthcalculatorv1/HealthCalculatorBeginnerVersion.java:100-122 | NullPointerException for null; the revised formula with +5 for "男" and -161 for "女"; 0 for any other string |
| HealthCalculatorBeginnerVersion.GenderGap | HealthCalculatorV1.0.0/healthcalculatorv1/HealthCalculatorBeginnerVersion.java:105-121 | at equal inputs male minus female is 0.95·166 = 157.7 |
| HealthCalculatorBeginnerVersion.OneYearLowersBMR | HealthCalculatorV1.0.0/healthcalculatorv1/HealthCalculatorBeginnerVersion.java:105-120 | one more year lowers the BMR by 0.95·5 = 4.75 |
| HealthCalculatorBeginnerVersion.BMICategoryIndex | HealthCalculatorV1.0.0/healthcalculatorv1/HealthCalculatorBeginnerVersion.java:147-157 | always indexes both text arrays; OBESE iff BMI >= 28, OVER iff 24 <= BMI < 28, NORMAL iff 18.5 <= BMI < 24, LOW iff BMI < 18.5 |
| HealthCalculatorBeginnerVersion.CategoryIsMonotone | HealthCalculatorV1.0.0/healthcalculatorv1/HealthCalculatorBeginnerVersion.java:147-157 | a larger BMI never gets a lower category |
| HealthCalculatorBeginnerVersion.CategoryBoundaries | HealthCalculatorV1.0.0/healthcalculatorv1/HealthCalculatorBeginnerVersion.java:129-157 | 18.5 and 23.9 are normal, 24 is overweight, and 18.49 carries the malnutrition risk |
| HealthCalculatorBeginnerVersion.TDEETable | HealthCalculatorV1.0.0/healthcalculatorv1/HealthCalculatorBeginnerVersion.java:170-183 | a fresh array of 6 entries, entry i being the BMR times coefficient i |
| HealthCalculatorBeginnerVersion.CoefficientsIncrease | HealthCalculatorV1.0.0/healthcalculatorv1/HealthCalculatorBeginnerVersion.java:170-177 | the activity coefficients strictly increase |
| HealthCalculatorBeginnerVersion.TDEERowsAreOrdered | HealthCalculatorV1.0.0/healthcalculatorv1/HealthCalculatorBeginnerVersion.java:170-183 | the placeholder row is 0, and for a non-negative BMR the rows never decrease |

## Left out

- Console input and output are not modelled: the readers (`InputReader`, `BodyDataReader`), `UIPrinter`, `UIService`, `GameService`, `MainApplication`, `FileService` and `User.toString`. A value the source reads from a `Scanner` is a parameter. `Scanner` is an empty class, used only for its null checks.
- IdealWeightCalculator.GetCalculatedIdealWeight: requires a valid gender and a height in range. The reader it calls re-prompts until it gets one; that loop is not modelled. The null checks on the user and the scanner are modelled.
- The loops and printing of `CalculationService`, `AnalysisService`, `ComparisonService` and `ReferenceService` are not modelled. Neither is the choice of which interval table `AnalysisService` uses for a gender. Only the tables and the lookup are modelled.
- The menu entries' actions are not modelled. The `Runnable` and `BiConsumer` values in the two dispatch maps are opaque `Action` tags naming the service method.
- Decimal formatting in `ValueFormatter` (`DecimalFormat` patterns and rounding) is not modelled. A formatted range is the `RangeText(lower, upper, digits)` it would print.
- Floating point is not modelled: `double` is `real`, so NaN, infinities and rounding do not arise.
  - A validity check that NaN would slip past is not modelled.
  - The `(int)` cast of a NaN is not modelled.
  - `Double.MAX_VALUE` is kept as a constant bound.
- `Math.pow`, `Math.sqrt`, `Math.log10` and `Math.PI` are not given their mathematical definitions. The formulas take them as uninterpreted functions, so a property of them is a lemma precondition.
- `String.equalsIgnoreCase` in gender parsing folds ASCII letters only. Other Unicode case pairs are not modelled.
- Lombok-generated getters are not separate members: `User.State()` reads all fields at once. The `User` subclass and its `UserBodyProfile` superclass are one class. `equals` compares runtime classes, and since the model has no subclass of `User` that check is always true.
- `HealthMetricIntervalAssessment` has a no-arguments constructor, and a provider array could hold a null element. Neither is modelled: the interval tables never contain nulls.
- `BFRCalculator.calculateBFRByJacksonPollockEquation`, the deprecated full version, always returns NaN. It has no real counterpart, so it is not modelled.
- `BFRCalculator.main`, `TDEECalculator.main` and `TDEECalculator.printCoefficientTable` only print, so they are not modelled.
- ApplicationConfig.DispatchTablesPartitionMenu: does not state the literal numbers of menu ids (16 runnables, 19 bi-consumers, 35 names). It proves that the two dispatch tables partition the name map's keys, which implies that the counts add up.
- HealthCalculatorBeginnerVersion.GetBMI: requires a non-zero height. The source divides by it unguarded, and Java would then produce an infinity or NaN.
- HealthCalculatorBeginnerVersion.GetBMR: the message printed for an unrecognised gender is not modelled, only the value 0.
- The beginner version's console menu, its printing of the analysis and its input loop are not modelled.
- `CalculationMethod.visited` is an enum field, so there is one flag per constant for the whole program. The model holds those flags in one `AccessFlags` object that is passed around, not in global state.
- Where a Javadoc comment and the code disagree, the model follows the code. Two examples:
  - `calculateBSABasedBMR` checks the age twice, and the model checks it once, with the same outcome;
  - `Gender.isMale` is documented as returning true for "男" only, and for the valid English name "MALE" it does return false.

## Findings

| source | as written | input that shows it | evidently intended | confidence | as-written member | corrected member |
|---|---|---|---|---|---|---|
| HealthCalculatorV3.0.0/src/com/github/existedname/healthcalculatorv3/model/entity/User.java:89-93 | `compareTo` returns `this.id - another.id` in 32-bit arithmetic | `this.id = 2147483647`, `another.id = -1`: the difference wraps to a negative number, so the larger id compares as smaller | the commented-out `Integer.compare(this.id, another.id)`, whose sign always follows the order of the ids | not executed | Entity.User.CompareTo (`Entity.IdDifferenceOverflows` exhibits the input) | Entity.User.CompareToIntended (`Entity.IntegerCompareIsOrder` proves it an order) |
