/**
 * The per-metric steps of the console flow: `HealthMetricCalculator`. Each
 * step checks the user and the scanner, takes the body data the scanner
 * yields (here: parameters), runs one calculator with its default formula
 * and, only once that calculator has returned, writes the result and the
 * data it used into the user. A calculator that throws leaves the user as
 * it was; the BFR and TDEE steps first run the BMI and BMR steps, whose
 * writes stay in place when the later calculator throws.
 */
module HealthMetricCalculator {
  import opened Outcomes
  import opened Entity
  import opened JavaMath
  import MethodParameterValidator
  import BMICalculator
  import WHRCalculator
  import BFRCalculator
  import BRICalculator
  import BMRCalculator
  import TDEECalculator
  import BSACalculator

  /** `readBodyDataCalculateBMIAndUpdateUser`: BMI from weight and height; sets bmi, weight, height. */
  method CalculateBMIAndUpdateUser(user: User?, scanner: Scanner?, weight: real, height: real) returns (r: Outcome<real>)
    modifies user
    ensures user == null || scanner == null ==> r == NullPtr
    ensures user != null && scanner != null ==> r == BMICalculator.CalculateBMI(weight, height)
    ensures user != null && r.IsFailure() ==> user.State() == old(user.State())
    ensures r.Ok? ==> user.State() == old(user.State()).(bmi := r.value, weight := weight, height := height)
    ensures r.Ok? ==> BMICalculator.CalculateBMI(user.weight, user.height) == Ok(user.bmi)
  {
    var check := MethodParameterValidator.ValidateUserAndScanner(user, scanner);
    if check.IsFailure() {
      return check.PropagateFailure();
    }
    r := BMICalculator.CalculateBMI(weight, height);
    if r.IsFailure() {
      return;
    }
    user.SetBMI(r.value);
    user.SetWeight(weight);
    user.SetHeight(height);
  }

  /** `readBodyDataCalculateWHRAndUpdateUser`: WHR from waist and hip; sets whr, waist, hip. */
  method CalculateWHRAndUpdateUser(user: User?, scanner: Scanner?, waistCircumference: real, hipCircumference: real)
    returns (r: Outcome<real>)
    modifies user
    ensures user == null || scanner == null ==> r == NullPtr
    ensures user != null && scanner != null ==> r == WHRCalculator.CalculateWHR(waistCircumference, hipCircumference)
    ensures user != null && r.IsFailure() ==> user.State() == old(user.State())
    ensures r.Ok? ==> user.State() == old(user.State()).(whr := r.value, waistCircumference := waistCircumference,
                                                         hipCircumference := hipCircumference)
    ensures r.Ok? ==> WHRCalculator.CalculateWHR(user.waistCircumference, user.hipCircumference) == Ok(user.whr)
  {
    var check := MethodParameterValidator.ValidateUserAndScanner(user, scanner);
    if check.IsFailure() {
      return check.PropagateFailure();
    }
    r := WHRCalculator.CalculateWHR(waistCircumference, hipCircumference);
    if r.IsFailure() {
      return;
    }
    user.SetWHR(r.value);
    user.SetWaistCircumference(waistCircumference);
    user.SetHipCircumference(hipCircumference);
  }

  /**
   * `readBodyDataCalculateBFRAndUpdateUser`: the BMI step, then Deurenberg
   * on that BMI with the gender and age read next; sets bfr, gender, age.
   * When Deurenberg throws (a BMI outside [10, 180], say), the BMI step's
   * writes remain.
   */
  method CalculateBFRAndUpdateUser(user: User?, scanner: Scanner?, weight: real, height: real, gender: string, age: int)
    returns (r: Outcome<real>)
    modifies user
    ensures user == null || scanner == null ==> r == NullPtr
    ensures user != null && scanner != null ==>
      r == (var bmi := BMICalculator.CalculateBMI(weight, height);
            if bmi.IsFailure() then bmi else BFRCalculator.CalculateBFRByDeurenberg(bmi.value, age, NonNull(gender)))
    ensures user != null && (scanner == null || BMICalculator.CalculateBMI(weight, height).IsFailure()) ==>
      user.State() == old(user.State())
    ensures user != null && scanner != null && BMICalculator.CalculateBMI(weight, height).Ok? && r.IsFailure() ==>
      user.State() == old(user.State()).(bmi := BMICalculator.CalculateBMI(weight, height).value, weight := weight, height := height)
    ensures r.Ok? ==>
      user.State() == old(user.State()).(bmi := BMICalculator.CalculateBMI(weight, height).value, weight := weight, height := height,
                                         bfr := r.value, gender := NonNull(gender), age := age)
    ensures r.Ok? ==> BMICalculator.CalculateBMI(user.weight, user.height) == Ok(user.bmi) &&
                      BFRCalculator.CalculateBFRByDeurenberg(user.bmi, user.age, user.gender) == Ok(user.bfr)
  {
    var check := MethodParameterValidator.ValidateUserAndScanner(user, scanner);
    if check.IsFailure() {
      return check.PropagateFailure();
    }
    var bmi := CalculateBMIAndUpdateUser(user, scanner, weight, height);
    if bmi.IsFailure() {
      return bmi;
    }
    r := BFRCalculator.CalculateBFRByDeurenberg(bmi.value, age, NonNull(gender));
    if r.IsFailure() {
      return;
    }
    user.SetBFR(r.value);
    user.SetGender(NonNull(gender));
    user.SetAge(age);
  }

  /** `readBodyDataCalculateBRIAndUpdateUser`: BRI from waist and height; sets bri, waist, height. */
  method CalculateBRIAndUpdateUser(user: User?, scanner: Scanner?, waistCircumference: real, height: real, m: MathLib)
    returns (r: Outcome<real>)
    modifies user
    ensures user == null || scanner == null ==> r == NullPtr
    ensures user != null && scanner != null ==> r == BRICalculator.CalculateBRI(waistCircumference, height, m)
    ensures user != null && r.IsFailure() ==> user.State() == old(user.State())
    ensures r.Ok? ==> user.State() == old(user.State()).(bri := r.value, waistCircumference := waistCircumference, height := height)
    ensures r.Ok? ==> BRICalculator.CalculateBRI(user.waistCircumference, user.height, m) == Ok(user.bri)
  {
    var check := MethodParameterValidator.ValidateUserAndScanner(user, scanner);
    if check.IsFailure() {
      return check.PropagateFailure();
    }
    r := BRICalculator.CalculateBRI(waistCircumference, height, m);
    if r.IsFailure() {
      return;
    }
    user.SetBRI(r.value);
    user.SetWaistCircumference(waistCircumference);
    user.SetHeight(height);
  }

  /** `readBodyDataCalculateBMRAndUpdateUser`: Mifflin-St Jeor; sets bmr, gender, age, weight, height. */
  method CalculateBMRAndUpdateUser(user: User?, scanner: Scanner?, gender: string, age: int, weight: real, height: real)
    returns (r: Outcome<real>)
    modifies user
    ensures user == null || scanner == null ==> r == NullPtr
    ensures user != null && scanner != null ==> r == BMRCalculator.CalculateBMRByMSJ(NonNull(gender), weight, height, age)
    ensures user != null && r.IsFailure() ==> user.State() == old(user.State())
    ensures r.Ok? ==> user.State() == old(user.State()).(bmr := r.value, gender := NonNull(gender), age := age,
                                                         weight := weight, height := height)
    ensures r.Ok? ==> BMRCalculator.CalculateBMRByMSJ(user.gender, user.weight, user.height, user.age) == Ok(user.bmr)
  {
    var check := MethodParameterValidator.ValidateUserAndScanner(user, scanner);
    if check.IsFailure() {
      return check.PropagateFailure();
    }
    r := BMRCalculator.CalculateBMRByMSJ(NonNull(gender), weight, height, age);
    if r.IsFailure() {
      return;
    }
    user.SetBMR(r.value);
    user.SetGender(NonNull(gender));
    user.SetAge(age);
    user.SetWeight(weight);
    user.SetHeight(height);
  }

  /**
   * `readBodyDataCalculateTDEEAndUpdateUser`: the BMR step, then TDEE from
   * that BMR and the activity coefficient read next; sets tdee and the
   * coefficient. When TDEE throws, the BMR step's writes remain.
   */
  method CalculateTDEEAndUpdateUser(user: User?, scanner: Scanner?, gender: string, age: int, weight: real, height: real,
                                    activityCoefficient: real)
    returns (r: Outcome<real>)
    modifies user
    ensures user == null || scanner == null ==> r == NullPtr
    ensures user != null && scanner != null ==>
      r == (var bmr := BMRCalculator.CalculateBMRByMSJ(NonNull(gender), weight, height, age);
            if bmr.IsFailure() then bmr else TDEECalculator.CalculateTDEE(bmr.value, activityCoefficient))
    ensures user != null && (scanner == null || BMRCalculator.CalculateBMRByMSJ(NonNull(gender), weight, height, age).IsFailure()) ==>
      user.State() == old(user.State())
    ensures user != null && scanner != null && BMRCalculator.CalculateBMRByMSJ(NonNull(gender), weight, height, age).Ok? &&
            r.IsFailure() ==>
      user.State() == old(user.State()).(bmr := BMRCalculator.CalculateBMRByMSJ(NonNull(gender), weight, height, age).value,
                                         gender := NonNull(gender), age := age, weight := weight, height := height)
    ensures r.Ok? ==>
      user.State() == old(user.State()).(bmr := BMRCalculator.CalculateBMRByMSJ(NonNull(gender), weight, height, age).value,
                                         gender := NonNull(gender), age := age, weight := weight, height := height,
                                         tdee := r.value, activityCoefficient := activityCoefficient)
    ensures r.Ok? ==> BMRCalculator.CalculateBMRByMSJ(user.gender, user.weight, user.height, user.age) == Ok(user.bmr) &&
                      TDEECalculator.CalculateTDEE(user.bmr, user.activityCoefficient) == Ok(user.tdee)
  {
    var check := MethodParameterValidator.ValidateUserAndScanner(user, scanner);
    if check.IsFailure() {
      return check.PropagateFailure();
    }
    var bmr := CalculateBMRAndUpdateUser(user, scanner, gender, age, weight, height);
    if bmr.IsFailure() {
      return bmr;
    }
    r := TDEECalculator.CalculateTDEE(bmr.value, activityCoefficient);
    if r.IsFailure() {
      return;
    }
    user.SetTDEE(r.value);
    user.SetActivityCoefficient(activityCoefficient);
  }

  /** `readBodyDataCalculateBSAAndUpdateUser`: Du Bois; sets bsa, weight, height. */
  method CalculateBSAAndUpdateUser(user: User?, scanner: Scanner?, weight: real, height: real, m: MathLib)
    returns (r: Outcome<real>)
    modifies user
    ensures user == null || scanner == null ==> r == NullPtr
    ensures user != null && scanner != null ==> r == BSACalculator.CalculateBSAByDuBois(height, weight, m)
    ensures user != null && r.IsFailure() ==> user.State() == old(user.State())
    ensures r.Ok? ==> user.State() == old(user.State()).(bsa := r.value, weight := weight, height := height)
    ensures r.Ok? ==> BSACalculator.CalculateBSAByDuBois(user.height, user.weight, m) == Ok(user.bsa)
  {
    var check := MethodParameterValidator.ValidateUserAndScanner(user, scanner);
    if check.IsFailure() {
      return check.PropagateFailure();
    }
    r := BSACalculator.CalculateBSAByDuBois(height, weight, m);
    if r.IsFailure() {
      return;
    }
    user.SetBSA(r.value);
    user.SetWeight(weight);
    user.SetHeight(height);
  }

  /**
   * Valid body data can still leave the BFR step half done: 2 kg at 272 cm
   * passes the BMI step, but its BMI of about 0.027 is below BMI's minimum
   * 10, so Deurenberg throws after bmi, weight and height were written.
   */
  lemma BFRStepCanFailAfterBMIStep()
    ensures BMICalculator.CalculateBMI(2.0, 272.0).Ok?
    ensures BFRCalculator.CalculateBFRByDeurenberg(BMICalculator.CalculateBMI(2.0, 272.0).value, 30, NonNull("男")).IsFailure()
  {
    var bmi := BMICalculator.CalculateBMI(2.0, 272.0).value;
    assert bmi * (2.72 * 2.72) == 2.0;
    assert bmi < 10.0;
  }
}
