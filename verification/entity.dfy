/**
 * The user record: `UserBodyProfile` (body parameters and computed health
 * metrics) and its subclass `User` (name and id), flattened into one class
 * because the model has no class inheritance.
 */
module Entity {
  import opened Outcomes
  import opened TypeConvertor

  /** Everything a user record holds, as one value. */
  datatype UserState = UserState(
    name: Nullable<string>,
    id: Int32,
    gender: Nullable<string>,
    age: int,
    weight: real,
    height: real,
    waistCircumference: real,
    hipCircumference: real,
    neckCircumference: real,
    armCircumference: real,
    activityCoefficient: real,
    bmi: real,
    whr: real,
    bfr: real,
    bri: real,
    bmr: real,
    tdee: real,
    bsa: real)

  /** The default record: `null` strings and zero numbers, as Java initialises fields. */
  const DefaultState: UserState := UserState(Null, 0, Null, 0, 0.0, 0.0, 0.0, 0.0, 0.0, 0.0, 0.0, 0.0, 0.0, 0.0, 0.0, 0.0, 0.0, 0.0)

  /** The console input source; the values it yields are parameters of the callers. */
  class Scanner {
    constructor ()
    {
    }
  }

  class User {
    var name: Nullable<string>
    var id: Int32
    var gender: Nullable<string>
    var age: int
    var weight: real
    var height: real
    var waistCircumference: real
    var hipCircumference: real
    var neckCircumference: real
    var armCircumference: real
    var activityCoefficient: real
    var bmi: real
    var whr: real
    var bfr: real
    var bri: real
    var bmr: real
    var tdee: real
    var bsa: real

    /** The whole record as one value. */
    function State(): UserState
      reads this
    {
      UserState(name, id, gender, age, weight, height, waistCircumference, hipCircumference, neckCircumference, armCircumference, activityCoefficient, bmi, whr, bfr, bri, bmr, tdee, bsa)
    }

    /** `User()` / `UserBodyProfile()`: every field at its default. */
    constructor ()
      ensures State() == DefaultState
    {
      name := Null;
      id := 0;
      gender := Null;
      age := 0;
      weight := 0.0;
      height := 0.0;
      waistCircumference := 0.0;
      hipCircumference := 0.0;
      neckCircumference := 0.0;
      armCircumference := 0.0;
      activityCoefficient := 0.0;
      bmi := 0.0;
      whr := 0.0;
      bfr := 0.0;
      bri := 0.0;
      bmr := 0.0;
      tdee := 0.0;
      bsa := 0.0;
    }

    /** Lombok's `User(name, id)`. */
    constructor WithIdentity(name: Nullable<string>, id: Int32)
      ensures State() == DefaultState.(name := name, id := id)
    {
      this.name := name;
      this.id := id;
      gender := Null;
      age := 0;
      weight := 0.0;
      height := 0.0;
      waistCircumference := 0.0;
      hipCircumference := 0.0;
      neckCircumference := 0.0;
      armCircumference := 0.0;
      activityCoefficient := 0.0;
      bmi := 0.0;
      whr := 0.0;
      bfr := 0.0;
      bri := 0.0;
      bmr := 0.0;
      tdee := 0.0;
      bsa := 0.0;
    }

    /** `UserBodyProfile(gender, age)`. */
    constructor WithGenderAge(gender: Nullable<string>, age: int)
      ensures State() == DefaultState.(gender := gender, age := age)
    {
      name := Null;
      id := 0;
      this.gender := gender;
      this.age := age;
      weight := 0.0;
      height := 0.0;
      waistCircumference := 0.0;
      hipCircumference := 0.0;
      neckCircumference := 0.0;
      armCircumference := 0.0;
      activityCoefficient := 0.0;
      bmi := 0.0;
      whr := 0.0;
      bfr := 0.0;
      bri := 0.0;
      bmr := 0.0;
      tdee := 0.0;
      bsa := 0.0;
    }

    /** `UserBodyProfile(weight, height)`. */
    constructor WithWeightHeight(weight: real, height: real)
      ensures State() == DefaultState.(weight := weight, height := height)
    {
      name := Null;
      id := 0;
      gender := Null;
      age := 0;
      this.weight := weight;
      this.height := height;
      waistCircumference := 0.0;
      hipCircumference := 0.0;
      neckCircumference := 0.0;
      armCircumference := 0.0;
      activityCoefficient := 0.0;
      bmi := 0.0;
      whr := 0.0;
      bfr := 0.0;
      bri := 0.0;
      bmr := 0.0;
      tdee := 0.0;
      bsa := 0.0;
    }

    /** `UserBodyProfile(gender, age, weight, height)`. */
    constructor WithGenderAgeWeightHeight(gender: Nullable<string>, age: int, weight: real, height: real)
      ensures State() == DefaultState.(gender := gender, age := age, weight := weight, height := height)
    {
      name := Null;
      id := 0;
      this.gender := gender;
      this.age := age;
      this.weight := weight;
      this.height := height;
      waistCircumference := 0.0;
      hipCircumference := 0.0;
      neckCircumference := 0.0;
      armCircumference := 0.0;
      activityCoefficient := 0.0;
      bmi := 0.0;
      whr := 0.0;
      bfr := 0.0;
      bri := 0.0;
      bmr := 0.0;
      tdee := 0.0;
      bsa := 0.0;
    }

    /** `setName`: writes `name` and nothing else. */
    method SetName(v: Nullable<string>)
      modifies this
      ensures State() == old(State()).(name := v)
    {
      name := v;
    }

    /** `setId`: writes `id` and nothing else. */
    method SetId(v: Int32)
      modifies this
      ensures State() == old(State()).(id := v)
    {
      id := v;
    }

    /** `setGender`: writes `gender` and nothing else. */
    method SetGender(v: Nullable<string>)
      modifies this
      ensures State() == old(State()).(gender := v)
    {
      gender := v;
    }

    /** `setAge`: writes `age` and nothing else. */
    method SetAge(v: int)
      modifies this
      ensures State() == old(State()).(age := v)
    {
      age := v;
    }

    /** `setWeight`: writes `weight` and nothing else. */
    method SetWeight(v: real)
      modifies this
      ensures State() == old(State()).(weight := v)
    {
      weight := v;
    }

    /** `setHeight`: writes `height` and nothing else. */
    method SetHeight(v: real)
      modifies this
      ensures State() == old(State()).(height := v)
    {
      height := v;
    }

    /** `setWaistCircumference`: writes `waistCircumference` and nothing else. */
    method SetWaistCircumference(v: real)
      modifies this
      ensures State() == old(State()).(waistCircumference := v)
    {
      waistCircumference := v;
    }

    /** `setHipCircumference`: writes `hipCircumference` and nothing else. */
    method SetHipCircumference(v: real)
      modifies this
      ensures State() == old(State()).(hipCircumference := v)
    {
      hipCircumference := v;
    }

    /** `setNeckCircumference`: writes `neckCircumference` and nothing else. */
    method SetNeckCircumference(v: real)
      modifies this
      ensures State() == old(State()).(neckCircumference := v)
    {
      neckCircumference := v;
    }

    /** `setArmCircumference`: writes `armCircumference` and nothing else. */
    method SetArmCircumference(v: real)
      modifies this
      ensures State() == old(State()).(armCircumference := v)
    {
      armCircumference := v;
    }

    /** `setActivityCoefficient`: writes `activityCoefficient` and nothing else. */
    method SetActivityCoefficient(v: real)
      modifies this
      ensures State() == old(State()).(activityCoefficient := v)
    {
      activityCoefficient := v;
    }

    /** `setBMI`: writes `bmi` and nothing else. */
    method SetBMI(v: real)
      modifies this
      ensures State() == old(State()).(bmi := v)
    {
      bmi := v;
    }

    /** `setWHR`: writes `whr` and nothing else. */
    method SetWHR(v: real)
      modifies this
      ensures State() == old(State()).(whr := v)
    {
      whr := v;
    }

    /** `setBFR`: writes `bfr` and nothing else. */
    method SetBFR(v: real)
      modifies this
      ensures State() == old(State()).(bfr := v)
    {
      bfr := v;
    }

    /** `setBRI`: writes `bri` and nothing else. */
    method SetBRI(v: real)
      modifies this
      ensures State() == old(State()).(bri := v)
    {
      bri := v;
    }

    /** `setBMR`: writes `bmr` and nothing else. */
    method SetBMR(v: real)
      modifies this
      ensures State() == old(State()).(bmr := v)
    {
      bmr := v;
    }

    /** `setTDEE`: writes `tdee` and nothing else. */
    method SetTDEE(v: real)
      modifies this
      ensures State() == old(State()).(tdee := v)
    {
      tdee := v;
    }

    /** `setBSA`: writes `bsa` and nothing else. */
    method SetBSA(v: real)
      modifies this
      ensures State() == old(State()).(bsa := v)
    {
      bsa := v;
    }

    /**
     * `compareTo` as written: `this.id - another.id`, which wraps around
     * in 32-bit arithmetic; `null` throws.
     */
    function CompareTo(another: User?): (r: Outcome<Int32>)
      reads this, another
      ensures another == null <==> r == NullPtr
      ensures another != null ==> r.Ok? && r.value == IdDifference(id, another.id)
    {
      if another == null then NullPtr else Ok(IdDifference(id, another.id))
    }

    /** `compareTo` as intended: `Integer.compare(this.id, another.id)`. */
    function CompareToIntended(another: User?): (r: Outcome<Int32>)
      reads this, another
      ensures another == null <==> r == NullPtr
      ensures another != null ==> r.Ok? && (r.value < 0 <==> id < another.id) && (r.value == 0 <==> id == another.id)
    {
      if another == null then NullPtr else Ok(IntegerCompare(id, another.id))
    }

    /** `hashCode`: `Objects.hash(id)`, that is `31 + id` in 32-bit arithmetic. */
    function HashCode(): (h: Int32)
      reads this
      ensures (h - (31 + id)) % 0x1_0000_0000 == 0
    {
      Wrap(31 + id)
    }

    /**
     * `equals`: the same object, or another `User` with the same id; `null`
     * is never equal. Objects of other classes cannot be passed in this model.
     */
    function Equals(o: User?): (r: bool)
      reads this, o
      ensures o == this ==> r
      ensures o == null ==> !r
      ensures r <==> o != null && o.id == id
    {
      if this == o then true
      else if o == null then false
      else id == o.id
    }
  }

  /** The 32-bit difference of two ids: the expression `this.id - another.id`. */
  function IdDifference(a: Int32, b: Int32): (d: Int32)
    ensures (d - (a - b)) % 0x1_0000_0000 == 0
    ensures IntMin <= a - b <= IntMax ==> d == a - b
  {
    Wrap(a - b)
  }

  /** `Integer.compare`: -1, 0 or 1 by the order of the two ints. */
  function IntegerCompare(a: Int32, b: Int32): (c: Int32)
    ensures c == -1 <==> a < b
    ensures c == 0 <==> a == b
    ensures c == 1 <==> a > b
  {
    if a < b then -1 else if a == b then 0 else 1
  }

  /** The id difference gets the order wrong: the largest id compares below -1. */
  lemma IdDifferenceOverflows()
    ensures IntMax > -1 && IdDifference(IntMax, -1) < 0
  {
    assert IntMax - (-1) == 0x8000_0000;
  }

  /** The difference has the right sign whenever it does not overflow. */
  lemma IdDifferenceSignWithoutOverflow(a: Int32, b: Int32)
    requires IntMin <= a - b <= IntMax
    ensures IdDifference(a, b) < 0 <==> a < b
    ensures IdDifference(a, b) == 0 <==> a == b
  {
  }

  /** `Integer.compare` is a total order: antisymmetric and transitive. */
  lemma IntegerCompareIsOrder(a: Int32, b: Int32, c: Int32)
    ensures IntegerCompare(a, b) == -IntegerCompare(b, a)
    ensures IntegerCompare(a, b) < 0 && IntegerCompare(b, c) < 0 ==> IntegerCompare(a, c) < 0
  {
  }

  /** Equal users have equal hash codes, and equality is symmetric. */
  lemma EqualsAgreesWithHashCode(u: User, v: User)
    ensures u.Equals(v) ==> u.HashCode() == v.HashCode()
    ensures u.Equals(v) <==> v.Equals(u)
  {
  }
}
