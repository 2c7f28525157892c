/**
 * The seven calculation menu entries and their "already calculated" flags:
 * `CalculationMethod`. In Java each flag is a mutable field of an enum
 * constant, so there is one flag per entry for the whole process; here the
 * flags are one object, `AccessFlags`, holding a flag per entry.
 */
module CalculationMethod {
  import opened BodyMetric

  datatype CalculationMethod = CALC_BMI | CALC_WHR | CALC_BFR | CALC_BRI | CALC_BMR | CALC_TDEE | CALC_BSA
  {
    /** `getMethodName`: the name of the service method that shows this calculation. */
    function MethodName(): string
    {
      match this
      case CALC_BMI => "showBMICalculation" case CALC_WHR => "showWHRCalculation"
      case CALC_BFR => "showBFRCalculation" case CALC_BRI => "showBRICalculation"
      case CALC_BMR => "showBMRCalculation" case CALC_TDEE => "showTDEECalculation"
      case CALC_BSA => "showBSACalculation"
    }

    /** `getHealthMetric`: the metric this entry calculates. */
    function Metric(): HealthMetric
    {
      match this
      case CALC_BMI => BMI case CALC_WHR => WHR case CALC_BFR => BFR case CALC_BRI => BRI
      case CALC_BMR => BMR case CALC_TDEE => TDEE case CALC_BSA => BSA
    }
  }

  /** `values()`, in declaration order. */
  const Values: seq<CalculationMethod> := [CALC_BMI, CALC_WHR, CALC_BFR, CALC_BRI, CALC_BMR, CALC_TDEE, CALC_BSA]

  /** `ordinal()`: the entry's position in `values()`. */
  function Ordinal(c: CalculationMethod): (r: nat)
    ensures r < |Values| && Values[r] == c
  {
    match c
    case CALC_BMI => 0 case CALC_WHR => 1 case CALC_BFR => 2 case CALC_BRI => 3
    case CALC_BMR => 4 case CALC_TDEE => 5 case CALC_BSA => 6
  }

  /** The entry that calculates a metric: the inverse of `getHealthMetric`. */
  function ForMetric(m: HealthMetric): (r: CalculationMethod)
    ensures r.Metric() == m
  {
    match m
    case BMI => CALC_BMI case WHR => CALC_WHR case BFR => CALC_BFR case BRI => CALC_BRI
    case BMR => CALC_BMR case TDEE => CALC_TDEE case BSA => CALC_BSA
  }

  /** The seven entries are distinct, and no two entries calculate the same metric. */
  lemma EntriesMatchMetrics(c: CalculationMethod, d: CalculationMethod)
    ensures forall i, j :: 0 <= i < j < |Values| ==> Values[i] != Values[j]
    ensures c.Metric() == d.Metric() ==> c == d
    ensures ForMetric(c.Metric()) == c
  {
  }

  /** The `visited` flags of all seven entries. */
  class AccessFlags {
    var visited: map<CalculationMethod, bool>

    /** Every entry has a flag. */
    ghost predicate Valid()
      reads this
    {
      forall c: CalculationMethod :: c in visited
    }

    /** Each flag starts `false`. */
    constructor ()
      ensures Valid()
      ensures forall c: CalculationMethod :: !visited[c]
    {
      visited := map c: CalculationMethod | c in Values :: false;
      new;
      forall c: CalculationMethod
        ensures c in visited
      {
        assert Values[Ordinal(c)] == c;
      }
    }

    /** `isVisited`. */
    function IsVisited(c: CalculationMethod): bool
      requires Valid()
      reads this
    {
      visited[c]
    }

    /** `markAsVisited`: sets this entry's flag; the other flags keep their values. */
    method MarkAsVisited(c: CalculationMethod)
      requires Valid()
      modifies this
      ensures Valid()
      ensures visited == old(visited)[c := true]
      ensures IsVisited(c)
    {
      visited := visited[c := true];
    }

    /** `resetAccessFlag`: clears this entry's flag; the other flags keep their values. */
    method ResetAccessFlag(c: CalculationMethod)
      requires Valid()
      modifies this
      ensures Valid()
      ensures visited == old(visited)[c := false]
      ensures !IsVisited(c)
    {
      visited := visited[c := false];
    }

    /** `resetAllAccessFlags`: clears the flag of every entry of `values()`, one after the other. */
    method ResetAllAccessFlags()
      requires Valid()
      modifies this
      ensures Valid()
      ensures forall c: CalculationMethod :: !IsVisited(c)
    {
      var i := 0;
      while i < |Values|
        invariant 0 <= i <= |Values|
        invariant Valid()
        invariant forall j :: 0 <= j < i ==> !visited[Values[j]]
      {
        ResetAccessFlag(Values[i]);
        i := i + 1;
      }
      forall c: CalculationMethod
        ensures !IsVisited(c)
      {
        assert Values[Ordinal(c)] == c;
      }
    }
  }

  /** Marking twice is marking once, and a reset after a mark restores the flag to `false`. */
  lemma MarkIsIdempotent(flags: map<CalculationMethod, bool>, c: CalculationMethod)
    ensures flags[c := true][c := true] == flags[c := true]
    ensures flags[c := true][c := false] == flags[c := false]
  {
  }
}
