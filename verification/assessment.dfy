/** One interval of a metric table and what it says about a value in it: `HealthMetricIntervalAssessment`. */
module IntervalAssessment {

  /**
   * A closed interval with the health status, risk and advice for values in
   * it. The constructor accepts any two bounds; there are no setters.
   */
  datatype HealthMetricIntervalAssessment = HealthMetricIntervalAssessment(
    lowerBound: real, upperBound: real, healthStatus: string, healthRisk: string, healthAdvice: string)
  {
    /** `isInRange`: both ends are inclusive. */
    predicate IsInRange(value: real)
    {
      lowerBound <= value && value <= upperBound
    }
  }

  /** An interval whose bounds are the wrong way round contains nothing. */
  lemma InvertedIntervalIsEmpty(a: HealthMetricIntervalAssessment, value: real)
    requires a.lowerBound > a.upperBound
    ensures !a.IsInRange(value)
  {
  }

  /** Two intervals that meet at a point both contain it, so the table order decides who owns it. */
  lemma SharedEndpointIsInBoth(a: HealthMetricIntervalAssessment, b: HealthMetricIntervalAssessment)
    requires a.lowerBound <= a.upperBound == b.lowerBound <= b.upperBound
    ensures a.IsInRange(a.upperBound) && b.IsInRange(a.upperBound)
  {
  }
}

/** The first-match lookup over a metric table: `HealthMetricsProvider.findByValue`. */
module HealthMetricsProvider {
  import opened Outcomes
  import opened BodyMetric
  import opened IntervalAssessment

  datatype Option<T> = None | Some(value: T)

  /**
   * The position of the first entry, in table order, whose interval contains
   * the value; `None` when no entry does.
   */
  function FirstMatch(providers: seq<HealthMetricIntervalAssessment>, value: real): (r: Option<nat>)
    ensures r.Some? ==> r.value < |providers| && providers[r.value].IsInRange(value)
    ensures r.Some? ==> forall j :: 0 <= j < r.value ==> !providers[j].IsInRange(value)
    ensures r.None? ==> forall j :: 0 <= j < |providers| ==> !providers[j].IsInRange(value)
  {
    if |providers| == 0 then None
    else if providers[0].IsInRange(value) then Some(0)
    else match FirstMatch(providers[1..], value)
      case None => None
      case Some(i) => Some(i + 1)
  }

  /** The assessment the lookup hands back, or `None` where it throws. */
  function Found(providers: seq<HealthMetricIntervalAssessment>, value: real): Option<HealthMetricIntervalAssessment>
  {
    match FirstMatch(providers, value)
    case Some(i) => Some(providers[i])
    case None => None
  }

  /**
   * `findByValue(metricsProviders, nameAbbreviation, formattedClosedRange, value)`:
   * the three references are checked for null, then the table is scanned in
   * order and the first interval containing the value wins; when none does,
   * the exception names the value, the abbreviation and the range.
   */
  method FindByValue(metricsProviders: Nullable<seq<HealthMetricIntervalAssessment>>, nameAbbreviation: Nullable<string>,
                     formattedClosedRange: Nullable<RangeText>, value: real)
    returns (r: Outcome<HealthMetricIntervalAssessment>)
    ensures r == NullPtr <==> metricsProviders.Null? || nameAbbreviation.Null? || formattedClosedRange.Null?
    ensures r.Ok? ==> r.value.IsInRange(value) && Found(metricsProviders.get, value) == Some(r.value)
    ensures r.IsFailure() && r != NullPtr ==>
      Found(metricsProviders.get, value) == None &&
      r == IllegalArg(NoMatchingInterval(value, nameAbbreviation.get, formattedClosedRange.get))
  {
    if metricsProviders.Null? || nameAbbreviation.Null? || formattedClosedRange.Null? {
      return NullPtr;
    }
    var providers := metricsProviders.get;
    var i := 0;
    while i < |providers|
      invariant 0 <= i <= |providers|
      invariant forall j :: 0 <= j < i ==> !providers[j].IsInRange(value)
    {
      if providers[i].IsInRange(value) {
        return Ok(providers[i]);
      }
      i := i + 1;
    }
    return IllegalArg(NoMatchingInterval(value, nameAbbreviation.get, formattedClosedRange.get));
  }

  /**
   * `findByValue(metricsProviders, healthMetric, value)`: the metric's
   * abbreviation and range only feed the message; whether the value is
   * classified depends on the table alone.
   */
  method FindByValueOfMetric(metricsProviders: Nullable<seq<HealthMetricIntervalAssessment>>, healthMetric: Nullable<HealthMetric>,
                             value: real)
    returns (r: Outcome<HealthMetricIntervalAssessment>)
    ensures r == NullPtr <==> metricsProviders.Null? || healthMetric.Null?
    ensures r.Ok? ==> r.value.IsInRange(value) && Found(metricsProviders.get, value) == Some(r.value)
    ensures r.IsFailure() && r != NullPtr ==>
      Found(metricsProviders.get, value) == None &&
      r == IllegalArg(NoMatchingInterval(value, healthMetric.get.Abbreviation(),
                                         RangeText(healthMetric.get.MinValue(), healthMetric.get.MaxValue(), 1)))
  {
    if metricsProviders.Null? || healthMetric.Null? {
      return NullPtr;
    }
    var abbreviation := healthMetric.get.Abbreviation();
    var formattedClosedRange := healthMetric.get.FormattedClosedRange().value;
    r := FindByValue(metricsProviders, NonNull(abbreviation), NonNull(formattedClosedRange), value);
  }

  /** `findByValue(metricsProviders, bodyParameter, value)`: the same, for a body parameter's table. */
  method FindByValueOfParameter(metricsProviders: Nullable<seq<HealthMetricIntervalAssessment>>,
                                bodyParameter: Nullable<BasicBodyParameter>, value: real)
    returns (r: Outcome<HealthMetricIntervalAssessment>)
    ensures r == NullPtr <==> metricsProviders.Null? || bodyParameter.Null?
    ensures r.Ok? ==> r.value.IsInRange(value) && Found(metricsProviders.get, value) == Some(r.value)
    ensures r.IsFailure() && r != NullPtr ==>
      Found(metricsProviders.get, value) == None &&
      r == IllegalArg(NoMatchingInterval(value, bodyParameter.get.Abbreviation(), bodyParameter.get.FormattedClosedRange().value))
  {
    if metricsProviders.Null? || bodyParameter.Null? {
      return NullPtr;
    }
    var abbreviation := bodyParameter.get.Abbreviation();
    var formattedClosedRange := bodyParameter.get.FormattedClosedRange().value;
    r := FindByValue(metricsProviders, NonNull(abbreviation), NonNull(formattedClosedRange), value);
  }

  /** The entry at `i` is the one found when it contains the value and no earlier entry does. */
  lemma FoundAt(providers: seq<HealthMetricIntervalAssessment>, value: real, i: nat)
    requires i < |providers| && providers[i].IsInRange(value)
    requires forall j :: 0 <= j < i ==> !providers[j].IsInRange(value)
    ensures Found(providers, value) == Some(providers[i])
  {
  }

  /** A value inside any entry's interval is classified. */
  lemma ContainedIsFound(providers: seq<HealthMetricIntervalAssessment>, value: real, i: nat)
    requires i < |providers| && providers[i].IsInRange(value)
    ensures Found(providers, value).Some?
  {
  }

  /** Each interval ends where the next one starts. */
  predicate Contiguous(providers: seq<HealthMetricIntervalAssessment>)
  {
    forall i :: 0 <= i < |providers| - 1 ==> providers[i].upperBound == providers[i + 1].lowerBound
  }

  /**
   * A contiguous table classifies every value from its first lower bound to
   * its last upper bound.
   */
  lemma {:induction false} ContiguousTableCovers(providers: seq<HealthMetricIntervalAssessment>, value: real)
    requires |providers| > 0 && Contiguous(providers)
    requires providers[0].lowerBound <= value <= providers[|providers| - 1].upperBound
    ensures Found(providers, value).Some?
  {
    if !providers[0].IsInRange(value) {
      assert |providers| > 1;
      var rest := providers[1..];
      assert Contiguous(rest) by {
        forall i | 0 <= i < |rest| - 1
          ensures rest[i].upperBound == rest[i + 1].lowerBound
        {
          assert rest[i] == providers[i + 1] && rest[i + 1] == providers[i + 2];
        }
      }
      ContiguousTableCovers(rest, value);
      assert FirstMatch(providers, value) == match FirstMatch(rest, value) case None => None case Some(i) => Some(i + 1);
    }
  }

  /** A value below every lower bound or above every upper bound is classified by no table. */
  lemma OutsideEveryIntervalThrows(providers: seq<HealthMetricIntervalAssessment>, value: real)
    requires forall i :: 0 <= i < |providers| ==> value < providers[i].lowerBound || providers[i].upperBound < value
    ensures Found(providers, value) == None
  {
  }
}
