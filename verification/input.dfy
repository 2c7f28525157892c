/** Normalising raw input text: `InputProcessor`. */
module InputProcessor {
  import opened Outcomes

  /** The characters `String.trim()` removes: every char up to and including U+0020. */
  predicate IsTrimmable(c: char)
  {
    c <= ' '
  }

  /** A string with no trimmable character at either end. */
  predicate IsTrimmed(s: string)
  {
    s == [] || (!IsTrimmable(s[0]) && !IsTrimmable(s[|s| - 1]))
  }

  /** The number of trimmable characters at the front of `s`. */
  function LeadingTrimmable(s: string): (n: nat)
    ensures n <= |s|
    ensures forall k :: 0 <= k < n ==> IsTrimmable(s[k])
    ensures n < |s| ==> !IsTrimmable(s[n])
  {
    if |s| > 0 && IsTrimmable(s[0]) then 1 + LeadingTrimmable(s[1..]) else 0
  }

  /** The number of trimmable characters at the back of `s`. */
  function TrailingTrimmable(s: string): (n: nat)
    ensures n <= |s|
    ensures forall k :: |s| - n <= k < |s| ==> IsTrimmable(s[k])
    ensures n < |s| ==> !IsTrimmable(s[|s| - 1 - n])
  {
    if |s| > 0 && IsTrimmable(s[|s| - 1]) then 1 + TrailingTrimmable(s[..|s| - 1]) else 0
  }

  /**
   * `String.trim()`: the middle part of `s` that neither starts nor ends with
   * a character up to U+0020; everything cut off before it (the leading run
   * counted by `LeadingTrimmable`) and after it is such a character.
   */
  function Trim(s: string): (r: string)
    ensures IsTrimmed(r)
    ensures LeadingTrimmable(s) + |r| <= |s|
    ensures r == s[LeadingTrimmable(s)..LeadingTrimmable(s) + |r|]
    ensures forall k :: LeadingTrimmable(s) + |r| <= k < |s| ==> IsTrimmable(s[k])
  {
    var front := LeadingTrimmable(s);
    var rest := s[front..];
    var back := TrailingTrimmable(rest);
    var r := rest[..|rest| - back];
    assert r == s[front..front + |r|];
    assert forall k :: front + |r| <= k < |s| ==> s[k] == rest[k - front];
    r
  }

  /** Trimming a string that is already trimmed leaves it unchanged. */
  lemma {:induction false} TrimOfTrimmed(s: string)
    requires IsTrimmed(s)
    ensures Trim(s) == s
  {
    assert LeadingTrimmable(s) == 0;
    assert s[0..] == s;
    assert TrailingTrimmable(s) == 0;
    assert s[..|s|] == s;
  }

  /** Trimming is idempotent. */
  lemma TrimIdempotent(s: string)
    ensures Trim(Trim(s)) == Trim(s)
  {
    TrimOfTrimmed(Trim(s));
  }

  /** `toTrimmedOrEmptyStr`: the trimmed input, or "" for `null`. */
  function ToTrimmedOrEmptyStr(input: Nullable<string>): (r: string)
    ensures IsTrimmed(r)
    ensures input.Null? ==> r == ""
    ensures input.NonNull? && IsTrimmed(input.get) ==> r == input.get
  {
    match input
    case Null => ""
    case NonNull(s) => TrimOfTrimmedIf(s); Trim(s)
  }

  /** Helper: states the already-trimmed case of `Trim` as an implication. */
  lemma TrimOfTrimmedIf(s: string)
    ensures IsTrimmed(s) ==> Trim(s) == s
  {
    if IsTrimmed(s) {
      TrimOfTrimmed(s);
    }
  }

  /** Normalising a normalised string changes nothing. */
  lemma ToTrimmedOrEmptyStrIdempotent(input: Nullable<string>)
    ensures ToTrimmedOrEmptyStr(NonNull(ToTrimmedOrEmptyStr(input))) == ToTrimmedOrEmptyStr(input)
  {
  }
}

/** Checks on input values and option lists: `InputValidator`. */
module InputValidator {
  import opened Outcomes
  import MethodParameterValidator

  /** A `null` target string never matches (`ALLOW_NULL_TARGET_STRING` is false). */
  const AllowNullTargetString: bool := false

  /**
   * `isInRange(double, double, double)`: whether `value` lies in the closed
   * range, after the range itself was checked to be strictly increasing.
   */
  function IsInRangeReal(value: real, lowerBound: real, upperBound: real): (r: Outcome<bool>)
    ensures lowerBound >= upperBound <==> r == IllegalArg(RangeNotIncreasing(lowerBound, upperBound))
    ensures lowerBound < upperBound ==> r == Ok(lowerBound <= value <= upperBound)
  {
    var _ :- MethodParameterValidator.ValidateRange(NonNull(lowerBound), NonNull(upperBound));
    Ok(lowerBound <= value && value <= upperBound)
  }

  /**
   * `isInRange(int, int, int)`: the int variant only rejects a lower bound
   * above the upper bound, so a one-point range is allowed.
   */
  function IsInRangeInt(value: int, lowerBound: int, upperBound: int): (r: Outcome<bool>)
    ensures lowerBound > upperBound <==> r == IllegalArg(LowerAboveUpper)
    ensures lowerBound <= upperBound ==> r == Ok(lowerBound <= value <= upperBound)
  {
    if lowerBound > upperBound then IllegalArg(LowerAboveUpper)
    else Ok(lowerBound <= value && value <= upperBound)
  }

  /** The two variants differ on a one-point range: the double one throws, the int one does not. */
  lemma OnePointRange(v: int)
    ensures IsInRangeReal(v as real, v as real, v as real).IllegalArg?
    ensures IsInRangeInt(v, v, v) == Ok(true)
  {
  }

  /** `Objects.equals` on two nullable strings. */
  predicate ObjectsEquals(a: Nullable<string>, b: Nullable<string>)
  {
    a == b
  }

  /**
   * `contains(String[], String)`: false for a null or empty array and for a
   * null target; otherwise whether some element equals the target.
   */
  function ContainsInArray(strArr: Nullable<seq<Nullable<string>>>, targetStr: Nullable<string>): (r: bool)
    ensures r <==> strArr.NonNull? && targetStr.NonNull?
                   && exists i :: 0 <= i < |strArr.get| && strArr.get[i] == targetStr
  {
    if strArr.Null? || |strArr.get| == 0 then false
    else if !AllowNullTargetString && targetStr.Null? then false
    else exists i :: 0 <= i < |strArr.get| && ObjectsEquals(strArr.get[i], targetStr)
  }

  /**
   * `contains(List<String>, String)`: the same answer over a list, through
   * `List.contains`.
   */
  function ContainsInList(stringList: Nullable<seq<Nullable<string>>>, targetStr: Nullable<string>): (r: bool)
    ensures r <==> stringList.NonNull? && targetStr.NonNull? && targetStr in stringList.get
  {
    if stringList.Null? || |stringList.get| == 0 then false
    else if !AllowNullTargetString && targetStr.Null? then false
    else targetStr in stringList.get
  }

  /** The array and the list variants agree on the same elements. */
  lemma ArrayAndListAgree(strs: Nullable<seq<Nullable<string>>>, target: Nullable<string>)
    ensures ContainsInArray(strs, target) == ContainsInList(strs, target)
  {
    if strs.NonNull? && target.NonNull? && target in strs.get {
      var i :| 0 <= i < |strs.get| && strs.get[i] == target;
    }
  }

  /** `String.contains`: `target` occurs in `text` at some position. */
  predicate OccursIn(target: string, text: string)
  {
    exists i :: 0 <= i <= |text| - |target| && OccursAt(target, text, i)
  }

  /** `target` occurs in `text` starting at index `i`. */
  predicate OccursAt(target: string, text: string, i: int)
  {
    0 <= i <= |text| - |target| && text[i..i + |target|] == target
  }

  /** `containsSubstring`: false when either string is null, else whether `target` occurs in `text`. */
  function ContainsSubstring(text: Nullable<string>, targetStr: Nullable<string>): (r: bool)
    ensures r ==> text.NonNull? && targetStr.NonNull? && |targetStr.get| <= |text.get|
    ensures text.NonNull? && targetStr.NonNull? ==> (r <==> OccursIn(targetStr.get, text.get))
  {
    if text.Null? || targetStr.Null? then false
    else OccursIn(targetStr.get, text.get)
  }

  /** Every text, the empty one included, contains the empty string and itself. */
  lemma ContainsEmptyAndItself(text: string)
    ensures ContainsSubstring(NonNull(text), NonNull(""))
    ensures ContainsSubstring(NonNull(text), NonNull(text))
  {
    assert OccursAt("", text, 0);
    assert OccursAt(text, text, 0);
  }
}
