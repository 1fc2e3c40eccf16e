// The step scaling policy of the awsx autoscaling package
// (nodejs/awsx/autoscaling/stepScaling.ts): sorting the steps, turning the
// upper and lower steps into the metric intervals of an AWS step scaling
// policy, and the policies and alarms the component creates.
// Step values and adjustments are integers.
module StepScaling {
  import opened Wrappers
  import opened Text

  /** The errors the component raises. */
  datatype StepError =
    | NoSteps
    | BadStatistic(statistic: string)
    | OverlappingSteps(lower: int, upper: int)
    | EmptyUpper
    | DuplicateUpper(value: int)
    | EmptyLower
    | DuplicateLower(value: int)

  /** The text of an error. */
  function Message(e: StepError): string
  {
    match e
      case NoSteps => "At least one of [args.steps.upper] and [args.steps.lower] must be provided."
      case BadStatistic(s) => "[args.metric.statistic] must be one of \"Minimum\", \"Maximum\" or \"Average\", but was: " + s
      case OverlappingSteps(l, u) =>
        "Lower and upper steps cannot overlap. Lower step value " + IntToString(l) + " greater than upper step value " + IntToString(u)
      case EmptyUpper => "[args.steps.upper] must be non-empty."
      case DuplicateUpper(v) => "Upper steps contained two steps with the same [value]: " + IntToString(v)
      case EmptyLower => "[args.steps.lower] must be non-empty."
      case DuplicateLower(v) => "Lower steps contained two steps with the same [value]: " + IntToString(v)
  }

  /** A step: the metric value where it starts, and the capacity adjustment it makes. */
  datatype ScalingStep = ScalingStep(value: int, adjustment: int)

  /**
   * A step adjustment of an AWS policy: the metric interval, relative to
   * the alarm threshold, where it applies (`None` is unbounded), and its
   * adjustment.
   */
  datatype StepAdjustment = StepAdjustment(lowerBound: Option<int>, upperBound: Option<int>, scalingAdjustment: int)

  /** A converted list of steps: the alarm threshold and the step adjustments. */
  datatype Converted = Converted(threshold: int, stepAdjustments: seq<StepAdjustment>)

  /** What `convertSteps` returns; `None` where no steps were given. */
  datatype ConvertedSteps = ConvertedSteps(upper: Option<Converted>, lower: Option<Converted>)

  // ---------------------------------------------------------------------
  // Sorting

  /** Values in ascending order. */
  predicate Ascending(s: seq<ScalingStep>)
  {
    forall i, j :: 0 <= i < j < |s| ==> s[i].value <= s[j].value
  }

  /** Values in strictly ascending order: no two steps share a value. */
  predicate StrictlyAscending(s: seq<ScalingStep>)
  {
    forall i, j :: 0 <= i < j < |s| ==> s[i].value < s[j].value
  }

  /** Puts a step before the first step of a sorted list whose value is not below its own. */
  function Insert(x: ScalingStep, s: seq<ScalingStep>): (r: seq<ScalingStep>)
    ensures |r| == |s| + 1
  {
    if |s| == 0 then [x]
    else if x.value <= s[0].value then [x] + s
    else [s[0]] + Insert(x, s[1..])
  }

  /** Inserting adds the step and loses none. */
  lemma {:induction false} InsertPermutes(x: ScalingStep, s: seq<ScalingStep>)
    ensures multiset(Insert(x, s)) == multiset(s) + multiset{x}
  {
    if |s| > 0 && x.value > s[0].value {
      InsertPermutes(x, s[1..]);
      assert s == [s[0]] + s[1..];
    }
  }

  /** Inserting into an ascending list keeps it ascending. */
  lemma {:induction false} InsertAscending(x: ScalingStep, s: seq<ScalingStep>)
    requires Ascending(s)
    ensures Ascending(Insert(x, s))
  {
    if |s| > 0 && x.value > s[0].value {
      InsertAscending(x, s[1..]);
      InsertPermutes(x, s[1..]);
      var rest := Insert(x, s[1..]);
      forall k | 0 <= k < |rest|
        ensures s[0].value <= rest[k].value
      {
        assert rest[k] in multiset(rest);
        assert rest[k] in multiset(s[1..]) + multiset{x};
        if rest[k] in multiset(s[1..]) {
          var j :| 0 <= j < |s[1..]| && s[1..][j] == rest[k];
          assert s[j + 1] == rest[k];
        }
      }
    }
  }

  /**
   * `steps.sort((s1, s2) => s1.value - s2.value)`: ascending by value, and
   * steps of equal value keep their order.
   */
  function SortByValue(s: seq<ScalingStep>): (r: seq<ScalingStep>)
    ensures |r| == |s|
  {
    if |s| == 0 then [] else Insert(s[0], SortByValue(s[1..]))
  }

  /** Sorting gives an ascending permutation of the steps. */
  lemma {:induction false} SortByValueSorts(s: seq<ScalingStep>)
    ensures Ascending(SortByValue(s))
    ensures multiset(SortByValue(s)) == multiset(s)
  {
    if |s| > 0 {
      SortByValueSorts(s[1..]);
      InsertAscending(s[0], SortByValue(s[1..]));
      InsertPermutes(s[0], SortByValue(s[1..]));
      assert s == [s[0]] + s[1..];
    }
  }

  /** A list that is already ascending is left as it is: sorting twice changes nothing. */
  lemma {:induction false} SortedFixed(s: seq<ScalingStep>)
    requires Ascending(s)
    ensures SortByValue(s) == s
  {
    if |s| > 0 {
      SortedFixed(s[1..]);
      assert s == [s[0]] + s[1..];
    }
  }

  /** Sorting is idempotent. */
  lemma SortTwice(s: seq<ScalingStep>)
    ensures SortByValue(SortByValue(s)) == SortByValue(s)
  {
    SortByValueSorts(s);
    SortedFixed(SortByValue(s));
  }

  /** `sortSteps` on a given list: the array is sorted in place. */
  method SortSteps(a: array<ScalingStep>)
    modifies a
    ensures a[..] == SortByValue(old(a[..]))
  {
    var sorted := SortByValue(a[..]);
    forall i | 0 <= i < a.Length {
      a[i] := sorted[i];
    }
    assert a[..] == sorted;
  }

  // ---------------------------------------------------------------------
  // Converting the steps

  /** The first position of a sorted list whose step has the same value as the next one, if any. */
  function FirstRepeat(s: seq<ScalingStep>): (r: Option<nat>)
    ensures r.None? <==> forall i :: 0 <= i < |s| - 1 ==> s[i].value != s[i + 1].value
    ensures r.Some? ==> r.value < |s| - 1 && s[r.value].value == s[r.value + 1].value
    ensures r.Some? ==> forall i :: 0 <= i < r.value ==> s[i].value != s[i + 1].value
  {
    if |s| < 2 then None
    else if s[0].value == s[1].value then Some(0)
    else match FirstRepeat(s[1..])
      case None => None
      case Some(k) => Some(k + 1)
  }

  /** On an ascending list, no neighbours share a value exactly when no two steps do. */
  lemma {:induction false} NoRepeatStrict(s: seq<ScalingStep>)
    requires Ascending(s)
    ensures FirstRepeat(s).None? <==> StrictlyAscending(s)
  {
    if FirstRepeat(s).None? {
      forall i, j | 0 <= i < j < |s|
        ensures s[i].value < s[j].value
      {
        assert s[i].value <= s[j - 1].value && s[j - 1].value != s[j].value;
      }
    }
  }

  /** The adjustment of upper step i: from its value to the next step's, relative to the threshold. */
  function UpperAdjustment(s: seq<ScalingStep>, threshold: int, i: nat): StepAdjustment
    requires i < |s|
  {
    StepAdjustment(Some(s[i].value - threshold), if i == |s| - 1 then None else Some(s[i + 1].value - threshold), s[i].adjustment)
  }

  /** The adjustment of lower step i: from the previous step's value to its own, relative to the threshold. */
  function LowerAdjustment(s: seq<ScalingStep>, threshold: int, i: nat): StepAdjustment
    requires i < |s|
  {
    StepAdjustment(if i == 0 then None else Some(s[i - 1].value - threshold), Some(s[i].value - threshold), s[i].adjustment)
  }

  /** The adjustments of all upper steps. */
  function UpperAdjustments(s: seq<ScalingStep>, threshold: int): (r: seq<StepAdjustment>)
    ensures |r| == |s| && forall i :: 0 <= i < |s| ==> r[i] == UpperAdjustment(s, threshold, i)
  {
    seq(|s|, i requires 0 <= i < |s| => UpperAdjustment(s, threshold, i))
  }

  /** The adjustments of all lower steps. */
  function LowerAdjustments(s: seq<ScalingStep>, threshold: int): (r: seq<StepAdjustment>)
    ensures |r| == |s| && forall i :: 0 <= i < |s| ==> r[i] == LowerAdjustment(s, threshold, i)
  {
    seq(|s|, i requires 0 <= i < |s| => LowerAdjustment(s, threshold, i))
  }

  /**
   * `convertUpperSteps` on a sorted list: an empty list or two steps of the
   * same value throw; otherwise the threshold is the smallest value and
   * step i applies from its value up to the next step's.
   */
  function UpperConverted(s: seq<ScalingStep>): (r: Result<Converted>)
    ensures r.Ok? ==> |s| > 0 && |r.value.stepAdjustments| == |s| && r.value.threshold == s[0].value
  {
    if |s| == 0 then Fail(Message(EmptyUpper))
    else if FirstRepeat(s).Some? then Fail(Message(DuplicateUpper(s[FirstRepeat(s).value].value)))
    else Ok(Converted(s[0].value, UpperAdjustments(s, s[0].value)))
  }

  /**
   * `convertLowerSteps` on a sorted list: an empty list or two steps of the
   * same value throw; otherwise the threshold is the largest value and
   * step i applies from the previous step's value up to its own.
   */
  function LowerConverted(s: seq<ScalingStep>): (r: Result<Converted>)
    ensures r.Ok? ==> |s| > 0 && |r.value.stepAdjustments| == |s| && r.value.threshold == s[|s| - 1].value
  {
    if |s| == 0 then Fail(Message(EmptyLower))
    else if FirstRepeat(s).Some? then Fail(Message(DuplicateLower(s[FirstRepeat(s).value + 1].value)))
    else Ok(Converted(s[|s| - 1].value, LowerAdjustments(s, s[|s| - 1].value)))
  }

  /** Whether a metric value's distance from the threshold falls in an adjustment's interval. */
  predicate Contains(a: StepAdjustment, d: int)
  {
    (a.lowerBound.None? || a.lowerBound.value <= d) && (a.upperBound.None? || d < a.upperBound.value)
  }

  /** The last step of an ascending list whose value is at most m; the list's first value must be. */
  function Reached(s: seq<ScalingStep>, m: int): (r: nat)
    requires |s| > 0 && s[0].value <= m
    ensures r < |s| && s[r].value <= m && (r == |s| - 1 || m < s[r + 1].value)
  {
    if |s| == 1 || m < s[1].value then 0 else 1 + Reached(s[1..], m)
  }

  /**
   * The upper intervals cover every metric value from the threshold up,
   * without overlap: the value is in step i's interval exactly when i is
   * the last step it has reached, and in no other.
   */
  lemma UpperIntervals(s: seq<ScalingStep>, m: int)
    requires StrictlyAscending(s) && |s| > 0 && s[0].value <= m
    ensures UpperConverted(s).Ok?
    ensures var c := UpperConverted(s).value;
      forall i :: 0 <= i < |s| ==> (Contains(c.stepAdjustments[i], m - c.threshold) <==> i == Reached(s, m))
  {
    NoRepeatStrict(s);
    var c := UpperConverted(s).value;
    var k := Reached(s, m);
    forall i | 0 <= i < |s|
      ensures Contains(c.stepAdjustments[i], m - c.threshold) <==> i == k
    {
      assert c.stepAdjustments[i] == UpperAdjustment(s, s[0].value, i);
      if i < k {
        assert s[i + 1].value <= s[k].value;
      } else if i > k {
        assert s[k + 1].value <= s[i].value;
      }
    }
  }

  /** The first step of an ascending list whose value is above m; the list's last value must be. */
  function FirstAbove(s: seq<ScalingStep>, m: int): (r: nat)
    requires |s| > 0 && m < s[|s| - 1].value
    ensures r < |s| && m < s[r].value && (r == 0 || s[r - 1].value <= m)
  {
    if m < s[0].value then 0 else 1 + FirstAbove(s[1..], m)
  }

  /**
   * The lower intervals cover every metric value below the threshold,
   * without overlap: the value is in step i's interval exactly when i is
   * the first step above it, and in no other.
   */
  lemma LowerIntervals(s: seq<ScalingStep>, m: int)
    requires StrictlyAscending(s) && |s| > 0 && m < s[|s| - 1].value
    ensures LowerConverted(s).Ok?
    ensures var c := LowerConverted(s).value;
      forall i :: 0 <= i < |s| ==> (Contains(c.stepAdjustments[i], m - c.threshold) <==> i == FirstAbove(s, m))
  {
    NoRepeatStrict(s);
    var c := LowerConverted(s).value;
    var k := FirstAbove(s, m);
    forall i | 0 <= i < |s|
      ensures Contains(c.stepAdjustments[i], m - c.threshold) <==> i == k
    {
      assert c.stepAdjustments[i] == LowerAdjustment(s, s[|s| - 1].value, i);
      if i < k {
        assert s[i].value <= s[k - 1].value;
      } else if i > k {
        assert s[k].value <= s[i - 1].value;
      }
    }
  }

  /**
   * The shape of converted upper steps: the first interval starts at the
   * threshold, the last is unbounded above, each interval ends where the
   * next begins, and each adjustment is the step's own.
   */
  lemma UpperShape(s: seq<ScalingStep>)
    requires UpperConverted(s).Ok?
    ensures var a := UpperConverted(s).value.stepAdjustments;
      && a[0].lowerBound == Some(0) && a[|s| - 1].upperBound.None?
      && (forall i :: 0 <= i < |s| ==> a[i].scalingAdjustment == s[i].adjustment)
      && (forall i :: 0 <= i < |s| - 1 ==> a[i].upperBound == a[i + 1].lowerBound)
  {
    var a := UpperConverted(s).value.stepAdjustments;
    assert a == UpperAdjustments(s, s[0].value);
  }

  /**
   * The shape of converted lower steps: the first interval is unbounded
   * below, the last ends at the threshold, each interval ends where the
   * next begins, and each adjustment is the step's own.
   */
  lemma LowerShape(s: seq<ScalingStep>)
    requires LowerConverted(s).Ok?
    ensures var a := LowerConverted(s).value.stepAdjustments;
      && a[0].lowerBound.None? && a[|s| - 1].upperBound == Some(0)
      && (forall i :: 0 <= i < |s| ==> a[i].scalingAdjustment == s[i].adjustment)
      && (forall i :: 0 <= i < |s| - 1 ==> a[i].upperBound == a[i + 1].lowerBound)
  {
    var a := LowerConverted(s).value.stepAdjustments;
    assert a == LowerAdjustments(s, s[|s| - 1].value);
  }

  /** On a sorted list, either conversion fails past the emptiness check exactly when two steps share a value. */
  lemma DuplicatesRejected(s: seq<ScalingStep>)
    requires Ascending(s) && |s| > 0
    ensures UpperConverted(s).Ok? <==> StrictlyAscending(s)
    ensures LowerConverted(s).Ok? <==> StrictlyAscending(s)
  {
    NoRepeatStrict(s);
  }

  /**
   * The loop of `convertUpperSteps` over a sorted list: it pushes one
   * adjustment per step and throws at the first step whose value the next
   * step repeats.
   */
  method ConvertUpper(s: seq<ScalingStep>) returns (r: Result<Converted>)
    ensures r == UpperConverted(s)
  {
    if |s| == 0 {
      return Fail(Message(EmptyUpper));
    }
    var threshold := s[0].value;
    var adjustments: seq<StepAdjustment> := [];
    for i := 0 to |s|
      invariant |adjustments| == i
      invariant forall k :: 0 <= k < i ==> adjustments[k] == UpperAdjustment(s, threshold, k)
      invariant forall k :: 0 <= k < i && k < |s| - 1 ==> s[k].value != s[k + 1].value
    {
      var next: Option<ScalingStep> := if i == |s| - 1 then None else Some(s[i + 1]);
      if next.Some? && s[i].value == next.value.value {
        return Fail(Message(DuplicateUpper(s[i].value)));
      }
      var upper := if next.Some? then Some(next.value.value - threshold) else None;
      adjustments := adjustments + [StepAdjustment(Some(s[i].value - threshold), upper, s[i].adjustment)];
    }
    assert adjustments == UpperAdjustments(s, threshold);
    return Ok(Converted(threshold, adjustments));
  }

  /**
   * The loop of `convertLowerSteps` over a sorted list: it pushes one
   * adjustment per step and throws at the first step whose value repeats
   * the previous step's.
   */
  method ConvertLower(s: seq<ScalingStep>) returns (r: Result<Converted>)
    ensures r == LowerConverted(s)
  {
    if |s| == 0 {
      return Fail(Message(EmptyLower));
    }
    var threshold := s[|s| - 1].value;
    var adjustments: seq<StepAdjustment> := [];
    for i := 0 to |s|
      invariant |adjustments| == i
      invariant forall k :: 0 <= k < i ==> adjustments[k] == LowerAdjustment(s, threshold, k)
      invariant forall k :: 0 < k < i ==> s[k - 1].value != s[k].value
    {
      var previous: Option<ScalingStep> := if i == 0 then None else Some(s[i - 1]);
      if previous.Some? && s[i].value == previous.value.value {
        return Fail(Message(DuplicateLower(s[i].value)));
      }
      var lower := if previous.Some? then Some(previous.value.value - threshold) else None;
      adjustments := adjustments + [StepAdjustment(lower, Some(s[i].value - threshold), s[i].adjustment)];
    }
    assert adjustments == LowerAdjustments(s, threshold);
    return Ok(Converted(threshold, adjustments));
  }

  /** A list of steps sorted, if there is one. */
  function SortedSteps(steps: Option<seq<ScalingStep>>): (r: Option<seq<ScalingStep>>)
    ensures r.Some? <==> steps.Some?
    ensures r.Some? ==> |r.value| == |steps.value|
  {
    if steps.Some? then Some(SortByValue(steps.value)) else None
  }

  /** `convertUpperSteps` on a list that may be absent: the list is sorted, then converted. */
  function UpperStepsConverted(steps: Option<seq<ScalingStep>>): (r: Result<Option<Converted>>)
    ensures r.Ok? ==> (r.value.Some? <==> steps.Some?)
    ensures r.Ok? && steps.Some? ==> UpperConverted(SortByValue(steps.value)) == Ok(r.value.value)
    ensures r.Fail? ==> steps.Some? && UpperConverted(SortByValue(steps.value)).Fail?
  {
    if steps.None? then Ok(None)
    else
      var c := UpperConverted(SortByValue(steps.value));
      if c.Fail? then Fail(c.error) else Ok(Some(c.value))
  }

  /** `convertLowerSteps` on a list that may be absent: the list is sorted, then converted. */
  function LowerStepsConverted(steps: Option<seq<ScalingStep>>): (r: Result<Option<Converted>>)
    ensures r.Ok? ==> (r.value.Some? <==> steps.Some?)
    ensures r.Ok? && steps.Some? ==> LowerConverted(SortByValue(steps.value)) == Ok(r.value.value)
    ensures r.Fail? ==> steps.Some? && LowerConverted(SortByValue(steps.value)).Fail?
  {
    if steps.None? then Ok(None)
    else
      var c := LowerConverted(SortByValue(steps.value));
      if c.Fail? then Fail(c.error) else Ok(Some(c.value))
  }

  /**
   * `convertSteps` on the given lists: the upper list is converted, then
   * the lower, and the first error wins; with both lists, the largest
   * lower value must be below the smallest upper value.
   */
  function StepsConverted(upper: Option<seq<ScalingStep>>, lower: Option<seq<ScalingStep>>): (r: Result<ConvertedSteps>)
    ensures r.Ok? ==> (r.value.upper.Some? <==> upper.Some?) && (r.value.lower.Some? <==> lower.Some?)
  {
    var cu := UpperStepsConverted(upper);
    if cu.Fail? then Fail(cu.error)
    else
      var cl := LowerStepsConverted(lower);
      if cl.Fail? then Fail(cl.error)
      else if upper.Some? && lower.Some? then
        var u := SortByValue(upper.value);
        var l := SortByValue(lower.value);
        if l[|l| - 1].value >= u[0].value then Fail(Message(OverlappingSteps(l[|l| - 1].value, u[0].value)))
        else Ok(ConvertedSteps(cu.value, cl.value))
      else Ok(ConvertedSteps(cu.value, cl.value))
  }

  /**
   * Converted steps keep every step: as many adjustments as steps, with the
   * adjustments of the sorted steps; with both lists, the lower threshold
   * is below the upper one.
   */
  lemma StepsConvertedKeepSteps(upper: Option<seq<ScalingStep>>, lower: Option<seq<ScalingStep>>)
    requires StepsConverted(upper, lower).Ok?
    ensures var c := StepsConverted(upper, lower).value;
      && (upper.Some? ==>
            && |c.upper.value.stepAdjustments| == |upper.value|
            && multiset(SortByValue(upper.value)) == multiset(upper.value)
            && (forall i :: 0 <= i < |upper.value| ==>
                 c.upper.value.stepAdjustments[i].scalingAdjustment == SortByValue(upper.value)[i].adjustment))
      && (lower.Some? ==>
            && |c.lower.value.stepAdjustments| == |lower.value|
            && multiset(SortByValue(lower.value)) == multiset(lower.value)
            && (forall i :: 0 <= i < |lower.value| ==>
                 c.lower.value.stepAdjustments[i].scalingAdjustment == SortByValue(lower.value)[i].adjustment))
      && (upper.Some? && lower.Some? ==> c.lower.value.threshold < c.upper.value.threshold)
  {
    if upper.Some? {
      SortByValueSorts(upper.value);
      UpperShape(SortByValue(upper.value));
    }
    if lower.Some? {
      SortByValueSorts(lower.value);
      LowerShape(SortByValue(lower.value));
    }
  }

  /** A step of an ascending list is at least its first value and at most its last. */
  lemma BetweenEnds(s: seq<ScalingStep>, sorted: seq<ScalingStep>, x: ScalingStep)
    requires Ascending(sorted) && multiset(sorted) == multiset(s) && x in s
    ensures sorted[0].value <= x.value <= sorted[|sorted| - 1].value
  {
    assert x in multiset(s);
    assert x in multiset(sorted);
    var j :| 0 <= j < |sorted| && sorted[j] == x;
  }

  /** The upper alarm's threshold is the smallest value among the given upper steps. */
  lemma UpperThresholdIsSmallest(s: seq<ScalingStep>)
    requires UpperStepsConverted(Some(s)).Ok?
    ensures var t := UpperStepsConverted(Some(s)).value.value.threshold;
      && (exists i :: 0 <= i < |s| && s[i].value == t)
      && (forall i :: 0 <= i < |s| ==> t <= s[i].value)
  {
    var sorted := SortByValue(s);
    SortByValueSorts(s);
    assert sorted[0] in multiset(s);
    forall i | 0 <= i < |s|
      ensures sorted[0].value <= s[i].value
    {
      BetweenEnds(s, sorted, s[i]);
    }
  }

  /** The lower alarm's threshold is the largest value among the given lower steps. */
  lemma LowerThresholdIsLargest(s: seq<ScalingStep>)
    requires LowerStepsConverted(Some(s)).Ok?
    ensures var t := LowerStepsConverted(Some(s)).value.value.threshold;
      && (exists i :: 0 <= i < |s| && s[i].value == t)
      && (forall i :: 0 <= i < |s| ==> s[i].value <= t)
  {
    var sorted := SortByValue(s);
    SortByValueSorts(s);
    assert sorted[|sorted| - 1] in multiset(s);
    forall i | 0 <= i < |s|
      ensures s[i].value <= sorted[|sorted| - 1].value
    {
      BetweenEnds(s, sorted, s[i]);
    }
  }

  /**
   * Once both lists convert, `convertSteps` fails exactly when some lower
   * step's value reaches some upper step's value.
   */
  lemma OverlapRejected(upper: seq<ScalingStep>, lower: seq<ScalingStep>)
    requires UpperStepsConverted(Some(upper)).Ok? && LowerStepsConverted(Some(lower)).Ok?
    ensures StepsConverted(Some(upper), Some(lower)).Fail? <==>
      exists i, j :: 0 <= i < |lower| && 0 <= j < |upper| && lower[i].value >= upper[j].value
  {
    UpperThresholdIsSmallest(upper);
    LowerThresholdIsLargest(lower);
  }

  /** The contents of a given array. */
  function Contents(steps: Option<array<ScalingStep>>): (r: Option<seq<ScalingStep>>)
    reads if steps.Some? then {steps.value} else {}
    ensures r.Some? <==> steps.Some?
    ensures r.Some? ==> r.value == steps.value[..]
  {
    if steps.Some? then Some(steps.value[..]) else None
  }

  /** Sorts a given array in place. */
  method SortGiven(steps: Option<array<ScalingStep>>)
    modifies if steps.Some? then {steps.value} else {}
    ensures Contents(steps) == SortedSteps(old(Contents(steps)))
  {
    if steps.Some? {
      SortSteps(steps.value);
    }
  }

  /** `convertUpperSteps` on the caller's array: the array is sorted in place, then converted. */
  method ConvertUpperSteps(steps: Option<array<ScalingStep>>) returns (r: Result<Option<Converted>>)
    modifies if steps.Some? then {steps.value} else {}
    ensures Contents(steps) == SortedSteps(old(Contents(steps)))
    ensures r == UpperStepsConverted(old(Contents(steps)))
  {
    SortGiven(steps);
    if steps.None? {
      return Ok(None);
    }
    var c := ConvertUpper(steps.value[..]);
    if c.Fail? {
      return Fail(c.error);
    }
    return Ok(Some(c.value));
  }

  /** `convertLowerSteps` on the caller's array: the array is sorted in place, then converted. */
  method ConvertLowerSteps(steps: Option<array<ScalingStep>>) returns (r: Result<Option<Converted>>)
    modifies if steps.Some? then {steps.value} else {}
    ensures Contents(steps) == SortedSteps(old(Contents(steps)))
    ensures r == LowerStepsConverted(old(Contents(steps)))
  {
    SortGiven(steps);
    if steps.None? {
      return Ok(None);
    }
    var c := ConvertLower(steps.value[..]);
    if c.Fail? {
      return Fail(c.error);
    }
    return Ok(Some(c.value));
  }

  /** Sorting a sorted array again leaves it as it is. */
  lemma SortedStepsTwice(steps: Option<seq<ScalingStep>>)
    ensures SortedSteps(SortedSteps(steps)) == SortedSteps(steps)
  {
    if steps.Some? {
      SortTwice(steps.value);
    }
  }

  /**
   * `convertSteps` on the caller's arrays: each given array is sorted in
   * place (the same array may be given twice), and the result is
   * `StepsConverted` of the lists as they were.
   */
  method ConvertSteps(upper: Option<array<ScalingStep>>, lower: Option<array<ScalingStep>>) returns (r: Result<ConvertedSteps>)
    modifies if upper.Some? then {upper.value} else {}
    modifies if lower.Some? then {lower.value} else {}
    ensures Contents(upper) == SortedSteps(old(Contents(upper)))
    ensures Contents(lower) == SortedSteps(old(Contents(lower)))
    ensures r == StepsConverted(old(Contents(upper)), old(Contents(lower)))
  {
    ghost var u0 := Contents(upper);
    ghost var l0 := Contents(lower);
    SortedStepsTwice(u0);
    SortedStepsTwice(l0);
    SortGiven(upper);
    SortGiven(lower);
    assert Contents(upper) == SortedSteps(u0);
    assert Contents(lower) == SortedSteps(l0);
    var cu := ConvertUpperSteps(upper);
    assert Contents(lower) == SortedSteps(l0);
    if cu.Fail? {
      return Fail(cu.error);
    }
    var cl := ConvertLowerSteps(lower);
    assert Contents(upper) == SortedSteps(u0);
    if cl.Fail? {
      return Fail(cl.error);
    }
    if upper.Some? && lower.Some? {
      var lowerStep := lower.value[lower.value.Length - 1];
      var upperStep := upper.value[0];
      if lowerStep.value >= upperStep.value {
        return Fail(Message(OverlappingSteps(lowerStep.value, upperStep.value)));
      }
    }
    return Ok(ConvertedSteps(cu.value, cl.value));
  }

  // ---------------------------------------------------------------------
  // The component

  /** The arguments of a `StepScalingPolicy`, with the metric's statistic. */
  datatype StepScalingPolicyArgs = StepScalingPolicyArgs(
    statistic: string,
    upper: Option<seq<ScalingStep>>,
    lower: Option<seq<ScalingStep>>,
    adjustmentType: string,
    evaluationPeriods: Option<int>)

  /** An `aws.autoscaling.Policy` of type StepScaling. */
  datatype Policy = Policy(name: string, adjustmentType: string, metricAggregationType: string, stepAdjustments: seq<StepAdjustment>)

  /** The alarm that triggers a policy: the metric with a 60 second period, compared to the threshold. */
  datatype Alarm = Alarm(name: string, comparisonOperator: string, threshold: int, evaluationPeriods: int, period: int)

  /** The policies and alarms the component creates: an upper pair, a lower pair, or both. */
  datatype Created = Created(upper: Option<(Policy, Alarm)>, lower: Option<(Policy, Alarm)>)

  /** The statistics a step scaling policy can aggregate. */
  predicate AllowedStatistic(s: string)
  {
    s == "Minimum" || s == "Maximum" || s == "Average"
  }

  /** A policy and its alarm as the component makes them for one list of converted steps. */
  predicate PolicyFor(pa: (Policy, Alarm), name: string, operator: string, c: Converted, args: StepScalingPolicyArgs)
  {
    var (p, a) := pa;
    && p.name == name && a.name == name && a.comparisonOperator == operator
    && p.stepAdjustments == c.stepAdjustments && a.threshold == c.threshold
    && p.adjustmentType == args.adjustmentType && p.metricAggregationType == args.statistic
    && a.evaluationPeriods == args.evaluationPeriods.GetOr(1) && a.period == 60
  }

  /**
   * The `StepScalingPolicy` constructor: at least one list of steps; the
   * steps converted; the statistic one of Minimum, Maximum or Average;
   * then `${name}-upper` and `${name}-lower` policies with alarms that fire
   * at or above the upper threshold and at or below the lower one,
   * evaluated over one period unless told otherwise.
   */
  function NewStepScalingPolicy(name: string, args: StepScalingPolicyArgs): (r: Result<Created>)
    ensures args.upper.None? && args.lower.None? ==> r == Fail(Message(NoSteps))
    ensures r.Ok? <==> (args.upper.Some? || args.lower.Some?) && StepsConverted(args.upper, args.lower).Ok? && AllowedStatistic(args.statistic)
    ensures r.Ok? ==> (r.value.upper.Some? <==> args.upper.Some?) && (r.value.lower.Some? <==> args.lower.Some?)
    ensures r.Ok? && args.upper.Some? ==>
      PolicyFor(r.value.upper.value, name + "-upper", "GreaterThanOrEqualToThreshold", StepsConverted(args.upper, args.lower).value.upper.value, args)
    ensures r.Ok? && args.lower.Some? ==>
      PolicyFor(r.value.lower.value, name + "-lower", "LessThanOrEqualToThreshold", StepsConverted(args.upper, args.lower).value.lower.value, args)
  {
    if args.upper.None? && args.lower.None? then Fail(Message(NoSteps))
    else
      var converted := StepsConverted(args.upper, args.lower);
      if converted.Fail? then Fail(converted.error)
      else if !AllowedStatistic(args.statistic) then Fail(Message(BadStatistic(args.statistic)))
      else
        var periods := args.evaluationPeriods.GetOr(1);
        var c := converted.value;
        Ok(Created(
          if args.upper.Some? then
            Some((Policy(name + "-upper", args.adjustmentType, args.statistic, c.upper.value.stepAdjustments),
                  Alarm(name + "-upper", "GreaterThanOrEqualToThreshold", c.upper.value.threshold, periods, 60)))
          else None,
          if args.lower.Some? then
            Some((Policy(name + "-lower", args.adjustmentType, args.statistic, c.lower.value.stepAdjustments),
                  Alarm(name + "-lower", "LessThanOrEqualToThreshold", c.lower.value.threshold, periods, 60)))
          else None))
  }
}
