/**
 * The correlation report of the metrics endpoint (api/routes.py): for every
 * pair of requested metrics, the Pearson correlation of their interval means
 * with a human-readable interpretation, or a fixed answer when there are too
 * few intervals or a series is constant.
 *
 * scipy's `pearsonr`, Python's `round(x, 4)` and the square root inside
 * `np.std` are parameters.
 */
module Correlations {
  import opened Wrappers
  import opened Stats
  import opened MetricsCalculator

  /** A metric's result in an interval of the metrics endpoint, tagged with the requested name. */
  datatype NamedResult = NamedResult(metricType: string, result: MetricResult)

  /** One interval of the metrics endpoint; times in whole seconds. */
  datatype IntervalMetrics = IntervalMetrics(intervalNumber: int, startTime: int, endTime: int, metrics: seq<NamedResult>)

  /** The direction of a correlation. */
  datatype Direction = Positive | Negative | NoDirection

  /**
   * The interpretation of an entry: one of the two fixed answers, or the
   * strength band, direction and significance level of a computed
   * coefficient. `InterpretationText` renders it as the response text.
   */
  datatype Interpretation =
    | InsufficientData
    | ZeroVariance
    | Described(strength: nat, direction: Direction, significance: nat)

  /** One entry of the correlation report. */
  datatype CorrelationResult = CorrelationResult(
    metric1: string,
    metric2: string,
    pearsonCoefficient: real,
    pValue: real,
    sampleSize: nat,
    interpretation: Interpretation)

  /** The numerical routines the report calls: the square root, `pearsonr` and `round(x, 4)`. */
  datatype Numerics = Numerics(sqrt: real -> real, pearson: (seq<real>, seq<real>) -> (real, real), round4: real -> real)

  // ----- interpret_correlation -----

  function Abs(r: real): real {
    if r < 0.0 then -r else r
  }

  /** The lower bound of strength band `k + 1`. */
  function StrengthBound(k: int): real {
    if k <= 0 then 0.1 else if k == 1 then 0.3 else if k == 2 then 0.5 else 0.7
  }

  /**
   * The strength band of `|r|`: 0 negligible, 1 weak, 2 moderate, 3 strong,
   * 4 very strong. It is the number of band bounds that `|r|` reaches.
   */
  function StrengthLevel(a: real): (l: nat)
    ensures l <= 4
    ensures forall k :: 0 <= k < 4 ==> (k < l <==> a >= StrengthBound(k))
  {
    if a < 0.1 then 0 else if a < 0.3 then 1 else if a < 0.5 then 2 else if a < 0.7 then 3 else 4
  }

  function StrengthWord(l: nat): string {
    match l
    case 0 => "negligible"
    case 1 => "weak"
    case 2 => "moderate"
    case 3 => "strong"
    case _ => "very strong"
  }

  /** The upper bound (exclusive) of significance level `k`. */
  function SignificanceBound(k: int): real {
    if k <= 0 then 0.01 else if k == 1 then 0.05 else 0.1
  }

  /**
   * The significance level of a p-value: 0 highly significant, 1 significant,
   * 2 marginally significant, 3 not significant. The p-value lies under the
   * bound of its own level and of every level above it, and under no other.
   */
  function SignificanceLevel(p: real): (l: nat)
    ensures l <= 3
    ensures forall k :: 0 <= k < 3 ==> (l <= k <==> p < SignificanceBound(k))
  {
    if p < 0.01 then 0 else if p < 0.05 then 1 else if p < 0.1 then 2 else 3
  }

  function SignificanceWord(l: nat): string {
    match l
    case 0 => "highly significant (p < 0.01)"
    case 1 => "significant (p < 0.05)"
    case 2 => "marginally significant (p < 0.1)"
    case _ => "not statistically significant"
  }

  /** The direction of a coefficient: by its sign, none for zero. */
  function DirectionOf(r: real): Direction {
    if r > 0.0 then Positive else if r < 0.0 then Negative else NoDirection
  }

  function DirectionWord(d: Direction): string {
    match d
    case Positive => "positive"
    case Negative => "negative"
    case NoDirection => "no"
  }

  /** The opposite direction. */
  function Opposite(d: Direction): Direction {
    match d
    case Positive => Negative
    case Negative => Positive
    case NoDirection => NoDirection
  }

  /** ASCII upper case of a letter; other characters unchanged. */
  function Upper(c: char): char {
    if 'a' <= c <= 'z' then (c as int - 32) as char else c
  }

  /** ASCII lower case of a letter; other characters unchanged. */
  function Lower(c: char): char {
    if 'A' <= c <= 'Z' then (c as int + 32) as char else c
  }

  /** `str.capitalize`: the first character in upper case, the others in lower case. */
  function Capitalize(s: string): (r: string)
    ensures |r| == |s|
    ensures |s| > 0 ==> r[0] == Upper(s[0])
    ensures forall k :: 1 <= k < |s| ==> r[k] == Lower(s[k])
  {
    if s == [] then [] else [Upper(s[0])] + seq(|s| - 1, k requires 0 <= k < |s| - 1 => Lower(s[k + 1]))
  }

  /** Capitalising twice is capitalising once. */
  lemma CapitalizeIdempotent(s: string)
    ensures Capitalize(Capitalize(s)) == Capitalize(s)
  {
    var c, cc := Capitalize(s), Capitalize(Capitalize(s));
    forall k | 0 <= k < |s| ensures cc[k] == c[k] {
      if k == 0 {
        assert Upper(Upper(s[0])) == Upper(s[0]);
      } else {
        assert Lower(Lower(s[k])) == Lower(s[k]);
      }
    }
  }

  /** `interpret_correlation(r, p_value)`, before rendering. */
  function Interpret(r: real, p: real): Interpretation {
    Described(StrengthLevel(Abs(r)), DirectionOf(r), SignificanceLevel(p))
  }

  /** The response text of an interpretation. */
  function InterpretationText(i: Interpretation): string {
    match i
    case InsufficientData => "Insufficient data (need at least 3 intervals with observations)"
    case ZeroVariance => "Cannot compute correlation: one or both metrics have zero variance"
    case Described(strength, direction, significance) =>
      Capitalize(StrengthWord(strength)) + " " + DirectionWord(direction) + " correlation, " + SignificanceWord(significance)
  }

  /** `interpret_correlation(r, p_value)`: the interpretation as text. */
  function InterpretCorrelation(r: real, p: real): string {
    InterpretationText(Interpret(r, p))
  }

  /** A coefficient further from zero never reads as a weaker correlation. */
  lemma StrengthMonotone(r1: real, r2: real)
    requires Abs(r1) <= Abs(r2)
    ensures StrengthLevel(Abs(r1)) <= StrengthLevel(Abs(r2))
  {
  }

  /** A smaller p-value never reads as less significant. */
  lemma SignificanceMonotone(p1: real, p2: real)
    requires p1 <= p2
    ensures SignificanceLevel(p1) <= SignificanceLevel(p2)
  {
  }

  /**
   * Negating the coefficient keeps the strength and the significance and
   * turns the direction into its opposite.
   */
  lemma InterpretMirror(r: real, p: real)
    ensures Interpret(-r, p) == Described(StrengthLevel(Abs(r)), Opposite(DirectionOf(r)), SignificanceLevel(p))
  {
    assert Abs(-r) == Abs(r);
  }

  // ----- one pair -----

  /** `np.std(values)`: the square root of the population variance. */
  function Std(num: Numerics, values: seq<real>): real
    requires |values| > 0
  {
    num.sqrt(PopulationVariance(values))
  }

  /**
   * The report entry for two series of equal length: fewer than 3 values
   * give the insufficient-data answer, a constant series gives the
   * zero-variance answer, and otherwise the rounded coefficient and p-value
   * with the interpretation of the unrounded ones.
   */
  function CorrelationEntry(m1: string, m2: string, v1: seq<real>, v2: seq<real>, num: Numerics): (c: CorrelationResult)
    requires |v1| == |v2|
    ensures c.metric1 == m1 && c.metric2 == m2 && c.sampleSize == |v1|
    ensures |v1| < 3 ==> c.pearsonCoefficient == 0.0 && c.pValue == 1.0 && c.interpretation == InsufficientData
  {
    if |v1| < 3 then
      CorrelationResult(m1, m2, 0.0, 1.0, |v1|, InsufficientData)
    else if Std(num, v1) == 0.0 || Std(num, v2) == 0.0 then
      CorrelationResult(m1, m2, 0.0, 1.0, |v1|, ZeroVariance)
    else
      var (r, p) := num.pearson(v1, v2);
      CorrelationResult(m1, m2, num.round4(r), num.round4(p), |v1|, Interpret(r, p))
  }

  /**
   * With at least 3 values and a square root that vanishes only at zero, the
   * zero-variance answer is given exactly when one of the series is constant;
   * otherwise the entry holds the rounded coefficient and p-value and their
   * interpretation.
   */
  lemma CorrelationEntryCases(m1: string, m2: string, v1: seq<real>, v2: seq<real>, num: Numerics)
    requires SqrtLike(num.sqrt)
    requires |v1| == |v2| >= 3
    ensures var c := CorrelationEntry(m1, m2, v1, v2, num);
      (AllEqual(v1, v1[0]) || AllEqual(v2, v2[0])) ==>
        c.pearsonCoefficient == 0.0 && c.pValue == 1.0 && c.interpretation == ZeroVariance
    ensures var c := CorrelationEntry(m1, m2, v1, v2, num);
      !(AllEqual(v1, v1[0]) || AllEqual(v2, v2[0])) ==>
        c.pearsonCoefficient == num.round4(num.pearson(v1, v2).0)
        && c.pValue == num.round4(num.pearson(v1, v2).1)
        && c.interpretation == Interpret(num.pearson(v1, v2).0, num.pearson(v1, v2).1)
  {
    PopulationVarianceZero(v1);
    PopulationVarianceZero(v2);
  }

  /**
   * When `pearsonr` is symmetric in its arguments, so is the entry: swapping
   * the two metrics swaps the names and changes nothing else.
   */
  lemma CorrelationEntrySymmetric(m1: string, m2: string, v1: seq<real>, v2: seq<real>, num: Numerics)
    requires |v1| == |v2|
    requires num.pearson(v1, v2) == num.pearson(v2, v1)
    ensures var c, d := CorrelationEntry(m1, m2, v1, v2, num), CorrelationEntry(m2, m1, v2, v1, num);
      d == c.(metric1 := m2, metric2 := m1)
  {
  }

  // ----- the series -----

  /** The mean value of the first result named `name` (`break` after the first match). */
  function FirstMean(ms: seq<NamedResult>, name: string): (r: Option<real>)
    ensures r.None? <==> forall k :: 0 <= k < |ms| ==> ms[k].metricType != name
    ensures r.Some? ==> exists k :: 0 <= k < |ms| && ms[k].metricType == name && r.value == ms[k].result.meanValue
                                   && forall j :: 0 <= j < k ==> ms[j].metricType != name
  {
    if ms == [] then None
    else if ms[0].metricType == name then Some(ms[0].result.meanValue)
    else
      var rest := FirstMean(ms[1..], name);
      assert forall k :: 1 <= k < |ms| ==> ms[k] == ms[1..][k - 1];
      if rest.Some? then
        ghost var k :| 0 <= k < |ms[1..]| && ms[1..][k].metricType == name && rest.value == ms[1..][k].result.meanValue
          && forall j :: 0 <= j < k ==> ms[1..][j].metricType != name;
        assert ms[k + 1] == ms[1..][k];
        rest
      else rest
  }

  /** The result at `j` is the first one named `name`, so it is the one whose mean is taken. */
  lemma FirstMeanAt(ms: seq<NamedResult>, name: string, j: int)
    requires 0 <= j < |ms| && ms[j].metricType == name
    requires forall t :: 0 <= t < j ==> ms[t].metricType != name
    ensures FirstMean(ms, name) == Some(ms[j].result.meanValue)
  {
    var r := FirstMean(ms, name);
    var k :| 0 <= k < |ms| && ms[k].metricType == name && r.value == ms[k].result.meanValue
      && forall t :: 0 <= t < k ==> ms[t].metricType != name;
    assert !(k < j) && !(j < k);
  }

  /** What one interval adds to a metric's series: its first mean for the name, or nothing. */
  function SeriesEntry(interval: IntervalMetrics, name: string): seq<real> {
    match FirstMean(interval.metrics, name)
    case None => []
    case Some(v) => [v]
  }

  /** `metric_values[name]`: the first mean for `name` of each interval that has one, in interval order. */
  function Series(intervals: seq<IntervalMetrics>, name: string): (r: seq<real>)
    ensures |r| <= |intervals|
  {
    if intervals == [] then []
    else Series(intervals[..|intervals| - 1], name) + SeriesEntry(intervals[|intervals| - 1], name)
  }

  /** Every interval lists a result for `name`. */
  predicate Lists(intervals: seq<IntervalMetrics>, name: string) {
    forall k :: 0 <= k < |intervals| ==> FirstMean(intervals[k].metrics, name).Some?
  }

  /**
   * When every interval lists the metric, its series has one value per
   * interval: the mean of that interval's first result for the metric.
   */
  lemma {:induction false} SeriesComplete(intervals: seq<IntervalMetrics>, name: string)
    requires Lists(intervals, name)
    ensures |Series(intervals, name)| == |intervals|
    ensures forall k :: 0 <= k < |intervals| ==> Series(intervals, name)[k] == FirstMean(intervals[k].metrics, name).value
  {
    if intervals != [] {
      var init := intervals[..|intervals| - 1];
      assert Lists(init, name) by {
        forall k | 0 <= k < |init| ensures FirstMean(init[k].metrics, name).Some? {
          assert init[k] == intervals[k];
        }
      }
      SeriesComplete(init, name);
      var s, s0 := Series(intervals, name), Series(init, name);
      forall k | 0 <= k < |intervals| ensures s[k] == FirstMean(intervals[k].metrics, name).value {
        if k < |init| {
          assert s[k] == s0[k] && init[k] == intervals[k];
        }
      }
    }
  }

  lemma SeriesStep(intervals: seq<IntervalMetrics>, name: string, i: int)
    requires 0 <= i < |intervals|
    ensures Series(intervals[..i + 1], name) == Series(intervals[..i], name) + SeriesEntry(intervals[i], name)
  {
    assert intervals[..i + 1][..i] == intervals[..i];
  }

  /** The loop over the intervals and, inside it, over their results up to the first match. */
  method ExtractSeries(intervals: seq<IntervalMetrics>, name: string) returns (values: seq<real>)
    ensures values == Series(intervals, name)
  {
    values := [];
    var i := 0;
    while i < |intervals|
      invariant 0 <= i <= |intervals|
      invariant values == Series(intervals[..i], name)
    {
      SeriesStep(intervals, name, i);
      var ms := intervals[i].metrics;
      var j := 0;
      while j < |ms| && ms[j].metricType != name
        invariant 0 <= j <= |ms|
        invariant forall t :: 0 <= t < j ==> ms[t].metricType != name
      {
        j := j + 1;
      }
      if j < |ms| {
        FirstMeanAt(ms, name, j);
        values := values + [ms[j].result.meanValue];
      }
      i := i + 1;
    }
    assert intervals[..i] == intervals;
  }

  // ----- the pairs -----

  /** Every interval lists every requested metric. */
  predicate Complete(intervals: seq<IntervalMetrics>, names: seq<string>) {
    forall k :: 0 <= k < |names| ==> Lists(intervals, names[k])
  }

  /** Every requested metric's series has one value per interval, so any two have equal lengths. */
  predicate Aligned(intervals: seq<IntervalMetrics>, names: seq<string>) {
    forall k :: 0 <= k < |names| ==> |Series(intervals, names[k])| == |intervals|
  }

  /** When every interval lists every requested metric, the series are aligned. */
  lemma CompleteAligned(intervals: seq<IntervalMetrics>, names: seq<string>)
    requires Complete(intervals, names)
    ensures Aligned(intervals, names)
  {
    forall k | 0 <= k < |names| ensures |Series(intervals, names[k])| == |intervals| {
      SeriesComplete(intervals, names[k]);
    }
  }

  /** The entry for the pair of requested metrics at positions `i` and `j`. */
  function PairEntry(intervals: seq<IntervalMetrics>, names: seq<string>, i: int, j: int, num: Numerics): CorrelationResult
    requires Aligned(intervals, names) && 0 <= i < |names| && 0 <= j < |names|
  {
    CorrelationEntry(names[i], names[j], Series(intervals, names[i]), Series(intervals, names[j]), num)
  }

  /** The entry built from the two metrics' series is the pair's entry. */
  lemma PairEntryOf(intervals: seq<IntervalMetrics>, names: seq<string>, i: int, j: int,
                    v1: seq<real>, v2: seq<real>, num: Numerics)
    requires Aligned(intervals, names) && 0 <= i < |names| && 0 <= j < |names|
    requires v1 == Series(intervals, names[i]) && v2 == Series(intervals, names[j])
    ensures |v1| == |v2|
    ensures CorrelationEntry(names[i], names[j], v1, v2, num) == PairEntry(intervals, names, i, j, num)
  {
  }

  /** The entries for the metric at `i` paired with each metric after it. */
  function Row(intervals: seq<IntervalMetrics>, names: seq<string>, i: int, num: Numerics): (r: seq<CorrelationResult>)
    requires Aligned(intervals, names) && 0 <= i < |names|
    ensures |r| == |names| - i - 1
    ensures forall k :: 0 <= k < |r| ==> r[k] == PairEntry(intervals, names, i, i + 1 + k, num)
  {
    seq(|names| - i - 1, k requires 0 <= k < |names| - i - 1 => PairEntry(intervals, names, i, i + 1 + k, num))
  }

  /** The rows of the first `m` metrics, one after the other. */
  function Pairs(intervals: seq<IntervalMetrics>, names: seq<string>, m: int, num: Numerics): seq<CorrelationResult>
    requires Aligned(intervals, names) && 0 <= m <= |names|
  {
    if m == 0 then [] else Pairs(intervals, names, m - 1, num) + Row(intervals, names, m - 1, num)
  }

  /** `calculate_correlations`: every pair `i < j` of requested metrics, in order. */
  function CorrelationsOf(intervals: seq<IntervalMetrics>, names: seq<string>, num: Numerics): seq<CorrelationResult>
    requires Aligned(intervals, names)
  {
    Pairs(intervals, names, |names|, num)
  }

  /** The first `m` rows hold `m * (2n - m - 1) / 2` entries. */
  lemma {:induction false} PairsLength(intervals: seq<IntervalMetrics>, names: seq<string>, m: int, num: Numerics)
    requires Aligned(intervals, names) && 0 <= m <= |names|
    ensures 2 * |Pairs(intervals, names, m, num)| == m * (2 * |names| - m - 1)
  {
    if m > 0 {
      PairsLength(intervals, names, m - 1, num);
    }
  }

  /** The rows of fewer metrics are a prefix of the rows of more. */
  lemma {:induction false} PairsPrefix(intervals: seq<IntervalMetrics>, names: seq<string>, m: int, m2: int, num: Numerics)
    requires Aligned(intervals, names) && 0 <= m <= m2 <= |names|
    ensures |Pairs(intervals, names, m, num)| <= |Pairs(intervals, names, m2, num)|
    ensures Pairs(intervals, names, m2, num)[..|Pairs(intervals, names, m, num)|] == Pairs(intervals, names, m, num)
  {
    if m < m2 {
      PairsPrefix(intervals, names, m, m2 - 1, num);
      var a, b := Pairs(intervals, names, m2 - 1, num), Row(intervals, names, m2 - 1, num);
      assert (a + b)[..|a|] == a;
    }
  }

  /** There is one entry per unordered pair of requested positions: `n * (n - 1) / 2`. */
  lemma CorrelationsCount(intervals: seq<IntervalMetrics>, names: seq<string>, num: Numerics)
    requires Aligned(intervals, names)
    ensures 2 * |CorrelationsOf(intervals, names, num)| == |names| * (|names| - 1)
  {
    PairsLength(intervals, names, |names|, num);
  }

  /**
   * The entry for positions `i < j` sits at offset `j - i - 1` of row `i`,
   * where row `i` starts after the `i * (2n - i - 1) / 2` entries of the rows
   * before it: the pairs come in the order of the nested loops.
   */
  lemma PairPosition(intervals: seq<IntervalMetrics>, names: seq<string>, i: int, j: int, num: Numerics)
    requires Aligned(intervals, names) && 0 <= i < j < |names|
    ensures 2 * (i * (2 * |names| - i - 1) / 2) == i * (2 * |names| - i - 1)
    ensures i * (2 * |names| - i - 1) / 2 + (j - i - 1) < |CorrelationsOf(intervals, names, num)|
    ensures CorrelationsOf(intervals, names, num)[i * (2 * |names| - i - 1) / 2 + (j - i - 1)]
      == PairEntry(intervals, names, i, j, num)
  {
    PairsLength(intervals, names, i, num);
    PairsPrefix(intervals, names, i + 1, |names|, num);
    var before, row := Pairs(intervals, names, i, num), Row(intervals, names, i, num);
    var offset := |before|;
    assert i * (2 * |names| - i - 1) / 2 == offset;
    assert (before + row)[offset + (j - i - 1)] == row[j - i - 1];
  }

  /** Each entry pairs two series of one value per interval. */
  lemma PairEntrySampleSize(intervals: seq<IntervalMetrics>, names: seq<string>, i: int, j: int, num: Numerics)
    requires Aligned(intervals, names) && 0 <= i < |names| && 0 <= j < |names|
    ensures PairEntry(intervals, names, i, j, num).sampleSize == |intervals|
  {
  }

  /** When every interval lists every metric, each entry's sample size is the number of intervals. */
  lemma {:induction false} CorrelationsSampleSize(intervals: seq<IntervalMetrics>, names: seq<string>, num: Numerics, m: int)
    requires Aligned(intervals, names) && 0 <= m <= |names|
    ensures forall k :: 0 <= k < |Pairs(intervals, names, m, num)| ==> Pairs(intervals, names, m, num)[k].sampleSize == |intervals|
  {
    if m > 0 {
      CorrelationsSampleSize(intervals, names, num, m - 1);
      var a, b := Pairs(intervals, names, m - 1, num), Row(intervals, names, m - 1, num);
      var p := Pairs(intervals, names, m, num);
      assert p == a + b;
      forall k | 0 <= k < |p| ensures p[k].sampleSize == |intervals| {
        if k < |a| {
          assert p[k] == a[k];
        } else {
          assert p[k] == b[k - |a|];
          PairEntrySampleSize(intervals, names, m - 1, m + k - |a|, num);
        }
      }
    }
  }

  /**
   * The first loop of `calculate_correlations`: the series of each requested
   * metric, by position (the source keeps them by name; equal names have
   * equal series).
   */
  method CollectSeries(intervals: seq<IntervalMetrics>, names: seq<string>) returns (metricValues: seq<seq<real>>)
    ensures |metricValues| == |names|
    ensures forall k :: 0 <= k < |names| ==> metricValues[k] == Series(intervals, names[k])
  {
    metricValues := [];
    for t := 0 to |names|
      invariant |metricValues| == t
      invariant forall k :: 0 <= k < t ==> metricValues[k] == Series(intervals, names[k])
    {
      var values := ExtractSeries(intervals, names[t]);
      metricValues := metricValues + [values];
    }
  }

  /** A prefix one longer is the shorter prefix and the next element. */
  lemma PrefixExtend<T>(s: seq<T>, n: int, x: T)
    requires 0 <= n < |s| && s[n] == x
    ensures s[..n + 1] == s[..n] + [x]
  {
  }

  /** The inner loop of `calculate_correlations`: the metric at `i` against each metric after it. */
  method CorrelateRow(intervals: seq<IntervalMetrics>, names: seq<string>, metricValues: seq<seq<real>>,
                      i: int, num: Numerics) returns (row: seq<CorrelationResult>)
    requires Aligned(intervals, names) && 0 <= i < |names|
    requires |metricValues| == |names|
    requires forall k :: 0 <= k < |names| ==> metricValues[k] == Series(intervals, names[k])
    ensures row == Row(intervals, names, i, num)
  {
    ghost var full := Row(intervals, names, i, num);
    row := [];
    for j := i + 1 to |names|
      invariant row == full[..j - i - 1]
    {
      var values1, values2 := metricValues[i], metricValues[j];
      PairEntryOf(intervals, names, i, j, values1, values2, num);
      var entry := CorrelationEntry(names[i], names[j], values1, values2, num);
      PrefixExtend(full, j - i - 1, entry);
      row := row + [entry];
    }
    assert full[..|names| - i - 1] == full;
  }

  /** `calculate_correlations`: the series, then each pair `i < j` of positions in order. */
  method CalculateCorrelations(intervals: seq<IntervalMetrics>, names: seq<string>, num: Numerics)
    returns (r: seq<CorrelationResult>)
    requires Aligned(intervals, names)
    ensures r == CorrelationsOf(intervals, names, num)
  {
    var metricValues := CollectSeries(intervals, names);
    r := [];
    for i := 0 to |names|
      invariant r == Pairs(intervals, names, i, num)
    {
      var row := CorrelateRow(intervals, names, metricValues, i, num);
      r := r + row;
    }
  }
}
