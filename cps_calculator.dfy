/**
 * The composite productivity score (services/cps_calculator.py): the weighted
 * sum, in request order, of the requested metrics' z-scores, for one window
 * or for each interval of a partitioned window.
 *
 * The score calls the metric calculator once per requested metric; here that
 * calculator is a parameter, `MetricCalculator`, and `StoreCalculator` binds
 * it to `CalculateMetric` over a store. What the score's properties need of
 * it is `Dispatches`, which `StoreCalculatorDispatches` proves of the bound one.
 */
module CpsCalculator {
  import opened Wrappers
  import opened Enums
  import opened Observations
  import opened MetricsCalculator
  import opened Partition

  /** One requested metric and its weight. */
  datatype MetricWeight = MetricWeight(metric: string, weight: real)

  /** A metric's result in a composite, with its weight and weighted z-score. */
  datatype WeightedMetric = WeightedMetric(metricType: string, weight: real, result: MetricResult, zScoreWeighted: real)

  /** A metric entry of `calculate_cps`, carrying the times the response reports. */
  datatype TimedMetric = TimedMetric(entry: WeightedMetric, startTime: int, endTime: int)

  /** The result of `calculate_cps`. */
  datatype CpsResult = CpsResult(cps: real, metrics: seq<TimedMetric>)

  /** One interval's entry of `calculate_cps_with_intervals`; times in whole seconds. */
  datatype IntervalScore = IntervalScore(intervalNumber: int, startTime: int, endTime: int, cps: real, metrics: seq<WeightedMetric>)

  /** The metric calculator as the score calls it: a metric name and a window in, a result or an error out. */
  type MetricCalculator = (string, Window) -> Result<MetricResult, string>

  /** `calculate_metric` over a store, with the given square root. */
  function StoreCalculator(store: seq<Observation>, sqrt: real -> real): MetricCalculator
    requires ValidStore(store)
  {
    (name, w) => CalculateMetric(store, name, w, sqrt)
  }

  /**
   * What the score relies on of its calculator: a name fails exactly when it
   * is not a metric value, and then with the invalid-metric message.
   */
  ghost predicate Dispatches(calculator: MetricCalculator) {
    (forall name, w :: calculator(name, w).Err? <==> !IsMetricValue(name))
    && (forall name, w :: calculator(name, w).Err? ==> calculator(name, w).error == InvalidMetricMessage(name))
  }

  /** The store's calculator dispatches, and yields each metric's result for its value. */
  lemma StoreCalculatorDispatches(store: seq<Observation>, sqrt: real -> real)
    requires ValidStore(store)
    ensures Dispatches(StoreCalculator(store, sqrt))
    ensures forall m, w :: StoreCalculator(store, sqrt)(MetricValue(m), w) == Ok(MetricOf(m, store, w, sqrt))
  {
    forall m, w ensures StoreCalculator(store, sqrt)(MetricValue(m), w) == Ok(MetricOf(m, store, w, sqrt)) {
      CalculateMetricValue(store, m, w, sqrt);
    }
  }

  /** Every requested name is a metric value. */
  predicate AllValid(metrics: seq<MetricWeight>) {
    forall i :: 0 <= i < |metrics| ==> IsMetricValue(metrics[i].metric)
  }

  /** `i` is the position of the first requested name that is not a metric value. */
  predicate FirstInvalid(metrics: seq<MetricWeight>, i: int) {
    0 <= i < |metrics| && !IsMetricValue(metrics[i].metric)
    && forall j :: 0 <= j < i ==> IsMetricValue(metrics[j].metric)
  }

  /** A calculated metric with its weight, and its z-score multiplied by the weight. */
  function Weigh(m: MetricWeight, result: MetricResult): WeightedMetric {
    WeightedMetric(m.metric, m.weight, result, m.weight * result.zScore)
  }

  /** The calculator's outcome for each requested metric over one window. */
  function Calculations(calculator: MetricCalculator, metrics: seq<MetricWeight>, w: Window): (r: seq<Result<MetricResult, string>>)
    ensures |r| == |metrics|
    ensures forall i :: 0 <= i < |metrics| ==> r[i] == calculator(metrics[i].metric, w)
  {
    seq(|metrics|, i requires 0 <= i < |metrics| => calculator(metrics[i].metric, w))
  }

  /** `i` is the position of the first failed outcome. */
  predicate FirstFailed<T>(outcomes: seq<Result<T, string>>, i: int) {
    0 <= i < |outcomes| && outcomes[i].Err?
    && forall j :: 0 <= j < i ==> outcomes[j].Ok?
  }

  /** The position of the first failed outcome at or after `from`, if any. */
  function FirstFailure<T>(outcomes: seq<Result<T, string>>, from: nat): (r: Option<nat>)
    requires from <= |outcomes|
    decreases |outcomes| - from
    ensures r.None? <==> forall j :: from <= j < |outcomes| ==> outcomes[j].Ok?
    ensures r.Some? ==> from <= r.value < |outcomes| && outcomes[r.value].Err?
    ensures r.Some? ==> forall j :: from <= j < r.value ==> outcomes[j].Ok?
  {
    if from == |outcomes| then None
    else if outcomes[from].Err? then Some(from)
    else FirstFailure(outcomes, from + 1)
  }

  /** The first failure is the one at the position `FirstFailed` names. */
  lemma FirstFailureAt<T>(outcomes: seq<Result<T, string>>, i: int)
    requires FirstFailed(outcomes, i)
    ensures FirstFailure(outcomes, 0) == Some(i)
  {
  }

  /** Each requested metric with its (successful) outcome, weighted, in request order. */
  function Entries(metrics: seq<MetricWeight>, outcomes: seq<Result<MetricResult, string>>): (r: seq<WeightedMetric>)
    requires |outcomes| == |metrics| && forall i :: 0 <= i < |outcomes| ==> outcomes[i].Ok?
    ensures |r| == |metrics|
    ensures forall i :: 0 <= i < |r| ==> r[i] == Weigh(metrics[i], outcomes[i].value)
  {
    seq(|metrics|, i requires 0 <= i < |metrics| => Weigh(metrics[i], outcomes[i].value))
  }

  /**
   * The loop over the requested metrics, given each metric's outcome: the
   * weighted entries in request order when every calculation succeeds, or the
   * first failure's error (the exception that leaves the loop).
   */
  function Combine(metrics: seq<MetricWeight>, outcomes: seq<Result<MetricResult, string>>): (r: Result<seq<WeightedMetric>, string>)
    requires |outcomes| == |metrics|
    ensures r.Ok? <==> forall i :: 0 <= i < |outcomes| ==> outcomes[i].Ok?
    ensures r.Ok? ==> r.value == Entries(metrics, outcomes)
    ensures r.Err? ==> exists i :: FirstFailed(outcomes, i) && r.error == outcomes[i].error
  {
    match FirstFailure(outcomes, 0)
    case Some(k) => Err(outcomes[k].error)
    case None => Ok(Entries(metrics, outcomes))
  }

  /**
   * The metrics of a request scored over one window, in request order: every
   * metric is calculated, whatever its weight, and weighted; the first failing
   * calculation fails the whole request.
   */
  function ScoreMetrics(calculator: MetricCalculator, metrics: seq<MetricWeight>, w: Window): Result<seq<WeightedMetric>, string> {
    Combine(metrics, Calculations(calculator, metrics, w))
  }

  /** Every requested metric's calculation over the window succeeds. */
  predicate Succeeds(calculator: MetricCalculator, metrics: seq<MetricWeight>, w: Window) {
    forall i :: 0 <= i < |metrics| ==> calculator(metrics[i].metric, w).Ok?
  }

  /**
   * Scoring succeeds exactly when every calculation does; it then lists one
   * entry per requested metric, in order, holding that metric's calculated
   * result, its weight and the weighted z-score.
   */
  lemma ScoreMetricsEntries(calculator: MetricCalculator, metrics: seq<MetricWeight>, w: Window)
    ensures ScoreMetrics(calculator, metrics, w).Ok? <==> Succeeds(calculator, metrics, w)
    ensures ScoreMetrics(calculator, metrics, w).Ok? ==>
      |ScoreMetrics(calculator, metrics, w).value| == |metrics|
      && forall i :: 0 <= i < |metrics| ==>
        ScoreMetrics(calculator, metrics, w).value[i]
          == WeightedMetric(metrics[i].metric, metrics[i].weight, calculator(metrics[i].metric, w).value,
               metrics[i].weight * calculator(metrics[i].metric, w).value.zScore)
  {
    var outcomes := Calculations(calculator, metrics, w);
    if Succeeds(calculator, metrics, w) {
      assert forall i :: 0 <= i < |outcomes| ==> outcomes[i].Ok?;
    } else {
      var i :| 0 <= i < |metrics| && calculator(metrics[i].metric, w).Err?;
      assert outcomes[i].Err?;
    }
  }

  /**
   * With a dispatching calculator, scoring succeeds exactly when every
   * requested name is a metric value, and otherwise fails with the error for
   * the first name that is not.
   */
  lemma ScoreMetricsValidity(calculator: MetricCalculator, metrics: seq<MetricWeight>, w: Window)
    requires Dispatches(calculator)
    ensures ScoreMetrics(calculator, metrics, w).Ok? <==> AllValid(metrics)
    ensures ScoreMetrics(calculator, metrics, w).Err? ==>
      exists i :: FirstInvalid(metrics, i) && ScoreMetrics(calculator, metrics, w).error == InvalidMetricMessage(metrics[i].metric)
  {
    var outcomes := Calculations(calculator, metrics, w);
    var r := Combine(metrics, outcomes);
    if r.Err? {
      var i :| FirstFailed(outcomes, i) && r.error == outcomes[i].error;
      assert !IsMetricValue(metrics[i].metric) by {
        assert calculator(metrics[i].metric, w).Err?;
      }
      forall j | 0 <= j < i ensures IsMetricValue(metrics[j].metric) {
        assert outcomes[j].Ok?;
      }
    } else {
      forall j | 0 <= j < |metrics| ensures IsMetricValue(metrics[j].metric) {
        assert outcomes[j].Ok?;
      }
    }
  }

  /** The composite score: the sum of the weighted z-scores, in order. */
  function Cps(entries: seq<WeightedMetric>): real {
    if entries == [] then 0.0
    else Cps(entries[..|entries| - 1]) + entries[|entries| - 1].zScoreWeighted
  }

  /** The score of a concatenation is the sum of the scores. */
  lemma {:induction false} CpsAppend(a: seq<WeightedMetric>, b: seq<WeightedMetric>)
    ensures Cps(a + b) == Cps(a) + Cps(b)
  {
    if b == [] {
      assert a + b == a;
    } else {
      assert (a + b)[..|a + b| - 1] == a + b[..|b| - 1];
      CpsAppend(a, b[..|b| - 1]);
    }
  }

  /** Entries whose weighted z-scores are `c` times those of `a` score `c` times as much. */
  lemma {:induction false} CpsScaled(a: seq<WeightedMetric>, b: seq<WeightedMetric>, c: real)
    requires |a| == |b|
    requires forall k :: 0 <= k < |a| ==> b[k].zScoreWeighted == c * a[k].zScoreWeighted
    ensures Cps(b) == c * Cps(a)
  {
    if a != [] {
      var n := |a|;
      CpsScaled(a[..n - 1], b[..n - 1], c);
      assert c * (Cps(a[..n - 1]) + a[n - 1].zScoreWeighted) == c * Cps(a[..n - 1]) + c * a[n - 1].zScoreWeighted;
    }
  }

  /** A request of one metric with weight 1.0 scores exactly that metric's z-score. */
  lemma SingleMetricCps(calculator: MetricCalculator, name: string, w: Window)
    requires calculator(name, w).Ok?
    ensures ScoreMetrics(calculator, [MetricWeight(name, 1.0)], w).Ok?
    ensures Cps(ScoreMetrics(calculator, [MetricWeight(name, 1.0)], w).value) == calculator(name, w).value.zScore
  {
    var entries := ScoreMetrics(calculator, [MetricWeight(name, 1.0)], w).value;
    assert entries[..0] == [];
  }

  /** The sequence without its element at position `i`. */
  function Without<T>(s: seq<T>, i: int): (r: seq<T>)
    requires 0 <= i < |s|
    ensures |r| == |s| - 1
    ensures forall k :: 0 <= k < |r| ==> r[k] == s[if k < i then k else k + 1]
  {
    s[..i] + s[i + 1..]
  }

  /** Dropping an entry whose weighted z-score is 0 leaves the score unchanged. */
  lemma CpsWithoutZero(e: seq<WeightedMetric>, i: int)
    requires 0 <= i < |e| && e[i].zScoreWeighted == 0.0
    ensures Cps(Without(e, i)) == Cps(e)
  {
    assert e == e[..i] + ([e[i]] + e[i + 1..]);
    CpsAppend(e[..i], [e[i]] + e[i + 1..]);
    CpsAppend([e[i]], e[i + 1..]);
    CpsAppend(e[..i], e[i + 1..]);
    assert [e[i]][..0] == [];
  }

  /**
   * A metric of weight 0 is still listed at its place with its calculated
   * result, and contributes nothing: the score equals the score of the
   * request without it.
   */
  lemma ZeroWeightContributesNothing(metrics: seq<MetricWeight>, outcomes: seq<Result<MetricResult, string>>, i: int)
    requires |outcomes| == |metrics| && forall k :: 0 <= k < |outcomes| ==> outcomes[k].Ok?
    requires 0 <= i < |metrics| && metrics[i].weight == 0.0
    ensures Combine(metrics, outcomes).Ok?
    ensures Combine(metrics, outcomes).value[i].result == outcomes[i].value
    ensures Combine(Without(metrics, i), Without(outcomes, i)).Ok?
    ensures Cps(Combine(metrics, outcomes).value) == Cps(Combine(Without(metrics, i), Without(outcomes, i)).value)
  {
    var e := Entries(metrics, outcomes);
    var d := Entries(Without(metrics, i), Without(outcomes, i));
    assert d == Without(e, i);
    CpsWithoutZero(e, i);
  }

  /** The same for a whole request: a zero-weight metric can be dropped from it. */
  lemma ZeroWeightMetric(calculator: MetricCalculator, metrics: seq<MetricWeight>, i: int, w: Window)
    requires Succeeds(calculator, metrics, w)
    requires 0 <= i < |metrics| && metrics[i].weight == 0.0
    ensures ScoreMetrics(calculator, metrics, w).Ok?
    ensures ScoreMetrics(calculator, metrics, w).value[i].result == calculator(metrics[i].metric, w).value
    ensures ScoreMetrics(calculator, Without(metrics, i), w).Ok?
    ensures Cps(ScoreMetrics(calculator, metrics, w).value) == Cps(ScoreMetrics(calculator, Without(metrics, i), w).value)
  {
    var outcomes := Calculations(calculator, metrics, w);
    ZeroWeightContributesNothing(metrics, outcomes, i);
    assert Calculations(calculator, Without(metrics, i), w) == Without(outcomes, i);
  }

  /** The request with every weight multiplied by `c`. */
  function ScaleWeights(metrics: seq<MetricWeight>, c: real): (r: seq<MetricWeight>)
    ensures |r| == |metrics|
    ensures forall i :: 0 <= i < |r| ==> r[i] == MetricWeight(metrics[i].metric, c * metrics[i].weight)
  {
    seq(|metrics|, i requires 0 <= i < |metrics| => MetricWeight(metrics[i].metric, c * metrics[i].weight))
  }

  /** The score is linear in the weights: scaling every weight by `c` scales the score by `c`. */
  lemma CpsScale(metrics: seq<MetricWeight>, outcomes: seq<Result<MetricResult, string>>, c: real)
    requires |outcomes| == |metrics| && forall k :: 0 <= k < |outcomes| ==> outcomes[k].Ok?
    ensures Combine(metrics, outcomes).Ok? && Combine(ScaleWeights(metrics, c), outcomes).Ok?
    ensures Cps(Combine(ScaleWeights(metrics, c), outcomes).value) == c * Cps(Combine(metrics, outcomes).value)
  {
    var a, b := Entries(metrics, outcomes), Entries(ScaleWeights(metrics, c), outcomes);
    forall k | 0 <= k < |a| ensures b[k].zScoreWeighted == c * a[k].zScoreWeighted {
      var z := outcomes[k].value.zScore;
      assert (c * metrics[k].weight) * z == c * (metrics[k].weight * z);
    }
    CpsScaled(a, b, c);
  }

  /** A request time, or the normalised time when the request time is absent. */
  function ResponseTime(original: Option<int>, normalised: int): int {
    if original.Some? then original.value else normalised
  }

  /**
   * `calculate_cps`: the metrics scored over the window, each entry carrying
   * the response times (the original request times when given), and their
   * composite score.
   */
  function CompositeScore(calculator: MetricCalculator, w: Window, metrics: seq<MetricWeight>,
                          originalStart: Option<int>, originalEnd: Option<int>): (r: Result<CpsResult, string>)
    ensures r.Ok? <==> ScoreMetrics(calculator, metrics, w).Ok?
    ensures r.Err? ==> r == Err(ScoreMetrics(calculator, metrics, w).error)
    ensures r.Ok? ==> |r.value.metrics| == |ScoreMetrics(calculator, metrics, w).value|
    ensures r.Ok? ==> r.value.cps == Cps(ScoreMetrics(calculator, metrics, w).value)
    ensures r.Ok? ==> forall i :: 0 <= i < |r.value.metrics| ==>
      r.value.metrics[i] == TimedMetric(ScoreMetrics(calculator, metrics, w).value[i],
        ResponseTime(originalStart, w.lo), ResponseTime(originalEnd, w.hi))
  {
    match ScoreMetrics(calculator, metrics, w)
    case Err(e) => Err(e)
    case Ok(entries) =>
      var startTime, endTime := ResponseTime(originalStart, w.lo), ResponseTime(originalEnd, w.hi);
      Ok(CpsResult(Cps(entries), seq(|entries|, i requires 0 <= i < |entries| => TimedMetric(entries[i], startTime, endTime))))
  }

  /**
   * The loop of `calculate_cps` and `calculate_cps_with_intervals` over the
   * requested metrics: calculates each, accumulates the weighted z-scores and
   * collects the entries.
   */
  method ScoreWindow(calculator: MetricCalculator, metrics: seq<MetricWeight>, w: Window)
    returns (r: Result<(real, seq<WeightedMetric>), string>)
    ensures r.Ok? <==> ScoreMetrics(calculator, metrics, w).Ok?
    ensures r.Err? ==> r.error == ScoreMetrics(calculator, metrics, w).error
    ensures r.Ok? ==> r.value == (Cps(ScoreMetrics(calculator, metrics, w).value), ScoreMetrics(calculator, metrics, w).value)
  {
    ghost var outcomes := Calculations(calculator, metrics, w);
    var total := 0.0;
    var entries := [];
    var i := 0;
    while i < |metrics|
      invariant 0 <= i <= |metrics|
      invariant forall k :: 0 <= k < i ==> outcomes[k].Ok?
      invariant |entries| == i
      invariant forall k :: 0 <= k < i ==> entries[k] == Weigh(metrics[k], outcomes[k].value)
      invariant total == Cps(entries)
    {
      var config := metrics[i];
      var result := calculator(config.metric, w);
      if result.Err? {
        FirstFailureAt(outcomes, i);
        return Err(result.error);
      }
      var zScoreWeighted := config.weight * result.value.zScore;
      total := total + zScoreWeighted;
      entries := entries + [WeightedMetric(config.metric, config.weight, result.value, zScoreWeighted)];
      assert entries[..i] == entries[..|entries| - 1];
      i := i + 1;
    }
    assert entries == Entries(metrics, outcomes);
    r := Ok((total, entries));
  }

  /** `calculate_cps`, with the source's loop. */
  method CalculateCps(calculator: MetricCalculator, w: Window, metrics: seq<MetricWeight>,
                      originalStart: Option<int>, originalEnd: Option<int>)
    returns (r: Result<CpsResult, string>)
    ensures r == CompositeScore(calculator, w, metrics, originalStart, originalEnd)
  {
    var scored := ScoreWindow(calculator, metrics, w);
    if scored.Err? {
      return Err(scored.error);
    }
    var (total, entries) := scored.value;
    var startTime, endTime := ResponseTime(originalStart, w.lo), ResponseTime(originalEnd, w.hi);
    var timed := [];
    var i := 0;
    while i < |entries|
      invariant 0 <= i <= |entries|
      invariant |timed| == i
      invariant forall k :: 0 <= k < i ==> timed[k] == TimedMetric(entries[k], startTime, endTime)
    {
      timed := timed + [TimedMetric(entries[i], startTime, endTime)];
      i := i + 1;
    }
    assert timed == seq(|entries|, i requires 0 <= i < |entries| => TimedMetric(entries[i], startTime, endTime));
    r := Ok(CpsResult(total, timed));
  }

  /** The values of outcomes that all succeeded, in order. */
  function OkValues<T>(outcomes: seq<Result<T, string>>): (r: seq<T>)
    requires forall i :: 0 <= i < |outcomes| ==> outcomes[i].Ok?
    ensures |r| == |outcomes|
    ensures forall i :: 0 <= i < |r| ==> r[i] == outcomes[i].value
  {
    seq(|outcomes|, i requires 0 <= i < |outcomes| => outcomes[i].value)
  }

  /**
   * Interval `i` of a window given in microseconds, scored: its number
   * (counted from 1), its window in whole seconds, and the composite score of
   * its entries; or the error of its scoring.
   */
  function IntervalResult(calculator: MetricCalculator, start: int, end: int, n: int, i: int,
                          metrics: seq<MetricWeight>): Result<IntervalScore, string>
    requires n > 0
  {
    var w := IntervalWindow(start, end, n, i);
    match ScoreMetrics(calculator, metrics, w)
    case Err(e) => Err(e)
    case Ok(entries) => Ok(IntervalScore(i + 1, w.lo, w.hi, Cps(entries), entries))
  }

  /** Every interval scored, in interval order. */
  function IntervalResults(calculator: MetricCalculator, start: int, end: int, n: int, metrics: seq<MetricWeight>)
    : (r: seq<Result<IntervalScore, string>>)
    requires n > 0
    ensures |r| == n
    ensures forall i :: 0 <= i < n ==> r[i] == IntervalResult(calculator, start, end, n, i, metrics)
  {
    seq(n, i requires 0 <= i < n => IntervalResult(calculator, start, end, n, i, metrics))
  }

  /**
   * `calculate_cps_with_intervals` on a window given in whole seconds: one
   * entry per interval, in interval order. A negative interval count gives no
   * intervals; the first interval whose scoring fails fails the whole call.
   */
  function IntervalScores(calculator: MetricCalculator, startSeconds: int, endSeconds: int, n: int,
                          metrics: seq<MetricWeight>): (r: Result<seq<IntervalScore>, string>)
    requires n != 0
    ensures r.Ok? ==> |r.value| == (if n < 0 then 0 else n)
    ensures r.Ok? ==> forall i :: 0 <= i < |r.value| ==> r.value[i].intervalNumber == i + 1
  {
    if n < 0 then Ok([])
    else
      var outcomes := IntervalResults(calculator, startSeconds * MicrosPerSecond, endSeconds * MicrosPerSecond, n, metrics);
      match FirstFailure(outcomes, 0)
      case Some(k) => Err(outcomes[k].error)
      case None => Ok(OkValues(outcomes))
  }

  /**
   * With a dispatching calculator and at least one interval, the call succeeds
   * exactly when every requested name is a metric value, and otherwise fails
   * with the error for the first name that is not.
   */
  lemma IntervalScoresOutcome(calculator: MetricCalculator, startSeconds: int, endSeconds: int, n: int, metrics: seq<MetricWeight>)
    requires Dispatches(calculator) && n > 0
    ensures IntervalScores(calculator, startSeconds, endSeconds, n, metrics).Ok? <==> AllValid(metrics)
    ensures IntervalScores(calculator, startSeconds, endSeconds, n, metrics).Err? ==>
      exists i :: FirstInvalid(metrics, i)
        && IntervalScores(calculator, startSeconds, endSeconds, n, metrics).error == InvalidMetricMessage(metrics[i].metric)
  {
    var start, end := startSeconds * MicrosPerSecond, endSeconds * MicrosPerSecond;
    var outcomes := IntervalResults(calculator, start, end, n, metrics);
    ScoreMetricsValidity(calculator, metrics, IntervalWindow(start, end, n, 0));
    if AllValid(metrics) {
      forall i | 0 <= i < n ensures outcomes[i].Ok? {
        ScoreMetricsValidity(calculator, metrics, IntervalWindow(start, end, n, i));
      }
    } else {
      FirstFailureAt(outcomes, 0);
    }
  }

  /**
   * An accepted window's interval scores: the intervals are numbered from 1,
   * the first starts at the window's start, the last ends at its end,
   * consecutive intervals meet with no overlap and no gap, and each
   * interval's score is the score of its entries.
   */
  lemma IntervalScoresShape(calculator: MetricCalculator, startSeconds: int, endSeconds: int, n: int, metrics: seq<MetricWeight>)
    requires ValidPartition(startSeconds * MicrosPerSecond, endSeconds * MicrosPerSecond, n)
    requires IntervalScores(calculator, startSeconds, endSeconds, n, metrics).Ok?
    ensures IntervalScores(calculator, startSeconds, endSeconds, n, metrics).value[0].startTime == startSeconds
    ensures IntervalScores(calculator, startSeconds, endSeconds, n, metrics).value[n - 1].endTime == endSeconds
    ensures forall i :: 0 <= i < n - 1 ==>
      IntervalScores(calculator, startSeconds, endSeconds, n, metrics).value[i].endTime + 1
        == IntervalScores(calculator, startSeconds, endSeconds, n, metrics).value[i + 1].startTime
    ensures forall i :: 0 <= i < n ==>
      IntervalScores(calculator, startSeconds, endSeconds, n, metrics).value[i].cps
        == Cps(IntervalScores(calculator, startSeconds, endSeconds, n, metrics).value[i].metrics)
  {
    var start, end := startSeconds * MicrosPerSecond, endSeconds * MicrosPerSecond;
    PartitionShape(start, end, n);
    var ws := Windows(start, end, n);
    var r := IntervalScores(calculator, startSeconds, endSeconds, n, metrics).value;
    assert r[0].startTime == ws[0].lo;
    assert r[n - 1].endTime == ws[n - 1].hi;
    forall i | 0 <= i < n - 1 ensures r[i].endTime + 1 == r[i + 1].startTime {
      assert r[i].endTime == ws[i].hi && r[i + 1].startTime == ws[i + 1].lo;
    }
  }

  /**
   * The bounds of interval `i` as the loop of `calculate_cps_with_intervals`
   * computes them: `i` steps from the start, the end one second before the
   * next interval's start, or the window's end for the last interval.
   */
  method IntervalBounds(start: int, end: int, n: int, step: int, i: int) returns (w: Window)
    requires 0 <= i < n && step == Step(start, end, n)
    ensures w == IntervalWindow(start, end, n, i)
  {
    var intervalStart := start + step * i;
    var intervalEnd := start + step * (i + 1);
    if i == n - 1 {
      intervalEnd := end;
    } else {
      intervalEnd := intervalEnd - MicrosPerSecond;
    }
    w := Window(Seconds(intervalStart), Seconds(intervalEnd));
  }

  /** One pass of the outer loop of `calculate_cps_with_intervals`: interval `i`, scored. */
  method ScoreInterval(calculator: MetricCalculator, start: int, end: int, n: int, step: int, i: int,
                       metrics: seq<MetricWeight>) returns (r: Result<IntervalScore, string>)
    requires 0 <= i < n && step == Step(start, end, n)
    ensures r == IntervalResult(calculator, start, end, n, i, metrics)
  {
    var w := IntervalBounds(start, end, n, step, i);
    var windowScore := ScoreWindow(calculator, metrics, w);
    if windowScore.Err? {
      return Err(windowScore.error);
    }
    var (total, entries) := windowScore.value;
    r := Ok(IntervalScore(i + 1, w.lo, w.hi, total, entries));
  }

  /** `calculate_cps_with_intervals`, with the source's loop over the intervals. */
  method CalculateCpsWithIntervals(calculator: MetricCalculator, startSeconds: int, endSeconds: int, n: int,
                                   metrics: seq<MetricWeight>)
    returns (r: Result<seq<IntervalScore>, string>)
    requires n != 0
    ensures r == IntervalScores(calculator, startSeconds, endSeconds, n, metrics)
  {
    var start, end := startSeconds * MicrosPerSecond, endSeconds * MicrosPerSecond;
    if n < 0 {
      return Ok([]);
    }
    var step := DivRoundHalfEven(end - start, n);
    var results := [];
    var i := 0;
    ghost var outcomes := IntervalResults(calculator, start, end, n, metrics);
    while i < n
      invariant 0 <= i <= n
      invariant |results| == i
      invariant forall k :: 0 <= k < i ==> outcomes[k].Ok? && results[k] == outcomes[k].value
    {
      var interval := ScoreInterval(calculator, start, end, n, step, i, metrics);
      if interval.Err? {
        FirstFailureAt(outcomes, i);
        return Err(interval.error);
      }
      results := results + [interval.value];
      i := i + 1;
    }
    assert results == OkValues(outcomes);
    r := Ok(results);
  }
}
