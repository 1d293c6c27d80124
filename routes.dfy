/**
 * The two computing endpoints of the API.
 *
 * `GET /metrics` takes a comma-separated list of metric values, a window and
 * an interval count; it rejects unknown names and too many intervals, cuts
 * the window into intervals, calculates every requested metric over every
 * interval and, for several metrics over several intervals, correlates the
 * metrics' interval means.
 *
 * `POST /cps` takes weighted metrics, a window and an interval count; it
 * rejects a window that ends before it starts, too many intervals and
 * unknown names, and then scores the intervals of the window with seconds
 * precision.
 *
 * Instants are microseconds, as in `Partition`; the metric calculation is the
 * parameter `calculator`, as in `CpsCalculator`.
 */
module Routes {
  import opened Wrappers
  import opened Enums
  import opened Observations
  import opened Partition
  import opened MetricsCalculator
  import opened CpsCalculator
  import opened Correlations

  // ----- the metric list of the query -----

  /** `str.isspace` for one character: the characters Python counts as whitespace. */
  predicate IsSpace(c: char) {
    ('\t' <= c <= '\r') || ('\U{1C}' <= c <= ' ') || c == '\U{85}' || c == '\U{A0}' || c == '\U{1680}'
    || ('\U{2000}' <= c <= '\U{200A}') || c == '\U{2028}' || c == '\U{2029}' || c == '\U{202F}'
    || c == '\U{205F}' || c == '\U{3000}'
  }

  /** The number of whitespace characters `s` starts with. */
  function LeadingSpaces(s: string): (n: nat)
    ensures n <= |s|
    ensures forall k :: 0 <= k < n ==> IsSpace(s[k])
    ensures n < |s| ==> !IsSpace(s[n])
  {
    if s == [] || !IsSpace(s[0]) then 0 else 1 + LeadingSpaces(s[1..])
  }

  /** The number of whitespace characters `s` ends with. */
  function TrailingSpaces(s: string): (n: nat)
    ensures n <= |s|
    ensures forall k :: |s| - n <= k < |s| ==> IsSpace(s[k])
    ensures n < |s| ==> !IsSpace(s[|s| - n - 1])
  {
    if s == [] || !IsSpace(s[|s| - 1]) then 0 else 1 + TrailingSpaces(s[..|s| - 1])
  }

  /**
   * `str.strip()`: the slice of `s` left when the whitespace at both ends is
   * removed. It neither starts nor ends with whitespace, and everything cut
   * off is whitespace.
   */
  function Strip(s: string): (r: string)
    ensures exists i, j :: 0 <= i <= j <= |s| && r == s[i..j]
                        && (forall k :: 0 <= k < i ==> IsSpace(s[k])) && (forall k :: j <= k < |s| ==> IsSpace(s[k]))
    ensures r != [] ==> !IsSpace(r[0]) && !IsSpace(r[|r| - 1])
  {
    var i := LeadingSpaces(s);
    var j := |s| - TrailingSpaces(s[i..]);
    assert forall k :: j <= k < |s| ==> s[k] == s[i..][k - i];
    s[i..j]
  }

  /** Stripping twice is stripping once. */
  lemma StripIdempotent(s: string)
    ensures Strip(Strip(s)) == Strip(s)
  {
    var r := Strip(s);
    if r != [] {
      assert LeadingSpaces(r) == 0;
      assert TrailingSpaces(r[0..]) == 0 by { assert r[0..] == r; }
      assert r[0..|r|] == r;
    }
  }

  /** `str.split(',')`: the pieces between the commas, in order; there is always at least one. */
  function Split(s: string): (parts: seq<string>)
    ensures |parts| >= 1
    ensures forall k :: 0 <= k < |parts| ==> ',' !in parts[k]
  {
    if s == [] then [[]]
    else
      var rest := Split(s[1..]);
      if s[0] == ',' then [[]] + rest else [[s[0]] + rest[0]] + rest[1..]
  }

  /** `','.join(parts)`. */
  function Join(parts: seq<string>): string
    requires |parts| >= 1
  {
    if |parts| == 1 then parts[0] else parts[0] + [','] + Join(parts[1..])
  }

  /** Splitting at the commas and joining with commas gives the text back. */
  lemma {:induction false} SplitJoin(s: string)
    ensures Join(Split(s)) == s
    decreases |s|
  {
    if s != [] {
      var rest := Split(s[1..]);
      SplitJoin(s[1..]);
      if s[0] == ',' {
        assert Split(s)[1..] == rest;
      } else if |rest| > 1 {
        assert Split(s)[1..] == rest[1..];
        assert Join(Split(s)) == [s[0]] + rest[0] + [','] + Join(rest[1..]);
      }
    }
  }

  /** A piece without commas splits off whole from the front of the text it starts. */
  lemma {:induction false} SplitPrefix(a: string, t: string)
    requires ',' !in a
    ensures Split(a + t) == [a + Split(t)[0]] + Split(t)[1..]
    decreases |a|
  {
    if a != [] {
      assert (a + t)[1..] == a[1..] + t;
      assert ',' !in a[1..] by {
        forall k | 0 <= k < |a[1..]| ensures a[1..][k] != ',' { assert a[1..][k] == a[k + 1]; }
      }
      assert a[0] != ',' && (a + t)[0] == a[0];
      SplitPrefix(a[1..], t);
      var rest := Split(a[1..] + t);
      assert rest[0] == a[1..] + Split(t)[0] && rest[1..] == Split(t)[1..];
      assert [a[0]] + (a[1..] + Split(t)[0]) == a + Split(t)[0];
    } else {
      assert a + t == t && a + Split(t)[0] == Split(t)[0];
      assert [Split(t)[0]] + Split(t)[1..] == Split(t);
    }
  }

  /** Pieces without commas, joined with commas, split back into the same pieces. */
  lemma {:induction false} JoinSplit(parts: seq<string>)
    requires |parts| >= 1
    requires forall k :: 0 <= k < |parts| ==> ',' !in parts[k]
    ensures Split(Join(parts)) == parts
  {
    if |parts| == 1 {
      SplitPrefix(parts[0], []);
      assert parts[0] + [] == parts[0];
    } else {
      var tail := Join(parts[1..]);
      JoinSplit(parts[1..]);
      assert parts[0] + [','] + tail == parts[0] + ([','] + tail);
      SplitPrefix(parts[0], [','] + tail);
      assert ([','] + tail)[1..] == tail;
      assert parts[0] + [] == parts[0];
    }
  }

  /** `[mt.strip() for mt in metric_types.split(',')]`: the requested names, in request order. */
  function MetricTypeList(metricTypes: string): (names: seq<string>)
    ensures |names| == |Split(metricTypes)|
    ensures forall k :: 0 <= k < |names| ==> names[k] == Strip(Split(metricTypes)[k])
  {
    var parts := Split(metricTypes);
    seq(|parts|, k requires 0 <= k < |parts| => Strip(parts[k]))
  }

  /**
   * Names without commas and without surrounding whitespace, joined with
   * commas, are read back as the same names in the same order.
   */
  lemma MetricTypeListJoin(names: seq<string>)
    requires |names| >= 1
    requires forall k :: 0 <= k < |names| ==> ',' !in names[k] && Strip(names[k]) == names[k]
    ensures MetricTypeList(Join(names)) == names
  {
    JoinSplit(names);
  }

  /**
   * `[mt for mt in metric_type_list if mt not in valid_metric_types]`: the
   * requested names that are not metric values, in request order.
   */
  function InvalidNames(names: seq<string>): (r: seq<string>)
    ensures |r| <= |names|
    ensures forall x :: x in r <==> x in names && !IsMetricValue(x)
  {
    if names == [] then []
    else
      var init, last := names[..|names| - 1], names[|names| - 1];
      assert names == init + [last];
      if IsMetricValue(last) then InvalidNames(init) else InvalidNames(init) + [last]
  }

  /** Each rejected name is reported as many times as it was requested. */
  lemma {:induction false} InvalidNamesCount(names: seq<string>, x: string)
    ensures multiset(InvalidNames(names))[x] == if IsMetricValue(x) then 0 else multiset(names)[x]
  {
    if names != [] {
      var init, last := names[..|names| - 1], names[|names| - 1];
      assert names == init + [last];
      InvalidNamesCount(init, x);
    }
  }

  /** The rejected names of two lists are those of the first followed by those of the second. */
  lemma {:induction false} InvalidNamesAppend(a: seq<string>, b: seq<string>)
    ensures InvalidNames(a + b) == InvalidNames(a) + InvalidNames(b)
  {
    if b != [] {
      var init, last := b[..|b| - 1], b[|b| - 1];
      assert (a + b)[..|a + b| - 1] == a + init;
      assert (a + b)[|a + b| - 1] == last;
      InvalidNamesAppend(a, init);
      if IsMetricValue(last) {
        assert InvalidNames(b) == InvalidNames(init);
        assert InvalidNames(a + b) == InvalidNames(a + init);
      } else {
        assert InvalidNames(b) == InvalidNames(init) + [last];
        assert InvalidNames(a + b) == InvalidNames(a + init) + [last];
        assert InvalidNames(a) + InvalidNames(init) + [last] == InvalidNames(a) + (InvalidNames(init) + [last]);
      }
    } else {
      assert a + b == a;
    }
  }

  /** A single name is rejected exactly when it is not a metric value. */
  lemma InvalidNamesSingle(name: string)
    ensures InvalidNames([name]) == if IsMetricValue(name) then [] else [name]
  {
    assert [name][..0] == [];
  }

  /** No name is rejected exactly when every requested name is a metric value. */
  lemma InvalidNamesEmpty(names: seq<string>)
    ensures InvalidNames(names) == [] <==> forall k :: 0 <= k < |names| ==> IsMetricValue(names[k])
  {
    if InvalidNames(names) == [] {
      forall k | 0 <= k < |names| ensures IsMetricValue(names[k]) {
        assert names[k] in names;
      }
    } else {
      var x := InvalidNames(names)[0];
      assert x in InvalidNames(names);
    }
  }

  // ----- errors -----

  /** The rejections of the two endpoints. */
  datatype RouteError =
    | InvalidMetricTypes(names: seq<string>)
    | TooManyIntervals(intervals: int, totalDays: int)
    | EndBeforeStart
    | InvalidMetric(name: string)
    | CalculationFailed(message: string)
    | DivisionByZero

  /** The HTTP status of a rejection: a server error for a failure the handler does not anticipate, a bad request otherwise. */
  function Status(e: RouteError): int {
    if e.DivisionByZero? then 500 else 400
  }

  /** `sep.join(parts)`. */
  function JoinWith(sep: string, parts: seq<string>): string {
    if parts == [] then [] else if |parts| == 1 then parts[0] else parts[0] + sep + JoinWith(sep, parts[1..])
  }

  /** A decimal digit. */
  function DigitChar(d: int): char
    requires 0 <= d < 10
  {
    ('0' as int + d) as char
  }

  /** The decimal text of a natural number, without leading zeros. */
  function NatText(n: nat): (r: string)
    ensures |r| >= 1
    ensures forall k :: 0 <= k < |r| ==> '0' <= r[k] <= '9'
    ensures n > 0 ==> r[0] != '0'
  {
    if n < 10 then [DigitChar(n)] else NatText(n / 10) + [DigitChar(n % 10)]
  }

  /** The number a string of decimal digits denotes. */
  function DigitsValue(s: string): nat
    requires forall k :: 0 <= k < |s| ==> '0' <= s[k] <= '9'
  {
    if s == [] then 0 else 10 * DigitsValue(s[..|s| - 1]) + (s[|s| - 1] as int - '0' as int)
  }

  /** The decimal text of `n` denotes `n`. */
  lemma {:induction false} NatTextValue(n: nat)
    ensures DigitsValue(NatText(n)) == n
  {
    if n >= 10 {
      var r := NatText(n);
      assert r[..|r| - 1] == NatText(n / 10);
      NatTextValue(n / 10);
    }
  }

  /** `str(n)` for an integer. */
  function IntText(n: int): string {
    if n < 0 then "-" + NatText(-n) else NatText(n)
  }

  /** The response text of a rejection. */
  function Detail(e: RouteError): string {
    match e
    case InvalidMetricTypes(names) =>
      "Invalid metric type(s): " + JoinWith(", ", names) + ". Must be one of: " + JoinWith(", ", ValuesOf(MetricTypes))
    case TooManyIntervals(intervals, totalDays) =>
      "Intervals (" + IntText(intervals) + ") cannot be larger than the number of days between start_time and end_time ("
      + IntText(totalDays) + ")"
    case EndBeforeStart => "end_time cannot be before start_time"
    case InvalidMetric(name) => "Invalid metric type '" + name + "'. Must be one of: " + JoinWith(", ", ValuesOf(MetricTypes))
    case CalculationFailed(message) => message
    case DivisionByZero => "Error calculating CPS: integer division or modulo by zero"
  }

  // ----- GET /metrics -----

  /** The calculator's outcome for each requested name over one window, in request order. */
  function NamedCalculations(calculator: MetricCalculator, names: seq<string>, w: Window)
    : (r: seq<Result<MetricResult, string>>)
    ensures |r| == |names|
    ensures forall k :: 0 <= k < |names| ==> r[k] == calculator(names[k], w)
  {
    seq(|names|, k requires 0 <= k < |names| => calculator(names[k], w))
  }

  /** Successful outcomes, each tagged with the name it was calculated for. */
  function Tagged(names: seq<string>, outcomes: seq<Result<MetricResult, string>>): (r: seq<NamedResult>)
    requires |names| == |outcomes|
    requires forall k :: 0 <= k < |outcomes| ==> outcomes[k].Ok?
    ensures |r| == |names|
    ensures forall k :: 0 <= k < |r| ==> r[k] == NamedResult(names[k], outcomes[k].value)
  {
    seq(|names|, k requires 0 <= k < |names| => NamedResult(names[k], outcomes[k].value))
  }

  /**
   * The inner loop of `get_metrics`: every requested name calculated over one
   * window and tagged with its name, in request order; the first failed
   * calculation fails the interval.
   */
  function NamedResults(calculator: MetricCalculator, names: seq<string>, w: Window)
    : (r: Result<seq<NamedResult>, string>)
    ensures r.Ok? <==> forall k :: 0 <= k < |names| ==> calculator(names[k], w).Ok?
    ensures r.Ok? ==> |r.value| == |names|
    ensures r.Ok? ==> forall k :: 0 <= k < |names| ==> r.value[k] == NamedResult(names[k], calculator(names[k], w).value)
    ensures r.Err? ==> exists k :: 0 <= k < |names| && calculator(names[k], w).Err? && r.error == calculator(names[k], w).error
                                 && forall j :: 0 <= j < k ==> calculator(names[j], w).Ok?
  {
    var outcomes := NamedCalculations(calculator, names, w);
    match FirstFailure(outcomes, 0)
    case Some(k) => Err(outcomes[k].error)
    case None => Ok(Tagged(names, outcomes))
  }

  /** Interval `i` of the metrics endpoint: its number (from 1), its window in seconds and its results. */
  function IntervalMetricsAt(calculator: MetricCalculator, names: seq<string>, start: int, end: int, n: int, i: int)
    : Result<IntervalMetrics, string>
    requires n > 0
  {
    var w := IntervalWindow(start, end, n, i);
    match NamedResults(calculator, names, w)
    case Err(e) => Err(e)
    case Ok(ms) => Ok(IntervalMetrics(i + 1, w.lo, w.hi, ms))
  }

  /** Every interval of the metrics endpoint, in interval order. */
  function IntervalMetricsOutcomes(calculator: MetricCalculator, names: seq<string>, start: int, end: int, n: int)
    : (r: seq<Result<IntervalMetrics, string>>)
    requires n > 0
    ensures |r| == n
    ensures forall i :: 0 <= i < n ==> r[i] == IntervalMetricsAt(calculator, names, start, end, n, i)
  {
    seq(n, i requires 0 <= i < n => IntervalMetricsAt(calculator, names, start, end, n, i))
  }

  /**
   * The outer loop of `get_metrics`: `n` intervals, each listing every
   * requested name with the calculator's result over that interval's window;
   * the first failed interval fails the whole.
   */
  function MetricsIntervals(calculator: MetricCalculator, names: seq<string>, start: int, end: int, n: int)
    : (r: Result<seq<IntervalMetrics>, string>)
    requires n > 0
    ensures r.Ok? <==> forall i, k :: 0 <= i < n && 0 <= k < |names| ==>
      calculator(names[k], IntervalWindow(start, end, n, i)).Ok?
    ensures r.Ok? ==> |r.value| == n
    ensures r.Ok? ==> forall i :: 0 <= i < n ==>
      r.value[i].intervalNumber == i + 1
      && r.value[i].startTime == IntervalWindow(start, end, n, i).lo
      && r.value[i].endTime == IntervalWindow(start, end, n, i).hi
      && |r.value[i].metrics| == |names|
    ensures r.Ok? ==> forall i, k :: 0 <= i < n && 0 <= k < |names| ==>
      r.value[i].metrics[k] == NamedResult(names[k], calculator(names[k], IntervalWindow(start, end, n, i)).value)
  {
    var outcomes := IntervalMetricsOutcomes(calculator, names, start, end, n);
    match FirstFailure(outcomes, 0)
    case Some(i) =>
      assert !NamedResults(calculator, names, IntervalWindow(start, end, n, i)).Ok?;
      Err(outcomes[i].error)
    case None =>
      assert forall i :: 0 <= i < n ==> outcomes[i].Ok? && NamedResults(calculator, names, IntervalWindow(start, end, n, i)).Ok?;
      Ok(OkValues(outcomes))
  }

  /** Every interval the metrics endpoint reports lists every requested name. */
  lemma MetricsIntervalsComplete(calculator: MetricCalculator, names: seq<string>, start: int, end: int, n: int)
    requires n > 0 && MetricsIntervals(calculator, names, start, end, n).Ok?
    ensures Complete(MetricsIntervals(calculator, names, start, end, n).value, names)
  {
    var intervals := MetricsIntervals(calculator, names, start, end, n).value;
    forall k, i | 0 <= k < |names| && 0 <= i < n ensures FirstMean(intervals[i].metrics, names[k]).Some? {
      assert intervals[i].metrics[k].metricType == names[k];
    }
  }

  /** The response of the metrics endpoint. */
  datatype MetricsResponse = MetricsResponse(intervals: seq<IntervalMetrics>, correlations: Option<seq<CorrelationResult>>)

  /**
   * `get_metrics` on a window of instants and a positive interval count: the
   * unknown names are rejected first, then more intervals than days, then the
   * first failed calculation; correlations are reported exactly for several
   * names over several intervals.
   */
  function MetricsReport(calculator: MetricCalculator, num: Numerics, metricTypes: string, start: int, end: int, n: int)
    : (r: Result<MetricsResponse, RouteError>)
    requires n > 0
  {
    var names := MetricTypeList(metricTypes);
    var invalid := InvalidNames(names);
    if invalid != [] then Err(InvalidMetricTypes(invalid))
    else if n > TotalDays(start, end) then Err(TooManyIntervals(n, TotalDays(start, end)))
    else match MetricsIntervals(calculator, names, start, end, n)
      case Err(e) => Err(CalculationFailed(e))
      case Ok(intervals) =>
        if |names| > 1 && n > 1 then
          MetricsIntervalsComplete(calculator, names, start, end, n);
          CompleteAligned(intervals, names);
          Ok(MetricsResponse(intervals, Some(CorrelationsOf(intervals, names, num))))
        else
          Ok(MetricsResponse(intervals, None))
  }

  /**
   * The rejections of the metrics endpoint, with a dispatching calculator: it
   * fails with the list of unknown names when there is one, then with the
   * interval count and day count when the intervals outnumber the days, and
   * succeeds otherwise; a calculation never fails once the names are known.
   */
  lemma MetricsReportOutcome(calculator: MetricCalculator, num: Numerics, metricTypes: string, start: int, end: int, n: int)
    requires Dispatches(calculator) && n > 0
    ensures var names := MetricTypeList(metricTypes);
      MetricsReport(calculator, num, metricTypes, start, end, n).Ok?
      == ((forall k :: 0 <= k < |names| ==> IsMetricValue(names[k])) && n <= TotalDays(start, end))
    ensures var names := MetricTypeList(metricTypes);
      (exists k :: 0 <= k < |names| && !IsMetricValue(names[k])) ==>
        MetricsReport(calculator, num, metricTypes, start, end, n) == Err(InvalidMetricTypes(InvalidNames(names)))
    ensures var names := MetricTypeList(metricTypes);
      (forall k :: 0 <= k < |names| ==> IsMetricValue(names[k])) && n > TotalDays(start, end) ==>
        MetricsReport(calculator, num, metricTypes, start, end, n) == Err(TooManyIntervals(n, TotalDays(start, end)))
  {
    var names := MetricTypeList(metricTypes);
    InvalidNamesEmpty(names);
    if (forall k :: 0 <= k < |names| ==> IsMetricValue(names[k])) && n <= TotalDays(start, end) {
      assert MetricsIntervals(calculator, names, start, end, n).Ok?;
    }
  }

  /** A window that ends before it starts is rejected as too short for any interval count. */
  lemma MetricsEndBeforeStart(calculator: MetricCalculator, num: Numerics, metricTypes: string, start: int, end: int, n: int)
    requires n > 0 && end < start
    requires forall k :: 0 <= k < |MetricTypeList(metricTypes)| ==> IsMetricValue(MetricTypeList(metricTypes)[k])
    ensures MetricsReport(calculator, num, metricTypes, start, end, n) == Err(TooManyIntervals(n, TotalDays(start, end)))
  {
    InvalidNamesEmpty(MetricTypeList(metricTypes));
    EndBeforeStartRejected(start, end, n);
  }

  /**
   * An accepted report of the metrics endpoint: `n` intervals numbered from
   * 1, each listing every requested name with the calculator's result over
   * its window; the first starts at the window's start, the last ends at its
   * end, and consecutive intervals meet with no gap and no overlap.
   */
  lemma MetricsReportShape(calculator: MetricCalculator, num: Numerics, metricTypes: string, start: int, end: int, n: int)
    requires ValidPartition(start, end, n)
    requires MetricsReport(calculator, num, metricTypes, start, end, n).Ok?
    ensures var r, names := MetricsReport(calculator, num, metricTypes, start, end, n).value, MetricTypeList(metricTypes);
      |r.intervals| == n
      && (forall i :: 0 <= i < n ==> r.intervals[i].intervalNumber == i + 1 && |r.intervals[i].metrics| == |names|)
      && (forall i, k :: 0 <= i < n && 0 <= k < |names| ==>
            r.intervals[i].metrics[k] == NamedResult(names[k], calculator(names[k], Windows(start, end, n)[i]).value))
    ensures var r := MetricsReport(calculator, num, metricTypes, start, end, n).value;
      r.intervals[0].startTime == Seconds(start) && r.intervals[n - 1].endTime == Seconds(end)
      && forall i :: 0 <= i < n - 1 ==> r.intervals[i].endTime + 1 == r.intervals[i + 1].startTime
  {
    var names := MetricTypeList(metricTypes);
    var intervals := MetricsIntervals(calculator, names, start, end, n).value;
    var ws := Windows(start, end, n);
    PartitionShape(start, end, n);
    assert intervals[0].startTime == ws[0].lo;
    assert intervals[n - 1].endTime == ws[n - 1].hi;
    forall i | 0 <= i < n - 1 ensures intervals[i].endTime + 1 == intervals[i + 1].startTime {
      assert intervals[i].endTime == ws[i].hi && intervals[i + 1].startTime == ws[i + 1].lo;
    }
  }

  /**
   * The correlations of an accepted report: present exactly for several names
   * over several intervals, one entry per unordered pair of requested
   * positions, each over all `n` intervals.
   */
  lemma MetricsReportCorrelations(calculator: MetricCalculator, num: Numerics, metricTypes: string, start: int, end: int, n: int)
    requires n > 0 && MetricsReport(calculator, num, metricTypes, start, end, n).Ok?
    ensures var r, names := MetricsReport(calculator, num, metricTypes, start, end, n).value, MetricTypeList(metricTypes);
      r.correlations.Some? <==> |names| > 1 && n > 1
    ensures var r, names := MetricsReport(calculator, num, metricTypes, start, end, n).value, MetricTypeList(metricTypes);
      r.correlations.Some? ==>
        2 * |r.correlations.value| == |names| * (|names| - 1)
        && forall k :: 0 <= k < |r.correlations.value| ==> r.correlations.value[k].sampleSize == n
  {
    var names := MetricTypeList(metricTypes);
    var r := MetricsReport(calculator, num, metricTypes, start, end, n).value;
    if |names| > 1 && n > 1 {
      var intervals := MetricsIntervals(calculator, names, start, end, n).value;
      MetricsIntervalsComplete(calculator, names, start, end, n);
      CompleteAligned(intervals, names);
      CorrelationsCount(intervals, names, num);
      CorrelationsSampleSize(intervals, names, num, |names|);
    }
  }

  /** The inner loop of `get_metrics`, over the requested names. */
  method CalculateNamed(calculator: MetricCalculator, names: seq<string>, w: Window)
    returns (r: Result<seq<NamedResult>, string>)
    ensures r == NamedResults(calculator, names, w)
  {
    ghost var outcomes := NamedCalculations(calculator, names, w);
    var metricsForInterval := [];
    var k := 0;
    while k < |names|
      invariant 0 <= k <= |names| && |metricsForInterval| == k
      invariant forall j :: 0 <= j < k ==> outcomes[j].Ok? && metricsForInterval[j] == NamedResult(names[j], outcomes[j].value)
    {
      var result := calculator(names[k], w);
      if result.Err? {
        FirstFailureAt(outcomes, k);
        return Err(result.error);
      }
      metricsForInterval := metricsForInterval + [NamedResult(names[k], result.value)];
      k := k + 1;
    }
    assert metricsForInterval == Tagged(names, outcomes);
    r := Ok(metricsForInterval);
  }

  /** The loop of `get_metrics` over the intervals. */
  method MeasureIntervals(calculator: MetricCalculator, names: seq<string>, start: int, end: int, n: int)
    returns (r: Result<seq<IntervalMetrics>, string>)
    requires n > 0
    ensures r == MetricsIntervals(calculator, names, start, end, n)
  {
    var step := DivRoundHalfEven(end - start, n);
    ghost var outcomes := IntervalMetricsOutcomes(calculator, names, start, end, n);
    var intervalResults := [];
    var i := 0;
    while i < n
      invariant 0 <= i <= n && |intervalResults| == i
      invariant forall j :: 0 <= j < i ==> outcomes[j].Ok? && intervalResults[j] == outcomes[j].value
    {
      var w := IntervalBounds(start, end, n, step, i);
      var metricsForInterval := CalculateNamed(calculator, names, w);
      if metricsForInterval.Err? {
        FirstFailureAt(outcomes, i);
        return Err(metricsForInterval.error);
      }
      intervalResults := intervalResults + [IntervalMetrics(i + 1, w.lo, w.hi, metricsForInterval.value)];
      i := i + 1;
    }
    assert intervalResults == OkValues(outcomes);
    r := Ok(intervalResults);
  }

  /** `get_metrics`: the checks, the intervals, and the correlations when they apply. */
  method GetMetrics(calculator: MetricCalculator, num: Numerics, metricTypes: string, start: int, end: int, n: int)
    returns (r: Result<MetricsResponse, RouteError>)
    requires n > 0
    ensures r == MetricsReport(calculator, num, metricTypes, start, end, n)
  {
    var names := MetricTypeList(metricTypes);
    var invalid := InvalidNames(names);
    if invalid != [] {
      return Err(InvalidMetricTypes(invalid));
    }
    var totalDays := TotalDays(start, end);
    if n > totalDays {
      return Err(TooManyIntervals(n, totalDays));
    }
    var intervalResults := MeasureIntervals(calculator, names, start, end, n);
    if intervalResults.Err? {
      return Err(CalculationFailed(intervalResults.error));
    }
    var intervals := intervalResults.value;
    var correlations := None;
    if |names| > 1 && n > 1 {
      MetricsIntervalsComplete(calculator, names, start, end, n);
      CompleteAligned(intervals, names);
      var c := CalculateCorrelations(intervals, names, num);
      correlations := Some(c);
    }
    r := Ok(MetricsResponse(intervals, correlations));
  }

  // ----- POST /cps -----

  /** The position of the first requested metric, from `from` on, whose name is not a metric value. */
  function FirstInvalidIndex(metrics: seq<MetricWeight>, from: nat): (r: Option<nat>)
    requires from <= |metrics|
    decreases |metrics| - from
    ensures r.None? <==> forall j :: from <= j < |metrics| ==> IsMetricValue(metrics[j].metric)
    ensures r.Some? ==> from <= r.value < |metrics| && !IsMetricValue(metrics[r.value].metric)
    ensures r.Some? ==> forall j :: from <= j < r.value ==> IsMetricValue(metrics[j].metric)
  {
    if from == |metrics| then None
    else if !IsMetricValue(metrics[from].metric) then Some(from)
    else FirstInvalidIndex(metrics, from + 1)
  }

  /** The search from any position up to the first unknown name finds that name. */
  lemma {:induction false} FirstInvalidIndexAt(metrics: seq<MetricWeight>, from: nat, i: int)
    requires from <= i && FirstInvalid(metrics, i)
    ensures FirstInvalidIndex(metrics, from) == Some(i)
    decreases i - from
  {
    if from < i {
      assert IsMetricValue(metrics[from].metric);
      FirstInvalidIndexAt(metrics, from + 1, i);
    }
  }

  /** The validation loop of the composite endpoint: the first unknown name, if any. */
  method ValidateMetrics(metrics: seq<MetricWeight>) returns (invalid: Option<nat>)
    ensures invalid == FirstInvalidIndex(metrics, 0)
  {
    var i := 0;
    while i < |metrics|
      invariant 0 <= i <= |metrics|
      invariant forall j :: 0 <= j < i ==> IsMetricValue(metrics[j].metric)
    {
      if !IsMetricValue(metrics[i].metric) {
        FirstInvalidIndexAt(metrics, 0, i);
        return Some(i);
      }
      i := i + 1;
    }
    invalid := None;
  }

  /**
   * `calculate_composite_productivity_score` on a window of instants: a window
   * ending before it starts is rejected first, then more intervals than days,
   * then the first unknown name; the service then scores the window with the
   * request's times cut to whole seconds, where a zero interval count is a
   * division by zero.
   */
  function CompositeReport(calculator: MetricCalculator, start: int, end: int, n: int, metrics: seq<MetricWeight>)
    : (r: Result<seq<IntervalScore>, RouteError>)
  {
    if end < start then Err(EndBeforeStart)
    else if n > TotalDays(start, end) then Err(TooManyIntervals(n, TotalDays(start, end)))
    else match FirstInvalidIndex(metrics, 0)
      case Some(i) => Err(InvalidMetric(metrics[i].metric))
      case None =>
        if n == 0 then Err(DivisionByZero)
        else match IntervalScores(calculator, Seconds(start), Seconds(end), n, metrics)
          case Err(e) => Err(CalculationFailed(e))
          case Ok(scores) => Ok(scores)
  }

  /**
   * The rejections of the composite endpoint, with a dispatching calculator:
   * a window ending before it starts, then too many intervals, then the first
   * unknown name, then a zero interval count; every other request succeeds.
   */
  lemma CompositeReportOutcome(calculator: MetricCalculator, start: int, end: int, n: int, metrics: seq<MetricWeight>)
    requires Dispatches(calculator)
    ensures CompositeReport(calculator, start, end, n, metrics).Ok?
      <==> start <= end && n <= TotalDays(start, end) && AllValid(metrics) && n != 0
    ensures end < start ==> CompositeReport(calculator, start, end, n, metrics) == Err(EndBeforeStart)
    ensures start <= end && n > TotalDays(start, end) ==>
      CompositeReport(calculator, start, end, n, metrics) == Err(TooManyIntervals(n, TotalDays(start, end)))
    ensures start <= end && n <= TotalDays(start, end) && !AllValid(metrics) ==>
      exists i :: FirstInvalid(metrics, i) && CompositeReport(calculator, start, end, n, metrics) == Err(InvalidMetric(metrics[i].metric))
    ensures start <= end && n <= TotalDays(start, end) && AllValid(metrics) && n == 0 ==>
      CompositeReport(calculator, start, end, n, metrics) == Err(DivisionByZero)
  {
    if !AllValid(metrics) {
      assert FirstInvalid(metrics, FirstInvalidIndex(metrics, 0).value);
    }
    if start <= end && n <= TotalDays(start, end) && AllValid(metrics) && n > 0 {
      IntervalScoresOutcome(calculator, Seconds(start), Seconds(end), n, metrics);
    }
  }

  /**
   * An accepted composite request over a valid partition: `n` interval
   * scores numbered from 1; the first starts at the start's whole second, the
   * last ends at the end's whole second, consecutive intervals meet with no
   * gap and no overlap, and each score is the weighted sum of its entries.
   */
  lemma CompositeReportShape(calculator: MetricCalculator, start: int, end: int, n: int, metrics: seq<MetricWeight>)
    requires ValidPartition(start, end, n)
    requires CompositeReport(calculator, start, end, n, metrics).Ok?
    ensures var r := CompositeReport(calculator, start, end, n, metrics).value;
      |r| == n
      && (forall i :: 0 <= i < n ==> r[i].intervalNumber == i + 1 && r[i].cps == Cps(r[i].metrics))
      && r[0].startTime == Seconds(start) && r[n - 1].endTime == Seconds(end)
      && forall i :: 0 <= i < n - 1 ==> r[i].endTime + 1 == r[i + 1].startTime
  {
    TruncationKeepsValidity(start, end, n);
    IntervalScoresShape(calculator, Seconds(start), Seconds(end), n, metrics);
  }

  /** `calculate_composite_productivity_score`, with the source's validation loop. */
  method CalculateCompositeProductivityScore(calculator: MetricCalculator, start: int, end: int, n: int,
                                             metrics: seq<MetricWeight>)
    returns (r: Result<seq<IntervalScore>, RouteError>)
    ensures r == CompositeReport(calculator, start, end, n, metrics)
  {
    if end < start {
      return Err(EndBeforeStart);
    }
    var totalDays := TotalDays(start, end);
    if n > totalDays {
      return Err(TooManyIntervals(n, totalDays));
    }
    var invalid := ValidateMetrics(metrics);
    if invalid.Some? {
      return Err(InvalidMetric(metrics[invalid.value].metric));
    }
    if n == 0 {
      return Err(DivisionByZero);
    }
    var scores := CalculateCpsWithIntervals(calculator, Seconds(start), Seconds(end), n, metrics);
    if scores.Err? {
      return Err(CalculationFailed(scores.error));
    }
    r := Ok(scores.value);
  }
}
