/**
 * The metric calculator (services/metrics_calculator.py): a closed dispatch
 * from the fourteen metric names to sample builders, and the z-score
 * normaliser that turns a timeframe sample and its population into a
 * `MetricResult`.
 *
 * The store is a sequence of observations standing for the observations
 * table; every query is a `Select` on it. The square root inside pandas'
 * standard deviation is a parameter.
 */
module MetricsCalculator {
  import opened Wrappers
  import opened Enums
  import opened Stats
  import opened Observations
  import opened DailyCountSamples
  import opened IndicatorSamples
  import opened DurationSamples
  import opened RatioSamples

  /** The fields of a metric's result dictionary. */
  datatype MetricResult = MetricResult(
    meanValue: real,
    amountOfObservations: nat,
    zScore: real,
    zScoreMean: real,
    zScoreStd: real)

  /** The result for an empty timeframe sample. */
  const EmptyResult := MetricResult(0.0, 0, 0.0, 0.0, 0.0)

  /**
   * What this model relies on of the square root: it is zero at zero and
   * positive on positive numbers.
   */
  ghost predicate SqrtLike(sqrt: real -> real) {
    sqrt(0.0) == 0.0 && forall x :: x > 0.0 ==> sqrt(x) > 0.0
  }

  /**
   * `_calculate_z_score_metrics`: an empty timeframe gives all zeros;
   * otherwise the timeframe's mean and size, the population's mean (0 when
   * the population is empty) and sample standard deviation (0 when it has
   * fewer than two values), and the z-score when that deviation is positive.
   */
  function ZScoreMetrics(timeframe: seq<real>, population: seq<real>, sqrt: real -> real): (r: MetricResult)
    ensures timeframe == [] ==> r == EmptyResult
    ensures timeframe != [] ==> r.amountOfObservations == |timeframe| && r.meanValue == Mean(timeframe)
    ensures timeframe != [] ==> r.zScoreMean == (if population == [] then 0.0 else Mean(population))
    ensures timeframe != [] ==>
      r.zScoreStd == (if |population| < 2 then 0.0 else sqrt(SampleVariance(population)))
    ensures r.zScoreStd <= 0.0 ==> r.zScore == 0.0
  {
    if timeframe == [] then EmptyResult
    else
      var mean := Mean(timeframe);
      var populationMean := if population == [] then 0.0 else Mean(population);
      var populationStd := if |population| < 2 then 0.0 else sqrt(SampleVariance(population));
      var z := if populationStd > 0.0 then (mean - populationMean) / populationStd else 0.0;
      MetricResult(mean, |timeframe|, z, populationMean, populationStd)
  }

  /**
   * With a positive deviation the z-score measures the timeframe mean's
   * distance from the population mean in units of that deviation.
   */
  lemma ZScoreStandardises(timeframe: seq<real>, population: seq<real>, sqrt: real -> real)
    ensures var r := ZScoreMetrics(timeframe, population, sqrt);
      r.zScoreStd > 0.0 ==> r.zScore * r.zScoreStd == r.meanValue - r.zScoreMean
  {
  }

  /**
   * A population whose values are all equal has standard deviation 0, so
   * every non-empty timeframe gets z-score 0.
   */
  lemma ConstantPopulationZeroScore(timeframe: seq<real>, population: seq<real>, sqrt: real -> real)
    requires SqrtLike(sqrt)
    requires |population| > 0 && AllEqual(population, population[0])
    ensures ZScoreMetrics(timeframe, population, sqrt).zScoreStd == 0.0
    ensures ZScoreMetrics(timeframe, population, sqrt).zScore == 0.0
  {
    if |population| >= 2 {
      SampleVarianceZero(population);
    }
  }

  /**
   * With at least two values that are not all equal, the standard deviation is
   * positive and the z-score is the distance of the timeframe mean from the
   * population mean in units of that deviation.
   */
  lemma VaryingPopulationScore(timeframe: seq<real>, population: seq<real>, sqrt: real -> real)
    requires SqrtLike(sqrt)
    requires timeframe != [] && |population| >= 2 && !AllEqual(population, population[0])
    ensures ZScoreMetrics(timeframe, population, sqrt).zScoreStd > 0.0
    ensures ZScoreMetrics(timeframe, population, sqrt).zScore
      == (Mean(timeframe) - Mean(population)) / sqrt(SampleVariance(population))
  {
    SampleVarianceZero(population);
  }

  /** Scoring the population against itself gives z-score 0. */
  lemma SelfScoreZero(population: seq<real>, sqrt: real -> real)
    ensures ZScoreMetrics(population, population, sqrt).zScore == 0.0
  {
  }

  /**
   * Shifting the timeframe and the population by the same amount shifts both
   * means and leaves the deviation and the z-score unchanged.
   */
  lemma ZScoreShift(timeframe: seq<real>, population: seq<real>, sqrt: real -> real, c: real)
    requires timeframe != [] && population != []
    ensures ZScoreMetrics(Shift(timeframe, c), Shift(population, c), sqrt).zScoreStd
      == ZScoreMetrics(timeframe, population, sqrt).zScoreStd
    ensures ZScoreMetrics(Shift(timeframe, c), Shift(population, c), sqrt).zScore
      == ZScoreMetrics(timeframe, population, sqrt).zScore
  {
    MeanShift(timeframe, c);
    MeanShift(population, c);
    if |population| >= 2 {
      SampleVarianceShift(population, c);
    }
  }

  /** The sample builder behind each metric. */
  datatype Calculator =
    | DirectValue(kind: ObservationType)
    | DailyCount(kind: ObservationType)
    | FailureRate
    | RecoveryTime
    | LeadTime
    | CodeVolume
    | ReworkRate

  /** The `calculators` table of `calculate_metric`. */
  function CalculatorFor(m: MetricType): Calculator {
    match m
    case Satisfaction => DirectValue(SatisfactionEvent)
    case Retention => DirectValue(TeamSizeChange)
    case DeploymentFrequency => DailyCount(Deployment)
    case ChangeFailureRate => FailureRate
    case MeanTimeToRecover => RecoveryTime
    case LinesOfCode => DirectValue(LinesOfCodeEvent)
    case NumberOfCommits => DailyCount(Commit)
    case CommunicationFrequency => DirectValue(CommunicationEvent)
    case PerceivedProductivity => DirectValue(PerceivedProductivityEvent)
    case LackOfInterruptions => DirectValue(WorkSession)
    case LeadTimeForChanges => LeadTime
    case AiAcceptanceRate => DirectValue(AiSuggestionResult)
    case AiCodeVolume => CodeVolume
    case AiReworkRate => ReworkRate
  }

  /** Distinct metrics use distinct calculators: the table routes each name to exactly one. */
  lemma CalculatorForInjective(a: MetricType, b: MetricType)
    requires CalculatorFor(a) == CalculatorFor(b)
    ensures a == b
  {
  }

  /**
   * Every LINES_OF_CODE total that shares a timestamp with a LINES_OF_CODE_AI
   * row is non-zero (a zero total gives an infinite or undefined ratio in the
   * source, which reals cannot hold).
   */
  predicate ValidStore(store: seq<Observation>) {
    NonZeroTotals(Select(store, LinesOfCodeEvent, None), Select(store, LinesOfCodeAi, None))
  }

  /** A windowed query of a valid store joins only non-zero totals. */
  lemma ValidStoreWindow(store: seq<Observation>, w: Option<Window>)
    requires ValidStore(store)
    ensures NonZeroTotals(Select(store, LinesOfCodeEvent, w), Select(store, LinesOfCodeAi, w))
  {
    var totals, ai := Select(store, LinesOfCodeEvent, None), Select(store, LinesOfCodeAi, None);
    forall t, a | t in Select(store, LinesOfCodeEvent, w) && a in Select(store, LinesOfCodeAi, w) && t.ts == a.ts
      ensures t.value != 0.0
    {
      assert t in totals && a in ai;
    }
  }

  /**
   * The sample a calculator builds from the store: over the window for the
   * timeframe (`Some`), over all rows for the population (`None`).
   */
  function Sample(c: Calculator, store: seq<Observation>, w: Option<Window>): seq<real>
    requires c == CodeVolume ==> ValidStore(store)
  {
    match c
    case DirectValue(kind) => Values(Select(store, kind, w))
    case DailyCount(kind) =>
      var ts := Timestamps(Select(store, kind, w));
      if w.Some? then DailyCounts(ts, Day(w.value.lo), Day(w.value.hi))
      else PopulationDailyCounts(ts)
    case FailureRate =>
      FailureIndicators(Select(store, Deployment, w), Select(store, DeploymentFailure, w))
    case RecoveryTime =>
      PairedDurations(FailureToFix, Select(store, DeploymentFailure, w), Select(store, DeploymentFailureFix, w))
    case LeadTime =>
      PairedDurations(CommitToDeployment, Linked(Select(store, Commit, w)), Select(store, Deployment, w))
    case CodeVolume =>
      ValidStoreWindow(store, w);
      AiRatios(Select(store, LinesOfCodeEvent, w), Select(store, LinesOfCodeAi, w))
    case ReworkRate => ReworkIndicators(Select(store, Commit, w))
  }

  /** A metric's result for a window: its timeframe sample scored against its population. */
  function MetricOf(m: MetricType, store: seq<Observation>, w: Window, sqrt: real -> real): MetricResult
    requires m == AiCodeVolume ==> ValidStore(store)
  {
    var c := CalculatorFor(m);
    ZScoreMetrics(Sample(c, store, Some(w)), Sample(c, store, None), sqrt)
  }

  /** The message of the ValueError for an unknown metric name. */
  function InvalidMetricMessage(name: string): string {
    "Invalid metric type: " + name
  }

  /**
   * `calculate_metric`: a name that is not a metric value fails before
   * anything is computed; a metric value is routed to its calculator.
   */
  function CalculateMetric(store: seq<Observation>, name: string, w: Window, sqrt: real -> real): (r: Result<MetricResult, string>)
    requires ParseMetricType(name) == Some(AiCodeVolume) ==> ValidStore(store)
    ensures r.Err? <==> !IsMetricValue(name)
    ensures r.Err? ==> r.error == InvalidMetricMessage(name)
    ensures r.Ok? ==> exists m :: ParseMetricType(name) == Some(m) && name == MetricValue(m) && r.value == MetricOf(m, store, w, sqrt)
  {
    IsMetricValueParses(name);
    var parsed := ParseMetricType(name);
    if parsed.None? then Err(InvalidMetricMessage(name))
    else
      var m := parsed.value;
      ParseMetricTypeInverse(name, m);
      Ok(MetricOf(m, store, w, sqrt))
  }

  /** Every metric value is accepted, and yields that metric's result. */
  lemma CalculateMetricValue(store: seq<Observation>, m: MetricType, w: Window, sqrt: real -> real)
    requires m == AiCodeVolume ==> ValidStore(store)
    ensures ParseMetricType(MetricValue(m)) == Some(m)
      && CalculateMetric(store, MetricValue(m), w, sqrt) == Ok(MetricOf(m, store, w, sqrt))
  {
    MetricValueFound(m);
  }

  /** For a direct-value metric, every timeframe value is also a population value. */
  lemma DirectValueInPopulation(kind: ObservationType, store: seq<Observation>, w: Window)
    ensures forall x :: x in Sample(DirectValue(kind), store, Some(w)) ==> x in Sample(DirectValue(kind), store, None)
  {
    var tf, pop := Select(store, kind, Some(w)), Select(store, kind, None);
    forall x | x in Values(tf) ensures x in Values(pop) {
      var i :| 0 <= i < |tf| && Values(tf)[i] == x;
      assert tf[i] in tf;
      assert Selected(tf[i], kind, None);
      assert tf[i] in pop;
      var j :| 0 <= j < |pop| && pop[j] == tf[i];
      assert Values(pop)[j] == x;
    }
  }

  /**
   * A daily-count timeframe sample has one entry per day of the requested
   * window and adds up to the number of events in the window.
   */
  lemma DailyCountTimeframe(kind: ObservationType, store: seq<Observation>, w: Window)
    ensures |Sample(DailyCount(kind), store, Some(w))| == DaySpan(Day(w.lo), Day(w.hi))
    ensures Sum(Sample(DailyCount(kind), store, Some(w))) == |Select(store, kind, Some(w))| as real
  {
    var rows := Select(store, kind, Some(w));
    var ts := Timestamps(rows);
    forall i | 0 <= i < |ts| ensures InWindow(ts[i], w) {
      assert rows[i] in rows;
    }
    WindowDailyCounts(ts, w);
  }

  /**
   * A daily-count population is `[0.0]` when there are no events of the kind;
   * otherwise it spans the earliest to the latest event's day and adds up to
   * the number of events.
   */
  lemma DailyCountPopulation(kind: ObservationType, store: seq<Observation>)
    ensures Select(store, kind, None) == [] ==> Sample(DailyCount(kind), store, None) == [0.0]
    ensures Select(store, kind, None) != [] ==>
      var ts := Timestamps(Select(store, kind, None));
      |Sample(DailyCount(kind), store, None)| == Day(Latest(ts)) - Day(Earliest(ts)) + 1
      && Sum(Sample(DailyCount(kind), store, None)) == |ts| as real
  {
    PopulationDailyCountsShape(Timestamps(Select(store, kind, None)));
  }

  /**
   * Every recovery time in a window's sample is the minutes from a failure to
   * a fix carrying its key, both inside the window.
   */
  lemma RecoveryTimesInWindow(store: seq<Observation>, w: Window)
    ensures forall x :: x in Sample(RecoveryTime, store, Some(w)) ==>
      exists f, fix :: f in store && fix in store && f.kind == DeploymentFailure && fix.kind == DeploymentFailureFix
        && InWindow(f.ts, w) && InWindow(fix.ts, w) && Matches(FailureToFix, f, fix) && x == Minutes(f.ts, fix.ts)
  {
    var failures, fixes := Select(store, DeploymentFailure, Some(w)), Select(store, DeploymentFailureFix, Some(w));
    PairedDurationsFromPairs(FailureToFix, failures, fixes);
  }

  /**
   * Every lead time in a window's sample is the minutes from a commit to the
   * deployment it references, both inside the window.
   */
  lemma LeadTimesInWindow(store: seq<Observation>, w: Window)
    ensures forall x :: x in Sample(LeadTime, store, Some(w)) ==>
      exists c, d :: c in store && d in store && c.kind == Commit && d.kind == Deployment
        && InWindow(c.ts, w) && InWindow(d.ts, w) && c.deploymentId == Some(d.id) && x == Minutes(c.ts, d.ts)
  {
    var commits, deployments := Linked(Select(store, Commit, Some(w))), Select(store, Deployment, Some(w));
    PairedDurationsFromPairs(CommitToDeployment, commits, deployments);
  }

  /** The sample builders with the source's loops, computing what `Sample` specifies. */
  method ComputeSample(c: Calculator, store: seq<Observation>, w: Option<Window>) returns (s: seq<real>)
    requires c == CodeVolume ==> ValidStore(store)
    ensures s == Sample(c, store, w)
  {
    match c
    case DailyCount(kind) =>
      var ts := Timestamps(Select(store, kind, w));
      if w.Some? {
        s := ComputeDailyCounts(ts, Day(w.value.lo), Day(w.value.hi));
      } else if ts == [] {
        s := [0.0];
      } else {
        s := ComputeDailyCounts(ts, Day(Earliest(ts)), Day(Latest(ts)));
      }
    case FailureRate =>
      s := ComputeFailureIndicators(Select(store, Deployment, w), Select(store, DeploymentFailure, w));
    case RecoveryTime =>
      s := ComputePairedDurations(FailureToFix, Select(store, DeploymentFailure, w), Select(store, DeploymentFailureFix, w));
    case LeadTime =>
      s := ComputePairedDurations(CommitToDeployment, Linked(Select(store, Commit, w)), Select(store, Deployment, w));
    case DirectValue(_) =>
      s := Sample(c, store, w);
    case CodeVolume =>
      s := Sample(c, store, w);
    case ReworkRate =>
      s := Sample(c, store, w);
  }

  /** `calculate_metric` with the loop-built samples. */
  method ComputeMetric(store: seq<Observation>, name: string, w: Window, sqrt: real -> real) returns (r: Result<MetricResult, string>)
    requires ParseMetricType(name) == Some(AiCodeVolume) ==> ValidStore(store)
    ensures r == CalculateMetric(store, name, w, sqrt)
  {
    var parsed := ParseMetricType(name);
    if parsed.None? {
      return Err(InvalidMetricMessage(name));
    }
    var c := CalculatorFor(parsed.value);
    var timeframe := ComputeSample(c, store, Some(w));
    var population := ComputeSample(c, store, None);
    r := Ok(ZScoreMetrics(timeframe, population, sqrt));
  }
}
