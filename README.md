# AI Productivity Framework — metric and CPS core in Dafny

This project models the computational core of the AI Productivity Framework service. That core covers:

- **The metric calculator.** For each of the fourteen metric types, it builds a *timeframe* sample from the observations inside a requested window. It also builds a *population* sample from all observations of that type. It then reports the timeframe mean and the timeframe mean's z-score against the population.
- **The Composite Productivity Score (CPS).** This is the weighted sum of the z-scores of several metrics. It is computed for one window, or for each of `n` equal intervals of a time range.
- **The two HTTP routes that drive them:**
  - `GET /metrics` splits and validates the requested metric names. It checks the interval count against the number of days in the range, then partitions the range and measures every metric in every interval. When there are at least two metrics and two intervals, it adds pairwise Pearson correlations across the intervals, with a textual interpretation.
  - `POST /cps` validates the range, the interval count and the metric names, then returns one CPS per interval.
- **The enumerations** of observation types and metric types, and the catalogue of metric descriptions.

## Modules

- `Wrappers` (`wrappers.dfy`): `Option` and `Result`.
- `Stats` (`stats.dfy`): sum, mean, sample variance (pandas `std`, ddof = 1) and population variance (numpy `std`, ddof = 0). Lemmas cover when a variance is zero and what shifting a series does.
- `Enums` (`enums.dfy`): `ObservationType` and `MetricType` with their wire names. It also holds name parsing, the description table and `get_all_with_descriptions`.
- `Observations` (`observations.dfy`): the observation store as a sequence of rows, and the `type = ? AND timestamp BETWEEN ? AND ?` selection.
- `DailyCountSamples`, `IndicatorSamples`, `DurationSamples`, `RatioSamples`: the per-metric sample builders. These cover daily counts, failure and rework indicators, paired durations in minutes, and AI code ratios. Each builder is a specification function. Where the source builds the sample with a Python loop (daily counts, failure indicators, paired durations), a method with that loop is proved equal to the function. The rework indicators (`fillna` on a column) and the AI code ratios (`pd.merge` and a column division) are vectorised pandas operations in the source, so they are modelled by functions alone.
- `MetricsCalculator` (`metrics_calculator.dfy`): the z-score normaliser, the dispatch table from metric type to calculator, and `calculate_metric`.
- `Partition` (`partition.dfy`): the interval arithmetic shared by both routes. This covers total days, the interval step (`timedelta / int`, rounded half-to-even), interval bounds, and whole-second truncation by `strftime`.
- `Correlations` (`correlation.dfy`): per-metric series, the pairwise correlation entries, and `interpret_correlation`.
- `CpsCalculator` (`cps_calculator.dfy`): `calculate_cps` and `calculate_cps_with_intervals`.
- `Routes` (`routes.dfy`): query parsing, validation order, error messages and status codes, and the two route handlers.

## How the model represents the source

- **Time.** Instants are integers:
  - microseconds since the start of the datetime range for the partitioner;
  - whole seconds for stored observations and interval bounds.
- **Missing pieces of the system become parameters:**
  - the database becomes a sequence of observations;
  - `calculate_metric` becomes a `MetricCalculator` function;
  - square root, `scipy.stats.pearsonr` and `round(·, 4)` become fields of `Numerics`.

  Lemmas that need the square root's defining property take `SqrtLike(sqrt)` as a precondition. `StoreCalculatorDispatches` shows that the calculator built from a store meets the `Dispatches` contract the routes rely on.

## Model

| member | source | states |
|---|---|---|
| Enums.MetricTypesComplete | models/enums.py:24-39 | there are exactly 14 metric types, every one is listed, and the list has no duplicates |
| Enums.ObservationTypesComplete | models/enums.py:8-21 | there are exactly 12 observation types, every one is listed, and the list has no duplicates |
| Enums.MetricPositions | models/enums.py:24-39 | the listing order is the declaration order |
| Enums.ObservationValueInjective | models/enums.py:8-21 | distinct observation types have distinct wire names |
| Enums.MetricValuesDistinct | models/enums.py:24-39 | distinct metric types have distinct wire names |
| Enums.FindMetric | models/enums.py:24-39 | a search from position i returns a listed metric with the given name, or None exactly when no metric from i on has that name |
| Enums.ParseMetricTypeInverse | models/enums.py:24-39 | parsing a name yields m if and only if the name is m's value |
| Enums.MetricValuesAreKnown | models/enums.py:24-39 | every metric's value parses back to that metric |
| Enums.IsMetricValueParses | api/routes.py:271 | a name is in the list of valid metric values exactly when parsing it succeeds |
| Enums.DescriptionAlwaysFound | models/enums.py:41-60 | no metric type falls through to "No description available" |
| Enums.DescriptionsOf | models/enums.py:67 | the description map has exactly the listed metrics' values as keys, each mapped to that metric's description |
| Enums.AllWithDescriptions | models/enums.py:62-68 | the catalogue lists every metric value in declaration order, and maps every metric value (and nothing else) to its description |
| Observations.Select | services/metrics_calculator.py:114-144 | the selected rows are exactly the store's rows of the requested type, and, when a window is given, with timestamp inside it (bounds inclusive) |
| Observations.SelectWindowInPopulation | services/metrics_calculator.py:134-139 | every row selected for a window is also in the population of that type |
| Observations.SelectCount | services/metrics_calculator.py:114-144 | every row that passes the filter is selected exactly as many times as it occurs in the store, and no other row is selected |
| Observations.SelectAppend | services/metrics_calculator.py:114-144 | the selection of a concatenated store is the selection of the first part followed by that of the second, so the store's order is kept |
| Observations.SelectSingle | services/metrics_calculator.py:114-144 | a single row is selected exactly when it has the requested type and, when a window is given, lies inside it |
| Observations.Linked | services/metrics_calculator.py:450-468 | the commits kept (`deployment_id IS NOT NULL`) are exactly those that carry a deployment id |
| Observations.LinkedCount | services/metrics_calculator.py:450-468 | every commit carrying a deployment id is kept exactly as many times as it occurs, and no other commit is kept |
| Observations.DayMonotone | services/metrics_calculator.py:185-213 | the calendar day of an instant is monotone in the instant |
| Stats.SampleVariance | services/metrics_calculator.py:91 | the sample variance is never negative |
| Stats.SampleVarianceZero | services/metrics_calculator.py:96-97 | the sample variance is zero exactly when all values are equal |
| Stats.PopulationVarianceZero | api/routes.py:68-78 | the population variance (ddof 0) is zero exactly when all values are equal |
| Stats.MeanShift | services/metrics_calculator.py:87-90 | adding a constant to every value adds it to the mean |
| Stats.SampleVarianceShift | services/metrics_calculator.py:91 | adding a constant to every value leaves the sample variance unchanged |
| Stats.SumShift | services/metrics_calculator.py:87-90 | the sum of a shifted series grows by the length times the shift |
| Stats.SquaredDeviation | services/metrics_calculator.py:91 | one value's squared deviation from the centre is never negative, and zero exactly when the value equals the centre |
| Stats.SquaredDeviationsZero | services/metrics_calculator.py:96-97 | the squared deviations from c are zero exactly when every value equals c |
| Stats.RatioBounds | services/metrics_calculator.py:537-550 | a ratio of a non-negative part to a positive whole lies in [0, 1] |
| MetricsCalculator.ZScoreMetrics | services/metrics_calculator.py:64-111 | an empty timeframe yields the all-zero result; otherwise the count and mean are the timeframe's, the reported mean and std are the population's (0 when undefined); a non-positive std forces a zero z-score |
| MetricsCalculator.ZScoreStandardises | services/metrics_calculator.py:99-103 | with a positive std, z-score times std equals timeframe mean minus population mean |
| MetricsCalculator.ConstantPopulationZeroScore | services/metrics_calculator.py:93-103 | a constant population has std 0 and gives z-score 0 |
| MetricsCalculator.VaryingPopulationScore | services/metrics_calculator.py:99-103 | a non-constant population of at least two values has a positive std, and the z-score is (timeframe mean minus population mean) divided by it |
| MetricsCalculator.SelfScoreZero | services/metrics_calculator.py:64-111 | a sample scored against itself has z-score 0 |
| MetricsCalculator.ZScoreShift | services/metrics_calculator.py:64-111 | shifting timeframe and population by the same constant changes neither the std nor the z-score |
| MetricsCalculator.CalculatorForInjective | services/metrics_calculator.py:43-58 | the dispatch table sends distinct metric types to distinct calculators |
| MetricsCalculator.ValidStoreWindow | services/metrics_calculator.py:537-550 | a store whose LINES_OF_CODE totals are non-zero keeps them non-zero in every selection |
| MetricsCalculator.CalculateMetric | services/metrics_calculator.py:17-61 | an unknown name fails with the "Invalid metric type" message exactly when it is not a metric value; otherwise the result is that metric's calculator over the window |
| MetricsCalculator.CalculateMetricValue | services/metrics_calculator.py:43-61 | calculating a metric by its wire name yields that metric's result |
| MetricsCalculator.DirectValueInPopulation | services/metrics_calculator.py:147-162 | every direct value in a window's sample also occurs in the population sample |
| MetricsCalculator.DailyCountTimeframe | services/metrics_calculator.py:185-213 | the timeframe daily counts have one entry per calendar day of the window and sum to the number of observations in the window |
| MetricsCalculator.DailyCountPopulation | services/metrics_calculator.py:218-225 | the population daily counts are [0] for no observations, else one entry per day from the first to the last observation, summing to the observation count |
| MetricsCalculator.RecoveryTimesInWindow | services/metrics_calculator.py:317-331 | every recovery time comes from a failure and its fix, both inside the window, and is their distance in minutes |
| MetricsCalculator.LeadTimesInWindow | services/metrics_calculator.py:478-492 | every lead time comes from a commit and the deployment it names, both inside the window, and is their distance in minutes |
| MetricsCalculator.ComputeSample | services/metrics_calculator.py:147-592 | the per-metric loops build exactly the specified sample |
| MetricsCalculator.ComputeMetric | services/metrics_calculator.py:17-61 | the imperative calculation equals the specified metric result |
| DailyCountSamples.CountOnDay | services/metrics_calculator.py:185-213 | a day's count never exceeds the number of instants, and is zero exactly when no instant falls on that day |
| DailyCountSamples.DailyCounts | services/metrics_calculator.py:185-213 | one entry per day in the span, each the count of instants on that day |
| DailyCountSamples.DailyCountsTotal | services/metrics_calculator.py:185-213 | when every instant lies within the span, the daily counts sum to the number of instants |
| DailyCountSamples.Earliest | services/metrics_calculator.py:218-225 | the earliest instant is present and no later than any other |
| DailyCountSamples.Latest | services/metrics_calculator.py:218-225 | the latest instant is present and no earlier than any other |
| DailyCountSamples.PopulationDailyCountsShape | services/metrics_calculator.py:218-225 | no instants give [0]; otherwise one entry per day from the first to the last, summing to the count |
| DailyCountSamples.WindowDailyCounts | services/metrics_calculator.py:185-213 | instants inside a window give one entry per day of the window, summing to the count |
| DailyCountSamples.CountByDay | services/metrics_calculator.py:204-205 | the day-keyed dictionary built by the loop holds, for each day, the count on that day |
| DailyCountSamples.ComputeDailyCounts | services/metrics_calculator.py:185-213 | the loop builds exactly the specified daily counts |
| IndicatorSamples.FailureIndicators | services/metrics_calculator.py:259-272 | one indicator per deployment, 1 when a failure names it and 0 otherwise |
| IndicatorSamples.FailureIndicatorsSum | services/metrics_calculator.py:259-272 | the indicators sum to the number of failed deployments |
| IndicatorSamples.FailureRate | services/metrics_calculator.py:231-278 | the mean indicator is the failed count over the deployment count and lies in [0, 1] |
| IndicatorSamples.ComputeFailureIndicators | services/metrics_calculator.py:259-272 | the loop builds exactly the specified indicators |
| IndicatorSamples.ReworkIndicators | services/metrics_calculator.py:568-586 | one flag per COMMIT row, in row order: the row's `ai_rework_commit` value, or 0 when it is null |
| IndicatorSamples.ReworkIndicatorsSum | services/metrics_calculator.py:579-586 | 0/1 flags sum to the number of reworked commits |
| IndicatorSamples.ReworkRate | services/metrics_calculator.py:559-592 | with 0/1 flags, the rework rate lies in [0, 1] |
| DurationSamples.FirstPartner | services/metrics_calculator.py:317-331 | the partner found is the first matching one, and None means no partner matches |
| DurationSamples.PairedDurationsAppend | services/metrics_calculator.py:317-331 | durations of concatenated rows are the concatenated durations |
| DurationSamples.PairedDurationsNoneMatched | services/metrics_calculator.py:317-331 | rows without a partner contribute no duration |
| DurationSamples.PairedDurationsAllMatched | services/metrics_calculator.py:478-492 | when every row has a partner there is one duration per row, the minutes to its first partner |
| DurationSamples.PairedDurationsFromPairs | services/metrics_calculator.py:317-331 | every duration is the minutes between a row and a matching partner |
| DurationSamples.ComputePairedDurations | services/metrics_calculator.py:317-331 | the nested loops build exactly the specified durations |
| RatioSamples.AiRatiosEmpty | services/metrics_calculator.py:537-550 | there are no ratios exactly when no total shares a timestamp with an AI count |
| RatioSamples.AiRatiosFromPairs | services/metrics_calculator.py:537-550 | every ratio is an AI count divided by the total with the same timestamp |
| RatioSamples.RatiosAtToPairs | services/metrics_calculator.py:543-549 | for one total row, every AI row with the same timestamp contributes its ratio |
| RatioSamples.AiRatiosToPairs | services/metrics_calculator.py:543-549 | every total row and AI row sharing a timestamp contribute their ratio to the join (the converse of AiRatiosFromPairs) |
| RatioSamples.RatiosAtCount | services/metrics_calculator.py:543 | one total row yields exactly one ratio per AI row sharing its timestamp |
| RatioSamples.AiRatiosCount | services/metrics_calculator.py:543-549 | the join yields exactly one ratio per (total row, AI row) index pair sharing a timestamp, so a timestamp repeated on both sides yields every combination, as an inner merge does |
| RatioSamples.AiRatiosBounded | services/metrics_calculator.py:537-550 | when AI counts never exceed their totals, every ratio lies in [0, 1] |
| Partition.DivRoundHalfEven | api/routes.py:311 | the quotient is the nearest integer to a/b, and ties go to the even one |
| Partition.DivRoundHalfEvenExact | api/routes.py:311 | exact divisions are returned unchanged |
| Partition.EndBeforeStartRejected | api/routes.py:299-308 | a range that ends before it starts has fewer days than any positive interval count |
| Partition.DaysCover | api/routes.py:299-308 | an accepted interval count spans no more days than the range |
| Partition.StepAtLeastHalfDay | api/routes.py:311 | with two or more intervals, the step is at least half a day and at least a second |
| Partition.IntervalsBounded | api/routes.py:299-308 | an accepted interval count is bounded by the number of days in the datetime range |
| Partition.StepsFit | api/routes.py:311-325 | n-1 steps fit inside the range |
| Partition.StartsOrdered | api/routes.py:315-325 | interval starts are ordered and lie within the range |
| Partition.SecondsShift | api/routes.py:339-344 | truncation to seconds commutes with whole-second shifts |
| Partition.Seam | api/routes.py:315-325 | each interval ends one second before the next begins |
| Partition.PartitionShape | api/routes.py:314-344 | the first interval starts at the range start, the last ends at the range end, and the windows tile the range |
| Partition.TilingOrdered | api/routes.py:315-325 | in a tiling, earlier windows end before later ones start |
| Partition.TilingCovers | api/routes.py:315-325 | every second in the range lies in exactly one window of a tiling |
| Partition.PartitionCovers | api/routes.py:314-344 | every second of the range lies in exactly one interval |
| Partition.TruncationKeepsValidity | services/cps_calculator.py:111-116 | re-parsing the whole-second bounds keeps the interval count valid |
| Correlations.StrengthLevel | api/routes.py:110-120 | the strength level is the number of thresholds (0.1, 0.3, 0.5, 0.7) that \|r\| reaches |
| Correlations.SignificanceLevel | api/routes.py:131-138 | the significance level counts the thresholds (0.01, 0.05, 0.1) that p does not fall below: p is under the bound of its level and of every weaker level, and under no other |
| Correlations.StrengthMonotone | api/routes.py:110-120 | a larger \|r\| never gives a weaker strength |
| Correlations.SignificanceMonotone | api/routes.py:131-138 | a larger p-value never gives a stronger significance |
| Correlations.InterpretMirror | api/routes.py:98-140 | negating r keeps strength and significance and flips the direction |
| Correlations.Capitalize | api/routes.py:140 | the first character is upper-cased and the rest are lower-cased |
| Correlations.CapitalizeIdempotent | api/routes.py:140 | capitalising twice is the same as once |
| Correlations.CorrelationEntry | api/routes.py:56-66 | an entry names both metrics and the sample size; fewer than three points give coefficient 0, p-value 1 and "Insufficient data" |
| Correlations.CorrelationEntryCases | api/routes.py:68-93 | a constant series gives 0, 1 and "no variance"; otherwise the rounded pearsonr values with their interpretation |
| Correlations.CorrelationEntrySymmetric | api/routes.py:45-93 | for a symmetric pearsonr, swapping the metrics swaps only the names |
| Correlations.FirstMean | api/routes.py:33-42 | the mean of the first result for the metric, or None exactly when the interval has no such result |
| Correlations.SeriesComplete | api/routes.py:33-42 | when every interval lists the metric, the series has one value per interval, each that interval's mean |
| Correlations.ExtractSeries | api/routes.py:33-42 | the loop builds exactly the specified series |
| Correlations.CompleteAligned | api/routes.py:33-54 | when every interval lists every metric, all series have equal length |
| Correlations.Row | api/routes.py:45-46 | row i pairs metric i with each later metric, in order |
| Correlations.PairsLength | api/routes.py:45-46 | the first m rows hold m(2N-m-1)/2 pairs |
| Correlations.PairsPrefix | api/routes.py:45-46 | the pairs of fewer rows are a prefix of the pairs of more rows |
| Correlations.CorrelationsCount | api/routes.py:45-46 | N metrics give N(N-1)/2 correlations |
| Correlations.PairPosition | api/routes.py:45-93 | the pair (i, j) with i < j is at position i(2N-i-1)/2 + (j-i-1) |
| Correlations.CorrelationsSampleSize | api/routes.py:50-93 | every correlation's sample size is the number of intervals |
| Correlations.CollectSeries | api/routes.py:33-42 | one series per metric, each the specified series |
| Correlations.CorrelateRow | api/routes.py:45-93 | the inner loop builds exactly the specified row |
| Correlations.CalculateCorrelations | api/routes.py:18-95 | the nested loops produce exactly the specified correlations |
| CpsCalculator.StoreCalculatorDispatches | services/metrics_calculator.py:17-61 | the store-backed calculator rejects exactly the unknown names and returns each metric's result for its wire name |
| CpsCalculator.Calculations | services/cps_calculator.py:45-75 | one calculation per requested metric, over the window |
| CpsCalculator.FirstFailure | services/cps_calculator.py:45-75 | the first failing calculation, or None exactly when all succeed |
| CpsCalculator.Combine | services/cps_calculator.py:45-75 | success exactly when every calculation succeeds, with one weighted entry per metric; otherwise the first failure's error |
| CpsCalculator.ScoreMetricsEntries | services/cps_calculator.py:45-75 | on success, each entry carries the metric, its weight, its result, and weight times z-score |
| CpsCalculator.ScoreMetricsValidity | services/cps_calculator.py:45-75 | scoring fails exactly when some metric name is invalid, with the first invalid name's message |
| CpsCalculator.CpsAppend | services/cps_calculator.py:77-80 | the CPS of concatenated entries is the sum of their CPS |
| CpsCalculator.CpsScaled | services/cps_calculator.py:77-80 | scaling every weighted z-score scales the CPS |
| CpsCalculator.SingleMetricCps | services/cps_calculator.py:12-80 | one metric of weight 1 has its own z-score as CPS |
| CpsCalculator.CpsWithoutZero | services/cps_calculator.py:77-80 | dropping an entry whose weighted z-score is 0 leaves the CPS unchanged |
| CpsCalculator.ZeroWeightContributesNothing | services/cps_calculator.py:45-80 | a zero-weight metric is still reported, but removing it leaves the CPS unchanged |
| CpsCalculator.ZeroWeightMetric | services/cps_calculator.py:45-80 | the same for a calculator: a zero-weight metric is reported and does not change the CPS |
| CpsCalculator.CpsScale | services/cps_calculator.py:45-80 | multiplying every weight by c multiplies the CPS by c |
| CpsCalculator.CompositeScore | services/cps_calculator.py:12-80 | succeeds exactly when scoring succeeds; CPS is the sum of weighted z-scores; each metric reports the original request times when given |
| CpsCalculator.ScoreWindow | services/cps_calculator.py:45-75 | the loop's total and entries equal the specified CPS and entries |
| CpsCalculator.CalculateCps | services/cps_calculator.py:12-80 | the imperative calculation equals the specified composite score |
| CpsCalculator.IntervalResults | services/cps_calculator.py:120-179 | one outcome per interval, each scored over that interval's window |
| CpsCalculator.IntervalScores | services/cps_calculator.py:83-181 | a negative interval count gives no intervals; otherwise one score per interval, numbered from 1 |
| CpsCalculator.IntervalScoresOutcome | services/cps_calculator.py:83-181 | the interval calculation fails exactly when a metric name is invalid, with the first invalid name's message |
| CpsCalculator.IntervalScoresShape | services/cps_calculator.py:120-179 | the first interval starts at the start, the last ends at the end, and each ends one second before the next begins |
| CpsCalculator.IntervalBounds | services/cps_calculator.py:121-129 | the loop's bounds are the specified interval window |
| CpsCalculator.ScoreInterval | services/cps_calculator.py:120-179 | one loop iteration yields the specified interval result |
| CpsCalculator.CalculateCpsWithIntervals | services/cps_calculator.py:83-181 | the loop produces exactly the specified interval scores |
| Routes.LeadingSpaces | api/routes.py:270 | counts the longest run of leading whitespace |
| Routes.TrailingSpaces | api/routes.py:270 | counts the longest run of trailing whitespace |
| Routes.Strip | api/routes.py:270 | the result is a slice of the input with only whitespace removed on either side, and does not itself start or end with whitespace |
| Routes.StripIdempotent | api/routes.py:270 | stripping twice is the same as once |
| Routes.Split | api/routes.py:270 | splitting on commas yields at least one part, and no part contains a comma |
| Routes.SplitJoin | api/routes.py:270 | joining the parts with commas gives back the input |
| Routes.JoinSplit | api/routes.py:270 | splitting comma-free parts joined with commas gives back the parts |
| Routes.MetricTypeList | api/routes.py:270 | one stripped name per comma-separated part |
| Routes.MetricTypeListJoin | api/routes.py:270 | stripped, comma-free names joined with commas parse back to the same names |
| Routes.InvalidNames | api/routes.py:273-278 | the names reported are exactly the requested names that are not metric values |
| Routes.InvalidNamesCount | api/routes.py:273-278 | each invalid name is reported as many times as it was requested, and a valid name never |
| Routes.InvalidNamesAppend | api/routes.py:273-278 | the names reported for two lists are those of the first followed by those of the second, so request order is kept |
| Routes.InvalidNamesSingle | api/routes.py:273-278 | a single name is reported exactly when it is not a metric value |
| Routes.InvalidNamesEmpty | api/routes.py:273-278 | no name is reported exactly when every requested name is valid |
| Routes.NatText | api/routes.py:303-307 | decimal digits, without a leading zero |
| Routes.NatTextValue | api/routes.py:303-307 | the decimal text reads back as the number |
| Routes.NamedResults | api/routes.py:330-337 | success exactly when every metric succeeds, with one named result per metric in order; otherwise the first failure's error |
| Routes.MetricsIntervals | api/routes.py:314-344 | success exactly when every metric succeeds in every interval; n intervals numbered from 1, each with its bounds and one named result per metric |
| Routes.MetricsIntervalsComplete | api/routes.py:314-344 | every interval lists every requested metric |
| Routes.MetricsReportOutcome | api/routes.py:270-308 | for a dispatching calculator, the route succeeds exactly when every name is valid and the interval count is at most the total days; invalid names are all reported; too many intervals report the count and the days |
| Routes.MetricsEndBeforeStart | api/routes.py:299-308 | with valid names, a range that ends before it starts is rejected as too many intervals |
| Routes.MetricsReportShape | api/routes.py:311-344 | n numbered intervals tiling the range, each holding every metric's result over its window |
| Routes.MetricsReportCorrelations | api/routes.py:346-349 | correlations are present exactly for at least two metrics and two intervals: N(N-1)/2 of them, each with one sample per interval |
| Routes.CalculateNamed | api/routes.py:330-337 | the inner loop yields exactly the specified named results |
| Routes.MeasureIntervals | api/routes.py:314-344 | the outer loop yields exactly the specified intervals |
| Routes.GetMetrics | api/routes.py:246-361 | the handler's result equals the specified metrics report |
| Routes.FirstInvalidIndex | api/routes.py:426-433 | the first invalid metric from a position, or None exactly when all from there are valid |
| Routes.FirstInvalidIndexAt | api/routes.py:426-433 | the first invalid position is found from any earlier starting point |
| Routes.ValidateMetrics | api/routes.py:426-433 | the validation loop finds exactly the first invalid metric |
| Routes.CompositeReportOutcome | api/routes.py:408-447 | the route succeeds exactly when the range is ordered, the interval count is at most the total days, every metric is valid, and the count is non-zero; each failure reports its own error, in the source's order |
| Routes.CompositeReportShape | api/routes.py:415-447 | a valid partition gives n numbered intervals tiling the range, each with CPS equal to its weighted z-scores' sum |
| Routes.CalculateCompositeProductivityScore | api/routes.py:364-456 | the handler's result equals the specified composite report |

## Left out

- **Database and SQL.** The database and its SQL text are replaced by a sequence of observations. The `BETWEEN` filter is modelled on integer instants. Connection handling and `get_db_connection` are not modelled.
- **Timestamp parsing.** `validate_and_normalize_timestamp` and `strptime`/`strftime` text formats are not part of this model. Requests carry instants as integers: microseconds for the route bounds, whole seconds for intervals and observations.
- **Datetime bounds.** The model has no `OverflowError` near the ends of the datetime range. It also leaves out year-9999 corner cases of interval arithmetic beyond what `ValidPartition` states.
- **Floating point.** Real arithmetic replaces IEEE doubles, so NaN and infinity do not arise. Rounding to 4 places, the square root and `scipy.stats.pearsonr` are parameters (`Numerics`), not definitions.
- Correlations.CorrelationEntry: does not model the NaN mask of the source's correlation code (`~(isnan(v1) | isnan(v2))`). Series are real and never NaN, so the mask keeps every position.
- Correlations.Series: the metric-name-keyed dictionary of series is modelled positionally, one series per requested name. A name requested twice therefore gives two equal series where the dictionary would hold one.
- **The CPS request schema.** It is not part of this model: weight bounds, a non-empty metric list, positive interval counts. The composite route is therefore modelled for every integer interval count.
  - A count of 0 reaches the service's division and surfaces as HTTP 500 (`DivisionByZero`).
  - A negative count yields no intervals.
- **Routes.Detail** gives the text of the HTTP 500 message for a division by zero as CPython words it. The model does not state the runtime's exact wording.
- **Other HTTP 500 paths** (any other unexpected exception) are not modelled. The `ValueError` path returns the calculator's message as HTTP 400.
- MetricsCalculator.ValidStore: the AI code volume ratio divides by a LINES_OF_CODE total. In the source a zero total gives an infinite or NaN ratio (pandas column division), which reals cannot hold. The model instead requires non-zero joined totals, and only where the code volume metric is computed: `Sample`, `MetricOf`, `CalculateMetric`, `ComputeSample` and `ComputeMetric` ask for `ValidStore` only for `CodeVolume` / `AI_CODE_VOLUME`. The other thirteen metrics are modelled on every store.
- CpsCalculator.StoreCalculator: the calculator bound to a store may be asked for any metric name, so it and `StoreCalculatorDispatches` require `ValidStore` of the whole store. CPS over a store with a zero LINES_OF_CODE total joined to an AI count is therefore not modelled, even when no requested metric is AI_CODE_VOLUME.
- **Row order.** `Select` keeps the store's order, and the model takes the database's row order to be insertion order. The SQL queries have no `ORDER BY`, so SQLite does not promise this order. Anything that depends on it follows the store's order in the model: the first-partner choice (`iloc[0]`) of the duration pairing, and the order of samples and ratios.
- **Other routes.** `get_observations`, the observation upload and listing routes, and the application setup are not part of this model.
- Correlations.InterpretationText: the interpretation is modelled as a datatype (`Interpretation`) whose lemmas speak about its levels and direction. The text rendering is defined, but no lemma states its wording.
- **Where the code differs from the design description** (the code is followed):
  - z-scores are not sign-inverted for "lower is better" metrics;
  - LINES_OF_CODE is a direct-value metric;
  - the timeframe of daily-count metrics spans the requested window's days;
  - MTTR and lead time require both ends of a pair inside the window;
  - results carry no minimum or maximum timestamps.
