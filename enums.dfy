/**
 * The closed value sets of the framework (models/enums.py): the kinds of
 * observation that can be recorded and the metrics that can be computed,
 * with the human-readable description of each metric.
 */
module Enums {
  import opened Wrappers

  /** ObservationType: the twelve kinds of recorded event. */
  datatype ObservationType =
    | SatisfactionEvent
    | TeamSizeChange
    | Deployment
    | DeploymentFailure
    | DeploymentFailureFix
    | LinesOfCodeEvent
    | Commit
    | CommunicationEvent
    | PerceivedProductivityEvent
    | WorkSession
    | AiSuggestionResult
    | LinesOfCodeAi

  /** The members of ObservationType in declaration order. */
  const ObservationTypes: seq<ObservationType> := [
    SatisfactionEvent, TeamSizeChange, Deployment, DeploymentFailure,
    DeploymentFailureFix, LinesOfCodeEvent, Commit, CommunicationEvent,
    PerceivedProductivityEvent, WorkSession, AiSuggestionResult, LinesOfCodeAi
  ]

  /** The string value each ObservationType member carries. */
  function ObservationValue(o: ObservationType): string {
    match o
    case SatisfactionEvent => "SATISFACTION"
    case TeamSizeChange => "TEAM_SIZE_CHANGE"
    case Deployment => "DEPLOYMENT"
    case DeploymentFailure => "DEPLOYMENT_FAILURE"
    case DeploymentFailureFix => "DEPLOYMENT_FAILURE_FIX"
    case LinesOfCodeEvent => "LINES_OF_CODE"
    case Commit => "COMMIT"
    case CommunicationEvent => "COMMUNICATION_EVENT"
    case PerceivedProductivityEvent => "PERCEIVED_PRODUCTIVITY"
    case WorkSession => "WORK_SESSION"
    case AiSuggestionResult => "AI_SUGGESTION_RESULT"
    case LinesOfCodeAi => "LINES_OF_CODE_AI"
  }

  /** MetricType: the fourteen metrics a caller may ask for. */
  datatype MetricType =
    | Satisfaction
    | Retention
    | DeploymentFrequency
    | ChangeFailureRate
    | MeanTimeToRecover
    | LinesOfCode
    | NumberOfCommits
    | CommunicationFrequency
    | PerceivedProductivity
    | LackOfInterruptions
    | LeadTimeForChanges
    | AiAcceptanceRate
    | AiCodeVolume
    | AiReworkRate

  /** The members of MetricType in declaration order (iteration over the enum class). */
  const MetricTypes: seq<MetricType> := [
    Satisfaction, Retention, DeploymentFrequency, ChangeFailureRate,
    MeanTimeToRecover, LinesOfCode, NumberOfCommits, CommunicationFrequency,
    PerceivedProductivity, LackOfInterruptions, LeadTimeForChanges,
    AiAcceptanceRate, AiCodeVolume, AiReworkRate
  ]

  /** The string value of a metric, which is also its member name. */
  function MetricValue(m: MetricType): string {
    match m
    case Satisfaction => "SATISFACTION"
    case Retention => "RETENTION"
    case DeploymentFrequency => "DEPLOYMENT_FREQUENCY"
    case ChangeFailureRate => "CHANGE_FAILURE_RATE"
    case MeanTimeToRecover => "MEAN_TIME_TO_RECOVER"
    case LinesOfCode => "LINES_OF_CODE"
    case NumberOfCommits => "NUMBER_OF_COMMITS"
    case CommunicationFrequency => "COMMUNICATION_FREQUENCY"
    case PerceivedProductivity => "PERCEIVED_PRODUCTIVITY"
    case LackOfInterruptions => "LACK_OF_INTERRUPTIONS"
    case LeadTimeForChanges => "LEAD_TIME_FOR_CHANGES"
    case AiAcceptanceRate => "AI_ACCEPTANCE_RATE"
    case AiCodeVolume => "AI_CODE_VOLUME"
    case AiReworkRate => "AI_REWORK_RATE"
  }

  /** The first member of MetricTypes from position `i` on whose value is `s`, if any. */
  function FindMetric(s: string, i: nat): (r: Option<MetricType>)
    requires i <= |MetricTypes|
    decreases |MetricTypes| - i
    ensures r.Some? ==> MetricValue(r.value) == s
    ensures r.Some? ==> exists j :: i <= j < |MetricTypes| && MetricTypes[j] == r.value
    ensures r.None? ==> forall j :: i <= j < |MetricTypes| ==> MetricValue(MetricTypes[j]) != s
  {
    if i == |MetricTypes| then None
    else if MetricValue(MetricTypes[i]) == s then Some(MetricTypes[i])
    else FindMetric(s, i + 1)
  }

  /** `MetricType(s)`: look a metric up by its value; None stands for the ValueError. */
  function ParseMetricType(s: string): Option<MetricType> {
    FindMetric(s, 0)
  }

  /** Whether `s` is one of the metric values (`s in [mt.value for mt in MetricType]`). */
  predicate IsMetricValue(s: string) {
    exists m :: MetricValue(m) == s
  }

  /**
   * The lookup behind `MetricType.description`: a metric value looked up in a
   * table that is built on each call, with a fallback text for a value it lacks.
   */
  function DescriptionLookup(key: string): string {
    var descriptions := map[
      "SATISFACTION" := "Developer satisfaction scores",
      "RETENTION" := "Team retention rate",
      "DEPLOYMENT_FREQUENCY" := "Number of DAILY deployments",
      "CHANGE_FAILURE_RATE" := "Rate of deployment failures",
      "MEAN_TIME_TO_RECOVER" := "Average recovery time from failures (minutes)",
      "LINES_OF_CODE" := "Lines of code written",
      "NUMBER_OF_COMMITS" := "Number of commits",
      "COMMUNICATION_FREQUENCY" := "Communication event frequency",
      "PERCEIVED_PRODUCTIVITY" := "Self-reported productivity",
      "LACK_OF_INTERRUPTIONS" := "Uninterrupted work session quality",
      "LEAD_TIME_FOR_CHANGES" := "Time from commit to deployment (minutes)",
      "AI_ACCEPTANCE_RATE" := "Rate of AI suggestions accepted",
      "AI_CODE_VOLUME" := "Ratio of AI-generated code",
      "AI_REWORK_RATE" := "Rate of AI-generated code requiring rework"
    ];
    if key in descriptions then descriptions[key] else "No description available"
  }

  /** `MetricType.description`: the description of the metric's value. */
  function Description(m: MetricType): string {
    DescriptionLookup(MetricValue(m))
  }

  /** The answer of `get_all_with_descriptions`. */
  datatype MetricCatalogue = MetricCatalogue(metricTypes: seq<string>, descriptions: map<string, string>)

  /** The values of the given metrics, in order (`[mt.value for mt in ...]`). */
  function ValuesOf(ms: seq<MetricType>): (r: seq<string>)
    ensures |r| == |ms|
    ensures forall i :: 0 <= i < |ms| ==> r[i] == MetricValue(ms[i])
  {
    seq(|ms|, i requires 0 <= i < |ms| => MetricValue(ms[i]))
  }

  /** Each given metric's value mapped to its description (`{mt.value: mt.description for mt in ...}`). */
  function DescriptionsOf(ms: seq<MetricType>): (d: map<string, string>)
    ensures forall m :: m in ms ==> MetricValue(m) in d && d[MetricValue(m)] == Description(m)
    ensures forall s :: s in d ==> exists m :: m in ms && MetricValue(m) == s
  {
    map m | m in ms :: MetricValue(m) := Description(m)
  }

  /** `MetricType.get_all_with_descriptions`: the values in declaration order and a value-to-description map. */
  function AllWithDescriptions(): (c: MetricCatalogue)
    ensures |c.metricTypes| == |MetricTypes|
    ensures forall i :: 0 <= i < |MetricTypes| ==> c.metricTypes[i] == MetricValue(MetricTypes[i])
    ensures forall m :: MetricValue(m) in c.descriptions && c.descriptions[MetricValue(m)] == Description(m)
    ensures forall s :: s in c.descriptions ==> IsMetricValue(s)
  {
    MetricTypesComplete();
    MetricValuesAreKnown();
    MetricCatalogue(ValuesOf(MetricTypes), DescriptionsOf(MetricTypes))
  }

  /** Every metric appears in MetricTypes, and the table lists exactly fourteen distinct members. */
  lemma MetricTypesComplete()
    ensures |MetricTypes| == 14
    ensures forall m :: m in MetricTypes
    ensures forall i, j :: 0 <= i < j < |MetricTypes| ==> MetricTypes[i] != MetricTypes[j]
  {
    forall m ensures m in MetricTypes {
      MetricListed(m);
    }
    forall i, j | 0 <= i < j < |MetricTypes| ensures MetricTypes[i] != MetricTypes[j] {
      MetricPositions();
    }
  }

  /** The position of a metric in declaration order. */
  function Position(m: MetricType): nat {
    match m
    case Satisfaction => 0
    case Retention => 1
    case DeploymentFrequency => 2
    case ChangeFailureRate => 3
    case MeanTimeToRecover => 4
    case LinesOfCode => 5
    case NumberOfCommits => 6
    case CommunicationFrequency => 7
    case PerceivedProductivity => 8
    case LackOfInterruptions => 9
    case LeadTimeForChanges => 10
    case AiAcceptanceRate => 11
    case AiCodeVolume => 12
    case AiReworkRate => 13
  }

  /** MetricTypes lists each metric at its position. */
  lemma MetricPositions()
    ensures forall i :: 0 <= i < |MetricTypes| ==> Position(MetricTypes[i]) == i
  {
    assert Position(MetricTypes[0]) == 0 && Position(MetricTypes[1]) == 1 && Position(MetricTypes[2]) == 2;
    assert Position(MetricTypes[3]) == 3 && Position(MetricTypes[4]) == 4 && Position(MetricTypes[5]) == 5;
    assert Position(MetricTypes[6]) == 6 && Position(MetricTypes[7]) == 7 && Position(MetricTypes[8]) == 8;
    assert Position(MetricTypes[9]) == 9 && Position(MetricTypes[10]) == 10 && Position(MetricTypes[11]) == 11;
    assert Position(MetricTypes[12]) == 12 && Position(MetricTypes[13]) == 13;
  }

  /** One metric is listed in MetricTypes. */
  lemma MetricListed(m: MetricType)
    ensures m in MetricTypes
  {
    match m
    case Satisfaction => assert MetricTypes[0] == m;
    case Retention => assert MetricTypes[1] == m;
    case DeploymentFrequency => assert MetricTypes[2] == m;
    case ChangeFailureRate => assert MetricTypes[3] == m;
    case MeanTimeToRecover => assert MetricTypes[4] == m;
    case LinesOfCode => assert MetricTypes[5] == m;
    case NumberOfCommits => assert MetricTypes[6] == m;
    case CommunicationFrequency => assert MetricTypes[7] == m;
    case PerceivedProductivity => assert MetricTypes[8] == m;
    case LackOfInterruptions => assert MetricTypes[9] == m;
    case LeadTimeForChanges => assert MetricTypes[10] == m;
    case AiAcceptanceRate => assert MetricTypes[11] == m;
    case AiCodeVolume => assert MetricTypes[12] == m;
    case AiReworkRate => assert MetricTypes[13] == m;
  }

  /** Every observation kind appears in ObservationTypes, and there are exactly twelve distinct members. */
  lemma ObservationTypesComplete()
    ensures |ObservationTypes| == 12
    ensures forall o :: o in ObservationTypes
    ensures forall i, j :: 0 <= i < j < |ObservationTypes| ==> ObservationTypes[i] != ObservationTypes[j]
  {
    forall o ensures o in ObservationTypes {
      ObservationListed(o);
    }
  }

  /** One observation kind is listed in ObservationTypes. */
  lemma ObservationListed(o: ObservationType)
    ensures o in ObservationTypes
  {
    match o
    case SatisfactionEvent => assert ObservationTypes[0] == o;
    case TeamSizeChange => assert ObservationTypes[1] == o;
    case Deployment => assert ObservationTypes[2] == o;
    case DeploymentFailure => assert ObservationTypes[3] == o;
    case DeploymentFailureFix => assert ObservationTypes[4] == o;
    case LinesOfCodeEvent => assert ObservationTypes[5] == o;
    case Commit => assert ObservationTypes[6] == o;
    case CommunicationEvent => assert ObservationTypes[7] == o;
    case PerceivedProductivityEvent => assert ObservationTypes[8] == o;
    case WorkSession => assert ObservationTypes[9] == o;
    case AiSuggestionResult => assert ObservationTypes[10] == o;
    case LinesOfCodeAi => assert ObservationTypes[11] == o;
  }

  /** Distinct observation kinds carry distinct values. */
  lemma ObservationValueInjective(a: ObservationType, b: ObservationType)
    requires ObservationValue(a) == ObservationValue(b)
    ensures a == b
  {
  }

  /** Distinct metrics carry distinct values. */
  lemma MetricValueInjective(a: MetricType, b: MetricType)
    requires MetricValue(a) == MetricValue(b)
    ensures a == b
  {
  }

  /** No two metrics share a value. */
  lemma MetricValuesDistinct()
    ensures forall a, b :: MetricValue(a) == MetricValue(b) ==> a == b
  {
    forall a, b | MetricValue(a) == MetricValue(b) ensures a == b {
      MetricValueInjective(a, b);
    }
  }

  /** Every metric's value finds that metric and only it. */
  lemma MetricValuesAreKnown()
    ensures forall m :: ParseMetricType(MetricValue(m)) == Some(m)
  {
    forall m ensures ParseMetricType(MetricValue(m)) == Some(m) {
      MetricValueFound(m);
    }
  }

  /** One metric's value finds that metric. */
  lemma MetricValueFound(m: MetricType)
    ensures ParseMetricType(MetricValue(m)) == Some(m)
  {
    MetricListed(m);
    var r := FindMetric(MetricValue(m), 0);
    MetricValueInjective(r.value, m);
  }

  /** Parsing a metric value is the inverse of taking the value: ParseMetricType(s) == Some(m) iff s is m's value. */
  lemma ParseMetricTypeInverse(s: string, m: MetricType)
    ensures ParseMetricType(s) == Some(m) <==> s == MetricValue(m)
  {
    MetricValuesAreKnown();
  }

  /** A name is a metric value exactly when parsing it finds a metric. */
  lemma IsMetricValueParses(s: string)
    ensures IsMetricValue(s) <==> ParseMetricType(s).Some?
  {
    if IsMetricValue(s) {
      var m :| MetricValue(m) == s;
      MetricValueFound(m);
    }
  }

  /** Every metric has an entry in the description table, so the fallback text is never returned. */
  lemma DescriptionAlwaysFound(m: MetricType)
    ensures Description(m) != "No description available"
  {
  }
}
