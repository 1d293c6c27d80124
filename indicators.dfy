/**
 * The indicator samples: one 1.0/0.0 entry per deployment for
 * CHANGE_FAILURE_RATE, and one rework flag per commit for AI_REWORK_RATE.
 */
module IndicatorSamples {
  import opened Wrappers
  import opened Stats
  import opened Observations

  /** Some failure row names this deployment id (`deployment_id in failures.deployment_id.values`). */
  predicate HasFailure(failures: seq<Observation>, id: int) {
    exists f :: f in failures && f.deploymentId == Some(id)
  }

  /** 1.0 for a deployment that failed, 0.0 for one that did not. */
  function FailureIndicator(failures: seq<Observation>, deployment: Observation): real {
    if HasFailure(failures, deployment.id) then 1.0 else 0.0
  }

  /** One indicator per deployment, in the deployments' order. */
  function FailureIndicators(deployments: seq<Observation>, failures: seq<Observation>): (r: seq<real>)
    ensures |r| == |deployments|
    ensures forall i :: 0 <= i < |r| ==> r[i] == FailureIndicator(failures, deployments[i])
  {
    if deployments == [] then []
    else
      var init := deployments[..|deployments| - 1];
      assert forall i :: 0 <= i < |init| ==> init[i] == deployments[i];
      FailureIndicators(init, failures) + [FailureIndicator(failures, deployments[|deployments| - 1])]
  }

  /** The number of deployments with a failure. */
  function FailedCount(deployments: seq<Observation>, failures: seq<Observation>): (n: nat)
    ensures n <= |deployments|
  {
    if deployments == [] then 0
    else
      FailedCount(deployments[..|deployments| - 1], failures)
        + (if HasFailure(failures, deployments[|deployments| - 1].id) then 1 else 0)
  }

  /** The indicators add up to the number of failed deployments. */
  lemma {:induction false} FailureIndicatorsSum(deployments: seq<Observation>, failures: seq<Observation>)
    ensures Sum(FailureIndicators(deployments, failures)) == FailedCount(deployments, failures) as real
  {
    if deployments != [] {
      var init := deployments[..|deployments| - 1];
      FailureIndicatorsSum(init, failures);
      var r := FailureIndicators(deployments, failures);
      assert r[..|r| - 1] == FailureIndicators(init, failures);
    }
  }

  /**
   * The mean of the indicators is the change failure rate: failed deployments
   * over all deployments, a number between 0 and 1.
   */
  lemma FailureRate(deployments: seq<Observation>, failures: seq<Observation>)
    requires |deployments| > 0
    ensures Mean(FailureIndicators(deployments, failures))
      == FailedCount(deployments, failures) as real / |deployments| as real
    ensures 0.0 <= Mean(FailureIndicators(deployments, failures)) <= 1.0
  {
    FailureIndicatorsSum(deployments, failures);
    RatioBounds(FailedCount(deployments, failures) as real, |deployments| as real);
  }

  /** The loop over the deployments that appends an indicator per row. */
  method ComputeFailureIndicators(deployments: seq<Observation>, failures: seq<Observation>) returns (r: seq<real>)
    ensures r == FailureIndicators(deployments, failures)
  {
    r := [];
    var i := 0;
    while i < |deployments|
      invariant 0 <= i <= |deployments|
      invariant r == FailureIndicators(deployments[..i], failures)
    {
      assert deployments[..i + 1][..i] == deployments[..i];
      var hasFailure := exists f :: f in failures && f.deploymentId == Some(deployments[i].id);
      r := r + [if hasFailure then 1.0 else 0.0];
      i := i + 1;
    }
    assert deployments[..i] == deployments;
  }

  /** A commit's rework flag as a number: 0 when the column is null (`fillna(0)`). */
  function ReworkFlag(commit: Observation): real {
    match commit.aiReworkCommit
    case None => 0.0
    case Some(v) => v as real
  }

  /** One flag per commit, in order. */
  function ReworkIndicators(commits: seq<Observation>): (r: seq<real>)
    ensures |r| == |commits|
    ensures forall i :: 0 <= i < |r| ==> r[i] == ReworkFlag(commits[i])
  {
    seq(|commits|, i requires 0 <= i < |commits| => ReworkFlag(commits[i]))
  }

  /** The flag column holds only null, 0 or 1. */
  predicate BinaryFlags(commits: seq<Observation>) {
    forall i :: 0 <= i < |commits| ==> commits[i].aiReworkCommit in {None, Some(0), Some(1)}
  }

  /** The number of commits flagged as rework. */
  function ReworkCount(commits: seq<Observation>): (n: nat)
    ensures n <= |commits|
  {
    if commits == [] then 0
    else ReworkCount(commits[..|commits| - 1]) + (if commits[|commits| - 1].aiReworkCommit == Some(1) then 1 else 0)
  }

  /**
   * With 0/1/null flags the indicators add up to the number of rework commits,
   * so their mean is the rework rate.
   */
  lemma {:induction false} ReworkIndicatorsSum(commits: seq<Observation>)
    requires BinaryFlags(commits)
    ensures Sum(ReworkIndicators(commits)) == ReworkCount(commits) as real
  {
    if commits != [] {
      var init := commits[..|commits| - 1];
      assert BinaryFlags(init) by {
        forall i | 0 <= i < |init| ensures init[i].aiReworkCommit in {None, Some(0), Some(1)} {
          assert init[i] == commits[i];
        }
      }
      ReworkIndicatorsSum(init);
      assert ReworkIndicators(commits)[..|init|] == ReworkIndicators(init);
    }
  }

  /** With 0/1/null flags the rework rate lies between 0 and 1. */
  lemma ReworkRate(commits: seq<Observation>)
    requires BinaryFlags(commits) && |commits| > 0
    ensures 0.0 <= Mean(ReworkIndicators(commits)) <= 1.0
  {
    ReworkIndicatorsSum(commits);
    RatioBounds(ReworkCount(commits) as real, |commits| as real);
  }
}
