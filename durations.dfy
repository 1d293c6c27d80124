/**
 * The paired-duration samples of MEAN_TIME_TO_RECOVER (failure to fix) and
 * LEAD_TIME_FOR_CHANGES (commit to deployment): each row is matched to the
 * first partner row carrying its key, and contributes the minutes from the
 * row to that partner; rows without a partner contribute nothing.
 */
module DurationSamples {
  import opened Wrappers
  import opened Observations

  /** Which pair of observation kinds is being matched. */
  datatype Pairing = FailureToFix | CommitToDeployment

  /**
   * The key a row is matched on: a failure's `deployment_failure_id`, or its
   * own id when that is null; a commit's `deployment_id`.
   */
  function OwnKey(p: Pairing, row: Observation): Option<int> {
    match p
    case FailureToFix =>
      Some(if row.deploymentFailureId.Some? then row.deploymentFailureId.value else row.id)
    case CommitToDeployment => row.deploymentId
  }

  /** The key a partner row offers: a fix's `deployment_failure_id`, a deployment's id. */
  function PartnerKey(p: Pairing, partner: Observation): Option<int> {
    match p
    case FailureToFix => partner.deploymentFailureId
    case CommitToDeployment => Some(partner.id)
  }

  /** The partner carries the row's key (a null key matches nothing). */
  predicate Matches(p: Pairing, row: Observation, partner: Observation) {
    OwnKey(p, row).Some? && PartnerKey(p, partner) == OwnKey(p, row)
  }

  /** The first matching partner in the partners' order (`matching.iloc[0]`). */
  function FirstPartner(p: Pairing, row: Observation, partners: seq<Observation>): (r: Option<Observation>)
    ensures r.None? <==> forall k :: 0 <= k < |partners| ==> !Matches(p, row, partners[k])
    ensures r.Some? ==>
      exists k :: 0 <= k < |partners| && partners[k] == r.value && Matches(p, row, partners[k])
        && forall j :: 0 <= j < k ==> !Matches(p, row, partners[j])
  {
    if partners == [] then None
    else if Matches(p, row, partners[0]) then Some(partners[0])
    else
      var rest := FirstPartner(p, row, partners[1..]);
      assert forall k :: 0 < k < |partners| ==> partners[k] == partners[1..][k - 1];
      if rest.Some? then
        ghost var k :| 0 <= k < |partners[1..]| && partners[1..][k] == rest.value
          && Matches(p, row, partners[1..][k])
          && forall j :: 0 <= j < k ==> !Matches(p, row, partners[1..][j]);
        assert partners[k + 1] == rest.value;
        rest
      else rest
  }

  /** `(to - from).total_seconds() / 60`, with timestamps in seconds. */
  function Minutes(from: int, to: int): real {
    (to - from) as real / 60.0
  }

  /** What one row contributes: the minutes to its first partner, or nothing. */
  function DurationOf(p: Pairing, row: Observation, partners: seq<Observation>): (r: seq<real>)
    ensures |r| <= 1
  {
    match FirstPartner(p, row, partners)
    case None => []
    case Some(q) => [Minutes(row.ts, q.ts)]
  }

  /** The sample: the rows' durations in the rows' order. */
  function PairedDurations(p: Pairing, rows: seq<Observation>, partners: seq<Observation>): (r: seq<real>)
    ensures |r| <= |rows|
  {
    if rows == [] then []
    else PairedDurations(p, rows[..|rows| - 1], partners) + DurationOf(p, rows[|rows| - 1], partners)
  }

  /** The sample of a concatenation is the concatenation of the samples. */
  lemma {:induction false} PairedDurationsAppend(p: Pairing, a: seq<Observation>, b: seq<Observation>, partners: seq<Observation>)
    ensures PairedDurations(p, a + b, partners) == PairedDurations(p, a, partners) + PairedDurations(p, b, partners)
  {
    if b != [] {
      var init := b[..|b| - 1];
      assert (a + b)[..|a + b| - 1] == a + init;
      PairedDurationsAppend(p, a, init, partners);
    } else {
      assert a + b == a;
    }
  }

  /** A row has a partner. */
  predicate Paired(p: Pairing, row: Observation, partners: seq<Observation>) {
    exists k :: 0 <= k < |partners| && Matches(p, row, partners[k])
  }

  /** When no row has a partner the sample is empty. */
  lemma {:induction false} PairedDurationsNoneMatched(p: Pairing, rows: seq<Observation>, partners: seq<Observation>)
    requires forall i :: 0 <= i < |rows| ==> !Paired(p, rows[i], partners)
    ensures PairedDurations(p, rows, partners) == []
  {
    if rows != [] {
      var init := rows[..|rows| - 1];
      assert forall i :: 0 <= i < |init| ==> init[i] == rows[i];
      PairedDurationsNoneMatched(p, init, partners);
    }
  }

  /** A row with a partner contributes the minutes to its first partner. */
  lemma PartnerFound(p: Pairing, row: Observation, partners: seq<Observation>)
    requires Paired(p, row, partners)
    ensures FirstPartner(p, row, partners).Some?
    ensures DurationOf(p, row, partners) == [Minutes(row.ts, FirstPartner(p, row, partners).value.ts)]
  {
  }

  /**
   * When every row has a partner, the sample has an entry per row, and entry
   * `i` is the minutes from row `i` to its first partner.
   */
  lemma {:induction false} PairedDurationsAllMatched(p: Pairing, rows: seq<Observation>, partners: seq<Observation>)
    requires forall i :: 0 <= i < |rows| ==> Paired(p, rows[i], partners)
    ensures |PairedDurations(p, rows, partners)| == |rows|
    ensures forall i :: 0 <= i < |rows| ==>
      (FirstPartner(p, rows[i], partners).Some?
       && PairedDurations(p, rows, partners)[i] == Minutes(rows[i].ts, FirstPartner(p, rows[i], partners).value.ts))
  {
    if rows != [] {
      var init, last := rows[..|rows| - 1], rows[|rows| - 1];
      assert forall i :: 0 <= i < |init| ==> Paired(p, init[i], partners) by {
        forall i | 0 <= i < |init| ensures init[i] == rows[i] { }
      }
      PairedDurationsAllMatched(p, init, partners);
      PartnerFound(p, last, partners);
      var r, r0 := PairedDurations(p, rows, partners), PairedDurations(p, init, partners);
      assert r == r0 + DurationOf(p, last, partners);
      forall i | 0 <= i < |rows|
        ensures FirstPartner(p, rows[i], partners).Some?
        ensures r[i] == Minutes(rows[i].ts, FirstPartner(p, rows[i], partners).value.ts)
      {
        if i < |init| {
          assert rows[i] == init[i];
          assert r[i] == r0[i];
        }
      }
    }
  }

  /**
   * Every entry of the sample is the minutes from some row to a partner that
   * carries the row's key.
   */
  lemma {:induction false} PairedDurationsFromPairs(p: Pairing, rows: seq<Observation>, partners: seq<Observation>)
    ensures forall x :: x in PairedDurations(p, rows, partners) ==>
      exists row, q :: row in rows && q in partners && Matches(p, row, q) && x == Minutes(row.ts, q.ts)
  {
    if rows != [] {
      var init, last := rows[..|rows| - 1], rows[|rows| - 1];
      PairedDurationsFromPairs(p, init, partners);
      forall x | x in PairedDurations(p, rows, partners)
        ensures exists row, q :: row in rows && q in partners && Matches(p, row, q) && x == Minutes(row.ts, q.ts)
      {
        if x in PairedDurations(p, init, partners) {
          var row, q :| row in init && q in partners && Matches(p, row, q) && x == Minutes(row.ts, q.ts);
          assert row in rows;
        } else {
          var q := FirstPartner(p, last, partners).value;
          assert last in rows && q in partners && Matches(p, last, q) && x == Minutes(last.ts, q.ts);
        }
      }
    }
  }

  /** One more row extends the sample by that row's duration. */
  lemma PairedDurationsStep(p: Pairing, rows: seq<Observation>, i: int, partners: seq<Observation>)
    requires 0 <= i < |rows|
    ensures PairedDurations(p, rows[..i + 1], partners)
      == PairedDurations(p, rows[..i], partners) + DurationOf(p, rows[i], partners)
  {
    assert rows[..i + 1][..i] == rows[..i];
  }

  /** The loop over the rows that appends each matched row's duration. */
  method ComputePairedDurations(p: Pairing, rows: seq<Observation>, partners: seq<Observation>) returns (r: seq<real>)
    ensures r == PairedDurations(p, rows, partners)
  {
    r := [];
    var i := 0;
    while i < |rows|
      invariant 0 <= i <= |rows|
      invariant r == PairedDurations(p, rows[..i], partners)
    {
      PairedDurationsStep(p, rows, i, partners);
      var partner := FirstPartner(p, rows[i], partners);
      if partner.Some? {
        assert DurationOf(p, rows[i], partners) == [Minutes(rows[i].ts, partner.value.ts)];
        r := r + [Minutes(rows[i].ts, partner.value.ts)];
      } else {
        assert DurationOf(p, rows[i], partners) == [];
      }
      i := i + 1;
    }
    assert rows[..i] == rows;
  }
}
