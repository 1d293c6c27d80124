/**
 * The AI_CODE_VOLUME sample: the inner join of LINES_OF_CODE and
 * LINES_OF_CODE_AI rows on equal timestamps, one `ai / total` ratio per
 * joined pair.
 */
module RatioSamples {
  import opened Stats
  import opened Observations

  /** Every total that is joined to an AI row is non-zero, so each ratio is defined. */
  predicate NonZeroTotals(totals: seq<Observation>, ai: seq<Observation>) {
    forall t, a :: t in totals && a in ai && t.ts == a.ts ==> t.value != 0.0
  }

  /** The ratios of one total row against the AI rows sharing its timestamp, in the AI rows' order. */
  function RatiosAt(t: Observation, ai: seq<Observation>): (r: seq<real>)
    requires NonZeroTotals([t], ai)
    ensures |r| <= |ai|
  {
    if ai == [] then []
    else
      var init, a := ai[..|ai| - 1], ai[|ai| - 1];
      assert NonZeroTotals([t], init) by {
        forall u, b | u in [t] && b in init && u.ts == b.ts ensures u.value != 0.0 {
          assert b in ai;
        }
      }
      RatiosAt(t, init) + (if a.ts == t.ts then [a.value / t.value] else [])
  }

  /** The joined ratios, total rows in order and, for each, its AI rows in order. */
  function AiRatios(totals: seq<Observation>, ai: seq<Observation>): (r: seq<real>)
    requires NonZeroTotals(totals, ai)
    ensures |r| <= |totals| * |ai|
  {
    if totals == [] then []
    else
      var init, t := totals[..|totals| - 1], totals[|totals| - 1];
      assert NonZeroTotals(init, ai) by {
        forall u, b | u in init && b in ai && u.ts == b.ts ensures u.value != 0.0 {
          assert u in totals;
        }
      }
      assert NonZeroTotals([t], ai);
      AiRatios(init, ai) + RatiosAt(t, ai)
  }

  /** Some total row and some AI row share a timestamp. */
  predicate SharedTimestamp(totals: seq<Observation>, ai: seq<Observation>) {
    exists t, a :: t in totals && a in ai && t.ts == a.ts
  }

  /** The ratios of one row are empty exactly when no AI row shares its timestamp. */
  lemma {:induction false} RatiosAtEmpty(t: Observation, ai: seq<Observation>)
    requires NonZeroTotals([t], ai)
    ensures RatiosAt(t, ai) == [] <==> !SharedTimestamp([t], ai)
  {
    if ai != [] {
      var init := ai[..|ai| - 1];
      assert NonZeroTotals([t], init) by {
        forall u, b | u in [t] && b in init && u.ts == b.ts ensures u.value != 0.0 {
          assert b in ai;
        }
      }
      RatiosAtEmpty(t, init);
      if SharedTimestamp([t], init) {
        var u, b :| u in [t] && b in init && u.ts == b.ts;
        assert b in ai;
      }
      if SharedTimestamp([t], ai) && !SharedTimestamp([t], init) {
        var u, b :| u in [t] && b in ai && u.ts == b.ts;
        assert b !in init;
        assert b == ai[|ai| - 1];
      }
    }
  }

  /** The join is empty exactly when no timestamps match. */
  lemma {:induction false} AiRatiosEmpty(totals: seq<Observation>, ai: seq<Observation>)
    requires NonZeroTotals(totals, ai)
    ensures AiRatios(totals, ai) == [] <==> !SharedTimestamp(totals, ai)
  {
    if totals != [] {
      var init, t := totals[..|totals| - 1], totals[|totals| - 1];
      assert NonZeroTotals(init, ai) by {
        forall u, b | u in init && b in ai && u.ts == b.ts ensures u.value != 0.0 {
          assert u in totals;
        }
      }
      assert NonZeroTotals([t], ai);
      AiRatiosEmpty(init, ai);
      RatiosAtEmpty(t, ai);
      if SharedTimestamp(init, ai) {
        var u, b :| u in init && b in ai && u.ts == b.ts;
        assert u in totals;
      }
      if SharedTimestamp([t], ai) {
        var u, b :| u in [t] && b in ai && u.ts == b.ts;
        assert u in totals;
      }
      if SharedTimestamp(totals, ai) && !SharedTimestamp(init, ai) {
        var u, b :| u in totals && b in ai && u.ts == b.ts;
        assert u !in init;
        assert u == t;
        assert SharedTimestamp([t], ai);
      }
    }
  }

  /** Every entry of `RatiosAt` is an AI value over the row's total, for an AI row at the same timestamp. */
  lemma {:induction false} RatiosAtFromPairs(t: Observation, ai: seq<Observation>)
    requires NonZeroTotals([t], ai)
    ensures forall x :: x in RatiosAt(t, ai) ==> exists a :: a in ai && a.ts == t.ts && x == a.value / t.value
  {
    if ai != [] {
      var init := ai[..|ai| - 1];
      assert NonZeroTotals([t], init) by {
        forall u, b | u in [t] && b in init && u.ts == b.ts ensures u.value != 0.0 {
          assert b in ai;
        }
      }
      RatiosAtFromPairs(t, init);
      forall x | x in RatiosAt(t, ai) ensures exists a :: a in ai && a.ts == t.ts && x == a.value / t.value {
        if x in RatiosAt(t, init) {
          var a :| a in init && a.ts == t.ts && x == a.value / t.value;
          assert a in ai;
        } else {
          assert ai[|ai| - 1] in ai;
        }
      }
    }
  }

  /** Every entry of the join is `ai.value / total.value` for a total and an AI row sharing a timestamp. */
  lemma {:induction false} AiRatiosFromPairs(totals: seq<Observation>, ai: seq<Observation>)
    requires NonZeroTotals(totals, ai)
    ensures forall x :: x in AiRatios(totals, ai) ==>
      exists t, a :: t in totals && a in ai && t.ts == a.ts && x == a.value / t.value
  {
    if totals != [] {
      var init, t := totals[..|totals| - 1], totals[|totals| - 1];
      assert NonZeroTotals(init, ai) by {
        forall u, b | u in init && b in ai && u.ts == b.ts ensures u.value != 0.0 {
          assert u in totals;
        }
      }
      assert NonZeroTotals([t], ai);
      AiRatiosFromPairs(init, ai);
      RatiosAtFromPairs(t, ai);
      forall x | x in AiRatios(totals, ai)
        ensures exists u, a :: u in totals && a in ai && u.ts == a.ts && x == a.value / u.value
      {
        if x in AiRatios(init, ai) {
          var u, a :| u in init && a in ai && u.ts == a.ts && x == a.value / u.value;
          assert u in totals;
        } else {
          var a :| a in ai && a.ts == t.ts && x == a.value / t.value;
          assert t in totals;
        }
      }
    }
  }

  /** Every AI row sharing the total row's timestamp contributes its ratio to `RatiosAt`. */
  lemma {:induction false} RatiosAtToPairs(t: Observation, ai: seq<Observation>)
    requires NonZeroTotals([t], ai)
    ensures forall a :: a in ai && a.ts == t.ts ==> a.value / t.value in RatiosAt(t, ai)
  {
    if ai != [] {
      var init := ai[..|ai| - 1];
      assert NonZeroTotals([t], init) by {
        forall u, b | u in [t] && b in init && u.ts == b.ts ensures u.value != 0.0 {
          assert b in ai;
        }
      }
      RatiosAtToPairs(t, init);
      forall a | a in ai && a.ts == t.ts ensures a.value / t.value in RatiosAt(t, ai) {
        if a in init {
          assert a.value / t.value in RatiosAt(t, init);
        } else {
          assert a == ai[|ai| - 1];
        }
      }
    }
  }

  /** Every total row and AI row sharing a timestamp contribute their ratio to the join. */
  lemma {:induction false} AiRatiosToPairs(totals: seq<Observation>, ai: seq<Observation>)
    requires NonZeroTotals(totals, ai)
    ensures forall t, a :: t in totals && a in ai && t.ts == a.ts ==> a.value / t.value in AiRatios(totals, ai)
  {
    if totals != [] {
      var init, t := totals[..|totals| - 1], totals[|totals| - 1];
      assert NonZeroTotals(init, ai) by {
        forall u, b | u in init && b in ai && u.ts == b.ts ensures u.value != 0.0 {
          assert u in totals;
        }
      }
      assert NonZeroTotals([t], ai);
      AiRatiosToPairs(init, ai);
      RatiosAtToPairs(t, ai);
      forall u, a | u in totals && a in ai && u.ts == a.ts ensures a.value / u.value in AiRatios(totals, ai) {
        if u in init {
          assert a.value / u.value in AiRatios(init, ai);
        } else {
          assert u == t;
          assert a.value / t.value in RatiosAt(t, ai);
        }
      }
    }
  }

  /** The index pairs `(i, j)` with total row `i` of the given index and AI row `j` sharing its timestamp. */
  function RowPairs(i: nat, t: Observation, ai: seq<Observation>): set<(nat, nat)> {
    set j: nat | j < |ai| && ai[j].ts == t.ts :: (i, j)
  }

  /** All index pairs of a total row and an AI row sharing a timestamp: the rows of the inner join. */
  function JoinPairs(totals: seq<Observation>, ai: seq<Observation>): set<(nat, nat)> {
    set i: nat, j: nat | i < |totals| && j < |ai| && totals[i].ts == ai[j].ts :: (i, j)
  }

  /** Dropping the last AI row drops at most its own index pair from a row's pairs. */
  lemma RowPairsStep(i: nat, t: Observation, ai: seq<Observation>)
    requires ai != []
    ensures RowPairs(i, t, ai) == RowPairs(i, t, ai[..|ai| - 1])
      + (if ai[|ai| - 1].ts == t.ts then {(i, |ai| - 1)} else {})
  {
    var init := ai[..|ai| - 1];
    var step: set<(nat, nat)> := if ai[|ai| - 1].ts == t.ts then {(i, |ai| - 1)} else {};
    forall p | p in RowPairs(i, t, ai) ensures p in RowPairs(i, t, init) + step {
      if p.1 < |init| {
        assert init[p.1] == ai[p.1];
      }
    }
    forall p | p in RowPairs(i, t, init) ensures p in RowPairs(i, t, ai) {
      assert init[p.1] == ai[p.1];
    }
  }

  /** `RatiosAt` has one entry per AI row sharing the total row's timestamp. */
  lemma {:induction false} RatiosAtCount(i: nat, t: Observation, ai: seq<Observation>)
    requires NonZeroTotals([t], ai)
    ensures |RatiosAt(t, ai)| == |RowPairs(i, t, ai)|
  {
    if ai != [] {
      var init := ai[..|ai| - 1];
      assert NonZeroTotals([t], init) by {
        forall u, b | u in [t] && b in init && u.ts == b.ts ensures u.value != 0.0 {
          assert b in ai;
        }
      }
      RatiosAtCount(i, t, init);
      RowPairsStep(i, t, ai);
      assert (i, |ai| - 1) !in RowPairs(i, t, init);
    }
  }

  /** Dropping the last total row drops exactly its row's pairs from the join's pairs. */
  lemma JoinPairsStep(totals: seq<Observation>, ai: seq<Observation>)
    requires totals != []
    ensures JoinPairs(totals, ai) == JoinPairs(totals[..|totals| - 1], ai) + RowPairs(|totals| - 1, totals[|totals| - 1], ai)
    ensures JoinPairs(totals[..|totals| - 1], ai) !! RowPairs(|totals| - 1, totals[|totals| - 1], ai)
  {
    var init, n := totals[..|totals| - 1], |totals| - 1;
    forall p | p in JoinPairs(totals, ai) ensures p in JoinPairs(init, ai) + RowPairs(n, totals[n], ai) {
      if p.0 < n {
        assert init[p.0] == totals[p.0];
      }
    }
    forall p | p in JoinPairs(init, ai) ensures p in JoinPairs(totals, ai) {
      assert init[p.0] == totals[p.0];
    }
  }

  /**
   * The join has one ratio per pair of a total row and an AI row sharing a
   * timestamp, so a timestamp repeated on both sides yields every combination.
   */
  lemma {:induction false} AiRatiosCount(totals: seq<Observation>, ai: seq<Observation>)
    requires NonZeroTotals(totals, ai)
    ensures |AiRatios(totals, ai)| == |JoinPairs(totals, ai)|
  {
    if totals != [] {
      var init, t := totals[..|totals| - 1], totals[|totals| - 1];
      assert NonZeroTotals(init, ai) by {
        forall u, b | u in init && b in ai && u.ts == b.ts ensures u.value != 0.0 {
          assert u in totals;
        }
      }
      assert NonZeroTotals([t], ai);
      AiRatiosCount(init, ai);
      RatiosAtCount(|totals| - 1, t, ai);
      JoinPairsStep(totals, ai);
    }
  }

  /**
   * When no AI count is negative or larger than its total, every ratio lies
   * between 0 and 1.
   */
  lemma AiRatiosBounded(totals: seq<Observation>, ai: seq<Observation>)
    requires NonZeroTotals(totals, ai)
    requires forall t, a :: t in totals && a in ai && t.ts == a.ts ==> 0.0 <= a.value <= t.value
    ensures forall x :: x in AiRatios(totals, ai) ==> 0.0 <= x <= 1.0
  {
    AiRatiosFromPairs(totals, ai);
    forall x | x in AiRatios(totals, ai) ensures 0.0 <= x <= 1.0 {
      var t, a :| t in totals && a in ai && t.ts == a.ts && x == a.value / t.value;
      RatioBounds(a.value, t.value);
    }
  }
}
