/**
 * The daily-count sample of DEPLOYMENT_FREQUENCY and NUMBER_OF_COMMITS: one
 * entry per calendar day of a period, holding the number of events on that
 * day, zero for days without events.
 */
module DailyCountSamples {
  import opened Stats
  import opened Observations

  /** How many of the timestamps fall on `day`. */
  function CountOnDay(ts: seq<int>, day: int): (n: nat)
    ensures n <= |ts|
    ensures n == 0 <==> forall i :: 0 <= i < |ts| ==> Day(ts[i]) != day
  {
    if ts == [] then 0
    else
      var init := ts[..|ts| - 1];
      assert forall i :: 0 <= i < |init| ==> init[i] == ts[i];
      CountOnDay(init, day) + (if Day(ts[|ts| - 1]) == day then 1 else 0)
  }

  /** The number of calendar days from `firstDay` to `lastDay`, both included (`pd.date_range`). */
  function DaySpan(firstDay: int, lastDay: int): nat {
    if lastDay < firstDay then 0 else lastDay - firstDay + 1
  }

  /**
   * The sample for the days `firstDay..lastDay`: when there are no events, a
   * zero per day; otherwise the per-day count, looked up in the grouped counts
   * with 0 for a day that has none.
   */
  function DailyCounts(ts: seq<int>, firstDay: int, lastDay: int): (r: seq<real>)
    ensures |r| == DaySpan(firstDay, lastDay)
    ensures forall k :: 0 <= k < |r| ==> r[k] == CountOnDay(ts, firstDay + k) as real
  {
    if ts == [] then seq(DaySpan(firstDay, lastDay), k => 0.0)
    else seq(DaySpan(firstDay, lastDay), k => CountOnDay(ts, firstDay + k) as real)
  }

  /** Every timestamp falls on a day of the period. */
  predicate DaysWithin(ts: seq<int>, firstDay: int, lastDay: int) {
    forall i :: 0 <= i < |ts| ==> firstDay <= Day(ts[i]) <= lastDay
  }

  /** Adding one to a single entry adds one to the sum. */
  lemma {:induction false} SumIncrementAt(s: seq<real>, t: seq<real>, j: int)
    requires |s| == |t| && 0 <= j < |s|
    requires t[j] == s[j] + 1.0
    requires forall k :: 0 <= k < |s| && k != j ==> t[k] == s[k]
    ensures Sum(t) == Sum(s) + 1.0
  {
    var n := |s|;
    if j == n - 1 {
      assert t[..n - 1] == s[..n - 1];
    } else {
      SumIncrementAt(s[..n - 1], t[..n - 1], j);
    }
  }

  /**
   * When every event falls inside the period, the daily counts add up to the
   * number of events: no event is lost or counted twice.
   */
  lemma {:induction false} DailyCountsTotal(ts: seq<int>, firstDay: int, lastDay: int)
    requires DaysWithin(ts, firstDay, lastDay)
    ensures Sum(DailyCounts(ts, firstDay, lastDay)) == |ts| as real
  {
    if ts == [] {
      SumZeros(DailyCounts(ts, firstDay, lastDay));
    } else {
      var init, x := ts[..|ts| - 1], ts[|ts| - 1];
      assert DaysWithin(init, firstDay, lastDay) by {
        forall i | 0 <= i < |init| ensures firstDay <= Day(init[i]) <= lastDay {
          assert init[i] == ts[i];
        }
      }
      DailyCountsTotal(init, firstDay, lastDay);
      var before, after := DailyCounts(init, firstDay, lastDay), DailyCounts(ts, firstDay, lastDay);
      var j := Day(x) - firstDay;
      forall k | 0 <= k < |after| && k != j ensures after[k] == before[k] {
        assert CountOnDay(ts, firstDay + k) == CountOnDay(init, firstDay + k);
      }
      SumIncrementAt(before, after, j);
    }
  }

  /** A sample of zeros sums to zero. */
  lemma {:induction false} SumZeros(s: seq<real>)
    requires forall k :: 0 <= k < |s| ==> s[k] == 0.0
    ensures Sum(s) == 0.0
  {
    if s != [] {
      SumZeros(s[..|s| - 1]);
    }
  }

  /** One more timestamp adds one to the count of its own day only. */
  lemma CountOnDayStep(ts: seq<int>, i: int, day: int)
    requires 0 <= i < |ts|
    ensures CountOnDay(ts[..i + 1], day) == CountOnDay(ts[..i], day) + (if Day(ts[i]) == day then 1 else 0)
  {
    assert ts[..i + 1][..i] == ts[..i];
  }

  /** The number of events per day (`groupby(date).size()`), 0 for a day that has none. */
  function Lookup(counts: map<int, nat>, day: int): nat {
    if day in counts then counts[day] else 0
  }

  /** The grouped-count loop: a count per day that has events. */
  method CountByDay(ts: seq<int>) returns (counts: map<int, nat>)
    ensures forall d :: Lookup(counts, d) == CountOnDay(ts, d)
  {
    counts := map[];
    var i := 0;
    while i < |ts|
      invariant 0 <= i <= |ts|
      invariant forall d :: Lookup(counts, d) == CountOnDay(ts[..i], d)
    {
      var d := Day(ts[i]);
      var next := counts[d := Lookup(counts, d) + 1];
      forall e ensures Lookup(next, e) == CountOnDay(ts[..i + 1], e) {
        CountOnDayStep(ts, i, e);
        assert Lookup(counts, e) == CountOnDay(ts[..i], e);
      }
      counts := next;
      i := i + 1;
    }
    assert ts[..i] == ts;
  }

  /**
   * The grouped counts followed by the per-day lookup loop, computing the
   * sample `DailyCounts` specifies.
   */
  method ComputeDailyCounts(ts: seq<int>, firstDay: int, lastDay: int) returns (r: seq<real>)
    ensures r == DailyCounts(ts, firstDay, lastDay)
  {
    var days := DaySpan(firstDay, lastDay);
    if |ts| == 0 {
      r := seq(days, k => 0.0);
      return;
    }
    var counts := CountByDay(ts);
    r := [];
    var k := 0;
    while k < days
      invariant 0 <= k <= days
      invariant |r| == k
      invariant forall j :: 0 <= j < k ==> r[j] == CountOnDay(ts, firstDay + j) as real
    {
      r := r + [Lookup(counts, firstDay + k) as real];
      k := k + 1;
    }
  }

  /** The earliest timestamp (`timestamp.min()`). */
  function Earliest(ts: seq<int>): (m: int)
    requires |ts| > 0
    ensures m in ts
    ensures forall i :: 0 <= i < |ts| ==> m <= ts[i]
  {
    if |ts| == 1 then ts[0]
    else
      var rest := Earliest(ts[..|ts| - 1]);
      assert forall i :: 0 <= i < |ts| - 1 ==> ts[..|ts| - 1][i] == ts[i];
      if ts[|ts| - 1] < rest then ts[|ts| - 1] else rest
  }

  /** The latest timestamp (`timestamp.max()`). */
  function Latest(ts: seq<int>): (m: int)
    requires |ts| > 0
    ensures m in ts
    ensures forall i :: 0 <= i < |ts| ==> ts[i] <= m
  {
    if |ts| == 1 then ts[0]
    else
      var rest := Latest(ts[..|ts| - 1]);
      assert forall i :: 0 <= i < |ts| - 1 ==> ts[..|ts| - 1][i] == ts[i];
      if ts[|ts| - 1] > rest then ts[|ts| - 1] else rest
  }

  /**
   * The population sample: the daily counts over the days from the earliest
   * to the latest event, or a single 0.0 when there are no events at all.
   */
  function PopulationDailyCounts(ts: seq<int>): seq<real> {
    if ts == [] then [0.0]
    else DailyCounts(ts, Day(Earliest(ts)), Day(Latest(ts)))
  }

  /**
   * The population sample is never empty. With events, it has an entry per
   * day from the earliest event's day to the latest's, and adds up to the
   * number of events.
   */
  lemma PopulationDailyCountsShape(ts: seq<int>)
    ensures ts == [] ==> PopulationDailyCounts(ts) == [0.0]
    ensures ts != [] ==> |PopulationDailyCounts(ts)| == Day(Latest(ts)) - Day(Earliest(ts)) + 1
    ensures ts != [] ==> Sum(PopulationDailyCounts(ts)) == |ts| as real
  {
    if ts != [] {
      var first, last := Day(Earliest(ts)), Day(Latest(ts));
      forall i | 0 <= i < |ts| ensures first <= Day(ts[i]) <= last {
        DayMonotone(Earliest(ts), ts[i]);
        DayMonotone(ts[i], Latest(ts));
      }
      DailyCountsTotal(ts, first, last);
    }
  }

  /**
   * The timeframe sample over an inclusive window: an entry per day from the
   * window's first day to its last, adding up to the number of events in the
   * window.
   */
  lemma WindowDailyCounts(ts: seq<int>, w: Window)
    requires forall i :: 0 <= i < |ts| ==> InWindow(ts[i], w)
    ensures |DailyCounts(ts, Day(w.lo), Day(w.hi))| == DaySpan(Day(w.lo), Day(w.hi))
    ensures Sum(DailyCounts(ts, Day(w.lo), Day(w.hi))) == |ts| as real
  {
    forall i | 0 <= i < |ts| ensures Day(w.lo) <= Day(ts[i]) <= Day(w.hi) {
      DayMonotone(w.lo, ts[i]);
      DayMonotone(ts[i], w.hi);
    }
    DailyCountsTotal(ts, Day(w.lo), Day(w.hi));
  }
}
