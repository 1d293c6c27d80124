/**
 * The interval partition shared by the metrics endpoint and the composite
 * score: a request window `[start, end]` is cut into `n` intervals of equal
 * length, every interval but the last ends one second before the next one
 * starts, and the last ends exactly at `end`.
 *
 * Instants are microseconds since the earliest representable datetime
 * (0001-01-01 00:00:00), so they are never negative. Durations are exact
 * microsecond counts; dividing one by an integer rounds to the nearest
 * microsecond, ties to even; rendering an instant as text drops its
 * fraction of a second.
 */
module Partition {
  import opened Observations

  const MicrosPerSecond: int := 1_000_000
  const MicrosPerDay: int := 86_400_000_000

  /** 9999-12-31 23:59:59.999999, the latest representable datetime. */
  const MaxInstant: int := 315_537_897_599_999_999

  predicate InRange(t: int) {
    0 <= t <= MaxInstant
  }

  /**
   * Integer division rounding to the nearest integer, ties to even (the
   * rounding of `timedelta / int`): `q` is within one half of `a / b`, and a
   * tie goes to the even neighbour.
   */
  function DivRoundHalfEven(a: int, b: int): (q: int)
    requires b > 0
    ensures 2 * a - b <= 2 * b * q <= 2 * a + b
    ensures (2 * b * q == 2 * a - b || 2 * b * q == 2 * a + b) ==> q % 2 == 0
  {
    var q0, r := a / b, a % b;
    assert 2 * b * q0 == 2 * a - 2 * r;
    if 2 * r > b || (2 * r == b && q0 % 2 == 1) then
      assert 2 * b * (q0 + 1) == 2 * a - 2 * r + 2 * b;
      q0 + 1
    else
      q0
  }

  /** An exact quotient is not rounded. */
  lemma DivRoundHalfEvenExact(q: int, b: int)
    requires b > 0
    ensures DivRoundHalfEven(b * q, b) == q
  {
    var d := DivRoundHalfEven(b * q, b);
    if d > q {
      MulMonotone(b, q + 1, d);
    } else if d < q {
      MulMonotone(b, d + 1, q);
    }
  }

  /** `timedelta.days + 1`: the number of calendar-day spans the window touches, counted the source's way. */
  function TotalDays(start: int, end: int): int {
    (end - start) / MicrosPerDay + 1
  }

  /**
   * The interval length: the window's length divided by `n`, rounded to the
   * microsecond.
   */
  function Step(start: int, end: int, n: int): int
    requires n > 0
  {
    DivRoundHalfEven(end - start, n)
  }

  /** The start of interval `i` (counted from 0). */
  function IntervalStart(start: int, end: int, n: int, i: int): int
    requires n > 0
  {
    start + Step(start, end, n) * i
  }

  /** The end of interval `i`: `end` for the last, one second before the next start otherwise. */
  function IntervalEnd(start: int, end: int, n: int, i: int): int
    requires n > 0
  {
    if i == n - 1 then end else start + Step(start, end, n) * (i + 1) - MicrosPerSecond
  }

  /** An instant rendered as text without its fraction: whole seconds. */
  function Seconds(t: int): int {
    t / MicrosPerSecond
  }

  /** An instant rendered as text and parsed back: its fraction of a second is gone. */
  function Truncate(t: int): int {
    Seconds(t) * MicrosPerSecond
  }

  /** The window, in whole seconds, that interval `i` queries and reports. */
  function IntervalWindow(start: int, end: int, n: int, i: int): Window
    requires n > 0
  {
    Window(Seconds(IntervalStart(start, end, n, i)), Seconds(IntervalEnd(start, end, n, i)))
  }

  /**
   * A request the partition accepts: both instants representable, `end` not
   * before `start`, and between 1 and `TotalDays` intervals.
   */
  predicate ValidPartition(start: int, end: int, n: int) {
    InRange(start) && InRange(end) && start <= end && 1 <= n <= TotalDays(start, end)
  }

  lemma MulMonotone(k: int, x: int, y: int)
    requires k >= 0 && x <= y
    ensures k * x <= k * y
  {
    assert k * y - k * x == k * (y - x);
  }

  /**
   * A window ending before it starts has at most zero days, so every interval
   * count of at least one is refused.
   */
  lemma EndBeforeStartRejected(start: int, end: int, n: int)
    requires end < start && n >= 1
    ensures n > TotalDays(start, end)
  {
    assert (end - start) / MicrosPerDay < 0;
  }

  /** An accepted request with `n` intervals spans at least `n - 1` whole days. */
  lemma DaysCover(start: int, end: int, n: int)
    requires ValidPartition(start, end, n)
    ensures (n - 1) * MicrosPerDay <= end - start
  {
    MulMonotone(MicrosPerDay, n - 1, (end - start) / MicrosPerDay);
  }

  /**
   * With at least two intervals the step is at least half a day (less half
   * a microsecond), so in particular at least a second.
   */
  lemma StepAtLeastHalfDay(start: int, end: int, n: int)
    requires ValidPartition(start, end, n) && n >= 2
    ensures MicrosPerDay - 1 <= 2 * Step(start, end, n)
    ensures MicrosPerSecond <= Step(start, end, n)
  {
    var d, s := end - start, Step(start, end, n);
    DaysCover(start, end, n);
    assert n * (2 * s) >= 2 * (n - 1) * MicrosPerDay - n;
    if 2 * s <= MicrosPerDay - 2 {
      MulMonotone(n, 2 * s, MicrosPerDay - 2);
      assert false;
    }
  }

  /** An accepted request has fewer intervals than `MaxInstant` has days, plus two. */
  lemma IntervalsBounded(start: int, end: int, n: int)
    requires ValidPartition(start, end, n)
    ensures n <= 3_652_060
  {
    assert (end - start) / MicrosPerDay <= MaxInstant / MicrosPerDay;
  }

  /** `n - 1` steps stay inside the window. */
  lemma StepsFit(start: int, end: int, n: int)
    requires ValidPartition(start, end, n)
    ensures Step(start, end, n) * (n - 1) <= end - start
  {
    if n >= 2 {
      var s := Step(start, end, n);
      StepAtLeastHalfDay(start, end, n);
      IntervalsBounded(start, end, n);
      // s (n - 1) = ns - s, 2ns <= 2d + n, and n <= 2s
      assert s * (n - 1) == n * s - s;
    }
  }

  /** Interval starts do not decrease, and stay inside the window. */
  lemma {:induction false} StartsOrdered(start: int, end: int, n: int, i: int, j: int)
    requires ValidPartition(start, end, n) && 0 <= i <= j < n
    ensures start <= IntervalStart(start, end, n, i) <= IntervalStart(start, end, n, j) <= end
  {
    if n >= 2 {
      var s := Step(start, end, n);
      StepAtLeastHalfDay(start, end, n);
      StepsFit(start, end, n);
      MulMonotone(s, 0, i);
      MulMonotone(s, i, j);
      MulMonotone(s, j, n - 1);
      assert s * (n - 1) == Step(start, end, n) * (n - 1);
    }
  }

  /** Dropping the fraction commutes with moving by whole seconds. */
  lemma SecondsShift(t: int, k: int)
    ensures Seconds(t + k * MicrosPerSecond) == Seconds(t) + k
  {
  }

  /**
   * Interval `i + 1` starts, in whole seconds, right after interval `i` ends:
   * consecutive intervals neither overlap nor leave a gap.
   */
  lemma Seam(start: int, end: int, n: int, i: int)
    requires n > 0 && 0 <= i < n - 1
    ensures IntervalWindow(start, end, n, i).hi + 1 == IntervalWindow(start, end, n, i + 1).lo
  {
    SecondsShift(IntervalStart(start, end, n, i + 1), -1);
  }

  /** The windows of the `n` intervals, in order. */
  function Windows(start: int, end: int, n: int): (ws: seq<Window>)
    requires n > 0
    ensures |ws| == n
  {
    seq(n, i => IntervalWindow(start, end, n, i))
  }

  /**
   * Windows that tile `[ws[0].lo, last.hi]`: each non-empty, each starting
   * right after the previous one ends.
   */
  predicate Tiling(ws: seq<Window>) {
    (forall i :: 0 <= i < |ws| ==> ws[i].lo <= ws[i].hi)
    && (forall i :: 0 <= i < |ws| - 1 ==> ws[i].hi + 1 == ws[i + 1].lo)
  }

  /**
   * The shape of an accepted partition: `n` windows, the first starting at
   * `start`'s second, the last ending at `end`'s second (`end` exactly, before
   * rendering), every window non-empty, and consecutive windows meeting with
   * no overlap and no gap.
   */
  lemma {:induction false} PartitionShape(start: int, end: int, n: int)
    requires ValidPartition(start, end, n)
    ensures IntervalStart(start, end, n, 0) == start
    ensures IntervalEnd(start, end, n, n - 1) == end
    ensures |Windows(start, end, n)| == n
    ensures Windows(start, end, n)[0].lo == Seconds(start)
    ensures Windows(start, end, n)[n - 1].hi == Seconds(end)
    ensures Tiling(Windows(start, end, n))
  {
    var ws := Windows(start, end, n);
    forall i | 0 <= i < n
      ensures ws[i].lo <= ws[i].hi
    {
      StartsOrdered(start, end, n, i, n - 1);
      if i < n - 1 {
        StepAtLeastHalfDay(start, end, n);
        var s := Step(start, end, n);
        assert IntervalEnd(start, end, n, i) == IntervalStart(start, end, n, i) + (s - MicrosPerSecond) by {
          assert s * (i + 1) == s * i + s;
        }
      }
    }
    forall i | 0 <= i < n - 1
      ensures ws[i].hi + 1 == ws[i + 1].lo
    {
      Seam(start, end, n, i);
    }
  }

  /** In a tiling, later windows start later. */
  lemma {:induction false} TilingOrdered(ws: seq<Window>, i: int, j: int)
    requires Tiling(ws) && 0 <= i < j < |ws|
    ensures ws[i].hi < ws[j].lo
  {
    if j > i + 1 {
      TilingOrdered(ws, i, j - 1);
    }
  }

  /** Every point from the first window's start to the last one's end is in exactly one window. */
  lemma {:induction false} TilingCovers(ws: seq<Window>, x: int)
    requires Tiling(ws) && |ws| > 0
    requires ws[0].lo <= x <= ws[|ws| - 1].hi
    ensures exists i :: 0 <= i < |ws| && InWindow(x, ws[i])
    ensures forall i, j :: (0 <= i < |ws| && 0 <= j < |ws| && InWindow(x, ws[i]) && InWindow(x, ws[j])) ==> i == j
  {
    var k := 0;
    while k < |ws| - 1 && ws[k + 1].lo <= x
      invariant 0 <= k < |ws|
      invariant ws[k].lo <= x
    {
      k := k + 1;
    }
    assert InWindow(x, ws[k]);
    forall i, j | 0 <= i < |ws| && 0 <= j < |ws| && InWindow(x, ws[i]) && InWindow(x, ws[j])
      ensures i == j
    {
      if i < j {
        TilingOrdered(ws, i, j);
      } else if j < i {
        TilingOrdered(ws, j, i);
      }
    }
  }

  /**
   * Every whole second from `start` to `end` falls in exactly one interval's
   * window, so each event of the request window is counted by exactly one
   * interval.
   */
  lemma PartitionCovers(start: int, end: int, n: int, second: int)
    requires ValidPartition(start, end, n)
    requires Seconds(start) <= second <= Seconds(end)
    ensures exists i :: 0 <= i < n && InWindow(second, Windows(start, end, n)[i])
    ensures forall i, j :: (0 <= i < n && 0 <= j < n && InWindow(second, Windows(start, end, n)[i])
      && InWindow(second, Windows(start, end, n)[j])) ==> i == j
  {
    PartitionShape(start, end, n);
    TilingCovers(Windows(start, end, n), second);
  }

  /**
   * Rendering both ends as text and parsing them back never lowers the day
   * count, keeps them in order and in range, so an accepted request stays
   * accepted on the truncated window.
   */
  lemma {:induction false} TruncationKeepsValidity(start: int, end: int, n: int)
    requires ValidPartition(start, end, n)
    ensures TotalDays(Truncate(start), Truncate(end)) >= TotalDays(start, end)
    ensures ValidPartition(Truncate(start), Truncate(end), n)
  {
    var a, b := Seconds(start), Seconds(end);
    var d := end - start;
    var k := d / MicrosPerDay;
    assert k >= 0;
    // d < (b - a + 1) seconds, and k days <= d
    assert d < (b - a + 1) * MicrosPerSecond;
    assert k * MicrosPerDay <= d;
    assert k * MicrosPerDay == (k * 86400) * MicrosPerSecond;
    if k * 86400 > b - a {
      MulMonotone(MicrosPerSecond, b - a + 1, k * 86400);
      assert false;
    }
    MulMonotone(MicrosPerSecond, k * 86400, b - a);
    assert Truncate(end) - Truncate(start) == (b - a) * MicrosPerSecond;
    assert k * MicrosPerDay <= Truncate(end) - Truncate(start);
    assert (Truncate(end) - Truncate(start)) / MicrosPerDay >= k;
    MulMonotone(MicrosPerSecond, a, b);
  }
}
