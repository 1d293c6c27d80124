/**
 * The observation store: timestamped events of the kinds listed in
 * `Enums.ObservationType`, and the two queries the calculators run against
 * it — all observations of one kind, optionally restricted to an inclusive
 * time window (SQL `BETWEEN`).
 *
 * Timestamps are whole seconds since midnight of a fixed day, so that the
 * calendar day of a timestamp is its floor quotient by 86400.
 */
module Observations {
  import opened Wrappers
  import opened Enums

  const SecondsPerDay: int := 86400

  /** One row of the observations table. */
  datatype Observation = Observation(
    id: int,
    kind: ObservationType,
    ts: int,
    value: real,
    deploymentId: Option<int>,
    deploymentFailureId: Option<int>,
    aiReworkCommit: Option<int>)

  /** An inclusive range of timestamps, in seconds. */
  datatype Window = Window(lo: int, hi: int)

  predicate InWindow(ts: int, w: Window) {
    w.lo <= ts <= w.hi
  }

  /** The calendar day of a timestamp. */
  function Day(ts: int): int {
    ts / SecondsPerDay
  }

  /** Days never go backwards as time goes forwards. */
  lemma DayMonotone(a: int, b: int)
    requires a <= b
    ensures Day(a) <= Day(b)
  {
  }

  /** The filter of the observations query: the kind, and the window when one is given. */
  predicate Selected(o: Observation, kind: ObservationType, w: Option<Window>) {
    o.kind == kind && (w.Some? ==> InWindow(o.ts, w.value))
  }

  /**
   * `SELECT ... FROM observations WHERE type = kind [AND timestamp BETWEEN lo AND hi]`,
   * keeping the store's order.
   */
  function Select(store: seq<Observation>, kind: ObservationType, w: Option<Window>): (r: seq<Observation>)
    ensures |r| <= |store|
    ensures forall o :: o in r <==> o in store && Selected(o, kind, w)
  {
    if store == [] then []
    else
      var init, o := store[..|store| - 1], store[|store| - 1];
      assert store == init + [o];
      Select(init, kind, w) + (if Selected(o, kind, w) then [o] else [])
  }

  /** Each row that passes the filter is selected as many times as it occurs in the store; no other row is. */
  lemma {:induction false} SelectCount(store: seq<Observation>, kind: ObservationType, w: Option<Window>, o: Observation)
    ensures multiset(Select(store, kind, w))[o] == if Selected(o, kind, w) then multiset(store)[o] else 0
  {
    if store != [] {
      var init := store[..|store| - 1];
      assert store == init + [store[|store| - 1]];
      SelectCount(init, kind, w, o);
    }
  }

  /** The query distributes over concatenation of stores, so it keeps the store's order. */
  lemma {:induction false} SelectAppend(a: seq<Observation>, b: seq<Observation>, kind: ObservationType, w: Option<Window>)
    ensures Select(a + b, kind, w) == Select(a, kind, w) + Select(b, kind, w)
  {
    if b != [] {
      var init, o := b[..|b| - 1], b[|b| - 1];
      var tail := if Selected(o, kind, w) then [o] else [];
      calc {
        Select(a + b, kind, w);
        { assert (a + b)[..|a + b| - 1] == a + init && (a + b)[|a + b| - 1] == o; }
        Select(a + init, kind, w) + tail;
        { SelectAppend(a, init, kind, w); }
        Select(a, kind, w) + Select(init, kind, w) + tail;
        Select(a, kind, w) + (Select(init, kind, w) + tail);
        Select(a, kind, w) + Select(b, kind, w);
      }
    } else {
      assert a + b == a;
    }
  }

  /** A single row is kept exactly when it passes the filter. */
  lemma SelectSingle(o: Observation, kind: ObservationType, w: Option<Window>)
    ensures Select([o], kind, w) == if Selected(o, kind, w) then [o] else []
  {
    assert [o][..0] == [];
  }

  /** Narrowing to a window selects a part of what the unrestricted query selects. */
  lemma SelectWindowInPopulation(store: seq<Observation>, kind: ObservationType, w: Window)
    ensures forall o :: o in Select(store, kind, Some(w)) ==> o in Select(store, kind, None)
  {
  }

  /** The commits that reference a deployment (`deployment_id IS NOT NULL`), in order. */
  function Linked(commits: seq<Observation>): (r: seq<Observation>)
    ensures |r| <= |commits|
    ensures forall o :: o in r <==> o in commits && o.deploymentId.Some?
  {
    if commits == [] then []
    else
      var init, o := commits[..|commits| - 1], commits[|commits| - 1];
      assert commits == init + [o];
      Linked(init) + (if o.deploymentId.Some? then [o] else [])
  }

  /** Each commit that references a deployment is kept as many times as it occurs; no other row is. */
  lemma {:induction false} LinkedCount(commits: seq<Observation>, o: Observation)
    ensures multiset(Linked(commits))[o] == if o.deploymentId.Some? then multiset(commits)[o] else 0
  {
    if commits != [] {
      var init := commits[..|commits| - 1];
      assert commits == init + [commits[|commits| - 1]];
      LinkedCount(init, o);
    }
  }


  /** The `value` column of a query result. */
  function Values(rows: seq<Observation>): (r: seq<real>)
    ensures |r| == |rows|
    ensures forall i :: 0 <= i < |rows| ==> r[i] == rows[i].value
  {
    seq(|rows|, i requires 0 <= i < |rows| => rows[i].value)
  }

  /** The `timestamp` column of a query result. */
  function Timestamps(rows: seq<Observation>): (r: seq<int>)
    ensures |r| == |rows|
    ensures forall i :: 0 <= i < |rows| ==> r[i] == rows[i].ts
  {
    seq(|rows|, i requires 0 <= i < |rows| => rows[i].ts)
  }
}
