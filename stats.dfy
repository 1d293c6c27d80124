/**
 * Arithmetic over samples of reals: the sums, means and variances that pandas
 * and numpy compute in the source. The square root is not modelled here; it
 * is a parameter of the members that need it.
 */
module Stats {

  /** The sum of a sample, accumulated from the front as pandas does. */
  function Sum(s: seq<real>): real {
    if s == [] then 0.0 else Sum(s[..|s| - 1]) + s[|s| - 1]
  }

  /** The arithmetic mean of a non-empty sample (pandas `Series.mean`). */
  function Mean(s: seq<real>): real
    requires |s| > 0
  {
    Sum(s) / |s| as real
  }

  /** The sum of squared deviations of a sample from a centre `c`. */
  function SquaredDeviations(s: seq<real>, c: real): (r: real)
    ensures r >= 0.0
  {
    if s == [] then 0.0
    else SquaredDeviations(s[..|s| - 1], c) + SquaredDeviation(s[|s| - 1], c)
  }

  /**
   * The squared deviation of one element from the centre: never negative,
   * and zero exactly at the centre.
   */
  function SquaredDeviation(x: real, c: real): (r: real)
    ensures r >= 0.0
    ensures r == 0.0 <==> x == c
  {
    Product(x - c, x - c)
  }

  /**
   * A product and the rule of signs. The factors are separate parameters so
   * that the solver reasons about two factors rather than about a square.
   */
  function Product(x: real, y: real): (r: real)
    ensures x > 0.0 && y > 0.0 ==> r > 0.0
    ensures x < 0.0 && y < 0.0 ==> r > 0.0
    ensures x == 0.0 ==> r == 0.0
  {
    x * y
  }

  /** The sample variance with one degree of freedom (pandas `Series.var`, the square of `Series.std`). */
  function SampleVariance(s: seq<real>): (v: real)
    requires |s| >= 2
    ensures v >= 0.0
  {
    SquaredDeviations(s, Mean(s)) / (|s| - 1) as real
  }

  /** The population variance (numpy `var`, the square of `np.std` with its default ddof of 0). */
  function PopulationVariance(s: seq<real>): (v: real)
    requires |s| > 0
    ensures v >= 0.0
  {
    SquaredDeviations(s, Mean(s)) / |s| as real
  }

  /** A part over a positive whole lies between 0 and 1. */
  lemma RatioBounds(a: real, b: real)
    requires 0.0 <= a <= b && b > 0.0
    ensures 0.0 <= a / b <= 1.0
  {
    assert a / b * b == a;
  }

  /** Every element of the sample equals `c`. */
  predicate AllEqual(s: seq<real>, c: real) {
    forall i :: 0 <= i < |s| ==> s[i] == c
  }

  /** The sample with `c` added to every element. */
  function Shift(s: seq<real>, c: real): (r: seq<real>)
    ensures |r| == |s|
    ensures forall i :: 0 <= i < |s| ==> r[i] == s[i] + c
  {
    seq(|s|, i requires 0 <= i < |s| => s[i] + c)
  }

  /** A constant sample sums to its length times the constant. */
  lemma {:induction false} SumAllEqual(s: seq<real>, c: real)
    requires AllEqual(s, c)
    ensures Sum(s) == |s| as real * c
  {
    if s != [] {
      SumAllEqual(s[..|s| - 1], c);
    }
  }

  /** The squared deviations vanish exactly when every element equals the centre. */
  lemma {:induction false} SquaredDeviationsZero(s: seq<real>, c: real)
    ensures SquaredDeviations(s, c) == 0.0 <==> AllEqual(s, c)
  {
    if s != [] {
      var init := s[..|s| - 1];
      SquaredDeviationsZero(init, c);
      if SquaredDeviations(s, c) == 0.0 {
        assert SquaredDeviation(s[|s| - 1], c) == 0.0;
        forall i | 0 <= i < |s| - 1 ensures s[i] == c {
          assert init[i] == s[i];
        }
      }
      if AllEqual(s, c) {
        assert AllEqual(init, c) by {
          forall i | 0 <= i < |init| ensures init[i] == c {
            assert init[i] == s[i];
          }
        }
      }
    }
  }

  /** The population variance of a non-empty sample is zero exactly when the sample is constant. */
  lemma PopulationVarianceZero(s: seq<real>)
    requires |s| > 0
    ensures PopulationVariance(s) == 0.0 <==> AllEqual(s, s[0])
  {
    SquaredDeviationsZero(s, Mean(s));
    if AllEqual(s, s[0]) {
      SumAllEqual(s, s[0]);
      assert Mean(s) == s[0];
    }
    if PopulationVariance(s) == 0.0 {
      assert SquaredDeviations(s, Mean(s)) == 0.0;
      assert s[0] == Mean(s);
    }
  }

  /** The sample variance of a sample of at least two values is zero exactly when the sample is constant. */
  lemma SampleVarianceZero(s: seq<real>)
    requires |s| >= 2
    ensures SampleVariance(s) == 0.0 <==> AllEqual(s, s[0])
  {
    PopulationVarianceZero(s);
    assert SampleVariance(s) * (|s| - 1) as real == PopulationVariance(s) * |s| as real;
  }

  /** Shifting every element shifts the sum by length times the shift. */
  lemma {:induction false} SumShift(s: seq<real>, c: real)
    ensures Sum(Shift(s, c)) == Sum(s) + |s| as real * c
  {
    if s != [] {
      var init := s[..|s| - 1];
      SumShift(init, c);
      assert Shift(s, c)[..|s| - 1] == Shift(init, c);
    }
  }

  /** Shifting every element shifts the mean by the same amount. */
  lemma MeanShift(s: seq<real>, c: real)
    requires |s| > 0
    ensures Mean(Shift(s, c)) == Mean(s) + c
  {
    SumShift(s, c);
  }

  /** Shifting the sample and the centre together leaves the squared deviations unchanged. */
  lemma {:induction false} SquaredDeviationsShift(s: seq<real>, m: real, c: real)
    ensures SquaredDeviations(Shift(s, c), m + c) == SquaredDeviations(s, m)
  {
    if s != [] {
      var init := s[..|s| - 1];
      SquaredDeviationsShift(init, m, c);
      assert Shift(s, c)[..|s| - 1] == Shift(init, c);
    }
  }

  /** The sample variance does not change when every element is shifted by the same amount. */
  lemma SampleVarianceShift(s: seq<real>, c: real)
    requires |s| >= 2
    ensures SampleVariance(Shift(s, c)) == SampleVariance(s)
  {
    MeanShift(s, c);
    SquaredDeviationsShift(s, Mean(s), c);
  }
}
