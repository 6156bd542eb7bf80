/** Population statistics over a window of samples, as the filter uses
    `statistics.mean` and `statistics.pstdev`. Samples are reals; the
    standard deviation is never formed: the band test is stated on its
    square, the population variance. */
module Stats {

  /** Sum of the samples. */
  function Sum(s: seq<real>): real
  {
    if s == [] then 0.0 else s[0] + Sum(s[1..])
  }

  /** Arithmetic mean (`statistics.mean`). */
  function Mean(s: seq<real>): real
    requires |s| > 0
  {
    Sum(s) / (|s| as real)
  }

  /** Sum of the squared deviations of the samples from `m`. */
  function SquaredDeviations(s: seq<real>, m: real): (r: real)
    ensures r >= 0.0
  {
    if s == [] then 0.0
    else
      SquareNonNegative(s[0] - m);
      (s[0] - m) * (s[0] - m) + SquaredDeviations(s[1..], m)
  }

  /** Population variance (divisor n): the square of `statistics.pstdev`. */
  function PVariance(s: seq<real>): (r: real)
    requires |s| > 0
    ensures r >= 0.0
  {
    SquaredDeviations(s, Mean(s)) / (|s| as real)
  }

  /** The strict k-sigma band test `mean - k*sigma < v < mean + k*sigma`,
      squared on both sides so that no square root is needed. */
  predicate WithinBand(s: seq<real>, k: real, v: real)
    requires |s| > 0
  {
    (v - Mean(s)) * (v - Mean(s)) < k * k * PVariance(s)
  }

  // Small facts of real arithmetic. Each is proved in a context of its
  // own: the solver handles one non-linear step at a time reliably, and a
  // combination of them poorly.

  lemma MulPositive(x: real, y: real)
    requires x > 0.0 && y > 0.0
    ensures x * y > 0.0
  {
  }

  lemma MulNonNegative(x: real, y: real)
    requires x >= 0.0 && y >= 0.0
    ensures x * y >= 0.0
  {
  }

  lemma SquareOfNegation(x: real)
    ensures (-x) * (-x) == x * x
  {
  }

  lemma DifferenceOfSquares(x: real, y: real)
    ensures (x - y) * (x + y) == x * x - y * y
  {
  }

  lemma SquareNonNegative(x: real)
    ensures x * x >= 0.0
  {
    if x < 0.0 {
      MulPositive(-x, -x);
      SquareOfNegation(x);
    } else {
      MulNonNegative(x, x);
    }
  }

  lemma InsideSquare(d: real, t: real)
    requires -t < d < t
    ensures d * d < t * t
  {
    MulPositive(t - d, t + d);
    DifferenceOfSquares(t, d);
  }

  lemma OutsideSquare(d: real, t: real)
    requires 0.0 <= t <= d
    ensures t * t <= d * d
  {
    MulNonNegative(d - t, d + t);
    DifferenceOfSquares(d, t);
  }

  /** For t >= 0, the strict two-sided band -t < d < t is the squared test
      d*d < t*t. */
  lemma SquaredBand(d: real, t: real)
    requires t >= 0.0
    ensures (-t < d < t) <==> d * d < t * t
  {
    if -t < d < t {
      InsideSquare(d, t);
    } else if d >= t {
      OutsideSquare(d, t);
    } else {
      OutsideSquare(-d, t);
      SquareOfNegation(d);
    }
  }

  /** For a non-negative deviation sigma and multiplier k, the source's
      strict band around m and the squared test agree. */
  lemma BandTestSquared(m: real, sigma: real, k: real, v: real)
    requires sigma >= 0.0 && k >= 0.0
    ensures (m - sigma * k < v < m + sigma * k) <==> (v - m) * (v - m) < k * k * (sigma * sigma)
  {
    var t := sigma * k;
    MulNonNegative(sigma, k);
    assert k * k * (sigma * sigma) == t * t;
    SquaredBand(v - m, t);
  }

  /** `WithinBand` is exactly the source's test against `pstdev`: for the
      non-negative sigma with sigma squared equal to the population
      variance, the squared test holds iff the value lies strictly inside
      mean plus or minus k times sigma. */
  lemma WithinBandIsSigmaTest(s: seq<real>, k: real, v: real, sigma: real)
    requires |s| > 0 && k >= 0.0 && sigma >= 0.0 && sigma * sigma == PVariance(s)
    ensures WithinBand(s, k, v) <==> Mean(s) - sigma * k < v < Mean(s) + sigma * k
  {
    BandTestSquared(Mean(s), sigma, k, v);
  }

  lemma {:induction false} SumConstant(s: seq<real>, c: real)
    requires forall i :: 0 <= i < |s| ==> s[i] == c
    ensures Sum(s) == (|s| as real) * c
  {
    if s != [] {
      SumConstant(s[1..], c);
    }
  }

  lemma {:induction false} SquaredDeviationsConstant(s: seq<real>, c: real)
    requires forall i :: 0 <= i < |s| ==> s[i] == c
    ensures SquaredDeviations(s, c) == 0.0
  {
    if s != [] {
      SquaredDeviationsConstant(s[1..], c);
    }
  }

  /** A window with zero spread rejects every value under the strict test,
      including the value it is made of. */
  lemma ConstantWindowRejectsAll(s: seq<real>, c: real, k: real, v: real)
    requires |s| > 0 && forall i :: 0 <= i < |s| ==> s[i] == c
    ensures Mean(s) == c && PVariance(s) == 0.0
    ensures !WithinBand(s, k, v)
  {
    SumConstant(s, c);
    SquaredDeviationsConstant(s, c);
    SquareNonNegative(v - c);
  }
}
