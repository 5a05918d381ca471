/** Exact arithmetic behind the listing statistics: sums, the simple and the
    weighted mean, extremes, the population variance and the spread
    percentage, with the bounds and identities the analysis relies on. */
module Stats {

  /** `sum(xs)`. */
  function Sum(xs: seq<real>): real {
    if xs == [] then 0.0 else xs[0] + Sum(xs[1..])
  }

  /** `sum(xs) / len(xs)`, which is also what `np.mean` computes. */
  function Mean(xs: seq<real>): real
    requires |xs| > 0
  {
    Sum(xs) / |xs| as real
  }

  /** `sum(p * w for p, w in zip(ps, ws))`. */
  function Dot(ps: seq<real>, ws: seq<real>): real
    requires |ps| == |ws|
  {
    if ps == [] then 0.0 else ps[0] * ws[0] + Dot(ps[1..], ws[1..])
  }

  /** `np.average(ps, weights=ws)` for a weight sum that is not zero. */
  function WeightedMean(ps: seq<real>, ws: seq<real>): real
    requires |ps| == |ws| && Sum(ws) != 0.0
  {
    Dot(ps, ws) / Sum(ws)
  }

  function Min(xs: seq<real>): (m: real)
    requires |xs| > 0
    ensures forall i :: 0 <= i < |xs| ==> m <= xs[i]
    ensures m in xs
  {
    if |xs| == 1 then xs[0]
    else
      var rest := Min(xs[1..]);
      if xs[0] <= rest then xs[0] else rest
  }

  function Max(xs: seq<real>): (m: real)
    requires |xs| > 0
    ensures forall i :: 0 <= i < |xs| ==> xs[i] <= m
    ensures m in xs
  {
    if |xs| == 1 then xs[0]
    else
      var rest := Max(xs[1..]);
      if xs[0] >= rest then xs[0] else rest
  }

  predicate Bounded(xs: seq<real>, lo: real, hi: real) {
    forall i :: 0 <= i < |xs| ==> lo <= xs[i] <= hi
  }

  predicate NonNegative(ws: seq<real>) {
    forall i :: 0 <= i < |ws| ==> ws[i] >= 0.0
  }

  predicate AllEqual(xs: seq<real>, c: real) {
    forall i :: 0 <= i < |xs| ==> xs[i] == c
  }

  /** Sum of squared deviations from `m`. */
  function SquaredDeviation(xs: seq<real>, m: real): (r: real)
    ensures r >= 0.0
  {
    if xs == [] then 0.0
    else
      SquareNonNegative(xs[0] - m);
      (xs[0] - m) * (xs[0] - m) + SquaredDeviation(xs[1..], m)
  }

  /** The population variance `np.var(xs)`, the square of `np.std(xs)`. */
  function PopVariance(xs: seq<real>): (v: real)
    requires |xs| > 0
    ensures v >= 0.0
  {
    SquaredDeviation(xs, Mean(xs)) / |xs| as real
  }

  /** `(avg_sell - avg_buy) / avg_buy * 100`. */
  function SpreadPct(avgBuy: real, avgSell: real): real
    requires avgBuy != 0.0
  {
    (avgSell - avgBuy) / avgBuy * 100.0
  }

  // ---------------------------------------------------------------------
  // Lemmas
  // ---------------------------------------------------------------------

  lemma {:induction false} SumAppend(a: seq<real>, b: seq<real>)
    ensures Sum(a + b) == Sum(a) + Sum(b)
  {
    if a != [] {
      assert (a + b)[1..] == a[1..] + b;
      SumAppend(a[1..], b);
    } else {
      assert a + b == b;
    }
  }

  lemma {:induction false} SumNonNegative(ws: seq<real>)
    requires NonNegative(ws)
    ensures Sum(ws) >= 0.0
  {
    if ws != [] { SumNonNegative(ws[1..]); }
  }

  /** Elements between `lo` and `hi` sum to between `n * lo` and `n * hi`. */
  lemma {:induction false} SumBounds(xs: seq<real>, lo: real, hi: real)
    requires Bounded(xs, lo, hi)
    ensures |xs| as real * lo <= Sum(xs) <= |xs| as real * hi
  {
    if xs != [] {
      SumBounds(xs[1..], lo, hi);
      assert |xs| as real * lo == lo + (|xs| - 1) as real * lo;
      assert |xs| as real * hi == hi + (|xs| - 1) as real * hi;
    }
  }

  /** The mean lies between the smallest and the largest element. */
  lemma MeanBounds(xs: seq<real>)
    requires |xs| > 0
    ensures Min(xs) <= Mean(xs) <= Max(xs)
  {
    assert Bounded(xs, Min(xs), Max(xs));
    MeanBetween(xs, Min(xs), Max(xs));
  }

  lemma MeanBetween(xs: seq<real>, lo: real, hi: real)
    requires |xs| > 0 && Bounded(xs, lo, hi)
    ensures lo <= Mean(xs) <= hi
  {
    SumBounds(xs, lo, hi);
    DivBounds(Sum(xs), |xs| as real, lo, hi);
  }

  lemma DivBounds(s: real, n: real, lo: real, hi: real)
    requires n > 0.0 && n * lo <= s <= n * hi
    ensures lo <= s / n <= hi
  {
    var q := s / n;
    assert q * n == s;
    Distribute(n, q, -lo);
    Distribute(n, hi, -q);
    PositiveFactor(q - lo, n);
    PositiveFactor(hi - q, n);
  }

  lemma PositiveFactor(a: real, n: real)
    requires n > 0.0 && n * a >= 0.0
    ensures a >= 0.0
  {
  }

  lemma SquareNonNegative(d: real)
    ensures d * d >= 0.0
  {
    if d < 0.0 {
      assert d * d == (-d) * (-d);
    }
  }

  lemma Distribute(a: real, b: real, c: real)
    ensures a * (b + c) == a * b + a * c
  {
  }

  lemma WeightedTerm(p: real, w: real, lo: real, hi: real)
    requires lo <= p <= hi && w >= 0.0
    ensures lo * w <= p * w <= hi * w
  {
    assert (p - lo) * w >= 0.0;
    assert (hi - p) * w >= 0.0;
  }

  lemma {:induction false} DotBounds(ps: seq<real>, ws: seq<real>, lo: real, hi: real)
    requires |ps| == |ws| && Bounded(ps, lo, hi) && NonNegative(ws)
    ensures lo * Sum(ws) <= Dot(ps, ws) <= hi * Sum(ws)
  {
    if ps != [] {
      var rest, restW := ps[1..], ws[1..];
      assert Bounded(rest, lo, hi) && NonNegative(restW);
      DotBounds(rest, restW, lo, hi);
      AddBounds(lo, hi, ps[0], ws[0], Sum(restW), Dot(rest, restW), Sum(ws), Dot(ps, ws));
    }
  }

  /** One more weighted term keeps the weighted sum between the bounds times
      the weight sum. */
  lemma AddBounds(lo: real, hi: real, p: real, w: real, total: real, d: real, sum: real, dot: real)
    requires lo <= p <= hi && w >= 0.0 && lo * total <= d <= hi * total
    requires sum == w + total && dot == p * w + d
    ensures lo * sum <= dot <= hi * sum
  {
    WeightedTerm(p, w, lo, hi);
    Distribute(lo, w, total);
    Distribute(hi, w, total);
  }

  /** With non-negative weights, a non-zero weight sum is positive and the
      weighted mean lies between the smallest and the largest price. */
  lemma WeightedMeanBounds(ps: seq<real>, ws: seq<real>)
    requires |ps| == |ws| > 0 && NonNegative(ws) && Sum(ws) != 0.0
    ensures Sum(ws) > 0.0
    ensures Min(ps) <= WeightedMean(ps, ws) <= Max(ps)
  {
    assert Bounded(ps, Min(ps), Max(ps));
    WeightedMeanBetween(ps, ws, Min(ps), Max(ps));
  }

  lemma WeightedMeanBetween(ps: seq<real>, ws: seq<real>, lo: real, hi: real)
    requires |ps| == |ws| && NonNegative(ws) && Sum(ws) != 0.0 && Bounded(ps, lo, hi)
    ensures Sum(ws) > 0.0
    ensures lo <= WeightedMean(ps, ws) <= hi
  {
    SumNonNegative(ws);
    DotBounds(ps, ws, lo, hi);
    DivBounds(Dot(ps, ws), Sum(ws), lo, hi);
  }

  lemma {:induction false} SumConstant(xs: seq<real>, c: real)
    requires AllEqual(xs, c)
    ensures Sum(xs) == |xs| as real * c
  {
    if xs != [] {
      SumConstant(xs[1..], c);
      assert |xs| as real * c == c + (|xs| - 1) as real * c;
    }
  }

  lemma {:induction false} DotConstantWeights(ps: seq<real>, ws: seq<real>, c: real)
    requires |ps| == |ws| && AllEqual(ws, c)
    ensures Dot(ps, ws) == c * Sum(ps)
  {
    if ps != [] {
      DotConstantWeights(ps[1..], ws[1..], c);
    }
  }

  /** Equal non-zero weights make the weighted mean the simple mean. */
  lemma WeightedMeanEqualWeights(ps: seq<real>, ws: seq<real>, c: real)
    requires |ps| == |ws| > 0 && c != 0.0 && AllEqual(ws, c)
    ensures Sum(ws) != 0.0
    ensures WeightedMean(ps, ws) == Mean(ps)
  {
    var n := |ps| as real;
    SumConstant(ws, c);
    DotConstantWeights(ps, ws, c);
    CancelFactor(Sum(ps), n, c);
  }

  /** A common non-zero factor cancels from a quotient. */
  lemma CancelFactor(a: real, b: real, k: real)
    requires b != 0.0 && k != 0.0
    ensures (k * a) / (b * k) == a / b
  {
    var q := a / b;
    assert q * b == a;
    assert q * (b * k) == k * a;
  }

  /** The mean of a constant sequence is that constant. */
  lemma MeanConstant(xs: seq<real>, c: real)
    requires |xs| > 0 && AllEqual(xs, c)
    ensures Mean(xs) == c
  {
    SumConstant(xs, c);
  }

  lemma {:induction false} SquaredDeviationConstant(xs: seq<real>, c: real)
    requires AllEqual(xs, c)
    ensures SquaredDeviation(xs, c) == 0.0
  {
    if xs != [] { SquaredDeviationConstant(xs[1..], c); }
  }

  /** Equal prices have no variance, so their standard deviation is 0. */
  lemma VarianceConstant(xs: seq<real>, c: real)
    requires |xs| > 0 && AllEqual(xs, c)
    ensures PopVariance(xs) == 0.0
  {
    MeanConstant(xs, c);
    SquaredDeviationConstant(xs, c);
  }

  /** For a positive buy mean the spread has the sign of `avgSell - avgBuy`. */
  lemma SpreadSign(avgBuy: real, avgSell: real)
    requires avgBuy > 0.0
    ensures SpreadPct(avgBuy, avgSell) > 0.0 <==> avgSell > avgBuy
    ensures SpreadPct(avgBuy, avgSell) == 0.0 <==> avgSell == avgBuy
    ensures SpreadPct(avgBuy, avgSell) < 0.0 <==> avgSell < avgBuy
  {
    var q := (avgSell - avgBuy) / avgBuy;
    assert q * avgBuy == avgSell - avgBuy;
    if q > 0.0 { assert q * avgBuy > 0.0; }
    if q < 0.0 { assert q * avgBuy < 0.0; }
  }

  /** Midpoints stay within the joint bounds of their two arguments. */
  lemma MidpointBounds(a: real, b: real, lo: real, hi: real)
    requires lo <= a <= hi && lo <= b <= hi
    ensures lo <= (a + b) / 2.0 <= hi
  {
  }
}
