/**
 * The quantitative formula library of the FODA analysis engine
 * (class MathematicalFormulas in app/api/foda-analysis/route.ts).
 *
 * JavaScript numbers are idealised as mathematical reals. Every `reduce`
 * with an initial value of 0 is a left fold, written here as recursion on
 * the prefix without the last element, so that index i of the fold is the
 * index the source uses.
 */
module Formulas {

  // ---------------------------------------------------------------------
  // Folds
  // ---------------------------------------------------------------------

  /** values.reduce((a, b) => a + b, 0) */
  function Sum(values: seq<real>): real
  {
    if |values| == 0 then 0.0 else Sum(values[..|values| - 1]) + values[|values| - 1]
  }

  /** values.reduce((acc, val, i) => acc + val * weights[i], 0) */
  function WeightedSum(values: seq<real>, weights: seq<real>): real
    requires |values| == |weights|
  {
    if |values| == 0 then 0.0
    else
      var n := |values| - 1;
      WeightedSum(values[..n], weights[..n]) + values[n] * weights[n]
  }

  /** Σ i for i in 0..n-1: the sum of the regression's x coordinates. */
  function SumX(n: nat): real
  {
    if n == 0 then 0.0 else SumX(n - 1) + (n - 1) as real
  }

  /** Σ i*i for i in 0..n-1. */
  function SumX2(n: nat): real
  {
    if n == 0 then 0.0 else SumX2(n - 1) + ((n - 1) * (n - 1)) as real
  }

  /** Σ i * values[i]. */
  function SumXY(values: seq<real>): real
  {
    if |values| == 0 then 0.0
    else SumXY(values[..|values| - 1]) + (|values| - 1) as real * values[|values| - 1]
  }

  /** Math.pow(x, 2) */
  function Square(x: real): real
  {
    x * x
  }

  /** values.reduce((acc, val) => acc + Math.pow(val - mean, 2), 0) */
  function SumSquaredDeviations(values: seq<real>, mean: real): real
  {
    if |values| == 0 then 0.0
    else SumSquaredDeviations(values[..|values| - 1], mean) + Square(values[|values| - 1] - mean)
  }

  // ---------------------------------------------------------------------
  // The formulas
  // ---------------------------------------------------------------------

  /**
   * WMA = Σ(v_i * w_i) / Σ(w_i). The source does not guard a zero weight
   * sum (it would yield a non-finite number); here that is excluded.
   */
  function WeightedMovingAverage(values: seq<real>, weights: seq<real>): (r: real)
    requires |values| == |weights|
    requires Sum(weights) != 0.0
    ensures r * Sum(weights) == WeightedSum(values, weights)
  {
    WeightedSum(values, weights) / Sum(weights)
  }

  /** The composite index, normalised to 0..100: 100 times the weighted moving average. */
  function CompositeIndex(indicators: seq<real>, weights: seq<real>): real
    requires |indicators| == |weights|
    requires Sum(weights) != 0.0
  {
    100.0 * WeightedMovingAverage(indicators, weights)
  }

  /** With indicators in [0,1] and positive weights the composite index lies in [0,100]. */
  lemma CompositeIndexBounds(indicators: seq<real>, weights: seq<real>)
    requires |indicators| == |weights| && |indicators| > 0
    requires forall i :: 0 <= i < |weights| ==> weights[i] > 0.0
    requires forall i :: 0 <= i < |indicators| ==> 0.0 <= indicators[i] <= 1.0
    ensures Sum(weights) > 0.0
    ensures 0.0 <= CompositeIndex(indicators, weights) <= 100.0
  {
    WmaBetweenBounds(indicators, weights, 0.0, 1.0);
  }

  /** The mean μ = Σx / n used by the standard deviation. */
  function Mean(values: seq<real>): real
    requires |values| > 0
  {
    Sum(values) / |values| as real
  }

  /**
   * The population variance Σ(x - μ)^2 / n: standardDeviation without the
   * final square root.
   */
  function Variance(values: seq<real>): (r: real)
    requires |values| > 0
    ensures r >= 0.0
  {
    SumSquaredDeviationsNonNegative(values, Mean(values));
    SumSquaredDeviations(values, Mean(values)) / |values| as real
  }

  /** A fitted line y = slope * x + intercept. */
  datatype Line = Line(slope: real, intercept: real)

  /**
   * Ordinary least squares of values[i] against i:
   *   slope     = (n Σxy - Σx Σy) / (n Σx² - (Σx)²)
   *   intercept = (Σy - slope Σx) / n
   * With fewer than two points the source divides 0 by 0; the model
   * requires two.
   */
  function LinearTrend(values: seq<real>): (line: Line)
    requires |values| >= 2
  {
    TrendDenominatorPositive(|values|);
    LeastSquares(|values| as real, SumX(|values|), Sum(values), SumXY(values), SumX2(|values|))
  }

  /** The closing step of the regression, from the four sums. */
  function LeastSquares(n: real, sumX: real, sumY: real, sumXY: real, sumX2: real): (r: Line)
    requires n > 0.0
    requires n * sumX2 - sumX * sumX != 0.0
    ensures r.slope * sumX + n * r.intercept == sumY
  {
    var slope := (n * sumXY - sumX * sumY) / (n * sumX2 - sumX * sumX);
    var intercept := (sumY - slope * sumX) / n;
    assert n * intercept == sumY - slope * sumX;
    Line(slope, intercept)
  }

  /** RC = (S + O) / (W + T), defined when W + T is not zero. */
  function CompetitivenessRatio(strengths: real, opportunities: real,
                                weaknesses: real, threats: real): (r: real)
    requires weaknesses + threats != 0.0
    ensures r * (weaknesses + threats) == strengths + opportunities
    ensures weaknesses + threats > 0.0 ==> (r >= 1.0 <==> strengths + opportunities >= weaknesses + threats)
  {
    QuotientAtLeastOne(strengths + opportunities, weaknesses + threats);
    (strengths + opportunities) / (weaknesses + threats)
  }

  /** x^n for a natural exponent, as Math.pow(x, n) with n = 3 or 5. */
  function Pow(x: real, n: nat): real
  {
    if n == 0 then 1.0 else x * Pow(x, n - 1)
  }

  /**
   * What calculateCAGR(initial, final, years) returns, for positive
   * initial and final values: the growth rate g > -1 with
   * initial * (1 + g)^years == final. The model takes g as an input and
   * this predicate says when it is the genuine one.
   */
  ghost predicate IsCompoundGrowthRate(g: real, initial: real, final: real, years: nat)
  {
    g > -1.0 && initial * Pow(1.0 + g, years) == final
  }

  /** What the model needs of Math.exp: exp(0) = 1, and it is positive and strictly increasing. */
  ghost predicate ExpLike(exp: real -> real)
  {
    && exp(0.0) == 1.0
    && forall x, y :: x < y ==> 0.0 < exp(x) < exp(y)
  }

  /**
   * P(t) = P0 * e^(r t), with e^x supplied as `exp`: a zero rate keeps the
   * value, and a positive value grows with a positive rate and shrinks
   * with a negative one.
   */
  function ExponentialProjection(current: real, rate: real, years: real, exp: real -> real): (r: real)
    ensures ExpLike(exp) && rate == 0.0 ==> r == current
    ensures ExpLike(exp) && current > 0.0 && years > 0.0 && rate > 0.0 ==> r > current
    ensures ExpLike(exp) && current > 0.0 && years > 0.0 && rate < 0.0 ==> r < current
  {
    ExpScales(current, rate * years, exp);
    current * exp(rate * years)
  }

  // ---------------------------------------------------------------------
  // Lemmas: weighted moving average
  // ---------------------------------------------------------------------

  lemma {:induction false} SumOfPositivesIsPositive(weights: seq<real>)
    requires |weights| > 0
    requires forall i :: 0 <= i < |weights| ==> weights[i] > 0.0
    ensures Sum(weights) > 0.0
  {
    var n := |weights|;
    if n > 1 {
      SumOfPositivesIsPositive(weights[..n - 1]);
    }
  }

  lemma {:induction false} WeightedSumBetweenBounds(values: seq<real>, weights: seq<real>, lo: real, hi: real)
    requires |values| == |weights|
    requires forall i :: 0 <= i < |weights| ==> weights[i] > 0.0
    requires forall i :: 0 <= i < |values| ==> lo <= values[i] <= hi
    ensures lo * Sum(weights) <= WeightedSum(values, weights) <= hi * Sum(weights)
  {
    var n := |values|;
    if n > 0 {
      var vs, ws := values[..n - 1], weights[..n - 1];
      assert forall i :: 0 <= i < |ws| ==> ws[i] == weights[i];
      assert forall i :: 0 <= i < |vs| ==> vs[i] == values[i];
      WeightedSumBetweenBounds(vs, ws, lo, hi);
      WeightedSumStep(values, weights);
      StepBounds(lo, hi, Sum(ws), WeightedSum(vs, ws), values[n - 1], weights[n - 1],
                 Sum(weights), WeightedSum(values, weights));
    }
  }

  /** One unfolding of the two folds, at the last element. */
  lemma WeightedSumStep(values: seq<real>, weights: seq<real>)
    requires |values| == |weights| > 0
    ensures var n := |values| - 1;
      && Sum(weights) == Sum(weights[..n]) + weights[n]
      && WeightedSum(values, weights) == WeightedSum(values[..n], weights[..n]) + values[n] * weights[n]
  {
  }

  /** Adding v·w, with v in [lo, hi] and w > 0, to a weighted sum keeps it between lo and hi times the weight sum. */
  lemma StepBounds(lo: real, hi: real, s0: real, p0: real, v: real, w: real, s1: real, p1: real)
    requires s1 == s0 + w && p1 == p0 + v * w
    requires lo * s0 <= p0 <= hi * s0
    requires lo <= v <= hi && w > 0.0
    ensures lo * s1 <= p1 <= hi * s1
  {
    MulMonotone(lo, v, w);
    MulMonotone(v, hi, w);
    assert lo * s1 == lo * s0 + lo * w;
    assert hi * s1 == hi * s0 + hi * w;
  }

  lemma MulMonotone(a: real, b: real, c: real)
    requires a <= b && c >= 0.0
    ensures a * c <= b * c
  {
    assert b * c - a * c == (b - a) * c;
  }

  lemma StrictScale(c: real, a: real, b: real)
    requires c > 0.0 && a < b
    ensures c * a < c * b
  {
    assert c * b - c * a == c * (b - a);
  }

  /** A quotient with a positive denominator lies between lo and hi when the numerator lies between lo and hi times it. */
  lemma DivBetween(num: real, den: real, lo: real, hi: real)
    requires den > 0.0
    requires lo * den <= num <= hi * den
    ensures lo <= num / den <= hi
  {
    var q := num / den;
    assert q * den == num;
    if q < lo {
      StrictScale(den, q, lo);
      assert false;
    }
    if hi < q {
      StrictScale(den, hi, q);
      assert false;
    }
  }

  /** With a positive denominator, a quotient is at least 1 exactly when the numerator is at least the denominator. */
  lemma QuotientAtLeastOne(num: real, den: real)
    requires den != 0.0
    ensures den > 0.0 ==> (num / den >= 1.0 <==> num >= den)
  {
    var q := num / den;
    assert q * den == num;
    if den > 0.0 {
      if q >= 1.0 {
        MulMonotone(1.0, q, den);
      } else {
        StrictScale(den, q, 1.0);
      }
    }
  }

  /** A positive value times exp(x) keeps, raises or lowers it as x is zero, positive or negative. */
  lemma ExpScales(current: real, x: real, exp: real -> real)
    ensures ExpLike(exp) && x == 0.0 ==> current * exp(x) == current
    ensures ExpLike(exp) && current > 0.0 && x > 0.0 ==> current * exp(x) > current
    ensures ExpLike(exp) && current > 0.0 && x < 0.0 ==> current * exp(x) < current
  {
    if ExpLike(exp) && current > 0.0 {
      if x > 0.0 {
        StrictScale(current, 1.0, exp(x));
      } else if x < 0.0 {
        StrictScale(current, exp(x), 1.0);
      }
    }
  }

  /**
   * With positive weights, every lower bound of the values is a lower
   * bound of the average, and every upper bound an upper bound: the
   * average lies between the smallest and the largest value.
   */
  lemma WmaBetweenBounds(values: seq<real>, weights: seq<real>, lo: real, hi: real)
    requires |values| == |weights| && |values| > 0
    requires forall i :: 0 <= i < |weights| ==> weights[i] > 0.0
    requires forall i :: 0 <= i < |values| ==> lo <= values[i] <= hi
    ensures Sum(weights) > 0.0
    ensures lo <= WeightedMovingAverage(values, weights) <= hi
  {
    SumOfPositivesIsPositive(weights);
    WeightedSumBetweenBounds(values, weights, lo, hi);
    DivBetween(WeightedSum(values, weights), Sum(weights), lo, hi);
  }

  lemma {:induction false} WeightedSumOfConstantWeights(values: seq<real>, weights: seq<real>, c: real)
    requires |values| == |weights|
    requires forall i :: 0 <= i < |weights| ==> weights[i] == c
    ensures WeightedSum(values, weights) == c * Sum(values)
    ensures Sum(weights) == |weights| as real * c
  {
    var n := |values|;
    if n > 0 {
      WeightedSumOfConstantWeights(values[..n - 1], weights[..n - 1], c);
    }
  }

  /** With equal non-zero weights the weighted average is the arithmetic mean. */
  lemma WmaOfEqualWeightsIsMean(values: seq<real>, weights: seq<real>, c: real)
    requires |values| == |weights| && |values| > 0
    requires c != 0.0
    requires forall i :: 0 <= i < |weights| ==> weights[i] == c
    ensures Sum(weights) != 0.0
    ensures WeightedMovingAverage(values, weights) == Mean(values)
  {
    var total, n := Sum(values), |values| as real;
    WeightedSumOfConstantWeights(values, weights, c);
    assert WeightedSum(values, weights) == c * total;
    assert Sum(weights) == n * c;
    CancelFactor(total, n, c);
    assert WeightedMovingAverage(values, weights) == (c * total) / (n * c);
  }

  /** (c·x) / (n·c) = x / n for non-zero c and n. */
  lemma CancelFactor(x: real, n: real, c: real)
    requires n != 0.0 && c != 0.0
    ensures n * c != 0.0
    ensures (c * x) / (n * c) == x / n
  {
    var q := x / n;
    assert q * n == x;
    assert c * x == q * (n * c);
  }

  // ---------------------------------------------------------------------
  // Lemmas: linear trend
  // ---------------------------------------------------------------------

  lemma {:induction false} SumXClosedForm(n: nat)
    ensures SumX(n) == (n as real) * (n as real - 1.0) / 2.0
  {
    if n > 0 {
      SumXClosedForm(n - 1);
    }
  }

  lemma {:induction false} SumX2ClosedForm(n: nat)
    ensures SumX2(n) == (n as real) * (n as real - 1.0) * (2.0 * n as real - 1.0) / 6.0
  {
    if n > 0 {
      SumX2ClosedForm(n - 1);
      var m := (n - 1) as real;
      assert ((n - 1) * (n - 1)) as real == m * m;
      assert m * (m - 1.0) * (2.0 * m - 1.0) / 6.0 + m * m
          == (m + 1.0) * m * (2.0 * m + 1.0) / 6.0;
    }
  }

  /** For n >= 2 the regression denominator n Σx² - (Σx)² is n²(n-1)(n+1)/12 > 0. */
  lemma TrendDenominatorPositive(n: nat)
    requires n >= 2
    ensures (n as real) * SumX2(n) - SumX(n) * SumX(n) > 0.0
  {
    SumXClosedForm(n);
    SumX2ClosedForm(n);
    var r := n as real;
    assert r * SumX2(n) - SumX(n) * SumX(n) == r * r * (r - 1.0) * (r + 1.0) / 12.0;
    assert r * r >= 4.0;
    assert (r - 1.0) * (r + 1.0) >= 3.0;
    assert r * r * ((r - 1.0) * (r + 1.0)) >= 12.0;
  }

  /** The series a, a + d, a + 2d, ... of length n. */
  function LineSeries(a: real, d: real, n: nat): (s: seq<real>)
    ensures |s| == n
    ensures forall i :: 0 <= i < n ==> s[i] == a + d * i as real
  {
    seq(n, i requires 0 <= i => a + d * i as real)
  }

  lemma LineSeriesPrefix(a: real, d: real, n: nat)
    requires n > 0
    ensures LineSeries(a, d, n)[..n - 1] == LineSeries(a, d, n - 1)
  {
  }

  lemma {:induction false} LineSeriesSum(a: real, d: real, n: nat)
    ensures Sum(LineSeries(a, d, n)) == (n as real) * a + d * SumX(n)
  {
    if n > 0 {
      LineSeriesPrefix(a, d, n);
      LineSeriesSum(a, d, n - 1);
      var m := (n - 1) as real;
      assert Sum(LineSeries(a, d, n)) == Sum(LineSeries(a, d, n - 1)) + (a + d * m);
      LineSumStep(a, d, m, Sum(LineSeries(a, d, n - 1)), SumX(n - 1), Sum(LineSeries(a, d, n)), SumX(n));
    }
  }

  /** The algebra of one step of LineSeriesSum. */
  lemma LineSumStep(a: real, d: real, m: real, p0: real, x0: real, p1: real, x1: real)
    requires p0 == m * a + d * x0
    requires p1 == p0 + (a + d * m) && x1 == x0 + m
    ensures p1 == (m + 1.0) * a + d * x1
  {
  }

  lemma {:induction false} LineSeriesSumXY(a: real, d: real, n: nat)
    ensures SumXY(LineSeries(a, d, n)) == a * SumX(n) + d * SumX2(n)
  {
    if n > 0 {
      LineSeriesSumXY(a, d, n - 1);
      LineSeriesSumXYStep(a, d, n);
    }
  }

  /** The inductive step of LineSeriesSumXY: the closed form for n - 1 points gives the one for n. */
  lemma LineSeriesSumXYStep(a: real, d: real, n: nat)
    requires n > 0
    requires SumXY(LineSeries(a, d, n - 1)) == a * SumX(n - 1) + d * SumX2(n - 1)
    ensures SumXY(LineSeries(a, d, n)) == a * SumX(n) + d * SumX2(n)
  {
    LineSeriesXYStep(a, d, n);
    SumX2Step(n);
    LineSumXYStep(a, d, (n - 1) as real, SumXY(LineSeries(a, d, n - 1)), SumX(n - 1), SumX2(n - 1),
                  SumXY(LineSeries(a, d, n)), SumX(n), SumX2(n));
  }

  /** One unfolding of SumXY on a line series. */
  lemma LineSeriesXYStep(a: real, d: real, n: nat)
    requires n > 0
    ensures SumXY(LineSeries(a, d, n))
         == SumXY(LineSeries(a, d, n - 1)) + (n - 1) as real * (a + d * (n - 1) as real)
  {
    var s := LineSeries(a, d, n);
    LineSeriesPrefix(a, d, n);
    assert s[n - 1] == a + d * (n - 1) as real;
  }

  /** One unfolding of SumX2, with the square taken over the reals. */
  lemma SumX2Step(n: nat)
    requires n > 0
    ensures SumX2(n) == SumX2(n - 1) + (n - 1) as real * (n - 1) as real
  {
    assert ((n - 1) * (n - 1)) as real == (n - 1) as real * (n - 1) as real;
  }

  /** The algebra of one step of LineSeriesSumXY. */
  lemma LineSumXYStep(a: real, d: real, m: real, p0: real, x0: real, y0: real, p1: real, x1: real, y1: real)
    requires p0 == a * x0 + d * y0
    requires p1 == p0 + m * (a + d * m) && x1 == x0 + m && y1 == y0 + m * m
    ensures p1 == a * x1 + d * y1
  {
    assert m * (a + d * m) == a * m + d * (m * m);
  }

  /** The fitted line passes through the centroid: at the mean x it takes the mean y. */
  lemma LinearTrendThroughCentroid(values: seq<real>)
    requires |values| >= 2
    ensures LinearTrend(values).slope * SumX(|values|) + |values| as real * LinearTrend(values).intercept == Sum(values)
  {
    var n := |values|;
    TrendDenominatorPositive(n);
    var r := LeastSquares(n as real, SumX(n), Sum(values), SumXY(values), SumX2(n));
    assert LinearTrend(values) == r;
  }

  /** On an exact line a + d·i the regression returns slope d and intercept a. */
  lemma LinearTrendOfLine(a: real, d: real, n: nat)
    requires n >= 2
    ensures LinearTrend(LineSeries(a, d, n)) == Line(d, a)
  {
    var s := LineSeries(a, d, n);
    var r, sx, sx2 := n as real, SumX(n), SumX2(n);
    var sy, sxy := Sum(s), SumXY(s);
    assert sy == r * a + d * sx by { LineSeriesSum(a, d, n); }
    assert sxy == a * sx + d * sx2 by { LineSeriesSumXY(a, d, n); }
    assert r * sx2 - sx * sx > 0.0 by { TrendDenominatorPositive(n); }
    assert LinearTrend(s) == LeastSquares(r, sx, sy, sxy, sx2);
    LeastSquaresOfLine(r, a, d, sx, sx2);
  }

  /** The algebra behind LinearTrendOfLine, over the sums as plain numbers. */
  lemma LeastSquaresOfLine(r: real, a: real, d: real, sx: real, sx2: real)
    requires r > 0.0
    requires r * sx2 - sx * sx > 0.0
    ensures LeastSquares(r, sx, r * a + d * sx, a * sx + d * sx2, sx2) == Line(d, a)
  {
    var den := r * sx2 - sx * sx;
    assert r * (a * sx + d * sx2) - sx * (r * a + d * sx) == d * den;
    assert (d * den) / den == d;
    assert ((r * a + d * sx) - d * sx) / r == a;
  }

  /** A constant series has slope 0 (and its value as intercept). */
  lemma LinearTrendOfConstant(values: seq<real>, c: real)
    requires |values| >= 2
    requires forall i :: 0 <= i < |values| ==> values[i] == c
    ensures LinearTrend(values) == Line(0.0, c)
  {
    assert values == LineSeries(c, 0.0, |values|);
    LinearTrendOfLine(c, 0.0, |values|);
  }

  // ---------------------------------------------------------------------
  // Lemmas: variance
  // ---------------------------------------------------------------------

  lemma {:induction false} SumSquaredDeviationsNonNegative(values: seq<real>, mean: real)
    ensures SumSquaredDeviations(values, mean) >= 0.0
  {
    if |values| > 0 {
      SumSquaredDeviationsNonNegative(values[..|values| - 1], mean);
      SquareNonNegative(values[|values| - 1] - mean);
    }
  }

  lemma SquareNonNegative(d: real)
    ensures Square(d) >= 0.0
  {
  }

  lemma {:induction false} SumSquaredDeviationsOfConstant(values: seq<real>, c: real)
    requires forall i :: 0 <= i < |values| ==> values[i] == c
    ensures SumSquaredDeviations(values, c) == 0.0
  {
    if |values| > 0 {
      SumSquaredDeviationsOfConstant(values[..|values| - 1], c);
      assert Square(values[|values| - 1] - c) == Square(0.0);
    }
  }

  lemma {:induction false} SumOfConstant(values: seq<real>, c: real)
    requires forall i :: 0 <= i < |values| ==> values[i] == c
    ensures Sum(values) == |values| as real * c
  {
    if |values| > 0 {
      SumOfConstant(values[..|values| - 1], c);
    }
  }

  /** The variance is never negative, and a constant series has variance 0. */
  lemma VarianceOfConstantIsZero(values: seq<real>)
    requires |values| > 0
    ensures Variance(values) >= 0.0
    ensures (forall i :: 0 <= i < |values| ==> values[i] == values[0]) ==> Variance(values) == 0.0
  {
    SumSquaredDeviationsNonNegative(values, Mean(values));
    if forall i :: 0 <= i < |values| ==> values[i] == values[0] {
      SumOfConstant(values, values[0]);
      assert Mean(values) == values[0];
      SumSquaredDeviationsOfConstant(values, values[0]);
    }
  }

  // ---------------------------------------------------------------------
  // Lemmas: competitiveness ratio
  // ---------------------------------------------------------------------

  /** The ratio does not decrease when S or O grows, whatever the signs, as long as W + T > 0. */
  lemma CompetitivenessRatioMonotoneInGains(s: real, o: real, w: real, t: real, s': real, o': real)
    requires w + t > 0.0
    requires s <= s' && o <= o'
    ensures CompetitivenessRatio(s, o, w, t) <= CompetitivenessRatio(s', o', w, t)
  {
    var den := w + t;
    var q, q' := (s + o) / den, (s' + o') / den;
    assert q * den == s + o && q' * den == s' + o';
    if q' < q {
      StrictScale(den, q', q);
      assert false;
    }
  }

  /** With W + T > 0 and S + O >= 0, the ratio does not increase when W or T grows. */
  lemma CompetitivenessRatioMonotoneInLosses(s: real, o: real, w: real, t: real, w': real, t': real)
    requires w + t > 0.0
    requires w <= w' && t <= t'
    requires s + o >= 0.0
    ensures CompetitivenessRatio(s, o, w', t') <= CompetitivenessRatio(s, o, w, t)
  {
    DivByLargerIsSmaller(s + o, w + t, w' + t');
  }

  lemma DivByLargerIsSmaller(num: real, a: real, b: real)
    requires num >= 0.0 && 0.0 < a <= b
    ensures num / b <= num / a
  {
    var q := num / a;
    assert q * a == num;
    assert q >= 0.0;
    MulMonotone(a, b, q);
    assert num <= q * b;
    assert (q * b) / b == q;
  }

  // ---------------------------------------------------------------------
  // Lemmas: powers and compound growth
  // ---------------------------------------------------------------------

  lemma {:induction false} PowNonNegative(x: real, n: nat)
    requires x >= 0.0
    ensures Pow(x, n) >= 0.0
  {
    if n > 0 {
      PowNonNegative(x, n - 1);
    }
  }

  lemma {:induction false} PowStrictlyIncreasing(x: real, y: real, n: nat)
    requires 0.0 <= x < y
    requires n >= 1
    ensures Pow(x, n) < Pow(y, n)
  {
    if n > 1 {
      PowStrictlyIncreasing(x, y, n - 1);
      PowNonNegative(x, n - 1);
      assert x * Pow(x, n - 1) <= x * Pow(y, n - 1);
      assert x * Pow(y, n - 1) < y * Pow(y, n - 1);
    }
  }

  /**
   * For a genuine compound growth rate g over `years` >= 1 periods from a
   * positive initial value, g exceeds a threshold t > -1 exactly when the
   * final value exceeds what growth at rate t would have reached.
   */
  lemma CompoundGrowthAboveThreshold(g: real, initial: real, final: real, years: nat, t: real)
    requires IsCompoundGrowthRate(g, initial, final, years)
    requires initial > 0.0 && years >= 1
    requires t > -1.0
    ensures g > t <==> final > initial * Pow(1.0 + t, years)
  {
    if g > t {
      PowStrictlyIncreasing(1.0 + t, 1.0 + g, years);
    } else if g < t {
      PowStrictlyIncreasing(1.0 + g, 1.0 + t, years);
    }
  }

  lemma {:induction false} PowMonotoneInExponent(x: real, m: nat, n: nat)
    requires m <= n
    ensures x >= 1.0 ==> Pow(x, m) <= Pow(x, n)
    ensures 0.0 <= x <= 1.0 ==> Pow(x, n) <= Pow(x, m)
  {
    if m < n {
      PowMonotoneInExponent(x, m, n - 1);
      if x >= 0.0 {
        PowNonNegative(x, n - 1);
      }
      if x >= 1.0 {
        assert Pow(x, n - 1) <= x * Pow(x, n - 1);
      }
      if 0.0 <= x <= 1.0 {
        assert x * Pow(x, n - 1) <= Pow(x, n - 1);
      }
    }
  }

  lemma {:induction false} PowOfOne(n: nat)
    ensures Pow(1.0, n) == 1.0
  {
    if n > 0 {
      PowOfOne(n - 1);
    }
  }
}
