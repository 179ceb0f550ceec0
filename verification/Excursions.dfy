/** Bounds on means, deviations and standardized scores of values in a range. */
module Excursions {
  import opened Sums
  import opened MonteCarlo
  import opened Distances
  import opened Moments
  import opened PermutationTest

  // ---------- Sums of bounded terms ----------

  lemma {:induction false} SumByMonotone<T>(f: T -> real, g: T -> real, xs: seq<T>)
    requires forall i :: 0 <= i < |xs| ==> f(xs[i]) <= g(xs[i])
    ensures SumBy(f, xs) <= SumBy(g, xs)
  {
    if xs != [] {
      SumByMonotone(f, g, xs[..|xs| - 1]);
    }
  }

  lemma {:induction false} SumByConstant<T>(f: T -> real, xs: seq<T>, b: real)
    requires forall i :: 0 <= i < |xs| ==> f(xs[i]) == b
    ensures SumBy(f, xs) == b * |xs| as real
  {
    if xs != [] {
      SumByConstant(f, xs[..|xs| - 1], b);
      assert b * |xs| as real == b * (|xs| - 1) as real + b;
    }
  }

  function AtMostEach(b: real): real -> real {
    _ => b
  }

  ghost predicate Ranged(xs: seq<real>, range: real) {
    forall i :: 0 <= i < |xs| ==> 0.0 <= xs[i] <= range
  }

  lemma TotalRange(xs: seq<real>, range: real)
    requires Ranged(xs, range)
    ensures 0.0 <= Total(xs) <= range * |xs| as real
  {
    SumByMonotone(AtMostEach(0.0), (x: real) => x, xs);
    SumByMonotone((x: real) => x, AtMostEach(range), xs);
    SumByConstant(AtMostEach(0.0), xs, 0.0);
    SumByConstant(AtMostEach(range), xs, range);
    assert 0.0 * |xs| as real == 0.0;
  }

  lemma TotalRemove(xs: seq<real>, i: nat)
    requires i < |xs|
    ensures Total(xs) == Total(RemoveAt(xs, i)) + xs[i]
  {
    SumByRemove((x: real) => x, xs, i);
  }

  lemma MeanTimes(xs: seq<real>)
    requires xs != []
    ensures Mean(xs) * |xs| as real == Total(xs)
  {
  }

  lemma DivideWithin(x: real, range: real, n: real)
    requires n > 0.0 && 0.0 <= x <= range * n
    ensures 0.0 <= x / n <= range
  {
    var q := x / n;
    assert q * n == x;
    if q > range {
      MultiplyMonotone(range, q, n);
    }
  }

  lemma MeanRange(xs: seq<real>, range: real)
    requires xs != [] && Ranged(xs, range)
    ensures 0.0 <= Mean(xs) <= range
  {
    TotalRange(xs, range);
    hide Total;
    DivideWithin(Total(xs), range, |xs| as real);
  }

  // ---------- Deviations ----------

  function Variance(xs: seq<real>): real
    requires xs != []
  {
    SumBy(SquaredFrom(Mean(xs)), xs) / |xs| as real
  }

  /** The deviation is the floor, or the root of the variance. */
  lemma DeviationIs(fns: Analysis, xs: seq<real>)
    requires IsRoot(fns) && xs != []
    ensures Variance(xs) >= 0.0
    ensures Deviation(fns, xs) == STD_FLOOR || Square(Deviation(fns, xs)) == Variance(xs)
  {
    var f := SquaredFrom(Mean(xs));
    hide Mean;
    forall i | 0 <= i < |xs| ensures f(xs[i]) >= 0.0 {
      SquareNonNegative(xs[i] - Mean(xs));
    }
    SumByMonotone(AtMostEach(0.0), f, xs);
    SumByConstant(AtMostEach(0.0), xs, 0.0);
    assert 0.0 * |xs| as real == 0.0;
    DivideMonotone(0.0, SumBy(f, xs), |xs| as real);
  }

  function SquaresTop(range: real, mean: real, n: real, total: real): real {
    range * ((range + range - mean) * n - total)
  }

  function VarianceTop(range: real, mean: real): real {
    2.0 * (range * (range - mean))
  }

  lemma SquaresBelowLinear(xs: seq<real>, range: real, mean: real)
    requires Ranged(xs, range) && 0.0 <= mean <= range
    ensures SumBy(SquaredFrom(mean), xs) <= SquaresTop(range, mean, |xs| as real, Total(xs))
  {
    var f, g := SquaredFrom(mean), Linear(range, mean);
    forall i | 0 <= i < |xs| ensures f(xs[i]) <= g(xs[i]) {
      SquareBelowLinear(xs[i], mean, range);
    }
    hide SquaredFrom, Linear, Total;
    SumByMonotone(f, g, xs);
    LinearSum(xs, range, mean);
  }

  /** The variance is at most twice the range times the distance of the mean from the top. */
  lemma VarianceBelow(xs: seq<real>, range: real)
    requires xs != [] && Ranged(xs, range)
    ensures Variance(xs) <= VarianceTop(range, Mean(xs))
  {
    hide Mean, Total, Linear, SquaredFrom, SumBy, SquaresTop, VarianceTop, Ranged;
    MeanRange(xs, range);
    var mean, n := Mean(xs), |xs| as real;
    SquaresBelowLinear(xs, range, mean);
    MeanTimes(xs);
    MeanBelow(SumBy(SquaredFrom(mean), xs), range, mean, n, Total(xs));
  }

  lemma MeanBelow(v: real, range: real, mean: real, n: real, total: real)
    requires n > 0.0 && mean * n == total && v <= SquaresTop(range, mean, n, total)
    ensures v / n <= VarianceTop(range, mean)
  {
    DivideMonotone(v, SquaresTop(range, mean, n, total), n);
    LinearMean(range, mean, n, total);
  }

  function Linear(range: real, mean: real): real -> real {
    x => range * (range - x + (range - mean))
  }

  lemma SquareBelowLinear(x: real, mean: real, range: real)
    requires 0.0 <= x <= range && 0.0 <= mean <= range
    ensures (x - mean) * (x - mean) <= range * (range - x + (range - mean))
  {
    var gap, sum := if x >= mean then x - mean else mean - x, range - x + (range - mean);
    assert gap * gap == (x - mean) * (x - mean);
    MultiplyMonotone(gap, range, gap);
    MultiplyMonotone(gap, sum, range);
    assert sum * range == range * sum;
  }

  lemma {:induction false} LinearSum(xs: seq<real>, range: real, mean: real)
    ensures SumBy(Linear(range, mean), xs) == SquaresTop(range, mean, |xs| as real, Total(xs))
  {
    if xs != [] {
      var k := |xs| - 1;
      LinearSum(xs[..k], range, mean);
      LinearNext(range, range + range - mean, k as real, Total(xs[..k]), xs[k]);
      assert |xs| as real == k as real + 1.0;
    }
  }

  lemma LinearNext(range: real, top: real, k: real, total: real, x: real)
    ensures range * (top * k - total) + range * (top - x) == range * (top * (k + 1.0) - (total + x))
  {
    assert top * (k + 1.0) == top * k + top;
  }

  lemma LinearMean(range: real, mean: real, n: real, total: real)
    requires n > 0.0 && mean * n == total
    ensures SquaresTop(range, mean, n, total) / n == VarianceTop(range, mean)
  {
    assert (range + range - mean) * n - mean * n == 2.0 * (range - mean) * n;
    assert range * (2.0 * (range - mean) * n) == 2.0 * (range * (range - mean)) * n;
  }

  lemma DeviationWithin(fns: Analysis, xs: seq<real>, range: real)
    requires IsRoot(fns) && xs != [] && Ranged(xs, range) && range >= 1.0
    ensures Deviation(fns, xs) <= 2.0 * range
  {
    DeviationIs(fns, xs);
    VarianceBelow(xs, range);
    MeanRange(xs, range);
    hide Variance, Mean, Deviation, IsRoot;
    TwiceRange(range, Mean(xs));
    if Square(Deviation(fns, xs)) == Variance(xs) {
      SquareOrder(Deviation(fns, xs), 2.0 * range);
    }
  }

  lemma TwiceRange(range: real, mean: real)
    requires range >= 0.0 && mean >= 0.0
    ensures VarianceTop(range, mean) <= Square(2.0 * range)
  {
    MultiplyMonotone(range - mean, range, range);
    MultiplyMonotone(0.0, range, range);
  }

  lemma SquareOrder(x: real, y: real)
    requires y >= 0.0 && Square(x) <= Square(y)
    ensures x <= y
  {
    if x > 0.0 {
      assert (y - x) * (y + x) == y * y - x * x;
      FactorNonNegative(y - x, y + x);
    }
  }

  lemma FactorNonNegative(a: real, b: real)
    requires b > 0.0 && a * b >= 0.0
    ensures a >= 0.0
  {
  }

  // ---------- What an effect size means ----------

  /** The mean and the variance are the sums of the values and of their squared distances to the mean, over the number
      of values. */
  lemma MomentsAre(xs: seq<real>, mean: real)
    requires xs != [] && mean == Mean(xs)
    ensures mean * |xs| as real == SumBy((x: real) => x, xs)
    ensures Variance(xs) * |xs| as real == SumBy((x: real) => (x - mean) * (x - mean), xs)
  {
    MeanTimes(xs);
    SumByCongruence((x: real) => x, xs, (x: real) => x, xs);
    hide Mean;
    SumByCongruence(SquaredFrom(mean), xs, (x: real) => (x - mean) * (x - mean), xs);
    hide SquaredFrom;
  }

  /** The deviation is the root of the variance, or a millionth where that is larger. */
  lemma DeviationMeaning(fns: Analysis, xs: seq<real>)
    requires IsRoot(fns) && xs != []
    ensures Deviation(fns, xs) >= 0.000001 && Variance(xs) <= Square(Deviation(fns, xs))
    ensures Deviation(fns, xs) > 0.000001 ==> Square(Deviation(fns, xs)) == Variance(xs)
  {
    DeviationIs(fns, xs);
    var root := fns.sqrt(Variance(xs));
    assert Square(root) == Variance(xs) && root >= 0.0;
    hide Variance, IsRoot, Square;
    SquaresOrdered(root, Deviation(fns, xs));
  }

  /** The effect size is nothing without nulls, or where the observed value is not above their mean; otherwise it is
      the distance to the mean in deviations of the nulls. */
  lemma ExcursionMeaning(fns: Analysis, observed: real, nulls: seq<real>)
    ensures var e := StandardizedExcursion(fns, observed, nulls);
            if nulls != [] && observed > Mean(nulls) then e * Deviation(fns, nulls) == observed - Mean(nulls)
            else e == 0.0
  {
    hide Mean, Deviation;
    ScaledBack(observed - Mean(nulls), Deviation(fns, nulls));
  }

  lemma ScaledBack(x: real, sd: real)
    requires sd > 0.0
    ensures (x / sd) * sd == x && (x > 0.0 <==> x / sd > 0.0)
  {
  }

  // ---------- A value below the top of the range ----------

  /** At most so many values and no smaller steps keep shortfalls above the tolerance. */
  const MOST_VALUES: nat := 1_000_000

  const MOST_POINTS: nat := 500_000

  lemma MeanShort(xs: seq<real>, range: real, i: nat, short: real)
    requires Ranged(xs, range) && i < |xs| && xs[i] <= range - short
    ensures Mean(xs) * |xs| as real <= range * |xs| as real - short
  {
    TotalRemove(xs, i);
    var rest := RemoveAt(xs, i);
    assert Ranged(rest, range);
    TotalRange(rest, range);
    MeanTimes(xs);
    hide *;
    OneMoreTimes(range, |rest| as real, |xs| as real);
  }

  lemma OneMoreTimes(range: real, n: real, more: real)
    requires more == n + 1.0
    ensures range * more == range * n + range
  {
  }

  lemma GapFromMean(mean: real, range: real, n: real, step: real)
    requires range > 0.0 && 0.0 < n <= 1000000.0 && step > 0.000002
    requires mean * n <= range * n - range * step
    ensures range - mean > 0.000000000002 * range
  {
    var least := 0.000000000002 * range;
    MultiplyMonotone(n, 1000000.0, least);
    StrictlyScaled(0.000002, step, range);
    Commuted(least, n);
    Commuted(step, range);
    ClearGap(mean, range, least, n, range * step);
  }

  lemma Commuted(x: real, y: real)
    ensures x * y == y * x
  {
  }

  lemma ClearGap(mean: real, range: real, least: real, n: real, short: real)
    requires n > 0.0 && mean * n <= range * n - short && least * n < short
    ensures range - mean > least
  {
    assert (range - mean - least) * n == range * n - mean * n - least * n;
    PositiveFactor(range - mean - least, n);
  }

  lemma PositiveFactor(a: real, b: real)
    requires b > 0.0 && a * b > 0.0
    ensures a > 0.0
  {
  }

  lemma ClearOfDeviation(gap: real, sd: Positive, range: real)
    requires range >= 1.0 && gap > 0.000000000002 * range
    requires sd == STD_FLOOR || Square(sd) <= 2.0 * (range * gap)
    ensures gap / sd > PERMUTATION_TOLERANCE
  {
    var t := 0.000001 * sd;
    if sd != STD_FLOOR {
      assert Square(t) == 0.000000000001 * Square(sd);
      assert Square(gap) > Square(t) by {
        StrictlyScaled(0.000000000002 * range, gap, gap);
        assert 0.000000000002 * range * gap == 0.000000000001 * (2.0 * (range * gap));
      }
      RootsOrdered(t, gap);
    }
    AboveQuotient(gap, sd);
  }

  lemma StrictlyScaled(x: real, y: real, n: real)
    requires x < y && n > 0.0
    ensures x * n < y * n
  {
  }

  lemma RootsOrdered(x: real, y: real)
    requires x >= 0.0 && y >= 0.0 && Square(x) < Square(y)
    ensures x < y
  {
    if y <= x {
      SquaresOrdered(y, x);
    }
  }

  lemma SquaresOrdered(x: real, y: real)
    requires 0.0 <= x <= y
    ensures Square(x) <= Square(y)
  {
    MultiplyMonotone(x, y, x);
    MultiplyMonotone(x, y, y);
    assert x * y == y * x;
  }

  lemma AboveQuotient(gap: real, sd: Positive)
    requires gap > 0.000001 * sd
    ensures gap / sd > PERMUTATION_TOLERANCE
  {
    var q := gap / sd;
    assert q * sd == gap;
    PositiveFactor(q - 0.000001, sd);
  }

  lemma StandardApart(x: real, range: real, mean: real, sd: Positive, step: real)
    requires x <= range - range * step && sd <= 2.0 * range && step > 0.000002 && range >= 1.0
    ensures Standard(range, mean, sd) - Standard(x, mean, sd) > PERMUTATION_TOLERANCE
  {
    MultiplyMonotone(sd, 2.0 * range, 0.000001);
    assert range * step > range * 0.000002;
    AboveQuotient(range - x, sd);
    assert (range - mean) / sd - (x - mean) / sd == (range - x) / sd;
  }

  /** A value that falls short of the top of the range by a step has a smaller positive excursion than the top. */
  lemma ExcursionShort(fns: Analysis, xs: seq<real>, range: real, i: nat, step: real)
    requires IsRoot(fns) && range >= 1.0 && Ranged(xs, range) && i < |xs| <= MOST_VALUES
    requires step > 0.000002 && xs[i] <= range - range * step
    ensures var mean, sd := Mean(xs), Deviation(fns, xs);
            Positively(Standard(xs[i], mean, sd)) + PERMUTATION_TOLERANCE < Positively(Standard(range, mean, sd))
  {
    var mean, sd := Mean(xs), Deviation(fns, xs);
    MeanShort(xs, range, i, range * step);
    GapFromMean(mean, range, |xs| as real, step);
    DeviationIs(fns, xs);
    VarianceBelow(xs, range);
    DeviationWithin(fns, xs, range);
    hide Mean, Deviation, Variance, Square, IsRoot;
    StandardApart(xs[i], range, mean, sd, step);
    ClearOfDeviation(range - mean, sd, range);
  }
}
