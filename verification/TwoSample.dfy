/** The two-sample statistic: read from one shared Gram matrix, and rebuilt from scratch. */
module TwoSample {
  import opened Arithmetic
  import opened Sums
  import opened Shuffle
  import opened Distances
  import opened Gram

  // ---------- The statistic of two groups under a weight ----------

  function Within<T>(w: (T, T) -> real, group: seq<T>, unbiased: bool): real {
    CrossSum(w, group, group) - if unbiased then DiagonalSum(w, group) else 0.0
  }

  /** How many ordered pairs a within-group sum runs over. */
  function PairCount(size: nat, unbiased: bool): (c: real)
    requires size >= 2
    ensures c != 0.0
  {
    var others := if unbiased then size - 1 else size;
    NonZeroProduct(size as real, others as real);
    size as real * others as real
  }

  lemma NonZeroProduct(x: real, y: real)
    requires x > 0.0 && y > 0.0
    ensures x * y != 0.0
  {
  }

  /** Mean within the first group, plus mean within the second, minus twice the mean across. */
  function Statistic<T>(w: (T, T) -> real, first: seq<T>, second: seq<T>, unbiased: bool): real
    requires |first| >= 2 && |second| >= 2
  {
    NonZeroProduct(|first| as real, |second| as real);
    Within(w, first, unbiased) / PairCount(|first|, unbiased)
    + Within(w, second, unbiased) / PairCount(|second|, unbiased)
    - 2.0 * CrossSum(w, first, second) / (|first| as real * |second| as real)
  }

  /** A mean: `x` divided by the number `n` of its terms. */
  function Over(x: real, n: real): real {
    if n > 0.0 then x / n else 0.0
  }

  /** The pairs of one member of each of two groups. */
  function Sizes(m: nat, k: nat): real {
    m as real * k as real
  }

  /** The ordered pairs of different members of a group. */
  function OrderedPairs(n: nat): real {
    n as real * (n as real - 1.0)
  }

  lemma PairsAre(n: nat)
    requires n >= 2
    ensures PairCount(n, true) == OrderedPairs(n) && PairCount(n, false) == Sizes(n, n)
  {
    PairCountIs(n, true);
    PairCountIs(n, false);
  }

  lemma PairCountIs(n: nat, unbiased: bool)
    requires n >= 2
    ensures PairCount(n, unbiased) == n as real * (if unbiased then n as real - 1.0 else n as real)
  {
    assert (n - 1) as real == n as real - 1.0;
  }

  lemma StatisticParts<T>(w: (T, T) -> real, first: seq<T>, second: seq<T>, unbiased: bool)
    requires |first| >= 2 && |second| >= 2
    ensures Statistic(w, first, second, unbiased)
         == Over(Within(w, first, unbiased), PairCount(|first|, unbiased))
            + Over(Within(w, second, unbiased), PairCount(|second|, unbiased))
            - 2.0 * Over(CrossSum(w, first, second), Sizes(|first|, |second|))
  {
    hide Within, CrossSum;
    PairCountPositive(|first|, unbiased);
    PairCountPositive(|second|, unbiased);
    PositiveProduct(|first| as real, |second| as real);
    hide PairCount;
    Doubled(CrossSum(w, first, second), |first| as real * |second| as real);
  }

  lemma PairCountPositive(n: nat, unbiased: bool)
    requires n >= 2
    ensures PairCount(n, unbiased) > 0.0
  {
    PairCountIs(n, unbiased);
    hide PairCount;
    PositiveProduct(n as real, if unbiased then n as real - 1.0 else n as real);
  }

  lemma Doubled(x: real, n: real)
    requires n > 0.0
    ensures 2.0 * x / n == 2.0 * Over(x, n)
  {
  }

  /** The statistic sees groups, not orders. */
  lemma StatisticReorder<T>(
    w: (T, T) -> real, first: seq<T>, second: seq<T>, first': seq<T>, second': seq<T>, unbiased: bool)
    requires |first| >= 2 && |second| >= 2
    requires multiset(first) == multiset(first') && multiset(second) == multiset(second')
    ensures |first'| == |first| && |second'| == |second|
    ensures Statistic(w, first, second, unbiased) == Statistic(w, first', second', unbiased)
  {
    assert |first'| == |multiset(first')| && |second'| == |multiset(second')|;
    hide CrossSum, DiagonalSum;
    CrossSumReorder(w, first, first, first', first');
    CrossSumReorder(w, second, second, second', second');
    CrossSumReorder(w, first, second, first', second');
    DiagonalSumReorder(w, first, first');
    DiagonalSumReorder(w, second, second');
  }

  lemma DiagonalSumReorder<T>(w: (T, T) -> real, xs: seq<T>, ys: seq<T>)
    requires multiset(xs) == multiset(ys)
    ensures DiagonalSum(w, xs) == DiagonalSum(w, ys)
  {
    SumByReorder(Diagonal(w), xs, ys);
  }

  /** Swapping the two groups changes nothing. */
  lemma StatisticSwap<T>(w: (T, T) -> real, first: seq<T>, second: seq<T>, unbiased: bool)
    requires |first| >= 2 && |second| >= 2 && forall x, y :: w(x, y) == w(y, x)
    ensures Statistic(w, first, second, unbiased) == Statistic(w, second, first, unbiased)
  {
    hide CrossSum, DiagonalSum;
    CrossSumTranspose(w, first, second);
  }

  /** Two identical samples are at distance zero in the biased (energy) form. */
  lemma StatisticOfIdentical<T>(w: (T, T) -> real, sample: seq<T>)
    requires |sample| >= 2
    ensures Statistic(w, sample, sample, false) == 0.0
  {
    hide CrossSum, DiagonalSum;
  }

  /** Whatever the split, the three sums account for every entry of the matrix once, less the
      diagonal in the unbiased form. */
  lemma SumsConserved<T>(w: (T, T) -> real, all: seq<T>, first: seq<T>, second: seq<T>, unbiased: bool)
    requires multiset(first + second) == multiset(all) && forall x, y :: w(x, y) == w(y, x)
    ensures Within(w, first, unbiased) + Within(w, second, unbiased) + 2.0 * CrossSum(w, first, second)
         == CrossSum(w, all, all) - if unbiased then DiagonalSum(w, all) else 0.0
  {
    CrossSumReorder(w, all, all, first + second, first + second);
    DiagonalSumReorder(w, all, first + second);
    SumByConcat(Diagonal(w), first, second);
    hide CrossSum;
    CrossSumLeft(w, first, second, first + second);
    CrossSumRight(w, first, first, second);
    CrossSumRight(w, second, first, second);
    CrossSumTranspose(w, first, second);
  }

  // ---------- Rebuilding the statistic from scratch ----------

  function IsUnbiased(kernel: Kernel): bool {
    kernel.Rbf?
  }

  /** The statistic of two samples taken on their own: the bandwidth from the two pooled, every
      kernel value from the points themselves. */
  function FromScratch(fns: Analysis, kernel: Kernel, first: seq<Point>, second: seq<Point>): real
    requires |first| >= 2 && |second| >= 2
  {
    Statistic(PairWeight(fns, Settle(fns, kernel, first + second)), first, second, IsUnbiased(kernel))
  }

  lemma FromScratchIs(fns: Analysis, kernel: Kernel, first: seq<Point>, second: seq<Point>)
    requires |first| >= 2 && |second| >= 2
    ensures var k := (a: Point, b: Point) => KernelOf(fns, kernel, first + second, a, b);
            FromScratch(fns, kernel, first, second) == Statistic(k, first, second, kernel.Rbf?)
  {
    var k := (a: Point, b: Point) => KernelOf(fns, kernel, first + second, a, b);
    var w := PairWeight(fns, Settle(fns, kernel, first + second));
    forall a, b ensures w(a, b) == k(a, b) {
      SettledPair(fns, kernel, first + second, a, b);
    }
    hide Statistic, Settle, PairValue, KernelOf, PairWeight;
    StatisticSelect(w, first, second, k, first, second, kernel.Rbf?);
  }

  /** The unbiased squared discrepancy: the means of the kernel over the ordered pairs of different points within
      each sample, less twice its mean across. */
  lemma DiscrepancyIs(fns: Analysis, width: Width, first: seq<Point>, second: seq<Point>)
    requires |first| >= 2 && |second| >= 2
    ensures var k := (a: Point, b: Point) => KernelOf(fns, Rbf(width), first + second, a, b);
            FromScratch(fns, Rbf(width), first, second)
            == Over(CrossSum(k, first, first) - DiagonalSum(k, first), OrderedPairs(|first|))
               + Over(CrossSum(k, second, second) - DiagonalSum(k, second), OrderedPairs(|second|))
               - 2.0 * Over(CrossSum(k, first, second), Sizes(|first|, |second|))
  {
    var k := (a: Point, b: Point) => KernelOf(fns, Rbf(width), first + second, a, b);
    FromScratchIs(fns, Rbf(width), first, second);
    hide *;
    StatisticParts(k, first, second, true);
    PairsAre(|first|);
    PairsAre(|second|);
    WithoutDiagonal(k, first);
    WithoutDiagonal(k, second);
  }

  lemma WithoutDiagonal<T>(w: (T, T) -> real, group: seq<T>)
    ensures Within(w, group, true) == CrossSum(w, group, group) - DiagonalSum(w, group)
  {
  }

  /** The energy distance: twice the mean distance across, less the mean distances within, equal points included. */
  lemma EnergyIs(fns: Analysis, first: seq<Point>, second: seq<Point>)
    requires |first| >= 2 && |second| >= 2
    ensures var d := (a: Point, b: Point) => fns.sqrt(SqDist(a, b));
            FromScratch(fns, Energy, first, second)
            == 2.0 * Over(CrossSum(d, first, second), Sizes(|first|, |second|))
               - Over(CrossSum(d, first, first), Sizes(|first|, |first|))
               - Over(CrossSum(d, second, second), Sizes(|second|, |second|))
  {
    var k := (a: Point, b: Point) => KernelOf(fns, Energy, first + second, a, b);
    var d := (a: Point, b: Point) => fns.sqrt(SqDist(a, b));
    FromScratchIs(fns, Energy, first, second);
    CrossSumNegated(k, d, first, first);
    CrossSumNegated(k, d, second, second);
    CrossSumNegated(k, d, first, second);
    hide FromScratch, KernelOf, CrossSum, SqDist, PairCount, Over, Statistic, OrderedPairs, Sizes;
    StatisticParts(k, first, second, false);
    PairsAre(|first|);
    PairsAre(|second|);
    OverNegated(CrossSum(d, first, first), Sizes(|first|, |first|));
    OverNegated(CrossSum(d, second, second), Sizes(|second|, |second|));
    OverNegated(CrossSum(d, first, second), Sizes(|first|, |second|));
  }

  lemma OverNegated(x: real, n: real)
    ensures Over(-x, n) == -Over(x, n)
  {
  }

  lemma {:induction false} SumByNegated<T>(f: T -> real, g: T -> real, xs: seq<T>)
    requires forall x :: f(x) == -g(x)
    ensures SumBy(f, xs) == -SumBy(g, xs)
  {
    if xs != [] {
      SumByNegated(f, g, xs[..|xs| - 1]);
    }
  }

  lemma CrossSumNegated<T>(w: (T, T) -> real, v: (T, T) -> real, xs: seq<T>, ys: seq<T>)
    requires forall x, y :: w(x, y) == -v(x, y)
    ensures CrossSum(w, xs, ys) == -CrossSum(v, xs, ys)
  {
    forall x ensures RowSum(w, x, ys) == -RowSum(v, x, ys) {
      SumByNegated(From(w, x), From(v, x), ys);
    }
    SumByNegated(Rows(w, ys), Rows(v, ys), xs);
  }

  /** The same, of the two groups that a relabelling of `points` makes. */
  function Relabelled(fns: Analysis, kernel: Kernel, points: seq<Point>, m: nat, order: seq<nat>): real
    requires 2 <= m <= |order| - 2
  {
    FromScratch(fns, kernel, Select(points, order[..m], []), Select(points, order[m..], []))
  }

  lemma SettleReorder(fns: Analysis, kernel: Kernel, points: seq<Point>, points': seq<Point>)
    requires multiset(points) == multiset(points')
    ensures Settle(fns, kernel, points) == Settle(fns, kernel, points')
  {
    MedianBandwidthReorder(fns, points, points');
  }

  lemma {:induction false} SelectIdentity<T>(xs: seq<T>, default: T)
    ensures Select(xs, Identity(|xs|), default) == xs
  {
  }

  lemma {:induction false} SelectReorder<T>(xs: seq<T>, a: seq<nat>, b: seq<nat>, default: T)
    requires multiset(a) == multiset(b)
    ensures multiset(Select(xs, a, default)) == multiset(Select(xs, b, default))
    decreases |a|
  {
    if a == [] {
      assert |multiset(b)| == 0;
    } else {
      assert a[0] in multiset(a);
      var i := FindEntry(b, a[0]);
      SelectReorder(xs, RemoveAt(a, 0), RemoveAt(b, i), default);
      SelectRemove(xs, a, 0, default);
      SelectRemove(xs, b, i, default);
    }
  }

  lemma SelectRemove<T>(xs: seq<T>, a: seq<nat>, i: nat, default: T)
    requires i < |a|
    ensures multiset(Select(xs, a, default))
        == multiset(Select(xs, RemoveAt(a, i), default)) + multiset{Select(xs, a, default)[i]}
  {
    assert Select(xs, RemoveAt(a, i), default) == RemoveAt(Select(xs, a, default), i);
  }

  lemma SelectPermutes<T>(xs: seq<T>, order: seq<nat>, default: T)
    requires IsPerm(order, |xs|)
    ensures multiset(Select(xs, order, default)) == multiset(xs)
  {
    SelectReorder(xs, order, Identity(|xs|), default);
    SelectIdentity(xs, default);
  }

  lemma SelectSplit<T>(xs: seq<T>, order: seq<nat>, m: nat, default: T)
    requires m <= |order|
    ensures Select(xs, order[..m], default) + Select(xs, order[m..], default) == Select(xs, order, default)
  {
  }

  // ---------- Reading the statistic from the shared matrix ----------

  /** The matrix entry of two points; a position outside the buffer reads as 0. */
  function Entry(gram: seq<real>, n: nat, ia: nat, ib: nat): real {
    if Flat(n, ia, ib) < |gram| then gram[Flat(n, ia, ib)] else 0.0
  }

  function EntryWeight(gram: seq<real>, n: nat): (nat, nat) -> real {
    (ia: nat, ib: nat) => Entry(gram, n, ia, ib)
  }

  method WithinSum(gram: seq<real>, n: nat, group: seq<nat>, unbiased: bool) returns (sum: real)
    ensures sum == Within(EntryWeight(gram, n), group, unbiased)
  {
    hide Entry;
    ghost var w := EntryWeight(gram, n);
    sum := 0.0;
    for a := 0 to |group|
      invariant sum == SumBy(Rows(w, group), group[..a]) - if unbiased then SumBy(Diagonal(w), group[..a]) else 0.0
    {
      ghost var start := sum;
      for b := 0 to |group|
        invariant sum == start + SumBy(From(w, group[a]), group[..b]) - if unbiased
            && a < b then w(group[a], group[a]) else 0.0
      {
        SumBySnoc(From(w, group[a]), group, b);
        if unbiased && a == b {
          continue;
        }
        sum := sum + Entry(gram, n, group[a], group[b]);
      }
      assert group[..|group|] == group;
      SumBySnoc(Rows(w, group), group, a);
      SumBySnoc(Diagonal(w), group, a);
    }
    assert group[..|group|] == group;
  }

  method AcrossSum(gram: seq<real>, n: nat, first: seq<nat>, second: seq<nat>) returns (sum: real)
    ensures sum == CrossSum(EntryWeight(gram, n), first, second)
  {
    hide Entry;
    ghost var w := EntryWeight(gram, n);
    sum := 0.0;
    for a := 0 to |first|
      invariant sum == SumBy(Rows(w, second), first[..a])
    {
      ghost var start := sum;
      for b := 0 to |second|
        invariant sum == start + SumBy(From(w, first[a]), second[..b])
      {
        SumBySnoc(From(w, first[a]), second, b);
        sum := sum + Entry(gram, n, first[a], second[b]);
      }
      assert second[..|second|] == second;
      SumBySnoc(Rows(w, second), first, a);
    }
    assert first[..|first|] == first;
  }

  /** The first `m` entries of `perm` are one group, the rest the other. */
  method StatisticFromGram(gram: seq<real>, n: nat, perm: seq<nat>, m: nat, unbiased: bool) returns (statistic: real)
    requires 2 <= m <= |perm| - 2
    ensures statistic == Statistic(EntryWeight(gram, n), perm[..m], perm[m..], unbiased)
  {
    hide Within, CrossSum;
    var withinFirst := WithinSum(gram, n, perm[..m], unbiased);
    var withinSecond := WithinSum(gram, n, perm[m..], unbiased);
    var across := AcrossSum(gram, n, perm[..m], perm[m..]);
    var groupFirst, groupSecond := m as real, (|perm| - m) as real;
    var denomFirst := PairCount(m, unbiased);
    var denomSecond := PairCount(|perm| - m, unbiased);
    NonZeroProduct(groupFirst, groupSecond);
    statistic := withinFirst / denomFirst + withinSecond / denomSecond - 2.0 * across / (groupFirst * groupSecond);
  }

  /** For points of the sample no lookup falls back to its default, and the entry is their kernel. */
  lemma EntryOfGram(gram: seq<real>, fns: Analysis, pairing: Pairing, points: seq<Point>, i: nat, j: nat)
    requires IsGram(gram, fns, pairing, points) && i < |points| && j < |points|
    ensures Flat(|points|, i, j) < |gram|
    ensures Entry(gram, |points|, i, j) == PairValue(fns, pairing, points[i], points[j])
  {
    FlatFacts(|points|, i, j);
    assert SlotIs(gram, Flat(|points|, i, j), fns, pairing, points);
  }

  lemma WithinSelect<T, U>(w: (T, T) -> real, xs: seq<T>, v: (U, U) -> real, us: seq<U>, unbiased: bool)
    requires |xs| == |us|
    requires forall i, j :: 0 <= i < |xs| && 0 <= j < |xs| ==> w(xs[i], xs[j]) == v(us[i], us[j])
    ensures Within(w, xs, unbiased) == Within(v, us, unbiased)
  {
    CrossSumSelect(w, xs, xs, v, us, us);
    SumByCongruence(Diagonal(w), xs, Diagonal(v), us);
  }

  /** Two weights that agree along two selections give the same statistic. */
  lemma StatisticSelect<T, U>(
    w: (T, T) -> real, xs: seq<T>, ys: seq<T>, v: (U, U) -> real, us: seq<U>, vs: seq<U>, unbiased: bool)
    requires |xs| == |us| >= 2 && |ys| == |vs| >= 2
    requires forall i, j :: 0 <= i < |xs| && 0 <= j < |xs| ==> w(xs[i], xs[j]) == v(us[i], us[j])
    requires forall i, j :: 0 <= i < |ys| && 0 <= j < |ys| ==> w(ys[i], ys[j]) == v(vs[i], vs[j])
    requires forall i, j :: 0 <= i < |xs| && 0 <= j < |ys| ==> w(xs[i], ys[j]) == v(us[i], vs[j])
    ensures Statistic(w, xs, ys, unbiased) == Statistic(v, us, vs, unbiased)
  {
    hide Within, CrossSum;
    WithinSelect(w, xs, v, us, unbiased);
    WithinSelect(w, ys, v, vs, unbiased);
    CrossSumSelect(w, xs, ys, v, us, vs);
  }

  lemma StatisticOfGram(
    gram: seq<real>, fns: Analysis, pairing: Pairing, points: seq<Point>, first: seq<nat>, second: seq<nat>,
    unbiased: bool)
    requires IsGram(gram, fns, pairing, points) && |first| >= 2 && |second| >= 2
    requires forall i :: 0 <= i < |first| ==> first[i] < |points|
    requires forall i :: 0 <= i < |second| ==> second[i] < |points|
    ensures Statistic(EntryWeight(gram, |points|), first, second, unbiased)
         == Statistic(PairWeight(fns, pairing), Select(points, first, []), Select(points, second, []), unbiased)
  {
    hide Statistic, IsGram, Entry, PairValue;
    var w, v := EntryWeight(gram, |points|), PairWeight(fns, pairing);
    forall i: nat, j: nat | i < |points| && j < |points| ensures w(i, j) == v(points[i], points[j]) {
      EntryOfGram(gram, fns, pairing, points, i, j);
    }
    StatisticSelect(w, first, second, v, Select(points, first, []), Select(points, second, []), unbiased);
  }

  /** The shared matrix refines the naive test: at every relabelling, indexing the one matrix gives
      the statistic of the two regrouped samples rebuilt from scratch, bandwidth included. */
  lemma SharedGramRefines(gram: seq<real>, fns: Analysis, kernel: Kernel, points: seq<Point>, m: nat, perm: seq<nat>)
    requires IsGram(gram, fns, Settle(fns, kernel, points), points)
    requires IsPerm(perm, |points|) && 2 <= m <= |perm| - 2
    ensures Statistic(EntryWeight(gram, |points|), perm[..m], perm[m..], IsUnbiased(kernel))
        == Relabelled(fns, kernel, points, m, perm)
  {
    hide IsGram, Statistic, Settle;
    PermFacts(perm, |points|);
    StatisticOfGram(gram, fns, Settle(fns, kernel, points), points, perm[..m], perm[m..], IsUnbiased(kernel));
    SelectSplit(points, perm, m, []);
    SelectPermutes(points, perm, []);
    SettleReorder(fns, kernel, points, Select(points, perm, []));
  }
}
