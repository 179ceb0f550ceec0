/** What the three sums of the statistic conserve, and the symmetries of the statistic of two samples. */
module GramTotals {
  import opened Sums
  import opened Shuffle
  import opened Distances
  import opened Gram
  import opened TwoSample
  import opened Moments

  lemma TotalSnoc(xs: seq<real>, k: nat)
    requires k < |xs|
    ensures Total(xs[..k + 1]) == Total(xs[..k]) + xs[k]
  {
    SumBySnoc((x: real) => x, xs, k);
  }

  lemma TotalNext(xs: seq<real>, start: nat, k: nat)
    requires 0 < k && start + (k - 1) < |xs|
    ensures Total(xs[..start + k]) == Total(xs[..start + (k - 1)]) + xs[start + (k - 1)]
  {
    TotalSnoc(xs, start + (k - 1));
    hide *;
    assert start + (k - 1) + 1 == start + k;
  }

  /** The sum of the diagonal slots. */
  function GramTrace(gram: seq<real>, n: nat): real {
    DiagonalSum(EntryWeight(gram, n), Identity(n))
  }

  // ---------- All slots, row by row ----------

  lemma FlatNext(n: nat, i: nat)
    ensures Flat(n, i + 1, 0) == Flat(n, i, 0) + n && Flat(n, 0, 0) == 0
  {
    assert (i + 1) * n == i * n + n;
  }

  lemma FlatEnd(n: nat)
    ensures Flat(n, n, 0) == n * n
  {
  }

  lemma RowSnoc(gram: seq<real>, n: nat, i: nat, k: nat)
    requires |gram| == n * n && i < n && k < n
    ensures Flat(n, i, 0) + k == Flat(n, i, k) < |gram|
    ensures SumBy(From<nat>(EntryWeight(gram, n), i), Identity(k + 1))
         == SumBy(From<nat>(EntryWeight(gram, n), i), Identity(k)) + gram[Flat(n, i, k)]
  {
    FlatFacts(n, i, k);
    hide Flat;
    assert Identity(k + 1)[..k] == Identity(k) && Identity(k + 1)[k] == k;
  }

  lemma {:induction false} RowOfSlots(gram: seq<real>, n: nat, i: nat, k: nat)
    requires |gram| == n * n && i < n && k <= n
    ensures Flat(n, i, 0) + k <= |gram|
    ensures Total(gram[..Flat(n, i, 0) + k])
         == Total(gram[..Flat(n, i, 0)]) + SumBy(From<nat>(EntryWeight(gram, n), i), Identity(k))
  {
    if k > 0 {
      RowOfSlots(gram, n, i, k - 1);
      RowSnoc(gram, n, i, k - 1);
      hide *;
      TotalNext(gram, Flat(n, i, 0), k);
    } else {
      FlatFacts(n, i, 0);
      assert Flat(n, i, 0) + 0 == Flat(n, i, 0);
    }
  }

  lemma RowsSnoc(w: (nat, nat) -> real, n: nat, i: nat)
    requires 0 < i
    ensures SumBy(Rows(w, Identity(n)), Identity(i))
         == SumBy(Rows(w, Identity(n)), Identity(i - 1)) + SumBy(From<nat>(w, i - 1), Identity(n))
  {
    assert Identity(i)[..i - 1] == Identity(i - 1) && Identity(i)[i - 1] == i - 1;
  }

  lemma RowTotal(gram: seq<real>, n: nat, i: nat, start: nat, end: nat)
    requires |gram| == n * n && i < n && start == Flat(n, i, 0) && end == Flat(n, i + 1, 0)
    ensures start <= end <= |gram|
    ensures Total(gram[..end]) == Total(gram[..start]) + SumBy(From<nat>(EntryWeight(gram, n), i), Identity(n))
  {
    FlatNext(n, i);
    assert end == start + n;
    hide *;
    RowOfSlots(gram, n, i, n);
  }

  lemma {:induction false} RowsOfSlots(gram: seq<real>, n: nat, i: nat)
    requires |gram| == n * n && i <= n
    ensures Flat(n, i, 0) <= |gram|
    ensures Total(gram[..Flat(n, i, 0)]) == SumBy(Rows(EntryWeight(gram, n), Identity(n)), Identity(i))
  {
    if i > 0 {
      hide *;
      RowsOfSlots(gram, n, i - 1);
      RowTotal(gram, n, i - 1, Flat(n, i - 1, 0), Flat(n, i, 0));
      RowsSnoc(EntryWeight(gram, n), n, i);
    } else {
      FlatNext(n, 0);
      hide Flat, EntryWeight;
      assert gram[..0] == [];
    }
  }

  lemma SlotsAreCross(gram: seq<real>, n: nat)
    requires |gram| == n * n
    ensures Total(gram) == CrossSum(EntryWeight(gram, n), Identity(n), Identity(n))
  {
    RowsOfSlots(gram, n, n);
    FlatEnd(n);
    assert gram[..n * n] == gram;
    hide Flat, Total, EntryWeight;
  }

  // ---------- The sums of the statistic ----------

  /** The kernel of two points by number, symmetric everywhere. */
  function PointWeight(fns: Analysis, pairing: Pairing, points: seq<Point>): (nat, nat) -> real {
    (i: nat, j: nat) => if i < |points| && j < |points| then PairValue(fns, pairing, points[i], points[j]) else 0.0
  }

  lemma PointWeightSymmetric(fns: Analysis, pairing: Pairing, points: seq<Point>)
    ensures var v := PointWeight(fns, pairing, points); forall i, j :: v(i, j) == v(j, i)
  {
    var v := PointWeight(fns, pairing, points);
    forall i: nat, j: nat ensures v(i, j) == v(j, i) {
      if i < |points| && j < |points| {
        PairValueSymmetric(fns, pairing, points[i], points[j]);
      }
    }
  }

  lemma EntriesArePoints(gram: seq<real>, fns: Analysis, pairing: Pairing, points: seq<Point>)
    requires IsGram(gram, fns, pairing, points)
    ensures var w, v := EntryWeight(gram, |points|), PointWeight(fns, pairing, points);
            forall i: nat, j: nat :: i < |points| && j < |points| ==> w(i, j) == v(i, j)
  {
    var w, v := EntryWeight(gram, |points|), PointWeight(fns, pairing, points);
    forall i: nat, j: nat | i < |points| && j < |points| ensures w(i, j) == v(i, j) {
      EntryOfGram(gram, fns, pairing, points, i, j);
    }
  }

  /** Two weights that agree on the entries of a permutation give the same sums along it. */
  lemma SumsAgree(
    w: (nat, nat) -> real, v: (nat, nat) -> real, first: seq<nat>, second: seq<nat>, n: nat, unbiased: bool)
    requires forall i: nat, j: nat :: i < n && j < n ==> w(i, j) == v(i, j)
    requires forall i :: 0 <= i < |first| ==> first[i] < n
    requires forall i :: 0 <= i < |second| ==> second[i] < n
    ensures Within(w, first, unbiased) == Within(v, first, unbiased)
    ensures CrossSum(w, first, second) == CrossSum(v, first, second)
  {
    hide Within, CrossSum;
    WithinSelect(w, first, v, first, unbiased);
    CrossSumSelect(w, first, second, v, first, second);
  }

  lemma SumsOfAll(w: (nat, nat) -> real, v: (nat, nat) -> real, n: nat)
    requires forall i: nat, j: nat :: i < n && j < n ==> w(i, j) == v(i, j)
    ensures CrossSum(w, Identity(n), Identity(n)) == CrossSum(v, Identity(n), Identity(n))
    ensures DiagonalSum(w, Identity(n)) == DiagonalSum(v, Identity(n))
  {
    hide CrossSum, DiagonalSum;
    CrossSumSelect(w, Identity(n), Identity(n), v, Identity(n), Identity(n));
    DiagonalSelect(w, v, Identity(n));
  }

  /** At every relabelling the two within-group sums and twice the sum across, as the code reads them from
      the matrix, add up to all its slots, less the diagonal in the unbiased form. */
  lemma GramConserved(
    gram: seq<real>, fns: Analysis, pairing: Pairing, points: seq<Point>, m: nat, perm: seq<nat>, unbiased: bool)
    requires IsGram(gram, fns, pairing, points) && IsPerm(perm, |points|) && m <= |points|
    ensures |perm| == |points|
    ensures var w := EntryWeight(gram, |points|);
            Within(w, perm[..m], unbiased) + Within(w, perm[m..], unbiased) + 2.0 * CrossSum(w, perm[..m], perm[m..])
            == Total(gram) - if unbiased then GramTrace(gram, |points|) else 0.0
  {
    var n := |points|;
    PermFacts(perm, n);
    var w, v := EntryWeight(gram, n), PointWeight(fns, pairing, points);
    EntriesArePoints(gram, fns, pairing, points);
    PointWeightSymmetric(fns, pairing, points);
    SlotsAreCross(gram, n);
    hide IsGram, EntryWeight, PointWeight, CrossSum, Total, DiagonalSum, Within, IsPerm, Identity;
    var first, second, all := perm[..m], perm[m..], Identity(n);
    assert first + second == perm;
    assert multiset(first + second) == multiset(all) by { SameMultiset(perm, n); }
    SumsConserved(v, all, first, second, unbiased);
    SumsAgree(w, v, first, second, n, unbiased);
    SumsAgree(w, v, second, first, n, unbiased);
    SumsOfAll(w, v, n);
  }

  lemma SameMultiset(perm: seq<nat>, n: nat)
    requires IsPerm(perm, n)
    ensures multiset(perm) == multiset(Identity(n))
  {
  }

  lemma DiagonalSelect(w: (nat, nat) -> real, v: (nat, nat) -> real, all: seq<nat>)
    requires forall i :: 0 <= i < |all| ==> w(all[i], all[i]) == v(all[i], all[i])
    ensures DiagonalSum(w, all) == DiagonalSum(v, all)
  {
    SumByCongruence(Diagonal(w), all, Diagonal(v), all);
  }

  // ---------- Two samples ----------

  /** Which sample is called the first makes no difference, for either kernel. */
  lemma SamplesSwap(fns: Analysis, kernel: Kernel, x: seq<Point>, y: seq<Point>)
    requires |x| >= 2 && |y| >= 2
    ensures FromScratch(fns, kernel, x, y) == FromScratch(fns, kernel, y, x)
  {
    SettleReorder(fns, kernel, x + y, y + x);
    var pairing := Settle(fns, kernel, x + y);
    var w := PairWeight(fns, pairing);
    forall a, b ensures w(a, b) == w(b, a) {
      PairValueSymmetric(fns, pairing, a, b);
    }
    hide Settle, Statistic, PairWeight;
    StatisticSwap(w, x, y, IsUnbiased(kernel));
  }

  /** The energy distance of two samples with the same points is 0. */
  lemma EnergyOfSame(fns: Analysis, x: seq<Point>, y: seq<Point>)
    requires |x| >= 2 && multiset(x) == multiset(y)
    ensures |y| == |x| && FromScratch(fns, Energy, x, y) == 0.0
  {
    assert |y| == |multiset(y)| == |multiset(x)| == |x|;
    var w := PairWeight(fns, NegativeDistance);
    StatisticReorder(w, x, y, x, x, false);
    StatisticOfIdentical(w, x);
    hide Statistic, PairWeight;
  }
}
