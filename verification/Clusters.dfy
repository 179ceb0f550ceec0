/** The statistic of points that lie in two places only. */
module Clusters {
  import opened Arithmetic
  import opened Sums
  import opened MonteCarlo
  import opened Distances
  import opened TwoSample

  // ---------- Sums over two places ----------

  /** The weight of two points is `c` in the same place and `c - u` in different places. */
  ghost predicate Clustered(w: (Point, Point) -> real, near: Point, far: Point, c: real, u: real) {
    near != far && w(near, near) == c && w(far, far) == c && w(near, far) == c - u && w(far, near) == c - u
  }

  ghost predicate InPlaces(xs: seq<Point>, near: Point, far: Point) {
    forall i :: 0 <= i < |xs| ==> xs[i] == near || xs[i] == far
  }

  /** How many of the points are in the near place. */
  ghost function Nears(xs: seq<Point>, near: Point): (n: nat)
    ensures n <= |xs|
  {
    assert |xs| == |multiset(xs)|;
    assert multiset(xs) == multiset(xs)[near := 0] + multiset{}[near := multiset(xs)[near]];
    multiset(xs)[near]
  }

  lemma NearsSnoc(xs: seq<Point>, near: Point)
    requires xs != []
    ensures Nears(xs, near) == Nears(xs[..|xs| - 1], near) + if xs[|xs| - 1] == near then 1 else 0
  {
    assert xs == xs[..|xs| - 1] + [xs[|xs| - 1]];
  }

  /** `n` weights of which `k` are across. */
  function Weighed(c: real, u: real, n: int, k: int): real {
    c * n as real - u * k as real
  }

  function WeighedPairs(c: real, u: real, m: int, k: int, mixed: int): real {
    Weighed(c, u, m * k, mixed)
  }

  lemma WeighedAdd(c: real, u: real, n: int, k: int, n': int, k': int)
    ensures Weighed(c, u, n, k) + Weighed(c, u, n', k') == Weighed(c, u, n + n', k + k')
  {
    assert (n + n') as real == n as real + n' as real && (k + k') as real == k as real + k' as real;
  }

  ghost function Across(x: Point, ys: seq<Point>, near: Point): nat {
    if x == near then |ys| - Nears(ys, near) else Nears(ys, near)
  }

  lemma {:induction false} RowOfClusters(
    w: (Point, Point) -> real, near: Point, far: Point, c: real, u: real, x: Point, ys: seq<Point>)
    requires Clustered(w, near, far, c, u) && InPlaces(ys, near, far) && (x == near || x == far)
    ensures RowSum(w, x, ys) == Weighed(c, u, |ys|, Across(x, ys, near))
  {
    if ys != [] {
      var k := |ys| - 1;
      RowOfClusters(w, near, far, c, u, x, ys[..k]);
      NearsSnoc(ys, near);
      hide Nears;
      var d := if x == ys[k] then 0 else 1;
      WeighedAdd(c, u, k, Across(x, ys[..k], near), 1, d);
    }
  }

  ghost function Mixed(xs: seq<Point>, ys: seq<Point>, near: Point): nat {
    if xs == [] then 0 else Mixed(xs[..|xs| - 1], ys, near) + Across(xs[|xs| - 1], ys, near)
  }

  /** Pairs across, of groups of `m` and `k` with `a` and `b` members in the near place. */
  function PairsApart(a: int, m: int, b: int, k: int): int {
    a * (k - b) + (m - a) * b
  }

  lemma {:induction false} MixedIs(xs: seq<Point>, ys: seq<Point>, near: Point)
    ensures Mixed(xs, ys, near) == PairsApart(Nears(xs, near), |xs|, Nears(ys, near), |ys|)
  {
    if xs != [] {
      var k := |xs| - 1;
      MixedIs(xs[..k], ys, near);
      NearsSnoc(xs, near);
      hide Nears, Mixed;
      MixedNext(Nears(xs[..k], near), Nears(ys, near), k, |ys|, xs[k] == near);
    }
  }

  lemma MixedNext(a: nat, b: nat, k: nat, n: nat, isNear: bool)
    ensures var a' := if isNear then a + 1 else a;
            a' * (n - b) + (k + 1 - a') * b == a * (n - b) + (k - a) * b + if isNear then n - b else b
  {
    assert (a + 1) * (n - b) == a * (n - b) + (n - b) && (k + 1 - a) * b == (k - a) * b + b;
  }

  lemma {:induction false} CrossOfClusters(
    w: (Point, Point) -> real, near: Point, far: Point, c: real, u: real, xs: seq<Point>, ys: seq<Point>)
    requires Clustered(w, near, far, c, u) && InPlaces(xs, near, far) && InPlaces(ys, near, far)
    ensures CrossSum(w, xs, ys) == WeighedPairs(c, u, |xs|, |ys|, Mixed(xs, ys, near))
  {
    hide Weighed, Across;
    if xs != [] {
      var k := |xs| - 1;
      CrossOfClusters(w, near, far, c, u, xs[..k], ys);
      RowOfClusters(w, near, far, c, u, xs[k], ys);
      WeighedAdd(c, u, k * |ys|, Mixed(xs[..k], ys, near), |ys|, Across(xs[k], ys, near));
      assert k * |ys| + |ys| == |xs| * |ys|;
    } else {
      NothingWeighed(c, u);
    }
  }

  lemma NothingWeighed(c: real, u: real)
    ensures Weighed(c, u, 0, 0) == 0.0
  {
  }

  lemma {:induction false} DiagonalOfClusters(
    w: (Point, Point) -> real, near: Point, far: Point, c: real, u: real, xs: seq<Point>)
    requires Clustered(w, near, far, c, u) && InPlaces(xs, near, far)
    ensures DiagonalSum(w, xs) == c * |xs| as real
  {
    if xs != [] {
      DiagonalOfClusters(w, near, far, c, u, xs[..|xs| - 1]);
      assert c * |xs| as real == c * (|xs| - 1) as real + c;
    }
  }

  // ---------- The statistic ----------

  /** The share of a group of `n` that `a` of its members are. */
  function Part(a: nat, n: nat): (p: real)
    requires a <= n && n > 0
  {
    a as real / n as real
  }

  lemma PartTimes(a: nat, n: nat)
    requires a <= n && n > 0
    ensures Part(a, n) * n as real == a as real && 0.0 <= Part(a, n) <= 1.0
  {
  }

  function Dip(c: real, u: real, s: real): real {
    c - u * s
  }

  lemma MixedShare(p: real, q: real, x: real, y: real, a: real, b: real)
    requires p * x == a && q * y == b
    ensures a * (y - b) + (x - a) * b == (p * (1.0 - q) + (1.0 - p) * q) * (x * y)
  {
    assert a * (y - b) == (p * x) * (y - q * y) == (p * (1.0 - q)) * (x * y);
    assert (x - a) * b == (x - p * x) * (q * y) == ((1.0 - p) * q) * (x * y);
  }

  lemma MeanOf(c: real, u: real, s: real, n: real)
    requires n > 0.0
    ensures Over(c * n - u * (s * n), n) == c - u * s
  {
    assert c * n - u * (s * n) == (c - u * s) * n;
  }

  /** How likely a member of each group are in different places. */
  function Apart(p: real, q: real): real {
    p * (1.0 - q) + (1.0 - p) * q
  }

  lemma MixedReal(m: nat, k: nat, a: nat, b: nat)
    requires a <= m && b <= k
    ensures (a * (k - b) + (m - a) * b) as real
         == a as real * (k as real - b as real) + (m as real - a as real) * b as real
    ensures (m * k) as real == m as real * k as real
  {
    assert (a * (k - b)) as real == a as real * (k as real - b as real);
    assert ((m - a) * b) as real == (m as real - a as real) * b as real;
  }

  /** The mean over pairs of two groups. */
  lemma MeanAcross(c: real, u: real, m: nat, k: nat, a: nat, b: nat, mixed: nat)
    requires a <= m && b <= k && m > 0 && k > 0 && mixed == PairsApart(a, m, b, k)
    ensures Over(WeighedPairs(c, u, m, k, mixed), Sizes(m, k)) == Dip(c, u, Apart(Part(a, m), Part(b, k)))
  {
    var p, q, x, y := Part(a, m), Part(b, k), m as real, k as real;
    PartTimes(a, m);
    PartTimes(b, k);
    MixedReal(m, k, a, b);
    PositiveProduct(x, y);
    hide Over, Part;
    MixedShare(p, q, x, y, a as real, b as real);
    MeanOf(c, u, Apart(p, q), x * y);
  }

  lemma FewerPairs(c: real, n: real)
    ensures n * n == n * (n - 1.0) + n
    ensures c * (n * n) - c * n == c * (n * (n - 1.0))
  {
    assert n * n == n * (n - 1.0) + n;
    assert c * (n * (n - 1.0) + n) == c * (n * (n - 1.0)) + c * n;
  }

  lemma MeanLess(c: real, x: real, few: real, all: real)
    requires 0.0 < few <= all && x >= 0.0
    ensures Over(c * few - x, few) <= Over(c * all - x, all)
    ensures x == 0.0 ==> Over(c * few - x, few) == c
  {
    var f, a := x / few, x / all;
    assert f * few == x && a * all == x;
    if f < a {
      assert f * few <= f * all < a * all;
    }
    assert (c - f) * few == c * few - x && (c - a) * all == c * all - x;
  }

  lemma WeighedIs(c: real, u: real, n: nat, mixed: nat)
    requires u >= 0.0
    ensures WeighedPairs(c, u, n, n, mixed) == c * (n as real * n as real) - u * mixed as real
    ensures u * mixed as real >= 0.0 && (mixed == 0 ==> u * mixed as real == 0.0)
  {
    assert (n * n) as real == n as real * n as real;
  }

  /** The sum within a group, in terms of how many of its points are in the near place. */
  function GroupSum(c: real, u: real, n: nat, mixed: nat, unbiased: bool): real {
    WeighedPairs(c, u, n, n, mixed) - if unbiased then c * n as real else 0.0
  }

  lemma WithinMean(c: real, u: real, n: nat, mixed: nat, unbiased: bool)
    requires n >= 2 && u >= 0.0
    ensures var mean := Over(GroupSum(c, u, n, mixed, unbiased), PairCount(n, unbiased));
            var biased := Over(WeighedPairs(c, u, n, n, mixed), Sizes(n, n));
            mean <= biased && (!unbiased ==> mean == biased) && (mixed == 0 ==> mean == c)
  {
    var r, x := n as real, u * mixed as real;
    PositiveProduct(r, r);
    PositiveProduct(r, r - 1.0);
    FewerPairs(c, r);
    GroupSumIs(c, u, n, mixed, unbiased);
    PairCountIs(n, unbiased);
    MeansCompared(
      c, x, if unbiased then r * (r - 1.0) else r * r, r * r, GroupSum(c, u, n, mixed, unbiased),
      PairCount(n, unbiased), WeighedPairs(c, u, n, n, mixed), Sizes(n, n));
    hide *;
  }

  lemma MeansCompared(c: real, x: real, few: real, all: real, sum: real, count: real, biased: real, size: real)
    requires 0.0 < few <= all && x >= 0.0
    requires sum == c * few - x && count == few && biased == c * all - x && size == all
    ensures Over(sum, count) <= Over(biased, size)
    ensures few == all ==> Over(sum, count) == Over(biased, size)
    ensures x == 0.0 ==> Over(sum, count) == c
  {
    if few == all {
      assert c * few == c * all;
    }
    hide Over;
    MeanLess(c, x, few, all);
  }

  lemma GroupSumIs(c: real, u: real, n: nat, mixed: nat, unbiased: bool)
    requires u >= 0.0
    ensures var r, x := n as real, u * mixed as real;
            && GroupSum(c, u, n, mixed, unbiased) == c * (if unbiased then r * (r - 1.0) else r * r) - x
            && WeighedPairs(c, u, n, n, mixed) == c * (r * r) - x
            && x >= 0.0 && (mixed == 0 ==> x == 0.0)
  {
    WeighedIs(c, u, n, mixed);
    FewerPairs(c, n as real);
    hide WeighedPairs;
  }

  lemma AllAlike(a: nat, n: nat)
    requires a == 0 || a == n
    ensures PairsApart(a, n, a, n) == 0
  {
  }

  lemma WithinIs(
    w: (Point, Point) -> real, near: Point, far: Point, c: real, u: real, xs: seq<Point>, unbiased: bool)
    requires Clustered(w, near, far, c, u) && InPlaces(xs, near, far)
    ensures Within(w, xs, unbiased) == GroupSum(c, u, |xs|, Mixed(xs, xs, near), unbiased)
  {
    CrossOfClusters(w, near, far, c, u, xs, xs);
    DiagonalOfClusters(w, near, far, c, u, xs);
    hide CrossSum, DiagonalSum, Mixed, Nears, Clustered, WeighedPairs;
  }

  lemma GroupMean(c: real, u: real, n: nat, a: nat, mixed: nat, unbiased: bool)
    requires n >= 2 && u >= 0.0 && a <= n && mixed == PairsApart(a, n, a, n)
    ensures var p, mean := Part(a, n), Over(GroupSum(c, u, n, mixed, unbiased), PairCount(n, unbiased));
            && mean <= Dip(c, u, Apart(p, p))
            && (!unbiased ==> mean == Dip(c, u, Apart(p, p)))
            && (a == 0 || a == n ==> mean == c)
  {
    MeanAcross(c, u, n, n, a, a, mixed);
    WithinMean(c, u, n, mixed, unbiased);
    if a == 0 || a == n {
      AllAlike(a, n);
    }
    hide PairCount, Over, Part, Apart, Dip, Sizes, WeighedPairs, PairsApart, GroupSum;
  }

  /** Twice the weight of the step, times the squared difference of the groups' shares in the near place. */
  function Separation(u: real, p: real, q: real): real {
    2.0 * u * Square(p - q)
  }

  /** The statistic of groups in two places. */
  lemma StatisticOfClusters(
    w: (Point, Point) -> real, near: Point, far: Point, c: real, u: real, first: seq<Point>, second: seq<Point>,
    unbiased: bool)
    requires Clustered(w, near, far, c, u) && u >= 0.0
    requires InPlaces(first, near, far) && InPlaces(second, near, far) && |first| >= 2 && |second| >= 2
    ensures var p, q := Part(Nears(first, near), |first|), Part(Nears(second, near), |second|);
            var statistic := Statistic(w, first, second, unbiased);
            && statistic <= Separation(u, p, q)
            && (!unbiased ==> statistic == Separation(u, p, q))
            && (Nears(first, near) == |first| && Nears(second, near) == 0 ==> statistic == u + u)
  {
    var m, k, a, b := |first|, |second|, Nears(first, near), Nears(second, near);
    var p, q := Part(a, m), Part(b, k);
    StatisticParts(w, first, second, unbiased);
    hide *;
    WithinIs(w, near, far, c, u, first, unbiased);
    WithinIs(w, near, far, c, u, second, unbiased);
    CrossOfClusters(w, near, far, c, u, first, second);
    MixedIs(first, first, near);
    MixedIs(second, second, near);
    MixedIs(first, second, near);
    GroupMean(c, u, m, a, Mixed(first, first, near), unbiased);
    GroupMean(c, u, k, b, Mixed(second, second, near), unbiased);
    MeanAcross(c, u, m, k, a, b, Mixed(first, second, near));
    SquareFromMeans(c, u, p, q);
    if a == m && b == 0 {
      WholePart(c, u, m, k);
    }
  }

  lemma WholePart(c: real, u: real, m: nat, k: nat)
    requires m > 0 && k > 0
    ensures Dip(c, u, Apart(Part(m, m), Part(0, k))) == c - u
  {
    assert Part(m, m) == 1.0 && Part(0, k) == 0.0;
  }

  lemma SquareFromMeans(c: real, u: real, p: real, q: real)
    ensures Dip(c, u, Apart(p, p)) + Dip(c, u, Apart(q, q)) - 2.0 * Dip(c, u, Apart(p, q)) == Separation(u, p, q)
  {
    var across := Apart(p, q);
    assert 2.0 * across - Apart(p, p) - Apart(q, q) == 2.0 * Square(p - q);
    assert u * (2.0 * across - Apart(p, p) - Apart(q, q)) == 2.0 * (u * across) - u * Apart(p, p) - u * Apart(q, q);
  }

  // ---------- Splits other than the observed one ----------

  /** The larger of the two group sizes. */
  function Larger(m: nat, k: nat): nat {
    if m >= k then m else k
  }

  /** Unless the groups are the two places, their shares differ by less than 1, and by a margin. */
  lemma SharesApart(a: nat, b: nat, m: nat, k: nat)
    requires m > 0 && k > 0 && a <= m && b <= k && a + b == m && a != m && !(a == 0 && m == k)
    ensures Square(Part(a, m) - Part(b, k)) <= 1.0 - 1.0 / Larger(m, k) as real
  {
    var p, q, step := Part(a, m), Part(b, k), 1.0 / Larger(m, k) as real;
    PartTimes(a, m);
    PartTimes(b, k);
    StepBelow(a, m, Larger(m, k));
    StepBelow(b, k, Larger(m, k));
    hide Part;
    assert p - q <= 1.0 - step && q - p <= 1.0 - step;
    SquareWithin(p - q, 1.0 - step);
  }

  /** Parts other than none and all keep a distance from both ends. */
  lemma StepBelow(a: nat, m: nat, most: nat)
    requires a <= m && 0 < m <= most
    ensures a < m ==> Part(a, m) <= 1.0 - 1.0 / most as real
    ensures a > 0 ==> Part(a, m) >= 1.0 / most as real
    ensures 0.0 < 1.0 / most as real <= 1.0
  {
    StepSmall(m, most);
    PartTimes(a, m);
    var n, step, p := m as real, 1.0 / most as real, Part(a, m);
    hide Part;
    FromProducts(p, step, n, a as real, step * n);
  }

  lemma FromProducts(p: real, step: real, n: real, a: real, s: real)
    requires n > 0.0 && p * n == a && step * n == s && s <= 1.0
    ensures a >= 1.0 ==> step <= p
    ensures a + 1.0 <= n ==> p <= 1.0 - step
  {
    if a >= 1.0 {
      CancelDivisor(step, p, n);
    }
    if a + 1.0 <= n {
      SumWithinOne(p, step, n, a, s);
    }
  }

  lemma SumWithinOne(p: real, step: real, n: real, a: real, s: real)
    requires n > 0.0 && p * n == a && step * n == s && a + s <= n
    ensures p + step <= 1.0
  {
    assert (p + step) * n == a + s;
    assert 1.0 * n == n;
    CancelDivisor(p + step, 1.0, n);
  }

  lemma StepSmall(m: nat, most: nat)
    requires 0 < m <= most
    ensures var step := 1.0 / most as real; step * m as real <= 1.0 && 0.0 < step <= 1.0
  {
    var step := 1.0 / most as real;
    assert step * most as real == 1.0;
    MultiplyMonotone(m as real, most as real, step);
  }

  lemma SquareWithin(x: real, y: real)
    requires -y <= x <= y <= 1.0
    ensures Square(x) <= y
  {
    SquareOfNegative(x);
    hide Square;
    SquareBelow(if x >= 0.0 then x else -x);
  }

  lemma SquareBelow(x: real)
    requires 0.0 <= x <= 1.0
    ensures Square(x) <= x
  {
    assert x * x <= 1.0 * x;
  }

  lemma SquareOfNegative(x: real)
    ensures Square(-x) == Square(x)
  {
  }
}
