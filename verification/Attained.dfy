/** Data that attains the least p-value of its shape: all baseline points in one place, all run samples in another. */
module Attained {
  import opened Words
  import opened Sums
  import opened Shuffle
  import opened MonteCarlo
  import opened Results
  import opened Distances
  import opened Gram
  import opened TwoSample
  import opened Moments
  import opened Excursions
  import opened PermutationTest
  import opened Conformal
  import opened Gate
  import opened Assessment
  import opened GateExactness
  import opened Assess
  import opened Floors
  import opened RunExactness
  import Clusters

  const NEAR: Point := [0.0]

  function Far(d: real): Point {
    [d]
  }

  function Copies(p: Point, n: nat): (ps: seq<Point>)
    ensures |ps| == n && forall i :: 0 <= i < n ==> ps[i] == p
  {
    seq(n, _ => p)
  }

  // ---------- Relabelled points in two places ----------

  lemma AllNear(xs: seq<Point>, near: Point)
    ensures Clusters.Nears(xs, near) == |xs| ==> forall i :: 0 <= i < |xs| ==> xs[i] == near
    ensures Clusters.Nears(xs, near) == 0 ==> forall i :: 0 <= i < |xs| ==> xs[i] != near
    ensures (forall i :: 0 <= i < |xs| ==> xs[i] == near) ==> Clusters.Nears(xs, near) == |xs|
    ensures (forall i :: 0 <= i < |xs| ==> xs[i] != near) ==> Clusters.Nears(xs, near) == 0
    decreases |xs|
  {
    if xs != [] {
      AllNear(xs[..|xs| - 1], near);
      Clusters.NearsSnoc(xs, near);
    }
  }

  lemma NearsConcat(xs: seq<Point>, ys: seq<Point>, near: Point)
    ensures Clusters.Nears(xs + ys, near) == Clusters.Nears(xs, near) + Clusters.Nears(ys, near)
  {
  }

  lemma NearsReorder(xs: seq<Point>, ys: seq<Point>, near: Point)
    requires multiset(xs) == multiset(ys)
    ensures Clusters.Nears(xs, near) == Clusters.Nears(ys, near)
  {
  }

  function Places(m: nat, k: nat, near: Point, far: Point): (points: seq<Point>)
    ensures |points| == m + k && points[..m] == Copies(near, m) && points[m..] == Copies(far, k)
  {
    Copies(near, m) + Copies(far, k)
  }

  lemma SelectPlaces(m: nat, k: nat, near: Point, far: Point, part: seq<nat>)
    requires near != far && forall i :: 0 <= i < |part| ==> part[i] < m + k
    ensures var xs := Select(Places(m, k, near, far), part, []);
            && Clusters.InPlaces(xs, near, far)
            && (Clusters.Nears(xs, near) == |xs| ==> forall i :: 0 <= i < |part| ==> part[i] < m)
            && (Clusters.Nears(xs, near) == 0 ==> forall i :: 0 <= i < |part| ==> part[i] >= m)
  {
    var xs := Select(Places(m, k, near, far), part, []);
    AllNear(xs, near);
    hide Clusters.Nears;
    forall i | 0 <= i < |part| ensures xs[i] == if part[i] < m then near else far {}
  }

  lemma NearsOfParts(m: nat, k: nat, near: Point, far: Point, order: seq<nat>)
    requires near != far && IsPerm(order, m + k)
    ensures |order| == m + k
    ensures var points := Places(m, k, near, far);
            Clusters.Nears(Select(points, order[..m], []), near)
            + Clusters.Nears(Select(points, order[m..], []), near) == m
  {
    PermFacts(order, m + k);
    var points := Places(m, k, near, far);
    var first, second := Select(points, order[..m], []), Select(points, order[m..], []);
    assert IsPerm(order, |points|);
    SelectSplit(points, order, m, []);
    SelectPermutes(points, order, []);
    hide IsPerm, Clusters.Nears;
    NearsConcat(first, second, near);
    NearsReorder(first + second, points, near);
    NearsConcat(Copies(near, m), Copies(far, k), near);
    AllNear(Copies(near, m), near);
    AllNear(Copies(far, k), near);
  }

  /** A relabelling that changes the split does not give the two places to the two groups. */
  lemma RelabelledNears(m: nat, k: nat, near: Point, far: Point, order: seq<nat>)
    requires near != far && IsPerm(order, m + k)
    ensures |order| == m + k
    ensures var points := Places(m, k, near, far);
            var first, second := Select(points, order[..m], []), Select(points, order[m..], []);
            var a, b := Clusters.Nears(first, near), Clusters.Nears(second, near);
            && Clusters.InPlaces(first, near, far) && Clusters.InPlaces(second, near, far)
            && a + b == m && (!SameSplit(order, m) ==> a != m && !(a == 0 && m == k))
  {
    PermFacts(order, m + k);
    NearsOfParts(m, k, near, far, order);
    assert forall i :: 0 <= i < m ==> order[..m][i] < m + k;
    assert forall i :: 0 <= i < k ==> order[m..][i] < m + k;
    hide *;
    SelectPlaces(m, k, near, far, order[..m]);
    SelectPlaces(m, k, near, far, order[m..]);
    ChangedSplit(order, m, k, Clusters.Nears(Select(Places(m, k, near, far), order[..m], []), near));
  }

  lemma ChangedSplit(order: seq<nat>, m: nat, k: nat, a: nat)
    requires |order| == m + k
    requires a == m ==> forall i :: 0 <= i < m ==> order[..m][i] < m
    requires a == 0 ==> forall i :: 0 <= i < m ==> order[..m][i] >= m
    ensures !SameSplit(order, m) ==> a != m && !(a == 0 && m == k)
  {
    assert forall i :: 0 <= i < m ==> order[..m][i] == order[i];
  }

  lemma SettlePlaces(fns: Analysis, kernel: Kernel, m: nat, k: nat, near: Point, far: Point, order: seq<nat>)
    requires IsPerm(order, m + k)
    ensures |order| == m + k
    ensures var points := Places(m, k, near, far);
            Settle(fns, kernel, Select(points, order[..m], []) + Select(points, order[m..], []))
            == Settle(fns, kernel, points)
  {
    var points := Places(m, k, near, far);
    PermFacts(order, m + k);
    hide IsPerm, Settle;
    assert IsPerm(order, |points|);
    SelectSplit(points, order, m, []);
    SelectPermutes(points, order, []);
    SettleReorder(fns, kernel, Select(points, order, []), points);
  }

  /** How far the statistic of any other split falls short of the observed one. */
  lemma OtherSplitBelow(
    fns: Analysis, kernel: Kernel, m: nat, k: nat, near: Point, far: Point, c: real, u: real, order: seq<nat>)
    requires m >= 2 && k >= 2 && u >= 0.0 && IsPerm(order, m + k)
    requires Clusters.Clustered(PairWeight(fns, Settle(fns, kernel, Places(m, k, near, far))), near, far, c, u)
    ensures |order| == m + k
    ensures var value := Relabelled(fns, kernel, Places(m, k, near, far), m, order);
            && (!SameSplit(order, m) ==> value <= Shrunk(u, Clusters.Larger(m, k)))
            && (kernel.Energy? ==> value >= 0.0)
  {
    var points := Places(m, k, near, far);
    assert near != far;
    RelabelledNears(m, k, near, far, order);
    SettlePlaces(fns, kernel, m, k, near, far, order);
    hide *;
    hide IsPerm;
    var first, second := Select(points, order[..m], []), Select(points, order[m..], []);
    Clusters.StatisticOfClusters(
      PairWeight(fns, Settle(fns, kernel, points)), near, far, c, u, first, second, IsUnbiased(kernel));
    RelabelledIsStatistic(fns, kernel, points, m, order);
    var a, b := Clusters.Nears(first, near), Clusters.Nears(second, near);
    SeparationNonNegative(u, Clusters.Part(a, m), Clusters.Part(b, k));
    if !SameSplit(order, m) {
      Clusters.SharesApart(a, b, m, k);
      SeparationBelow(u, Clusters.Part(a, m), Clusters.Part(b, k), Clusters.Larger(m, k));
    }
  }

  lemma RelabelledIsStatistic(fns: Analysis, kernel: Kernel, points: seq<Point>, m: nat, order: seq<nat>)
    requires 2 <= m <= |order| - 2
    ensures var first, second := Select(points, order[..m], []), Select(points, order[m..], []);
            && Relabelled(fns, kernel, points, m, order)
                == Statistic(PairWeight(fns, Settle(fns, kernel, first + second)), first, second, IsUnbiased(kernel))
            && IsUnbiased(kernel) == !kernel.Energy?
  {
    hide Statistic, Settle;
  }

  /** Twice the step, less one part in `n`. */
  function Shrunk(u: real, n: nat): real
    requires n > 0
  {
    u + u - (u + u) * (1.0 / n as real)
  }

  lemma SeparationNonNegative(u: real, p: real, q: real)
    requires u >= 0.0
    ensures Clusters.Separation(u, p, q) >= 0.0
  {
    var s := (p - q) * (p - q);
    assert s >= 0.0;
    MultiplyMonotone(0.0, s, 2.0 * u);
  }

  lemma SeparationBelow(u: real, p: real, q: real, n: nat)
    requires u >= 0.0 && n > 0 && Square(p - q) <= 1.0 - 1.0 / n as real
    ensures Clusters.Separation(u, p, q) <= Shrunk(u, n)
  {
    var s, step := Square(p - q), 1.0 / n as real;
    MultiplyMonotone(s, 1.0 - step, 2.0 * u);
    assert (1.0 - step) * (2.0 * u) == u + u - (u + u) * step;
  }

  lemma ObservedSplit(fns: Analysis, kernel: Kernel, m: nat, k: nat, near: Point, far: Point, c: real, u: real)
    requires m >= 2 && k >= 2 && u >= 0.0
    requires Clusters.Clustered(PairWeight(fns, Settle(fns, kernel, Places(m, k, near, far))), near, far, c, u)
    ensures FromScratch(fns, kernel, Copies(near, m), Copies(far, k)) == u + u
  {
    var first, second := Copies(near, m), Copies(far, k);
    AllNear(first, near);
    AllNear(second, near);
    hide Clusters.Nears, Settle, Statistic, PairWeight, Clusters.Part, Clusters.Separation;
    Clusters.StatisticOfClusters(
      PairWeight(fns, Settle(fns, kernel, first + second)), near, far, c, u, first, second, IsUnbiased(kernel));
  }

  // ---------- Distances and kernels of two places ----------

  lemma PlaceDistances(fns: Analysis, d: real)
    requires IsRoot(fns) && d >= 1.0
    ensures SqDist(NEAR, NEAR) == SqDist(Far(d), Far(d)) == 0.0
    ensures SqDist(NEAR, Far(d)) == SqDist(Far(d), NEAR) == Square(d)
    ensures fns.sqrt(0.0) == 0.0 && fns.sqrt(Square(d)) == d && NEAR != Far(d)
  {
    SqDistSelf(NEAR);
    SqDistSelf(Far(d));
    SqDistSymmetric(NEAR, Far(d));
    assert SqDist([], []) == 0.0;
    assert NEAR[1..] == [] && Far(d)[1..] == [];
    assert (0.0 - d) * (0.0 - d) == d * d;
    RootOf(fns, d);
    RootOf(fns, 0.0);
    assert Square(0.0) == 0.0;
    assert NEAR[0] != Far(d)[0];
  }

  lemma {:induction false} PairDistancesWithin(fns: Analysis, points: seq<Point>, d: real)
    requires IsRoot(fns) && d >= 1.0 && Clusters.InPlaces(points, NEAR, Far(d))
    ensures forall i :: 0 <= i < |PairDistances(fns, points)| ==> PairDistances(fns, points)[i] <= d
  {
    if points != [] {
      PlaceDistances(fns, d);
      hide SqDist, IsRoot, Far;
      PairDistancesWithin(fns, points[1..], d);
    }
  }

  lemma MedianWithin(dists: seq<real>, d: real)
    requires d >= BANDWIDTH_FLOOR && forall i :: 0 <= i < |dists| ==> dists[i] <= d
    ensures MedianOf(dists) <= d
  {
    if dists != [] {
      var s := Sorted(dists);
      assert |s| == |multiset(s)| == |dists|;
      forall i | 0 <= i < |s| ensures s[i] <= d {
        assert s[i] in multiset(s);
        assert s[i] in dists;
      }
    }
  }

  /** A distance that no usable bandwidth of the kernel exceeds. */
  function WideEnough(kernel: Kernel): (d: real)
    ensures d >= 1.0
  {
    if kernel.Rbf? && kernel.bandwidth.Finite? && kernel.bandwidth.value > 1.0 then kernel.bandwidth.value else 1.0
  }

  lemma WideExponent(d: real, bandwidth: Positive)
    requires bandwidth <= d
    ensures -Square(d) / TwoSigmaSq(bandwidth) <= -0.5
  {
    var s := TwoSigmaSq(bandwidth);
    MultiplyMonotone(bandwidth, d, bandwidth);
    MultiplyMonotone(bandwidth, d, d);
    assert s == 2.0 * bandwidth * bandwidth;
    assert s <= 2.0 * Square(d);
    HalfOver(Square(d), s);
  }

  lemma HalfOver(x: real, s: real)
    requires 0.0 < s <= 2.0 * x
    ensures -x / s <= -0.5
  {
    var q := -x / s;
    assert q * s == -x;
    NotAbove(q, s, x);
  }

  lemma NotAbove(q: real, s: real, x: real)
    requires q * s == -x && 0.0 < s <= 2.0 * x
    ensures q <= -0.5
  {
    assert (q + 0.5) * s == q * s + 0.5 * s;
  }

  lemma GaussianPlaces(fns: Analysis, d: real, bandwidth: Positive)
    requires IsRoot(fns) && IsExp(fns) && d >= 1.0 && bandwidth <= d
    ensures var x := fns.exp(-Square(d) / TwoSigmaSq(bandwidth));
            && Clusters.Clustered(PairWeight(fns, Gaussian(TwoSigmaSq(bandwidth))), NEAR, Far(d), 1.0, 1.0 - x)
            && 1.0 - x >= 1.0 / 3.0
  {
    PlaceDistances(fns, d);
    WideExponent(d, bandwidth);
    hide IsRoot, SqDist, TwoSigmaSq, Square, Far;
    assert -0.0 / TwoSigmaSq(bandwidth) == 0.0;
  }

  lemma SettledBandwidth(fns: Analysis, kernel: Kernel, m: nat, k: nat, d: real) returns (bandwidth: Positive)
    requires IsRoot(fns) && d >= WideEnough(kernel) && kernel.Rbf?
    ensures bandwidth <= d
    ensures Settle(fns, kernel, Places(m, k, NEAR, Far(d))) == Gaussian(TwoSigmaSq(bandwidth))
  {
    var points, width := Places(m, k, NEAR, Far(d)), kernel.bandwidth;
    PairDistancesWithin(fns, points, d);
    MedianWithin(PairDistances(fns, points), d);
    hide PairDistances, MedianOf;
    bandwidth := if width.Finite? && width.value > 0.0 then width.value else MedianBandwidth(fns, points);
  }

  /** For either kernel the two places are `c` and `c - u` apart, `u` being at least a third. */
  lemma PlacesClustered(fns: Analysis, kernel: Kernel, m: nat, k: nat, d: real) returns (c: real, u: real)
    requires IsRoot(fns) && IsExp(fns) && d >= WideEnough(kernel)
    ensures u >= 1.0 / 3.0
    ensures Clusters.Clustered(PairWeight(fns, Settle(fns, kernel, Places(m, k, NEAR, Far(d)))), NEAR, Far(d), c, u)
  {
    match kernel
    case Energy =>
      EnergyPlaces(fns, m, k, d);
      c, u := 0.0, d;
    case Rbf(width) =>
      var bandwidth := SettledBandwidth(fns, kernel, m, k, d);
      GaussianPlaces(fns, d, bandwidth);
      c, u := 1.0, 1.0 - fns.exp(-Square(d) / TwoSigmaSq(bandwidth));
      hide *;
  }

  lemma EnergyPlaces(fns: Analysis, m: nat, k: nat, d: real)
    requires IsRoot(fns) && d >= 1.0
    ensures Clusters.Clustered(PairWeight(fns, Settle(fns, Energy, Places(m, k, NEAR, Far(d)))), NEAR, Far(d), 0.0, d)
  {
    PlaceDistances(fns, d);
  }

  // ---------- The pooled test ----------

  lemma StepClear(n: nat)
    requires 0 < n < MOST_POINTS
    ensures 1.0 / n as real > 0.000002
  {
    var step := 1.0 / n as real;
    assert step * n as real == 1.0;
    if step <= 0.000002 {
      MultiplyMonotone(step, 0.000002, n as real);
    }
  }

  lemma ShrunkClear(u: real, n: nat)
    requires u >= 1.0 / 3.0 && 0 < n < MOST_POINTS
    ensures Shrunk(u, n) < u + u - PERMUTATION_TOLERANCE
  {
    StepClear(n);
    StrictlyScaled(0.000002, 1.0 / n as real, u + u);
    Commuted(1.0 / n as real, u + u);
  }

  /** In the two places, exactly the relabellings with the same split reach the observed statistic. */
  lemma PlacesReach(fns: Analysis, kernel: Kernel, m: nat, k: nat, d: real, order: seq<nat>)
    requires IsRoot(fns) && IsExp(fns) && d >= WideEnough(kernel)
    requires 2 <= m < MOST_POINTS && 2 <= k < MOST_POINTS && IsPerm(order, m + k)
    ensures |order| == m + k
    ensures Relabelled(fns, kernel, Places(m, k, NEAR, Far(d)), m, order)
        >= FromScratch(fns, kernel, Copies(NEAR, m), Copies(Far(d), k)) - PERMUTATION_TOLERANCE
        <==> SameSplit(order, m)
  {
    PermFacts(order, m + k);
    hide *;
    var c, u := PlacesClustered(fns, kernel, m, k, d);
    OtherSplitBelow(fns, kernel, m, k, NEAR, Far(d), c, u, order);
    ObservedSplit(fns, kernel, m, k, NEAR, Far(d), c, u);
    LargerBelow(m, k);
    ShrunkClear(u, Clusters.Larger(m, k));
    if SameSplit(order, m) {
      SameSplitSame(fns, kernel, Places(m, k, NEAR, Far(d)), m, order);
    }
  }

  lemma LargerBelow(m: nat, k: nat)
    requires 2 <= m < MOST_POINTS && 2 <= k < MOST_POINTS
    ensures 0 < Clusters.Larger(m, k) < MOST_POINTS
  {
  }

  lemma PooledAttained(fns: Analysis, config: AssessmentConfig, m: nat, k: nat, d: real)
    requires IsRoot(fns) && IsExp(fns) && d >= WideEnough(config.kernel)
    requires 2 <= m < MOST_POINTS && 2 <= k < MOST_POINTS
    ensures TwoSampleP(fns, config.kernel, Copies(NEAR, m), Copies(Far(d), k),
        Rounds(config.seed, m + k, Permutations(config)))
        == Share(1 + PooledTies(config, m, m + k), 1 + Permutations(config))
  {
    hide Permutations, Rounds, FromScratch, NullsOf, SameSplit, Share, NumAtLeast, Matches, IsPerm, Relabelled, IsRoot,
      IsExp;
    var clouds, samples, n, b := Copies(NEAR, m), Copies(Far(d), k), m + k, Permutations(config);
    assert clouds + samples == Places(m, k, NEAR, Far(d)) && |clouds + samples| == n;
    var orders := Orders(n, config.seed, b);
    var nulls := NullsOf(fns, config.kernel, clouds + samples, m, Rounds(config.seed, n, b));
    var bar := FromScratch(fns, config.kernel, clouds, samples) - PERMUTATION_TOLERANCE;
    NullsCount(fns, config.kernel, clouds + samples, m, Rounds(config.seed, n, b));
    OrdersArePerms(n, config.seed, b);
    var same := (order: seq<nat>) => SameSplit(order, m);
    forall i | 0 <= i < b ensures nulls[i] >= bar <==> same(orders[i]) {
      SameSplitNull(fns, config.kernel, clouds, samples, config.seed, b, i);
      PlacesReach(fns, config.kernel, m, k, d, orders[i]);
    }
    MatchesReach(same, orders, nulls, bar);
  }

  // ---------- One prompt of the gate ----------

  /** Every pool entry that does not repeat the observed arrangement contributes clearly less than the
      observed score. */
  ghost predicate Separates(config: AssessmentConfig, stratum: Stratum, score: PromptScore) {
    forall pick :: 0 <= pick < |score.nullPool| && !Restores(config, stratum, pick) ==>
      Pick(score.nullPool, pick) + PERMUTATION_TOLERANCE < Positively(score.zObs)
  }

  /** Several run samples in another place. */
  lemma SeveralSeparate(fns: Analysis, config: AssessmentConfig, stratum: Stratum, d: real, score: PromptScore)
    requires IsRoot(fns) && IsExp(fns) && d >= 1.0 && Permutations(config) <= MOST_VALUES
    requires 2 <= stratum.cloud < MOST_POINTS && 2 <= stratum.samples < MOST_POINTS
    requires ScoreWith(
        fns, Copies(NEAR, stratum.cloud), Copies(Far(d), stratum.samples),
        Rounds(PromptSeed(config, stratum.index), stratum.cloud + stratum.samples, Permutations(config))) == Ok(score)
    ensures Separates(config, stratum, score)
  {
    var m, k, b, seed := stratum.cloud, stratum.samples, Permutations(config), PromptSeed(config, stratum.index);
    hide Permutations, PromptSeed, Rounds, FromScratch, NullsOf, SameSplit, RankP, Mean, Deviation, Relabelled, IsRoot,
      IsExp, Orders, Validate, Standard, Ranged;
    var cloud, samples := Copies(NEAR, m), Copies(Far(d), k);
    assert cloud + samples == Places(m, k, NEAR, Far(d)) && |cloud + samples| == m + k;
    var nulls := NullsOf(fns, Energy, cloud + samples, m, Rounds(seed, m + k, b));
    SeveralNulls(fns, m, k, d, seed, b);
    forall pick | 0 <= pick < |score.nullPool| && !Restores(config, stratum, pick)
      ensures Pick(score.nullPool, pick) + PERMUTATION_TOLERANCE < Positively(score.zObs)
    {
      StepClear(Clusters.Larger(m, k));
      ExcursionShort(fns, nulls, d + d, pick, 1.0 / Clusters.Larger(m, k) as real);
    }
  }

  /** The nulls of two places lie between 0 and the observed statistic, and fall short where the split changes. */
  lemma SeveralNulls(fns: Analysis, m: nat, k: nat, d: real, seed: bv64, b: nat)
    requires IsRoot(fns) && IsExp(fns) && d >= 1.0
    requires 2 <= m < MOST_POINTS && 2 <= k < MOST_POINTS
    ensures var nulls := NullsOf(fns, Energy, Places(m, k, NEAR, Far(d)), m, Rounds(seed, m + k, b));
            && FromScratch(fns, Energy, Copies(NEAR, m), Copies(Far(d), k)) == d + d
            && |nulls| == b && Ranged(nulls, d + d)
            && forall i :: 0 <= i < b && !SameSplit(Orders(m + k, seed, b)[i], m) ==>
                 nulls[i] <= Shrunk(d, Clusters.Larger(m, k))
  {
    hide Rounds, FromScratch, NullsOf, SameSplit, Relabelled, IsRoot, IsExp, IsPerm, Orders, Shrunk, Clusters.Clustered,
      PairWeight, Settle;
    EnergyPlaces(fns, m, k, d);
    ObservedSplit(fns, Energy, m, k, NEAR, Far(d), 0.0, d);
    OrdersArePerms(m + k, seed, b);
    var cloud, samples := Copies(NEAR, m), Copies(Far(d), k);
    assert cloud + samples == Places(m, k, NEAR, Far(d)) && |cloud + samples| == m + k;
    var nulls := NullsOf(fns, Energy, cloud + samples, m, Rounds(seed, m + k, b));
    NullsCount(fns, Energy, cloud + samples, m, Rounds(seed, m + k, b));
    ShrunkBelow(d, Clusters.Larger(m, k));
    forall i | 0 <= i < b
      ensures 0.0 <= nulls[i] <= d + d
      ensures !SameSplit(Orders(m + k, seed, b)[i], m) ==> nulls[i] <= Shrunk(d, Clusters.Larger(m, k))
    {
      SameSplitNull(fns, Energy, cloud, samples, seed, b, i);
      OtherSplitBelow(fns, Energy, m, k, NEAR, Far(d), 0.0, d, Orders(m + k, seed, b)[i]);
    }
  }

  lemma ShrunkBelow(u: real, n: nat)
    requires u >= 0.0 && n > 0
    ensures Shrunk(u, n) <= u + u
  {
    MultiplyMonotone(0.0, u + u, 1.0 / n as real);
  }

  lemma SumOfCopies(f: Point -> real, p: Point, n: nat)
    ensures SumBy(f, Copies(p, n)) == f(p) * n as real
  {
    SumByConstant(f, Copies(p, n), f(p));
  }

  lemma TestPointScore(fns: Analysis, k: nat, d: real)
    requires IsRoot(fns) && d >= 1.0 && k > 0
    ensures OtherMean(fns, [Far(d)] + Copies(NEAR, k), 0) == d
  {
    var f := From(Apart(fns), Far(d));
    assert f(NEAR) == d by { PlaceDistances(fns, d); }
    hide IsRoot, Far;
    assert RemoveAt([Far(d)] + Copies(NEAR, k), 0) == Copies(NEAR, k);
    hide RemoveAt, From, Apart, Copies;
    SumOfCopies(f, NEAR, k);
    TimesOver(d, k as real);
  }

  lemma TimesOver(x: real, n: real)
    requires n > 0.0
    ensures x * n / n == x
  {
  }

  lemma CloudPointScore(fns: Analysis, k: nat, d: real, q: nat)
    requires IsRoot(fns) && d >= 1.0 && 0 < q <= k
    ensures OtherMean(fns, [Far(d)] + Copies(NEAR, k), q) == d / k as real
  {
    var f := From(Apart(fns), NEAR);
    assert f(NEAR) == 0.0 && f(Far(d)) == d by { PlaceDistances(fns, d); }
    hide IsRoot, Far;
    assert RemoveAt([Far(d)] + Copies(NEAR, k), q) == [Far(d)] + Copies(NEAR, k - 1);
    assert ([Far(d)] + Copies(NEAR, k))[q] == NEAR;
    hide RemoveAt, From, Apart, Copies;
    SumByConcat(f, [Far(d)], Copies(NEAR, k - 1));
    SumByOne(f, Far(d));
    SumOfCopies(f, NEAR, k - 1);
  }

  lemma HalfAtMost(d: real, k: nat)
    requires d >= 0.0 && k >= 2
    ensures 0.0 <= d / k as real <= d - d * 0.5
  {
    DivideWithin(d, d * 0.5, k as real);
  }

  /** A single run sample in another place. */
  lemma SingleSeparates(fns: Analysis, config: AssessmentConfig, stratum: Stratum, d: real)
    requires IsRoot(fns) && d >= 1.0 && stratum.samples == 1 && 2 <= stratum.cloud < MOST_POINTS
    ensures Separates(config, stratum, SingleScore(fns, Copies(NEAR, stratum.cloud), Far(d)))
  {
    var k := stratum.cloud;
    hide Mean, Deviation, OtherMean, ConformalP, IsRoot, Standard, Positively;
    var all := [Far(d)] + Copies(NEAR, k);
    var scores, score := ScoresOf(fns, all), SingleScore(fns, Copies(NEAR, k), Far(d));
    TestPointScore(fns, k, d);
    HalfAtMost(d, k);
    forall q | 0 < q <= k ensures scores[q] == d / k as real {
      CloudPointScore(fns, k, d, q);
    }
    assert Ranged(scores, d);
    forall pick | 0 <= pick < |score.nullPool| && !Restores(config, stratum, pick)
      ensures Pick(score.nullPool, pick) + PERMUTATION_TOLERANCE < Positively(score.zObs)
    {
      ExcursionShort(fns, scores, d, pick, 0.5);
    }
  }

  // ---------- All prompts ----------

  lemma {:induction false} TotalShort(scores: seq<PromptScore>, row: seq<nat>, i: nat)
    requires |row| == |scores|
    requires forall j :: 0 <= j < |row| ==> Pick(scores[j].nullPool, row[j]) <= Positively(scores[j].zObs)
    ensures DrawTotal(Pools(scores), row) <= ObservedTotal(scores)
    ensures i < |row| && Pick(scores[i].nullPool, row[i]) + PERMUTATION_TOLERANCE < Positively(scores[i].zObs) ==>
        DrawTotal(Pools(scores), row) + PERMUTATION_TOLERANCE < ObservedTotal(scores)
    decreases |scores|
  {
    hide Pick, Positively;
    if scores != [] {
      TotalShort(scores[1..], row[1..], if i > 0 then i - 1 else |row|);
      ObservedCons(scores[0], scores[1..]);
      assert scores == [scores[0]] + scores[1..];
      assert Pools(scores)[1..] == Pools(scores[1..]);
    }
  }

  /** Separated scores: the joint draws that reach the observed total are those that repeat the arrangement
      everywhere. */
  lemma RowReaches(
    fns: Analysis, prompts: seq<UsablePrompt>, config: AssessmentConfig, scores: seq<PromptScore>, row: seq<nat>)
    requires Usable(prompts) && AllScores(fns, prompts, config) == Ok(scores) && |row| == |scores| == |prompts|
    requires forall i :: 0 <= i < |scores| ==> row[i] < |scores[i].nullPool|
    requires forall i :: 0 <= i < |scores| ==> Separates(config, StratumOf(prompts[i]), scores[i])
    ensures DrawTotal(Pools(scores), row) >= ObservedTotal(scores) - PERMUTATION_TOLERANCE
        <==> RowRestores(config, Strata(prompts), row)
  {
    hide AllScores, CheckedScore, Permutations, PromptSeed, PoolLength, Restores, DrawTotal, ObservedTotal;
    if RowRestores(config, Strata(prompts), row) {
      RestoringRow(fns, prompts, config, scores, row);
    } else {
      EachScored(fns, prompts, config);
      var i :| 0 <= i < |row| && !Restores(config, Strata(prompts)[i], row[i]);
      forall j | 0 <= j < |row| ensures Pick(scores[j].nullPool, row[j]) <= Positively(scores[j].zObs) {
        RestoringScore(fns, prompts[j], config, scores[j], row[j]);
        assert Separates(config, StratumOf(prompts[j]), scores[j]);
      }
      assert Separates(config, StratumOf(prompts[i]), scores[i]);
      TotalShort(scores, row, i);
    }
  }

  lemma GateAttained(fns: Analysis, prompts: seq<UsablePrompt>, config: AssessmentConfig, scores: seq<PromptScore>)
    requires Usable(prompts) && AllScores(fns, prompts, config) == Ok(scores) && |scores| == |prompts|
    requires forall i :: 0 <= i < |scores| ==> scores[i].nullPool != [] || Permutations(config) == 0
    requires forall i :: 0 <= i < |scores| ==> Separates(config, StratumOf(prompts[i]), scores[i])
    ensures Verdict(scores, config) == Share(1 + GateTies(config, Strata(prompts)), 1 + Permutations(config))
  {
    hide AllScores, Permutations, RowRestores, DrawTotal, ObservedTotal, GateRows, Share, NumAtLeast, Matches,
      Separates, DrawRows;
    ScoredPools(fns, prompts, config, scores);
    var rows, bar := GateRows(config, Strata(prompts)), ObservedTotal(scores) - PERMUTATION_TOLERANCE;
    var totals := Totals(Pools(scores), rows);
    var restores := (row: seq<nat>) => RowRestores(config, Strata(prompts), row);
    forall b | 0 <= b < |rows| ensures totals[b] >= bar <==> restores(rows[b]) {
      assert DrawFits(Pools(scores), rows[b]);
      RowReaches(fns, prompts, config, scores, rows[b]);
    }
    MatchesReach(restores, rows, totals, bar);
  }

  // ---------- Runs ----------

  ghost predicate InTwoPlaces(prompt: UsablePrompt, d: real) {
    prompt.cloud == Copies(NEAR, |prompt.cloud|) && prompt.samples == Copies(Far(d), |prompt.samples|)
  }

  lemma PlacesValid(m: nat, k: nat, d: real)
    requires k > 0
    ensures CheckDims(Copies(NEAR, m), Copies(Far(d), k)) == None
    ensures m >= 2 && k >= 2 ==> Validate(Copies(NEAR, m), Copies(Far(d), k)) == None
  {
    NoMismatch(Copies(NEAR, m) + Copies(Far(d), k), 1);
  }

  lemma ScoredUnchecked(fns: Analysis, prompt: UsablePrompt, nPerm: nat, seed: bv64)
    requires prompt.cloud != [] && prompt.samples != [] && CheckDims(prompt.cloud, prompt.samples) == None
    ensures CheckedScore(fns, prompt, nPerm, seed)
         == ScoreWith(fns, prompt.cloud, prompt.samples, Rounds(seed, |prompt.cloud| + |prompt.samples|, nPerm))
  {
    hide CheckDims, ScoreWith, Rounds;
    assert |prompt.cloud + prompt.samples| == |prompt.cloud| + |prompt.samples|;
  }

  lemma PlacesScore(fns: Analysis, m: nat, k: nat, d: real, rounds: seq<seq<nat>>)
    requires m >= 2 && k > 0
    ensures var score := ScoreWith(fns, Copies(NEAR, m), Copies(Far(d), k), rounds);
            score.Ok? && (k == 1 ==> score.value == SingleScore(fns, Copies(NEAR, m), Far(d)))
  {
    PlacesValid(m, k, d);
    hide Validate, EnergyScore, FromScratch, NullsOf, SingleScore;
  }

  lemma PlacedScores(fns: Analysis, config: AssessmentConfig, stratum: Stratum, d: real)
    requires IsRoot(fns) && IsExp(fns) && d >= 1.0 && Permutations(config) <= MOST_VALUES
    requires 2 <= stratum.cloud < MOST_POINTS && 0 < stratum.samples < MOST_POINTS
    ensures var score := ScoreWith(
              fns, Copies(NEAR, stratum.cloud), Copies(Far(d), stratum.samples),
              Rounds(PromptSeed(config, stratum.index), stratum.cloud + stratum.samples, Permutations(config)));
            score.Ok? && Separates(config, stratum, score.value)
  {
    hide *;
    var m, k := stratum.cloud, stratum.samples;
    var rounds := Rounds(PromptSeed(config, stratum.index), m + k, Permutations(config));
    PlacesScore(fns, m, k, d, rounds);
    if k >= 2 {
      SeveralSeparate(
        fns, config, stratum, d, ScoreWith(fns, Copies(NEAR, m), Copies(Far(d), k), rounds).value);
    } else {
      SingleSeparates(fns, config, stratum, d);
    }
  }

  lemma PlacesChecked(fns: Analysis, config: AssessmentConfig, prompt: UsablePrompt, d: real)
    requires 0 < |prompt.cloud| && 0 < |prompt.samples| && InTwoPlaces(prompt, d)
    ensures CheckedScore(fns, prompt, Permutations(config), PromptSeed(config, prompt.index))
         == ScoreWith(fns, Copies(NEAR, |prompt.cloud|), Copies(Far(d), |prompt.samples|),
              Rounds(PromptSeed(config, prompt.index), |prompt.cloud| + |prompt.samples|, Permutations(config)))
  {
    PlacesValid(|prompt.cloud|, |prompt.samples|, d);
    hide Permutations, PromptSeed;
    ScoredUnchecked(fns, prompt, Permutations(config), PromptSeed(config, prompt.index));
    hide *;
  }

  lemma PlacesScored(fns: Analysis, config: AssessmentConfig, prompt: UsablePrompt, d: real)
    requires IsRoot(fns) && IsExp(fns) && d >= 1.0 && Permutations(config) <= MOST_VALUES && InTwoPlaces(prompt, d)
    requires 2 <= |prompt.cloud| < MOST_POINTS && 0 < |prompt.samples| < MOST_POINTS
    ensures var score := CheckedScore(fns, prompt, Permutations(config), PromptSeed(config, prompt.index));
            score.Ok? && Separates(config, StratumOf(prompt), score.value)
  {
    hide InTwoPlaces, Permutations, PromptSeed, Offset, Rounds, ScoreWith, CheckedScore, Separates, IsRoot, IsExp,
      Copies, Far;
    PlacesChecked(fns, config, prompt, d);
    PlacedScores(fns, config, StratumOf(prompt), d);
  }

  /** How large a shape may be for its least p-value to be told apart from the next: the tolerance of the ranks is not
      small against what one point, or one permutation, among more would change. */
  predicate Moderate(config: AssessmentConfig, strata: seq<Stratum>) {
    Permutations(config) <= MOST_VALUES && CloudTotal(strata) < MOST_POINTS && SampleTotal(strata) < MOST_POINTS
  }

  lemma {:induction false} StratumWithin(strata: seq<Stratum>, i: nat)
    requires i < |strata|
    ensures strata[i].cloud <= CloudTotal(strata) && strata[i].samples <= SampleTotal(strata)
  {
    if i < |strata| - 1 {
      StratumWithin(strata[..|strata| - 1], i);
    }
  }

  /** The data of a shape in two places. */
  function NearData(shape: Shape): (baseline: seq<seq<Point>>)
    ensures |baseline| == |shape| && forall i :: 0 <= i < |shape| ==> baseline[i] == Copies(NEAR, shape[i].0)
  {
    seq(|shape|, i requires 0 <= i < |shape| => Copies(NEAR, shape[i].0))
  }

  function FarData(shape: Shape, d: real): (run: seq<seq<Point>>)
    ensures |run| == |shape| && forall i :: 0 <= i < |shape| ==> run[i] == Copies(Far(d), shape[i].1)
  {
    seq(|shape|, i requires 0 <= i < |shape| => Copies(Far(d), shape[i].1))
  }

  lemma PlacedPrompt(index: nat, m: nat, k: nat, d: real)
    ensures InTwoPlaces(UsablePrompt(index, Copies(NEAR, m), Copies(Far(d), k)), d)
  {
  }

  ghost predicate AllInPlaces(prompts: seq<UsablePrompt>, d: real) {
    forall i :: 0 <= i < |prompts| ==> InTwoPlaces(prompts[i], d)
  }

  lemma {:induction false} PromptsInPlaces(shape: Shape, d: real)
    ensures AllInPlaces(UsablePrompts(NearData(shape), FarData(shape, d)), d)
  {
    hide Far, InTwoPlaces;
    if shape != [] {
      var k := |shape| - 1;
      PromptsInPlaces(shape[..k], d);
      assert NearData(shape)[..k] == NearData(shape[..k]) && FarData(shape, d)[..k] == FarData(shape[..k], d);
      PlacedPrompt(k, shape[k].0, shape[k].1, d);
    }
  }

  lemma {:induction false} PooledInPlaces(prompts: seq<UsablePrompt>, d: real)
    requires AllInPlaces(prompts, d)
    ensures AllClouds(prompts) == Copies(NEAR, |AllClouds(prompts)|)
    ensures AllSamples(prompts) == Copies(Far(d), |AllSamples(prompts)|)
  {
    hide Far;
    if prompts != [] {
      PooledInPlaces(prompts[..|prompts| - 1], d);
      assert InTwoPlaces(prompts[|prompts| - 1], d);
    }
  }

  lemma GateInPlaces(fns: Analysis, config: AssessmentConfig, prompts: seq<UsablePrompt>, d: real)
    requires IsRoot(fns) && IsExp(fns) && d >= 1.0 && Usable(prompts) && UsesGate(Strata(prompts))
    requires Moderate(config, Strata(prompts)) && AllInPlaces(prompts, d)
    ensures var scores := AllScores(fns, prompts, config);
            scores.Ok? && Verdict(scores.value, config)
                == Share(1 + GateTies(config, Strata(prompts)), 1 + Permutations(config))
  {
    hide IsRoot, IsExp, CheckedScore, Permutations, PromptSeed, InTwoPlaces, Separates, AllScores, Verdict, Share,
      GateTies, CloudTotal, SampleTotal;
    forall i | 0 <= i < |prompts|
      ensures var score := CheckedScore(fns, prompts[i], Permutations(config), PromptSeed(config, prompts[i].index));
              score.Ok? && Separates(config, StratumOf(prompts[i]), score.value)
                  && |score.value.nullPool| == PoolLength(config, StratumOf(prompts[i]))
    {
      StratumWithin(Strata(prompts), i);
      PlacesScored(fns, config, prompts[i], d);
      var score := CheckedScore(fns, prompts[i], Permutations(config), PromptSeed(config, prompts[i].index)).value;
      RestoringScore(fns, prompts[i], config, score, 0);
    }
    EachScored(fns, prompts, config);
    GateAttained(fns, prompts, config, AllScores(fns, prompts, config).value);
  }

  /** The floor is sharp: some data of every judged shape reports its least p-value. */
  lemma LeastPAttained(fns: Analysis, config: AssessmentConfig, shape: Shape)
    returns (baseline: seq<seq<Point>>, run: seq<seq<Point>>)
    requires IsRoot(fns) && IsExp(fns) && Judged(StrataOf(shape)) && Moderate(config, StrataOf(shape))
    ensures HasShape(baseline, run, shape)
    ensures RunP(fns, baseline, run, config) == Ok(LeastP(config, StrataOf(shape)))
  {
    hide *;
    var d := WideEnough(config.kernel);
    baseline, run := NearData(shape), FarData(shape, d);
    PlacesHaveShape(shape, d);
    ShapeDecides(baseline, run, shape);
    PromptsInPlaces(shape, d);
    var prompts := UsablePrompts(baseline, run);
    JudgedIs(prompts);
    RunPIs(fns, baseline, run, config);
    LeastPIs(config, prompts);
    SmallestIsGate(prompts);
    if SmallestCloud(prompts) >= 2 {
      GateInPlaces(fns, config, prompts, d);
    } else {
      PooledInPlaces(prompts, d);
      PooledRun(fns, config, prompts, d);
    }
  }

  lemma PlacesHaveShape(shape: Shape, d: real)
    ensures HasShape(NearData(shape), FarData(shape, d), shape)
  {
  }

  lemma PooledRun(fns: Analysis, config: AssessmentConfig, prompts: seq<UsablePrompt>, d: real)
    requires IsRoot(fns) && IsExp(fns) && d >= WideEnough(config.kernel) && Moderate(config, Strata(prompts))
    requires CloudTotal(Strata(prompts)) >= 2 && SampleTotal(Strata(prompts)) >= 2
    requires AllClouds(prompts) == Copies(NEAR, |AllClouds(prompts)|)
    requires AllSamples(prompts) == Copies(Far(d), |AllSamples(prompts)|)
    ensures var clouds, samples := AllClouds(prompts), AllSamples(prompts);
            && Validate(clouds, samples) == None && |clouds| >= 2 && |samples| >= 2
            && TwoSampleP(fns, config.kernel, clouds, samples,
                 Rounds(config.seed, |clouds + samples|, Permutations(config)))
                 == Share(1 + PooledTies(config, |clouds|, |clouds + samples|), 1 + Permutations(config))
  {
    StrataTotals(prompts);
    hide CloudTotal, SampleTotal, AllClouds, AllSamples, Strata, Validate, TwoSampleP, PooledTies, Share, Permutations,
      Rounds, IsRoot, IsExp;
    var m, k := |AllClouds(prompts)|, |AllSamples(prompts)|;
    PlacesValid(m, k, d);
    PooledAttained(fns, config, m, k, d);
    assert |AllClouds(prompts) + AllSamples(prompts)| == m + k;
  }
}
