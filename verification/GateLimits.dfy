/** What the gate can and cannot resolve. */
module GateLimits {
  import opened Arithmetic
  import opened Counting
  import opened MonteCarlo
  import opened Distances
  import opened Moments
  import opened PermutationTest
  import opened Conformal
  import opened Gate
  import opened Assessment
  import opened GateExactness

  // ---------- The gate with every joint draw enumerated ----------

  /** The joint draws whose aggregate reaches the observed one, up to the tolerance. */
  ghost function DrawsReaching(fns: Analysis, augs: seq<seq<Point>>, h: seq<nat>): set<seq<nat>>
    requires Augmented(augs) && IsPosition(augs, h)
  {
    var scores := SingleScores(fns, HeldOutPrompts(augs, h));
    set d | d in Positions(augs) && |d| == |scores|
        && DrawTotal(Pools(scores), d) >= ObservedTotal(scores) - PERMUTATION_TOLERANCE
  }

  /** The share of joint draws that reach the observed aggregate. */
  ghost function EnumeratedP(fns: Analysis, augs: seq<seq<Point>>, h: seq<nat>): real
    requires Augmented(augs) && IsPosition(augs, h)
  {
    assert h in Positions(augs);
    Share(|DrawsReaching(fns, augs, h)|, |Positions(augs)|)
  }

  ghost function EnumeratedSignificant(fns: Analysis, augs: seq<seq<Point>>, alpha: real): set<seq<nat>>
    requires Augmented(augs)
  {
    set h | h in Positions(augs) && EnumeratedP(fns, augs, h) <= alpha
  }

  /** The draw of the reordered pools that picks the original positions `e`. */
  function Held(h: seq<nat>, e: seq<nat>): (d: seq<nat>)
    requires |h| == |e|
    ensures |d| == |e| && forall i :: 0 <= i < |e| ==> d[i] == Moved(h[i], e[i])
  {
    seq(|e|, i requires 0 <= i < |e| => Moved(h[i], e[i]))
  }

  lemma HeldFacts(augs: seq<seq<Point>>, h: seq<nat>, e: seq<nat>)
    requires IsPosition(augs, h) && IsPosition(augs, e)
    ensures IsPosition(augs, Held(h, e)) && Unheld(h, Held(h, e)) == e
  {
  }

  lemma HeldReaches(fns: Analysis, augs: seq<seq<Point>>, h: seq<nat>, e: seq<nat>)
    requires Augmented(augs) && IsPosition(augs, h) && IsPosition(augs, e)
    requires Aggregate(fns, augs)(e) >= Aggregate(fns, augs)(h) - PERMUTATION_TOLERANCE
    ensures Held(h, e) in DrawsReaching(fns, augs, h)
  {
    hide Aggregate, Held, Unheld, DrawTotal, ObservedTotal;
    HeldFacts(augs, h, e);
    HeldOutTotals(fns, augs, h, Held(h, e));
  }

  lemma HeldInjective(augs: seq<seq<Point>>, h: seq<nat>, e: seq<nat>, e': seq<nat>)
    requires IsPosition(augs, h) && IsPosition(augs, e) && IsPosition(augs, e') && Held(h, e) == Held(h, e')
    ensures e == e'
  {
    hide Held, Unheld;
    HeldFacts(augs, h, e);
    HeldFacts(augs, h, e');
  }

  /** Whatever the test points, the draws reach a bar as often as the positions themselves do. */
  lemma ReachingCount(fns: Analysis, augs: seq<seq<Point>>, h: seq<nat>)
    requires Augmented(augs) && IsPosition(augs, h)
    ensures var f := Aggregate(fns, augs);
            |AtLeast(Positions(augs), f, f(h) - PERMUTATION_TOLERANCE)| <= |DrawsReaching(fns, augs, h)|
  {
    hide Positions, Aggregate, Held, Unheld, IsPosition, DrawsReaching;
    var f := Aggregate(fns, augs);
    var reaching := AtLeast(Positions(augs), f, f(h) - PERMUTATION_TOLERANCE);
    var g := (e: seq<nat>) => if |e| == |h| then Held(h, e) else e;
    assert forall e :: e in reaching ==> IsPosition(augs, e) && f(e) >= f(h) - PERMUTATION_TOLERANCE;
    hide AtLeast;
    forall e | e in reaching ensures |e| == |h| && g(e) in DrawsReaching(fns, augs, h) {
      PositionLength(augs, h, e);
      HeldReaches(fns, augs, h, e);
    }
    forall e, e' | e in reaching && e' in reaching && g(e) == g(e') ensures e == e' {
      PositionLength(augs, h, e);
      PositionLength(augs, h, e');
      HeldInjective(augs, h, e, e');
    }
    InjectionBound(reaching, DrawsReaching(fns, augs, h), g);
  }

  lemma PositionLength(augs: seq<seq<Point>>, h: seq<nat>, e: seq<nat>)
    requires IsPosition(augs, h) && IsPosition(augs, e)
    ensures |h| == |e| == |augs|
  {
  }

  /** The fully enumerated gate is exact: of all choices of test points, at most a share `alpha`
      get a p-value of `alpha` or less. */
  lemma EnumeratedGateExact(fns: Analysis, augs: seq<seq<Point>>, alpha: real)
    requires Augmented(augs) && alpha >= 0.0
    ensures AtMostShare(|EnumeratedSignificant(fns, augs, alpha)|, |Positions(augs)|, alpha)
  {
    hide Positions, Aggregate, DrawsReaching, RankCap, Share, AtLeast, IsPosition;
    var f, n := Aggregate(fns, augs), |Positions(augs)|;
    RankCapWithin(alpha, n);
    var c: nat := RankCap(alpha, n);
    var hits := EnumeratedSignificant(fns, augs, alpha);
    forall h | h in hits ensures h in Extreme(Positions(augs), f, PERMUTATION_TOLERANCE, c) {
      ReachingCount(fns, augs, h);
      ShareWithin(|DrawsReaching(fns, augs, h)|, n, alpha);
    }
    SubsetBound(hits, Extreme(Positions(augs), f, PERMUTATION_TOLERANCE, c));
    RankBound(Positions(augs), f, PERMUTATION_TOLERANCE, c);
    FewerWithin(|hits|, c, n, alpha);
  }

  /** No enumerated p-value is below one over the number of joint draws; for a single prompt with a
      cloud of `k` points that number is `k + 1`. */
  lemma EnumeratedFloor(fns: Analysis, augs: seq<seq<Point>>, h: seq<nat>)
    requires Augmented(augs) && IsPosition(augs, h)
    ensures h in Positions(augs) && EnumeratedP(fns, augs, h) >= Share(1, |Positions(augs)|)
    ensures |augs| == 1 ==> |Positions(augs)| == |augs[0]|
  {
    hide Share, DrawsReaching, Aggregate, Positions;
    HeldReaches(fns, augs, h, h);
    assert |DrawsReaching(fns, augs, h)| >= 1;
    ShareMonotone(1, |DrawsReaching(fns, augs, h)|, |Positions(augs)|);
    if |augs| == 1 {
      OnePromptPositions(augs);
    }
  }

  lemma OnePromptPositions(augs: seq<seq<Point>>)
    requires |augs| == 1
    ensures |Positions(augs)| == |augs[0]|
  {
    hide Positions;
    forall h | IsPosition(augs, h) ensures h == [h[0]] {}
    InjectionBound(Positions(augs), Below(|augs[0]|), (h: seq<nat>) => if h == [] then 0 else h[0]);
    InjectionBound(Below(|augs[0]|), Positions(augs), i => [i]);
  }

  // ---------- One prompt, one sample ----------

  /** The draws from one pool whose positive excursion is no smaller than the test point's. */
  ghost function PicksReaching(pool: seq<real>): set<nat> {
    set i | i in Below(|pool|) && Pick(pool, i) >= Pick(pool, 0)
  }

  lemma StandardOrder(x: real, y: real, mean: real, sd: Positive)
    ensures Standard(x, mean, sd) >= Standard(y, mean, sd) <==> x >= y
  {
    if x >= y {
      DivideMonotone(y - mean, x - mean, sd);
    } else {
      var p, q := Standard(x, mean, sd), Standard(y, mean, sd);
      assert p * sd == x - mean && q * sd == y - mean;
      if p >= q {
        MultiplyMonotone(q, p, sd);
      }
    }
  }

  lemma PickOrder(fns: Analysis, scores: seq<real>, i: nat)
    requires i < |scores|
    ensures var z := Standardized(fns, scores);
            Pick(z, i) >= Pick(z, 0) <==> z[0] <= 0.0 || scores[i] >= scores[0]
  {
    hide Mean, Deviation, Standard;
    StandardOrder(scores[i], scores[0], Mean(scores), Deviation(fns, scores));
  }

  lemma RankOfFirst(scores: seq<real>)
    requires scores != []
    ensures NumAtLeast(scores, scores[0]) == 1 + NumAtLeast(scores[1..], scores[0])
  {
    RankWithSelf(scores[0], scores[1..]);
    assert scores == [scores[0]] + scores[1..];
  }

  /** One conformal stratum carries no more than its rank: the draws that match the test point are
      the conformal rank many when its excursion is positive, and all of them otherwise. */
  lemma SinglePromptLimit(fns: Analysis, scores: seq<real>)
    requires scores != []
    ensures var z := Standardized(fns, scores);
            |PicksReaching(z)| == if z[0] > 0.0 then 1 + NumAtLeast(scores[1..], scores[0]) else |scores|
  {
    hide Mean, Deviation, Standard, NumAtLeast, Pick;
    var z := Standardized(fns, scores);
    forall i | i in Below(|z|) ensures i in PicksReaching(z) <==> z[0] <= 0.0 || scores[i] >= scores[0] {
      PickOrder(fns, scores, i);
    }
    hide Standardized;
    if z[0] > 0.0 {
      assert PicksReaching(z) == set i | i in Below(|scores|) && scores[i] >= scores[0];
      hide PicksReaching;
      NumAtLeastCard(scores, scores[0]);
      RankOfFirst(scores);
    } else {
      assert PicksReaching(z) == Below(|z|);
    }
  }

  // ---------- The p-value's range ----------

  lemma RankPRange(observed: real, nulls: seq<real>, tol: real)
    ensures Share(1, 1 + |nulls|) <= RankP(observed, nulls, tol) <= 1.0
    ensures NumAtLeast(nulls, observed - tol) == 0 ==> RankP(observed, nulls, tol) == Share(1, 1 + |nulls|)
  {
    var n, k := 1 + |nulls|, 1 + NumAtLeast(nulls, observed - tol);
    ShareMonotone(1, k, n);
    ShareMonotone(k, n, n);
  }

  /** A larger observed statistic never has a larger p-value on the same draws. */
  lemma RankPAntitone(observed: real, larger: real, nulls: seq<real>, tol: real)
    requires observed <= larger
    ensures RankP(larger, nulls, tol) <= RankP(observed, nulls, tol)
  {
    NumAtLeastAntitone(nulls, observed - tol, larger - tol);
    ShareMonotone(1 + NumAtLeast(nulls, larger - tol), 1 + NumAtLeast(nulls, observed - tol), 1 + |nulls|);
  }

  // ---------- Resolution ----------

  lemma ReciprocalBelow(n: nat, t: real)
    requires n > 0 && t > 0.0
    ensures Share(1, n) < t <==> n as real > 1.0 / t
  {
    var size, r := n as real, 1.0 / t;
    assert r * t == 1.0 && Share(1, n) * size == 1.0;
    if size > r {
      assert (size - r) * t > 0.0;
      assert size * t > Share(1, n) * size;
    } else {
      assert (r - size) * t >= 0.0;
      assert size * t <= Share(1, n) * size;
    }
  }

  lemma CeilingFacts(x: real)
    ensures Ceiling(x) as real >= x && (Ceiling(x) - 1) as real < x
  {
  }

  /** The permutation count resolves the target exactly when the target exceeds `2^-64`: below
      that the count saturates at the largest `usize` and no draw can reach the target. */
  lemma ResolvesTarget(config: AssessmentConfig)
    requires config.nPermutations <= USIZE_MAX
    ensures Share(1, Permutations(config) + 1) < Threshold(config.targetFpr) <==>
        Threshold(config.targetFpr) > Share(1, USIZE_MAX + 1)
  {
    var t, b := Threshold(config.targetFpr), Permutations(config);
    var r := 1.0 / t;
    ReciprocalPositive(t);
    CeilingFacts(r);
    ReciprocalBelow(b + 1, t);
    ReciprocalBelow(USIZE_MAX + 1, t);
  }

  lemma ReciprocalPositive(t: real)
    requires t > 0.0
    ensures 1.0 / t > 0.0
  {
  }

  /** The verdict is never silently muted: when the observed aggregate beats every draw, the level
      is not `NoDrift`, for every target above `2^-64`. */
  lemma NeverMuted(config: AssessmentConfig, observed: real, nulls: seq<real>)
    requires config.nPermutations <= USIZE_MAX && |nulls| == Permutations(config)
    requires NumAtLeast(nulls, observed - PERMUTATION_TOLERANCE) == 0
    ensures SeverityFromP(RankP(observed, nulls, PERMUTATION_TOLERANCE), config.targetFpr) != NoDrift
       <==> Threshold(config.targetFpr) > Share(1, USIZE_MAX + 1)
  {
    hide Share, Permutations, Threshold, RankP;
    ResolvesTarget(config);
    RankPRange(observed, nulls, PERMUTATION_TOLERANCE);
  }

  /** The five levels split the p-values at the target and at a tenth, a hundredth and a thousandth of it; a target
      that is not a positive normal number counts as the smallest one. */
  lemma SeverityIs(p: real, target: real)
    ensures var targetFpr := if target > MIN_POSITIVE then target else MIN_POSITIVE;
            && (SeverityFromP(p, target) == NoDrift <==> p >= targetFpr)
            && (SeverityFromP(p, target) == Low <==> targetFpr / 10.0 <= p < targetFpr)
            && (SeverityFromP(p, target) == Medium <==> targetFpr / 100.0 <= p < targetFpr / 10.0)
            && (SeverityFromP(p, target) == High <==> targetFpr / 1000.0 <= p < targetFpr / 100.0)
            && (SeverityFromP(p, target) == Critical <==> p < targetFpr / 1000.0)
  {
  }

  /** The permutation count is the least that is no less than the configured one and resolves the target to 1/B, or
      the largest `usize`. */
  lemma PermutationsLeast(config: AssessmentConfig, b: nat)
    requires config.nPermutations <= USIZE_MAX && config.targetFpr > MIN_POSITIVE
    ensures config.nPermutations <= Permutations(config) <= 0xFFFF_FFFF_FFFF_FFFF
    ensures Permutations(config) as real * config.targetFpr >= 1.0 || Permutations(config) == 0xFFFF_FFFF_FFFF_FFFF
    ensures b >= config.nPermutations && b as real * config.targetFpr >= 1.0 ==> Permutations(config) <= b
  {
    var t := config.targetFpr;
    var r := 1.0 / t;
    assert r * t == 1.0;
    CeilingFacts(r);
    ReciprocalPositive(t);
    var needed: nat := Ceiling(r);
    MultiplyMonotone(r, needed as real, t);
    if b as real * t >= 1.0 {
      CancelDivisor(r, b as real, t);
    }
    if config.nPermutations >= needed {
      MultiplyMonotone(needed as real, config.nPermutations as real, t);
    }
  }

  /** A level of medium or worse needs more than ten times the draws that the target alone asks for. */
  lemma MediumNeedsDraws(observed: real, nulls: seq<real>, tol: real, targetFpr: real)
    requires SeverityFromP(RankP(observed, nulls, tol), targetFpr) !in {NoDrift, Low}
    ensures (|nulls| + 1) as real > 10.0 / Threshold(targetFpr)
  {
    hide RankP, Share, Threshold;
    var t: real := Threshold(targetFpr);
    RankPRange(observed, nulls, tol);
    assert Share(1, |nulls| + 1) < t / 10.0;
    ReciprocalBelow(|nulls| + 1, t / 10.0);
    TenFold(t);
  }

  lemma TenFold(t: real)
    requires t > 0.0
    ensures 1.0 / (t / 10.0) == 10.0 / t
  {
    var u, x := t / 10.0, 1.0 / (t / 10.0);
    assert x * u == 1.0;
    assert x * t == 10.0;
  }
}
