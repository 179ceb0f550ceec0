/** One run sample: over all labellings of the points the gate is exactly calibrated. */
module SingleSample {
  import opened Counting
  import opened Grids
  import opened Sums
  import opened Shuffle
  import opened MonteCarlo
  import opened Resampling
  import opened Distances
  import opened Moments
  import opened TwoSample
  import opened PermutationTest
  import opened Conformal
  import opened Gate
  import opened Assessment
  import opened Labellings
  import opened OnePrompt

  // ---------- What the pool holds ----------

  /** The positive excursion of each point within all of them. */
  function Excursion(fns: Analysis, points: seq<Point>): nat -> real
    requires |points| >= 2
  {
    var pool := Standardized(fns, ScoresOf(fns, points));
    (x: nat) => if x < |pool| then Positively(pool[x]) else 0.0
  }

  lemma ScoresRelabelled(fns: Analysis, points: seq<Point>, order: seq<nat>)
    requires |points| >= 2 && IsPerm(order, |points|)
    ensures |order| == |points| && forall i :: 0 <= i < |order| ==> order[i] < |points|
    ensures ScoresOf(fns, Select(points, order, [])) == Select(ScoresOf(fns, points), order, 0.0)
  {
    PermFacts(order, |points|);
    SelectPermutes(points, order, []);
    hide IsPerm;
    var moved := Select(points, order, []);
    forall i | 0 <= i < |order| ensures OtherMean(fns, moved, i) == OtherMean(fns, points, order[i]) {
      SumByReorder(From(Apart(fns), moved[i]), RemoveAt(moved, i), RemoveAt(points, order[i]));
    }
    hide OtherMean;
  }

  /** Standardizing follows the points wherever they are put. */
  lemma PoolRelabelled(fns: Analysis, points: seq<Point>, order: seq<nat>, i: nat)
    requires |points| >= 2 && IsPerm(order, |points|) && i < |points|
    ensures |order| == |points|
    ensures Positively(Standardized(fns, ScoresOf(fns, Select(points, order, [])))[i])
        == Excursion(fns, points)(order[i])
  {
    hide OtherMean, Mean, Deviation;
    ScoresRelabelled(fns, points, order);
    var scores := ScoresOf(fns, points);
    SelectPermutes(scores, order, 0.0);
    MomentsReorder(fns, Select(scores, order, 0.0), scores);
    hide IsPerm;
  }

  /** The test point first, its cloud after it. */
  function TestFirst(start: seq<nat>): seq<nat>
    requires start != []
  {
    [start[|start| - 1]] + start[..|start| - 1]
  }

  lemma TestFirstPermutes(start: seq<nat>, n: nat)
    requires IsPerm(start, n) && n > 0
    ensures |start| == n && IsPerm(TestFirst(start), n)
  {
    PermFacts(start, n);
    assert start == start[..n - 1] + [start[n - 1]];
  }

  /** The points that the gate compares: the test point's, and those picked. */
  function Compares(start: seq<nat>, picks: seq<nat>): (u: seq<nat>)
    requires start != []
    ensures |u| == |picks| + 1
  {
    var order := TestFirst(start);
    [order[0]] + seq(|picks|, j requires 0 <= j < |picks| => if picks[j] < |order| then order[picks[j]] else 0)
  }

  lemma TestFirstSelects(points: seq<Point>, start: seq<nat>)
    requires |start| == |points| >= 2
    ensures var m := |points| - 1;
            [Select(points, start[m..], [])[0]] + Select(points, start[..m], []) == Select(points, TestFirst(start), [])
  {
  }

  /** The score of a labelling with one sample, in terms of where its points come from. */
  lemma SingleScoreAt(fns: Analysis, points: seq<Point>, start: seq<nat>, i: nat)
    requires |points| >= 2 && IsPerm(start, |points|) && i < |points|
    ensures |start| == |points| && |TestFirst(start)| == |points|
    ensures var m := |points| - 1;
            var score := SingleScore(fns, Select(points, start[..m], []), Select(points, start[m..], [])[0]);
            && |score.nullPool| == |points| && score.zObs == score.nullPool[0]
            && Positively(score.nullPool[i]) == Excursion(fns, points)(TestFirst(start)[i])
  {
    hide OtherMean, Mean, Deviation, Excursion, ConformalP;
    TestFirstPermutes(start, |points|);
    TestFirstSelects(points, start);
    PoolRelabelled(fns, points, TestFirst(start), i);
    hide IsPerm;
  }

  lemma ExcursionsCompared(fns: Analysis, points: seq<Point>, start: seq<nat>, picks: seq<nat>)
    requires |points| >= 2 && IsPerm(start, |points|) && forall j :: 0 <= j < |picks| ==> picks[j] < |points|
    ensures |start| == |points|
    ensures var m := |points| - 1;
            var score := SingleScore(fns, Select(points, start[..m], []), Select(points, start[m..], [])[0]);
            var f, u := Excursion(fns, points), Compares(start, picks);
            ObservedTotal([score]) == f(u[0]) && Totals([score.nullPool], Picks(picks)) == Scores(f, u[1..])
  {
    hide Excursion, IsPerm, SingleScore, DrawTotal, ObservedTotal;
    SingleScoreAt(fns, points, start, 0);
    var m := |points| - 1;
    var score := SingleScore(fns, Select(points, start[..m], []), Select(points, start[m..], [])[0]);
    var f, u := Excursion(fns, points), Compares(start, picks);
    PicksTotals(score, picks);
    forall j | 0 <= j < |picks| ensures Totals([score.nullPool], Picks(picks))[j] == Scores(f, u[1..])[j] {
      SingleScoreAt(fns, points, start, picks[j]);
    }
  }

  lemma PassIsRank(fns: Analysis, points: seq<Point>, alpha: real, o: Experiment)
    requires |points| >= 2 && Passes(fns, points, |points| - 1, alpha, o) && IsPerm(o.0.0, |points|)
    requires forall j :: 0 <= j < |o.1| ==> o.1[j] < |points|
    ensures var f, u := Excursion(fns, points), Compares(o.0.0, o.1);
            RankP(f(u[0]), Scores(f, u[1..]), PERMUTATION_TOLERANCE) <= alpha
  {
    hide Excursion, IsPerm, SingleScore, ObservedTotal, Totals, RankP, Compares, Scores;
    ExcursionsCompared(fns, points, o.0.0, o.1);
  }

  lemma PassingIsLow(fns: Analysis, points: seq<Point>, b: nat, alpha: real, c: nat, o: Experiment)
    requires |points| >= 2 && c == RankCap(alpha, b + 1)
    requires o in Passing(fns, points, |points| - 1, b, alpha)
    ensures o.0.0 in Perms(|points|) && o.0.1 in Seqs(Choices(|points|), b) && o.1 in Seqs(Below(|points|), b)
    ensures |o.0.0| == |points|
    ensures Compares(o.0.0, o.1) in LowAt(Below(|points|), b + 1, Excursion(fns, points), PERMUTATION_TOLERANCE, c, 0)
    ensures Compares(o.0.0, o.1)[0] == o.0.0[|points| - 1]
  {
    hide Choices, Passes, Perms, Excursion, NumAtLeast, RankCap, Compares;
    var n, start, picks := |points|, o.0.0, o.1;
    assert start in Perms(n) && o.0.1 in Seqs(Choices(n), b) && picks in Seqs(Below(n), b);
    PermFacts(start, n);
    ComparesPlaces(n, b, start, picks);
    PassIsRank(fns, points, alpha, o);
    hide Seqs, IsPerm, LowAt, Scores, RankP;
    var f, u := Excursion(fns, points), Compares(start, picks);
    assert u == [u[0]] + u[1..];
    LowByRank(Below(n), f, PERMUTATION_TOLERANCE, alpha, b, c, u[0], u[1..]);
  }

  lemma ComparesPlaces(n: nat, b: nat, start: seq<nat>, picks: seq<nat>)
    requires n > 0 && IsPerm(start, n) && picks in Seqs(Below(n), b)
    ensures |start| == n && Compares(start, picks) in Seqs(Below(n), b + 1) && Compares(start, picks)[0] == start[n - 1]
  {
    TestFirstPermutes(start, n);
    PermFacts(TestFirst(start), n);
    hide IsPerm;
    var u := Compares(start, picks);
    forall j | 0 <= j < b + 1 ensures u[j] in Below(n) {
      assert j > 0 ==> picks[j - 1] in Below(n);
    }
  }

  // ---------- Counting ----------

  function LastOf(start: seq<nat>): nat {
    if start == [] then 0 else start[|start| - 1]
  }

  function TestIs(): (seq<nat>, seq<nat>) -> bool {
    (u: seq<nat>, start: seq<nat>) => u != [] && LastOf(start) == u[0]
  }

  /** Points compared, with a labelling whose test point they start with. */
  ghost function Located(n: nat, b: nat, f: nat -> real, c: nat): set<(seq<nat>, seq<nat>)> {
    Grid(LowAt(Below(n), b + 1, f, PERMUTATION_TOLERANCE, c, 0), Perms(n), TestIs())
  }

  function Placed(o: Experiment): (seq<seq<nat>>, (seq<nat>, seq<nat>)) {
    (o.0.1, (if o.0.0 == [] then [] else Compares(o.0.0, o.1), o.0.0))
  }

  lemma PassingPlaced(fns: Analysis, points: seq<Point>, b: nat, alpha: real, c: nat, o: Experiment)
    requires |points| >= 2 && c == RankCap(alpha, b + 1)
    requires o in Passing(fns, points, |points| - 1, b, alpha)
    ensures Placed(o) in Pairs(Seqs(Choices(|points|), b), Located(|points|, b, Excursion(fns, points), c))
    ensures IsPerm(o.0.0, |points|) && o.1 in Seqs(Below(|points|), b)
  {
    hide Choices, Seqs, Excursion, RankCap, LowAt, Compares, Passing, IsPerm;
    PassingIsLow(fns, points, b, alpha, c, o);
  }

  lemma PicksFromCompares(n: nat, b: nat, start: seq<nat>, k: seq<nat>, l: seq<nat>)
    requires n > 0 && IsPerm(start, n) && k in Seqs(Below(n), b) && l in Seqs(Below(n), b)
    requires |start| == n ==> Compares(start, k) == Compares(start, l)
    ensures k == l
  {
    TestFirstPermutes(start, n);
    var order := TestFirst(start);
    PermFacts(order, n);
    hide IsPerm, TestFirst;
    forall j | 0 <= j < b ensures k[j] == l[j] {
      ComparesAt(start, k, j);
      ComparesAt(start, l, j);
    }
  }

  lemma ComparesAt(start: seq<nat>, k: seq<nat>, j: nat)
    requires start != [] && j < |k| && k[j] < |start|
    ensures Compares(start, k)[j + 1] == TestFirst(start)[k[j]]
  {
  }

  lemma PassingCount(fns: Analysis, points: seq<Point>, b: nat, alpha: real, c: nat)
    requires |points| >= 2 && c == RankCap(alpha, b + 1)
    ensures |Passing(fns, points, |points| - 1, b, alpha)|
         <= |Seqs(Choices(|points|), b)| * |Located(|points|, b, Excursion(fns, points), c)|
  {
    hide Choices, Seqs, Excursion, RankCap, Located, Compares, Passing, Pairs, IsPerm;
    var n, passing := |points|, Passing(fns, points, |points| - 1, b, alpha);
    var placed := Pairs(Seqs(Choices(n), b), Located(n, b, Excursion(fns, points), c));
    forall o | o in passing ensures Placed(o) in placed {
      PassingPlaced(fns, points, b, alpha, c, o);
    }
    forall o, o' | o in passing && o' in passing && Placed(o) == Placed(o') ensures o == o' {
      PassingPlaced(fns, points, b, alpha, c, o);
      PassingPlaced(fns, points, b, alpha, c, o');
      PermFacts(o.0.0, n);
      PicksFromCompares(n, b, o.0.0, o.1, o'.1);
    }
    InjectionBound(passing, placed, Placed);
    PairsCount(Seqs(Choices(n), b), Located(n, b, Excursion(fns, points), c));
  }

  /** Every point is the test point of equally many labellings. */
  lemma SameFiber(n: nat, x: nat, y: nat)
    requires x < n && y < n
    ensures |Fiber(n, LastOf, x)| <= |Fiber(n, LastOf, y)|
  {
    TranspositionFacts(n, x, y);
    var names := Transposition(n, x, y);
    forall p | p in Fiber(n, LastOf, x) ensures LastOf(Rename(names, p)) == y {
      PermFacts(p, n);
    }
    hide IsPerm, Transposition, Rename, Perms;
    FiberBound(n, LastOf, x, y, names);
  }

  lemma LocatedCount(n: nat, b: nat, f: nat -> real, c: nat)
    requires n > 0
    ensures n * |Located(n, b, f, c)| <= |Perms(n)| * |LowAt(Below(n), b + 1, f, PERMUTATION_TOLERANCE, c, 0)|
  {
    var low, w := LowAt(Below(n), b + 1, f, PERMUTATION_TOLERANCE, c, 0), |Fiber(n, LastOf, 0)|;
    hide Perms, Seqs;
    forall u | u in low ensures |RowAt(Perms(n), TestIs(), u)| <= w {
      assert RowAt(Perms(n), TestIs(), u) == Fiber(n, LastOf, u[0]);
      SameFiber(n, u[0], 0);
    }
    hide LowAt;
    RowsAtMost(low, Perms(n), TestIs(), w);
    TimesIsProduct(w, |low|);
    forall y: nat | y < n ensures w <= |Fiber(n, LastOf, y)| {
      SameFiber(n, 0, y);
    }
    FibersFill(n, LastOf, n, w);
    hide *;
    LocatedAre(n, b, f, c);
    FillUp(n, |Located(n, b, f, c)|, w, |low|, |Perms(n)|);
  }

  lemma FillUp(n: nat, located: nat, w: nat, low: nat, perms: nat)
    requires located <= w * low && w * n <= perms
    ensures n * located <= perms * low
  {
    Scale(n, located, w * low);
    Scale(low, w * n, perms);
    Regroup(n, w, low);
    assert low * (w * n) == n * w * low;
  }

  lemma LocatedAre(n: nat, b: nat, f: nat -> real, c: nat)
    ensures Located(n, b, f, c) == Grid(LowAt(Below(n), b + 1, f, PERMUTATION_TOLERANCE, c, 0), Perms(n), TestIs())
  {
  }

  lemma ExperimentsCount(n: nat, b: nat)
    requires n > 0
    ensures |PromptExperiments(n, n - 1, b)| == |Perms(n)| * |Seqs(Choices(n), b)| * |Seqs(Below(n), b)|
  {
    hide Seqs, Perms, Choices, Pairs;
    PairsCount(Perms(n), Seqs(Choices(n), b));
    PairsCount(Experiments(n, b), Seqs(Below(n), b));
  }

  lemma LowCount(n: nat, b: nat, f: nat -> real, c: nat)
    ensures |LowAt(Below(n), b + 1, f, PERMUTATION_TOLERANCE, c, 0)| * (b + 1) <= c * (n * |Seqs(Below(n), b)|)
  {
    assert PERMUTATION_TOLERANCE >= 0.0;
    SeqsCount(Below(n), b);
    SeqsCount(Below(n), b + 1);
    assert Pow(n, b + 1) == n * Pow(n, b);
    hide *;
    LowColumns(Below(n), b + 1, f, PERMUTATION_TOLERANCE, c);
    TimesIsProduct(|LowAt(Below(n), b + 1, f, PERMUTATION_TOLERANCE, c, 0)|, b + 1);
    TimesIsProduct(c, |Seqs(Below(n), b + 1)|);
  }

  /** `k` of `size` experiments are at most the share `c / n`. */
  ghost predicate RankedShare(k: nat, size: nat, c: nat, n: nat) {
    k * n <= c * size
  }

  lemma PassingTimes(fns: Analysis, points: seq<Point>, b: nat, alpha: real, c: nat)
    requires |points| >= 2 && c == RankCap(alpha, b + 1)
    ensures RankedShare(
              |Passing(fns, points, |points| - 1, b, alpha)|, |PromptExperiments(|points|, |points| - 1, b)|, c, b + 1)
  {
    hide *;
    var n, f := |points|, Excursion(fns, points);
    var passing, rounds, picks := |Passing(fns, points, |points| - 1, b, alpha)|, |Seqs(Choices(n), b)|,
        |Seqs(Below(n), b)|;
    var low := |LowAt(Below(n), b + 1, f, PERMUTATION_TOLERANCE, c, 0)|;
    PassingCount(fns, points, b, alpha, c);
    LocatedCount(n, b, f, c);
    LowCount(n, b, f, c);
    Assemble(n, b + 1, c, passing, rounds, |Located(n, b, f, c)|, |Perms(n)|, low, picks);
    ExperimentsCount(n, b);
  }

  lemma ShareOfRanked(k: nat, size: nat, b: nat, alpha: real, c: nat)
    requires alpha >= 0.0 && c == RankCap(alpha, b + 1) && RankedShare(k, size, c, b + 1)
    ensures AtMostShare(k, size, alpha)
  {
    RankCapWithin(alpha, b + 1);
    CancelCount(b + 1, k, c, alpha, size);
  }

  lemma PassingShare(fns: Analysis, points: seq<Point>, b: nat, alpha: real)
    requires |points| >= 2 && alpha >= 0.0
    ensures AtMostShare(
              |Passing(fns, points, |points| - 1, b, alpha)|, |PromptExperiments(|points|, |points| - 1, b)|, alpha)
  {
    RankCapWithin(alpha, b + 1);
    hide *;
    var c: nat := RankCap(alpha, b + 1);
    PassingTimes(fns, points, b, alpha, c);
    ShareOfRanked(
      |Passing(fns, points, |points| - 1, b, alpha)|, |PromptExperiments(|points|, |points| - 1, b)|, b, alpha, c);
  }

  /** One run sample: at most a share `alpha` of all experiments pass the gate at `alpha`. */
  lemma SingleSampleExact(fns: Analysis, points: seq<Point>, b: nat, alpha: real)
    requires |points| >= 2 && alpha >= 0.0
    ensures PassesAtMost(fns, points, |points| - 1, b, alpha, alpha)
  {
    hide Passing, PromptExperiments, AtMostShare;
    PassingShare(fns, points, b, alpha);
  }

  lemma Assemble(n: nat, b: nat, c: nat, passing: nat, rounds: nat, located: nat, perms: nat, low: nat, picks: nat)
    requires n > 0 && passing <= rounds * located && n * located <= perms * low && low * b <= c * (n * picks)
    ensures RankedShare(passing, perms * rounds * picks, c, b)
  {
    ScaleThrough(n, passing, rounds, located, perms * low);
    Regroup(rounds, perms, low);
    ScaleThrough(b, n * passing, rounds * perms, low, c * (n * picks));
    Gather(rounds, perms, c, n, picks);
    Regroup(b, n, passing);
    assert n * (passing * b) == b * n * passing;
    CancelFactorNat(n, passing * b, c * (perms * rounds * picks));
  }

  lemma ScaleThrough(n: nat, x: nat, r: nat, y: nat, z: nat)
    requires x <= r * y && n * y <= z
    ensures n * x <= r * z
  {
    Scale(n, x, r * y);
    Scale(r, n * y, z);
    Regroup(n, r, y);
    Regroup(r, n, y);
    assert n * r == r * n;
  }

  lemma Gather(rounds: nat, perms: nat, c: nat, n: nat, picks: nat)
    ensures rounds * perms * (c * (n * picks)) == n * (c * (perms * rounds * picks))
  {
  }

  lemma CancelFactorNat(n: nat, x: nat, y: nat)
    requires n > 0 && n * x <= n * y
    ensures x <= y
  {
    if x > y {
      Scale(n, y + 1, x);
    }
  }
}
