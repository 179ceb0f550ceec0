/** Scores over an augmented set, and conformal p-values. */
module Conformal {
  import opened Counting
  import opened Sums
  import opened MonteCarlo
  import opened Distances
  import opened Moments

  function Apart(fns: Analysis): (Point, Point) -> real {
    (a, b) => Distance(fns, a, b)
  }

  /** The mean distance of point `j` to all the others. */
  function OtherMean(fns: Analysis, all: seq<Point>, j: nat): real
    requires j < |all| && |all| >= 2
  {
    SumBy(From(Apart(fns), all[j]), RemoveAt(all, j)) / (|all| - 1) as real
  }

  /** Every point of the augmented set scored against the others. */
  function ScoresOf(fns: Analysis, all: seq<Point>): (s: seq<real>)
    requires |all| >= 2
    ensures |s| == |all| && forall j :: 0 <= j < |all| ==> s[j] == OtherMean(fns, all, j)
  {
    seq(|all|, j requires 0 <= j < |all| => OtherMean(fns, all, j))
  }

  /** The scores of `point` against its cloud and of each cloud point against the rest and `point`. */
  method AugmentedScores(fns: Analysis, point: Point, cloud: seq<Point>) returns (scores: seq<real>)
    requires cloud != []
    ensures scores == ScoresOf(fns, [point] + cloud)
  {
    hide Distance, OtherMean, RemoveAt;
    ghost var d := Apart(fns);
    var k := |cloud| as real;
    var toCloud := 0.0;
    for l := 0 to |cloud|
      invariant toCloud == SumBy(From(d, point), cloud[..l])
    {
      SumBySnoc(From(d, point), cloud, l);
      toCloud := toCloud + Distance(fns, point, cloud[l]);
    }
    TestScore(fns, point, cloud);
    scores := [toCloud / k];
    for j := 0 to |cloud|
      invariant |scores| == j + 1
      invariant forall q :: 0 <= q <= j ==> scores[q] == OtherMean(fns, [point] + cloud, q)
    {
      var toOtherCloud := SumToOthers(fns, cloud, j);
      CloudScore(fns, point, cloud, j);
      scores := scores + [(toOtherCloud + Distance(fns, cloud[j], point)) / k];
    }
  }

  method SumToOthers(fns: Analysis, cloud: seq<Point>, j: nat) returns (sum: real)
    requires j < |cloud|
    ensures sum == SumBy(From(Apart(fns), cloud[j]), RemoveAt(cloud, j))
  {
    hide Distance;
    ghost var f := From(Apart(fns), cloud[j]);
    sum := 0.0;
    for l := 0 to |cloud|
      invariant sum == SumBy(f, cloud[..l]) - if j < l then f(cloud[j]) else 0.0
    {
      SumBySnoc(f, cloud, l);
      if l != j {
        sum := sum + Distance(fns, cloud[j], cloud[l]);
      }
    }
    assert cloud[..|cloud|] == cloud;
    SumByRemove(f, cloud, j);
  }

  lemma TestScore(fns: Analysis, point: Point, cloud: seq<Point>)
    requires cloud != []
    ensures OtherMean(fns, [point] + cloud, 0) == SumBy(From(Apart(fns), point), cloud[..|cloud|]) / |cloud| as real
  {
    assert cloud[..|cloud|] == cloud == RemoveAt([point] + cloud, 0);
  }

  lemma CloudScore(fns: Analysis, point: Point, cloud: seq<Point>, j: nat)
    requires j < |cloud|
    ensures var f := From(Apart(fns), cloud[j]);
            OtherMean(fns, [point] + cloud, j + 1) == (SumBy(f, RemoveAt(cloud, j)) + f(point)) / |cloud| as real
  {
    hide Distance;
    var f := From(Apart(fns), cloud[j]);
    assert RemoveAt([point] + cloud, j + 1) == [point] + RemoveAt(cloud, j);
    SumByConcat(f, [point], RemoveAt(cloud, j));
    SumByOne(f, point);
  }

  /** Each score, times the number of the other points, is the sum of the distances to them. */
  lemma ScoreMeaning(fns: Analysis, all: seq<Point>, j: nat, dist: Point -> real)
    requires j < |all| && |all| >= 2 && forall p :: dist(p) == fns.sqrt(SqDist(all[j], p))
    ensures ScoresOf(fns, all)[j] * (|all| - 1) as real == SumBy(dist, all[..j]) + SumBy(dist, all[j + 1..])
  {
    hide SumBy, SqDist;
    var rest := RemoveAt(all, j);
    SumByCongruence(From(Apart(fns), all[j]), rest, dist, rest);
    SumByConcat(dist, all[..j], all[j + 1..]);
  }

  // ---------- Which point is held out ----------

  /** The list with entry `h` moved to the front: the test point first, its cloud after it. */
  function ToFront<T>(s: seq<T>, h: nat): (r: seq<T>)
    requires h < |s|
    ensures r == [s[h]] + RemoveAt(s, h)
    ensures |r| == |s| && forall q :: 0 <= q < |s| ==> r[q] == s[Original(h, q)]
    ensures multiset(r) == multiset(s)
  {
    [s[h]] + RemoveAt(s, h)
  }

  /** Where position `q` of the reordered list stood before. */
  function Original(h: nat, q: nat): nat {
    if q == 0 then h else if q - 1 < h then q - 1 else q
  }

  /** Where entry `i` stands in the reordered list. */
  function Moved(h: nat, i: nat): nat {
    if i == h then 0 else if i < h then i + 1 else i
  }

  lemma ScoreInvariant(fns: Analysis, all: seq<Point>, h: nat, q: nat)
    requires |all| >= 2 && h < |all| && q < |all|
    ensures Original(h, q) < |all| && OtherMean(fns, ToFront(all, h), q) == OtherMean(fns, all, Original(h, q))
  {
    SumByReorder(From(Apart(fns), all[Original(h, q)]), RemoveAt(ToFront(all, h), q), RemoveAt(all, Original(h, q)));
  }

  /** Scoring does not care which point is called the test point. */
  lemma ScoresEquivariant(fns: Analysis, all: seq<Point>, h: nat)
    requires |all| >= 2 && h < |all|
    ensures ScoresOf(fns, ToFront(all, h)) == ToFront(ScoresOf(fns, all), h)
  {
    hide OtherMean;
    forall q | 0 <= q < |all| ensures ScoresOf(fns, ToFront(all, h))[q] == ToFront(ScoresOf(fns, all), h)[q] {
      ScoreInvariant(fns, all, h, q);
    }
  }

  /** Nor does standardizing the scores. */
  lemma StandardizedEquivariant(fns: Analysis, scores: seq<real>, h: nat)
    requires h < |scores|
    ensures Standardized(fns, ToFront(scores, h)) == ToFront(Standardized(fns, scores), h)
  {
    hide Mean, Deviation;
    MomentsReorder(fns, ToFront(scores, h), scores);
  }

  // ---------- The rank p-value ----------

  /** `(1 + #{cloud score >= test score}) / (k + 1)`, the test score first. */
  function ConformalP(scores: seq<real>): real
    requires scores != []
  {
    RankP(scores[0], scores[1..], 0.0)
  }

  /** The points of the augmented set that would get a p-value of `alpha` or less as the test point. */
  ghost function ConformalHits(fns: Analysis, all: seq<Point>, alpha: real): set<nat>
    requires |all| >= 2
  {
    set h | h in Below(|all|) && ConformalP(ScoresOf(fns, ToFront(all, h))) <= alpha
  }

  lemma RankWithSelf(test: real, rest: seq<real>)
    ensures NumAtLeast([test] + rest, test) == 1 + NumAtLeast(rest, test)
  {
    NumAtLeastConcat([test], rest, test);
    assert [test][..0] == [];
  }

  lemma RankPIs(test: real, rest: seq<real>)
    ensures RankP(test, rest, 0.0) == Share(NumAtLeast([test] + rest, test), 1 + |rest|)
  {
    hide Share;
    RankWithSelf(test, rest);
    assert test - 0.0 == test;
  }

  lemma RankAmong(test: real, rest: seq<real>, k: nat)
    requires k == NumAtLeast(rest, test) + 1
    ensures RankP(test, rest, 0.0) == Share(k, 1 + |rest|)
  {
    hide NumAtLeast, RankP, Share;
    RankPIs(test, rest);
    RankWithSelf(test, rest);
  }

  lemma FrontAndRest<T>(x: T, rest: seq<T>, s: seq<T>)
    requires s == [x] + rest
    ensures s[0] == x && s[1..] == rest
  {
  }

  lemma ConformalRank(scores: seq<real>, h: nat)
    requires h < |scores|
    ensures ConformalP(ToFront(scores, h)) == Share(NumAtLeast(scores, scores[h]), |scores|)
  {
    hide NumAtLeast, RankP, Share, Original, RemoveAt, ToFront;
    var rest := RemoveAt(scores, h);
    FrontAndRest(scores[h], rest, ToFront(scores, h));
    NumAtLeastRemove(scores, h, scores[h]);
    RankAmong(scores[h], rest, NumAtLeast(scores, scores[h]));
  }

  lemma ReachesItself(s: seq<real>, h: nat)
    requires h < |s|
    ensures NumAtLeast(s, s[h]) >= 1
  {
    NumAtLeastRemove(s, h, s[h]);
  }

  /** The p-value of point `h` when it is the one held out: its rank among all the scores. */
  lemma HeldOutP(fns: Analysis, all: seq<Point>, h: nat)
    requires |all| >= 2 && h < |all|
    ensures var s := ScoresOf(fns, all);
            ConformalP(ScoresOf(fns, ToFront(all, h))) == Share(NumAtLeast(s, s[h]), |all|)
  {
    hide OtherMean, ConformalP, Share;
    ScoresEquivariant(fns, all, h);
    ConformalRank(ScoresOf(fns, all), h);
  }

  /** No conformal p-value is below `1/(k+1)`. */
  lemma ConformalFloor(fns: Analysis, all: seq<Point>, h: nat)
    requires |all| >= 2 && h < |all|
    ensures ConformalP(ScoresOf(fns, ToFront(all, h))) >= Share(1, |all|)
  {
    hide OtherMean, ConformalP, NumAtLeast, Share;
    var s := ScoresOf(fns, all);
    HeldOutP(fns, all, h);
    ReachesItself(s, h);
    ShareMonotone(1, NumAtLeast(s, s[h]), |all|);
  }

  lemma HitIsExtreme(fns: Analysis, all: seq<Point>, alpha: real, c: nat, h: nat)
    requires |all| >= 2 && c == RankCap(alpha, |all|) && h in ConformalHits(fns, all, alpha)
    ensures h in ExtremePositions(ScoresOf(fns, all), 0.0, c)
  {
    hide OtherMean, ConformalP, NumAtLeast, RankCap, Share, ToFront, RemoveAt;
    var s := ScoresOf(fns, all);
    HeldOutP(fns, all, h);
    ShareWithin(NumAtLeast(s, s[h]), |all|, alpha);
    assert s[h] - 0.0 == s[h];
  }

  /** Conformal p-values are super-uniform: at most a share `alpha` of the points of the augmented
      set get `alpha` or less when held out as the test point. */
  lemma ConformalExact(fns: Analysis, all: seq<Point>, alpha: real)
    requires |all| >= 2 && alpha >= 0.0
    ensures AtMostShare(|ConformalHits(fns, all, alpha)|, |all|, alpha)
  {
    hide ConformalHits, ExtremePositions, RankCap, ScoresOf;
    RankCapWithin(alpha, |all|);
    var c: nat := RankCap(alpha, |all|);
    var extreme := ExtremePositions(ScoresOf(fns, all), 0.0, c);
    forall h | h in ConformalHits(fns, all, alpha) ensures h in extreme {
      HitIsExtreme(fns, all, alpha, c, h);
    }
    SubsetBound(ConformalHits(fns, all, alpha), extreme);
    RankCalibrated(ScoresOf(fns, all), 0.0, c);
    FewerWithin(|ConformalHits(fns, all, alpha)|, c, |all|, alpha);
  }
}
