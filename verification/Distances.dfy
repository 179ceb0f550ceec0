/** Distances between points, and the pooled median bandwidth. */
module Distances {
  import opened Sums

  type Point = seq<real>

  type Positive = r: real | r > 0.0 witness 1.0

  /** The square root and the exponential, about which nothing is assumed. */
  datatype Analysis = Analysis(sqrt: real -> real, exp: real -> real)

  /** The square root is one. */
  ghost predicate IsRoot(fns: Analysis) {
    forall y :: y >= 0.0 ==> fns.sqrt(y) >= 0.0 && Square(fns.sqrt(y)) == y
  }

  function Square(x: real): real {
    x * x
  }

  lemma RootOf(fns: Analysis, x: real)
    requires IsRoot(fns) && x >= 0.0
    ensures fns.sqrt(Square(x)) == x
  {
    SquareNonNegative(x);
    SquareInjective(fns.sqrt(Square(x)), x);
  }

  lemma SquareNonNegative(x: real)
    ensures Square(x) >= 0.0
  {
  }

  lemma SquareInjective(x: real, y: real)
    requires x >= 0.0 && y >= 0.0 && Square(x) == Square(y)
    ensures x == y
  {
    assert (x - y) * (x + y) == x * x - y * y;
    ZeroFactor(x - y, x + y);
  }

  lemma ZeroFactor(a: real, b: real)
    requires a * b == 0.0
    ensures a == 0.0 || b == 0.0
  {
  }

  /** What is used of the exponential: its value at 0, and that it has dropped by a third at -1/2. */
  ghost predicate IsExp(fns: Analysis) {
    fns.exp(0.0) == 1.0 && forall y :: y <= -0.5 ==> fns.exp(y) <= 2.0 / 3.0
  }

  const BANDWIDTH_FLOOR: Positive := 0.000001

  /** Squared distance over the coordinates the two points share. */
  function SqDist(a: Point, b: Point): real {
    if a == [] || b == [] then 0.0
    else (a[0] - b[0]) * (a[0] - b[0]) + SqDist(a[1..], b[1..])
  }

  lemma {:induction false} SqDistSymmetric(a: Point, b: Point)
    ensures SqDist(a, b) == SqDist(b, a)
  {
    if a != [] && b != [] {
      SqDistSymmetric(a[1..], b[1..]);
    }
  }

  /** Each coordinate adds the square of its difference. */
  lemma {:induction false} SqDistAppend(a: Point, b: Point, x: real, y: real)
    requires |a| == |b|
    ensures SqDist(a + [x], b + [y]) == SqDist(a, b) + (x - y) * (x - y)
    ensures SqDist([], []) == 0.0
  {
    if a == [] {
      assert a + [x] == [x] && b + [y] == [y] && [x][1..] == [] && [y][1..] == [];
    } else {
      assert (a + [x])[1..] == a[1..] + [x] && (b + [y])[1..] == b[1..] + [y];
      SqDistAppend(a[1..], b[1..], x, y);
    }
  }

  lemma {:induction false} SqDistSelf(a: Point)
    ensures SqDist(a, a) == 0.0
  {
    if a != [] {
      SqDistSelf(a[1..]);
    }
  }

  function Distance(fns: Analysis, a: Point, b: Point): real {
    fns.sqrt(SqDist(a, b))
  }

  /** Sorting, as the standard library's `sort_by` performs it. */
  function Sorted(s: seq<real>): (r: seq<real>)
    ensures multiset(r) == multiset(s)
    ensures Ascending(r)
  {
    if s == [] then []
    else
      assert s == s[..|s| - 1] + [s[|s| - 1]];
      Inserted(Sorted(s[..|s| - 1]), s[|s| - 1])
  }

  lemma BelowLast(init: seq<real>, x: real, r: seq<real>, last: real)
    requires multiset(r) == multiset(init) + multiset{x} && x <= last && forall i :: 0 <= i < |init| ==> init[i] <= last
    ensures Ascending(r) ==> Ascending(r + [last])
    ensures multiset(r + [last]) == multiset(init + [last]) + multiset{x}
  {
    forall i | 0 <= i < |r| ensures r[i] <= last {
      assert r[i] in multiset(r);
      assert r[i] == x || r[i] in init;
    }
  }

  function Inserted(s: seq<real>, x: real): (r: seq<real>)
    requires Ascending(s)
    ensures multiset(r) == multiset(s) + multiset{x}
    ensures Ascending(r)
  {
    if s == [] || s[|s| - 1] <= x then s + [x]
    else
      var init, last := s[..|s| - 1], s[|s| - 1];
      assert s == init + [last];
      var r := Inserted(init, x);
      BelowLast(init, x, r, last);
      r + [last]
  }

  predicate Ascending(s: seq<real>) {
    forall i, j :: 0 <= i < j < |s| ==> s[i] <= s[j]
  }

  /** A multiset has one ascending order. */
  lemma {:induction false} AscendingUnique(s: seq<real>, t: seq<real>)
    requires Ascending(s) && Ascending(t) && multiset(s) == multiset(t)
    ensures s == t
    decreases |s|
  {
    if s == [] {
      assert |multiset(t)| == 0;
    } else {
      assert |multiset(s)| == |s| && |multiset(t)| == |t|;
      var k := |s| - 1;
      LastIsMost(s, t);
      LastIsMost(t, s);
      SameWithoutLast(s, t);
      assert s == s[..k] + [s[k]] && t == t[..k] + [t[k]];
      AscendingUnique(s[..k], t[..k]);
    }
  }

  lemma LastIsMost(s: seq<real>, t: seq<real>)
    requires Ascending(s) && Ascending(t) && multiset(s) == multiset(t) && |s| == |t| > 0
    ensures s[|s| - 1] <= t[|t| - 1]
  {
    assert s[|s| - 1] in multiset(t);
    var i := FindEntry(t, s[|s| - 1]);
  }

  // ---------- Pairwise distances ----------

  function DistancesTo(fns: Analysis, a: Point, points: seq<Point>): (r: seq<real>)
    ensures |r| == |points| && forall i :: 0 <= i < |points| ==> r[i] == Distance(fns, a, points[i])
  {
    seq(|points|, i requires 0 <= i < |points| => Distance(fns, a, points[i]))
  }

  /** The distance of every unordered pair of positions, in loop order. */
  function PairDistances(fns: Analysis, points: seq<Point>): seq<real> {
    if points == [] then []
    else DistancesTo(fns, points[0], points[1..]) + PairDistances(fns, points[1..])
  }

  function MedianOf(dists: seq<real>): Positive {
    if dists == [] then BANDWIDTH_FLOOR
    else
      var s := Sorted(dists);
      assert |s| == |multiset(s)| == |dists|;
      var mid := |s| / 2;
      var median := if |s| % 2 == 0 then (s[mid - 1] + s[mid]) / 2.0 else s[mid];
      if median > BANDWIDTH_FLOOR then median else BANDWIDTH_FLOOR
  }

  /** The median in any ascending order of the distances: the middle one, or the mean of the two in the middle, and a
      millionth where that is less. */
  lemma MedianMeaning(dists: seq<real>, ordered: seq<real>)
    requires multiset(ordered) == multiset(dists) && Ascending(ordered) && dists != []
    ensures |ordered| == |dists|
    ensures var middle := (ordered[(|ordered| - 1) / 2] + ordered[|ordered| / 2]) / 2.0;
            MedianOf(dists) == if middle > 0.000001 then middle else 0.000001
    ensures MedianOf([]) == 0.000001
  {
    assert |ordered| == |multiset(ordered)| == |dists|;
    AscendingUnique(Sorted(dists), ordered);
    hide Sorted, Ascending;
    var n := |ordered|;
    assert n % 2 == 0 ==> (n - 1) / 2 == n / 2 - 1;
    assert n % 2 == 1 ==> (n - 1) / 2 == n / 2;
  }

  function MedianBandwidth(fns: Analysis, points: seq<Point>): Positive {
    MedianOf(PairDistances(fns, points))
  }

  lemma PairDistancesFrom(fns: Analysis, points: seq<Point>, i: nat)
    requires i < |points|
    ensures PairDistances(fns, points[i..])
        == DistancesTo(fns, points[i], points[i + 1..]) + PairDistances(fns, points[i + 1..])
  {
    assert points[i..][1..] == points[i + 1..];
  }

  lemma DistancesToFrom(fns: Analysis, a: Point, points: seq<Point>, j: nat)
    requires j < |points|
    ensures DistancesTo(fns, a, points[j..]) == [Distance(fns, a, points[j])] + DistancesTo(fns, a, points[j + 1..])
  {
    assert points[j..][1..] == points[j + 1..];
  }

  lemma NoPairsLeft(fns: Analysis, points: seq<Point>)
    ensures PairDistances(fns, points[|points|..]) == []
  {
  }

  method MedianHeuristicBandwidth(fns: Analysis, points: seq<Point>) returns (bandwidth: Positive)
    ensures bandwidth == MedianBandwidth(fns, points)
  {
    hide PairDistances, Distance, MedianOf;
    var dists: seq<real> := [];
    assert points[0..] == points;
    for i := 0 to |points|
      invariant dists + PairDistances(fns, points[i..]) == PairDistances(fns, points)
    {
      PairDistancesFrom(fns, points, i);
      ghost var before := dists;
      for j := i + 1 to |points|
        invariant dists + DistancesTo(fns, points[i], points[j..])
            == before + DistancesTo(fns, points[i], points[i + 1..])
      {
        DistancesToFrom(fns, points[i], points, j);
        dists := dists + [Distance(fns, points[i], points[j])];
      }
      assert points[|points|..] == [];
      assert dists == before + DistancesTo(fns, points[i], points[i + 1..]);
    }
    NoPairsLeft(fns, points);
    assert dists == PairDistances(fns, points);
    bandwidth := MedianOf(dists);
  }

  lemma DistancesToRemove(fns: Analysis, a: Point, points: seq<Point>, i: nat)
    requires i < |points|
    ensures multiset(DistancesTo(fns, a, points))
        == multiset(DistancesTo(fns, a, RemoveAt(points, i))) + multiset{Distance(fns, a, points[i])}
  {
    hide Distance;
    var all := DistancesTo(fns, a, points);
    assert DistancesTo(fns, a, RemoveAt(points, i)) == RemoveAt(all, i);
  }

  lemma DistancesToCons(fns: Analysis, a: Point, h: Point, points: seq<Point>)
    ensures multiset(DistancesTo(fns, a, [h] + points))
        == multiset{Distance(fns, h, a)} + multiset(DistancesTo(fns, a, points))
  {
    SqDistSymmetric(a, h);
    assert DistancesTo(fns, a, [h] + points) == [Distance(fns, h, a)] + DistancesTo(fns, a, points);
  }

  /** Any one point can be taken out first. */
  lemma {:induction false} PairDistancesRemove(fns: Analysis, points: seq<Point>, i: nat)
    requires i < |points|
    ensures multiset(PairDistances(fns, points))
         == multiset(DistancesTo(fns, points[i], RemoveAt(points, i)))
             + multiset(PairDistances(fns, RemoveAt(points, i)))
  {
    if i == 0 {
      assert RemoveAt(points, 0) == points[1..];
    } else {
      hide DistancesTo, Distance;
      var h, t := points[0], points[1..];
      var r := RemoveAt(t, i - 1);
      assert RemoveAt(points, i) == [h] + r;
      assert ([h] + r)[1..] == r;
      PairDistancesRemove(fns, t, i - 1);
      DistancesToRemove(fns, h, t, i - 1);
      DistancesToCons(fns, t[i - 1], h, r);
    }
  }

  lemma {:induction false} DistancesToReorder(fns: Analysis, a: Point, points: seq<Point>, points': seq<Point>)
    requires multiset(points) == multiset(points')
    ensures multiset(DistancesTo(fns, a, points)) == multiset(DistancesTo(fns, a, points'))
    decreases |points|
  {
    if points == [] {
      assert |multiset(points')| == 0;
    } else {
      assert points[0] in multiset(points);
      var i := FindEntry(points', points[0]);
      DistancesToRemove(fns, a, points, 0);
      DistancesToRemove(fns, a, points', i);
      DistancesToReorder(fns, a, RemoveAt(points, 0), RemoveAt(points', i));
    }
  }

  lemma {:induction false} PairDistancesReorder(fns: Analysis, points: seq<Point>, points': seq<Point>)
    requires multiset(points) == multiset(points')
    ensures multiset(PairDistances(fns, points)) == multiset(PairDistances(fns, points'))
    decreases |points|
  {
    if points == [] {
      assert |multiset(points')| == 0;
    } else {
      assert points[0] in multiset(points);
      var i := FindEntry(points', points[0]);
      PairDistancesRemove(fns, points, 0);
      PairDistancesRemove(fns, points', i);
      DistancesToReorder(fns, points[0], RemoveAt(points, 0), RemoveAt(points', i));
      PairDistancesReorder(fns, RemoveAt(points, 0), RemoveAt(points', i));
    }
  }

  /** The pooled bandwidth depends on which points are pooled, not on their order. */
  lemma MedianBandwidthReorder(fns: Analysis, points: seq<Point>, points': seq<Point>)
    requires multiset(points) == multiset(points')
    ensures MedianBandwidth(fns, points) == MedianBandwidth(fns, points')
  {
    hide PairDistances, Sorted, Ascending;
    PairDistancesReorder(fns, points, points');
    var a, b := PairDistances(fns, points), PairDistances(fns, points');
    assert |a| == |multiset(a)| == |multiset(b)| == |b|;
    AscendingUnique(Sorted(a), Sorted(b));
  }
}
