/** Four points at the corners of a rectangle: the statistic of every split of them into two pairs. */
module FourPoints {
  import opened Counting
  import opened Sums
  import opened Shuffle
  import opened Distances
  import opened Gram
  import opened TwoSample
  import opened PermutationTest

  const CORNERS: seq<Point> := [[0.0, 0.0], [3.0, 0.0], [0.0, 4.0], [3.0, 4.0]]

  /** The distance of two corners: the sides are 3 and 4, the diagonal 5. */
  function Side(i: nat, j: nat): real {
    if i == j then 0.0
    else if i + j == 1 || i + j == 5 then 3.0
    else if i + j == 3 then 5.0
    else 4.0
  }

  /** The sides from one corner to the three others differ, and parallel sides are equal. */
  lemma Sides(a: nat, b: nat, c: nat, d: nat)
    requires a < 4 && b < 4 && c < 4 && d < 4 && a != b && a != c && a != d && b != c && b != d && c != d
    ensures Side(a, b) == Side(c, d) && Side(a, c) == Side(b, d) && Side(a, d) == Side(b, c)
    ensures Side(a, b) + Side(a, c) + Side(a, d) == 12.0
    ensures Side(a, b) != Side(a, c) && Side(a, b) != Side(a, d)
  {
  }

  lemma FlatDistance(x: real, y: real, x': real, y': real)
    ensures SqDist([x, y], [x', y']) == (x - x') * (x - x') + (y - y') * (y - y')
  {
    assert [x, y][1..] == [y] && [x', y'][1..] == [y'];
    assert [y][1..] == [] && [y'][1..] == [];
    assert SqDist([], []) == 0.0;
  }

  lemma CornerAt(i: nat)
    requires i < 4
    ensures |CORNERS| == 4
    ensures CORNERS[i] == [if i % 2 == 0 then 0.0 else 3.0, if i < 2 then 0.0 else 4.0]
  {
  }

  lemma CornerDistance(fns: Analysis, i: nat, j: nat)
    requires IsRoot(fns) && i < 4 && j < 4
    ensures |CORNERS| == 4 && fns.sqrt(SqDist(CORNERS[i], CORNERS[j])) == Side(i, j)
  {
    CornerAt(i);
    CornerAt(j);
    var x, y := if i % 2 == 0 then 0.0 else 3.0, if i < 2 then 0.0 else 4.0;
    var x', y' := if j % 2 == 0 then 0.0 else 3.0, if j < 2 then 0.0 else 4.0;
    FlatDistance(x, y, x', y');
    RootOf(fns, Side(i, j));
    hide IsRoot;
    assert (x - x') * (x - x') + (y - y') * (y - y') == Square(Side(i, j));
  }

  lemma CrossOfPairs<T>(w: (T, T) -> real, a: T, b: T, c: T, d: T)
    ensures CrossSum(w, [a, b], [c, d]) == w(a, c) + w(a, d) + w(b, c) + w(b, d)
  {
    SumByPair(Rows(w, [c, d]), a, b);
    SumByPair(From(w, a), c, d);
    SumByPair(From(w, b), c, d);
  }

  lemma StatisticOfPairs<T>(w: (T, T) -> real, a: T, b: T, c: T, d: T)
    requires w(a, a) == w(b, b) == w(c, c) == w(d, d) == 0.0 && w(b, a) == w(a, b) && w(d, c) == w(c, d)
    ensures Statistic(w, [a, b], [c, d], false)
         == (w(a, b) + w(c, d) - (w(a, c) + w(a, d) + w(b, c) + w(b, d))) / 2.0
  {
    CrossOfPairs(w, a, b, a, b);
    CrossOfPairs(w, c, d, c, d);
    CrossOfPairs(w, a, b, c, d);
    hide CrossSum;
  }

  /** The statistic of two pairs of corners: what the pair's own side leaves of 12. */
  lemma StatisticOfCorners(fns: Analysis, a: nat, b: nat, c: nat, d: nat)
    requires IsRoot(fns) && a < 4 && b < 4 && c < 4 && d < 4
    requires a != b && a != c && a != d && b != c && b != d && c != d
    ensures |CORNERS| == 4
    ensures Statistic(
        PairWeight(fns, NegativeDistance), [CORNERS[a], CORNERS[b]], [CORNERS[c], CORNERS[d]], false)
        == 12.0 - 2.0 * Side(a, b)
  {
    var w := PairWeight(fns, NegativeDistance);
    CornerAt(0);
    forall i, j | 0 <= i < 4 && 0 <= j < 4 ensures w(CORNERS[i], CORNERS[j]) == -Side(i, j) {
      CornerDistance(fns, i, j);
    }
    Sides(a, b, c, d);
    assert Side(b, a) == Side(a, b) && Side(d, c) == Side(c, d);
    assert Side(a, a) == 0.0 && Side(b, b) == 0.0 && Side(c, c) == 0.0 && Side(d, d) == 0.0;
    hide *;
    StatisticOfPairs(w, CORNERS[a], CORNERS[b], CORNERS[c], CORNERS[d]);
  }

  /** The statistic of a labelling, whose first two corners are the first group. */
  function CornerValue(p: seq<nat>): real
    requires |p| == 4
  {
    12.0 - 2.0 * Side(p[0], p[1])
  }

  /** It is the score of the labelling. */
  lemma ScoreOfCorners(fns: Analysis, p: seq<nat>)
    requires IsRoot(fns) && IsPerm(p, 4)
    ensures |p| == 4 && RelabelledScore(fns, Energy, CORNERS, 2)(p) == CornerValue(p)
  {
    PermFacts(p, 4);
    CornerAt(0);
    assert p[0] != p[1] && p[0] != p[2] && p[0] != p[3] && p[1] != p[2] && p[1] != p[3] && p[2] != p[3];
    StatisticOfCorners(fns, p[0], p[1], p[2], p[3]);
    hide IsRoot, Statistic, IsPerm;
    assert Select(CORNERS, p[..2], []) == [CORNERS[p[0]], CORNERS[p[1]]];
    assert Select(CORNERS, p[2..], []) == [CORNERS[p[2]], CORNERS[p[3]]];
  }

  // ---------- Half of the labellings ----------

  /** The labelling separates the corners better than the one that pairs its corner 0 with its corner `k`. */
  ghost predicate Beats(p: seq<nat>, k: nat) {
    |p| == 4 && k < 4 && Side(p[0], p[1]) < Side(p[0], p[k])
  }

  ghost function Beating(k: nat): set<seq<nat>> {
    set p | p in Perms(4) && Beats(p, k)
  }

  ghost function Beaten(k: nat): set<seq<nat>> {
    set p | p in Perms(4) && !Beats(p, k)
  }

  lemma SwapPerm(p: seq<nat>, k: nat)
    requires IsPerm(p, 4) && 2 <= k < 4
    ensures |p| == 4 && IsPerm(Swap(p, 1, k), 4) && Swap(Swap(p, 1, k), 1, k) == p
  {
    PermFacts(p, 4);
    SwapTwice(p, 1, k);
    hide Identity, Swap;
  }

  lemma SwapTwice<T>(s: seq<T>, i: nat, j: nat)
    requires i < |s| && j < |s|
    ensures |Swap(s, i, j)| == |s| && Swap(Swap(s, i, j), i, j) == s
  {
  }

  lemma SwapBeats(p: seq<nat>, k: nat)
    requires IsPerm(p, 4) && 2 <= k < 4
    ensures |p| == 4 && (Beats(Swap(p, 1, k), k) <==> !Beats(p, k))
  {
    PermFacts(p, 4);
    hide IsPerm;
    assert p[0] != p[1] && p[0] != p[2] && p[0] != p[3] && p[1] != p[2] && p[1] != p[3] && p[2] != p[3];
    Sides(p[0], p[1], p[2], p[3]);
    hide Side;
  }

  /** Exactly half of the labellings do: swapping the two corners swaps the verdict. */
  lemma HalfBeat(k: nat)
    requires 2 <= k < 4
    ensures 2 * |Beating(k)| == |Perms(4)| && 2 * |Beaten(k)| == |Perms(4)|
  {
    hide Perms, IsPerm, Beats;
    var f := (p: seq<nat>) => if |p| == 4 then Swap(p, 1, k) else p;
    forall p | p in Perms(4)
      ensures |p| == 4 && IsPerm(f(p), 4) && f(f(p)) == p && (Beats(f(p), k) <==> !Beats(p, k))
    {
      SwapPerm(p, k);
      SwapBeats(p, k);
    }
    InjectionBound(Beating(k), Beaten(k), f);
    InjectionBound(Beaten(k), Beating(k), f);
    BeatingParts(k);
    hide *;
    assert |Perms(4)| == |Beating(k)| + |Beaten(k)|;
  }

  lemma BeatingParts(k: nat)
    ensures Perms(4) == Beating(k) + Beaten(k) && Beating(k) * Beaten(k) == {}
  {
    hide Beats, Perms;
  }

  // ---------- The two groups of a labelling ----------

  function FirstTwo(p: seq<nat>): (group: seq<Point>)
    requires |p| == 4
    ensures |group| == 2
  {
    Select(CORNERS, p[..2], [])
  }

  function LastTwo(p: seq<nat>): (group: seq<Point>)
    requires |p| == 4
    ensures |group| == 2
  {
    Select(CORNERS, p[2..], [])
  }
}
