/** Several run samples: five points for which the gate passes too many experiments.

    The pooled points lie on a line; three of them are the cloud and two the run samples, with two
    shuffles and two picks. Of the 4000 equally likely combinations of three splits and two picks,
    1344 pass at the level 1/3, where 1333 would be allowed. */
module SeveralWitness {
  import opened Counting
  import opened Sums
  import opened Shuffle
  import opened MonteCarlo
  import opened Results
  import opened Distances
  import opened Gram
  import opened Moments
  import opened TwoSample
  import opened PermutationTest
  import opened Gate
  import opened Assessment
  import opened OnePrompt

  function Coordinate(i: nat): int {
    if i == 0 then 0 else if i == 1 then 18 else if i == 2 then 36 else if i == 3 then 108 else 432
  }

  const POINTS: seq<Point> := [[0.0], [18.0], [36.0], [108.0], [432.0]]

  // ---------- The statistic of every split ----------

  /** How far apart two of the points are. */
  function Gap(i: nat, j: nat): (g: int)
    ensures g >= 0
  {
    var x, y := Coordinate(i), Coordinate(j);
    if x >= y then x - y else y - x
  }

  function GapWeight(): (nat, nat) -> real {
    (i: nat, j: nat) => -(Gap(i, j) as real)
  }

  /** The sum of a point's distances to all points. */
  function Gaps(i: nat): int {
    Gap(0, i) + Gap(1, i) + Gap(2, i) + Gap(3, i) + Gap(4, i)
  }

  /** The energy statistic when points `d` and `e` are the run samples. */
  function SplitValue(d: nat, e: nat): real {
    var rows, gap := (Gaps(d) + Gaps(e)) as real, Gap(d, e) as real;
    (2.0 * rows - 2.0 * gap - 3816.0) / 9.0 - gap / 2.0 + (rows - 2.0 * gap) / 3.0
  }

  lemma RootOfSquare(fns: Analysis, x: real, y: real, gap: real)
    requires IsRoot(fns) && gap >= 0.0 && (gap == x - y || gap == y - x)
    ensures fns.sqrt((x - y) * (x - y)) == gap
  {
    RootOf(fns, gap);
    hide IsRoot;
    SquareOfGap(x, y);
  }

  lemma SquareOfGap(x: real, y: real)
    ensures (x - y) * (x - y) == Square(x - y) == Square(y - x)
  {
  }

  lemma PointAt(i: nat)
    requires i < 5
    ensures |POINTS| == 5 && POINTS[i] == [Coordinate(i) as real]
  {
  }

  lemma PairIsGap(fns: Analysis, i: nat, j: nat)
    requires IsRoot(fns) && i < 5 && j < 5
    ensures PairWeight(fns, NegativeDistance)(POINTS[i], POINTS[j]) == GapWeight()(i, j)
  {
    PointAt(i);
    PointAt(j);
    var x, y := Coordinate(i) as real, Coordinate(j) as real;
    assert SqDist([x], [y]) == (x - y) * (x - y) + SqDist([], []);
    RootOfSquare(fns, x, y, Gap(i, j) as real);
  }

  lemma SumOfFive(f: nat -> real)
    ensures SumBy(f, Identity(5)) == f(0) + f(1) + f(2) + f(3) + f(4)
  {
    var five := Identity(5);
    assert five == [0, 1, 2, 3, 4];
    SumByConcat(f, [0, 1, 2], [3, 4]);
    SumByConcat(f, [0, 1], [2]);
    SumByConcat(f, [0], [1]);
    SumByConcat(f, [3], [4]);
    assert [0] + [1] == [0, 1] && [0, 1] + [2] == [0, 1, 2] && [3] + [4] == [3, 4] && [0, 1, 2] + [3, 4] == five;
    SumByOne(f, 0);
    SumByOne(f, 1);
    SumByOne(f, 2);
    SumByOne(f, 3);
    SumByOne(f, 4);
  }

  lemma PairRow(i: nat, d: nat, e: nat)
    ensures RowSum(GapWeight(), i, [d, e]) == -((Gap(i, d) + Gap(i, e)) as real)
  {
    SumByPair(From<nat>(GapWeight(), i), d, e);
    hide Gap, SumBy;
  }

  /** All distances from all points to a pair of them. */
  lemma CrossOntoPair(d: nat, e: nat)
    ensures CrossSum(GapWeight(), Identity(5), [d, e]) == -((Gaps(d) + Gaps(e)) as real)
  {
    hide Gap, RowSum, SumBy;
    PairRow(0, d, e);
    PairRow(1, d, e);
    PairRow(2, d, e);
    PairRow(3, d, e);
    PairRow(4, d, e);
    SumOfFive(Rows(GapWeight(), [d, e]));
  }

  lemma CrossAmongPair(d: nat, e: nat)
    ensures CrossSum(GapWeight(), [d, e], [d, e]) == -2.0 * Gap(d, e) as real
  {
    NoGap(d);
    NoGap(e);
    GapSymmetric(d, e);
    hide Gap, RowSum, SumBy;
    PairRow(d, d, e);
    PairRow(e, d, e);
    SumByPair(Rows(GapWeight(), [d, e]), d, e);
  }

  lemma NoGap(i: nat)
    ensures Gap(i, i) == 0
  {
  }

  lemma RowOfAll(i: nat)
    ensures RowSum(GapWeight(), i, Identity(5)) == -(Gaps(i) as real)
  {
    SumOfFive(From<nat>(GapWeight(), i));
    GapSymmetric(i, 0);
    GapSymmetric(i, 1);
    GapSymmetric(i, 2);
    GapSymmetric(i, 3);
    GapSymmetric(i, 4);
    hide Gap, SumBy;
  }

  lemma GapSymmetric(i: nat, j: nat)
    ensures Gap(i, j) == Gap(j, i)
  {
  }

  lemma CrossOfAll()
    ensures CrossSum(GapWeight(), Identity(5), Identity(5)) == -3816.0
  {
    assert Gaps(0) == 594 && Gaps(1) == 540 && Gaps(2) == 522 && Gaps(3) == 594 && Gaps(4) == 1566;
    hide Gaps, SumBy, RowSum;
    RowOfAll(0);
    RowOfAll(1);
    RowOfAll(2);
    RowOfAll(3);
    RowOfAll(4);
    SumOfFive(Rows(GapWeight(), Identity(5)));
  }

  // ---------- The statistic of a labelling ----------

  lemma StatisticOfFive(w: (nat, nat) -> real, first: seq<nat>, second: seq<nat>)
    requires |first| == 3 && |second| == 2
    ensures Statistic(w, first, second, false)
         == CrossSum(w, first, first) / 9.0 + CrossSum(w, second, second) / 4.0 - CrossSum(w, first, second) / 3.0
  {
    hide CrossSum;
    assert PairCount(3, false) == 9.0 && PairCount(2, false) == 4.0;
  }

  lemma SplitSums(first: seq<nat>, d: nat, e: nat)
    requires IsPerm(first + [d, e], 5)
    ensures var w, second := GapWeight(), [d, e];
            && CrossSum(w, first, first) + CrossSum(w, second, second) + 2.0 * CrossSum(w, first, second) == -3816.0
            && CrossSum(w, first, second) + CrossSum(w, second, second) == -((Gaps(d) + Gaps(e)) as real)
            && CrossSum(w, second, second) == -2.0 * Gap(d, e) as real
  {
    var w, second := GapWeight(), [d, e];
    forall x, y ensures w(x, y) == w(y, x) {
      GapSymmetric(x, y);
    }
    hide CrossSum, Gaps, Gap;
    SumsConserved(w, Identity(5), first, second, false);
    CrossOfAll();
    CrossOntoPair(d, e);
    CrossAmongPair(d, e);
    CrossSumReorder(w, Identity(5), second, first + second, second);
    CrossSumLeft(w, first, second, second);
  }

  lemma SplitStatistic(first: seq<nat>, d: nat, e: nat)
    requires |first| == 3 && IsPerm(first + [d, e], 5)
    ensures Statistic(GapWeight(), first, [d, e], false) == SplitValue(d, e)
  {
    hide CrossSum, Gaps, Gap, IsPerm, Statistic, GapWeight;
    SplitSums(first, d, e);
    StatisticOfFive(GapWeight(), first, [d, e]);
  }

  /** The score of a labelling is the value of its split. */
  lemma LabellingValue(fns: Analysis, p: seq<nat>)
    requires IsRoot(fns) && IsPerm(p, 5)
    ensures |p| == 5 && p[3] < 5 && p[4] < 5 && p[3] != p[4]
    ensures RelabelledScore(fns, Energy, POINTS, 3)(p) == SplitValue(p[3], p[4])
  {
    PermFacts(p, 5);
    hide IsRoot, IsPerm, SplitValue;
    var first, second := p[..3], p[3..];
    assert second == [p[3], p[4]] && p == first + second;
    ScoreIsStatistic(fns, p);
    IndexedStatistic(fns, first, second);
    SplitStatistic(first, p[3], p[4]);
  }

  lemma ScoreIsStatistic(fns: Analysis, p: seq<nat>)
    requires |p| == 5
    ensures RelabelledScore(fns, Energy, POINTS, 3)(p)
         == Statistic(PairWeight(fns, NegativeDistance), Select(POINTS, p[..3], []), Select(POINTS, p[3..], []), false)
  {
    hide Statistic, PairWeight;
  }

  lemma IndexedStatistic(fns: Analysis, first: seq<nat>, second: seq<nat>)
    requires IsRoot(fns) && |first| >= 2 && |second| >= 2
    requires forall i :: 0 <= i < |first| ==> first[i] < 5
    requires forall i :: 0 <= i < |second| ==> second[i] < 5
    ensures Statistic(PairWeight(fns, NegativeDistance), Select(POINTS, first, []), Select(POINTS, second, []), false)
         == Statistic(GapWeight(), first, second, false)
  {
    PointAt(0);
    var v, w := PairWeight(fns, NegativeDistance), GapWeight();
    forall i: nat, j: nat | i < 5 && j < 5 ensures v(POINTS[i], POINTS[j]) == w(i, j) {
      PairIsGap(fns, i, j);
    }
    hide PairWeight, GapWeight, Statistic, IsRoot;
    StatisticSelect(v, Select(POINTS, first, []), Select(POINTS, second, []), w, first, second, false);
  }

  // ---------- When the gate passes ----------

  /** The scores that a start and its two nulls get, and what each pick of a null is compared with. */
  lemma TwoNulls(fns: Analysis, observed: real, x: real, y: real)
    requires IsRoot(fns)
    ensures var mean, half := (x + y) / 2.0, if x >= y then (x - y) / 2.0 else (y - x) / 2.0;
            var sd: Positive := if half > STD_FLOOR then half else STD_FLOOR;
            var score := EnergyScore(observed, [x, y], fns);
            && score.zObs == Standard(observed, mean, sd)
            && score.nullPool == [Standard(x, mean, sd), Standard(y, mean, sd)]
  {
    hide Standard, RankP, Square;
    var mean, nulls := (x + y) / 2.0, [x, y];
    var half := if x >= y then (x - y) / 2.0 else (y - x) / 2.0;
    SumByPair((v: real) => v, x, y);
    assert Mean(nulls) == mean;
    SumByPair(SquaredFrom(mean), x, y);
    HalfSquares(x, y);
    var variance := SumBy(SquaredFrom(mean), nulls) / 2.0;
    assert variance == ((x - mean) * (x - mean) + (y - mean) * (y - mean)) / 2.0;
    assert variance == Square(half);
    RootOf(fns, half);
  }

  lemma HalfSquares(x: real, y: real)
    ensures var m, half := (x + y) / 2.0, if x >= y then (x - y) / 2.0 else (y - x) / 2.0;
            ((x - m) * (x - m) + (y - m) * (y - m)) / 2.0 == Square(half)
  {
    var m, d := (x + y) / 2.0, (x - y) / 2.0;
    assert x - m == d && y - m == -d;
    assert (-d) * (-d) == d * d;
  }

  /** A null below the observed statistic falls short by more than the tolerance when the observed one
      is above the nulls' mean, and the values are whole numbers that do not lie too far apart. */
  lemma FallsShort(observed: int, picked: int, sum: int, sd: Positive)
    requires picked < observed && sum < 2 * observed && sd <= 1000.0
    ensures var mean := sum as real / 2.0;
            Positively(Standard(picked as real, mean, sd)) < Positively(Standard(observed as real, mean,
                sd)) - PERMUTATION_TOLERANCE
  {
    var mean := sum as real / 2.0;
    Quotient(observed as real - mean, 0.5, sd);
    Quotient(observed as real - picked as real, 1.0, sd);
    var z, q := Standard(observed as real, mean, sd), Standard(picked as real, mean, sd);
    assert z - q == (observed as real - picked as real) / sd;
    assert z >= 0.0005;
  }

  lemma Quotient(x: real, y: real, sd: Positive)
    requires x >= y > 0.0 && sd <= 1000.0
    ensures x / sd >= y / 1000.0
  {
    var q := y / sd;
    DivideMonotone(y, x, sd);
    assert q * sd == y && q > 0.0;
    MultiplyMonotone(sd, 1000.0, q);
  }

  function Chosen(x: int, y: int, pick: nat): int {
    if pick == 0 then x else y
  }

  /** Both picked nulls fall short of the observed statistic. */
  predicate Beats(observed: int, x: int, y: int, a: nat, b: nat) {
    x + y < 2 * observed && Chosen(x, y, a) < observed && Chosen(x, y, b) < observed
  }

  lemma PickFallsShort(fns: Analysis, observed: int, x: int, y: int, pick: nat)
    requires IsRoot(fns) && pick < 2 && -1000 <= x - y <= 1000
    requires x + y < 2 * observed && Chosen(x, y, pick) < observed
    ensures var score := EnergyScore(observed as real, [x as real, y as real], fns);
            Pick(score.nullPool, pick) < Positively(score.zObs) - PERMUTATION_TOLERANCE
  {
    TwoNulls(fns, observed as real, x as real, y as real);
    var half := if x >= y then (x - y) as real / 2.0 else (y - x) as real / 2.0;
    var sd: Positive := if half > STD_FLOOR then half else STD_FLOOR;
    assert (x as real + y as real) / 2.0 == (x + y) as real / 2.0;
    hide Standard, EnergyScore, IsRoot;
    FallsShort(observed, Chosen(x, y, pick), x + y, sd);
  }

  lemma BothFallShort(totals: seq<real>, bar: real)
    requires |totals| == 2 && totals[0] < bar && totals[1] < bar
    ensures NumAtLeast(totals, bar) == 0
  {
    assert totals[..1][..0] == [];
  }

  lemma BeatsPicks(fns: Analysis, observed: int, x: int, y: int, picks: seq<nat>)
    requires IsRoot(fns) && |picks| == 2 && picks[0] < 2 && picks[1] < 2 && -1000 <= x - y <= 1000
    requires Beats(observed, x, y, picks[0], picks[1])
    ensures PicksP(EnergyScore(observed as real, [x as real, y as real], fns), picks) <= 1.0 / 3.0
  {
    var score := EnergyScore(observed as real, [x as real, y as real], fns);
    PickFallsShort(fns, observed, x, y, picks[0]);
    PickFallsShort(fns, observed, x, y, picks[1]);
    hide EnergyScore, IsRoot, NumAtLeast, Totals, ObservedTotal, Pick, Positively;
    PicksTotals(score, picks);
    var totals, bar := Totals([score.nullPool], Picks(picks)), ObservedTotal([score]) - PERMUTATION_TOLERANCE;
    BothFallShort(totals, bar);
    assert Share(1, 3) <= 1.0 / 3.0;
  }

  // ---------- Splits by number ----------

  /** The ten splits, numbered by the pair of run samples. */
  function Index(d: nat, e: nat): (y: nat)
    ensures y < 10
  {
    var lo, hi := if d < e then d else e, if d < e then e else d;
    if lo == 0 then (if hi == 1 then 0 else if hi == 2 then 1 else if hi == 3 then 2 else 3)
    else if lo == 1 then (if hi == 2 then 4 else if hi == 3 then 5 else 6)
    else if lo == 2 then (if hi == 3 then 7 else 8)
    else 9
  }

  function Value(y: nat): int {
    if y == 0 then 181 else if y == 1 then 146 else if y == 2 then 86 else if y == 3 then 176 else if y == 4 then 141
    else if y == 5 then 81 else if y == 6 then 171 else if y == 7 then 96 else if y == 8 then 186 else 326
  }

  lemma SplitValueIs(d: nat, e: nat)
    requires d < 5 && e < 5 && d != e
    ensures SplitValue(d, e) == Value(Index(d, e)) as real
  {
  }

  function ClassOf(p: seq<nat>): (y: nat)
    ensures y < 10
  {
    if |p| == 5 then Index(p[3], p[4]) else 0
  }

  lemma ClassValue(fns: Analysis, p: seq<nat>)
    requires IsRoot(fns) && IsPerm(p, 5)
    ensures RelabelledScore(fns, Energy, POINTS, 3)(p) == Value(ClassOf(p)) as real
  {
    LabellingValue(fns, p);
    SplitValueIs(p[3], p[4]);
    hide RelabelledScore, SplitValue, Value, Index, IsRoot, IsPerm;
  }

  /** An experiment whose splits and picks beat the nulls passes the gate. */
  predicate Wins(t: seq<seq<nat>>, picks: seq<nat>) {
    && |t| == 3 && |picks| == 2
    && Beats(Value(ClassOf(t[0])), Value(ClassOf(t[1])), Value(ClassOf(t[2])), picks[0], picks[1])
  }

  lemma PointsAreValid(start: seq<nat>)
    requires IsPerm(start, 5)
    ensures |start| == 5 && Validate(Select(POINTS, start[..3], []), Select(POINTS, start[3..], [])) == None
  {
    PermFacts(start, 5);
    hide IsPerm;
    PointAt(0);
    var x, y := Select(POINTS, start[..3], []), Select(POINTS, start[3..], []);
    forall i | 0 <= i < |x + y| ensures |(x + y)[i]| == 1 {
      PointAt(start[i]);
    }
    AllOfDimension(x + y, 1);
  }

  lemma {:induction false} AllOfDimension(points: seq<Point>, dim: nat)
    requires forall i :: 0 <= i < |points| ==> |points[i]| == dim
    ensures FirstMismatch(points, dim) == None
  {
    if points != [] {
      AllOfDimension(points[1..], dim);
    }
  }

  lemma ComparedAre(o: Experiment)
    requires o in PromptExperiments(5, 3, 2)
    ensures IsPerm(o.0.0, 5) && |o.0.1| == 2 && ValidChoices(5, o.0.1[0]) && ValidChoices(5, o.0.1[1])
    ensures |o.1| == 2 && o.1[0] < 2 && o.1[1] < 2
    ensures var t := Tested(Reshuffle(), o.0);
            |t| == 3 && t[0] == o.0.0 && t[1..] == Trace(Reshuffle(), o.0.0, o.0.0, o.0.1)
                && forall i :: 0 <= i < 3 ==> IsPerm(t[i], 5)
  {
    ComparedStays(5, 2, o);
    hide IsPerm, ValidChoices, Trace, Reshuffle;
    assert o.0.0 in Perms(5) && o.0.1 in Seqs(Choices(5), 2) && o.1 in Seqs(Below(2), 2);
    assert o.0.1[0] in Choices(5) && o.0.1[1] in Choices(5);
  }

  lemma NullsOfExperiment(fns: Analysis, o: Experiment)
    requires IsRoot(fns) && o in PromptExperiments(5, 3, 2)
    ensures |o.0.0| == 5 && |POINTS| == 5
    ensures var t := Tested(Reshuffle(), o.0);
            var first, second := Select(POINTS, o.0.0[..3], []), Select(POINTS, o.0.0[3..], []);
            && |t| == 3 && FromScratch(fns, Energy, first, second) == Value(ClassOf(t[0])) as real
            && NullsOf(fns, Energy, first + second, 3, o.0.1)
                == [Value(ClassOf(t[1])) as real, Value(ClassOf(t[2])) as real]
  {
    hide IsRoot, IsPerm, ValidChoices, FromScratch, NullsOf, Value, ClassOf, RelabelledScore, Trace, PromptExperiments;
    PointAt(0);
    ComparedAre(o);
    RelabelledNulls(fns, Energy, POINTS, 3, o.0.0, o.0.1);
    var t, score := Tested(Reshuffle(), o.0), RelabelledScore(fns, Energy, POINTS, 3);
    ClassValue(fns, t[0]);
    ClassValue(fns, t[1]);
    ClassValue(fns, t[2]);
    assert Scores(score, t[1..]) == [score(t[1]), score(t[2])];
  }

  lemma ScoreOfExperiment(fns: Analysis, o: Experiment)
    requires IsRoot(fns) && o in PromptExperiments(5, 3, 2)
    ensures |o.0.0| == 5
    ensures var t := Tested(Reshuffle(), o.0);
            && |t| == 3
            && ScoreWith(fns, Select(POINTS, o.0.0[..3], []), Select(POINTS, o.0.0[3..], []), o.0.1)
               == Ok(EnergyScore(Value(ClassOf(t[0])) as real,
                   [Value(ClassOf(t[1])) as real, Value(ClassOf(t[2])) as real], fns))
  {
    hide IsRoot, IsPerm, ValidChoices, FromScratch, NullsOf, Validate, EnergyScore, Value, ClassOf, PromptExperiments,
      Tested;
    ComparedAre(o);
    PointsAreValid(o.0.0);
    NullsOfExperiment(fns, o);
  }

  lemma ValueRange(y: nat)
    ensures 81 <= Value(y) <= 326
  {
  }

  lemma WinsPass(fns: Analysis, o: Experiment)
    requires IsRoot(fns) && o in PromptExperiments(5, 3, 2) && Wins(Tested(Reshuffle(), o.0), o.1)
    ensures |POINTS| == 5 && Passes(fns, POINTS, 3, 1.0 / 3.0, o)
  {
    hide IsRoot, PromptExperiments, EnergyScore, PicksP, Value, ClassOf, Tested, Beats, ScoreWith;
    PointAt(0);
    ScoreOfExperiment(fns, o);
    ComparedAre(o);
    var t := Tested(Reshuffle(), o.0);
    ValueRange(ClassOf(t[1]));
    ValueRange(ClassOf(t[2]));
    BeatsPicks(fns, Value(ClassOf(t[0])), Value(ClassOf(t[1])), Value(ClassOf(t[2])), o.1);
  }
}
