/** Several prompts with several run samples each: no level below 1 bounds the share of runs that pass the gate.

    With one draw, a run passes the level one half as soon as the observed statistic of one of its prompts exceeds
    the single null, whatever the other prompts say. For two pairs of corners a prompt does so in a third of its
    experiments, so of `k` prompts' experiments at most a share `(2/3)^k` fail to pass. */
module ManyPrompts {
  import opened Counting
  import opened Grids
  import opened Sums
  import opened Shuffle
  import opened MonteCarlo
  import opened Results
  import opened Distances
  import opened Gram
  import opened Moments
  import opened TwoSample
  import opened PermutationTest
  import opened Gate
  import opened Assessment
  import opened OnePrompt
  import opened Floors
  import opened RunExactness
  import opened FourPoints

  /** An experiment for every prompt, all prompts having the same pooled points. */
  ghost function RunExperiments(n: nat, m: nat, b: nat, prompts: nat): set<seq<Experiment>> {
    Seqs(PromptExperiments(n, m, b), prompts)
  }

  function ScoreAt(fns: Analysis, points: seq<Point>, m: nat, e: Experiment): Result<PromptScore>
    requires 0 < m < |points| && |e.0.0| == |points|
  {
    ScoreWith(fns, Select(points, e.0.0[..m], []), Select(points, e.0.0[m..], []), e.0.1)
  }

  /** Every prompt can be scored, and has a pick for each of the `b` draws. */
  ghost predicate Scored(fns: Analysis, points: seq<Point>, m: nat, b: nat, o: seq<Experiment>)
    requires 0 < m < |points|
  {
    forall i :: 0 <= i < |o| ==> |o[i].0.0| == |points| && |o[i].1| == b && ScoreAt(fns, points, m, o[i]).Ok?
  }

  ghost function ScoresAt(fns: Analysis, points: seq<Point>, m: nat, b: nat, o: seq<Experiment>):
    (scores: seq<PromptScore>)
    requires 0 < m < |points| && Scored(fns, points, m, b, o)
    ensures |scores| == |o| && forall i :: 0 <= i < |o| ==> Ok(scores[i]) == ScoreAt(fns, points, m, o[i])
  {
    seq(|o|, i requires 0 <= i < |o| => ScoreAt(fns, points, m, o[i]).value)
  }

  /** The joint draws that the prompts' picks make. */
  function JointDraws(o: seq<Experiment>, b: nat): (draws: seq<seq<nat>>)
    requires forall i :: 0 <= i < |o| ==> |o[i].1| == b
    ensures |draws| == b && forall j :: 0 <= j < b ==> |draws[j]| == |o|
    ensures forall i, j :: 0 <= i < |o| && 0 <= j < b ==> draws[j][i] == o[i].1[j]
  {
    seq(b, j requires 0 <= j < b => seq(|o|, i requires 0 <= i < |o| => o[i].1[j]))
  }

  ghost predicate RunPasses(fns: Analysis, points: seq<Point>, m: nat, b: nat, alpha: real, o: seq<Experiment>)
    requires 0 < m < |points|
  {
    && Scored(fns, points, m, b, o)
    && var scores := ScoresAt(fns, points, m, b, o);
       GateP(Pools(scores), ObservedTotal(scores), JointDraws(o, b)) <= alpha
  }

  ghost function RunsPassing(fns: Analysis, points: seq<Point>, m: nat, b: nat, alpha: real, prompts: nat):
    set<seq<Experiment>>
    requires 0 < m < |points|
  {
    set o | o in RunExperiments(|points|, m, b, prompts) && RunPasses(fns, points, m, b, alpha, o)
  }

  // ---------- One prompt of corners ----------

  /** The prompt's experiments: a labelling, one shuffle and one pick, of the only null. */
  lemma ExperimentFacts(e: Experiment)
    requires e in PromptExperiments(4, 2, 1)
    ensures IsPerm(e.0.0, 4) && |e.0.0| == 4 && |e.0.1| == 1 && ValidChoices(4, e.0.1[0]) && e.1 == [0]
  {
    PermFacts(e.0.0, 4);
    assert e.1[0] in Below(1);
  }

  function Null(e: Experiment): (q: seq<nat>)
    requires |e.0.0| == 4 && |e.0.1| == 1 && ValidChoices(4, e.0.1[0])
    ensures |q| == 4
  {
    Shuffled(e.0.0, e.0.1[0])
  }

  /** The observed statistic does not exceed the null. */
  ghost predicate Loses(e: Experiment) {
    && |e.0.0| == 4 && |e.0.1| == 1 && ValidChoices(4, e.0.1[0])
    && Side(e.0.0[0], e.0.0[1]) >= Side(Null(e)[0], Null(e)[1])
  }

  ghost function Losing(): set<Experiment> {
    set e | e in PromptExperiments(4, 2, 1) && Loses(e)
  }

  lemma OneNull(fns: Analysis, observed: real, v: real)
    requires IsRoot(fns)
    ensures var score := EnergyScore(observed, [v], fns);
            score.nullPool == [0.0] && score.zObs == (observed - v) / 0.000001
  {
    hide RankP;
    SumByOne((x: real) => x, v);
    assert Mean([v]) == v;
    SumByOne(SquaredFrom(v), v);
    RootOf(fns, 0.0);
    assert Square(0.0) == 0.0;
    assert Deviation(fns, [v]) == STD_FLOOR;
  }

  lemma CornersValid(p: seq<nat>)
    requires IsPerm(p, 4)
    ensures |p| == 4 && Validate(FirstTwo(p), LastTwo(p)) == None
  {
    PermFacts(p, 4);
    CornerAt(p[0]);
    CornerAt(p[1]);
    CornerAt(p[2]);
    CornerAt(p[3]);
    hide IsPerm;
    NoMismatch(FirstTwo(p) + LastTwo(p), 2);
  }

  lemma OneRound(p: seq<nat>, c: seq<nat>)
    requires ValidChoices(|p|, c)
    ensures Trace(Reshuffle(), p, p, [c]) == [Shuffled(p, c)]
  {
    hide Shuffled, ValidChoices;
    assert [c][1..] == [];
    UnfoldTrace(p, p, [c]);
  }

  lemma ScoresOfOne<X>(f: X -> real, x: X)
    ensures Scores(f, [x]) == [f(x)]
  {
  }

  lemma CornerRound(fns: Analysis, p: seq<nat>, c: seq<nat>)
    requires IsPerm(p, 4) && ValidChoices(4, c)
    ensures |CORNERS| == 4 && |p| == 4
    ensures var score := RelabelledScore(fns, Energy, CORNERS, 2);
            && FromScratch(fns, Energy, FirstTwo(p), LastTwo(p)) == score(p)
            && NullsOf(fns, Energy, FirstTwo(p) + LastTwo(p), 2, [c]) == [score(Shuffled(p, c))]
  {
    CornerAt(0);
    PermFacts(p, 4);
    GroupsAre(p);
    hide *;
    OneRound(p, c);
    RelabelledNulls(fns, Energy, CORNERS, 2, p, [c]);
    ScoresOfOne(RelabelledScore(fns, Energy, CORNERS, 2), Shuffled(p, c));
  }

  lemma GroupsAre(p: seq<nat>)
    requires |p| == 4
    ensures FirstTwo(p) == Select(CORNERS, p[..2], []) && LastTwo(p) == Select(CORNERS, p[2..], [])
  {
  }

  /** The observed statistic and the null of one shuffle. */
  lemma CornerNulls(fns: Analysis, p: seq<nat>, c: seq<nat>)
    requires IsRoot(fns) && IsPerm(p, 4) && ValidChoices(4, c)
    ensures |p| == 4
    ensures var q := Shuffled(p, c);
            && FromScratch(fns, Energy, FirstTwo(p), LastTwo(p)) == CornerValue(p)
            && NullsOf(fns, Energy, FirstTwo(p) + LastTwo(p), 2, [c]) == [CornerValue(q)]
  {
    PermFacts(p, 4);
    hide *;
    CornerRound(fns, p, c);
    StepSelectPlain(p, c, 4);
    ScoreOfCorners(fns, p);
    ScoreOfCorners(fns, Shuffled(p, c));
  }

  lemma ScoreAtIs(fns: Analysis, e: Experiment)
    requires e in PromptExperiments(4, 2, 1)
    ensures |CORNERS| == 4 && |e.0.0| == 4 && |e.0.1| == 1
    ensures ScoreAt(fns, CORNERS, 2, e)
         == Ok(EnergyScore(FromScratch(fns, Energy, FirstTwo(e.0.0), LastTwo(e.0.0)),
               NullsOf(fns, Energy, FirstTwo(e.0.0) + LastTwo(e.0.0), 2, [e.0.1[0]]), fns))
  {
    CornerAt(0);
    ExperimentFacts(e);
    CornersValid(e.0.0);
    assert e.0.1 == [e.0.1[0]];
    hide PromptExperiments, IsPerm, Validate, EnergyScore, FromScratch, NullsOf, ValidChoices, CORNERS;
  }

  /** A prompt's pool holds a single 0, and its observed score clears the tolerance unless it loses. */
  lemma CornerScore(fns: Analysis, e: Experiment)
    requires IsRoot(fns) && e in PromptExperiments(4, 2, 1)
    ensures |CORNERS| == 4 && |e.0.0| == 4
    ensures var score := ScoreAt(fns, CORNERS, 2, e);
            score.Ok? && score.value.nullPool == [0.0] && (!Loses(e) ==> score.value.zObs > PERMUTATION_TOLERANCE)
  {
    ScoreAtIs(fns, e);
    ExperimentFacts(e);
    hide PromptExperiments, ScoreAt, EnergyScore, IsRoot, IsPerm, FromScratch, NullsOf, FirstTwo, LastTwo, CORNERS;
    CornerNulls(fns, e.0.0, e.0.1[0]);
    var q := Null(e);
    hide Shuffled, ValidChoices;
    OneNull(fns, CornerValue(e.0.0), CornerValue(q));
    if !Loses(e) {
      ValuesApart(e.0.0, q);
    }
  }

  lemma ValuesApart(p: seq<nat>, q: seq<nat>)
    requires |p| == 4 && |q| == 4 && Side(p[0], p[1]) < Side(q[0], q[1])
    ensures (CornerValue(p) - CornerValue(q)) / 0.000001 > PERMUTATION_TOLERANCE
  {
  }

  // ---------- Runs of corners ----------

  lemma {:induction false} ZeroTotal(pools: seq<seq<real>>, draw: seq<nat>)
    requires |draw| == |pools| && forall i :: 0 <= i < |pools| ==> pools[i] == [0.0]
    ensures DrawTotal(pools, draw) == 0.0
  {
    if pools != [] {
      ZeroTotal(pools[1..], draw[1..]);
    }
  }

  lemma {:induction false} TotalAtLeast(scores: seq<PromptScore>, i: nat)
    requires i < |scores|
    ensures ObservedTotal(scores) >= Positively(scores[i].zObs)
    ensures ObservedTotal(scores) >= 0.0
  {
    var k := |scores| - 1;
    if i < k {
      TotalAtLeast(scores[..k], i);
    } else {
      TotalNonNegative(scores[..k]);
    }
  }

  lemma {:induction false} TotalNonNegative(scores: seq<PromptScore>)
    ensures ObservedTotal(scores) >= 0.0
  {
    if scores != [] {
      TotalNonNegative(scores[..|scores| - 1]);
    }
  }

  ghost predicate InExperiments(o: seq<Experiment>) {
    forall j :: 0 <= j < |o| ==> o[j] in PromptExperiments(4, 2, 1)
  }

  lemma CornersScored(fns: Analysis, o: seq<Experiment>)
    requires IsRoot(fns) && InExperiments(o)
    ensures |CORNERS| == 4 && Scored(fns, CORNERS, 2, 1, o)
  {
    CornerAt(0);
    forall j | 0 <= j < |o|
      ensures |o[j].0.0| == 4 && |o[j].1| == 1
      ensures ScoreAt(fns, CORNERS, 2, o[j]).Ok?
    {
      ExperimentFacts(o[j]);
      CornerScore(fns, o[j]);
    }
    hide PromptExperiments, ScoreAt, IsRoot, CORNERS;
  }

  lemma GateOfZeros(scores: seq<PromptScore>, draws: seq<seq<nat>>, i: nat)
    requires |draws| == 1 && |draws[0]| == |scores| && forall j :: 0 <= j < |scores| ==> scores[j].nullPool == [0.0]
    requires i < |scores| && scores[i].zObs > PERMUTATION_TOLERANCE
    ensures GateP(Pools(scores), ObservedTotal(scores), draws) == 0.5
  {
    ZeroTotal(Pools(scores), draws[0]);
    TotalAtLeast(scores, i);
    assert Totals(Pools(scores), draws) == [0.0];
    hide ObservedTotal, Pools, Totals, RankP;
    OneBelow(ObservedTotal(scores));
  }

  lemma ZeroPool(fns: Analysis, o: seq<Experiment>, i: nat)
    requires IsRoot(fns) && InExperiments(o) && i < |o| && |CORNERS| == 4 && Scored(fns, CORNERS, 2, 1, o)
    ensures var scores := ScoresAt(fns, CORNERS, 2, 1, o);
            |scores| == |o| && scores[i].nullPool == [0.0]
                && (!Loses(o[i]) ==> scores[i].zObs > PERMUTATION_TOLERANCE)
  {
    var scores := ScoresAt(fns, CORNERS, 2, 1, o);
    assert Ok(scores[i]) == ScoreAt(fns, CORNERS, 2, o[i]);
    assert o[i] in PromptExperiments(4, 2, 1);
    hide *;
    CornerScore(fns, o[i]);
  }

  lemma CornersGate(fns: Analysis, o: seq<Experiment>, i: nat)
    requires IsRoot(fns) && InExperiments(o) && i < |o| && !Loses(o[i])
    requires |CORNERS| == 4 && Scored(fns, CORNERS, 2, 1, o) && forall j :: 0 <= j < |o| ==> |o[j].1| == 1
    ensures var scores := ScoresAt(fns, CORNERS, 2, 1, o);
            GateP(Pools(scores), ObservedTotal(scores), JointDraws(o, 1)) == 0.5
  {
    hide *;
    var scores := ScoresAt(fns, CORNERS, 2, 1, o);
    forall j | 0 <= j < |scores| ensures scores[j].nullPool == [0.0] {
      ZeroPool(fns, o, j);
    }
    ZeroPool(fns, o, i);
    GateOfZeros(scores, JointDraws(o, 1), i);
  }

  /** One prompt that does not lose makes the run pass. */
  lemma WinnerPasses(fns: Analysis, o: seq<Experiment>, i: nat)
    requires IsRoot(fns) && InExperiments(o)
    requires i < |o| && !Loses(o[i])
    ensures |CORNERS| == 4 && RunPasses(fns, CORNERS, 2, 1, 0.5, o)
  {
    CornersScored(fns, o);
    ScoredPicks(fns, o);
    CornersGate(fns, o, i);
    hide PromptExperiments, ScoreAt, IsRoot, Loses, CORNERS, GateP, Pools, ObservedTotal, Scored, JointDraws, ScoresAt;
  }

  lemma ScoredPicks(fns: Analysis, o: seq<Experiment>)
    requires |CORNERS| == 4 && Scored(fns, CORNERS, 2, 1, o)
    ensures forall j :: 0 <= j < |o| ==> |o[j].1| == 1
  {
  }

  lemma OneBelow(observed: real)
    requires observed > PERMUTATION_TOLERANCE
    ensures RankP(observed, [0.0], PERMUTATION_TOLERANCE) == 0.5
  {
    assert [0.0][..0] == [];
  }

  // ---------- How often a prompt loses ----------

  /** The choices of a shuffle, and a labelling that loses against where they lead. */
  function LosesTo(): (seq<nat>, seq<nat>) -> bool {
    (c: seq<nat>, p: seq<nat>) => |p| == 4 && ValidChoices(4, c) && Side(p[0], p[1]) >= Side(Shuffled(p, c)[0],
        Shuffled(p, c)[1])
  }

  function Order(c: seq<nat>): seq<nat>
    requires ValidChoices(4, c)
  {
    Shuffled(Identity(4), c)
  }

  lemma OrderFacts(c: seq<nat>, p: seq<nat>)
    requires ValidChoices(4, c) && IsPerm(p, 4)
    ensures IsPerm(Order(c), 4) && |Order(c)| == 4 && |p| == 4 && Order(c)[0] < 4 && Order(c)[1] < 4
    ensures Order(c)[0] != Order(c)[1]
    ensures Shuffled(p, c)[0] == p[Order(c)[0]] && Shuffled(p, c)[1] == p[Order(c)[1]]
  {
    PermFacts(p, 4);
    ShuffledReorders(Identity(4), c);
    PermFacts(Order(c), 4);
    SelectIdentityOrder(p);
    ShuffledSelect(p, Identity(4), 0, c);
    hide IsPerm, ValidChoices, Shuffled, Identity;
  }

  /** The corner that the order pairs with corner 0, or the one in its place. */
  function Partner(x: nat, y: nat): nat {
    if x + y == 3 then 3 else 2
  }

  lemma PartnerSide(p: seq<nat>, x: nat, y: nat)
    requires IsPerm(p, 4) && x < 4 && y < 4 && x != y && x + y != 1 && x + y != 5
    ensures |p| == 4 && Side(p[x], p[y]) == Side(p[0], p[Partner(x, y)])
  {
    PermFacts(p, 4);
    hide IsPerm;
    assert p[0] != p[1] && p[0] != p[2] && p[0] != p[3] && p[1] != p[2] && p[1] != p[3] && p[2] != p[3];
    Sides(p[0], p[1], p[2], p[3]);
    SideSymmetric(p[x], p[y]);
    hide Side;
  }

  lemma SideSymmetric(i: nat, j: nat)
    ensures Side(i, j) == Side(j, i)
  {
  }

  lemma MixedLosers(c: seq<nat>, k: nat)
    requires ValidChoices(4, c) && |Order(c)| == 4 && Order(c)[0] + Order(c)[1] != 1 && Order(c)[0] + Order(c)[1] != 5
    requires k == Partner(Order(c)[0], Order(c)[1])
    ensures |RowAt(Perms(4), LosesTo(), c)| <= |Beaten(k)|
  {
    var row := RowAt(Perms(4), LosesTo(), c);
    hide Perms, IsPerm, ValidChoices, Order, Partner, LosesTo, Beaten;
    forall p | p in row ensures p in Beaten(k) {
      LoserIsBeaten(c, p);
    }
    SubsetBound(row, Beaten(k));
  }

  /** Unless the shuffle keeps the split, half of the labellings lose. */
  lemma LosersOf(c: seq<nat>)
    requires ValidChoices(4, c) && |Perms(4)| == 24
    ensures |RowAt(Perms(4), LosesTo(), c)| <= if SameSplit(Order(c), 2) then 24 else 12
  {
    IdentityIsPerm(4);
    SubsetBound(RowAt(Perms(4), LosesTo(), c), Perms(4));
    hide *;
    OrderFacts(c, Identity(4));
    SplitPairs(Order(c));
    if !SameSplit(Order(c), 2) {
      var k := Partner(Order(c)[0], Order(c)[1]);
      PartnerIs(Order(c)[0], Order(c)[1]);
      MixedLosers(c, k);
      HalfBeat(k);
    }
  }

  lemma PartnerIs(x: nat, y: nat)
    ensures 2 <= Partner(x, y) < 4
  {
  }

  lemma SplitPairs(order: seq<nat>)
    requires |order| == 4 && order[0] < 4 && order[1] < 4 && order[0] != order[1]
    ensures SameSplit(order, 2) <==> order[0] + order[1] == 1 || order[0] + order[1] == 5
  {
  }

  lemma LoserIsBeaten(c: seq<nat>, p: seq<nat>)
    requires ValidChoices(4, c) && IsPerm(p, 4) && LosesTo()(c, p)
    requires |Order(c)| == 4 && Order(c)[0] + Order(c)[1] != 1 && Order(c)[0] + Order(c)[1] != 5
    ensures p in Beaten(Partner(Order(c)[0], Order(c)[1]))
  {
    OrderFacts(c, p);
    PartnerSide(p, Order(c)[0], Order(c)[1]);
    hide IsPerm, ValidChoices, Shuffled, Side, Partner;
  }

  // ---------- Counting ----------

  /** The shuffles of four that keep the split. */
  ghost function Keeping(): set<seq<nat>> {
    set c | c in Choices(4) && SameSplit(Order(c), 2)
  }

  const KEPT: set<seq<nat>> := {
    [0, 1, 2, 3], [0, 1, 3, 2], [1, 0, 2, 3], [1, 0, 3, 2], [2, 3, 0, 1], [2, 3, 1, 0], [3, 2, 0, 1], [3, 2, 1, 0]}

  lemma KeptOrder(q: seq<nat>)
    requires IsPerm(q, 4) && SameSplit(q, 2)
    ensures q in KEPT
  {
    PermFacts(q, 4);
    hide IsPerm;
    assert q == [q[0], q[1], q[2], q[3]];
    assert q[0] != q[1] && q[0] != q[2] && q[0] != q[3] && q[1] != q[2] && q[1] != q[3] && q[2] != q[3];
  }

  lemma KeptCount()
    ensures |KEPT| <= 8
  {
  }

  lemma KeepingCount()
    ensures |Keeping()| <= 8
  {
    hide SameSplit, Shuffled, KEPT;
    forall c | c in Keeping() ensures IsOrder(c) in KEPT {
      IdentityIsPerm(4);
      OrderFacts(c, Identity(4));
      KeptOrder(Order(c));
    }
    forall c, d | c in Keeping() && d in Keeping() && IsOrder(c) == IsOrder(d) ensures c == d {
      IdentityInjective(4, c, d);
    }
    InjectionBound(Keeping(), KEPT, IsOrder);
    KeptCount();
  }

  function IsOrder(c: seq<nat>): seq<nat> {
    if ValidChoices(4, c) then Order(c) else []
  }

  lemma FourCount()
    ensures |Perms(4)| == 24 && |Choices(4)| == 24
  {
    ChoicesCount(4);
    PermsCount(4);
    hide Perms, Choices;
    assert Factorial(1) == 1 && Factorial(2) == 2 && Factorial(3) == 6 && Factorial(4) == 24;
  }

  lemma KeepingRows()
    ensures |Grid(Keeping(), Perms(4), LosesTo())| <= 24 * |Keeping()|
  {
    FourCount();
    hide Order, LosesTo, SameSplit, Perms, ValidChoices, RowAt;
    forall c | c in Keeping() ensures |RowAt(Perms(4), LosesTo(), c)| <= 24 {
      LosersOf(c);
    }
    hide Keeping;
    RowsAtMost(Keeping(), Perms(4), LosesTo(), 24);
    TimesIsProduct(24, |Keeping()|);
  }

  lemma OtherRows()
    ensures |Grid(Choices(4) - Keeping(), Perms(4), LosesTo())| <= 12 * |Choices(4) - Keeping()|
  {
    FourCount();
    hide Order, LosesTo, SameSplit, Perms, ValidChoices, RowAt;
    forall c | c in Choices(4) - Keeping() ensures |RowAt(Perms(4), LosesTo(), c)| <= 12 {
      LosersOf(c);
    }
    hide Keeping;
    RowsAtMost(Choices(4) - Keeping(), Perms(4), LosesTo(), 12);
    TimesIsProduct(12, |Choices(4) - Keeping()|);
  }

  lemma KeepingWithin()
    ensures Keeping() <= Choices(4) && Keeping() + (Choices(4) - Keeping()) == Choices(4)
  {
    hide SameSplit;
  }

  /** At most two thirds of the pairs of choices and labelling lose. */
  lemma LosingGrid()
    ensures |Grid(Choices(4), Perms(4), LosesTo())| <= 384
  {
    hide *;
    FourCount();
    KeepingCount();
    KeepingRows();
    OtherRows();
    KeepingWithin();
    GridUnion(Keeping(), Choices(4) - Keeping(), Perms(4), LosesTo());
    assert |Choices(4) - Keeping()| == 24 - |Keeping()|;
  }

  lemma GridUnion<A, B>(S: set<A>, T: set<A>, K: set<B>, hit: (A, B) -> bool)
    ensures |Grid(S + T, K, hit)| <= |Grid(S, K, hit)| + |Grid(T, K, hit)|
  {
    assert Grid(S + T, K, hit) == Grid(S, K, hit) + Grid(T, K, hit);
  }

  function Lost(e: Experiment): (seq<nat>, seq<nat>) {
    if |e.0.1| == 1 then (e.0.1[0], e.0.0) else ([], [])
  }

  lemma LostInGrid(e: Experiment)
    requires e in Losing()
    ensures Lost(e) in Grid(Choices(4), Perms(4), LosesTo()) && |e.0.1| == 1 && e.1 == [0]
  {
    ExperimentFacts(e);
    hide PromptExperiments, IsPerm, ValidChoices, Shuffled, Side;
  }

  lemma LosingCount()
    ensures |Losing()| <= 384
  {
    var grid := Grid(Choices(4), Perms(4), LosesTo());
    LosingGrid();
    hide Losing, Grid, Choices, Perms, LosesTo;
    forall e | e in Losing() ensures Lost(e) in grid && |e.0.1| == 1 && e.1 == [0] {
      LostInGrid(e);
    }
    forall e, e' | e in Losing() && e' in Losing() && Lost(e) == Lost(e') ensures e == e' {
      assert e.0.1 == [e.0.1[0]] && e'.0.1 == [e'.0.1[0]];
    }
    InjectionBound(Losing(), grid, Lost);
  }

  lemma OneEach<A(!new)>(X: set<A>)
    ensures |Seqs(X, 1)| == |X|
  {
    SeqsCount(X, 1);
    hide Seqs;
    assert Pow(|X|, 0) == 1;
  }

  lemma ExperimentsAreSplit()
    ensures PromptExperiments(4, 2, 1) == Pairs(Experiments(4, 1), Seqs(Below(1), 1))
    ensures Experiments(4, 1) == Pairs(Perms(4), Seqs(Choices(4), 1))
    ensures |Below(1)| == 1
  {
    hide Seqs, Pairs, Perms, Choices;
  }

  lemma ExperimentCount()
    ensures |PromptExperiments(4, 2, 1)| == 576
  {
    hide *;
    ExperimentsAreSplit();
    FourCount();
    OneEach(Choices(4));
    OneEach(Below(1));
    PairsCount(Perms(4), Seqs(Choices(4), 1));
    PairsCount(Experiments(4, 1), Seqs(Below(1), 1));
  }

  lemma {:induction false} PowersScale(p: nat, q: nat, x: nat, y: nat, k: nat)
    requires p * x <= q * y
    ensures Pow(p, k) * Pow(x, k) <= Pow(q, k) * Pow(y, k)
  {
    if k > 0 {
      PowersScale(p, q, x, y, k - 1);
      ScaledProduct(p * x, q * y, Pow(p, k - 1) * Pow(x, k - 1), Pow(q, k - 1) * Pow(y, k - 1));
      Interleave(p, Pow(p, k - 1), x, Pow(x, k - 1));
      Interleave(q, Pow(q, k - 1), y, Pow(y, k - 1));
    }
  }

  lemma Interleave(a: nat, b: nat, c: nat, d: nat)
    ensures (a * b) * (c * d) == (a * c) * (b * d)
  {
  }

  lemma ScaledProduct(a: nat, b: nat, c: nat, d: nat)
    requires a <= b && c <= d
    ensures a * c <= b * d
  {
    assert a * c <= b * c;
    assert b * c <= b * d;
  }

  /** Of the experiments of `k` prompts at most a share `(2/3)^k` fail to pass the level one half. */
  lemma ManyPromptsPass(fns: Analysis, k: nat)
    requires IsRoot(fns)
    ensures |CORNERS| == 4
    ensures var all, passing := RunExperiments(4, 2, 1, k), RunsPassing(fns, CORNERS, 2, 1, 0.5, k);
            passing <= all && Pow(3, k) * |all - passing| <= Pow(2, k) * |all|
  {
    CornerAt(0);
    var all, passing := RunExperiments(4, 2, 1, k), RunsPassing(fns, CORNERS, 2, 1, 0.5, k);
    FailuresLose(fns, k);
    hide *;
    SubsetBound(all - passing, Seqs(Losing(), k));
    SeqsCount(Losing(), k);
    RunCount(k);
    LosingCount();
    PowersScale(3, 2, |Losing()|, 576, k);
    Bounded(Pow(3, k), |all - passing|, Pow(|Losing()|, k));
  }

  lemma Bounded(p: nat, x: nat, y: nat)
    requires x <= y
    ensures p * x <= p * y
  {
  }

  lemma RunCount(k: nat)
    ensures |RunExperiments(4, 2, 1, k)| == Pow(576, k)
  {
    ExperimentCount();
    hide PromptExperiments;
    SeqsCount(PromptExperiments(4, 2, 1), k);
  }

  lemma FailuresLose(fns: Analysis, k: nat)
    requires IsRoot(fns)
    ensures |CORNERS| == 4
    ensures var all, passing := RunExperiments(4, 2, 1, k), RunsPassing(fns, CORNERS, 2, 1, 0.5, k);
            passing <= all && forall o :: o in all - passing ==> o in Seqs(Losing(), k)
  {
    CornerAt(0);
    hide PromptExperiments, CORNERS, Loses, RunPasses, IsRoot;
    var all, passing := RunExperiments(4, 2, 1, k), RunsPassing(fns, CORNERS, 2, 1, 0.5, k);
    forall o | o in all - passing ensures o in Seqs(Losing(), k) {
      forall i | 0 <= i < |o| ensures o[i] in Losing() {
        if !Loses(o[i]) {
          WinnerPasses(fns, o, i);
        }
      }
    }
  }

  /** With four prompts the share that passes exceeds what bounds it for one prompt. */
  lemma FourPromptsExceed(fns: Analysis)
    requires IsRoot(fns)
    ensures |CORNERS| == 4
    ensures !AtMostShare(
        |RunsPassing(fns, CORNERS, 2, 1, 0.5, 4)|, |RunExperiments(4, 2, 1, 4)|, (1.0 + 0.5 * 1.0) / 2.0)
  {
    ManyPromptsPass(fns, 4);
    RunCount(4);
    FourPowers();
    hide *;
    var all, passing := RunExperiments(4, 2, 1, 4), RunsPassing(fns, CORNERS, 2, 1, 0.5, 4);
    assert |all - passing| == |all| - |passing|;
    Exceeds(|passing|, |all|);
  }

  lemma FourPowers()
    ensures Pow(3, 4) == 81 && Pow(2, 4) == 16 && Pow(576, 4) > 0
  {
    assert Pow(3, 1) == 3 && Pow(3, 2) == 9 && Pow(3, 3) == 27;
    assert Pow(2, 1) == 2 && Pow(2, 2) == 4 && Pow(2, 3) == 8;
    assert Pow(576, 1) == 576 && Pow(576, 2) == 331776;
    assert Pow(576, 3) == 191102976;
  }

  lemma Exceeds(k: nat, n: nat)
    requires n > 0 && k <= n && 81 * (n - k) <= 16 * n
    ensures !AtMostShare(k, n, (1.0 + 0.5 * 1.0) / 2.0)
  {
  }
}
