/** One seed serves every run: with its shuffles fixed, the share of labellings that get a p-value can exceed it. */
module FixedSeed {
  import opened Counting
  import opened Shuffle
  import opened SplitMix
  import opened MonteCarlo
  import opened Distances
  import opened Gram
  import opened TwoSample
  import opened PermutationTest
  import opened FourPoints

  /** The labellings that the test reports `alpha` or less for, when it makes these rounds of choices. */
  ghost function FixedSignificant(
    fns: Analysis, kernel: Kernel, points: seq<Point>, m: nat, rounds: seq<seq<nat>>, alpha: real): set<seq<nat>>
    requires 2 <= m <= |points| - 2
  {
    set p | p in Perms(|points|) && |p| == |points|
      && TwoSampleP(fns, kernel, Select(points, p[..m], []), Select(points, p[m..], []), rounds) <= alpha
  }

  // ---------- The shuffles of a seed ----------

  const SEED: bv64 := 6

  const ROUNDS: seq<seq<nat>> := [[2, 1, 0], [0, 1, 1]]

  lemma DrawIs(state: bv64, word: nat, bound: nat, r: nat)
    requires bound > 0 && Mix(state + GAMMA) as nat == word
    requires r * WORDS <= word * bound < (r + 1) * WORDS
    ensures Draw(state, bound) == r
  {
    hide Mix;
    QuotientIs(word * bound, r);
  }

  lemma QuotientIs(x: nat, r: nat)
    requires r * WORDS <= x < (r + 1) * WORDS
    ensures x / WORDS == r
  {
  }

  lemma FirstDraw()
    ensures Draw(0x0000_0000_0000_0006, 4) == 2
  {
    assert Mix(0x0000_0000_0000_0006 + GAMMA) == 0xBD64_A5D9_ADEF_E000;
    DrawIs(0x0000_0000_0000_0006, 0xBD64_A5D9_ADEF_E000, 4, 2);
  }

  lemma SecondDraw()
    ensures Draw(0x9E37_79B9_7F4A_7C1B, 3) == 1
  {
    assert Mix(0x9E37_79B9_7F4A_7C1B + GAMMA) == 0x7241_9DB2_3951_DF99;
    DrawIs(0x9E37_79B9_7F4A_7C1B, 0x7241_9DB2_3951_DF99, 3, 1);
  }

  lemma ThirdDraw()
    ensures Draw(0x3C6E_F372_FE94_F830, 2) == 0
  {
    assert Mix(0x3C6E_F372_FE94_F830 + GAMMA) == 0x0E6C_7D03_72AA_2F46;
    DrawIs(0x3C6E_F372_FE94_F830, 0x0E6C_7D03_72AA_2F46, 2, 0);
  }

  lemma FourthDraw()
    ensures Draw(0xDAA6_6D2C_7DDF_7445, 4) == 0
  {
    assert Mix(0xDAA6_6D2C_7DDF_7445 + GAMMA) == 0x1B04_9812_EDD0_DA90;
    DrawIs(0xDAA6_6D2C_7DDF_7445, 0x1B04_9812_EDD0_DA90, 4, 0);
  }

  lemma FifthDraw()
    ensures Draw(0x78DD_E6E5_FD29_F05A, 3) == 1
  {
    assert Mix(0x78DD_E6E5_FD29_F05A + GAMMA) == 0x8CFD_70CA_D855_0F27;
    DrawIs(0x78DD_E6E5_FD29_F05A, 0x8CFD_70CA_D855_0F27, 3, 1);
  }

  lemma SixthDraw()
    ensures Draw(0x1715_609F_7C74_6C6F, 2) == 1
  {
    assert Mix(0x1715_609F_7C74_6C6F + GAMMA) == 0xD2DD_37DE_D717_2A70;
    DrawIs(0x1715_609F_7C74_6C6F, 0xD2DD_37DE_D717_2A70, 2, 1);
  }

  lemma StepOne(state: bv64)
    ensures After(state, 1) == state + GAMMA
  {
    assert After(state + GAMMA, 0) == state + GAMMA;
  }

  /** The choices of one shuffle of four, drawn from the state on. */
  lemma ChoicesOfFour(state: bv64)
    ensures var second := After(state, 1);
            var third := After(second, 1);
            && DrawnChoices(state, 4) == [Draw(state, 4), Draw(second, 3), Draw(third, 2)]
            && AfterShuffle(state, 4) == After(third, 1)
  {
    hide Draw, After;
    var second := After(state, 1);
    var third := After(second, 1);
    assert DrawnChoices(After(third, 1), 1) == [];
    assert DrawnChoices(third, 2) == [Draw(third, 2)];
    assert DrawnChoices(second, 3) == [Draw(second, 3), Draw(third, 2)];
    assert AfterShuffle(third, 2) == After(third, 1) && AfterShuffle(second, 3) == After(third, 1);
  }

  lemma SeedRounds()
    ensures Rounds(SEED, 4, 2) == ROUNDS
  {
    FirstDraw();
    SecondDraw();
    ThirdDraw();
    FourthDraw();
    FifthDraw();
    SixthDraw();
    StepOne(SEED);
    StepOne(0x9E37_79B9_7F4A_7C1B);
    StepOne(0x3C6E_F372_FE94_F830);
    StepOne(0xDAA6_6D2C_7DDF_7445);
    StepOne(0x78DD_E6E5_FD29_F05A);
    assert After(SEED, 1) == 0x9E37_79B9_7F4A_7C1B && After(0x9E37_79B9_7F4A_7C1B, 1) == 0x3C6E_F372_FE94_F830;
    assert After(0x3C6E_F372_FE94_F830, 1) == 0xDAA6_6D2C_7DDF_7445;
    assert After(0xDAA6_6D2C_7DDF_7445, 1) == 0x78DD_E6E5_FD29_F05A;
    assert After(0x78DD_E6E5_FD29_F05A, 1) == 0x1715_609F_7C74_6C6F;
    hide Draw, DrawnChoices, AfterShuffle, After;
    ChoicesOfFour(SEED);
    ChoicesOfFour(0xDAA6_6D2C_7DDF_7445);
    assert Rounds(0xDAA6_6D2C_7DDF_7445, 4, 1) == [DrawnChoices(0xDAA6_6D2C_7DDF_7445, 4)];
  }

  // ---------- What they lead to ----------

  lemma ShuffleFour(p: seq<nat>, c: seq<nat>)
    requires |p| == 4 && |c| == 3 && c[0] < 4 && c[1] < 3 && c[2] < 2
    ensures ValidChoices(4, c)
    ensures var t := Swap(p, 3, c[0]);
            var u := Swap(t[..3], 2, c[1]);
            var v := Swap(u[..2], 1, c[2]);
            Shuffled(p, c) == [v[0], v[1], u[2], t[3]]
  {
    var t := Swap(p, 3, c[0]);
    var u := Swap(t[..3], 2, c[1]);
    var v := Swap(u[..2], 1, c[2]);
    assert c[1..][0] == c[1] && c[1..][1..][0] == c[2] && c[1..][1..][1..] == [];
    assert ValidChoices(1, c[1..][1..][1..]) && ValidChoices(2, c[1..][1..]) && ValidChoices(3, c[1..]);
    assert Shuffled(v[..1], c[1..][1..][1..]) == v[..1];
    assert Shuffled(u[..2], c[1..][1..]) == v[..1] + [v[1]];
    assert Shuffled(t[..3], c[1..]) == v[..1] + [v[1]] + [u[2]];
  }

  function FirstOrder(p: seq<nat>): (q: seq<nat>)
    requires |p| == 4
    ensures |q| == 4
  {
    [p[3], p[0], p[1], p[2]]
  }

  function SecondOrder(p: seq<nat>): (q: seq<nat>)
    requires |p| == 4
    ensures |q| == 4
  {
    [p[2], p[1], p[0], p[3]]
  }

  lemma FirstShuffle(p: seq<nat>)
    requires |p| == 4
    ensures ValidChoices(4, ROUNDS[0]) && Shuffled(p, ROUNDS[0]) == FirstOrder(p)
    ensures multiset(FirstOrder(p)) == multiset(p)
  {
    ShuffleFour(p, ROUNDS[0]);
    hide ValidChoices;
    ShuffledReorders(p, ROUNDS[0]);
    hide Shuffled;
  }

  lemma SecondShuffle(p: seq<nat>)
    requires |p| == 4
    ensures ValidChoices(4, ROUNDS[1]) && Shuffled(FirstOrder(p), ROUNDS[1]) == SecondOrder(p)
    ensures multiset(SecondOrder(p)) == multiset(FirstOrder(p))
  {
    ShuffleFour(FirstOrder(p), ROUNDS[1]);
    hide ValidChoices;
    ShuffledReorders(FirstOrder(p), ROUNDS[1]);
    hide Shuffled;
  }

  lemma TwoRounds(p: seq<nat>, q: seq<nat>, r: seq<nat>, c: seq<nat>, d: seq<nat>)
    requires ValidChoices(|p|, c) && ValidChoices(|q|, d) && Shuffled(p, c) == q && Shuffled(q, d) == r
    ensures Trace(Reshuffle(), p, p, [c, d]) == [q, r]
  {
    hide Shuffled, ValidChoices;
    assert [c, d][1..] == [d] && [d][1..] == [];
    UnfoldTrace(p, p, [c, d]);
    UnfoldTrace(p, q, [d]);
  }

  lemma SeedOrders(p: seq<nat>)
    requires |p| == 4
    ensures ValidChoices(4, ROUNDS[0]) && ValidChoices(4, ROUNDS[1])
    ensures Trace(Reshuffle(), p, p, ROUNDS) == [FirstOrder(p), SecondOrder(p)]
  {
    FirstShuffle(p);
    SecondShuffle(p);
    assert ROUNDS == [ROUNDS[0], ROUNDS[1]];
    hide *;
    TwoRounds(p, FirstOrder(p), SecondOrder(p), ROUNDS[0], ROUNDS[1]);
  }

  lemma OrdersPermute(p: seq<nat>)
    requires IsPerm(p, 4)
    ensures |p| == 4 && IsPerm(FirstOrder(p), 4) && IsPerm(SecondOrder(p), 4)
  {
    PermFacts(p, 4);
    hide FirstOrder, SecondOrder;
    FirstShuffle(p);
    SecondShuffle(p);
    hide Shuffled, ValidChoices;
  }

  lemma OrderSides(p: seq<nat>)
    requires IsPerm(p, 4)
    ensures |p| == 4
    ensures CornerValue(FirstOrder(p)) == CornerValue(SecondOrder(p)) == CornerValue(Swap(p, 1, 3))
  {
    PermFacts(p, 4);
    hide IsPerm;
    assert p[0] != p[1] && p[0] != p[2] && p[0] != p[3] && p[1] != p[2] && p[1] != p[3] && p[2] != p[3];
    Sides(p[0], p[1], p[2], p[3]);
    assert Side(p[3], p[0]) == Side(p[0], p[3]) && Side(p[2], p[1]) == Side(p[1], p[2]);
    hide Side;
  }

  /** Both rounds pair corner 0 with corner 3. */
  lemma SeedScores(fns: Analysis, p: seq<nat>)
    requires IsRoot(fns) && IsPerm(p, 4)
    ensures |p| == 4
    ensures var score, v := RelabelledScore(fns, Energy, CORNERS, 2), CornerValue(Swap(p, 1, 3));
            score(p) == CornerValue(p) && score(FirstOrder(p)) == v && score(SecondOrder(p)) == v
  {
    hide *;
    OrdersPermute(p);
    OrderSides(p);
    ScoreOfCorners(fns, p);
    ScoreOfCorners(fns, FirstOrder(p));
    ScoreOfCorners(fns, SecondOrder(p));
  }

  lemma TwoBelow(observed: real, v: real)
    requires v < observed - PERMUTATION_TOLERANCE
    ensures RankP(observed, [v, v], PERMUTATION_TOLERANCE) == 1.0 / 3.0
  {
    assert [v, v][..1] == [v] && [v][..0] == [];
    assert NumAtLeast([v], observed - PERMUTATION_TOLERANCE) == 0;
  }

  /** A labelling that beats its pairing of corners 0 and 3 beats both of the seed's relabellings. */
  lemma BeatsByTwo(p: seq<nat>)
    requires Beats(p, 3)
    ensures CornerValue(Swap(p, 1, 3)) < CornerValue(p) - PERMUTATION_TOLERANCE
  {
  }

  lemma SeedNulls(fns: Analysis, p: seq<nat>)
    requires IsRoot(fns) && IsPerm(p, 4)
    ensures |CORNERS| == 4 && |p| == 4
    ensures var score := RelabelledScore(fns, Energy, CORNERS, 2);
            && FromScratch(fns, Energy, FirstTwo(p), LastTwo(p)) == score(p)
            && NullsOf(fns, Energy, FirstTwo(p) + LastTwo(p), 2, ROUNDS)
                == Scores(score, [FirstOrder(p), SecondOrder(p)])
  {
    CornerAt(0);
    PermFacts(p, 4);
    SeedOrders(p);
    RoundsValid();
    hide IsRoot, IsPerm, FromScratch, NullsOf, RelabelledScore, Trace, Reshuffle, ValidChoices, FirstOrder, SecondOrder,
      Scores, CORNERS, ROUNDS, Select;
    RelabelledNulls(fns, Energy, CORNERS, 2, p, ROUNDS);
  }

  lemma SameScores<X>(f: X -> real, x: X, y: X, v: real)
    requires f(x) == v && f(y) == v
    ensures Scores(f, [x, y]) == [v, v]
  {
  }

  lemma TestIs(fns: Analysis, first: seq<Point>, second: seq<Point>, observed: real, nulls: seq<real>)
    requires |first| == 2 && |second| == 2
    requires FromScratch(fns, Energy, first, second) == observed
    requires NullsOf(fns, Energy, first + second, 2, ROUNDS) == nulls
    ensures TwoSampleP(fns, Energy, first, second, ROUNDS) == RankP(observed, nulls, PERMUTATION_TOLERANCE)
  {
    hide FromScratch, NullsOf, RankP;
  }

  lemma BeatingIsSignificant(fns: Analysis, p: seq<nat>)
    requires IsRoot(fns) && IsPerm(p, 4) && Beats(p, 3)
    ensures |p| == 4
    ensures TwoSampleP(fns, Energy, FirstTwo(p), LastTwo(p), ROUNDS) == 1.0 / 3.0
  {
    BeatsByTwo(p);
    hide *;
    SeedNulls(fns, p);
    SeedScores(fns, p);
    var score, v := RelabelledScore(fns, Energy, CORNERS, 2), CornerValue(Swap(p, 1, 3));
    SameScores(score, FirstOrder(p), SecondOrder(p), v);
    TestIs(fns, FirstTwo(p), LastTwo(p), score(p), [v, v]);
    TwoBelow(score(p), v);
  }

  lemma RoundsValid()
    ensures forall b :: 0 <= b < |ROUNDS| ==> ValidChoices(4, ROUNDS[b])
  {
    SeedOrders([0, 1, 2, 3]);
  }

  /** With the two shuffles of seed 6, half of the labellings of four points get a p-value of one third. */
  lemma FixedSeedExceeds(fns: Analysis)
    requires IsRoot(fns)
    ensures |CORNERS| == 4
    ensures var significant := FixedSignificant(fns, Energy, CORNERS, 2, Rounds(SEED, 4, 2), 1.0 / 3.0);
            2 * |significant| >= |Perms(4)| && !AtMostShare(|significant|, |Perms(4)|, 1.0 / 3.0)
  {
    CornerAt(0);
    SeedRounds();
    IdentityIsPerm(4);
    hide *;
    BeatingBound(fns);
    HalfBeat(3);
    assert Identity(4) in Perms(4);
    MoreThanAThird(|FixedSignificant(fns, Energy, CORNERS, 2, ROUNDS, 1.0 / 3.0)|, |Perms(4)|);
  }

  lemma BeatingBound(fns: Analysis)
    requires IsRoot(fns)
    ensures |CORNERS| == 4
    ensures |Beating(3)| <= |FixedSignificant(fns, Energy, CORNERS, 2, ROUNDS, 1.0 / 3.0)|
  {
    CornerAt(0);
    hide TwoSampleP, IsRoot, Beats, IsPerm, Select, CORNERS, ROUNDS;
    var significant := FixedSignificant(fns, Energy, CORNERS, 2, ROUNDS, 1.0 / 3.0);
    forall p | p in Beating(3) ensures p in significant {
      PermFacts(p, 4);
      BeatingIsSignificant(fns, p);
    }
    SubsetBound(Beating(3), significant);
  }

  lemma MoreThanAThird(k: nat, n: nat)
    requires n > 0 && 2 * k >= n
    ensures !AtMostShare(k, n, 1.0 / 3.0)
  {
  }
}
