/** Counting the experiments on the five points that do not pass. */
module SeveralCount {
  import opened Counting
  import opened Grids
  import opened Shuffle
  import opened MonteCarlo
  import opened Distances
  import opened PermutationTest
  import opened Labellings
  import opened OnePrompt
  import opened SeveralWitness

  // ---------- Every split has equally many labellings ----------

  /** Naming one of the two run samples differently. */
  lemma ReplaceSample(d: nat, e: nat, d': nat)
    requires d < 5 && e < 5 && d' < 5 && d != e && d' != e
    ensures |Fiber(5, ClassOf, Index(d, e))| <= |Fiber(5, ClassOf, Index(d', e))|
  {
    var names := Transposition(5, d, d');
    TranspositionFacts(5, d, d');
    hide IsPerm, Transposition, Index, Perms;
    forall p | p in Fiber(5, ClassOf, Index(d, e)) ensures ClassOf(Rename(names, p)) == Index(d', e) {
      RenamedClass(p, d, e, d');
    }
    hide ClassOf, Fiber;
    FiberBound(5, ClassOf, Index(d, e), Index(d', e), names);
  }

  lemma RenamedClass(p: seq<nat>, d: nat, e: nat, d': nat)
    requires d < 5 && e < 5 && d' < 5 && d != e && d' != e
    requires IsPerm(p, 5) && ClassOf(p) == Index(d, e)
    ensures ClassOf(Rename(Transposition(5, d, d'), p)) == Index(d', e)
  {
    PermFacts(p, 5);
    TranspositionFacts(5, d, d');
    SameSamples(p[3], p[4], d, e);
    IndexSymmetric(d', e);
    hide IsPerm, Transposition, Index;
  }

  lemma SameSamples(i: nat, j: nat, d: nat, e: nat)
    requires i < 5 && j < 5 && d < 5 && e < 5 && i != j && d != e && Index(i, j) == Index(d, e)
    ensures (i == d && j == e) || (i == e && j == d)
  {
  }

  lemma IndexSymmetric(d: nat, e: nat)
    ensures Index(d, e) == Index(e, d)
  {
  }

  lemma SameSplit(d: nat, e: nat, i: nat, j: nat)
    requires d < 5 && e < 5 && d != e && i < 5 && j < 5 && i != j
    ensures |Fiber(5, ClassOf, Index(d, e))| <= |Fiber(5, ClassOf, Index(i, j))|
  {
    hide Index, Fiber;
    IndexSymmetric(d, e);
    IndexSymmetric(i, j);
    if e != i {
      ReplaceSample(d, e, i);
      IndexSymmetric(i, e);
      ReplaceSample(e, i, j);
      IndexSymmetric(j, i);
    } else {
      ReplaceSample(d, e, j);
    }
  }

  lemma SplitOf(y: nat) returns (d: nat, e: nat)
    requires y < 10
    ensures d < 5 && e < 5 && d != e && Index(d, e) == y
  {
    d := if y < 4 then 0 else if y < 7 then 1 else if y < 9 then 2 else 3;
    e := if y < 4 then y + 1 else if y < 7 then y - 2 else if y < 9 then y - 4 else 4;
  }

  lemma EvenSplits(y: nat, y': nat)
    requires y < 10 && y' < 10
    ensures |Fiber(5, ClassOf, y)| <= |Fiber(5, ClassOf, y')|
  {
    hide Index, Fiber;
    var d, e := SplitOf(y);
    var i, j := SplitOf(y');
    SameSplit(d, e, i, j);
  }

  // ---------- Triples of splits ----------

  /** The triple of splits does not beat its nulls at the picks with number `j`. */
  predicate Loses(observed: nat, x: nat, y: nat, j: nat) {
    !Beats(Value(observed), Value(x), Value(y), j / 2, j % 2)
  }

  /** At how many of the four pairs of picks a triple of values may lose. */
  function Losses(observed: int, x: int, y: int): nat {
    if x + y >= 2 * observed then 4 else if x < observed && y < observed then 0 else 3
  }

  function RowLosses(observed: int, x: int): nat {
    Losses(observed, x, 181) + Losses(observed, x, 146) + Losses(observed, x, 86) + Losses(observed, x, 176)
    + Losses(observed, x, 141) + Losses(observed, x, 81) + Losses(observed, x, 171) + Losses(observed, x, 96)
    + Losses(observed, x, 186) + Losses(observed, x, 326)
  }

  function PlaneLosses(observed: int): nat {
    RowLosses(observed, 181) + RowLosses(observed, 146) + RowLosses(observed, 86) + RowLosses(observed, 176)
    + RowLosses(observed, 141) + RowLosses(observed, 81) + RowLosses(observed, 171) + RowLosses(observed, 96)
    + RowLosses(observed, 186) + RowLosses(observed, 326)
  }

  lemma Plane181() ensures PlaneLosses(181) == 178 {}
  lemma Plane146() ensures PlaneLosses(146) == 304 {}
  lemma Plane86() ensures PlaneLosses(86) == 394 {}
  lemma Plane176() ensures PlaneLosses(176) == 224 {}
  lemma Plane141() ensures PlaneLosses(141) == 330 {}
  lemma Plane81() ensures PlaneLosses(81) == 400 {}
  lemma Plane171() ensures PlaneLosses(171) == 260 {}
  lemma Plane96() ensures PlaneLosses(96) == 380 {}
  lemma Plane186() ensures PlaneLosses(186) == 128 {}
  lemma Plane326() ensures PlaneLosses(326) == 58 {}

  lemma OneMoreRow<B>(i: nat, K: set<B>, hit: (nat, B) -> bool, w: nat)
    requires |RowAt(K, hit, i)| <= w
    ensures |Grid(Below(i + 1), K, hit)| <= |Grid(Below(i), K, hit)| + w
  {
    GridSplit(Below(i + 1), K, hit, i);
    assert Below(i + 1) - {i} == Below(i);
  }

  /** A grid of ten rows. */
  lemma RowsOfTen<B>(K: set<B>, hit: (nat, B) -> bool, w: nat -> nat)
    requires forall i: nat :: i < 10 ==> |RowAt(K, hit, i)| <= w(i)
    ensures |Grid(Below(10), K, hit)| <= w(0) + w(1) + w(2) + w(3) + w(4) + w(5) + w(6) + w(7) + w(8) + w(9)
  {
    hide RowAt, Below, Grid;
    OneMoreRow(0, K, hit, w(0));
    OneMoreRow(1, K, hit, w(1));
    OneMoreRow(2, K, hit, w(2));
    OneMoreRow(3, K, hit, w(3));
    OneMoreRow(4, K, hit, w(4));
    OneMoreRow(5, K, hit, w(5));
    OneMoreRow(6, K, hit, w(6));
    OneMoreRow(7, K, hit, w(7));
    OneMoreRow(8, K, hit, w(8));
    OneMoreRow(9, K, hit, w(9));
    EmptyGrid(K, hit);
  }

  lemma EmptyGrid<B>(K: set<B>, hit: (nat, B) -> bool)
    ensures |Grid(Below(0), K, hit)| == 0
  {
    assert Grid(Below(0), K, hit) == {};
  }

  function LosesPicks(observed: nat, x: nat): (nat, nat) -> bool {
    (y: nat, j: nat) => Loses(observed, x, y, j)
  }

  function LosesRest(observed: nat): (nat, (nat, nat)) -> bool {
    (x: nat, r: (nat, nat)) => Loses(observed, x, r.0, r.1)
  }

  function LosesAll(): (nat, (nat, (nat, nat))) -> bool {
    (observed: nat, r: (nat, (nat, nat))) => Loses(observed, r.0, r.1.0, r.1.1)
  }

  lemma PicksRow(observed: nat, x: nat, y: nat)
    ensures |RowAt(Below(4), LosesPicks(observed, x), y)| <= Losses(Value(observed), Value(x), Value(y))
  {
    hide Value;
    var row: set<nat> := RowAt(Below(4), LosesPicks(observed, x), y);
    var o, a, b := Value(observed), Value(x), Value(y);
    SubsetBound(row, Below(4));
    if a + b < 2 * o {
      assert a < o || b < o;
      var missed: nat := if a < o then 0 else 3;
      assert missed !in row && missed in Below(4);
      SubsetBound(row, Below(4) - {missed});
      if a < o && b < o {
        assert row == {};
      }
    }
  }

  lemma RowGrid(observed: nat, x: nat)
    ensures |Grid(Below(10), Below(4), LosesPicks(observed, x))| <= RowLosses(Value(observed), Value(x))
  {
    hide Losses, Grid, RowAt, LosesPicks;
    forall y: nat | y < 10 ensures |RowAt(Below(4), LosesPicks(observed, x), y)|
        <= Losses(Value(observed), Value(x), Value(y)) {
      PicksRow(observed, x, y);
    }
    RowsOfTen(Below(4), LosesPicks(observed, x), y => Losses(Value(observed), Value(x), Value(y)));
  }

  lemma PlaneRow(observed: nat, x: nat)
    ensures |RowAt(Pairs(Below(10), Below(4)), LosesRest(observed), x)| <= RowLosses(Value(observed), Value(x))
  {
    hide RowLosses, Loses, Value;
    RowGrid(observed, x);
    var K := Pairs(Below(10), Below(4));
    hide Below;
    forall r | r in RowAt(K, LosesRest(observed), x) ensures r in Grid(Below(10), Below(4), LosesPicks(observed, x)) {
      assert LosesRest(observed)(x, r) && LosesPicks(observed, x)(r.0, r.1);
    }
    hide Pairs, Grid, RowAt;
    SubsetBound(RowAt(K, LosesRest(observed), x), Grid(Below(10), Below(4), LosesPicks(observed, x)));
  }

  lemma PlaneGrid(observed: nat)
    ensures |Grid(Below(10), Pairs(Below(10), Below(4)), LosesRest(observed))| <= PlaneLosses(Value(observed))
  {
    hide RowLosses, Loses, Grid, RowAt, LosesRest, Value;
    var K := Pairs(Below(10), Below(4));
    forall x: nat | x < 10 ensures |RowAt(K, LosesRest(observed), x)| <= RowLosses(Value(observed), Value(x)) {
      PlaneRow(observed, x);
    }
    RowsOfTen(K, LosesRest(observed), (x: nat) => RowLosses(Value(observed), Value(x)));
    TenRows(observed);
  }

  lemma TenRows(observed: nat)
    ensures var w := (x: nat) => RowLosses(Value(observed), Value(x));
            PlaneLosses(Value(observed)) == w(0) + w(1) + w(2) + w(3) + w(4) + w(5) + w(6) + w(7) + w(8) + w(9)
  {
    hide RowLosses;
  }

  /** The triples and picks that lose. */
  ghost function Losing(): set<(nat, (nat, (nat, nat)))> {
    Grid(Below(10), Pairs(Below(10), Pairs(Below(10), Below(4))), LosesAll())
  }

  lemma PlanesSum()
    ensures var w := (y: nat) => PlaneLosses(Value(y));
            w(0) + w(1) + w(2) + w(3) + w(4) + w(5) + w(6) + w(7) + w(8) + w(9) == 2656
  {
    hide PlaneLosses;
    Plane181();
    Plane146();
    Plane86();
    Plane176();
    Plane141();
    Plane81();
    Plane171();
    Plane96();
    Plane186();
    Plane326();
  }

  lemma LosingRow(observed: nat)
    ensures |RowAt(Pairs(Below(10), Pairs(Below(10), Below(4))), LosesAll(), observed)| <= PlaneLosses(Value(observed))
  {
    hide PlaneLosses, Loses, Value;
    PlaneGrid(observed);
    var K, L := Pairs(Below(10), Pairs(Below(10), Below(4))), Pairs(Below(10), Below(4));
    hide Below;
    forall r | r in RowAt(K, LosesAll(), observed) ensures r in Grid(Below(10), L, LosesRest(observed)) {
      assert LosesAll()(observed, r) && LosesRest(observed)(r.0, r.1);
    }
    hide Pairs, Grid, RowAt;
    SubsetBound(RowAt(K, LosesAll(), observed), Grid(Below(10), L, LosesRest(observed)));
  }

  lemma LosingCount()
    ensures |Losing()| <= 2656
  {
    hide PlaneLosses, Loses, Value, Grid, RowAt, LosesAll;
    var K := Pairs(Below(10), Pairs(Below(10), Below(4)));
    forall observed: nat | observed < 10 ensures |RowAt(K, LosesAll(), observed)| <= PlaneLosses(Value(observed)) {
      LosingRow(observed);
    }
    RowsOfTen(K, LosesAll(), (y: nat) => PlaneLosses(Value(y)));
    PlanesSum();
  }

  // ---------- Experiments ----------

  /** Sequences of three labellings whose splits are the given ones. */
  function SplitsAre(): ((nat, (nat, (nat, nat))), seq<seq<nat>>) -> bool {
    (r: (nat, (nat, (nat, nat))), t: seq<seq<nat>>) =>
      |t| == 3 && ClassOf(t[0]) == r.0 && ClassOf(t[1]) == r.1.0 && ClassOf(t[2]) == r.1.1.0
  }

  lemma InCube<A(!new)>(a: set<A>, b: set<A>, c: set<A>, t: seq<A>)
    requires |t| == 3 && t[0] in a && t[1] in b && t[2] in c
    ensures t in Tuples([a, b, c])
  {
    assert IsTuple(t, [a, b, c]);
  }

  lemma CubeBound(r: (nat, (nat, (nat, nat))), w: nat)
    requires forall y: nat :: y < 10 ==> |Fiber(5, ClassOf, y)| <= w
    requires r.0 < 10 && r.1.0 < 10 && r.1.1.0 < 10
    ensures |RowAt(Seqs(Perms(5), 3), SplitsAre(), r)| <= w * w * w
  {
    hide Perms, ClassOf, Tuples;
    var a, b, c := Fiber(5, ClassOf, r.0), Fiber(5, ClassOf, r.1.0), Fiber(5, ClassOf, r.1.1.0);
    var row := RowAt(Seqs(Perms(5), 3), SplitsAre(), r);
    forall t | t in row ensures t in Tuples([a, b, c]) {
      assert t[0] in Perms(5) && t[1] in Perms(5) && t[2] in Perms(5);
      InCube(a, b, c, t);
    }
    hide *;
    SubsetBound(row, Tuples([a, b, c]));
    TuplesCount([a, b, c]);
    ProductOfThree(a, b, c);
    Cube(|a|, |b|, |c|, w);
  }

  lemma ProductOfThree<A>(a: set<A>, b: set<A>, c: set<A>)
    ensures Product([a, b, c]) == |a| * |b| * |c|
  {
    var none: seq<set<A>> := [];
    assert [a, b, c][1..] == [b, c] && [b, c][1..] == [c] && [c][1..] == none;
    assert Product([c]) == |c| * 1 && Product([b, c]) == |b| * |c|;
    assert |a| * (|b| * |c|) == |a| * |b| * |c|;
  }

  lemma Cube(a: nat, b: nat, c: nat, w: nat)
    requires a <= w && b <= w && c <= w
    ensures a * b * c <= w * w * w
  {
    Multiply(a, w, b);
    Multiply(b, w, w);
    assert w * b == b * w;
    Multiply(a * b, w * w, c);
    Multiply(c, w, w * w);
    assert w * w * c == c * (w * w) && w * (w * w) == w * w * w;
  }

  lemma Multiply(x: nat, y: nat, z: nat)
    requires x <= y
    ensures x * z <= y * z
  {
  }

  ghost function Unwon(): set<Experiment> {
    set o | o in PromptExperiments(5, 3, 2) && !Wins(Tested(Reshuffle(), o.0), o.1)
  }

  /** A triple of labellings with its picks, filed under its splits and the picks' number. */
  function FiledAt(t: seq<seq<nat>>, picks: seq<nat>): ((nat, (nat, (nat, nat))), seq<seq<nat>>) {
    if |t| == 3 && |picks| == 2 then ((ClassOf(t[0]), (ClassOf(t[1]), (ClassOf(t[2]), 2 * picks[0] + picks[1]))), t)
    else ((0, (0, (0, 0))), t)
  }

  function Filed(o: Experiment): ((nat, (nat, (nat, nat))), seq<seq<nat>>) {
    FiledAt(Tested(Reshuffle(), o.0), o.1)
  }

  ghost function LosingExperiments(): set<((nat, (nat, (nat, nat))), seq<seq<nat>>)> {
    Grid(Losing(), Seqs(Perms(5), 3), SplitsAre())
  }

  lemma PicksDecoded(a: nat, b: nat)
    requires a < 2 && b < 2
    ensures var j := 2 * a + b; j < 4 && j / 2 == a && j % 2 == b
  {
  }

  lemma InLosing(observed: nat, x: nat, y: nat, j: nat)
    requires observed < 10 && x < 10 && y < 10 && j < 4 && Loses(observed, x, y, j)
    ensures (observed, (x, (y, j))) in Losing()
  {
    hide Loses, Below;
    assert LosesAll()(observed, (x, (y, j)));
  }

  lemma UnwonLoses(o: Experiment)
    requires o in Unwon()
    ensures |o.1| == 2 && o.1[0] < 2 && o.1[1] < 2
    ensures var t := Tested(Reshuffle(), o.0);
            |t| == 3 && Loses(ClassOf(t[0]), ClassOf(t[1]), ClassOf(t[2]), 2 * o.1[0] + o.1[1])
  {
    hide PromptExperiments, Tested, Value, ClassOf, Beats;
    ComparedAre(o);
    PicksDecoded(o.1[0], o.1[1]);
  }

  lemma UnwonFiled(o: Experiment)
    requires o in Unwon()
    ensures Filed(o) in LosingExperiments() && o.0 in Experiments(5, 2)
    ensures |o.1| == 2 && o.1[0] < 2 && o.1[1] < 2 && |Tested(Reshuffle(), o.0)| == 3
  {
    UnwonExperiment(o);
    assert Filed(o) == FiledAt(Tested(Reshuffle(), o.0), o.1);
    hide *;
    UnwonLoses(o);
    PicksDecoded(o.1[0], o.1[1]);
    ComparedStays(5, 2, o);
    var t, j := Tested(Reshuffle(), o.0), 2 * o.1[0] + o.1[1];
    FiledIs(t, o.1);
    InLosing(ClassOf(t[0]), ClassOf(t[1]), ClassOf(t[2]), j);
    InLosingExperiments(t, j);
  }

  lemma UnwonExperiment(o: Experiment)
    requires o in Unwon()
    ensures o.0 in Experiments(5, 2)
  {
    InExperiments(5, 3, 2, o);
    hide PromptExperiments, Experiments, Wins;
  }

  lemma FiledIs(t: seq<seq<nat>>, picks: seq<nat>)
    requires |t| == 3 && |picks| == 2
    ensures FiledAt(t, picks) == ((ClassOf(t[0]), (ClassOf(t[1]), (ClassOf(t[2]), 2 * picks[0] + picks[1]))), t)
  {
    hide ClassOf;
  }

  lemma InLosingExperiments(t: seq<seq<nat>>, j: nat)
    requires |t| == 3 && t in Seqs(Perms(5), 3) && (ClassOf(t[0]), (ClassOf(t[1]), (ClassOf(t[2]), j))) in Losing()
    ensures ((ClassOf(t[0]), (ClassOf(t[1]), (ClassOf(t[2]), j))), t) in LosingExperiments()
  {
    hide Losing, Seqs, Perms, ClassOf;
    assert SplitsAre()((ClassOf(t[0]), (ClassOf(t[1]), (ClassOf(t[2]), j))), t);
  }

  lemma UnwonBound()
    ensures |Unwon()| <= |LosingExperiments()|
  {
    hide Unwon, LosingExperiments, Experiments;
    forall o | o in Unwon() ensures Filed(o) in LosingExperiments() {
      UnwonFiled(o);
    }
    forall o, o' | o in Unwon() && o' in Unwon() && Filed(o) == Filed(o') ensures o == o' {
      UnwonFiled(o);
      UnwonFiled(o');
      PicksDecoded(o.1[0], o.1[1]);
      PicksDecoded(o'.1[0], o'.1[1]);
      assert o.1 == [o.1[0], o.1[1]] && o'.1 == [o'.1[0], o'.1[1]];
      ComparedInjective(5, 2, o, o');
    }
    InjectionBound(Unwon(), LosingExperiments(), Filed);
  }

  ghost function Cubed(w: nat): nat {
    w * w * w
  }

  lemma CubedPositive(w: nat)
    requires w > 0
    ensures Cubed(w) > 0
  {
    assert w * w > 0;
  }

  lemma LosingRows(w: nat)
    requires forall y: nat :: y < 10 ==> |Fiber(5, ClassOf, y)| <= w
    ensures forall r :: r in Losing() ==> |RowAt(Seqs(Perms(5), 3), SplitsAre(), r)| <= Cubed(w)
  {
    forall r | r in Losing() ensures |RowAt(Seqs(Perms(5), 3), SplitsAre(), r)| <= Cubed(w) {
      hide LosesAll, Seqs, Perms, SplitsAre, Fiber, RowAt;
      CubeBound(r, w);
    }
  }

  lemma LosingExperimentsBound(w: nat)
    requires forall y: nat :: y < 10 ==> |Fiber(5, ClassOf, y)| <= w
    ensures |LosingExperiments()| <= 2656 * Cubed(w)
  {
    hide Losing, Seqs, Perms, SplitsAre, RowAt, Fiber, Grid, Cubed;
    LosingCount();
    LosingRows(w);
    RowsAtMost(Losing(), Seqs(Perms(5), 3), SplitsAre(), Cubed(w));
    TimesIsProduct(Cubed(w), |Losing()|);
    Multiply(|Losing()|, 2656, Cubed(w));
  }

  lemma SeqsOfThree<A(!new)>(X: set<A>)
    ensures |Seqs(X, 3)| == Cubed(|X|)
  {
    SeqsCount(X, 3);
    var x := |X|;
    assert Pow(x, 1) == x * Pow(x, 0) == x;
    assert Pow(x, 2) == x * Pow(x, 1) && Pow(x, 3) == x * Pow(x, 2);
    hide Seqs, Pow;
    assert x * (x * x) == x * x * x;
  }

  lemma FourPicks()
    ensures |Seqs(Below(2), 2)| == 4
  {
    SeqsCount(Below(2), 2);
    assert Pow(2, 2) == 2 * (2 * 1);
  }

  lemma CubeOfTen(w: nat, p: nat)
    requires 10 * w <= p
    ensures 1000 * Cubed(w) <= Cubed(p)
  {
    Cube(10 * w, 10 * w, 10 * w, p);
    assert 10 * w * (10 * w) * (10 * w) == 1000 * (w * w * w);
  }

  lemma AllExperiments(w: nat)
    requires forall y: nat :: y < 10 ==> w <= |Fiber(5, ClassOf, y)|
    ensures 4000 * Cubed(w) <= |PromptExperiments(5, 3, 2)|
  {
    hide Perms, Seqs, Fiber, ClassOf, PromptExperiments, Cubed;
    FibersFill(5, ClassOf, 10, w);
    ExperimentsCount(5, 3, 2);
    SeqsOfThree(Perms(5));
    FourPicks();
    CubeOfTen(w, |Perms(5)|);
  }

  lemma SomeFiber(w: nat)
    requires forall y: nat :: y < 10 ==> |Fiber(5, ClassOf, y)| <= w
    ensures w > 0
  {
    var identity := Identity(5);
    IdentityIsPerm(5);
    assert identity in Perms(5);
    hide IsPerm, Perms, ClassOf, Identity;
    assert identity in Fiber(5, ClassOf, ClassOf(identity));
  }

  lemma PassingRest(fns: Analysis)
    requires IsRoot(fns)
    ensures |POINTS| == 5 && |PromptExperiments(5, 3, 2)| <= |Passing(fns, POINTS, 3, 2, 1.0 / 3.0)| + |Unwon()|
  {
    PointAt(0);
    hide PromptExperiments, Wins, Tested, IsRoot, Passes;
    var all, passing := PromptExperiments(5, 3, 2), Passing(fns, POINTS, 3, 2, 1.0 / 3.0);
    forall o | o in all ensures o in passing + Unwon() {
      if Wins(Tested(Reshuffle(), o.0), o.1) {
        WinsPass(fns, o);
      }
    }
    hide Passing, Unwon;
    SubsetBound(all, passing + Unwon());
  }

  /** Losing experiments, and all of them, as multiples of the number of triples of labellings per triple of splits. */
  lemma Multiples() returns (cube: nat)
    ensures cube > 0 && |LosingExperiments()| <= 2656 * cube && 4000 * cube <= |PromptExperiments(5, 3, 2)|
  {
    hide *;
    var w := |Fiber(5, ClassOf, 0)|;
    forall y: nat | y < 10 ensures |Fiber(5, ClassOf, y)| == w {
      EvenSplits(y, 0);
      EvenSplits(0, y);
    }
    LosingExperimentsBound(w);
    AllExperiments(w);
    SomeFiber(w);
    CubedPositive(w);
    cube := Cubed(w);
  }

  /** The gate is not exact with several run samples: for these five points, three in the cloud and two
      run samples, more than a third of the experiments pass at the level one third. */
  lemma SeveralSamplesExceed(fns: Analysis)
    requires IsRoot(fns)
    ensures |POINTS| == 5 && !PassesAtMost(fns, POINTS, 3, 2, 1.0 / 3.0, 1.0 / 3.0)
  {
    PassingRest(fns);
    hide *;
    UnwonBound();
    var cube := Multiples();
    var k, size := |Passing(fns, POINTS, 3, 2, 1.0 / 3.0)|, |PromptExperiments(5, 3, 2)|;
    TooMany(k, size, cube, |LosingExperiments()|);
    ExceedsShare(fns, k, size);
  }

  lemma TooMany(k: nat, size: nat, cube: nat, losing: nat)
    requires size <= k + losing && losing <= 2656 * cube && 4000 * cube <= size && cube > 0
    ensures 3 * k > size
  {
  }

  lemma ExceedsShare(fns: Analysis, k: nat, size: nat)
    requires |POINTS| == 5 && k == |Passing(fns, POINTS, 3, 2, 1.0 / 3.0)| && size == |PromptExperiments(5, 3, 2)|
        && 3 * k > size
    ensures !PassesAtMost(fns, POINTS, 3, 2, 1.0 / 3.0, 1.0 / 3.0)
  {
    hide Passing, PromptExperiments;
    assert 1.0 / 3.0 * size as real == size as real / 3.0;
  }
}
