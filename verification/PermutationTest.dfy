/** The permutation two-sample test, and the exactness of its p-value. */
module PermutationTest {
  import opened Counting
  import opened Shuffle
  import opened SplitMix
  import opened MonteCarlo
  import opened Results
  import opened Distances
  import opened Gram
  import opened TwoSample
  import opened Moments

  const MIN_SAMPLES_PER_GROUP: nat := 2

  const PERMUTATION_TOLERANCE: real := 0.000001

  // ---------- The shuffle, driven by the generator ----------

  /** The choices that the generator makes for a slice of length `n`. */
  function DrawnChoices(state: bv64, n: nat): (choices: seq<nat>)
    ensures ValidChoices(n, choices)
    decreases n
  {
    if n <= 1 then [] else [Draw(state, n)] + DrawnChoices(After(state, 1), n - 1)
  }

  /** The generator's state once a slice of length `n` has been shuffled. */
  function AfterShuffle(state: bv64, n: nat): bv64
    decreases n
  {
    if n <= 1 then state else AfterShuffle(After(state, 1), n - 1)
  }

  method FisherYates(slice: array<nat>, rng: SplitMix64)
    modifies slice, rng
    ensures slice[..] == Shuffled(old(slice[..]), DrawnChoices(old(rng.state), slice.Length))
    ensures rng.state == AfterShuffle(old(rng.state), slice.Length)
  {
    hide Draw, After, Shuffled, DrawnChoices, AfterShuffle;
    ghost var target := Shuffled(slice[..], DrawnChoices(rng.state, slice.Length));
    ghost var final := AfterShuffle(rng.state, slice.Length);
    var i := slice.Length;
    assert slice[..i] == slice[..];
    while i > 1
      invariant 0 <= i <= slice.Length
      invariant Shuffled(slice[..i], DrawnChoices(rng.state, i)) + slice[i..] == target
      invariant AfterShuffle(rng.state, i) == final
    {
      ghost var before, state := slice[..], rng.state;
      i := i - 1;
      var j := rng.NextBounded(i + 1);
      slice[i], slice[j] := slice[j], slice[i];
      assert slice[..] == Swap(before, i, j);
      ShuffleOneStep(before, i, state);
      assert slice[..i] == slice[..][..i] && slice[i..] == slice[..][i..];
      assert before[..i + 1] == old(slice[..])[..0] + before[..i + 1];
    }
    ShortShuffle(slice[..i], rng.state);
    assert slice[..i] + slice[i..] == slice[..];
  }

  lemma ShortShuffle(s: seq<nat>, state: bv64)
    requires |s| <= 1
    ensures Shuffled(s, DrawnChoices(state, |s|)) == s && AfterShuffle(state, |s|) == state
  {
  }

  lemma ShuffleOneStep(before: seq<nat>, i: nat, state: bv64)
    requires 1 <= i < |before|
    ensures AfterShuffle(state, i + 1) == AfterShuffle(After(state, 1), i)
    ensures var now := Swap(before, i, Draw(state, i + 1));
            Shuffled(before[..i + 1], DrawnChoices(state, i + 1)) + before[i + 1..]
            == Shuffled(now[..i], DrawnChoices(After(state, 1), i)) + now[i..]
  {
    hide Draw, After, DrawnChoices, Shuffled, ValidChoices;
    var s, j, rest := before[..i + 1], Draw(state, i + 1), DrawnChoices(After(state, 1), i);
    FirstChoice(state, i + 1);
    ShuffledCons(s, j, rest);
    SwapPrefix(before, i, j);
  }

  lemma SwapPrefix(before: seq<nat>, i: nat, j: nat)
    requires j <= i < |before|
    ensures var now, t := Swap(before, i, j), Swap(before[..i + 1], i, j);
            t[..i] == now[..i] && now[i..] == [t[i]] + before[i + 1..]
  {
  }

  lemma FirstChoice(state: bv64, n: nat)
    requires n > 1
    ensures DrawnChoices(state, n) == [Draw(state, n)] + DrawnChoices(After(state, 1), n - 1)
  {
  }

  /** The choices of `rounds` shuffles in a row. */
  function Rounds(state: bv64, n: nat, rounds: nat): (all: seq<seq<nat>>)
    ensures |all| == rounds && forall b :: 0 <= b < rounds ==> ValidChoices(n, all[b])
    decreases rounds
  {
    if rounds == 0 then []
    else [DrawnChoices(state, n)] + Rounds(AfterShuffle(state, n), n, rounds - 1)
  }

  /** Each relabelling is a shuffle of the previous one. */
  function Reshuffle(): (seq<nat>, seq<nat>, seq<nat>) -> seq<nat> {
    (start: seq<nat>, prev: seq<nat>, choices: seq<nat>) => if ValidChoices(|prev|, choices)
        then Shuffled(prev, choices) else prev
  }

  // ---------- The test ----------

  function FirstMismatch(points: seq<Point>, dim: nat): Option<nat> {
    if points == [] then None
    else if |points[0]| != dim then Some(|points[0]|)
    else FirstMismatch(points[1..], dim)
  }

  /** Two usable samples, or the first complaint about them. */
  function Validate(x: seq<Point>, y: seq<Point>): Option<DriftError> {
    if |x| < MIN_SAMPLES_PER_GROUP || |y| < MIN_SAMPLES_PER_GROUP then Some(Drift)
    else if |x[0]| == 0 then Some(EmptyEmbedding)
    else
      match FirstMismatch(x + y, |x[0]|)
      case Some(actual) => Some(DimensionMismatch(|x[0]|, actual))
      case None => None
  }

  /** Point `k` is the first of another dimension. */
  predicate OddPoint(points: seq<Point>, dim: nat, k: int) {
    0 <= k < |points| && |points[k]| != dim && forall i :: 0 <= i < k ==> |points[i]| == dim
  }

  lemma {:induction false} FirstMismatchMeaning(points: seq<Point>, dim: nat)
    ensures match FirstMismatch(points, dim)
            case None => forall i :: 0 <= i < |points| ==> |points[i]| == dim
            case Some(actual) => exists k :: OddPoint(points, dim, k) && |points[k]| == actual
  {
    if points != [] && |points[0]| == dim {
      FirstMismatchMeaning(points[1..], dim);
      if FirstMismatch(points[1..], dim).Some? {
        var actual := FirstMismatch(points[1..], dim).value;
        var k :| OddPoint(points[1..], dim, k) && |points[1..][k]| == actual;
        assert OddPoint(points, dim, k + 1);
      }
    }
  }

  /** What is wrong with two samples: too few points, no coordinates, or a point of another dimension than the first. */
  lemma ValidateMeaning(x: seq<Point>, y: seq<Point>)
    ensures Validate(x, y) == None <==>
        |x| >= 2 && |y| >= 2 && |x[0]| > 0 && forall p :: p in x + y ==> |p| == |x[0]|
    ensures Validate(x, y) == Some(Drift) <==> |x| < 2 || |y| < 2
    ensures Validate(x, y) == Some(EmptyEmbedding) <==> |x| >= 2 && |y| >= 2 && x[0] == []
    ensures Validate(x, y).Some? && Validate(x, y).value.DimensionMismatch? ==>
        |x| >= 2 && exists k :: OddPoint(x + y, |x[0]|, k)
                      && Validate(x, y).value == DimensionMismatch(|x[0]|, |(x + y)[k]|)
  {
    if |x| >= 2 {
      FirstMismatchMeaning(x + y, |x[0]|);
      hide FirstMismatch;
      assert (x + y)[0] == x[0];
    }
  }

  function RelabelledScore(fns: Analysis, kernel: Kernel, points: seq<Point>, m: nat): seq<nat> -> real {
    (order: seq<nat>) => if 2 <= m <= |order| - 2 then Relabelled(fns, kernel, points, m, order) else 0.0
  }

  /** The statistics of the relabellings that the rounds of choices lead to. */
  function NullsOf(fns: Analysis, kernel: Kernel, points: seq<Point>, m: nat, rounds: seq<seq<nat>>): seq<real> {
    var identity := Identity(|points|);
    Scores(RelabelledScore(fns, kernel, points, m), Trace(Reshuffle(), identity, identity, rounds))
  }

  method PermutationNulls(
    fns: Analysis, baseline: seq<Point>, run: seq<Point>, kernel: Kernel, nPermutations: nat, seed: bv64)
    returns (result: Result<(real, seq<real>)>)
    ensures match Validate(baseline, run)
            case Some(error) => result == Err(error)
            case None =>
              && result.Ok?
              && result.value.0 == FromScratch(fns, kernel, baseline, run)
              && result.value.1 ==
                   NullsOf(fns, kernel, baseline + run, |baseline|, Rounds(seed, |baseline + run|, nPermutations))
  {
    var complaint := Validate(baseline, run);
    if complaint.Some? {
      return Err(complaint.value);
    }
    var m, pooled := |baseline|, baseline + run;
    var observed, nulls := PooledNulls(fns, pooled, m, kernel, nPermutations, seed);
    ObservedIsIdentity(fns, kernel, baseline, run);
    result := Ok((observed, nulls));
  }

  lemma ObservedIsIdentity(fns: Analysis, kernel: Kernel, baseline: seq<Point>, run: seq<Point>)
    requires |baseline| >= 2 && |run| >= 2
    ensures Relabelled(fns, kernel, baseline + run, |baseline|, Identity(|baseline + run|))
        == FromScratch(fns, kernel, baseline, run)
  {
    hide FromScratch;
    var identity, m := Identity(|baseline + run|), |baseline|;
    assert Select(baseline + run, identity[..m], []) == baseline;
    assert Select(baseline + run, identity[m..], []) == run;
  }

  /** The statistics still to come, from the relabelling `prev` and the generator's `state` on. */
  ghost function NullsFrom(score: seq<nat> -> real, prev: seq<nat>, state: bv64, n: nat, rounds: nat): seq<real> {
    Scores(score, Trace(Reshuffle(), Identity(n), prev, Rounds(state, n, rounds)))
  }

  lemma NullsFromStart(fns: Analysis, kernel: Kernel, points: seq<Point>, m: nat, seed: bv64, rounds: nat)
    ensures NullsOf(fns, kernel, points, m, Rounds(seed, |points|, rounds))
         == NullsFrom(RelabelledScore(fns, kernel, points, m), Identity(|points|), seed, |points|, rounds)
  {
  }

  lemma NoRounds(score: seq<nat> -> real, prev: seq<nat>, state: bv64, n: nat)
    ensures NullsFrom(score, prev, state, n, 0) == []
  {
  }

  lemma NextRound(score: seq<nat> -> real, prev: seq<nat>, state: bv64, n: nat, rounds: nat)
    requires IsPerm(prev, n) && rounds > 0
    ensures |prev| == n
    ensures var next := Shuffled(prev, DrawnChoices(state, n));
            && IsPerm(next, n)
            && |next| == n
            && NullsFrom(score, prev, state, n, rounds)
                == [score(next)] + NullsFrom(score, next, AfterShuffle(state, n), n, rounds - 1)
  {
    hide DrawnChoices, AfterShuffle, Shuffled, ValidChoices;
    PermFacts(prev, n);
    var choices := DrawnChoices(state, n);
    ShuffledReorders(prev, choices);
    var all := Rounds(state, n, rounds);
    assert all[0] == choices && all[1..] == Rounds(AfterShuffle(state, n), n, rounds - 1);
  }

  /** One matrix serves every relabelling; `perm` stays a permutation, so every lookup is in range. */
  method PooledNulls(fns: Analysis, pooled: seq<Point>, m: nat, kernel: Kernel, nPermutations: nat, seed: bv64)
    returns (observed: real, nulls: seq<real>)
    requires 2 <= m <= |pooled| - 2
    ensures observed == Relabelled(fns, kernel, pooled, m, Identity(|pooled|))
    ensures nulls == NullsOf(fns, kernel, pooled, m, Rounds(seed, |pooled|, nPermutations))
  {
    hide *;
    var total := |pooled|;
    var matrix := GramMatrix(fns, pooled, kernel);
    var gram := matrix[..];
    var perm := new nat[total](i => i);
    assert perm[..] == Identity(total);
    IdentityIsPerm(total);
    ghost var score := RelabelledScore(fns, kernel, pooled, m);
    SharedGramRefines(gram, fns, kernel, pooled, m, perm[..]);
    observed := StatisticFromGram(gram, total, perm[..], m, IsUnbiased(kernel));
    var rng := new SplitMix64(seed);
    nulls := [];
    for b := 0 to nPermutations
      invariant fresh(perm) && fresh(rng)
      invariant perm.Length == total && IsPerm(perm[..], total)
      invariant nulls + NullsFrom(score, perm[..], rng.state, total, nPermutations - b)
             == NullsFrom(score, Identity(total), seed, total, nPermutations)
    {
      NextRound(score, perm[..], rng.state, total, nPermutations - b);
      FisherYates(perm, rng);
      SharedGramRefines(gram, fns, kernel, pooled, m, perm[..]);
      RelabelledScoreAt(fns, kernel, pooled, m, perm[..]);
      var statistic := StatisticFromGram(gram, total, perm[..], m, IsUnbiased(kernel));
      nulls := nulls + [statistic];
    }
    NoRounds(score, perm[..], rng.state, total);
    NullsFromStart(fns, kernel, pooled, m, seed, nPermutations);
  }

  lemma RelabelledScoreAt(fns: Analysis, kernel: Kernel, points: seq<Point>, m: nat, order: seq<nat>)
    requires 2 <= m <= |order| - 2
    ensures RelabelledScore(fns, kernel, points, m)(order) == Relabelled(fns, kernel, points, m, order)
  {
  }

  lemma IdentityIsPerm(n: nat)
    ensures IsPerm(Identity(n), n)
  {
  }

  lemma ValidSizes(x: seq<Point>, y: seq<Point>)
    ensures Validate(x, y) == None ==> |x| >= 2 && |y| >= 2
  {
  }

  lemma NullsCount(fns: Analysis, kernel: Kernel, points: seq<Point>, m: nat, rounds: seq<seq<nat>>)
    ensures |NullsOf(fns, kernel, points, m, rounds)| == |rounds|
  {
  }

  datatype TwoSampleOutcome = TwoSampleOutcome(statistic: real, pValue: real, effectSize: real, nBaseline: nat,
      nRun: nat, nPermutations: nat)

  /** The p-value of two samples when the rounds of choices are `rounds`. */
  function TwoSampleP(fns: Analysis, kernel: Kernel, baseline: seq<Point>, run: seq<Point>, rounds: seq<seq<nat>>): real
    requires |baseline| >= 2 && |run| >= 2
  {
    RankP(FromScratch(fns, kernel, baseline, run), NullsOf(fns, kernel, baseline + run, |baseline|, rounds),
        PERMUTATION_TOLERANCE)
  }

  /** The p-value in full: of the observed statistic and its permuted values, the share that reach the observed one, or
      miss it by no more than a millionth. */
  lemma TwoSamplePIs(fns: Analysis, kernel: Kernel, baseline: seq<Point>, run: seq<Point>, rounds: seq<seq<nat>>)
    requires |baseline| >= 2 && |run| >= 2
    ensures var observed := FromScratch(fns, kernel, baseline, run);
            var nulls := NullsOf(fns, kernel, baseline + run, |baseline|, rounds);
            && |nulls| == |rounds|
            && TwoSampleP(fns, kernel, baseline, run, rounds)
                == Share(1 + |PositionsReaching(nulls, observed - 0.000001)|, 1 + |rounds|)
  {
    hide *;
    TwoSampleIsRank(fns, kernel, baseline, run, rounds);
    NullsCount(fns, kernel, baseline + run, |baseline|, rounds);
    RankPIsShare(FromScratch(fns, kernel, baseline, run), NullsOf(fns, kernel, baseline + run, |baseline|, rounds),
      0.000001);
  }

  lemma TwoSampleIsRank(fns: Analysis, kernel: Kernel, baseline: seq<Point>, run: seq<Point>, rounds: seq<seq<nat>>)
    requires |baseline| >= 2 && |run| >= 2
    ensures TwoSampleP(fns, kernel, baseline, run, rounds)
        == RankP(FromScratch(fns, kernel, baseline, run), NullsOf(fns, kernel, baseline + run, |baseline|, rounds),
             0.000001)
  {
    hide FromScratch, NullsOf, RankP;
  }

  method TwoSampleTest(
    fns: Analysis, baseline: seq<Point>, run: seq<Point>, kernel: Kernel, nPermutations: nat, seed: bv64)
    returns (result: Result<TwoSampleOutcome>)
    ensures match Validate(baseline, run)
            case Some(error) => result == Err(error)
            case None =>
              && result.Ok?
              && result.value.statistic == FromScratch(fns, kernel, baseline, run)
              && result.value.pValue == TwoSampleP(fns, kernel, baseline, run,
                  Rounds(seed, |baseline + run|, nPermutations))
              && result.value.effectSize == StandardizedExcursion(fns, FromScratch(fns, kernel, baseline, run),
                                                                  NullsOf(fns, kernel, baseline + run, |baseline|,
                                                                      Rounds(seed, |baseline + run|, nPermutations)))
              && result.value.nBaseline == |baseline| && result.value.nRun == |run|
                  && result.value.nPermutations == nPermutations
  {
    hide FromScratch, NullsOf, Rounds, NumAtLeast, StandardizedExcursion, Validate;
    var r := PermutationNulls(fns, baseline, run, kernel, nPermutations, seed);
    ValidSizes(baseline, run);
    NullsCount(fns, kernel, baseline + run, |baseline|, Rounds(seed, |baseline + run|, nPermutations));
    match r
    case Err(error) => result := Err(error);
    case Ok((observed, nulls)) =>
      var atLeast := NumAtLeast(nulls, observed - PERMUTATION_TOLERANCE);
      var pValue := Share(1 + atLeast, 1 + nPermutations);
      result := Ok(TwoSampleOutcome(observed, pValue, StandardizedExcursion(fns, observed, nulls), |baseline|, |run|,
          nPermutations));
  }

  // ---------- Exactness ----------

  ghost predicate Follows(moved: seq<seq<nat>>, plain: seq<seq<nat>>, order: seq<nat>, n: nat) {
    && |moved| == |plain|
    && forall b :: 0 <= b < |plain| ==> moved[b] == Select(order, plain[b], 0) && IsPerm(plain[b], n)
  }

  /** Relabelling first and shuffling from the identity is shuffling from the relabelling. */
  lemma {:induction false} TraceSelect(order: seq<nat>, prev: seq<nat>, rounds: seq<seq<nat>>, n: nat, start: seq<nat>)
    requires IsPerm(prev, n) && |order| == n
    requires forall b :: 0 <= b < |rounds| ==> ValidChoices(n, rounds[b])
    ensures Follows(Trace(Reshuffle(), order, Select(order, prev, 0), rounds),
        Trace(Reshuffle(), start, prev, rounds), order, n)
    decreases |rounds|
  {
    hide IsPerm, Shuffled, ValidChoices;
    if rounds != [] {
      StepSelect(order, prev, rounds[0], n);
      var next := Shuffled(prev, rounds[0]);
      TraceSelect(order, next, rounds[1..], n, start);
      UnfoldTrace(order, Select(order, prev, 0), rounds);
      UnfoldTrace(start, prev, rounds);
    }
  }

  lemma UnfoldTrace(start: seq<nat>, prev: seq<nat>, rounds: seq<seq<nat>>)
    requires rounds != [] && ValidChoices(|prev|, rounds[0])
    ensures Trace(Reshuffle(), start, prev, rounds)
         == [Shuffled(prev, rounds[0])] + Trace(Reshuffle(), start, Shuffled(prev, rounds[0]), rounds[1..])
  {
  }

  lemma StepSelect(order: seq<nat>, prev: seq<nat>, choices: seq<nat>, n: nat)
    requires IsPerm(prev, n) && |order| == n && ValidChoices(n, choices)
    ensures |prev| == n && IsPerm(Shuffled(prev, choices), n)
    ensures Shuffled(Select(order, prev, 0), choices) == Select(order, Shuffled(prev, choices), 0)
  {
    PermFacts(prev, n);
    ShuffledReorders(prev, choices);
    ShuffledSelect(order, prev, 0, choices);
  }

  /** A score of the relabelled points at `order` is the score of the points at both relabellings. */
  lemma RelabelTwice(fns: Analysis, kernel: Kernel, points: seq<Point>, m: nat, first: seq<nat>, order: seq<nat>)
    requires |first| == |points| && IsPerm(order, |points|)
    ensures RelabelledScore(fns, kernel, Select(points, first, []), m)(order)
        == RelabelledScore(fns, kernel, points, m)(Select(first, order, 0))
  {
    PermFacts(order, |points|);
    if 2 <= m <= |order| - 2 {
      hide FromScratch;
      var both := Select(first, order, 0);
      assert Select(Select(points, first, []), order[..m], []) == Select(points, both[..m], []);
      assert Select(Select(points, first, []), order[m..], []) == Select(points, both[m..], []);
    }
  }

  /** On a relabelled data set, the observed statistic is the labelling's score, and the nulls are the
      scores of the labellings that its shuffles lead to. */
  lemma RelabelledNulls(
    fns: Analysis, kernel: Kernel, points: seq<Point>, m: nat, start: seq<nat>, rounds: seq<seq<nat>>)
    requires 2 <= m <= |points| - 2 && IsPerm(start, |points|)
    requires forall b :: 0 <= b < |rounds| ==> ValidChoices(|points|, rounds[b])
    ensures |start| == |points|
    ensures var score := RelabelledScore(fns, kernel, points, m);
            var first, second := Select(points, start[..m], []), Select(points, start[m..], []);
            && FromScratch(fns, kernel, first, second) == score(start)
            && NullsOf(fns, kernel, first + second, m, rounds)
                == Scores(score, Trace(Reshuffle(), start, start, rounds))
  {
    hide FromScratch, IsPerm, Relabelled;
    var n := |points|;
    PermFacts(start, n);
    var data, identity := Select(points, start, []), Identity(n);
    SelectSplit(points, start, m, []);
    var plain := Trace(Reshuffle(), identity, identity, rounds);
    var moved := Trace(Reshuffle(), start, start, rounds);
    IdentityIsPerm(n);
    SelectIdentityOrder(start);
    TraceSelect(start, identity, rounds, n, identity);
    var score := RelabelledScore(fns, kernel, points, m);
    forall b | 0 <= b < |rounds| ensures RelabelledScore(fns, kernel, data, m)(plain[b]) == score(moved[b]) {
      RelabelTwice(fns, kernel, points, m, start, plain[b]);
    }
    assert Scores(RelabelledScore(fns, kernel, data, m), plain) == Scores(score, moved);
    RelabelledScoreAt(fns, kernel, points, m, start);
    RelabelledIs(fns, kernel, points, m, start);
  }

  /** The values of a score on the labellings that one shuffle of `start` can lead to. */
  ghost function Reached(score: seq<nat> -> real, start: seq<nat>): set<real> {
    set c | c in Choices(|start|) :: score(Shuffled(start, c))
  }

  lemma ShuffleStays(start: seq<nat>, n: nat, c: seq<nat>)
    requires IsPerm(start, n) && c in Choices(|start|)
    ensures Shuffled(start, c) in Perms(n)
  {
    hide Choices, Perms;
    ShuffledReorders(start, c);
  }

  lemma ShuffleLeadsTo(start: seq<nat>, n: nat, p: seq<nat>) returns (c: seq<nat>)
    requires IsPerm(start, n) && p in Perms(n)
    ensures c in Choices(|start|) && Shuffled(start, c) == p
  {
    hide Choices, Perms;
    c := ShuffledSurjective(start, p);
  }

  /** Whichever labelling is shuffled, the null statistics that can arise are the same: those of all labellings. */
  lemma ReachedIsAll(score: seq<nat> -> real, start: seq<nat>, n: nat)
    requires IsPerm(start, n)
    ensures Reached(score, start) == set p | p in Perms(n) :: score(p)
  {
    hide IsPerm, Choices, Perms, Shuffled;
    var all := set p | p in Perms(n) :: score(p);
    forall v | v in Reached(score, start) ensures v in all {
      var c :| c in Choices(|start|) && score(Shuffled(start, c)) == v;
      ShuffleStays(start, n, c);
    }
    forall v | v in all ensures v in Reached(score, start) {
      var p :| p in Perms(n) && score(p) == v;
      var c := ShuffleLeadsTo(start, n, p);
    }
  }

  /** What the test computes on a relabelled data set is the rank of that relabelling among those
      its shuffles lead to, and a shuffle can lead to the same null statistics whichever labelling was observed. */
  lemma TestIsRank(
    fns: Analysis, kernel: Kernel, points: seq<Point>, m: nat, start: seq<nat>, rounds: seq<seq<nat>>)
    requires 2 <= m <= |points| - 2 && IsPerm(start, |points|)
    requires forall b :: 0 <= b < |rounds| ==> ValidChoices(|points|, rounds[b])
    ensures |start| == |points|
    ensures TwoSampleP(fns, kernel, Select(points, start[..m], []), Select(points, start[m..], []), rounds)
         == OutcomeP(RelabelledScore(fns, kernel, points, m), PERMUTATION_TOLERANCE, Reshuffle(), (start, rounds))
    ensures var score := RelabelledScore(fns, kernel, points, m);
            Reached(score, start) == set p | p in Perms(|points|) :: score(p)
  {
    ReachedIsAll(RelabelledScore(fns, kernel, points, m), start, |points|);
    hide FromScratch, RankP, IsPerm, RelabelledScore, NullsOf, Scores, Trace, Perms, Reached;
    RelabelledNulls(fns, kernel, points, m, start, rounds);
  }

  lemma RelabelledIs(fns: Analysis, kernel: Kernel, points: seq<Point>, m: nat, order: seq<nat>)
    requires 2 <= m <= |order| - 2
    ensures Relabelled(fns, kernel, points, m, order)
        == FromScratch(fns, kernel, Select(points, order[..m], []), Select(points, order[m..], []))
  {
  }

  lemma SelectIdentityOrder(order: seq<nat>)
    ensures Select(order, Identity(|order|), 0) == order
  {
  }

  /** Every labelling of `n` points, with every sequence of choices for `rounds` shuffles. */
  ghost function Experiments(n: nat, rounds: nat): set<(seq<nat>, seq<seq<nat>>)> {
    Outcomes(Perms(n), Choices(n), rounds)
  }

  /** The experiments in which the test of the labelled points reports `alpha` or less. */
  ghost function Significant(
    fns: Analysis, kernel: Kernel, points: seq<Point>, m: nat, rounds: nat, alpha: real): set<(seq<nat>, seq<seq<nat>>)>
    requires 2 <= m <= |points| - 2
  {
    set o | o in Experiments(|points|, rounds)
      && |o.0| == |points|
      && TwoSampleP(fns, kernel, Select(points, o.0[..m], []), Select(points, o.0[m..], []), o.1) <= alpha
  }

  lemma ReshuffleMoves(n: nat)
    ensures Reshuffles(Perms(n), Choices(n), Reshuffle())
  {
    hide Perms, Choices, IsPerm, ValidChoices;
    var step := Reshuffle();
    forall x, prev, d | x in Perms(n) && prev in Perms(n) && d in Choices(n) ensures step(x, prev, d) in Perms(n) {
      StepSelectPlain(prev, d, n);
    }
    forall x, prev, d, e | x in Perms(n) && prev in Perms(n) && d in Choices(n) && e in Choices(n)
      ensures step(x, prev, d) == step(x, prev, e) ==> d == e
    {
      if step(x, prev, d) == step(x, prev, e) {
        PermFacts(prev, n);
        ShuffledInjective(prev, d, e);
      }
    }
  }

  lemma StepSelectPlain(prev: seq<nat>, choices: seq<nat>, n: nat)
    requires IsPerm(prev, n) && ValidChoices(n, choices)
    ensures |prev| == n && IsPerm(Shuffled(prev, choices), n)
  {
    PermFacts(prev, n);
    ShuffledReorders(prev, choices);
  }

  lemma SignificantIsRejected(fns: Analysis, kernel: Kernel, points: seq<Point>, m: nat, rounds: nat, alpha: real)
    requires 2 <= m <= |points| - 2
    ensures Significant(fns, kernel, points, m, rounds, alpha)
         == Rejected(Perms(|points|), Choices(|points|), rounds, Reshuffle(), RelabelledScore(fns, kernel, points, m),
             PERMUTATION_TOLERANCE, alpha)
  {
    hide Perms, Choices, TwoSampleP, OutcomeP, IsPerm, ValidChoices, Reshuffle, RelabelledScore;
    var n, score := |points|, RelabelledScore(fns, kernel, points, m);
    forall o | o in Experiments(n, rounds)
      ensures |o.0| == n
      ensures TwoSampleP(fns, kernel, Select(points, o.0[..m], []), Select(points, o.0[m..], []), o.1)
           == OutcomeP(score, PERMUTATION_TOLERANCE, Reshuffle(), o)
    {
      TestIsRank(fns, kernel, points, m, o.0, o.1);
    }
  }

  /** The permutation test is calibrated. Let every labelling of the pooled points be equally
      likely, and every sequence of shuffle choices: at most a share `alpha` of all experiments end
      with a p-value of `alpha` or less, for either kernel and any number of permutations. */
  lemma PermutationTestExact(fns: Analysis, kernel: Kernel, points: seq<Point>, m: nat, rounds: nat, alpha: real)
    requires 2 <= m <= |points| - 2 && alpha >= 0.0
    ensures AtMostShare(|Significant(fns, kernel, points, m, rounds, alpha)|, |Experiments(|points|, rounds)|, alpha)
  {
    assert PERMUTATION_TOLERANCE >= 0.0;
    hide *;
    ExperimentsAre(|points|, rounds);
    ReshuffleMoves(|points|);
    PermsCount(|points|);
    SignificantIsRejected(fns, kernel, points, m, rounds, alpha);
    MonteCarloExact(Perms(|points|), Choices(|points|), rounds, Reshuffle(), RelabelledScore(fns, kernel, points, m),
        PERMUTATION_TOLERANCE, alpha);
  }

  lemma ExperimentsAre(n: nat, rounds: nat)
    ensures Experiments(n, rounds) == Outcomes(Perms(n), Choices(n), rounds)
  {
  }
}
