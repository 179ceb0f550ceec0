/** The gate of one prompt under relabelling, for any number of run samples.

    An experiment labels the pooled points (which of them are the cloud, which the run samples),
    makes the choices of every shuffle, and makes the gate's picks. `PromptP` is what the
    assessment computes from these, and everything below counts experiments. */
module OnePrompt {
  import opened Counting
  import opened Grids
  import opened Shuffle
  import opened MonteCarlo
  import opened Resampling
  import opened Results
  import opened Distances
  import opened Gram
  import opened Moments
  import opened TwoSample
  import opened PermutationTest
  import opened Gate
  import opened Assessment

  /** One pick from the single pool per draw. */
  function Picks(picks: seq<nat>): (draws: seq<seq<nat>>)
    ensures |draws| == |picks| && forall b :: 0 <= b < |picks| ==> draws[b] == [picks[b]]
  {
    seq(|picks|, b requires 0 <= b < |picks| => [picks[b]])
  }

  /** The gate's p-value for a single scored prompt. */
  function PicksP(score: PromptScore, picks: seq<nat>): real {
    GateP([score.nullPool], ObservedTotal([score]), Picks(picks))
  }

  /** The gate's p-value for one prompt, given its shuffles and the gate's picks. */
  function PromptP(
    fns: Analysis, cloud: seq<Point>, samples: seq<Point>, rounds: seq<seq<nat>>, picks: seq<nat>): Result<real>
    requires cloud != [] && samples != []
  {
    match ScoreWith(fns, cloud, samples, rounds)
    case Err(error) => Err(error)
    case Ok(score) => Ok(PicksP(score, picks))
  }

  /** How many values the pool holds: the shuffled nulls, or the augmented set of a single sample. */
  function PoolSize(n: nat, m: nat, b: nat): nat {
    if m + 2 <= n then b else n
  }

  type Experiment = ((seq<nat>, seq<seq<nat>>), seq<nat>)

  /** Every labelling of `n` points, with every choice in `b` shuffles and every `b` picks. */
  ghost function PromptExperiments(n: nat, m: nat, b: nat): set<Experiment> {
    Pairs(Experiments(n, b), Seqs(Below(PoolSize(n, m, b)), b))
  }

  /** The labelling makes the first `m` points the cloud, and the gate reports `alpha` or less. */
  ghost predicate Passes(fns: Analysis, points: seq<Point>, m: nat, alpha: real, o: Experiment)
    requires 0 < m < |points|
  {
    && |o.0.0| == |points|
    && var p := PromptP(fns, Select(points, o.0.0[..m], []), Select(points, o.0.0[m..], []), o.0.1, o.1);
       p.Ok? && p.value <= alpha
  }

  ghost function Passing(fns: Analysis, points: seq<Point>, m: nat, b: nat, alpha: real): set<Experiment>
    requires 0 < m < |points|
  {
    set o | o in PromptExperiments(|points|, m, b) && Passes(fns, points, m, alpha, o)
  }

  /** At most a share `level` of the experiments pass the gate at `alpha`. */
  ghost predicate PassesAtMost(fns: Analysis, points: seq<Point>, m: nat, b: nat, alpha: real, level: real)
    requires 0 < m < |points|
  {
    AtMostShare(|Passing(fns, points, m, b, alpha)|, |PromptExperiments(|points|, m, b)|, level)
  }

  // ---------- Several run samples ----------

  lemma {:induction false} HitsReach(values: seq<real>, k: seq<nat>, A: set<nat>, bar: real)
    requires |values| == |k| && forall j :: 0 <= j < |k| && k[j] in A ==> values[j] >= bar
    ensures HitCount(k, A) <= NumAtLeast(values, bar)
    decreases |k|
  {
    if k != [] {
      HitsReach(values[1..], k[1..], A, bar);
      assert values == [values[0]] + values[1..];
      NumAtLeastConcat([values[0]], values[1..], bar);
      assert [values[0]][..0] == [];
    }
  }

  lemma PicksTotals(score: PromptScore, picks: seq<nat>)
    ensures ObservedTotal([score]) == Positively(score.zObs)
    ensures var totals := Totals([score.nullPool], Picks(picks));
            forall j :: 0 <= j < |picks| ==> totals[j] == Pick(score.nullPool, picks[j])
  {
    assert [score][..0] == [];
    forall j | 0 <= j < |picks| ensures DrawTotal([score.nullPool], [picks[j]]) == Pick(score.nullPool, picks[j]) {
      assert DrawTotal([score.nullPool][1..], [picks[j]][1..]) == 0.0;
    }
  }

  lemma StandardMonotone(x: real, y: real, mean: real, sd: Positive)
    requires x <= y
    ensures Standard(x, mean, sd) <= Standard(y, mean, sd)
  {
    DivideMonotone(x - mean, y - mean, sd);
  }

  /** A null that reaches the observed statistic is counted whenever it is picked. */
  lemma PassIsWeak(fns: Analysis, observed: real, nulls: seq<real>, picks: seq<nat>, alpha: real, A: set<nat>)
    requires |picks| == |nulls| && PicksP(EnergyScore(observed, nulls, fns), picks) <= alpha
    requires forall i :: i in A ==> i < |nulls| && nulls[i] >= observed
    ensures HitCount(picks, A) < RankCap(alpha, |nulls| + 1)
  {
    hide Mean, Deviation, RankP, NumAtLeast, HitCount, RankCap, Standard, Totals, ObservedTotal;
    var score := EnergyScore(observed, nulls, fns);
    var totals := Totals([score.nullPool], Picks(picks));
    var bar := Positively(score.zObs) - PERMUTATION_TOLERANCE;
    PicksTotals(score, picks);
    RankPBound(ObservedTotal([score]), totals, PERMUTATION_TOLERANCE, alpha);
    forall j | 0 <= j < |picks| && picks[j] in A ensures totals[j] >= bar {
      StandardMonotone(observed, nulls[picks[j]], Mean(nulls), Deviation(fns, nulls));
    }
    HitsReach(totals, picks, A, bar);
  }

  /** The labellings that an experiment compares, and the gate's picks. */
  function Compared(o: Experiment): (seq<seq<nat>>, seq<nat>) {
    (Tested(Reshuffle(), o.0), o.1)
  }

  /** A passing experiment's p-value, in terms of the scores of the labellings it compares. */
  lemma PassingScore(fns: Analysis, points: seq<Point>, m: nat, b: nat, alpha: real, o: Experiment)
    requires 2 <= m <= |points| - 2
    requires o in PromptExperiments(|points|, m, b) && Passes(fns, points, m, alpha, o)
    ensures |o.1| == b && |Trace(Reshuffle(), o.0.0, o.0.0, o.0.1)| == b
    ensures var score := RelabelledScore(fns, Energy, points, m);
            PicksP(
              EnergyScore(score(o.0.0), Scores(score, Trace(Reshuffle(), o.0.0, o.0.0, o.0.1)), fns), o.1) <= alpha
  {
    hide FromScratch, NullsOf, Relabelled, EnergyScore, RelabelledScore, Validate, PicksP, Perms, Choices, Trace;
    var start, rounds := o.0.0, o.0.1;
    assert start in Perms(|points|) && rounds in Seqs(Choices(|points|), b);
    hide IsPerm, ValidChoices;
    RelabelledNulls(fns, Energy, points, m, start, rounds);
  }

  lemma PassingIsWeak(fns: Analysis, points: seq<Point>, m: nat, b: nat, alpha: real, c: nat, o: Experiment)
    requires 2 <= m <= |points| - 2 && alpha >= 0.0 && c == RankCap(alpha, b + 1)
    requires o in PromptExperiments(|points|, m, b) && Passes(fns, points, m, alpha, o)
    ensures Weak(RelabelledScore(fns, Energy, points, m), c)(Tested(Reshuffle(), o.0), o.1)
  {
    hide RankCap, EnergyScore, RelabelledScore, PicksP, Passes, PromptExperiments, Trace;
    var score, others := RelabelledScore(fns, Energy, points, m), Trace(Reshuffle(), o.0.0, o.0.0, o.0.1);
    PassingScore(fns, points, m, b, alpha, o);
    var t := Tested(Reshuffle(), o.0);
    assert t[1..] == others && t[0] == o.0.0;
    PassIsWeak(fns, score(o.0.0), Scores(score, others), o.1, alpha, Reaching(score, t));
  }

  lemma ComparedInjective(n: nat, b: nat, o: Experiment, o': Experiment)
    requires o.0 in Experiments(n, b) && o'.0 in Experiments(n, b) && Compared(o) == Compared(o')
    ensures o == o'
  {
    hide Perms, Choices;
    ReshuffleMoves(n);
    TestedInjective(Perms(n), Choices(n), b, Reshuffle(), o.0, o'.0);
  }

  lemma ComparedStays(n: nat, b: nat, o: Experiment)
    requires o.0 in Experiments(n, b)
    ensures Tested(Reshuffle(), o.0) in Seqs(Perms(n), b + 1)
  {
    hide Perms, Choices;
    ReshuffleMoves(n);
    TestedStays(Perms(n), Choices(n), b, Reshuffle(), o.0);
  }

  lemma InExperiments(n: nat, m: nat, b: nat, o: Experiment)
    requires m + 2 <= n
    ensures o in PromptExperiments(n, m, b) <==> o.0 in Experiments(n, b) && o.1 in Seqs(Below(b), b)
  {
    hide Experiments, Seqs;
  }

  /** The comparisons in which the start is weak. */
  ghost function WeakComparisons(n: nat, score: seq<nat> -> real, b: nat, c: nat): set<(seq<seq<nat>>, seq<nat>)> {
    Grid(Seqs(Perms(n), b + 1), Seqs(Below(b), b), Weak(score, c))
  }

  lemma PassingCompared(fns: Analysis, points: seq<Point>, m: nat, b: nat, alpha: real, c: nat, o: Experiment)
    requires 2 <= m <= |points| - 2 && alpha >= 0.0 && c == RankCap(alpha, b + 1)
    requires o in Passing(fns, points, m, b, alpha)
    ensures o.0 in Experiments(|points|, b)
    ensures Compared(o) in WeakComparisons(|points|, RelabelledScore(fns, Energy, points, m), b, c)
  {
    hide Perms, Experiments, Seqs, Weak, RelabelledScore, Passes, PromptExperiments, RankCap, Tested;
    InExperiments(|points|, m, b, o);
    PassingIsWeak(fns, points, m, b, alpha, c, o);
    ComparedStays(|points|, b, o);
  }

  lemma PassingBound(fns: Analysis, points: seq<Point>, m: nat, b: nat, alpha: real, c: nat)
    requires 2 <= m <= |points| - 2 && alpha >= 0.0 && c == RankCap(alpha, b + 1)
    ensures |Passing(fns, points, m, b, alpha)|
        <= |WeakComparisons(|points|, RelabelledScore(fns, Energy, points, m), b, c)|
  {
    hide *;
    var passing := Passing(fns, points, m, b, alpha);
    var weak := WeakComparisons(|points|, RelabelledScore(fns, Energy, points, m), b, c);
    forall o | o in passing ensures Compared(o) in weak {
      PassingCompared(fns, points, m, b, alpha, c, o);
    }
    forall o, o' | o in passing && o' in passing && Compared(o) == Compared(o') ensures o == o' {
      PassingCompared(fns, points, m, b, alpha, c, o);
      PassingCompared(fns, points, m, b, alpha, c, o');
      ComparedInjective(|points|, b, o, o');
    }
    InjectionBound(passing, weak, Compared);
  }

  lemma ExperimentsCount(n: nat, m: nat, b: nat)
    requires m + 2 <= n
    ensures |PromptExperiments(n, m, b)| == |Seqs(Perms(n), b + 1)| * |Seqs(Below(b), b)|
  {
    hide Seqs, Perms, Choices, Pairs;
    PermsCount(n);
    OutcomesCount(Perms(n), Choices(n), b);
    PairsCount(Experiments(n, b), Seqs(Below(b), b));
  }

  /** A share of `(b + 1 + c * b) / (b + 1)^2`, where `c <= alpha * (b + 1)`. */
  lemma ShareFromCounts(k: nat, size: nat, b: nat, c: nat, alpha: real)
    requires (b + 1) * (b + 1) * k <= size * (b + 1 + c * b) && c as real <= alpha * (b + 1) as real
    ensures AtMostShare(k, size, (1.0 + alpha * b as real) / (b + 1) as real)
  {
    var n, level := (b + 1) as real, (1.0 + alpha * b as real) / (b + 1) as real;
    ToReals(k, size, b, c);
    Numerator(n, b as real, c as real, alpha, level);
    MultiplyMonotone(n + c as real * b as real, n * (level * n), size as real);
    CancelTwice(n, k as real, size as real, level);
  }

  lemma Numerator(n: real, r: real, c: real, alpha: real, level: real)
    requires n > 0.0 && r >= 0.0 && c <= alpha * n && level == (1.0 + alpha * r) / n
    ensures n + c * r <= n * (level * n)
  {
    MultiplyMonotone(c, alpha * n, r);
    Reassociate(alpha, n, r);
    DividedBack(1.0 + alpha * r, n, level);
  }

  lemma Reassociate(alpha: real, n: real, r: real)
    ensures n + alpha * n * r == n * (1.0 + alpha * r)
  {
  }

  lemma DividedBack(x: real, n: real, q: real)
    requires n > 0.0 && q == x / n
    ensures q * n == x
  {
  }

  lemma CancelTwice(n: real, k: real, size: real, level: real)
    requires n > 0.0 && n * n * k <= n * (level * n) * size
    ensures k <= level * size
  {
    var gap := k - level * size;
    assert n * n * gap == n * n * k - n * (level * n) * size;
    if gap > 0.0 {
      Positives(n, n, gap);
    }
  }

  lemma Positives(x: real, y: real, z: real)
    requires x > 0.0 && y > 0.0 && z > 0.0
    ensures x * y * z > 0.0
  {
    assert x * y > 0.0;
  }

  lemma ToReals(k: nat, size: nat, b: nat, c: nat)
    requires (b + 1) * (b + 1) * k <= size * (b + 1 + c * b)
    ensures var n := (b + 1) as real;
            n * n * k as real <= (n + c as real * b as real) * size as real
  {
    var n := b + 1;
    assert (n * n) as real == n as real * n as real;
    assert (n * n * k) as real == (n * n) as real * k as real;
    assert (c * b) as real == c as real * b as real;
    assert (size * (n + c * b)) as real == size as real * (n + c * b) as real;
  }

  lemma PassingCount(fns: Analysis, points: seq<Point>, m: nat, b: nat, alpha: real, c: nat)
    requires 2 <= m <= |points| - 2 && alpha >= 0.0 && c == RankCap(alpha, b + 1)
    ensures (b + 1) * (b + 1) * |Passing(fns, points, m, b, alpha)|
        <= |PromptExperiments(|points|, m, b)| * (b + 1 + c * b)
  {
    hide *;
    var n, score := |points|, RelabelledScore(fns, Energy, points, m);
    PassingBound(fns, points, m, b, alpha, c);
    ExperimentsCount(n, m, b);
    WeakBound(Perms(n), score, b, c);
    WeakComparisonsAre(n, score, b, c);
    Scale((b + 1) * (b + 1), |Passing(fns, points, m, b, alpha)|, |WeakComparisons(n, score, b, c)|);
  }

  lemma WeakComparisonsAre(n: nat, score: seq<nat> -> real, b: nat, c: nat)
    ensures WeakComparisons(n, score, b, c) == Grid(Seqs(Perms(n), b + 1), Seqs(Below(b), b), Weak(score, c))
  {
  }

  /** Several run samples: whatever the points, the share of experiments that pass the gate at `alpha`
      is at most `(1 + alpha * B) / (B + 1)`, less than one step of the p-value's grid above `alpha`. */
  lemma SeveralSamplesBound(fns: Analysis, points: seq<Point>, m: nat, b: nat, alpha: real)
    requires 2 <= m <= |points| - 2 && alpha >= 0.0
    ensures PassesAtMost(fns, points, m, b, alpha, (1.0 + alpha * b as real) / (b + 1) as real)
  {
    RankCapWithin(alpha, b + 1);
    hide *;
    var c: nat := RankCap(alpha, b + 1);
    PassingCount(fns, points, m, b, alpha, c);
    ShareFromCounts(|Passing(fns, points, m, b, alpha)|, |PromptExperiments(|points|, m, b)|, b, c, alpha);
    IsShare(fns, points, m, b, alpha, (1.0 + alpha * b as real) / (b + 1) as real);
  }

  lemma IsShare(fns: Analysis, points: seq<Point>, m: nat, b: nat, alpha: real, level: real)
    requires 0 < m < |points|
    requires AtMostShare(|Passing(fns, points, m, b, alpha)|, |PromptExperiments(|points|, m, b)|, level)
    ensures PassesAtMost(fns, points, m, b, alpha, level)
  {
  }
}
