/** The drift verdict of a run: per-prompt scores, the gate, the pooled fallback, the severity. */
module Assessment {
  import opened Words
  import opened Counting
  import opened MonteCarlo
  import opened Results
  import opened Distances
  import opened Gram
  import opened TwoSample
  import opened Moments
  import opened PermutationTest
  import opened Conformal
  import opened Gate

  datatype AssessmentConfig = AssessmentConfig(targetFpr: real, kernel: Kernel, nPermutations: nat, seed: bv64)

  datatype DriftLevel = NoDrift | Low | Medium | High | Critical

  /** A prompt with both a baseline cloud and at least one run sample. */
  datatype UsablePrompt = UsablePrompt(index: nat, cloud: seq<Point>, samples: seq<Point>)

  datatype PromptScore = PromptScore(zObs: real, nullPool: seq<real>, attributionP: real)

  datatype PromptDrift = PromptDrift(promptIndex: nat, pValue: real, nBaseline: nat)

  datatype DriftAssessment = DriftAssessment(combinedP: real, effectSize: real, level: DriftLevel,
      perPrompt: seq<PromptDrift>)

  // ---------- Resolution ----------

  /** The smallest positive normal `f32`. */
  const MIN_POSITIVE: Positive := 1.0 / 85070591730234615865843651857942052864.0

  const USIZE_MAX: nat := 0xFFFF_FFFF_FFFF_FFFF

  function Threshold(targetFpr: real): Positive {
    if targetFpr > MIN_POSITIVE then targetFpr else MIN_POSITIVE
  }

  function Ceiling(x: real): int {
    if x.Floor as real == x then x.Floor else x.Floor + 1
  }

  /** `ceil(1 / target)`, saturating at the largest `usize`. */
  function MinPermsForResolution(targetFpr: real): nat
  {
    var needed := Ceiling(1.0 / Threshold(targetFpr));
    if needed > USIZE_MAX then USIZE_MAX else if needed < 0 then 0 else needed
  }

  function Permutations(config: AssessmentConfig): nat {
    var needed := MinPermsForResolution(config.targetFpr);
    if config.nPermutations >= needed then config.nPermutations else needed
  }

  function SeverityFromP(p: real, targetFpr: real): DriftLevel {
    var alpha := Threshold(targetFpr);
    if p >= alpha then NoDrift
    else if p >= alpha / 10.0 then Low
    else if p >= alpha / 100.0 then Medium
    else if p >= alpha / 1000.0 then High
    else Critical
  }

  // ---------- One prompt ----------

  /** The first point of the wrong dimension, the run samples setting the dimension. */
  function CheckDims(cloud: seq<Point>, samples: seq<Point>): Option<DriftError>
    requires samples != []
  {
    match FirstMismatch(cloud + samples, |samples[0]|)
    case Some(actual) => Some(DimensionMismatch(|samples[0]|, actual))
    case None => None
  }

  /** The rank-based score of a single run sample. */
  function SingleScore(fns: Analysis, cloud: seq<Point>, sample: Point): PromptScore
    requires cloud != []
  {
    var scores := ScoresOf(fns, [sample] + cloud);
    var z := Standardized(fns, scores);
    PromptScore(z[0], z, ConformalP(scores))
  }

  /** The energy score of several run samples, standardized against the shuffled nulls alone. */
  function EnergyScore(observed: real, nulls: seq<real>, fns: Analysis): PromptScore {
    PromptScore(Standard(observed, Mean(nulls), Deviation(fns, nulls)), Standardized(fns, nulls),
        RankP(observed, nulls, PERMUTATION_TOLERANCE))
  }

  /** A prompt's score when the rounds of shuffle choices are `rounds`; a single sample uses none. */
  function ScoreWith(fns: Analysis, cloud: seq<Point>, samples: seq<Point>, rounds: seq<seq<nat>>): Result<PromptScore>
    requires cloud != [] && samples != []
  {
    if |samples| >= 2 then
      match Validate(cloud, samples)
      case Some(error) => Err(error)
      case None =>
        Ok(EnergyScore(FromScratch(fns, Energy, cloud, samples),
            NullsOf(fns, Energy, cloud + samples, |cloud|, rounds), fns))
    else
      Ok(SingleScore(fns, cloud, samples[0]))
  }

  function ScoreOf(fns: Analysis, cloud: seq<Point>, samples: seq<Point>, nPerm: nat, seed: bv64): Result<PromptScore>
    requires cloud != [] && samples != []
  {
    ScoreWith(fns, cloud, samples, Rounds(seed, |cloud + samples|, nPerm))
  }

  method ScorePrompt(
    fns: Analysis, cloud: seq<Point>, samples: seq<Point>, nPerm: nat, seed: bv64)
    returns (score: Result<PromptScore>)
    requires cloud != [] && samples != []
    ensures score == ScoreOf(fns, cloud, samples, nPerm, seed)
  {
    hide Validate, FromScratch, NullsOf, Rounds, ScoresOf, ConformalP, RankP, Mean, Deviation;
    if |samples| >= 2 {
      var r := PermutationNulls(fns, cloud, samples, Energy, nPerm, seed);
      match r {
        case Err(error) => score := Err(error);
        case Ok((observed, nulls)) => score := Ok(EnergyScore(observed, nulls, fns));
      }
    } else {
      var scores := AugmentedScores(fns, samples[0], cloud);
      var z := Standardized(fns, scores);
      score := Ok(PromptScore(z[0], z, ConformalP(scores)));
    }
  }

  // ---------- All prompts ----------

  ghost predicate Usable(prompts: seq<UsablePrompt>) {
    forall i :: 0 <= i < |prompts| ==> prompts[i].cloud != [] && prompts[i].samples != []
  }

  /** The seed of a prompt, so that strata are not shuffled in lockstep. */
  function PromptSeed(config: AssessmentConfig, index: nat): bv64 {
    Offset(config.seed, index)
  }

  function CheckedScore(fns: Analysis, prompt: UsablePrompt, nPerm: nat, seed: bv64): Result<PromptScore>
    requires prompt.cloud != [] && prompt.samples != []
  {
    match CheckDims(prompt.cloud, prompt.samples)
    case Some(error) => Err(error)
    case None => ScoreOf(fns, prompt.cloud, prompt.samples, nPerm, seed)
  }

  /** Every prompt's score in order, or the first error. */
  function AllScores(fns: Analysis, prompts: seq<UsablePrompt>, config: AssessmentConfig): (r: Result<seq<PromptScore>>)
    requires Usable(prompts)
    ensures r.Ok? ==> |r.value| == |prompts|
  {
    if prompts == [] then Ok([])
    else
      match CheckedScore(fns, prompts[0], Permutations(config), PromptSeed(config, prompts[0].index))
      case Err(error) => Err(error)
      case Ok(score) =>
        Prepend([score], AllScores(fns, prompts[1..], config))
  }

  function Prepend(scores: seq<PromptScore>, rest: Result<seq<PromptScore>>): Result<seq<PromptScore>> {
    match rest
    case Err(error) => Err(error)
    case Ok(more) => Ok(scores + more)
  }

  lemma PrependFacts(a: seq<PromptScore>, b: seq<PromptScore>, rest: Result<seq<PromptScore>>)
    ensures Prepend(a, Prepend(b, rest)) == Prepend(a + b, rest)
    ensures Prepend([], rest) == rest
    ensures Prepend(a, Ok([])) == Ok(a)
  {
    if rest.Ok? {
      assert a + (b + rest.value) == a + b + rest.value;
      assert [] + rest.value == rest.value;
    }
    assert a + [] == a;
  }

  /** The prompts still to be scored: the next one, or nothing. */
  lemma AllScoresFrom(fns: Analysis, prompts: seq<UsablePrompt>, i: nat, config: AssessmentConfig)
    requires Usable(prompts) && i < |prompts|
    ensures Usable(prompts[i..]) && Usable(prompts[i + 1..])
    ensures AllScores(fns, prompts[i..], config)
         == match CheckedScore(fns, prompts[i], Permutations(config), PromptSeed(config, prompts[i].index))
            case Err(error) => Err(error)
            case Ok(score) => Prepend([score], AllScores(fns, prompts[i + 1..], config))
  {
    assert prompts[i..][1..] == prompts[i + 1..];
  }

  lemma {:induction false} EachScored(fns: Analysis, prompts: seq<UsablePrompt>, config: AssessmentConfig)
    requires Usable(prompts)
    ensures var r := AllScores(fns, prompts, config);
            r.Ok? ==> forall i :: 0 <= i < |prompts| ==>
              CheckedScore(fns, prompts[i], Permutations(config), PromptSeed(config, prompts[i].index))
                  == Ok(r.value[i])
    ensures (forall i :: 0 <= i < |prompts| ==>
              CheckedScore(fns, prompts[i], Permutations(config), PromptSeed(config, prompts[i].index)).Ok?)
            ==> AllScores(fns, prompts, config).Ok?
  {
    hide CheckedScore, Permutations, PromptSeed;
    if prompts != [] {
      EachScored(fns, prompts[1..], config);
      var r := AllScores(fns, prompts, config);
      if r.Ok? {
        var rest := AllScores(fns, prompts[1..], config);
        assert rest.Ok?;
        forall i | 0 <= i < |prompts|
          ensures CheckedScore(fns, prompts[i], Permutations(config), PromptSeed(config, prompts[i].index))
              == Ok(r.value[i])
        {
          if i > 0 {
            assert prompts[i] == prompts[1..][i - 1];
          }
        }
      }
      if forall i :: 0 <= i < |prompts| ==>
          CheckedScore(fns, prompts[i], Permutations(config), PromptSeed(config, prompts[i].index)).Ok?
      {
        forall i | 0 <= i < |prompts[1..]|
          ensures CheckedScore(
              fns, prompts[1..][i], Permutations(config), PromptSeed(config, prompts[1..][i].index)).Ok?
        {
          assert prompts[1..][i] == prompts[i + 1];
        }
      }
    }
  }

  // ---------- Which seed a prompt is shuffled with ----------

  /** Two prompts are never shuffled in lockstep: the states of the generator that they start from differ. */
  lemma PromptSeedsDiffer(config: AssessmentConfig, i: nat, j: nat)
    requires i < 0x1_0000_0000_0000_0000 && j < 0x1_0000_0000_0000_0000 && i != j
    ensures PromptSeed(config, i) != PromptSeed(config, j)
  {
    OffsetsDiffer(config.seed, i, j);
    hide Offset;
  }

  /** The score of a prompt: with several samples the energy distance against the nulls of the prompt's own rounds,
      which start from the configured seed plus the prompt's number, and the p-value of that test; with one sample the
      standardized mean distances, and the share of the points of the augmented set that are as far out as the test
      point. */
  ghost predicate ScoredAs(fns: Analysis, prompt: UsablePrompt, config: AssessmentConfig, score: PromptScore)
    requires prompt.cloud != [] && prompt.samples != []
  {
    var rounds := Rounds(
      Offset(config.seed, prompt.index), |prompt.cloud| + |prompt.samples|, Permutations(config));
    if |prompt.samples| >= 2 then
      && |prompt.cloud| >= 2
      && score == EnergyScore(FromScratch(fns, Energy, prompt.cloud, prompt.samples),
           NullsOf(fns, Energy, prompt.cloud + prompt.samples, |prompt.cloud|, rounds), fns)
      && score.attributionP == TwoSampleP(fns, Energy, prompt.cloud, prompt.samples, rounds)
    else
      var s := ScoresOf(fns, [prompt.samples[0]] + prompt.cloud);
      && score.nullPool == Standardized(fns, s) && score.zObs == score.nullPool[0]
      && score.attributionP == Share(|set i | 0 <= i < |s| && s[i] >= s[0]|, |prompt.cloud| + 1)
  }

  lemma CheckedIs(fns: Analysis, prompt: UsablePrompt, config: AssessmentConfig, score: PromptScore)
    requires prompt.cloud != [] && prompt.samples != []
    requires CheckedScore(fns, prompt, Permutations(config), PromptSeed(config, prompt.index)) == Ok(score)
    ensures ScoredAs(fns, prompt, config, score)
  {
    hide FromScratch, NullsOf, Permutations, Offset, Mean, Deviation, OtherMean, RankP, CheckDims, Rounds,
      Share, NumAtLeast;
    if |prompt.samples| >= 2 {
      ValidSizes(prompt.cloud, prompt.samples);
      hide Validate;
      assert |prompt.cloud + prompt.samples| == |prompt.cloud| + |prompt.samples|;
    } else {
      RankOfTest(ScoresOf(fns, [prompt.samples[0]] + prompt.cloud));
    }
  }

  lemma RankOfTest(s: seq<real>)
    requires s != []
    ensures ConformalP(s) == Share(|set i | 0 <= i < |s| && s[i] >= s[0]|, |s|)
  {
    hide Share, NumAtLeast, RankP;
    assert s == [s[0]] + s[1..];
    RankPIs(s[0], s[1..]);
    NumAtLeastCard(s, s[0]);
    assert (set i | 0 <= i < |s| && s[i] >= s[0]) == set j | j in Below(|s|) && s[j] >= s[0];
  }

  /** Every prompt is scored with its own rounds. */
  lemma PromptScores(fns: Analysis, prompts: seq<UsablePrompt>, config: AssessmentConfig, scores: seq<PromptScore>)
    requires Usable(prompts) && AllScores(fns, prompts, config) == Ok(scores)
    ensures |scores| == |prompts|
    ensures forall k :: 0 <= k < |prompts| ==> ScoredAs(fns, prompts[k], config, scores[k])
  {
    EachScored(fns, prompts, config);
    hide AllScores, CheckedScore, Permutations, PromptSeed, ScoredAs;
    forall k | 0 <= k < |prompts| ensures ScoredAs(fns, prompts[k], config, scores[k]) {
      CheckedIs(fns, prompts[k], config, scores[k]);
    }
  }

  lemma PromptValues(fns: Analysis, prompts: seq<UsablePrompt>, config: AssessmentConfig, scores: seq<PromptScore>)
    requires Usable(prompts) && AllScores(fns, prompts, config) == Ok(scores)
    ensures |scores| == |prompts|
    ensures forall i :: 0 <= i < |prompts| && |prompts[i].samples| >= 2 && |prompts[i].cloud| >= 2 ==>
        scores[i].attributionP == TwoSampleP(fns, Energy, prompts[i].cloud, prompts[i].samples,
            Rounds(Offset(config.seed, prompts[i].index), |prompts[i].cloud| + |prompts[i].samples|,
                   Permutations(config)))
  {
    PromptScores(fns, prompts, config, scores);
    hide AllScores, Permutations, Offset, Rounds, TwoSampleP, EnergyScore, NullsOf, FromScratch;
  }

  lemma AddScore(scores: seq<PromptScore>, score: PromptScore)
    ensures Pools(scores + [score]) == Pools(scores) + [score.nullPool]
    ensures ObservedTotal(scores + [score]) == ObservedTotal(scores) + Positively(score.zObs)
  {
    assert (scores + [score])[..|scores|] == scores;
  }

  function Pools(scores: seq<PromptScore>): (pools: seq<seq<real>>)
    ensures |pools| == |scores| && forall i :: 0 <= i < |scores| ==> pools[i] == scores[i].nullPool
  {
    seq(|scores|, i requires 0 <= i < |scores| => scores[i].nullPool)
  }

  /** The observed aggregate: the positive excursions summed. */
  function ObservedTotal(scores: seq<PromptScore>): real {
    if scores == [] then 0.0 else ObservedTotal(scores[..|scores| - 1]) + Positively(scores[|scores| - 1].zObs)
  }

  /** The effect size is an average: it lies between the least and the greatest positive excursion, however many
      prompts there are. */
  lemma EffectIsAverage(scores: seq<PromptScore>, lo: real, hi: real)
    requires scores != [] && forall i :: 0 <= i < |scores| ==> lo <= Positively(scores[i].zObs) <= hi
    ensures lo <= ObservedTotal(scores) / |scores| as real <= hi
  {
    TotalWithin(scores, lo, hi);
    hide ObservedTotal, Positively;
    QuotientWithin(ObservedTotal(scores), |scores| as real, lo, hi);
  }

  lemma QuotientWithin(total: real, n: real, lo: real, hi: real)
    requires n > 0.0 && lo * n <= total <= hi * n
    ensures lo <= total / n <= hi
  {
    QuotientAtMost(total, n, hi);
    QuotientAtLeast(total, n, lo);
  }

  lemma QuotientAtMost(total: real, n: real, hi: real)
    requires n > 0.0 && total <= hi * n
    ensures total / n <= hi
  {
  }

  lemma QuotientAtLeast(total: real, n: real, lo: real)
    requires n > 0.0 && lo * n <= total
    ensures lo <= total / n
  {
  }

  lemma {:induction false} TotalWithin(scores: seq<PromptScore>, lo: real, hi: real)
    requires forall i :: 0 <= i < |scores| ==> lo <= Positively(scores[i].zObs) <= hi
    ensures Multiple(lo, |scores|) <= ObservedTotal(scores) <= Multiple(hi, |scores|)
  {
    if scores != [] {
      var k := |scores| - 1;
      TotalWithin(scores[..k], lo, hi);
      hide Positively, Multiple;
      OneMoreOf(lo, k);
      OneMoreOf(hi, k);
    }
  }

  function Multiple(x: real, n: nat): real {
    x * n as real
  }

  lemma OneMoreOf(x: real, k: nat)
    ensures Multiple(x, k + 1) == Multiple(x, k) + x
  {
    assert (k + 1) as real == k as real + 1.0;
  }

  /** The verdict on scored prompts. */
  function Verdict(scores: seq<PromptScore>, config: AssessmentConfig): real {
    GateP(Pools(scores), ObservedTotal(scores), DrawRows(config.seed, Pools(scores), Permutations(config)))
  }

  method AssessPerPrompt(
    fns: Analysis, prompts: seq<UsablePrompt>, config: AssessmentConfig)
    returns (result: Result<DriftAssessment>)
    requires prompts != [] && Usable(prompts)
    ensures match AllScores(fns, prompts, config)
            case Err(error) => result == Err(error)
            case Ok(scores) =>
              && result.Ok?
              && result.value.combinedP == Verdict(scores, config)
              && result.value.effectSize == ObservedTotal(scores) / |prompts| as real
              && result.value.level == SeverityFromP(Verdict(scores, config), config.targetFpr)
              && |result.value.perPrompt| == |prompts|
              && forall i :: 0 <= i < |prompts| ==>
                   result.value.perPrompt[i] == PromptDrift(prompts[i].index, scores[i].attributionP,
                       |prompts[i].cloud|)
    ensures result.Ok? ==> |result.value.perPrompt| == |prompts| && forall i :: 0 <= i < |prompts| ==>
              |prompts[i].samples| >= 2 && |prompts[i].cloud| >= 2 ==>
                result.value.perPrompt[i].pValue
                == TwoSampleP(fns, Energy, prompts[i].cloud, prompts[i].samples,
                     Rounds(Offset(config.seed, prompts[i].index), |prompts[i].cloud| + |prompts[i].samples|,
                            Permutations(config)))
  {
    hide CheckDims, ScoreOf, Permutations, PromptSeed, Offset, Rounds, TwoSampleP, GateP, DrawRows, SeverityFromP,
      AllScores, Pools, ObservedTotal, Prepend;
    var nPerm := Permutations(config);
    var perPrompt: seq<PromptDrift> := [];
    var strata: seq<seq<real>> := [];
    var observed := 0.0;
    ghost var scores: seq<PromptScore> := [];
    NoScores();
    PrependFacts([], [], AllScores(fns, prompts, config));
    assert prompts[0..] == prompts;
    for i := 0 to |prompts|
      invariant |scores| == |perPrompt| == i
      invariant strata == Pools(scores) && observed == ObservedTotal(scores)
      invariant forall k :: 0 <= k < i ==>
          perPrompt[k] == PromptDrift(prompts[k].index, scores[k].attributionP, |prompts[k].cloud|)
      invariant Usable(prompts[i..])
      invariant AllScores(fns, prompts, config) == Prepend(scores, AllScores(fns, prompts[i..], config))
    {
      var prompt := prompts[i];
      AllScoresFrom(fns, prompts, i, config);
      var complaint := CheckDims(prompt.cloud, prompt.samples);
      if complaint.Some? {
        PrependError(scores, complaint.value);
        return Err(complaint.value);
      }
      var r := ScorePrompt(fns, prompt.cloud, prompt.samples, nPerm, PromptSeed(config, prompt.index));
      if r.Err? {
        PrependError(scores, r.error);
        return Err(r.error);
      }
      var score := r.value;
      perPrompt := perPrompt + [PromptDrift(prompt.index, score.attributionP, |prompt.cloud|)];
      observed := observed + Positively(score.zObs);
      strata := strata + [score.nullPool];
      PrependFacts(scores, [score], AllScores(fns, prompts[i + 1..], config));
      AddScore(scores, score);
      scores := scores + [score];
    }
    NoPromptsLeft(fns, prompts, config);
    PrependFacts(scores, [], Ok([]));
    PromptValues(fns, prompts, config, scores);
    var p := StratifiedPermutationP(strata, observed, nPerm, config.seed);
    result := Ok(DriftAssessment(p, observed / |prompts| as real, SeverityFromP(p, config.targetFpr), perPrompt));
  }

  lemma NoScores()
    ensures Pools([]) == [] && ObservedTotal([]) == 0.0
  {
  }

  lemma PrependError(scores: seq<PromptScore>, error: DriftError)
    ensures Prepend(scores, Err(error)) == Err(error)
  {
  }

  lemma NoPromptsLeft(fns: Analysis, prompts: seq<UsablePrompt>, config: AssessmentConfig)
    ensures AllScores(fns, prompts[|prompts|..], config) == Ok([])
  {
  }
}
