/** Choosing the test: per prompt when every cloud allows it, pooled otherwise. */
module Assess {
  import opened Results
  import opened Distances
  import opened TwoSample
  import opened Moments
  import opened PermutationTest
  import opened Assessment

  /** The prompts that have both a cloud and a run sample, numbered as in the probe. */
  function UsablePrompts(baseline: seq<seq<Point>>, run: seq<seq<Point>>): (prompts: seq<UsablePrompt>)
    requires |baseline| == |run|
    ensures Usable(prompts)
  {
    if baseline == [] then []
    else
      var k := |baseline| - 1;
      var init := UsablePrompts(baseline[..k], run[..k]);
      if baseline[k] == [] || run[k] == [] then init else init + [UsablePrompt(k, baseline[k], run[k])]
  }

  /** The usable prompts in their order, each with its own cloud and samples. */
  lemma {:induction false} UsableMeaning(baseline: seq<seq<Point>>, run: seq<seq<Point>>)
    requires |baseline| == |run|
    ensures var prompts := UsablePrompts(baseline, run);
            && (forall i, j :: 0 <= i < j < |prompts| ==> prompts[i].index < prompts[j].index)
            && forall p :: p in prompts <==>
                 p.index < |baseline| && p.cloud == baseline[p.index] != [] && p.samples == run[p.index] != []
  {
    if baseline != [] {
      var k := |baseline| - 1;
      UsableMeaning(baseline[..k], run[..k]);
      var init, prompts := UsablePrompts(baseline[..k], run[..k]), UsablePrompts(baseline, run);
      hide UsablePrompts;
      forall i | 0 <= i < |init| ensures init[i].index < k {
        assert init[i] in init;
      }
    }
  }

  function SmallestCloud(prompts: seq<UsablePrompt>): nat
    requires prompts != []
  {
    var k := |prompts| - 1;
    var size := |prompts[k].cloud|;
    if k == 0 then size
    else
      var rest := SmallestCloud(prompts[..k]);
      if rest <= size then rest else size
  }

  function AllClouds(prompts: seq<UsablePrompt>): seq<Point> {
    if prompts == [] then [] else AllClouds(prompts[..|prompts| - 1]) + prompts[|prompts| - 1].cloud
  }

  function AllSamples(prompts: seq<UsablePrompt>): seq<Point> {
    if prompts == [] then [] else AllSamples(prompts[..|prompts| - 1]) + prompts[|prompts| - 1].samples
  }

  /** Pooling puts the prompts' points one after the other. */
  lemma {:induction false} PoolConcat(a: seq<UsablePrompt>, b: seq<UsablePrompt>, p: UsablePrompt)
    ensures AllClouds(a + b) == AllClouds(a) + AllClouds(b) && AllSamples(a + b) == AllSamples(a) + AllSamples(b)
    ensures AllClouds([p]) == p.cloud && AllSamples([p]) == p.samples
    decreases |b|
  {
    assert [p][..0] == [];
    if b == [] {
      assert a + b == a;
    } else {
      assert (a + b)[..|a + b| - 1] == a + b[..|b| - 1];
      PoolConcat(a, b[..|b| - 1], p);
    }
  }

  /** The p-value that a run is judged by. */
  function RunP(
    fns: Analysis, baseline: seq<seq<Point>>, run: seq<seq<Point>>, config: AssessmentConfig): Result<real> {
    if |baseline| != |run| then Err(Drift)
    else
      var prompts := UsablePrompts(baseline, run);
      if prompts == [] then Err(Drift)
      else if SmallestCloud(prompts) >= 2 then
        match AllScores(fns, prompts, config)
        case Err(error) => Err(error)
        case Ok(scores) => Ok(Verdict(scores, config))
      else
        var clouds, samples := AllClouds(prompts), AllSamples(prompts);
        match Validate(clouds, samples)
        case Some(error) => Err(error)
        case None => Ok(TwoSampleP(fns, config.kernel, clouds, samples,
            Rounds(config.seed, |clouds + samples|, Permutations(config))))
  }

  /** The effect size that the pooled test reports. */
  function PooledEffect(fns: Analysis, clouds: seq<Point>, samples: seq<Point>, config: AssessmentConfig): real
    requires |clouds| >= 2 && |samples| >= 2
  {
    StandardizedExcursion(
      fns, FromScratch(fns, config.kernel, clouds, samples),
      NullsOf(
        fns, config.kernel, clouds + samples, |clouds|,
        Rounds(config.seed, |clouds + samples|, Permutations(config))))
  }

  method AssessPooled(
    fns: Analysis, prompts: seq<UsablePrompt>, config: AssessmentConfig)
    returns (result: Result<DriftAssessment>)
    ensures var clouds, samples := AllClouds(prompts), AllSamples(prompts);
            match Validate(clouds, samples)
            case Some(error) => result == Err(error)
            case None =>
              var p := TwoSampleP(fns, config.kernel, clouds, samples,
                  Rounds(config.seed, |clouds + samples|, Permutations(config)));
              result == Ok(DriftAssessment(p, PooledEffect(fns, clouds, samples, config),
                  SeverityFromP(p, config.targetFpr), []))
  {
    hide Validate, FromScratch, TwoSampleP, Rounds, SeverityFromP, NullsOf, StandardizedExcursion;
    var outcome := TwoSampleTest(fns, AllClouds(prompts), AllSamples(prompts), config.kernel, Permutations(config),
        config.seed);
    match outcome
    case Err(error) => result := Err(error);
    case Ok(o) => result := Ok(DriftAssessment(o.pValue, o.effectSize, SeverityFromP(o.pValue, config.targetFpr), []));
  }

  /** What an assessment that was possible says of the run beyond its p-value and level. */
  ghost predicate Reports(fns: Analysis, prompts: seq<UsablePrompt>, config: AssessmentConfig, verdict: DriftAssessment)
    requires prompts != [] && Usable(prompts)
  {
    if SmallestCloud(prompts) >= 2 then
      var scores := AllScores(fns, prompts, config);
      && scores.Ok? && verdict.effectSize == ObservedTotal(scores.value) / |prompts| as real
      && |verdict.perPrompt| == |prompts|
      && forall i :: 0 <= i < |prompts| ==>
           verdict.perPrompt[i] == PromptDrift(prompts[i].index, scores.value[i].attributionP, |prompts[i].cloud|)
    else
      var clouds, samples := AllClouds(prompts), AllSamples(prompts);
      && Validate(clouds, samples) == None && |clouds| >= 2 && |samples| >= 2
      && verdict.effectSize == PooledEffect(fns, clouds, samples, config) && verdict.perPrompt == []
  }

  /** Assess a run against its baseline. */
  method AssessRun(fns: Analysis, baseline: seq<seq<Point>>, run: seq<seq<Point>>, config: AssessmentConfig)
    returns (result: Result<DriftAssessment>)
    ensures match RunP(fns, baseline, run, config)
            case Err(error) => result == Err(error)
            case Ok(p) =>
              && result.Ok? && result.value.combinedP == p && result.value.level == SeverityFromP(p, config.targetFpr)
              && |baseline| == |run| && UsablePrompts(baseline, run) != []
              && Reports(fns, UsablePrompts(baseline, run), config, result.value)
  {
    hide Validate, TwoSampleP, Rounds, SeverityFromP, Verdict, ObservedTotal, AllScores, UsablePrompts, SmallestCloud,
      AllClouds, AllSamples, PooledEffect;
    if |baseline| != |run| {
      return Err(Drift);
    }
    var prompts := UsablePrompts(baseline, run);
    if prompts == [] {
      return Err(Drift);
    }
    if SmallestCloud(prompts) >= 2 {
      result := AssessPerPrompt(fns, prompts, config);
    } else {
      ValidSizes(AllClouds(prompts), AllSamples(prompts));
      result := AssessPooled(fns, prompts, config);
    }
  }
}
