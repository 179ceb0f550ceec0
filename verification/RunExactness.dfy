/** From the exact gate to whole runs: what `Assess.RunP` reports of a run with one sample a prompt. */
module RunExactness {
  import opened Counting
  import opened Sums
  import opened Results
  import opened Distances
  import opened PermutationTest
  import opened Gate
  import opened Assessment
  import opened GateExactness
  import opened Assess
  import opened OnePrompt

  function Clouds(augs: seq<seq<Point>>, h: seq<nat>): (clouds: seq<seq<Point>>)
    requires |h| == |augs| && forall i :: 0 <= i < |h| ==> h[i] < |augs[i]|
    ensures |clouds| == |augs| && forall i :: 0 <= i < |augs| ==> clouds[i] == RemoveAt(augs[i], h[i])
  {
    seq(|augs|, i requires 0 <= i < |augs| => RemoveAt(augs[i], h[i]))
  }

  function Samples(augs: seq<seq<Point>>, h: seq<nat>): (samples: seq<seq<Point>>)
    requires |h| == |augs| && forall i :: 0 <= i < |h| ==> h[i] < |augs[i]|
    ensures |samples| == |augs| && forall i :: 0 <= i < |augs| ==> samples[i] == [augs[i][h[i]]]
  {
    seq(|augs|, i requires 0 <= i < |augs| => [augs[i][h[i]]])
  }

  /** Every prompt has a cloud of at least two points besides the test point, all of one dimension. */
  ghost predicate Assessable(augs: seq<seq<Point>>) {
    augs != [] && forall i :: 0 <= i < |augs| ==>
      |augs[i]| >= 3 && forall j :: 0 <= j < |augs[i]| ==> |augs[i][j]| == |augs[i][0]|
  }

  lemma PrefixUsable(augs: seq<seq<Point>>, h: seq<nat>, k: nat)
    requires IsPosition(augs, h) && k == |augs| - 1
    ensures IsPosition(augs[..k], h[..k])
    ensures Clouds(augs, h)[..k] == Clouds(augs[..k], h[..k]) && Samples(augs, h)[..k] == Samples(augs[..k], h[..k])
    ensures HeldOutPrompts(augs, h) ==
              HeldOutPrompts(augs[..k], h[..k]) + [UsablePrompt(k, Clouds(augs, h)[k], Samples(augs, h)[k])]
  {
    hide RemoveAt;
  }

  lemma {:induction false} AllUsable(augs: seq<seq<Point>>, h: seq<nat>)
    requires IsPosition(augs, h) && forall i :: 0 <= i < |augs| ==> |augs[i]| >= 3
    ensures UsablePrompts(Clouds(augs, h), Samples(augs, h)) == HeldOutPrompts(augs, h)
  {
    hide RemoveAt;
    if augs != [] {
      var k := |augs| - 1;
      AllUsable(augs[..k], h[..k]);
      PrefixUsable(augs, h, k);
      hide Clouds, Samples, HeldOutPrompts;
    }
  }

  lemma {:induction false} CloudsLarge(prompts: seq<UsablePrompt>)
    requires prompts != [] && forall i :: 0 <= i < |prompts| ==> |prompts[i].cloud| >= 2
    ensures SmallestCloud(prompts) >= 2
  {
    if |prompts| > 1 {
      CloudsLarge(prompts[..|prompts| - 1]);
    }
  }

  lemma {:induction false} NoMismatch(points: seq<Point>, dim: nat)
    requires forall i :: 0 <= i < |points| ==> |points[i]| == dim
    ensures FirstMismatch(points, dim) == None
  {
    if points != [] {
      NoMismatch(points[1..], dim);
    }
  }

  lemma HeldOutDims(aug: seq<Point>, h: nat)
    requires h < |aug| && forall j :: 0 <= j < |aug| ==> |aug[j]| == |aug[0]|
    ensures CheckDims(RemoveAt(aug, h), [aug[h]]) == None
  {
    var all := RemoveAt(aug, h) + [aug[h]];
    NoMismatch(all, |aug[h]|);
  }

  /** The draws that the seed yields are joint draws of the experiments. */
  lemma DrawsArePositions(fns: Analysis, augs: seq<seq<Point>>, h: seq<nat>, seed: bv64, rounds: nat)
    requires Augmented(augs) && IsPosition(augs, h)
    ensures var draws := DrawRows(seed, Pools(SingleScores(fns, HeldOutPrompts(augs, h))), rounds);
            |draws| == rounds && forall b :: 0 <= b < rounds ==> |draws[b]| == |augs| && IsPosition(augs, draws[b])
  {
    hide SingleScore, RemoveAt;
    var pools := Pools(SingleScores(fns, HeldOutPrompts(augs, h)));
    forall i | 0 <= i < |augs| ensures |pools[i]| == |augs[i]| {
      HeldOutScore(fns, augs[i], h[i]);
    }
    var draws := DrawRows(seed, pools, rounds);
    forall b | 0 <= b < rounds ensures IsPosition(augs, draws[b]) {
      assert DrawFits(pools, draws[b]);
    }
  }

  function SeededDraws(fns: Analysis, augs: seq<seq<Point>>, h: seq<nat>, config: AssessmentConfig): seq<seq<nat>>
    requires |h| == |augs| && forall i :: 0 <= i < |h| ==> h[i] < |augs[i]| && |augs[i]| >= 2
  {
    DrawRows(config.seed, Pools(SingleScores(fns, HeldOutPrompts(augs, h))), Permutations(config))
  }

  /** A run with one sample a prompt is judged by the gate on its test points and the seed's draws. */
  lemma RunIsGate(fns: Analysis, augs: seq<seq<Point>>, h: seq<nat>, config: AssessmentConfig)
    requires Assessable(augs) && IsPosition(augs, h)
    ensures var draws := SeededDraws(fns, augs, h, config);
            && (forall b :: 0 <= b < |draws| ==> |draws[b]| == |augs| && IsPosition(augs, draws[b]))
            && RunP(fns, Clouds(augs, h), Samples(augs, h), config) == Ok(SingleGateP(fns, augs, h, draws))
  {
    hide SingleScore, RemoveAt, DrawRows, GateP, ObservedTotal, AllScores, Permutations, CheckDims;
    var prompts := HeldOutPrompts(augs, h);
    AllUsable(augs, h);
    CloudsLarge(prompts);
    forall i | 0 <= i < |prompts| ensures CheckDims(prompts[i].cloud, prompts[i].samples) == None {
      HeldOutDims(augs[i], h[i]);
    }
    SinglesAreScored(fns, prompts, config);
    DrawsArePositions(fns, augs, h, config.seed, Permutations(config));
  }

  /** Runs with one sample a prompt: the run's p-value is that of one of the counted experiments, and
      of these at most a share `alpha` are false alarms at `alpha`, however the test points fall. */
  lemma RunFalseAlarms(fns: Analysis, augs: seq<seq<Point>>, h: seq<nat>, config: AssessmentConfig, alpha: real)
    requires Assessable(augs) && IsPosition(augs, h) && alpha >= 0.0
    ensures var b, run := Permutations(config), RunP(fns, Clouds(augs, h), Samples(augs, h), config);
            var o := (h, SeededDraws(fns, augs, h, config));
            && Augmented(augs) && run.Ok? && o in GateExperiments(augs, b)
            && (run.value <= alpha <==> o in GateSignificant(fns, augs, b, alpha))
            && AtMostShare(|GateSignificant(fns, augs, b, alpha)|, |GateExperiments(augs, b)|, alpha)
  {
    hide RunP, SingleGateP, SeededDraws, AtMostShare, Permutations, Clouds, Samples, GateExperiments;
    RunIsGate(fns, augs, h, config);
    SeededCount(fns, augs, h, config);
    IsExperiment(augs, h, SeededDraws(fns, augs, h, config));
    GateExact(fns, augs, Permutations(config), alpha);
  }

  lemma SeededCount(fns: Analysis, augs: seq<seq<Point>>, h: seq<nat>, config: AssessmentConfig)
    requires Augmented(augs) && IsPosition(augs, h)
    ensures |SeededDraws(fns, augs, h, config)| == Permutations(config)
  {
    hide Permutations, Pools;
  }

  lemma IsExperiment(augs: seq<seq<Point>>, h: seq<nat>, draws: seq<seq<nat>>)
    requires IsPosition(augs, h) && forall b :: 0 <= b < |draws| ==> IsPosition(augs, draws[b])
    ensures (h, draws) in GateExperiments(augs, |draws|)
  {
    hide IsPosition;
  }

  // ---------- One prompt, any number of samples ----------

  lemma OnePick(pool: seq<real>, row: seq<nat>)
    requires DrawFits([pool], row)
    ensures |row| == 1 && if pool == [] then row[0] == 0 else row[0] < |pool|
  {
  }

  /** The picks from a single pool that the seed yields. */
  function SeededPicks(pool: seq<real>, config: AssessmentConfig): (picks: seq<nat>)
    ensures |picks| == Permutations(config)
    ensures forall b :: 0 <= b < |picks| ==> if pool == [] then picks[b] == 0 else picks[b] < |pool|
  {
    hide Permutations, DrawFits;
    var rows := DrawRows(config.seed, [pool], Permutations(config));
    assert forall b :: 0 <= b < |rows| ==> |rows[b]| == 1 && if pool == [] then rows[b][0] == 0
        else rows[b][0] < |pool| by {
      forall b | 0 <= b < |rows|
        ensures |rows[b]| == 1 && if pool == [] then rows[b][0] == 0 else rows[b][0] < |pool|
      {
        OnePick(pool, rows[b]);
      }
    }
    seq(|rows|, b requires 0 <= b < |rows| => rows[b][0])
  }

  lemma SeededPicksAreDraws(pool: seq<real>, config: AssessmentConfig)
    ensures Picks(SeededPicks(pool, config)) == DrawRows(config.seed, [pool], Permutations(config))
  {
    hide Permutations;
    var rows := DrawRows(config.seed, [pool], Permutations(config));
    forall b | 0 <= b < |rows| ensures Picks(SeededPicks(pool, config))[b] == rows[b] {
      assert |rows[b]| == 1;
    }
  }

  lemma OnePromptUsable(cloud: seq<Point>, samples: seq<Point>)
    requires |cloud| >= 2 && samples != []
    ensures UsablePrompts([cloud], [samples]) == [UsablePrompt(0, cloud, samples)]
    ensures SmallestCloud([UsablePrompt(0, cloud, samples)]) >= 2
  {
    assert UsablePrompts([cloud][..0], [samples][..0]) == [];
  }

  /** A run of one prompt is judged by `PromptP`, at the shuffles and picks that the seed yields. */
  lemma RunIsPromptP(fns: Analysis, cloud: seq<Point>, samples: seq<Point>, config: AssessmentConfig)
    requires |cloud| >= 2 && samples != [] && CheckDims(cloud, samples) == None
    ensures var rounds := Rounds(PromptSeed(config, 0), |cloud + samples|, Permutations(config));
            var run := RunP(fns, [cloud], [samples], config);
            match ScoreWith(fns, cloud, samples, rounds)
            case Err(error) => run == Err(error)
            case Ok(score) => run == PromptP(fns, cloud, samples, rounds, SeededPicks(score.nullPool, config))
  {
    hide Permutations, PromptSeed, Rounds, ScoreWith, CheckDims, DrawRows, ObservedTotal, GateP, SeededPicks;
    var prompts := [UsablePrompt(0, cloud, samples)];
    OnePromptUsable(cloud, samples);
    OneScore(fns, prompts[0], config);
    var scored := ScoreWith(fns, cloud, samples,
        Rounds(PromptSeed(config, 0), |cloud + samples|, Permutations(config)));
    if scored.Ok? {
      SeededPicksAreDraws(scored.value.nullPool, config);
      assert Pools([scored.value]) == [scored.value.nullPool];
    }
  }

  lemma OneScore(fns: Analysis, prompt: UsablePrompt, config: AssessmentConfig)
    requires prompt.cloud != [] && prompt.samples != []
    ensures AllScores(fns, [prompt], config)
         == match CheckedScore(fns, prompt, Permutations(config), PromptSeed(config, prompt.index))
            case Err(error) => Err(error)
            case Ok(score) => Ok([score])
  {
    hide Permutations, PromptSeed, CheckedScore;
    assert [prompt][1..] == [];
    var first := CheckedScore(fns, prompt, Permutations(config), PromptSeed(config, prompt.index));
    if first.Ok? {
      PrependFacts([first.value], [], Ok([]));
    }
  }
}
