/** Which alerts the drift test can raise at all: the resolution of its p-values against the level of a look. */
module AlertResolution {
  import opened Results
  import opened Keys
  import opened MonteCarlo
  import opened Distances
  import opened TwoSample
  import opened PermutationTest
  import opened Gate
  import opened Assessment
  import opened Assess
  import opened GateLimits
  import opened Floors
  import opened Attained
  import opened AlertEngine

  /** The smallest p-value that the test can report. */
  function Resolution(config: AssessmentConfig): real {
    Share(1, Permutations(config) + 1)
  }

  /** In both modes every p-value lies between the resolution and 1. */
  lemma RunPRange(fns: Analysis, baseline: seq<seq<Point>>, run: seq<seq<Point>>, config: AssessmentConfig)
    ensures var p := RunP(fns, baseline, run, config); p.Ok? ==> Resolution(config) <= p.value <= 1.0
  {
    hide Share, Permutations, SmallestCloud, AllScores, Validate, FromScratch, NullsOf, ObservedTotal, RankP,
      UsablePrompts;
    if |baseline| == |run| {
      var prompts := UsablePrompts(baseline, run);
      if prompts != [] {
        if SmallestCloud(prompts) >= 2 {
          var scores := AllScores(fns, prompts, config);
          if scores.Ok? {
            VerdictRange(scores.value, config);
          }
        } else {
          var clouds, samples := AllClouds(prompts), AllSamples(prompts);
          if Validate(clouds, samples) == None {
            ValidSizes(clouds, samples);
            PooledRange(fns, clouds, samples, config);
          }
        }
      }
    }
  }

  lemma VerdictRange(scores: seq<PromptScore>, config: AssessmentConfig)
    ensures Resolution(config) <= Verdict(scores, config) <= 1.0
  {
    hide RankP, Share, Permutations, ObservedTotal, Pools;
    var draws := DrawRows(config.seed, Pools(scores), Permutations(config));
    RankPRange(ObservedTotal(scores), Totals(Pools(scores), draws), PERMUTATION_TOLERANCE);
  }

  lemma PooledRange(fns: Analysis, clouds: seq<Point>, samples: seq<Point>, config: AssessmentConfig)
    requires |clouds| >= 2 && |samples| >= 2
    ensures var p := TwoSampleP(fns, config.kernel, clouds, samples,
        Rounds(config.seed, |clouds + samples|, Permutations(config)));
            Resolution(config) <= p <= 1.0
  {
    hide RankP, Share, Permutations, FromScratch, NullsOf;
    var rounds := Rounds(config.seed, |clouds + samples|, Permutations(config));
    NullsCount(fns, config.kernel, clouds + samples, |clouds|, rounds);
    RankPRange(
      FromScratch(fns, config.kernel, clouds, samples), NullsOf(fns, config.kernel, clouds + samples, |clouds|, rounds),
      PERMUTATION_TOLERANCE);
  }

  /** The least p-value of a shape is no less than the resolution. */
  lemma LeastPAboveResolution(config: AssessmentConfig, strata: seq<Stratum>)
    ensures LeastP(config, strata) >= Resolution(config)
  {
    hide Permutations, Share, Ties;
    ShareMonotone(1, 1 + Ties(config, strata), 1 + Permutations(config));
  }

  /** A look at a run of these data raises an alert. */
  predicate FiresOn(
    fns: Analysis, baseline: seq<seq<Point>>, run: seq<seq<Point>>, config: AssessmentConfig,
    e: Engine, rule: AlertRule, lastFired: map<Id, int>, spentAlpha: map<Id, real>, now: int, id: Id)
  {
    var p := RunP(fns, baseline, run, config);
    p.Ok? && LookAt(e, DriftReport(p.value), rule, lastFired, spentAlpha, now, id).event.Some?
  }

  /** Some data of the shape raise an alert. */
  ghost predicate CanFire(
    fns: Analysis, shape: Shape, config: AssessmentConfig, e: Engine, rule: AlertRule, lastFired: map<Id, int>,
    spentAlpha: map<Id, real>, now: int, id: Id)
  {
    exists baseline, run ::
      HasShape(baseline, run, shape) && FiresOn(fns, baseline, run, config, e, rule, lastFired, spentAlpha, now, id)
  }

  /** Whatever the data, a look raises an alert only at a level above the least p-value of the data's shape. */
  lemma FiresOnlyAbove(
    fns: Analysis, baseline: seq<seq<Point>>, run: seq<seq<Point>>, shape: Shape, config: AssessmentConfig,
    e: Engine, rule: AlertRule, lastFired: map<Id, int>, spentAlpha: map<Id, real>, now: int, id: Id)
    requires HasShape(baseline, run, shape)
    requires FiresOn(fns, baseline, run, config, e, rule, lastFired, spentAlpha, now, id)
    ensures Judged(StrataOf(shape))
    ensures e.EffectiveAlpha(rule, spentAlpha) > LeastP(config, StrataOf(shape)) >= Resolution(config)
  {
    hide RunP, Resolution, LeastP, StrataOf, Judged, HasShape;
    ShapeFloor(fns, baseline, run, config, shape);
    LeastPAboveResolution(config, StrataOf(shape));
  }

  /** An active rule outside its cooldown can be alerted on by runs of a shape exactly when the shape can be judged
      and the level of the look exceeds the shape's least p-value. */
  lemma CanFireIff(
    fns: Analysis, shape: Shape, config: AssessmentConfig, e: Engine, rule: AlertRule, lastFired: map<Id, int>,
    spentAlpha: map<Id, real>, now: int, id: Id)
    requires IsRoot(fns) && IsExp(fns) && Moderate(config, StrataOf(shape))
    requires rule.active && !e.InCooldown(rule, lastFired, now)
    ensures CanFire(fns, shape, config, e, rule, lastFired, spentAlpha, now, id)
        <==> Judged(StrataOf(shape)) && e.EffectiveAlpha(rule, spentAlpha) > LeastP(config, StrataOf(shape))
  {
    hide RunP, Resolution, LeastP, StrataOf, Judged, HasShape, Moderate, IsRoot, IsExp;
    if Judged(StrataOf(shape)) && e.EffectiveAlpha(rule, spentAlpha) > LeastP(config, StrataOf(shape)) {
      var baseline, run := LeastPAttained(fns, config, shape);
      assert FiresOn(fns, baseline, run, config, e, rule, lastFired, spentAlpha, now, id);
    }
    forall baseline, run |
      HasShape(baseline, run, shape) && FiresOn(fns, baseline, run, config, e, rule, lastFired, spentAlpha, now, id)
      ensures Judged(StrataOf(shape)) && e.EffectiveAlpha(rule, spentAlpha) > LeastP(config, StrataOf(shape))
    {
      FiresOnlyAbove(fns, baseline, run, shape, config, e, rule, lastFired, spentAlpha, now, id);
    }
  }

  /** Some data of the shape get a severity level. */
  ghost predicate CanShow(fns: Analysis, shape: Shape, config: AssessmentConfig) {
    exists baseline, run :: HasShape(baseline, run, shape) && Shows(fns, baseline, run, config)
  }

  predicate Shows(fns: Analysis, baseline: seq<seq<Point>>, run: seq<seq<Point>>, config: AssessmentConfig) {
    var p := RunP(fns, baseline, run, config);
    p.Ok? && SeverityFromP(p.value, config.targetFpr) != NoDrift
  }

  /** Runs of a shape can get a severity level exactly when the configured target exceeds the least p-value. */
  lemma CanShowIff(fns: Analysis, shape: Shape, config: AssessmentConfig)
    requires IsRoot(fns) && IsExp(fns) && Moderate(config, StrataOf(shape))
    ensures CanShow(fns, shape, config)
        <==> Judged(StrataOf(shape)) && Threshold(config.targetFpr) > LeastP(config, StrataOf(shape))
  {
    hide RunP, LeastP, StrataOf, Judged, HasShape, Moderate, IsRoot, IsExp, Threshold;
    if Judged(StrataOf(shape)) && Threshold(config.targetFpr) > LeastP(config, StrataOf(shape)) {
      var baseline, run := LeastPAttained(fns, config, shape);
      assert Shows(fns, baseline, run, config);
    }
    forall baseline, run | HasShape(baseline, run, shape) && Shows(fns, baseline, run, config)
      ensures Judged(StrataOf(shape)) && Threshold(config.targetFpr) > LeastP(config, StrataOf(shape))
    {
      ShapeFloor(fns, baseline, run, config, shape);
    }
  }

  /** The permutations are raised for the configured target alone: with the defaults of 1% and 200
      permutations, a rule with a rate of 0.1% is never alerted on, whatever the data. */
  lemma RuleBelowConfiguredTarget(
    fns: Analysis, baseline: seq<seq<Point>>, run: seq<seq<Point>>, config: AssessmentConfig,
    e: Engine, rule: AlertRule, lastFired: map<Id, int>, spentAlpha: map<Id, real>, now: int, id: Id)
    requires config.targetFpr == 0.01 && config.nPermutations == 200 && rule.targetFpr == 0.001
    requires RunP(fns, baseline, run, config).Ok?
    ensures Permutations(config) == 200 && rule.targetFpr <= Resolution(config)
    ensures LookAt(e, DriftReport(RunP(fns, baseline, run, config).value), rule, lastFired, spentAlpha, now,
        id).event.None?
  {
    hide RunP, Permutations, Resolution;
    HundredNeeded(config);
    RunPRange(fns, baseline, run, config);
  }

  lemma HundredNeeded(config: AssessmentConfig)
    requires config.targetFpr == 0.01 && config.nPermutations == 200
    ensures Permutations(config) == 200 && Resolution(config) >= 0.001
  {
    assert 1.0 / 0.01 == 100.0;
    assert Share(1, 201) >= 0.001;
  }

  /** Nor is a rule whose remaining budget is within the resolution, although each such look still debits it. */
  lemma DebitedButMuted(
    fns: Analysis, baseline: seq<seq<Point>>, run: seq<seq<Point>>, config: AssessmentConfig,
    e: Engine, rule: AlertRule, lastFired: map<Id, int>, spentAlpha: map<Id, real>, now: int, id: Id)
    requires e.sequential.Some? && rule.active && rule.targetFpr > 0.0 && RunP(fns, baseline, run, config).Ok?
    requires 0.0 < e.sequential.value.alphaBudget - SpentBy(spentAlpha, rule.id) <= Resolution(config)
    ensures var look := LookAt(e, DriftReport(RunP(fns, baseline, run, config).value), rule, lastFired, spentAlpha,
        now, id);
            look.event.None? && look.spend.Some?
  {
    RunPRange(fns, baseline, run, config);
    hide RunP, Resolution;
  }
}
