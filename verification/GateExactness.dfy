/** The gate is exact when every prompt has one run sample: no point of a prompt's augmented set is
    favoured as the test point, and resampling positions reproduces the aggregate's distribution. */
module GateExactness {
  import opened Counting
  import opened Sums
  import opened MonteCarlo
  import opened Results
  import opened Distances
  import opened Moments
  import opened PermutationTest
  import opened Conformal
  import opened Gate
  import opened Assessment

  /** Prompts given by their augmented sets, each with a cloud. */
  ghost predicate Augmented(augs: seq<seq<Point>>) {
    forall i :: 0 <= i < |augs| ==> |augs[i]| >= 2
  }

  ghost function Positions(augs: seq<seq<Point>>): (all: set<seq<nat>>)
    ensures forall h :: h in all <==> IsPosition(augs, h)
  {
    var domains := seq(|augs|, i requires 0 <= i < |augs| => Below(|augs[i]|));
    var all := Tuples(domains);
    forall h ensures h in all <==> IsPosition(augs, h) {
      assert IsTuple(h, domains) <==> IsPosition(augs, h);
    }
    all
  }

  /** One position in each augmented set: a choice of test points, or a joint draw. */
  ghost predicate IsPosition(augs: seq<seq<Point>>, h: seq<nat>) {
    |h| == |augs| && forall i :: 0 <= i < |h| ==> h[i] < |augs[i]|
  }

  /** The prompts that arise when `h` names the test points. */
  function HeldOutPrompts(augs: seq<seq<Point>>, h: seq<nat>): (prompts: seq<UsablePrompt>)
    requires |h| == |augs| && forall i :: 0 <= i < |h| ==> h[i] < |augs[i]|
    ensures |prompts| == |augs|
    ensures forall i :: 0 <= i < |augs| ==> prompts[i] == UsablePrompt(i, RemoveAt(augs[i], h[i]), [augs[i][h[i]]])
  {
    seq(|augs|, i requires 0 <= i < |augs| => UsablePrompt(i, RemoveAt(augs[i], h[i]), [augs[i][h[i]]]))
  }

  function SingleScores(fns: Analysis, prompts: seq<UsablePrompt>): (scores: seq<PromptScore>)
    requires forall i :: 0 <= i < |prompts| ==> prompts[i].cloud != [] && prompts[i].samples != []
    ensures |scores| == |prompts|
    ensures forall i :: 0 <= i < |prompts| ==> scores[i] == SingleScore(fns, prompts[i].cloud, prompts[i].samples[0])
  {
    seq(|prompts|, i requires 0 <= i < |prompts| => SingleScore(fns, prompts[i].cloud, prompts[i].samples[0]))
  }

  lemma SingleIsScored(fns: Analysis, prompt: UsablePrompt, nPerm: nat, seed: bv64)
    requires prompt.cloud != [] && |prompt.samples| == 1 && CheckDims(prompt.cloud, prompt.samples) == None
    ensures CheckedScore(fns, prompt, nPerm, seed) == Ok(SingleScore(fns, prompt.cloud, prompt.samples[0]))
  {
    hide SingleScore, CheckDims;
  }

  /** With one sample a prompt and matching dimensions, the assessment scores are exactly these. */
  lemma {:induction false} SinglesAreScored(fns: Analysis, prompts: seq<UsablePrompt>, config: AssessmentConfig)
    requires Usable(prompts)
    requires forall i :: 0 <= i < |prompts| ==>
        |prompts[i].samples| == 1 && CheckDims(prompts[i].cloud, prompts[i].samples) == None
    ensures AllScores(fns, prompts, config) == Ok(SingleScores(fns, prompts))
  {
    hide SingleScore, CheckDims, Permutations, PromptSeed, CheckedScore, ScoreOf;
    if prompts != [] {
      SingleIsScored(fns, prompts[0], Permutations(config), PromptSeed(config, prompts[0].index));
      SinglesAreScored(fns, prompts[1..], config);
      assert SingleScores(fns, prompts) == [SingleScores(fns, prompts)[0]] + SingleScores(fns, prompts[1..]);
    } else {
      assert SingleScores(fns, prompts) == [];
    }
  }

  // ---------- The pools up to position ----------

  function BasePool(fns: Analysis, aug: seq<Point>): (pool: seq<real>)
    requires |aug| >= 2
    ensures |pool| == |aug|
  {
    Standardized(fns, ScoresOf(fns, aug))
  }

  function BasePools(fns: Analysis, augs: seq<seq<Point>>): (pools: seq<seq<real>>)
    requires forall i :: 0 <= i < |augs| ==> |augs[i]| >= 2
    ensures |pools| == |augs| && forall i :: 0 <= i < |augs| ==> pools[i] == BasePool(fns, augs[i])
  {
    seq(|augs|, i requires 0 <= i < |augs| => BasePool(fns, augs[i]))
  }

  /** Holding out a point moves its standardized score to the front of the pool, and no more. */
  lemma HeldOutScore(fns: Analysis, aug: seq<Point>, h: nat)
    requires |aug| >= 2 && h < |aug|
    ensures var score := SingleScore(fns, RemoveAt(aug, h), aug[h]);
            score.nullPool == ToFront(BasePool(fns, aug), h) && score.zObs == BasePool(fns, aug)[h]
  {
    hide OtherMean, Mean, Deviation, ConformalP;
    ScoresEquivariant(fns, aug, h);
    StandardizedEquivariant(fns, ScoresOf(fns, aug), h);
  }

  /** The joint draw `d` of the reordered pools, in terms of the original positions. */
  function Unheld(h: seq<nat>, d: seq<nat>): (e: seq<nat>)
    requires |h| == |d|
    ensures |e| == |d| && forall i :: 0 <= i < |d| ==> e[i] == Original(h[i], d[i])
  {
    seq(|d|, i requires 0 <= i < |d| => Original(h[i], d[i]))
  }

  lemma {:induction false} DrawsAgree(strata: seq<seq<real>>, base: seq<seq<real>>, h: seq<nat>, d: seq<nat>)
    requires |strata| == |base| == |h| == |d|
    requires forall i :: 0 <= i < |h| ==> h[i] < |base[i]| && d[i] < |base[i]| && strata[i] == ToFront(base[i], h[i])
    ensures DrawTotal(strata, d) == DrawTotal(base, Unheld(h, d))
  {
    if strata != [] {
      assert Unheld(h, d)[1..] == Unheld(h[1..], d[1..]);
      DrawsAgree(strata[1..], base[1..], h[1..], d[1..]);
    }
  }

  lemma {:induction false} ObservedCons(score: PromptScore, rest: seq<PromptScore>)
    ensures ObservedTotal([score] + rest) == Positively(score.zObs) + ObservedTotal(rest)
  {
    if rest == [] {
      assert [score] + rest == [score];
      assert [score][..0] == [];
    } else {
      var k := |rest| - 1;
      assert ([score] + rest)[..|rest|] == [score] + rest[..k];
      ObservedCons(score, rest[..k]);
    }
  }

  lemma {:induction false} ObservedIsDraw(scores: seq<PromptScore>, base: seq<seq<real>>, h: seq<nat>)
    requires |scores| == |base| == |h|
    requires forall i :: 0 <= i < |h| ==> h[i] < |base[i]| && scores[i].zObs == base[i][h[i]]
    ensures ObservedTotal(scores) == DrawTotal(base, h)
  {
    if scores != [] {
      ObservedIsDraw(scores[1..], base[1..], h[1..]);
      assert scores == [scores[0]] + scores[1..];
      ObservedCons(scores[0], scores[1..]);
    }
  }

  // ---------- The gate as a rank test ----------

  /** The gate's p-value when `h` names the test points and `draws` are its joint draws. */
  function SingleGateP(fns: Analysis, augs: seq<seq<Point>>, h: seq<nat>, draws: seq<seq<nat>>): real
    requires |h| == |augs| && forall i :: 0 <= i < |h| ==> h[i] < |augs[i]| && |augs[i]| >= 2
    requires forall b :: 0 <= b < |draws| ==> |draws[b]| == |augs|
  {
    var scores := SingleScores(fns, HeldOutPrompts(augs, h));
    GateP(Pools(scores), ObservedTotal(scores), draws)
  }

  function Aggregate(fns: Analysis, augs: seq<seq<Point>>): seq<nat> -> real
    requires forall i :: 0 <= i < |augs| ==> |augs[i]| >= 2
  {
    var pools := BasePools(fns, augs);
    (e: seq<nat>) => if |e| == |pools| then DrawTotal(pools, e) else 0.0
  }

  function Redraw(): (seq<nat>, seq<nat>, seq<nat>) -> seq<nat> {
    (h: seq<nat>, prev: seq<nat>, d: seq<nat>) => if |h| == |d| then Unheld(h, d) else prev
  }

  lemma HeldOutTotals(fns: Analysis, augs: seq<seq<Point>>, h: seq<nat>, d: seq<nat>)
    requires Augmented(augs) && IsPosition(augs, h) && IsPosition(augs, d)
    ensures var scores := SingleScores(fns, HeldOutPrompts(augs, h));
            && DrawTotal(Pools(scores), d) == Aggregate(fns, augs)(Unheld(h, d))
            && ObservedTotal(scores) == Aggregate(fns, augs)(h)
  {
    hide SingleScore, BasePool, DrawTotal, ObservedTotal;
    var scores, base := SingleScores(fns, HeldOutPrompts(augs, h)), BasePools(fns, augs);
    forall i | 0 <= i < |augs|
      ensures scores[i].nullPool == ToFront(base[i], h[i]) && scores[i].zObs == base[i][h[i]]
    {
      HeldOutScore(fns, augs[i], h[i]);
    }
    DrawsAgree(Pools(scores), base, h, d);
    ObservedIsDraw(scores, base, h);
  }

  lemma {:induction false} RedrawTrace(h: seq<nat>, prev: seq<nat>, draws: seq<seq<nat>>)
    requires forall b :: 0 <= b < |draws| ==> |draws[b]| == |h|
    ensures forall b :: 0 <= b < |draws| ==> Trace(Redraw(), h, prev, draws)[b] == Unheld(h, draws[b])
    decreases |draws|
  {
    if draws != [] {
      var next := Unheld(h, draws[0]);
      RedrawTrace(h, next, draws[1..]);
    }
  }

  /** The gate's p-value is the rank of the test positions among the positions drawn. */
  lemma GateIsRank(fns: Analysis, augs: seq<seq<Point>>, h: seq<nat>, draws: seq<seq<nat>>)
    requires Augmented(augs) && IsPosition(augs, h)
    requires forall b :: 0 <= b < |draws| ==> |draws[b]| == |augs| && IsPosition(augs, draws[b])
    ensures SingleGateP(fns, augs, h, draws)
        == OutcomeP(Aggregate(fns, augs), PERMUTATION_TOLERANCE, Redraw(), (h, draws))
  {
    hide RankP, DrawTotal, ObservedTotal, Aggregate, Unheld;
    var scores, f := SingleScores(fns, HeldOutPrompts(augs, h)), Aggregate(fns, augs);
    RedrawTrace(h, h, draws);
    forall b | 0 <= b < |draws| ensures Totals(Pools(scores), draws)[b] == f(Unheld(h, draws[b])) {
      HeldOutTotals(fns, augs, h, draws[b]);
    }
    HeldOutTotals(fns, augs, h, h);
    assert Totals(Pools(scores), draws) == Scores(f, Trace(Redraw(), h, h, draws));
  }

  lemma RedrawMoves(augs: seq<seq<Point>>)
    ensures Reshuffles(Positions(augs), Positions(augs), Redraw())
  {
    hide Positions;
    var step := Redraw();
    forall h, prev, d, e | IsPosition(augs, h) && IsPosition(augs, d) && IsPosition(augs, e)
      ensures step(h, prev, d) == step(h, prev, e) ==> d == e
    {
      if step(h, prev, d) == step(h, prev, e) {
        forall i | 0 <= i < |d| ensures d[i] == e[i] {
          assert Unheld(h, d)[i] == Unheld(h, e)[i];
        }
      }
    }
  }

  /** The ways to choose every prompt's test point, with `rounds` joint draws. */
  ghost function GateExperiments(augs: seq<seq<Point>>, rounds: nat): set<(seq<nat>, seq<seq<nat>>)> {
    Outcomes(Positions(augs), Positions(augs), rounds)
  }

  ghost function GateSignificant(
    fns: Analysis, augs: seq<seq<Point>>, rounds: nat, alpha: real): set<(seq<nat>, seq<seq<nat>>)>
    requires Augmented(augs)
  {
    set o | o in GateExperiments(augs, rounds) && SingleGateP(fns, augs, o.0, o.1) <= alpha
  }

  lemma SignificantIsRejected(fns: Analysis, augs: seq<seq<Point>>, rounds: nat, alpha: real)
    requires Augmented(augs)
    ensures GateSignificant(fns, augs, rounds, alpha)
         == Rejected(Positions(augs), Positions(augs), rounds, Redraw(), Aggregate(fns, augs), PERMUTATION_TOLERANCE,
             alpha)
  {
    hide Positions, SingleGateP, OutcomeP, Redraw, Aggregate;
    forall o | o in GateExperiments(augs, rounds)
      ensures SingleGateP(fns, augs, o.0, o.1) == OutcomeP(Aggregate(fns, augs), PERMUTATION_TOLERANCE, Redraw(), o)
    {
      GateIsRank(fns, augs, o.0, o.1);
    }
  }

  /** The gate is calibrated with one run sample per prompt. Let every choice of test points be
      equally likely, and every sequence of joint draws: at most a share `alpha` of all experiments
      pass the gate at `alpha`, whatever the data and however many draws it makes. */
  lemma GateExact(fns: Analysis, augs: seq<seq<Point>>, rounds: nat, alpha: real)
    requires Augmented(augs) && alpha >= 0.0
    ensures AtMostShare(|GateSignificant(fns, augs, rounds, alpha)|, |GateExperiments(augs, rounds)|, alpha)
  {
    assert PERMUTATION_TOLERANCE >= 0.0;
    hide Reshuffles, Positions, Rejected, GateSignificant, Redraw, Aggregate, Outcomes, AtMostShare;
    RedrawMoves(augs);
    SignificantIsRejected(fns, augs, rounds, alpha);
    MonteCarloExact(Positions(augs), Positions(augs), rounds, Redraw(), Aggregate(fns, augs), PERMUTATION_TOLERANCE,
        alpha);
  }
}
