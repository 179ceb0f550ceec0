/** The least p-value that runs of a given shape can report. The shuffles and draws of a run depend on its seed
    and on how many points there are, not on what they are. A draw that only repeats the observed arrangement
    therefore reaches the observed statistic whatever the data. */
module Floors {
  import opened Shuffle
  import opened SplitMix
  import opened MonteCarlo
  import opened Results
  import opened Distances
  import opened Gram
  import opened TwoSample
  import opened GramTotals
  import opened Moments
  import opened PermutationTest
  import opened Gate
  import opened Assessment
  import opened GateExactness
  import opened Assess
  import opened Conformal

  // ---------- Counting ----------

  function Matches<T>(p: T -> bool, xs: seq<T>): (n: nat)
    ensures n <= |xs|
  {
    if xs == [] then 0 else Matches(p, xs[..|xs| - 1]) + if p(xs[|xs| - 1]) then 1 else 0
  }

  lemma {:induction false} MatchesReach<T>(p: T -> bool, xs: seq<T>, values: seq<real>, bar: real)
    requires |xs| == |values| && forall i :: 0 <= i < |xs| && p(xs[i]) ==> values[i] >= bar
    ensures Matches(p, xs) <= NumAtLeast(values, bar)
    ensures (forall i :: 0 <= i < |xs| && values[i] >= bar ==> p(xs[i])) ==> Matches(p, xs) == NumAtLeast(values, bar)
  {
    if xs != [] {
      MatchesReach(p, xs[..|xs| - 1], values[..|xs| - 1], bar);
    }
  }

  // ---------- Relabellings that repeat the observed split ----------

  /** The relabelling makes the same two groups: in the same roles or, when equally large, swapped. */
  predicate SameSplit(order: seq<nat>, m: nat) {
    && m <= |order|
    && ((forall i :: 0 <= i < m ==> order[i] < m) || (2 * m == |order| && forall i :: 0 <= i < m ==> order[i] >= m))
  }

  /** The relabellings that a run's shuffles lead to. */
  function Orders(n: nat, seed: bv64, b: nat): (orders: seq<seq<nat>>)
    ensures |orders| == b
  {
    Trace(Reshuffle(), Identity(n), Identity(n), Rounds(seed, n, b))
  }

  lemma OrdersArePerms(n: nat, seed: bv64, b: nat)
    ensures forall i :: 0 <= i < b ==> IsPerm(Orders(n, seed, b)[i], n)
  {
    hide IsPerm, ValidChoices, Rounds, Reshuffle;
    IdentityIsPerm(n);
    TraceSelect(Identity(n), Identity(n), Rounds(seed, n, b), n, Identity(n));
  }

  lemma FillsGroup(a: multiset<nat>, group: multiset<nat>)
    requires |a| == |group| && forall v :: a[v] <= group[v]
    ensures a == group
  {
    assert a <= group;
    assert |group - a| == 0;
    assert group == a + (group - a);
  }

  lemma IdentityHalves(n: nat, m: nat)
    requires m <= n
    ensures |Identity(n)[..m]| == m && |Identity(n)[m..]| == n - m
    ensures multiset(Identity(n)) == multiset(Identity(n)[..m]) + multiset(Identity(n)[m..])
  {
    assert Identity(n) == Identity(n)[..m] + Identity(n)[m..];
  }

  lemma IdentityBelow(n: nat, m: nat, v: nat)
    requires m <= n
    ensures multiset(Identity(n)[..m])[v] == (if v < m then multiset(Identity(n))[v] else 0)
    ensures multiset(Identity(n)[m..])[v] == (if v < m then 0 else multiset(Identity(n))[v])
  {
    IdentityHalves(n, m);
    var low, high := Identity(n)[..m], Identity(n)[m..];
    assert v in multiset(low) ==> v in low;
    assert v in multiset(high) ==> v in high;
  }

  lemma SplitParts(order: seq<nat>, n: nat, m: nat)
    requires IsPerm(order, n) && m <= |order|
    ensures |order| == n
    ensures multiset(order[..m]) + multiset(order[m..]) == multiset(Identity(n))
  {
    PermFacts(order, n);
    assert order == order[..m] + order[m..];
  }

  /** A group drawn wholly from a group of its own size is that group. */
  lemma GroupWithin(order: seq<nat>, n: nat, m: nat, group: multiset<nat>)
    requires IsPerm(order, n) && m <= |order| && |group| == m
    requires forall v :: v in order[..m] ==> group[v] == multiset(Identity(n))[v]
    ensures multiset(order[..m]) == group
  {
    SplitParts(order, n, m);
    hide IsPerm;
    var a := multiset(order[..m]);
    forall v: nat ensures a[v] <= group[v] {
      assert v in a ==> v in order[..m];
      assert a[v] <= multiset(Identity(n))[v];
    }
    FillsGroup(a, group);
  }

  lemma OtherGroup(a: multiset<nat>, b: multiset<nat>, c: multiset<nat>, d: multiset<nat>)
    requires a + b == c + d && a == c
    ensures b == d
  {
    assert b == (a + b) - a;
    assert d == (c + d) - c;
  }

  /** The first group is the old first group, or the old second group. */
  lemma SameGroups(order: seq<nat>, n: nat, m: nat)
    requires IsPerm(order, n) && SameSplit(order, m)
    ensures |order| == n
    ensures var all := Identity(n);
            (multiset(order[..m]) == multiset(all[..m]) && multiset(order[m..]) == multiset(all[m..]))
            || (2 * m == n && multiset(order[..m]) == multiset(all[m..]) && multiset(order[m..]) == multiset(all[..m]))
  {
    SplitParts(order, n, m);
    IdentityHalves(n, m);
    var all := Identity(n);
    var low, high := multiset(all[..m]), multiset(all[m..]);
    forall v: nat
      ensures low[v] == (if v < m then multiset(all)[v] else 0) && high[v] == (if v < m then 0 else multiset(all)[v])
    {
      IdentityBelow(n, m, v);
    }
    hide IsPerm, Identity;
    if forall i :: 0 <= i < m ==> order[i] < m {
      GroupWithin(order, n, m, low);
      OtherGroup(multiset(order[..m]), multiset(order[m..]), low, high);
    } else {
      GroupWithin(order, n, m, high);
      OtherGroup(multiset(order[..m]), multiset(order[m..]), high, low);
    }
  }

  lemma GroupsDecide(
    fns: Analysis, kernel: Kernel, first: seq<Point>, second: seq<Point>, first': seq<Point>, second': seq<Point>)
    requires |first| >= 2 && |second| >= 2
    requires multiset(first) == multiset(first') && multiset(second) == multiset(second')
    ensures |first'| == |first| && |second'| == |second|
    ensures FromScratch(fns, kernel, first, second) == FromScratch(fns, kernel, first', second')
  {
    hide Settle, Statistic;
    var w := PairWeight(fns, Settle(fns, kernel, first + second));
    StatisticReorder(w, first, second, first', second', IsUnbiased(kernel));
    SettleReorder(fns, kernel, first + second, first' + second');
  }

  /** Whatever the points, such a relabelling has the observed statistic. */
  lemma SameSplitSame(fns: Analysis, kernel: Kernel, points: seq<Point>, m: nat, order: seq<nat>)
    requires 2 <= m <= |points| - 2 && IsPerm(order, |points|) && SameSplit(order, m)
    ensures |order| == |points|
    ensures Relabelled(fns, kernel, points, m, order) == FromScratch(fns, kernel, points[..m], points[m..])
  {
    var n, all := |points|, Identity(|points|);
    SameGroups(order, n, m);
    hide FromScratch, IsPerm, SameSplit;
    assert Select(points, all[..m], []) == points[..m];
    assert Select(points, all[m..], []) == points[m..];
    var first, second := Select(points, order[..m], []), Select(points, order[m..], []);
    if multiset(order[..m]) == multiset(all[..m]) && multiset(order[m..]) == multiset(all[m..]) {
      SelectReorder(points, order[..m], all[..m], []);
      SelectReorder(points, order[m..], all[m..], []);
      GroupsDecide(fns, kernel, first, second, points[..m], points[m..]);
    } else {
      SelectReorder(points, order[..m], all[m..], []);
      SelectReorder(points, order[m..], all[..m], []);
      GroupsDecide(fns, kernel, first, second, points[m..], points[..m]);
      SamplesSwap(fns, kernel, points[m..], points[..m]);
    }
  }

  /** The null of every round that repeats the split is the observed statistic. */
  lemma SameSplitNull(
    fns: Analysis, kernel: Kernel, baseline: seq<Point>, run: seq<Point>, seed: bv64, b: nat, i: nat)
    requires |baseline| >= 2 && |run| >= 2 && i < b
    ensures var n := |baseline + run|;
            var nulls := NullsOf(fns, kernel, baseline + run, |baseline|, Rounds(seed, n, b));
            && |nulls| == b
            && |Orders(n, seed, b)[i]| == n
            && nulls[i] == Relabelled(fns, kernel, baseline + run, |baseline|, Orders(n, seed, b)[i])
            && (SameSplit(Orders(n, seed, b)[i], |baseline|) ==> nulls[i] == FromScratch(fns, kernel, baseline, run))
  {
    var points, m := baseline + run, |baseline|;
    var order := Orders(|points|, seed, b)[i];
    OrdersArePerms(|points|, seed, b);
    PermFacts(order, |points|);
    hide FromScratch, IsPerm, SameSplit, Rounds, Reshuffle;
    assert points[..m] == baseline && points[m..] == run;
    if SameSplit(order, m) {
      SameSplitSame(fns, kernel, points, m, order);
    }
  }

  // ---------- The shape of a run ----------

  /** How many points a usable prompt has, and its number in the probe. */
  datatype Stratum = Stratum(index: nat, cloud: nat, samples: nat)

  function StratumOf(prompt: UsablePrompt): Stratum {
    Stratum(prompt.index, |prompt.cloud|, |prompt.samples|)
  }

  function Strata(prompts: seq<UsablePrompt>): (strata: seq<Stratum>)
    ensures |strata| == |prompts|
    ensures forall i :: 0 <= i < |prompts| ==> strata[i] == StratumOf(prompts[i])
  {
    seq(|prompts|, i requires 0 <= i < |prompts| => StratumOf(prompts[i]))
  }

  function PoolLength(config: AssessmentConfig, stratum: Stratum): nat {
    if stratum.samples >= 2 then Permutations(config) else stratum.cloud + 1
  }

  /** Pools of the lengths that the prompts' pools have. */
  function Blank(config: AssessmentConfig, strata: seq<Stratum>): (pools: seq<seq<real>>)
    ensures |pools| == |strata|
    ensures forall i :: 0 <= i < |strata| ==> |pools[i]| == PoolLength(config, strata[i])
  {
    seq(|strata|, i requires 0 <= i < |strata| => seq(PoolLength(config, strata[i]), _ => 0.0))
  }

  function StratumOrders(config: AssessmentConfig, stratum: Stratum): (orders: seq<seq<nat>>)
    ensures |orders| == Permutations(config)
  {
    Orders(stratum.cloud + stratum.samples, PromptSeed(config, stratum.index), Permutations(config))
  }

  /** The pool entry repeats the observed arrangement: the test point itself, or a round with the same split. */
  predicate Restores(config: AssessmentConfig, stratum: Stratum, pick: nat) {
    if stratum.samples >= 2 then
      pick < Permutations(config) && SameSplit(StratumOrders(config, stratum)[pick], stratum.cloud)
    else pick == 0
  }

  predicate RowRestores(config: AssessmentConfig, strata: seq<Stratum>, row: seq<nat>) {
    |row| == |strata| && forall i :: 0 <= i < |row| ==> Restores(config, strata[i], row[i])
  }

  /** The gate's joint draws. */
  function GateRows(config: AssessmentConfig, strata: seq<Stratum>): (rows: seq<seq<nat>>)
    ensures |rows| == Permutations(config)
  {
    DrawRows(config.seed, Blank(config, strata), Permutations(config))
  }

  /** The joint draws that repeat the observed arrangement in every prompt. */
  function GateTies(config: AssessmentConfig, strata: seq<Stratum>): (z: nat)
    ensures z <= Permutations(config)
  {
    Matches((row: seq<nat>) => RowRestores(config, strata, row), GateRows(config, strata))
  }

  /** The shuffles of the pooled points that repeat the observed split. */
  function PooledTies(config: AssessmentConfig, m: nat, n: nat): (z: nat)
    ensures z <= Permutations(config)
  {
    Matches((order: seq<nat>) => SameSplit(order, m), Orders(n, config.seed, Permutations(config)))
  }

  predicate UsesGate(strata: seq<Stratum>) {
    forall i :: 0 <= i < |strata| ==> strata[i].cloud >= 2
  }

  function CloudTotal(strata: seq<Stratum>): nat {
    if strata == [] then 0 else CloudTotal(strata[..|strata| - 1]) + strata[|strata| - 1].cloud
  }

  function SampleTotal(strata: seq<Stratum>): nat {
    if strata == [] then 0 else SampleTotal(strata[..|strata| - 1]) + strata[|strata| - 1].samples
  }

  function Ties(config: AssessmentConfig, strata: seq<Stratum>): (z: nat)
    ensures z <= Permutations(config)
  {
    if UsesGate(strata) then GateTies(config, strata)
    else PooledTies(config, CloudTotal(strata), CloudTotal(strata) + SampleTotal(strata))
  }

  /** The least p-value that a run of this shape can report. */
  function LeastP(config: AssessmentConfig, strata: seq<Stratum>): real {
    Share(1 + Ties(config, strata), 1 + Permutations(config))
  }

  // ---------- The draws depend on the shape alone ----------

  lemma {:induction false} SameRow(state: bv64, a: seq<seq<real>>, b: seq<seq<real>>)
    requires |a| == |b| && forall i :: 0 <= i < |a| ==> |a[i]| == |b[i]|
    ensures DrawRow(state, a) == DrawRow(state, b) && AfterRow(state, a) == AfterRow(state, b)
    decreases |a|
  {
    hide Draw, After;
    if a != [] {
      assert a[0] == [] <==> b[0] == [];
      SameRow(if a[0] == [] then state else After(state, 1), a[1..], b[1..]);
    }
  }

  lemma {:induction false} SameRows(state: bv64, a: seq<seq<real>>, b: seq<seq<real>>, rounds: nat)
    requires |a| == |b| && forall i :: 0 <= i < |a| ==> |a[i]| == |b[i]|
    ensures DrawRows(state, a, rounds) == DrawRows(state, b, rounds)
    decreases rounds
  {
    hide DrawRow, AfterRow;
    if rounds > 0 {
      SameRow(state, a, b);
      SameRows(AfterRow(state, a), a, b, rounds - 1);
    }
  }

  // ---------- Scored prompts ----------

  /** A pool entry that repeats the observed arrangement holds the observed score. */
  lemma RestoringScore(fns: Analysis, prompt: UsablePrompt, config: AssessmentConfig, score: PromptScore, pick: nat)
    requires prompt.cloud != [] && prompt.samples != []
    requires CheckedScore(fns, prompt, Permutations(config), PromptSeed(config, prompt.index)) == Ok(score)
    ensures |score.nullPool| == PoolLength(config, StratumOf(prompt))
    ensures Restores(config, StratumOf(prompt), pick) ==>
        pick < |score.nullPool| && score.nullPool[pick] == score.zObs
  {
    hide FromScratch, NullsOf, Permutations, PromptSeed, Mean, Deviation, OtherMean, ConformalP, RankP, CheckDims,
      Orders, SameSplit, Rounds;
    if |prompt.samples| >= 2 {
      ValidSizes(prompt.cloud, prompt.samples);
      hide Validate;
      var n, b := |prompt.cloud + prompt.samples|, Permutations(config);
      NullsCount(fns, Energy, prompt.cloud + prompt.samples, |prompt.cloud|,
          Rounds(PromptSeed(config, prompt.index), n, b));
      if Restores(config, StratumOf(prompt), pick) {
        SameSplitNull(fns, Energy, prompt.cloud, prompt.samples, PromptSeed(config, prompt.index), b, pick);
      }
    }
  }

  // ---------- The floor ----------

  lemma ScoredPools(fns: Analysis, prompts: seq<UsablePrompt>, config: AssessmentConfig, scores: seq<PromptScore>)
    requires Usable(prompts) && AllScores(fns, prompts, config) == Ok(scores)
    ensures |scores| == |prompts|
    ensures DrawRows(config.seed, Pools(scores), Permutations(config)) == GateRows(config, Strata(prompts))
  {
    hide AllScores, CheckedScore, Permutations, PromptSeed, PoolLength, Restores, DrawRows;
    EachScored(fns, prompts, config);
    var pools, blank := Pools(scores), Blank(config, Strata(prompts));
    forall i | 0 <= i < |pools| ensures |pools[i]| == |blank[i]| {
      RestoringScore(fns, prompts[i], config, scores[i], 0);
    }
    SameRows(config.seed, pools, blank, Permutations(config));
  }

  /** A joint draw that repeats the observed arrangement everywhere has the observed total. */
  lemma RestoringRow(
    fns: Analysis, prompts: seq<UsablePrompt>, config: AssessmentConfig, scores: seq<PromptScore>, row: seq<nat>)
    requires Usable(prompts) && AllScores(fns, prompts, config) == Ok(scores)
    requires RowRestores(config, Strata(prompts), row)
    ensures |row| == |scores| && DrawTotal(Pools(scores), row) == ObservedTotal(scores)
  {
    hide AllScores, CheckedScore, Permutations, PromptSeed, PoolLength, Restores, DrawTotal, ObservedTotal;
    EachScored(fns, prompts, config);
    forall i | 0 <= i < |row| ensures row[i] < |Pools(scores)[i]| && scores[i].zObs == Pools(scores)[i][row[i]] {
      RestoringScore(fns, prompts[i], config, scores[i], row[i]);
    }
    ObservedIsDraw(scores, Pools(scores), row);
  }

  lemma GateFloor(fns: Analysis, prompts: seq<UsablePrompt>, config: AssessmentConfig, scores: seq<PromptScore>)
    requires Usable(prompts) && AllScores(fns, prompts, config) == Ok(scores)
    ensures Verdict(scores, config) >= Share(1 + GateTies(config, Strata(prompts)), 1 + Permutations(config))
  {
    hide AllScores, Permutations, RowRestores, DrawTotal, ObservedTotal, GateRows, Share, NumAtLeast, Matches;
    ScoredPools(fns, prompts, config, scores);
    var rows, bar := GateRows(config, Strata(prompts)), ObservedTotal(scores) - PERMUTATION_TOLERANCE;
    var totals := Totals(Pools(scores), rows);
    var restores := (row: seq<nat>) => RowRestores(config, Strata(prompts), row);
    forall b | 0 <= b < |rows| && restores(rows[b]) ensures totals[b] >= bar {
      RestoringRow(fns, prompts, config, scores, rows[b]);
    }
    MatchesReach(restores, rows, totals, bar);
    ShareMonotone(1 + Matches(restores, rows), 1 + NumAtLeast(totals, bar), 1 + Permutations(config));
  }

  lemma PooledFloor(fns: Analysis, clouds: seq<Point>, samples: seq<Point>, config: AssessmentConfig)
    requires |clouds| >= 2 && |samples| >= 2
    ensures var n := |clouds + samples|;
            TwoSampleP(fns, config.kernel, clouds, samples, Rounds(config.seed, n, Permutations(config)))
            >= Share(1 + PooledTies(config, |clouds|, n), 1 + Permutations(config))
  {
    hide Permutations, Rounds, FromScratch, NullsOf, SameSplit, Share, NumAtLeast, Matches;
    var n, b := |clouds + samples|, Permutations(config);
    var orders, rounds := Orders(n, config.seed, b), Rounds(config.seed, n, b);
    var nulls := NullsOf(fns, config.kernel, clouds + samples, |clouds|, rounds);
    var bar := FromScratch(fns, config.kernel, clouds, samples) - PERMUTATION_TOLERANCE;
    NullsCount(fns, config.kernel, clouds + samples, |clouds|, rounds);
    var same := (order: seq<nat>) => SameSplit(order, |clouds|);
    forall i | 0 <= i < |orders| && same(orders[i]) ensures nulls[i] >= bar {
      SameSplitNull(fns, config.kernel, clouds, samples, config.seed, b, i);
    }
    MatchesReach(same, orders, nulls, bar);
    ShareMonotone(1 + Matches(same, orders), 1 + NumAtLeast(nulls, bar), 1 + b);
  }

  lemma {:induction false} SmallestIsGate(prompts: seq<UsablePrompt>)
    requires prompts != []
    ensures SmallestCloud(prompts) >= 2 <==> UsesGate(Strata(prompts))
  {
    var k := |prompts| - 1;
    if k > 0 {
      SmallestIsGate(prompts[..k]);
      var strata := Strata(prompts);
      assert Strata(prompts[..k]) == strata[..k];
      assert forall i :: 0 <= i < k ==> strata[..k][i] == strata[i];
    }
  }

  lemma {:induction false} StrataTotals(prompts: seq<UsablePrompt>)
    ensures CloudTotal(Strata(prompts)) == |AllClouds(prompts)|
    ensures SampleTotal(Strata(prompts)) == |AllSamples(prompts)|
  {
    if prompts != [] {
      var k := |prompts| - 1;
      StrataTotals(prompts[..k]);
      assert Strata(prompts[..k]) == Strata(prompts)[..k];
    }
  }

  lemma LeastPIs(config: AssessmentConfig, prompts: seq<UsablePrompt>)
    requires prompts != []
    ensures LeastP(config, Strata(prompts))
         == Share(
              1 + if SmallestCloud(prompts) >= 2 then GateTies(config, Strata(prompts))
                  else PooledTies(config, |AllClouds(prompts)|, |AllClouds(prompts) + AllSamples(prompts)|),
              1 + Permutations(config))
  {
    hide Permutations, GateTies, PooledTies, UsesGate, CloudTotal, SampleTotal, AllClouds, AllSamples, Strata,
      SmallestCloud, Share;
    SmallestIsGate(prompts);
    StrataTotals(prompts);
  }

  /** Which test judges a run with usable prompts. */
  lemma RunPIs(fns: Analysis, baseline: seq<seq<Point>>, run: seq<seq<Point>>, config: AssessmentConfig)
    requires |baseline| == |run| && UsablePrompts(baseline, run) != []
    ensures var prompts := UsablePrompts(baseline, run);
            var clouds, samples := AllClouds(prompts), AllSamples(prompts);
            var p := RunP(fns, baseline, run, config);
            if SmallestCloud(prompts) >= 2 then
              var scores := AllScores(fns, prompts, config);
              (p.Ok? <==> scores.Ok?) && (p.Ok? ==> p == Ok(Verdict(scores.value, config)))
            else
              && (p.Ok? <==> Validate(clouds, samples) == None)
              && (p.Ok? ==> |clouds| >= 2 && |samples| >= 2 && p == Ok(TwoSampleP(fns, config.kernel, clouds, samples,
                                Rounds(config.seed, |clouds + samples|, Permutations(config)))))
  {
    hide UsablePrompts, AllScores, Verdict, Permutations, Rounds, TwoSampleP, SmallestCloud, AllClouds, AllSamples;
    ValidSizes(AllClouds(UsablePrompts(baseline, run)), AllSamples(UsablePrompts(baseline, run)));
    hide Validate;
  }

  lemma SomePrompt(fns: Analysis, baseline: seq<seq<Point>>, run: seq<seq<Point>>, config: AssessmentConfig)
    requires |baseline| == |run| && RunP(fns, baseline, run, config).Ok?
    ensures UsablePrompts(baseline, run) != []
  {
  }

  /** Whatever the data, no run reports less than the least p-value of its shape. */
  lemma RunFloor(fns: Analysis, baseline: seq<seq<Point>>, run: seq<seq<Point>>, config: AssessmentConfig)
    requires |baseline| == |run| && RunP(fns, baseline, run, config).Ok?
    ensures RunP(fns, baseline, run, config).value >= LeastP(config, Strata(UsablePrompts(baseline, run)))
  {
    hide *;
    SomePrompt(fns, baseline, run, config);
    var prompts := UsablePrompts(baseline, run);
    RunPIs(fns, baseline, run, config);
    LeastPIs(config, prompts);
    if SmallestCloud(prompts) >= 2 {
      GateFloor(fns, prompts, config, AllScores(fns, prompts, config).value);
    } else {
      PooledFloor(fns, AllClouds(prompts), AllSamples(prompts), config);
    }
  }

  // ---------- Shapes of data ----------

  /** For every prompt of the probe, how many baseline points and run samples there are. */
  type Shape = seq<(nat, nat)>

  predicate HasShape(baseline: seq<seq<Point>>, run: seq<seq<Point>>, shape: Shape) {
    && |baseline| == |run| == |shape|
    && forall i :: 0 <= i < |shape| ==> |baseline[i]| == shape[i].0 && |run[i]| == shape[i].1
  }

  /** The prompts of a shape that are usable. */
  function StrataOf(shape: Shape): seq<Stratum> {
    if shape == [] then []
    else
      var k := |shape| - 1;
      var init := StrataOf(shape[..k]);
      if shape[k].0 == 0 || shape[k].1 == 0 then init else init + [Stratum(k, shape[k].0, shape[k].1)]
  }

  lemma {:induction false} ShapeDecides(baseline: seq<seq<Point>>, run: seq<seq<Point>>, shape: Shape)
    requires HasShape(baseline, run, shape)
    ensures Strata(UsablePrompts(baseline, run)) == StrataOf(shape)
  {
    if shape != [] {
      var k := |shape| - 1;
      ShapeDecides(baseline[..k], run[..k], shape[..k]);
    }
  }

  /** The assessment gives runs of this shape a p-value: through the gate, or from two pooled samples. */
  predicate Judged(strata: seq<Stratum>) {
    strata != [] && (UsesGate(strata) || (CloudTotal(strata) >= 2 && SampleTotal(strata) >= 2))
  }

  lemma OnlyJudged(fns: Analysis, baseline: seq<seq<Point>>, run: seq<seq<Point>>, config: AssessmentConfig)
    requires |baseline| == |run| && RunP(fns, baseline, run, config).Ok?
    ensures Judged(Strata(UsablePrompts(baseline, run)))
  {
    SomePrompt(fns, baseline, run, config);
    hide *;
    var prompts := UsablePrompts(baseline, run);
    RunPIs(fns, baseline, run, config);
    SmallestIsGate(prompts);
    StrataTotals(prompts);
    JudgedIs(prompts);
  }

  lemma JudgedIs(prompts: seq<UsablePrompt>)
    ensures Judged(Strata(prompts)) <==>
        prompts != [] && (UsesGate(Strata(prompts)) || (CloudTotal(Strata(prompts)) >= 2
            && SampleTotal(Strata(prompts)) >= 2))
  {
    hide UsesGate, CloudTotal, SampleTotal;
  }

  /** Whatever the data, no run of a shape reports less than the shape's least p-value. */
  lemma ShapeFloor(
    fns: Analysis, baseline: seq<seq<Point>>, run: seq<seq<Point>>, config: AssessmentConfig, shape: Shape)
    requires HasShape(baseline, run, shape) && RunP(fns, baseline, run, config).Ok?
    ensures Judged(StrataOf(shape)) && RunP(fns, baseline, run, config).value >= LeastP(config, StrataOf(shape))
  {
    ShapeDecides(baseline, run, shape);
    hide RunP, LeastP, Judged, Strata, StrataOf, UsablePrompts;
    RunFloor(fns, baseline, run, config);
    OnlyJudged(fns, baseline, run, config);
  }
}
