/** The run-level gate: one positive excursion per prompt, resampled stratum by stratum. */
module Gate {
  import opened MonteCarlo
  import opened SplitMix
  import opened Moments
  import opened PermutationTest

  /** The positive excursion picked from a pool; an empty pool contributes nothing. */
  function Pick(pool: seq<real>, index: nat): (r: real)
    ensures r >= 0.0
  {
    if index < |pool| then Positively(pool[index]) else 0.0
  }

  /** The aggregate statistic of one joint draw. */
  function DrawTotal(strata: seq<seq<real>>, draw: seq<nat>): (t: real)
    requires |draw| == |strata|
    ensures t >= 0.0
  {
    if strata == [] then 0.0
    else Pick(strata[0], draw[0]) + DrawTotal(strata[1..], draw[1..])
  }

  /** A draw names one position of each pool (and 0 for a pool that has none). */
  predicate DrawFits(strata: seq<seq<real>>, draw: seq<nat>) {
    && |draw| == |strata|
    && forall i :: 0 <= i < |draw| ==> if strata[i] == [] then draw[i] == 0 else draw[i] < |strata[i]|
  }

  function Totals(strata: seq<seq<real>>, draws: seq<seq<nat>>): (t: seq<real>)
    requires forall b :: 0 <= b < |draws| ==> |draws[b]| == |strata|
    ensures |t| == |draws| && forall b :: 0 <= b < |draws| ==> t[b] == DrawTotal(strata, draws[b])
  {
    seq(|draws|, b requires 0 <= b < |draws| => DrawTotal(strata, draws[b]))
  }

  /** The gate's p-value for an observed aggregate and given joint draws. */
  function GateP(strata: seq<seq<real>>, observed: real, draws: seq<seq<nat>>): real
    requires forall b :: 0 <= b < |draws| ==> |draws[b]| == |strata|
  {
    RankP(observed, Totals(strata, draws), PERMUTATION_TOLERANCE)
  }

  /** The gate's p-value in full: of the observed aggregate and the drawn ones, the share that reach the observed one,
      or miss it by no more than a millionth. */
  lemma GatePValue(strata: seq<seq<real>>, observed: real, draws: seq<seq<nat>>)
    requires forall b :: 0 <= b < |draws| ==> |draws[b]| == |strata|
    ensures GateP(strata, observed, draws)
        == Share(1 + |PositionsReaching(Totals(strata, draws), observed - 0.000001)|, 1 + |draws|)
  {
    hide DrawTotal, RankP, Share, PositionsReaching;
    RankPIsShare(observed, Totals(strata, draws), 0.000001);
  }

  // ---------- Draws made by the generator ----------

  function DrawRow(state: bv64, strata: seq<seq<real>>): (draw: seq<nat>)
    ensures |draw| == |strata| && DrawFits(strata, draw)
    decreases |strata|
  {
    if strata == [] then []
    else if strata[0] == [] then [0] + DrawRow(state, strata[1..])
    else [Draw(state, |strata[0]|)] + DrawRow(After(state, 1), strata[1..])
  }

  function AfterRow(state: bv64, strata: seq<seq<real>>): bv64
    decreases |strata|
  {
    if strata == [] then state
    else AfterRow(if strata[0] == [] then state else After(state, 1), strata[1..])
  }

  function DrawRows(state: bv64, strata: seq<seq<real>>, rounds: nat): (draws: seq<seq<nat>>)
    ensures |draws| == rounds && forall b :: 0 <= b < rounds ==> |draws[b]| == |strata| && DrawFits(strata, draws[b])
    decreases rounds
  {
    if rounds == 0 then [] else [DrawRow(state, strata)] + DrawRows(AfterRow(state, strata), strata, rounds - 1)
  }

  method OneDraw(strata: seq<seq<real>>, rng: SplitMix64) returns (t: real)
    modifies rng
    ensures t == DrawTotal(strata, DrawRow(old(rng.state), strata))
    ensures rng.state == AfterRow(old(rng.state), strata)
  {
    hide Draw, After;
    t := 0.0;
    for i := 0 to |strata|
      invariant t + DrawTotal(strata[i..], DrawRow(rng.state, strata[i..]))
          == DrawTotal(strata, DrawRow(old(rng.state), strata))
      invariant AfterRow(rng.state, strata[i..]) == AfterRow(old(rng.state), strata)
    {
      var pool := strata[i];
      assert strata[i..][0] == pool && strata[i..][1..] == strata[i + 1..];
      if pool == [] {
        continue;
      }
      var index := rng.NextBounded(|pool|);
      t := t + Positively(pool[index]);
    }
  }

  function TotalsFrom(strata: seq<seq<real>>, state: bv64, rounds: nat): seq<real> {
    Totals(strata, DrawRows(state, strata, rounds))
  }

  lemma NoTotals(strata: seq<seq<real>>, state: bv64)
    ensures TotalsFrom(strata, state, 0) == []
  {
  }

  lemma NextTotal(strata: seq<seq<real>>, state: bv64, rounds: nat)
    requires rounds > 0
    ensures TotalsFrom(strata, state, rounds)
         == [DrawTotal(strata, DrawRow(state, strata))] + TotalsFrom(strata, AfterRow(state, strata), rounds - 1)
  {
    var all := DrawRows(state, strata, rounds);
    hide DrawTotal, DrawRow, AfterRow, DrawFits;
    assert all[0] == DrawRow(state, strata) && all[1..] == DrawRows(AfterRow(state, strata), strata, rounds - 1);
    FirstTotal(strata, all);
  }

  lemma FirstTotal(strata: seq<seq<real>>, draws: seq<seq<nat>>)
    requires draws != [] && forall b :: 0 <= b < |draws| ==> |draws[b]| == |strata|
    ensures Totals(strata, draws) == [DrawTotal(strata, draws[0])] + Totals(strata, draws[1..])
  {
    hide DrawTotal;
  }

  lemma GatePIs(strata: seq<seq<real>>, observed: real, seed: bv64, nPerm: nat)
    ensures |TotalsFrom(strata, seed, nPerm)| == nPerm
    ensures GateP(strata, observed, DrawRows(seed, strata, nPerm))
         == Share(1 + NumAtLeast(TotalsFrom(strata, seed, nPerm), observed - PERMUTATION_TOLERANCE), 1 + nPerm)
  {
  }

  lemma OneMore(totals: seq<real>, t: real, bar: real)
    ensures NumAtLeast(totals + [t], bar) == NumAtLeast(totals, bar) + if t >= bar then 1 else 0
  {
    assert (totals + [t])[..|totals|] == totals;
  }

  method StratifiedPermutationP(strata: seq<seq<real>>, observed: real, nPerm: nat, seed: bv64) returns (p: real)
    ensures p == GateP(strata, observed, DrawRows(seed, strata, nPerm))
  {
    hide *;
    var rng := new SplitMix64(seed);
    var atLeast := 0;
    var bar := observed - PERMUTATION_TOLERANCE;
    ghost var totals: seq<real> := [];
    NumAtLeastNone(bar);
    for b := 0 to nPerm
      invariant fresh(rng)
      invariant totals + TotalsFrom(strata, rng.state, nPerm - b) == TotalsFrom(strata, seed, nPerm)
      invariant atLeast == NumAtLeast(totals, bar)
    {
      NextTotal(strata, rng.state, nPerm - b);
      var t := OneDraw(strata, rng);
      OneMore(totals, t, bar);
      totals := totals + [t];
      if t >= bar {
        atLeast := atLeast + 1;
      }
    }
    NoTotals(strata, rng.state);
    assert totals + [] == totals;
    GatePIs(strata, observed, seed, nPerm);
    p := Share(1 + atLeast, 1 + nPerm);
  }

  lemma NumAtLeastNone(bar: real)
    ensures NumAtLeast([], bar) == 0
  {
  }
}
