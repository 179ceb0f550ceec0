/** Means, floored standard deviations, and standardized scores. */
module Moments {
  import opened Sums
  import opened Distances

  const STD_FLOOR: Positive := 0.000001

  function Total(xs: seq<real>): real {
    SumBy((x: real) => x, xs)
  }

  function Mean(xs: seq<real>): real {
    if xs == [] then 0.0 else Total(xs) / |xs| as real
  }

  function SquaredFrom(mean: real): real -> real {
    x => (x - mean) * (x - mean)
  }

  /** The population standard deviation, never below the floor. */
  function Deviation(fns: Analysis, xs: seq<real>): Positive {
    if xs == [] then STD_FLOOR
    else
      var sd := fns.sqrt(SumBy(SquaredFrom(Mean(xs)), xs) / |xs| as real);
      if sd > STD_FLOOR then sd else STD_FLOOR
  }

  function Standard(x: real, mean: real, sd: Positive): real {
    (x - mean) / sd
  }

  function Positively(x: real): (r: real)
    ensures r >= 0.0
  {
    if x > 0.0 then x else 0.0
  }

  /** How far `observed` lies above the nulls, in their deviations. */
  function StandardizedExcursion(fns: Analysis, observed: real, nulls: seq<real>): (r: real)
    ensures r >= 0.0
  {
    if nulls == [] then 0.0 else Positively(Standard(observed, Mean(nulls), Deviation(fns, nulls)))
  }

  /** Every score in deviations from the mean of all of them. */
  function Standardized(fns: Analysis, scores: seq<real>): (z: seq<real>)
    ensures |z| == |scores|
    ensures forall i :: 0 <= i < |scores| ==> z[i] == Standard(scores[i], Mean(scores), Deviation(fns, scores))
  {
    seq(|scores|, i requires 0 <= i < |scores| => Standard(scores[i], Mean(scores), Deviation(fns, scores)))
  }

  lemma MomentsReorder(fns: Analysis, xs: seq<real>, ys: seq<real>)
    requires multiset(xs) == multiset(ys)
    ensures Mean(xs) == Mean(ys) && Deviation(fns, xs) == Deviation(fns, ys)
  {
    assert |xs| == |multiset(xs)| == |ys|;
    SumByReorder((x: real) => x, xs, ys);
    SumByReorder(SquaredFrom(Mean(xs)), xs, ys);
  }
}
