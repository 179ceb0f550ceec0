/** The Gram matrix and the two-sample statistic read from it. */
module Gram {
  import opened Arithmetic
  import opened Distances

  datatype Width = Finite(value: real) | NotFinite

  datatype Kernel = Rbf(bandwidth: Width) | Energy

  /** A kernel whose bandwidth has been settled. */
  datatype Pairing = Gaussian(twoSigmaSq: Positive) | NegativeDistance

  function Scaled(x: Positive, y: Positive): Positive {
    x * y
  }

  /** `2 * bandwidth * bandwidth`. */
  function TwoSigmaSq(bandwidth: Positive): Positive {
    Scaled(Scaled(2.0, bandwidth), bandwidth)
  }

  /** A usable bandwidth is taken as given; any other falls back to the pooled median. */
  function Settle(fns: Analysis, kernel: Kernel, points: seq<Point>): Pairing {
    match kernel
    case Energy => NegativeDistance
    case Rbf(width) =>
      Gaussian(TwoSigmaSq(if width.Finite? && width.value > 0.0 then width.value else MedianBandwidth(fns, points)))
  }

  function PairValue(fns: Analysis, pairing: Pairing, a: Point, b: Point): real {
    match pairing
    case Gaussian(twoSigmaSq) => fns.exp(-SqDist(a, b) / twoSigmaSq)
    case NegativeDistance => -fns.sqrt(SqDist(a, b))
  }

  function PairWeight(fns: Analysis, pairing: Pairing): (Point, Point) -> real {
    (a, b) => PairValue(fns, pairing, a, b)
  }

  /** `-x / (2 * s * s)`. */
  function Exponent(x: real, s: Positive): real {
    WidthIs(s);
    -x / (2.0 * s * s)
  }

  /** The kernel of two points of a sample: the negative distance, or a Gaussian whose width is the one given where
      that is a positive number, and the pooled median distance otherwise. */
  function KernelOf(fns: Analysis, kernel: Kernel, points: seq<Point>, a: Point, b: Point): real {
    match kernel
    case Energy => -fns.sqrt(SqDist(a, b))
    case Rbf(width) =>
      if width.Finite? && width.value > 0.0 then fns.exp(Exponent(SqDist(a, b), width.value))
      else fns.exp(Exponent(SqDist(a, b), MedianBandwidth(fns, points)))
  }

  lemma SettledPair(fns: Analysis, kernel: Kernel, points: seq<Point>, a: Point, b: Point)
    ensures PairValue(fns, Settle(fns, kernel, points), a, b) == KernelOf(fns, kernel, points, a, b)
  {
    hide SqDist, MedianOf;
    if kernel.Rbf? {
      var width := kernel.bandwidth;
      ExponentIs(SqDist(a, b), MedianBandwidth(fns, points));
      if width.Finite? && width.value > 0.0 {
        ExponentIs(SqDist(a, b), width.value);
      }
    }
    hide TwoSigmaSq, Exponent;
  }

  lemma ExponentIs(x: real, s: Positive)
    ensures Exponent(x, s) == -x / TwoSigmaSq(s)
  {
    WidthIs(s);
  }

  lemma WidthIs(s: Positive)
    ensures TwoSigmaSq(s) == 2.0 * s * s > 0.0
  {
  }

  /** Points at distance 1 under a width of 1. */
  lemma UnitKernel(fns: Analysis, points: seq<Point>)
    ensures KernelOf(fns, Rbf(Finite(1.0)), points, [0.0], [1.0]) == fns.exp(-0.5)
  {
    assert [0.0][1..] == [] && [1.0][1..] == [];
    assert SqDist([0.0], [1.0]) == 1.0;
    hide SqDist;
    assert Exponent(1.0, 1.0) == -0.5;
  }

  lemma PairValueSymmetric(fns: Analysis, pairing: Pairing, a: Point, b: Point)
    ensures PairValue(fns, pairing, a, b) == PairValue(fns, pairing, b, a)
  {
    SqDistSymmetric(a, b);
  }

  // ---------- Row-major positions ----------

  function Flat(n: nat, i: nat, j: nat): nat {
    i * n + j
  }

  function RowOf(n: nat, k: nat): nat {
    if n == 0 then 0 else k / n
  }

  function ColOf(n: nat, k: nat): nat {
    if n == 0 then 0 else k % n
  }

  lemma FlatFacts(n: nat, i: nat, j: nat)
    requires i < n && j < n
    ensures Flat(n, i, j) < n * n && RowOf(n, Flat(n, i, j)) == i && ColOf(n, Flat(n, i, j)) == j
  {
    QuotientUnique(i, j, n);
    assert (i + 1) * n == i * n + n;
    CancelLess(n, i + 1, n);
  }

  lemma UnflatFacts(n: nat, k: nat)
    requires k < n * n
    ensures RowOf(n, k) < n && ColOf(n, k) < n && Flat(n, RowOf(n, k), ColOf(n, k)) == k
  {
    assert n > 0;
    QuotientFacts(k, n);
    CancelLess(k / n, n, n);
  }

  // ---------- Building the matrix ----------

  /** Every slot of the buffer holds the kernel of the two points that its position names. */
  ghost predicate IsGram(gram: seq<real>, fns: Analysis, pairing: Pairing, points: seq<Point>) {
    && |gram| == |points| * |points|
    && forall k :: 0 <= k < |gram| ==> SlotIs(gram, k, fns, pairing, points)
  }

  ghost predicate SlotIs(gram: seq<real>, k: nat, fns: Analysis, pairing: Pairing, points: seq<Point>)
    requires k < |gram|
  {
    && RowOf(|points|, k) < |points|
    && ColOf(|points|, k) < |points|
    && gram[k] == PairValue(fns, pairing, points[RowOf(|points|, k)], points[ColOf(|points|, k)])
  }

  /** The slots settled once the loops have reached row `i` and column `j` of the upper triangle. */
  ghost predicate Settled(i: nat, j: nat, row: nat, col: nat) {
    var lo, hi := if row <= col then row else col, if row <= col then col else row;
    lo < i || (lo == i && hi < j)
  }

  /** The slot of row `i` and column `j` is the kernel of points `i` and `j`. */
  ghost predicate HoldsKernels(gram: seq<real>, fns: Analysis, kernel: Kernel, points: seq<Point>) {
    forall i, j :: 0 <= i < |points| && 0 <= j < |points| ==>
      Flat(|points|, i, j) < |gram| && gram[Flat(|points|, i, j)] == KernelOf(fns, kernel, points, points[i], points[j])
  }

  lemma GramHoldsKernels(gram: seq<real>, fns: Analysis, kernel: Kernel, points: seq<Point>)
    requires IsGram(gram, fns, Settle(fns, kernel, points), points)
    ensures HoldsKernels(gram, fns, kernel, points)
  {
    hide PairValue, Settle, KernelOf, RowOf, ColOf, Flat;
    forall i, j | 0 <= i < |points| && 0 <= j < |points|
      ensures Flat(|points|, i, j) < |gram|
      ensures gram[Flat(|points|, i, j)] == KernelOf(fns, kernel, points, points[i], points[j])
    {
      FlatFacts(|points|, i, j);
      assert SlotIs(gram, Flat(|points|, i, j), fns, Settle(fns, kernel, points), points);
      SettledPair(fns, kernel, points, points[i], points[j]);
    }
  }

  method GramMatrix(fns: Analysis, points: seq<Point>, kernel: Kernel) returns (gram: array<real>)
    ensures fresh(gram)
    ensures IsGram(gram[..], fns, Settle(fns, kernel, points), points)
    ensures HoldsKernels(gram[..], fns, kernel, points)
  {
    hide PairValue, Settle, RowOf, ColOf, Flat, HoldsKernels;
    var n := |points|;
    gram := new real[n * n](_ => 0.0);
    var pairing := Settle(fns, kernel, points);
    forall k: nat | k < n * n
      ensures RowOf(n, k) < n && ColOf(n, k) < n && Flat(n, RowOf(n, k), ColOf(n, k)) == k
    {
      UnflatFacts(n, k);
    }
    for i := 0 to n
      invariant forall k: nat :: k < n * n && Settled(i, i, RowOf(n, k), ColOf(n, k)) ==>
          SlotIs(gram[..], k, fns, pairing, points)
    {
      for j := i to n
        invariant forall k: nat :: k < n * n && Settled(i, j, RowOf(n, k), ColOf(n, k)) ==>
            SlotIs(gram[..], k, fns, pairing, points)
      {
        var value := PairValue(fns, pairing, points[i], points[j]);
        FlatFacts(n, i, j);
        FlatFacts(n, j, i);
        PairValueSymmetric(fns, pairing, points[i], points[j]);
        gram[Flat(n, i, j)] := value;
        gram[Flat(n, j, i)] := value;
      }
    }
    assert IsGram(gram[..], fns, pairing, points);
    GramHoldsKernels(gram[..], fns, kernel, points);
  }
}
