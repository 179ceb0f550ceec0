/** Counting a two-dimensional set by its rows and by its columns. */
module Grids {
  import opened Counting

  /** The pairs of a member of `T` and a member of `K` that hit. */
  ghost function Grid<A, B>(T: set<A>, K: set<B>, hit: (A, B) -> bool): set<(A, B)> {
    set t, k | t in T && k in K && hit(t, k) :: (t, k)
  }

  ghost function RowAt<A, B>(K: set<B>, hit: (A, B) -> bool, t: A): set<B> {
    set k | k in K && hit(t, k)
  }

  function Flip<A, B>(hit: (A, B) -> bool): (B, A) -> bool {
    (k, t) => hit(t, k)
  }

  ghost function InRow<A, B>(t: A, row: set<B>): (r: set<(A, B)>)
    ensures |r| == |row|
  {
    var r := set k | k in row :: (t, k);
    InjectionBound(r, row, (p: (A, B)) => p.1);
    InjectionBound(row, r, k => (t, k));
    r
  }

  lemma GridSplit<A, B>(T: set<A>, K: set<B>, hit: (A, B) -> bool, t: A)
    requires t in T
    ensures |Grid(T, K, hit)| == |Grid(T - {t}, K, hit)| + |RowAt(K, hit, t)|
    ensures |T| == |T - {t}| + 1
  {
    var row := InRow(t, RowAt(K, hit, t));
    assert Grid(T, K, hit) == Grid(T - {t}, K, hit) + row;
    assert Grid(T - {t}, K, hit) !! row;
  }

  lemma FlipBound<A, B>(T: set<A>, K: set<B>, hit: (A, B) -> bool)
    ensures |Grid(T, K, hit)| <= |Grid(K, T, Flip(hit))|
  {
    InjectionBound(Grid(T, K, hit), Grid(K, T, Flip(hit)), (p: (A, B)) => (p.1, p.0));
  }

  /** Rows and columns count the same pairs. */
  lemma GridFlip<A, B>(T: set<A>, K: set<B>, hit: (A, B) -> bool)
    ensures |Grid(T, K, hit)| == |Grid(K, T, Flip(hit))|
  {
    FlipBound(T, K, hit);
    FlipBound(K, T, Flip(hit));
    assert Grid(T, K, Flip(Flip(hit))) == Grid(T, K, hit);
  }

  // ---------- Comparing row by row ----------

  /** `x` added up `n` times. */
  ghost function Times(x: nat, n: nat): nat {
    if n == 0 then 0 else Times(x, n - 1) + x
  }

  lemma {:induction false} TimesIsProduct(x: nat, n: nat)
    ensures Times(x, n) == x * n
  {
    if n > 0 {
      TimesIsProduct(x, n - 1);
      assert x * n == x * (n - 1) + x;
    }
  }

  lemma {:induction false} RowsAtMost<A, B>(T: set<A>, K: set<B>, hit: (A, B) -> bool, c: nat)
    requires forall t :: t in T ==> |RowAt(K, hit, t)| <= c
    ensures |Grid(T, K, hit)| <= Times(c, |T|)
  {
    if T == {} {
      assert Grid(T, K, hit) == {};
    } else {
      hide Grid, RowAt;
      var t :| t in T;
      RowsAtMost(T - {t}, K, hit, c);
      GridSplit(T, K, hit, t);
    }
  }

  lemma {:induction false} RowsAtLeast<A, B>(T: set<A>, K: set<B>, hit: (A, B) -> bool, m: nat)
    requires forall t :: t in T ==> m <= |RowAt(K, hit, t)|
    ensures Times(m, |T|) <= |Grid(T, K, hit)|
  {
    if T != {} {
      hide Grid, RowAt;
      var t :| t in T;
      RowsAtLeast(T - {t}, K, hit, m);
      GridSplit(T, K, hit, t);
    }
  }

  /** What holds of the sizes of the rows of two grids, up to two factors, holds of the grids. */
  lemma {:induction false} RowsScale<A, B, C>(
    T: set<A>, K: set<B>, hit: (A, B) -> bool, L: set<C>, mark: (A, C) -> bool, p: nat, q: nat)
    requires forall t :: t in T ==> p * |RowAt(K, hit, t)| <= q * |RowAt(L, mark, t)|
    ensures p * |Grid(T, K, hit)| <= q * |Grid(T, L, mark)|
  {
    if T == {} {
      assert Grid(T, K, hit) == {};
      assert p * 0 == 0 <= q * |Grid(T, L, mark)|;
    } else {
      hide Grid, RowAt;
      var t :| t in T;
      RowsScale(T - {t}, K, hit, L, mark, p, q);
      GridSplit(T, K, hit, t);
      GridSplit(T, L, mark, t);
      Distribute(p, |Grid(T - {t}, K, hit)|, |RowAt(K, hit, t)|);
      Distribute(q, |Grid(T - {t}, L, mark)|, |RowAt(L, mark, t)|);
    }
  }

  lemma Distribute(p: nat, x: nat, y: nat)
    ensures p * (x + y) == p * x + p * y
  {
  }
}
