/** Sums over sequences and the facts that let them be reordered. */
module Sums {

  function RemoveAt<T>(s: seq<T>, i: nat): (r: seq<T>)
    requires i < |s|
    ensures |r| == |s| - 1
    ensures multiset(r) == multiset(s) - multiset{s[i]}
  {
    assert s == s[..i] + [s[i]] + s[i + 1..];
    s[..i] + s[i + 1..]
  }

  /** The sum of `f` over the entries of `xs`. */
  function SumBy<T>(f: T -> real, xs: seq<T>): real {
    if xs == [] then 0.0 else SumBy(f, xs[..|xs| - 1]) + f(xs[|xs| - 1])
  }

  lemma SumBySnoc<T>(f: T -> real, xs: seq<T>, k: nat)
    requires k < |xs|
    ensures SumBy(f, xs[..k + 1]) == SumBy(f, xs[..k]) + f(xs[k])
  {
    assert xs[..k + 1][..k] == xs[..k];
  }

  lemma {:induction false} SumByConcat<T>(f: T -> real, xs: seq<T>, ys: seq<T>)
    ensures SumBy(f, xs + ys) == SumBy(f, xs) + SumBy(f, ys)
  {
    if ys == [] {
      assert xs + ys == xs;
    } else {
      assert (xs + ys)[..|xs + ys| - 1] == xs + ys[..|ys| - 1];
      SumByConcat(f, xs, ys[..|ys| - 1]);
    }
  }

  lemma SumByOne<T>(f: T -> real, x: T)
    ensures SumBy(f, [x]) == f(x)
  {
    assert [x][..0] == [];
  }

  lemma SumByPair<T>(f: T -> real, x: T, y: T)
    ensures SumBy(f, [x, y]) == f(x) + f(y)
  {
    assert [x] + [y] == [x, y];
    SumByConcat(f, [x], [y]);
    SumByOne(f, x);
    SumByOne(f, y);
  }

  lemma SumByRemove<T>(f: T -> real, xs: seq<T>, i: nat)
    requires i < |xs|
    ensures SumBy(f, xs) == SumBy(f, RemoveAt(xs, i)) + f(xs[i])
  {
    hide SumBy;
    var x := xs[i];
    assert xs == xs[..i] + ([x] + xs[i + 1..]);
    SumByConcat(f, xs[..i], [x] + xs[i + 1..]);
    SumByConcat(f, [x], xs[i + 1..]);
    SumByOne(f, x);
    SumByConcat(f, xs[..i], xs[i + 1..]);
  }

  lemma FindEntry<T>(xs: seq<T>, x: T) returns (i: nat)
    requires x in multiset(xs)
    ensures i < |xs| && xs[i] == x
  {
    assert x in xs;
    i :| i < |xs| && xs[i] == x;
  }

  lemma SameWithoutLast<T>(s: seq<T>, t: seq<T>)
    requires |s| == |t| > 0 && s[|s| - 1] == t[|t| - 1] && multiset(s) == multiset(t)
    ensures multiset(s[..|s| - 1]) == multiset(t[..|t| - 1])
  {
    var x := s[|s| - 1];
    assert s == s[..|s| - 1] + [x] && t == t[..|t| - 1] + [x];
    assert multiset(s[..|s| - 1]) == multiset(s) - multiset{x};
    assert multiset(t[..|t| - 1]) == multiset(t) - multiset{x};
  }

  /** Reordering the terms does not change a sum. */
  lemma {:induction false} SumByReorder<T>(f: T -> real, xs: seq<T>, ys: seq<T>)
    requires multiset(xs) == multiset(ys)
    ensures SumBy(f, xs) == SumBy(f, ys)
    decreases |xs|
  {
    if xs == [] {
      assert |multiset(ys)| == 0;
      assert ys == [];
    } else {
      assert xs[0] in multiset(xs);
      var i := FindEntry(ys, xs[0]);
      SumByRemove(f, xs, 0);
      SumByRemove(f, ys, i);
      SumByReorder(f, RemoveAt(xs, 0), RemoveAt(ys, i));
    }
  }

  lemma {:induction false} SumByCongruence<T, U>(f: T -> real, xs: seq<T>, g: U -> real, ys: seq<U>)
    requires |xs| == |ys| && forall i :: 0 <= i < |xs| ==> f(xs[i]) == g(ys[i])
    ensures SumBy(f, xs) == SumBy(g, ys)
  {
    if xs != [] {
      SumByCongruence(f, xs[..|xs| - 1], g, ys[..|ys| - 1]);
    }
  }

  lemma {:induction false} SumByAdd<T>(f: T -> real, g: T -> real, h: T -> real, xs: seq<T>)
    requires forall x :: x in xs ==> h(x) == f(x) + g(x)
    ensures SumBy(h, xs) == SumBy(f, xs) + SumBy(g, xs)
  {
    if xs != [] {
      SumByAdd(f, g, h, xs[..|xs| - 1]);
    }
  }

  // ---------- Double sums ----------

  function From<T>(w: (T, T) -> real, x: T): T -> real {
    y => w(x, y)
  }

  function RowSum<T>(w: (T, T) -> real, x: T, ys: seq<T>): real {
    SumBy(From(w, x), ys)
  }

  function Rows<T>(w: (T, T) -> real, ys: seq<T>): T -> real {
    x => RowSum(w, x, ys)
  }

  /** The sum of `w(x, y)` over every `x` in `xs` and every `y` in `ys`. */
  function CrossSum<T>(w: (T, T) -> real, xs: seq<T>, ys: seq<T>): real {
    SumBy(Rows(w, ys), xs)
  }

  function Diagonal<T>(w: (T, T) -> real): T -> real {
    x => w(x, x)
  }

  function DiagonalSum<T>(w: (T, T) -> real, xs: seq<T>): real {
    SumBy(Diagonal(w), xs)
  }

  lemma CrossSumReorder<T>(w: (T, T) -> real, xs: seq<T>, ys: seq<T>, xs': seq<T>, ys': seq<T>)
    requires multiset(xs) == multiset(xs') && multiset(ys) == multiset(ys')
    ensures CrossSum(w, xs, ys) == CrossSum(w, xs', ys')
  {
    forall x ensures RowSum(w, x, ys) == RowSum(w, x, ys') {
      SumByReorder(From(w, x), ys, ys');
    }
    SumByCongruence(Rows(w, ys), xs, Rows(w, ys'), xs);
    SumByReorder(Rows(w, ys'), xs, xs');
  }

  lemma CrossSumRight<T>(w: (T, T) -> real, xs: seq<T>, ys: seq<T>, zs: seq<T>)
    ensures CrossSum(w, xs, ys + zs) == CrossSum(w, xs, ys) + CrossSum(w, xs, zs)
  {
    forall x ensures RowSum(w, x, ys + zs) == RowSum(w, x, ys) + RowSum(w, x, zs) {
      SumByConcat(From(w, x), ys, zs);
    }
    SumByAdd(Rows(w, ys), Rows(w, zs), Rows(w, ys + zs), xs);
  }

  lemma CrossSumLeft<T>(w: (T, T) -> real, xs: seq<T>, ys: seq<T>, zs: seq<T>)
    ensures CrossSum(w, xs + ys, zs) == CrossSum(w, xs, zs) + CrossSum(w, ys, zs)
  {
    SumByConcat(Rows(w, zs), xs, ys);
  }

  lemma {:induction false} CrossSumTranspose<T>(w: (T, T) -> real, xs: seq<T>, ys: seq<T>)
    requires forall x, y :: w(x, y) == w(y, x)
    ensures CrossSum(w, xs, ys) == CrossSum(w, ys, xs)
  {
    if ys == [] {
      forall x ensures RowSum(w, x, ys) == 0.0 {}
      SumByZero(Rows(w, ys), xs);
    } else {
      var k := |ys| - 1;
      assert ys == ys[..k] + [ys[k]];
      CrossSumRight(w, xs, ys[..k], [ys[k]]);
      CrossSumLeft(w, ys[..k], [ys[k]], xs);
      CrossSumTranspose(w, xs, ys[..k]);
      forall x ensures RowSum(w, x, [ys[k]]) == w(ys[k], x) {
        SumByOne(From(w, x), ys[k]);
      }
      SumByCongruence(Rows(w, [ys[k]]), xs, From(w, ys[k]), xs);
      SumByOne(Rows(w, xs), ys[k]);
    }
  }

  lemma {:induction false} SumByZero<T>(f: T -> real, xs: seq<T>)
    requires forall x :: x in xs ==> f(x) == 0.0
    ensures SumBy(f, xs) == 0.0
  {
    if xs != [] {
      SumByZero(f, xs[..|xs| - 1]);
    }
  }

  /** Summing over a selection of `points` by index is summing over the selected points. */
  lemma CrossSumSelect<T, U>(w: (T, T) -> real, xs: seq<T>, ys: seq<T>, v: (U, U) -> real, us: seq<U>, vs: seq<U>)
    requires |xs| == |us| && |ys| == |vs|
    requires forall i, j :: 0 <= i < |xs| && 0 <= j < |ys| ==> w(xs[i], ys[j]) == v(us[i], vs[j])
    ensures CrossSum(w, xs, ys) == CrossSum(v, us, vs)
  {
    forall i | 0 <= i < |xs| ensures RowSum(w, xs[i], ys) == RowSum(v, us[i], vs) {
      SumByCongruence(From(w, xs[i]), ys, From(v, us[i]), vs);
    }
    SumByCongruence(Rows(w, ys), xs, Rows(v, vs), us);
  }
}
