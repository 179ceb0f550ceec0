/** Labellings grouped by what a function says of them. */
module Labellings {
  import opened Counting
  import opened Grids
  import opened Shuffle
  import opened TwoSample

  /** The labellings of `n` points that `g` sends to `y`. */
  ghost function Fiber<Y(!new)>(n: nat, g: seq<nat> -> Y, y: Y): set<seq<nat>> {
    set p | p in Perms(n) && g(p) == y
  }

  /** Renaming the points of a labelling. */
  function Rename(names: seq<nat>, p: seq<nat>): seq<nat> {
    Select(names, p, 0)
  }

  lemma RenamePermutes(n: nat, names: seq<nat>, p: seq<nat>)
    requires IsPerm(names, n) && IsPerm(p, n)
    ensures IsPerm(Rename(names, p), n)
  {
    PermFacts(names, n);
    SelectPermutes(names, p, 0);
  }

  lemma RenameInjective(n: nat, names: seq<nat>, p: seq<nat>, q: seq<nat>)
    requires IsPerm(names, n) && IsPerm(p, n) && IsPerm(q, n) && Rename(names, p) == Rename(names, q)
    ensures p == q
  {
    PermFacts(names, n);
    PermFacts(p, n);
    PermFacts(q, n);
    hide IsPerm;
    forall i | 0 <= i < n ensures p[i] == q[i] {
      assert names[p[i]] == Rename(names, p)[i] == Rename(names, q)[i] == names[q[i]];
    }
  }

  /** Where a renaming turns labellings of one kind into labellings of another, the other kind is no rarer. */
  lemma FiberBound<Y(!new)>(n: nat, g: seq<nat> -> Y, y: Y, y': Y, names: seq<nat>)
    requires IsPerm(names, n)
    requires forall p :: p in Fiber(n, g, y) ==> g(Rename(names, p)) == y'
    ensures |Fiber(n, g, y)| <= |Fiber(n, g, y')|
  {
    hide IsPerm, Rename;
    forall p | p in Fiber(n, g, y) ensures Rename(names, p) in Fiber(n, g, y') {
      RenamePermutes(n, names, p);
    }
    forall p, q | p in Fiber(n, g, y) && q in Fiber(n, g, y) && Rename(names, p) == Rename(names, q) ensures p == q {
      RenameInjective(n, names, p, q);
    }
    InjectionBound(Fiber(n, g, y), Fiber(n, g, y'), p => Rename(names, p));
  }

  /** If every kind below `k` is at least as common as `w`, there are at least `k * w` labellings. */
  lemma FibersFill(n: nat, g: seq<nat> -> nat, k: nat, w: nat)
    requires forall y: nat :: y < k ==> w <= |Fiber(n, g, y)|
    ensures w * k <= |Perms(n)|
  {
    hide Perms;
    var at := (y: nat, p: seq<nat>) => g(p) == y;
    forall y | y in Below(k) ensures w <= |RowAt(Perms(n), at, y)| {
      assert RowAt(Perms(n), at, y) == Fiber(n, g, y);
    }
    var grid := Grid(Below(k), Perms(n), at);
    RowsAtLeast(Below(k), Perms(n), at, w);
    TimesIsProduct(w, k);
    InjectionBound(grid, Perms(n), (x: (nat, seq<nat>)) => x.1);
  }

  function Transposition(n: nat, x: nat, y: nat): seq<nat>
    requires x < n && y < n
  {
    Swap(Identity(n), x, y)
  }

  lemma TranspositionFacts(n: nat, x: nat, y: nat)
    requires x < n && y < n
    ensures IsPerm(Transposition(n, x, y), n)
    ensures |Transposition(n, x, y)| == n
    ensures forall i :: 0 <= i < n ==> Transposition(n, x, y)[i] == if i == x then y else if i == y then x else i
  {
  }
}
