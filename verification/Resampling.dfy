/** Comparing a start with values resampled from the other points: how far from calibrated that can be.

    A sequence `t` holds a start and `B` other points, and `k` picks `B` of the others, with
    repetition. `Weak` says that fewer than `c` picks reach the start's score. If the others were
    compared directly, at most `c` of `B + 1` starts would be weak. `WeakBound` says by how little
    the picks can exceed that. */
module Resampling {
  import opened Counting
  import opened Grids
  import opened MonteCarlo

  /** How many entries of `k` lie in `A`. */
  ghost function HitCount(k: seq<nat>, A: set<nat>): nat {
    if k == [] then 0 else (if k[0] in A then 1 else 0) + HitCount(k[1..], A)
  }

  lemma {:induction false} HitCountGrows(k: seq<nat>, A: set<nat>, A': set<nat>)
    requires A <= A'
    ensures HitCount(k, A) <= HitCount(k, A')
  {
    if k != [] {
      HitCountGrows(k[1..], A, A');
    }
  }

  lemma {:induction false} HitCountNone(k: seq<nat>, A: set<nat>)
    requires forall i :: 0 <= i < |k| ==> k[i] !in A
    ensures HitCount(k, A) == 0
  {
    if k != [] {
      HitCountNone(k[1..], A);
    }
  }

  // ---------- Picks that mostly miss a set ----------

  ghost function FewHits(D: set<nat>, A: set<nat>, n: nat, c: nat): set<seq<nat>> {
    set k | k in Seqs(D, n) && HitCount(k, A) < c
  }

  /** Their number depends on the sizes of the two sets alone. */
  ghost function FewCount(d: nat, a: nat, n: nat, c: nat): nat
    requires a <= d
  {
    if c == 0 then 0
    else if n == 0 then 1
    else a * FewCount(d, a, n - 1, c - 1) + (d - a) * FewCount(d, a, n - 1, c)
  }

  lemma FewHit(D: set<nat>, A: set<nat>, n: nat, c: nat, k: seq<nat>)
    requires A <= D && n > 0 && c > 0
    ensures k in FewHits(D, A, n, c) <==>
            k != [] && k[0] in D && k[1..] in FewHits(D, A, n - 1, if k[0] in A then c - 1 else c)
  {
    if k != [] {
      assert forall i :: 0 <= i < |k| - 1 ==> k[1..][i] == k[i + 1];
      assert forall i :: 0 < i < |k| ==> k[i] == k[1..][i - 1];
    }
  }

  lemma FewHitsSplit(D: set<nat>, A: set<nat>, n: nat, c: nat)
    requires A <= D && n > 0 && c > 0
    ensures FewHits(D, A, n, c) == Cons(A, FewHits(D, A, n - 1, c - 1)) + Cons(D - A, FewHits(D, A, n - 1, c))
    ensures Cons(A, FewHits(D, A, n - 1, c - 1)) !! Cons(D - A, FewHits(D, A, n - 1, c))
  {
    hide FewHits, Cons;
    forall k
      ensures k in Cons(A, FewHits(D, A, n - 1, c - 1)) <==>
              k in FewHits(D, A, n, c) && k != [] && k[0] in A
      ensures k in Cons(D - A, FewHits(D, A, n - 1, c)) <==>
              k in FewHits(D, A, n, c) && (k == [] || k[0] !in A)
    {
      FewHit(D, A, n, c, k);
      InCons(A, FewHits(D, A, n - 1, c - 1), k);
      InCons(D - A, FewHits(D, A, n - 1, c), k);
    }
  }

  lemma FewHitsBase(D: set<nat>, A: set<nat>, n: nat, c: nat)
    requires n == 0 || c == 0
    ensures |FewHits(D, A, n, c)| == if c == 0 then 0 else 1
  {
    var few := FewHits(D, A, n, c);
    if c == 0 {
      assert few == {};
    } else {
      assert forall k :: k in few <==> k == [];
      assert few == {[]};
    }
  }

  lemma {:induction false} FewHitsCount(D: set<nat>, A: set<nat>, n: nat, c: nat)
    requires A <= D
    ensures |A| <= |D| && |FewHits(D, A, n, c)| == FewCount(|D|, |A|, n, c)
  {
    hide FewHits, Cons, Seqs;
    SubsetBound(A, D);
    if c == 0 || n == 0 {
      FewHitsBase(D, A, n, c);
    } else {
      FewHitsCount(D, A, n - 1, c - 1);
      FewHitsCount(D, A, n - 1, c);
      FewHitsSplit(D, A, n, c);
      ConsCount(A, FewHits(D, A, n - 1, c - 1));
      ConsCount(D - A, FewHits(D, A, n - 1, c));
      assert |D - A| == |D| - |A|;
    }
  }

  // ---------- Weak starts ----------

  /** The positions, among the others, of those that reach the start's score. */
  ghost function Reaching<X>(f: X -> real, t: seq<X>): set<nat>
    requires t != []
  {
    var others := t[1..];
    set i | i in Below(|others|) && f(others[i]) >= f(t[0])
  }

  ghost function Weak<X>(f: X -> real, c: nat): (seq<X>, seq<nat>) -> bool {
    (t, k) => t != [] && HitCount(k, Reaching(f, t)) < c
  }

  /** The same for a start of the same rank whose betters come first. */
  ghost function RankedWeak<X>(f: X -> real, c: nat): (seq<X>, seq<nat>) -> bool {
    (t, k) => t != [] && HitCount(k, Below(|Reaching(f, t)|)) < c
  }

  lemma ReachingBound<X>(f: X -> real, t: seq<X>)
    requires t != []
    ensures Reaching(f, t) <= Below(|t| - 1) && |Reaching(f, t)| <= |t| - 1
  {
    SubsetBound(Reaching(f, t), Below(|t| - 1));
  }

  lemma RowIsFewHits<A>(hit: (A, seq<nat>) -> bool, t: A, b: nat, A: set<nat>, c: nat)
    requires forall k :: hit(t, k) <==> HitCount(k, A) < c
    ensures RowAt(Seqs(Below(b), b), hit, t) == FewHits(Below(b), A, b, c)
  {
    hide Seqs, HitCount;
  }

  lemma SameWeakRow<X>(f: X -> real, b: nat, c: nat, t: seq<X>)
    requires |t| == b + 1
    ensures var K := Seqs(Below(b), b); |RowAt(K, Weak(f, c), t)| == |RowAt(K, RankedWeak(f, c), t)|
  {
    var A := Reaching(f, t);
    ReachingBound(f, t);
    RowIsFewHits(Weak(f, c), t, b, A, c);
    RowIsFewHits(RankedWeak(f, c), t, b, Below(|A|), c);
    hide Reaching, RowAt, FewHits;
    FewHitsCount(Below(b), A, b, c);
    FewHitsCount(Below(b), Below(|A|), b, c);
  }

  // ---------- The ladder: how many ranks a set of picks leaves weak ----------

  ghost function Ladder(c: nat): (seq<nat>, nat) -> bool {
    (k: seq<nat>, i: nat) => HitCount(k, Below(i)) < c
  }

  /** The weak ranks of given picks are the first ones. */
  lemma LadderIsInitial(c: nat, b: nat, k: seq<nat>, i: nat)
    requires i <= b
    ensures Ladder(c)(k, i) <==> i < |RowAt(Below(b + 1), Ladder(c), k)|
  {
    var row := RowAt(Below(b + 1), Ladder(c), k);
    forall j: nat, j': nat | j <= j' && Ladder(c)(k, j') ensures Ladder(c)(k, j) {
      HitCountGrows(k, Below(j), Below(j'));
    }
    if Ladder(c)(k, i) {
      assert Below(i + 1) <= row;
      SubsetBound(Below(i + 1), row);
    } else {
      assert row <= Below(i);
      SubsetBound(row, Below(i));
    }
  }

  /** For given picks, the starts of a weak rank are at most their share of all starts. */
  lemma WeakColumn<X(!new)>(S: set<X>, f: X -> real, b: nat, c: nat, k: seq<nat>)
    ensures (b + 1) * |RowAt(Seqs(S, b + 1), Flip(RankedWeak(f, c)), k)|
         <= |Seqs(S, b + 1)| * |RowAt(Below(b + 1), Ladder(c), k)|
  {
    var q, T := |RowAt(Below(b + 1), Ladder(c), k)|, Seqs(S, b + 1);
    hide Seqs, LowAt, RankedWeak, Ladder;
    forall t | t in RowAt(T, Flip(RankedWeak(f, c)), k) ensures t in LowAt(S, b + 1, f, 0.0, q, 0) {
      WeakIsLow(S, f, b, c, k, t);
    }
    hide *;
    var weak, low := RowAt(T, Flip(RankedWeak(f, c)), k), LowAt(S, b + 1, f, 0.0, q, 0);
    SubsetBound(weak, low);
    LowColumns(S, b + 1, f, 0.0, q);
    TimesIsProduct(|low|, b + 1);
    TimesIsProduct(q, |T|);
    Larger(b + 1, |weak|, |low|, q, |T|);
  }

  lemma WeakIsLow<X(!new)>(S: set<X>, f: X -> real, b: nat, c: nat, k: seq<nat>, t: seq<X>)
    requires t in Seqs(S, b + 1) && RankedWeak(f, c)(t, k)
    ensures t in LowAt(S, b + 1, f, 0.0, |RowAt(Below(b + 1), Ladder(c), k)|, 0)
  {
    hide Seqs, NumAtLeast, Reaching, RowAt, HitCount;
    ReachingBound(f, t);
    LadderIsInitial(c, b, k, |Reaching(f, t)|);
    RankOfFirst(f, t);
  }

  lemma Larger(n: nat, x: nat, y: nat, q: nat, size: nat)
    requires x <= y && y * n <= q * size
    ensures n * x <= size * q
  {
    assert n * x <= n * y;
  }

  lemma RankOfHeadExactly<X>(f: X -> real, x: X, rest: seq<X>)
    ensures NumAtLeast(Scores(f, [x] + rest), f(x)) == 1 + NumAtLeast(Scores(f, rest), f(x))
  {
    hide NumAtLeast, Scores;
    assert f(x) - 0.0 == f(x);
    RankOfHead(f, x, rest, 0.0);
  }

  /** The first entry's rank counts itself and the others that reach it. */
  lemma RankOfFirst<X>(f: X -> real, t: seq<X>)
    requires t != []
    ensures NumAtLeast(Scores(f, t), f(t[0]) - 0.0) == 1 + |Reaching(f, t)|
  {
    var others := t[1..];
    assert t == [t[0]] + others;
    RankOfHeadExactly(f, t[0], others);
    NumAtLeastCard(Scores(f, others), f(t[0]));
    assert Reaching(f, t) == set j | j in Below(|others|) && Scores(f, others)[j] >= f(t[0]);
    assert f(t[0]) - 0.0 == f(t[0]);
  }

  function Negated(): nat -> real {
    (v: nat) => -(v as real)
  }

  /** Counting picks up to `v` is ranking `v` from the top. */
  lemma {:induction false} HitCountIsRank(k: seq<nat>, v: nat)
    ensures HitCount(k, Below(v + 1)) == NumAtLeast(Scores(Negated(), k), Negated()(v))
  {
    if k != [] {
      var rest, scores := k[1..], Scores(Negated(), k);
      HitCountIsRank(rest, v);
      assert scores == [scores[0]] + Scores(Negated(), rest);
      NumAtLeastConcat([scores[0]], Scores(Negated(), rest), Negated()(v));
      assert [scores[0]][..0] == [];
    }
  }

  lemma SeqsCons<A(!new)>(S: set<A>, n: nat, x: A, s: seq<A>)
    requires x in S && s in Seqs(S, n)
    ensures [x] + s in Seqs(S, n + 1)
  {
  }

  lemma LowFirst<X(!new)>(S: set<X>, n: nat, f: X -> real, c: nat, t: seq<X>)
    requires t in Seqs(S, n) && t != [] && NumAtLeast(Scores(f, t), f(t[0])) <= c
    ensures t in LowAt(S, n, f, 0.0, c, 0)
  {
    hide NumAtLeast, Scores, Seqs;
    assert f(t[0]) - 0.0 == f(t[0]);
  }

  lemma RungRank(c: nat, k: seq<nat>, v: nat)
    requires Ladder(c)(k, v + 1)
    ensures NumAtLeast(Scores(Negated(), [v] + k), Negated()(v)) <= c
  {
    HitCountIsRank(k, v);
    hide NumAtLeast, HitCount, Scores, Negated;
    RankOfHeadExactly(Negated(), v, k);
  }

  lemma RungIsLow(b: nat, c: nat, k: seq<nat>, v: nat)
    requires k in Seqs(Below(b), b) && v < b && Ladder(c)(k, v + 1)
    ensures [v] + k in LowAt(Below(b), b + 1, Negated(), 0.0, c, 0)
  {
    hide *;
    RungRank(c, k, v);
    InBelow(b, v);
    SeqsCons(Below(b), b, v, k);
    assert ([v] + k)[0] == v;
    LowFirst(Below(b), b + 1, Negated(), c, [v] + k);
  }

  lemma InBelow(b: nat, v: nat)
    requires v < b
    ensures v in Below(b)
  {
  }

  /** The rungs of the ladder above the lowest, and the lowest ones. */
  ghost function UpperRungs(b: nat, c: nat): set<(seq<nat>, nat)> {
    set p | p in Grid(Seqs(Below(b), b), Below(b + 1), Ladder(c)) && p.1 > 0
  }

  ghost function LowestRungs(b: nat, c: nat): set<(seq<nat>, nat)> {
    set p | p in Grid(Seqs(Below(b), b), Below(b + 1), Ladder(c)) && p.1 == 0
  }

  function FromRung(p: (seq<nat>, nat)): seq<nat> {
    if p.1 > 0 then [p.1 - 1] + p.0 else []
  }

  lemma UpperRung(b: nat, c: nat, p: (seq<nat>, nat))
    requires p in UpperRungs(b, c)
    ensures FromRung(p) in LowAt(Below(b), b + 1, Negated(), 0.0, c, 0)
    ensures p.1 > 0 && FromRung(p)[0] == p.1 - 1 && FromRung(p)[1..] == p.0
  {
    hide Seqs, Ladder, LowAt;
    RungIsLow(b, c, p.0, p.1 - 1);
  }

  lemma UpperRungsBound(b: nat, c: nat)
    ensures |UpperRungs(b, c)| <= |LowAt(Below(b), b + 1, Negated(), 0.0, c, 0)|
  {
    hide UpperRungs, LowAt, FromRung;
    forall p | p in UpperRungs(b, c) ensures FromRung(p) in LowAt(Below(b), b + 1, Negated(), 0.0, c, 0) {
      UpperRung(b, c, p);
    }
    forall p, q | p in UpperRungs(b, c) && q in UpperRungs(b, c) && FromRung(p) == FromRung(q) ensures p == q {
      UpperRung(b, c, p);
      UpperRung(b, c, q);
    }
    InjectionBound(UpperRungs(b, c), LowAt(Below(b), b + 1, Negated(), 0.0, c, 0), FromRung);
  }

  lemma LowestRungsBound(b: nat, c: nat)
    ensures |LowestRungs(b, c)| <= |Seqs(Below(b), b)|
  {
    hide Seqs, Ladder;
    InjectionBound(LowestRungs(b, c), Seqs(Below(b), b), (p: (seq<nat>, nat)) => p.0);
  }

  lemma RungsSplit(b: nat, c: nat)
    ensures |Grid(Seqs(Below(b), b), Below(b + 1), Ladder(c))| == |LowestRungs(b, c)| + |UpperRungs(b, c)|
  {
    hide Seqs, Ladder;
    assert Grid(Seqs(Below(b), b), Below(b + 1), Ladder(c)) == LowestRungs(b, c) + UpperRungs(b, c);
    assert LowestRungs(b, c) !! UpperRungs(b, c);
  }

  lemma PicksCount(b: nat)
    ensures |Seqs(Below(b), b + 1)| == b * |Seqs(Below(b), b)|
  {
    hide Seqs;
    SeqsCount(Below(b), b);
    SeqsCount(Below(b), b + 1);
  }

  lemma LadderBound(b: nat, c: nat)
    ensures var K := Seqs(Below(b), b); (b + 1) * |Grid(K, Below(b + 1), Ladder(c))| <= |K| * (b + 1 + c * b)
  {
    hide *;
    var K, low := Seqs(Below(b), b), LowAt(Below(b), b + 1, Negated(), 0.0, c, 0);
    RungsSplit(b, c);
    LowestRungsBound(b, c);
    UpperRungsBound(b, c);
    LowColumns(Below(b), b + 1, Negated(), 0.0, c);
    TimesIsProduct(|low|, b + 1);
    TimesIsProduct(c, |Seqs(Below(b), b + 1)|);
    PicksCount(b);
    Rungs(b, c, |K|, |LowestRungs(b, c)|, |UpperRungs(b, c)|, |low|);
  }

  lemma Rungs(b: nat, c: nat, size: nat, lowest: nat, upper: nat, low: nat)
    requires lowest <= size && upper <= low && low * (b + 1) <= c * (b * size)
    ensures (b + 1) * (lowest + upper) <= size * (b + 1 + c * b)
  {
    assert (b + 1) * lowest <= (b + 1) * size && (b + 1) * upper <= (b + 1) * low;
    assert c * (b * size) == size * (c * b);
  }

  /** Of all sequences with all picks, the weak ones are at most the share
      `(b + 1 + c * b) / (b + 1)^2`, whatever the scores. */
  lemma WeakBound<X(!new)>(S: set<X>, f: X -> real, b: nat, c: nat)
    ensures var T, K := Seqs(S, b + 1), Seqs(Below(b), b);
            (b + 1) * (b + 1) * |Grid(T, K, Weak(f, c))| <= |T| * |K| * (b + 1 + c * b)
  {
    var T, K := Seqs(S, b + 1), Seqs(Below(b), b);
    hide Seqs, Grid, RowAt, Weak, RankedWeak, Ladder;
    forall t | t in T ensures 1 * |RowAt(K, Weak(f, c), t)| <= 1 * |RowAt(K, RankedWeak(f, c), t)| {
      SameWeakRow(f, b, c, t);
    }
    RowsScale(T, K, Weak(f, c), K, RankedWeak(f, c), 1, 1);
    GridFlip(T, K, RankedWeak(f, c));
    forall k | k in K ensures (b + 1) * |RowAt(T, Flip(RankedWeak(f, c)), k)|
        <= |T| * |RowAt(Below(b + 1), Ladder(c), k)| {
      WeakColumn(S, f, b, c, k);
    }
    RowsScale(K, T, Flip(RankedWeak(f, c)), Below(b + 1), Ladder(c), b + 1, |T|);
    LadderBound(b, c);
    Combine(b, c, |T|, |K|, |Grid(T, K, Weak(f, c))|, |Grid(T, K, RankedWeak(f, c))|,
        |Grid(K, Below(b + 1), Ladder(c))|);
  }

  lemma Combine(b: nat, c: nat, t: nat, k: nat, weak: nat, ranked: nat, ladder: nat)
    requires weak <= ranked && (b + 1) * ranked <= t * ladder && (b + 1) * ladder <= k * (b + 1 + c * b)
    ensures (b + 1) * (b + 1) * weak <= t * k * (b + 1 + c * b)
  {
    Chain(b + 1, t, k, b + 1 + c * b, weak, ranked, ladder);
  }

  lemma Chain(n: nat, t: nat, k: nat, s: nat, weak: nat, ranked: nat, ladder: nat)
    requires weak <= ranked && n * ranked <= t * ladder && n * ladder <= k * s
    ensures n * n * weak <= t * k * s
  {
    Scale(n, weak, ranked);
    Scale(n, n * weak, t * ladder);
    Scale(t, n * ladder, k * s);
    Regroup(n, t, ladder);
    Regroup(t, n, ladder);
    Regroup(n, n, weak);
    Regroup(t, k, s);
    assert n * t == t * n;
  }

  lemma Scale(n: nat, x: nat, y: nat)
    requires x <= y
    ensures n * x <= n * y
  {
  }

  lemma Regroup(x: nat, y: nat, z: nat)
    ensures x * (y * z) == x * y * z
  {
  }
}
