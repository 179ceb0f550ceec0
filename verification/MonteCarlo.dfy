/** Why a rank p-value computed from finitely many random draws is calibrated.

    An outcome is a starting point `x` together with the `B` draws that the test then makes.
    The test compares a score of `x` with the scores of the `B` points its draws lead to.
    `MonteCarloExact` counts outcomes: at most a share `alpha` of them get a p-value of `alpha`
    or less, at every `alpha` and for every tolerance. */
module MonteCarlo {
  import opened Counting
  import opened Grids
  import opened Sums

  /** How many of `values` reach `v`. */
  function NumAtLeast(values: seq<real>, v: real): (n: nat)
    ensures n <= |values|
  {
    if values == [] then 0
    else NumAtLeast(values[..|values| - 1], v) + if values[|values| - 1] >= v then 1 else 0
  }

  function Share(k: nat, n: nat): real
    requires n > 0
  {
    k as real / n as real
  }

  /** `(1 + #{null >= observed - tol}) / (1 + B)`. */
  function RankP(observed: real, nulls: seq<real>, tol: real): real {
    Share(1 + NumAtLeast(nulls, observed - tol), 1 + |nulls|)
  }

  /** Where the values reach a bar. */
  ghost function PositionsReaching(values: seq<real>, bar: real): set<nat> {
    set j: nat | j < |values| && values[j] >= bar
  }

  /** The p-value in full: of the values observed and permuted, the share that reach the observed one, or miss it by
      no more than the tolerance. */
  lemma RankPIsShare(observed: real, nulls: seq<real>, tol: real)
    ensures RankP(observed, nulls, tol)
        == Share(1 + |PositionsReaching(nulls, observed - tol)|, 1 + |nulls|)
  {
    NumAtLeastCard(nulls, observed - tol);
    assert PositionsReaching(nulls, observed - tol) == set j | j in Below(|nulls|) && nulls[j] >= observed - tol;
    hide NumAtLeast, Share;
  }

  lemma ShareTimes(k: nat, n: nat)
    requires n > 0
    ensures Share(k, n) * n as real == k as real
  {
  }

  lemma {:induction false} NumAtLeastConcat(a: seq<real>, b: seq<real>, v: real)
    ensures NumAtLeast(a + b, v) == NumAtLeast(a, v) + NumAtLeast(b, v)
  {
    if b == [] {
      assert a + b == a;
    } else {
      assert (a + b)[..|a + b| - 1] == a + b[..|b| - 1];
      NumAtLeastConcat(a, b[..|b| - 1], v);
    }
  }

  lemma NumAtLeastRemove(values: seq<real>, i: nat, v: real)
    requires i < |values|
    ensures NumAtLeast(values, v) == NumAtLeast(RemoveAt(values, i), v) + if values[i] >= v then 1 else 0
  {
    var x := values[i];
    assert values == values[..i] + ([x] + values[i + 1..]);
    NumAtLeastConcat(values[..i], [x] + values[i + 1..], v);
    NumAtLeastConcat([x], values[i + 1..], v);
    NumAtLeastConcat(values[..i], values[i + 1..], v);
    assert [x][..0] == [];
  }

  lemma {:induction false} NumAtLeastReorder(a: seq<real>, b: seq<real>, v: real)
    requires multiset(a) == multiset(b)
    ensures NumAtLeast(a, v) == NumAtLeast(b, v)
    decreases |a|
  {
    if a == [] {
      assert |multiset(b)| == 0;
      assert b == [];
    } else {
      assert a[0] in multiset(a);
      var i := FindEntry(b, a[0]);
      NumAtLeastRemove(a, 0, v);
      NumAtLeastRemove(b, i, v);
      NumAtLeastReorder(RemoveAt(a, 0), RemoveAt(b, i), v);
    }
  }

  /** Counting along the sequence is counting a set of positions. */
  lemma {:induction false} NumAtLeastCard(values: seq<real>, v: real)
    ensures NumAtLeast(values, v) == |set j | j in Below(|values|) && values[j] >= v|
  {
    var all := set j | j in Below(|values|) && values[j] >= v;
    if values == [] {
      assert all == {};
    } else {
      var k := |values| - 1;
      var init := values[..k];
      NumAtLeastCard(init, v);
      assert NumAtLeast(values, v) == NumAtLeast(init, v) + if values[k] >= v then 1 else 0;
      var rest := set j | j in Below(k) && init[j] >= v;
      hide NumAtLeast;
      assert all - {k} == rest;
      assert values[k] >= v <==> k in all;
    }
  }

  /** A lower bar is reached by at least as many values. */
  lemma {:induction false} NumAtLeastAntitone(values: seq<real>, u: real, v: real)
    requires u <= v
    ensures NumAtLeast(values, v) <= NumAtLeast(values, u)
  {
    if values != [] {
      NumAtLeastAntitone(values[..|values| - 1], u, v);
    }
  }

  /** Positions whose value has at most `c` values at or above it. */
  ghost function ExtremePositions(values: seq<real>, tol: real, c: nat): set<nat> {
    set i | i in Below(|values|) && NumAtLeast(values, values[i] - tol) <= c
  }

  lemma RankOfPosition(values: seq<real>, at: nat -> real, tol: real, i: nat)
    requires i < |values| && forall j: nat :: j < |values| ==> at(j) == values[j]
    ensures |AtLeast(Below(|values|), at, at(i) - tol)| == NumAtLeast(values, values[i] - tol)
  {
    NumAtLeastCard(values, values[i] - tol);
    assert AtLeast(Below(|values|), at, at(i) - tol) == set j | j in Below(|values|) && values[j] >= values[i] - tol;
  }

  lemma ExtremesOfPositions(values: seq<real>, at: nat -> real, tol: real, c: nat)
    requires forall j: nat :: j < |values| ==> at(j) == values[j]
    ensures ExtremePositions(values, tol, c) == Extreme(Below(|values|), at, tol, c)
  {
    hide NumAtLeast, AtLeast;
    hide Below;
    forall i | i in Below(|values|)
      ensures i in ExtremePositions(values, tol, c) <==> i in Extreme(Below(|values|), at, tol, c)
    {
      RankOfPosition(values, at, tol, i);
    }
  }

  /** Permutation p-values are calibrated: whichever of the values is called the observed one,
      at most `c` of the choices have a rank of `c` or less. */
  lemma RankCalibrated(values: seq<real>, tol: real, c: nat)
    requires tol >= 0.0
    ensures |ExtremePositions(values, tol, c)| <= c
  {
    hide ExtremePositions, Extreme;
    var at := (j: nat) => if j < |values| then values[j] else 0.0;
    RankBound(Below(|values|), at, tol, c);
    ExtremesOfPositions(values, at, tol, c);
  }

  // ---------- Exchangeable tuples ----------

  function Scores<X>(f: X -> real, t: seq<X>): (s: seq<real>)
    ensures |s| == |t| && forall i :: 0 <= i < |t| ==> s[i] == f(t[i])
  {
    seq(|t|, i requires 0 <= i < |t| => f(t[i]))
  }

  function Exchange<X>(t: seq<X>, i: nat): (r: seq<X>)
    requires i < |t|
    ensures multiset(r) == multiset(t)
  {
    t[0 := t[i]][i := t[0]]
  }

  ghost predicate LowRank<X>(f: X -> real, tol: real, c: nat, t: seq<X>, i: nat) {
    i < |t| && NumAtLeast(Scores(f, t), f(t[i]) - tol) <= c
  }

  lemma LowRankExchange<X>(f: X -> real, tol: real, c: nat, t: seq<X>, i: nat)
    requires i < |t| && LowRank(f, tol, c, t, 0)
    ensures LowRank(f, tol, c, Exchange(t, i), i)
  {
    var r := Exchange(t, i);
    assert Scores(f, r) == Exchange(Scores(f, t), i);
    NumAtLeastReorder(Scores(f, t), Scores(f, r), f(t[0]) - tol);
  }

  ghost function LowAt<X(!new)>(S: set<X>, n: nat, f: X -> real, tol: real, c: nat, i: nat): set<seq<X>> {
    set t | t in Seqs(S, n) && LowRank(f, tol, c, t, i)
  }

  lemma ExchangeLow<X(!new)>(S: set<X>, n: nat, f: X -> real, tol: real, c: nat, t: seq<X>, i: nat)
    requires i < n && t in LowAt(S, n, f, tol, c, 0)
    ensures |t| == n && Exchange(t, i) in LowAt(S, n, f, tol, c, i)
  {
    LowRankExchange(f, tol, c, t, i);
  }

  lemma ExchangeColumn<X(!new)>(S: set<X>, n: nat, f: X -> real, tol: real, c: nat, i: nat)
    requires i < n
    ensures |LowAt(S, n, f, tol, c, 0)| <= |LowAt(S, n, f, tol, c, i)|
  {
    hide LowAt, Exchange;
    var g := (t: seq<X>) => if i < |t| then Exchange(t, i) else t;
    var low, lowI := LowAt(S, n, f, tol, c, 0), LowAt(S, n, f, tol, c, i);
    forall t | t in low ensures |t| == n && g(t) in lowI {
      ExchangeLow(S, n, f, tol, c, t, i);
    }
    forall t, u | t in low && u in low && g(t) == g(u) ensures t == u {
      ExchangeTwice(t, i);
      ExchangeTwice(u, i);
    }
    InjectionBound(low, lowI, g);
  }

  lemma ExchangeTwice<X>(t: seq<X>, i: nat)
    requires i < |t|
    ensures Exchange(Exchange(t, i), i) == t
  {
  }

  lemma LowRow<X(!new)>(S: set<X>, n: nat, f: X -> real, tol: real, c: nat, t: seq<X>, hit: (seq<X>, nat) -> bool)
    requires tol >= 0.0 && t in Seqs(S, n)
    requires forall t, i :: hit(t, i) <==> LowRank(f, tol, c, t, i)
    ensures |RowAt(Below(n), hit, t)| <= c
  {
    var values := Scores(f, t);
    assert |values| == n;
    hide Seqs, Scores;
    forall i | i in RowAt(Below(n), hit, t) ensures i in ExtremePositions(values, tol, c) {
      LowIsExtreme(f, tol, c, t, i);
    }
    hide *;
    SubsetBound(RowAt(Below(n), hit, t), ExtremePositions(values, tol, c));
    RankCalibrated(values, tol, c);
  }

  lemma LowIsExtreme<X(!new)>(f: X -> real, tol: real, c: nat, t: seq<X>, i: nat)
    requires i < |t| && LowRank(f, tol, c, t, i)
    ensures i in ExtremePositions(Scores(f, t), tol, c)
  {
    hide NumAtLeast;
  }

  lemma LowColumn<X(!new)>(S: set<X>, n: nat, f: X -> real, tol: real, c: nat, i: nat, hit: (seq<X>, nat) -> bool)
    requires i < n
    requires forall t, i :: hit(t, i) <==> LowRank(f, tol, c, t, i)
    ensures |LowAt(S, n, f, tol, c, 0)| <= |RowAt(Seqs(S, n), Flip(hit), i)|
  {
    hide LowRank, Seqs;
    ExchangeColumn(S, n, f, tol, c, i);
    assert RowAt(Seqs(S, n), Flip(hit), i) == LowAt(S, n, f, tol, c, i);
  }

  /** Every sequence has at most `c` entries of rank `c` or less, and every position is as likely to hold one. */
  lemma LowColumns<X(!new)>(S: set<X>, n: nat, f: X -> real, tol: real, c: nat)
    requires tol >= 0.0
    ensures Times(|LowAt(S, n, f, tol, c, 0)|, n) <= Times(c, |Seqs(S, n)|)
  {
    hide LowAt, LowRank, RowAt, Grid, Times, Seqs, Flip;
    var T := Seqs(S, n);
    var hit := (t: seq<X>, i: nat) => LowRank(f, tol, c, t, i);
    forall t | t in T ensures |RowAt(Below(n), hit, t)| <= c {
      LowRow(S, n, f, tol, c, t, hit);
    }
    RowsAtMost(T, Below(n), hit, c);
    forall i | i in Below(n) ensures |LowAt(S, n, f, tol, c, 0)| <= |RowAt(T, Flip(hit), i)| {
      LowColumn(S, n, f, tol, c, i, hit);
    }
    GridFlip(T, Below(n), hit);
    RowsAtLeast(Below(n), T, Flip(hit), |LowAt(S, n, f, tol, c, 0)|);
  }

  /** Of all sequences of `n` members of `S`, at most a share `alpha` put their first entry at a
      rank of `c <= alpha * n` or less. */
  lemma ExchangeBound<X(!new)>(S: set<X>, n: nat, f: X -> real, tol: real, c: nat, alpha: real)
    requires n > 0 && tol >= 0.0 && c as real <= alpha * n as real
    ensures AtMostShare(|LowAt(S, n, f, tol, c, 0)|, |Seqs(S, n)|, alpha)
  {
    hide LowAt, Seqs, Times;
    LowColumns(S, n, f, tol, c);
    TimesIsProduct(|LowAt(S, n, f, tol, c, 0)|, n);
    TimesIsProduct(c, |Seqs(S, n)|);
    CancelCount(n, |LowAt(S, n, f, tol, c, 0)|, c, alpha, |Seqs(S, n)|);
  }

  lemma CancelCount(n: nat, m: nat, c: nat, alpha: real, size: nat)
    requires n > 0 && m * n <= c * size && c as real <= alpha * n as real
    ensures AtMostShare(m, size, alpha)
  {
    assert (m * n) as real == m as real * n as real && (c * size) as real == c as real * size as real;
    CancelFactor(n as real, m as real, c as real, alpha, size as real);
  }

  lemma CancelFactor(n: real, m: real, c: real, alpha: real, size: real)
    requires n > 0.0 && size >= 0.0 && m * n <= c * size && c <= alpha * n
    ensures m <= alpha * size
  {
    assert c * size <= (alpha * n) * size;
    assert n * (m - alpha * size) <= 0.0;
  }

  // ---------- Draws made one after another ----------

  /** The points that the draws lead to, each step starting where the previous one ended. */
  function Trace<X, D>(step: (X, X, D) -> X, x: X, prev: X, draws: seq<D>): (t: seq<X>)
    ensures |t| == |draws|
  {
    if draws == [] then []
    else
      var next := step(x, prev, draws[0]);
      [next] + Trace(step, x, next, draws[1..])
  }

  lemma TraceStarts<X, D>(step: (X, X, D) -> X, x: X, prev: X, draws: seq<D>)
    requires draws != []
    ensures var t, next := Trace(step, x, prev, draws), step(x, prev, draws[0]);
            t[0] == next && t[1..] == Trace(step, x, next, draws[1..])
  {
  }

  /** Every start with every sequence of `b` draws. */
  ghost function Outcomes<X(!new), D(!new)>(S: set<X>, draws: set<D>, b: nat): set<(X, seq<D>)> {
    Pairs(S, Seqs(draws, b))
  }

  /** `step` stays inside `S` and different draws lead to different points. */
  ghost predicate Reshuffles<X(!new), D(!new)>(S: set<X>, draws: set<D>, step: (X, X, D) -> X) {
    && (forall x, prev, d :: x in S && prev in S && d in draws ==> step(x, prev, d) in S)
    && (forall x, prev, d, e | x in S && prev in S && d in draws && e in draws ::
          step(x, prev, d) == step(x, prev, e) ==> d == e)
  }

  lemma {:induction false} TraceStays<X(!new), D(!new)>(
    S: set<X>, draws: set<D>, step: (X, X, D) -> X, x: X, prev: X, ds: seq<D>)
    requires Reshuffles(S, draws, step) && x in S && prev in S
    requires forall i :: 0 <= i < |ds| ==> ds[i] in draws
    ensures forall i :: 0 <= i < |ds| ==> Trace(step, x, prev, ds)[i] in S
  {
    if ds != [] {
      TraceStays(S, draws, step, x, step(x, prev, ds[0]), ds[1..]);
    }
  }

  lemma {:induction false} TraceInjective<X(!new), D(!new)>(
    S: set<X>, draws: set<D>, step: (X, X, D) -> X, x: X, prev: X, ds: seq<D>, es: seq<D>)
    requires Reshuffles(S, draws, step) && x in S && prev in S && |ds| == |es|
    requires forall i :: 0 <= i < |ds| ==> ds[i] in draws && es[i] in draws
    requires Trace(step, x, prev, ds) == Trace(step, x, prev, es)
    ensures ds == es
  {
    if ds != [] {
      TraceStarts(step, x, prev, ds);
      TraceStarts(step, x, prev, es);
      hide Trace;
      assert ds[0] == es[0];
      TraceInjective(S, draws, step, x, step(x, prev, ds[0]), ds[1..], es[1..]);
      assert ds == [ds[0]] + ds[1..] && es == [es[0]] + es[1..];
    }
  }

  function Tested<X, D>(step: (X, X, D) -> X, o: (X, seq<D>)): seq<X> {
    [o.0] + Trace(step, o.0, o.0, o.1)
  }

  /** The p-value of an outcome: the rank of its start among the points its draws lead to. */
  function OutcomeP<X, D>(f: X -> real, tol: real, step: (X, X, D) -> X, o: (X, seq<D>)): real {
    RankP(f(o.0), Scores(f, Trace(step, o.0, o.0, o.1)), tol)
  }

  ghost function Rejected<X(!new), D(!new)>(
    S: set<X>, draws: set<D>, b: nat, step: (X, X, D) -> X, f: X -> real, tol: real, alpha: real): set<(X, seq<D>)> {
    set o | o in Outcomes(S, draws, b) && OutcomeP(f, tol, step, o) <= alpha
  }

  /** The largest rank that a p-value of `alpha` allows among `n` values. */
  ghost function RankCap(alpha: real, n: nat): int {
    (alpha * n as real).Floor
  }

  lemma ShareWithin(rank: nat, n: nat, alpha: real)
    requires n > 0 && Share(rank, n) <= alpha
    ensures rank <= RankCap(alpha, n)
  {
    var share, size := Share(rank, n), n as real;
    assert rank as real == share * size;
    MultiplyMonotone(share, alpha, size);
  }

  lemma MultiplyMonotone(x: real, y: real, n: real)
    requires x <= y && n >= 0.0
    ensures x * n <= y * n
  {
  }

  lemma ShareMonotone(k: nat, l: nat, n: nat)
    requires k <= l && n > 0
    ensures Share(k, n) <= Share(l, n)
  {
    DivideMonotone(k as real, l as real, n as real);
  }

  lemma DivideMonotone(x: real, y: real, n: real)
    requires x <= y && n > 0.0
    ensures x / n <= y / n
  {
  }

  lemma RankPBound(observed: real, nulls: seq<real>, tol: real, alpha: real)
    requires RankP(observed, nulls, tol) <= alpha
    ensures 1 + NumAtLeast(nulls, observed - tol) <= RankCap(alpha, |nulls| + 1)
  {
    ShareWithin(1 + NumAtLeast(nulls, observed - tol), 1 + |nulls|, alpha);
  }

  lemma TestedStays<X(!new), D(!new)>(S: set<X>, draws: set<D>, b: nat, step: (X, X, D) -> X, o: (X, seq<D>))
    requires Reshuffles(S, draws, step) && o in Outcomes(S, draws, b)
    ensures Tested(step, o) in Seqs(S, b + 1)
  {
    TraceStays(S, draws, step, o.0, o.0, o.1);
  }

  /** The head always reaches itself, so its rank is one more than the count over the rest. */
  lemma RankOfHead<X>(f: X -> real, x: X, rest: seq<X>, tol: real)
    requires tol >= 0.0
    ensures NumAtLeast(Scores(f, [x] + rest), f(x) - tol) == 1 + NumAtLeast(Scores(f, rest), f(x) - tol)
  {
    var v, scores := f(x), Scores(f, rest);
    assert Scores(f, [x] + rest) == [v] + scores;
    NumAtLeastConcat([v], scores, v - tol);
    assert [v][..0] == [];
  }

  lemma LowByRank<X(!new)>(S: set<X>, f: X -> real, tol: real, alpha: real, b: nat, c: nat, x: X, rest: seq<X>)
    requires [x] + rest in Seqs(S, b + 1) && tol >= 0.0 && c == RankCap(alpha, b + 1)
    requires RankP(f(x), Scores(f, rest), tol) <= alpha
    ensures [x] + rest in LowAt(S, b + 1, f, tol, c, 0)
  {
    assert |[x] + rest| == b + 1 && ([x] + rest)[0] == x;
    hide Seqs, RankP, NumAtLeast, Scores, RankCap;
    RankPBound(f(x), Scores(f, rest), tol, alpha);
    RankOfHead(f, x, rest, tol);
  }

  lemma RejectedIsLow<X(!new), D(!new)>(
    S: set<X>, draws: set<D>, b: nat, step: (X, X, D) -> X, f: X -> real, tol: real, alpha: real, c: nat,
        o: (X, seq<D>))
    requires Reshuffles(S, draws, step) && tol >= 0.0
    requires c == RankCap(alpha, b + 1)
    requires o in Rejected(S, draws, b, step, f, tol, alpha)
    ensures Tested(step, o) in LowAt(S, b + 1, f, tol, c, 0)
  {
    hide Reshuffles, Trace, RankP, NumAtLeast, Scores, RankCap, Seqs, LowAt;
    TestedStays(S, draws, b, step, o);
    LowByRank(S, f, tol, alpha, b, c, o.0, Trace(step, o.0, o.0, o.1));
  }

  lemma RejectedBound<X(!new), D(!new)>(
    S: set<X>, draws: set<D>, b: nat, step: (X, X, D) -> X, f: X -> real, tol: real, alpha: real, c: nat)
    requires Reshuffles(S, draws, step) && tol >= 0.0
    requires c == RankCap(alpha, b + 1)
    ensures |Rejected(S, draws, b, step, f, tol, alpha)| <= |LowAt(S, b + 1, f, tol, c, 0)|
  {
    var rejected := Rejected(S, draws, b, step, f, tol, alpha);
    var tested := (o: (X, seq<D>)) => Tested(step, o);
    forall o | o in rejected ensures tested(o) in LowAt(S, b + 1, f, tol, c, 0) {
      RejectedIsLow(S, draws, b, step, f, tol, alpha, c, o);
    }
    forall o, p | o in rejected && p in rejected && tested(o) == tested(p) ensures o == p {
      TestedInjective(S, draws, b, step, o, p);
    }
    InjectionBound(rejected, LowAt(S, b + 1, f, tol, c, 0), tested);
  }

  lemma TestedInjective<X(!new), D(!new)>(
    S: set<X>, draws: set<D>, b: nat, step: (X, X, D) -> X, o: (X, seq<D>), p: (X, seq<D>))
    requires Reshuffles(S, draws, step)
    requires o in Outcomes(S, draws, b) && p in Outcomes(S, draws, b) && Tested(step, o) == Tested(step, p)
    ensures o == p
  {
    assert o.0 == Tested(step, o)[0] == Tested(step, p)[0] == p.0;
    assert Trace(step, o.0, o.0, o.1) == Tested(step, o)[1..];
    assert Trace(step, p.0, p.0, p.1) == Tested(step, p)[1..];
    TraceInjective(S, draws, step, o.0, o.0, o.1, p.1);
  }

  lemma OutcomesCount<X(!new), D(!new)>(S: set<X>, draws: set<D>, b: nat)
    requires |draws| == |S|
    ensures |Outcomes(S, draws, b)| == |Seqs(S, b + 1)|
  {
    hide Seqs;
    PairsCount(S, Seqs(draws, b));
    SeqsCount(draws, b);
    SeqsCount(S, b + 1);
  }

  lemma FewerWithin(k: nat, l: nat, n: nat, alpha: real)
    requires k <= l && AtMostShare(l, n, alpha)
    ensures AtMostShare(k, n, alpha)
  {
  }

  lemma RankCapWithin(alpha: real, n: nat)
    requires alpha >= 0.0
    ensures 0 <= RankCap(alpha, n) && RankCap(alpha, n) as real <= alpha * n as real
  {
    assert alpha * n as real >= 0.0;
  }

  /** Monte-Carlo rank tests are calibrated. When the draws move every point to every point
      exactly once, then of all outcomes (a start and `b` draws) at most a share `alpha` get a
      p-value of `alpha` or less. */
  lemma MonteCarloExact<X(!new), D(!new)>(
    S: set<X>, draws: set<D>, b: nat, step: (X, X, D) -> X, f: X -> real, tol: real, alpha: real)
    requires Reshuffles(S, draws, step) && |draws| == |S|
    requires tol >= 0.0 && alpha >= 0.0
    ensures AtMostShare(|Rejected(S, draws, b, step, f, tol, alpha)|, |Outcomes(S, draws, b)|, alpha)
  {
    hide *;
    RankCapWithin(alpha, b + 1);
    var c: nat := RankCap(alpha, b + 1);
    RejectedBound(S, draws, b, step, f, tol, alpha, c);
    ExchangeBound(S, b + 1, f, tol, c, alpha);
    OutcomesCount(S, draws, b);
    FewerWithin(|Rejected(S, draws, b, step, f, tol, alpha)|, |LowAt(S, b + 1, f, tol, c, 0)|, |Seqs(S, b + 1)|, alpha);
  }
}
