/** Finite counting: ranks, tuples, and the exactness of Monte-Carlo rank tests.

    Everything a permutation test promises about its false-positive rate is here a statement
    about the number of elements of a finite set of equally weighted outcomes. */
module Counting {

  /** `k` out of `n` is at most the share `alpha`. */
  ghost predicate AtMostShare(k: nat, n: nat, alpha: real) {
    k as real <= alpha * n as real
  }

  /** The numbers below `n`. */
  ghost function Below(n: nat): (s: set<nat>)
    ensures forall i: int :: i in s <==> 0 <= i < n
    ensures |s| == n
  {
    if n == 0 then {} else Below(n - 1) + {n - 1}
  }

  lemma {:induction false} InjectionBound<A, B>(S: set<A>, T: set<B>, f: A -> B)
    requires forall x :: x in S ==> f(x) in T
    requires forall x, y :: x in S && y in S && f(x) == f(y) ==> x == y
    ensures |S| <= |T|
  {
    if S != {} {
      var x :| x in S;
      InjectionBound(S - {x}, T - {f(x)}, f);
    }
  }

  lemma {:induction false} SubsetBound<A>(S: set<A>, T: set<A>)
    requires S <= T
    ensures |S| <= |T|
  {
    if S != {} {
      var x :| x in S;
      SubsetBound(S - {x}, T - {x});
    }
  }

  // ---------- Ranks ----------

  /** The members of `S` whose score reaches `v`. */
  ghost function AtLeast<A>(S: set<A>, f: A -> real, v: real): set<A> {
    set x | x in S && f(x) >= v
  }

  /** The members of `S` that at most `c` members reach, up to the tolerance. */
  ghost function Extreme<A>(S: set<A>, f: A -> real, tol: real, c: nat): set<A> {
    set x | x in S && |AtLeast(S, f, f(x) - tol)| <= c
  }

  lemma {:induction false} ArgMin<A>(S: set<A>, f: A -> real) returns (x: A)
    requires S != {}
    ensures x in S && forall y :: y in S ==> f(x) <= f(y)
  {
    x :| x in S;
    if S != {x} {
      var y := ArgMin(S - {x}, f);
      x := if f(x) <= f(y) then x else y;
    }
  }

  /** Rank super-uniformity: at most `c` members can have at most `c` members at or above them. */
  lemma RankBound<A>(S: set<A>, f: A -> real, tol: real, c: nat)
    requires tol >= 0.0
    ensures |Extreme(S, f, tol, c)| <= c
  {
    var low := Extreme(S, f, tol, c);
    if low != {} {
      var x := ArgMin(low, f);
      SubsetBound(low, AtLeast(S, f, f(x) - tol));
    }
  }

  // ---------- Tuples ----------

  /** All sequences whose `i`-th entry lies in `domains[i]`. */
  ghost function Tuples<A(!new)>(domains: seq<set<A>>): (T: set<seq<A>>)
    ensures forall t :: t in T <==> IsTuple(t, domains)
  {
    if domains == [] then {[]}
    else
      var rest := Tuples(domains[1..]);
      var T := Cons(domains[0], rest);
      assert forall t :: t in T <==> IsTuple(t, domains) by {
        forall t
          ensures t in T <==> IsTuple(t, domains)
        {
          if IsTuple(t, domains) {
            assert t == [t[0]] + t[1..];
            assert IsTuple(t[1..], domains[1..]);
          }
          if t in T {
            var x, u :| x in domains[0] && u in rest && t == [x] + u;
            assert forall i :: 0 < i < |t| ==> t[i] == u[i - 1] && domains[i] == domains[1..][i - 1];
          }
        }
      }
      T
  }

  ghost predicate IsTuple<A>(t: seq<A>, domains: seq<set<A>>) {
    |t| == |domains| && forall i :: 0 <= i < |t| ==> t[i] in domains[i]
  }

  /** The number of tuples: the product of the sizes of the domains. */
  ghost function Product<A>(domains: seq<set<A>>): nat {
    if domains == [] then 1 else |domains[0]| * Product(domains[1..])
  }

  ghost function Pairs<A, B>(X: set<A>, Y: set<B>): set<(A, B)> {
    set x, y | x in X && y in Y :: (x, y)
  }

  ghost function PairsWith<A, B>(a: A, Y: set<B>): (r: set<(A, B)>)
    ensures |r| == |Y|
  {
    var r := set y | y in Y :: (a, y);
    InjectionBound(Y, r, y => (a, y));
    InjectionBound(r, Y, (p: (A, B)) => p.1);
    r
  }

  lemma PairsSplit<A, B>(a: A, X: set<A>, Y: set<B>)
    requires a in X
    ensures |Pairs(X, Y)| == |Pairs(X - {a}, Y)| + |Y|
  {
    assert Pairs(X, Y) == Pairs(X - {a}, Y) + PairsWith(a, Y);
    assert Pairs(X - {a}, Y) !! PairsWith(a, Y);
  }

  lemma {:induction false} PairsCount<A, B>(X: set<A>, Y: set<B>)
    ensures |Pairs(X, Y)| == |X| * |Y|
  {
    if X == {} {
      assert Pairs(X, Y) == {};
    } else {
      hide Pairs;
      var a :| a in X;
      PairsSplit(a, X, Y);
      PairsCount(X - {a}, Y);
      var k, m := |X - {a}|, |Y|;
      assert |X| == k + 1;
      assert (k + 1) * m == k * m + m;
    }
  }

  ghost function Cons<A>(X: set<A>, T: set<seq<A>>): set<seq<A>> {
    set x, t | x in X && t in T :: [x] + t
  }

  lemma InCons<A>(X: set<A>, T: set<seq<A>>, s: seq<A>)
    ensures s in Cons(X, T) <==> s != [] && s[0] in X && s[1..] in T
  {
    if s in Cons(X, T) {
      var x, t :| x in X && t in T && s == [x] + t;
      assert s[1..] == t;
    }
    if s != [] && s[0] in X && s[1..] in T {
      assert s == [s[0]] + s[1..];
    }
  }

  lemma ConsCount<A>(X: set<A>, T: set<seq<A>>)
    ensures |Cons(X, T)| == |X| * |T|
  {
    var cons := (p: (A, seq<A>)) => [p.0] + p.1;
    forall p, q | p in Pairs(X, T) && q in Pairs(X, T) && cons(p) == cons(q) ensures p == q {
      assert p.0 == cons(p)[0] && p.1 == cons(p)[1..];
      assert q.0 == cons(q)[0] && q.1 == cons(q)[1..];
    }
    InjectionBound(Pairs(X, T), Cons(X, T), cons);
    UnconsBound(X, T);
    PairsCount(X, T);
  }

  lemma UnconsBound<A>(X: set<A>, T: set<seq<A>>)
    ensures |Cons(X, T)| <= |Pairs(X, T)|
  {
    if X != {} {
      var a :| a in X;
      var uncons := (s: seq<A>) => if s == [] then (a, s) else (s[0], s[1..]);
      forall s | s in Cons(X, T) ensures s != [] && uncons(s) in Pairs(X, T) {
        var x, t :| x in X && t in T && s == [x] + t;
        assert s[1..] == t;
      }
      forall s, r | s in Cons(X, T) && r in Cons(X, T) && uncons(s) == uncons(r) ensures s == r {
        assert s == [s[0]] + s[1..] && r == [r[0]] + r[1..];
      }
      InjectionBound(Cons(X, T), Pairs(X, T), uncons);
    } else {
      assert Cons(X, T) == {};
    }
  }

  lemma {:induction false} TuplesCount<A(!new)>(domains: seq<set<A>>)
    ensures |Tuples(domains)| == Product(domains)
  {
    if domains != [] {
      TuplesCount(domains[1..]);
      ConsCount(domains[0], Tuples(domains[1..]));
    }
  }

  /** All sequences of `n` members of `X`. */
  ghost function Seqs<A(!new)>(X: set<A>, n: nat): (T: set<seq<A>>)
    ensures forall t :: t in T <==> |t| == n && forall i :: 0 <= i < n ==> t[i] in X
  {
    Tuples(seq(n, _ => X))
  }

  ghost function Pow(b: nat, n: nat): nat {
    if n == 0 then 1 else b * Pow(b, n - 1)
  }

  lemma {:induction false} SeqsCount<A(!new)>(X: set<A>, n: nat)
    ensures |Seqs(X, n)| == Pow(|X|, n)
  {
    var domains := seq(n, _ => X);
    TuplesCount(domains);
    PowProduct(X, n, domains);
  }

  lemma {:induction false} PowProduct<A>(X: set<A>, n: nat, domains: seq<set<A>>)
    requires |domains| == n && forall i :: 0 <= i < n ==> domains[i] == X
    ensures Product(domains) == Pow(|X|, n)
  {
    if n > 0 {
      PowProduct(X, n - 1, domains[1..]);
    }
  }
}
