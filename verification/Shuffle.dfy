/** The Fisher-Yates shuffle as a function of its choices, and why no relabelling is favoured. */
module Shuffle {
  import opened Counting
  import opened Sums

  function Identity(n: nat): (s: seq<nat>)
    ensures |s| == n && forall i :: 0 <= i < n ==> s[i] == i
  {
    if n == 0 then [] else Identity(n - 1) + [n - 1]
  }

  ghost predicate IsPerm(s: seq<nat>, n: nat) {
    multiset(s) == multiset(Identity(n))
  }

  ghost predicate Distinct<T>(s: seq<T>) {
    forall i, j :: 0 <= i < j < |s| ==> s[i] != s[j]
  }

  /** The entries of `xs` in the order that `order` lists them; an index past the end yields `default`. */
  function Select<T>(xs: seq<T>, order: seq<nat>, default: T): (r: seq<T>)
    ensures |r| == |order|
    ensures forall i :: 0 <= i < |r| ==> r[i] == if order[i] < |xs| then xs[order[i]] else default
  {
    seq(|order|, i requires 0 <= i < |order| => if order[i] < |xs| then xs[order[i]] else default)
  }

  function Swap<T>(s: seq<T>, i: nat, j: nat): (r: seq<T>)
    requires i < |s| && j < |s|
    ensures |r| == |s| && r[i] == s[j] && r[j] == s[i]
    ensures multiset(r) == multiset(s)
  {
    s[i := s[j]][j := s[i]]
  }

  /** One choice `j <= i` for each position `i` from `n - 1` down to 1. */
  predicate ValidChoices(n: nat, choices: seq<nat>) {
    if n <= 1 then choices == []
    else choices != [] && choices[0] < n && ValidChoices(n - 1, choices[1..])
  }

  /** The shuffle that the choices produce: settle the last position, then shuffle the rest. */
  function Shuffled<T>(s: seq<T>, choices: seq<nat>): (r: seq<T>)
    requires ValidChoices(|s|, choices)
    ensures |r| == |s|
    decreases |s|
  {
    if |s| <= 1 then s
    else
      var last := |s| - 1;
      var t := Swap(s, last, choices[0]);
      Shuffled(t[..last], choices[1..]) + [t[last]]
  }

  lemma ShuffledNone<T>(s: seq<T>, choices: seq<nat>)
    requires |s| <= 1 && ValidChoices(|s|, choices)
    ensures Shuffled(s, choices) == s
  {
  }

  lemma ShuffledStep<T>(s: seq<T>, choices: seq<nat>)
    requires |s| > 1 && ValidChoices(|s|, choices)
    ensures choices != [] && choices[0] < |s| && ValidChoices(|s| - 1, choices[1..])
    ensures var t := Swap(s, |s| - 1, choices[0]);
            Shuffled(s, choices) == Shuffled(t[..|s| - 1], choices[1..]) + [t[|s| - 1]]
  {
  }

  lemma {:induction false} ShuffledReorders<T>(s: seq<T>, choices: seq<nat>)
    requires ValidChoices(|s|, choices)
    ensures multiset(Shuffled(s, choices)) == multiset(s)
    decreases |s|
  {
    hide Shuffled, ValidChoices, Swap;
    if |s| > 1 {
      var last := |s| - 1;
      ShuffledStep(s, choices);
      var t := Swap(s, last, choices[0]);
      ShuffledReorders(t[..last], choices[1..]);
      assert t == t[..last] + [t[last]];
    } else {
      ShuffledNone(s, choices);
    }
  }

  lemma SelectSwap<T>(xs: seq<T>, order: seq<nat>, default: T, j: nat)
    requires j < |order|
    ensures var last := |order| - 1; var t := Swap(order, last, j);
            && Swap(Select(xs, order, default), last, j)[..last] == Select(xs, t[..last], default)
            && Swap(Select(xs, order, default), last, j)[last] == Select(xs, [t[last]], default)[0]
  {
  }

  lemma SelectConcat<T>(xs: seq<T>, a: seq<nat>, b: seq<nat>, default: T)
    ensures Select(xs, a + b, default) == Select(xs, a, default) + Select(xs, b, default)
  {
  }

  /** Shuffling commutes with relabelling: the choices act on positions only. */
  lemma {:induction false} ShuffledSelect<T>(xs: seq<T>, order: seq<nat>, default: T, choices: seq<nat>)
    requires ValidChoices(|order|, choices)
    ensures Shuffled(Select(xs, order, default), choices) == Select(xs, Shuffled(order, choices), default)
    decreases |order|
  {
    hide Shuffled, ValidChoices, Swap, Select;
    if |order| > 1 {
      var last := |order| - 1;
      ShuffledStep(order, choices);
      ShuffledStep(Select(xs, order, default), choices);
      var t := Swap(order, last, choices[0]);
      SelectSwap(xs, order, default, choices[0]);
      ShuffledSelect(xs, t[..last], default, choices[1..]);
      SelectConcat(xs, Shuffled(t[..last], choices[1..]), [t[last]], default);
    } else {
      ShuffledNone(order, choices);
      ShuffledNone(Select(xs, order, default), choices);
    }
  }

  lemma DistinctSwap<T>(s: seq<T>, j: nat)
    requires Distinct(s) && j < |s|
    ensures Distinct(Swap(s, |s| - 1, j)[..|s| - 1])
  {
  }

  lemma ShuffledLast<T>(s: seq<T>, c: seq<nat>)
    requires |s| > 1 && ValidChoices(|s|, c)
    ensures Shuffled(s, c)[|s| - 1] == s[c[0]]
    ensures Shuffled(s, c)[..|s| - 1] == Shuffled(Swap(s, |s| - 1, c[0])[..|s| - 1], c[1..])
  {
  }

  /** Different choices give different orders. */
  lemma {:induction false} ShuffledInjective<T>(s: seq<T>, c: seq<nat>, d: seq<nat>)
    requires Distinct(s) && ValidChoices(|s|, c) && ValidChoices(|s|, d)
    requires Shuffled(s, c) == Shuffled(s, d)
    ensures c == d
    decreases |s|
  {
    if |s| > 1 {
      var last := |s| - 1;
      ShuffledLast(s, c);
      ShuffledLast(s, d);
      hide Shuffled;
      var t := Swap(s, last, c[0]);
      DistinctSwap(s, c[0]);
      ShuffledInjective(t[..last], c[1..], d[1..]);
      assert c == [c[0]] + c[1..] && d == [d[0]] + d[1..];
    }
  }

  lemma ValidCons(n: nat, j: nat, rest: seq<nat>)
    requires 1 < n && j < n && ValidChoices(n - 1, rest)
    ensures ValidChoices(n, [j] + rest)
  {
    assert ([j] + rest)[1..] == rest;
  }

  lemma ShuffledCons<T>(s: seq<T>, j: nat, rest: seq<nat>)
    requires 1 < |s| && j < |s| && ValidChoices(|s| - 1, rest) && ValidChoices(|s|, [j] + rest)
    ensures var t := Swap(s, |s| - 1, j); Shuffled(s, [j] + rest) == Shuffled(t[..|s| - 1], rest) + [t[|s| - 1]]
  {
    hide ValidChoices, Swap;
    assert ([j] + rest)[1..] == rest && ([j] + rest)[0] == j;
  }

  lemma Rejoined<T>(s: seq<T>)
    requires s != []
    ensures s[..|s| - 1] + [s[|s| - 1]] == s
  {
  }

  lemma ShuffledAgain<T>(s: seq<T>, target: seq<T>, j: nat, rest: seq<nat>)
    requires |s| == |target| > 1 && j < |s| && ValidChoices(|s| - 1, rest)
    requires var t := Swap(s, |s| - 1, j);
             Shuffled(t[..|s| - 1], rest) == target[..|s| - 1] && t[|s| - 1] == target[|s| - 1]
    ensures ValidChoices(|s|, [j] + rest) && Shuffled(s, [j] + rest) == target
  {
    hide Swap, Shuffled, ValidChoices;
    ValidCons(|s|, j, rest);
    ShuffledCons(s, j, rest);
    Rejoined(target);
  }

  lemma NoChoices<T>(s: seq<T>, target: seq<T>)
    requires |s| <= 1 && |s| == |target| && multiset(s) == multiset(target)
    ensures ValidChoices(|s|, []) && Shuffled(s, []) == target
  {
    if |s| == 1 {
      assert s[0] in multiset(target);
    }
  }

  /** Every order of the input is the result of some choices. */
  lemma {:induction false} ShuffledSurjective<T>(s: seq<T>, target: seq<T>) returns (choices: seq<nat>)
    requires multiset(s) == multiset(target)
    ensures ValidChoices(|s|, choices) && Shuffled(s, choices) == target
    decreases |s|
  {
    hide Swap, Shuffled, ValidChoices;
    assert |s| == |multiset(s)| == |target|;
    if |s| <= 1 {
      choices := [];
      NoChoices(s, target);
    } else {
      var last := |s| - 1;
      assert target[last] in multiset(target);
      var j := FindEntry(s, target[last]);
      var t := Swap(s, last, j);
      SameWithoutLast(t, target);
      var rest := ShuffledSurjective(t[..last], target[..last]);
      ShuffledAgain(s, target, j, rest);
      choices := [j] + rest;
    }
  }

  // ---------- All choices, all permutations ----------

  ghost function Choices(n: nat): (all: set<seq<nat>>)
    ensures forall c :: c in all <==> ValidChoices(n, c)
  {
    if n <= 1 then {[]}
    else
      var rest := Choices(n - 1);
      var all := Cons(Below(n), rest);
      assert forall c :: c in all <==> ValidChoices(n, c) by {
        forall c
          ensures c in all <==> ValidChoices(n, c)
        {
          if ValidChoices(n, c) {
            assert c == [c[0]] + c[1..];
          }
          if c in all {
            var x, u :| x in Below(n) && u in rest && c == [x] + u;
            assert c[1..] == u;
          }
        }
      }
      all
  }

  function Factorial(n: nat): nat {
    if n == 0 then 1 else n * Factorial(n - 1)
  }

  lemma {:induction false} ChoicesCount(n: nat)
    ensures |Choices(n)| == Factorial(n)
  {
    if n == 0 {
    } else if n == 1 {
      assert Factorial(1) == 1 * Factorial(0);
    } else {
      hide Below, Cons;
      ChoicesCount(n - 1);
      ConsCount(Below(n), Choices(n - 1));
    }
  }

  ghost function Perms(n: nat): (all: set<seq<nat>>)
    ensures forall p :: p in all <==> IsPerm(p, n)
  {
    var all := set c | c in Choices(n) :: Shuffled(Identity(n), c);
    assert forall p :: p in all <==> IsPerm(p, n) by {
      forall p
        ensures p in all <==> IsPerm(p, n)
      {
        if p in all {
          var c :| c in Choices(n) && p == Shuffled(Identity(n), c);
          ShuffledReorders(Identity(n), c);
        }
        if IsPerm(p, n) {
          var c := ShuffledSurjective(Identity(n), p);
          assert c in Choices(n);
        }
      }
    }
    all
  }

  lemma {:induction false} IdentityCount(n: nat, x: nat)
    ensures multiset(Identity(n))[x] == if x < n then 1 else 0
  {
    if n > 0 {
      IdentityCount(n - 1, x);
    }
  }

  /** What being a permutation gives: the right length, entries in range, no repetition. */
  lemma PermFacts(s: seq<nat>, n: nat)
    requires IsPerm(s, n)
    ensures |s| == n && Distinct(s) && forall i :: 0 <= i < n ==> s[i] < n
  {
    assert |s| == |multiset(s)| == |Identity(n)|;
    forall i | 0 <= i < n ensures s[i] < n {
      assert s[i] in multiset(s);
      IdentityCount(n, s[i]);
    }
    forall i, j | 0 <= i < j < |s| ensures s[i] != s[j] {
      IdentityCount(n, s[j]);
      if s[i] == s[j] {
        RepeatedEntry(s, i, j);
      }
    }
  }

  lemma RepeatedEntry<T>(s: seq<T>, i: nat, j: nat)
    requires i < j < |s| && s[i] == s[j]
    ensures multiset(s)[s[j]] >= 2
  {
    var r := RemoveAt(s, j);
    assert r[i] == s[j];
    assert s[j] in multiset(r);
  }

  /** Fisher-Yates maps the choice vectors one-to-one onto the permutations. */
  lemma ShuffleIsBijection(n: nat)
    ensures forall c :: c in Choices(n) ==> Shuffled(Identity(n), c) in Perms(n)
    ensures forall p :: p in Perms(n) ==> exists c :: c in Choices(n) && Shuffled(Identity(n), c) == p
    ensures forall c, d | c in Choices(n) && d in Choices(n) ::
              Shuffled(Identity(n), c) == Shuffled(Identity(n), d) ==> c == d
    ensures |Perms(n)| == |Choices(n)| == Factorial(n)
  {
    forall c | c in Choices(n) ensures Shuffled(Identity(n), c) in Perms(n) {
      ShuffledReorders(Identity(n), c);
    }
    forall p | p in Perms(n) ensures exists c :: c in Choices(n) && Shuffled(Identity(n), c) == p {
      var c := ShuffledSurjective(Identity(n), p);
      assert c in Choices(n);
    }
    forall c, d | c in Choices(n) && d in Choices(n) && Shuffled(Identity(n), c) == Shuffled(Identity(n), d)
      ensures c == d
    {
      ShuffledInjective(Identity(n), c, d);
    }
    ChoicesCount(n);
    PermsCount(n);
  }

  /** The choices that lead from the identity to `p`. */
  ghost function ChoicesLeadingTo(n: nat, p: seq<nat>): (c: seq<nat>)
    requires IsPerm(p, n)
    ensures ValidChoices(n, c) && Shuffled(Identity(n), c) == p
  {
    assert exists c :: ValidChoices(n, c) && Shuffled(Identity(n), c) == p by {
      var c := ShuffledSurjective(Identity(n), p);
    }
    var c :| ValidChoices(n, c) && Shuffled(Identity(n), c) == p;
    c
  }

  lemma PermsCount(n: nat)
    ensures |Perms(n)| == |Choices(n)|
  {
    hide Perms, Choices;
    var result := (c: seq<nat>) => if ValidChoices(n, c) then Shuffled(Identity(n), c) else [];
    forall c | c in Choices(n) ensures result(c) in Perms(n) {
      ShuffledReorders(Identity(n), c);
    }
    forall c, d | c in Choices(n) && d in Choices(n) && result(c) == result(d) ensures c == d {
      IdentityInjective(n, c, d);
    }
    InjectionBound(Choices(n), Perms(n), result);
    PermsBound(n);
  }

  lemma IdentityInjective(n: nat, c: seq<nat>, d: seq<nat>)
    requires ValidChoices(n, c) && ValidChoices(n, d) && Shuffled(Identity(n), c) == Shuffled(Identity(n), d)
    ensures c == d
  {
    ShuffledInjective(Identity(n), c, d);
  }

  lemma PermsBound(n: nat)
    ensures |Perms(n)| <= |Choices(n)|
  {
    hide Perms, Choices;
    var back := (p: seq<nat>) => if IsPerm(p, n) then ChoicesLeadingTo(n, p) else [];
    InjectionBound(Perms(n), Choices(n), back);
  }
}
