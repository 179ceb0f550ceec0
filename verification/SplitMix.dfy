/** The deterministic generator that drives the shuffles and the gate's draws. */
module SplitMix {
  import opened Arithmetic

  const WORDS: int := 0x1_0000_0000_0000_0000

  const GAMMA: bv64 := 0x9E37_79B9_7F4A_7C15

  /** The generator's state after `n` draws. */
  function After(state: bv64, n: nat): bv64
    decreases n
  {
    if n == 0 then state else After(state + GAMMA, n - 1)
  }

  function Mix(state: bv64): bv64 {
    var z := (state ^ (state >> 30)) * 0xBF58_476D_1CE4_E5B9;
    var y := (z ^ (z >> 27)) * 0x94D0_49BB_1331_11EB;
    y ^ (y >> 31)
  }

  /** Multiply-shift: the top half of the 128-bit product. */
  function Scaled(word: nat, bound: nat): nat {
    word * bound / WORDS
  }

  lemma ScaledInRange(word: nat, bound: nat)
    requires word < WORDS && bound > 0
    ensures Scaled(word, bound) < bound
  {
    QuotientBelow(word, bound, WORDS);
  }

  lemma QuotientBelow(word: nat, bound: nat, words: nat)
    requires word < words && bound > 0
    ensures word * bound / words < bound
  {
    var q := word * bound / words;
    assert q * words <= word * bound;
    assert word * bound < words * bound;
    assert (bound - q) * words > 0;
  }

  /** The draw below `bound` made from `state`. */
  function Draw(state: bv64, bound: nat): (r: nat)
    requires bound > 0
    ensures r < bound
  {
    var word := Mix(state + GAMMA) as nat;
    ScaledInRange(word, bound);
    Scaled(word, bound)
  }

  class SplitMix64 {
    var state: bv64

    constructor (seed: bv64)
      ensures state == seed
    {
      state := seed;
    }

    method NextU64() returns (z: bv64)
      modifies this
      ensures state == old(state) + GAMMA && z == Mix(state)
    {
      state := state + GAMMA;
      z := Mix(state);
    }

    method NextBounded(bound: nat) returns (r: nat)
      modifies this
      ensures bound == 0 ==> r == 0 && state == old(state)
      ensures bound > 0 ==> r == Draw(old(state), bound) && r < bound && state == After(old(state), 1)
    {
      hide Mix, Scaled;
      if bound == 0 {
        return 0;
      }
      var word := NextU64();
      ScaledInRange(word as nat, bound);
      r := Scaled(word as nat, bound);
    }
  }

  // ---------- How even the draws are ----------

  /** How many of the words below `limit` the multiply-shift sends to `r`. */
  function Preimages(limit: nat, words: nat, bound: nat, r: nat): nat
    requires words > 0
    decreases limit
  {
    if limit == 0 then 0
    else Preimages(limit - 1, words, bound, r) + if (limit - 1) * bound / words == r then 1 else 0
  }

  /** The least word that reaches `r`. */
  ghost function First(words: nat, bound: nat, r: nat): (w: nat)
    requires words > 0 && bound > 0
    ensures (w - 1) * bound < r * words <= w * bound
  {
    var x := r * words;
    var q := x / bound;
    assert q * bound <= x < (q + 1) * bound;
    if q * bound == x then q else q + 1
  }

  lemma ReachesFrom(words: nat, bound: nat, r: nat, w: nat)
    requires words > 0 && bound > 0
    ensures w * bound / words >= r <==> w >= First(words, bound, r)
  {
    var f: int := First(words, bound, r);
    var p, target := w * bound, r * words;
    var q := p / words;
    QuotientFacts(p, words);
    CancelLess(w, f, bound);
    CancelLess(f - 1, w, bound);
    CancelLess(r, q + 1, words);
    CancelLess(q, r, words);
  }

  function Min(a: nat, b: nat): nat {
    if a <= b then a else b
  }

  lemma {:induction false} PreimagesAreInterval(limit: nat, words: nat, bound: nat, r: nat)
    requires words > 0 && bound > 0
    ensures First(words, bound, r) <= First(words, bound, r + 1)
    ensures Preimages(limit, words, bound, r)
        == Min(limit, First(words, bound, r + 1)) - Min(limit, First(words, bound, r))
  {
    hide First;
    ReachesFrom(words, bound, r, First(words, bound, r + 1));
    ReachesFrom(words, bound, r + 1, First(words, bound, r + 1));
    if limit > 0 {
      PreimagesAreInterval(limit - 1, words, bound, r);
      ReachesFrom(words, bound, r, limit - 1);
      ReachesFrom(words, bound, r + 1, limit - 1);
    }
  }

  /** The draws are as even as `words` words allow: every result below the bound has either
      `words / bound` or `words / bound + 1` words behind it. */
  lemma DrawsAreEven(words: nat, bound: nat, r: nat)
    requires words > 0 && r < bound
    ensures words / bound <= Preimages(words, words, bound, r) <= words / bound + 1
  {
    PreimagesAreInterval(words, words, bound, r);
    var lo, hi := First(words, bound, r), First(words, bound, r + 1);
    WithinWords(words, bound, r + 1);
    GapBounds(words, bound, r, lo, hi);
  }

  lemma WithinWords(words: nat, bound: nat, r: nat)
    requires words > 0 && 0 < bound && r <= bound
    ensures First(words, bound, r) <= words
  {
    hide First;
    var f: int := First(words, bound, r);
    assert words * bound == bound * words;
    CancelLess(bound, r, words);
    CancelLess(f - 1, words, bound);
  }

  lemma GapBounds(words: nat, bound: nat, r: nat, lo: nat, hi: nat)
    requires bound > 0
    requires (lo - 1) * bound < r * words <= lo * bound
    requires (hi - 1) * bound < (r + 1) * words <= hi * bound
    ensures words / bound <= hi - lo <= words / bound + 1
  {
    var q, b := words / bound, bound;
    QuotientFacts(words, b);
    assert (r + 1) * words == r * words + words;
    Spread(hi, lo, 1, b);
    CancelLess(q, hi - lo + 1, b);
    Spread(hi, lo, -1, b);
    CancelLess(hi - lo - 1, q + 1, b);
  }

  lemma Spread(x: int, y: int, c: int, k: int)
    ensures (x - y + c) * k == x * k - y * k + c * k
    ensures (x - 1) * k == x * k - k && (y - 1) * k == y * k - k
  {
  }
}
