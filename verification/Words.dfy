/** Numbers as 64-bit words. */
module Words {
  import opened Counting

  /** One more binary digit at the low end; the highest of the 64 is lost. */
  function Append(word: bv64, one: bool): bv64 {
    (word << 1) | (if one then 1 else 0)
  }

  /** The low 64 binary digits of a number. */
  function Word(n: nat): bv64 {
    if n == 0 then 0 else Append(Word(n / 2), n % 2 == 1)
  }

  lemma WordPowers()
    ensures Pow(2, 63) == 0x8000_0000_0000_0000 && Pow(2, 64) == 0x1_0000_0000_0000_0000
  {
    assert Pow(2, 8) == 0x100;
    assert Pow(2, 16) == 0x1_0000;
    assert Pow(2, 24) == 0x100_0000;
    assert Pow(2, 32) == 0x1_0000_0000;
    assert Pow(2, 40) == 0x100_0000_0000;
    assert Pow(2, 48) == 0x1_0000_0000_0000;
    assert Pow(2, 56) == 0x100_0000_0000_0000;
  }

  // ---------- Which digits are 0 ----------

  /** All digits but the lowest `k`. */
  function HighDigits(k: nat): bv64 {
    if k == 0 then 0xFFFF_FFFF_FFFF_FFFF else HighDigits(k - 1) << 1
  }

  lemma HighestDigit()
    ensures HighDigits(63) == 0x8000_0000_0000_0000
  {
    assert HighDigits(8) == 0xFFFF_FFFF_FFFF_FF00;
    assert HighDigits(16) == 0xFFFF_FFFF_FFFF_0000;
    assert HighDigits(24) == 0xFFFF_FFFF_FF00_0000;
    assert HighDigits(32) == 0xFFFF_FFFF_0000_0000;
    assert HighDigits(40) == 0xFFFF_FF00_0000_0000;
    assert HighDigits(48) == 0xFFFF_0000_0000_0000;
    assert HighDigits(56) == 0xFF00_0000_0000_0000;
  }

  lemma AppendHigh(word: bv64, mask: bv64, one: bool)
    requires word & mask == 0
    ensures Append(word, one) & (mask << 1) == 0
  {
  }

  lemma ZeroHigh(mask: bv64)
    ensures 0 & mask == 0
  {
  }

  /** A number below 2^k has no digits beyond the lowest `k`. */
  lemma {:induction false} NoHighDigits(n: nat, k: nat)
    requires n < Pow(2, k)
    ensures Word(n) & HighDigits(k) == 0
  {
    hide Append;
    if n == 0 {
      ZeroHigh(HighDigits(k));
    } else {
      NoHighDigits(n / 2, k - 1);
      AppendHigh(Word(n / 2), HighDigits(k - 1), n % 2 == 1);
    }
  }

  // ---------- Different numbers are different words ----------

  lemma AppendApart(x: bv64, y: bv64, a: bool, b: bool)
    requires x & 0x8000_0000_0000_0000 == 0 && y & 0x8000_0000_0000_0000 == 0
    requires Append(x, a) == Append(y, b)
    ensures x == y && a == b
  {
  }

  lemma AppendToZero()
    ensures Append(0, false) == 0
  {
  }

  /** The last digit and the others, also of 0. */
  lemma WordSplits(n: nat)
    ensures Word(n) == Append(Word(n / 2), n % 2 == 1)
  {
    hide Append;
    AppendToZero();
  }

  lemma HighestIsZero(n: nat)
    requires n < 0x8000_0000_0000_0000
    ensures Word(n) & 0x8000_0000_0000_0000 == 0
  {
    WordPowers();
    HighestDigit();
    hide *;
    NoHighDigits(n, 63);
  }

  lemma {:induction false} WordInjective(i: nat, j: nat)
    requires i < 0x1_0000_0000_0000_0000 && j < 0x1_0000_0000_0000_0000 && Word(i) == Word(j)
    ensures i == j
    decreases i + j
  {
    hide *;
    if i != 0 || j != 0 {
      HighestIsZero(i / 2);
      HighestIsZero(j / 2);
      WordSplits(i);
      WordSplits(j);
      AppendApart(Word(i / 2), Word(j / 2), i % 2 == 1, j % 2 == 1);
      WordInjective(i / 2, j / 2);
    }
  }

  lemma WordsDiffer(i: nat, j: nat)
    requires i < 0x1_0000_0000_0000_0000 && j < 0x1_0000_0000_0000_0000 && i != j
    ensures Word(i) != Word(j)
  {
    if Word(i) == Word(j) {
      WordInjective(i, j);
    }
  }

  // ---------- Counting on from a word ----------

  function Plus(x: bv64, y: bv64): bv64 {
    x + y
  }

  lemma PlusIs(x: bv64, y: bv64)
    ensures Plus(x, y) == x + y
  {
  }

  /** The number added to the word, wrapping around. */
  function Offset(word: bv64, n: nat): bv64 {
    Plus(word, Word(n))
  }

  lemma AppendIs(word: bv64)
    ensures Append(word, false) == word << 1 && Append(word, true) == (word << 1) | 1
  {
  }

  /** Twice a number, and one more, append a digit. */
  lemma WordIs(n: nat)
    ensures Word(0) == 0 && Word(2 * n) == Append(Word(n), false) && Word(2 * n + 1) == Append(Word(n), true)
  {
    WordSplits(2 * n);
    WordSplits(2 * n + 1);
    hide Append;
  }

  function Back(sum: bv64, word: bv64): bv64 {
    sum - word
  }

  lemma BackAgain(word: bv64, x: bv64)
    ensures Back(word + x, word) == x
  {
  }

  lemma PlusInjective(word: bv64, x: bv64, y: bv64)
    requires Plus(word, x) == Plus(word, y)
    ensures x == y
  {
    PlusIs(word, x);
    PlusIs(word, y);
    BackAgain(word, x);
    BackAgain(word, y);
    hide *;
    assert Back(word + x, word) == Back(word + y, word);
  }

  /** Different numbers below 2^64, counted on from one word, lead to different words. */
  lemma OffsetsDiffer(word: bv64, i: nat, j: nat)
    requires i < 0x1_0000_0000_0000_0000 && j < 0x1_0000_0000_0000_0000 && i != j
    ensures Offset(word, i) != Offset(word, j)
  {
    WordsDiffer(i, j);
    hide Word, Plus;
    if Offset(word, i) == Offset(word, j) {
      PlusInjective(word, Word(i), Word(j));
      assert false;
    }
  }
}
