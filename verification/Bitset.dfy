/** Fixed-size bit sets packed into 64-bit words (src/porcupine/bitset.go).  A word is a natural
    number below 2^64 and the bitwise operators are defined on its binary digits.  The in-place
    operations work on arrays of words; `Elements` is the finite set the words stand for. */
module Bitset {

  function Pow2(k: nat): (power: nat)
    ensures power >= 1
  {
    if k == 0 then 1 else 2 * Pow2(k - 1)
  }

  type Word = w: nat | w < Pow2(64) witness 0

  /** Binary digit k of w. */
  predicate Test(w: nat, k: nat) {
    if k == 0 then w % 2 == 1 else Test(w / 2, k - 1)
  }

  function Digit(b: bool): nat {
    if b then 1 else 0
  }

  function Or(a: nat, b: nat): nat {
    if a == 0 && b == 0 then 0 else 2 * Or(a / 2, b / 2) + Digit(a % 2 == 1 || b % 2 == 1)
  }

  function AndNot(a: nat, b: nat): nat {
    if a == 0 then 0 else 2 * AndNot(a / 2, b / 2) + Digit(a % 2 == 1 && b % 2 == 0)
  }

  function Xor(a: nat, b: nat): nat {
    if a == 0 && b == 0 then 0 else 2 * Xor(a / 2, b / 2) + Digit(a % 2 != b % 2)
  }

  function OnesCount(w: nat): nat {
    if w == 0 then 0 else OnesCount(w / 2) + w % 2
  }

  lemma {:induction false} OperatorsFit(a: nat, b: nat, n: nat)
    requires a < Pow2(n) && b < Pow2(n)
    ensures Or(a, b) < Pow2(n) && AndNot(a, b) < Pow2(n) && Xor(a, b) < Pow2(n)
  {
    if n > 0 {
      OperatorsFit(a / 2, b / 2, n - 1);
    }
  }

  lemma {:induction false} ZeroTest(k: nat)
    ensures !Test(0, k)
  {
    if k > 0 {
      ZeroTest(k - 1);
    }
  }

  lemma {:induction false} OperatorsTest(a: nat, b: nat, k: nat)
    ensures Test(Or(a, b), k) <==> Test(a, k) || Test(b, k)
    ensures Test(AndNot(a, b), k) <==> Test(a, k) && !Test(b, k)
  {
    ZeroTest(k);
    if k > 0 {
      OperatorsTest(a / 2, b / 2, k - 1);
    }
  }

  lemma {:induction false} XorTest(a: nat, b: nat, k: nat)
    ensures Test(Xor(a, b), k) <==> Test(a, k) != Test(b, k)
  {
    ZeroTest(k);
    if k > 0 {
      XorTest(a / 2, b / 2, k - 1);
    }
  }

  lemma {:induction false} Pow2Test(m: nat, k: nat)
    ensures Test(Pow2(m), k) <==> m == k
  {
    if m == 0 && k > 0 {
      ZeroTest(k - 1);
    } else if m > 0 && k > 0 {
      Pow2Test(m - 1, k - 1);
    }
  }

  lemma {:induction false} Pow2Monotone(m: nat, n: nat)
    requires m < n
    ensures Pow2(m) < Pow2(n)
  {
    if m < n - 1 {
      Pow2Monotone(m, n - 1);
    }
  }

  /** A word is determined by its low n digits when it fits in n digits. */
  lemma {:induction false} WordExtensional(x: nat, y: nat, n: nat)
    requires x < Pow2(n) && y < Pow2(n)
    requires forall k: nat :: k < n ==> Test(x, k) == Test(y, k)
    ensures x == y
  {
    if n > 0 {
      forall k: nat | k < n - 1
        ensures Test(x / 2, k) == Test(y / 2, k)
      {
        assert Test(x, k + 1) == Test(y, k + 1);
      }
      WordExtensional(x / 2, y / 2, n - 1);
      assert Test(x, 0) == Test(y, 0);
    }
  }

  // ----- sequences of words -----

  /** Enough words for that many bits, and no more. */
  function Chunks(bits: nat): (chunks: nat)
    ensures bits <= 64 * chunks < bits + 64
  {
    bits / 64 + if bits % 64 != 0 then 1 else 0
  }

  predicate Member(words: seq<Word>, pos: nat) {
    pos / 64 < |words| && Test(words[pos / 64], pos % 64)
  }

  /** The set a sequence of words stands for. */
  ghost function Elements(words: seq<Word>): set<nat> {
    set p: nat | p < 64 * |words| && Member(words, p)
  }

  function WithBit(w: Word, k: nat): Word
    requires k < 64
  {
    Pow2Monotone(k, 64);
    OperatorsFit(w, Pow2(k), 64);
    Or(w, Pow2(k))
  }

  function WithoutBit(w: Word, k: nat): Word
    requires k < 64
  {
    Pow2Monotone(k, 64);
    OperatorsFit(w, Pow2(k), 64);
    AndNot(w, Pow2(k))
  }

  /** Setting and clearing a bit add and remove one element. */
  lemma UpdateElements(words: seq<Word>, pos: nat)
    requires pos / 64 < |words|
    ensures Elements(words[pos / 64 := WithBit(words[pos / 64], pos % 64)]) == Elements(words) + {pos}
    ensures Elements(words[pos / 64 := WithoutBit(words[pos / 64], pos % 64)]) == Elements(words) - {pos}
  {
    var added := words[pos / 64 := WithBit(words[pos / 64], pos % 64)];
    var removed := words[pos / 64 := WithoutBit(words[pos / 64], pos % 64)];
    forall p: nat | p < 64 * |words|
      ensures Member(added, p) <==> p == pos || Member(words, p)
      ensures Member(removed, p) <==> p != pos && Member(words, p)
    {
      OperatorsTest(words[pos / 64], Pow2(pos % 64), p % 64);
      Pow2Test(pos % 64, p % 64);
    }
  }

  /** Equal-length word sequences that stand for the same set are the same words, so comparing
      words decides equality of sets. */
  lemma ElementsInjective(a: seq<Word>, b: seq<Word>)
    requires |a| == |b| && Elements(a) == Elements(b)
    ensures a == b
  {
    forall i | 0 <= i < |a|
      ensures a[i] == b[i]
    {
      forall k: nat | k < 64
        ensures Test(a[i], k) == Test(b[i], k)
      {
        var p := 64 * i + k;
        assert p / 64 == i && p % 64 == k;
        assert p in Elements(a) <==> p in Elements(b);
      }
      WordExtensional(a[i], b[i], 64);
    }
  }

  // ----- the operations -----

  method NewBitset(bits: nat) returns (b: array<Word>)
    ensures fresh(b) && b.Length == Chunks(bits)
    ensures Elements(b[..]) == {}
  {
    b := new Word[Chunks(bits)](_ => 0);
    forall p: nat | p < 64 * b.Length
      ensures !Member(b[..], p)
    {
      ZeroTest(p % 64);
    }
  }

  method Clone(b: array<Word>) returns (copy: array<Word>)
    ensures fresh(copy) && copy[..] == b[..]
  {
    copy := new Word[b.Length](i requires 0 <= i < b.Length reads b => b[i]);
  }

  method Set(b: array<Word>, pos: nat)
    requires pos / 64 < b.Length
    modifies b
    ensures Elements(b[..]) == old(Elements(b[..])) + {pos}
  {
    UpdateElements(b[..], pos);
    ghost var was := b[..];
    b[pos / 64] := WithBit(b[pos / 64], pos % 64);
    assert b[..] == was[pos / 64 := WithBit(was[pos / 64], pos % 64)];
  }

  method Clear(b: array<Word>, pos: nat)
    requires pos / 64 < b.Length
    modifies b
    ensures Elements(b[..]) == old(Elements(b[..])) - {pos}
  {
    UpdateElements(b[..], pos);
    ghost var was := b[..];
    b[pos / 64] := WithoutBit(b[pos / 64], pos % 64);
    assert b[..] == was[pos / 64 := WithoutBit(was[pos / 64], pos % 64)];
  }

  method Equals(a: seq<Word>, b: seq<Word>) returns (same: bool)
    ensures same <==> |a| == |b| && Elements(a) == Elements(b)
  {
    if |a| != |b| {
      return false;
    }
    for i := 0 to |a|
      invariant a[..i] == b[..i]
    {
      if a[i] != b[i] {
        if Elements(a) == Elements(b) {
          ElementsInjective(a, b);
        }
        return false;
      }
    }
    assert a == a[..|a|] == b[..|b|] == b;
    return true;
  }

  ghost predicate TestFrom(w: nat, base: nat, p: nat) {
    base <= p && Test(w, p - base)
  }

  ghost function DigitSet(w: nat, base: nat, n: nat): set<nat> {
    set p: nat | p < base + n && TestFrom(w, base, p)
  }

  lemma {:induction false} OnesCountCardinality(w: nat, base: nat, n: nat)
    requires w < Pow2(n)
    ensures |DigitSet(w, base, n)| == OnesCount(w)
    decreases n
  {
    if n > 0 {
      OnesCountCardinality(w / 2, base + 1, n - 1);
      var high := DigitSet(w / 2, base + 1, n - 1);
      assert forall p: nat :: TestFrom(w, base, p) <==> TestFrom(w / 2, base + 1, p) || (p == base && w % 2 == 1);
      if w % 2 == 1 {
        assert DigitSet(w, base, n) == high + {base};
      } else {
        assert DigitSet(w, base, n) == high;
      }
    } else {
      assert DigitSet(w, base, n) == {};
    }
  }

  lemma ElementsSplit(words: seq<Word>, i: nat)
    requires i < |words|
    ensures var low, here := Elements(words[..i]), DigitSet(words[i], 64 * i, 64);
      Elements(words[..i + 1]) == low + here && low !! here
  {
    hide Test;
    forall p: nat
      ensures p in Elements(words[..i + 1]) <==> p in Elements(words[..i]) || p in DigitSet(words[i], 64 * i, 64)
    {
      if p < 64 * i {
        assert words[..i + 1][p / 64] == words[..i][p / 64];
      } else if p < 64 * i + 64 {
        assert words[..i + 1][p / 64] == words[i];
      }
    }
  }

  /** Counting the ones word by word gives the cardinality of the set. */
  method Popcnt(words: seq<Word>) returns (total: nat)
    ensures total == |Elements(words)|
  {
    total := 0;
    for i := 0 to |words|
      invariant total == |Elements(words[..i])|
    {
      OnesCountCardinality(words[i], 64 * i, 64);
      ElementsSplit(words, i);
      total := total + OnesCount(words[i]);
    }
    assert words[..|words|] == words;
  }

  ghost function XorAll(words: seq<Word>, seed: Word): Word {
    if words == [] then seed else
      var rest, last := XorAll(words[..|words| - 1], seed), words[|words| - 1];
      OperatorsFit(rest, last, 64);
      Xor(rest, last)
  }

  /** Cardinality, truncated to a word, xor every word. */
  ghost function HashOf(words: seq<Word>): Word {
    XorAll(words, |Elements(words)| % Pow2(64))
  }

  /** In how many words bit k is set. */
  ghost function SetIn(words: seq<Word>, k: nat): nat {
    if words == [] then 0 else SetIn(words[..|words| - 1], k) + if Test(words[|words| - 1], k) then 1 else 0
  }

  lemma {:induction false} XorAllMeaning(words: seq<Word>, seed: Word, k: nat)
    ensures Test(XorAll(words, seed), k) <==> (SetIn(words, k) + if Test(seed, k) then 1 else 0) % 2 == 1
  {
    if words != [] {
      var rest, last := words[..|words| - 1], words[|words| - 1];
      XorAllMeaning(rest, seed, k);
      XorTest(XorAll(rest, seed), last, k);
    }
  }

  /** A bit of the hash is set exactly when it is set in an odd number of the words and of the cardinality. */
  lemma HashMeaning(words: seq<Word>, k: nat)
    ensures Test(HashOf(words), k) <==> (SetIn(words, k) + if Test(|Elements(words)| % Pow2(64), k) then 1 else 0) % 2 == 1
  {
    XorAllMeaning(words, |Elements(words)| % Pow2(64), k);
  }

  method Hash(words: seq<Word>) returns (hash: Word)
    ensures hash == HashOf(words)
  {
    var ones := Popcnt(words);
    hash := ones % Pow2(64);
    ghost var seed := hash;
    for i := 0 to |words|
      invariant hash == XorAll(words[..i], seed)
    {
      OperatorsFit(hash, words[i], 64);
      hash := Xor(hash, words[i]);
      assert words[..i + 1][..i] == words[..i];
    }
    assert words[..|words|] == words;
  }
}
