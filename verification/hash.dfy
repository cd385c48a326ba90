/** The string keys of aggregates, and the hash that turns one into an advisory lock key. */
module Hashing {

  const TWO64 := 0x1_0000_0000_0000_0000
  const TWO63 := 0x8000_0000_0000_0000
  const OFFSET_BASIS := 0xcbf29ce484222325
  const PRIME := 0x100000001b3
  /** The inverse of the prime: their product is one more than `CARRY` times 2^64. */
  const PRIME_INVERSE := 0xce965057aff6957b
  const CARRY := 0xce9650590f

  /** A UTF-16 code unit. */
  type CodeUnit = u: nat | u < 0x1_0000

  type Word = h: nat | h < 0x1_0000_0000_0000_0000

  /** Exclusive or of two non-negative integers of any size. */
  function Xor(a: nat, b: nat): nat {
    if a == 0 && b == 0 then 0 else 2 * Xor(a / 2, b / 2) + (a + b) % 2
  }

  predicate Bit(a: nat, k: nat)
    decreases k
  {
    if k == 0 then a % 2 == 1 else Bit(a / 2, k - 1)
  }

  lemma SumParity(a: nat, b: nat)
    ensures (a + b) % 2 == 1 <==> (a % 2 == 1) != (b % 2 == 1)
  {
  }

  lemma {:induction false} XorBitByBit(a: nat, b: nat, k: nat)
    ensures Bit(Xor(a, b), k) <==> Bit(a, k) != Bit(b, k)
    decreases k
  {
    hide Xor;
    XorDigits(a, b);
    if k > 0 {
      XorBitByBit(a / 2, b / 2, k - 1);
    } else {
      SumParity(a, b);
    }
  }

  lemma XorDigits(a: nat, b: nat)
    ensures Xor(a, b) / 2 == Xor(a / 2, b / 2) && Xor(a, b) % 2 == (a + b) % 2
  {
  }

  lemma SameDigits(y: nat, a: nat, x: nat, b: nat)
    requires y / 2 == a / 2 && y % 2 == (x + b) % 2 && x % 2 == (a + b) % 2
    ensures y == a
  {
    assert (x + b) % 2 == a % 2;
  }

  lemma {:induction false} XorUndone(a: nat, b: nat)
    ensures Xor(Xor(a, b), b) == a
  {
    if a > 0 || b > 0 {
      hide Xor;
      var x := Xor(a, b);
      XorDigits(a, b);
      XorDigits(x, b);
      XorUndone(a / 2, b / 2);
      SameDigits(Xor(x, b), a, x, b);
    }
  }

  lemma {:induction false} XorCommutes(a: nat, b: nat)
    ensures Xor(a, b) == Xor(b, a)
  {
    if a == 0 && b == 0 {
    } else {
      XorCommutes(a / 2, b / 2);
    }
  }

  function Pow2(k: nat): nat {
    if k == 0 then 1 else 2 * Pow2(k - 1)
  }

  lemma Pow2Four(k: nat)
    ensures Pow2(k + 4) == 0x10 * Pow2(k)
  {
    assert Pow2(k + 2) == 4 * Pow2(k);
    assert Pow2(k + 4) == 4 * Pow2(k + 2);
  }

  lemma Pow2Sixteen(k: nat)
    ensures Pow2(k + 16) == 0x1_0000 * Pow2(k)
  {
    hide Pow2;
    Pow2Four(k);
    Pow2Four(k + 4);
    Pow2Four(k + 8);
    Pow2Four(k + 12);
  }

  lemma Pow2Of64()
    ensures Pow2(64) == TWO64
  {
    assert Pow2(0) == 1;
    hide Pow2;
    Pow2Sixteen(0);
    Pow2Sixteen(16);
    Pow2Sixteen(32);
    Pow2Sixteen(48);
  }

  /** Exclusive or sets no bit above its operands' bits. */
  lemma {:induction false} XorBelow(a: nat, b: nat, k: nat)
    requires a < Pow2(k) && b < Pow2(k)
    ensures Xor(a, b) < Pow2(k)
  {
    if k > 0 && (a > 0 || b > 0) {
      XorBelow(a / 2, b / 2, k - 1);
    }
  }

  lemma XorIsWord(h: Word, u: CodeUnit)
    ensures Xor(h, u) < TWO64
  {
    Pow2Of64();
    hide Pow2, Xor;
    XorBelow(h, u, 64);
  }

  /** One round: the product is unbounded, and the mask keeps its low 64 bits. */
  function Absorb(h: Word, u: CodeUnit): Word {
    Xor(h, u) * PRIME % TWO64
  }

  /** The unsigned hash state after some code units, from a given state. */
  function Fold(from: Word, key: seq<CodeUnit>): Word {
    if key == [] then from else Absorb(Fold(from, key[..|key| - 1]), key[|key| - 1])
  }

  /** The 64-bit two's-complement reading of a word. */
  function Signed(h: Word): (r: int)
    ensures -TWO63 <= r < TWO63 && r % TWO64 == h
  {
    if h >= TWO63 then assert (h - TWO64) % TWO64 == h % TWO64; h - TWO64 else h
  }

  /** `fnv1a64` computes the two's-complement reading of the unsigned fold. */
  method Fnv1a64(key: seq<CodeUnit>) returns (hash: int)
    ensures hash == Signed(Fold(OFFSET_BASIS, key))
  {
    hash := OFFSET_BASIS;
    for i := 0 to |key|
      invariant hash == Fold(OFFSET_BASIS, key[..i])
    {
      assert key[..i + 1][..i] == key[..i];
      var mixed := Xor(hash, key[i]);
      hash := mixed * PRIME % TWO64;
    }
    assert key[..|key|] == key;
    if hash >= TWO63 {
      hash := hash - TWO64;
    }
  }

  // --- Known values ---

  lemma {:induction false} XorZero(a: nat)
    ensures Xor(a, 0) == a
  {
    if a > 0 {
      XorZero(a / 2);
    }
  }

  lemma XorStep(a: nat, b: nat)
    ensures Xor(a, b) == 2 * Xor(a / 2, b / 2) + (a + b) % 2
  {
  }

  lemma XorWithA()
    ensures Xor(OFFSET_BASIS, 0x61) == 0xcbf29ce484222344
  {
    hide Xor;
    XorZero(0x197e539c9084446);
    XorStep(0x32fca739210888c, 0x1);
    XorStep(0x65f94e724211119, 0x3);
    XorStep(0xcbf29ce48422232, 0x6);
    XorStep(0x197e539c90844464, 0xc);
    XorStep(0x32fca739210888c9, 0x18);
    XorStep(0x65f94e7242111192, 0x30);
    XorStep(OFFSET_BASIS, 0x61);
  }

  lemma XorWithB()
    ensures Xor(OFFSET_BASIS, 0x62) == 0xcbf29ce484222347
  {
    hide Xor;
    XorZero(0x197e539c9084446);
    XorStep(0x32fca739210888c, 0x1);
    XorStep(0x65f94e724211119, 0x3);
    XorStep(0xcbf29ce48422232, 0x6);
    XorStep(0x197e539c90844464, 0xc);
    XorStep(0x32fca739210888c9, 0x18);
    XorStep(0x65f94e7242111192, 0x31);
    XorStep(OFFSET_BASIS, 0x62);
  }

  lemma FoldOne(h: Word, u: CodeUnit)
    ensures Fold(h, [u]) == Xor(h, u) * PRIME % TWO64
  {
    assert [u][..0] == [];
    hide Xor;
    assert Fold(h, [u]) == Absorb(Fold(h, []), u);
  }

  /** The published FNV-1a test values for the empty key, "a" and "b". */
  lemma KnownHashes()
    ensures Fold(OFFSET_BASIS, []) == 0xcbf29ce484222325
    ensures Fold(OFFSET_BASIS, [0x61]) == 0xaf63dc4c8601ec8c
    ensures Fold(OFFSET_BASIS, [0x62]) == 0xaf63df4c8601f1a5
  {
    hide Xor, Absorb;
    XorWithA();
    XorWithB();
    FoldOne(OFFSET_BASIS, 0x61);
    FoldOne(OFFSET_BASIS, 0x62);
    assert Fold(OFFSET_BASIS, []) == OFFSET_BASIS;
    hide Fold;
  }

  // --- Every round is a bijection on words ---

  /** Multiplying by the odd prime loses nothing: its inverse brings the word back. */
  lemma PrimeUndone(h: nat)
    requires h < TWO64
    ensures (h * PRIME % TWO64) * PRIME_INVERSE % TWO64 == h
  {
    var q, r := h * PRIME / TWO64, h * PRIME % TWO64;
    assert PRIME * PRIME_INVERSE == 1 + CARRY * TWO64;
    assert r * PRIME_INVERSE == h + (h * CARRY - q * PRIME_INVERSE) * TWO64;
    Residue(r * PRIME_INVERSE, h * CARRY - q * PRIME_INVERSE, h);
  }

  lemma Residue(x: int, q: int, r: nat)
    requires r < TWO64 && x == r + q * TWO64
    ensures x % TWO64 == r
  {
  }

  /** The state before a round, recovered from the one after it. */
  function Unabsorb(h: Word, u: CodeUnit): nat {
    Xor(h * PRIME_INVERSE % TWO64, u)
  }

  lemma AbsorbUndone(h: Word, u: CodeUnit)
    ensures Unabsorb(Absorb(h, u), u) == h
  {
    XorIsWord(h, u);
    PrimeUndone(Xor(h, u));
    XorUndone(h, u);
  }

  /** From one state, different code units lead to different states. */
  lemma AbsorbSeparates(h: Word, u: CodeUnit, v: CodeUnit)
    ensures Absorb(h, u) == Absorb(h, v) <==> u == v
  {
    XorIsWord(h, u);
    XorIsWord(h, v);
    PrimeUndone(Xor(h, u));
    PrimeUndone(Xor(h, v));
    XorCommutes(h, u);
    XorCommutes(h, v);
    XorUndone(u, h);
    XorUndone(v, h);
  }

  /** From different states, the same code units lead to different states. */
  lemma {:induction false} FoldInjective(h: Word, g: Word, key: seq<CodeUnit>)
    ensures Fold(h, key) == Fold(g, key) <==> h == g
  {
    if key != [] {
      var front, u := key[..|key| - 1], key[|key| - 1];
      FoldInjective(h, g, front);
      AbsorbUndone(Fold(h, front), u);
      AbsorbUndone(Fold(g, front), u);
    }
  }

  lemma {:induction false} FoldAppend(h: Word, a: seq<CodeUnit>, b: seq<CodeUnit>)
    ensures Fold(h, a + b) == Fold(Fold(h, a), b)
  {
    if b == [] {
      assert a + b == a;
    } else {
      assert (a + b)[..|a + b| - 1] == a + b[..|b| - 1];
      FoldAppend(h, a, b[..|b| - 1]);
    }
  }

  /** Keys that share an ending collide exactly when what comes before it does. */
  lemma {:induction false} SharedEndingCollidesIff(a: seq<CodeUnit>, b: seq<CodeUnit>, ending: seq<CodeUnit>)
    ensures Fold(OFFSET_BASIS, a + ending) == Fold(OFFSET_BASIS, b + ending)
       <==> Fold(OFFSET_BASIS, a) == Fold(OFFSET_BASIS, b)
  {
    FoldAppend(OFFSET_BASIS, a, ending);
    FoldAppend(OFFSET_BASIS, b, ending);
    FoldInjective(Fold(OFFSET_BASIS, a), Fold(OFFSET_BASIS, b), ending);
  }

  /** Keys of one length that differ in exactly one code unit never collide. */
  lemma OneUnitApartNeverCollide(a: seq<CodeUnit>, b: seq<CodeUnit>, i: nat)
    requires |a| == |b| && i < |a| && a[i] != b[i]
    requires forall j :: 0 <= j < |a| && j != i ==> a[j] == b[j]
    ensures Signed(Fold(OFFSET_BASIS, a)) != Signed(Fold(OFFSET_BASIS, b))
  {
    var before, ending := a[..i], a[i + 1..];
    assert a == before + [a[i]] + ending && b == before + [b[i]] + ending;
    SharedEndingCollidesIff(before + [a[i]], before + [b[i]], ending);
    FoldAppend(OFFSET_BASIS, before, [a[i]]);
    FoldAppend(OFFSET_BASIS, before, [b[i]]);
    var h := Fold(OFFSET_BASIS, before);
    assert Fold(h, [a[i]]) == Absorb(h, a[i]) && Fold(h, [b[i]]) == Absorb(h, b[i]);
    AbsorbSeparates(h, a[i], b[i]);
  }

  // --- The key of an aggregate instance ---

  function KeyOf(name: string, id: string): string {
    name + ":" + id
  }

  /**
   * Two instances share a key exactly when they are the same, or one name goes on, past a
   * colon, with what the other's id begins with.
   */
  lemma KeysCollideIff(n: string, i: string, m: string, j: string)
    requires |n| <= |m|
    ensures KeyOf(n, i) == KeyOf(m, j) <==>
      || (n == m && i == j)
      || (|n| < |m| && m == n + ":" + m[|n| + 1..] && i == m[|n| + 1..] + ":" + j)
  {
    var a, b := KeyOf(n, i), KeyOf(m, j);
    if |n| < |m| && m == n + ":" + m[|n| + 1..] && i == m[|n| + 1..] + ":" + j {
      assert b == n + ":" + (m[|n| + 1..] + ":" + j);
    }
    if a == b {
      assert n == a[..|n|] && m == b[..|m|];
      assert i == a[|n| + 1..] && j == b[|m| + 1..];
      if |n| < |m| {
        assert m[|n|] == a[|n|] == ':';
        assert m == m[..|n|] + [m[|n|]] + m[|n| + 1..];
        assert b[|n| + 1..] == m[|n| + 1..] + ":" + j;
      }
    }
  }

  /** With names free of colons, the string key is as good as the pair, whatever the ids. */
  lemma ColonFreeNamesNeverCollide(n: string, i: string, m: string, j: string)
    requires ':' !in n && ':' !in m
    ensures KeyOf(n, i) == KeyOf(m, j) <==> n == m && i == j
  {
    if |n| <= |m| {
      KeysCollideIff(n, i, m, j);
      assert forall rest: string :: (n + ":" + rest)[|n|] == ':';
    } else {
      KeysCollideIff(m, j, n, i);
      assert forall rest: string :: (m + ":" + rest)[|m|] == ':';
    }
  }

  /** A colon in a name can make two instances one. */
  lemma ColonInNameCollides()
    ensures KeyOf("a", "b:c") == KeyOf("a:b", "c")
  {
    assert KeyOf("a", "b:c") == "a:b:c" == KeyOf("a:b", "c");
  }
}
