/** Deterministic identifiers: the 64-bit mixer and the 128-bit ids built from it. */
module Ids {

  const W: nat := 0x1_0000_0000_0000_0000
  const UUID_DOMAIN_TASK: Word := 0x5441_534B_5F49_445F

  /** A 64-bit machine word; all arithmetic on it wraps. */
  type Word = w: nat | w < 0x1_0000_0000_0000_0000
  type Uuid = nat

  /** Bitwise exclusive or. */
  function Xor(a: nat, b: nat): nat {
    if a == 0 && b == 0 then 0 else (a + b) % 2 + 2 * Xor(a / 2, b / 2)
  }

  function Pow2(n: nat): (p: nat)
    ensures p >= 1
  {
    if n == 0 then 1 else 2 * Pow2(n - 1)
  }

  lemma {:induction false} XorBelow(a: nat, b: nat, n: nat)
    requires a < Pow2(n) && b < Pow2(n)
    ensures Xor(a, b) < Pow2(n)
  {
    if n > 0 && !(a == 0 && b == 0) {
      XorBelow(a / 2, b / 2, n - 1);
    }
  }

  lemma {:induction false} Pow2Sum(m: nat, n: nat)
    ensures Pow2(m + n) == Pow2(m) * Pow2(n)
  {
    if m > 0 {
      Pow2Sum(m - 1, n);
    }
  }

  lemma {:induction false} Pow2Squared(m: nat, p: nat)
    requires Pow2(m) == p
    ensures Pow2(2 * m) == p * p
  {
    Pow2Sum(m, m);
  }

  lemma {:induction false} Pow2Of64()
    ensures Pow2(64) == W
  {
    Pow2Squared(4, 16);
    Pow2Squared(8, 0x100);
    Pow2Squared(16, 0x1_0000);
    Pow2Squared(32, 0x1_0000_0000);
  }

  function XorWord(a: Word, b: Word): (w: Word)
    ensures w == Xor(a, b)
  {
    Pow2Of64();
    XorBelow(a, b, 64);
    Xor(a, b)
  }

  function WrappingAdd(a: Word, b: Word): (w: Word) { (a + b) % W }
  function WrappingMul(a: Word, b: Word): (w: Word) { (a * b) % W }

  /** Right shift: k halvings. */
  function ShiftRight(a: Word, k: nat): (w: Word)
    ensures w <= a
  {
    if k == 0 then a else ShiftRight(a / 2, k - 1)
  }

  function SplitMix64(x: Word): Word {
    var z := WrappingAdd(x, 0x9E37_79B9_7F4A_7C15);
    var z := WrappingMul(XorWord(z, ShiftRight(z, 30)), 0xBF58_476D_1CE4_E5B9);
    var z := WrappingMul(XorWord(z, ShiftRight(z, 27)), 0x94D0_49BB_1331_11EB);
    XorWord(z, ShiftRight(z, 31))
  }

  function DeterministicUuid(seed: Word, domain: Word, counter: Word): Uuid {
    var x0 := XorWord(XorWord(seed, domain), counter);
    var lo := SplitMix64(x0);
    var hi := SplitMix64(WrappingAdd(x0, 0xD1B5_4A32_D192_ED03));
    hi * W + lo
  }

  lemma {:induction false} XorParts(a: nat, b: nat)
    ensures Xor(a, b) % 2 == (a + b) % 2 && Xor(a, b) / 2 == Xor(a / 2, b / 2)
  {
    BitAndRest((a + b) % 2, Xor(a / 2, b / 2));
    if a == 0 && b == 0 {
      assert Xor(0, 0) == 0;
    }
  }

  lemma {:induction false} BitAndRest(bit: nat, rest: nat)
    requires bit < 2
    ensures (bit + 2 * rest) % 2 == bit && (bit + 2 * rest) / 2 == rest
  {}

  /** Bit i of a number. */
  function Bit(a: nat, i: nat): nat
    decreases i
  {
    if i == 0 then a % 2 else Bit(a / 2, i - 1)
  }

  /** Exclusive or works on each bit by itself. */
  lemma {:induction false} XorIsBitwise(a: nat, b: nat, i: nat)
    ensures Bit(Xor(a, b), i) == if Bit(a, i) == Bit(b, i) then 0 else 1
    decreases i
  {
    XorParts(a, b);
    if i > 0 {
      XorIsBitwise(a / 2, b / 2, i - 1);
    } else {
      SumParity(a, b);
    }
  }

  lemma {:induction false} SumParity(a: nat, b: nat)
    ensures (a + b) % 2 == if a % 2 == b % 2 then 0 else 1
  {}

  /** A right shift by k moves every bit down k places. */
  lemma {:induction false} ShiftMovesBits(a: Word, k: nat, i: nat)
    ensures Bit(ShiftRight(a, k), i) == Bit(a, i + k)
  {
    if k > 0 {
      ShiftMovesBits(a / 2, k - 1, i);
    }
  }

  /** Xor with a fixed word can be cancelled. */
  lemma {:induction false} XorCancels(m: nat, i: nat, j: nat)
    requires Xor(m, i) == Xor(m, j)
    ensures i == j
    decreases m + i + j
  {
    if m + i + j > 0 {
      XorParts(m, i);
      XorParts(m, j);
      XorCancels(m / 2, i / 2, j / 2);
      SameParity(i, j, m, m);
    }
  }

  lemma {:induction false} HalfOfShift(a: Word, k: nat)
    ensures ShiftRight(a, k) / 2 == ShiftRight(a / 2, k)
  {
    if k > 0 {
      HalfOfShift(a / 2, k - 1);
    }
  }

  /** Xoring a right shift onto its argument loses nothing: the top bits survive and reveal the rest. */
  lemma {:induction false} XorShiftInjective(a: Word, b: Word, k: nat)
    requires k >= 1 && Xor(a, ShiftRight(a, k)) == Xor(b, ShiftRight(b, k))
    ensures a == b
    decreases a + b
  {
    if a + b > 0 {
      var sa, sb := ShiftRight(a, k), ShiftRight(b, k);
      HalfOfShift(a, k);
      HalfOfShift(b, k);
      XorParts(a, sa);
      XorParts(b, sb);
      XorShiftInjective(a / 2, b / 2, k);
      assert sa == ShiftRight(a / 2, k - 1) == sb;
      SameParity(a, b, sa, sb);
    }
  }

  lemma {:induction false} SameParity(a: nat, b: nat, sa: nat, sb: nat)
    requires sa == sb && a / 2 == b / 2 && (a + sa) % 2 == (b + sb) % 2
    ensures a == b
  {}

  lemma {:induction false} AddCancels(a: Word, b: Word, c: Word)
    requires WrappingAdd(a, c) == WrappingAdd(b, c)
    ensures a == b
  {}

  /** An odd multiplier c has an inverse modulo 2^64, so multiplying by it can be cancelled. */
  lemma {:induction false} Multiplier1Cancels(a: Word, b: Word)
    requires WrappingMul(a, 0xBF58_476D_1CE4_E5B9) == WrappingMul(b, 0xBF58_476D_1CE4_E5B9)
    ensures a == b
  {
    var qa, qb := a * 0xBF58_476D_1CE4_E5B9 / W, b * 0xBF58_476D_1CE4_E5B9 / W;
    assert a * 0xBF58_476D_1CE4_E5B9 - W * qa == b * 0xBF58_476D_1CE4_E5B9 - W * qb;
    assert a - b == W * ((qa - qb) * 0x96DE_1B17_3F11_9089 - (a - b) * 0x70C3_BCA7_8F27_F46C);
  }

  lemma {:induction false} Multiplier2Cancels(a: Word, b: Word)
    requires WrappingMul(a, 0x94D0_49BB_1331_11EB) == WrappingMul(b, 0x94D0_49BB_1331_11EB)
    ensures a == b
  {
    var qa, qb := a * 0x94D0_49BB_1331_11EB / W, b * 0x94D0_49BB_1331_11EB / W;
    assert a * 0x94D0_49BB_1331_11EB - W * qa == b * 0x94D0_49BB_1331_11EB - W * qb;
    assert a - b == W * ((qa - qb) * 0x3196_42B2_D24D_8EC3 - (a - b) * 0x1CD3_36ED_A85F_1453);
  }

  /** The mixer never maps two words to one. */
  lemma {:induction false} SplitMix64Injective(x: Word, y: Word)
    ensures SplitMix64(x) == SplitMix64(y) <==> x == y
  {
    if SplitMix64(x) == SplitMix64(y) {
      var x0, y0 := WrappingAdd(x, 0x9E37_79B9_7F4A_7C15), WrappingAdd(y, 0x9E37_79B9_7F4A_7C15);
      var x1, y1 := XorWord(x0, ShiftRight(x0, 30)), XorWord(y0, ShiftRight(y0, 30));
      var x2, y2 := WrappingMul(x1, 0xBF58_476D_1CE4_E5B9), WrappingMul(y1, 0xBF58_476D_1CE4_E5B9);
      var x3, y3 := XorWord(x2, ShiftRight(x2, 27)), XorWord(y2, ShiftRight(y2, 27));
      var x4, y4 := WrappingMul(x3, 0x94D0_49BB_1331_11EB), WrappingMul(y3, 0x94D0_49BB_1331_11EB);
      XorShiftInjective(x4, y4, 31);
      Multiplier2Cancels(x3, y3);
      XorShiftInjective(x2, y2, 27);
      Multiplier1Cancels(x1, y1);
      XorShiftInjective(x0, y0, 30);
      AddCancels(x, y, 0x9E37_79B9_7F4A_7C15);
    }
  }

  lemma {:induction false} HalvesUnique(hi: Word, lo: Word, hi': Word, lo': Word)
    requires hi * W + lo == hi' * W + lo'
    ensures lo == lo'
  {}

  /** The id is two mixed words: the low half from the combined inputs, the high half from the same shifted on. */
  lemma {:induction false} UuidHalves(seed: Word, domain: Word, counter: Word)
    ensures var (id, x) := (DeterministicUuid(seed, domain, counter), XorWord(XorWord(seed, domain), counter));
      id % W == SplitMix64(x) && id / W == SplitMix64((x + 0xD1B5_4A32_D192_ED03) % W)
  {
    var x := XorWord(XorWord(seed, domain), counter);
    HalvesOf(SplitMix64(WrappingAdd(x, 0xD1B5_4A32_D192_ED03)), SplitMix64(x));
  }

  lemma {:induction false} HalvesOf(hi: Word, lo: Word)
    ensures (hi * W + lo) % W == lo && (hi * W + lo) / W == hi
  {}

  /** Two ids of one seed and domain are equal exactly when their counters are. */
  lemma {:induction false} UuidInjectiveInCounter(seed: Word, domain: Word, i: Word, j: Word)
    ensures DeterministicUuid(seed, domain, i) == DeterministicUuid(seed, domain, j) <==> i == j
  {
    if DeterministicUuid(seed, domain, i) == DeterministicUuid(seed, domain, j) {
      var m := XorWord(seed, domain);
      HalvesUnique(SplitMix64(WrappingAdd(XorWord(m, i), 0xD1B5_4A32_D192_ED03)), SplitMix64(XorWord(m, i)),
                   SplitMix64(WrappingAdd(XorWord(m, j), 0xD1B5_4A32_D192_ED03)), SplitMix64(XorWord(m, j)));
      SplitMix64Injective(XorWord(m, i), XorWord(m, j));
      XorCancels(m, i, j);
    }
  }

  /** An id source maps the k-th request to an id; it is usable below `limit` when it never repeats one. */
  ghost predicate InjectiveBelow(mint: nat -> Uuid, limit: nat) {
    forall i: nat, j: nat :: i < limit && j < limit && mint(i) == mint(j) ==> i == j
  }

  /** The id source of a scheduler with seed `seed`; its counter is a 64-bit word. */
  function TaskMint(seed: Word): nat -> Uuid {
    (k: nat) => DeterministicUuid(seed, UUID_DOMAIN_TASK, k % W)
  }

  lemma {:induction false} TaskMintValue(seed: Word, k: Word)
    ensures TaskMint(seed)(k) == DeterministicUuid(seed, UUID_DOMAIN_TASK, k)
  {
    assert k % W == k;
  }

  /** Every id a scheduler hands out before its counter wraps is new. */
  lemma {:induction false} TaskMintIsInjective(seed: Word)
    ensures InjectiveBelow(TaskMint(seed), W)
  {
    if !InjectiveBelow(TaskMint(seed), W) {
      var i, j := Repeated(TaskMint(seed), W);
      SameTaskId(seed, i, j);
    }
  }

  lemma {:induction false} Repeated(mint: nat -> Uuid, limit: nat) returns (i: nat, j: nat)
    requires !InjectiveBelow(mint, limit)
    ensures i < limit && j < limit && mint(i) == mint(j) && i != j
  {
    i, j :| i < limit && j < limit && mint(i) == mint(j) && i != j;
  }

  lemma {:induction false} SameTaskId(seed: Word, i: Word, j: Word)
    requires TaskMint(seed)(i) == TaskMint(seed)(j)
    ensures i == j
  {
    TaskMintValue(seed, i);
    TaskMintValue(seed, j);
    UuidInjectiveInCounter(seed, UUID_DOMAIN_TASK, i, j);
  }
}
