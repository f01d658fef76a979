/** C's integer bit operators, on Dafny's unbounded integers.

    The interpreter computes every result and every flag with C's `&`, `|`, `^`, `~` and shifts
    on promoted `int` values, some of them negative (a borrow makes a difference negative, and
    `~flag` is always negative). This module defines those operators exactly, bit by bit in two's
    complement, and proves the facts that turn them into arithmetic: a mask is a remainder, a
    bit test is a division, an `|` of disjoint values is a sum, `~x` flips every bit. */
module Bits {

  /** 2 to the power n. */
  function Pow2(n: nat): (p: nat)
    ensures p >= 1
  {
    if n == 0 then 1 else 2 * Pow2(n - 1)
  }

  /** The powers of two the interpreter's masks and shifts use. */
  lemma {:induction false} Pow2Table()
    ensures Pow2(0) == 1 && Pow2(1) == 2 && Pow2(4) == 0x10 && Pow2(5) == 0x20
    ensures Pow2(6) == 0x40 && Pow2(7) == 0x80
    ensures Pow2(8) == 0x100 && Pow2(12) == 0x1000 && Pow2(16) == 0x1_0000
  {
    assert Pow2(4) == 0x10;
    assert Pow2(8) == 0x100;
    assert Pow2(12) == 0x1000 by {
      assert Pow2(12) == 0x10 * Pow2(8);
    }
    assert Pow2(16) == 0x1_0000;
  }

  /** Bit k of v in two's complement. Dividing by 2 rounds towards minus infinity, which is an
      arithmetic shift right, so the bits of a negative value are those C sees. */
  function Bit(v: int, k: nat): bool
    decreases k
  {
    if k == 0 then v % 2 == 1 else Bit(v / 2, k - 1)
  }

  /** The three bitwise connectives. */
  datatype BitOp = AndBits | OrBits | XorBits

  function Apply(op: BitOp, x: bool, y: bool): bool {
    match op
    case AndBits => x && y
    case OrBits => x || y
    case XorBits => x != y
  }

  /** The low n bits of `x op y`, built from bit 0 upwards. */
  function Combine(op: BitOp, x: int, y: int, n: nat): nat
    decreases n
  {
    if n == 0 then 0
    else 2 * Combine(op, x / 2, y / 2, n - 1) + (if Apply(op, x % 2 == 1, y % 2 == 1) then 1 else 0)
  }

  /** An n-bit combination is below 2^n. */
  lemma {:induction false} CombineBound(op: BitOp, x: int, y: int, n: nat)
    ensures Combine(op, x, y, n) < Pow2(n)
    decreases n
  {
    if n > 0 {
      CombineBound(op, x / 2, y / 2, n - 1);
    }
  }

  /** C's `x & y`, kept to its low n bits (all of it when the result is stored in an n-bit
      variable or both operands are below 2^n and non-negative). */
  function And(x: int, y: int, n: nat): nat {
    Combine(AndBits, x, y, n)
  }

  /** C's `x | y`, kept to its low n bits. */
  function Or(x: int, y: int, n: nat): nat {
    Combine(OrBits, x, y, n)
  }

  /** C's `x ^ y`, kept to its low n bits. */
  function Xor(x: int, y: int, n: nat): nat {
    Combine(XorBits, x, y, n)
  }

  /** C's `~x` on an `int`: in two's complement, -x - 1. */
  function Not(x: int): int {
    -x - 1
  }

  /** Bit k of a combination is the connective applied to bit k of each operand. */
  lemma {:induction false} CombineBit(op: BitOp, x: int, y: int, n: nat, k: nat)
    requires k < n
    ensures Bit(Combine(op, x, y, n), k) == Apply(op, Bit(x, k), Bit(y, k))
    decreases k
  {
    if k > 0 {
      CombineBit(op, x / 2, y / 2, n - 1, k - 1);
    }
  }

  /** Two values below 2^n with the same n low bits are equal. */
  lemma {:induction false} BitsDetermine(x: int, y: int, n: nat)
    requires 0 <= x < Pow2(n) && 0 <= y < Pow2(n)
    requires forall k: nat :: k < n ==> Bit(x, k) == Bit(y, k)
    ensures x == y
    decreases n
  {
    if n > 0 {
      forall k: nat | k < n - 1
        ensures Bit(x / 2, k) == Bit(y / 2, k)
      {
        assert Bit(x, k + 1) == Bit(y, k + 1);
      }
      BitsDetermine(x / 2, y / 2, n - 1);
      assert Bit(x, 0) == Bit(y, 0);
    }
  }

  /** A value below 2^n has no bit set at n or above. */
  lemma {:induction false} BitAbove(x: int, n: nat, k: nat)
    requires 0 <= x < Pow2(n) && n <= k
    ensures !Bit(x, k)
    decreases k
  {
    if k > 0 {
      if n > 0 {
        BitAbove(x / 2, n - 1, k - 1);
      } else {
        BitAbove(x / 2, 0, k - 1);
      }
    }
  }

  /** Zero has no bit set. */
  lemma {:induction false} BitOfZero(k: nat)
    ensures !Bit(0, k)
  {
    BitAbove(0, 0, k);
  }

  /** The value 2^k has exactly bit k set. */
  lemma {:induction false} BitOfPow2(k: nat, i: nat)
    ensures Bit(Pow2(k), i) <==> i == k
    decreases i
  {
    if i == 0 {
    } else if k == 0 {
      BitOfZero(i - 1);
    } else {
      BitOfPow2(k - 1, i - 1);
    }
  }

  /** 2^k grows with k. */
  lemma {:induction false} Pow2Grows(k: nat, n: nat)
    requires k <= n
    ensures Pow2(k) <= Pow2(n)
    decreases n
  {
    if k < n {
      Pow2Grows(k, n - 1);
    }
  }

  /** `~x` flips every bit of x. */
  lemma {:induction false} BitOfNot(v: int, k: nat)
    ensures Bit(Not(v), k) == !Bit(v, k)
    decreases k
  {
    if k > 0 {
      assert Not(v) / 2 == Not(v / 2);
      BitOfNot(v / 2, k - 1);
    }
  }

  /** On values below 2^n, and plus or is the sum, and xor plus twice and is the sum. */
  lemma {:induction false} CombineSums(x: int, y: int, n: nat)
    requires 0 <= x < Pow2(n) && 0 <= y < Pow2(n)
    ensures And(x, y, n) + Or(x, y, n) == x + y
    ensures Xor(x, y, n) + 2 * And(x, y, n) == x + y
    decreases n
  {
    if n > 0 {
      CombineSums(x / 2, y / 2, n - 1);
    }
  }

  /** Euclidean division has a single quotient and remainder. */
  lemma {:induction false} DivModUnique(x: int, d: int, q: int, r: int)
    requires d > 0 && 0 <= r < d && x == d * q + r
    ensures x / d == q && x % d == r
  {
    var t := x / d - q;
    assert d * t == r - x % d;
    assert -d < d * t < d;
  }

  /** Dividing by 2p is halving and then dividing by p; the remainder follows. */
  lemma {:induction false} ModDouble(x: int, p: int)
    requires p > 0
    ensures x / (2 * p) == (x / 2) / p
    ensures x % (2 * p) == 2 * ((x / 2) % p) + x % 2
  {
    var q, b := (x / 2) / p, (x / 2) % p;
    assert x / 2 == p * q + b;
    assert x == (2 * p) * q + (2 * b + x % 2);
    DivModUnique(x, 2 * p, q, 2 * b + x % 2);
  }

  /** Bit k of v is the parity of v / 2^k: `v & (1 << k)` is a division, whatever v's sign. */
  lemma {:induction false} BitIsDivision(v: int, k: nat)
    ensures Bit(v, k) <==> (v / Pow2(k)) % 2 == 1
    decreases k
  {
    if k > 0 {
      BitIsDivision(v / 2, k - 1);
      ModDouble(v, Pow2(k - 1));
    }
  }

  /** `x & (p - 1)`, with p = 2^m, on a non-negative x is x mod p. */
  lemma {:induction false} MaskIsMod(x: int, m: nat, p: nat, n: nat)
    requires p == Pow2(m) && 0 <= x && m <= n
    ensures And(x, p - 1, n) == x % p
    decreases n
  {
    if m == 0 {
      AndZero(x, n);
    } else {
      var p' := Pow2(m - 1);
      assert p - 1 == 2 * (p' - 1) + 1;
      assert (p - 1) / 2 == p' - 1 && (p - 1) % 2 == 1;
      assert And(x, p - 1, n) == 2 * And(x / 2, p' - 1, n - 1) + x % 2;
      MaskIsMod(x / 2, m - 1, p', n - 1);
      ModDouble(x, p');
    }
  }

  /** `x & 0` is 0. */
  lemma {:induction false} AndZero(x: int, n: nat)
    ensures And(x, 0, n) == 0
    decreases n
  {
    if n > 0 {
      AndZero(x / 2, n - 1);
    }
  }

  /** `v & (1 << k)` is 2^k when bit k of v is set and 0 otherwise. */
  lemma {:induction false} AndPow2(v: int, k: nat, n: nat)
    requires k < n
    ensures And(v, Pow2(k), n) == if Bit(v, k) then Pow2(k) else 0
  {
    Pow2Grows(k + 1, n);
    var r := if Bit(v, k) then Pow2(k) else 0;
    forall i: nat | i < n
      ensures Bit(And(v, Pow2(k), n), i) == Bit(r, i)
    {
      CombineBit(AndBits, v, Pow2(k), n, i);
      BitOfPow2(k, i);
      BitOfZero(i);
    }
    CombineBound(AndBits, v, Pow2(k), n);
    BitsDetermine(And(v, Pow2(k), n), r, n);
  }

  /** CombineBit for every bit position at once. */
  lemma {:induction false} CombineBits(op: BitOp, x: int, y: int, n: nat)
    ensures forall k: nat :: k < n ==> Bit(Combine(op, x, y, n), k) == Apply(op, Bit(x, k), Bit(y, k))
  {
    forall k: nat | k < n
      ensures Bit(Combine(op, x, y, n), k) == Apply(op, Bit(x, k), Bit(y, k))
    {
      CombineBit(op, x, y, n, k);
    }
  }

  /** Every connective here is symmetric in its operands. */
  lemma {:induction false} CombineCommutes(op: BitOp, x: int, y: int, n: nat)
    ensures Combine(op, x, y, n) == Combine(op, y, x, n)
    decreases n
  {
    if n > 0 {
      CombineCommutes(op, x / 2, y / 2, n - 1);
    }
  }

  /** `v & p`, with p = 2^k (`1 << k`), as arithmetic: bit k of v, the parity of v / p,
      times p. */
  lemma {:induction false} AndBit(v: int, k: nat, p: nat, n: nat)
    requires p == Pow2(k) && k < n
    ensures And(v, p, n) == ((v / p) % 2) * p
    ensures And(v, p, n) != 0 <==> (v / p) % 2 == 1
  {
    AndPow2(v, k, n);
    BitIsDivision(v, k);
  }

  /** Bit i of v is also bit i of v mod 2^m, for i below m. */
  lemma {:induction false} BitOfMod(v: int, m: nat, i: nat)
    requires i < m
    ensures Bit(v % Pow2(m), i) == Bit(v, i)
    decreases i
  {
    var p := Pow2(m - 1);
    ModDouble(v, p);
    var t := (v / 2) % p;
    var w := v % Pow2(m);
    assert w == 2 * t + v % 2;
    DivModUnique(w, 2, t, v % 2);
    if i > 0 {
      BitOfMod(v / 2, m - 1, i - 1);
    }
  }

  /** Two values that agree on their m low bits are equal modulo 2^m. */
  lemma {:induction false} LowBitsMod(x: int, y: int, m: nat)
    requires forall i: nat :: i < m ==> Bit(x, i) == Bit(y, i)
    ensures x % Pow2(m) == y % Pow2(m)
    decreases m
  {
    if m > 0 {
      forall i: nat | i < m - 1
        ensures Bit(x / 2, i) == Bit(y / 2, i)
      {
        assert Bit(x, i + 1) == Bit(y, i + 1);
      }
      LowBitsMod(x / 2, y / 2, m - 1);
      assert Bit(x, 0) == Bit(y, 0);
      ModDouble(x, Pow2(m - 1));
      ModDouble(y, Pow2(m - 1));
    }
  }

  /** `(hi << k) | lo` with lo below 2^k = p is a sum: the or of bit fields that do not
      overlap adds them (kept to n bits). */
  lemma {:induction false} OrShifted(hi: int, k: nat, p: nat, lo: int, n: nat)
    requires p == Pow2(k)
    requires hi >= 0 && 0 <= lo < p && k <= n
    ensures Or(hi * p, lo, n) == (hi * p + lo) % Pow2(n)
    decreases k
  {
    if k == 0 {
      MaskIsMod(hi, n, Pow2(n), n);
      CombineSums(hi % Pow2(n), Pow2(n) - 1, n);
      OrOnesLow(hi, n);
    } else {
      var p' := Pow2(k - 1);
      assert hi * p == 2 * (hi * p');
      assert (hi * p) / 2 == hi * p' && (hi * p) % 2 == 0;
      OrShifted(hi, k - 1, p', lo / 2, n - 1);
      ModDouble(hi * p + lo, Pow2(n - 1));
      assert (hi * p + lo) / 2 == hi * p' + lo / 2;
    }
  }

  /** `x | 0` is x kept to n bits. */
  lemma {:induction false} OrOnesLow(x: int, n: nat)
    ensures Or(x, 0, n) == x % Pow2(n)
    decreases n
  {
    if n > 0 {
      OrOnesLow(x / 2, n - 1);
      ModDouble(x, Pow2(n - 1));
    }
  }

  /** `x ^ (q - 1)`, with q = 2^n, flips the n bits of x: it is q - 1 - x. */
  lemma {:induction false} XorOnes(x: int, n: nat, q: nat)
    requires q == Pow2(n) && 0 <= x < q
    ensures Xor(x, q - 1, n) == q - 1 - x
  {
    CombineSums(x, q - 1, n);
    MaskIsMod(x, n, q, n);
    DivModUnique(x, q, 0, x);
  }

  /** `x & ~y` and `x & y` split x (kept to n bits) between them. */
  lemma {:induction false} AndNotSplit(x: int, y: int, n: nat)
    ensures And(x, Not(y), n) + And(x, y, n) == x % Pow2(n)
    decreases n
  {
    if n > 0 {
      assert Not(y) / 2 == Not(y / 2);
      assert Not(y) % 2 == 1 - y % 2;
      AndNotSplit(x / 2, y / 2, n - 1);
      ModDouble(x, Pow2(n - 1));
    }
  }

  /** Only the n low bits of an operand matter to an n-bit combination. */
  lemma {:induction false} CombineLowBits(op: BitOp, x: int, y: int, n: nat)
    ensures Combine(op, x, y, n) == Combine(op, x, y % Pow2(n), n)
    decreases n
  {
    if n > 0 {
      ModDouble(y, Pow2(n - 1));
      CombineLowBits(op, x / 2, y / 2, n - 1);
    }
  }

  /** `x & (q - p)`, with p = 2^m and q = 2^n, on x below q clears the m low bits: it is x
      less x mod p. */
  lemma {:induction false} ClearLowBits(x: int, m: nat, p: nat, n: nat, q: nat)
    requires p == Pow2(m) && q == Pow2(n)
    requires 0 <= x < q && m <= n
    ensures And(x, q - p, n) == x - x % p
  {
    var low := p - 1;
    var mask := Not(low);
    assert And(x, q - p, n) == And(x, mask, n) by {
      Pow2Grows(m, n);
      assert mask == -1 * q + (q - p);
      DivModUnique(mask, q, -1, q - p);
      CombineLowBits(AndBits, x, mask, n);
    }
    assert And(x, mask, n) + And(x, low, n) == x by {
      AndNotSplit(x, low, n);
      DivModUnique(x, q, 0, x);
    }
    MaskIsMod(x, m, p, n);
  }

  /** `f | (1 << k)` sets bit k and keeps the others. */
  lemma {:induction false} SetBitFacts(f: int, k: nat, p: nat, n: nat)
    requires p == Pow2(k) && k < n
    ensures forall i: nat :: i < n ==> Bit(Or(f, p, n), i) == (i == k || Bit(f, i))
  {
    forall i: nat | i < n
      ensures Bit(Or(f, p, n), i) == (i == k || Bit(f, i))
    {
      CombineBit(OrBits, f, p, n, i);
      BitOfPow2(k, i);
    }
  }

  /** `f & ~(1 << k)` clears bit k and keeps the others. */
  lemma {:induction false} ClearBitFacts(f: int, k: nat, p: nat, n: nat)
    requires p == Pow2(k) && k < n
    ensures forall i: nat :: i < n ==> Bit(And(f, Not(p), n), i) == (i != k && Bit(f, i))
  {
    forall i: nat | i < n
      ensures Bit(And(f, Not(p), n), i) == (i != k && Bit(f, i))
    {
      CombineBit(AndBits, f, Not(p), n, i);
      BitOfNot(p, i);
      BitOfPow2(k, i);
    }
  }

  /** Combining two zero operands gives zero, whatever the connective. */
  lemma {:induction false} CombineZeros(op: BitOp, n: nat)
    ensures Combine(op, 0, 0, n) == 0
    decreases n
  {
    if n > 0 {
      CombineZeros(op, n - 1);
    }
  }

  /** `x ^ 1` on a single bit x flips it. */
  lemma {:induction false} XorOneBit(x: int, n: nat)
    requires 0 <= x <= 1 && 0 < n
    ensures Xor(x, 1, n) == 1 - x
  {
    CombineZeros(XorBits, n - 1);
    assert x / 2 == 0 && x % 2 == x;
  }
}
