/** The flag register and the arithmetic/logic unit of the SM83 core.

    Every handler computes its result and its flags with small C expressions on values promoted
    to `int`. The functions here evaluate those expressions as written, with the bit operators of
    module Bits, and each contract says what the expression means in arithmetic: the sum modulo
    256, a carry out of bit 3 or 7, a borrow, a rotation. */
module Alu {
  import opened Bits
  import opened Common

  /** The four flag masks of the F register (enum CPU_FLAGS). */
  const FLAG_C: u8 := 0x10
  const FLAG_H: u8 := 0x20
  const FLAG_N: u8 := 0x40
  const FLAG_Z: u8 := 0x80

  /** The width of C's `int`, the type every operand is promoted to. */
  const INT_BITS: nat := 32

  /** The four meaningful bits of F: zero, subtract, half-carry, carry. */
  datatype Flags = Flags(z: bool, n: bool, h: bool, c: bool)

  /** A byte result of an ALU operation together with the flags it leaves. */
  datatype Result8 = Result8(value: u8, flags: Flags)

  /** A word result of a 16-bit ALU operation together with the flags it leaves. */
  datatype Result16 = Result16(value: u16, flags: Flags)

  predicate IsFlag(flag: int) {
    flag == FLAG_C || flag == FLAG_H || flag == FLAG_N || flag == FLAG_Z
  }

  /** The bit a flag mask selects: C is bit 4, H bit 5, N bit 6, Z bit 7. */
  function FlagBit(flag: int): (k: nat)
    requires IsFlag(flag)
    ensures 4 <= k < 8 && Pow2(k) == flag
  {
    Pow2Table();
    if flag == FLAG_C then 4 else if flag == FLAG_H then 5 else if flag == FLAG_N then 6 else 7
  }

  /** get_flag, `f & flag` tested for non-zero: bit FlagBit(flag) of F. */
  function GetFlag(f: u8, flag: int): (r: bool)
    requires IsFlag(flag)
    ensures r <==> Bit(f, FlagBit(flag))
    ensures r <==> (f / flag) % 2 == 1
  {
    AndPow2(f, FlagBit(flag), 8);
    AndBit(f, FlagBit(flag), flag, 8);
    And(f, flag, 8) != 0
  }

  /** The 0x01/0x00 that get_flag returns for a flag, as the carry-in of adc, sbc, rl, rr. */
  function CarryBit(c: bool): (r: u8)
    ensures r <= 1 && (r == 1 <==> c)
  {
    if c then 1 else 0
  }

  /** set_flag, `f |= flag`: the flag set and every other bit of F kept. */
  function SetFlag(f: u8, flag: int): (r: u8)
    requires IsFlag(flag)
    ensures GetFlag(r, flag)
    ensures forall other :: IsFlag(other) && other != flag ==> GetFlag(r, other) == GetFlag(f, other)
    ensures r % 0x10 == f % 0x10
  {
    var k := FlagBit(flag);
    Pow2Table();
    SetBitFacts(f, k, flag, 8);
    CombineBound(OrBits, f, flag, 8);
    var withFlag := Or(f, flag, 8);
    LowBitsMod(withFlag, f, 4);
    withFlag
  }

  /** reset_flag, `f &= ~flag`: the flag cleared and every other bit of F kept. */
  function ResetFlag(f: u8, flag: int): (r: u8)
    requires IsFlag(flag)
    ensures !GetFlag(r, flag)
    ensures forall other :: IsFlag(other) && other != flag ==> GetFlag(r, other) == GetFlag(f, other)
    ensures r % 0x10 == f % 0x10
  {
    var k := FlagBit(flag);
    Pow2Table();
    ClearBitFacts(f, k, flag, 8);
    CombineBound(AndBits, f, Not(flag), 8);
    var withoutFlag := And(f, Not(flag), 8);
    LowBitsMod(withoutFlag, f, 4);
    withoutFlag
  }

  /** toggle_flag: set_flag when `val`, reset_flag otherwise. The flag becomes `val` and every
      other bit of F is kept. */
  function ToggleFlag(f: u8, flag: int, val: bool): (r: u8)
    requires IsFlag(flag)
    ensures GetFlag(r, flag) == val
    ensures forall other :: IsFlag(other) && other != flag ==> GetFlag(r, other) == GetFlag(f, other)
    ensures r % 0x10 == f % 0x10
  {
    if val then SetFlag(f, flag) else ResetFlag(f, flag)
  }

  /** The flags held in the F register: get_flag of Z, N, H and C. */
  function FlagsOf(f: u8): Flags {
    Flags((f / 0x80) % 2 == 1, (f / 0x40) % 2 == 1, (f / 0x20) % 2 == 1, (f / 0x10) % 2 == 1)
  }

  /** Each flag FlagsOf reports is the one get_flag tests. */
  lemma {:induction false} FlagsOfGetFlag(f: u8)
    ensures FlagsOf(f).z == GetFlag(f, FLAG_Z) && FlagsOf(f).n == GetFlag(f, FLAG_N)
    ensures FlagsOf(f).h == GetFlag(f, FLAG_H) && FlagsOf(f).c == GetFlag(f, FLAG_C)
  {
  }

  /** The four flag bits of F as a byte: Z at bit 7, N at 6, H at 5, C at 4, the rest clear. */
  function FlagBits(fl: Flags): (r: int)
    ensures 0 <= r < 0x100 && r % 0x10 == 0
  {
    var bits := 8 * CarryBit(fl.z) + 4 * CarryBit(fl.n) + 2 * CarryBit(fl.h) + CarryBit(fl.c);
    DivModUnique(0x10 * bits, 0x10, bits, 0);
    0x10 * bits
  }

  /** F after a handler toggles Z, N, H and C to `fl`: the flag bits are exactly `fl` and the
      low nibble, which no flag helper touches, is kept (TogglesSetFlags shows that the four
      toggle_flag calls a handler makes leave exactly this byte). */
  function WithFlags(f: u8, fl: Flags): (r: u8)
    ensures FlagsOf(r) == fl
    ensures r % 0x10 == f % 0x10
  {
    FlagBitsOf(f % 0x10, fl);
    f % 0x10 + FlagBits(fl)
  }

  /** A low nibble under the bits of `fl` is a byte that holds exactly the flags `fl`. */
  lemma {:induction false} FlagBitsOf(low: int, fl: Flags)
    requires 0 <= low < 0x10
    ensures 0 <= low + FlagBits(fl) < 0x100
    ensures FlagsOf(low + FlagBits(fl)) == fl
    ensures (low + FlagBits(fl)) % 0x10 == low
  {
    var z, n, h, c := CarryBit(fl.z), CarryBit(fl.n), CarryBit(fl.h), CarryBit(fl.c);
    var v := low + FlagBits(fl);
    DivModUnique(v, 0x10, c + 2 * h + 4 * n + 8 * z, low);
    BitAbove(v, 0x10, low, c, h + 2 * n + 4 * z);
    BitAbove(v, 0x20, low + 0x10 * c, h, n + 2 * z);
    BitAbove(v, 0x40, low + 0x10 * c + 0x20 * h, n, z);
    BitAbove(v, 0x80, low + 0x10 * c + 0x20 * h + 0x40 * n, z, 0);
  }

  /** A value `low + p * (b + 2 * hi)` with `low` below `p` has bit `b` at the place of `p`. */
  lemma {:induction false} BitAbove(v: int, p: int, low: int, b: int, hi: int)
    requires p > 0 && 0 <= low < p && 0 <= b <= 1 && 0 <= hi && v == low + p * (b + 2 * hi)
    ensures (v / p) % 2 == b
  {
    DivModUnique(v, p, b + 2 * hi, low);
    DivModUnique(b + 2 * hi, 2, hi, b);
  }

  /** Every F value is its low nibble under the bits of its own flags. */
  lemma {:induction false} SplitF(f: u8)
    ensures f == f % 0x10 + FlagBits(FlagsOf(f))
  {
    var q1 := f / 0x10;
    var q2 := q1 / 2;
    var q3 := q2 / 2;
    var q4 := q3 / 2;
    DivModUnique(f, 0x20, q2, f % 0x10 + 0x10 * (q1 % 2));
    DivModUnique(f, 0x40, q3, f % 0x20 + 0x20 * (q2 % 2));
    DivModUnique(f, 0x80, q4, f % 0x40 + 0x40 * (q3 % 2));
    DivModUnique(q4, 2, 0, q4);
  }

  /** Two F values with the same flags and the same low nibble are equal: the flags and the
      nibble are all eight bits of F. */
  lemma {:induction false} FlagsDetermineF(f: u8, g: u8)
    requires FlagsOf(f) == FlagsOf(g) && f % 0x10 == g % 0x10
    ensures f == g
  {
    SplitF(f);
    SplitF(g);
  }

  /** Toggling every flag to the value it already has leaves F as it was, so a handler that
      leaves a flag alone and one that writes its old value back are the same. */
  lemma {:induction false} WithOwnFlags(f: u8)
    ensures WithFlags(f, FlagsOf(f)) == f
  {
    SplitF(f);
  }

  /** The four toggle_flag calls of a handler, Z then N then H then C, leave F with exactly the
      flags they write and its low nibble unchanged. */
  lemma {:induction false} TogglesSetFlags(f: u8, fl: Flags)
    ensures ToggleFlag(ToggleFlag(ToggleFlag(ToggleFlag(f, FLAG_Z, fl.z), FLAG_N, fl.n), FLAG_H, fl.h), FLAG_C, fl.c)
      == WithFlags(f, fl)
  {
    var f1 := ToggleFlag(f, FLAG_Z, fl.z);
    var f2 := ToggleFlag(f1, FLAG_N, fl.n);
    var f3 := ToggleFlag(f2, FLAG_H, fl.h);
    var f4 := ToggleFlag(f3, FLAG_C, fl.c);
    FlagsOfGetFlag(f4);
    FlagsDetermineF(f4, WithFlags(f, fl));
  }

  /** A C test `s & p` on a sum of masked operands, p a power of two and s in [0, 2p): the sum
      carried out of the bits below p. */
  lemma {:induction false} CarryOut(s: int, k: nat, p: nat)
    requires p == Pow2(k) && k < INT_BITS && 0 <= s < 2 * p
    ensures (And(s, p, INT_BITS) != 0) <==> s >= p
  {
    AndBit(s, k, p, INT_BITS);
    if s >= p {
      DivModUnique(s, p, 1, s - p);
    } else {
      DivModUnique(s, p, 0, s);
    }
  }

  /** A C test `d & p` on a difference of masked operands, d in [-p, p): in two's complement the
      bit p is set exactly when the difference went negative, that is, when it borrowed. */
  lemma {:induction false} BorrowOut(d: int, k: nat, p: nat)
    requires p == Pow2(k) && k < INT_BITS && 0 <= d + p && d < p
    ensures (And(d, p, INT_BITS) != 0) <==> d < 0
  {
    AndBit(d, k, p, INT_BITS);
    if d < 0 {
      DivModUnique(d, p, -1, d + p);
    } else {
      DivModUnique(d, p, 0, d);
    }
  }

  /** The remainder by a positive modulus lies in [0, p). */
  lemma {:induction false} ModRange(x: int, p: int)
    requires p > 0
    ensures 0 <= x % p < p
  {
  }

  /** The carry test of the add handlers, `((x & m) + (y & m) + (z & m)) & p` with m = p - 1
      and z a carry-in of at most 1: set exactly when the parts of the operands below p sum to p or more. */
  function CarryFrom(x: int, y: int, z: int, k: nat, p: nat): (r: bool)
    requires p == Pow2(k) && 0 < k < INT_BITS && 0 <= x && 0 <= y && 0 <= z <= 1
    ensures r <==> x % p + y % p + z % p >= p
  {
    MaskIsMod(x, k, p, INT_BITS);
    MaskIsMod(y, k, p, INT_BITS);
    MaskIsMod(z, k, p, INT_BITS);
    var xm, ym, zm := x % p, y % p, z % p;
    ModRange(x, p);
    ModRange(y, p);
    assert p == 2 * Pow2(k - 1);
    DivModUnique(z, p, 0, z);
    var s := And(x, p - 1, INT_BITS) + And(y, p - 1, INT_BITS) + And(z, p - 1, INT_BITS);
    assert s == xm + ym + zm;
    CarryOut(s, k, p);
    And(s, p, INT_BITS) != 0
  }

  /** The borrow test of the subtract handlers, `((x & m) - (y & m) - (z & m)) & p` with
      m = p - 1 and z at most 1: set exactly when the part of x below p is smaller than the
      parts of y and z together. */
  function BorrowFrom(x: int, y: int, z: int, k: nat, p: nat): (r: bool)
    requires p == Pow2(k) && 0 < k < INT_BITS && 0 <= x && 0 <= y && 0 <= z <= 1
    ensures r <==> x % p < y % p + z % p
  {
    MaskIsMod(x, k, p, INT_BITS);
    MaskIsMod(y, k, p, INT_BITS);
    MaskIsMod(z, k, p, INT_BITS);
    var xm, ym, zm := x % p, y % p, z % p;
    ModRange(x, p);
    ModRange(y, p);
    assert p == 2 * Pow2(k - 1);
    DivModUnique(z, p, 0, z);
    var d := And(x, p - 1, INT_BITS) - And(y, p - 1, INT_BITS) - And(z, p - 1, INT_BITS);
    assert d == xm - ym - zm;
    BorrowOut(d, k, p);
    And(d, p, INT_BITS) != 0
  }

  /** add, adc (and, with no carry-in, add): A + x + carry as a uint8_t, Z if that byte is zero,
      N reset, H the carry out of the low nibble and C the carry out of the byte. Add8Bits ties
      H and C to the handlers' masked-sum tests, Add8Sum says what the byte and C mean. */
  function Add8(a: u8, x: u8, carry: bool): Result8 {
    var sum := a + x + CarryBit(carry);
    Result8(U8(sum), Flags(U8(sum) == 0, false, a % 0x10 + x % 0x10 + CarryBit(carry) >= 0x10, sum >= 0x100))
  }

  /** The byte of an addition and its C together are the exact sum, Z says the byte is zero and
      H says the low nibbles carried. */
  lemma {:induction false} Add8Sum(a: u8, x: u8, carry: bool)
    ensures var r := Add8(a, x, carry);
      r.value + (if r.flags.c then 0x100 else 0) == a + x + CarryBit(carry)
    ensures Add8(a, x, carry).flags.z <==> Add8(a, x, carry).value == 0
    ensures !Add8(a, x, carry).flags.n
  {
    ByteWrap(a + x + CarryBit(carry));
  }

  /** H and C of add are the tests `((a & 0xf) + (x & 0xf) + (c & 0xf)) & 0x10` and
      `((a & 0xff) + (x & 0xff) + (c & 0xff)) & 0x100` of the handlers. */
  lemma {:induction false} Add8Bits(a: u8, x: u8, carry: bool)
    ensures Add8(a, x, carry).flags.h == CarryFrom(a, x, CarryBit(carry), 4, 0x10)
    ensures Add8(a, x, carry).flags.c == CarryFrom(a, x, CarryBit(carry), 8, 0x100)
  {
    Pow2Table();
    var cin := CarryBit(carry);
    DivModUnique(a, 0x100, 0, a);
    DivModUnique(x, 0x100, 0, x);
    DivModUnique(cin, 0x100, 0, cin);
    DivModUnique(cin, 0x10, 0, cin);
  }

  /** sub, sbc and cp: A - x - carry as a uint8_t, Z if that byte is zero, N set, H the borrow
      out of the low nibble and C the borrow out of the byte. Sub8Bits ties H and C to the
      handlers' masked-difference tests, Sub8Difference says what the byte and C mean. */
  function Sub8(a: u8, x: u8, carry: bool): Result8 {
    var diff := a - x - CarryBit(carry);
    Result8(U8(diff), Flags(U8(diff) == 0, true, a % 0x10 < x % 0x10 + CarryBit(carry), diff < 0))
  }

  /** The byte of a subtraction is the exact difference, plus 0x100 exactly when C (the borrow)
      is set; Z says the byte is zero. */
  lemma {:induction false} Sub8Difference(a: u8, x: u8, carry: bool)
    ensures var r := Sub8(a, x, carry);
      r.value == a - x - CarryBit(carry) + (if r.flags.c then 0x100 else 0)
    ensures Sub8(a, x, carry).flags.z <==> Sub8(a, x, carry).value == 0
    ensures Sub8(a, x, carry).flags.n
  {
    ByteWrap(a - x - CarryBit(carry));
  }

  /** H and C of sub are the tests `((a & 0xf) - (x & 0xf) - (c & 0xf)) & 0x10` and
      `((a & 0xff) - (x & 0xff) - (c & 0xff)) & 0x100` of the handlers. */
  lemma {:induction false} Sub8Bits(a: u8, x: u8, carry: bool)
    ensures Sub8(a, x, carry).flags.h == BorrowFrom(a, x, CarryBit(carry), 4, 0x10)
    ensures Sub8(a, x, carry).flags.c == BorrowFrom(a, x, CarryBit(carry), 8, 0x100)
  {
    Pow2Table();
    var cin := CarryBit(carry);
    DivModUnique(a, 0x100, 0, a);
    DivModUnique(x, 0x100, 0, x);
    DivModUnique(cin, 0x100, 0, cin);
    DivModUnique(cin, 0x10, 0, cin);
  }

  /** inc_r / inc_indirect_hl: the byte plus one as a uint8_t, Z from that byte, N reset, H the
      carry out of the low nibble, C left as it was. */
  function Inc8(v: u8, fl: Flags): Result8 {
    var value := U8(v + 1);
    Result8(value, Flags(value == 0, false, v % 0x10 + 1 >= 0x10, fl.c))
  }

  /** The byte wraps from 0xff to 0, Z says it did, and H is set exactly when the low nibble was
      0xf; H is the test `((v & 0xf) + (1 & 0xf)) & 0x10` of the handlers. */
  lemma {:induction false} Inc8Meaning(v: u8, fl: Flags)
    ensures Inc8(v, fl).value == if v == 0xff then 0 else v + 1
    ensures Inc8(v, fl).flags.z <==> v == 0xff
    ensures Inc8(v, fl).flags.h <==> v % 0x10 == 0xf
    ensures Inc8(v, fl).flags.h == CarryFrom(v, 1, 0, 4, 0x10)
  {
    Pow2Table();
    ByteWrap(v + 1);
    DivModUnique(1, 0x10, 0, 1);
    DivModUnique(0, 0x10, 0, 0);
  }

  /** dec_r / dec_indirect_hl: the byte minus one as a uint8_t, Z from that byte, N set, H the
      borrow out of the low nibble, C left as it was. */
  function Dec8(v: u8, fl: Flags): Result8 {
    var value := U8(v - 1);
    Result8(value, Flags(value == 0, true, v % 0x10 < 1, fl.c))
  }

  /** The byte wraps from 0 to 0xff, Z says it was 1, and H is set exactly when the low nibble
      was 0; H is the test `((v & 0xf) - (1 & 0xf)) & 0x10` of the handlers. */
  lemma {:induction false} Dec8Meaning(v: u8, fl: Flags)
    ensures Dec8(v, fl).value == if v == 0 then 0xff else v - 1
    ensures Dec8(v, fl).flags.z <==> v == 1
    ensures Dec8(v, fl).flags.h <==> v % 0x10 == 0
    ensures Dec8(v, fl).flags.h == BorrowFrom(v, 1, 0, 4, 0x10)
  {
    Pow2Table();
    ByteWrap(v - 1);
    DivModUnique(1, 0x10, 0, 1);
    DivModUnique(0, 0x10, 0, 0);
  }

  /** inc followed by dec restores the byte and the carry, and dec followed by inc too. */
  lemma {:induction false} IncDecInverse(v: u8, fl: Flags)
    ensures Dec8(Inc8(v, fl).value, fl).value == v
    ensures Inc8(Dec8(v, fl).value, fl).value == v
    ensures Dec8(Inc8(v, fl).value, fl).flags.c == fl.c
  {
    Inc8Meaning(v, fl);
    Dec8Meaning(v, fl);
    Dec8Meaning(Inc8(v, fl).value, fl);
    Inc8Meaning(Dec8(v, fl).value, fl);
  }

  /** Whether bit i of a byte is set, for the eight bits of a register. */
  type BitIndex = i: int | 0 <= i < 8

  /** and_a_*: `a & x`; Z from the result, N reset, H set, C reset. */
  function And8(a: u8, x: u8): Result8 {
    Pow2Table();
    CombineBound(AndBits, a, x, 8);
    var value := And(a, x, 8);
    Result8(value, Flags(value == 0, false, true, false))
  }

  /** Each bit of `and`'s result is the conjunction of the operands' bits. */
  lemma {:induction false} And8Bits(a: u8, x: u8)
    ensures forall i: BitIndex :: Bit(And8(a, x).value, i) == (Bit(a, i) && Bit(x, i))
  {
    CombineBits(AndBits, a, x, 8);
  }

  /** xor_a_*: `a ^ x`; Z from the result, N, H and C reset. */
  function Xor8(a: u8, x: u8): Result8 {
    Pow2Table();
    CombineBound(XorBits, a, x, 8);
    var value := Xor(a, x, 8);
    Result8(value, Flags(value == 0, false, false, false))
  }

  /** Each bit of `xor`'s result says whether the operands' bits differ. */
  lemma {:induction false} Xor8Bits(a: u8, x: u8)
    ensures forall i: BitIndex :: Bit(Xor8(a, x).value, i) == (Bit(a, i) != Bit(x, i))
  {
    CombineBits(XorBits, a, x, 8);
  }

  /** or_a_*: `a | x`; Z from the result, N, H and C reset. */
  function Or8(a: u8, x: u8): Result8 {
    Pow2Table();
    CombineBound(OrBits, a, x, 8);
    var value := Or(a, x, 8);
    Result8(value, Flags(value == 0, false, false, false))
  }

  /** Each bit of `or`'s result is the disjunction of the operands' bits. */
  lemma {:induction false} Or8Bits(a: u8, x: u8)
    ensures forall i: BitIndex :: Bit(Or8(a, x).value, i) == (Bit(a, i) || Bit(x, i))
  {
    CombineBits(OrBits, a, x, 8);
  }

  /** The three logic operations against addition: and plus or is the sum, and xor is the sum
      without the carries (twice the and). */
  lemma {:induction false} LogicSums(a: u8, x: u8)
    ensures And8(a, x).value + Or8(a, x).value == a + x
    ensures Xor8(a, x).value + 2 * And8(a, x).value == a + x
  {
    Pow2Table();
    CombineSums(a, x, 8);
  }

  /** `xor a` clears A and sets Z; `and a` and `or a` keep A and set Z exactly when A is 0. */
  lemma {:induction false} SelfLogic(a: u8)
    ensures Xor8(a, a).value == 0 && Xor8(a, a).flags.z
    ensures And8(a, a).value == a && Or8(a, a).value == a
  {
    Pow2Table();
    var andA, orA, xorA := And8(a, a).value, Or8(a, a).value, Xor8(a, a).value;
    And8Bits(a, a);
    Or8Bits(a, a);
    Xor8Bits(a, a);
    BitsDetermine(andA, a, 8);
    BitsDetermine(orA, a, 8);
    forall i: nat | i < 8
      ensures Bit(xorA, i) == Bit(0, i)
    {
      BitOfZero(i);
    }
    BitsDetermine(xorA, 0, 8);
  }

  /** The eight accumulator operations of rows 0x80-0xBF and of the immediate column. */
  datatype AluOp = AddOp | AdcOp | SubOp | SbcOp | AndOp | XorOp | OrOp | CpOp

  /** The new A and flags of an accumulator operation with operand `x`; cp computes the flags of
      sub and leaves A as it was. */
  function Alu8(op: AluOp, a: u8, x: u8, fl: Flags): Result8 {
    match op
    case AddOp => Add8(a, x, false)
    case AdcOp => Add8(a, x, fl.c)
    case SubOp => Sub8(a, x, false)
    case SbcOp => Sub8(a, x, fl.c)
    case AndOp => And8(a, x)
    case XorOp => Xor8(a, x)
    case OrOp => Or8(a, x)
    case CpOp => Result8(a, Sub8(a, x, false).flags)
  }

  /** What every accumulator operation leaves: cp keeps A and takes sub's flags, N is set by the
      subtractions alone, Z says the new A is zero, and the logic operations clear C. */
  lemma {:induction false} Alu8Flags(op: AluOp, a: u8, x: u8, fl: Flags)
    ensures op == CpOp ==> Alu8(op, a, x, fl).value == a && Alu8(op, a, x, fl).flags == Sub8(a, x, false).flags
    ensures Alu8(op, a, x, fl).flags.n <==> op == SubOp || op == SbcOp || op == CpOp
    ensures op != CpOp ==> (Alu8(op, a, x, fl).flags.z <==> Alu8(op, a, x, fl).value == 0)
    ensures op == AndOp || op == XorOp || op == OrOp ==> !Alu8(op, a, x, fl).flags.c
    ensures op == AndOp ==> Alu8(op, a, x, fl).flags.h
    ensures op == XorOp || op == OrOp ==> !Alu8(op, a, x, fl).flags.h
  {
    match op
    case AddOp => Add8Sum(a, x, false);
    case AdcOp => Add8Sum(a, x, fl.c);
    case SubOp => Sub8Difference(a, x, false);
    case SbcOp => Sub8Difference(a, x, fl.c);
    case _ =>
  }

  /** sub undoes add: subtracting x from a + x gives a back, and the subtraction borrows exactly
      when the addition carried. */
  lemma {:induction false} AddThenSub(a: u8, x: u8)
    ensures Sub8(Add8(a, x, false).value, x, false).value == a
    ensures Sub8(Add8(a, x, false).value, x, false).flags.c == Add8(a, x, false).flags.c
  {
    var w := Add8(a, x, false).value;
    ByteWrap(a + x);
    ByteWrap(w - x);
  }

  /** cp compares: Z says A equals the operand, C says A is below it. */
  lemma {:induction false} CompareFlags(a: u8, x: u8, fl: Flags)
    ensures Alu8(CpOp, a, x, fl).flags.z <==> a == x
    ensures Alu8(CpOp, a, x, fl).flags.c <==> a < x
  {
  }

  /** add_hl_rr: HL + rr computed in uint32_t and stored as a uint16_t; N reset, H the carry
      out of bit 11, C the carry out of bit 15, Z left as it was. */
  function AddHl(hl: u16, rr: u16, fl: Flags): Result16 {
    Result16(U16(hl + rr), Flags(fl.z, false, hl % 0x1000 + rr % 0x1000 >= 0x1000, hl + rr >= 0x1_0000))
  }

  /** The word of add_hl_rr and its C together are the exact sum of HL and rr. */
  lemma {:induction false} AddHlSum(hl: u16, rr: u16, fl: Flags)
    ensures var r := AddHl(hl, rr, fl);
      r.value + (if r.flags.c then 0x1_0000 else 0) == hl + rr
  {
    WordWrap(hl + rr);
  }

  /** H and C of add_hl_rr are the handler's tests `((hl & 0xfff) + (rr & 0xfff)) & 0x1000` and
      `((hl & 0xffff) + (rr & 0xffff)) & 0x10000`. */
  lemma {:induction false} AddHlBits(hl: u16, rr: u16, fl: Flags)
    ensures AddHl(hl, rr, fl).flags.h == CarryFrom(hl, rr, 0, 12, 0x1000)
    ensures AddHl(hl, rr, fl).flags.c == CarryFrom(hl, rr, 0, 16, 0x1_0000)
  {
    Pow2Table();
    DivModUnique(hl, 0x1_0000, 0, hl);
    DivModUnique(rr, 0x1_0000, 0, rr);
    DivModUnique(0, 0x1000, 0, 0);
    DivModUnique(0, 0x1_0000, 0, 0);
  }

  /** The `(int8_t)` cast of an operand byte: bytes from 0x80 up stand for negative offsets. */
  function Signed(i8: u8): int {
    if i8 < 0x80 then i8 else i8 - 0x100
  }

  /** The cast gives an offset in [-128, 128), and the conversion back to uint8_t undoes it. */
  lemma {:induction false} SignedRoundTrip(i8: u8)
    ensures -0x80 <= Signed(i8) < 0x80
    ensures U8(Signed(i8)) == i8
  {
    ByteWrap(i8 - 0x100);
    ByteWrap(i8);
  }

  /** `sp + (int8_t)i8` stored as a uint16_t: SP moved by the signed offset around the 64 KiB
      address space (add_sp_i8, ld_hl_sp_plus_i8, and PC in jr). */
  function Offset(sp: u16, i8: u8): u16 {
    U16(sp + Signed(i8))
  }

  /** The flags add_sp_i8 and ld_hl_sp_plus_i8 leave: Z and N reset, H and C the carries of the
      unsigned addition of the operand byte to SP's low nibble and low byte. */
  function OffsetFlags(sp: u16, i8: u8): Flags {
    Flags(false, false, sp % 0x10 + i8 % 0x10 >= 0x10, sp % 0x100 + i8 >= 0x100)
  }

  /** H and C of add_sp_i8 are the handlers' tests `((sp & 0xf) + (i8 & 0xf)) & 0x10` and
      `((sp & 0xff) + (i8 & 0xff)) & 0x100`. */
  lemma {:induction false} OffsetFlagsBits(sp: u16, i8: u8)
    ensures OffsetFlags(sp, i8).h == CarryFrom(sp, i8, 0, 4, 0x10)
    ensures OffsetFlags(sp, i8).c == CarryFrom(sp, i8, 0, 8, 0x100)
  {
    Pow2Table();
    DivModUnique(i8, 0x100, 0, i8);
    DivModUnique(0, 0x100, 0, 0);
    DivModUnique(0, 0x10, 0, 0);
  }

  /** The low byte of SP moved by i8 and C together are the unsigned sum of SP's low byte and
      the operand byte, whatever the sign of the offset; and moving back by the same offset
      returns to SP. */
  lemma {:induction false} OffsetLowByte(sp: u16, i8: u8)
    ensures Offset(sp, i8) % 0x100 + (if OffsetFlags(sp, i8).c then 0x100 else 0) == sp % 0x100 + i8
    ensures U16(Offset(sp, i8) - Signed(i8)) == sp
  {
    var s := Signed(i8);
    var value := Offset(sp, i8);
    var sum := sp + s;
    WordWrap(sum);
    var low := sp % 0x100 + i8;
    var carry := if low >= 0x100 then 1 else 0;
    var wrap := if sum < 0 then 1 else if sum < 0x1_0000 then 0 else -1;
    assert value == sum + 0x1_0000 * wrap;
    var borrow := if i8 < 0x80 then 0 else 1;
    assert s == i8 - 0x100 * borrow;
    var lowDigit := low - 0x100 * carry;
    var q := sp / 0x100 - borrow + 0x100 * wrap + carry;
    assert value == 0x100 * q + lowDigit;
    DivModUnique(value, 0x100, q, lowDigit);
    DivModUnique(value - s, 0x1_0000, wrap, sp);
  }

  /** The byte that moves SP back by the offset i8 moves it forward: moving by -i8 after i8
      returns SP to where it was (0x80, the offset -128, has no opposite byte). */
  lemma {:induction false} OffsetInverse(sp: u16, i8: u8)
    requires i8 != 0x80
    ensures Offset(Offset(sp, i8), U8(0x100 - i8)) == sp
  {
    var sp1 := Offset(sp, i8);
    var back := U8(0x100 - i8);
    OffsetLowByte(sp, i8);
    ByteWrap(0x100 - i8);
    assert Signed(back) == -Signed(i8);
    assert Offset(sp1, back) == U16(sp1 + Signed(back));
  }

  /** The adjustment daa makes after an addition (N clear): 0x60 added when it carried or A is
      above 0x99 (C then set), then 0x06 when it half-carried or the low digit, after the first
      correction, is above 9. Each addition wraps as a uint8_t. */
  function DaaAfterAdd(a: u8, h: bool, c: bool): (r: Result8)
    ensures r.flags.z <==> r.value == 0
    ensures !r.flags.n && !r.flags.h
    ensures r.flags.c <==> c || a > 0x99
  {
    var adjustHigh := c || a > 0x99;
    var a1 := if adjustHigh then U8(a + 0x60) else a;
    var a2 := DaaLowDigit(a1, h);
    Result8(a2, Flags(a2 == 0, false, false, adjustHigh || c))
  }

  /** What the low-digit correction does to the two decimal digits: nothing when it did not
      half-carry and the low digit is a decimal digit; a low digit above 9 becomes that digit
      minus 10 and carries one into the high digit (which wraps past 0xF); a half-carry with a
      decimal low digit adds 6 to the low digit and keeps the high one. */
  lemma {:induction false} DaaLowDigitDecimal(a1: u8, h: bool)
    ensures !h && a1 % 0x10 <= 9 ==> DaaLowDigit(a1, h) == a1
    ensures a1 % 0x10 > 9 ==>
      DaaLowDigit(a1, h) % 0x10 == a1 % 0x10 - 10 && DaaLowDigit(a1, h) / 0x10 == (a1 / 0x10 + 1) % 0x10
    ensures h && a1 % 0x10 <= 9 ==>
      DaaLowDigit(a1, h) % 0x10 == a1 % 0x10 + 6 && DaaLowDigit(a1, h) / 0x10 == a1 / 0x10
  {
    var q, d := a1 / 0x10, a1 % 0x10;
    var r := DaaLowDigit(a1, h);
    if d > 9 {
      if q == 0xF {
        assert r == d - 10;
        DivModUnique(r, 0x10, 0, d - 10);
      } else {
        assert r == 0x10 * (q + 1) + (d - 10);
        DivModUnique(r, 0x10, q + 1, d - 10);
      }
      DivModUnique(q + 1, 0x10, if q == 0xF then 1 else 0, if q == 0xF then 0 else q + 1);
    } else if h {
      assert r == 0x10 * q + (d + 6);
      DivModUnique(r, 0x10, q, d + 6);
    }
  }

  /** The value daa leaves after an addition: A plus the correction, modulo 0x100 (the first
      correction leaves the low digit alone). */
  lemma {:induction false} DaaAfterAddValue(a: u8, h: bool, c: bool)
    ensures DaaAfterAdd(a, h, c).value == (a + AddCorrection(a, h, c)) % 0x100
    ensures DaaAfterAdd(a, h, c).flags.z <==> (a + AddCorrection(a, h, c)) % 0x100 == 0
    ensures DaaAfterAdd(a, h, c).flags.c <==> AddCorrection(a, h, c) >= 0x60
  {
    var adjustHigh := c || a > 0x99;
    var high := if adjustHigh then 0x60 else 0;
    var a1 := if adjustHigh then U8(a + 0x60) else a;
    var low := if h || a % 0x10 > 9 then 0x06 else 0;
    DaaHighStep(a, adjustHigh);
    assert low == if h || a1 % 0x10 > 9 then 0x06 else 0;
    var a2 := DaaLowDigit(a1, h);
    assert a2 == if a1 + low >= 0x100 then a1 + low - 0x100 else a1 + low;
    DaaAfterAddSteps(a, h, c);
    assert DaaAfterAdd(a, h, c).value == a2;
    assert AddCorrection(a, h, c) == high + low;
    DaaSumWraps(a, high, low, a1, a2, AddCorrection(a, h, c));
  }

  /** DaaAfterAdd is the first correction followed by DaaLowDigit. */
  lemma {:induction false} DaaAfterAddSteps(a: u8, h: bool, c: bool)
    ensures DaaAfterAdd(a, h, c).value == DaaLowDigit(if c || a > 0x99 then U8(a + 0x60) else a, h)
  {
  }

  /** Two corrections that each wrap at most once add up to one correction modulo 0x100. */
  lemma {:induction false} DaaSumWraps(a: u8, high: nat, low: nat, a1: u8, a2: u8, total: int)
    requires total == high + low < 0x100
    requires a1 == a + high || a1 == a + high - 0x100
    requires a2 == a1 + low || a2 == a1 + low - 0x100
    ensures a2 == (a + total) % 0x100
  {
    var k := (if a1 == a + high then 0 else 1) + (if a2 == a1 + low then 0 else 1);
    DivModUnique(a + total, 0x100, k, a2);
  }

  /** The first correction of daa after an addition keeps the low digit and wraps at most
      once. */
  lemma {:induction false} DaaHighStep(a: u8, adjustHigh: bool)
    ensures var a1 := if adjustHigh then U8(a + 0x60) else a;
      var high := if adjustHigh then 0x60 else 0;
      a1 % 0x10 == a % 0x10 && (a1 == a + high || a1 == a + high - 0x100)
  {
    ByteWrap(a + 0x60);
    if adjustHigh && a + 0x60 >= 0x100 {
      DivModUnique(a + 0x60 - 0x100, 0x10, a / 0x10 - 0xA, a % 0x10);
    } else if adjustHigh {
      DivModUnique(a + 0x60, 0x10, a / 0x10 + 6, a % 0x10);
    }
  }

  /** daa with no flags set on 0x45, already a decimal number: A stays 0x45, Z and C clear. */
  lemma {:induction false} DaaKeepsDecimal(a: u8, fl: Flags)
    requires a == 0x45 && fl == Flags(false, false, false, false)
    ensures Daa(a, fl) == Result8(0x45, Flags(false, false, false, false))
  {
    DivModUnique(a, 0x10, 4, 5);
    assert DaaLowDigit(a, false) == 0x45;
  }

  /** daa with no flags set on 0x9A (decimal 100 past 0x00): A becomes 0x00 with Z and C set. */
  lemma {:induction false} DaaWrapsHundred(a: u8, fl: Flags)
    requires a == 0x9A && fl == Flags(false, false, false, false)
    ensures Daa(a, fl) == Result8(0x00, Flags(true, false, false, true))
  {
    ByteWrap(a + 0x60);
    var a1 := U8(a + 0x60);
    assert a1 == 0xFA;
    DivModUnique(a1, 0x10, 0xF, 0xA);
    assert DaaLowDigit(a1, false) == 0;
  }

  /** What daa adds after an addition: 0x60 for a carry or A above 0x99, 0x06 for a half-carry
      or a low digit above 9. */
  function AddCorrection(a: u8, h: bool, c: bool): int {
    (if c || a > 0x99 then 0x60 else 0) + (if h || a % 0x10 > 9 then 0x06 else 0)
  }

  /** The second step of the adjustment after an addition: 0x06 added, wrapping, when it
      half-carried or the low digit is above 9. */
  function DaaLowDigit(a1: u8, h: bool): (r: u8)
    ensures var low := if h || a1 % 0x10 > 9 then 0x06 else 0;
      r == if a1 + low >= 0x100 then a1 + low - 0x100 else a1 + low
  {
    ByteWrap(a1 + 0x6);
    if h || a1 % 0x10 > 0x09 then U8(a1 + 0x6) else a1
  }

  /** The low digit daa tests is `a & 0x0f`. */
  lemma {:induction false} DaaLowDigitMask(a1: u8)
    ensures And(a1, 0x0f, INT_BITS) == a1 % 0x10
  {
    Pow2Table();
    MaskIsMod(a1, 4, 0x10, INT_BITS);
  }

  /** The adjustment daa makes after a subtraction (N set): 0x60 off when it borrowed, 0x06 off
      when it half-borrowed, each wrapping as a uint8_t, so the result is A minus both
      corrections, modulo 0x100; C is kept. */
  function DaaAfterSub(a: u8, h: bool, c: bool): (r: Result8)
    ensures r.value == (a - (if c then 0x60 else 0) - (if h then 0x06 else 0)) % 0x100
    ensures r.flags.z <==> r.value == 0
    ensures r.flags.n && !r.flags.h
    ensures r.flags.c == c
  {
    var high := if c then 0x60 else 0;
    var low := if h then 0x06 else 0;
    ByteWrap(a - high);
    var a1 := if c then U8(a - 0x60) else a;
    ByteWrap(a1 - low);
    var a2 := if h then U8(a1 - 0x6) else a1;
    DivModUnique(a - high - low, 0x100, (a - high) / 0x100 + (a1 - low) / 0x100, a2);
    Result8(a2, Flags(a2 == 0, true, false, c))
  }

  /** daa: the decimal adjustment of A after a BCD addition (N clear) or subtraction (N set).
      H is always cleared, N kept, Z set exactly when the adjusted A is zero, and C only ever
      becomes set. */
  function Daa(a: u8, fl: Flags): (r: Result8)
    ensures r.flags.z <==> r.value == 0
    ensures !r.flags.h && r.flags.n == fl.n
    ensures fl.c ==> r.flags.c
    ensures fl.n ==> r.flags.c == fl.c
  {
    if !fl.n then DaaAfterAdd(a, fl.h, fl.c) else DaaAfterSub(a, fl.h, fl.c)
  }

  /** cpl: `a ^= 0xff`, the one's complement of A; N and H set, Z and C kept. */
  function Cpl(a: u8, fl: Flags): (r: Result8)
    ensures r.value == 0xff - a
    ensures r.flags == Flags(fl.z, true, true, fl.c)
  {
    Pow2Table();
    XorOnes(a, 8, 0x100);
    Result8(Xor(a, 0xff, 8), Flags(fl.z, true, true, fl.c))
  }

  /** cpl twice gives A back. */
  lemma {:induction false} CplTwice(a: u8, fl: Flags)
    ensures Cpl(Cpl(a, fl).value, fl).value == a
  {
  }

  /** scf: C set, N and H reset, Z kept. */
  function Scf(fl: Flags): (r: Flags)
    ensures r == fl.(n := false, h := false, c := true)
  {
    Flags(fl.z, false, false, true)
  }

  /** scf's three calls, reset_flag(N), reset_flag(H) and set_flag(C), leave F holding the
      flags Scf gives and its low nibble unchanged. */
  lemma {:induction false} ScfFlagCalls(f: u8)
    ensures SetFlag(ResetFlag(ResetFlag(f, FLAG_N), FLAG_H), FLAG_C) == WithFlags(f, Scf(FlagsOf(f)))
  {
    var f1 := ResetFlag(f, FLAG_N);
    var f2 := ResetFlag(f1, FLAG_H);
    var f3 := SetFlag(f2, FLAG_C);
    FlagsOfGetFlag(f);
    FlagsOfGetFlag(f3);
    FlagsDetermineF(f3, WithFlags(f, Scf(FlagsOf(f))));
  }

  /** ccf: `get_flag(C) ^ 1` written back to C, N and H reset, Z kept: the carry is
      complemented. */
  function Ccf(fl: Flags): (r: Flags)
    ensures r == fl.(n := false, h := false, c := !fl.c)
  {
    XorOneBit(CarryBit(fl.c), INT_BITS);
    Flags(fl.z, false, false, Xor(CarryBit(fl.c), 1, INT_BITS) != 0)
  }

  /** `v & 0x80` is bit 7 of a byte kept in place: 0x80 when the byte is 0x80 or more. */
  lemma {:induction false} TopBit(v: u8)
    ensures And(v, 0x80, INT_BITS) == if v >= 0x80 then 0x80 else 0
    ensures v / 0x80 == if v >= 0x80 then 1 else 0
  {
    Pow2Table();
    AndBit(v, 7, 0x80, INT_BITS);
    if v >= 0x80 {
      DivModUnique(v, 0x80, 1, v - 0x80);
    } else {
      DivModUnique(v, 0x80, 0, v);
    }
  }

  /** `v & 0x01` is the low bit of v. */
  lemma {:induction false} LowBit(v: u8)
    ensures And(v, 1, INT_BITS) == v % 2
  {
    Pow2Table();
    MaskIsMod(v, 1, 2, INT_BITS);
  }

  /** `(hi << 7) | lo` for a bit hi and a 7-bit lo, in either order of the operands: the byte
      with top bit hi and low bits lo. */
  lemma {:induction false} OrTopBit(hi: int, lo: int)
    requires 0 <= hi <= 1 && 0 <= lo < 0x80
    ensures Or(lo, hi * 0x80, 8) == hi * 0x80 + lo
  {
    Pow2Table();
    CombineCommutes(OrBits, lo, hi * 0x80, 8);
    OrShifted(hi, 7, 0x80, lo, 8);
    DivModUnique(hi * 0x80 + lo, 0x100, 0, hi * 0x80 + lo);
  }

  /** `(v << 1) | lo` for a bit lo, stored as a uint8_t: the byte's low seven bits moved up one
      place with lo below them. */
  lemma {:induction false} OrShiftedLeft(v: u8, lo: int)
    requires 0 <= lo <= 1
    ensures Or(v * 2, lo, 8) == 2 * (v % 0x80) + lo
  {
    Pow2Table();
    OrShifted(v, 1, 2, lo, 8);
    DivModUnique(v * 2 + lo, 0x100, v / 0x80, 2 * (v % 0x80) + lo);
  }

  /** rlc_r / rlc_indirect_hl: a rotation left; the old bit 7 goes round to bit 0 and into C,
      Z from the result, N and H reset. */
  function Rlc8(v: u8): (r: Result8)
  {
    var value := 2 * (v % 0x80) + v / 0x80;
    Result8(value, Flags(value == 0, false, false, v >= 0x80))
  }

  /** The handlers' own expressions compute Rlc8: `new_c = (v & 0x80) >> 7` is its carry and
      `(v << 1) | new_c`, kept to eight bits, its byte. */
  lemma {:induction false} Rlc8Bits(v: u8)
    ensures Or(v * 2, And(v, 0x80, INT_BITS) / 0x80, 8) == Rlc8(v).value
    ensures (And(v, 0x80, INT_BITS) / 0x80 != 0) == Rlc8(v).flags.c
  {
    TopBit(v);
    OrShiftedLeft(v, v / 0x80);
  }

  /** rrc_r / rrc_indirect_hl: a rotation right; the old bit 0 goes round to bit 7 and into C,
      Z from the result, N and H reset. */
  function Rrc8(v: u8): (r: Result8)
  {
    var value := v / 2 + 0x80 * (v % 2);
    Result8(value, Flags(value == 0, false, false, v % 2 == 1))
  }

  /** `new_c = (v & 0x01) << 7` (non-zero exactly when the carry is set) and `(v >> 1) | new_c`
      compute Rrc8. */
  lemma {:induction false} Rrc8Bits(v: u8)
    ensures Or(v / 2, And(v, 0x01, INT_BITS) * 0x80, 8) == Rrc8(v).value
    ensures (And(v, 0x01, INT_BITS) * 0x80 != 0) == Rrc8(v).flags.c
  {
    LowBit(v);
    OrTopBit(v % 2, v / 2);
  }

  /** rl_r / rl_indirect_hl: a rotation left through the carry; the old C enters at bit 0 and
      bit 7 leaves into C, Z from the result, N and H reset. */
  function Rl8(v: u8, carry: bool): (r: Result8)
  {
    var value := 2 * (v % 0x80) + CarryBit(carry);
    Result8(value, Flags(value == 0, false, false, v >= 0x80))
  }

  /** `(v << 1) | old_c` kept to eight bits, and `new_c = v & 0x80`, compute Rl8. */
  lemma {:induction false} Rl8Bits(v: u8, carry: bool)
    ensures Or(v * 2, CarryBit(carry), 8) == Rl8(v, carry).value
    ensures (And(v, 0x80, INT_BITS) != 0) == Rl8(v, carry).flags.c
  {
    TopBit(v);
    OrShiftedLeft(v, CarryBit(carry));
  }

  /** rr_r / rr_indirect_hl: a rotation right through the carry; the old C enters at bit 7 and
      bit 0 leaves into C, Z from the result, N and H reset. */
  function Rr8(v: u8, carry: bool): (r: Result8)
  {
    var value := v / 2 + 0x80 * CarryBit(carry);
    Result8(value, Flags(value == 0, false, false, v % 2 == 1))
  }

  /** `(v >> 1) | (old_c << 7)` and `new_c = v & 0x01` compute Rr8. */
  lemma {:induction false} Rr8Bits(v: u8, carry: bool)
    ensures Or(v / 2, CarryBit(carry) * 0x80, 8) == Rr8(v, carry).value
    ensures (And(v, 0x01, INT_BITS) != 0) == Rr8(v, carry).flags.c
  {
    LowBit(v);
    OrTopBit(CarryBit(carry), v / 2);
  }

  /** sla_r / sla_indirect_hl: `v << 1` as a uint8_t; bit 7 goes to C, Z from the result, N and
      H reset. */
  function Sla8(v: u8): (r: Result8)
  {
    var value := U8(v * 2);
    Result8(value, Flags(value == 0, false, false, v >= 0x80))
  }

  /** `new_c = v & 0x80` is Sla8's carry, and the byte with the carry above it is twice the old
      byte: nothing is lost. */
  lemma {:induction false} Sla8Bits(v: u8)
    ensures (And(v, 0x80, INT_BITS) != 0) == Sla8(v).flags.c
    ensures Sla8(v).value + (if Sla8(v).flags.c then 0x100 else 0) == 2 * v
  {
    TopBit(v);
    DivModUnique(v * 2, 0x100, v / 0x80, 2 * (v % 0x80));
  }

  /** sra_r / sra_indirect_hl: a shift right that keeps bit 7 (the sign of a signed byte); bit 0
      goes to C, Z from the result, N and H reset. */
  function Sra8(v: u8): (r: Result8)
  {
    var value := v / 2 + 0x80 * (v / 0x80);
    Result8(value, Flags(value == 0, false, false, v % 2 == 1))
  }

  /** `(v >> 1) | (v & 0x80)` and `new_c = v & 0x01` compute Sra8. */
  lemma {:induction false} Sra8Bits(v: u8)
    ensures Or(v / 2, And(v, 0x80, INT_BITS), 8) == Sra8(v).value
    ensures (And(v, 0x01, INT_BITS) != 0) == Sra8(v).flags.c
  {
    TopBit(v);
    LowBit(v);
    OrTopBit(v / 0x80, v / 2);
  }

  /** sra keeps the sign: bit 7 of the result is bit 7 of the operand, and the bits below it
      are the operand halved. */
  lemma {:induction false} SraKeepsSign(v: u8)
    ensures (Sra8(v).value >= 0x80) == (v >= 0x80)
    ensures Sra8(v).value % 0x80 == v / 2 % 0x80
  {
    var k := if v >= 0x80 then 1 else 0;
    DivModUnique(v, 0x80, k, v - 0x80 * k);
    DivModUnique(v / 2 + 0x80 * k, 0x80, k, v / 2);
  }

  /** swap_r / swap_indirect_hl: the two nibbles exchanged; Z from the result, N, H and C
      reset. */
  function Swap8(v: u8): (r: Result8)
  {
    var value := 0x10 * (v % 0x10) + v / 0x10;
    Result8(value, Flags(value == 0, false, false, false))
  }

  /** `(v << 4) | (v >> 4)` stored as a uint8_t computes Swap8's byte. */
  lemma {:induction false} Swap8Bits(v: u8)
    ensures Or(v * 0x10, v / 0x10, 8) == Swap8(v).value
  {
    Pow2Table();
    var hi, lo := v / 0x10, v % 0x10;
    OrShifted(v, 4, 0x10, hi, 8);
    assert v * 0x10 + hi == 0x100 * hi + (0x10 * lo + hi);
    DivModUnique(v * 0x10 + hi, 0x100, hi, 0x10 * lo + hi);
  }

  /** srl_r / srl_indirect_hl: `v >> 1`; bit 0 goes to C, Z from the result, N and H reset. */
  function Srl8(v: u8): (r: Result8)
  {
    Result8(v / 2, Flags(v / 2 == 0, false, false, v % 2 == 1))
  }

  /** `new_c = v & 0x01` is Srl8's carry. */
  lemma {:induction false} Srl8Bits(v: u8)
    ensures (And(v, 0x01, INT_BITS) != 0) == Srl8(v).flags.c
  {
    LowBit(v);
  }

  /** The eight rotate/shift/swap operations of the 0xCB table, rows 0x00-0x3F. */
  datatype ShiftOp = Rlc | Rrc | Rl | Rr | Sla | Sra | Swap | Srl

  /** The CB-prefixed rotate/shift/swap of a byte with the flags before it: Z from the result,
      N and H reset, C the bit shifted out (reset by swap). */
  function Shift(op: ShiftOp, v: u8, fl: Flags): Result8 {
    match op
    case Rlc => Rlc8(v)
    case Rrc => Rrc8(v)
    case Rl => Rl8(v, fl.c)
    case Rr => Rr8(v, fl.c)
    case Sla => Sla8(v)
    case Sra => Sra8(v)
    case Swap => Swap8(v)
    case Srl => Srl8(v)
  }

  /** The flags every rotate/shift/swap leaves: Z from the result, N and H reset, C the bit
      shifted out of the top for the left moves, out of the bottom for the right moves, and
      reset by swap. */
  lemma {:induction false} ShiftFlags(op: ShiftOp, v: u8, fl: Flags)
    ensures var r := Shift(op, v, fl);
      (r.flags.z <==> r.value == 0) && !r.flags.n && !r.flags.h
    ensures op == Swap ==> !Shift(op, v, fl).flags.c
    ensures op == Rlc || op == Rl || op == Sla ==> (Shift(op, v, fl).flags.c <==> v >= 0x80)
    ensures op == Rrc || op == Rr || op == Sra || op == Srl ==> (Shift(op, v, fl).flags.c <==> v % 2 == 1)
  {
    match op
    case Sla => DivModUnique(v * 2, 0x100, v / 0x80, 2 * (v % 0x80));
    case _ =>
  }

  /** rlc then rrc restores the byte, and both leave in C the same bit (the old bit 7). */
  lemma {:induction false} RlcThenRrc(v: u8)
    ensures Rrc8(Rlc8(v).value).value == v
    ensures Rrc8(Rlc8(v).value).flags.c == Rlc8(v).flags.c
  {
    var w := Rlc8(v).value;
    DivModUnique(w, 2, v % 0x80, v / 0x80);
  }

  /** rl then rr, each rotating through the carry the other left, restores both the byte and
      the carry. */
  lemma {:induction false} RlThenRr(v: u8, carry: bool)
    ensures Rr8(Rl8(v, carry).value, Rl8(v, carry).flags.c).value == v
    ensures Rr8(Rl8(v, carry).value, Rl8(v, carry).flags.c).flags.c == carry
  {
    var w := Rl8(v, carry).value;
    TopBit(v);
    DivModUnique(w, 2, v % 0x80, CarryBit(carry));
  }

  /** swap twice is the identity. */
  lemma {:induction false} SwapTwice(v: u8)
    ensures Swap8(Swap8(v).value).value == v
  {
    var w := Swap8(v).value;
    DivModUnique(w, 0x10, v % 0x10, v / 0x10);
  }

  /** sla then srl clears bit 7 and keeps the rest. */
  lemma {:induction false} SlaThenSrl(v: u8)
    ensures Srl8(Sla8(v).value).value == v % 0x80
  {
    var w := Sla8(v).value;
    DivModUnique(v * 2, 0x100, v / 0x80, 2 * (v % 0x80));
    DivModUnique(w, 2, v % 0x80, 0);
  }

  /** The rotations of A without the prefix: rlca, rrca, rla and rra. */
  type AccumulatorRotate = op: ShiftOp | op == Rlc || op == Rrc || op == Rl || op == Rr witness Rlc

  /** rlca / rrca / rla / rra compute the byte and the carry of the CB-prefixed rotation (rlca
      writes the carry as `a & (1U << 7)` and shifts it down by 7, rrca as `a & (1U << 0)`
      shifted up by 7, the same values), but always reset Z. */
  function RotateA(op: AccumulatorRotate, a: u8, fl: Flags): (r: Result8)
    ensures r.value == Shift(op, a, fl).value
    ensures r.flags == Flags(false, false, false, Shift(op, a, fl).flags.c)
  {
    var s := Shift(op, a, fl);
    Result8(s.value, Flags(false, false, false, s.flags.c))
  }

  /** What each accumulator rotation leaves: rlca moves bit 7 round to bit 0 and into C, rla
      moves the old C into bit 0 and bit 7 into C, rrca and rra the same to the right; Z, N and
      H are clear whatever the result. */
  lemma {:induction false} RotateAMeaning(op: AccumulatorRotate, a: u8, fl: Flags)
    ensures !RotateA(op, a, fl).flags.z && !RotateA(op, a, fl).flags.n && !RotateA(op, a, fl).flags.h
    ensures op == Rlc ==>
      RotateA(op, a, fl).value == 2 * (a % 0x80) + a / 0x80 && (RotateA(op, a, fl).flags.c <==> a >= 0x80)
    ensures op == Rl ==>
      RotateA(op, a, fl).value == 2 * (a % 0x80) + CarryBit(fl.c) && (RotateA(op, a, fl).flags.c <==> a >= 0x80)
    ensures op == Rrc ==>
      RotateA(op, a, fl).value == a / 2 + 0x80 * (a % 2) && (RotateA(op, a, fl).flags.c <==> a % 2 == 1)
    ensures op == Rr ==>
      RotateA(op, a, fl).value == a / 2 + 0x80 * CarryBit(fl.c) && (RotateA(op, a, fl).flags.c <==> a % 2 == 1)
  {
  }

  /** rrca undoes rlca, and rra undoes rla when it rotates through the carry rla left. */
  lemma {:induction false} RotateAThenBack(a: u8, fl: Flags)
    ensures RotateA(Rrc, RotateA(Rlc, a, fl).value, fl).value == a
    ensures var r := RotateA(Rl, a, fl);
      RotateA(Rr, r.value, r.flags).value == a && RotateA(Rr, r.value, r.flags).flags.c == fl.c
  {
    RlcThenRrc(a);
    RlThenRr(a, fl.c);
  }

  /** bit_n_r / bit_n_indirect_hl: Z set when `v & (1U << n)` is zero, that is when bit n of the
      byte is clear; N reset, H set, C kept. */
  function TestBit(n: BitIndex, v: u8, fl: Flags): Flags {
    Flags(!Bit(v, n), false, true, fl.c)
  }

  /** The Z of bit n is the handlers' test `(v & (1U << n)) == 0`, and it says that the n-th
      binary digit of the byte is 0. */
  lemma {:induction false} TestBitMeaning(n: BitIndex, v: u8, fl: Flags)
    ensures TestBit(n, v, fl).z <==> And(v, Pow2(n), INT_BITS) == 0
    ensures TestBit(n, v, fl).z <==> (v / Pow2(n)) % 2 == 0
    ensures TestBit(n, v, fl).h && !TestBit(n, v, fl).n && TestBit(n, v, fl).c == fl.c
  {
    AndPow2(v, n, INT_BITS);
    BitIsDivision(v, n);
  }

  /** set_n_r / set_n_indirect_hl: `v | (1U << n)` as a uint8_t. */
  function SetBit(n: BitIndex, v: u8): (r: u8)
  {
    Pow2Table();
    CombineBound(OrBits, v, Pow2(n), 8);
    Or(v, Pow2(n), 8)
  }

  /** set sets bit n and keeps every other bit; the byte grows by 2^n unless the bit was
      already set. */
  lemma {:induction false} SetBitMeaning(n: BitIndex, v: u8)
    ensures SetBit(n, v) == if Bit(v, n) then v else v + Pow2(n)
    ensures forall i: BitIndex :: Bit(SetBit(n, v), i) == (i == n || Bit(v, i))
  {
    Pow2Table();
    Pow2Grows(n, 7);
    var p := Pow2(n);
    SetBitFacts(v, n, p, 8);
    CombineSums(v, p, 8);
    AndPow2(v, n, 8);
  }

  /** res_n_r / res_n_indirect_hl: `v & ~(1U << n)` as a uint8_t. */
  function ResBit(n: BitIndex, v: u8): (r: u8)
  {
    Pow2Table();
    CombineBound(AndBits, v, Not(Pow2(n)), 8);
    And(v, Not(Pow2(n)), 8)
  }

  /** res clears bit n and keeps every other bit; the byte shrinks by 2^n when the bit was
      set. */
  lemma {:induction false} ResBitMeaning(n: BitIndex, v: u8)
    ensures ResBit(n, v) == if Bit(v, n) then v - Pow2(n) else v
    ensures forall i: BitIndex :: Bit(ResBit(n, v), i) == (i != n && Bit(v, i))
  {
    Pow2Table();
    ClearBitFacts(v, n, Pow2(n), 8);
    AndNotSplit(v, Pow2(n), 8);
    AndPow2(v, n, 8);
    DivModUnique(v, 0x100, 0, v);
  }

  /** bit n reads what set and res wrote: clear Z after set, Z after res. */
  lemma {:induction false} TestAfterSetRes(n: BitIndex, v: u8, fl: Flags)
    ensures !TestBit(n, SetBit(n, v), fl).z
    ensures TestBit(n, ResBit(n, v), fl).z
  {
    SetBitMeaning(n, v);
    ResBitMeaning(n, v);
  }

  /** set and res on the same bit overwrite each other: the last one decides the bit. */
  lemma {:induction false} SetResAbsorb(n: BitIndex, v: u8)
    ensures ResBit(n, SetBit(n, v)) == ResBit(n, v)
    ensures SetBit(n, ResBit(n, v)) == SetBit(n, v)
  {
    SetBitMeaning(n, v);
    ResBitMeaning(n, v);
    ResBitMeaning(n, SetBit(n, v));
    SetBitMeaning(n, ResBit(n, v));
  }
}
