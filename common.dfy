/** Byte packing shared by the CPU core: the fixed-width integer types, the size of the flat
    address space, and the macros that split a 16-bit word into bytes and join two bytes into
    a word. */
module Common {
  import opened Bits

  /** uint8_t. */
  type u8 = x: int | 0 <= x < 0x100

  /** uint16_t. */
  type u16 = x: int | 0 <= x < 0x1_0000

  /** GB_MEM_SIZE: one byte of storage per 16-bit address. */
  const GB_MEM_SIZE: nat := 0x1_0000

  /** Conversion to uint8_t: C keeps the value modulo 256. */
  function U8(v: int): u8 {
    v % 0x100
  }

  /** Conversion to uint16_t: C keeps the value modulo 65536. */
  function U16(v: int): u16 {
    v % 0x1_0000
  }

  /** TO_U16(lsb, msb): the word whose high byte is `msb` and whose low byte is `lsb`. */
  function ToU16(lsb: u8, msb: u8): u16 {
    msb * 0x100 + lsb
  }

  /** The macro's own expression, `((uint16_t)msb << 8) | (uint16_t)lsb`, computes ToU16. */
  lemma {:induction false} ToU16Bits(lsb: u8, msb: u8)
    ensures Or(msb * 0x100, lsb, 16) == ToU16(lsb, msb)
  {
    Pow2Table();
    OrShifted(msb, 8, 0x100, lsb, 16);
    var x := msb * 0x100 + lsb;
    DivModUnique(x, 0x1_0000, 0, x);
  }

  /** LSB(nn): the low byte of a word. */
  function Lsb(nn: u16): u8 {
    nn % 0x100
  }

  /** The macro's own expression, `nn & 0xff`, computes Lsb. */
  lemma {:induction false} LsbBits(nn: u16)
    ensures And(nn, 0xff, 16) == Lsb(nn)
  {
    Pow2Table();
    MaskIsMod(nn, 8, 0x100, 16);
  }

  /** MSB(nn): the high byte of a word. */
  function Msb(nn: u16): u8 {
    nn / 0x100
  }

  /** The macro's own expression, `(nn >> 8) & 0xff`, computes Msb. */
  lemma {:induction false} MsbBits(nn: u16)
    ensures And(nn / 0x100, 0xff, 16) == Msb(nn)
  {
    Pow2Table();
    MaskIsMod(nn / 0x100, 8, 0x100, 16);
    DivModUnique(nn / 0x100, 0x100, 0, nn / 0x100);
  }

  /** Splitting a word and joining its bytes gives the word back. */
  lemma {:induction false} JoinSplit(x: u16)
    ensures ToU16(Lsb(x), Msb(x)) == x
  {
  }

  /** Joining two bytes and splitting the word gives the bytes back. */
  lemma {:induction false} SplitJoin(lsb: u8, msb: u8)
    ensures Lsb(ToU16(lsb, msb)) == lsb
    ensures Msb(ToU16(lsb, msb)) == msb
  {
    var x := ToU16(lsb, msb);
    DivModUnique(x, 0x100, msb, lsb);
  }

  /** `LSB(x) & 0xf0`: the low byte with its low nibble cleared. */
  lemma {:induction false} MaskedLsb(x: u16)
    ensures And(Lsb(x), 0xf0, 8) == x % 0x100 - x % 0x10
  {
    Pow2Table();
    ClearLowBits(Lsb(x), 4, 0x10, 8, 0x100);
    DivModUnique(x, 0x10, (x / 0x100) * 0x10 + (x % 0x100) / 0x10, (x % 0x100) % 0x10);
  }

  /** A value at most one byte out of range wraps back into a byte by one step of 0x100. */
  lemma {:induction false} ByteWrap(v: int)
    requires -0x100 <= v < 0x200
    ensures U8(v) == if v < 0 then v + 0x100 else if v < 0x100 then v else v - 0x100
  {
    if v < 0 {
      DivModUnique(v, 0x100, -1, v + 0x100);
    } else if v < 0x100 {
      DivModUnique(v, 0x100, 0, v);
    } else {
      DivModUnique(v, 0x100, 1, v - 0x100);
    }
  }

  /** The same for a word and 0x1_0000. */
  lemma {:induction false} WordWrap(v: int)
    requires -0x1_0000 <= v < 0x2_0000
    ensures U16(v) == if v < 0 then v + 0x1_0000 else if v < 0x1_0000 then v else v - 0x1_0000
  {
    if v < 0 {
      DivModUnique(v, 0x1_0000, -1, v + 0x1_0000);
    } else if v < 0x1_0000 {
      DivModUnique(v, 0x1_0000, 0, v);
    } else {
      DivModUnique(v, 0x1_0000, 1, v - 0x1_0000);
    }
  }
}
