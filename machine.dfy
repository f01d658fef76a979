/** The state of the emulated machine as a value (struct gb: the register file, the CPU mode
    and the memory) and the helpers every handler of the interpreter shares: the register and
    pair accessors, the flag register, branch conditions, operand fetches and the stack. */
module Machine {
  import opened Common
  import opened Bits
  import Alu
  import Isa
  import Mmu

  /** enum CPU_MODE. Only NORMAL, HALT and STOP are ever entered by the interpreter. */
  datatype Mode = Normal | Halted | HaltBug | Ime | Stopped

  /** struct cpu_register. */
  datatype Regs = Regs(a: u8, b: u8, c: u8, d: u8, e: u8, f: u8, h: u8, l: u8, pc: u16, sp: u16)

  /** struct gb without the ROM: the registers and mode of struct cpu, and the memory. */
  datatype Gb = Gb(regs: Regs, mode: Mode, mem: Mmu.Memory)

  /** get_r8. */
  function GetR8(rs: Regs, r: Isa.R8): u8 {
    match r
    case A => rs.a
    case B => rs.b
    case C => rs.c
    case D => rs.d
    case E => rs.e
    case H => rs.h
    case L => rs.l
  }

  /** set_r8: the named register receives `v`; every other register, F, PC and SP are
      untouched. */
  function SetR8(rs: Regs, r: Isa.R8, v: u8): (rs': Regs)
    ensures GetR8(rs', r) == v
    ensures forall s: Isa.R8 :: s != r ==> GetR8(rs', s) == GetR8(rs, s)
    ensures rs'.f == rs.f && rs'.pc == rs.pc && rs'.sp == rs.sp
  {
    match r
    case A => rs.(a := v)
    case B => rs.(b := v)
    case C => rs.(c := v)
    case D => rs.(d := v)
    case E => rs.(e := v)
    case H => rs.(h := v)
    case L => rs.(l := v)
  }

  /** get_r16: a pair is its high register followed by its low register. */
  function GetR16(rs: Regs, rr: Isa.R16): u16 {
    match rr
    case BC => ToU16(rs.c, rs.b)
    case DE => ToU16(rs.e, rs.d)
    case HL => ToU16(rs.l, rs.h)
    case AF => ToU16(rs.f, rs.a)
    case SP => rs.sp
    case PC => rs.pc
  }

  /** set_r16: the high byte goes to the first register of the pair and the low byte to the
      second; a write to AF keeps only the four flag bits of the low byte (SetR16ReadBack
      states what reading the pair back gives). */
  function SetR16(rs: Regs, rr: Isa.R16, v: u16): (rs': Regs)
    ensures rr == Isa.AF ==> rs'.f % 0x10 == 0
    ensures rr != Isa.AF ==> rs'.f == rs.f
  {
    var hi, lo := Msb(v), Lsb(v);
    JoinSplit(v);
    if rr == Isa.AF then
      AfMask(v);
      rs.(a := hi, f := And(lo, 0xf0, 8))
    else
      match rr
      case BC => rs.(b := hi, c := lo)
      case DE => rs.(d := hi, e := lo)
      case HL => rs.(h := hi, l := lo)
      case SP => rs.(sp := v)
      case PC => rs.(pc := v)
  }

  /** Reading a pair back after set_r16 gives the written word, with its low nibble cleared
      for AF. */
  lemma {:induction false} SetR16ReadBack(rs: Regs, rr: Isa.R16, v: u16)
    ensures GetR16(SetR16(rs, rr, v), rr) == if rr == Isa.AF then v - v % 0x10 else v
  {
    JoinSplit(v);
    if rr == Isa.AF {
      AfMask(v);
    }
  }

  /** Writing a pair changes no other pair. */
  lemma {:induction false} SetR16Elsewhere(rs: Regs, rr: Isa.R16, v: u16, other: Isa.R16)
    requires other != rr
    ensures GetR16(SetR16(rs, rr, v), other) == GetR16(rs, other)
  {
  }

  /** Writing a pair back with the word it holds changes nothing (for AF, when F's low nibble
      is already clear). */
  lemma {:induction false} SetR16Own(rs: Regs, rr: Isa.R16)
    requires rr == Isa.AF ==> rs.f % 0x10 == 0
    ensures SetR16(rs, rr, GetR16(rs, rr)) == rs
  {
    var v := GetR16(rs, rr);
    SplitPair(rs, rr);
    match rr
    case AF =>
      MaskedLsb(rs.f);
      DivModUnique(rs.f, 0x100, 0, rs.f);
      assert Lsb(rs.f) == rs.f;
      assert SetR16(rs, rr, v) == rs.(a := Msb(v), f := And(Lsb(v), 0xf0, 8));
    case BC =>
      assert SetR16(rs, rr, v) == rs.(b := Msb(v), c := Lsb(v));
    case DE =>
      assert SetR16(rs, rr, v) == rs.(d := Msb(v), e := Lsb(v));
    case HL =>
      assert SetR16(rs, rr, v) == rs.(h := Msb(v), l := Lsb(v));
    case SP =>
    case PC =>
  }

  /** A pair's word splits back into the registers it was joined from. */
  lemma {:induction false} SplitPair(rs: Regs, rr: Isa.R16)
    ensures rr == Isa.BC ==> Msb(GetR16(rs, rr)) == rs.b && Lsb(GetR16(rs, rr)) == rs.c
    ensures rr == Isa.DE ==> Msb(GetR16(rs, rr)) == rs.d && Lsb(GetR16(rs, rr)) == rs.e
    ensures rr == Isa.HL ==> Msb(GetR16(rs, rr)) == rs.h && Lsb(GetR16(rs, rr)) == rs.l
    ensures rr == Isa.AF ==> Msb(GetR16(rs, rr)) == rs.a && Lsb(GetR16(rs, rr)) == rs.f
  {
    match rr
    case BC => SplitJoin(rs.c, rs.b);
    case DE => SplitJoin(rs.e, rs.d);
    case HL => SplitJoin(rs.l, rs.h);
    case AF => SplitJoin(rs.f, rs.a);
    case SP =>
    case PC =>
  }

  /** A second write to a pair hides the first. */
  lemma {:induction false} SetR16Twice(rs: Regs, rr: Isa.R16, v: u16, w: u16)
    ensures SetR16(SetR16(rs, rr, v), rr, w) == SetR16(rs, rr, w)
  {
  }

  /** `LSB(val) & 0xf0` joined again with MSB(val): the word with its low nibble cleared,
      and the masked byte has a clear low nibble. */
  lemma {:induction false} AfMask(v: u16)
    ensures And(Lsb(v), 0xf0, 8) % 0x10 == 0
    ensures And(Lsb(v), 0xf0, 8) <= 0xff
    ensures ToU16(And(Lsb(v), 0xf0, 8), Msb(v)) == v - v % 0x10
  {
    var masked := And(Lsb(v), 0xf0, 8);
    MaskedLsb(v);
    var lo := v % 0x100;
    DivModUnique(v, 0x100, v / 0x100, lo);
    DivModUnique(v, 0x10, (v / 0x100) * 0x10 + lo / 0x10, lo % 0x10);
    DivModUnique(masked, 0x10, lo / 0x10, 0);
  }

  /** The flags held in F. */
  function F(rs: Regs): Alu.Flags {
    Alu.FlagsOf(rs.f)
  }

  /** A handler's toggle_flag/set_flag/reset_flag calls: F's four flag bits become `fl`, its low
      nibble and every other register stay as they were. */
  function SetFlags(rs: Regs, fl: Alu.Flags): (rs': Regs)
    ensures F(rs') == fl && rs'.f % 0x10 == rs.f % 0x10
    ensures rs' == rs.(f := rs'.f)
  {
    rs.(f := Alu.WithFlags(rs.f, fl))
  }

  /** check_cond: C and Z hold when `f & FLAG_C` (bit 4) and `f & FLAG_Z` (bit 7) are
      non-zero, NC and NZ when they are zero. */
  function CheckCond(rs: Regs, cond: Isa.Cond): (r: bool)
    ensures cond == Isa.CondC ==> (r <==> (rs.f / 0x10) % 2 == 1)
    ensures cond == Isa.CondNC ==> (r <==> (rs.f / 0x10) % 2 == 0)
    ensures cond == Isa.CondZ ==> (r <==> (rs.f / 0x80) % 2 == 1)
    ensures cond == Isa.CondNZ ==> (r <==> (rs.f / 0x80) % 2 == 0)
  {
    match cond
    case CondC => Alu.GetFlag(rs.f, Alu.FLAG_C)
    case CondNC => !Alu.GetFlag(rs.f, Alu.FLAG_C)
    case CondZ => Alu.GetFlag(rs.f, Alu.FLAG_Z)
    case CondNZ => !Alu.GetFlag(rs.f, Alu.FLAG_Z)
  }

  /** The conditions test exactly the Z and C flags, each pair being complementary. */
  lemma {:induction false} CheckCondMeaning(rs: Regs)
    ensures CheckCond(rs, Isa.CondZ) == F(rs).z && CheckCond(rs, Isa.CondNZ) == !F(rs).z
    ensures CheckCond(rs, Isa.CondC) == F(rs).c && CheckCond(rs, Isa.CondNC) == !F(rs).c
  {
  }

  /** `gb->cpu.regs.pc++` (and sp++, hl + 1 stored as a uint16_t): one more, wrapping. */
  function Inc16(x: u16): (r: u16)
    ensures r == if x == 0xffff then 0 else x + 1
  {
    WordWrap(x + 1);
    U16(x + 1)
  }

  /** `gb->cpu.regs.sp--` (and hl - 1 stored as a uint16_t): one less, wrapping. */
  function Dec16(x: u16): (r: u16)
    ensures r == if x == 0 then 0xffff else x - 1
  {
    WordWrap(x - 1);
    U16(x - 1)
  }

  /** `cpu_read(gb, gb->cpu.regs.pc++)`: the byte at PC, and PC moved past it. */
  function Fetch8(g: Gb): (Gb, u8) {
    (g.(regs := g.regs.(pc := Inc16(g.regs.pc))), Mmu.Read(g.mem, g.regs.pc))
  }

  /** Two operand fetches, low byte first, joined with TO_U16: the little-endian word at PC,
      and PC moved two bytes on. */
  function Fetch16(g: Gb): (Gb, u16) {
    var (g1, lsb) := Fetch8(g);
    var (g2, msb) := Fetch8(g1);
    (g2, ToU16(lsb, msb))
  }

  /** stack_push: SP moves down by one and the high byte is written, then SP moves down again
      and the low byte is written. */
  function StackPush(g: Gb, v: u16): Gb {
    var sp1 := Dec16(g.regs.sp);
    var mem1 := Mmu.Write(g.mem, sp1, Msb(v));
    var sp2 := Dec16(sp1);
    g.(regs := g.regs.(sp := sp2), mem := Mmu.Write(mem1, sp2, Lsb(v)))
  }

  /** stack_pop: the low byte is read at SP, SP moves up, the high byte is read, SP moves up
      again. */
  function StackPop(g: Gb): (Gb, u16) {
    var lsb := Mmu.Read(g.mem, g.regs.sp);
    var sp1 := Inc16(g.regs.sp);
    var msb := Mmu.Read(g.mem, sp1);
    (g.(regs := g.regs.(sp := Inc16(sp1))), ToU16(lsb, msb))
  }

  /** What a push leaves: SP two lower (wrapping), the high byte just below the old SP and the
      low byte below that, every other address as it was; no register other than SP changes. */
  lemma {:induction false} StackPushLayout(g: Gb, v: u16)
    ensures StackPush(g, v).regs == g.regs.(sp := U16(g.regs.sp - 2))
    ensures StackPush(g, v).mode == g.mode
    ensures Mmu.Read(StackPush(g, v).mem, Dec16(g.regs.sp)) == Msb(v)
    ensures Mmu.Read(StackPush(g, v).mem, U16(g.regs.sp - 2)) == Lsb(v)
    ensures forall addr: u16 :: addr != Dec16(g.regs.sp) && addr != U16(g.regs.sp - 2) ==>
      Mmu.Read(StackPush(g, v).mem, addr) == Mmu.Read(g.mem, addr)
  {
    var sp := g.regs.sp;
    WordWrap(g.regs.sp - 2);
    var sp1 := Dec16(sp);
    var sp2 := Dec16(sp1);
    assert sp2 == U16(g.regs.sp - 2);
    var mem1 := Mmu.Write(g.mem, sp1, Msb(v));
    Mmu.ReadAfterWrite(mem1, sp2, Lsb(v), sp1);
  }

  /** A pop right after a push returns the pushed word and restores SP; only the two stack
      bytes below SP have changed. */
  lemma {:induction false} PushThenPop(g: Gb, v: u16)
    ensures StackPop(StackPush(g, v)).1 == v
    ensures StackPop(StackPush(g, v)).0 == g.(mem := StackPush(g, v).mem)
  {
    var sp := g.regs.sp;
    var sp1 := Dec16(sp);
    var sp2 := Dec16(sp1);
    assert Inc16(sp2) == sp1 && Inc16(sp1) == sp;
    var mem1 := Mmu.Write(g.mem, sp1, Msb(v));
    Mmu.ReadAfterWrite(mem1, sp2, Lsb(v), sp1);
    JoinSplit(v);
  }

  /** The byte an 8-bit operand names: a register, or memory at HL. */
  function ReadLoc(g: Gb, loc: Isa.Loc8): u8 {
    match loc
    case Reg(r) => GetR8(g.regs, r)
    case IndHL => Mmu.Read(g.mem, GetR16(g.regs, Isa.HL))
  }

  /** Stores into an 8-bit operand: set_r8, or a write to memory at HL. The operand reads back
      the stored byte; F, PC, SP and the mode are untouched. A register store leaves the memory
      and the other registers alone; a store at HL leaves every register alone and is the one
      mmu_write. */
  function WriteLoc(g: Gb, loc: Isa.Loc8, v: u8): (g': Gb)
    ensures ReadLoc(g', loc) == v
    ensures g'.regs.f == g.regs.f && g'.regs.pc == g.regs.pc && g'.regs.sp == g.regs.sp
    ensures g'.mode == g.mode
    ensures loc.Reg? ==> g'.mem == g.mem && forall s: Isa.R8 :: s != loc.r ==> GetR8(g'.regs, s) == GetR8(g.regs, s)
    ensures loc.IndHL? ==> g'.regs == g.regs && g'.mem == Mmu.Write(g.mem, GetR16(g.regs, Isa.HL), v)
  {
    match loc
    case Reg(r) => g.(regs := SetR8(g.regs, r, v))
    case IndHL => g.(mem := Mmu.Write(g.mem, GetR16(g.regs, Isa.HL), v))
  }
}
