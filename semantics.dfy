/** What every handler of the interpreter does to the machine, as a function from the state
    before the handler runs (PC already past the opcode byte) to the state after it, and the
    two dispatch functions and cpu_step / cpu_init built from them. Each function follows its
    handler's steps in order: operand fetches post-increment PC, the stack helpers move SP
    between memory accesses, and the flag updates of a handler become one SetFlags with the
    flags the Alu module computes. Cycle counting (cpu_cycle) has no effect on the state and
    does not appear. */
module Semantics {
  import opened Common
  import Alu
  import Isa
  import Mmu
  import opened Machine

  /** A handler's flag updates applied to the state. */
  function Flagged(g: Gb, fl: Alu.Flags): Gb {
    g.(regs := SetFlags(g.regs, fl))
  }

  /** Register A replaced. */
  function WithA(g: Gb, v: u8): Gb {
    g.(regs := g.regs.(a := v))
  }

  /** PC replaced. */
  function WithPc(g: Gb, v: u16): Gb {
    g.(regs := g.regs.(pc := v))
  }

  /** A whole register pair replaced through set_r16. */
  function WithR16(g: Gb, rr: Isa.R16, v: u16): Gb {
    g.(regs := SetR16(g.regs, rr, v))
  }

  /** `cpu_write(gb, addr, val)` and `mmu_write(gb, addr, val)`. */
  function Store(g: Gb, addr: u16, v: u8): Gb {
    g.(mem := Mmu.Write(g.mem, addr, v))
  }

  /** `cpu_read(gb, addr)` and `mmu_read(gb, addr)`. */
  function Load(g: Gb, addr: u16): u8 {
    Mmu.Read(g.mem, addr)
  }

  /** The address `0xff00 + n` of the high page that ldh uses. */
  function HighPage(n: u8): u16 {
    0xff00 + n
  }

  // ---------------------------------------------------------------- 8-bit loads

  /** ld_indirect_nn_a: A stored at the address that follows the opcode. */
  function LdIndirectNnA(g: Gb): Gb {
    var (g1, nn) := Fetch16(g);
    Store(g1, nn, g1.regs.a)
  }

  /** ld_a_indirect_nn: A loaded from the address that follows the opcode. */
  function LdAIndirectNn(g: Gb): Gb {
    var (g1, nn) := Fetch16(g);
    WithA(g1, Load(g1, nn))
  }

  /** ld_r_n and ld_indirect_hl_n: the byte that follows the opcode stored into the operand. */
  function LdLocN(g: Gb, loc: Isa.Loc8): Gb {
    var (g1, n) := Fetch8(g);
    WriteLoc(g1, loc, n)
  }

  /** ld_indirect_rr_a: A stored at the address in the pair. */
  function LdIndirectRrA(g: Gb, rr: Isa.R16): Gb {
    Store(g, GetR16(g.regs, rr), g.regs.a)
  }

  /** ld_a_indirect_rr: A loaded from the address in the pair. */
  function LdAIndirectRr(g: Gb, rr: Isa.R16): Gb {
    WithA(g, Load(g, GetR16(g.regs, rr)))
  }

  /** ldd_indirect_hl_a: A stored at HL, then HL decremented. */
  function LddIndirectHlA(g: Gb): Gb {
    var hl := GetR16(g.regs, Isa.HL);
    WithR16(Store(g, hl, g.regs.a), Isa.HL, Dec16(hl))
  }

  /** ldd_a_indirect_hl: A loaded from HL, then HL decremented. */
  function LddAIndirectHl(g: Gb): Gb {
    var hl := GetR16(g.regs, Isa.HL);
    WithR16(WithA(g, Load(g, hl)), Isa.HL, Dec16(hl))
  }

  /** ldi_indirect_hl_a: A stored at HL, then HL incremented. */
  function LdiIndirectHlA(g: Gb): Gb {
    var hl := GetR16(g.regs, Isa.HL);
    WithR16(Store(g, hl, g.regs.a), Isa.HL, Inc16(hl))
  }

  /** ldi_a_indirect_hl: A loaded from HL, then HL incremented. */
  function LdiAIndirectHl(g: Gb): Gb {
    var hl := GetR16(g.regs, Isa.HL);
    WithR16(WithA(g, Load(g, hl)), Isa.HL, Inc16(hl))
  }

  /** The register moves of rows 0x40-0x7F (an assignment between two registers in the switch),
      ld_r_indirect_hl and ld_indirect_hl_r: the source operand copied into the destination. */
  function Ld8(g: Gb, dst: Isa.Loc8, from: Isa.Loc8): Gb {
    WriteLoc(g, dst, ReadLoc(g, from))
  }

  /** ldh_r_a: A stored at 0xff00 plus the register. */
  function LdhRA(g: Gb, r: Isa.R8): Gb {
    Store(g, HighPage(GetR8(g.regs, r)), g.regs.a)
  }

  /** ldh_n_a: A stored at 0xff00 plus the byte that follows the opcode. */
  function LdhNA(g: Gb): Gb {
    var (g1, n) := Fetch8(g);
    Store(g1, HighPage(n), g1.regs.a)
  }

  /** ldh_a_n: A loaded from 0xff00 plus the byte that follows the opcode. */
  function LdhAN(g: Gb): Gb {
    var (g1, n) := Fetch8(g);
    WithA(g1, Load(g1, HighPage(n)))
  }

  /** ldh_a_r: A loaded from 0xff00 plus the register. */
  function LdhAR(g: Gb, r: Isa.R8): Gb {
    WithA(g, Load(g, HighPage(GetR8(g.regs, r))))
  }

  // ---------------------------------------------------------------- 16-bit loads

  /** ld_sp_hl: SP becomes HL. */
  function LdSpHl(g: Gb): Gb {
    g.(regs := g.regs.(sp := GetR16(g.regs, Isa.HL)))
  }

  /** ld_rr_nn: the word that follows the opcode stored into the pair. */
  function LdRrNn(g: Gb, rr: Isa.R16): Gb {
    var (g1, nn) := Fetch16(g);
    WithR16(g1, rr, nn)
  }

  /** ld_indirect_nn_sp: SP stored, low byte first, at the address that follows the opcode. */
  function LdIndirectNnSp(g: Gb): Gb {
    var (g1, nn) := Fetch16(g);
    var g2 := Store(g1, nn, Lsb(g1.regs.sp));
    Store(g2, Inc16(nn), Msb(g1.regs.sp))
  }

  /** push_rr: the pair pushed on the stack. */
  function PushRr(g: Gb, rr: Isa.R16): Gb {
    StackPush(g, GetR16(g.regs, rr))
  }

  /** pop_rr: the word on top of the stack popped into the pair. */
  function PopRr(g: Gb, rr: Isa.R16): Gb {
    var (g1, v) := StackPop(g);
    WithR16(g1, rr, v)
  }

  // ---------------------------------------------------------------- 8-bit arithmetic and logic

  /** inc_r and inc_indirect_hl. */
  function IncLoc(g: Gb, loc: Isa.Loc8): Gb {
    var r := Alu.Inc8(ReadLoc(g, loc), F(g.regs));
    Flagged(WriteLoc(g, loc, r.value), r.flags)
  }

  /** dec_r and dec_indirect_hl. */
  function DecLoc(g: Gb, loc: Isa.Loc8): Gb {
    var r := Alu.Dec8(ReadLoc(g, loc), F(g.regs));
    Flagged(WriteLoc(g, loc, r.value), r.flags)
  }

  /** The 24 accumulator handlers add/adc/sub/sbc/and/xor/or/cp with a register, (HL) or the
      byte that follows the opcode as operand. */
  function AluA(g: Gb, op: Alu.AluOp, src: Isa.Src8): Gb {
    var (g1, x) := if src.Imm? then Fetch8(g) else (g, ReadLoc(g, src.loc));
    var r := Alu.Alu8(op, g1.regs.a, x, F(g1.regs));
    Flagged(WithA(g1, r.value), r.flags)
  }

  /** daa. */
  function Daa(g: Gb): Gb {
    var r := Alu.Daa(g.regs.a, F(g.regs));
    Flagged(WithA(g, r.value), r.flags)
  }

  /** cpl. */
  function Cpl(g: Gb): Gb {
    var r := Alu.Cpl(g.regs.a, F(g.regs));
    Flagged(WithA(g, r.value), r.flags)
  }

  // ---------------------------------------------------------------- 16-bit arithmetic

  /** add_sp_i8: SP moved by the signed byte that follows the opcode. */
  function AddSpI8(g: Gb): Gb {
    var (g1, i8) := Fetch8(g);
    var sp := g1.regs.sp;
    Flagged(g1.(regs := g1.regs.(sp := Alu.Offset(sp, i8))), Alu.OffsetFlags(sp, i8))
  }

  /** ld_hl_sp_plus_i8: HL set to SP moved by the signed byte that follows the opcode. */
  function LdHlSpPlusI8(g: Gb): Gb {
    var (g1, i8) := Fetch8(g);
    var sp := g1.regs.sp;
    Flagged(WithR16(g1, Isa.HL, Alu.Offset(sp, i8)), Alu.OffsetFlags(sp, i8))
  }

  /** add_hl_rr. */
  function AddHlRr(g: Gb, rr: Isa.R16): Gb {
    var r := Alu.AddHl(GetR16(g.regs, Isa.HL), GetR16(g.regs, rr), F(g.regs));
    Flagged(WithR16(g, Isa.HL, r.value), r.flags)
  }

  /** inc_rr. */
  function IncRr(g: Gb, rr: Isa.R16): Gb {
    WithR16(g, rr, Inc16(GetR16(g.regs, rr)))
  }

  /** dec_rr. */
  function DecRr(g: Gb, rr: Isa.R16): Gb {
    WithR16(g, rr, Dec16(GetR16(g.regs, rr)))
  }

  // ---------------------------------------------------------------- single-bit operations

  /** bit_n_r and bit_n_indirect_hl. */
  function BitN(g: Gb, n: Alu.BitIndex, loc: Isa.Loc8): Gb {
    Flagged(g, Alu.TestBit(n, ReadLoc(g, loc), F(g.regs)))
  }

  /** set_n_r and set_n_indirect_hl. */
  function SetN(g: Gb, n: Alu.BitIndex, loc: Isa.Loc8): Gb {
    WriteLoc(g, loc, Alu.SetBit(n, ReadLoc(g, loc)))
  }

  /** res_n_r and res_n_indirect_hl. */
  function ResN(g: Gb, n: Alu.BitIndex, loc: Isa.Loc8): Gb {
    WriteLoc(g, loc, Alu.ResBit(n, ReadLoc(g, loc)))
  }

  // ---------------------------------------------------------------- jumps, calls, returns

  /** ret, and reti, which does nothing more: PC popped from the stack. */
  function Ret(g: Gb): Gb {
    var (g1, pc) := StackPop(g);
    WithPc(g1, pc)
  }

  /** rst_n: PC pushed, then set to the vector. */
  function RstN(g: Gb, vec: u16): Gb {
    WithPc(StackPush(g, g.regs.pc), vec)
  }

  /** ret_f: ret when the condition holds. */
  function RetF(g: Gb, cond: Isa.Cond): Gb {
    if CheckCond(g.regs, cond) then Ret(g) else g
  }

  /** jp_hl: PC becomes HL. */
  function JpHl(g: Gb): Gb {
    WithPc(g, GetR16(g.regs, Isa.HL))
  }

  /** jp_nn: PC becomes the word that follows the opcode. */
  function JpNn(g: Gb): Gb {
    var (g1, nn) := Fetch16(g);
    WithPc(g1, nn)
  }

  /** jp_f_nn: the target word is always fetched; the jump is made when the condition holds. */
  function JpFNn(g: Gb, cond: Isa.Cond): Gb {
    var (g1, nn) := Fetch16(g);
    if CheckCond(g1.regs, cond) then WithPc(g1, nn) else g1
  }

  /** jr_f_i8: the offset byte is always fetched; PC moves by it when the condition holds. */
  function JrFI8(g: Gb, cond: Isa.Cond): Gb {
    var (g1, i8) := Fetch8(g);
    if CheckCond(g1.regs, cond) then WithPc(g1, Alu.Offset(g1.regs.pc, i8)) else g1
  }

  /** jr_i8: PC moved by the signed byte that follows the opcode. */
  function JrI8(g: Gb): Gb {
    var (g1, i8) := Fetch8(g);
    WithPc(g1, Alu.Offset(g1.regs.pc, i8))
  }

  /** call_nn: the target word is fetched, the PC after it pushed, and PC set to the target. */
  function CallNn(g: Gb): Gb {
    var (g1, nn) := Fetch16(g);
    WithPc(StackPush(g1, g1.regs.pc), nn)
  }

  /** call_f_nn: the target word is always fetched; the call is made when the condition
      holds. */
  function CallFNn(g: Gb, cond: Isa.Cond): Gb {
    var (g1, nn) := Fetch16(g);
    if CheckCond(g1.regs, cond) then WithPc(StackPush(g1, g1.regs.pc), nn) else g1
  }

  // ---------------------------------------------------------------- rotates and shifts

  /** rlca, rrca, rla, rra. */
  function RotateA(g: Gb, op: Alu.AccumulatorRotate): Gb {
    var r := Alu.RotateA(op, g.regs.a, F(g.regs));
    Flagged(WithA(g, r.value), r.flags)
  }

  /** The CB-prefixed rlc, rrc, rl, rr, sla, sra, swap, srl of a register or of (HL). */
  function ShiftLoc(g: Gb, op: Alu.ShiftOp, loc: Isa.Loc8): Gb {
    var r := Alu.Shift(op, ReadLoc(g, loc), F(g.regs));
    Flagged(WriteLoc(g, loc, r.value), r.flags)
  }

  // ---------------------------------------------------------------- dispatch

  /** The handler a base opcode's case calls, run on the state after the opcode fetch. Empty
      cases, di and ei leave the state as it is; halt and stop only change the mode. */
  function Exec(i: Isa.Instr, g: Gb): Gb {
    match i
    case Nop => g
    case Stop => g.(mode := Stopped)
    case Halt => g.(mode := Halted)
    case Di => g
    case Ei => g
    case LdRrNn(rr) => LdRrNn(g, rr)
    case LdIndRrA(rr) => LdIndirectRrA(g, rr)
    case LdAIndRr(rr) => LdAIndirectRr(g, rr)
    case IncRr(rr) => IncRr(g, rr)
    case DecRr(rr) => DecRr(g, rr)
    case IncLoc(loc) => IncLoc(g, loc)
    case DecLoc(loc) => DecLoc(g, loc)
    case LdLocN(loc) => LdLocN(g, loc)
    case RotA(op) => RotateA(g, op)
    case LdIndNnSp => LdIndirectNnSp(g)
    case AddHlRr(rr) => AddHlRr(g, rr)
    case JrI8 => JrI8(g)
    case JrCondI8(cond) => JrFI8(g, cond)
    case LdiIndHlA => LdiIndirectHlA(g)
    case LdiAIndHl => LdiAIndirectHl(g)
    case LddIndHlA => LddIndirectHlA(g)
    case LddAIndHl => LddAIndirectHl(g)
    case Daa => Daa(g)
    case Cpl => Cpl(g)
    case Scf => Flagged(g, Alu.Scf(F(g.regs)))
    case Ccf => Flagged(g, Alu.Ccf(F(g.regs)))
    case Ld8(dst, from) => Ld8(g, dst, from)
    case AluA(op, src) => AluA(g, op, src)
    case RetCond(cond) => RetF(g, cond)
    case Ret => Ret(g)
    case Reti => Ret(g)
    case Pop(rr) => PopRr(g, rr)
    case Push(rr) => PushRr(g, rr)
    case JpCondNn(cond) => JpFNn(g, cond)
    case JpNn => JpNn(g)
    case JpHl => JpHl(g)
    case CallCondNn(cond) => CallFNn(g, cond)
    case CallNn => CallNn(g)
    case Rst(vec) => RstN(g, vec)
    case PrefixCb => ExecuteCb(g)
    case LdhNA => LdhNA(g)
    case LdhRA(r) => LdhRA(g, r)
    case LdhAN => LdhAN(g)
    case LdhAR(r) => LdhAR(g, r)
    case AddSpI8 => AddSpI8(g)
    case LdHlSpI8 => LdHlSpPlusI8(g)
    case LdSpHl => LdSpHl(g)
    case LdIndNnA => LdIndirectNnA(g)
    case LdAIndNn => LdAIndirectNn(g)
  }

  /** The handler a CB-prefixed opcode's case calls. */
  function ExecCb(i: Isa.CbInstr, g: Gb): Gb {
    match i
    case CbShift(op, loc) => ShiftLoc(g, op, loc)
    case CbBit(n, loc) => BitN(g, n, loc)
    case CbRes(n, loc) => ResN(g, n, loc)
    case CbSet(n, loc) => SetN(g, n, loc)
  }

  /** execute_cb_instructions: the byte after 0xCB fetched and its case run. */
  function ExecuteCb(g: Gb): Gb {
    var (g1, op) := Fetch8(g);
    ExecCb(Isa.DecodeCb(op), g1)
  }

  /** execute_normal_instructions: the opcode fetched and its case run. */
  function ExecuteNormal(g: Gb): Gb {
    var (g1, op) := Fetch8(g);
    Exec(Isa.Decode(op), g1)
  }

  /** cpu_step: one instruction in NORMAL mode, nothing in any other mode. */
  function Step(g: Gb): Gb {
    match g.mode
    case Normal => ExecuteNormal(g)
    case _ => g
  }

  /** cpu_init: NORMAL mode and PC 0; nothing else is set. */
  function Init(g: Gb): Gb {
    g.(mode := Normal, regs := g.regs.(pc := 0))
  }
}
