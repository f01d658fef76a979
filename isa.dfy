/** The instruction set as the two dispatch switches of the interpreter see it: the operand
    enums of the CPU header and, for every opcode byte, the handler the switch calls and the
    arguments it passes. */
module Isa {
  import opened Common
  import Alu

  /** The byte registers an opcode can name (enum cpu_r8_t without R8_F, which no opcode
      passes). */
  datatype R8 = B | C | D | E | H | L | A

  /** The register pairs and 16-bit registers (enum cpu_r16_t). */
  datatype R16 = BC | DE | HL | SP | AF | PC

  /** The branch conditions (enum cpu_cond_t). */
  datatype Cond = CondNZ | CondZ | CondNC | CondC

  /** An 8-bit operand: a register, or the byte at address HL. */
  datatype Loc8 = Reg(r: R8) | IndHL

  /** The operand of an accumulator operation: a register or (HL), or the byte after the
      opcode. */
  datatype Src8 = From(loc: Loc8) | Imm

  /** The handler call one base opcode makes, with its arguments. */
  datatype Instr =
    | Nop                        // an empty case: 0x00 and the eleven unassigned bytes
    | Stop | Halt | Di | Ei
    | LdRrNn(rr: R16)            // ld_rr_nn
    | LdIndRrA(rr: R16)          // ld_indirect_rr_a
    | LdAIndRr(rr: R16)          // ld_a_indirect_rr
    | IncRr(rr: R16) | DecRr(rr: R16)
    | IncLoc(loc: Loc8)          // inc_r / inc_indirect_hl
    | DecLoc(loc: Loc8)          // dec_r / dec_indirect_hl
    | LdLocN(loc: Loc8)          // ld_r_n / ld_indirect_hl_n
    | RotA(rotOp: Alu.AccumulatorRotate)   // rlca / rrca / rla / rra
    | LdIndNnSp
    | AddHlRr(rr: R16)
    | JrI8 | JrCondI8(cond: Cond)
    | LdiIndHlA | LdiAIndHl | LddIndHlA | LddAIndHl
    | Daa | Cpl | Scf | Ccf
    | Ld8(dst: Loc8, from: Loc8) // 0x40-0x7F except 0x76
    | AluA(aluOp: Alu.AluOp, operand: Src8)
    | RetCond(cond: Cond) | Ret | Reti
    | Pop(rr: R16) | Push(rr: R16)
    | JpCondNn(cond: Cond) | JpNn | JpHl
    | CallCondNn(cond: Cond) | CallNn
    | Rst(vec: u16)
    | PrefixCb                   // execute_cb_instructions
    | LdhNA | LdhRA(r: R8) | LdhAN | LdhAR(r: R8)
    | AddSpI8 | LdHlSpI8 | LdSpHl
    | LdIndNnA | LdAIndNn

  /** The handler call one CB-prefixed opcode makes. */
  datatype CbInstr =
    | CbShift(op: Alu.ShiftOp, loc: Loc8)
    | CbBit(n: Alu.BitIndex, loc: Loc8)
    | CbRes(n: Alu.BitIndex, loc: Loc8)
    | CbSet(n: Alu.BitIndex, loc: Loc8)

  /** The operand the low three bits of an opcode (or bits 3-5) select, in the order of every
      row of the opcode table: B, C, D, E, H, L, (HL), A. */
  function LocOf(i: int): (loc: Loc8)
    requires 0 <= i < 8
    ensures 0 <= i < 6 ==> loc == Reg([B, C, D, E, H, L][i])
    ensures i == 6 <==> loc == IndHL
    ensures i == 7 ==> loc == Reg(A)
  {
    match i
    case 0 => Reg(B)
    case 1 => Reg(C)
    case 2 => Reg(D)
    case 3 => Reg(E)
    case 4 => Reg(H)
    case 5 => Reg(L)
    case 6 => IndHL
    case _ => Reg(A)
  }

  /** The position of an operand in that row order. */
  function LocIndex(loc: Loc8): (i: int)
    ensures 0 <= i < 8 && LocOf(i) == loc
  {
    match loc
    case Reg(B) => 0
    case Reg(C) => 1
    case Reg(D) => 2
    case Reg(E) => 3
    case Reg(H) => 4
    case Reg(L) => 5
    case IndHL => 6
    case Reg(A) => 7
  }

  /** The pair bits 4-5 select in the loads, inc/dec and adds of rows 0x00-0x3F. */
  function PairOf(i: int): (rr: R16)
    requires 0 <= i < 4
    ensures rr in {BC, DE, HL, SP}
  {
    match i
    case 0 => BC
    case 1 => DE
    case 2 => HL
    case _ => SP
  }

  /** The pair bits 4-5 select in push and pop: AF takes the place of SP. */
  function StackPairOf(i: int): (rr: R16)
    requires 0 <= i < 4
    ensures rr in {BC, DE, HL, AF}
  {
    match i
    case 0 => BC
    case 1 => DE
    case 2 => HL
    case _ => AF
  }

  /** The condition bits 3-4 select, in the order of enum cpu_cond_t. */
  function CondOf(i: int): (cond: Cond)
    requires 0 <= i < 4
  {
    match i
    case 0 => CondNZ
    case 1 => CondZ
    case 2 => CondNC
    case _ => CondC
  }

  /** The accumulator operation bits 3-5 select in rows 0x80-0xBF and in column 6 of rows
      0xC0-0xFF. */
  function AluOpOf(i: int): (op: Alu.AluOp)
    requires 0 <= i < 8
  {
    match i
    case 0 => Alu.AddOp
    case 1 => Alu.AdcOp
    case 2 => Alu.SubOp
    case 3 => Alu.SbcOp
    case 4 => Alu.AndOp
    case 5 => Alu.XorOp
    case 6 => Alu.OrOp
    case _ => Alu.CpOp
  }

  /** The rotate/shift bits 3-5 select in rows 0x00-0x3F of the CB table. */
  function ShiftOpOf(i: int): (op: Alu.ShiftOp)
    requires 0 <= i < 8
  {
    match i
    case 0 => Alu.Rlc
    case 1 => Alu.Rrc
    case 2 => Alu.Rl
    case 3 => Alu.Rr
    case 4 => Alu.Sla
    case 5 => Alu.Sra
    case 6 => Alu.Swap
    case _ => Alu.Srl
  }

  /** Bits 3-5 of an opcode. */
  function Y(op: u8): (y: int)
    ensures 0 <= y < 8
  {
    (op / 8) % 8
  }

  /** Bits 0-2 of an opcode. */
  function Z(op: u8): (z: int)
    ensures 0 <= z < 8
  {
    op % 8
  }

  /** Rows 0x00-0x3F of execute_normal_instructions, one column (bits 0-2) at a time. */
  function DecodeLow(op: u8): Instr
    requires op < 0x40
  {
    var y := Y(op);
    match Z(op)
    case 0 =>
      (match y
       case 0 => Nop
       case 1 => LdIndNnSp
       case 2 => Stop
       case 3 => JrI8
       case _ => JrCondI8(CondOf(y - 4)))
    case 1 => if y % 2 == 0 then LdRrNn(PairOf(y / 2)) else AddHlRr(PairOf(y / 2))
    case 2 =>
      (match y
       case 0 => LdIndRrA(BC)
       case 1 => LdAIndRr(BC)
       case 2 => LdIndRrA(DE)
       case 3 => LdAIndRr(DE)
       case 4 => LdiIndHlA
       case 5 => LdiAIndHl
       case 6 => LddIndHlA
       case _ => LddAIndHl)
    case 3 => if y % 2 == 0 then IncRr(PairOf(y / 2)) else DecRr(PairOf(y / 2))
    case 4 => IncLoc(LocOf(y))
    case 5 => DecLoc(LocOf(y))
    case 6 => LdLocN(LocOf(y))
    case _ =>
      (match y
       case 0 => RotA(Alu.Rlc)
       case 1 => RotA(Alu.Rrc)
       case 2 => RotA(Alu.Rl)
       case 3 => RotA(Alu.Rr)
       case 4 => Daa
       case 5 => Cpl
       case 6 => Scf
       case _ => Ccf)
  }

  /** Rows 0xC0-0xFF of execute_normal_instructions, one column (bits 0-2) at a time. */
  function DecodeHigh(op: u8): Instr
    requires op >= 0xC0
  {
    var y := Y(op);
    match Z(op)
    case 0 =>
      (match y
       case 4 => LdhNA
       case 5 => AddSpI8
       case 6 => LdhAN
       case 7 => LdHlSpI8
       case _ => RetCond(CondOf(y)))
    case 1 =>
      (match y
       case 1 => Ret
       case 3 => Reti
       case 5 => JpHl
       case 7 => LdSpHl
       case _ => Pop(StackPairOf(y / 2)))
    case 2 =>
      (match y
       case 4 => LdhRA(C)
       case 5 => LdIndNnA
       case 6 => LdhAR(C)
       case 7 => LdAIndNn
       case _ => JpCondNn(CondOf(y)))
    case 3 =>
      (match y
       case 0 => JpNn
       case 1 => PrefixCb
       case 6 => Di
       case 7 => Ei
       case _ => Nop)
    case 4 => if y < 4 then CallCondNn(CondOf(y)) else Nop
    case 5 =>
      (match y
       case 1 => CallNn
       case 3 => Nop
       case 5 => Nop
       case 7 => Nop
       case _ => Push(StackPairOf(y / 2)))
    case 6 => AluA(AluOpOf(y), Imm)
    case _ => Rst(y * 8)
  }

  /** The case execute_normal_instructions selects for an opcode byte. Every byte has a case:
      rows 0x40-0x7F are the register-to-register loads (with halt at 0x76) and rows 0x80-0xBF
      the accumulator operations on B, C, D, E, H, L, (HL), A. */
  function Decode(op: u8): Instr
  {
    if op < 0x40 then DecodeLow(op)
    else if op < 0x80 then (if op == 0x76 then Halt else Ld8(LocOf(Y(op)), LocOf(Z(op))))
    else if op < 0xC0 then AluA(AluOpOf(Y(op)), From(LocOf(Z(op))))
    else DecodeHigh(op)
  }

  /** The case execute_cb_instructions selects for the byte after 0xCB: the two top bits pick
      rotate/shift, bit, res or set, bits 3-5 the operation or bit number, bits 0-2 the
      operand. */
  function DecodeCb(op: u8): CbInstr
  {
    var loc := LocOf(Z(op));
    if op < 0x40 then CbShift(ShiftOpOf(Y(op)), loc)
    else if op < 0x80 then CbBit(Y(op), loc)
    else if op < 0xC0 then CbRes(Y(op), loc)
    else CbSet(Y(op), loc)
  }
}
