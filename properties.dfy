/** What the interpreter guarantees across instructions and steps: the flag register's low
    nibble, the stack round trips of push/pop, inc/dec and their 16-bit forms, the conditional
    control transfers, the silent opcodes, and the modes cpu_step never leaves. */
module Properties {
  import opened Common
  import Alu
  import Bits
  import Isa
  import Mmu
  import DecodeTables
  import opened Machine
  import opened Semantics

  /** The state after `n` calls of cpu_step. */
  function Run(g: Gb, n: nat): Gb
    decreases n
  {
    if n == 0 then g else Run(Step(g), n - 1)
  }

  // ---------------------------------------------------------------- the low nibble of F

  /** Whether a state's F register has its low nibble clear. */
  predicate CleanF(g: Gb) {
    g.regs.f % 0x10 == 0
  }

  /** A CB-prefixed handler never touches the low nibble of F. */
  lemma {:induction false} ExecCbKeepsLowNibble(i: Isa.CbInstr, g: Gb)
    ensures ExecCb(i, g).regs.f % 0x10 == g.regs.f % 0x10
  {
    match i
    case CbShift(op, loc) =>
    case CbBit(n, loc) =>
    case CbRes(n, loc) =>
    case CbSet(n, loc) =>
  }

  /** Every handler either keeps the low nibble of F (the flag helpers only touch bits 4-7) or,
      through set_r16 on AF, clears it. */
  lemma {:induction false} ExecLowNibble(i: Isa.Instr, g: Gb)
    ensures LowNibbleKeptOrCleared(g, Exec(i, g))
  {
    if i.Nop? || i.Stop? || i.Halt? || i.Di? || i.Ei? || i.LdRrNn? || i.LdIndRrA? || i.LdAIndRr?
      || i.IncRr? || i.DecRr? || i.IncLoc? || i.DecLoc?
    {
      LowNibbleSimple(i, g);
    } else if i.LdLocN? || i.RotA? || i.LdIndNnSp? || i.AddHlRr? || i.JrI8? || i.JrCondI8?
      || i.LdiIndHlA? || i.LdiAIndHl? || i.LddIndHlA? || i.LddAIndHl? || i.Daa? || i.Cpl?
    {
      LowNibbleLoads(i, g);
    } else if i.Scf? || i.Ccf? || i.Ld8? || i.AluA? || i.RetCond? || i.Ret? || i.Reti?
      || i.Pop? || i.Push? || i.JpCondNn? || i.JpNn? || i.JpHl?
    {
      LowNibbleStack(i, g);
    } else if i.PrefixCb? {
      var (g1, op) := Fetch8(g);
      ExecCbKeepsLowNibble(Isa.DecodeCb(op), g1);
    } else if i.CallCondNn? || i.CallNn? || i.Rst? || i.LdhNA? || i.LdhRA? || i.LdhAN? {
      LowNibbleCalls(i, g);
    } else {
      LowNibbleSp(i, g);
    }
  }

  /** F after a handler has the low nibble it had before, or a clear one. */
  predicate LowNibbleKeptOrCleared(g: Gb, g': Gb) {
    g'.regs.f % 0x10 == g.regs.f % 0x10 || g'.regs.f % 0x10 == 0
  }

  /** ExecLowNibble for the control, 16-bit load and inc/dec cases. */
  lemma {:induction false} LowNibbleSimple(i: Isa.Instr, g: Gb)
    requires i.Nop? || i.Stop? || i.Halt? || i.Di? || i.Ei? || i.LdRrNn? || i.LdIndRrA? || i.LdAIndRr?
      || i.IncRr? || i.DecRr? || i.IncLoc? || i.DecLoc?
    ensures LowNibbleKeptOrCleared(g, Exec(i, g))
  {
  }

  /** ExecLowNibble for the immediate loads, rotations of A, HL loads, jr and daa/cpl. */
  lemma {:induction false} LowNibbleLoads(i: Isa.Instr, g: Gb)
    requires i.LdLocN? || i.RotA? || i.LdIndNnSp? || i.AddHlRr? || i.JrI8? || i.JrCondI8?
      || i.LdiIndHlA? || i.LdiAIndHl? || i.LddIndHlA? || i.LddAIndHl? || i.Daa? || i.Cpl?
    ensures LowNibbleKeptOrCleared(g, Exec(i, g))
  {
  }

  /** ExecLowNibble for scf/ccf, the register loads, the accumulator operations, returns,
      push/pop and jp. */
  lemma {:induction false} LowNibbleStack(i: Isa.Instr, g: Gb)
    requires i.Scf? || i.Ccf? || i.Ld8? || i.AluA? || i.RetCond? || i.Ret? || i.Reti?
      || i.Pop? || i.Push? || i.JpCondNn? || i.JpNn? || i.JpHl?
    ensures LowNibbleKeptOrCleared(g, Exec(i, g))
  {
  }

  /** ExecLowNibble for calls, rst and the high-page stores and load. */
  lemma {:induction false} LowNibbleCalls(i: Isa.Instr, g: Gb)
    requires i.CallCondNn? || i.CallNn? || i.Rst? || i.LdhNA? || i.LdhRA? || i.LdhAN?
    ensures LowNibbleKeptOrCleared(g, Exec(i, g))
  {
  }

  /** ExecLowNibble for ldh A,(C), the SP forms and the loads at an operand address. */
  lemma {:induction false} LowNibbleSp(i: Isa.Instr, g: Gb)
    requires i.LdhAR? || i.AddSpI8? || i.LdHlSpI8? || i.LdSpHl? || i.LdIndNnA? || i.LdAIndNn?
    ensures LowNibbleKeptOrCleared(g, Exec(i, g))
  {
  }

  /** So no step can set a bit of F's low nibble. */
  lemma {:induction false} StepKeepsCleanF(g: Gb)
    requires CleanF(g)
    ensures CleanF(Step(g))
  {
    if g.mode == Normal {
      var (g1, op) := Fetch8(g);
      ExecLowNibble(Isa.Decode(op), g1);
    }
  }

  /** Nor can any number of steps. */
  lemma {:induction false} RunKeepsCleanF(g: Gb, n: nat)
    requires CleanF(g)
    ensures CleanF(Run(g, n))
    decreases n
  {
    if n > 0 {
      StepKeepsCleanF(g);
      RunKeepsCleanF(Step(g), n - 1);
    }
  }

  // ---------------------------------------------------------------- modes

  /** cpu_step does nothing outside NORMAL mode. */
  lemma {:induction false} StepOutsideNormal(g: Gb)
    requires g.mode != Normal
    ensures Step(g) == g
  {
  }

  /** Once the mode has left NORMAL, any number of steps leaves the whole state as it is:
      nothing in the interpreter returns to NORMAL. */
  lemma {:induction false} RunOutsideNormal(g: Gb, n: nat)
    requires g.mode != Normal
    ensures Run(g, n) == g
    decreases n
  {
    if n > 0 {
      StepOutsideNormal(g);
      RunOutsideNormal(Step(g), n - 1);
    }
  }

  /** halt (0x76) and stop (0x10) move PC past the opcode and set HALT and STOP; nothing else
      changes, and no later step changes anything. */
  lemma {:induction false} HaltAndStop(g: Gb, n: nat)
    requires g.mode == Normal
    requires Mmu.Read(g.mem, g.regs.pc) == 0x76 || Mmu.Read(g.mem, g.regs.pc) == 0x10
    ensures Step(g) == g.(regs := g.regs.(pc := Inc16(g.regs.pc)),
                          mode := if Mmu.Read(g.mem, g.regs.pc) == 0x76 then Halted else Stopped)
    ensures Run(Step(g), n) == Step(g)
  {
    var op := Mmu.Read(g.mem, g.regs.pc);
    if op == 0x76 {
      DecodeTables.DecodeTable74();
      assert Isa.Decode(op) == Isa.Halt;
    } else {
      DecodeTables.DecodeTable10();
      assert Isa.Decode(op) == Isa.Stop;
    }
    RunOutsideNormal(Step(g), n);
  }

  /** cpu_init: NORMAL mode and PC 0, every other register and the memory as they were; the
      next step runs the opcode at address 0. */
  lemma {:induction false} InitThenStep(g: Gb)
    ensures Init(g).regs == g.regs.(pc := 0) && Init(g).mem == g.mem
    ensures Step(Init(g)) == Exec(Isa.Decode(Mmu.Read(g.mem, 0)), Init(g).(regs := g.regs.(pc := 1)))
  {
  }

  // ---------------------------------------------------------------- silent opcodes

  /** An instruction whose case does nothing: an empty case, di, ei, or a register loaded from
      itself. */
  predicate Silent(i: Isa.Instr) {
    i.Nop? || i.Di? || i.Ei? || (i.Ld8? && i.dst == i.from && i.dst.Reg?)
  }

  /** A silent instruction only moves PC past its opcode. */
  lemma {:induction false} SilentStep(g: Gb)
    requires g.mode == Normal && Silent(Isa.Decode(Mmu.Read(g.mem, g.regs.pc)))
    ensures Step(g) == g.(regs := g.regs.(pc := Inc16(g.regs.pc)))
  {
  }

  /** nop and the eleven unassigned bytes have empty cases. */
  lemma {:induction false} EmptyOpcodes(op: u8)
    requires op in {0x00, 0xD3, 0xDB, 0xDD, 0xE3, 0xE4, 0xEB, 0xEC, 0xED, 0xF4, 0xFC, 0xFD}
    ensures Isa.Decode(op) == Isa.Nop
  {
    if op < 0xE0 {
      DecodeTables.DecodeTable00();
      DecodeTables.DecodeTableD0();
      DecodeTables.DecodeTableD8();
      DecodeTables.DecodeTableDC();
    } else if op < 0xF0 {
      DecodeTables.DecodeTableE0();
      DecodeTables.DecodeTableE4();
      DecodeTables.DecodeTableE8();
      DecodeTables.DecodeTableEC();
    } else {
      DecodeTables.DecodeTableF4();
      DecodeTables.DecodeTableFC();
    }
  }

  /** di (0xF3) and ei (0xFB) decode to their handlers, which do nothing. */
  lemma {:induction false} InterruptOpcodes(op: u8)
    requires op == 0xF3 || op == 0xFB
    ensures Silent(Isa.Decode(op)) && !Isa.Decode(op).Nop?
  {
    DecodeTables.DecodeTableF0();
    DecodeTables.DecodeTableF8();
  }

  /** The seven loads of a register from itself (ld b,b … ld a,a). */
  lemma {:induction false} SelfLoadOpcodes(op: u8)
    requires op in {0x40, 0x49, 0x52, 0x5B, 0x64, 0x6D, 0x7F}
    ensures Silent(Isa.Decode(op)) && Isa.Decode(op).Ld8?
  {
    if op < 0x58 {
      DecodeTables.DecodeTable40();
      DecodeTables.DecodeTable48();
      DecodeTables.DecodeTable50();
    } else {
      DecodeTables.DecodeTable58();
      DecodeTables.DecodeTable64();
      DecodeTables.DecodeTable6C();
      DecodeTables.DecodeTable7C();
    }
  }

  /** 0xCB fetches a second byte and runs its case of the CB switch, and no case of that switch
      jumps, touches SP or changes the mode: PC ends two bytes on. */
  lemma {:induction false} PrefixStep(g: Gb)
    requires g.mode == Normal && Mmu.Read(g.mem, g.regs.pc) == 0xCB
    ensures Step(g).regs.pc == Inc16(Inc16(g.regs.pc)) && Step(g).regs.sp == g.regs.sp
    ensures Step(g).mode == Normal
  {
    DecodeTables.DecodeTableC8();
  }

  // ---------------------------------------------------------------- stack round trips

  /** push_rr then pop_rr of the same pair gives back every register; for AF this holds when
      F's low nibble is clear, since pop masks it. */
  lemma {:induction false} PushThenPopPair(g: Gb, rr: Isa.R16)
    requires rr != Isa.PC
    requires rr == Isa.AF ==> CleanF(g)
    ensures PopRr(PushRr(g, rr), rr).regs == g.regs
  {
    var v := GetR16(g.regs, rr);
    PushThenPop(g, v);
    var g1 := PushRr(g, rr);
    assert g1 == StackPush(g, v);
    var (g2, w) := StackPop(g1);
    assert w == v && g2.regs == g.regs;
    assert PopRr(g1, rr).regs == SetR16(g.regs, rr, v);
    SetR16Own(g.regs, rr);
  }

  // ---------------------------------------------------------------- inc and dec

  /** inc then dec of the same operand restores its byte and leaves C as it was. */
  lemma {:induction false} IncThenDec(g: Gb, loc: Isa.Loc8)
    ensures ReadLoc(DecLoc(IncLoc(g, loc), loc), loc) == ReadLoc(g, loc)
    ensures F(DecLoc(IncLoc(g, loc), loc).regs).c == F(g.regs).c
  {
    var v := ReadLoc(g, loc);
    var r := Alu.Inc8(v, F(g.regs));
    var h1 := WriteLoc(g, loc, r.value);
    var g1 := Flagged(h1, r.flags);
    assert g1 == IncLoc(g, loc);
    FlaggedKeepsLoc(h1, r.flags, loc);
    assert ReadLoc(g1, loc) == r.value && F(g1.regs) == r.flags;
    var d := Alu.Dec8(r.value, r.flags);
    var h2 := WriteLoc(g1, loc, d.value);
    var g2 := Flagged(h2, d.flags);
    assert g2 == DecLoc(g1, loc);
    FlaggedKeepsLoc(h2, d.flags, loc);
    Alu.IncDecInverse(v, F(g.regs));
  }

  /** Setting the flags changes no 8-bit operand. */
  lemma {:induction false} FlaggedKeepsLoc(g: Gb, fl: Alu.Flags, loc: Isa.Loc8)
    ensures ReadLoc(Flagged(g, fl), loc) == ReadLoc(g, loc)
    ensures Flagged(g, fl).mem == g.mem && Flagged(g, fl).mode == g.mode
  {
    var rs' := Flagged(g, fl).regs;
    assert rs' == g.regs.(f := rs'.f);
  }

  /** `g'` differs from `g` at most in the operand `loc`: F, PC, SP, the mode, every other
      register and every memory byte but the one at HL (when `loc` is (HL)) are kept. */
  predicate OnlyOperandChanged(g: Gb, g': Gb, loc: Isa.Loc8) {
    && g'.regs.f == g.regs.f && g'.regs.pc == g.regs.pc && g'.regs.sp == g.regs.sp
    && g'.mode == g.mode
    && (forall s: Isa.R8 :: loc != Isa.Reg(s) ==> GetR8(g'.regs, s) == GetR8(g.regs, s))
    && (forall a: u16 :: loc.Reg? || a != GetR16(g.regs, Isa.HL) ==> g'.mem[a] == g.mem[a])
  }

  /** set and res write the operand with bit n changed and touch nothing else: no flag, no
      other register, not PC, SP or the mode, and no other memory byte. */
  lemma {:induction false} SetResOnlyOperand(g: Gb, n: Alu.BitIndex, loc: Isa.Loc8)
    ensures ReadLoc(SetN(g, n, loc), loc) == Alu.SetBit(n, ReadLoc(g, loc))
    ensures ReadLoc(ResN(g, n, loc), loc) == Alu.ResBit(n, ReadLoc(g, loc))
    ensures OnlyOperandChanged(g, SetN(g, n, loc), loc)
    ensures OnlyOperandChanged(g, ResN(g, n, loc), loc)
  {
  }

  /** inc_rr then dec_rr restores the pair and every other register, and changes no flag. */
  lemma {:induction false} IncRrThenDecRr(g: Gb, rr: Isa.R16)
    requires rr in {Isa.BC, Isa.DE, Isa.HL, Isa.SP}
    ensures F(IncRr(g, rr).regs) == F(g.regs)
    ensures DecRr(IncRr(g, rr), rr) == g
  {
    var v := GetR16(g.regs, rr);
    var rs1 := SetR16(g.regs, rr, Inc16(v));
    assert IncRr(g, rr) == g.(regs := rs1);
    assert GetR16(rs1, rr) == Inc16(v);
    assert Dec16(Inc16(v)) == v;
    assert DecRr(IncRr(g, rr), rr) == g.(regs := SetR16(rs1, rr, v));
    SetR16Twice(g.regs, rr, Inc16(v), v);
    SetR16Own(g.regs, rr);
  }

  // ---------------------------------------------------------------- 16-bit adds

  /** add_hl_rr: HL becomes HL + rr, the carry out of bit 15 in C; Z is kept and N cleared; no
      other register and no memory changes. */
  lemma {:induction false} AddHlRrMeaning(g: Gb, rr: Isa.R16)
    ensures var g' := AddHlRr(g, rr);
      GetR16(g'.regs, Isa.HL) + (if F(g'.regs).c then 0x1_0000 else 0)
        == GetR16(g.regs, Isa.HL) + GetR16(g.regs, rr)
    ensures F(AddHlRr(g, rr).regs).z == F(g.regs).z && !F(AddHlRr(g, rr).regs).n
    ensures var g' := AddHlRr(g, rr);
      g'.regs.(h := g.regs.h, l := g.regs.l, f := g.regs.f) == g.regs && g'.mem == g.mem
  {
    var r := Alu.AddHl(GetR16(g.regs, Isa.HL), GetR16(g.regs, rr), F(g.regs));
    Alu.AddHlSum(GetR16(g.regs, Isa.HL), GetR16(g.regs, rr), F(g.regs));
    var h1 := WithR16(g, Isa.HL, r.value);
    assert GetR16(h1.regs, Isa.HL) == r.value;
    var g' := Flagged(h1, r.flags);
    assert g' == AddHlRr(g, rr);
    assert g'.regs == h1.regs.(f := g'.regs.f);
    assert F(g'.regs) == r.flags;
  }

  /** ld_hl_sp_plus_i8 puts in HL the value add_sp_i8 puts in SP, with the same flags, and
      leaves SP as it was. */
  lemma {:induction false} LdHlSpMatchesAddSp(g: Gb)
    ensures GetR16(LdHlSpPlusI8(g).regs, Isa.HL) == AddSpI8(g).regs.sp
    ensures F(LdHlSpPlusI8(g).regs) == F(AddSpI8(g).regs)
    ensures LdHlSpPlusI8(g).regs.sp == g.regs.sp
  {
    var (g1, i8) := Fetch8(g);
    var fl := Alu.OffsetFlags(g1.regs.sp, i8);
    assert F(LdHlSpPlusI8(g).regs) == fl;
    assert F(AddSpI8(g).regs) == fl;
  }

  // ---------------------------------------------------------------- control transfer

  /** The operand word at PC, and PC two bytes on. */
  function OperandWord(g: Gb): u16 {
    ToU16(Mmu.Read(g.mem, g.regs.pc), Mmu.Read(g.mem, Inc16(g.regs.pc)))
  }

  /** jp_f_nn: the operand word is always fetched; the jump goes to it exactly when the
      condition holds, and nothing but PC changes. */
  lemma {:induction false} ConditionalJump(g: Gb, cond: Isa.Cond)
    ensures JpFNn(g, cond) == g.(regs := g.regs.(pc :=
      if CheckCond(g.regs, cond) then OperandWord(g) else Inc16(Inc16(g.regs.pc))))
  {
  }

  /** jr_f_i8: the offset byte is always fetched; when the condition holds PC moves from the
      byte after it by the signed offset, otherwise it stays just past it. */
  lemma {:induction false} ConditionalRelativeJump(g: Gb, cond: Isa.Cond)
    ensures JrFI8(g, cond) == g.(regs := g.regs.(pc :=
      if CheckCond(g.regs, cond)
      then Alu.Offset(Inc16(g.regs.pc), Mmu.Read(g.mem, g.regs.pc))
      else Inc16(g.regs.pc)))
  {
  }

  /** call_f_nn: when the condition fails only PC moves, past the operand word, and SP and the
      memory are unchanged; when it holds the address after the operand word is pushed (high
      byte at SP-1, low byte at SP-2) and PC becomes the operand word. */
  lemma {:induction false} ConditionalCall(g: Gb, cond: Isa.Cond)
    ensures !CheckCond(g.regs, cond) ==>
      CallFNn(g, cond) == g.(regs := g.regs.(pc := Inc16(Inc16(g.regs.pc))))
    ensures CheckCond(g.regs, cond) ==>
      var ret := Inc16(Inc16(g.regs.pc));
      var g' := CallFNn(g, cond);
      && g'.regs == g.regs.(pc := OperandWord(g), sp := U16(g.regs.sp - 2))
      && Mmu.Read(g'.mem, Dec16(g.regs.sp)) == Msb(ret)
      && Mmu.Read(g'.mem, U16(g.regs.sp - 2)) == Lsb(ret)
      && g'.mode == g.mode
      && forall a: u16 :: a != Dec16(g.regs.sp) && a != U16(g.regs.sp - 2) ==>
        Mmu.Read(g'.mem, a) == Mmu.Read(g.mem, a)
  {
    var (g1, nn) := Fetch16(g);
    StackPushLayout(g1, g1.regs.pc);
  }

  /** A call followed by ret, with nothing in between, returns to the instruction after the
      call and restores SP. */
  lemma {:induction false} CallThenRet(g: Gb)
    ensures Ret(CallNn(g)).regs == g.regs.(pc := Inc16(Inc16(g.regs.pc)))
  {
    var (g1, nn) := Fetch16(g);
    PushThenPop(g1, g1.regs.pc);
  }

  /** ret_f: when the condition holds PC is popped from the stack and SP moves up two bytes;
      otherwise nothing changes. */
  lemma {:induction false} ConditionalReturn(g: Gb, cond: Isa.Cond)
    ensures RetF(g, cond) == if CheckCond(g.regs, cond)
      then g.(regs := g.regs.(pc := ToU16(Mmu.Read(g.mem, g.regs.sp), Mmu.Read(g.mem, Inc16(g.regs.sp))),
                              sp := Inc16(Inc16(g.regs.sp))))
      else g
  {
  }

  /** rst_n pushes PC (already past the opcode) and jumps to the vector; ret brings it back. */
  lemma {:induction false} RstThenRet(g: Gb, vec: u16)
    ensures RstN(g, vec).regs.pc == vec
    ensures Ret(RstN(g, vec)).regs == g.regs
  {
    PushThenPop(g, g.regs.pc);
  }
}
