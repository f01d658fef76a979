/** The interpreter itself: struct gb as an object whose register fields, mode and memory array
    each handler updates in place, as the C code does through its `struct gb *` argument. Every
    method is proved against the Semantics function of the same name: the state it leaves is
    that function applied to the state it found. Cycle counting (cpu_cycle, tick) does nothing
    and is not modelled. */
module Cpu {
  import opened Common
  import Bits
  import Alu
  import Isa
  import opened Machine
  import Semantics
  import ExecCases

  class Cpu {
    var a: u8
    var b: u8
    var c: u8
    var d: u8
    var e: u8
    var f: u8
    var h: u8
    var l: u8
    var pc: u16
    var sp: u16
    var mode: Mode
    /** gb->mem: GB_MEM_SIZE bytes, indexed by the 16-bit address. */
    const mem: array<u8>

    ghost predicate Valid()
      reads this
    {
      mem.Length == GB_MEM_SIZE
    }

    /** gb->cpu.regs as a value. */
    function Registers(): Regs
      reads this
    {
      Regs(a, b, c, d, e, f, h, l, pc, sp)
    }

    /** The whole machine as a value. */
    function State(): Gb
      requires Valid()
      reads this, mem
    {
      Gb(Registers(), mode, mem[..])
    }

    /** The struct is allocated with malloc and never cleared, so every register and every byte
        of memory starts out as whatever the caller finds there: the starting state is a
        parameter. */
    constructor (g: Gb)
      ensures Valid() && State() == g
    {
      a, b, c, d, e, f, h, l := g.regs.a, g.regs.b, g.regs.c, g.regs.d, g.regs.e, g.regs.f, g.regs.h, g.regs.l;
      pc, sp := g.regs.pc, g.regs.sp;
      mode := g.mode;
      mem := new u8[GB_MEM_SIZE](i => if 0 <= i < GB_MEM_SIZE then g.mem[i] else 0);
      new;
      assert mem[..] == g.mem;
    }

    // ------------------------------------------------------------------ memory

    /** mmu_read: the byte at the address. */
    method MmuRead(addr: u16) returns (v: u8)
      requires Valid()
      ensures v == Semantics.Load(State(), addr)
    {
      v := mem[addr];
    }

    /** mmu_write: the byte stored at the address, every other cell and register kept. */
    method MmuWrite(addr: u16, v: u8)
      requires Valid()
      modifies mem
      ensures State() == Semantics.Store(old(State()), addr, v)
    {
      mem[addr] := v;
    }

    /** cpu_read: mmu_read after a cpu_cycle that does nothing. */
    method CpuRead(addr: u16) returns (v: u8)
      requires Valid()
      ensures v == Semantics.Load(State(), addr)
    {
      v := MmuRead(addr);
    }

    /** cpu_write: mmu_write after a cpu_cycle that does nothing. */
    method CpuWrite(addr: u16, v: u8)
      requires Valid()
      modifies mem
      ensures State() == Semantics.Store(old(State()), addr, v)
    {
      MmuWrite(addr, v);
    }

    /** `cpu_read(gb, gb->cpu.regs.pc++)`. */
    method FetchByte() returns (v: u8)
      requires Valid()
      modifies this
      ensures (State(), v) == Fetch8(old(State()))
    {
      v := CpuRead(pc);
      pc := Inc16(pc);
    }

    // ------------------------------------------------------------------ registers and flags

    /** get_r16. */
    method GetR16(rr: Isa.R16) returns (v: u16)
      requires Valid()
      ensures v == Machine.GetR16(Registers(), rr)
    {
      match rr
      case BC => v := ToU16(c, b);
      case DE => v := ToU16(e, d);
      case HL => v := ToU16(l, h);
      case AF => v := ToU16(f, a);
      case SP => v := sp;
      case PC => v := pc;
    }

    /** set_r16. */
    method SetR16(rr: Isa.R16, v: u16)
      requires Valid()
      modifies this
      ensures State() == Semantics.WithR16(old(State()), rr, v)
    {
      match rr
      case BC => b, c := Msb(v), Lsb(v);
      case DE => d, e := Msb(v), Lsb(v);
      case HL => h, l := Msb(v), Lsb(v);
      case AF =>
        AfMask(v);
        a, f := Msb(v), Bits.And(Lsb(v), 0xf0, 8);
      case SP => sp := v;
      case PC => pc := v;
    }

    /** get_r8. */
    method GetR8(r: Isa.R8) returns (v: u8)
      requires Valid()
      ensures v == Machine.GetR8(Registers(), r)
    {
      match r
      case A => v := a;
      case B => v := b;
      case C => v := c;
      case D => v := d;
      case E => v := e;
      case H => v := h;
      case L => v := l;
    }

    /** set_r8. */
    method SetR8(r: Isa.R8, v: u8)
      requires Valid()
      modifies this
      ensures State() == old(State()).(regs := Machine.SetR8(old(Registers()), r, v))
    {
      match r
      case A => a := v;
      case B => b := v;
      case C => c := v;
      case D => d := v;
      case E => e := v;
      case H => h := v;
      case L => l := v;
    }

    /** set_flag: `f |= flag`. */
    method SetFlag(flag: int)
      requires Valid() && Alu.IsFlag(flag)
      modifies this
      ensures State() == old(State()).(regs := old(Registers()).(f := Alu.SetFlag(old(f), flag)))
    {
      f := Alu.SetFlag(f, flag);
    }

    /** reset_flag: `f &= ~flag`. */
    method ResetFlag(flag: int)
      requires Valid() && Alu.IsFlag(flag)
      modifies this
      ensures State() == old(State()).(regs := old(Registers()).(f := Alu.ResetFlag(old(f), flag)))
    {
      f := Alu.ResetFlag(f, flag);
    }

    /** toggle_flag: set_flag when `val` holds, reset_flag otherwise. */
    method ToggleFlag(flag: int, val: bool)
      requires Valid() && Alu.IsFlag(flag)
      modifies this
      ensures State() == old(State()).(regs := old(Registers()).(f := Alu.ToggleFlag(old(f), flag, val)))
    {
      if val {
        SetFlag(flag);
      } else {
        ResetFlag(flag);
      }
    }

    /** The four flag updates that end a handler: Z, N, H and C each toggled to the value `fl`
        gives it; the state is then the one Semantics.Flagged describes. */
    method UpdateFlags(fl: Alu.Flags)
      requires Valid()
      modifies this
      ensures State() == Semantics.Flagged(old(State()), fl)
    {
      ToggleFlag(Alu.FLAG_Z, fl.z);
      ToggleFlag(Alu.FLAG_N, fl.n);
      ToggleFlag(Alu.FLAG_H, fl.h);
      ToggleFlag(Alu.FLAG_C, fl.c);
      Alu.TogglesSetFlags(old(f), fl);
    }

    // ------------------------------------------------------------------ stack and operands

    /** stack_push. */
    method StackPush(v: u16)
      requires Valid()
      modifies this, mem
      ensures State() == Machine.StackPush(old(State()), v)
    {
      sp := Dec16(sp);
      CpuWrite(sp, Msb(v));
      sp := Dec16(sp);
      CpuWrite(sp, Lsb(v));
    }

    /** stack_pop. */
    method StackPop() returns (v: u16)
      requires Valid()
      modifies this
      ensures (State(), v) == Machine.StackPop(old(State()))
    {
      var lsb := CpuRead(sp);
      sp := Inc16(sp);
      var msb := CpuRead(sp);
      sp := Inc16(sp);
      v := ToU16(lsb, msb);
    }

    /** The operand of an `_r` handler (get_r8) or of an `_indirect_hl` one (cpu_read at HL). */
    method ReadLoc(loc: Isa.Loc8) returns (v: u8)
      requires Valid()
      ensures v == Machine.ReadLoc(State(), loc)
    {
      match loc
      case Reg(r) => v := GetR8(r);
      case IndHL =>
        var hl := GetR16(Isa.HL);
        v := CpuRead(hl);
    }

    /** The store of an `_r` handler (set_r8) or of an `_indirect_hl` one (a write at HL). */
    method WriteLoc(loc: Isa.Loc8, v: u8)
      requires Valid()
      modifies this, mem
      ensures State() == Machine.WriteLoc(old(State()), loc, v)
    {
      match loc
      case Reg(r) => SetR8(r, v);
      case IndHL =>
        var hl := GetR16(Isa.HL);
        CpuWrite(hl, v);
    }

    // ------------------------------------------------------------------ 8-bit loads

    /** ld_indirect_nn_a. */
    method LdIndirectNnA()
      requires Valid()
      modifies this, mem
      ensures State() == Semantics.LdIndirectNnA(old(State()))
    {
      var lsb := FetchByte();
      var msb := FetchByte();
      CpuWrite(ToU16(lsb, msb), a);
    }

    /** ld_a_indirect_nn. */
    method LdAIndirectNn()
      requires Valid()
      modifies this
      ensures State() == Semantics.LdAIndirectNn(old(State()))
    {
      var lsb := FetchByte();
      var msb := FetchByte();
      a := CpuRead(ToU16(lsb, msb));
    }

    /** ld_r_n and ld_indirect_hl_n. */
    method LdLocN(loc: Isa.Loc8)
      requires Valid()
      modifies this, mem
      ensures State() == Semantics.LdLocN(old(State()), loc)
    {
      var n := FetchByte();
      WriteLoc(loc, n);
    }

    /** ld_indirect_rr_a. */
    method LdIndirectRrA(rr: Isa.R16)
      requires Valid()
      modifies this, mem
      ensures State() == Semantics.LdIndirectRrA(old(State()), rr)
    {
      var addr := GetR16(rr);
      CpuWrite(addr, a);
    }

    /** ld_a_indirect_rr. */
    method LdAIndirectRr(rr: Isa.R16)
      requires Valid()
      modifies this
      ensures State() == Semantics.LdAIndirectRr(old(State()), rr)
    {
      var addr := GetR16(rr);
      a := CpuRead(addr);
    }

    /** ldd_indirect_hl_a. */
    method LddIndirectHlA()
      requires Valid()
      modifies this, mem
      ensures State() == Semantics.LddIndirectHlA(old(State()))
    {
      var hl := GetR16(Isa.HL);
      var v := GetR8(Isa.A);
      CpuWrite(hl, v);
      SetR16(Isa.HL, Dec16(hl));
    }

    /** ldd_a_indirect_hl. */
    method LddAIndirectHl()
      requires Valid()
      modifies this
      ensures State() == Semantics.LddAIndirectHl(old(State()))
    {
      var hl := GetR16(Isa.HL);
      var v := CpuRead(hl);
      SetR8(Isa.A, v);
      SetR16(Isa.HL, Dec16(hl));
    }

    /** ldi_indirect_hl_a. */
    method LdiIndirectHlA()
      requires Valid()
      modifies this, mem
      ensures State() == Semantics.LdiIndirectHlA(old(State()))
    {
      var hl := GetR16(Isa.HL);
      var v := GetR8(Isa.A);
      CpuWrite(hl, v);
      SetR16(Isa.HL, Inc16(hl));
    }

    /** ldi_a_indirect_hl. */
    method LdiAIndirectHl()
      requires Valid()
      modifies this
      ensures State() == Semantics.LdiAIndirectHl(old(State()))
    {
      var hl := GetR16(Isa.HL);
      var v := CpuRead(hl);
      SetR8(Isa.A, v);
      SetR16(Isa.HL, Inc16(hl));
    }

    /** The register-to-register moves, ld_r_indirect_hl and ld_indirect_hl_r. */
    method Ld8(dst: Isa.Loc8, from: Isa.Loc8)
      requires Valid()
      modifies this, mem
      ensures State() == Semantics.Ld8(old(State()), dst, from)
    {
      var v := ReadLoc(from);
      WriteLoc(dst, v);
    }

    /** ldh_r_a. */
    method LdhRA(r: Isa.R8)
      requires Valid()
      modifies this, mem
      ensures State() == Semantics.LdhRA(old(State()), r)
    {
      var n := GetR8(r);
      MmuWrite(Semantics.HighPage(n), a);
    }

    /** ldh_n_a. */
    method LdhNA()
      requires Valid()
      modifies this, mem
      ensures State() == Semantics.LdhNA(old(State()))
    {
      var n := FetchByte();
      MmuWrite(Semantics.HighPage(n), a);
    }

    /** ldh_a_n. */
    method LdhAN()
      requires Valid()
      modifies this
      ensures State() == Semantics.LdhAN(old(State()))
    {
      var n := FetchByte();
      a := CpuRead(Semantics.HighPage(n));
    }

    /** ldh_a_r. */
    method LdhAR(r: Isa.R8)
      requires Valid()
      modifies this
      ensures State() == Semantics.LdhAR(old(State()), r)
    {
      var n := GetR8(r);
      a := CpuRead(Semantics.HighPage(n));
    }

    // ------------------------------------------------------------------ 16-bit loads

    /** ld_sp_hl. */
    method LdSpHl()
      requires Valid()
      modifies this
      ensures State() == Semantics.LdSpHl(old(State()))
    {
      sp := GetR16(Isa.HL);
    }

    /** ld_rr_nn. */
    method LdRrNn(rr: Isa.R16)
      requires Valid()
      modifies this
      ensures State() == Semantics.LdRrNn(old(State()), rr)
    {
      var lsb := FetchByte();
      var msb := FetchByte();
      SetR16(rr, ToU16(lsb, msb));
    }

    /** ld_indirect_nn_sp. */
    method LdIndirectNnSp()
      requires Valid()
      modifies this, mem
      ensures State() == Semantics.LdIndirectNnSp(old(State()))
    {
      var lsb := FetchByte();
      var msb := FetchByte();
      var addr := ToU16(lsb, msb);
      CpuWrite(addr, Lsb(sp));
      CpuWrite(Inc16(addr), Msb(sp));
    }

    /** push_rr. */
    method PushRr(rr: Isa.R16)
      requires Valid()
      modifies this, mem
      ensures State() == Semantics.PushRr(old(State()), rr)
    {
      var v := GetR16(rr);
      StackPush(v);
    }

    /** pop_rr. */
    method PopRr(rr: Isa.R16)
      requires Valid()
      modifies this
      ensures State() == Semantics.PopRr(old(State()), rr)
    {
      var v := StackPop();
      SetR16(rr, v);
    }

    // ------------------------------------------------------------------ 8-bit arithmetic

    /** inc_r and inc_indirect_hl. */
    method IncLoc(loc: Isa.Loc8)
      requires Valid()
      modifies this, mem
      ensures State() == Semantics.IncLoc(old(State()), loc)
    {
      var v := ReadLoc(loc);
      var r := Alu.Inc8(v, Alu.FlagsOf(f));
      WriteLoc(loc, r.value);
      UpdateFlags(r.flags);
    }

    /** dec_r and dec_indirect_hl. */
    method DecLoc(loc: Isa.Loc8)
      requires Valid()
      modifies this, mem
      ensures State() == Semantics.DecLoc(old(State()), loc)
    {
      var v := ReadLoc(loc);
      var r := Alu.Dec8(v, Alu.FlagsOf(f));
      WriteLoc(loc, r.value);
      UpdateFlags(r.flags);
    }

    /** The add/adc/sub/sbc/and/xor/or/cp handlers with a register, (HL) or an immediate byte:
        the result (except for cp) goes to A, then the flags are updated. */
    method AluA(op: Alu.AluOp, src: Isa.Src8)
      requires Valid()
      modifies this, mem
      ensures State() == Semantics.AluA(old(State()), op, src)
    {
      var x;
      if src.Imm? {
        x := FetchByte();
      } else {
        x := ReadLoc(src.loc);
      }
      var r := Alu.Alu8(op, a, x, Alu.FlagsOf(f));
      SetR8(Isa.A, r.value);
      UpdateFlags(r.flags);
    }

    /** daa: the flags are written first, then A. */
    method Daa()
      requires Valid()
      modifies this
      ensures State() == Semantics.Daa(old(State()))
    {
      var r := Alu.Daa(a, Alu.FlagsOf(f));
      UpdateFlags(r.flags);
      SetR8(Isa.A, r.value);
    }

    /** cpl. */
    method Cpl()
      requires Valid()
      modifies this
      ensures State() == Semantics.Cpl(old(State()))
    {
      var r := Alu.Cpl(a, Alu.FlagsOf(f));
      a := r.value;
      UpdateFlags(r.flags);
    }

    // ------------------------------------------------------------------ 16-bit arithmetic

    /** add_sp_i8. */
    method AddSpI8()
      requires Valid()
      modifies this
      ensures State() == Semantics.AddSpI8(old(State()))
    {
      var i8 := FetchByte();
      var old_sp := sp;
      sp := Alu.Offset(old_sp, i8);
      UpdateFlags(Alu.OffsetFlags(old_sp, i8));
    }

    /** ld_hl_sp_plus_i8. */
    method LdHlSpPlusI8()
      requires Valid()
      modifies this
      ensures State() == Semantics.LdHlSpPlusI8(old(State()))
    {
      var i8 := FetchByte();
      var old_sp := sp;
      SetR16(Isa.HL, Alu.Offset(old_sp, i8));
      UpdateFlags(Alu.OffsetFlags(old_sp, i8));
    }

    /** add_hl_rr. */
    method AddHlRr(rr: Isa.R16)
      requires Valid()
      modifies this
      ensures State() == Semantics.AddHlRr(old(State()), rr)
    {
      var hl := GetR16(Isa.HL);
      var v := GetR16(rr);
      var r := Alu.AddHl(hl, v, Alu.FlagsOf(f));
      SetR16(Isa.HL, r.value);
      UpdateFlags(r.flags);
    }

    /** inc_rr. */
    method IncRr(rr: Isa.R16)
      requires Valid()
      modifies this
      ensures State() == Semantics.IncRr(old(State()), rr)
    {
      var v := GetR16(rr);
      SetR16(rr, Inc16(v));
    }

    /** dec_rr. */
    method DecRr(rr: Isa.R16)
      requires Valid()
      modifies this
      ensures State() == Semantics.DecRr(old(State()), rr)
    {
      var v := GetR16(rr);
      SetR16(rr, Dec16(v));
    }

    // ------------------------------------------------------------------ single-bit operations

    /** bit_n_r and bit_n_indirect_hl. */
    method BitN(n: Alu.BitIndex, loc: Isa.Loc8)
      requires Valid()
      modifies this
      ensures State() == Semantics.BitN(old(State()), n, loc)
    {
      var v := ReadLoc(loc);
      UpdateFlags(Alu.TestBit(n, v, Alu.FlagsOf(f)));
    }

    /** set_n_r and set_n_indirect_hl. */
    method SetN(n: Alu.BitIndex, loc: Isa.Loc8)
      requires Valid()
      modifies this, mem
      ensures State() == Semantics.SetN(old(State()), n, loc)
    {
      var v := ReadLoc(loc);
      WriteLoc(loc, Alu.SetBit(n, v));
    }

    /** res_n_r and res_n_indirect_hl. */
    method ResN(n: Alu.BitIndex, loc: Isa.Loc8)
      requires Valid()
      modifies this, mem
      ensures State() == Semantics.ResN(old(State()), n, loc)
    {
      var v := ReadLoc(loc);
      WriteLoc(loc, Alu.ResBit(n, v));
    }

    // ------------------------------------------------------------------ jumps, calls, returns

    /** ret, and reti, which does the same. */
    method Ret()
      requires Valid()
      modifies this
      ensures State() == Semantics.Ret(old(State()))
    {
      pc := StackPop();
    }

    /** rst_n. */
    method RstN(vec: u16)
      requires Valid()
      modifies this, mem
      ensures State() == Semantics.RstN(old(State()), vec)
    {
      StackPush(pc);
      pc := vec;
    }

    /** ret_f. */
    method RetF(cond: Isa.Cond)
      requires Valid()
      modifies this
      ensures State() == Semantics.RetF(old(State()), cond)
    {
      if CheckCond(Registers(), cond) {
        pc := StackPop();
      }
    }

    /** jp_hl. */
    method JpHl()
      requires Valid()
      modifies this
      ensures State() == Semantics.JpHl(old(State()))
    {
      pc := GetR16(Isa.HL);
    }

    /** jp_nn. */
    method JpNn()
      requires Valid()
      modifies this
      ensures State() == Semantics.JpNn(old(State()))
    {
      var lsb := FetchByte();
      var msb := FetchByte();
      pc := ToU16(lsb, msb);
    }

    /** jp_f_nn. */
    method JpFNn(cond: Isa.Cond)
      requires Valid()
      modifies this
      ensures State() == Semantics.JpFNn(old(State()), cond)
    {
      var lsb := FetchByte();
      var msb := FetchByte();
      if CheckCond(Registers(), cond) {
        pc := ToU16(lsb, msb);
      }
    }

    /** jr_f_i8. */
    method JrFI8(cond: Isa.Cond)
      requires Valid()
      modifies this
      ensures State() == Semantics.JrFI8(old(State()), cond)
    {
      var i8 := FetchByte();
      if CheckCond(Registers(), cond) {
        pc := Alu.Offset(pc, i8);
      }
    }

    /** jr_i8. */
    method JrI8()
      requires Valid()
      modifies this
      ensures State() == Semantics.JrI8(old(State()))
    {
      var i8 := FetchByte();
      pc := Alu.Offset(pc, i8);
    }

    /** call_nn. */
    method CallNn()
      requires Valid()
      modifies this, mem
      ensures State() == Semantics.CallNn(old(State()))
    {
      var lsb := FetchByte();
      var msb := FetchByte();
      StackPush(pc);
      pc := ToU16(lsb, msb);
    }

    /** call_f_nn. */
    method CallFNn(cond: Isa.Cond)
      requires Valid()
      modifies this, mem
      ensures State() == Semantics.CallFNn(old(State()), cond)
    {
      var lsb := FetchByte();
      var msb := FetchByte();
      if CheckCond(Registers(), cond) {
        StackPush(pc);
        pc := ToU16(lsb, msb);
      }
    }

    // ------------------------------------------------------------------ rotates and shifts

    /** rlca, rrca, rla and rra. */
    method RotateA(op: Alu.AccumulatorRotate)
      requires Valid()
      modifies this
      ensures State() == Semantics.RotateA(old(State()), op)
    {
      var r := Alu.RotateA(op, a, Alu.FlagsOf(f));
      SetR8(Isa.A, r.value);
      UpdateFlags(r.flags);
    }

    /** The CB-prefixed rotate, shift and swap handlers. */
    method ShiftLoc(op: Alu.ShiftOp, loc: Isa.Loc8)
      requires Valid()
      modifies this, mem
      ensures State() == Semantics.ShiftLoc(old(State()), op, loc)
    {
      var v := ReadLoc(loc);
      var r := Alu.Shift(op, v, Alu.FlagsOf(f));
      WriteLoc(loc, r.value);
      UpdateFlags(r.flags);
    }

    // ------------------------------------------------------------------ control

    /** scf. */
    method Scf()
      requires Valid()
      modifies this
      ensures State() == Semantics.Flagged(old(State()), Alu.Scf(F(old(Registers()))))
    {
      UpdateFlags(Alu.Scf(Alu.FlagsOf(f)));
    }

    /** ccf. */
    method Ccf()
      requires Valid()
      modifies this
      ensures State() == Semantics.Flagged(old(State()), Alu.Ccf(F(old(Registers()))))
    {
      UpdateFlags(Alu.Ccf(Alu.FlagsOf(f)));
    }

    /** halt: the mode becomes HALT, and nothing else changes. */
    method Halt()
      requires Valid()
      modifies this
      ensures State() == old(State()).(mode := Halted)
    {
      mode := Halted;
    }

    /** stop: the mode becomes STOP, and nothing else changes. */
    method Stop()
      requires Valid()
      modifies this
      ensures State() == old(State()).(mode := Stopped)
    {
      mode := Stopped;
    }

    // ------------------------------------------------------------------ dispatch

    /** execute_cb_instructions: the byte after 0xCB is fetched and its case runs. */
    method ExecuteCb()
      requires Valid()
      modifies this, mem
      ensures State() == Semantics.ExecuteCb(old(State()))
    {
      var op := FetchByte();
      match Isa.DecodeCb(op)
      case CbShift(sop, loc) => ShiftLoc(sop, loc);
      case CbBit(n, loc) => BitN(n, loc);
      case CbRes(n, loc) => ResN(n, loc);
      case CbSet(n, loc) => SetN(n, loc);
    }

    /** One case of execute_normal_instructions' switch: the handler it calls; the empty cases,
        di and ei change nothing. */
    method Execute(i: Isa.Instr)
      requires Valid()
      modifies this, mem
      ensures State() == Semantics.Exec(i, old(State()))
    {
      if i.Nop? || i.Stop? || i.Halt? || i.Di? || i.Ei? || i.LdRrNn? || i.LdIndRrA? ||
        i.LdAIndRr? || i.IncRr? || i.DecRr? || i.IncLoc? || i.DecLoc? || i.LdLocN? || i.RotA? ||
        i.LdIndNnSp? || i.AddHlRr? || i.JrI8? || i.JrCondI8? || i.LdiIndHlA? || i.LdiAIndHl? ||
        i.LddIndHlA? || i.LddAIndHl? || i.Daa? || i.Cpl? || i.Scf? || i.Ccf?
      {
        ExecuteLow(i);
      } else {
        ExecuteHigh(i);
      }
    }

    /** The cases of the opcodes 0x00-0x3F (the control and 16-bit cases, inc, dec, the
        immediate loads, the rotations of A, daa, cpl, scf and ccf). */
    method ExecuteLow(i: Isa.Instr)
      requires i.Nop? || i.Stop? || i.Halt? || i.Di? || i.Ei? || i.LdRrNn? || i.LdIndRrA? ||
        i.LdAIndRr? || i.IncRr? || i.DecRr? || i.IncLoc? || i.DecLoc? || i.LdLocN? || i.RotA? ||
        i.LdIndNnSp? || i.AddHlRr? || i.JrI8? || i.JrCondI8? || i.LdiIndHlA? || i.LdiAIndHl? ||
        i.LddIndHlA? || i.LddAIndHl? || i.Daa? || i.Cpl? || i.Scf? || i.Ccf?
      requires Valid()
      modifies this, mem
      ensures State() == Semantics.Exec(i, old(State()))
    {
      ghost var g := State();
      match i
      case Nop => ExecCases.Nop(g);
      case Stop => Stop(); ExecCases.Stop(g);
      case Halt => Halt(); ExecCases.Halt(g);
      case Di => ExecCases.Di(g);
      case Ei => ExecCases.Ei(g);
      case LdRrNn(rr) => LdRrNn(rr); ExecCases.LdRrNn(g, rr);
      case LdIndRrA(rr) => LdIndirectRrA(rr); ExecCases.LdIndRrA(g, rr);
      case LdAIndRr(rr) => LdAIndirectRr(rr); ExecCases.LdAIndRr(g, rr);
      case IncRr(rr) => IncRr(rr); ExecCases.IncRr(g, rr);
      case DecRr(rr) => DecRr(rr); ExecCases.DecRr(g, rr);
      case IncLoc(loc) => IncLoc(loc); ExecCases.IncLoc(g, loc);
      case DecLoc(loc) => DecLoc(loc); ExecCases.DecLoc(g, loc);
      case LdLocN(loc) => LdLocN(loc); ExecCases.LdLocN(g, loc);
      case RotA(op) => RotateA(op); ExecCases.RotA(g, op);
      case LdIndNnSp => LdIndirectNnSp(); ExecCases.LdIndNnSp(g);
      case AddHlRr(rr) => AddHlRr(rr); ExecCases.AddHlRr(g, rr);
      case JrI8 => JrI8(); ExecCases.JrI8(g);
      case JrCondI8(cond) => JrFI8(cond); ExecCases.JrCondI8(g, cond);
      case LdiIndHlA => LdiIndirectHlA(); ExecCases.LdiIndHlA(g);
      case LdiAIndHl => LdiAIndirectHl(); ExecCases.LdiAIndHl(g);
      case LddIndHlA => LddIndirectHlA(); ExecCases.LddIndHlA(g);
      case LddAIndHl => LddAIndirectHl(); ExecCases.LddAIndHl(g);
      case Daa => Daa(); ExecCases.Daa(g);
      case Cpl => Cpl(); ExecCases.Cpl(g);
      case Scf => Scf(); ExecCases.Scf(g);
      case Ccf => Ccf(); ExecCases.Ccf(g);
      case _ => assert false;
    }

    /** The cases of the opcodes 0x40-0xFF (the register loads, the accumulator operations,
        the stack, jumps, calls and returns, the 0xCB prefix and the high-page and SP loads). */
    method ExecuteHigh(i: Isa.Instr)
      requires i.Ld8? || i.AluA? || i.RetCond? || i.Ret? || i.Reti? || i.Pop? || i.Push? ||
        i.JpCondNn? || i.JpNn? || i.JpHl? || i.CallCondNn? || i.CallNn? || i.Rst? || i.PrefixCb? ||
        i.LdhNA? || i.LdhRA? || i.LdhAN? || i.LdhAR? || i.AddSpI8? || i.LdHlSpI8? || i.LdSpHl? ||
        i.LdIndNnA? || i.LdAIndNn?
      requires Valid()
      modifies this, mem
      ensures State() == Semantics.Exec(i, old(State()))
    {
      ghost var g := State();
      match i
      case Ld8(dst, from) => Ld8(dst, from); ExecCases.Ld8(g, dst, from);
      case AluA(op, src) => AluA(op, src); ExecCases.AluA(g, op, src);
      case RetCond(cond) => RetF(cond); ExecCases.RetCond(g, cond);
      case Ret => Ret(); ExecCases.Ret(g);
      case Reti => Ret(); ExecCases.Reti(g);
      case Pop(rr) => PopRr(rr); ExecCases.Pop(g, rr);
      case Push(rr) => PushRr(rr); ExecCases.Push(g, rr);
      case JpCondNn(cond) => JpFNn(cond); ExecCases.JpCondNn(g, cond);
      case JpNn => JpNn(); ExecCases.JpNn(g);
      case JpHl => JpHl(); ExecCases.JpHl(g);
      case CallCondNn(cond) => CallFNn(cond); ExecCases.CallCondNn(g, cond);
      case CallNn => CallNn(); ExecCases.CallNn(g);
      case Rst(vec) => RstN(vec); ExecCases.Rst(g, vec);
      case PrefixCb => ExecuteCb(); ExecCases.PrefixCb(g);
      case LdhNA => LdhNA(); ExecCases.LdhNA(g);
      case LdhRA(r) => LdhRA(r); ExecCases.LdhRA(g, r);
      case LdhAN => LdhAN(); ExecCases.LdhAN(g);
      case LdhAR(r) => LdhAR(r); ExecCases.LdhAR(g, r);
      case AddSpI8 => AddSpI8(); ExecCases.AddSpI8(g);
      case LdHlSpI8 => LdHlSpPlusI8(); ExecCases.LdHlSpI8(g);
      case LdSpHl => LdSpHl(); ExecCases.LdSpHl(g);
      case LdIndNnA => LdIndirectNnA(); ExecCases.LdIndNnA(g);
      case LdAIndNn => LdAIndirectNn(); ExecCases.LdAIndNn(g);
      case _ => assert false;
    }

    /** execute_normal_instructions: the opcode at PC is fetched and its case runs. */
    method ExecuteNormal()
      requires Valid()
      modifies this, mem
      ensures State() == Semantics.ExecuteNormal(old(State()))
    {
      var op := FetchByte();
      Execute(Isa.Decode(op));
    }

    /** cpu_step: one instruction when the mode is NORMAL; nothing in any other mode. */
    method Step()
      requires Valid()
      modifies this, mem
      ensures State() == Semantics.Step(old(State()))
    {
      if mode == Normal {
        ExecuteNormal();
      }
    }

    /** cpu_init: the mode becomes NORMAL and PC 0; nothing else is set. */
    method Init()
      requires Valid()
      modifies this
      ensures State() == Semantics.Init(old(State()))
    {
      mode := Normal;
      pc := 0;
    }
  }
}
