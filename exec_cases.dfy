/** The cases of the base dispatch one at a time: for each handler call Semantics.Exec can
    make, the call it makes. Each case is its own lemma, so that the verifier unfolds the
    48-way dispatch against a single known instruction at a time; Cpu.Cpu.Execute calls the
    one its current case needs. */
module ExecCases {
  import opened Common
  import Alu
  import Isa
  import opened Machine
  import Semantics

  lemma {:induction false} Nop(g: Gb)
    ensures Semantics.Exec(Isa.Nop, g) == g
  {
  }

  lemma {:induction false} Stop(g: Gb)
    ensures Semantics.Exec(Isa.Stop, g) == g.(mode := Stopped)
  {
  }

  lemma {:induction false} Halt(g: Gb)
    ensures Semantics.Exec(Isa.Halt, g) == g.(mode := Halted)
  {
  }

  lemma {:induction false} Di(g: Gb)
    ensures Semantics.Exec(Isa.Di, g) == g
  {
  }

  lemma {:induction false} Ei(g: Gb)
    ensures Semantics.Exec(Isa.Ei, g) == g
  {
  }

  lemma {:induction false} LdRrNn(g: Gb, rr: Isa.R16)
    ensures Semantics.Exec(Isa.LdRrNn(rr), g) == Semantics.LdRrNn(g, rr)
  {
  }

  lemma {:induction false} LdIndRrA(g: Gb, rr: Isa.R16)
    ensures Semantics.Exec(Isa.LdIndRrA(rr), g) == Semantics.LdIndirectRrA(g, rr)
  {
  }

  lemma {:induction false} LdAIndRr(g: Gb, rr: Isa.R16)
    ensures Semantics.Exec(Isa.LdAIndRr(rr), g) == Semantics.LdAIndirectRr(g, rr)
  {
  }

  lemma {:induction false} IncRr(g: Gb, rr: Isa.R16)
    ensures Semantics.Exec(Isa.IncRr(rr), g) == Semantics.IncRr(g, rr)
  {
  }

  lemma {:induction false} DecRr(g: Gb, rr: Isa.R16)
    ensures Semantics.Exec(Isa.DecRr(rr), g) == Semantics.DecRr(g, rr)
  {
  }

  lemma {:induction false} IncLoc(g: Gb, loc: Isa.Loc8)
    ensures Semantics.Exec(Isa.IncLoc(loc), g) == Semantics.IncLoc(g, loc)
  {
  }

  lemma {:induction false} DecLoc(g: Gb, loc: Isa.Loc8)
    ensures Semantics.Exec(Isa.DecLoc(loc), g) == Semantics.DecLoc(g, loc)
  {
  }

  lemma {:induction false} LdLocN(g: Gb, loc: Isa.Loc8)
    ensures Semantics.Exec(Isa.LdLocN(loc), g) == Semantics.LdLocN(g, loc)
  {
  }

  lemma {:induction false} RotA(g: Gb, op: Alu.AccumulatorRotate)
    ensures Semantics.Exec(Isa.RotA(op), g) == Semantics.RotateA(g, op)
  {
  }

  lemma {:induction false} LdIndNnSp(g: Gb)
    ensures Semantics.Exec(Isa.LdIndNnSp, g) == Semantics.LdIndirectNnSp(g)
  {
  }

  lemma {:induction false} AddHlRr(g: Gb, rr: Isa.R16)
    ensures Semantics.Exec(Isa.AddHlRr(rr), g) == Semantics.AddHlRr(g, rr)
  {
  }

  lemma {:induction false} JrI8(g: Gb)
    ensures Semantics.Exec(Isa.JrI8, g) == Semantics.JrI8(g)
  {
  }

  lemma {:induction false} JrCondI8(g: Gb, cond: Isa.Cond)
    ensures Semantics.Exec(Isa.JrCondI8(cond), g) == Semantics.JrFI8(g, cond)
  {
  }

  lemma {:induction false} LdiIndHlA(g: Gb)
    ensures Semantics.Exec(Isa.LdiIndHlA, g) == Semantics.LdiIndirectHlA(g)
  {
  }

  lemma {:induction false} LdiAIndHl(g: Gb)
    ensures Semantics.Exec(Isa.LdiAIndHl, g) == Semantics.LdiAIndirectHl(g)
  {
  }

  lemma {:induction false} LddIndHlA(g: Gb)
    ensures Semantics.Exec(Isa.LddIndHlA, g) == Semantics.LddIndirectHlA(g)
  {
  }

  lemma {:induction false} LddAIndHl(g: Gb)
    ensures Semantics.Exec(Isa.LddAIndHl, g) == Semantics.LddAIndirectHl(g)
  {
  }

  lemma {:induction false} Daa(g: Gb)
    ensures Semantics.Exec(Isa.Daa, g) == Semantics.Daa(g)
  {
  }

  lemma {:induction false} Cpl(g: Gb)
    ensures Semantics.Exec(Isa.Cpl, g) == Semantics.Cpl(g)
  {
  }

  lemma {:induction false} Scf(g: Gb)
    ensures Semantics.Exec(Isa.Scf, g) == Semantics.Flagged(g, Alu.Scf(F(g.regs)))
  {
  }

  lemma {:induction false} Ccf(g: Gb)
    ensures Semantics.Exec(Isa.Ccf, g) == Semantics.Flagged(g, Alu.Ccf(F(g.regs)))
  {
  }

  lemma {:induction false} Ld8(g: Gb, dst: Isa.Loc8, from: Isa.Loc8)
    ensures Semantics.Exec(Isa.Ld8(dst, from), g) == Semantics.Ld8(g, dst, from)
  {
  }

  lemma {:induction false} AluA(g: Gb, op: Alu.AluOp, src: Isa.Src8)
    ensures Semantics.Exec(Isa.AluA(op, src), g) == Semantics.AluA(g, op, src)
  {
  }

  lemma {:induction false} RetCond(g: Gb, cond: Isa.Cond)
    ensures Semantics.Exec(Isa.RetCond(cond), g) == Semantics.RetF(g, cond)
  {
  }

  lemma {:induction false} Ret(g: Gb)
    ensures Semantics.Exec(Isa.Ret, g) == Semantics.Ret(g)
  {
  }

  lemma {:induction false} Reti(g: Gb)
    ensures Semantics.Exec(Isa.Reti, g) == Semantics.Ret(g)
  {
  }

  lemma {:induction false} Pop(g: Gb, rr: Isa.R16)
    ensures Semantics.Exec(Isa.Pop(rr), g) == Semantics.PopRr(g, rr)
  {
  }

  lemma {:induction false} Push(g: Gb, rr: Isa.R16)
    ensures Semantics.Exec(Isa.Push(rr), g) == Semantics.PushRr(g, rr)
  {
  }

  lemma {:induction false} JpCondNn(g: Gb, cond: Isa.Cond)
    ensures Semantics.Exec(Isa.JpCondNn(cond), g) == Semantics.JpFNn(g, cond)
  {
  }

  lemma {:induction false} JpNn(g: Gb)
    ensures Semantics.Exec(Isa.JpNn, g) == Semantics.JpNn(g)
  {
  }

  lemma {:induction false} JpHl(g: Gb)
    ensures Semantics.Exec(Isa.JpHl, g) == Semantics.JpHl(g)
  {
  }

  lemma {:induction false} CallCondNn(g: Gb, cond: Isa.Cond)
    ensures Semantics.Exec(Isa.CallCondNn(cond), g) == Semantics.CallFNn(g, cond)
  {
  }

  lemma {:induction false} CallNn(g: Gb)
    ensures Semantics.Exec(Isa.CallNn, g) == Semantics.CallNn(g)
  {
  }

  lemma {:induction false} Rst(g: Gb, vec: u16)
    ensures Semantics.Exec(Isa.Rst(vec), g) == Semantics.RstN(g, vec)
  {
  }

  lemma {:induction false} PrefixCb(g: Gb)
    ensures Semantics.Exec(Isa.PrefixCb, g) == Semantics.ExecuteCb(g)
  {
  }

  lemma {:induction false} LdhNA(g: Gb)
    ensures Semantics.Exec(Isa.LdhNA, g) == Semantics.LdhNA(g)
  {
  }

  lemma {:induction false} LdhRA(g: Gb, r: Isa.R8)
    ensures Semantics.Exec(Isa.LdhRA(r), g) == Semantics.LdhRA(g, r)
  {
  }

  lemma {:induction false} LdhAN(g: Gb)
    ensures Semantics.Exec(Isa.LdhAN, g) == Semantics.LdhAN(g)
  {
  }

  lemma {:induction false} LdhAR(g: Gb, r: Isa.R8)
    ensures Semantics.Exec(Isa.LdhAR(r), g) == Semantics.LdhAR(g, r)
  {
  }

  lemma {:induction false} AddSpI8(g: Gb)
    ensures Semantics.Exec(Isa.AddSpI8, g) == Semantics.AddSpI8(g)
  {
  }

  lemma {:induction false} LdHlSpI8(g: Gb)
    ensures Semantics.Exec(Isa.LdHlSpI8, g) == Semantics.LdHlSpPlusI8(g)
  {
  }

  lemma {:induction false} LdSpHl(g: Gb)
    ensures Semantics.Exec(Isa.LdSpHl, g) == Semantics.LdSpHl(g)
  {
  }

  lemma {:induction false} LdIndNnA(g: Gb)
    ensures Semantics.Exec(Isa.LdIndNnA, g) == Semantics.LdIndirectNnA(g)
  {
  }

  lemma {:induction false} LdAIndNn(g: Gb)
    ensures Semantics.Exec(Isa.LdAIndNn, g) == Semantics.LdAIndirectNn(g)
  {
  }
}
