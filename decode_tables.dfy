/** The two dispatch switches of the interpreter, case by case: for every opcode byte, the
    bit-field decoder of module Isa yields exactly the handler call (and arguments) that the
    corresponding `case` of execute_normal_instructions or execute_cb_instructions makes. The
    DecodeCases and DecodeCbCases lemmas each cover 32 consecutive cases; the DecodeTable
    lemmas they call cover 4 each, with the operand fields of each byte spelled out. */
module DecodeTables {
  import opened Isa
  import Alu

  /** The cases 0x00-0x03 of execute_normal_instructions, one handler call per byte. */
  lemma {:induction false} DecodeTable00()
    ensures Decode(0x00) == Nop
    ensures Decode(0x01) == LdRrNn(BC)
    ensures Decode(0x02) == LdIndRrA(BC)
    ensures Decode(0x03) == IncRr(BC)
  {
    assert Y(0x00) == 0 && Z(0x00) == 0;
    assert Y(0x01) == 0 && Z(0x01) == 1;
    assert Y(0x02) == 0 && Z(0x02) == 2;
    assert Y(0x03) == 0 && Z(0x03) == 3;
  }

  /** The cases 0x04-0x07 of execute_normal_instructions, one handler call per byte. */
  lemma {:induction false} DecodeTable04()
    ensures Decode(0x04) == IncLoc(Reg(B))
    ensures Decode(0x05) == DecLoc(Reg(B))
    ensures Decode(0x06) == LdLocN(Reg(B))
    ensures Decode(0x07) == RotA(Alu.Rlc)
  {
    assert Y(0x04) == 0 && Z(0x04) == 4;
    assert Y(0x05) == 0 && Z(0x05) == 5;
    assert Y(0x06) == 0 && Z(0x06) == 6;
    assert Y(0x07) == 0 && Z(0x07) == 7;
  }

  /** The cases 0x08-0x0B of execute_normal_instructions, one handler call per byte. */
  lemma {:induction false} DecodeTable08()
    ensures Decode(0x08) == LdIndNnSp
    ensures Decode(0x09) == AddHlRr(BC)
    ensures Decode(0x0A) == LdAIndRr(BC)
    ensures Decode(0x0B) == DecRr(BC)
  {
    assert Y(0x08) == 1 && Z(0x08) == 0;
    assert Y(0x09) == 1 && Z(0x09) == 1;
    assert Y(0x0A) == 1 && Z(0x0A) == 2;
    assert Y(0x0B) == 1 && Z(0x0B) == 3;
  }

  /** The cases 0x0C-0x0F of execute_normal_instructions, one handler call per byte. */
  lemma {:induction false} DecodeTable0C()
    ensures Decode(0x0C) == IncLoc(Reg(C))
    ensures Decode(0x0D) == DecLoc(Reg(C))
    ensures Decode(0x0E) == LdLocN(Reg(C))
    ensures Decode(0x0F) == RotA(Alu.Rrc)
  {
    assert Y(0x0C) == 1 && Z(0x0C) == 4;
    assert Y(0x0D) == 1 && Z(0x0D) == 5;
    assert Y(0x0E) == 1 && Z(0x0E) == 6;
    assert Y(0x0F) == 1 && Z(0x0F) == 7;
  }

  /** The cases 0x10-0x13 of execute_normal_instructions, one handler call per byte. */
  lemma {:induction false} DecodeTable10()
    ensures Decode(0x10) == Stop
    ensures Decode(0x11) == LdRrNn(DE)
    ensures Decode(0x12) == LdIndRrA(DE)
    ensures Decode(0x13) == IncRr(DE)
  {
    assert Y(0x10) == 2 && Z(0x10) == 0;
    assert Y(0x11) == 2 && Z(0x11) == 1;
    assert Y(0x12) == 2 && Z(0x12) == 2;
    assert Y(0x13) == 2 && Z(0x13) == 3;
  }

  /** The cases 0x14-0x17 of execute_normal_instructions, one handler call per byte. */
  lemma {:induction false} DecodeTable14()
    ensures Decode(0x14) == IncLoc(Reg(D))
    ensures Decode(0x15) == DecLoc(Reg(D))
    ensures Decode(0x16) == LdLocN(Reg(D))
    ensures Decode(0x17) == RotA(Alu.Rl)
  {
    assert Y(0x14) == 2 && Z(0x14) == 4;
    assert Y(0x15) == 2 && Z(0x15) == 5;
    assert Y(0x16) == 2 && Z(0x16) == 6;
    assert Y(0x17) == 2 && Z(0x17) == 7;
  }

  /** The cases 0x18-0x1B of execute_normal_instructions, one handler call per byte. */
  lemma {:induction false} DecodeTable18()
    ensures Decode(0x18) == JrI8
    ensures Decode(0x19) == AddHlRr(DE)
    ensures Decode(0x1A) == LdAIndRr(DE)
    ensures Decode(0x1B) == DecRr(DE)
  {
    assert Y(0x18) == 3 && Z(0x18) == 0;
    assert Y(0x19) == 3 && Z(0x19) == 1;
    assert Y(0x1A) == 3 && Z(0x1A) == 2;
    assert Y(0x1B) == 3 && Z(0x1B) == 3;
  }

  /** The cases 0x1C-0x1F of execute_normal_instructions, one handler call per byte. */
  lemma {:induction false} DecodeTable1C()
    ensures Decode(0x1C) == IncLoc(Reg(E))
    ensures Decode(0x1D) == DecLoc(Reg(E))
    ensures Decode(0x1E) == LdLocN(Reg(E))
    ensures Decode(0x1F) == RotA(Alu.Rr)
  {
    assert Y(0x1C) == 3 && Z(0x1C) == 4;
    assert Y(0x1D) == 3 && Z(0x1D) == 5;
    assert Y(0x1E) == 3 && Z(0x1E) == 6;
    assert Y(0x1F) == 3 && Z(0x1F) == 7;
  }

  /** The cases 0x20-0x23 of execute_normal_instructions, one handler call per byte. */
  lemma {:induction false} DecodeTable20()
    ensures Decode(0x20) == JrCondI8(CondNZ)
    ensures Decode(0x21) == LdRrNn(HL)
    ensures Decode(0x22) == LdiIndHlA
    ensures Decode(0x23) == IncRr(HL)
  {
    assert Y(0x20) == 4 && Z(0x20) == 0;
    assert Y(0x21) == 4 && Z(0x21) == 1;
    assert Y(0x22) == 4 && Z(0x22) == 2;
    assert Y(0x23) == 4 && Z(0x23) == 3;
  }

  /** The cases 0x24-0x27 of execute_normal_instructions, one handler call per byte. */
  lemma {:induction false} DecodeTable24()
    ensures Decode(0x24) == IncLoc(Reg(H))
    ensures Decode(0x25) == DecLoc(Reg(H))
    ensures Decode(0x26) == LdLocN(Reg(H))
    ensures Decode(0x27) == Daa
  {
    assert Y(0x24) == 4 && Z(0x24) == 4;
    assert Y(0x25) == 4 && Z(0x25) == 5;
    assert Y(0x26) == 4 && Z(0x26) == 6;
    assert Y(0x27) == 4 && Z(0x27) == 7;
  }

  /** The cases 0x28-0x2B of execute_normal_instructions, one handler call per byte. */
  lemma {:induction false} DecodeTable28()
    ensures Decode(0x28) == JrCondI8(CondZ)
    ensures Decode(0x29) == AddHlRr(HL)
    ensures Decode(0x2A) == LdiAIndHl
    ensures Decode(0x2B) == DecRr(HL)
  {
    assert Y(0x28) == 5 && Z(0x28) == 0;
    assert Y(0x29) == 5 && Z(0x29) == 1;
    assert Y(0x2A) == 5 && Z(0x2A) == 2;
    assert Y(0x2B) == 5 && Z(0x2B) == 3;
  }

  /** The cases 0x2C-0x2F of execute_normal_instructions, one handler call per byte. */
  lemma {:induction false} DecodeTable2C()
    ensures Decode(0x2C) == IncLoc(Reg(L))
    ensures Decode(0x2D) == DecLoc(Reg(L))
    ensures Decode(0x2E) == LdLocN(Reg(L))
    ensures Decode(0x2F) == Cpl
  {
    assert Y(0x2C) == 5 && Z(0x2C) == 4;
    assert Y(0x2D) == 5 && Z(0x2D) == 5;
    assert Y(0x2E) == 5 && Z(0x2E) == 6;
    assert Y(0x2F) == 5 && Z(0x2F) == 7;
  }

  /** The cases 0x30-0x33 of execute_normal_instructions, one handler call per byte. */
  lemma {:induction false} DecodeTable30()
    ensures Decode(0x30) == JrCondI8(CondNC)
    ensures Decode(0x31) == LdRrNn(SP)
    ensures Decode(0x32) == LddIndHlA
    ensures Decode(0x33) == IncRr(SP)
  {
    assert Y(0x30) == 6 && Z(0x30) == 0;
    assert Y(0x31) == 6 && Z(0x31) == 1;
    assert Y(0x32) == 6 && Z(0x32) == 2;
    assert Y(0x33) == 6 && Z(0x33) == 3;
  }

  /** The cases 0x34-0x37 of execute_normal_instructions, one handler call per byte. */
  lemma {:induction false} DecodeTable34()
    ensures Decode(0x34) == IncLoc(IndHL)
    ensures Decode(0x35) == DecLoc(IndHL)
    ensures Decode(0x36) == LdLocN(IndHL)
    ensures Decode(0x37) == Scf
  {
    assert Y(0x34) == 6 && Z(0x34) == 4;
    assert Y(0x35) == 6 && Z(0x35) == 5;
    assert Y(0x36) == 6 && Z(0x36) == 6;
    assert Y(0x37) == 6 && Z(0x37) == 7;
  }

  /** The cases 0x38-0x3B of execute_normal_instructions, one handler call per byte. */
  lemma {:induction false} DecodeTable38()
    ensures Decode(0x38) == JrCondI8(CondC)
    ensures Decode(0x39) == AddHlRr(SP)
    ensures Decode(0x3A) == LddAIndHl
    ensures Decode(0x3B) == DecRr(SP)
  {
    assert Y(0x38) == 7 && Z(0x38) == 0;
    assert Y(0x39) == 7 && Z(0x39) == 1;
    assert Y(0x3A) == 7 && Z(0x3A) == 2;
    assert Y(0x3B) == 7 && Z(0x3B) == 3;
  }

  /** The cases 0x3C-0x3F of execute_normal_instructions, one handler call per byte. */
  lemma {:induction false} DecodeTable3C()
    ensures Decode(0x3C) == IncLoc(Reg(A))
    ensures Decode(0x3D) == DecLoc(Reg(A))
    ensures Decode(0x3E) == LdLocN(Reg(A))
    ensures Decode(0x3F) == Ccf
  {
    assert Y(0x3C) == 7 && Z(0x3C) == 4;
    assert Y(0x3D) == 7 && Z(0x3D) == 5;
    assert Y(0x3E) == 7 && Z(0x3E) == 6;
    assert Y(0x3F) == 7 && Z(0x3F) == 7;
  }

  /** The cases 0x40-0x43 of execute_normal_instructions, one handler call per byte. */
  lemma {:induction false} DecodeTable40()
    ensures Decode(0x40) == Ld8(Reg(B), Reg(B))
    ensures Decode(0x41) == Ld8(Reg(B), Reg(C))
    ensures Decode(0x42) == Ld8(Reg(B), Reg(D))
    ensures Decode(0x43) == Ld8(Reg(B), Reg(E))
  {
    assert Y(0x40) == 0 && Z(0x40) == 0;
    assert Y(0x41) == 0 && Z(0x41) == 1;
    assert Y(0x42) == 0 && Z(0x42) == 2;
    assert Y(0x43) == 0 && Z(0x43) == 3;
  }

  /** The cases 0x44-0x47 of execute_normal_instructions, one handler call per byte. */
  lemma {:induction false} DecodeTable44()
    ensures Decode(0x44) == Ld8(Reg(B), Reg(H))
    ensures Decode(0x45) == Ld8(Reg(B), Reg(L))
    ensures Decode(0x46) == Ld8(Reg(B), IndHL)
    ensures Decode(0x47) == Ld8(Reg(B), Reg(A))
  {
    assert Y(0x44) == 0 && Z(0x44) == 4;
    assert Y(0x45) == 0 && Z(0x45) == 5;
    assert Y(0x46) == 0 && Z(0x46) == 6;
    assert Y(0x47) == 0 && Z(0x47) == 7;
  }

  /** The cases 0x48-0x4B of execute_normal_instructions, one handler call per byte. */
  lemma {:induction false} DecodeTable48()
    ensures Decode(0x48) == Ld8(Reg(C), Reg(B))
    ensures Decode(0x49) == Ld8(Reg(C), Reg(C))
    ensures Decode(0x4A) == Ld8(Reg(C), Reg(D))
    ensures Decode(0x4B) == Ld8(Reg(C), Reg(E))
  {
    assert Y(0x48) == 1 && Z(0x48) == 0;
    assert Y(0x49) == 1 && Z(0x49) == 1;
    assert Y(0x4A) == 1 && Z(0x4A) == 2;
    assert Y(0x4B) == 1 && Z(0x4B) == 3;
  }

  /** The cases 0x4C-0x4F of execute_normal_instructions, one handler call per byte. */
  lemma {:induction false} DecodeTable4C()
    ensures Decode(0x4C) == Ld8(Reg(C), Reg(H))
    ensures Decode(0x4D) == Ld8(Reg(C), Reg(L))
    ensures Decode(0x4E) == Ld8(Reg(C), IndHL)
    ensures Decode(0x4F) == Ld8(Reg(C), Reg(A))
  {
    assert Y(0x4C) == 1 && Z(0x4C) == 4;
    assert Y(0x4D) == 1 && Z(0x4D) == 5;
    assert Y(0x4E) == 1 && Z(0x4E) == 6;
    assert Y(0x4F) == 1 && Z(0x4F) == 7;
  }

  /** The cases 0x50-0x53 of execute_normal_instructions, one handler call per byte. */
  lemma {:induction false} DecodeTable50()
    ensures Decode(0x50) == Ld8(Reg(D), Reg(B))
    ensures Decode(0x51) == Ld8(Reg(D), Reg(C))
    ensures Decode(0x52) == Ld8(Reg(D), Reg(D))
    ensures Decode(0x53) == Ld8(Reg(D), Reg(E))
  {
    assert Y(0x50) == 2 && Z(0x50) == 0;
    assert Y(0x51) == 2 && Z(0x51) == 1;
    assert Y(0x52) == 2 && Z(0x52) == 2;
    assert Y(0x53) == 2 && Z(0x53) == 3;
  }

  /** The cases 0x54-0x57 of execute_normal_instructions, one handler call per byte. */
  lemma {:induction false} DecodeTable54()
    ensures Decode(0x54) == Ld8(Reg(D), Reg(H))
    ensures Decode(0x55) == Ld8(Reg(D), Reg(L))
    ensures Decode(0x56) == Ld8(Reg(D), IndHL)
    ensures Decode(0x57) == Ld8(Reg(D), Reg(A))
  {
    assert Y(0x54) == 2 && Z(0x54) == 4;
    assert Y(0x55) == 2 && Z(0x55) == 5;
    assert Y(0x56) == 2 && Z(0x56) == 6;
    assert Y(0x57) == 2 && Z(0x57) == 7;
  }

  /** The cases 0x58-0x5B of execute_normal_instructions, one handler call per byte. */
  lemma {:induction false} DecodeTable58()
    ensures Decode(0x58) == Ld8(Reg(E), Reg(B))
    ensures Decode(0x59) == Ld8(Reg(E), Reg(C))
    ensures Decode(0x5A) == Ld8(Reg(E), Reg(D))
    ensures Decode(0x5B) == Ld8(Reg(E), Reg(E))
  {
    assert Y(0x58) == 3 && Z(0x58) == 0;
    assert Y(0x59) == 3 && Z(0x59) == 1;
    assert Y(0x5A) == 3 && Z(0x5A) == 2;
    assert Y(0x5B) == 3 && Z(0x5B) == 3;
  }

  /** The cases 0x5C-0x5F of execute_normal_instructions, one handler call per byte. */
  lemma {:induction false} DecodeTable5C()
    ensures Decode(0x5C) == Ld8(Reg(E), Reg(H))
    ensures Decode(0x5D) == Ld8(Reg(E), Reg(L))
    ensures Decode(0x5E) == Ld8(Reg(E), IndHL)
    ensures Decode(0x5F) == Ld8(Reg(E), Reg(A))
  {
    assert Y(0x5C) == 3 && Z(0x5C) == 4;
    assert Y(0x5D) == 3 && Z(0x5D) == 5;
    assert Y(0x5E) == 3 && Z(0x5E) == 6;
    assert Y(0x5F) == 3 && Z(0x5F) == 7;
  }

  /** The cases 0x60-0x63 of execute_normal_instructions, one handler call per byte. */
  lemma {:induction false} DecodeTable60()
    ensures Decode(0x60) == Ld8(Reg(H), Reg(B))
    ensures Decode(0x61) == Ld8(Reg(H), Reg(C))
    ensures Decode(0x62) == Ld8(Reg(H), Reg(D))
    ensures Decode(0x63) == Ld8(Reg(H), Reg(E))
  {
    assert Y(0x60) == 4 && Z(0x60) == 0;
    assert Y(0x61) == 4 && Z(0x61) == 1;
    assert Y(0x62) == 4 && Z(0x62) == 2;
    assert Y(0x63) == 4 && Z(0x63) == 3;
  }

  /** The cases 0x64-0x67 of execute_normal_instructions, one handler call per byte. */
  lemma {:induction false} DecodeTable64()
    ensures Decode(0x64) == Ld8(Reg(H), Reg(H))
    ensures Decode(0x65) == Ld8(Reg(H), Reg(L))
    ensures Decode(0x66) == Ld8(Reg(H), IndHL)
    ensures Decode(0x67) == Ld8(Reg(H), Reg(A))
  {
    assert Y(0x64) == 4 && Z(0x64) == 4;
    assert Y(0x65) == 4 && Z(0x65) == 5;
    assert Y(0x66) == 4 && Z(0x66) == 6;
    assert Y(0x67) == 4 && Z(0x67) == 7;
  }

  /** The cases 0x68-0x6B of execute_normal_instructions, one handler call per byte. */
  lemma {:induction false} DecodeTable68()
    ensures Decode(0x68) == Ld8(Reg(L), Reg(B))
    ensures Decode(0x69) == Ld8(Reg(L), Reg(C))
    ensures Decode(0x6A) == Ld8(Reg(L), Reg(D))
    ensures Decode(0x6B) == Ld8(Reg(L), Reg(E))
  {
    assert Y(0x68) == 5 && Z(0x68) == 0;
    assert Y(0x69) == 5 && Z(0x69) == 1;
    assert Y(0x6A) == 5 && Z(0x6A) == 2;
    assert Y(0x6B) == 5 && Z(0x6B) == 3;
  }

  /** The cases 0x6C-0x6F of execute_normal_instructions, one handler call per byte. */
  lemma {:induction false} DecodeTable6C()
    ensures Decode(0x6C) == Ld8(Reg(L), Reg(H))
    ensures Decode(0x6D) == Ld8(Reg(L), Reg(L))
    ensures Decode(0x6E) == Ld8(Reg(L), IndHL)
    ensures Decode(0x6F) == Ld8(Reg(L), Reg(A))
  {
    assert Y(0x6C) == 5 && Z(0x6C) == 4;
    assert Y(0x6D) == 5 && Z(0x6D) == 5;
    assert Y(0x6E) == 5 && Z(0x6E) == 6;
    assert Y(0x6F) == 5 && Z(0x6F) == 7;
  }

  /** The cases 0x70-0x73 of execute_normal_instructions, one handler call per byte. */
  lemma {:induction false} DecodeTable70()
    ensures Decode(0x70) == Ld8(IndHL, Reg(B))
    ensures Decode(0x71) == Ld8(IndHL, Reg(C))
    ensures Decode(0x72) == Ld8(IndHL, Reg(D))
    ensures Decode(0x73) == Ld8(IndHL, Reg(E))
  {
    assert Y(0x70) == 6 && Z(0x70) == 0;
    assert Y(0x71) == 6 && Z(0x71) == 1;
    assert Y(0x72) == 6 && Z(0x72) == 2;
    assert Y(0x73) == 6 && Z(0x73) == 3;
  }

  /** The cases 0x74-0x77 of execute_normal_instructions, one handler call per byte. */
  lemma {:induction false} DecodeTable74()
    ensures Decode(0x74) == Ld8(IndHL, Reg(H))
    ensures Decode(0x75) == Ld8(IndHL, Reg(L))
    ensures Decode(0x76) == Halt
    ensures Decode(0x77) == Ld8(IndHL, Reg(A))
  {
    assert Y(0x74) == 6 && Z(0x74) == 4;
    assert Y(0x75) == 6 && Z(0x75) == 5;
    assert Y(0x76) == 6 && Z(0x76) == 6;
    assert Y(0x77) == 6 && Z(0x77) == 7;
  }

  /** The cases 0x78-0x7B of execute_normal_instructions, one handler call per byte. */
  lemma {:induction false} DecodeTable78()
    ensures Decode(0x78) == Ld8(Reg(A), Reg(B))
    ensures Decode(0x79) == Ld8(Reg(A), Reg(C))
    ensures Decode(0x7A) == Ld8(Reg(A), Reg(D))
    ensures Decode(0x7B) == Ld8(Reg(A), Reg(E))
  {
    assert Y(0x78) == 7 && Z(0x78) == 0;
    assert Y(0x79) == 7 && Z(0x79) == 1;
    assert Y(0x7A) == 7 && Z(0x7A) == 2;
    assert Y(0x7B) == 7 && Z(0x7B) == 3;
  }

  /** The cases 0x7C-0x7F of execute_normal_instructions, one handler call per byte. */
  lemma {:induction false} DecodeTable7C()
    ensures Decode(0x7C) == Ld8(Reg(A), Reg(H))
    ensures Decode(0x7D) == Ld8(Reg(A), Reg(L))
    ensures Decode(0x7E) == Ld8(Reg(A), IndHL)
    ensures Decode(0x7F) == Ld8(Reg(A), Reg(A))
  {
    assert Y(0x7C) == 7 && Z(0x7C) == 4;
    assert Y(0x7D) == 7 && Z(0x7D) == 5;
    assert Y(0x7E) == 7 && Z(0x7E) == 6;
    assert Y(0x7F) == 7 && Z(0x7F) == 7;
  }

  /** The cases 0x80-0x83 of execute_normal_instructions, one handler call per byte. */
  lemma {:induction false} DecodeTable80()
    ensures Decode(0x80) == AluA(Alu.AddOp, From(Reg(B)))
    ensures Decode(0x81) == AluA(Alu.AddOp, From(Reg(C)))
    ensures Decode(0x82) == AluA(Alu.AddOp, From(Reg(D)))
    ensures Decode(0x83) == AluA(Alu.AddOp, From(Reg(E)))
  {
    assert Y(0x80) == 0 && Z(0x80) == 0;
    assert Y(0x81) == 0 && Z(0x81) == 1;
    assert Y(0x82) == 0 && Z(0x82) == 2;
    assert Y(0x83) == 0 && Z(0x83) == 3;
  }

  /** The cases 0x84-0x87 of execute_normal_instructions, one handler call per byte. */
  lemma {:induction false} DecodeTable84()
    ensures Decode(0x84) == AluA(Alu.AddOp, From(Reg(H)))
    ensures Decode(0x85) == AluA(Alu.AddOp, From(Reg(L)))
    ensures Decode(0x86) == AluA(Alu.AddOp, From(IndHL))
    ensures Decode(0x87) == AluA(Alu.AddOp, From(Reg(A)))
  {
    assert Y(0x84) == 0 && Z(0x84) == 4;
    assert Y(0x85) == 0 && Z(0x85) == 5;
    assert Y(0x86) == 0 && Z(0x86) == 6;
    assert Y(0x87) == 0 && Z(0x87) == 7;
  }

  /** The cases 0x88-0x8B of execute_normal_instructions, one handler call per byte. */
  lemma {:induction false} DecodeTable88()
    ensures Decode(0x88) == AluA(Alu.AdcOp, From(Reg(B)))
    ensures Decode(0x89) == AluA(Alu.AdcOp, From(Reg(C)))
    ensures Decode(0x8A) == AluA(Alu.AdcOp, From(Reg(D)))
    ensures Decode(0x8B) == AluA(Alu.AdcOp, From(Reg(E)))
  {
    assert Y(0x88) == 1 && Z(0x88) == 0;
    assert Y(0x89) == 1 && Z(0x89) == 1;
    assert Y(0x8A) == 1 && Z(0x8A) == 2;
    assert Y(0x8B) == 1 && Z(0x8B) == 3;
  }

  /** The cases 0x8C-0x8F of execute_normal_instructions, one handler call per byte. */
  lemma {:induction false} DecodeTable8C()
    ensures Decode(0x8C) == AluA(Alu.AdcOp, From(Reg(H)))
    ensures Decode(0x8D) == AluA(Alu.AdcOp, From(Reg(L)))
    ensures Decode(0x8E) == AluA(Alu.AdcOp, From(IndHL))
    ensures Decode(0x8F) == AluA(Alu.AdcOp, From(Reg(A)))
  {
    assert Y(0x8C) == 1 && Z(0x8C) == 4;
    assert Y(0x8D) == 1 && Z(0x8D) == 5;
    assert Y(0x8E) == 1 && Z(0x8E) == 6;
    assert Y(0x8F) == 1 && Z(0x8F) == 7;
  }

  /** The cases 0x90-0x93 of execute_normal_instructions, one handler call per byte. */
  lemma {:induction false} DecodeTable90()
    ensures Decode(0x90) == AluA(Alu.SubOp, From(Reg(B)))
    ensures Decode(0x91) == AluA(Alu.SubOp, From(Reg(C)))
    ensures Decode(0x92) == AluA(Alu.SubOp, From(Reg(D)))
    ensures Decode(0x93) == AluA(Alu.SubOp, From(Reg(E)))
  {
    assert Y(0x90) == 2 && Z(0x90) == 0;
    assert Y(0x91) == 2 && Z(0x91) == 1;
    assert Y(0x92) == 2 && Z(0x92) == 2;
    assert Y(0x93) == 2 && Z(0x93) == 3;
  }

  /** The cases 0x94-0x97 of execute_normal_instructions, one handler call per byte. */
  lemma {:induction false} DecodeTable94()
    ensures Decode(0x94) == AluA(Alu.SubOp, From(Reg(H)))
    ensures Decode(0x95) == AluA(Alu.SubOp, From(Reg(L)))
    ensures Decode(0x96) == AluA(Alu.SubOp, From(IndHL))
    ensures Decode(0x97) == AluA(Alu.SubOp, From(Reg(A)))
  {
    assert Y(0x94) == 2 && Z(0x94) == 4;
    assert Y(0x95) == 2 && Z(0x95) == 5;
    assert Y(0x96) == 2 && Z(0x96) == 6;
    assert Y(0x97) == 2 && Z(0x97) == 7;
  }

  /** The cases 0x98-0x9B of execute_normal_instructions, one handler call per byte. */
  lemma {:induction false} DecodeTable98()
    ensures Decode(0x98) == AluA(Alu.SbcOp, From(Reg(B)))
    ensures Decode(0x99) == AluA(Alu.SbcOp, From(Reg(C)))
    ensures Decode(0x9A) == AluA(Alu.SbcOp, From(Reg(D)))
    ensures Decode(0x9B) == AluA(Alu.SbcOp, From(Reg(E)))
  {
    assert Y(0x98) == 3 && Z(0x98) == 0;
    assert Y(0x99) == 3 && Z(0x99) == 1;
    assert Y(0x9A) == 3 && Z(0x9A) == 2;
    assert Y(0x9B) == 3 && Z(0x9B) == 3;
  }

  /** The cases 0x9C-0x9F of execute_normal_instructions, one handler call per byte. */
  lemma {:induction false} DecodeTable9C()
    ensures Decode(0x9C) == AluA(Alu.SbcOp, From(Reg(H)))
    ensures Decode(0x9D) == AluA(Alu.SbcOp, From(Reg(L)))
    ensures Decode(0x9E) == AluA(Alu.SbcOp, From(IndHL))
    ensures Decode(0x9F) == AluA(Alu.SbcOp, From(Reg(A)))
  {
    assert Y(0x9C) == 3 && Z(0x9C) == 4;
    assert Y(0x9D) == 3 && Z(0x9D) == 5;
    assert Y(0x9E) == 3 && Z(0x9E) == 6;
    assert Y(0x9F) == 3 && Z(0x9F) == 7;
  }

  /** The cases 0xA0-0xA3 of execute_normal_instructions, one handler call per byte. */
  lemma {:induction false} DecodeTableA0()
    ensures Decode(0xA0) == AluA(Alu.AndOp, From(Reg(B)))
    ensures Decode(0xA1) == AluA(Alu.AndOp, From(Reg(C)))
    ensures Decode(0xA2) == AluA(Alu.AndOp, From(Reg(D)))
    ensures Decode(0xA3) == AluA(Alu.AndOp, From(Reg(E)))
  {
    assert Y(0xA0) == 4 && Z(0xA0) == 0;
    assert Y(0xA1) == 4 && Z(0xA1) == 1;
    assert Y(0xA2) == 4 && Z(0xA2) == 2;
    assert Y(0xA3) == 4 && Z(0xA3) == 3;
  }

  /** The cases 0xA4-0xA7 of execute_normal_instructions, one handler call per byte. */
  lemma {:induction false} DecodeTableA4()
    ensures Decode(0xA4) == AluA(Alu.AndOp, From(Reg(H)))
    ensures Decode(0xA5) == AluA(Alu.AndOp, From(Reg(L)))
    ensures Decode(0xA6) == AluA(Alu.AndOp, From(IndHL))
    ensures Decode(0xA7) == AluA(Alu.AndOp, From(Reg(A)))
  {
    assert Y(0xA4) == 4 && Z(0xA4) == 4;
    assert Y(0xA5) == 4 && Z(0xA5) == 5;
    assert Y(0xA6) == 4 && Z(0xA6) == 6;
    assert Y(0xA7) == 4 && Z(0xA7) == 7;
  }

  /** The cases 0xA8-0xAB of execute_normal_instructions, one handler call per byte. */
  lemma {:induction false} DecodeTableA8()
    ensures Decode(0xA8) == AluA(Alu.XorOp, From(Reg(B)))
    ensures Decode(0xA9) == AluA(Alu.XorOp, From(Reg(C)))
    ensures Decode(0xAA) == AluA(Alu.XorOp, From(Reg(D)))
    ensures Decode(0xAB) == AluA(Alu.XorOp, From(Reg(E)))
  {
    assert Y(0xA8) == 5 && Z(0xA8) == 0;
    assert Y(0xA9) == 5 && Z(0xA9) == 1;
    assert Y(0xAA) == 5 && Z(0xAA) == 2;
    assert Y(0xAB) == 5 && Z(0xAB) == 3;
  }

  /** The cases 0xAC-0xAF of execute_normal_instructions, one handler call per byte. */
  lemma {:induction false} DecodeTableAC()
    ensures Decode(0xAC) == AluA(Alu.XorOp, From(Reg(H)))
    ensures Decode(0xAD) == AluA(Alu.XorOp, From(Reg(L)))
    ensures Decode(0xAE) == AluA(Alu.XorOp, From(IndHL))
    ensures Decode(0xAF) == AluA(Alu.XorOp, From(Reg(A)))
  {
    assert Y(0xAC) == 5 && Z(0xAC) == 4;
    assert Y(0xAD) == 5 && Z(0xAD) == 5;
    assert Y(0xAE) == 5 && Z(0xAE) == 6;
    assert Y(0xAF) == 5 && Z(0xAF) == 7;
  }

  /** The cases 0xB0-0xB3 of execute_normal_instructions, one handler call per byte. */
  lemma {:induction false} DecodeTableB0()
    ensures Decode(0xB0) == AluA(Alu.OrOp, From(Reg(B)))
    ensures Decode(0xB1) == AluA(Alu.OrOp, From(Reg(C)))
    ensures Decode(0xB2) == AluA(Alu.OrOp, From(Reg(D)))
    ensures Decode(0xB3) == AluA(Alu.OrOp, From(Reg(E)))
  {
    assert Y(0xB0) == 6 && Z(0xB0) == 0;
    assert Y(0xB1) == 6 && Z(0xB1) == 1;
    assert Y(0xB2) == 6 && Z(0xB2) == 2;
    assert Y(0xB3) == 6 && Z(0xB3) == 3;
  }

  /** The cases 0xB4-0xB7 of execute_normal_instructions, one handler call per byte. */
  lemma {:induction false} DecodeTableB4()
    ensures Decode(0xB4) == AluA(Alu.OrOp, From(Reg(H)))
    ensures Decode(0xB5) == AluA(Alu.OrOp, From(Reg(L)))
    ensures Decode(0xB6) == AluA(Alu.OrOp, From(IndHL))
    ensures Decode(0xB7) == AluA(Alu.OrOp, From(Reg(A)))
  {
    assert Y(0xB4) == 6 && Z(0xB4) == 4;
    assert Y(0xB5) == 6 && Z(0xB5) == 5;
    assert Y(0xB6) == 6 && Z(0xB6) == 6;
    assert Y(0xB7) == 6 && Z(0xB7) == 7;
  }

  /** The cases 0xB8-0xBB of execute_normal_instructions, one handler call per byte. */
  lemma {:induction false} DecodeTableB8()
    ensures Decode(0xB8) == AluA(Alu.CpOp, From(Reg(B)))
    ensures Decode(0xB9) == AluA(Alu.CpOp, From(Reg(C)))
    ensures Decode(0xBA) == AluA(Alu.CpOp, From(Reg(D)))
    ensures Decode(0xBB) == AluA(Alu.CpOp, From(Reg(E)))
  {
    assert Y(0xB8) == 7 && Z(0xB8) == 0;
    assert Y(0xB9) == 7 && Z(0xB9) == 1;
    assert Y(0xBA) == 7 && Z(0xBA) == 2;
    assert Y(0xBB) == 7 && Z(0xBB) == 3;
  }

  /** The cases 0xBC-0xBF of execute_normal_instructions, one handler call per byte. */
  lemma {:induction false} DecodeTableBC()
    ensures Decode(0xBC) == AluA(Alu.CpOp, From(Reg(H)))
    ensures Decode(0xBD) == AluA(Alu.CpOp, From(Reg(L)))
    ensures Decode(0xBE) == AluA(Alu.CpOp, From(IndHL))
    ensures Decode(0xBF) == AluA(Alu.CpOp, From(Reg(A)))
  {
    assert Y(0xBC) == 7 && Z(0xBC) == 4;
    assert Y(0xBD) == 7 && Z(0xBD) == 5;
    assert Y(0xBE) == 7 && Z(0xBE) == 6;
    assert Y(0xBF) == 7 && Z(0xBF) == 7;
  }

  /** The cases 0xC0-0xC3 of execute_normal_instructions, one handler call per byte. */
  lemma {:induction false} DecodeTableC0()
    ensures Decode(0xC0) == RetCond(CondNZ)
    ensures Decode(0xC1) == Pop(BC)
    ensures Decode(0xC2) == JpCondNn(CondNZ)
    ensures Decode(0xC3) == JpNn
  {
    assert Y(0xC0) == 0 && Z(0xC0) == 0;
    assert Y(0xC1) == 0 && Z(0xC1) == 1;
    assert Y(0xC2) == 0 && Z(0xC2) == 2;
    assert Y(0xC3) == 0 && Z(0xC3) == 3;
  }

  /** The cases 0xC4-0xC7 of execute_normal_instructions, one handler call per byte. */
  lemma {:induction false} DecodeTableC4()
    ensures Decode(0xC4) == CallCondNn(CondNZ)
    ensures Decode(0xC5) == Push(BC)
    ensures Decode(0xC6) == AluA(Alu.AddOp, Imm)
    ensures Decode(0xC7) == Rst(0x00)
  {
    assert Y(0xC4) == 0 && Z(0xC4) == 4;
    assert Y(0xC5) == 0 && Z(0xC5) == 5;
    assert Y(0xC6) == 0 && Z(0xC6) == 6;
    assert Y(0xC7) == 0 && Z(0xC7) == 7;
  }

  /** The cases 0xC8-0xCB of execute_normal_instructions, one handler call per byte. */
  lemma {:induction false} DecodeTableC8()
    ensures Decode(0xC8) == RetCond(CondZ)
    ensures Decode(0xC9) == Ret
    ensures Decode(0xCA) == JpCondNn(CondZ)
    ensures Decode(0xCB) == PrefixCb
  {
    assert Y(0xC8) == 1 && Z(0xC8) == 0;
    assert Y(0xC9) == 1 && Z(0xC9) == 1;
    assert Y(0xCA) == 1 && Z(0xCA) == 2;
    assert Y(0xCB) == 1 && Z(0xCB) == 3;
  }

  /** The cases 0xCC-0xCF of execute_normal_instructions, one handler call per byte. */
  lemma {:induction false} DecodeTableCC()
    ensures Decode(0xCC) == CallCondNn(CondZ)
    ensures Decode(0xCD) == CallNn
    ensures Decode(0xCE) == AluA(Alu.AdcOp, Imm)
    ensures Decode(0xCF) == Rst(0x08)
  {
    assert Y(0xCC) == 1 && Z(0xCC) == 4;
    assert Y(0xCD) == 1 && Z(0xCD) == 5;
    assert Y(0xCE) == 1 && Z(0xCE) == 6;
    assert Y(0xCF) == 1 && Z(0xCF) == 7;
  }

  /** The cases 0xD0-0xD3 of execute_normal_instructions, one handler call per byte. */
  lemma {:induction false} DecodeTableD0()
    ensures Decode(0xD0) == RetCond(CondNC)
    ensures Decode(0xD1) == Pop(DE)
    ensures Decode(0xD2) == JpCondNn(CondNC)
    ensures Decode(0xD3) == Nop
  {
    assert Y(0xD0) == 2 && Z(0xD0) == 0;
    assert Y(0xD1) == 2 && Z(0xD1) == 1;
    assert Y(0xD2) == 2 && Z(0xD2) == 2;
    assert Y(0xD3) == 2 && Z(0xD3) == 3;
  }

  /** The cases 0xD4-0xD7 of execute_normal_instructions, one handler call per byte. */
  lemma {:induction false} DecodeTableD4()
    ensures Decode(0xD4) == CallCondNn(CondNC)
    ensures Decode(0xD5) == Push(DE)
    ensures Decode(0xD6) == AluA(Alu.SubOp, Imm)
    ensures Decode(0xD7) == Rst(0x10)
  {
    assert Y(0xD4) == 2 && Z(0xD4) == 4;
    assert Y(0xD5) == 2 && Z(0xD5) == 5;
    assert Y(0xD6) == 2 && Z(0xD6) == 6;
    assert Y(0xD7) == 2 && Z(0xD7) == 7;
  }

  /** The cases 0xD8-0xDB of execute_normal_instructions, one handler call per byte. */
  lemma {:induction false} DecodeTableD8()
    ensures Decode(0xD8) == RetCond(CondC)
    ensures Decode(0xD9) == Reti
    ensures Decode(0xDA) == JpCondNn(CondC)
    ensures Decode(0xDB) == Nop
  {
    assert Y(0xD8) == 3 && Z(0xD8) == 0;
    assert Y(0xD9) == 3 && Z(0xD9) == 1;
    assert Y(0xDA) == 3 && Z(0xDA) == 2;
    assert Y(0xDB) == 3 && Z(0xDB) == 3;
  }

  /** The cases 0xDC-0xDF of execute_normal_instructions, one handler call per byte. */
  lemma {:induction false} DecodeTableDC()
    ensures Decode(0xDC) == CallCondNn(CondC)
    ensures Decode(0xDD) == Nop
    ensures Decode(0xDE) == AluA(Alu.SbcOp, Imm)
    ensures Decode(0xDF) == Rst(0x18)
  {
    assert Y(0xDC) == 3 && Z(0xDC) == 4;
    assert Y(0xDD) == 3 && Z(0xDD) == 5;
    assert Y(0xDE) == 3 && Z(0xDE) == 6;
    assert Y(0xDF) == 3 && Z(0xDF) == 7;
  }

  /** The cases 0xE0-0xE3 of execute_normal_instructions, one handler call per byte. */
  lemma {:induction false} DecodeTableE0()
    ensures Decode(0xE0) == LdhNA
    ensures Decode(0xE1) == Pop(HL)
    ensures Decode(0xE2) == LdhRA(C)
    ensures Decode(0xE3) == Nop
  {
    assert Y(0xE0) == 4 && Z(0xE0) == 0;
    assert Y(0xE1) == 4 && Z(0xE1) == 1;
    assert Y(0xE2) == 4 && Z(0xE2) == 2;
    assert Y(0xE3) == 4 && Z(0xE3) == 3;
  }

  /** The cases 0xE4-0xE7 of execute_normal_instructions, one handler call per byte. */
  lemma {:induction false} DecodeTableE4()
    ensures Decode(0xE4) == Nop
    ensures Decode(0xE5) == Push(HL)
    ensures Decode(0xE6) == AluA(Alu.AndOp, Imm)
    ensures Decode(0xE7) == Rst(0x20)
  {
    assert Y(0xE4) == 4 && Z(0xE4) == 4;
    assert Y(0xE5) == 4 && Z(0xE5) == 5;
    assert Y(0xE6) == 4 && Z(0xE6) == 6;
    assert Y(0xE7) == 4 && Z(0xE7) == 7;
  }

  /** The cases 0xE8-0xEB of execute_normal_instructions, one handler call per byte. */
  lemma {:induction false} DecodeTableE8()
    ensures Decode(0xE8) == AddSpI8
    ensures Decode(0xE9) == JpHl
    ensures Decode(0xEA) == LdIndNnA
    ensures Decode(0xEB) == Nop
  {
    assert Y(0xE8) == 5 && Z(0xE8) == 0;
    assert Y(0xE9) == 5 && Z(0xE9) == 1;
    assert Y(0xEA) == 5 && Z(0xEA) == 2;
    assert Y(0xEB) == 5 && Z(0xEB) == 3;
  }

  /** The cases 0xEC-0xEF of execute_normal_instructions, one handler call per byte. */
  lemma {:induction false} DecodeTableEC()
    ensures Decode(0xEC) == Nop
    ensures Decode(0xED) == Nop
    ensures Decode(0xEE) == AluA(Alu.XorOp, Imm)
    ensures Decode(0xEF) == Rst(0x28)
  {
    assert Y(0xEC) == 5 && Z(0xEC) == 4;
    assert Y(0xED) == 5 && Z(0xED) == 5;
    assert Y(0xEE) == 5 && Z(0xEE) == 6;
    assert Y(0xEF) == 5 && Z(0xEF) == 7;
  }

  /** The cases 0xF0-0xF3 of execute_normal_instructions, one handler call per byte. */
  lemma {:induction false} DecodeTableF0()
    ensures Decode(0xF0) == LdhAN
    ensures Decode(0xF1) == Pop(AF)
    ensures Decode(0xF2) == LdhAR(C)
    ensures Decode(0xF3) == Di
  {
    assert Y(0xF0) == 6 && Z(0xF0) == 0;
    assert Y(0xF1) == 6 && Z(0xF1) == 1;
    assert Y(0xF2) == 6 && Z(0xF2) == 2;
    assert Y(0xF3) == 6 && Z(0xF3) == 3;
  }

  /** The cases 0xF4-0xF7 of execute_normal_instructions, one handler call per byte. */
  lemma {:induction false} DecodeTableF4()
    ensures Decode(0xF4) == Nop
    ensures Decode(0xF5) == Push(AF)
    ensures Decode(0xF6) == AluA(Alu.OrOp, Imm)
    ensures Decode(0xF7) == Rst(0x30)
  {
    assert Y(0xF4) == 6 && Z(0xF4) == 4;
    assert Y(0xF5) == 6 && Z(0xF5) == 5;
    assert Y(0xF6) == 6 && Z(0xF6) == 6;
    assert Y(0xF7) == 6 && Z(0xF7) == 7;
  }

  /** The cases 0xF8-0xFB of execute_normal_instructions, one handler call per byte. */
  lemma {:induction false} DecodeTableF8()
    ensures Decode(0xF8) == LdHlSpI8
    ensures Decode(0xF9) == LdSpHl
    ensures Decode(0xFA) == LdAIndNn
    ensures Decode(0xFB) == Ei
  {
    assert Y(0xF8) == 7 && Z(0xF8) == 0;
    assert Y(0xF9) == 7 && Z(0xF9) == 1;
    assert Y(0xFA) == 7 && Z(0xFA) == 2;
    assert Y(0xFB) == 7 && Z(0xFB) == 3;
  }

  /** The cases 0xFC-0xFF of execute_normal_instructions, one handler call per byte. */
  lemma {:induction false} DecodeTableFC()
    ensures Decode(0xFC) == Nop
    ensures Decode(0xFD) == Nop
    ensures Decode(0xFE) == AluA(Alu.CpOp, Imm)
    ensures Decode(0xFF) == Rst(0x38)
  {
    assert Y(0xFC) == 7 && Z(0xFC) == 4;
    assert Y(0xFD) == 7 && Z(0xFD) == 5;
    assert Y(0xFE) == 7 && Z(0xFE) == 6;
    assert Y(0xFF) == 7 && Z(0xFF) == 7;
  }

  /** The cases 0x00-0x03 of execute_cb_instructions. */
  lemma {:induction false} DecodeCbTable00()
    ensures DecodeCb(0x00) == CbShift(Alu.Rlc, Reg(B))
    ensures DecodeCb(0x01) == CbShift(Alu.Rlc, Reg(C))
    ensures DecodeCb(0x02) == CbShift(Alu.Rlc, Reg(D))
    ensures DecodeCb(0x03) == CbShift(Alu.Rlc, Reg(E))
  {
    assert Y(0x00) == 0 && Z(0x00) == 0;
    assert Y(0x01) == 0 && Z(0x01) == 1;
    assert Y(0x02) == 0 && Z(0x02) == 2;
    assert Y(0x03) == 0 && Z(0x03) == 3;
  }

  /** The cases 0x04-0x07 of execute_cb_instructions. */
  lemma {:induction false} DecodeCbTable04()
    ensures DecodeCb(0x04) == CbShift(Alu.Rlc, Reg(H))
    ensures DecodeCb(0x05) == CbShift(Alu.Rlc, Reg(L))
    ensures DecodeCb(0x06) == CbShift(Alu.Rlc, IndHL)
    ensures DecodeCb(0x07) == CbShift(Alu.Rlc, Reg(A))
  {
    assert Y(0x04) == 0 && Z(0x04) == 4;
    assert Y(0x05) == 0 && Z(0x05) == 5;
    assert Y(0x06) == 0 && Z(0x06) == 6;
    assert Y(0x07) == 0 && Z(0x07) == 7;
  }

  /** The cases 0x08-0x0B of execute_cb_instructions. */
  lemma {:induction false} DecodeCbTable08()
    ensures DecodeCb(0x08) == CbShift(Alu.Rrc, Reg(B))
    ensures DecodeCb(0x09) == CbShift(Alu.Rrc, Reg(C))
    ensures DecodeCb(0x0A) == CbShift(Alu.Rrc, Reg(D))
    ensures DecodeCb(0x0B) == CbShift(Alu.Rrc, Reg(E))
  {
    assert Y(0x08) == 1 && Z(0x08) == 0;
    assert Y(0x09) == 1 && Z(0x09) == 1;
    assert Y(0x0A) == 1 && Z(0x0A) == 2;
    assert Y(0x0B) == 1 && Z(0x0B) == 3;
  }

  /** The cases 0x0C-0x0F of execute_cb_instructions. */
  lemma {:induction false} DecodeCbTable0C()
    ensures DecodeCb(0x0C) == CbShift(Alu.Rrc, Reg(H))
    ensures DecodeCb(0x0D) == CbShift(Alu.Rrc, Reg(L))
    ensures DecodeCb(0x0E) == CbShift(Alu.Rrc, IndHL)
    ensures DecodeCb(0x0F) == CbShift(Alu.Rrc, Reg(A))
  {
    assert Y(0x0C) == 1 && Z(0x0C) == 4;
    assert Y(0x0D) == 1 && Z(0x0D) == 5;
    assert Y(0x0E) == 1 && Z(0x0E) == 6;
    assert Y(0x0F) == 1 && Z(0x0F) == 7;
  }

  /** The cases 0x10-0x13 of execute_cb_instructions. */
  lemma {:induction false} DecodeCbTable10()
    ensures DecodeCb(0x10) == CbShift(Alu.Rl, Reg(B))
    ensures DecodeCb(0x11) == CbShift(Alu.Rl, Reg(C))
    ensures DecodeCb(0x12) == CbShift(Alu.Rl, Reg(D))
    ensures DecodeCb(0x13) == CbShift(Alu.Rl, Reg(E))
  {
    assert Y(0x10) == 2 && Z(0x10) == 0;
    assert Y(0x11) == 2 && Z(0x11) == 1;
    assert Y(0x12) == 2 && Z(0x12) == 2;
    assert Y(0x13) == 2 && Z(0x13) == 3;
  }

  /** The cases 0x14-0x17 of execute_cb_instructions. */
  lemma {:induction false} DecodeCbTable14()
    ensures DecodeCb(0x14) == CbShift(Alu.Rl, Reg(H))
    ensures DecodeCb(0x15) == CbShift(Alu.Rl, Reg(L))
    ensures DecodeCb(0x16) == CbShift(Alu.Rl, IndHL)
    ensures DecodeCb(0x17) == CbShift(Alu.Rl, Reg(A))
  {
    assert Y(0x14) == 2 && Z(0x14) == 4;
    assert Y(0x15) == 2 && Z(0x15) == 5;
    assert Y(0x16) == 2 && Z(0x16) == 6;
    assert Y(0x17) == 2 && Z(0x17) == 7;
  }

  /** The cases 0x18-0x1B of execute_cb_instructions. */
  lemma {:induction false} DecodeCbTable18()
    ensures DecodeCb(0x18) == CbShift(Alu.Rr, Reg(B))
    ensures DecodeCb(0x19) == CbShift(Alu.Rr, Reg(C))
    ensures DecodeCb(0x1A) == CbShift(Alu.Rr, Reg(D))
    ensures DecodeCb(0x1B) == CbShift(Alu.Rr, Reg(E))
  {
    assert Y(0x18) == 3 && Z(0x18) == 0;
    assert Y(0x19) == 3 && Z(0x19) == 1;
    assert Y(0x1A) == 3 && Z(0x1A) == 2;
    assert Y(0x1B) == 3 && Z(0x1B) == 3;
  }

  /** The cases 0x1C-0x1F of execute_cb_instructions. */
  lemma {:induction false} DecodeCbTable1C()
    ensures DecodeCb(0x1C) == CbShift(Alu.Rr, Reg(H))
    ensures DecodeCb(0x1D) == CbShift(Alu.Rr, Reg(L))
    ensures DecodeCb(0x1E) == CbShift(Alu.Rr, IndHL)
    ensures DecodeCb(0x1F) == CbShift(Alu.Rr, Reg(A))
  {
    assert Y(0x1C) == 3 && Z(0x1C) == 4;
    assert Y(0x1D) == 3 && Z(0x1D) == 5;
    assert Y(0x1E) == 3 && Z(0x1E) == 6;
    assert Y(0x1F) == 3 && Z(0x1F) == 7;
  }

  /** The cases 0x20-0x23 of execute_cb_instructions. */
  lemma {:induction false} DecodeCbTable20()
    ensures DecodeCb(0x20) == CbShift(Alu.Sla, Reg(B))
    ensures DecodeCb(0x21) == CbShift(Alu.Sla, Reg(C))
    ensures DecodeCb(0x22) == CbShift(Alu.Sla, Reg(D))
    ensures DecodeCb(0x23) == CbShift(Alu.Sla, Reg(E))
  {
    assert Y(0x20) == 4 && Z(0x20) == 0;
    assert Y(0x21) == 4 && Z(0x21) == 1;
    assert Y(0x22) == 4 && Z(0x22) == 2;
    assert Y(0x23) == 4 && Z(0x23) == 3;
  }

  /** The cases 0x24-0x27 of execute_cb_instructions. */
  lemma {:induction false} DecodeCbTable24()
    ensures DecodeCb(0x24) == CbShift(Alu.Sla, Reg(H))
    ensures DecodeCb(0x25) == CbShift(Alu.Sla, Reg(L))
    ensures DecodeCb(0x26) == CbShift(Alu.Sla, IndHL)
    ensures DecodeCb(0x27) == CbShift(Alu.Sla, Reg(A))
  {
    assert Y(0x24) == 4 && Z(0x24) == 4;
    assert Y(0x25) == 4 && Z(0x25) == 5;
    assert Y(0x26) == 4 && Z(0x26) == 6;
    assert Y(0x27) == 4 && Z(0x27) == 7;
  }

  /** The cases 0x28-0x2B of execute_cb_instructions. */
  lemma {:induction false} DecodeCbTable28()
    ensures DecodeCb(0x28) == CbShift(Alu.Sra, Reg(B))
    ensures DecodeCb(0x29) == CbShift(Alu.Sra, Reg(C))
    ensures DecodeCb(0x2A) == CbShift(Alu.Sra, Reg(D))
    ensures DecodeCb(0x2B) == CbShift(Alu.Sra, Reg(E))
  {
    assert Y(0x28) == 5 && Z(0x28) == 0;
    assert Y(0x29) == 5 && Z(0x29) == 1;
    assert Y(0x2A) == 5 && Z(0x2A) == 2;
    assert Y(0x2B) == 5 && Z(0x2B) == 3;
  }

  /** The cases 0x2C-0x2F of execute_cb_instructions. */
  lemma {:induction false} DecodeCbTable2C()
    ensures DecodeCb(0x2C) == CbShift(Alu.Sra, Reg(H))
    ensures DecodeCb(0x2D) == CbShift(Alu.Sra, Reg(L))
    ensures DecodeCb(0x2E) == CbShift(Alu.Sra, IndHL)
    ensures DecodeCb(0x2F) == CbShift(Alu.Sra, Reg(A))
  {
    assert Y(0x2C) == 5 && Z(0x2C) == 4;
    assert Y(0x2D) == 5 && Z(0x2D) == 5;
    assert Y(0x2E) == 5 && Z(0x2E) == 6;
    assert Y(0x2F) == 5 && Z(0x2F) == 7;
  }

  /** The cases 0x30-0x33 of execute_cb_instructions. */
  lemma {:induction false} DecodeCbTable30()
    ensures DecodeCb(0x30) == CbShift(Alu.Swap, Reg(B))
    ensures DecodeCb(0x31) == CbShift(Alu.Swap, Reg(C))
    ensures DecodeCb(0x32) == CbShift(Alu.Swap, Reg(D))
    ensures DecodeCb(0x33) == CbShift(Alu.Swap, Reg(E))
  {
    assert Y(0x30) == 6 && Z(0x30) == 0;
    assert Y(0x31) == 6 && Z(0x31) == 1;
    assert Y(0x32) == 6 && Z(0x32) == 2;
    assert Y(0x33) == 6 && Z(0x33) == 3;
  }

  /** The cases 0x34-0x37 of execute_cb_instructions. */
  lemma {:induction false} DecodeCbTable34()
    ensures DecodeCb(0x34) == CbShift(Alu.Swap, Reg(H))
    ensures DecodeCb(0x35) == CbShift(Alu.Swap, Reg(L))
    ensures DecodeCb(0x36) == CbShift(Alu.Swap, IndHL)
    ensures DecodeCb(0x37) == CbShift(Alu.Swap, Reg(A))
  {
    assert Y(0x34) == 6 && Z(0x34) == 4;
    assert Y(0x35) == 6 && Z(0x35) == 5;
    assert Y(0x36) == 6 && Z(0x36) == 6;
    assert Y(0x37) == 6 && Z(0x37) == 7;
  }

  /** The cases 0x38-0x3B of execute_cb_instructions. */
  lemma {:induction false} DecodeCbTable38()
    ensures DecodeCb(0x38) == CbShift(Alu.Srl, Reg(B))
    ensures DecodeCb(0x39) == CbShift(Alu.Srl, Reg(C))
    ensures DecodeCb(0x3A) == CbShift(Alu.Srl, Reg(D))
    ensures DecodeCb(0x3B) == CbShift(Alu.Srl, Reg(E))
  {
    assert Y(0x38) == 7 && Z(0x38) == 0;
    assert Y(0x39) == 7 && Z(0x39) == 1;
    assert Y(0x3A) == 7 && Z(0x3A) == 2;
    assert Y(0x3B) == 7 && Z(0x3B) == 3;
  }

  /** The cases 0x3C-0x3F of execute_cb_instructions. */
  lemma {:induction false} DecodeCbTable3C()
    ensures DecodeCb(0x3C) == CbShift(Alu.Srl, Reg(H))
    ensures DecodeCb(0x3D) == CbShift(Alu.Srl, Reg(L))
    ensures DecodeCb(0x3E) == CbShift(Alu.Srl, IndHL)
    ensures DecodeCb(0x3F) == CbShift(Alu.Srl, Reg(A))
  {
    assert Y(0x3C) == 7 && Z(0x3C) == 4;
    assert Y(0x3D) == 7 && Z(0x3D) == 5;
    assert Y(0x3E) == 7 && Z(0x3E) == 6;
    assert Y(0x3F) == 7 && Z(0x3F) == 7;
  }

  /** The cases 0x40-0x43 of execute_cb_instructions. */
  lemma {:induction false} DecodeCbTable40()
    ensures DecodeCb(0x40) == CbBit(0, Reg(B))
    ensures DecodeCb(0x41) == CbBit(0, Reg(C))
    ensures DecodeCb(0x42) == CbBit(0, Reg(D))
    ensures DecodeCb(0x43) == CbBit(0, Reg(E))
  {
    assert Y(0x40) == 0 && Z(0x40) == 0;
    assert Y(0x41) == 0 && Z(0x41) == 1;
    assert Y(0x42) == 0 && Z(0x42) == 2;
    assert Y(0x43) == 0 && Z(0x43) == 3;
  }

  /** The cases 0x44-0x47 of execute_cb_instructions. */
  lemma {:induction false} DecodeCbTable44()
    ensures DecodeCb(0x44) == CbBit(0, Reg(H))
    ensures DecodeCb(0x45) == CbBit(0, Reg(L))
    ensures DecodeCb(0x46) == CbBit(0, IndHL)
    ensures DecodeCb(0x47) == CbBit(0, Reg(A))
  {
    assert Y(0x44) == 0 && Z(0x44) == 4;
    assert Y(0x45) == 0 && Z(0x45) == 5;
    assert Y(0x46) == 0 && Z(0x46) == 6;
    assert Y(0x47) == 0 && Z(0x47) == 7;
  }

  /** The cases 0x48-0x4B of execute_cb_instructions. */
  lemma {:induction false} DecodeCbTable48()
    ensures DecodeCb(0x48) == CbBit(1, Reg(B))
    ensures DecodeCb(0x49) == CbBit(1, Reg(C))
    ensures DecodeCb(0x4A) == CbBit(1, Reg(D))
    ensures DecodeCb(0x4B) == CbBit(1, Reg(E))
  {
    assert Y(0x48) == 1 && Z(0x48) == 0;
    assert Y(0x49) == 1 && Z(0x49) == 1;
    assert Y(0x4A) == 1 && Z(0x4A) == 2;
    assert Y(0x4B) == 1 && Z(0x4B) == 3;
  }

  /** The cases 0x4C-0x4F of execute_cb_instructions. */
  lemma {:induction false} DecodeCbTable4C()
    ensures DecodeCb(0x4C) == CbBit(1, Reg(H))
    ensures DecodeCb(0x4D) == CbBit(1, Reg(L))
    ensures DecodeCb(0x4E) == CbBit(1, IndHL)
    ensures DecodeCb(0x4F) == CbBit(1, Reg(A))
  {
    assert Y(0x4C) == 1 && Z(0x4C) == 4;
    assert Y(0x4D) == 1 && Z(0x4D) == 5;
    assert Y(0x4E) == 1 && Z(0x4E) == 6;
    assert Y(0x4F) == 1 && Z(0x4F) == 7;
  }

  /** The cases 0x50-0x53 of execute_cb_instructions. */
  lemma {:induction false} DecodeCbTable50()
    ensures DecodeCb(0x50) == CbBit(2, Reg(B))
    ensures DecodeCb(0x51) == CbBit(2, Reg(C))
    ensures DecodeCb(0x52) == CbBit(2, Reg(D))
    ensures DecodeCb(0x53) == CbBit(2, Reg(E))
  {
    assert Y(0x50) == 2 && Z(0x50) == 0;
    assert Y(0x51) == 2 && Z(0x51) == 1;
    assert Y(0x52) == 2 && Z(0x52) == 2;
    assert Y(0x53) == 2 && Z(0x53) == 3;
  }

  /** The cases 0x54-0x57 of execute_cb_instructions. */
  lemma {:induction false} DecodeCbTable54()
    ensures DecodeCb(0x54) == CbBit(2, Reg(H))
    ensures DecodeCb(0x55) == CbBit(2, Reg(L))
    ensures DecodeCb(0x56) == CbBit(2, IndHL)
    ensures DecodeCb(0x57) == CbBit(2, Reg(A))
  {
    assert Y(0x54) == 2 && Z(0x54) == 4;
    assert Y(0x55) == 2 && Z(0x55) == 5;
    assert Y(0x56) == 2 && Z(0x56) == 6;
    assert Y(0x57) == 2 && Z(0x57) == 7;
  }

  /** The cases 0x58-0x5B of execute_cb_instructions. */
  lemma {:induction false} DecodeCbTable58()
    ensures DecodeCb(0x58) == CbBit(3, Reg(B))
    ensures DecodeCb(0x59) == CbBit(3, Reg(C))
    ensures DecodeCb(0x5A) == CbBit(3, Reg(D))
    ensures DecodeCb(0x5B) == CbBit(3, Reg(E))
  {
    assert Y(0x58) == 3 && Z(0x58) == 0;
    assert Y(0x59) == 3 && Z(0x59) == 1;
    assert Y(0x5A) == 3 && Z(0x5A) == 2;
    assert Y(0x5B) == 3 && Z(0x5B) == 3;
  }

  /** The cases 0x5C-0x5F of execute_cb_instructions. */
  lemma {:induction false} DecodeCbTable5C()
    ensures DecodeCb(0x5C) == CbBit(3, Reg(H))
    ensures DecodeCb(0x5D) == CbBit(3, Reg(L))
    ensures DecodeCb(0x5E) == CbBit(3, IndHL)
    ensures DecodeCb(0x5F) == CbBit(3, Reg(A))
  {
    assert Y(0x5C) == 3 && Z(0x5C) == 4;
    assert Y(0x5D) == 3 && Z(0x5D) == 5;
    assert Y(0x5E) == 3 && Z(0x5E) == 6;
    assert Y(0x5F) == 3 && Z(0x5F) == 7;
  }

  /** The cases 0x60-0x63 of execute_cb_instructions. */
  lemma {:induction false} DecodeCbTable60()
    ensures DecodeCb(0x60) == CbBit(4, Reg(B))
    ensures DecodeCb(0x61) == CbBit(4, Reg(C))
    ensures DecodeCb(0x62) == CbBit(4, Reg(D))
    ensures DecodeCb(0x63) == CbBit(4, Reg(E))
  {
    assert Y(0x60) == 4 && Z(0x60) == 0;
    assert Y(0x61) == 4 && Z(0x61) == 1;
    assert Y(0x62) == 4 && Z(0x62) == 2;
    assert Y(0x63) == 4 && Z(0x63) == 3;
  }

  /** The cases 0x64-0x67 of execute_cb_instructions. */
  lemma {:induction false} DecodeCbTable64()
    ensures DecodeCb(0x64) == CbBit(4, Reg(H))
    ensures DecodeCb(0x65) == CbBit(4, Reg(L))
    ensures DecodeCb(0x66) == CbBit(4, IndHL)
    ensures DecodeCb(0x67) == CbBit(4, Reg(A))
  {
    assert Y(0x64) == 4 && Z(0x64) == 4;
    assert Y(0x65) == 4 && Z(0x65) == 5;
    assert Y(0x66) == 4 && Z(0x66) == 6;
    assert Y(0x67) == 4 && Z(0x67) == 7;
  }

  /** The cases 0x68-0x6B of execute_cb_instructions. */
  lemma {:induction false} DecodeCbTable68()
    ensures DecodeCb(0x68) == CbBit(5, Reg(B))
    ensures DecodeCb(0x69) == CbBit(5, Reg(C))
    ensures DecodeCb(0x6A) == CbBit(5, Reg(D))
    ensures DecodeCb(0x6B) == CbBit(5, Reg(E))
  {
    assert Y(0x68) == 5 && Z(0x68) == 0;
    assert Y(0x69) == 5 && Z(0x69) == 1;
    assert Y(0x6A) == 5 && Z(0x6A) == 2;
    assert Y(0x6B) == 5 && Z(0x6B) == 3;
  }

  /** The cases 0x6C-0x6F of execute_cb_instructions. */
  lemma {:induction false} DecodeCbTable6C()
    ensures DecodeCb(0x6C) == CbBit(5, Reg(H))
    ensures DecodeCb(0x6D) == CbBit(5, Reg(L))
    ensures DecodeCb(0x6E) == CbBit(5, IndHL)
    ensures DecodeCb(0x6F) == CbBit(5, Reg(A))
  {
    assert Y(0x6C) == 5 && Z(0x6C) == 4;
    assert Y(0x6D) == 5 && Z(0x6D) == 5;
    assert Y(0x6E) == 5 && Z(0x6E) == 6;
    assert Y(0x6F) == 5 && Z(0x6F) == 7;
  }

  /** The cases 0x70-0x73 of execute_cb_instructions. */
  lemma {:induction false} DecodeCbTable70()
    ensures DecodeCb(0x70) == CbBit(6, Reg(B))
    ensures DecodeCb(0x71) == CbBit(6, Reg(C))
    ensures DecodeCb(0x72) == CbBit(6, Reg(D))
    ensures DecodeCb(0x73) == CbBit(6, Reg(E))
  {
    assert Y(0x70) == 6 && Z(0x70) == 0;
    assert Y(0x71) == 6 && Z(0x71) == 1;
    assert Y(0x72) == 6 && Z(0x72) == 2;
    assert Y(0x73) == 6 && Z(0x73) == 3;
  }

  /** The cases 0x74-0x77 of execute_cb_instructions. */
  lemma {:induction false} DecodeCbTable74()
    ensures DecodeCb(0x74) == CbBit(6, Reg(H))
    ensures DecodeCb(0x75) == CbBit(6, Reg(L))
    ensures DecodeCb(0x76) == CbBit(6, IndHL)
    ensures DecodeCb(0x77) == CbBit(6, Reg(A))
  {
    assert Y(0x74) == 6 && Z(0x74) == 4;
    assert Y(0x75) == 6 && Z(0x75) == 5;
    assert Y(0x76) == 6 && Z(0x76) == 6;
    assert Y(0x77) == 6 && Z(0x77) == 7;
  }

  /** The cases 0x78-0x7B of execute_cb_instructions. */
  lemma {:induction false} DecodeCbTable78()
    ensures DecodeCb(0x78) == CbBit(7, Reg(B))
    ensures DecodeCb(0x79) == CbBit(7, Reg(C))
    ensures DecodeCb(0x7A) == CbBit(7, Reg(D))
    ensures DecodeCb(0x7B) == CbBit(7, Reg(E))
  {
    assert Y(0x78) == 7 && Z(0x78) == 0;
    assert Y(0x79) == 7 && Z(0x79) == 1;
    assert Y(0x7A) == 7 && Z(0x7A) == 2;
    assert Y(0x7B) == 7 && Z(0x7B) == 3;
  }

  /** The cases 0x7C-0x7F of execute_cb_instructions. */
  lemma {:induction false} DecodeCbTable7C()
    ensures DecodeCb(0x7C) == CbBit(7, Reg(H))
    ensures DecodeCb(0x7D) == CbBit(7, Reg(L))
    ensures DecodeCb(0x7E) == CbBit(7, IndHL)
    ensures DecodeCb(0x7F) == CbBit(7, Reg(A))
  {
    assert Y(0x7C) == 7 && Z(0x7C) == 4;
    assert Y(0x7D) == 7 && Z(0x7D) == 5;
    assert Y(0x7E) == 7 && Z(0x7E) == 6;
    assert Y(0x7F) == 7 && Z(0x7F) == 7;
  }

  /** The cases 0x80-0x83 of execute_cb_instructions. */
  lemma {:induction false} DecodeCbTable80()
    ensures DecodeCb(0x80) == CbRes(0, Reg(B))
    ensures DecodeCb(0x81) == CbRes(0, Reg(C))
    ensures DecodeCb(0x82) == CbRes(0, Reg(D))
    ensures DecodeCb(0x83) == CbRes(0, Reg(E))
  {
    assert Y(0x80) == 0 && Z(0x80) == 0;
    assert Y(0x81) == 0 && Z(0x81) == 1;
    assert Y(0x82) == 0 && Z(0x82) == 2;
    assert Y(0x83) == 0 && Z(0x83) == 3;
  }

  /** The cases 0x84-0x87 of execute_cb_instructions. */
  lemma {:induction false} DecodeCbTable84()
    ensures DecodeCb(0x84) == CbRes(0, Reg(H))
    ensures DecodeCb(0x85) == CbRes(0, Reg(L))
    ensures DecodeCb(0x86) == CbRes(0, IndHL)
    ensures DecodeCb(0x87) == CbRes(0, Reg(A))
  {
    assert Y(0x84) == 0 && Z(0x84) == 4;
    assert Y(0x85) == 0 && Z(0x85) == 5;
    assert Y(0x86) == 0 && Z(0x86) == 6;
    assert Y(0x87) == 0 && Z(0x87) == 7;
  }

  /** The cases 0x88-0x8B of execute_cb_instructions. */
  lemma {:induction false} DecodeCbTable88()
    ensures DecodeCb(0x88) == CbRes(1, Reg(B))
    ensures DecodeCb(0x89) == CbRes(1, Reg(C))
    ensures DecodeCb(0x8A) == CbRes(1, Reg(D))
    ensures DecodeCb(0x8B) == CbRes(1, Reg(E))
  {
    assert Y(0x88) == 1 && Z(0x88) == 0;
    assert Y(0x89) == 1 && Z(0x89) == 1;
    assert Y(0x8A) == 1 && Z(0x8A) == 2;
    assert Y(0x8B) == 1 && Z(0x8B) == 3;
  }

  /** The cases 0x8C-0x8F of execute_cb_instructions. */
  lemma {:induction false} DecodeCbTable8C()
    ensures DecodeCb(0x8C) == CbRes(1, Reg(H))
    ensures DecodeCb(0x8D) == CbRes(1, Reg(L))
    ensures DecodeCb(0x8E) == CbRes(1, IndHL)
    ensures DecodeCb(0x8F) == CbRes(1, Reg(A))
  {
    assert Y(0x8C) == 1 && Z(0x8C) == 4;
    assert Y(0x8D) == 1 && Z(0x8D) == 5;
    assert Y(0x8E) == 1 && Z(0x8E) == 6;
    assert Y(0x8F) == 1 && Z(0x8F) == 7;
  }

  /** The cases 0x90-0x93 of execute_cb_instructions. */
  lemma {:induction false} DecodeCbTable90()
    ensures DecodeCb(0x90) == CbRes(2, Reg(B))
    ensures DecodeCb(0x91) == CbRes(2, Reg(C))
    ensures DecodeCb(0x92) == CbRes(2, Reg(D))
    ensures DecodeCb(0x93) == CbRes(2, Reg(E))
  {
    assert Y(0x90) == 2 && Z(0x90) == 0;
    assert Y(0x91) == 2 && Z(0x91) == 1;
    assert Y(0x92) == 2 && Z(0x92) == 2;
    assert Y(0x93) == 2 && Z(0x93) == 3;
  }

  /** The cases 0x94-0x97 of execute_cb_instructions. */
  lemma {:induction false} DecodeCbTable94()
    ensures DecodeCb(0x94) == CbRes(2, Reg(H))
    ensures DecodeCb(0x95) == CbRes(2, Reg(L))
    ensures DecodeCb(0x96) == CbRes(2, IndHL)
    ensures DecodeCb(0x97) == CbRes(2, Reg(A))
  {
    assert Y(0x94) == 2 && Z(0x94) == 4;
    assert Y(0x95) == 2 && Z(0x95) == 5;
    assert Y(0x96) == 2 && Z(0x96) == 6;
    assert Y(0x97) == 2 && Z(0x97) == 7;
  }

  /** The cases 0x98-0x9B of execute_cb_instructions. */
  lemma {:induction false} DecodeCbTable98()
    ensures DecodeCb(0x98) == CbRes(3, Reg(B))
    ensures DecodeCb(0x99) == CbRes(3, Reg(C))
    ensures DecodeCb(0x9A) == CbRes(3, Reg(D))
    ensures DecodeCb(0x9B) == CbRes(3, Reg(E))
  {
    assert Y(0x98) == 3 && Z(0x98) == 0;
    assert Y(0x99) == 3 && Z(0x99) == 1;
    assert Y(0x9A) == 3 && Z(0x9A) == 2;
    assert Y(0x9B) == 3 && Z(0x9B) == 3;
  }

  /** The cases 0x9C-0x9F of execute_cb_instructions. */
  lemma {:induction false} DecodeCbTable9C()
    ensures DecodeCb(0x9C) == CbRes(3, Reg(H))
    ensures DecodeCb(0x9D) == CbRes(3, Reg(L))
    ensures DecodeCb(0x9E) == CbRes(3, IndHL)
    ensures DecodeCb(0x9F) == CbRes(3, Reg(A))
  {
    assert Y(0x9C) == 3 && Z(0x9C) == 4;
    assert Y(0x9D) == 3 && Z(0x9D) == 5;
    assert Y(0x9E) == 3 && Z(0x9E) == 6;
    assert Y(0x9F) == 3 && Z(0x9F) == 7;
  }

  /** The cases 0xA0-0xA3 of execute_cb_instructions. */
  lemma {:induction false} DecodeCbTableA0()
    ensures DecodeCb(0xA0) == CbRes(4, Reg(B))
    ensures DecodeCb(0xA1) == CbRes(4, Reg(C))
    ensures DecodeCb(0xA2) == CbRes(4, Reg(D))
    ensures DecodeCb(0xA3) == CbRes(4, Reg(E))
  {
    assert Y(0xA0) == 4 && Z(0xA0) == 0;
    assert Y(0xA1) == 4 && Z(0xA1) == 1;
    assert Y(0xA2) == 4 && Z(0xA2) == 2;
    assert Y(0xA3) == 4 && Z(0xA3) == 3;
  }

  /** The cases 0xA4-0xA7 of execute_cb_instructions. */
  lemma {:induction false} DecodeCbTableA4()
    ensures DecodeCb(0xA4) == CbRes(4, Reg(H))
    ensures DecodeCb(0xA5) == CbRes(4, Reg(L))
    ensures DecodeCb(0xA6) == CbRes(4, IndHL)
    ensures DecodeCb(0xA7) == CbRes(4, Reg(A))
  {
    assert Y(0xA4) == 4 && Z(0xA4) == 4;
    assert Y(0xA5) == 4 && Z(0xA5) == 5;
    assert Y(0xA6) == 4 && Z(0xA6) == 6;
    assert Y(0xA7) == 4 && Z(0xA7) == 7;
  }

  /** The cases 0xA8-0xAB of execute_cb_instructions. */
  lemma {:induction false} DecodeCbTableA8()
    ensures DecodeCb(0xA8) == CbRes(5, Reg(B))
    ensures DecodeCb(0xA9) == CbRes(5, Reg(C))
    ensures DecodeCb(0xAA) == CbRes(5, Reg(D))
    ensures DecodeCb(0xAB) == CbRes(5, Reg(E))
  {
    assert Y(0xA8) == 5 && Z(0xA8) == 0;
    assert Y(0xA9) == 5 && Z(0xA9) == 1;
    assert Y(0xAA) == 5 && Z(0xAA) == 2;
    assert Y(0xAB) == 5 && Z(0xAB) == 3;
  }

  /** The cases 0xAC-0xAF of execute_cb_instructions. */
  lemma {:induction false} DecodeCbTableAC()
    ensures DecodeCb(0xAC) == CbRes(5, Reg(H))
    ensures DecodeCb(0xAD) == CbRes(5, Reg(L))
    ensures DecodeCb(0xAE) == CbRes(5, IndHL)
    ensures DecodeCb(0xAF) == CbRes(5, Reg(A))
  {
    assert Y(0xAC) == 5 && Z(0xAC) == 4;
    assert Y(0xAD) == 5 && Z(0xAD) == 5;
    assert Y(0xAE) == 5 && Z(0xAE) == 6;
    assert Y(0xAF) == 5 && Z(0xAF) == 7;
  }

  /** The cases 0xB0-0xB3 of execute_cb_instructions. */
  lemma {:induction false} DecodeCbTableB0()
    ensures DecodeCb(0xB0) == CbRes(6, Reg(B))
    ensures DecodeCb(0xB1) == CbRes(6, Reg(C))
    ensures DecodeCb(0xB2) == CbRes(6, Reg(D))
    ensures DecodeCb(0xB3) == CbRes(6, Reg(E))
  {
    assert Y(0xB0) == 6 && Z(0xB0) == 0;
    assert Y(0xB1) == 6 && Z(0xB1) == 1;
    assert Y(0xB2) == 6 && Z(0xB2) == 2;
    assert Y(0xB3) == 6 && Z(0xB3) == 3;
  }

  /** The cases 0xB4-0xB7 of execute_cb_instructions. */
  lemma {:induction false} DecodeCbTableB4()
    ensures DecodeCb(0xB4) == CbRes(6, Reg(H))
    ensures DecodeCb(0xB5) == CbRes(6, Reg(L))
    ensures DecodeCb(0xB6) == CbRes(6, IndHL)
    ensures DecodeCb(0xB7) == CbRes(6, Reg(A))
  {
    assert Y(0xB4) == 6 && Z(0xB4) == 4;
    assert Y(0xB5) == 6 && Z(0xB5) == 5;
    assert Y(0xB6) == 6 && Z(0xB6) == 6;
    assert Y(0xB7) == 6 && Z(0xB7) == 7;
  }

  /** The cases 0xB8-0xBB of execute_cb_instructions. */
  lemma {:induction false} DecodeCbTableB8()
    ensures DecodeCb(0xB8) == CbRes(7, Reg(B))
    ensures DecodeCb(0xB9) == CbRes(7, Reg(C))
    ensures DecodeCb(0xBA) == CbRes(7, Reg(D))
    ensures DecodeCb(0xBB) == CbRes(7, Reg(E))
  {
    assert Y(0xB8) == 7 && Z(0xB8) == 0;
    assert Y(0xB9) == 7 && Z(0xB9) == 1;
    assert Y(0xBA) == 7 && Z(0xBA) == 2;
    assert Y(0xBB) == 7 && Z(0xBB) == 3;
  }

  /** The cases 0xBC-0xBF of execute_cb_instructions. */
  lemma {:induction false} DecodeCbTableBC()
    ensures DecodeCb(0xBC) == CbRes(7, Reg(H))
    ensures DecodeCb(0xBD) == CbRes(7, Reg(L))
    ensures DecodeCb(0xBE) == CbRes(7, IndHL)
    ensures DecodeCb(0xBF) == CbRes(7, Reg(A))
  {
    assert Y(0xBC) == 7 && Z(0xBC) == 4;
    assert Y(0xBD) == 7 && Z(0xBD) == 5;
    assert Y(0xBE) == 7 && Z(0xBE) == 6;
    assert Y(0xBF) == 7 && Z(0xBF) == 7;
  }

  /** The cases 0xC0-0xC3 of execute_cb_instructions. */
  lemma {:induction false} DecodeCbTableC0()
    ensures DecodeCb(0xC0) == CbSet(0, Reg(B))
    ensures DecodeCb(0xC1) == CbSet(0, Reg(C))
    ensures DecodeCb(0xC2) == CbSet(0, Reg(D))
    ensures DecodeCb(0xC3) == CbSet(0, Reg(E))
  {
    assert Y(0xC0) == 0 && Z(0xC0) == 0;
    assert Y(0xC1) == 0 && Z(0xC1) == 1;
    assert Y(0xC2) == 0 && Z(0xC2) == 2;
    assert Y(0xC3) == 0 && Z(0xC3) == 3;
  }

  /** The cases 0xC4-0xC7 of execute_cb_instructions. */
  lemma {:induction false} DecodeCbTableC4()
    ensures DecodeCb(0xC4) == CbSet(0, Reg(H))
    ensures DecodeCb(0xC5) == CbSet(0, Reg(L))
    ensures DecodeCb(0xC6) == CbSet(0, IndHL)
    ensures DecodeCb(0xC7) == CbSet(0, Reg(A))
  {
    assert Y(0xC4) == 0 && Z(0xC4) == 4;
    assert Y(0xC5) == 0 && Z(0xC5) == 5;
    assert Y(0xC6) == 0 && Z(0xC6) == 6;
    assert Y(0xC7) == 0 && Z(0xC7) == 7;
  }

  /** The cases 0xC8-0xCB of execute_cb_instructions. */
  lemma {:induction false} DecodeCbTableC8()
    ensures DecodeCb(0xC8) == CbSet(1, Reg(B))
    ensures DecodeCb(0xC9) == CbSet(1, Reg(C))
    ensures DecodeCb(0xCA) == CbSet(1, Reg(D))
    ensures DecodeCb(0xCB) == CbSet(1, Reg(E))
  {
    assert Y(0xC8) == 1 && Z(0xC8) == 0;
    assert Y(0xC9) == 1 && Z(0xC9) == 1;
    assert Y(0xCA) == 1 && Z(0xCA) == 2;
    assert Y(0xCB) == 1 && Z(0xCB) == 3;
  }

  /** The cases 0xCC-0xCF of execute_cb_instructions. */
  lemma {:induction false} DecodeCbTableCC()
    ensures DecodeCb(0xCC) == CbSet(1, Reg(H))
    ensures DecodeCb(0xCD) == CbSet(1, Reg(L))
    ensures DecodeCb(0xCE) == CbSet(1, IndHL)
    ensures DecodeCb(0xCF) == CbSet(1, Reg(A))
  {
    assert Y(0xCC) == 1 && Z(0xCC) == 4;
    assert Y(0xCD) == 1 && Z(0xCD) == 5;
    assert Y(0xCE) == 1 && Z(0xCE) == 6;
    assert Y(0xCF) == 1 && Z(0xCF) == 7;
  }

  /** The cases 0xD0-0xD3 of execute_cb_instructions. */
  lemma {:induction false} DecodeCbTableD0()
    ensures DecodeCb(0xD0) == CbSet(2, Reg(B))
    ensures DecodeCb(0xD1) == CbSet(2, Reg(C))
    ensures DecodeCb(0xD2) == CbSet(2, Reg(D))
    ensures DecodeCb(0xD3) == CbSet(2, Reg(E))
  {
    assert Y(0xD0) == 2 && Z(0xD0) == 0;
    assert Y(0xD1) == 2 && Z(0xD1) == 1;
    assert Y(0xD2) == 2 && Z(0xD2) == 2;
    assert Y(0xD3) == 2 && Z(0xD3) == 3;
  }

  /** The cases 0xD4-0xD7 of execute_cb_instructions. */
  lemma {:induction false} DecodeCbTableD4()
    ensures DecodeCb(0xD4) == CbSet(2, Reg(H))
    ensures DecodeCb(0xD5) == CbSet(2, Reg(L))
    ensures DecodeCb(0xD6) == CbSet(2, IndHL)
    ensures DecodeCb(0xD7) == CbSet(2, Reg(A))
  {
    assert Y(0xD4) == 2 && Z(0xD4) == 4;
    assert Y(0xD5) == 2 && Z(0xD5) == 5;
    assert Y(0xD6) == 2 && Z(0xD6) == 6;
    assert Y(0xD7) == 2 && Z(0xD7) == 7;
  }

  /** The cases 0xD8-0xDB of execute_cb_instructions. */
  lemma {:induction false} DecodeCbTableD8()
    ensures DecodeCb(0xD8) == CbSet(3, Reg(B))
    ensures DecodeCb(0xD9) == CbSet(3, Reg(C))
    ensures DecodeCb(0xDA) == CbSet(3, Reg(D))
    ensures DecodeCb(0xDB) == CbSet(3, Reg(E))
  {
    assert Y(0xD8) == 3 && Z(0xD8) == 0;
    assert Y(0xD9) == 3 && Z(0xD9) == 1;
    assert Y(0xDA) == 3 && Z(0xDA) == 2;
    assert Y(0xDB) == 3 && Z(0xDB) == 3;
  }

  /** The cases 0xDC-0xDF of execute_cb_instructions. */
  lemma {:induction false} DecodeCbTableDC()
    ensures DecodeCb(0xDC) == CbSet(3, Reg(H))
    ensures DecodeCb(0xDD) == CbSet(3, Reg(L))
    ensures DecodeCb(0xDE) == CbSet(3, IndHL)
    ensures DecodeCb(0xDF) == CbSet(3, Reg(A))
  {
    assert Y(0xDC) == 3 && Z(0xDC) == 4;
    assert Y(0xDD) == 3 && Z(0xDD) == 5;
    assert Y(0xDE) == 3 && Z(0xDE) == 6;
    assert Y(0xDF) == 3 && Z(0xDF) == 7;
  }

  /** The cases 0xE0-0xE3 of execute_cb_instructions. */
  lemma {:induction false} DecodeCbTableE0()
    ensures DecodeCb(0xE0) == CbSet(4, Reg(B))
    ensures DecodeCb(0xE1) == CbSet(4, Reg(C))
    ensures DecodeCb(0xE2) == CbSet(4, Reg(D))
    ensures DecodeCb(0xE3) == CbSet(4, Reg(E))
  {
    assert Y(0xE0) == 4 && Z(0xE0) == 0;
    assert Y(0xE1) == 4 && Z(0xE1) == 1;
    assert Y(0xE2) == 4 && Z(0xE2) == 2;
    assert Y(0xE3) == 4 && Z(0xE3) == 3;
  }

  /** The cases 0xE4-0xE7 of execute_cb_instructions. */
  lemma {:induction false} DecodeCbTableE4()
    ensures DecodeCb(0xE4) == CbSet(4, Reg(H))
    ensures DecodeCb(0xE5) == CbSet(4, Reg(L))
    ensures DecodeCb(0xE6) == CbSet(4, IndHL)
    ensures DecodeCb(0xE7) == CbSet(4, Reg(A))
  {
    assert Y(0xE4) == 4 && Z(0xE4) == 4;
    assert Y(0xE5) == 4 && Z(0xE5) == 5;
    assert Y(0xE6) == 4 && Z(0xE6) == 6;
    assert Y(0xE7) == 4 && Z(0xE7) == 7;
  }

  /** The cases 0xE8-0xEB of execute_cb_instructions. */
  lemma {:induction false} DecodeCbTableE8()
    ensures DecodeCb(0xE8) == CbSet(5, Reg(B))
    ensures DecodeCb(0xE9) == CbSet(5, Reg(C))
    ensures DecodeCb(0xEA) == CbSet(5, Reg(D))
    ensures DecodeCb(0xEB) == CbSet(5, Reg(E))
  {
    assert Y(0xE8) == 5 && Z(0xE8) == 0;
    assert Y(0xE9) == 5 && Z(0xE9) == 1;
    assert Y(0xEA) == 5 && Z(0xEA) == 2;
    assert Y(0xEB) == 5 && Z(0xEB) == 3;
  }

  /** The cases 0xEC-0xEF of execute_cb_instructions. */
  lemma {:induction false} DecodeCbTableEC()
    ensures DecodeCb(0xEC) == CbSet(5, Reg(H))
    ensures DecodeCb(0xED) == CbSet(5, Reg(L))
    ensures DecodeCb(0xEE) == CbSet(5, IndHL)
    ensures DecodeCb(0xEF) == CbSet(5, Reg(A))
  {
    assert Y(0xEC) == 5 && Z(0xEC) == 4;
    assert Y(0xED) == 5 && Z(0xED) == 5;
    assert Y(0xEE) == 5 && Z(0xEE) == 6;
    assert Y(0xEF) == 5 && Z(0xEF) == 7;
  }

  /** The cases 0xF0-0xF3 of execute_cb_instructions. */
  lemma {:induction false} DecodeCbTableF0()
    ensures DecodeCb(0xF0) == CbSet(6, Reg(B))
    ensures DecodeCb(0xF1) == CbSet(6, Reg(C))
    ensures DecodeCb(0xF2) == CbSet(6, Reg(D))
    ensures DecodeCb(0xF3) == CbSet(6, Reg(E))
  {
    assert Y(0xF0) == 6 && Z(0xF0) == 0;
    assert Y(0xF1) == 6 && Z(0xF1) == 1;
    assert Y(0xF2) == 6 && Z(0xF2) == 2;
    assert Y(0xF3) == 6 && Z(0xF3) == 3;
  }

  /** The cases 0xF4-0xF7 of execute_cb_instructions. */
  lemma {:induction false} DecodeCbTableF4()
    ensures DecodeCb(0xF4) == CbSet(6, Reg(H))
    ensures DecodeCb(0xF5) == CbSet(6, Reg(L))
    ensures DecodeCb(0xF6) == CbSet(6, IndHL)
    ensures DecodeCb(0xF7) == CbSet(6, Reg(A))
  {
    assert Y(0xF4) == 6 && Z(0xF4) == 4;
    assert Y(0xF5) == 6 && Z(0xF5) == 5;
    assert Y(0xF6) == 6 && Z(0xF6) == 6;
    assert Y(0xF7) == 6 && Z(0xF7) == 7;
  }

  /** The cases 0xF8-0xFB of execute_cb_instructions. */
  lemma {:induction false} DecodeCbTableF8()
    ensures DecodeCb(0xF8) == CbSet(7, Reg(B))
    ensures DecodeCb(0xF9) == CbSet(7, Reg(C))
    ensures DecodeCb(0xFA) == CbSet(7, Reg(D))
    ensures DecodeCb(0xFB) == CbSet(7, Reg(E))
  {
    assert Y(0xF8) == 7 && Z(0xF8) == 0;
    assert Y(0xF9) == 7 && Z(0xF9) == 1;
    assert Y(0xFA) == 7 && Z(0xFA) == 2;
    assert Y(0xFB) == 7 && Z(0xFB) == 3;
  }

  /** The cases 0xFC-0xFF of execute_cb_instructions. */
  lemma {:induction false} DecodeCbTableFC()
    ensures DecodeCb(0xFC) == CbSet(7, Reg(H))
    ensures DecodeCb(0xFD) == CbSet(7, Reg(L))
    ensures DecodeCb(0xFE) == CbSet(7, IndHL)
    ensures DecodeCb(0xFF) == CbSet(7, Reg(A))
  {
    assert Y(0xFC) == 7 && Z(0xFC) == 4;
    assert Y(0xFD) == 7 && Z(0xFD) == 5;
    assert Y(0xFE) == 7 && Z(0xFE) == 6;
    assert Y(0xFF) == 7 && Z(0xFF) == 7;
  }

  /** Cases 0x00-0x1F of execute_normal_instructions. */
  lemma {:induction false} DecodeCases00()
    ensures Decode(0x00) == Nop
    ensures Decode(0x01) == LdRrNn(BC)
    ensures Decode(0x02) == LdIndRrA(BC)
    ensures Decode(0x03) == IncRr(BC)
    ensures Decode(0x04) == IncLoc(Reg(B))
    ensures Decode(0x05) == DecLoc(Reg(B))
    ensures Decode(0x06) == LdLocN(Reg(B))
    ensures Decode(0x07) == RotA(Alu.Rlc)
    ensures Decode(0x08) == LdIndNnSp
    ensures Decode(0x09) == AddHlRr(BC)
    ensures Decode(0x0A) == LdAIndRr(BC)
    ensures Decode(0x0B) == DecRr(BC)
    ensures Decode(0x0C) == IncLoc(Reg(C))
    ensures Decode(0x0D) == DecLoc(Reg(C))
    ensures Decode(0x0E) == LdLocN(Reg(C))
    ensures Decode(0x0F) == RotA(Alu.Rrc)
    ensures Decode(0x10) == Stop
    ensures Decode(0x11) == LdRrNn(DE)
    ensures Decode(0x12) == LdIndRrA(DE)
    ensures Decode(0x13) == IncRr(DE)
    ensures Decode(0x14) == IncLoc(Reg(D))
    ensures Decode(0x15) == DecLoc(Reg(D))
    ensures Decode(0x16) == LdLocN(Reg(D))
    ensures Decode(0x17) == RotA(Alu.Rl)
    ensures Decode(0x18) == JrI8
    ensures Decode(0x19) == AddHlRr(DE)
    ensures Decode(0x1A) == LdAIndRr(DE)
    ensures Decode(0x1B) == DecRr(DE)
    ensures Decode(0x1C) == IncLoc(Reg(E))
    ensures Decode(0x1D) == DecLoc(Reg(E))
    ensures Decode(0x1E) == LdLocN(Reg(E))
    ensures Decode(0x1F) == RotA(Alu.Rr)
  {
    DecodeTable00();
    DecodeTable04();
    DecodeTable08();
    DecodeTable0C();
    DecodeTable10();
    DecodeTable14();
    DecodeTable18();
    DecodeTable1C();
  }

  /** Cases 0x00-0x1F of execute_cb_instructions. */
  lemma {:induction false} DecodeCbCases00()
    ensures DecodeCb(0x00) == CbShift(Alu.Rlc, Reg(B))
    ensures DecodeCb(0x01) == CbShift(Alu.Rlc, Reg(C))
    ensures DecodeCb(0x02) == CbShift(Alu.Rlc, Reg(D))
    ensures DecodeCb(0x03) == CbShift(Alu.Rlc, Reg(E))
    ensures DecodeCb(0x04) == CbShift(Alu.Rlc, Reg(H))
    ensures DecodeCb(0x05) == CbShift(Alu.Rlc, Reg(L))
    ensures DecodeCb(0x06) == CbShift(Alu.Rlc, IndHL)
    ensures DecodeCb(0x07) == CbShift(Alu.Rlc, Reg(A))
    ensures DecodeCb(0x08) == CbShift(Alu.Rrc, Reg(B))
    ensures DecodeCb(0x09) == CbShift(Alu.Rrc, Reg(C))
    ensures DecodeCb(0x0A) == CbShift(Alu.Rrc, Reg(D))
    ensures DecodeCb(0x0B) == CbShift(Alu.Rrc, Reg(E))
    ensures DecodeCb(0x0C) == CbShift(Alu.Rrc, Reg(H))
    ensures DecodeCb(0x0D) == CbShift(Alu.Rrc, Reg(L))
    ensures DecodeCb(0x0E) == CbShift(Alu.Rrc, IndHL)
    ensures DecodeCb(0x0F) == CbShift(Alu.Rrc, Reg(A))
    ensures DecodeCb(0x10) == CbShift(Alu.Rl, Reg(B))
    ensures DecodeCb(0x11) == CbShift(Alu.Rl, Reg(C))
    ensures DecodeCb(0x12) == CbShift(Alu.Rl, Reg(D))
    ensures DecodeCb(0x13) == CbShift(Alu.Rl, Reg(E))
    ensures DecodeCb(0x14) == CbShift(Alu.Rl, Reg(H))
    ensures DecodeCb(0x15) == CbShift(Alu.Rl, Reg(L))
    ensures DecodeCb(0x16) == CbShift(Alu.Rl, IndHL)
    ensures DecodeCb(0x17) == CbShift(Alu.Rl, Reg(A))
    ensures DecodeCb(0x18) == CbShift(Alu.Rr, Reg(B))
    ensures DecodeCb(0x19) == CbShift(Alu.Rr, Reg(C))
    ensures DecodeCb(0x1A) == CbShift(Alu.Rr, Reg(D))
    ensures DecodeCb(0x1B) == CbShift(Alu.Rr, Reg(E))
    ensures DecodeCb(0x1C) == CbShift(Alu.Rr, Reg(H))
    ensures DecodeCb(0x1D) == CbShift(Alu.Rr, Reg(L))
    ensures DecodeCb(0x1E) == CbShift(Alu.Rr, IndHL)
    ensures DecodeCb(0x1F) == CbShift(Alu.Rr, Reg(A))
  {
    DecodeCbTable00();
    DecodeCbTable04();
    DecodeCbTable08();
    DecodeCbTable0C();
    DecodeCbTable10();
    DecodeCbTable14();
    DecodeCbTable18();
    DecodeCbTable1C();
  }

  /** Cases 0x20-0x3F of execute_normal_instructions. */
  lemma {:induction false} DecodeCases20()
    ensures Decode(0x20) == JrCondI8(CondNZ)
    ensures Decode(0x21) == LdRrNn(HL)
    ensures Decode(0x22) == LdiIndHlA
    ensures Decode(0x23) == IncRr(HL)
    ensures Decode(0x24) == IncLoc(Reg(H))
    ensures Decode(0x25) == DecLoc(Reg(H))
    ensures Decode(0x26) == LdLocN(Reg(H))
    ensures Decode(0x27) == Daa
    ensures Decode(0x28) == JrCondI8(CondZ)
    ensures Decode(0x29) == AddHlRr(HL)
    ensures Decode(0x2A) == LdiAIndHl
    ensures Decode(0x2B) == DecRr(HL)
    ensures Decode(0x2C) == IncLoc(Reg(L))
    ensures Decode(0x2D) == DecLoc(Reg(L))
    ensures Decode(0x2E) == LdLocN(Reg(L))
    ensures Decode(0x2F) == Cpl
    ensures Decode(0x30) == JrCondI8(CondNC)
    ensures Decode(0x31) == LdRrNn(SP)
    ensures Decode(0x32) == LddIndHlA
    ensures Decode(0x33) == IncRr(SP)
    ensures Decode(0x34) == IncLoc(IndHL)
    ensures Decode(0x35) == DecLoc(IndHL)
    ensures Decode(0x36) == LdLocN(IndHL)
    ensures Decode(0x37) == Scf
    ensures Decode(0x38) == JrCondI8(CondC)
    ensures Decode(0x39) == AddHlRr(SP)
    ensures Decode(0x3A) == LddAIndHl
    ensures Decode(0x3B) == DecRr(SP)
    ensures Decode(0x3C) == IncLoc(Reg(A))
    ensures Decode(0x3D) == DecLoc(Reg(A))
    ensures Decode(0x3E) == LdLocN(Reg(A))
    ensures Decode(0x3F) == Ccf
  {
    DecodeTable20();
    DecodeTable24();
    DecodeTable28();
    DecodeTable2C();
    DecodeTable30();
    DecodeTable34();
    DecodeTable38();
    DecodeTable3C();
  }

  /** Cases 0x20-0x3F of execute_cb_instructions. */
  lemma {:induction false} DecodeCbCases20()
    ensures DecodeCb(0x20) == CbShift(Alu.Sla, Reg(B))
    ensures DecodeCb(0x21) == CbShift(Alu.Sla, Reg(C))
    ensures DecodeCb(0x22) == CbShift(Alu.Sla, Reg(D))
    ensures DecodeCb(0x23) == CbShift(Alu.Sla, Reg(E))
    ensures DecodeCb(0x24) == CbShift(Alu.Sla, Reg(H))
    ensures DecodeCb(0x25) == CbShift(Alu.Sla, Reg(L))
    ensures DecodeCb(0x26) == CbShift(Alu.Sla, IndHL)
    ensures DecodeCb(0x27) == CbShift(Alu.Sla, Reg(A))
    ensures DecodeCb(0x28) == CbShift(Alu.Sra, Reg(B))
    ensures DecodeCb(0x29) == CbShift(Alu.Sra, Reg(C))
    ensures DecodeCb(0x2A) == CbShift(Alu.Sra, Reg(D))
    ensures DecodeCb(0x2B) == CbShift(Alu.Sra, Reg(E))
    ensures DecodeCb(0x2C) == CbShift(Alu.Sra, Reg(H))
    ensures DecodeCb(0x2D) == CbShift(Alu.Sra, Reg(L))
    ensures DecodeCb(0x2E) == CbShift(Alu.Sra, IndHL)
    ensures DecodeCb(0x2F) == CbShift(Alu.Sra, Reg(A))
    ensures DecodeCb(0x30) == CbShift(Alu.Swap, Reg(B))
    ensures DecodeCb(0x31) == CbShift(Alu.Swap, Reg(C))
    ensures DecodeCb(0x32) == CbShift(Alu.Swap, Reg(D))
    ensures DecodeCb(0x33) == CbShift(Alu.Swap, Reg(E))
    ensures DecodeCb(0x34) == CbShift(Alu.Swap, Reg(H))
    ensures DecodeCb(0x35) == CbShift(Alu.Swap, Reg(L))
    ensures DecodeCb(0x36) == CbShift(Alu.Swap, IndHL)
    ensures DecodeCb(0x37) == CbShift(Alu.Swap, Reg(A))
    ensures DecodeCb(0x38) == CbShift(Alu.Srl, Reg(B))
    ensures DecodeCb(0x39) == CbShift(Alu.Srl, Reg(C))
    ensures DecodeCb(0x3A) == CbShift(Alu.Srl, Reg(D))
    ensures DecodeCb(0x3B) == CbShift(Alu.Srl, Reg(E))
    ensures DecodeCb(0x3C) == CbShift(Alu.Srl, Reg(H))
    ensures DecodeCb(0x3D) == CbShift(Alu.Srl, Reg(L))
    ensures DecodeCb(0x3E) == CbShift(Alu.Srl, IndHL)
    ensures DecodeCb(0x3F) == CbShift(Alu.Srl, Reg(A))
  {
    DecodeCbTable20();
    DecodeCbTable24();
    DecodeCbTable28();
    DecodeCbTable2C();
    DecodeCbTable30();
    DecodeCbTable34();
    DecodeCbTable38();
    DecodeCbTable3C();
  }

  /** Cases 0x40-0x5F of execute_normal_instructions. */
  lemma {:induction false} DecodeCases40()
    ensures Decode(0x40) == Ld8(Reg(B), Reg(B))
    ensures Decode(0x41) == Ld8(Reg(B), Reg(C))
    ensures Decode(0x42) == Ld8(Reg(B), Reg(D))
    ensures Decode(0x43) == Ld8(Reg(B), Reg(E))
    ensures Decode(0x44) == Ld8(Reg(B), Reg(H))
    ensures Decode(0x45) == Ld8(Reg(B), Reg(L))
    ensures Decode(0x46) == Ld8(Reg(B), IndHL)
    ensures Decode(0x47) == Ld8(Reg(B), Reg(A))
    ensures Decode(0x48) == Ld8(Reg(C), Reg(B))
    ensures Decode(0x49) == Ld8(Reg(C), Reg(C))
    ensures Decode(0x4A) == Ld8(Reg(C), Reg(D))
    ensures Decode(0x4B) == Ld8(Reg(C), Reg(E))
    ensures Decode(0x4C) == Ld8(Reg(C), Reg(H))
    ensures Decode(0x4D) == Ld8(Reg(C), Reg(L))
    ensures Decode(0x4E) == Ld8(Reg(C), IndHL)
    ensures Decode(0x4F) == Ld8(Reg(C), Reg(A))
    ensures Decode(0x50) == Ld8(Reg(D), Reg(B))
    ensures Decode(0x51) == Ld8(Reg(D), Reg(C))
    ensures Decode(0x52) == Ld8(Reg(D), Reg(D))
    ensures Decode(0x53) == Ld8(Reg(D), Reg(E))
    ensures Decode(0x54) == Ld8(Reg(D), Reg(H))
    ensures Decode(0x55) == Ld8(Reg(D), Reg(L))
    ensures Decode(0x56) == Ld8(Reg(D), IndHL)
    ensures Decode(0x57) == Ld8(Reg(D), Reg(A))
    ensures Decode(0x58) == Ld8(Reg(E), Reg(B))
    ensures Decode(0x59) == Ld8(Reg(E), Reg(C))
    ensures Decode(0x5A) == Ld8(Reg(E), Reg(D))
    ensures Decode(0x5B) == Ld8(Reg(E), Reg(E))
    ensures Decode(0x5C) == Ld8(Reg(E), Reg(H))
    ensures Decode(0x5D) == Ld8(Reg(E), Reg(L))
    ensures Decode(0x5E) == Ld8(Reg(E), IndHL)
    ensures Decode(0x5F) == Ld8(Reg(E), Reg(A))
  {
    DecodeTable40();
    DecodeTable44();
    DecodeTable48();
    DecodeTable4C();
    DecodeTable50();
    DecodeTable54();
    DecodeTable58();
    DecodeTable5C();
  }

  /** Cases 0x40-0x5F of execute_cb_instructions. */
  lemma {:induction false} DecodeCbCases40()
    ensures DecodeCb(0x40) == CbBit(0, Reg(B))
    ensures DecodeCb(0x41) == CbBit(0, Reg(C))
    ensures DecodeCb(0x42) == CbBit(0, Reg(D))
    ensures DecodeCb(0x43) == CbBit(0, Reg(E))
    ensures DecodeCb(0x44) == CbBit(0, Reg(H))
    ensures DecodeCb(0x45) == CbBit(0, Reg(L))
    ensures DecodeCb(0x46) == CbBit(0, IndHL)
    ensures DecodeCb(0x47) == CbBit(0, Reg(A))
    ensures DecodeCb(0x48) == CbBit(1, Reg(B))
    ensures DecodeCb(0x49) == CbBit(1, Reg(C))
    ensures DecodeCb(0x4A) == CbBit(1, Reg(D))
    ensures DecodeCb(0x4B) == CbBit(1, Reg(E))
    ensures DecodeCb(0x4C) == CbBit(1, Reg(H))
    ensures DecodeCb(0x4D) == CbBit(1, Reg(L))
    ensures DecodeCb(0x4E) == CbBit(1, IndHL)
    ensures DecodeCb(0x4F) == CbBit(1, Reg(A))
    ensures DecodeCb(0x50) == CbBit(2, Reg(B))
    ensures DecodeCb(0x51) == CbBit(2, Reg(C))
    ensures DecodeCb(0x52) == CbBit(2, Reg(D))
    ensures DecodeCb(0x53) == CbBit(2, Reg(E))
    ensures DecodeCb(0x54) == CbBit(2, Reg(H))
    ensures DecodeCb(0x55) == CbBit(2, Reg(L))
    ensures DecodeCb(0x56) == CbBit(2, IndHL)
    ensures DecodeCb(0x57) == CbBit(2, Reg(A))
    ensures DecodeCb(0x58) == CbBit(3, Reg(B))
    ensures DecodeCb(0x59) == CbBit(3, Reg(C))
    ensures DecodeCb(0x5A) == CbBit(3, Reg(D))
    ensures DecodeCb(0x5B) == CbBit(3, Reg(E))
    ensures DecodeCb(0x5C) == CbBit(3, Reg(H))
    ensures DecodeCb(0x5D) == CbBit(3, Reg(L))
    ensures DecodeCb(0x5E) == CbBit(3, IndHL)
    ensures DecodeCb(0x5F) == CbBit(3, Reg(A))
  {
    DecodeCbTable40();
    DecodeCbTable44();
    DecodeCbTable48();
    DecodeCbTable4C();
    DecodeCbTable50();
    DecodeCbTable54();
    DecodeCbTable58();
    DecodeCbTable5C();
  }

  /** Cases 0x60-0x7F of execute_normal_instructions. */
  lemma {:induction false} DecodeCases60()
    ensures Decode(0x60) == Ld8(Reg(H), Reg(B))
    ensures Decode(0x61) == Ld8(Reg(H), Reg(C))
    ensures Decode(0x62) == Ld8(Reg(H), Reg(D))
    ensures Decode(0x63) == Ld8(Reg(H), Reg(E))
    ensures Decode(0x64) == Ld8(Reg(H), Reg(H))
    ensures Decode(0x65) == Ld8(Reg(H), Reg(L))
    ensures Decode(0x66) == Ld8(Reg(H), IndHL)
    ensures Decode(0x67) == Ld8(Reg(H), Reg(A))
    ensures Decode(0x68) == Ld8(Reg(L), Reg(B))
    ensures Decode(0x69) == Ld8(Reg(L), Reg(C))
    ensures Decode(0x6A) == Ld8(Reg(L), Reg(D))
    ensures Decode(0x6B) == Ld8(Reg(L), Reg(E))
    ensures Decode(0x6C) == Ld8(Reg(L), Reg(H))
    ensures Decode(0x6D) == Ld8(Reg(L), Reg(L))
    ensures Decode(0x6E) == Ld8(Reg(L), IndHL)
    ensures Decode(0x6F) == Ld8(Reg(L), Reg(A))
    ensures Decode(0x70) == Ld8(IndHL, Reg(B))
    ensures Decode(0x71) == Ld8(IndHL, Reg(C))
    ensures Decode(0x72) == Ld8(IndHL, Reg(D))
    ensures Decode(0x73) == Ld8(IndHL, Reg(E))
    ensures Decode(0x74) == Ld8(IndHL, Reg(H))
    ensures Decode(0x75) == Ld8(IndHL, Reg(L))
    ensures Decode(0x76) == Halt
    ensures Decode(0x77) == Ld8(IndHL, Reg(A))
    ensures Decode(0x78) == Ld8(Reg(A), Reg(B))
    ensures Decode(0x79) == Ld8(Reg(A), Reg(C))
    ensures Decode(0x7A) == Ld8(Reg(A), Reg(D))
    ensures Decode(0x7B) == Ld8(Reg(A), Reg(E))
    ensures Decode(0x7C) == Ld8(Reg(A), Reg(H))
    ensures Decode(0x7D) == Ld8(Reg(A), Reg(L))
    ensures Decode(0x7E) == Ld8(Reg(A), IndHL)
    ensures Decode(0x7F) == Ld8(Reg(A), Reg(A))
  {
    DecodeTable60();
    DecodeTable64();
    DecodeTable68();
    DecodeTable6C();
    DecodeTable70();
    DecodeTable74();
    DecodeTable78();
    DecodeTable7C();
  }

  /** Cases 0x60-0x7F of execute_cb_instructions. */
  lemma {:induction false} DecodeCbCases60()
    ensures DecodeCb(0x60) == CbBit(4, Reg(B))
    ensures DecodeCb(0x61) == CbBit(4, Reg(C))
    ensures DecodeCb(0x62) == CbBit(4, Reg(D))
    ensures DecodeCb(0x63) == CbBit(4, Reg(E))
    ensures DecodeCb(0x64) == CbBit(4, Reg(H))
    ensures DecodeCb(0x65) == CbBit(4, Reg(L))
    ensures DecodeCb(0x66) == CbBit(4, IndHL)
    ensures DecodeCb(0x67) == CbBit(4, Reg(A))
    ensures DecodeCb(0x68) == CbBit(5, Reg(B))
    ensures DecodeCb(0x69) == CbBit(5, Reg(C))
    ensures DecodeCb(0x6A) == CbBit(5, Reg(D))
    ensures DecodeCb(0x6B) == CbBit(5, Reg(E))
    ensures DecodeCb(0x6C) == CbBit(5, Reg(H))
    ensures DecodeCb(0x6D) == CbBit(5, Reg(L))
    ensures DecodeCb(0x6E) == CbBit(5, IndHL)
    ensures DecodeCb(0x6F) == CbBit(5, Reg(A))
    ensures DecodeCb(0x70) == CbBit(6, Reg(B))
    ensures DecodeCb(0x71) == CbBit(6, Reg(C))
    ensures DecodeCb(0x72) == CbBit(6, Reg(D))
    ensures DecodeCb(0x73) == CbBit(6, Reg(E))
    ensures DecodeCb(0x74) == CbBit(6, Reg(H))
    ensures DecodeCb(0x75) == CbBit(6, Reg(L))
    ensures DecodeCb(0x76) == CbBit(6, IndHL)
    ensures DecodeCb(0x77) == CbBit(6, Reg(A))
    ensures DecodeCb(0x78) == CbBit(7, Reg(B))
    ensures DecodeCb(0x79) == CbBit(7, Reg(C))
    ensures DecodeCb(0x7A) == CbBit(7, Reg(D))
    ensures DecodeCb(0x7B) == CbBit(7, Reg(E))
    ensures DecodeCb(0x7C) == CbBit(7, Reg(H))
    ensures DecodeCb(0x7D) == CbBit(7, Reg(L))
    ensures DecodeCb(0x7E) == CbBit(7, IndHL)
    ensures DecodeCb(0x7F) == CbBit(7, Reg(A))
  {
    DecodeCbTable60();
    DecodeCbTable64();
    DecodeCbTable68();
    DecodeCbTable6C();
    DecodeCbTable70();
    DecodeCbTable74();
    DecodeCbTable78();
    DecodeCbTable7C();
  }

  /** Cases 0x80-0x9F of execute_normal_instructions. */
  lemma {:induction false} DecodeCases80()
    ensures Decode(0x80) == AluA(Alu.AddOp, From(Reg(B)))
    ensures Decode(0x81) == AluA(Alu.AddOp, From(Reg(C)))
    ensures Decode(0x82) == AluA(Alu.AddOp, From(Reg(D)))
    ensures Decode(0x83) == AluA(Alu.AddOp, From(Reg(E)))
    ensures Decode(0x84) == AluA(Alu.AddOp, From(Reg(H)))
    ensures Decode(0x85) == AluA(Alu.AddOp, From(Reg(L)))
    ensures Decode(0x86) == AluA(Alu.AddOp, From(IndHL))
    ensures Decode(0x87) == AluA(Alu.AddOp, From(Reg(A)))
    ensures Decode(0x88) == AluA(Alu.AdcOp, From(Reg(B)))
    ensures Decode(0x89) == AluA(Alu.AdcOp, From(Reg(C)))
    ensures Decode(0x8A) == AluA(Alu.AdcOp, From(Reg(D)))
    ensures Decode(0x8B) == AluA(Alu.AdcOp, From(Reg(E)))
    ensures Decode(0x8C) == AluA(Alu.AdcOp, From(Reg(H)))
    ensures Decode(0x8D) == AluA(Alu.AdcOp, From(Reg(L)))
    ensures Decode(0x8E) == AluA(Alu.AdcOp, From(IndHL))
    ensures Decode(0x8F) == AluA(Alu.AdcOp, From(Reg(A)))
    ensures Decode(0x90) == AluA(Alu.SubOp, From(Reg(B)))
    ensures Decode(0x91) == AluA(Alu.SubOp, From(Reg(C)))
    ensures Decode(0x92) == AluA(Alu.SubOp, From(Reg(D)))
    ensures Decode(0x93) == AluA(Alu.SubOp, From(Reg(E)))
    ensures Decode(0x94) == AluA(Alu.SubOp, From(Reg(H)))
    ensures Decode(0x95) == AluA(Alu.SubOp, From(Reg(L)))
    ensures Decode(0x96) == AluA(Alu.SubOp, From(IndHL))
    ensures Decode(0x97) == AluA(Alu.SubOp, From(Reg(A)))
    ensures Decode(0x98) == AluA(Alu.SbcOp, From(Reg(B)))
    ensures Decode(0x99) == AluA(Alu.SbcOp, From(Reg(C)))
    ensures Decode(0x9A) == AluA(Alu.SbcOp, From(Reg(D)))
    ensures Decode(0x9B) == AluA(Alu.SbcOp, From(Reg(E)))
    ensures Decode(0x9C) == AluA(Alu.SbcOp, From(Reg(H)))
    ensures Decode(0x9D) == AluA(Alu.SbcOp, From(Reg(L)))
    ensures Decode(0x9E) == AluA(Alu.SbcOp, From(IndHL))
    ensures Decode(0x9F) == AluA(Alu.SbcOp, From(Reg(A)))
  {
    DecodeTable80();
    DecodeTable84();
    DecodeTable88();
    DecodeTable8C();
    DecodeTable90();
    DecodeTable94();
    DecodeTable98();
    DecodeTable9C();
  }

  /** Cases 0x80-0x9F of execute_cb_instructions. */
  lemma {:induction false} DecodeCbCases80()
    ensures DecodeCb(0x80) == CbRes(0, Reg(B))
    ensures DecodeCb(0x81) == CbRes(0, Reg(C))
    ensures DecodeCb(0x82) == CbRes(0, Reg(D))
    ensures DecodeCb(0x83) == CbRes(0, Reg(E))
    ensures DecodeCb(0x84) == CbRes(0, Reg(H))
    ensures DecodeCb(0x85) == CbRes(0, Reg(L))
    ensures DecodeCb(0x86) == CbRes(0, IndHL)
    ensures DecodeCb(0x87) == CbRes(0, Reg(A))
    ensures DecodeCb(0x88) == CbRes(1, Reg(B))
    ensures DecodeCb(0x89) == CbRes(1, Reg(C))
    ensures DecodeCb(0x8A) == CbRes(1, Reg(D))
    ensures DecodeCb(0x8B) == CbRes(1, Reg(E))
    ensures DecodeCb(0x8C) == CbRes(1, Reg(H))
    ensures DecodeCb(0x8D) == CbRes(1, Reg(L))
    ensures DecodeCb(0x8E) == CbRes(1, IndHL)
    ensures DecodeCb(0x8F) == CbRes(1, Reg(A))
    ensures DecodeCb(0x90) == CbRes(2, Reg(B))
    ensures DecodeCb(0x91) == CbRes(2, Reg(C))
    ensures DecodeCb(0x92) == CbRes(2, Reg(D))
    ensures DecodeCb(0x93) == CbRes(2, Reg(E))
    ensures DecodeCb(0x94) == CbRes(2, Reg(H))
    ensures DecodeCb(0x95) == CbRes(2, Reg(L))
    ensures DecodeCb(0x96) == CbRes(2, IndHL)
    ensures DecodeCb(0x97) == CbRes(2, Reg(A))
    ensures DecodeCb(0x98) == CbRes(3, Reg(B))
    ensures DecodeCb(0x99) == CbRes(3, Reg(C))
    ensures DecodeCb(0x9A) == CbRes(3, Reg(D))
    ensures DecodeCb(0x9B) == CbRes(3, Reg(E))
    ensures DecodeCb(0x9C) == CbRes(3, Reg(H))
    ensures DecodeCb(0x9D) == CbRes(3, Reg(L))
    ensures DecodeCb(0x9E) == CbRes(3, IndHL)
    ensures DecodeCb(0x9F) == CbRes(3, Reg(A))
  {
    DecodeCbTable80();
    DecodeCbTable84();
    DecodeCbTable88();
    DecodeCbTable8C();
    DecodeCbTable90();
    DecodeCbTable94();
    DecodeCbTable98();
    DecodeCbTable9C();
  }

  /** Cases 0xA0-0xBF of execute_normal_instructions. */
  lemma {:induction false} DecodeCasesA0()
    ensures Decode(0xA0) == AluA(Alu.AndOp, From(Reg(B)))
    ensures Decode(0xA1) == AluA(Alu.AndOp, From(Reg(C)))
    ensures Decode(0xA2) == AluA(Alu.AndOp, From(Reg(D)))
    ensures Decode(0xA3) == AluA(Alu.AndOp, From(Reg(E)))
    ensures Decode(0xA4) == AluA(Alu.AndOp, From(Reg(H)))
    ensures Decode(0xA5) == AluA(Alu.AndOp, From(Reg(L)))
    ensures Decode(0xA6) == AluA(Alu.AndOp, From(IndHL))
    ensures Decode(0xA7) == AluA(Alu.AndOp, From(Reg(A)))
    ensures Decode(0xA8) == AluA(Alu.XorOp, From(Reg(B)))
    ensures Decode(0xA9) == AluA(Alu.XorOp, From(Reg(C)))
    ensures Decode(0xAA) == AluA(Alu.XorOp, From(Reg(D)))
    ensures Decode(0xAB) == AluA(Alu.XorOp, From(Reg(E)))
    ensures Decode(0xAC) == AluA(Alu.XorOp, From(Reg(H)))
    ensures Decode(0xAD) == AluA(Alu.XorOp, From(Reg(L)))
    ensures Decode(0xAE) == AluA(Alu.XorOp, From(IndHL))
    ensures Decode(0xAF) == AluA(Alu.XorOp, From(Reg(A)))
    ensures Decode(0xB0) == AluA(Alu.OrOp, From(Reg(B)))
    ensures Decode(0xB1) == AluA(Alu.OrOp, From(Reg(C)))
    ensures Decode(0xB2) == AluA(Alu.OrOp, From(Reg(D)))
    ensures Decode(0xB3) == AluA(Alu.OrOp, From(Reg(E)))
    ensures Decode(0xB4) == AluA(Alu.OrOp, From(Reg(H)))
    ensures Decode(0xB5) == AluA(Alu.OrOp, From(Reg(L)))
    ensures Decode(0xB6) == AluA(Alu.OrOp, From(IndHL))
    ensures Decode(0xB7) == AluA(Alu.OrOp, From(Reg(A)))
    ensures Decode(0xB8) == AluA(Alu.CpOp, From(Reg(B)))
    ensures Decode(0xB9) == AluA(Alu.CpOp, From(Reg(C)))
    ensures Decode(0xBA) == AluA(Alu.CpOp, From(Reg(D)))
    ensures Decode(0xBB) == AluA(Alu.CpOp, From(Reg(E)))
    ensures Decode(0xBC) == AluA(Alu.CpOp, From(Reg(H)))
    ensures Decode(0xBD) == AluA(Alu.CpOp, From(Reg(L)))
    ensures Decode(0xBE) == AluA(Alu.CpOp, From(IndHL))
    ensures Decode(0xBF) == AluA(Alu.CpOp, From(Reg(A)))
  {
    DecodeTableA0();
    DecodeTableA4();
    DecodeTableA8();
    DecodeTableAC();
    DecodeTableB0();
    DecodeTableB4();
    DecodeTableB8();
    DecodeTableBC();
  }

  /** Cases 0xA0-0xBF of execute_cb_instructions. */
  lemma {:induction false} DecodeCbCasesA0()
    ensures DecodeCb(0xA0) == CbRes(4, Reg(B))
    ensures DecodeCb(0xA1) == CbRes(4, Reg(C))
    ensures DecodeCb(0xA2) == CbRes(4, Reg(D))
    ensures DecodeCb(0xA3) == CbRes(4, Reg(E))
    ensures DecodeCb(0xA4) == CbRes(4, Reg(H))
    ensures DecodeCb(0xA5) == CbRes(4, Reg(L))
    ensures DecodeCb(0xA6) == CbRes(4, IndHL)
    ensures DecodeCb(0xA7) == CbRes(4, Reg(A))
    ensures DecodeCb(0xA8) == CbRes(5, Reg(B))
    ensures DecodeCb(0xA9) == CbRes(5, Reg(C))
    ensures DecodeCb(0xAA) == CbRes(5, Reg(D))
    ensures DecodeCb(0xAB) == CbRes(5, Reg(E))
    ensures DecodeCb(0xAC) == CbRes(5, Reg(H))
    ensures DecodeCb(0xAD) == CbRes(5, Reg(L))
    ensures DecodeCb(0xAE) == CbRes(5, IndHL)
    ensures DecodeCb(0xAF) == CbRes(5, Reg(A))
    ensures DecodeCb(0xB0) == CbRes(6, Reg(B))
    ensures DecodeCb(0xB1) == CbRes(6, Reg(C))
    ensures DecodeCb(0xB2) == CbRes(6, Reg(D))
    ensures DecodeCb(0xB3) == CbRes(6, Reg(E))
    ensures DecodeCb(0xB4) == CbRes(6, Reg(H))
    ensures DecodeCb(0xB5) == CbRes(6, Reg(L))
    ensures DecodeCb(0xB6) == CbRes(6, IndHL)
    ensures DecodeCb(0xB7) == CbRes(6, Reg(A))
    ensures DecodeCb(0xB8) == CbRes(7, Reg(B))
    ensures DecodeCb(0xB9) == CbRes(7, Reg(C))
    ensures DecodeCb(0xBA) == CbRes(7, Reg(D))
    ensures DecodeCb(0xBB) == CbRes(7, Reg(E))
    ensures DecodeCb(0xBC) == CbRes(7, Reg(H))
    ensures DecodeCb(0xBD) == CbRes(7, Reg(L))
    ensures DecodeCb(0xBE) == CbRes(7, IndHL)
    ensures DecodeCb(0xBF) == CbRes(7, Reg(A))
  {
    DecodeCbTableA0();
    DecodeCbTableA4();
    DecodeCbTableA8();
    DecodeCbTableAC();
    DecodeCbTableB0();
    DecodeCbTableB4();
    DecodeCbTableB8();
    DecodeCbTableBC();
  }

  /** Cases 0xC0-0xDF of execute_normal_instructions. */
  lemma {:induction false} DecodeCasesC0()
    ensures Decode(0xC0) == RetCond(CondNZ)
    ensures Decode(0xC1) == Pop(BC)
    ensures Decode(0xC2) == JpCondNn(CondNZ)
    ensures Decode(0xC3) == JpNn
    ensures Decode(0xC4) == CallCondNn(CondNZ)
    ensures Decode(0xC5) == Push(BC)
    ensures Decode(0xC6) == AluA(Alu.AddOp, Imm)
    ensures Decode(0xC7) == Rst(0x00)
    ensures Decode(0xC8) == RetCond(CondZ)
    ensures Decode(0xC9) == Ret
    ensures Decode(0xCA) == JpCondNn(CondZ)
    ensures Decode(0xCB) == PrefixCb
    ensures Decode(0xCC) == CallCondNn(CondZ)
    ensures Decode(0xCD) == CallNn
    ensures Decode(0xCE) == AluA(Alu.AdcOp, Imm)
    ensures Decode(0xCF) == Rst(0x08)
    ensures Decode(0xD0) == RetCond(CondNC)
    ensures Decode(0xD1) == Pop(DE)
    ensures Decode(0xD2) == JpCondNn(CondNC)
    ensures Decode(0xD3) == Nop
    ensures Decode(0xD4) == CallCondNn(CondNC)
    ensures Decode(0xD5) == Push(DE)
    ensures Decode(0xD6) == AluA(Alu.SubOp, Imm)
    ensures Decode(0xD7) == Rst(0x10)
    ensures Decode(0xD8) == RetCond(CondC)
    ensures Decode(0xD9) == Reti
    ensures Decode(0xDA) == JpCondNn(CondC)
    ensures Decode(0xDB) == Nop
    ensures Decode(0xDC) == CallCondNn(CondC)
    ensures Decode(0xDD) == Nop
    ensures Decode(0xDE) == AluA(Alu.SbcOp, Imm)
    ensures Decode(0xDF) == Rst(0x18)
  {
    DecodeTableC0();
    DecodeTableC4();
    DecodeTableC8();
    DecodeTableCC();
    DecodeTableD0();
    DecodeTableD4();
    DecodeTableD8();
    DecodeTableDC();
  }

  /** Cases 0xC0-0xDF of execute_cb_instructions. */
  lemma {:induction false} DecodeCbCasesC0()
    ensures DecodeCb(0xC0) == CbSet(0, Reg(B))
    ensures DecodeCb(0xC1) == CbSet(0, Reg(C))
    ensures DecodeCb(0xC2) == CbSet(0, Reg(D))
    ensures DecodeCb(0xC3) == CbSet(0, Reg(E))
    ensures DecodeCb(0xC4) == CbSet(0, Reg(H))
    ensures DecodeCb(0xC5) == CbSet(0, Reg(L))
    ensures DecodeCb(0xC6) == CbSet(0, IndHL)
    ensures DecodeCb(0xC7) == CbSet(0, Reg(A))
    ensures DecodeCb(0xC8) == CbSet(1, Reg(B))
    ensures DecodeCb(0xC9) == CbSet(1, Reg(C))
    ensures DecodeCb(0xCA) == CbSet(1, Reg(D))
    ensures DecodeCb(0xCB) == CbSet(1, Reg(E))
    ensures DecodeCb(0xCC) == CbSet(1, Reg(H))
    ensures DecodeCb(0xCD) == CbSet(1, Reg(L))
    ensures DecodeCb(0xCE) == CbSet(1, IndHL)
    ensures DecodeCb(0xCF) == CbSet(1, Reg(A))
    ensures DecodeCb(0xD0) == CbSet(2, Reg(B))
    ensures DecodeCb(0xD1) == CbSet(2, Reg(C))
    ensures DecodeCb(0xD2) == CbSet(2, Reg(D))
    ensures DecodeCb(0xD3) == CbSet(2, Reg(E))
    ensures DecodeCb(0xD4) == CbSet(2, Reg(H))
    ensures DecodeCb(0xD5) == CbSet(2, Reg(L))
    ensures DecodeCb(0xD6) == CbSet(2, IndHL)
    ensures DecodeCb(0xD7) == CbSet(2, Reg(A))
    ensures DecodeCb(0xD8) == CbSet(3, Reg(B))
    ensures DecodeCb(0xD9) == CbSet(3, Reg(C))
    ensures DecodeCb(0xDA) == CbSet(3, Reg(D))
    ensures DecodeCb(0xDB) == CbSet(3, Reg(E))
    ensures DecodeCb(0xDC) == CbSet(3, Reg(H))
    ensures DecodeCb(0xDD) == CbSet(3, Reg(L))
    ensures DecodeCb(0xDE) == CbSet(3, IndHL)
    ensures DecodeCb(0xDF) == CbSet(3, Reg(A))
  {
    DecodeCbTableC0();
    DecodeCbTableC4();
    DecodeCbTableC8();
    DecodeCbTableCC();
    DecodeCbTableD0();
    DecodeCbTableD4();
    DecodeCbTableD8();
    DecodeCbTableDC();
  }

  /** Cases 0xE0-0xFF of execute_normal_instructions. */
  lemma {:induction false} DecodeCasesE0()
    ensures Decode(0xE0) == LdhNA
    ensures Decode(0xE1) == Pop(HL)
    ensures Decode(0xE2) == LdhRA(C)
    ensures Decode(0xE3) == Nop
    ensures Decode(0xE4) == Nop
    ensures Decode(0xE5) == Push(HL)
    ensures Decode(0xE6) == AluA(Alu.AndOp, Imm)
    ensures Decode(0xE7) == Rst(0x20)
    ensures Decode(0xE8) == AddSpI8
    ensures Decode(0xE9) == JpHl
    ensures Decode(0xEA) == LdIndNnA
    ensures Decode(0xEB) == Nop
    ensures Decode(0xEC) == Nop
    ensures Decode(0xED) == Nop
    ensures Decode(0xEE) == AluA(Alu.XorOp, Imm)
    ensures Decode(0xEF) == Rst(0x28)
    ensures Decode(0xF0) == LdhAN
    ensures Decode(0xF1) == Pop(AF)
    ensures Decode(0xF2) == LdhAR(C)
    ensures Decode(0xF3) == Di
    ensures Decode(0xF4) == Nop
    ensures Decode(0xF5) == Push(AF)
    ensures Decode(0xF6) == AluA(Alu.OrOp, Imm)
    ensures Decode(0xF7) == Rst(0x30)
    ensures Decode(0xF8) == LdHlSpI8
    ensures Decode(0xF9) == LdSpHl
    ensures Decode(0xFA) == LdAIndNn
    ensures Decode(0xFB) == Ei
    ensures Decode(0xFC) == Nop
    ensures Decode(0xFD) == Nop
    ensures Decode(0xFE) == AluA(Alu.CpOp, Imm)
    ensures Decode(0xFF) == Rst(0x38)
  {
    DecodeTableE0();
    DecodeTableE4();
    DecodeTableE8();
    DecodeTableEC();
    DecodeTableF0();
    DecodeTableF4();
    DecodeTableF8();
    DecodeTableFC();
  }

  /** Cases 0xE0-0xFF of execute_cb_instructions. */
  lemma {:induction false} DecodeCbCasesE0()
    ensures DecodeCb(0xE0) == CbSet(4, Reg(B))
    ensures DecodeCb(0xE1) == CbSet(4, Reg(C))
    ensures DecodeCb(0xE2) == CbSet(4, Reg(D))
    ensures DecodeCb(0xE3) == CbSet(4, Reg(E))
    ensures DecodeCb(0xE4) == CbSet(4, Reg(H))
    ensures DecodeCb(0xE5) == CbSet(4, Reg(L))
    ensures DecodeCb(0xE6) == CbSet(4, IndHL)
    ensures DecodeCb(0xE7) == CbSet(4, Reg(A))
    ensures DecodeCb(0xE8) == CbSet(5, Reg(B))
    ensures DecodeCb(0xE9) == CbSet(5, Reg(C))
    ensures DecodeCb(0xEA) == CbSet(5, Reg(D))
    ensures DecodeCb(0xEB) == CbSet(5, Reg(E))
    ensures DecodeCb(0xEC) == CbSet(5, Reg(H))
    ensures DecodeCb(0xED) == CbSet(5, Reg(L))
    ensures DecodeCb(0xEE) == CbSet(5, IndHL)
    ensures DecodeCb(0xEF) == CbSet(5, Reg(A))
    ensures DecodeCb(0xF0) == CbSet(6, Reg(B))
    ensures DecodeCb(0xF1) == CbSet(6, Reg(C))
    ensures DecodeCb(0xF2) == CbSet(6, Reg(D))
    ensures DecodeCb(0xF3) == CbSet(6, Reg(E))
    ensures DecodeCb(0xF4) == CbSet(6, Reg(H))
    ensures DecodeCb(0xF5) == CbSet(6, Reg(L))
    ensures DecodeCb(0xF6) == CbSet(6, IndHL)
    ensures DecodeCb(0xF7) == CbSet(6, Reg(A))
    ensures DecodeCb(0xF8) == CbSet(7, Reg(B))
    ensures DecodeCb(0xF9) == CbSet(7, Reg(C))
    ensures DecodeCb(0xFA) == CbSet(7, Reg(D))
    ensures DecodeCb(0xFB) == CbSet(7, Reg(E))
    ensures DecodeCb(0xFC) == CbSet(7, Reg(H))
    ensures DecodeCb(0xFD) == CbSet(7, Reg(L))
    ensures DecodeCb(0xFE) == CbSet(7, IndHL)
    ensures DecodeCb(0xFF) == CbSet(7, Reg(A))
  {
    DecodeCbTableE0();
    DecodeCbTableE4();
    DecodeCbTableE8();
    DecodeCbTableEC();
    DecodeCbTableF0();
    DecodeCbTableF4();
    DecodeCbTableF8();
    DecodeCbTableFC();
  }
}
