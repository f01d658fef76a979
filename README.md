# SM83 interpreter core, modelled in Dafny

This project models the instruction interpreter of a Game Boy emulator. The interpreter is the
Sharp SM83 CPU core in `lib/src/cpu.c`. It runs over the flat 64 KiB memory of `lib/src/mmu.c`
and uses the byte-packing macros of `lib/include/common.h`.

The model has four parts.

- **Specification functions (modules `Semantics`, `Machine`, `Alu`, `Isa`).** These are pure
  functions. Each handler of `cpu.c` becomes a function from the machine state before the
  handler to the state after it.
  - The state has the registers `a b c d e f h l pc sp`, the CPU mode and the 65536 bytes of
    memory.
  - The flag formulas of each handler are lifted into `Alu`.
  - The two 256-way switches become the decoders `Isa.Decode` and `Isa.DecodeCb`.
- **The imperative interpreter (class `Cpu.Cpu`).** Its fields are the registers, the mode and
  the `mem` array of length `0x10000`.
  - Every handler, both dispatch functions, `cpu_step` and `cpu_init` are methods.
  - Each method updates the fields in place, in the order the C code does: operand fetches
    post-increment `pc`, and the stack helpers move `sp` between memory accesses.
  - Each method is proved to leave exactly the state its `Semantics` function computes.
- **Properties (modules `Alu` and `Properties`).** Lemmas prove what the code promises about the
  specification functions:
  - the flag meanings, stated both as the C bit expressions and as arithmetic;
  - round trips (push/pop, inc/dec, rlc/rrc, swap, call/ret);
  - the low nibble of F, which stays clear;
  - the conditional transfers;
  - the modes that `cpu_step` never leaves.
- **`DecodeTables`.** This module states, byte by byte, which handler each `case` of both
  switches calls.

The model follows the code as written, including where it departs from the SM83 hardware it
emulates:

- **No illegal opcodes.** Every byte of both switches has a `case`, so the `default` branches
  cannot be reached. The twelve bytes 0x00, 0xD3, 0xDB, 0xDD, 0xE3, 0xE4, 0xEB, 0xEC, 0xED,
  0xF4, 0xFC and 0xFD have empty cases and only advance PC.
- **Interrupts.** `ei` and `di` have empty bodies, and `reti` is `ret` (setting IME is a TODO at
  `lib/src/cpu.c:874`). On the hardware, `ei` enables interrupts after one instruction.
- **Initialisation.** `cpu_init` sets only the mode (NORMAL) and PC (0). Every other register
  and the memory keep whatever they held.
- **HALT and STOP.** The code never leaves HALT or STOP: `cpu_step` does nothing outside
  NORMAL. The hardware leaves HALT when an interrupt is pending.
- **`stop`.** It is one byte long: it does not fetch a second byte.

## Model

| member | source | states |
|---|---|---|
| Common.ToU16Bits | lib/include/common.h:14 | `TO_U16(lsb, msb)`, written as the macro's shift-and-or, equals `msb * 256 + lsb`, a value below 65536 |
| Common.LsbBits | lib/include/common.h:16 | `LSB(nn)`, written as `nn & 0xff`, is `nn mod 256` |
| Common.MsbBits | lib/include/common.h:15 | `MSB(nn)`, written as `(nn >> 8) & 0xff`, is `nn / 256`, the high byte of a 16-bit value |
| Common.JoinSplit | lib/include/common.h:14-16 | `TO_U16(LSB(x), MSB(x)) == x` for every 16-bit `x` |
| Common.SplitJoin | lib/include/common.h:14-16 | `LSB(TO_U16(l, m)) == l` and `MSB(TO_U16(l, m)) == m` for all bytes `l`, `m` |
| Common.MaskedLsb | lib/src/cpu.c:49-51 | `LSB(x) & 0xf0`, the value `set_r16` stores into F, is the low byte of `x` with its low nibble cleared |
| Mmu.Read | lib/src/mmu.c:8-11 | `mmu_read` returns the byte stored at the address. Memory has exactly GB_MEM_SIZE = 0x10000 bytes (lib/include/common.h:9), so every 16-bit address is in bounds |
| Mmu.Write | lib/src/mmu.c:3-6 | after `mmu_write`, the address holds the value and every other address is unchanged |
| Mmu.ReadAfterWrite | lib/src/mmu.c:3-11 | reading the written address gives the written value; reading any other address gives its old value |
| Mmu.WriteOwnValue | lib/src/mmu.c:3-11 | writing back the byte just read leaves memory unchanged |
| Mmu.WritesCommute | lib/src/mmu.c:3-6 | writes to two different addresses can be swapped |
| Mmu.LastWriteWins | lib/src/mmu.c:3-6 | of two writes to one address, only the second is visible |
| Machine.SetR8 | lib/src/cpu.c:88-118 | `set_r8` gives the named register the value and leaves the other registers, F, PC and SP unchanged |
| Machine.SetR16 | lib/src/cpu.c:33-61 | a write to AF leaves F's low nibble clear; a write to any other pair leaves F unchanged |
| Machine.SetR16ReadBack | lib/src/cpu.c:3-61 | `get_r16` after `set_r16` returns the written value for BC, DE, HL, SP and PC, and for AF the value with its low nibble cleared |
| Machine.SetR16Elsewhere | lib/src/cpu.c:3-61 | `set_r16` on one pair leaves every other pair's `get_r16` value unchanged |
| Machine.SetR16Own | lib/src/cpu.c:3-61 | writing back a pair's own value changes nothing (for AF, when F's low nibble is clear) |
| Machine.SplitPair | lib/src/cpu.c:3-31 | `get_r16` puts the first register of the pair in the high byte and the second in the low byte |
| Machine.SetR16Twice | lib/src/cpu.c:33-61 | of two writes to a pair, only the second is visible |
| Machine.AfMask | lib/src/cpu.c:49-51 | `LSB(v) & 0xf0` is a byte with a clear low nibble, and joined with `MSB(v)` it gives `v` with its low nibble cleared |
| Machine.SetFlags | lib/src/cpu.c:120-141 | the flag helpers of a handler set Z, N, H and C to the given flags and keep F's low nibble and every other register |
| Machine.CheckCond | lib/src/cpu.c:143-168 | `check_cond` holds for C/NC/Z/NZ exactly when bit 4 (C) or bit 7 (Z) of F is set or clear |
| Machine.CheckCondMeaning | lib/src/cpu.c:143-168 | Z and NZ are the Z flag and its negation; C and NC are the C flag and its negation |
| Machine.Inc16 | lib/src/cpu.c:797-802 | a 16-bit increment wraps from 0xffff to 0 |
| Machine.Dec16 | lib/src/cpu.c:804-809 | a 16-bit decrement wraps from 0 to 0xffff |
| Machine.StackPushLayout | lib/src/cpu.c:193-199 | `stack_push` stores the high byte at SP-1 and the low byte at SP-2 (wrapping), leaves SP-2 and changes no other address or register |
| Machine.PushThenPop | lib/src/cpu.c:193-208 | `stack_pop` after `stack_push(v)` returns `v` and restores SP and every other register |
| Machine.WriteLoc | lib/src/cpu.c:88-118 | storing into a register or into (HL) makes that operand read back the stored byte, and keeps F, PC, SP and the mode; a register store keeps the memory and the other six registers, a store at HL keeps every register and is exactly one mmu_write at HL |
| Isa.LocOf | lib/src/cpu.c:1268-1275 | the operand columns 0-7 of both opcode tables are B, C, D, E, H, L, (HL), A, and only column 6 is (HL) |
| Isa.LocIndex | lib/src/cpu.c:1268-1275 | every operand has a column, and LocOf of that column gives the operand back |
| Isa.PairOf | lib/src/cpu.c:1536-1586 | the pair field of rows 0x00-0x3F selects BC, DE, HL or SP |
| Isa.StackPairOf | lib/src/cpu.c:1728-1780 | the pair field of push and pop selects BC, DE, HL or AF |
| DecodeTables.DecodeCases00 | lib/src/cpu.c:1535-1566 | cases 0x00-0x1F of `execute_normal_instructions`: each byte's handler and arguments (including stop at 0x10 and the empty case 0x00) |
| DecodeTables.DecodeCases20 | lib/src/cpu.c:1567-1598 | cases 0x20-0x3F: each byte's handler and arguments |
| DecodeTables.DecodeCases40 | lib/src/cpu.c:1599-1630 | cases 0x40-0x5F: the register loads, including the self-moves 0x40, 0x49, 0x52, 0x5B |
| DecodeTables.DecodeCases60 | lib/src/cpu.c:1631-1662 | cases 0x60-0x7F: the register loads, with halt at 0x76 |
| DecodeTables.DecodeCases80 | lib/src/cpu.c:1663-1694 | cases 0x80-0x9F: add, adc, sub and sbc on each operand |
| DecodeTables.DecodeCasesA0 | lib/src/cpu.c:1695-1726 | cases 0xA0-0xBF: and, xor, or and cp on each operand |
| DecodeTables.DecodeCasesC0 | lib/src/cpu.c:1727-1758 | cases 0xC0-0xDF: each byte's handler, with the prefix 0xCB and the empty cases 0xD3, 0xDB, 0xDD |
| DecodeTables.DecodeCasesE0 | lib/src/cpu.c:1759-1790 | cases 0xE0-0xFF: each byte's handler, with di at 0xF3, ei at 0xFB and the empty cases 0xE3, 0xE4, 0xEB-0xED, 0xF4, 0xFC, 0xFD |
| DecodeTables.DecodeCbCases00 | lib/src/cpu.c:1268-1299 | cases 0x00-0x1F of `execute_cb_instructions`: rlc, rrc, rl and rr on each operand |
| DecodeTables.DecodeCbCases20 | lib/src/cpu.c:1300-1331 | CB cases 0x20-0x3F: sla, sra, swap and srl on each operand |
| DecodeTables.DecodeCbCases40 | lib/src/cpu.c:1332-1363 | CB cases 0x40-0x5F: bit 0-3 on each operand |
| DecodeTables.DecodeCbCases60 | lib/src/cpu.c:1364-1395 | CB cases 0x60-0x7F: bit 4-7 on each operand |
| DecodeTables.DecodeCbCases80 | lib/src/cpu.c:1396-1427 | CB cases 0x80-0x9F: res 0-3 on each operand |
| DecodeTables.DecodeCbCasesA0 | lib/src/cpu.c:1428-1459 | CB cases 0xA0-0xBF: res 4-7 on each operand |
| DecodeTables.DecodeCbCasesC0 | lib/src/cpu.c:1460-1491 | CB cases 0xC0-0xDF: set 0-3 on each operand |
| DecodeTables.DecodeCbCasesE0 | lib/src/cpu.c:1492-1523 | CB cases 0xE0-0xFF: set 4-7 on each operand |
| Alu.FlagBit | lib/include/cpu.h:34-39 | each flag mask is a single bit: C is bit 4, H bit 5, N bit 6, Z bit 7 |
| Alu.GetFlag | lib/src/cpu.c:120-123 | `get_flag` is true exactly when the flag's bit of F is set |
| Alu.SetFlag | lib/src/cpu.c:125-128 | `set_flag` sets its flag and keeps the other three flags and the low nibble |
| Alu.ResetFlag | lib/src/cpu.c:130-133 | `reset_flag` clears its flag and keeps the other three flags and the low nibble |
| Alu.ToggleFlag | lib/src/cpu.c:135-141 | `toggle_flag(flag, val)` makes the flag equal `val` and keeps the other three flags and the low nibble |
| Alu.FlagsOfGetFlag | lib/src/cpu.c:120-123 | the four flags the model reads from F are the four values `get_flag` returns |
| Alu.FlagBits | lib/include/cpu.h:34-39 | the byte the four flags make up is below 256 and has a clear low nibble |
| Alu.WithFlags | lib/src/cpu.c:125-141 | replacing the flags of F gives exactly those flags and keeps the low nibble |
| Alu.FlagBitsOf | lib/include/cpu.h:34-39 | a low nibble plus the flag byte is a byte whose flags and low nibble are the ones put in |
| Alu.SplitF | lib/include/cpu.h:34-39 | F is its low nibble plus the byte of its four flags |
| Alu.FlagsDetermineF | lib/include/cpu.h:34-39 | two F values with the same flags and the same low nibble are equal |
| Alu.WithOwnFlags | lib/src/cpu.c:135-141 | giving F back its own flags changes nothing |
| Alu.TogglesSetFlags | lib/src/cpu.c:135-141 | four `toggle_flag` calls, on Z, N, H and C, set F's flags to the four values and keep its low nibble |
| Alu.CarryOut | lib/src/cpu.c:415-416 | for a sum below `2p`, the C test `sum & p` is nonzero exactly when the sum reaches `p` (the carry out of the bit below `p`) |
| Alu.BorrowOut | lib/src/cpu.c:492-493 | for a difference in `[-p, p)`, taken as a C `int`, the test `diff & p` is nonzero exactly when the difference is negative (a borrow) |
| Alu.CarryFrom | lib/src/cpu.c:415-416 | the carry test on `x + y + z` masked to `p` is set exactly when the masked parts sum to at least `p` |
| Alu.BorrowFrom | lib/src/cpu.c:492-493 | the borrow test on `x - y - z` masked to `p` is set exactly when the masked `x` is smaller than masked `y` plus `z` |
| Alu.Add8Sum | lib/src/cpu.c:407-482 | add/adc: the new A plus 256 when C is set equals `A + x + carry`, so A is the sum mod 256 and C says it exceeded 0xFF; Z holds exactly when A is 0; N is clear |
| Alu.Add8Bits | lib/src/cpu.c:413-416 | add/adc: H is the handler's `((a & 0xf) + (x & 0xf) + c) & 0x10` test and C its `& 0x100` test; both are carries out of bits 3 and 7 |
| Alu.Sub8Difference | lib/src/cpu.c:484-559 | sub/sbc: the new A equals `A - x - carry`, plus 256 when C is set, so A is the difference mod 256 and C says A was below `x + carry`; Z holds exactly when A is 0; N is set |
| Alu.Sub8Bits | lib/src/cpu.c:490-493 | sub/sbc: the handler's `((a & 0xf) - (x & 0xf) - c) & 0x10` test, on C `int`s, is a borrow from bit 4 (low nibble of A below that of `x` plus carry), and the `& 0x100` test is a borrow from bit 8 |
| Alu.Inc8Meaning | lib/src/cpu.c:387-395 | inc: the byte wraps mod 256; Z holds exactly when the old byte was 0xFF; H holds exactly when its low nibble was 0xF, the carry out of bit 3 |
| Alu.Dec8Meaning | lib/src/cpu.c:397-405 | dec: the byte wraps mod 256; Z holds exactly when the old byte was 1; H holds exactly when its low nibble was 0, the borrow from bit 4 |
| Alu.IncDecInverse | lib/src/cpu.c:387-405 | dec after inc, and inc after dec, restore the byte; C is left as it was |
| Alu.And8Bits | lib/src/cpu.c:561-596 | bit `i` of `A & x` is set exactly when bit `i` is set in both |
| Alu.Xor8Bits | lib/src/cpu.c:598-633 | bit `i` of `A ^ x` is set exactly when the two bits differ |
| Alu.Or8Bits | lib/src/cpu.c:635-670 | bit `i` of `A \| x` is set exactly when either bit is set |
| Alu.LogicSums | lib/src/cpu.c:561-670 | `(a & x) + (a \| x) == a + x` and `(a ^ x) + 2 * (a & x) == a + x` |
| Alu.SelfLogic | lib/src/cpu.c:561-670 | `xor a` clears A and sets Z; `and a` and `or a` leave A unchanged |
| Alu.Alu8Flags | lib/src/cpu.c:407-704 | for the eight accumulator operations: N is set exactly for sub, sbc and cp; cp leaves A and has sub's flags; Z says the new A is 0; and sets H; and, xor and or clear C; xor and or clear H |
| Alu.AddThenSub | lib/src/cpu.c:407-519 | sub of `x` after add of `x` restores A, and both report the same C |
| Alu.CompareFlags | lib/src/cpu.c:672-704 | cp sets Z exactly when A equals the operand and C exactly when A is below it |
| Alu.AddHlSum | lib/src/cpu.c:786-795 | add_hl_rr: the new HL plus 0x10000 when C is set equals `HL + rr` |
| Alu.AddHlBits | lib/src/cpu.c:791-794 | add_hl_rr: H is the carry out of bit 11 and C the carry out of bit 15, the handler's `& 0x1000` and `& 0x10000` tests |
| Alu.SignedRoundTrip | lib/src/cpu.c:766 | `(int8_t)i8` lies in -128..127 and converts back to the same byte |
| Alu.OffsetFlagsBits | lib/src/cpu.c:760-784 | add_sp_i8/ld_hl_sp_plus_i8: H and C come from the unsigned sums of the low nibbles and the low bytes of SP and the raw byte, as carries out of bits 3 and 7 |
| Alu.OffsetLowByte | lib/src/cpu.c:760-771 | SP plus the sign-extended byte has, with C, the low byte of `SP + i8` unsigned; subtracting the signed byte again gives SP back |
| Alu.OffsetInverse | lib/src/cpu.c:760-771 | moving SP by `i8` and then by the byte of `-i8` returns to SP (for every byte except 0x80) |
| Alu.DaaAfterAddValue | lib/src/cpu.c:734-737 | daa with N clear leaves A plus the BCD correction (0x60 for a carry or A above 0x99, 0x06 for a half-carry or a low digit above 9) modulo 0x100; Z says that sum is 0, and C is set exactly when the 0x60 correction was made |
| Alu.DaaLowDigitDecimal | lib/src/cpu.c:736 | the second correction leaves A alone when H is clear and the low digit is at most 9; a low digit above 9 becomes that digit minus 10 and carries one into the high digit, which wraps past 0xF; with H set and a low digit at most 9 it adds 6 to the low digit and keeps the high one |
| Alu.DaaLowDigitMask | lib/src/cpu.c:736 | the low digit daa tests, `a & 0x0f`, is `a mod 16` |
| Alu.DaaAfterSub | lib/src/cpu.c:737-740 | daa with N set: A minus 0x60 (when C) minus 0x06 (when H), mod 256; C unchanged; Z says A is 0; N set, H clear |
| Alu.Daa | lib/src/cpu.c:730-745 | daa always recomputes Z, clears H and keeps N; C is never cleared, and is kept after a subtraction |
| Alu.DaaKeepsDecimal | lib/src/cpu.c:730-745 | A = 0x45 with no flags stays 0x45, with Z and C clear |
| Alu.DaaWrapsHundred | lib/src/cpu.c:730-745 | A = 0x9A with no flags becomes 0x00, with Z and C set |
| Alu.Cpl | lib/src/cpu.c:747-752 | cpl makes A `0xFF - A`, sets N and H and keeps Z and C |
| Alu.CplTwice | lib/src/cpu.c:747-752 | cpl twice restores A |
| Alu.ScfFlagCalls | lib/src/cpu.c:1237-1242 | scf's reset_flag(N), reset_flag(H), set_flag(C) leave F with Z kept, N and H clear, C set, and the low nibble unchanged |
| Alu.Ccf | lib/src/cpu.c:1228-1235 | ccf clears N and H, inverts C and keeps Z |
| Alu.Rlc8Bits | lib/src/cpu.c:994-1017 | rlc: the C expression `(v << 1) \| ((v & 0x80) >> 7)` and its C test compute the model's rotate and bit 7 |
| Alu.Rrc8Bits | lib/src/cpu.c:1019-1042 | rrc: `(v >> 1) \| ((v & 1) << 7)` and its C test compute the model's rotate and bit 0 |
| Alu.Rl8Bits | lib/src/cpu.c:1044-1069 | rl: `(v << 1) \| old_c` and the `v & 0x80` test compute the model's rotate through carry |
| Alu.Rr8Bits | lib/src/cpu.c:1071-1096 | rr: `(v >> 1) \| (old_c << 7)` and the `v & 1` test compute the model's rotate through carry |
| Alu.Sla8Bits | lib/src/cpu.c:1098-1121 | sla: the new byte plus 256 when C is set is `2 * v`; C is bit 7 of `v` |
| Alu.Sra8Bits | lib/src/cpu.c:1123-1146 | sra: `(v >> 1) \| (v & 0x80)` and the `v & 1` test compute the model's shift |
| Alu.SraKeepsSign | lib/src/cpu.c:1123-1146 | sra keeps bit 7, and its bits 0-6 are `v / 2` |
| Alu.Swap8Bits | lib/src/cpu.c:1148-1169 | swap: `(v << 4) \| (v >> 4)`, truncated to a byte, computes the model's nibble exchange |
| Alu.Srl8Bits | lib/src/cpu.c:1171-1194 | srl: C is the `v & 1` test |
| Alu.ShiftFlags | lib/src/cpu.c:994-1194 | the CB rotates and shifts set Z from the result and clear N and H; C is the bit shifted out (bit 7 for rlc/rl/sla, bit 0 for rrc/rr/sra/srl); swap clears C |
| Alu.RlcThenRrc | lib/src/cpu.c:994-1042 | rrc after rlc restores the byte, and both report the same C |
| Alu.RlThenRr | lib/src/cpu.c:1044-1096 | rr after rl, fed the C that rl produced, restores the byte and the old C |
| Alu.SwapTwice | lib/src/cpu.c:1148-1169 | swap twice is the identity |
| Alu.SlaThenSrl | lib/src/cpu.c:1098-1194 | srl after sla gives the byte with bit 7 cleared |
| Alu.RotateAMeaning | lib/src/cpu.c:972-992 | rlca/rrca at cpu.c:972-992, rla/rra at cpu.c:1196-1220: rlca and rla shift left, move bit 7 into C, and fill bit 0 with the old bit 7 (rlca) or the old C (rla); rrca and rra do the same to the right; Z, N and H are always clear |
| Alu.RotateAThenBack | lib/src/cpu.c:972-992 | rlca/rrca at cpu.c:972-992, rla/rra at cpu.c:1196-1220: rrca undoes rlca, and rra, rotating through the carry rla left, undoes rla and restores A and C |
| Alu.TestBitMeaning | lib/src/cpu.c:817-831 | bit n sets Z exactly when `v & (1 << n)` is 0, that is when bit n is clear; H is set, N clear, C kept |
| Alu.SetBitMeaning | lib/src/cpu.c:833-846 | set n makes bit n 1 and keeps every other bit |
| Alu.ResBitMeaning | lib/src/cpu.c:848-861 | res n makes bit n 0 and keeps every other bit |
| Alu.TestAfterSetRes | lib/src/cpu.c:817-861 | bit n after set n reports a set bit (Z clear); after res n it reports a clear bit (Z set) |
| Alu.SetResAbsorb | lib/src/cpu.c:833-861 | res after set equals res alone, and set after res equals set alone |
| Properties.ExecCbKeepsLowNibble | lib/src/cpu.c:1263-1528 | no CB handler changes the low nibble of F |
| Properties.ExecLowNibble | lib/src/cpu.c:1530-1795 | every base handler either keeps F's low nibble or, through `set_r16` on AF (pop af), clears it |
| Properties.StepKeepsCleanF | lib/src/cpu.c:1797-1806 | if F's low nibble is clear, it is still clear after `cpu_step` |
| Properties.RunKeepsCleanF | lib/src/cpu.c:1797-1806 | the same holds after any number of steps |
| Properties.StepOutsideNormal | lib/src/cpu.c:1797-1806 | `cpu_step` changes nothing outside NORMAL mode |
| Properties.RunOutsideNormal | lib/src/cpu.c:1797-1806 | once the mode is not NORMAL, no number of steps changes anything: nothing returns to NORMAL |
| Properties.HaltAndStop | lib/src/cpu.c:1245-1253 | opcode 0x76 (halt) and 0x10 (stop) only advance PC by one and set HALT and STOP; every later step leaves the state as it is |
| Properties.InitThenStep | lib/src/cpu.c:1808-1812 | `cpu_init` sets NORMAL and PC 0 and keeps the other registers and memory; the next step runs the opcode at address 0 |
| Properties.SilentStep | lib/src/cpu.c:1535-1790 | an empty case, di, ei or a self-move only advances PC by one |
| Properties.EmptyOpcodes | lib/src/cpu.c:1535-1790 | bytes 0x00, 0xD3, 0xDB, 0xDD, 0xE3, 0xE4, 0xEB-0xED, 0xF4, 0xFC and 0xFD have empty cases |
| Properties.InterruptOpcodes | lib/src/cpu.c:1255-1261 | di (0xF3) and ei (0xFB) do nothing |
| Properties.SelfLoadOpcodes | lib/src/cpu.c:1599-1662 | 0x40, 0x49, 0x52, 0x5B, 0x64, 0x6D and 0x7F load a register from itself |
| Properties.PrefixStep | lib/src/cpu.c:1263-1266 | the prefix 0xCB fetches a second byte: PC advances by two, and SP and the mode are kept |
| Properties.PushThenPopPair | lib/src/cpu.c:368-379 | `pop_rr` after `push_rr` of the same pair restores every register (for AF, when F's low nibble is clear) |
| Properties.IncThenDec | lib/src/cpu.c:387-405 | dec after inc of a register or of (HL) restores it and keeps C |
| Properties.FlaggedKeepsLoc | lib/src/cpu.c:120-141 | the flag helpers change no 8-bit operand, no memory byte and not the mode |
| Properties.SetResOnlyOperand | lib/src/cpu.c:833-861 | set and res write bit n of the operand and change nothing else: F, PC, SP, the mode, the other registers and every other memory byte are kept |
| Properties.IncRrThenDecRr | lib/src/cpu.c:797-809 | inc_rr changes no flag, and dec_rr after inc_rr restores the whole state |
| Properties.AddHlRrMeaning | lib/src/cpu.c:786-795 | add_hl_rr: HL plus C times 0x10000 is the exact sum; Z is kept and N cleared; nothing but H, L and F changes |
| Properties.LdHlSpMatchesAddSp | lib/src/cpu.c:760-784 | ld_hl_sp_plus_i8 puts into HL the SP that add_sp_i8 would produce, with the same flags, and leaves SP unchanged |
| Properties.ConditionalJump | lib/src/cpu.c:915-924 | jp cc always fetches both operand bytes; it jumps to the little-endian target exactly when the condition holds, and otherwise leaves PC past the operands and everything else unchanged |
| Properties.ConditionalRelativeJump | lib/src/cpu.c:926-934 | jr cc always fetches the offset; it moves PC by the signed offset from the next instruction exactly when the condition holds |
| Properties.ConditionalCall | lib/src/cpu.c:954-964 | call cc always fetches the target; when the condition is false it only moves PC past the operands; when true it pushes that PC (high byte at SP-1, low at SP-2), lowers SP by 2 and jumps, keeping the mode and every other memory byte |
| Properties.CallThenRet | lib/src/cpu.c:884-888 | ret after call_nn returns to the instruction after the call, with SP restored |
| Properties.ConditionalReturn | lib/src/cpu.c:890-897 | ret cc pops PC exactly when the condition holds, and otherwise changes nothing |
| Properties.RstThenRet | lib/src/cpu.c:877-888 | rst jumps to its vector, and ret after it restores every register |
| Cpu.Cpu.constructor | lib/include/gb.h:11-43 | a CPU object holds the registers, mode and memory of a given machine state |
| Cpu.Cpu.MmuRead | lib/src/mmu.c:8-11 | reads `mem[addr]` and changes nothing |
| Cpu.Cpu.MmuWrite | lib/src/mmu.c:3-6 | sets `mem[addr]` and changes no other address and no register |
| Cpu.Cpu.CpuRead | lib/src/cpu.c:181-185 | reads the byte at the address |
| Cpu.Cpu.CpuWrite | lib/src/cpu.c:187-191 | writes the byte at the address |
| Cpu.Cpu.FetchByte | lib/src/cpu.c:216-218 | `cpu_read(gb, pc++)`: returns the byte at PC and advances PC by one, wrapping |
| Cpu.Cpu.GetR16 | lib/src/cpu.c:3-31 | returns the pair, high register first |
| Cpu.Cpu.SetR16 | lib/src/cpu.c:33-61 | writes `MSB` and `LSB` into the pair's registers; F receives `LSB & 0xf0` |
| Cpu.Cpu.GetR8 | lib/src/cpu.c:63-86 | returns the named register |
| Cpu.Cpu.SetR8 | lib/src/cpu.c:88-118 | writes the named register only |
| Cpu.Cpu.SetFlag | lib/src/cpu.c:125-128 | `f \|= flag` |
| Cpu.Cpu.ResetFlag | lib/src/cpu.c:130-133 | `f &= ~flag` |
| Cpu.Cpu.ToggleFlag | lib/src/cpu.c:135-141 | sets or clears the flag according to `val` |
| Cpu.Cpu.UpdateFlags | lib/src/cpu.c:135-141 | a handler's four `toggle_flag`/`set_flag`/`reset_flag` calls leave exactly the four given flags |
| Cpu.Cpu.StackPush | lib/src/cpu.c:193-199 | decrements SP, writes the high byte, decrements SP, writes the low byte |
| Cpu.Cpu.StackPop | lib/src/cpu.c:201-208 | reads the low byte, increments SP, reads the high byte, increments SP, and returns the joined word |
| Cpu.Cpu.ReadLoc | lib/src/cpu.c:286-292 | reads a register or the byte at HL |
| Cpu.Cpu.WriteLoc | lib/src/cpu.c:294-307 | writes a register or the byte at HL |
| Cpu.Cpu.LdIndirectNnA | lib/src/cpu.c:216-222 | stores A at the little-endian address after the opcode; PC advances by two |
| Cpu.Cpu.LdAIndirectNn | lib/src/cpu.c:224-230 | loads A from the little-endian address after the opcode; PC advances by two |
| Cpu.Cpu.LdLocN | lib/src/cpu.c:232-237 | stores the byte after the opcode into a register or at HL (ld_indirect_hl_n, lines 301-307) |
| Cpu.Cpu.LdIndirectRrA | lib/src/cpu.c:239-244 | stores A at the address in BC or DE |
| Cpu.Cpu.LdAIndirectRr | lib/src/cpu.c:309-314 | loads A from the address in BC or DE |
| Cpu.Cpu.LddIndirectHlA | lib/src/cpu.c:246-252 | stores A at HL, then decrements HL (wrapping) |
| Cpu.Cpu.LddAIndirectHl | lib/src/cpu.c:254-261 | loads A from HL, then decrements HL (wrapping) |
| Cpu.Cpu.LdiIndirectHlA | lib/src/cpu.c:263-269 | stores A at HL, then increments HL (wrapping) |
| Cpu.Cpu.LdiAIndirectHl | lib/src/cpu.c:271-277 | loads A from HL, then increments HL (wrapping) |
| Cpu.Cpu.Ld8 | lib/src/cpu.c:286-299 | copies a register or (HL) into a register or (HL) (rows 0x40-0x7F) |
| Cpu.Cpu.LdhRA | lib/src/cpu.c:279-284 | stores A at 0xFF00 plus the named register (C in case 0xE2) |
| Cpu.Cpu.LdhNA | lib/src/cpu.c:316-321 | stores A at 0xFF00 plus the byte after the opcode |
| Cpu.Cpu.LdhAN | lib/src/cpu.c:323-328 | loads A from 0xFF00 plus the byte after the opcode |
| Cpu.Cpu.LdhAR | lib/src/cpu.c:330-335 | loads A from 0xFF00 plus the named register (C in case 0xF2) |
| Cpu.Cpu.LdSpHl | lib/src/cpu.c:343-348 | SP becomes HL |
| Cpu.Cpu.LdRrNn | lib/src/cpu.c:350-356 | the pair receives the little-endian word after the opcode |
| Cpu.Cpu.LdIndirectNnSp | lib/src/cpu.c:358-366 | stores SP, low byte first, at the address after the opcode and the next address |
| Cpu.Cpu.PushRr | lib/src/cpu.c:368-372 | pushes the pair |
| Cpu.Cpu.PopRr | lib/src/cpu.c:374-379 | pops into the pair through `set_r16`, so a pop into AF clears F's low nibble |
| Cpu.Cpu.IncLoc | lib/src/cpu.c:387-395 | inc of a register or of (HL) (inc_indirect_hl, lines 706-716): the byte wraps, Z, N and H as Alu.Inc8Meaning states, C kept |
| Cpu.Cpu.DecLoc | lib/src/cpu.c:397-405 | dec of a register or of (HL) (dec_indirect_hl, lines 718-728): the byte wraps, Z, N and H as Alu.Dec8Meaning states, C kept |
| Cpu.Cpu.AluA | lib/src/cpu.c:407-704 | the 24 accumulator handlers: A and the flags become Alu8 of A and a register, (HL) or the fetched byte; cp leaves A |
| Cpu.Cpu.Daa | lib/src/cpu.c:730-745 | A and the flags become Alu.Daa of A and the flags |
| Cpu.Cpu.Cpl | lib/src/cpu.c:747-752 | A is complemented; N and H are set |
| Cpu.Cpu.AddSpI8 | lib/src/cpu.c:760-771 | fetches the offset byte; SP moves by it, sign-extended; Z and N are cleared; H and C are as Alu.OffsetFlagsBits states |
| Cpu.Cpu.LdHlSpPlusI8 | lib/src/cpu.c:773-784 | HL becomes SP moved by the sign-extended byte, with add_sp_i8's flags; SP is kept |
| Cpu.Cpu.AddHlRr | lib/src/cpu.c:786-795 | HL becomes `HL + rr` mod 0x10000, with Z kept, N cleared, and H and C as Alu.AddHlBits states |
| Cpu.Cpu.IncRr | lib/src/cpu.c:797-802 | the pair is incremented, wrapping; no flag changes |
| Cpu.Cpu.DecRr | lib/src/cpu.c:804-809 | the pair is decremented, wrapping; no flag changes |
| Cpu.Cpu.BitN | lib/src/cpu.c:817-831 | only the flags change, to Alu.TestBit of the operand |
| Cpu.Cpu.SetN | lib/src/cpu.c:833-846 | the operand gets bit n set; no flag changes |
| Cpu.Cpu.ResN | lib/src/cpu.c:848-861 | the operand gets bit n cleared; no flag changes |
| Cpu.Cpu.Ret | lib/src/cpu.c:884-888 | PC is popped (reti, lines 869-875, does the same and nothing more) |
| Cpu.Cpu.RstN | lib/src/cpu.c:877-882 | pushes PC and jumps to the vector |
| Cpu.Cpu.RetF | lib/src/cpu.c:890-897 | pops PC when the condition holds |
| Cpu.Cpu.JpHl | lib/src/cpu.c:899-904 | PC becomes HL |
| Cpu.Cpu.JpNn | lib/src/cpu.c:906-913 | PC becomes the little-endian word after the opcode |
| Cpu.Cpu.JpFNn | lib/src/cpu.c:915-924 | fetches the target and jumps to it when the condition holds |
| Cpu.Cpu.JrFI8 | lib/src/cpu.c:926-934 | fetches the offset and, when the condition holds, moves PC by it sign-extended |
| Cpu.Cpu.JrI8 | lib/src/cpu.c:936-942 | fetches the offset and moves PC by it sign-extended |
| Cpu.Cpu.CallNn | lib/src/cpu.c:944-952 | fetches the target, pushes the PC after it, and jumps |
| Cpu.Cpu.CallFNn | lib/src/cpu.c:954-964 | fetches the target and, when the condition holds, pushes the PC after it and jumps |
| Cpu.Cpu.RotateA | lib/src/cpu.c:972-992 | rlca, rrca, rla and rra (lines 1196-1220): A and the flags become Alu.RotateA of A, with Z cleared |
| Cpu.Cpu.ShiftLoc | lib/src/cpu.c:994-1194 | the CB rotates and shifts of a register or of (HL): the operand and the flags become Alu.Shift of the operand |
| Cpu.Cpu.Scf | lib/src/cpu.c:1237-1242 | N and H are cleared and C is set |
| Cpu.Cpu.Ccf | lib/src/cpu.c:1228-1235 | N and H are cleared and C is inverted |
| Cpu.Cpu.Halt | lib/src/cpu.c:1245-1248 | only the mode changes, to HALT |
| Cpu.Cpu.Stop | lib/src/cpu.c:1250-1253 | only the mode changes, to STOP |
| Cpu.Cpu.ExecuteCb | lib/src/cpu.c:1263-1528 | fetches the byte after 0xCB and runs its case |
| Cpu.Cpu.Execute | lib/src/cpu.c:1530-1795 | runs the handler that an opcode's case calls, with its arguments; empty cases, di and ei change nothing |
| Cpu.Cpu.ExecuteLow | lib/src/cpu.c:1535-1598 | Execute for the handlers of rows 0x00-0x3F |
| Cpu.Cpu.ExecuteHigh | lib/src/cpu.c:1599-1790 | Execute for the loads, accumulator operations, stack and control handlers, and the prefix |
| Cpu.Cpu.ExecuteNormal | lib/src/cpu.c:1530-1795 | fetches the opcode at PC and runs its case |
| Cpu.Cpu.Step | lib/src/cpu.c:1797-1806 | runs one instruction in NORMAL mode and nothing in any other mode |
| Cpu.Cpu.Init | lib/src/cpu.c:1808-1812 | sets the mode to NORMAL and PC to 0, and nothing else |

## Left out

- Cycle timing. `tick` and `cpu_cycle` have empty bodies, so the number of memory accesses and
  cycles has no effect on the state. Some handlers bypass `cpu_write` and call `mmu_write`
  directly; the model does not distinguish them.
- Interrupts, IME and the HALT_BUG and IME modes. No code enters those modes or implements
  interrupts. The mode datatype has the two constructors, but nothing produces them.
- The `printf`/`exit` default branches of both switches. Every byte has a case, so they are
  unreachable, and the decoders are total.
- The `R8_F` case of `get_r8`/`set_r8`. No opcode uses it, so the register enum of the model
  has no F entry. F is reached through the flag helpers and through AF.
- Allocation of the machine (`gb_create`/`gb_destroy`), ROM loading, the host run loop and the
  JSON test harness. These are I/O and allocation. The constructor of `Cpu.Cpu` takes the
  initial state as a parameter, because the source leaves every field of a fresh machine
  uninitialised until `cpu_init` runs.
- Properties.PrefixStep: states only the PC, SP and mode after a CB-prefixed instruction. What
  the instruction does to the operand and flags is stated by Cpu.Cpu.ExecuteCb and by the Alu
  lemmas on each operation. A single equation over the whole state is too costly for the
  verifier.
- Cpu.Cpu.FetchByte, Cpu.Cpu.CpuRead and Cpu.Cpu.CpuWrite: they do not model the
  `cpu_cycle` call of `cpu_read`/`cpu_write`, because that call has no effect.
