/** The memory unit: one flat array of GB_MEM_SIZE bytes, indexed directly by the 16-bit
    address, with no banking, mirroring or I/O registers. The array itself lives in the CPU
    object (see Cpu.Cpu.MmuRead and Cpu.Cpu.MmuWrite); the functions here are its contents as
    a value, used by the specification of every instruction. */
module Mmu {
  import opened Common

  /** The contents of gb->mem: exactly one byte per 16-bit address. */
  type Memory = s: seq<u8> | |s| == GB_MEM_SIZE witness seq(GB_MEM_SIZE, _ => 0)

  /** mmu_read: the byte stored at `addr`. A 16-bit address is always inside the
      GB_MEM_SIZE-byte array, so the lookup cannot go out of bounds. */
  function Read(mem: Memory, addr: u16): (v: u8)
    ensures v == mem[addr]
  {
    mem[addr]
  }

  /** mmu_write: the memory with `val` stored at `addr` and every other cell kept. */
  function Write(mem: Memory, addr: u16, val: u8): (mem': Memory)
    ensures mem'[addr] == val
    ensures forall i :: 0 <= i < GB_MEM_SIZE && i != addr ==> mem'[i] == mem[i]
  {
    mem[addr := val]
  }

  /** Reading an address after writing it gives the written byte; reading any other address
      gives the byte it held before the write. */
  lemma {:induction false} ReadAfterWrite(mem: Memory, addr: u16, val: u8, other: u16)
    ensures Read(Write(mem, addr, val), other) == if other == addr then val else Read(mem, other)
  {
  }

  /** Writing back the byte an address already holds changes nothing. */
  lemma {:induction false} WriteOwnValue(mem: Memory, addr: u16)
    ensures Write(mem, addr, Read(mem, addr)) == mem
  {
  }

  /** Writes to two different addresses can be made in either order. */
  lemma {:induction false} WritesCommute(mem: Memory, a1: u16, v1: u8, a2: u16, v2: u8)
    requires a1 != a2
    ensures Write(Write(mem, a1, v1), a2, v2) == Write(Write(mem, a2, v2), a1, v1)
  {
  }

  /** A second write to the same address hides the first. */
  lemma {:induction false} LastWriteWins(mem: Memory, addr: u16, v1: u8, v2: u8)
    ensures Write(Write(mem, addr, v1), addr, v2) == Write(mem, addr, v2)
  {
  }
}
