/** The register file of src/registerfile.cpp: 32 words, register 0 hardwired
    to zero because every write to it is dropped. */
module RegFile {

  const NumRegs: nat := 32

  /** The register values after `writeRF(addr, data)`: only the addressed
      register changes, and a write to register 0 changes nothing. */
  function WriteReg(regs: seq<bv32>, addr: bv5, data: bv32): (r: seq<bv32>)
    requires |regs| == NumRegs
    ensures |r| == NumRegs
    ensures addr != 0 ==> r[addr as int] == data
    ensures r[0] == regs[0]
    ensures forall k :: 0 <= k < NumRegs && k != addr as int ==> r[k] == regs[k]
  {
    if addr != 0 then regs[addr as int := data] else regs
  }

  class RegisterFile {
    const Registers: array<bv32>

    ghost predicate Valid()
      reads Registers
    {
      Registers.Length == NumRegs && Registers[0] == 0
    }

    /** All 32 registers start at zero. */
    constructor ()
      ensures Valid() && fresh(Registers)
      ensures forall k :: 0 <= k < NumRegs ==> Registers[k] == 0
    {
      Registers := new bv32[NumRegs](_ => 0);
    }

    /** `readRF`: the addressed register; register 0 reads as zero. */
    method ReadRF(addr: bv5) returns (v: bv32)
      requires Valid()
      ensures v == Registers[addr as int]
      ensures addr == 0 ==> v == 0
    {
      if (addr as int) < NumRegs {
        v := Registers[addr as int];
      } else {
        v := 0;
      }
    }

    /** `writeRF`: stores `data` unless the address is register 0. */
    method WriteRF(addr: bv5, data: bv32)
      requires Valid()
      modifies Registers
      ensures Valid()
      ensures Registers[..] == WriteReg(old(Registers[..]), addr, data)
    {
      if (addr as int) < NumRegs && addr != 0 {
        Registers[addr as int] := data;
      }
    }

    /** `debugGetRegister`: any integer index; zero outside 0..31. */
    method DebugGetRegister(index: int) returns (v: bv32)
      requires Valid()
      ensures 0 <= index < NumRegs ==> v == Registers[index]
      ensures !(0 <= index < NumRegs) ==> v == 0
    {
      if 0 <= index < NumRegs {
        v := Registers[index];
      } else {
        v := 0;
      }
    }

    /** `debugSetRegister`: ignores index 0 and indices outside 0..31. */
    method DebugSetRegister(index: int, value: bv32)
      requires Valid()
      modifies Registers
      ensures Valid()
      ensures Registers[..] == if 0 < index < NumRegs then old(Registers[..])[index := value] else old(Registers[..])
    {
      if 0 < index < NumRegs {
        Registers[index] := value;
      }
    }
  }

  /** Reading back a register just written returns the written value, unless
      it is register 0, which still reads zero. */
  lemma ReadAfterWrite(regs: seq<bv32>, addr: bv5, data: bv32)
    requires |regs| == NumRegs && regs[0] == 0
    ensures WriteReg(regs, addr, data)[addr as int] == if addr == 0 then 0 else data
  {
  }

  /** A sequence of writes never makes register 0 nonzero. */
  lemma {:induction false} ZeroSurvivesWrites(regs: seq<bv32>, writes: seq<(bv5, bv32)>)
    requires |regs| == NumRegs && regs[0] == 0
    ensures |WriteAll(regs, writes)| == NumRegs && WriteAll(regs, writes)[0] == 0
    decreases |writes|
  {
    if writes != [] {
      ZeroSurvivesWrites(WriteReg(regs, writes[0].0, writes[0].1), writes[1..]);
    }
  }

  /** The register values after the `writeRF` calls of `writes`, in order. */
  function WriteAll(regs: seq<bv32>, writes: seq<(bv5, bv32)>): seq<bv32>
    requires |regs| == NumRegs
    decreases |writes|
  {
    if writes == [] then regs
    else
      var next := WriteReg(regs, writes[0].0, writes[0].1);
      WriteAll(next, writes[1..])
  }
}
