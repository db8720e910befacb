/** `SingleStageCore` of src/core.cpp: one instruction per step, fetched,
    decoded, executed, written back and retired before the next. Of the
    latch record only the fetch latch (PC and bubble flag) is used. */
module SingleStage {
  import opened Common
  import opened Decode
  import opened RegFile
  import opened DataMemory
  import opened InstructionMemory

  /** The register write an instruction asks for: whether `write_enable`
      is set and the value `write_data` holds. */
  datatype RegWrite = RegWrite(enable: bool, data: bv32)

  /** The data address of a load or store: the base register plus the
      sign-extended offset, wrapping at 32 bits. */
  function LoadAddress(instr: bv32, base: bv32): bv32 { base + ImmI(instr) }
  function StoreAddress(instr: bv32, base: bv32): bv32 { base + ImmS(instr) }

  /** The two address functions written out, for proofs that substitute
      decoded fields into them. */
  lemma AddressValues(instr: bv32, base: bv32)
    ensures LoadAddress(instr, base) == base + ImmI(instr)
    ensures StoreAddress(instr, base) == base + ImmS(instr)
  {
  }

  /** Every data access of `instr` lies inside the data memory. */
  predicate AccessSafe(instr: bv32, base: bv32) {
    && (Opcode(instr) == OpLoad ==> WordInBounds(LoadAddress(instr, base)))
    && (Opcode(instr) == OpStore ==> WordInBounds(StoreAddress(instr, base)))
  }

  /** `write_enable` and `write_data` after the opcode switch. */
  function Writeback(instr: bv32, pc: bv32, a: bv32, b: bv32, dmem: seq<bv8>): RegWrite
    requires |dmem| == MemSize && AccessSafe(instr, a)
  {
    var op := Opcode(instr);
    if op == OpR then RegWrite(true, RTypeResult(Funct3(instr), Funct7(instr), a, b))
    else if op == OpImm then RegWrite(true, ITypeResult(Funct3(instr), a, ImmI(instr)))
    else if op == OpLoad then RegWrite(true, LoadAt(dmem, LoadAddress(instr, a)))
    else if op == OpJal then RegWrite(true, pc + 4)
    else RegWrite(false, 0)
  }

  /** The next PC: the branch target of a taken BEQ/BNE, the JAL target,
      and PC + 4 for everything else (JALR included). */
  function NextPC(instr: bv32, pc: bv32, a: bv32, b: bv32): bv32 {
    var op := Opcode(instr);
    if op == OpBranch then (if BranchTaken(Funct3(instr), a, b) then pc + ImmB(instr) else pc + 4)
    else if op == OpJal then pc + ImmJ(instr)
    else pc + 4
  }

  /** BEQ/BNE, JAL and JALR: the opcodes that set the next PC themselves. */
  predicate IsControl(instr: bv32) {
    Opcode(instr) == OpBranch || Opcode(instr) == OpJal || Opcode(instr) == OpJalr
  }

  /** Every opcode but BEQ/BNE, JAL and JALR advances the PC by four. */
  lemma NextPCOtherwise(instr: bv32, pc: bv32, a: bv32, b: bv32)
    ensures !IsControl(instr) ==> NextPC(instr, pc, a, b) == pc + 4
  {
  }

  /** What `step` needs to stay inside both memories: the fetch address,
      and the data address of a load or store about to execute. */
  ghost predicate SingleStepSafe(m: Machine, imem: seq<bv8>) {
    && WellFormed(m) && |imem| == MemSize
    && (!m.state.IF.nop ==>
          && WordInBounds(m.state.IF.pc)
          && AccessSafe(InstrAt(imem, m.state.IF.pc), m.regs[Rs1(InstrAt(imem, m.state.IF.pc)) as int]))
  }

  /** The data memory after `instr` with operands `a` and `b`: a store
      writes `b`, everything else leaves it. */
  function StoreResult(dmem: seq<bv8>, instr: bv32, a: bv32, b: bv32): (r: seq<bv8>)
    requires |dmem| == MemSize && AccessSafe(instr, a)
    ensures |r| == MemSize
  {
    if Opcode(instr) == OpStore then StoreAt(dmem, StoreAddress(instr, a), b) else dmem
  }

  /** The registers after the write `w` to `rd`, made only when enabled and
      `rd` is not register 0. */
  function Commit(regs: seq<bv32>, rd: bv5, w: RegWrite): (r: seq<bv32>)
    requires |regs| == NumRegs && regs[0] == 0
    ensures |r| == NumRegs && r[0] == 0
  {
    if w.enable && rd != 0 then WriteReg(regs, rd, w.data) else regs
  }

  /** Executing and retiring the non-sentinel instruction `instr`: the
      part of `step` after fetch. */
  function Retire(m: Machine, instr: bv32): (r: Machine)
    requires WellFormed(m) && AccessSafe(instr, m.regs[Rs1(instr) as int])
    ensures WellFormed(r) && r.cycle == m.cycle + 1
  {
    var pc := m.state.IF.pc;
    var a, b := m.regs[Rs1(instr) as int], m.regs[Rs2(instr) as int];
    m.(state := m.state.(IF := m.state.IF.(pc := NextPC(instr, pc, a, b))),
       regs := Commit(m.regs, Rd(instr), Writeback(instr, pc, a, b, m.dmem)),
       dmem := StoreResult(m.dmem, instr, a, b),
       cycle := m.cycle + 1)
  }

  /** `Retire` in terms of the three effects of the instruction: the
      register write, the data memory after it and the next PC. */
  lemma RetireEffects(m: Machine, instr: bv32, a: bv32, b: bv32, w: RegWrite, dmem: seq<bv8>, pc: bv32)
    requires WellFormed(m) && a == m.regs[Rs1(instr) as int] && b == m.regs[Rs2(instr) as int]
    requires AccessSafe(instr, a)
    requires w == Writeback(instr, m.state.IF.pc, a, b, m.dmem)
    requires dmem == StoreResult(m.dmem, instr, a, b)
    requires pc == NextPC(instr, m.state.IF.pc, a, b)
    ensures Retire(m, instr) == m.(state := m.state.(IF := m.state.IF.(pc := pc)),
                                   regs := Commit(m.regs, Rd(instr), w), dmem := dmem, cycle := m.cycle + 1)
  {
  }

  /** One call of `SingleStageCore::step` on the machine `m` with
      instruction memory `imem`. */
  function SingleStep(m: Machine, imem: seq<bv8>): (r: Machine)
    requires SingleStepSafe(m, imem)
    ensures WellFormed(r)
    ensures r.cycle == m.cycle + 1
  {
    if m.state.IF.nop then
      m.(halted := true, cycle := m.cycle + 1)
    else
      var instr := InstrAt(imem, m.state.IF.pc);
      if instr == HaltWord then
        m.(state := m.state.(IF := m.state.IF.(nop := true)), cycle := m.cycle + 1)
      else
        Retire(m, instr)
  }

  /** The machine the constructor builds around a copy of `dmem`. */
  function SingleInit(dmem: seq<bv8>): Machine {
    Machine(ZeroState(), seq(NumRegs, _ => 0), dmem, 0, false)
  }

  class SingleStageCore {
    const myRF: RegisterFile
    const extImem: InsMem
    const extDmem: DataMem
    var state: State
    var cycle: bv32
    var halted: bool

    ghost predicate Valid()
      reads this, myRF.Registers, extImem.IMem, extDmem.DMem
    {
      myRF.Valid() && extImem.Valid() && extDmem.Valid() && extImem.IMem != extDmem.DMem
    }

    /** The core's register file, data memory, latches and counters. */
    ghost function Abs(): Machine
      reads this, myRF.Registers, extDmem.DMem
    {
      Machine(state, myRF.Registers[..], extDmem.DMem[..], cycle, halted)
    }

    /** The constructor: copies of both memories, all registers zero, PC 0. */
    constructor (imem: InsMem, dmem: DataMem)
      requires imem.Valid() && dmem.Valid()
      ensures Valid()
      ensures fresh(myRF) && fresh(myRF.Registers) && fresh(extImem) && fresh(extImem.IMem)
      ensures fresh(extDmem) && fresh(extDmem.DMem)
      ensures extImem.IMem[..] == imem.IMem[..]
      ensures Abs() == SingleInit(dmem.DMem[..])
    {
      myRF := new RegisterFile();
      extImem := new InsMem.Copy(imem);
      extDmem := new DataMem.Copy(dmem);
      state := ZeroState();
      cycle := 0;
      halted := false;
      new;
      assert myRF.Registers[..] == seq(NumRegs, _ => 0);
    }

    /** `step`: the model `SingleStep` of one cycle. */
    method Step()
      requires Valid() && SingleStepSafe(Abs(), extImem.IMem[..])
      modifies this, myRF.Registers, extDmem.DMem
      ensures Valid()
      ensures Abs() == SingleStep(old(Abs()), extImem.IMem[..])
    {
      var nextState := state;
      if state.IF.nop {
        halted := true;
        cycle := cycle + 1;
        return;
      }
      var instruction := extImem.ReadInstr(state.IF.pc);
      if instruction == HaltWord {
        nextState := nextState.(IF := nextState.IF.(nop := true));
        state := nextState;
        cycle := cycle + 1;
        return;
      }
      Execute(instruction);
    }

    /** The part of `step` after fetch: decode, read both source registers,
        the opcode switch, write-back and the PC update. */
    method Execute(instr: bv32)
      requires Valid() && AccessSafe(instr, myRF.Registers[Rs1(instr) as int])
      modifies this, myRF.Registers, extDmem.DMem
      ensures Valid()
      ensures Abs() == Retire(old(Abs()), instr)
    {
      ghost var m := Abs();
      var nextState := state;
      var rs1Val := myRF.ReadRF(Rs1(instr));
      var rs2Val := myRF.ReadRF(Rs2(instr));
      var writeEnable, writeData, pc := Switch(instr, state.IF.pc, rs1Val, rs2Val);
      RetireEffects(m, instr, rs1Val, rs2Val, RegWrite(writeEnable, writeData), extDmem.DMem[..], pc);
      WriteBack(writeEnable, Rd(instr), writeData);
      nextState := nextState.(IF := nextState.IF.(pc := pc));
      state := nextState;
      cycle := cycle + 1;
    }

    /** The register write at the end of `step`: only when enabled and the
        destination is not register 0. */
    method WriteBack(writeEnable: bool, rd: bv5, writeData: bv32)
      requires myRF.Valid()
      modifies myRF.Registers
      ensures myRF.Valid()
      ensures myRF.Registers[..] == Commit(old(myRF.Registers[..]), rd, RegWrite(writeEnable, writeData))
    {
      if writeEnable && rd != 0 {
        myRF.WriteRF(rd, writeData);
      }
    }

    /** The opcode switch of `step` on the operands `a` and `b`: the
        register write it asks for, the data memory after it, and the PC
        it leaves in `nextState` (unchanged for the ALU, load and store
        cases, which line 162 of the source then advances). */
    method Switch(instr: bv32, pc: bv32, a: bv32, b: bv32)
        returns (writeEnable: bool, writeData: bv32, nextPC: bv32)
      requires extDmem.Valid() && AccessSafe(instr, a)
      modifies extDmem.DMem
      ensures extDmem.Valid()
      ensures RegWrite(writeEnable, writeData) == Writeback(instr, pc, a, b, old(extDmem.DMem[..]))
      ensures extDmem.DMem[..] == StoreResult(old(extDmem.DMem[..]), instr, a, b)
      ensures nextPC == NextPC(instr, pc, a, b)
    {
      var opcode, funct3, funct7 := Opcode(instr), Funct3(instr), Funct7(instr);
      writeData, writeEnable, nextPC := 0, false, pc;
      if opcode == OpR {
        writeEnable := true;
        writeData := RTypeResult(funct3, funct7, a, b);
      } else if opcode == OpImm {
        writeEnable := true;
        writeData := ITypeResult(funct3, a, ImmI(instr));
      } else if opcode == OpLoad {
        writeEnable := true;
        writeData := extDmem.ReadDataMem(LoadAddress(instr, a));
      } else if opcode == OpStore {
        extDmem.WriteDataMem(StoreAddress(instr, a), b);
      } else if opcode == OpBranch {
        var takeBranch := false;
        if funct3 == 0 {
          takeBranch := a == b;
        } else if funct3 == 1 {
          takeBranch := a != b;
        }
        if takeBranch {
          nextPC := pc + ImmB(instr);
        } else {
          nextPC := pc + 4;
        }
      } else if opcode == OpJal {
        writeEnable := true;
        writeData := pc + 4;
        nextPC := pc + ImmJ(instr);
      } else {
        nextPC := pc + 4;
      }
      if !IsControl(instr) {
        nextPC := pc + 4;
      }
    }
  }
}
