/** What one step of the single-stage core does to each instruction of the
    RV32I subset, stated for any fetched word by its decoded opcode and
    function fields (which `Decode.DecodeEncodeR` .. `DecodeEncodeJ` tie to
    the encodings of section 2.3 of the RISC-V Unprivileged ISA), and how
    the core halts. */
module SingleStageProperties {
  import opened Common
  import opened Decode
  import opened RegFile
  import opened DataMemory
  import opened InstructionMemory
  import opened SingleStage

  /** The core is live and the word at its PC is `instr`. */
  ghost predicate Fetched(m: Machine, imem: seq<bv8>, instr: bv32) {
    SingleStepSafe(m, imem) && !m.state.IF.nop && InstrAt(imem, m.state.IF.pc) == instr
  }

  /** `r` is `m` one cycle later with the PC advanced by four and no
      change to the latches, the data memory or the halted flag. */
  ghost predicate FallsThrough(m: Machine, r: Machine) {
    && r.state == m.state.(IF := m.state.IF.(pc := m.state.IF.pc + 4))
    && r.dmem == m.dmem && r.halted == m.halted && r.cycle == m.cycle + 1
  }

  /** A live fetch of anything but the sentinel executes it. */
  lemma Executes(m: Machine, imem: seq<bv8>, instr: bv32)
    requires Fetched(m, imem, instr) && instr != HaltWord
    ensures AccessSafe(instr, m.regs[Rs1(instr) as int])
    ensures SingleStep(m, imem) == Retire(m, instr)
  {
  }

  /** An R-type word: the PC advances and rd receives the R-type ALU
      result of the two source registers. */
  lemma RTypeStep(m: Machine, imem: seq<bv8>, instr: bv32)
    requires Fetched(m, imem, instr) && Opcode(instr) == OpR
    ensures FallsThrough(m, SingleStep(m, imem))
    ensures SingleStep(m, imem).regs == WriteReg(m.regs, Rd(instr), RTypeResult(Funct3(instr), Funct7(instr), m.regs[Rs1(instr) as int], m.regs[Rs2(instr) as int]))
  {
    Executes(m, imem, instr);
  }

  /** ADD rd, rs1, rs2 writes the wrapped sum of rs1 and rs2. */
  lemma ExecAdd(m: Machine, imem: seq<bv8>, instr: bv32)
    requires Fetched(m, imem, instr) && Opcode(instr) == OpR && Funct3(instr) == 0 && Funct7(instr) == 0
    ensures FallsThrough(m, SingleStep(m, imem))
    ensures SingleStep(m, imem).regs == WriteReg(m.regs, Rd(instr), m.regs[Rs1(instr) as int] + m.regs[Rs2(instr) as int])
  {
    RTypeStep(m, imem, instr);
  }

  /** SUB rd, rs1, rs2 writes rs1 minus rs2, wrapped. */
  lemma ExecSub(m: Machine, imem: seq<bv8>, instr: bv32)
    requires Fetched(m, imem, instr) && Opcode(instr) == OpR && Funct3(instr) == 0 && Funct7(instr) == 0x20
    ensures FallsThrough(m, SingleStep(m, imem))
    ensures SingleStep(m, imem).regs == WriteReg(m.regs, Rd(instr), m.regs[Rs1(instr) as int] - m.regs[Rs2(instr) as int])
  {
    RTypeStep(m, imem, instr);
  }

  /** XOR rd, rs1, rs2 writes the bitwise exclusive or of the sources. */
  lemma ExecXor(m: Machine, imem: seq<bv8>, instr: bv32)
    requires Fetched(m, imem, instr) && Opcode(instr) == OpR && Funct3(instr) == 4
    ensures FallsThrough(m, SingleStep(m, imem))
    ensures SingleStep(m, imem).regs == WriteReg(m.regs, Rd(instr), m.regs[Rs1(instr) as int] ^ m.regs[Rs2(instr) as int])
  {
    RTypeStep(m, imem, instr);
  }

  /** OR rd, rs1, rs2 writes the bitwise or of the sources. */
  lemma ExecOr(m: Machine, imem: seq<bv8>, instr: bv32)
    requires Fetched(m, imem, instr) && Opcode(instr) == OpR && Funct3(instr) == 6
    ensures FallsThrough(m, SingleStep(m, imem))
    ensures SingleStep(m, imem).regs == WriteReg(m.regs, Rd(instr), m.regs[Rs1(instr) as int] | m.regs[Rs2(instr) as int])
  {
    RTypeStep(m, imem, instr);
  }

  /** AND rd, rs1, rs2 writes the bitwise and of the sources. */
  lemma ExecAnd(m: Machine, imem: seq<bv8>, instr: bv32)
    requires Fetched(m, imem, instr) && Opcode(instr) == OpR && Funct3(instr) == 7
    ensures FallsThrough(m, SingleStep(m, imem))
    ensures SingleStep(m, imem).regs == WriteReg(m.regs, Rd(instr), m.regs[Rs1(instr) as int] & m.regs[Rs2(instr) as int])
  {
    RTypeStep(m, imem, instr);
  }

  /** Every other funct combination of the R-type opcode (SLL, SLT, SLTU,
      SRL, SRA and the unassigned ones) still enables the write, and rd
      receives zero. */
  lemma ExecRUnsupported(m: Machine, imem: seq<bv8>, instr: bv32)
    requires Fetched(m, imem, instr) && Opcode(instr) == OpR
    requires Funct3(instr) in {1, 2, 3, 5} || (Funct3(instr) == 0 && Funct7(instr) != 0 && Funct7(instr) != 0x20)
    ensures FallsThrough(m, SingleStep(m, imem))
    ensures SingleStep(m, imem).regs == WriteReg(m.regs, Rd(instr), 0)
  {
    RTypeStep(m, imem, instr);
  }

  /** An I-type ALU word: the PC advances and rd receives the I-type ALU
      result of rs1 and the I-immediate. */
  lemma ITypeStep(m: Machine, imem: seq<bv8>, instr: bv32)
    requires Fetched(m, imem, instr) && Opcode(instr) == OpImm
    ensures FallsThrough(m, SingleStep(m, imem))
    ensures SingleStep(m, imem).regs == WriteReg(m.regs, Rd(instr), ITypeResult(Funct3(instr), m.regs[Rs1(instr) as int], ImmI(instr)))
  {
    Executes(m, imem, instr);
  }

  /** ADDI rd, rs1, imm writes the wrapped sum of rs1 and the sign-extended immediate. */
  lemma ExecAddi(m: Machine, imem: seq<bv8>, instr: bv32)
    requires Fetched(m, imem, instr) && Opcode(instr) == OpImm && Funct3(instr) == 0
    ensures FallsThrough(m, SingleStep(m, imem))
    ensures SingleStep(m, imem).regs == WriteReg(m.regs, Rd(instr), m.regs[Rs1(instr) as int] + ImmI(instr))
  {
    ITypeStep(m, imem, instr);
  }

  /** XORI rd, rs1, imm writes the exclusive or of rs1 and the sign-extended immediate. */
  lemma ExecXori(m: Machine, imem: seq<bv8>, instr: bv32)
    requires Fetched(m, imem, instr) && Opcode(instr) == OpImm && Funct3(instr) == 4
    ensures FallsThrough(m, SingleStep(m, imem))
    ensures SingleStep(m, imem).regs == WriteReg(m.regs, Rd(instr), m.regs[Rs1(instr) as int] ^ ImmI(instr))
  {
    ITypeStep(m, imem, instr);
  }

  /** ORI rd, rs1, imm writes the or of rs1 and the sign-extended immediate. */
  lemma ExecOri(m: Machine, imem: seq<bv8>, instr: bv32)
    requires Fetched(m, imem, instr) && Opcode(instr) == OpImm && Funct3(instr) == 6
    ensures FallsThrough(m, SingleStep(m, imem))
    ensures SingleStep(m, imem).regs == WriteReg(m.regs, Rd(instr), m.regs[Rs1(instr) as int] | ImmI(instr))
  {
    ITypeStep(m, imem, instr);
  }

  /** ANDI rd, rs1, imm writes the and of rs1 and the sign-extended immediate. */
  lemma ExecAndi(m: Machine, imem: seq<bv8>, instr: bv32)
    requires Fetched(m, imem, instr) && Opcode(instr) == OpImm && Funct3(instr) == 7
    ensures FallsThrough(m, SingleStep(m, imem))
    ensures SingleStep(m, imem).regs == WriteReg(m.regs, Rd(instr), m.regs[Rs1(instr) as int] & ImmI(instr))
  {
    ITypeStep(m, imem, instr);
  }

  /** The other funct3 values of the I-type ALU opcode (SLTI, SLTIU, SLLI,
      SRLI, SRAI) write zero to rd. */
  lemma ExecIUnsupported(m: Machine, imem: seq<bv8>, instr: bv32)
    requires Fetched(m, imem, instr) && Opcode(instr) == OpImm && Funct3(instr) in {1, 2, 3, 5}
    ensures FallsThrough(m, SingleStep(m, imem))
    ensures SingleStep(m, imem).regs == WriteReg(m.regs, Rd(instr), 0)
  {
    ITypeStep(m, imem, instr);
  }

  /** LW rd, imm(rs1) (any load word: funct3 is not inspected) loads the
      little-endian word at rs1 + imm into rd. */
  lemma ExecLw(m: Machine, imem: seq<bv8>, instr: bv32)
    requires Fetched(m, imem, instr) && Opcode(instr) == OpLoad
    ensures WordInBounds(m.regs[Rs1(instr) as int] + ImmI(instr))
    ensures FallsThrough(m, SingleStep(m, imem))
    ensures SingleStep(m, imem).regs == WriteReg(m.regs, Rd(instr), LoadAt(m.dmem, m.regs[Rs1(instr) as int] + ImmI(instr)))
  {
    Executes(m, imem, instr);
    AddressValues(instr, m.regs[Rs1(instr) as int]);
  }

  /** A store word: the PC advances, no register changes and rs2 is
      stored at rs1 plus the S-immediate. */
  lemma StoreStep(m: Machine, imem: seq<bv8>, instr: bv32)
    requires Fetched(m, imem, instr) && Opcode(instr) == OpStore
    ensures WordInBounds(m.regs[Rs1(instr) as int] + ImmS(instr))
    ensures SingleStep(m, imem).state == m.state.(IF := m.state.IF.(pc := m.state.IF.pc + 4))
    ensures SingleStep(m, imem).regs == m.regs && SingleStep(m, imem).halted == m.halted
    ensures SingleStep(m, imem).dmem == StoreAt(m.dmem, m.regs[Rs1(instr) as int] + ImmS(instr), m.regs[Rs2(instr) as int])
  {
    Executes(m, imem, instr);
    AddressValues(instr, m.regs[Rs1(instr) as int]);
  }

  /** SW rs2, imm(rs1) stores rs2 at rs1 + imm, where a load then finds it,
      and changes no register and no byte outside the four it writes. */
  lemma ExecSw(m: Machine, imem: seq<bv8>, instr: bv32, addr: bv32)
    requires Fetched(m, imem, instr) && Opcode(instr) == OpStore
    requires addr == m.regs[Rs1(instr) as int] + ImmS(instr)
    ensures WordInBounds(addr)
    ensures SingleStep(m, imem).state == m.state.(IF := m.state.IF.(pc := m.state.IF.pc + 4))
    ensures SingleStep(m, imem).regs == m.regs
    ensures LoadAt(SingleStep(m, imem).dmem, addr) == m.regs[Rs2(instr) as int]
    ensures forall j :: 0 <= j < MemSize && !(addr as int <= j < addr as int + 4) ==> SingleStep(m, imem).dmem[j] == m.dmem[j]
  {
    StoreStep(m, imem, instr);
    LoadAtAfterStoreAt(m.dmem, addr, m.regs[Rs2(instr) as int]);
  }

  /** A branch word: no register or memory changes, and the PC moves by
      the B-immediate exactly when the branch condition holds. */
  lemma BranchStep(m: Machine, imem: seq<bv8>, instr: bv32)
    requires Fetched(m, imem, instr) && Opcode(instr) == OpBranch
    ensures SingleStep(m, imem).regs == m.regs && SingleStep(m, imem).dmem == m.dmem
    ensures SingleStep(m, imem).halted == m.halted && SingleStep(m, imem).cycle == m.cycle + 1
    ensures SingleStep(m, imem).state == m.state.(IF := m.state.IF.(pc :=
      if BranchTaken(Funct3(instr), m.regs[Rs1(instr) as int], m.regs[Rs2(instr) as int]) then m.state.IF.pc + ImmB(instr) else m.state.IF.pc + 4))
  {
    Executes(m, imem, instr);
  }

  /** BEQ rs1, rs2, imm goes to PC + imm when the registers are equal and
      to PC + 4 otherwise. */
  lemma ExecBeq(m: Machine, imem: seq<bv8>, instr: bv32)
    requires Fetched(m, imem, instr) && Opcode(instr) == OpBranch && Funct3(instr) == 0
    ensures SingleStep(m, imem).regs == m.regs && SingleStep(m, imem).dmem == m.dmem
    ensures SingleStep(m, imem).state.IF.pc ==
      if m.regs[Rs1(instr) as int] == m.regs[Rs2(instr) as int] then m.state.IF.pc + ImmB(instr) else m.state.IF.pc + 4
  {
    BranchStep(m, imem, instr);
  }

  /** BNE rs1, rs2, imm goes to PC + imm when the registers differ and to
      PC + 4 otherwise. */
  lemma ExecBne(m: Machine, imem: seq<bv8>, instr: bv32)
    requires Fetched(m, imem, instr) && Opcode(instr) == OpBranch && Funct3(instr) == 1
    ensures SingleStep(m, imem).regs == m.regs && SingleStep(m, imem).dmem == m.dmem
    ensures SingleStep(m, imem).state.IF.pc ==
      if m.regs[Rs1(instr) as int] != m.regs[Rs2(instr) as int] then m.state.IF.pc + ImmB(instr) else m.state.IF.pc + 4
  {
    BranchStep(m, imem, instr);
  }

  /** The other branch conditions (BLT, BGE, BLTU, BGEU and the unassigned
      funct3 values) are never taken. */
  lemma ExecBranchUnsupported(m: Machine, imem: seq<bv8>, instr: bv32)
    requires Fetched(m, imem, instr) && Opcode(instr) == OpBranch && Funct3(instr) > 1
    ensures SingleStep(m, imem).regs == m.regs
    ensures FallsThrough(m, SingleStep(m, imem))
  {
    BranchStep(m, imem, instr);
  }

  /** JAL rd, imm links PC + 4 into rd and jumps to PC + imm. */
  lemma ExecJal(m: Machine, imem: seq<bv8>, instr: bv32)
    requires Fetched(m, imem, instr) && Opcode(instr) == OpJal
    ensures SingleStep(m, imem).regs == WriteReg(m.regs, Rd(instr), m.state.IF.pc + 4)
    ensures SingleStep(m, imem).state == m.state.(IF := m.state.IF.(pc := m.state.IF.pc + ImmJ(instr)))
    ensures SingleStep(m, imem).dmem == m.dmem && SingleStep(m, imem).halted == m.halted
  {
    Executes(m, imem, instr);
    JalLinks(m, instr);
    JalJumps(m, instr);
    JalKeeps(m, instr);
  }

  /** Retiring a JAL word writes PC + 4 to rd. */
  lemma JalLinks(m: Machine, instr: bv32)
    requires WellFormed(m) && Opcode(instr) == OpJal
    ensures AccessSafe(instr, m.regs[Rs1(instr) as int])
    ensures Retire(m, instr).regs == WriteReg(m.regs, Rd(instr), m.state.IF.pc + 4)
  {
    JalEffects(instr, m.state.IF.pc, m.regs[Rs1(instr) as int], m.regs[Rs2(instr) as int], m.dmem);
  }

  /** Retiring a JAL word moves the PC by the J-immediate and changes no
      other latch field. */
  lemma JalJumps(m: Machine, instr: bv32)
    requires WellFormed(m) && Opcode(instr) == OpJal
    ensures AccessSafe(instr, m.regs[Rs1(instr) as int])
    ensures Retire(m, instr).state == m.state.(IF := m.state.IF.(pc := m.state.IF.pc + ImmJ(instr)))
  {
    JalEffects(instr, m.state.IF.pc, m.regs[Rs1(instr) as int], m.regs[Rs2(instr) as int], m.dmem);
  }

  /** Retiring a JAL word leaves the data memory and the halted flag. */
  lemma JalKeeps(m: Machine, instr: bv32)
    requires WellFormed(m) && Opcode(instr) == OpJal
    ensures AccessSafe(instr, m.regs[Rs1(instr) as int])
    ensures Retire(m, instr).dmem == m.dmem && Retire(m, instr).halted == m.halted
  {
    JalEffects(instr, m.state.IF.pc, m.regs[Rs1(instr) as int], m.regs[Rs2(instr) as int], m.dmem);
  }

  /** The three effects of a JAL word in the opcode switch. */
  lemma JalEffects(instr: bv32, pc: bv32, a: bv32, b: bv32, dmem: seq<bv8>)
    requires Opcode(instr) == OpJal && |dmem| == MemSize
    ensures AccessSafe(instr, a)
    ensures Writeback(instr, pc, a, b, dmem) == RegWrite(true, pc + 4)
    ensures NextPC(instr, pc, a, b) == pc + ImmJ(instr)
    ensures StoreResult(dmem, instr, a, b) == dmem
  {
  }

  /** The single-stage core has no JALR case: JALR falls to the default
      branch of the switch, writes no register and advances the PC by 4. */
  lemma ExecJalr(m: Machine, imem: seq<bv8>, instr: bv32)
    requires Fetched(m, imem, instr) && Opcode(instr) == OpJalr
    ensures FallsThrough(m, SingleStep(m, imem))
    ensures SingleStep(m, imem).regs == m.regs
  {
    Executes(m, imem, instr);
  }

  /** A word whose opcode is none of the seven the cores know, and which is
      not the sentinel, is skipped: only the PC moves. */
  lemma ExecUnknown(m: Machine, imem: seq<bv8>, instr: bv32)
    requires Fetched(m, imem, instr) && instr != HaltWord
    requires Opcode(instr) !in {OpR, OpImm, OpLoad, OpStore, OpBranch, OpJal, OpJalr}
    ensures FallsThrough(m, SingleStep(m, imem))
    ensures SingleStep(m, imem).regs == m.regs
  {
  }

  /** Whatever the instruction, a step changes at most register rd, and
      only a store changes the data memory. */
  lemma SingleFrame(m: Machine, imem: seq<bv8>)
    requires SingleStepSafe(m, imem) && !m.state.IF.nop
    ensures forall k :: 0 <= k < NumRegs && k != Rd(InstrAt(imem, m.state.IF.pc)) as int ==>
      SingleStep(m, imem).regs[k] == m.regs[k]
    ensures Opcode(InstrAt(imem, m.state.IF.pc)) != OpStore ==> SingleStep(m, imem).dmem == m.dmem
    ensures Opcode(InstrAt(imem, m.state.IF.pc)) !in {OpR, OpImm, OpLoad, OpJal} ==> SingleStep(m, imem).regs == m.regs
  {
    var instr := InstrAt(imem, m.state.IF.pc);
    if instr != HaltWord {
      var a, b := m.regs[Rs1(instr) as int], m.regs[Rs2(instr) as int];
      var w := Writeback(instr, m.state.IF.pc, a, b, m.dmem);
      assert SingleStep(m, imem).regs == Commit(m.regs, Rd(instr), w);
      if w.enable && Rd(instr) != 0 {
        assert Commit(m.regs, Rd(instr), w) == WriteReg(m.regs, Rd(instr), w.data);
      }
    }
  }

  /** Fetching the sentinel turns the fetch latch into a bubble and changes
      nothing else; the next step only sets `halted`. */
  lemma SentinelHalts(m: Machine, imem: seq<bv8>)
    requires Fetched(m, imem, HaltWord)
    ensures SingleStep(m, imem) == m.(state := m.state.(IF := IFLatch(m.state.IF.pc, true)), cycle := m.cycle + 1)
    ensures SingleStepSafe(SingleStep(m, imem), imem)
    ensures SingleStep(SingleStep(m, imem), imem) == SingleStep(m, imem).(halted := true, cycle := m.cycle + 2)
  {
  }

  /** Once the fetch latch is a bubble the core is halted and stays so,
      with only the cycle counter moving. */
  lemma HaltedIsFixed(m: Machine, imem: seq<bv8>)
    requires WellFormed(m) && |imem| == MemSize && m.state.IF.nop
    ensures SingleStepSafe(m, imem)
    ensures SingleStep(m, imem) == m.(halted := true, cycle := m.cycle + 1)
  {
  }
}
