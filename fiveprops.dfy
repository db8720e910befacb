/** What one cycle of the five-stage pipeline does, stage by stage, and
    how a stopped fetch drains the pipeline until the core halts. */
module FiveStageProperties {
  import opened Common
  import opened Decode
  import opened RegFile
  import opened DataMemory
  import opened InstructionMemory
  import opened FiveStage
  import SingleStage

  /** The control flags decode sets: only a load reads memory, only a
      store writes it, the register-writing opcodes are exactly R-type,
      I-type, load, JAL and JALR, so no instruction both loads and stores
      and stores and branches never write a register. */
  lemma DecodeFlags(instr: bv32, pc: bv32, a: bv32, b: bv32)
    ensures DecodeLatch(instr, pc, a, b).rdMem <==> Opcode(instr) == OpLoad
    ensures DecodeLatch(instr, pc, a, b).wrtMem <==> Opcode(instr) == OpStore
    ensures DecodeLatch(instr, pc, a, b).wrtEnable <==>
      Opcode(instr) in {OpR, OpImm, OpLoad, OpJal, OpJalr}
    ensures DecodeLatch(instr, pc, a, b).isBranch <==> Opcode(instr) == OpBranch
    ensures DecodeLatch(instr, pc, a, b).isJump <==> Opcode(instr) in {OpJal, OpJalr}
    ensures !(DecodeLatch(instr, pc, a, b).rdMem && DecodeLatch(instr, pc, a, b).wrtMem)
    ensures Opcode(instr) in {OpStore, OpBranch} ==> !DecodeLatch(instr, pc, a, b).wrtEnable
  {
  }

  /** A live decode latch becomes a live execute latch carrying its
      fields, the immediate of its format and the fetch PC of the same
      cycle (the address of the word after it, not its own). */
  lemma DecodeFields(m: Machine, imem: seq<bv8>)
    requires FiveStepSafe(m, imem) && !m.state.ID.nop
    ensures var ex := FiveStep(m, imem).state.EX; var instr := m.state.ID.instr;
      && !ex.nop && ex.pc == m.state.IF.pc && ex.imm == Immediate(instr) && ex.opcode == Opcode(instr)
      && ex.rs == Rs1(instr) && ex.rt == Rs2(instr) && ex.wrtRegAddr == Rd(instr)
      && ex.funct3 == Funct3(instr) && ex.funct7 == Funct7(instr)
  {
    var regs := WriteBackCommit(m.regs, m.state.WB);
    assert FiveStep(m, imem).state.EX == DecodeStage(m.state.ID, m.state.IF.pc, regs);
  }

  /** Decode reads its operands after this cycle's write-back: the
      committed value when write-back targets a source register, and the
      register file otherwise. */
  lemma DecodeReadsAfterWriteBack(m: Machine, imem: seq<bv8>)
    requires FiveStepSafe(m, imem) && !m.state.ID.nop
    ensures var ex := FiveStep(m, imem).state.EX; var instr := m.state.ID.instr; var wb := m.state.WB;
      && ex.readData1 == (if !wb.nop && wb.wrtEnable && wb.wrtRegAddr == Rs1(instr) && Rs1(instr) != 0
                          then wb.wrtData else m.regs[Rs1(instr) as int])
      && ex.readData2 == (if !wb.nop && wb.wrtEnable && wb.wrtRegAddr == Rs2(instr) && Rs2(instr) != 0
                          then wb.wrtData else m.regs[Rs2(instr) as int])
  {
    var regs := WriteBackCommit(m.regs, m.state.WB);
    var instr := m.state.ID.instr;
    CommittedRead(m.regs, m.state.WB, Rs1(instr));
    CommittedRead(m.regs, m.state.WB, Rs2(instr));
    assert FiveStep(m, imem).state.EX == DecodeLatch(instr, m.state.IF.pc, regs[Rs1(instr) as int], regs[Rs2(instr) as int]);
  }

  /** Register `r` after write-back: the committed value if write-back
      targets it, else its old value. */
  lemma CommittedRead(regs: seq<bv32>, wb: WBLatch, r: bv5)
    requires |regs| == NumRegs
    ensures WriteBackCommit(regs, wb)[r as int]
         == if !wb.nop && wb.wrtEnable && wb.wrtRegAddr == r && r != 0 then wb.wrtData else regs[r as int]
  {
  }

  /** There is no other forwarding: what decode sends to execute does not
      depend on the execute and memory latches, so an instruction in
      flight there is invisible to the instruction being decoded. */
  lemma NoForwardingFromExOrMem(m: Machine, m': Machine, imem: seq<bv8>)
    requires FiveStepSafe(m, imem) && FiveStepSafe(m', imem)
    requires m'.regs == m.regs && m'.state.WB == m.state.WB
    requires m'.state.ID == m.state.ID && m'.state.IF.pc == m.state.IF.pc
    ensures FiveStep(m', imem).state.EX == FiveStep(m, imem).state.EX
  {
  }

  /** Write-back commits only a live, enabled latch with a destination
      other than register 0, and only to that register. */
  lemma WriteBackCommits(m: Machine, imem: seq<bv8>)
    requires FiveStepSafe(m, imem)
    ensures var wb := m.state.WB; var r := FiveStep(m, imem);
      && (!wb.nop && wb.wrtEnable && wb.wrtRegAddr != 0 ==> r.regs == m.regs[wb.wrtRegAddr as int := wb.wrtData])
      && (wb.nop || !wb.wrtEnable || wb.wrtRegAddr == 0 ==> r.regs == m.regs)
  {
  }

  /** A live memory latch: write-back receives its register fields and
      the loaded word for a load (read before this cycle's store), the ALU
      result otherwise; a store writes its data at the ALU result, where it
      then reads back; without a store the memory is unchanged. */
  lemma MemoryAccess(m: Machine, imem: seq<bv8>)
    requires FiveStepSafe(m, imem) && !m.state.MEM.nop
    ensures var mem := m.state.MEM; var r := FiveStep(m, imem);
      && r.state.WB == WBLatch(if mem.rdMem then LoadAt(m.dmem, mem.aluResult) else mem.aluResult,
                               mem.rs, mem.rt, mem.wrtRegAddr, mem.wrtEnable, false)
      && (mem.wrtMem ==> r.dmem == StoreAt(m.dmem, mem.aluResult, mem.storeData)
                         && LoadAt(r.dmem, mem.aluResult) == mem.storeData)
      && (!mem.wrtMem ==> r.dmem == m.dmem)
  {
  }

  /** A bubble in any latch becomes a cleared bubble in the next latch and
      triggers nothing: no register write, no memory access, no fetch. */
  lemma BubblesPropagate(m: Machine, imem: seq<bv8>)
    requires FiveStepSafe(m, imem)
    ensures var s := m.state; var r := FiveStep(m, imem);
      && (s.WB.nop ==> r.regs == m.regs)
      && (s.MEM.nop ==> r.state.WB == ClearedWB(true) && r.dmem == m.dmem)
      && (s.EX.nop ==> r.state.MEM == ClearedMEM(true))
      && (s.ID.nop ==> r.state.EX == ClearedEX(true))
      && (s.IF.nop ==> r.state.IF == s.IF && r.state.ID == IDLatch(0, true))
  {
  }

  /** A live execute latch: the ALU result goes to the memory stage with
      the second operand as store data, and the execute latch's control
      fields are copied. */
  lemma ExecuteForwards(m: Machine, imem: seq<bv8>)
    requires FiveStepSafe(m, imem) && !m.state.EX.nop
    ensures var ex := m.state.EX; var mem := FiveStep(m, imem).state.MEM;
      && !mem.nop && mem.aluResult == ExAlu(ex) && mem.storeData == ex.readData2
      && mem.rs == ex.rs && mem.rt == ex.rt && mem.wrtRegAddr == ex.wrtRegAddr
      && mem.rdMem == ex.rdMem && mem.wrtMem == ex.wrtMem && mem.wrtEnable == ex.wrtEnable
  {
    assert FiveStep(m, imem).state.MEM == ExecuteLatch(m.state.EX, m.state.MEM, ExAlu(m.state.EX));
  }

  /** The redirect a live execute latch leaves in the memory latch: a branch
      sets `branchTaken` to its condition and the target to PC plus
      offset, JAL and JALR set `isJump` and the target, and any other
      instruction keeps all three fields of the memory latch before it, so
      a redirect already there is applied again in the next cycle. */
  lemma ExecuteRedirect(m: Machine, imem: seq<bv8>)
    requires FiveStepSafe(m, imem) && !m.state.EX.nop
    ensures var ex := m.state.EX; var prev := m.state.MEM; var mem := FiveStep(m, imem).state.MEM;
      && (ex.opcode == OpBranch ==> mem.branchTaken == BranchTaken(ex.funct3, ex.readData1, ex.readData2)
                                    && mem.branchTarget == ExAlu(ex) && mem.isJump == prev.isJump)
      && (ex.opcode in {OpJal, OpJalr} ==> mem.isJump && mem.branchTarget == ExAlu(ex)
                                           && mem.branchTaken == prev.branchTaken)
      && (ex.opcode !in {OpBranch, OpJal, OpJalr} ==>
            mem.branchTaken == prev.branchTaken && mem.isJump == prev.isJump
            && mem.branchTarget == prev.branchTarget)
  {
    assert FiveStep(m, imem).state.MEM == ExecuteLatch(m.state.EX, m.state.MEM, ExAlu(m.state.EX));
  }

  /** The ALU: loads and stores address base plus offset, BEQ/BNE and JAL
      target PC plus offset, JALR targets base plus offset with bit 0
      cleared, and an opcode outside the seven yields zero. */
  lemma AluResults(op: bv7, funct3: bv3, funct7: bv7, a: bv32, b: bv32, imm: bv32, pc: bv32)
    ensures op in {OpLoad, OpStore} ==> Alu(op, funct3, funct7, a, b, imm, pc) == a + imm
    ensures op in {OpBranch, OpJal} ==> Alu(op, funct3, funct7, a, b, imm, pc) == pc + imm
    ensures op == OpJalr ==> Alu(op, funct3, funct7, a, b, imm, pc) & 1 == 0
    ensures op !in {OpR, OpImm, OpLoad, OpStore, OpBranch, OpJal, OpJalr} ==>
      Alu(op, funct3, funct7, a, b, imm, pc) == 0
  {
  }

  /** The five-stage execute stage agrees with the single-stage core on
      the ALU: for an R-type or I-type word decoded with operands `a` and
      `b`, both cores enable the write, and the ALU result is the value
      the single-stage core writes back. */
  lemma ExecuteMatchesSingleStage(instr: bv32, pc: bv32, a: bv32, b: bv32, spc: bv32, dmem: seq<bv8>)
    requires |dmem| == MemSize && (Opcode(instr) == OpR || Opcode(instr) == OpImm)
    ensures DecodeLatch(instr, pc, a, b).wrtEnable && SingleStage.Writeback(instr, spc, a, b, dmem).enable
    ensures ExAlu(DecodeLatch(instr, pc, a, b)) == SingleStage.Writeback(instr, spc, a, b, dmem).data
  {
    ImmediateMatchesFormat(instr);
  }

  /** ... and on data addresses: a decoded load computes the address the
      single-stage core reads ... */
  lemma LoadAddressMatchesSingleStage(instr: bv32, pc: bv32, a: bv32, b: bv32)
    requires Opcode(instr) == OpLoad
    ensures ExAlu(DecodeLatch(instr, pc, a, b)) == SingleStage.LoadAddress(instr, a)
  {
    ImmediateMatchesFormat(instr);
    LatchLoadAddress(DecodeLatch(instr, pc, a, b), instr, a);
  }

  /** ... and a decoded store the address it writes. */
  lemma StoreAddressMatchesSingleStage(instr: bv32, pc: bv32, a: bv32, b: bv32)
    requires Opcode(instr) == OpStore
    ensures ExAlu(DecodeLatch(instr, pc, a, b)) == SingleStage.StoreAddress(instr, a)
  {
    ImmediateMatchesFormat(instr);
    LatchStoreAddress(DecodeLatch(instr, pc, a, b), instr, a);
  }

  /** A load latch with base `a` and the I-immediate of `instr` addresses
      what the single-stage core reads for `instr`. */
  lemma LatchLoadAddress(ex: EXLatch, instr: bv32, a: bv32)
    requires ex.opcode == OpLoad && ex.readData1 == a && ex.imm == ImmI(instr)
    ensures ExAlu(ex) == SingleStage.LoadAddress(instr, a)
  {
    assert ExAlu(ex) == Alu(OpLoad, ex.funct3, ex.funct7, a, ex.readData2, ImmI(instr), ex.pc);
    AluLoadAddress(instr, ex.funct3, ex.funct7, a, ex.readData2, ex.pc);
  }

  /** A store latch with base `a` and the S-immediate of `instr` addresses
      what the single-stage core writes for `instr`. */
  lemma LatchStoreAddress(ex: EXLatch, instr: bv32, a: bv32)
    requires ex.opcode == OpStore && ex.readData1 == a && ex.imm == ImmS(instr)
    ensures ExAlu(ex) == SingleStage.StoreAddress(instr, a)
  {
    assert ExAlu(ex) == Alu(OpStore, ex.funct3, ex.funct7, a, ex.readData2, ImmS(instr), ex.pc);
    AluStoreAddress(instr, ex.funct3, ex.funct7, a, ex.readData2, ex.pc);
  }

  /** The ALU of a load over base `a` and the I-immediate of `instr` is
      the single-stage load address, whatever the other inputs. */
  lemma AluLoadAddress(instr: bv32, funct3: bv3, funct7: bv7, a: bv32, b: bv32, pc: bv32)
    ensures Alu(OpLoad, funct3, funct7, a, b, ImmI(instr), pc) == SingleStage.LoadAddress(instr, a)
  {
  }

  /** The ALU of a store over base `a` and the S-immediate of `instr` is
      the single-stage store address, whatever the other inputs. */
  lemma AluStoreAddress(instr: bv32, funct3: bv3, funct7: bv7, a: bv32, b: bv32, pc: bv32)
    ensures Alu(OpStore, funct3, funct7, a, b, ImmS(instr), pc) == SingleStage.StoreAddress(instr, a)
  {
  }

  /** JAL in this core links the jump target, not the return address: the
      value it carries to write-back is PC plus offset, which is also where
      fetch is redirected. */
  lemma JalLinksTarget(ex: EXLatch, prev: MEMLatch)
    requires !ex.nop && ex.opcode == OpJal && ex.wrtEnable
    ensures ExecuteStage(ex, prev).aluResult == ex.pc + ex.imm
    ensures ExecuteStage(ex, prev).branchTarget == ex.pc + ex.imm
    ensures ExecuteStage(ex, prev).isJump && ExecuteStage(ex, prev).wrtEnable
  {
    AluResults(ex.opcode, ex.funct3, ex.funct7, ex.readData1, ex.readData2, ex.imm, ex.pc);
    assert ExecuteStage(ex, prev) == ExecuteLatch(ex, prev, ExAlu(ex));
  }

  /** A fetched halt word stops fetch at its PC and sends a bubble, even
      when a redirect is pending in the memory latch. */
  lemma FetchHalts(m: Machine, imem: seq<bv8>)
    requires FiveStepSafe(m, imem) && !m.state.IF.nop && InstrAt(imem, m.state.IF.pc) == HaltWord
    ensures FiveStep(m, imem).state.IF == IFLatch(m.state.IF.pc, true)
    ensures FiveStep(m, imem).state.ID.nop
  {
  }

  /** Without a halt word, a taken branch or a jump in the memory latch
      moves the PC to its target and flushes only the decode latch: the
      instruction already in decode still moves on to execute. */
  lemma FetchRedirects(m: Machine, imem: seq<bv8>)
    requires FiveStepSafe(m, imem) && !m.state.IF.nop && InstrAt(imem, m.state.IF.pc) != HaltWord
    requires m.state.MEM.branchTaken || m.state.MEM.isJump
    ensures FiveStep(m, imem).state.IF == IFLatch(m.state.MEM.branchTarget, false)
    ensures FiveStep(m, imem).state.ID == IDLatch(0, true)
    ensures FiveStep(m, imem).state.EX == DecodeStage(m.state.ID, m.state.IF.pc, FiveStep(m, imem).regs)
  {
  }

  /** Otherwise fetch sends the word at the PC to decode and advances the
      PC by four. */
  lemma FetchAdvances(m: Machine, imem: seq<bv8>)
    requires FiveStepSafe(m, imem) && !m.state.IF.nop && InstrAt(imem, m.state.IF.pc) != HaltWord
    requires !m.state.MEM.branchTaken && !m.state.MEM.isJump
    ensures FiveStep(m, imem).state.IF == IFLatch(m.state.IF.pc + 4, false)
    ensures FiveStep(m, imem).state.ID == IDLatch(InstrAt(imem, m.state.IF.pc), false)
  {
  }

  /** The core halts exactly when it starts a cycle with five bubbles (or
      had halted already); the cycle counter advances by one; the register
      file keeps 32 registers with register 0 zero, and the data memory
      keeps its size. */
  lemma StepInvariants(m: Machine, imem: seq<bv8>)
    requires FiveStepSafe(m, imem)
    ensures FiveStep(m, imem).halted <==> m.halted || AllNop(m.state)
    ensures FiveStep(m, imem).cycle == NextCycle(m.cycle)
    ensures WellFormed(FiveStep(m, imem))
  {
  }

  /** The constructor's machine is well formed and its fetch is live at
      PC 0; in its first cycle nothing but fetch happens. */
  lemma FirstCycle(dmem: seq<bv8>, imem: seq<bv8>)
    requires |dmem| == MemSize && |imem| == MemSize
    ensures FiveStepSafe(FiveInit(dmem), imem)
    ensures var r := FiveStep(FiveInit(dmem), imem);
      && r.state.EX == ClearedEX(true) && r.state.MEM == ClearedMEM(true) && r.state.WB == ClearedWB(true)
      && r.regs == FiveInit(dmem).regs && r.dmem == dmem && !r.halted
      && r.state.ID.nop == (InstrAt(imem, 0) == HaltWord)
  {
  }

  /** The pipeline after its last instruction has drained: fetch stopped at
      `pc`, every latch a cleared bubble. */
  function Drained(pc: bv32): State {
    State(IFLatch(pc, true), IDLatch(0, true), ClearedEX(true), ClearedMEM(true), ClearedWB(true))
  }

  /** A cycle that starts with five bubbles leaves the registers and the
      memory alone, clears every latch and halts; from then on each cycle
      repeats the same state. */
  lemma DrainedIsFixed(m: Machine, imem: seq<bv8>)
    requires FiveStepSafe(m, imem) && AllNop(m.state)
    ensures var r := FiveStep(m, imem);
      && r.state == Drained(m.state.IF.pc) && r.regs == m.regs && r.dmem == m.dmem && r.halted
      && FiveStepSafe(r, imem)
      && FiveStep(r, imem) == r.(cycle := NextCycle(r.cycle))
  {
  }

  /** The first `k` latches (fetch first) hold bubbles. */
  predicate BubblesUpTo(s: State, k: nat) {
    && (k >= 1 ==> s.IF.nop) && (k >= 2 ==> s.ID.nop) && (k >= 3 ==> s.EX.nop)
    && (k >= 4 ==> s.MEM.nop) && (k >= 5 ==> s.WB.nop)
  }

  /** Once fetch has stopped, every cycle pushes the bubbles one latch
      further. */
  lemma BubblesAdvance(m: Machine, imem: seq<bv8>, k: nat)
    requires FiveStepSafe(m, imem) && 1 <= k && BubblesUpTo(m.state, k)
    ensures BubblesUpTo(FiveStep(m, imem).state, if k < 5 then k + 1 else 5)
    ensures k == 5 ==> FiveStep(m, imem).halted
  {
  }

  /** `n` cycles from `m`, or `None` if one of them would leave memory. */
  ghost function Run(m: Machine, imem: seq<bv8>, n: nat): Option<Machine>
    decreases n
  {
    if n == 0 then Some(m)
    else if !FiveStepSafe(m, imem) then None
    else Run(FiveStep(m, imem), imem, n - 1)
  }

  /** Once the first `k` latches are bubbles, the core has halted after
      `6 - k` more cycles that stay inside memory. */
  lemma {:induction false} DrainsThenHalts(m: Machine, imem: seq<bv8>, k: nat, r: Machine)
    requires 1 <= k <= 5 && BubblesUpTo(m.state, k)
    requires Run(m, imem, 6 - k) == Some(r)
    ensures r.halted
    decreases 5 - k
  {
    assert FiveStepSafe(m, imem);
    var next := FiveStep(m, imem);
    BubblesAdvance(m, imem, k);
    if k == 5 {
      HaltedStays(next, imem, 0, r);
    } else {
      DrainsThenHalts(next, imem, k + 1, r);
    }
  }

  /** A halted core stays halted. */
  lemma {:induction false} HaltedStays(m: Machine, imem: seq<bv8>, n: nat, r: Machine)
    requires m.halted && Run(m, imem, n) == Some(r)
    ensures r.halted
    decreases n
  {
    if n > 0 {
      HaltedStays(FiveStep(m, imem), imem, n - 1, r);
    }
  }

  /** After fetch reads the halt word, the core halts within five more
      cycles, provided those cycles stay inside memory. */
  lemma HaltsWithinFive(m: Machine, imem: seq<bv8>, r: Machine)
    requires m.state.IF.nop && Run(m, imem, 5) == Some(r)
    ensures r.halted
  {
    DrainsThenHalts(m, imem, 1, r);
  }
}
