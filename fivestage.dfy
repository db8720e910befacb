/** `FiveStageCore` of src/core.cpp: a five-stage pipeline (fetch, decode,
    execute, memory, write-back) that advances every latch once per cycle.
    The stages of one cycle are evaluated from write-back back to fetch, each
    reading the latches as they stood at the start of the cycle; write-back
    commits to the register file before decode reads it, and there is no
    other forwarding and no hazard detection. A taken branch or a jump,
    found in the memory latch, redirects fetch and flushes the decode latch
    only. */
module FiveStage {
  import opened Common
  import opened Decode
  import opened RegFile
  import opened DataMemory
  import opened InstructionMemory

  /** The write-back stage: the register file after the latch commits its
      value, which happens only for a live latch with its write enable set
      and a destination other than register 0. */
  function WriteBackCommit(regs: seq<bv32>, wb: WBLatch): (r: seq<bv32>)
    requires |regs| == NumRegs
    ensures |r| == NumRegs && r[0] == regs[0]
    ensures forall k :: 0 <= k < NumRegs ==>
      r[k] == if !wb.nop && wb.wrtEnable && k == wb.wrtRegAddr as int && k != 0 then wb.wrtData else regs[k]
  {
    if !wb.nop && wb.wrtEnable && wb.wrtRegAddr != 0 then WriteReg(regs, wb.wrtRegAddr, wb.wrtData) else regs
  }

  /** A live memory latch that loads or stores names a word inside the data
      memory. */
  predicate MemSafe(mem: MEMLatch) {
    !mem.nop && (mem.rdMem || mem.wrtMem) ==> WordInBounds(mem.aluResult)
  }

  /** The write-back latch the memory stage produces: a bubble with every
      field cleared after a bubble; otherwise the register fields, and the
      loaded word for a load or the ALU result for anything else. */
  function MemoryStage(mem: MEMLatch, dmem: seq<bv8>): WBLatch
    requires |dmem| == MemSize && MemSafe(mem)
  {
    if mem.nop then ClearedWB(true)
    else WBLatch(if mem.rdMem then LoadAt(dmem, mem.aluResult) else mem.aluResult,
                 mem.rs, mem.rt, mem.wrtRegAddr, mem.wrtEnable, false)
  }

  /** The data memory after the memory stage: a live store writes its data
      at the ALU result; nothing else touches the memory. */
  function MemoryWrite(mem: MEMLatch, dmem: seq<bv8>): (r: seq<bv8>)
    requires |dmem| == MemSize && MemSafe(mem)
    ensures |r| == MemSize
    ensures !mem.nop && mem.wrtMem ==> LoadAt(r, mem.aluResult) == mem.storeData
    ensures mem.nop || !mem.wrtMem ==> r == dmem
  {
    if !mem.nop && mem.wrtMem then
      LoadAtAfterStoreAt(dmem, mem.aluResult, mem.storeData);
      StoreAt(dmem, mem.aluResult, mem.storeData)
    else dmem
  }

  /** The ALU of the execute stage, chosen by the opcode `op` over the
      operands `a` and `b`, the immediate and the PC: the R-type and I-type
      operations, base plus offset for loads and stores, PC plus offset for
      branches and JAL, base plus offset with bit 0 cleared for JALR, and
      zero for any other opcode. */
  function Alu(op: bv7, funct3: bv3, funct7: bv7, a: bv32, b: bv32, imm: bv32, pc: bv32): bv32 {
    if op == OpR then RTypeResult(funct3, funct7, a, b)
    else if op == OpImm then ITypeResult(funct3, a, imm)
    else if op == OpLoad || op == OpStore then a + imm
    else if op == OpBranch || op == OpJal then pc + imm
    else if op == OpJalr then (a + imm) & 0xFFFF_FFFE
    else 0
  }

  /** `branchTaken` after the execute stage: a branch sets it to its
      condition; every other opcode leaves the previous value `prev`. */
  function TakenAfter(op: bv7, funct3: bv3, a: bv32, b: bv32, prev: bool): bool {
    if op == OpBranch then BranchTaken(funct3, a, b) else prev
  }

  /** `isJump` after the execute stage: JAL and JALR set it; every other
      opcode leaves the previous value `prev`. */
  function JumpAfter(op: bv7, prev: bool): bool {
    if op == OpJal || op == OpJalr then true else prev
  }

  /** `branchTarget` after the execute stage: a branch or jump sets it to
      the ALU result; every other opcode leaves the previous value `prev`. */
  function TargetAfter(op: bv7, alu: bv32, prev: bv32): bv32 {
    if op == OpBranch || op == OpJal || op == OpJalr then alu else prev
  }

  /** The memory latch a live execute latch `ex` produces with ALU result
      `alu` over the memory latch `prev` it overwrites: the control fields
      and the ALU result are copied, the second operand becomes the store
      data, and the redirect fields are set as the opcode asks. */
  function ExecuteLatch(ex: EXLatch, prev: MEMLatch, alu: bv32): MEMLatch {
    MEMLatch(alu, ex.readData2, ex.rs, ex.rt, ex.wrtRegAddr, TargetAfter(ex.opcode, alu, prev.branchTarget),
             ex.rdMem, ex.wrtMem, ex.wrtEnable,
             TakenAfter(ex.opcode, ex.funct3, ex.readData1, ex.readData2, prev.branchTaken),
             JumpAfter(ex.opcode, prev.isJump), false)
  }

  /** The ALU result of an execute latch. */
  function ExAlu(ex: EXLatch): bv32 {
    Alu(ex.opcode, ex.funct3, ex.funct7, ex.readData1, ex.readData2, ex.imm, ex.pc)
  }

  /** The memory latch the execute stage produces: a cleared bubble after a
      bubble, and otherwise the latch of the instruction with its ALU
      result. */
  function ExecuteStage(ex: EXLatch, prev: MEMLatch): MEMLatch {
    if ex.nop then ClearedMEM(true) else ExecuteLatch(ex, prev, ExAlu(ex))
  }

  /** The opcodes whose instructions write a register in this core. */
  predicate WritesRegister(op: bv7) {
    op == OpR || op == OpImm || op == OpLoad || op == OpJal || op == OpJalr
  }

  /** The execute latch a live decode latch holding `instr` produces with
      fetch PC `pc` and operands `a` and `b`: the decoded fields, both
      operands, the immediate of the opcode's format and the control
      flags. */
  function DecodeLatch(instr: bv32, pc: bv32, a: bv32, b: bv32): EXLatch {
    var op := Opcode(instr);
    EXLatch(a, b, Immediate(instr), Rs1(instr), Rs2(instr), Rd(instr), Funct3(instr), Funct7(instr), op, pc,
            op == OpImm || op == OpLoad || op == OpJalr, op == OpLoad, op == OpStore, true,
            WritesRegister(op), op == OpBranch, op == OpJal || op == OpJalr, false)
  }

  /** The execute latch the decode stage produces from the decode latch
      `id`, the fetch PC `pc` and the register file `regs` (already updated
      by this cycle's write-back): a cleared bubble after a bubble, and
      otherwise the decoded latch with both source registers read. */
  function DecodeStage(id: IDLatch, pc: bv32, regs: seq<bv32>): EXLatch
    requires |regs| == NumRegs
  {
    if id.nop then ClearedEX(true)
    else DecodeLatch(id.instr, pc, regs[Rs1(id.instr) as int], regs[Rs2(id.instr) as int])
  }

  /** What the fetch stage needs: a live fetch latch names a word inside the
      instruction memory. */
  predicate FetchSafe(f: IFLatch) {
    !f.nop ==> WordInBounds(f.pc)
  }

  /** The fetch and decode latches the fetch stage produces from the
      pre-cycle state `s`. A stopped fetch stays stopped at its PC and sends
      a cleared bubble. Otherwise the word at the PC is fetched: the halt
      word stops fetch and sends a bubble; else a taken branch or jump in
      the memory latch moves the PC to its target and flushes the decode
      latch; else the PC advances by four and the word goes to decode. */
  function FetchStage(s: State, imem: seq<bv8>): (IFLatch, IDLatch)
    requires |imem| == MemSize && FetchSafe(s.IF)
  {
    if s.IF.nop then (s.IF, IDLatch(0, true))
    else
      var instr := InstrAt(imem, s.IF.pc);
      if instr == HaltWord then (IFLatch(s.IF.pc, true), IDLatch(instr, true))
      else if s.MEM.branchTaken || s.MEM.isJump then (IFLatch(s.MEM.branchTarget, false), IDLatch(0, true))
      else (IFLatch(s.IF.pc + 4, false), IDLatch(instr, false))
  }

  /** What one cycle needs to stay inside both memories. */
  ghost predicate FiveStepSafe(m: Machine, imem: seq<bv8>) {
    WellFormed(m) && |imem| == MemSize && FetchSafe(m.state.IF) && MemSafe(m.state.MEM)
  }

  /** One cycle of `step`: every stage reads the pre-cycle latches, decode
      reads the registers after write-back, the core halts once it starts a
      cycle with five bubbles, and the cycle counter wraps at 32 bits. */
  ghost function FiveStep(m: Machine, imem: seq<bv8>): Machine
    requires FiveStepSafe(m, imem)
  {
    var s := m.state;
    var regs := WriteBackCommit(m.regs, s.WB);
    var fetch := FetchStage(s, imem);
    Machine(State(fetch.0, fetch.1, DecodeStage(s.ID, s.IF.pc, regs), ExecuteStage(s.EX, s.MEM), MemoryStage(s.MEM, m.dmem)),
            regs, MemoryWrite(s.MEM, m.dmem), NextCycle(m.cycle), m.halted || AllNop(s))
  }

  /** The state the constructor sets: fetch live at PC 0, every other latch
      a bubble, every other field zero. */
  function FiveInitState(): State {
    State(IFLatch(0, false), IDLatch(0, true), ClearedEX(true), ClearedMEM(true), ClearedWB(true))
  }

  /** The core as the constructor leaves it over the data memory `dmem`. */
  function FiveInit(dmem: seq<bv8>): Machine {
    Machine(FiveInitState(), seq(NumRegs, _ => 0), dmem, 0, false)
  }

  /** `FiveStep` assembled from its parts, for the proof of `Step`. */
  lemma FiveStepParts(m: Machine, imem: seq<bv8>, regs: seq<bv32>, wb: WBLatch, dmem: seq<bv8>,
                      mem: MEMLatch, ex: EXLatch, fetch: (IFLatch, IDLatch))
    requires FiveStepSafe(m, imem)
    requires regs == WriteBackCommit(m.regs, m.state.WB)
    requires wb == MemoryStage(m.state.MEM, m.dmem) && dmem == MemoryWrite(m.state.MEM, m.dmem)
    requires mem == ExecuteStage(m.state.EX, m.state.MEM)
    requires ex == DecodeStage(m.state.ID, m.state.IF.pc, regs)
    requires fetch == FetchStage(m.state, imem)
    ensures FiveStep(m, imem) == Machine(State(fetch.0, fetch.1, ex, mem, wb), regs, dmem, NextCycle(m.cycle), m.halted || AllNop(m.state))
  {
  }

  class FiveStageCore {
    const myRF: RegisterFile
    const extImem: InsMem
    const extDmem: DataMem
    var state: State
    var nextState: State
    var cycle: bv32
    var halted: bool

    /** The components are valid, the two memories are distinct arrays, and
        between cycles `nextState` equals `state` (the constructor copies
        one into the other and every cycle ends by copying back). */
    ghost predicate Valid()
      reads this, myRF.Registers, extImem.IMem, extDmem.DMem
    {
      myRF.Valid() && extImem.Valid() && extDmem.Valid() && extImem.IMem != extDmem.DMem
      && nextState == state
    }

    /** The core's register file, data memory, latches and counters. */
    ghost function Abs(): Machine
      reads this, myRF.Registers, extDmem.DMem
    {
      Machine(state, myRF.Registers[..], extDmem.DMem[..], cycle, halted)
    }

    /** The constructor: copies of both memories, all registers zero, fetch
        live at PC 0 and every other latch a bubble. */
    constructor (imem: InsMem, dmem: DataMem)
      requires imem.Valid() && dmem.Valid()
      ensures Valid()
      ensures fresh(myRF) && fresh(myRF.Registers) && fresh(extImem) && fresh(extImem.IMem)
      ensures fresh(extDmem) && fresh(extDmem.DMem)
      ensures extImem.IMem[..] == imem.IMem[..]
      ensures Abs() == FiveInit(dmem.DMem[..])
    {
      myRF := new RegisterFile();
      extImem := new InsMem.Copy(imem);
      extDmem := new DataMem.Copy(dmem);
      var s := ZeroState();
      s := s.(IF := s.IF.(pc := 0, nop := false));
      s := s.(ID := s.ID.(nop := true, instr := 0));
      s := s.(EX := s.EX.(nop := true), MEM := s.MEM.(nop := true), WB := s.WB.(nop := true));
      state := s;
      nextState := state;
      cycle := 0;
      halted := false;
      new;
      assert myRF.Registers[..] == seq(NumRegs, _ => 0);
    }

    /** `step`: the model `FiveStep` of one cycle. */
    method Step()
      requires Valid() && FiveStepSafe(Abs(), extImem.IMem[..])
      modifies this, myRF.Registers, extDmem.DMem
      ensures Valid()
      ensures Abs() == FiveStep(old(Abs()), extImem.IMem[..])
    {
      ghost var m := Abs();
      ghost var imem := extImem.IMem[..];
      WBStage();
      ghost var regs := myRF.Registers[..];
      MEMStage();
      ghost var dmem := extDmem.DMem[..];
      assert extImem.IMem[..] == imem && myRF.Registers[..] == regs;
      EXStage();
      IDStage();
      IFStage();
      ghost var next := nextState;
      assert state == m.state && cycle == m.cycle && halted == m.halted;
      assert next == State(next.IF, next.ID, next.EX, next.MEM, next.WB);
      FiveStepParts(m, imem, regs, next.WB, dmem, next.MEM, next.EX, (next.IF, next.ID));
      EndCycle();
      assert extImem.IMem[..] == imem && myRF.Registers[..] == regs && extDmem.DMem[..] == dmem;
    }

    /** The end of `step`: the core halts once a cycle starts with five
        bubbles, `nextState` becomes the state, and the cycle counter
        advances. */
    method EndCycle()
      modifies this
      ensures nextState == old(nextState) && state == old(nextState)
      ensures cycle == NextCycle(old(cycle)) && halted == (old(halted) || AllNop(old(state)))
    {
      if state.IF.nop && state.ID.nop && state.EX.nop && state.MEM.nop && state.WB.nop {
        halted := true;
      }
      state := nextState;
      cycle := NextCycle(cycle);
    }

    /** The write-back stage of `step`. */
    method WBStage()
      requires myRF.Valid()
      modifies myRF.Registers
      ensures myRF.Valid()
      ensures myRF.Registers[..] == WriteBackCommit(old(myRF.Registers[..]), state.WB)
    {
      if !state.WB.nop && state.WB.wrtEnable && state.WB.wrtRegAddr != 0 {
        myRF.WriteRF(state.WB.wrtRegAddr, state.WB.wrtData);
      }
    }

    /** The memory stage of `step`: fills the write-back part of
        `nextState` and performs the load or store. */
    method MEMStage()
      requires extDmem.Valid() && MemSafe(state.MEM)
      modifies this, extDmem.DMem
      ensures extDmem.Valid()
      ensures state == old(state) && cycle == old(cycle) && halted == old(halted)
      ensures nextState == old(nextState).(WB := MemoryStage(state.MEM, old(extDmem.DMem[..])))
      ensures extDmem.DMem[..] == MemoryWrite(state.MEM, old(extDmem.DMem[..]))
    {
      var wb := nextState.WB.(nop := state.MEM.nop);
      if !state.MEM.nop {
        wb := wb.(rs := state.MEM.rs, rt := state.MEM.rt, wrtRegAddr := state.MEM.wrtRegAddr,
                  wrtEnable := state.MEM.wrtEnable);
        if state.MEM.rdMem {
          var data := extDmem.ReadDataMem(state.MEM.aluResult);
          wb := wb.(wrtData := data);
        } else {
          wb := wb.(wrtData := state.MEM.aluResult);
        }
        if state.MEM.wrtMem {
          extDmem.WriteDataMem(state.MEM.aluResult, state.MEM.storeData);
        }
      } else {
        wb := wb.(rs := 0, rt := 0, wrtRegAddr := 0, wrtData := 0, wrtEnable := false);
      }
      nextState := nextState.(WB := wb);
    }

    /** The execute stage of `step`: fills the memory part of `nextState`
        from the execute latch and the memory part it overwrites. */
    method EXStage()
      modifies this
      ensures state == old(state) && cycle == old(cycle) && halted == old(halted)
      ensures nextState == old(nextState).(MEM := ExecuteStage(state.EX, old(nextState).MEM))
    {
      var mem := nextState.MEM.(nop := state.EX.nop);
      if !state.EX.nop {
        var ex := state.EX;
        var aluResult := AluOp(ex.opcode, ex.funct3, ex.funct7, ex.readData1, ex.readData2, ex.imm, ex.pc);
        var taken, jump, target :=
          Redirect(ex.opcode, ex.funct3, ex.readData1, ex.readData2, aluResult, mem.branchTaken, mem.isJump, mem.branchTarget);
        mem := mem.(rs := ex.rs, rt := ex.rt, wrtRegAddr := ex.wrtRegAddr, rdMem := ex.rdMem,
                    wrtMem := ex.wrtMem, wrtEnable := ex.wrtEnable, storeData := ex.readData2,
                    branchTaken := taken, isJump := jump, branchTarget := target, aluResult := aluResult);
      } else {
        mem := mem.(rs := 0, rt := 0, wrtRegAddr := 0, aluResult := 0, storeData := 0, rdMem := false,
                    wrtMem := false, wrtEnable := false, branchTaken := false, isJump := false, branchTarget := 0);
      }
      nextState := nextState.(MEM := mem);
    }

    /** The redirect fields the execute stage leaves: a branch sets
        `branchTaken` to BEQ's or BNE's condition and the target to the ALU
        result, JAL and JALR set `isJump` and the target, and the fields an
        opcode does not set keep their values. */
    static method Redirect(op: bv7, funct3: bv3, a: bv32, b: bv32, aluResult: bv32,
                           taken0: bool, jump0: bool, target0: bv32)
        returns (taken: bool, jump: bool, target: bv32)
      ensures taken == TakenAfter(op, funct3, a, b, taken0)
      ensures jump == JumpAfter(op, jump0)
      ensures target == TargetAfter(op, aluResult, target0)
    {
      taken, jump, target := taken0, jump0, target0;
      if op == OpBranch {
        var takeBranch := false;
        if funct3 == 0 {
          takeBranch := a == b;
        } else if funct3 == 1 {
          takeBranch := a != b;
        }
        taken, target := takeBranch, aluResult;
      } else if op == OpJal || op == OpJalr {
        jump, target := true, aluResult;
      }
    }

    /** The ALU of the execute stage, as the opcode chain of `step`
        computes it (the function-field chains of the R-type and I-type
        cases are `RTypeResult` and `ITypeResult`). */
    static method AluOp(op: bv7, funct3: bv3, funct7: bv7, a: bv32, b: bv32, imm: bv32, pc: bv32)
        returns (aluResult: bv32)
      ensures aluResult == Alu(op, funct3, funct7, a, b, imm, pc)
    {
      aluResult := 0;
      if op == OpR {
        aluResult := RTypeResult(funct3, funct7, a, b);
      } else if op == OpImm {
        aluResult := ITypeResult(funct3, a, imm);
      } else if op == OpLoad || op == OpStore {
        aluResult := a + imm;
      } else if op == OpBranch {
        aluResult := pc + imm;
      } else if op == OpJal || op == OpJalr {
        if op == OpJal {
          aluResult := pc + imm;
        } else {
          aluResult := (a + imm) & !1;
        }
      }
    }

    /** The decode stage of `step`: fills the execute part of `nextState`
        from the decode latch, reading the register file as write-back left
        it. */
    method IDStage()
      requires myRF.Valid()
      modifies this
      ensures state == old(state) && cycle == old(cycle) && halted == old(halted)
      ensures nextState == old(nextState).(EX := DecodeStage(state.ID, state.IF.pc, myRF.Registers[..]))
    {
      var ex := nextState.EX.(nop := state.ID.nop);
      if !state.ID.nop {
        var instr := state.ID.instr;
        var data1 := myRF.ReadRF(Rs1(instr));
        var data2 := myRF.ReadRF(Rs2(instr));
        ex := DecodeLive(ex, instr, state.IF.pc, data1, data2);
      } else {
        ex := ClearedEX(true);
      }
      nextState := nextState.(EX := ex);
    }

    /** The live branch of the decode stage, with both source registers
        already read: the decoded fields, the PC, the operands, the
        immediate and the control flags. */
    static method DecodeLive(ex0: EXLatch, instr: bv32, pc: bv32, data1: bv32, data2: bv32) returns (ex: EXLatch)
      requires !ex0.nop
      ensures ex == DecodeLatch(instr, pc, data1, data2)
    {
      var opcode := Opcode(instr);
      ex := ex0.(opcode := opcode, funct3 := Funct3(instr), funct7 := Funct7(instr),
                 rs := Rs1(instr), rt := Rs2(instr), wrtRegAddr := Rd(instr), pc := pc);
      ex := ex.(readData1 := data1, readData2 := data2);
      var imm := ImmediateOf(instr);
      ex := ex.(imm := imm);
      ex := ex.(isIType := opcode == OpImm || opcode == OpLoad || opcode == OpJalr,
                rdMem := opcode == OpLoad, wrtMem := opcode == OpStore,
                wrtEnable := opcode == OpR || opcode == OpImm || opcode == OpLoad || opcode == OpJal || opcode == OpJalr,
                isBranch := opcode == OpBranch, isJump := opcode == OpJal || opcode == OpJalr, aluOp := true);
    }

    /** The immediate generation of the decode stage: the I, S, B or J
        immediate by opcode, and zero for the other opcodes. */
    static method ImmediateOf(instr: bv32) returns (imm: bv32)
      ensures imm == Immediate(instr)
    {
      var opcode := Opcode(instr);
      imm := 0;
      if opcode == OpImm || opcode == OpLoad || opcode == OpJalr {
        imm := ImmI(instr);
      } else if opcode == OpStore {
        imm := ImmS(instr);
      } else if opcode == OpBranch {
        imm := ImmB(instr);
      } else if opcode == OpJal {
        imm := ImmJ(instr);
      }
    }

    /** The fetch stage of `step`: fills the fetch and decode parts of
        `nextState`. */
    method IFStage()
      requires extImem.Valid() && FetchSafe(state.IF) && nextState.IF == state.IF
      modifies this
      ensures state == old(state) && cycle == old(cycle) && halted == old(halted)
      ensures nextState == old(nextState).(IF := FetchStage(state, extImem.IMem[..]).0,
                                           ID := FetchStage(state, extImem.IMem[..]).1)
    {
      var id := nextState.ID.(nop := state.IF.nop);
      var fetch := nextState.IF;
      if !state.IF.nop {
        var instruction := extImem.ReadInstr(state.IF.pc);
        id := id.(instr := instruction);
        if instruction == HaltWord {
          fetch := fetch.(nop := true);
          id := id.(nop := true);
        } else if state.MEM.branchTaken || state.MEM.isJump {
          fetch := fetch.(pc := state.MEM.branchTarget);
          id := id.(nop := true, instr := 0);
        } else {
          fetch := fetch.(pc := state.IF.pc + 4);
        }
      } else {
        id := id.(instr := 0);
        fetch := fetch.(pc := state.IF.pc);
      }
      nextState := nextState.(IF := fetch, ID := id);
    }
  }
}
