# RISCVSim core in Dafny

This project models the core of RISCVSim, a small cycle-level simulator for a subset of RV32I:

- the register file;
- the two 1000-byte memories (little-endian data memory, big-endian instruction memory, with the instruction loader's line filter);
- the instruction decoder and immediate generator;
- the single-stage core, one instruction per `step`;
- the five-stage pipelined core, with latches IF/ID/EX/MEM/WB evaluated write-back first;
- the helper in the driver that names a run after its test-case directory.

The model follows the C++ code as written, and proves what each piece does.

**Components.** Components that the C++ code updates in place are classes over arrays:

- `RegFile.RegisterFile`;
- `DataMemory.DataMem` and `InstructionMemory.InsMem`;
- `SingleStage.SingleStageCore` and `FiveStage.FiveStageCore`.

**Specification functions.** Every method is proved equal to a function of the old state:

- `WriteReg` for the register file;
- `StoreAt` and `LoadAt` for the data memory;
- `InstrAt` for the instruction memory;
- `SingleStep` for the single-stage core;
- `FiveStep` for the five-stage core;
- `TestcaseNameOf` for the name helper.

The lemmas then state the properties of those functions.

**Bit widths.** Every `bitset<N>` field of `stateStruct` is a `bvN` in `Common`. So the following hold by typing:

- the register indices (`Rs`, `Rt`, `Wrt_reg_addr`) are below 32;
- `funct3` is below 8, and `funct7` and `opcode` are below 128;
- the PC, instruction, operand, immediate, ALU-result, data and branch-target fields are 32-bit words;
- all arithmetic wraps modulo 2^32.

**State and cycle counter.**

- The machine state is exactly five latches, each with its own `nop` flag (`Common.State`).
- The cycle counter is a `uint32_t`: `bv32` in the model, and it wraps.

Modules: `Common`, `Decode`, `RegFile`, `DataMemory`, `InstructionMemory`, `SingleStage`, `SingleStageProperties`, `FiveStage`, `FiveStageProperties`, `TestcaseName`.

**Behaviours modelled as written.** These differ from a textbook pipeline, and the model keeps them:

- The five-stage core has no forwarding and no hazard detection. Decode reads the register file after the same cycle's write-back and sees nothing else (`DecodeReadsAfterWriteBack`, `NoForwardingFromExOrMem`).
- Branches and jumps resolve in execute. Fetch applies the redirect one cycle later, from the pre-cycle memory latch, and flushes only the decode latch. The instruction already in decode moves on to execute (`FetchRedirects`).
- Decode stores the fetch stage's PC in `EX.PC`. That is the address after the decoded word, not its own (`DecodeFields`).
- In the five-stage core, JAL writes the jump target into `rd`, not PC + 4 (`JalLinksTarget`). In the single-stage core, JAL links PC + 4 (`ExecJal`).
- JALR exists only in the five-stage core. The single-stage core sends it to the `default` case: no register write, PC + 4 (`ExecJalr`).
- `nextState` is never cleared between cycles. In the execute stage, an instruction that is not a branch or a jump keeps the previous `branch_taken`, `is_jump` and `branch_target`. A pending redirect is therefore applied again (`ExecuteRedirect`).
- A fetched halt word beats a pending redirect (`FetchHalts`).
- An R-type or I-type word with an unsupported function code still writes zero to `rd` (`ExecRUnsupported`, `ExecIUnsupported`).
- When the last path component starts with `testcase`, it is returned whole, trailing text included. The fallback search keeps only the digits after the marker (`LastComponentWins`, `MarkerAndDigits`).

## Model

| member | source | states |
|---|---|---|
| RegFile.WriteReg | src/registerfile.cpp:16-21 | a write changes only the addressed register; a write to register 0 changes nothing, so register 0 keeps its value |
| RegFile.RegisterFile.constructor | src/registerfile.cpp:3-6 | all 32 registers start at zero |
| RegFile.RegisterFile.ReadRF | src/registerfile.cpp:8-14 | returns the addressed register for every 5-bit address, modifies nothing, and register 0 reads zero |
| RegFile.RegisterFile.WriteRF | src/registerfile.cpp:16-21 | the new register file is `WriteReg` of the old one, and register 0 stays zero |
| RegFile.RegisterFile.DebugGetRegister | src/registerfile.cpp:49-54 | the register at an index in 0..31, and zero for any other integer index |
| RegFile.RegisterFile.DebugSetRegister | src/registerfile.cpp:56-60 | sets only the given register; index 0 and out-of-range indices change nothing |
| RegFile.ReadAfterWrite | src/registerfile.cpp:16-21 | reading back a register just written gives the written value, or zero for register 0 |
| RegFile.ZeroSurvivesWrites | src/registerfile.cpp:16-21 | no sequence of writes makes register 0 nonzero |
| DataMemory.LoadWord | src/datamem.cpp:25-33 | the word at a byte offset, least significant byte first; `LoadWordValue` gives its numeric value, and `LoadAfterStore` and `LoadAfterDisjointStore` relate it to `StoreWord` |
| DataMemory.StoreWord | src/datamem.cpp:35-43 | the memory keeps its size; `StoreWordBytes` states that byte k of the word goes to offset + k and no other byte changes |
| DataMemory.LoadAt | src/datamem.cpp:25-33 | `LoadWord` at a 32-bit address whose word lies inside the memory; `LoadAtAfterStoreAt` reads back the word `StoreAt` wrote there |
| DataMemory.StoreAt | src/datamem.cpp:35-43 | `StoreWord` at a 32-bit address whose word lies inside the memory; the memory keeps MemSize bytes |
| DataMemory.StoreWordBytes | src/datamem.cpp:40-42 | a store sets byte a+k to byte k of the word, least significant first, and leaves every byte outside a..a+3 unchanged |
| DataMemory.ReadBytes | src/datamem.cpp:27-32 | the accumulation loop yields the little-endian word at the offset |
| DataMemory.DataMem.constructor | src/datamem.cpp:3-23 | byte i is the i-th line of the file; every other byte is zero, and all bytes are zero when the file cannot be opened |
| DataMemory.DataMem.Copy | src/core.cpp:3 | the copy a core holds has the same bytes as the memory it was given |
| DataMemory.DataMem.ReadDataMem | src/datamem.cpp:25-33 | returns the little-endian word at the address and modifies nothing |
| DataMemory.DataMem.WriteDataMem | src/datamem.cpp:35-43 | the new memory is `StoreAt` of the old one at the address |
| DataMemory.DataMem.WriteAt | src/datamem.cpp:40-42 | the byte loop writes the four bytes of the word and nothing else |
| DataMemory.DataMem.DebugGetMemoryByte | src/datamem.cpp:87-92 | the byte at an in-range index, and zero outside [0, MemSize) |
| DataMemory.LoadWordValue | src/datamem.cpp:25-33 | the word read equals DMem[a] + 2^8·DMem[a+1] + 2^16·DMem[a+2] + 2^24·DMem[a+3] |
| DataMemory.LoadAfterStore | src/datamem.cpp:25-43 | reading back the address just written returns the written word |
| DataMemory.LoadAtAfterStoreAt | src/datamem.cpp:25-43 | at a 32-bit address: the stored word reads back, and bytes outside the four written are unchanged |
| DataMemory.LoadAfterDisjointStore | src/datamem.cpp:25-43 | a store leaves every non-overlapping word unchanged |
| DataMemory.StoreIsLittleEndian | src/datamem.cpp:41 | the first stored byte is the low byte of the word and the fourth is its high byte |
| DataMemory.LittleEndianExample | src/datamem.cpp:25-33 | bytes 78 56 34 12 at address 0 read as 0x12345678 |
| InstructionMemory.StripCR | src/insmem.cpp:18-20 | at most one trailing carriage return is removed, and exactly one when present |
| InstructionMemory.CleanLines | src/insmem.cpp:16-25 | the lines the loader stores, in file order, never more than the file has; `CleanLinesNonEmpty`, `CleanLinesAppend`, `BlankLinesIgnored` and `CleanLinesOfClean` characterise it |
| InstructionMemory.CleanLinesNonEmpty | src/insmem.cpp:22-25 | every line the loader keeps is non-empty |
| InstructionMemory.CleanLinesAppend | src/insmem.cpp:16-26 | the filter works line by line: filtering a file is filtering its parts |
| InstructionMemory.BlankLinesIgnored | src/insmem.cpp:16-25 | an empty line, or one holding only a carriage return, does not change the image |
| InstructionMemory.CleanLinesOfClean | src/insmem.cpp:16-25 | a file with no carriage returns and no blank lines is stored line for line |
| InstructionMemory.ProgramImage | src/insmem.cpp:3-32 | byte i is the i-th non-empty line after CR removal, every other byte is zero, and all bytes are zero when the file cannot be opened |
| InstructionMemory.FetchWord | src/insmem.cpp:34-42 | the word at a byte offset, most significant byte first; `FetchWordValue` gives its numeric value and `BigEndianExample` an instance |
| InstructionMemory.InstrAt | src/insmem.cpp:34-42 | `FetchWord` at a 32-bit address whose word lies inside the memory |
| InstructionMemory.FetchBytes | src/insmem.cpp:36-41 | the accumulation loop yields the big-endian word at the offset |
| InstructionMemory.LoadLines | src/insmem.cpp:14-26 | the loader loop over a zero-filled memory produces `ProgramImage` of the file |
| InstructionMemory.InsMem.constructor | src/insmem.cpp:3-32 | the loaded memory is `ProgramImage` of the file |
| InstructionMemory.InsMem.Copy | src/core.cpp:3 | the copy a core holds has the same bytes as the memory it was given |
| InstructionMemory.InsMem.ReadInstr | src/insmem.cpp:34-42 | returns the big-endian word at the address and modifies nothing |
| InstructionMemory.InsMem.DebugGetMemorySize | src/insmem.cpp:51-53 | the size is MemSize |
| InstructionMemory.InsMem.DebugGetMemoryByte | src/insmem.cpp:55-60 | the byte at an in-range index, and zero outside [0, MemSize) |
| InstructionMemory.FetchWordValue | src/insmem.cpp:34-42 | the word fetched equals 2^24·IMem[a] + 2^16·IMem[a+1] + 2^8·IMem[a+2] + IMem[a+3] |
| InstructionMemory.BigEndianExample | src/insmem.cpp:39 | bytes 00 a0 00 93 at address 0 fetch as 0x00a00093, the reverse of the data memory's order |
| Common.CycleWraps | src/core.cpp:430 | the cycle counter counts up by one and wraps to zero only after 2^32 - 1 |
| Common.InitialImage | src/datamem.cpp:3-23 | the image of a memory loaded from a file has MemSize bytes; `InitialImageBytes` gives each byte |
| Common.InitialImageBytes | src/datamem.cpp:13-21 | byte k is the parsed line k when the file has one and zero otherwise, and every byte is zero when the file cannot be opened |
| Decode.Opcode | src/core.cpp:56 | instruction bits 6:0; `DecodeEncodeR` .. `DecodeEncodeJ` recover it from every encoded word |
| Decode.Rd | src/core.cpp:57 | instruction bits 11:7, recovered from R, I and J words by `DecodeEncodeR`, `DecodeEncodeI` and `DecodeEncodeJ` |
| Decode.Funct3 | src/core.cpp:58 | instruction bits 14:12, recovered from R, I, S and B words by the `DecodeEncode` lemmas |
| Decode.Rs1 | src/core.cpp:59 | instruction bits 19:15, recovered from R, I, S and B words by the `DecodeEncode` lemmas |
| Decode.Rs2 | src/core.cpp:60 | instruction bits 24:20, recovered from R, S and B words by the `DecodeEncode` lemmas |
| Decode.Funct7 | src/core.cpp:61 | instruction bits 31:25, recovered from R words by `DecodeEncodeR` |
| Decode.ImmI | src/core.cpp:91 | the arithmetic shift of the word right by 20; `ImmIBits` and `DecodeEncodeI` state the bits it carries and its sign extension |
| Decode.ImmS | src/core.cpp:112-113 | bits 11:7 and 31:25 joined and sign-extended from bit 11; `ImmSBits` and `DecodeEncodeS` state it |
| Decode.ImmB | src/core.cpp:119-123 | bits 7, 11:8, 30:25 and 31 placed at 11, 4:1, 10:5 and 12 and sign-extended; `ImmBBits` and `DecodeEncodeB` state it |
| Decode.ImmJ | src/core.cpp:142-146 | bits 30:21, 20, 19:12 and 31 placed at 10:1, 11, 19:12 and 20 and sign-extended; `ImmJBits` and `DecodeEncodeJ` state it |
| Decode.Immediate | src/core.cpp:346-365 | the immediate the five-stage decoder generates per opcode; `ImmediateMatchesFormat` and `ImmediateRanges` characterise it |
| Decode.RTypeResult | src/core.cpp:73-87 | ADD, SUB, XOR, OR and AND by funct3/funct7, and zero for any other combination; the five-stage ALU uses it at src/core.cpp:261-272 (`ExecAdd` .. `ExecRUnsupported`, `ExecuteMatchesSingleStage`) |
| Decode.ITypeResult | src/core.cpp:89-102 | ADDI, XORI, ORI and ANDI by funct3, and zero otherwise; the five-stage ALU uses it at src/core.cpp:273-282 (`ExecAddi` .. `ExecIUnsupported`) |
| Decode.BranchTaken | src/core.cpp:125-130 | BEQ is taken on equal operands, BNE on different ones, and no other funct3 is taken (`ExecBeq`, `ExecBne`, `ExecBranchUnsupported`, `ExecuteRedirect`) |
| Decode.ImmIBits | src/core.cpp:91 | the I-immediate carries instruction bits 30:20, and bit 31 fills the upper bits |
| Decode.ImmSBits | src/core.cpp:112-113 | the S-immediate carries bits 31:25 and 11:7, sign-extended from bit 11 |
| Decode.ImmBBits | src/core.cpp:119-123 | the B-immediate is even, carries bits 7, 30:25 and 11:8, and is sign-extended from bit 12 |
| Decode.ImmJBits | src/core.cpp:142-146 | the J-immediate is even, carries bits 30:21, 20 and 19:12, and is sign-extended from bit 20 |
| Decode.ImmediateRanges | src/core.cpp:346-365 | every I/S immediate is a sign-extended 12-bit value, B a sign-extended even 13-bit value, and J a sign-extended even 21-bit value |
| Decode.DecodeEncodeR | src/core.cpp:55-61 | decoding an R-type word built from fields returns those fields: opcode bits 6:0, rd 11:7, funct3 14:12, rs1 19:15, rs2 24:20, funct7 31:25 |
| Decode.DecodeEncodeI | src/core.cpp:89-91 | decoding an I-type word returns its fields and its immediate |
| Decode.DecodeEncodeS | src/core.cpp:111-113 | decoding an S-type word returns its fields and its immediate |
| Decode.DecodeEncodeB | src/core.cpp:118-123 | decoding a B-type word returns its fields and its even offset |
| Decode.DecodeEncodeJ | src/core.cpp:139-146 | decoding a J-type word returns its destination and its even offset |
| Decode.ImmediateMatchesFormat | src/core.cpp:346-365 | the five-stage immediate generator gives, per opcode, the same I, S, B or J immediate that the single-stage core computes |
| SingleStage.Writeback | src/core.cpp:72-154 | the write enable and write data the opcode switch leaves; the per-instruction lemmas `RTypeStep` .. `ExecUnknown` state them case by case |
| SingleStage.NextPC | src/core.cpp:118-164 | the next PC: a taken branch or JAL goes to PC + offset, everything else to PC + 4 (`BranchStep`, `ExecJal`, `NextPCOtherwise`) |
| SingleStage.StoreResult | src/core.cpp:111-116 | the data memory after the switch: only a store changes it (`StoreStep`, `ExecSw`, `SingleFrame`) |
| SingleStage.Retire | src/core.cpp:54-170 | decode, switch, write-back and PC update of one live instruction; `SingleFrame` bounds what it changes, and the per-instruction lemmas state the rest |
| SingleStage.NextPCOtherwise | src/core.cpp:161-164 | every opcode other than BEQ/BNE, JAL and JALR advances the PC by four |
| SingleStage.SingleStep | src/core.cpp:28-171 | every step keeps 32 registers with register 0 zero, keeps the memory size, and increments the cycle by exactly one |
| SingleStage.SingleStageCore.constructor | src/core.cpp:12-20 | the core holds copies of both memories, all registers are zero, and fetch is live at PC 0 |
| SingleStage.SingleStageCore.Step | src/core.cpp:28-171 | one call of `step` turns the core's registers, memory, latch, cycle and halted flag into `SingleStep` of the old ones |
| SingleStage.SingleStageCore.Execute | src/core.cpp:54-170 | decode, register reads, the opcode switch, write-back and the PC update together retire the instruction |
| SingleStage.SingleStageCore.WriteBack | src/core.cpp:156-159 | only an enabled write to a register other than 0 changes the register file |
| SingleStage.SingleStageCore.Switch | src/core.cpp:72-154 | the opcode switch's write enable, write data, store and next PC are those of the specification functions |
| SingleStageProperties.Executes | src/core.cpp:41-52 | a live fetch of any word but the sentinel executes it |
| SingleStageProperties.RTypeStep | src/core.cpp:73-88 | an R-type word advances the PC and writes the R-type ALU result of rs1 and rs2 into rd |
| SingleStageProperties.ExecAdd | src/core.cpp:75-76 | ADD writes the wrapped sum; the PC advances by four |
| SingleStageProperties.ExecSub | src/core.cpp:77-78 | SUB writes the wrapped difference; the PC advances by four |
| SingleStageProperties.ExecXor | src/core.cpp:79-80 | XOR writes the bitwise exclusive or |
| SingleStageProperties.ExecOr | src/core.cpp:81-82 | OR writes the bitwise or |
| SingleStageProperties.ExecAnd | src/core.cpp:83-84 | AND writes the bitwise and |
| SingleStageProperties.ExecRUnsupported | src/core.cpp:73-87 | any other funct combination of opcode 0x33 still writes, and rd receives zero |
| SingleStageProperties.ITypeStep | src/core.cpp:89-103 | an I-type ALU word writes the I-type result of rs1 and the sign-extended immediate |
| SingleStageProperties.ExecAddi | src/core.cpp:92-93 | ADDI writes rs1 plus the sign-extended immediate, wrapped |
| SingleStageProperties.ExecXori | src/core.cpp:94-95 | XORI writes rs1 xor the immediate |
| SingleStageProperties.ExecOri | src/core.cpp:96-97 | ORI writes rs1 or the immediate |
| SingleStageProperties.ExecAndi | src/core.cpp:98-99 | ANDI writes rs1 and the immediate |
| SingleStageProperties.ExecIUnsupported | src/core.cpp:89-102 | the other funct3 values of opcode 0x13 write zero to rd |
| SingleStageProperties.ExecLw | src/core.cpp:104-110 | a load writes the little-endian word at rs1 + imm into rd and advances the PC |
| SingleStageProperties.StoreStep | src/core.cpp:111-116 | a store changes no register, stores rs2 at rs1 + S-immediate and advances the PC |
| SingleStageProperties.ExecSw | src/core.cpp:111-116 | after SW a load at its address finds rs2, and no byte outside the four written changes |
| SingleStageProperties.BranchStep | src/core.cpp:118-137 | a branch changes no register or memory, and goes to PC + imm exactly when its condition holds, else to PC + 4 |
| SingleStageProperties.ExecBeq | src/core.cpp:126-127 | BEQ goes to PC + imm when rs1 = rs2 and to PC + 4 otherwise |
| SingleStageProperties.ExecBne | src/core.cpp:128-129 | BNE goes to PC + imm when rs1 differs from rs2 and to PC + 4 otherwise |
| SingleStageProperties.ExecBranchUnsupported | src/core.cpp:125-136 | the other funct3 values of opcode 0x63 are never taken |
| SingleStageProperties.ExecJal | src/core.cpp:139-148 | JAL links PC + 4 into rd and jumps to PC + imm |
| SingleStageProperties.ExecJalr | src/core.cpp:150-153 | JALR falls to the default case: no register write, PC + 4 |
| SingleStageProperties.ExecUnknown | src/core.cpp:150-153 | a word with an unknown opcode (not the sentinel) only advances the PC |
| SingleStageProperties.SingleFrame | src/core.cpp:156-159 | a step changes at most register rd; only a store changes memory; SW, branches, JALR and unknown opcodes write no register |
| SingleStageProperties.SentinelHalts | src/core.cpp:43-52 | fetching 0xFFFFFFFF sets IF.nop and keeps PC, registers and memory; the next step only sets `halted` |
| SingleStageProperties.HaltedIsFixed | src/core.cpp:32-39 | with IF.nop the step only sets `halted` and advances the cycle |
| FiveStage.FiveStep | src/core.cpp:209-431 | one cycle of all five stages over the pre-cycle state; `StepInvariants`, `BubblesPropagate` and the stage lemmas below characterise it |
| FiveStage.WriteBackCommit | src/core.cpp:212-214 | a register changes only when the write-back latch is live and enabled, and the register is its nonzero destination |
| FiveStage.MemoryWrite | src/core.cpp:232-235 | a live store leaves its data readable at the ALU result; without one the data memory is unchanged |
| FiveStage.MemoryStage | src/core.cpp:217-242 | the write-back latch the memory stage produces (`MemoryAccess`, `BubblesPropagate`) |
| FiveStage.Alu | src/core.cpp:259-305 | the ALU result by opcode (`AluResults`, `JalLinksTarget`, `ExecuteMatchesSingleStage`, `LoadAddressMatchesSingleStage`, `StoreAddressMatchesSingleStage`) |
| FiveStage.TakenAfter | src/core.cpp:285-295 | a branch sets branch_taken to its condition; other opcodes keep it (`ExecuteRedirect`) |
| FiveStage.JumpAfter | src/core.cpp:297-304 | JAL and JALR set is_jump; other opcodes keep it (`ExecuteRedirect`) |
| FiveStage.TargetAfter | src/core.cpp:285-304 | branches and jumps set branch_target to the ALU result; other opcodes keep it (`ExecuteRedirect`) |
| FiveStage.ExecuteLatch | src/core.cpp:245-307 | the memory latch a live execute latch produces (`ExecuteForwards`, `ExecuteRedirect`) |
| FiveStage.ExecuteStage | src/core.cpp:245-320 | the memory latch the execute stage produces, a cleared bubble after a bubble (`ExecuteForwards`, `BubblesPropagate`) |
| FiveStage.DecodeLatch | src/core.cpp:324-375 | the execute latch a live decode latch produces (`DecodeFields`, `DecodeFlags`) |
| FiveStage.DecodeStage | src/core.cpp:323-394 | the execute latch the decode stage produces (`DecodeFields`, `DecodeReadsAfterWriteBack`, `NoForwardingFromExOrMem`, `BubblesPropagate`) |
| FiveStage.FetchStage | src/core.cpp:397-420 | the fetch and decode latches the fetch stage produces (`FetchHalts`, `FetchRedirects`, `FetchAdvances`, `BubblesPropagate`) |
| FiveStage.FiveStageCore.constructor | src/core.cpp:189-202 | fetch is live at PC 0, the other latches are bubbles, all registers are zero, and the core holds copies of both memories |
| FiveStage.FiveStageCore.Step | src/core.cpp:209-431 | one call of `step` turns registers, memory, all five latches, cycle and halted flag into `FiveStep` of the old ones |
| FiveStage.FiveStageCore.EndCycle | src/core.cpp:422-430 | the core halts when the cycle started with five bubbles; `state` becomes `nextState`; the cycle counter is incremented |
| FiveStage.FiveStageCore.WBStage | src/core.cpp:211-214 | the register file after the stage is `WriteBackCommit` of the write-back latch |
| FiveStage.FiveStageCore.MEMStage | src/core.cpp:216-242 | only the WB part of `nextState` and the data memory change, to the memory-stage functions of the pre-cycle latch |
| FiveStage.FiveStageCore.EXStage | src/core.cpp:244-320 | only the MEM part of `nextState` changes, to the execute-stage function of the pre-cycle latch |
| FiveStage.FiveStageCore.Redirect | src/core.cpp:285-305 | branch_taken, is_jump and branch_target are set as the opcode asks and otherwise keep their previous values |
| FiveStage.FiveStageCore.AluOp | src/core.cpp:259-307 | the opcode chain of the ALU computes `Alu` |
| FiveStage.FiveStageCore.IDStage | src/core.cpp:322-394 | only the EX part of `nextState` changes, to the decode-stage function over the register file after write-back |
| FiveStage.FiveStageCore.DecodeLive | src/core.cpp:324-375 | the live decode branch yields the decoded latch with both operands |
| FiveStage.FiveStageCore.ImmediateOf | src/core.cpp:346-365 | the immediate generator computes `Immediate` |
| FiveStage.FiveStageCore.IFStage | src/core.cpp:396-420 | only the IF and ID parts of `nextState` change, to the fetch-stage function of the pre-cycle state |
| FiveStageProperties.DecodeFlags | src/core.cpp:368-375 | rd_mem iff opcode 0x03, wrt_mem iff 0x23, wrt_enable iff the opcode is in {0x33, 0x13, 0x03, 0x6F, 0x67}, so rd_mem and wrt_mem never both hold and stores and branches never write |
| FiveStageProperties.DecodeFields | src/core.cpp:325-365 | a live decode latch yields a live execute latch with the decoded fields, the immediate of its format, and EX.PC = the pre-cycle IF.PC |
| FiveStageProperties.DecodeReadsAfterWriteBack | src/core.cpp:342-343 | decode's operands are the write-back value when write-back targets the source register, and the register file otherwise |
| FiveStageProperties.NoForwardingFromExOrMem | src/core.cpp:323-394 | the latch decode produces does not depend on the execute or memory latches |
| FiveStageProperties.WriteBackCommits | src/core.cpp:212-214 | an enabled live write-back to a nonzero register updates exactly that register; otherwise the registers are unchanged |
| FiveStageProperties.MemoryAccess | src/core.cpp:217-235 | a live memory latch passes the loaded word (for a load) or the ALU result, with its register fields; a store writes Store_data at ALUresult, where it reads back |
| FiveStageProperties.BubblesPropagate | src/core.cpp:217-420 | a bubble in any latch becomes a cleared bubble downstream, with no register write, no memory access and no fetch; IF.nop is sticky and freezes the PC |
| FiveStageProperties.ExecuteForwards | src/core.cpp:245-307 | a live execute latch passes its ALU result, Read_data2 as store data and its control fields to the memory latch |
| FiveStageProperties.ExecuteRedirect | src/core.cpp:285-305 | a branch sets branch_taken to its condition and the target; JAL/JALR set is_jump and the target; anything else keeps all three previous fields |
| FiveStageProperties.AluResults | src/core.cpp:283-305 | loads and stores compute base + offset, branches and JAL compute PC + offset, JALR's result has bit 0 clear, and unknown opcodes give zero |
| FiveStageProperties.JalLinksTarget | src/core.cpp:297-307 | JAL's value for write-back is PC + offset, which is also its redirect target |
| FiveStageProperties.ExecuteMatchesSingleStage | src/core.cpp:261-282 | for an R-type or I-type word, both cores enable the write, and the five-stage ALU result is the value the single-stage core writes back |
| FiveStageProperties.LoadAddressMatchesSingleStage | src/core.cpp:283-284 | a decoded load addresses the same word in both cores |
| FiveStageProperties.StoreAddressMatchesSingleStage | src/core.cpp:283-284 | a decoded store addresses the same word in both cores |
| FiveStageProperties.FetchHalts | src/core.cpp:402-406 | a fetched halt word stops fetch at its PC and sends a bubble, even with a redirect pending |
| FiveStageProperties.FetchRedirects | src/core.cpp:407-412 | a pending taken branch or jump moves the PC to its target and flushes only the decode latch |
| FiveStageProperties.FetchAdvances | src/core.cpp:413-415 | otherwise the fetched word goes to decode and the PC advances by four |
| FiveStageProperties.StepInvariants | src/core.cpp:422-430 | `halted` is set exactly when all five pre-cycle latches are bubbles (or it was set); the cycle counter increments; register 0 stays zero |
| FiveStageProperties.FirstCycle | src/core.cpp:189-198 | from the constructor's state, the first cycle only fetches |
| FiveStageProperties.DrainedIsFixed | src/core.cpp:422-424 | a cycle that starts with five bubbles halts and changes no register or memory, and later cycles repeat the same state |
| FiveStageProperties.BubblesAdvance | src/core.cpp:397-424 | once fetch has stopped, each cycle pushes the bubbles one latch further |
| FiveStageProperties.DrainsThenHalts | src/core.cpp:397-424 | with the first k latches bubbles, the core has halted 6 - k cycles later |
| FiveStageProperties.HaltedStays | src/core.cpp:423-424 | a halted core stays halted |
| FiveStageProperties.HaltsWithinFive | src/core.cpp:403-424 | after fetch stops on the halt word, the core has halted five cycles later |
| TestcaseName.TestcaseNameOf | sim.cpp:8-32 | the name `extractTestcaseName` returns; `DefaultIffNoMarker`, `LastComponentWins`, `MarkerAndDigits`, `NameIsSubstring` and `Examples` characterise it |
| TestcaseName.LastSeparator | sim.cpp:10 | the index of the last `/` or `\`, or none when the path has neither |
| TestcaseName.FindFrom | sim.cpp:20 | the first occurrence at or after the start index, or none if there is none |
| TestcaseName.DigitRunEnd | sim.cpp:25-27 | the end of the maximal run of digits at the index |
| TestcaseName.ExtractTestcaseName | sim.cpp:8-32 | the two searches and the digit loop return `TestcaseNameOf` of the path |
| TestcaseName.DefaultIffNoMarker | sim.cpp:8-32 | the result is "default" exactly when "testcase" occurs nowhere in the path |
| TestcaseName.LastComponentWins | sim.cpp:10-16 | a last component that starts with "testcase" is returned whole |
| TestcaseName.MarkerAndDigits | sim.cpp:19-29 | otherwise the result is the first "testcase" with the maximal run of digits after it, taken from the path at that position |
| TestcaseName.NameIsSubstring | sim.cpp:12-28 | any result other than "default" is a contiguous piece of the path |
| TestcaseName.Examples | sim.cpp:8-32 | "in/testcase3" names "testcase3", and "testcase12x" names "testcase12" |

## Left out

- File I/O and tracing are not modelled, because they only print or write files: `outputRF`, `outputDataMem`, both `printState`s, `setOutputDirectory`, the `debugPrint*` functions, and the `main` driver of sim.cpp.
- Parsing an image line with `bitset<8>(line)` is a parameter `parse` of the loaders, because it is library code. An image file is a sequence of lines, or `None` when it cannot be opened.
- Memory accesses are unchecked vector indexing in the source, so out-of-range addresses are undefined behaviour there. The model requires every access to satisfy address + 3 < 1000 (`WordInBounds`, `AccessSafe`, `FiveStepSafe`), and the loaders require the image to fit in 1000 bytes.
- The five-stage constructor leaves most latch fields uninitialised. The model takes them as zero or false (`FiveInitState`).
- FiveStage.FiveStageCore.AluOp: the R-type and I-type function-field chains are computed by the shared `RTypeResult` and `ITypeResult` instead of being written out a second time. Those two functions follow the source's chains.
- FiveStageProperties.HaltsWithinFive and FiveStageProperties.DrainsThenHalts: they hold on condition that the remaining cycles stay inside memory (`Run` returns a machine). Once fetch has stopped its PC is frozen, so the only access that can fail is a load or store already in the execute or memory latch whose address lies outside the data memory (`MemSafe`). That is undefined behaviour in the source.
- `isdigit` is taken in the C locale (the characters 0 to 9).
- `Core::setFilePrefix` and the header declarations are not part of this model, because they have no definitions in the core source files.
