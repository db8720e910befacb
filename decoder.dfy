/** Field extraction and immediate generation for the RV32I subset the cores
    execute (section 2.3 of the RISC-V Unprivileged ISA, version 20191213),
    together with the shared ALU case analysis of R-type and I-type
    arithmetic. Both cores use these same definitions, written inline in
    src/core.cpp once per core. */
module Decode {

  const OpR: bv7 := 0x33
  const OpImm: bv7 := 0x13
  const OpLoad: bv7 := 0x03
  const OpStore: bv7 := 0x23
  const OpBranch: bv7 := 0x63
  const OpJal: bv7 := 0x6F
  const OpJalr: bv7 := 0x67

  function Opcode(instr: bv32): bv7 { (instr & 0x7F) as bv7 }
  function Rd(instr: bv32): bv5 { ((instr >> 7) & 0x1F) as bv5 }
  function Funct3(instr: bv32): bv3 { ((instr >> 12) & 0x7) as bv3 }
  function Rs1(instr: bv32): bv5 { ((instr >> 15) & 0x1F) as bv5 }
  function Rs2(instr: bv32): bv5 { ((instr >> 20) & 0x1F) as bv5 }
  function Funct7(instr: bv32): bv7 { ((instr >> 25) & 0x7F) as bv7 }

  /** Bit 31 of the instruction, replicated into the `n` upper bits of an
      immediate: all ones when the instruction is negative. */
  predicate SignFill(instr: bv32, upper: bv32, allOnes: bv32) {
    upper == if instr >> 31 == 1 then allOnes else 0
  }

  /** I-immediate: `static_cast<int32_t>(instr) >> 20`, an arithmetic shift. */
  function ImmI(instr: bv32): bv32 {
    if instr & 0x8000_0000 == 0 then instr >> 20 else (instr >> 20) | 0xFFFF_F000
  }

  /** S-immediate: instruction bits 31:25 and 11:7, sign-extended from bit 11. */
  function ImmS(instr: bv32): bv32 {
    var imm := ((instr >> 7) & 0x1F) | (((instr >> 25) & 0x7F) << 5);
    if imm & 0x800 != 0 then imm | 0xFFFF_F000 else imm
  }

  /** B-immediate: a 13-bit even offset, sign-extended from bit 12. */
  function ImmB(instr: bv32): bv32 {
    var imm := (((instr >> 7) & 0x1) << 11)
             | (((instr >> 8) & 0xF) << 1)
             | (((instr >> 25) & 0x3F) << 5)
             | (((instr >> 31) & 0x1) << 12);
    if imm & 0x1000 != 0 then imm | 0xFFFF_E000 else imm
  }

  /** J-immediate: a 21-bit even offset, sign-extended from bit 20. */
  function ImmJ(instr: bv32): bv32 {
    var imm := (((instr >> 21) & 0x3FF) << 1)
             | (((instr >> 20) & 0x1) << 11)
             | (((instr >> 12) & 0xFF) << 12)
             | (((instr >> 31) & 0x1) << 20);
    if imm & 0x10_0000 != 0 then imm | 0xFFE0_0000 else imm
  }

  /** The immediate the five-stage decode stage generates, chosen by opcode;
      zero for formats without one. */
  function Immediate(instr: bv32): bv32 {
    var op := Opcode(instr);
    if op == OpImm || op == OpLoad || op == OpJalr then ImmI(instr)
    else if op == OpStore then ImmS(instr)
    else if op == OpBranch then ImmB(instr)
    else if op == OpJal then ImmJ(instr)
    else 0
  }

  /** R-type ALU: ADD, SUB, XOR, OR, AND; any other funct combination leaves
      the result at its zero initial value. */
  function RTypeResult(funct3: bv3, funct7: bv7, a: bv32, b: bv32): bv32 {
    if funct3 == 0 && funct7 == 0 then a + b
    else if funct3 == 0 && funct7 == 0x20 then a - b
    else if funct3 == 4 then a ^ b
    else if funct3 == 6 then a | b
    else if funct3 == 7 then a & b
    else 0
  }

  /** I-type ALU: ADDI, XORI, ORI, ANDI; any other funct3 yields zero. */
  function ITypeResult(funct3: bv3, a: bv32, imm: bv32): bv32 {
    if funct3 == 0 then a + imm
    else if funct3 == 4 then a ^ imm
    else if funct3 == 6 then a | imm
    else if funct3 == 7 then a & imm
    else 0
  }

  /** The branch condition both cores evaluate: BEQ (funct3 0) on equal
      operands, BNE (funct3 1) on different ones; no other funct3 branches. */
  predicate BranchTaken(funct3: bv3, a: bv32, b: bv32) {
    (funct3 == 0 && a == b) || (funct3 == 1 && a != b)
  }

  /** A 32-bit word that is the sign extension of its low `bits` bits, for
      the widths the four immediate formats use. */
  predicate SignExtended12(v: bv32) { v >> 11 == 0 || v >> 11 == 0x1F_FFFF }
  predicate SignExtended13(v: bv32) { v >> 12 == 0 || v >> 12 == 0xF_FFFF }
  predicate SignExtended21(v: bv32) { v >> 20 == 0 || v >> 20 == 0xFFF }

  // ISA encoders: the inverse of the decoder, following the layouts of
  // section 2.3 of the RISC-V Unprivileged ISA.

  function EncodeR(funct7: bv7, rs2: bv5, rs1: bv5, funct3: bv3, rd: bv5, opcode: bv7): bv32 {
    ((funct7 as bv32) << 25) | ((rs2 as bv32) << 20) | ((rs1 as bv32) << 15)
    | ((funct3 as bv32) << 12) | ((rd as bv32) << 7) | (opcode as bv32)
  }

  function EncodeI(imm: bv32, rs1: bv5, funct3: bv3, rd: bv5, opcode: bv7): bv32 {
    ((imm & 0xFFF) << 20) | ((rs1 as bv32) << 15)
    | ((funct3 as bv32) << 12) | ((rd as bv32) << 7) | (opcode as bv32)
  }

  function EncodeS(imm: bv32, rs2: bv5, rs1: bv5, funct3: bv3, opcode: bv7): bv32 {
    (((imm >> 5) & 0x7F) << 25) | ((rs2 as bv32) << 20) | ((rs1 as bv32) << 15)
    | ((funct3 as bv32) << 12) | ((imm & 0x1F) << 7) | (opcode as bv32)
  }

  function EncodeB(imm: bv32, rs2: bv5, rs1: bv5, funct3: bv3, opcode: bv7): bv32 {
    (((imm >> 12) & 1) << 31) | (((imm >> 5) & 0x3F) << 25)
    | ((rs2 as bv32) << 20) | ((rs1 as bv32) << 15) | ((funct3 as bv32) << 12)
    | (((imm >> 1) & 0xF) << 8) | (((imm >> 11) & 1) << 7) | (opcode as bv32)
  }

  function EncodeJ(imm: bv32, rd: bv5, opcode: bv7): bv32 {
    (((imm >> 20) & 1) << 31) | (((imm >> 1) & 0x3FF) << 21) | (((imm >> 11) & 1) << 20)
    | (((imm >> 12) & 0xFF) << 12) | ((rd as bv32) << 7) | (opcode as bv32)
  }

  /** Where the I-immediate takes its bits from, and that its upper bits
      replicate the instruction's sign bit. */
  lemma ImmIBits(instr: bv32)
    ensures ImmI(instr) & 0x7FF == (instr >> 20) & 0x7FF
    ensures SignFill(instr, ImmI(instr) >> 11, 0x1F_FFFF)
  {
  }

  /** The same for the S-immediate. */
  lemma ImmSBits(instr: bv32)
    ensures ImmS(instr) & 0x1F == (instr >> 7) & 0x1F
    ensures (ImmS(instr) >> 5) & 0x3F == (instr >> 25) & 0x3F
    ensures SignFill(instr, ImmS(instr) >> 11, 0x1F_FFFF)
  {
  }

  /** The same for the B-immediate, whose bit 0 is always clear. */
  lemma ImmBBits(instr: bv32)
    ensures ImmB(instr) & 1 == 0
    ensures (ImmB(instr) >> 1) & 0xF == (instr >> 8) & 0xF
    ensures (ImmB(instr) >> 5) & 0x3F == (instr >> 25) & 0x3F
    ensures (ImmB(instr) >> 11) & 1 == (instr >> 7) & 1
    ensures SignFill(instr, ImmB(instr) >> 12, 0xF_FFFF)
  {
  }

  /** The same for the J-immediate, whose bit 0 is always clear. */
  lemma ImmJBits(instr: bv32)
    ensures ImmJ(instr) & 1 == 0
    ensures (ImmJ(instr) >> 1) & 0x3FF == (instr >> 21) & 0x3FF
    ensures (ImmJ(instr) >> 11) & 1 == (instr >> 20) & 1
    ensures (ImmJ(instr) >> 12) & 0xFF == (instr >> 12) & 0xFF
    ensures SignFill(instr, ImmJ(instr) >> 20, 0xFFF)
  {
    ImmJLow(instr);
  }

  lemma ImmJLow(instr: bv32)
    ensures ImmJ(instr) & 1 == 0
    ensures (ImmJ(instr) >> 1) & 0x3FF == (instr >> 21) & 0x3FF
  {
  }

  /** Every immediate the generator produces is a properly sign-extended
      value of its format's width, and the B and J offsets are even. */
  lemma ImmediateRanges(instr: bv32)
    ensures SignExtended12(ImmI(instr)) && SignExtended12(ImmS(instr))
    ensures SignExtended13(ImmB(instr)) && ImmB(instr) & 1 == 0
    ensures SignExtended21(ImmJ(instr)) && ImmJ(instr) & 1 == 0
  {
    ImmIBits(instr); ImmSBits(instr); ImmBBits(instr); ImmJBits(instr);
  }

  /** Decoding an R-type word returns the fields it was built from. */
  lemma DecodeEncodeR(funct7: bv7, rs2: bv5, rs1: bv5, funct3: bv3, rd: bv5, opcode: bv7)
    ensures var w := EncodeR(funct7, rs2, rs1, funct3, rd, opcode);
      Opcode(w) == opcode && Rd(w) == rd && Funct3(w) == funct3
      && Rs1(w) == rs1 && Rs2(w) == rs2 && Funct7(w) == funct7
  {
  }

  /** Decoding an I-type word returns its fields and the immediate. */
  lemma DecodeEncodeI(imm: bv32, rs1: bv5, funct3: bv3, rd: bv5, opcode: bv7)
    requires SignExtended12(imm)
    ensures var w := EncodeI(imm, rs1, funct3, rd, opcode);
      Opcode(w) == opcode && Rd(w) == rd && Funct3(w) == funct3
      && Rs1(w) == rs1 && ImmI(w) == imm
  {
  }

  /** Decoding an S-type word returns its fields and the immediate. */
  lemma DecodeEncodeS(imm: bv32, rs2: bv5, rs1: bv5, funct3: bv3, opcode: bv7)
    requires SignExtended12(imm)
    ensures var w := EncodeS(imm, rs2, rs1, funct3, opcode);
      Opcode(w) == opcode && Funct3(w) == funct3
      && Rs1(w) == rs1 && Rs2(w) == rs2 && ImmS(w) == imm
  {
  }

  /** Decoding a B-type word returns its fields and the even offset. */
  lemma DecodeEncodeB(imm: bv32, rs2: bv5, rs1: bv5, funct3: bv3, opcode: bv7)
    requires SignExtended13(imm) && imm & 1 == 0
    ensures var w := EncodeB(imm, rs2, rs1, funct3, opcode);
      Opcode(w) == opcode && Funct3(w) == funct3
      && Rs1(w) == rs1 && Rs2(w) == rs2 && ImmB(w) == imm
  {
  }

  /** Decoding a J-type word returns its destination and the even offset. */
  lemma DecodeEncodeJ(imm: bv32, rd: bv5, opcode: bv7)
    requires SignExtended21(imm) && imm & 1 == 0
    ensures var w := EncodeJ(imm, rd, opcode);
      Opcode(w) == opcode && Rd(w) == rd && ImmJ(w) == imm
  {
    var w := EncodeJ(imm, rd, opcode);
    EncodeJFields(imm, rd, opcode);
    var r := ImmJ(w);
    ImmJBits(w);
    SameJFields(r, imm);
  }

  /** Where EncodeJ places each part of the offset. */
  lemma EncodeJFields(imm: bv32, rd: bv5, opcode: bv7)
    requires SignExtended21(imm)
    ensures var w := EncodeJ(imm, rd, opcode);
      && (w >> 21) & 0x3FF == (imm >> 1) & 0x3FF
      && (w >> 20) & 1 == (imm >> 11) & 1
      && (w >> 12) & 0xFF == (imm >> 12) & 0xFF
      && w >> 31 == (imm >> 20) & 1
  {
  }

  /** Two even, sign-extended 21-bit words that agree on bits 19:1 and on
      their sign are equal. */
  lemma SameJFields(r: bv32, imm: bv32)
    requires r & 1 == 0 && imm & 1 == 0 && SignExtended21(r) && SignExtended21(imm)
    requires (r >> 1) & 0x3FF == (imm >> 1) & 0x3FF
    requires (r >> 11) & 1 == (imm >> 11) & 1
    requires (r >> 12) & 0xFF == (imm >> 12) & 0xFF
    requires (r >> 20) & 1 == (imm >> 20) & 1
    ensures r == imm
  {
  }

  /** The five-stage decode stage generates, for every opcode that uses an
      immediate, the same immediate the single-stage core computes inline. */
  lemma ImmediateMatchesFormat(instr: bv32)
    ensures Opcode(instr) == OpImm || Opcode(instr) == OpLoad ==> Immediate(instr) == ImmI(instr)
    ensures Opcode(instr) == OpStore ==> Immediate(instr) == ImmS(instr)
    ensures Opcode(instr) == OpBranch ==> Immediate(instr) == ImmB(instr)
    ensures Opcode(instr) == OpJal ==> Immediate(instr) == ImmJ(instr)
  {
  }
}
