/** The records the two cores carry between cycles, and the bounds shared by
    every component of the simulator. Each `bitset<N>` field of the C++
    structs is a `bvN` here, so the 5-bit register indices, the 3-bit funct3
    and the 7-bit funct7/opcode fields cannot hold out-of-range values. */
module Common {

  /** Both memories hold exactly this many bytes, although addresses are
      32-bit words. */
  const MemSize: nat := 1000

  /** The all-ones word that ends a program. */
  const HaltWord: bv32 := 0xFFFF_FFFF

  /** A value that may be missing: an image file that could not be opened,
      a search that found nothing. */
  datatype Option<T> = None | Some(value: T)

  /** Fetch-stage latch. */
  datatype IFLatch = IFLatch(pc: bv32, nop: bool)

  /** Decode-stage latch: the raw instruction word. */
  datatype IDLatch = IDLatch(instr: bv32, nop: bool)

  /** Execute-stage latch: operands, immediate, register indices, the
      decoded function fields and the control flags. */
  datatype EXLatch = EXLatch(
    readData1: bv32, readData2: bv32, imm: bv32,
    rs: bv5, rt: bv5, wrtRegAddr: bv5,
    funct3: bv3, funct7: bv7, opcode: bv7, pc: bv32,
    isIType: bool, rdMem: bool, wrtMem: bool, aluOp: bool, wrtEnable: bool,
    isBranch: bool, isJump: bool, nop: bool)

  /** Memory-stage latch: the ALU result (address or value), the word to
      store, the redirect information and the control flags. */
  datatype MEMLatch = MEMLatch(
    aluResult: bv32, storeData: bv32,
    rs: bv5, rt: bv5, wrtRegAddr: bv5,
    branchTarget: bv32,
    rdMem: bool, wrtMem: bool, wrtEnable: bool,
    branchTaken: bool, isJump: bool, nop: bool)

  /** Write-back-stage latch: the value to commit and where. */
  datatype WBLatch = WBLatch(
    wrtData: bv32, rs: bv5, rt: bv5, wrtRegAddr: bv5,
    wrtEnable: bool, nop: bool)

  /** The whole pipeline state: exactly five latches, each with its own
      bubble flag. */
  datatype State = State(IF: IFLatch, ID: IDLatch, EX: EXLatch, MEM: MEMLatch, WB: WBLatch)

  /** The register file, the data memory, the latches, the cycle counter
      (a `uint32_t`, so it wraps) and the halted flag of one core, as values. */
  datatype Machine = Machine(state: State, regs: seq<bv32>, dmem: seq<bv8>, cycle: bv32, halted: bool)

  /** The cycle counter after one more cycle. */
  function NextCycle(c: bv32): bv32 { c + 1 }

  /** The counter is a `uint32_t`: it counts up by one and wraps to zero
      after 2^32 - 1. */
  lemma CycleWraps(c: bv32)
    ensures NextCycle(c) - 1 == c
    ensures c != 0xFFFF_FFFF ==> c < NextCycle(c)
    ensures NextCycle(c) == 0 <==> c == 0xFFFF_FFFF
  {
  }

  /** 32 registers with register 0 equal to zero, and a full data memory. */
  ghost predicate WellFormed(m: Machine) {
    |m.regs| == 32 && m.regs[0] == 0 && |m.dmem| == MemSize
  }

  /** An execute latch with every field cleared. */
  function ClearedEX(nop: bool): EXLatch {
    EXLatch(0, 0, 0, 0, 0, 0, 0, 0, 0, 0, false, false, false, false, false, false, false, nop)
  }

  /** A memory latch with every field cleared. */
  function ClearedMEM(nop: bool): MEMLatch {
    MEMLatch(0, 0, 0, 0, 0, 0, false, false, false, false, false, nop)
  }

  /** A write-back latch with every field cleared. */
  function ClearedWB(nop: bool): WBLatch {
    WBLatch(0, 0, 0, 0, false, nop)
  }

  /** The state a core's `stateStruct` member starts in: `bitset` fields are
      zero, and the `bool` fields, which the C++ leaves uninitialised unless
      a constructor assigns them, are taken to be false. */
  function ZeroState(): State {
    State(IFLatch(0, false), IDLatch(0, false), ClearedEX(false), ClearedMEM(false), ClearedWB(false))
  }

  /** Every latch holds a bubble. */
  predicate AllNop(s: State) {
    s.IF.nop && s.ID.nop && s.EX.nop && s.MEM.nop && s.WB.nop
  }

  /** The word whose bytes, from least to most significant, are b0..b3. */
  function WordOfBytes(b0: bv8, b1: bv8, b2: bv8, b3: bv8): bv32 {
    (b0 as bv32) | ((b1 as bv32) << 8) | ((b2 as bv32) << 16) | ((b3 as bv32) << 24)
  }

  /** Byte `k` of a word, counting from the least significant:
      `(d >> (k * 8)) & 0xFF`. */
  function ByteOf(d: bv32, k: nat): bv8
    requires k < 4
  {
    if k == 0 then (d & 0xFF) as bv8
    else if k == 1 then ((d >> 8) & 0xFF) as bv8
    else if k == 2 then ((d >> 16) & 0xFF) as bv8
    else (d >> 24) as bv8
  }

  /** The value of a word built from four bytes is the weighted sum of the
      bytes. */
  lemma WordOfBytesValue(b0: bv8, b1: bv8, b2: bv8, b3: bv8)
    ensures WordOfBytes(b0, b1, b2, b3) as int
         == b0 as int + 0x100 * b1 as int + 0x1_0000 * b2 as int + 0x100_0000 * b3 as int
  {
    var lo := (b0 as bv16) | ((b1 as bv16) << 8);
    var hi := (b2 as bv16) | ((b3 as bv16) << 8);
    HalfWordValue(b0, b1);
    HalfWordValue(b2, b3);
    JoinHalvesValue(lo, hi);
    assert WordOfBytes(b0, b1, b2, b3) == (lo as bv32) | ((hi as bv32) << 16);
  }

  lemma HalfWordValue(x: bv8, y: bv8)
    ensures ((x as bv16) | ((y as bv16) << 8)) as int == x as int + 0x100 * y as int
  {
  }

  lemma JoinHalvesValue(x: bv16, y: bv16)
    ensures ((x as bv32) | ((y as bv32) << 16)) as int == x as int + 0x1_0000 * y as int
  {
  }

  /** Splitting a word into its bytes and joining them again gives the word. */
  lemma BytesOfWord(d: bv32)
    ensures WordOfBytes(ByteOf(d, 0), ByteOf(d, 1), ByteOf(d, 2), ByteOf(d, 3)) == d
  {
    WidenByte(d);
    assert (d & 0xFF) | (((d >> 8) & 0xFF) << 8) | (((d >> 16) & 0xFF) << 16) | (((d >> 24) & 0xFF) << 24) == d;
  }

  /** Widening a byte of a word back to 32 bits gives the masked bits. */
  lemma WidenByte(d: bv32)
    ensures ByteOf(d, 0) as bv32 == d & 0xFF
    ensures ByteOf(d, 1) as bv32 == (d >> 8) & 0xFF
    ensures ByteOf(d, 2) as bv32 == (d >> 16) & 0xFF
    ensures ByteOf(d, 3) as bv32 == d >> 24
  {
  }

  /** A byte widened to a word and shifted left by `8 * k`: the term both
      memories OR into their read accumulator on iteration `k`. */
  function Lane(b: bv8, k: nat): bv32
    requires k < 4
  {
    (b as bv32) << (k * 8)
  }

  /** The four lanes, with their shift amounts written out. */
  lemma LaneValues(b: bv8)
    ensures Lane(b, 0) == b as bv32 && Lane(b, 1) == (b as bv32) << 8
    ensures Lane(b, 2) == (b as bv32) << 16 && Lane(b, 3) == (b as bv32) << 24
  {
  }

  /** ORing the four lanes of four bytes gives the word they form. */
  lemma LanesJoin(b0: bv8, b1: bv8, b2: bv8, b3: bv8)
    ensures Lane(b0, 0) | Lane(b1, 1) | Lane(b2, 2) | Lane(b3, 3) == WordOfBytes(b0, b1, b2, b3)
  {
    LaneValues(b0); LaneValues(b1); LaneValues(b2); LaneValues(b3);
  }

  /** A 32-bit address at which a whole word fits inside a memory: at most
      MemSize - 4. The bound is what the unchecked `vector` indexing of the
      source needs to stay defined. It is stated on the bit-vector itself;
      `WordIndex` gives its meaning as an index. */
  predicate WordInBounds(a: bv32) {
    a <= 996
  }

  lemma WordIndex(a: bv32)
    ensures WordInBounds(a) <==> a as int + 3 < MemSize
  {
  }

  /** The initial contents of a memory loaded from an image file: the
      parsed lines in order, zero beyond them, and all zero when the file
      cannot be opened. */
  function InitialImage(file: Option<seq<string>>, parse: string -> bv8): (r: seq<bv8>)
    requires file.Some? ==> |file.value| <= MemSize
    ensures |r| == MemSize
  {
    match file
    case None => seq(MemSize, _ => 0)
    case Some(lines) => seq(MemSize, k requires 0 <= k < MemSize => if k < |lines| then parse(lines[k]) else 0)
  }

  /** Byte `k` of the initial image: the parsed line `k` when the file has
      one, and zero otherwise. */
  lemma InitialImageBytes(file: Option<seq<string>>, parse: string -> bv8)
    requires file.Some? ==> |file.value| <= MemSize
    ensures file.None? ==> forall k :: 0 <= k < MemSize ==> InitialImage(file, parse)[k] == 0
    ensures file.Some? ==> forall k :: 0 <= k < MemSize ==>
      InitialImage(file, parse)[k] == if k < |file.value| then parse(file.value[k]) else 0
  {
  }
}
