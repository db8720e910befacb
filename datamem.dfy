/** The data memory of src/datamem.cpp: MemSize bytes, zero unless the
    image file supplies them, with 4-byte little-endian word access at any
    byte offset. */
module DataMemory {
  import opened Common

  /** The word `readDataMem` returns: the four bytes at `a`, least
      significant first. */
  function LoadWord(mem: seq<bv8>, a: nat): bv32
    requires a + 3 < |mem|
  {
    WordOfBytes(mem[a], mem[a + 1], mem[a + 2], mem[a + 3])
  }

  /** The memory after `writeDataMem(a, d)`. */
  function StoreWord(mem: seq<bv8>, a: nat, d: bv32): (r: seq<bv8>)
    requires a + 3 < |mem|
    ensures |r| == |mem|
  {
    mem[a := ByteOf(d, 0)][a + 1 := ByteOf(d, 1)][a + 2 := ByteOf(d, 2)][a + 3 := ByteOf(d, 3)]
  }

  /** A store writes byte `k` of the word at `a + k` and leaves every other
      byte as it was. */
  lemma StoreWordBytes(mem: seq<bv8>, a: nat, d: bv32)
    requires a + 3 < |mem|
    ensures forall k :: 0 <= k < 4 ==> StoreWord(mem, a, d)[a + k] == ByteOf(d, k)
    ensures forall j :: 0 <= j < |mem| && !(a <= j < a + 4) ==> StoreWord(mem, a, d)[j] == mem[j]
  {
  }

  /** `LoadWord` at a 32-bit address of the memory. */
  function LoadAt(mem: seq<bv8>, a: bv32): bv32
    requires |mem| == MemSize && WordInBounds(a)
  {
    WordIndex(a);
    LoadWord(mem, a as int)
  }

  /** `StoreWord` at a 32-bit address of the memory. */
  function StoreAt(mem: seq<bv8>, a: bv32, d: bv32): (r: seq<bv8>)
    requires |mem| == MemSize && WordInBounds(a)
    ensures |r| == MemSize
  {
    WordIndex(a);
    StoreWord(mem, a as int, d)
  }

  /** The value the accumulation loop of `readDataMem` holds after its
      first `n` iterations: byte `a + k` in lane `k`, for every `k < n`. */
  function LoadPrefix(mem: seq<bv8>, a: nat, n: nat): bv32
    requires n <= 4 && a + n <= |mem|
  {
    if n == 0 then 0 else LoadPrefix(mem, a, n - 1) | Lane(mem[a + n - 1], n - 1)
  }

  lemma LoadPrefixStep(mem: seq<bv8>, a: nat, n: nat)
    requires n < 4 && a + n < |mem|
    ensures LoadPrefix(mem, a, n + 1) == LoadPrefix(mem, a, n) | Lane(mem[a + n], n)
  {
  }

  /** After all four iterations the accumulator is the little-endian word. */
  lemma LoadPrefixComplete(mem: seq<bv8>, a: nat)
    requires a + 3 < |mem|
    ensures LoadPrefix(mem, a, 4) == LoadWord(mem, a)
  {
    LoadPrefixStep(mem, a, 0);
    LoadPrefixStep(mem, a, 1);
    LoadPrefixStep(mem, a, 2);
    LoadPrefixStep(mem, a, 3);
    assert LoadPrefix(mem, a, 0) == 0;
    LanesJoin(mem[a], mem[a + 1], mem[a + 2], mem[a + 3]);
  }

  /** The byte loop of `readDataMem`: four bytes from offset `a`, each
      shifted into place. */
  method ReadBytes(mem: array<bv8>, a: nat) returns (val: bv32)
    requires a + 3 < mem.Length
    ensures val == LoadWord(mem[..], a)
  {
    val := 0;
    var i := 0;
    while i < 4
      invariant 0 <= i <= 4
      invariant val == LoadPrefix(mem[..], a, i)
    {
      LoadPrefixStep(mem[..], a, i);
      val := val | Lane(mem[a + i], i);
      i := i + 1;
    }
    LoadPrefixComplete(mem[..], a);
  }

  class DataMem {
    const DMem: array<bv8>

    ghost predicate Valid()
      reads DMem
    {
      DMem.Length == MemSize
    }

    /** The constructor: zero-fill MemSize bytes, then store one parsed line
        per byte. Parsing a line (`bitset<8>(line)`) is the parameter
        `parse`; an unopenable file is `None`. */
    constructor (file: Option<seq<string>>, parse: string -> bv8)
      requires file.Some? ==> |file.value| <= MemSize
      ensures Valid() && fresh(DMem)
      ensures DMem[..] == InitialImage(file, parse)
    {
      DMem := new bv8[MemSize](_ => 0);
      new;
      if file.Some? {
        var lines := file.value;
        var i := 0;
        while i < |lines|
          invariant 0 <= i <= |lines|
          invariant forall k :: 0 <= k < MemSize ==> DMem[k] == if k < i then parse(lines[k]) else 0
        {
          DMem[i] := parse(lines[i]);
          i := i + 1;
        }
      }
      InitialImageBytes(file, parse);
      assert forall k :: 0 <= k < MemSize ==> DMem[..][k] == InitialImage(file, parse)[k];
    }

    /** The copy a core makes of the memory it is given (the C++ core holds
        its `DataMem` by value). */
    constructor Copy(other: DataMem)
      requires other.Valid()
      ensures Valid() && fresh(DMem)
      ensures DMem[..] == other.DMem[..]
    {
      DMem := new bv8[MemSize](k reads other.DMem => if 0 <= k < other.DMem.Length then other.DMem[k] else 0);
    }

    /** `readDataMem`: the little-endian word at `address`. */
    method ReadDataMem(address: bv32) returns (val: bv32)
      requires Valid() && WordInBounds(address)
      ensures val == LoadAt(DMem[..], address)
    {
      WordIndex(address);
      val := ReadBytes(DMem, address as int);
    }

    /** `writeDataMem`: stores the bytes of `writeData` at `address`, least
        significant first. */
    method WriteDataMem(address: bv32, writeData: bv32)
      requires Valid() && WordInBounds(address)
      modifies DMem
      ensures Valid()
      ensures DMem[..] == StoreAt(old(DMem[..]), address, writeData)
    {
      WordIndex(address);
      WriteAt(address as int, writeData);
    }

    /** The byte loop of `writeDataMem` at a byte offset. */
    method WriteAt(a: nat, writeData: bv32)
      requires Valid() && a + 3 < MemSize
      modifies DMem
      ensures Valid()
      ensures DMem[..] == StoreWord(old(DMem[..]), a, writeData)
    {
      var i := 0;
      while i < 4
        invariant 0 <= i <= 4
        invariant forall k :: 0 <= k < i ==> DMem[a + k] == ByteOf(writeData, k)
        invariant forall j :: 0 <= j < MemSize && !(a <= j < a + i) ==> DMem[j] == old(DMem[j])
      {
        DMem[a + i] := ByteOf(writeData, i);
        i := i + 1;
      }
      StoreWordBytes(old(DMem[..]), a, writeData);
      assert forall j :: 0 <= j < MemSize ==> DMem[..][j] == StoreWord(old(DMem[..]), a, writeData)[j];
    }

    /** `debugGetMemoryByte`: the byte at `index`, zero outside the memory. */
    method DebugGetMemoryByte(index: int) returns (b: bv8)
      requires Valid()
      ensures 0 <= index < MemSize ==> b == DMem[index]
      ensures !(0 <= index < MemSize) ==> b == 0
    {
      if 0 <= index < MemSize {
        b := DMem[index];
      } else {
        b := 0;
      }
    }
  }

  /** `readDataMem` is little-endian: the word's value is the first byte
      plus 2^8 times the second, 2^16 times the third and 2^24 times the
      fourth. */
  lemma LoadWordValue(mem: seq<bv8>, a: nat)
    requires a + 3 < |mem|
    ensures LoadWord(mem, a) as int == mem[a] as int + 0x100 * mem[a + 1] as int
                                    + 0x1_0000 * mem[a + 2] as int + 0x100_0000 * mem[a + 3] as int
  {
    WordOfBytesValue(mem[a], mem[a + 1], mem[a + 2], mem[a + 3]);
  }

  /** Reading back the address just written returns the written word. */
  lemma LoadAfterStore(mem: seq<bv8>, a: nat, d: bv32)
    requires a + 3 < |mem|
    ensures LoadWord(StoreWord(mem, a, d), a) == d
  {
    var r := StoreWord(mem, a, d);
    StoreWordBytes(mem, a, d);
    assert r[a] == ByteOf(d, 0) && r[a + 1] == ByteOf(d, 1) && r[a + 2] == ByteOf(d, 2) && r[a + 3] == ByteOf(d, 3);
    BytesOfWord(d);
  }

  /** At a 32-bit address: the stored word reads back, and every byte
      outside the four written keeps its value. */
  lemma LoadAtAfterStoreAt(mem: seq<bv8>, a: bv32, d: bv32)
    requires |mem| == MemSize && WordInBounds(a)
    ensures LoadAt(StoreAt(mem, a, d), a) == d
    ensures forall j :: 0 <= j < MemSize && !(a as int <= j < a as int + 4) ==> StoreAt(mem, a, d)[j] == mem[j]
  {
    WordIndex(a);
    LoadAfterStore(mem, a as int, d);
    StoreWordBytes(mem, a as int, d);
  }

  /** A store leaves every word that does not overlap it unchanged. */
  lemma LoadAfterDisjointStore(mem: seq<bv8>, a: nat, b: nat, d: bv32)
    requires a + 3 < |mem| && b + 3 < |mem|
    requires a + 4 <= b || b + 4 <= a
    ensures LoadWord(StoreWord(mem, a, d), b) == LoadWord(mem, b)
  {
    var r := StoreWord(mem, a, d);
    StoreWordBytes(mem, a, d);
    assert r[b] == mem[b] && r[b + 1] == mem[b + 1] && r[b + 2] == mem[b + 2] && r[b + 3] == mem[b + 3];
  }

  /** Storing a word and loading it back byte by byte: byte `k` is the
      `k`-th least significant byte of the stored word. */
  lemma StoreIsLittleEndian(mem: seq<bv8>, a: nat, d: bv32)
    requires a + 3 < |mem|
    ensures StoreWord(mem, a, d)[a] as bv32 == d & 0xFF
    ensures StoreWord(mem, a, d)[a + 3] as bv32 == d >> 24
  {
    WidenByte(d);
  }

  /** The bytes 78 56 34 12 at address 0 read as the word 0x12345678. */
  lemma LittleEndianExample(mem: seq<bv8>)
    requires |mem| >= 4 && mem[0] == 0x78 && mem[1] == 0x56 && mem[2] == 0x34 && mem[3] == 0x12
    ensures LoadWord(mem, 0) == 0x1234_5678
  {
  }
}
