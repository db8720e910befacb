/** The instruction memory of src/insmem.cpp: MemSize bytes loaded once from
    the program image, one byte per non-empty line, with 4-byte big-endian
    instruction fetch. The two memories of the simulator therefore use
    opposite byte orders. */
module InstructionMemory {
  import opened Common

  /** A line as the loader keeps it: one trailing carriage return removed
      (Windows line endings). */
  function StripCR(line: string): (r: string)
    ensures line == r || line == r + "\r"
    ensures |line| > 0 && line[|line| - 1] == '\r' ==> |r| == |line| - 1
  {
    if |line| > 0 && line[|line| - 1] == '\r' then line[..|line| - 1] else line
  }

  /** The lines that become bytes, in file order: each line with its
      carriage return stripped, and the lines left empty by that dropped. */
  function CleanLines(lines: seq<string>): (r: seq<string>)
    ensures |r| <= |lines|
  {
    if lines == [] then []
    else
      var last := StripCR(lines[|lines| - 1]);
      CleanLines(lines[..|lines| - 1]) + (if last == "" then [] else [last])
  }

  /** Every stored line is non-empty, so each one is a byte of the image. */
  lemma {:induction false} CleanLinesNonEmpty(lines: seq<string>)
    ensures forall k :: 0 <= k < |CleanLines(lines)| ==> CleanLines(lines)[k] != ""
    decreases |lines|
  {
    if lines != [] {
      CleanLinesNonEmpty(lines[..|lines| - 1]);
    }
  }

  /** One more line read by the loader adds at most one byte. */
  lemma CleanLinesSnoc(lines: seq<string>, line: string)
    ensures CleanLines(lines + [line])
         == CleanLines(lines) + (if StripCR(line) == "" then [] else [StripCR(line)])
  {
    assert (lines + [line])[..|lines|] == lines;
  }

  /** Cleaning a file is cleaning each of its parts. */
  lemma {:induction false} CleanLinesAppend(a: seq<string>, b: seq<string>)
    ensures CleanLines(a + b) == CleanLines(a) + CleanLines(b)
    decreases |b|
  {
    if b == [] {
      assert a + b == a;
    } else {
      var init, last := b[..|b| - 1], b[|b| - 1];
      assert a + b == (a + init) + [last];
      assert b == init + [last];
      CleanLinesSnoc(a + init, last);
      CleanLinesSnoc(init, last);
      CleanLinesAppend(a, init);
    }
  }

  /** Blank lines, and lines holding only a carriage return, are ignored
      wherever they occur. */
  lemma BlankLinesIgnored(a: seq<string>, b: seq<string>, blank: string)
    requires blank == "" || blank == "\r"
    ensures CleanLines(a + [blank] + b) == CleanLines(a + b)
  {
    CleanLinesAppend(a + [blank], b);
    CleanLinesSnoc(a, blank);
    CleanLinesAppend(a, b);
  }

  /** A file already free of carriage returns and blank lines is loaded
      line for line. */
  lemma {:induction false} CleanLinesOfClean(lines: seq<string>)
    requires forall k :: 0 <= k < |lines| ==> StripCR(lines[k]) == lines[k] != ""
    ensures CleanLines(lines) == lines
    decreases |lines|
  {
    if lines != [] {
      var init, last := lines[..|lines| - 1], lines[|lines| - 1];
      assert forall k :: 0 <= k < |init| ==> init[k] == lines[k];
      CleanLinesOfClean(init);
      assert StripCR(last) == last != "";
      assert CleanLines(lines) == CleanLines(init) + [last];
      assert init + [last] == lines;
    }
  }

  /** The loader reads every line of a prefix of the file before the rest,
      so a prefix never yields more bytes than the whole file. */
  lemma CleanLinesPrefix(lines: seq<string>, j: nat)
    requires j <= |lines|
    ensures |CleanLines(lines[..j])| <= |CleanLines(lines)|
  {
    assert lines[..j] + lines[j..] == lines;
    CleanLinesAppend(lines[..j], lines[j..]);
  }

  /** One iteration of the loader: line `j` adds its stripped text when
      that is not empty, and the bytes stored so far still fit. */
  lemma LoaderStep(lines: seq<string>, j: nat)
    requires j < |lines|
    ensures CleanLines(lines[..j + 1])
         == CleanLines(lines[..j]) + (if StripCR(lines[j]) == "" then [] else [StripCR(lines[j])])
    ensures |CleanLines(lines[..j + 1])| <= |CleanLines(lines)|
  {
    assert lines[..j + 1] == lines[..j] + [lines[j]];
    CleanLinesSnoc(lines[..j], lines[j]);
    CleanLinesPrefix(lines, j + 1);
  }

  /** Storing one more line's byte is one update of the image. */
  lemma ImageSnoc(stored: seq<string>, line: string, parse: string -> bv8)
    requires |stored| < MemSize
    ensures InitialImage(Some(stored + [line]), parse)
         == InitialImage(Some(stored), parse)[|stored| := parse(line)]
  {
    var longer, shorter := InitialImage(Some(stored + [line]), parse), InitialImage(Some(stored), parse);
    InitialImageBytes(Some(stored + [line]), parse);
    InitialImageBytes(Some(stored), parse);
    assert forall k :: 0 <= k < MemSize ==> longer[k] == shorter[|stored| := parse(line)][k];
  }

  /** The initial instruction memory for an image file, `None` when it
      cannot be opened. */
  function ProgramImage(file: Option<seq<string>>, parse: string -> bv8): (r: seq<bv8>)
    requires file.Some? ==> |CleanLines(file.value)| <= MemSize
    ensures |r| == MemSize
    ensures file.None? ==> forall k :: 0 <= k < MemSize ==> r[k] == 0
    ensures file.Some? ==> forall k :: 0 <= k < MemSize ==>
      r[k] == if k < |CleanLines(file.value)| then parse(CleanLines(file.value)[k]) else 0
  {
    match file
    case None => InitialImageBytes(None, parse); InitialImage(None, parse)
    case Some(lines) => InitialImageBytes(Some(CleanLines(lines)), parse); InitialImage(Some(CleanLines(lines)), parse)
  }

  /** The word `readInstr` returns: the four bytes at `a`, most significant
      first. */
  function FetchWord(mem: seq<bv8>, a: nat): bv32
    requires a + 3 < |mem|
  {
    WordOfBytes(mem[a + 3], mem[a + 2], mem[a + 1], mem[a])
  }

  /** `FetchWord` at a 32-bit address of the memory. */
  function InstrAt(mem: seq<bv8>, a: bv32): bv32
    requires |mem| == MemSize && WordInBounds(a)
  {
    WordIndex(a);
    FetchWord(mem, a as int)
  }

  /** The accumulator of `readInstr` after `n` iterations: byte `a + k` in
      lane `3 - k`, for every `k < n`. */
  function FetchPrefix(mem: seq<bv8>, a: nat, n: nat): bv32
    requires n <= 4 && a + n <= |mem|
  {
    if n == 0 then 0 else FetchPrefix(mem, a, n - 1) | Lane(mem[a + n - 1], 4 - n)
  }

  lemma FetchPrefixStep(mem: seq<bv8>, a: nat, n: nat)
    requires n < 4 && a + n < |mem|
    ensures FetchPrefix(mem, a, n + 1) == FetchPrefix(mem, a, n) | Lane(mem[a + n], 3 - n)
  {
  }

  /** ORing the lanes from the top one down is ORing them from the bottom. */
  lemma LanesJoinReversed(b0: bv8, b1: bv8, b2: bv8, b3: bv8)
    ensures Lane(b3, 3) | Lane(b2, 2) | Lane(b1, 1) | Lane(b0, 0) == WordOfBytes(b0, b1, b2, b3)
  {
    LaneValues(b0); LaneValues(b1); LaneValues(b2); LaneValues(b3);
  }

  /** After all four iterations the accumulator is the big-endian word. */
  lemma FetchPrefixComplete(mem: seq<bv8>, a: nat)
    requires a + 3 < |mem|
    ensures FetchPrefix(mem, a, 4) == FetchWord(mem, a)
  {
    FetchPrefixStep(mem, a, 0);
    FetchPrefixStep(mem, a, 1);
    FetchPrefixStep(mem, a, 2);
    FetchPrefixStep(mem, a, 3);
    assert FetchPrefix(mem, a, 0) == 0;
    LanesJoinReversed(mem[a + 3], mem[a + 2], mem[a + 1], mem[a]);
  }

  /** The byte loop of `readInstr`: four bytes from offset `a`, the first in
      the top lane. */
  method FetchBytes(mem: array<bv8>, a: nat) returns (val: bv32)
    requires a + 3 < mem.Length
    ensures val == FetchWord(mem[..], a)
  {
    val := 0;
    var i := 0;
    while i < 4
      invariant 0 <= i <= 4
      invariant val == FetchPrefix(mem[..], a, i)
    {
      FetchPrefixStep(mem[..], a, i);
      val := val | Lane(mem[a + i], 3 - i);
      i := i + 1;
    }
    FetchPrefixComplete(mem[..], a);
  }

  /** One non-empty line stored at the next free byte: the memory becomes
      the image of the lines stored so far and this one. */
  method StoreLine(mem: array<bv8>, i: nat, line: string, parse: string -> bv8, ghost stored: seq<string>)
    requires i == |stored| < MemSize == mem.Length
    requires mem[..] == InitialImage(Some(stored), parse)
    modifies mem
    ensures mem[..] == InitialImage(Some(stored + [line]), parse)
  {
    ImageSnoc(stored, line, parse);
    mem[i] := parse(line);
  }

  /** The loop of the loader over a zero-filled memory: after each line the
      memory is the image of the non-empty lines read so far. */
  method LoadLines(mem: array<bv8>, lines: seq<string>, parse: string -> bv8)
    requires mem.Length == MemSize && |CleanLines(lines)| <= MemSize
    requires forall k :: 0 <= k < MemSize ==> mem[k] == 0
    modifies mem
    ensures mem[..] == ProgramImage(Some(lines), parse)
  {
    var i := 0;
    var j := 0;
    ghost var stored: seq<string> := [];
    InitialImageBytes(Some(stored), parse);
    assert mem[..] == InitialImage(Some(stored), parse);
    while j < |lines|
      invariant 0 <= j <= |lines|
      invariant stored == CleanLines(lines[..j]) && i == |stored| <= MemSize
      invariant mem[..] == InitialImage(Some(stored), parse)
    {
      LoaderStep(lines, j);
      var line := StripCR(lines[j]);
      if line != "" {
        StoreLine(mem, i, line, parse, stored);
        i := i + 1;
        stored := stored + [line];
      }
      j := j + 1;
    }
    assert lines[..j] == lines;
  }

  class InsMem {
    const IMem: array<bv8>

    ghost predicate Valid()
      reads IMem
    {
      IMem.Length == MemSize
    }

    /** The loader: zero-fill MemSize bytes, then store one parsed byte per
        non-empty line after stripping its carriage return. Parsing a line
        (`bitset<8>(line)`) is the parameter `parse`; an unopenable file is
        `None`. */
    constructor (file: Option<seq<string>>, parse: string -> bv8)
      requires file.Some? ==> |CleanLines(file.value)| <= MemSize
      ensures Valid() && fresh(IMem)
      ensures IMem[..] == ProgramImage(file, parse)
    {
      IMem := new bv8[MemSize](_ => 0);
      new;
      if file.Some? {
        LoadLines(IMem, file.value, parse);
      } else {
        assert forall k :: 0 <= k < MemSize ==> IMem[..][k] == ProgramImage(file, parse)[k];
      }
    }

    /** The copy a core makes of the memory it is given (the C++ core holds
        its `InsMem` by value). */
    constructor Copy(other: InsMem)
      requires other.Valid()
      ensures Valid() && fresh(IMem)
      ensures IMem[..] == other.IMem[..]
    {
      IMem := new bv8[MemSize](k reads other.IMem => if 0 <= k < other.IMem.Length then other.IMem[k] else 0);
    }

    /** `readInstr`: the big-endian word at `readAddress`. */
    method ReadInstr(readAddress: bv32) returns (val: bv32)
      requires Valid() && WordInBounds(readAddress)
      ensures val == InstrAt(IMem[..], readAddress)
    {
      WordIndex(readAddress);
      val := FetchBytes(IMem, readAddress as int);
    }

    /** `debugGetMemorySize`. */
    method DebugGetMemorySize() returns (n: nat)
      requires Valid()
      ensures n == MemSize
    {
      n := IMem.Length;
    }

    /** `debugGetMemoryByte`: the byte at `index`, zero outside the memory. */
    method DebugGetMemoryByte(index: int) returns (b: bv8)
      requires Valid()
      ensures 0 <= index < MemSize ==> b == IMem[index]
      ensures !(0 <= index < MemSize) ==> b == 0
    {
      if 0 <= index < MemSize {
        b := IMem[index];
      } else {
        b := 0;
      }
    }
  }

  /** `readInstr` is big-endian: the first byte is the most significant. */
  lemma FetchWordValue(mem: seq<bv8>, a: nat)
    requires a + 3 < |mem|
    ensures FetchWord(mem, a) as int == 0x100_0000 * mem[a] as int + 0x1_0000 * mem[a + 1] as int
                                     + 0x100 * mem[a + 2] as int + mem[a + 3] as int
  {
    WordOfBytesValue(mem[a + 3], mem[a + 2], mem[a + 1], mem[a]);
  }

  /** The bytes 00 a0 00 93 at address 0 fetch as the instruction word
      0x00a00093 (`addi x1, x0, 10`). */
  lemma BigEndianExample(mem: seq<bv8>)
    requires |mem| >= 4 && mem[0] == 0x00 && mem[1] == 0xa0 && mem[2] == 0x00 && mem[3] == 0x93
    ensures FetchWord(mem, 0) == 0x00a0_0093
  {
  }
}
