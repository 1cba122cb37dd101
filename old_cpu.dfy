/** The earlier CPU: it owns a flat 64 KiB memory array, into which the PRG
  * image is copied, and it mirrors every write below 0x2000 into the four
  * copies of the 2 KiB internal RAM. Its status register and register file
  * behave like the current CPU's and are shared with that model. */
module OldCpu {
  import opened Common
  import opened Cpu

  /** Size of the address space. */
  const MemSize: nat := 0x10000
  /** Where the PRG image goes, and where a 16 KiB image is copied again. */
  const PrgStart: nat := 0x8000
  const PrgMirror: nat := 0xC000
  const SmallPrg: nat := 0x4000

  // ---------------------------------------------------------------------
  // The memory as a value

  /** `src` copied over `m` from `at` on (`clone_from_slice`). */
  function Spliced(m: seq<Byte>, at: nat, src: seq<Byte>): (r: seq<Byte>)
    requires at + |src| <= |m|
    ensures |r| == |m|
  {
    m[..at] + src + m[at + |src|..]
  }

  lemma SplicedCells(m: seq<Byte>, at: nat, src: seq<Byte>)
    requires at + |src| <= |m|
    ensures |Spliced(m, at, src)| == |m|
    ensures forall j :: 0 <= j < |m| ==>
      Spliced(m, at, src)[j] == if at <= j < at + |src| then src[j - at] else m[j]
  {
  }

  /** The memory after `load`: PRG at 0x8000 and, for a 16 KiB image, once
    * more at 0xC000. */
  function Loaded(m: seq<Byte>, prg: seq<Byte>): (r: seq<Byte>)
    requires |m| == MemSize && |prg| <= MemSize - PrgStart
    ensures |r| == MemSize
  {
    var m1 := Spliced(m, PrgStart, prg);
    if |prg| == SmallPrg then Spliced(m1, PrgMirror, prg) else m1
  }

  /** Loading places the image at 0x8000 (and at 0xC000 for 16 KiB) and keeps
    * everything below 0x8000; a larger image keeps the memory past its end. */
  lemma LoadPlacesImage(m: seq<Byte>, prg: seq<Byte>)
    requires |m| == MemSize && |prg| <= MemSize - PrgStart
    ensures |Loaded(m, prg)| == MemSize
    ensures forall i :: 0 <= i < |prg| ==> Loaded(m, prg)[PrgStart + i] == prg[i]
    ensures |prg| == SmallPrg ==> forall i :: 0 <= i < |prg| ==> Loaded(m, prg)[PrgMirror + i] == prg[i]
    ensures forall j :: 0 <= j < PrgStart ==> Loaded(m, prg)[j] == m[j]
    ensures |prg| != SmallPrg ==> forall j :: PrgStart + |prg| <= j < MemSize ==> Loaded(m, prg)[j] == m[j]
  {
    SplicedCells(m, PrgStart, prg);
    var m1 := Spliced(m, PrgStart, prg);
    if |prg| == SmallPrg {
      SplicedCells(m1, PrgMirror, prg);
    }
  }

  /** With a 16 KiB image the reset vector comes from the image's last bytes. */
  lemma SmallImageResetVector(m: seq<Byte>, prg: seq<Byte>)
    requires |m| == MemSize && |prg| == SmallPrg
    ensures Loaded(m, prg)[0xFFFC] == prg[0x3FFC] && Loaded(m, prg)[0xFFFD] == prg[0x3FFD]
  {
    LoadPlacesImage(m, prg);
    assert Loaded(m, prg)[PrgMirror + 0x3FFC] == prg[0x3FFC];
    assert Loaded(m, prg)[PrgMirror + 0x3FFD] == prg[0x3FFD];
  }

  /** A `u16` address as an array index. The source's address arithmetic
    * panics instead of wrapping, so addresses are bounded naturals here. */
  type Addr = a: nat | a < MemSize

  function Cell(w: Word): (a: Addr)
  {
    w as nat
  }

  /** `mirroring`: the byte at `addr` below 0x2000 copied to its four RAM
    * mirrors `addr % 0x800 + k * 0x800`. */
  function Mirrored(m: seq<Byte>, addr: Addr): (r: seq<Byte>)
    requires |m| == MemSize
    ensures |r| == MemSize
  {
    if addr < 0x2000 then
      var b := addr % 0x800;
      var x := m[addr];
      m[b := x][b + 0x800 := x][b + 0x1000 := x][b + 0x1800 := x]
    else m
  }

  /** `write_memory`: the store followed by the mirroring. */
  function Written(m: seq<Byte>, addr: Addr, v: Byte): (r: seq<Byte>)
    requires |m| == MemSize
    ensures |r| == MemSize
  {
    Mirrored(m[addr := v], addr)
  }

  /** Two addresses name the same RAM cell when both are below 0x2000 and
    * agree modulo 0x800; every other address names only itself. */
  predicate SameCell(j: Addr, addr: Addr)
  {
    j == addr || (j < 0x2000 && addr < 0x2000 && j % 0x800 == addr % 0x800)
  }

  /** A write leaves `v` at every address naming the written cell and
    * changes nothing else. */
  lemma WriteCells(m: seq<Byte>, addr: Addr, v: Byte)
    requires |m| == MemSize
    ensures forall j: Addr :: Written(m, addr, v)[j] == if SameCell(j, addr) then v else m[j]
  {
    var r := Written(m, addr, v);
    forall j: Addr
      ensures r[j] == if SameCell(j, addr) then v else m[j]
    {
      if addr < 0x2000 && j < 0x2000 {
        var b := addr % 0x800;
        assert j % 0x800 == b <==> j == b || j == b + 0x800 || j == b + 0x1000 || j == b + 0x1800;
      }
    }
  }

  /** Read after write: any address naming the written cell yields `v`, any
    * other address what it held before. */
  lemma ReadAfterWrite(m: seq<Byte>, addr: Addr, v: Byte, other: Addr)
    requires |m| == MemSize
    ensures Written(m, addr, v)[addr] == v
    ensures SameCell(other, addr) ==> Written(m, addr, v)[other] == v
    ensures !SameCell(other, addr) ==> Written(m, addr, v)[other] == m[other]
  {
    WriteCells(m, addr, v);
    assert SameCell(addr, addr);
  }

  /** The four copies of the internal RAM agree. */
  ghost predicate RamMirrored(m: seq<Byte>)
    requires |m| == MemSize
  {
    forall j :: 0x800 <= j < 0x2000 ==> m[j] == m[j % 0x800]
  }

  /** A mirror address names the same cell as its copy in the first 2 KiB. */
  lemma SameCellResidue(j: Addr, addr: Addr)
    requires 0x800 <= j < 0x2000
    ensures SameCell(j, addr) == SameCell(j % 0x800, addr)
  {
    var k := j % 0x800;
    assert k % 0x800 == k;
    assert addr < 0x800 ==> addr % 0x800 == addr;
  }

  /** Writes keep the RAM copies in agreement. */
  lemma WriteKeepsMirrors(m: seq<Byte>, addr: Addr, v: Byte)
    requires |m| == MemSize && RamMirrored(m)
    ensures RamMirrored(Written(m, addr, v))
  {
    WriteCells(m, addr, v);
    var r := Written(m, addr, v);
    forall j | 0x800 <= j < 0x2000
      ensures r[j] == r[j % 0x800]
    {
      SameCellResidue(j, addr);
      assert m[j] == m[j % 0x800];
    }
  }

  /** Loading keeps the RAM copies in agreement. */
  lemma LoadKeepsMirrors(m: seq<Byte>, prg: seq<Byte>)
    requires |m| == MemSize && |prg| <= MemSize - PrgStart && RamMirrored(m)
    ensures |Loaded(m, prg)| == MemSize && RamMirrored(Loaded(m, prg))
  {
    LoadPlacesImage(m, prg);
  }

  // ---------------------------------------------------------------------
  // The CPU object

  class OldCPU {
    var reg: Regs
    /** The whole address space, 0 to 0xFFFF. */
    const memory: array<Byte>
    var cyclesSinceStartup: nat
    var cyclesInstr: nat
    const operand: array<Byte>
    var addrAbs: Word
    var addrRel: Word

    predicate Valid()
      reads this
    {
      memory.Length == MemSize && operand.Length == 2 && memory != operand
    }

    /** `CPU::new`: registers cleared except P, memory all zero. */
    constructor ()
      ensures Valid() && fresh(memory) && fresh(operand)
      ensures reg == Regs(0, 0, 0, 0, 0, PowerOnStatus)
      ensures forall j :: 0 <= j < MemSize ==> memory[j] == 0
      ensures cyclesSinceStartup == 0 && cyclesInstr == 0
      ensures operand[..] == [0, 0] && addrAbs == 0 && addrRel == 0
    {
      reg := Regs(0, 0, 0, 0, 0, PowerOnStatus);
      memory := new Byte[MemSize](_ => 0);
      cyclesSinceStartup := 0;
      cyclesInstr := 0;
      operand := new Byte[2](_ => 0);
      addrAbs := 0;
      addrRel := 0;
    }

    /** `load`: the slice copy panics unless the image is exactly
      * `prgSize` bytes and fits below 0x10000. */
    method Load(prg: seq<Byte>, prgSize: nat)
      requires Valid() && |prg| == prgSize && PrgStart + prgSize <= MemSize
      modifies memory
      ensures memory[..] == Loaded(old(memory[..]), prg)
    {
      CopyInto(PrgStart, prg);
      if prgSize == SmallPrg {
        CopyInto(PrgMirror, prg);
      }
    }

    /** `clone_from_slice` into `memory[at..at + |src|]`. */
    method CopyInto(at: nat, src: seq<Byte>)
      requires Valid() && at + |src| <= MemSize
      modifies memory
      ensures memory[..] == Spliced(old(memory[..]), at, src)
    {
      for k := 0 to |src|
        invariant forall j :: 0 <= j < MemSize ==>
          memory[j] == if at <= j < at + k then src[j - at] else old(memory[j])
      {
        memory[at + k] := src[k];
      }
      SplicedCells(old(memory[..]), at, src);
      assert memory[..] == Spliced(old(memory[..]), at, src);
    }

    /** `reset`: A, X, Y, PC cleared, S = 0xFD, P = 0x34, counters cleared,
      * then PC from the vector at 0xFFFC (low) and 0xFFFD (high). */
    method Reset()
      requires Valid()
      modifies this`reg, this`cyclesSinceStartup, this`cyclesInstr
      ensures reg == Regs(0, 0, 0, Word16(memory[0xFFFC], memory[0xFFFD]), ResetStack, PowerOnStatus)
      ensures cyclesSinceStartup == 0 && cyclesInstr == 0
    {
      reg := Regs(0, 0, 0, 0, ResetStack, PowerOnStatus);
      cyclesSinceStartup := 0;
      cyclesInstr := 0;
      reg := reg.(pc := ((memory[0xFFFD] as Word) << 8) + memory[0xFFFC] as Word);
    }

    /** `mirroring`: copies the byte at `addr` into the four RAM mirrors. */
    method Mirroring(addr: Addr)
      requires Valid()
      modifies memory
      ensures memory[..] == Mirrored(old(memory[..]), addr)
    {
      var value := memory[addr];
      if addr < 0x2000 {
        var b := addr % 0x800;
        memory[b] := value;
        memory[b + 0x800] := value;
        memory[b + 0x1000] := value;
        memory[b + 0x1800] := value;
      }
    }

    /** `write_memory`: store, then mirror. */
    method WriteMemory(addr: Addr, v: Byte)
      requires Valid()
      modifies memory
      ensures memory[..] == Written(old(memory[..]), addr, v)
    {
      memory[addr] := v;
      Mirroring(addr);
    }

    /** `read_memory`. */
    method ReadMemory(addr: Addr) returns (v: Byte)
      requires Valid()
      ensures v == memory[addr]
    {
      v := memory[addr];
    }

    /** The `u16` arithmetic on PC does not overflow for the instruction at PC. */
    predicate CanFetch(table: OpcodeTable)
      reads this, memory
      requires Valid()
    {
      Cell(reg.pc) + OperandLength(table[memory[Cell(reg.pc)]].mode) < MemSize - 1
    }

    /** PC moved past an opcode and `n` operand bytes. */
    static function Past(pc: Word, n: nat): Word
      requires n <= 2
    {
      pc + (n + 1) as Word
    }

    /** `read_instr`: decodes the opcode at PC, reads the operand bytes that
      * follow and moves PC past the instruction. */
    method ReadInstr(table: OpcodeTable) returns (info: InstructionInfo)
      requires Valid() && CanFetch(table)
      modifies this`reg, operand
      ensures var at := Cell(old(reg).pc); var n := OperandLength(info.mode);
        && info == table[memory[at]]
        && reg == old(reg).(pc := Past(old(reg).pc, n))
        && operand[0] == (if n >= 1 then memory[at + 1] else old(operand[0]))
        && operand[1] == (if n == 2 then memory[at + 2] else old(operand[1]))
    {
      var at := Cell(reg.pc);
      var opcode := ReadMemory(at);
      info := table[opcode];
      var opLen := OperandLength(info.mode);
      ReadOperands(at, opLen);
      assert memory[at] == opcode;
      reg := reg.(pc := Past(reg.pc, opLen));
    }

    /** Reads the `n` operand bytes that follow the opcode at `at`. */
    method ReadOperands(at: Addr, n: nat)
      requires Valid() && n <= 2 && at + n < MemSize
      modifies operand
      ensures operand[0] == if n >= 1 then memory[at + 1] else old(operand[0])
      ensures operand[1] == if n == 2 then memory[at + 2] else old(operand[1])
    {
      if n >= 1 {
        var b := ReadMemory(at + 1);
        operand[0] := b;
      }
      if n == 2 {
        var b := ReadMemory(at + 2);
        operand[1] := b;
      }
    }
  }
}
