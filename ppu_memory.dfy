/** The PPU's CPU-visible register file (0x2000..0x2007), its loopy `v`/`t`/
  * `x`/`w` scroll latches, and the PPU-side address decode into the mapper,
  * nametable RAM, OAM and palette RAM. The mapper is the caller's: a read
  * of pattern-table space takes the byte the mapper returns as an input,
  * and a write to it is handed back to the caller to perform. */
module PpuMemory {
  import opened Common
  import opened NesMemory
  import opened MapperTypes

  const PpuCtrlAddr: Word := 0x2000
  const PpuMaskAddr: Word := 0x2001
  const PpuStatusAddr: Word := 0x2002
  const OamAddrAddr: Word := 0x2003
  const OamDataAddr: Word := 0x2004
  const PpuScrollAddr: Word := 0x2005
  const PpuAddrAddr: Word := 0x2006
  const PpuDataAddr: Word := 0x2007
  const OamDmaAddr: Word := 0x4014

  const VramSize: nat := 0x1000
  const OamSize: nat := 256
  const PaletteSize: nat := 0x20

  /** One sprite entry; `Oam::new` makes the off-screen entry. */
  datatype Oam = Oam(y: Byte, tile: Byte, attr: Byte, x: Byte, isSprite0: bool)

  /** `Oam::new`. */
  const HiddenOam: Oam := Oam(0xFF, 0xFF, 0xFF, 0xFF, false)

  // ---------------------------------------------------------------------
  // Nametable mirroring

  /** `mirroring(addr)`: addresses outside 0x2000..0x3EFF pass through; the
    * others drop to an offset in the four nametables and the mode folds
    * that offset onto the 4 KiB of nametable RAM. */
  function MirrorAddress(mode: MirroringType, addr: nat): (r: nat)
    ensures !(0x2000 <= addr <= 0x3EFF) ==> r == addr
    ensures 0x2000 <= addr <= 0x3EFF ==> r < VramSize
  {
    if 0x2000 <= addr <= 0x3EFF then
      var off := if addr <= 0x2FFF then addr - 0x2000 else addr - 0x3000;
      match mode
      case Vertical => off % 0x800
      case Horizontal => if (0x400 <= off < 0x800) || off >= 0xC00 then off - 0x400 else off
      case FourScreen => off
      case SingleScreenA => off % 0x400
      case SingleScreenB => off % 0x400 + 0x400
    else
      addr
  }

  /** 0x3000..0x3EFF is a mirror of 0x2000..0x2EFF in every mode. */
  lemma UpperMirror(mode: MirroringType, addr: nat)
    requires 0x2000 <= addr <= 0x2EFF
    ensures MirrorAddress(mode, addr + 0x1000) == MirrorAddress(mode, addr)
  {
  }

  /** The cell the byte at `off` of nametable `n` (0..3, at 0x2000 + 0x400 n)
    * lands on. */
  function NametableCell(mode: MirroringType, n: nat, off: nat): nat
    requires n < 4 && off < 0x400
  {
    MirrorAddress(mode, 0x2000 + 0x400 * n + off)
  }

  /** Which of the four logical nametables share memory: Horizontal pairs
    * 0 with 1 and 2 with 3, Vertical pairs 0 with 2 and 1 with 3, the
    * single-screen modes fold all four onto one, and FourScreen keeps them
    * apart. */
  lemma NametableSharing(mode: MirroringType, off: nat)
    requires off < 0x400
    ensures mode == Horizontal ==>
      NametableCell(mode, 0, off) == NametableCell(mode, 1, off) &&
      NametableCell(mode, 2, off) == NametableCell(mode, 3, off) &&
      NametableCell(mode, 0, off) != NametableCell(mode, 2, off)
    ensures mode == Vertical ==>
      NametableCell(mode, 0, off) == NametableCell(mode, 2, off) &&
      NametableCell(mode, 1, off) == NametableCell(mode, 3, off) &&
      NametableCell(mode, 0, off) != NametableCell(mode, 1, off)
    ensures mode == SingleScreenA || mode == SingleScreenB ==>
      NametableCell(mode, 0, off) == NametableCell(mode, 1, off) == NametableCell(mode, 2, off) == NametableCell(mode, 3, off)
    ensures mode == SingleScreenA ==> NametableCell(mode, 0, off) == off
    ensures mode == SingleScreenB ==> NametableCell(mode, 0, off) == 0x400 + off
    ensures mode == FourScreen ==> forall n :: 0 <= n < 4 ==> NametableCell(mode, n, off) == 0x400 * n + off
  {
    match mode {
      case Horizontal => HorizontalSharing(off);
      case Vertical => VerticalSharing(off);
      case SingleScreenA => SingleSharing(mode, off);
      case SingleScreenB => SingleSharing(mode, off);
      case FourScreen => FourScreenCells(off);
    }
  }

  lemma HorizontalSharing(off: nat)
    requires off < 0x400
    ensures NametableCell(Horizontal, 0, off) == NametableCell(Horizontal, 1, off) == off
    ensures NametableCell(Horizontal, 2, off) == NametableCell(Horizontal, 3, off) == 0x800 + off
  {
  }

  lemma VerticalSharing(off: nat)
    requires off < 0x400
    ensures NametableCell(Vertical, 0, off) == NametableCell(Vertical, 2, off) == off
    ensures NametableCell(Vertical, 1, off) == NametableCell(Vertical, 3, off) == 0x400 + off
  {
    assert (0x800 + off) % 0x800 == off;
    assert (0xC00 + off) % 0x800 == 0x400 + off;
  }

  lemma SingleSharing(mode: MirroringType, off: nat)
    requires off < 0x400 && (mode == SingleScreenA || mode == SingleScreenB)
    ensures forall n :: 0 <= n < 4 ==>
      NametableCell(mode, n, off) == if mode == SingleScreenA then off else 0x400 + off
  {
    forall n | 0 <= n < 4
      ensures NametableCell(mode, n, off) == if mode == SingleScreenA then off else 0x400 + off
    {
      assert (0x400 * n + off) % 0x400 == off;
    }
  }

  lemma FourScreenCells(off: nat)
    requires off < 0x400
    ensures forall n :: 0 <= n < 4 ==> NametableCell(FourScreen, n, off) == 0x400 * n + off
  {
  }

  // ---------------------------------------------------------------------
  // PPU-side address decode

  /** Where a PPU-side access lands. */
  datatype Target = ToMapper | ToVram(cell: nat) | ToPalette(entry: nat) | Nowhere

  /** `ppu_read`/`ppu_write` decode: pattern tables in the mapper, the
    * nametables through the mirroring, the palette with its four sprite
    * backdrop entries aliased onto the background ones. */
  function Route(mode: MirroringType, addr: nat): (r: Target)
    ensures r.ToMapper? <==> addr <= 0x1FFF
    ensures r.ToVram? <==> 0x2000 <= addr <= 0x3EFF
    ensures r.ToPalette? <==> 0x3F00 <= addr <= 0x3FFF
    ensures r.ToVram? ==> r.cell == MirrorAddress(mode, addr)
  {
    if addr <= 0x1FFF then ToMapper
    else if addr <= 0x3EFF then ToVram(MirrorAddress(mode, addr))
    else if addr == 0x3F10 then ToPalette(0x00)
    else if addr == 0x3F14 then ToPalette(0x04)
    else if addr == 0x3F18 then ToPalette(0x08)
    else if addr == 0x3F1C then ToPalette(0x0C)
    else if addr <= 0x3FFF then ToPalette(PaletteIndex(addr))
    else Nowhere
  }

  /** `addr & 0xFF` for a palette address. */
  function PaletteIndex(addr: nat): (r: nat)
    requires 0x3F00 <= addr <= 0x3FFF
    ensures r == addr - 0x3F00 && r < 0x100
  {
    addr - 0x3F00
  }

  /** Palette addresses: 0x3F10/14/18/1C share the entry of 0x3F00/04/08/0C,
    * every other one selects `addr & 0xFF`. */
  lemma PaletteAliases(mode: MirroringType, addr: nat)
    requires 0x3F00 <= addr <= 0x3FFF
    ensures Route(mode, addr).ToPalette?
    ensures addr == 0x3F10 || addr == 0x3F14 || addr == 0x3F18 || addr == 0x3F1C ==>
      Route(mode, addr) == Route(mode, addr - 0x10) == ToPalette(addr - 0x3F10)
    ensures !(addr == 0x3F10 || addr == 0x3F14 || addr == 0x3F18 || addr == 0x3F1C) ==>
      Route(mode, addr) == ToPalette(addr - 0x3F00)
  {
  }

  /** `oam_read(n, offset)`: byte `offset` of sprite `n % 64`. */
  function OamIndex(n: nat, offset: nat): (r: nat)
    ensures r == (n % 64) * 4 + offset
  {
    (n % 64) * 4 + offset
  }

  /** The four bytes of the 64 sprites are 256 distinct OAM cells. */
  lemma OamIndexInjective(n1: nat, o1: nat, n2: nat, o2: nat)
    requires o1 < 4 && o2 < 4
    ensures OamIndex(n1, o1) < OamSize
    ensures OamIndex(n1, o1) == OamIndex(n2, o2) <==> n1 % 64 == n2 % 64 && o1 == o2
  {
    var a, b := n1 % 64, n2 % 64;
    if a < b {
      assert a * 4 + 4 <= b * 4;
    } else if b < a {
      assert b * 4 + 4 <= a * 4;
    }
  }

  // ---------------------------------------------------------------------
  // Status flags

  /** `status` with the bits of `mask` set or cleared. */
  function WithFlag(status: Byte, mask: Byte, on: bool): (r: Byte)
    ensures r & mask == if on then mask else 0
    ensures r & !mask == status & !mask
  {
    if on then status | mask else status & !mask
  }

  const VblankFlag: Byte := 0x80
  const Sprite0HitFlag: Byte := 0x40
  const SpriteOverflowFlag: Byte := 0x20

  // ---------------------------------------------------------------------
  // The register latches

  /** A `u16` held as a number: `v` only ever takes whole values and steps. */
  type U16 = n: nat | n < 0x10000

  /** All register state of `PPUMemory` outside its three memories. */
  datatype Regs = Regs(
    ctrl: Byte,
    mask: Byte,
    status: Byte,
    v: U16,
    t: Word,
    x: Byte,
    w: bool,
    openBus: Byte,
    oamAddr: Byte,
    oamDma: Byte,
    nmiOutput: bool,
    mirroring: MirroringType)

  /** `PPUMemory::new`'s registers. */
  const InitialRegs: Regs := Regs(0, 0, 0, 0, 0, 0, false, 0, 0, 0, true, Horizontal)

  /** PPUCTRL's effect on `t`: the nametable select bits 10-11 become
    * `value & 3`, every other bit is kept. */
  function CtrlLatch(t: Word, value: Byte): (r: Word)
    ensures r & 0xF3FF == t & 0xF3FF
    ensures (r >> 10) & 3 == (value & 3) as Word
  {
    (t & 0xF3FF) | (((value & 3) as Word) << 10)
  }

  /** First PPUSCROLL write's effect on `t`: coarse X (bits 0-4) becomes
    * `value >> 3`; bits 5-13 are kept and bits 14-15 cleared. */
  function ScrollXLatch(t: Word, value: Byte): (r: Word)
    ensures r & 0x3FE0 == t & 0x3FE0 && r & 0xC000 == 0
    ensures r & 0x1F == ((value >> 3) as Word)
  {
    (t & 0x3FE0) | ((value & 0xF8) >> 3) as Word
  }

  /** Second PPUSCROLL write's effect on `t`: fine Y (bits 12-14) becomes
    * `value & 7` and coarse Y (bits 5-9) becomes `value >> 3`; the
    * nametable bits and coarse X are kept and bit 15 is cleared. */
  function ScrollYLatch(t: Word, value: Byte): (r: Word)
    ensures r & 0x0C1F == t & 0x0C1F && r & 0x8000 == 0
    ensures (r >> 12) & 7 == (value & 7) as Word
    ensures (r >> 5) & 0x1F == ((value >> 3) as Word)
  {
    (t & 0x0C1F) | (((value & 7) as Word) << 12) | (((value & 0x38) as Word) << 2) | (((value & 0xC0) as Word) << 2)
  }

  /** First PPUADDR write: the high byte of `t` becomes `value & 0x7F`. */
  function AddrHighLatch(t: Word, value: Byte): (r: Word)
    ensures r & 0xFF == t & 0xFF
    ensures r >> 8 == (value & 0x7F) as Word
  {
    (t & 0x00FF) | (((value & 0x7F) as Word) << 8)
  }

  /** Second PPUADDR write: the low byte of `t` becomes `value` and bits
    * 14-15 are cleared. */
  function AddrLowLatch(t: Word, value: Byte): (r: Word)
    ensures r & 0xFF == value as Word
    ensures r >> 8 == (t >> 8) & 0x3F
  {
    (t & 0x3F00) | (value as Word)
  }

  /** The PPUDATA step: 32 (one row) when the tested `ctrl` bit is set,
    * else 1. */
  function DataStep(ctrl: Byte, bit: Byte): nat
  {
    if ctrl & bit != 0 then 32 else 1
  }

  /** `v` can take the step without overflowing `u16` (an overflow panics). */
  predicate StepFits(v: U16, ctrl: Byte, bit: Byte)
  {
    v + DataStep(ctrl, bit) <= 0xFFFF
  }

  /** The bit that selects the PPUDATA step on a read (bit 1, as written)
    * and on a write (bit 2). */
  const ReadStepBit: Byte := 0x02
  const WriteStepBit: Byte := 0x04

  /** The register state after a CPU write of `value` to `addr` (already cut
    * to 16 bits). Every write ORs `value & 0x1F` into the status. */
  function AfterWrite(r: Regs, addr: Word, value: Byte): Regs
    requires addr == PpuDataAddr ==> StepFits(r.v, r.ctrl, WriteStepBit)
  {
    var s := RegisterWrite(r, addr, value);
    s.(status := s.status | (value & 0x1F))
  }

  /** The per-register part of a write, before the status update. */
  function RegisterWrite(r: Regs, addr: Word, value: Byte): (s: Regs)
    requires addr == PpuDataAddr ==> StepFits(r.v, r.ctrl, WriteStepBit)
    ensures s.status == r.status
    ensures s.ctrl == if addr == PpuCtrlAddr then value & 0xFC else r.ctrl
  {
    if addr == PpuCtrlAddr then
      r.(ctrl := value & 0xFC, nmiOutput := value & 0x80 != 0, t := CtrlLatch(r.t, value))
    else if addr == PpuMaskAddr then r.(mask := value)
    else if addr == OamAddrAddr then r.(oamAddr := value)
    else if addr == PpuScrollAddr then ScrollWrite(r, value)
    else if addr == PpuAddrAddr then AddrWrite(r, value)
    else if addr == PpuDataAddr then r.(v := r.v + DataStep(r.ctrl, WriteStepBit))
    else r
  }

  /** A PPUSCROLL write: X on the first write of a pair, Y on the second. */
  function ScrollWrite(r: Regs, value: Byte): Regs
  {
    if r.w then r.(t := ScrollYLatch(r.t, value), w := false)
    else r.(x := value & 7, t := ScrollXLatch(r.t, value), w := true)
  }

  /** A PPUADDR write: the high byte first; the second write also copies
    * `t` into `v`. */
  function AddrWrite(r: Regs, value: Byte): Regs
  {
    if !r.w then r.(t := AddrHighLatch(r.t, value), w := true)
    else var t := AddrLowLatch(r.t, value); r.(t := t, v := t as nat, w := false)
  }

  /** The register state after a CPU read of `addr`: PPUSTATUS clears `w`
    * and the vblank flag, PPUDATA steps `v`. */
  function AfterRead(r: Regs, addr: Word): Regs
    requires addr == PpuDataAddr ==> StepFits(r.v, r.ctrl, ReadStepBit)
  {
    if addr == PpuStatusAddr then r.(w := false, status := WithFlag(r.status, VblankFlag, false))
    else if addr == PpuDataAddr then r.(v := r.v + DataStep(r.ctrl, ReadStepBit))
    else r
  }

  /** Every write ORs the low five bits of the value into the status and
    * never clears a status bit. */
  lemma WriteMarksStatus(r: Regs, addr: Word, value: Byte)
    requires addr == PpuDataAddr ==> StepFits(r.v, r.ctrl, WriteStepBit)
    ensures AfterWrite(r, addr, value).status & (value & 0x1F) == value & 0x1F
    ensures AfterWrite(r, addr, value).status & r.status == r.status
  {
    var s := RegisterWrite(r, addr, value);
    OrKeeps(s.status, value & 0x1F);
  }

  lemma OrKeeps(a: Byte, b: Byte)
    ensures (a | b) & b == b && (a | b) & a == a
  {
  }

  /** A PPUDATA write only steps `v` (and marks the status). */
  lemma DataWrite(r: Regs, value: Byte)
    requires StepFits(r.v, r.ctrl, WriteStepBit)
    ensures AfterWrite(r, PpuDataAddr, value) == r.(v := r.v + DataStep(r.ctrl, WriteStepBit), status := r.status | (value & 0x1F))
  {
    DataStepOnly(r, value);
  }

  lemma DataStepOnly(r: Regs, value: Byte)
    requires StepFits(r.v, r.ctrl, WriteStepBit)
    ensures RegisterWrite(r, PpuDataAddr, value) == r.(v := r.v + DataStep(r.ctrl, WriteStepBit))
  {
  }

  /** An OAMDATA write changes no register but the status. */
  lemma OamDataWrite(r: Regs, value: Byte)
    ensures AfterWrite(r, OamDataAddr, value) == r.(status := r.status | (value & 0x1F))
  {
    OamDataKeeps(r, value);
  }

  lemma OamDataKeeps(r: Regs, value: Byte)
    ensures RegisterWrite(r, OamDataAddr, value) == r
  {
  }

  /** A PPUADDR write, stated on `w`. */
  lemma AddrWriteStep(r: Regs, value: Byte)
    ensures AfterWrite(r, PpuAddrAddr, value) == AddrWrite(r, value).(status := r.status | (value & 0x1F))
  {
  }

  /** A PPUSCROLL write, stated on `w`. */
  lemma ScrollWriteStep(r: Regs, value: Byte)
    ensures AfterWrite(r, PpuScrollAddr, value) == ScrollWrite(r, value).(status := r.status | (value & 0x1F))
  {
  }

  /** The two PPUADDR latches spell the 14-bit address. */
  lemma AddrLatchPair(t: Word, hi: Byte, lo: Byte)
    ensures AddrLowLatch(AddrHighLatch(t, hi), lo) == ((hi & 0x3F) as Word << 8) | lo as Word
  {
  }

  /** Two PPUADDR writes starting with the latch clear set `v` to the
    * 14-bit address they spell (high byte first) and clear the latch. */
  lemma AddressPair(r: Regs, hi: Byte, lo: Byte)
    requires !r.w
    ensures var r2 := AfterWrite(AfterWrite(r, PpuAddrAddr, hi), PpuAddrAddr, lo);
      r2.v == r2.t as nat && r2.t == ((hi & 0x3F) as Word << 8) | lo as Word && !r2.w
  {
    var r1 := AfterWrite(r, PpuAddrAddr, hi);
    AddrWriteStep(r, hi);
    AddrWriteStep(r1, lo);
    AddrLatchPair(r.t, hi, lo);
  }

  /** The two PPUSCROLL latches: coarse X from the first value, fine and
    * coarse Y from the second, the nametable bits untouched. */
  lemma ScrollLatchPair(t: Word, sx: Byte, sy: Byte)
    ensures var t2 := ScrollYLatch(ScrollXLatch(t, sx), sy);
      t2 & 0x1F == (sx >> 3) as Word &&
      (t2 >> 12) & 7 == (sy & 7) as Word &&
      (t2 >> 5) & 0x1F == (sy >> 3) as Word &&
      t2 & 0x0C00 == t & 0x0C00
  {
    var t1 := ScrollXLatch(t, sx);
    var t2 := ScrollYLatch(t1, sy);
    assert t2 & 0x0C1F == t1 & 0x0C1F;
    assert t1 & 0x3FE0 == t & 0x3FE0;
    assert t1 & 0x1F == (sx >> 3) as Word;
    MaskParts(t, t1, t2);
  }

  lemma MaskParts(t: Word, t1: Word, t2: Word)
    requires t2 & 0x0C1F == t1 & 0x0C1F && t1 & 0x3FE0 == t & 0x3FE0
    ensures t2 & 0x1F == t1 & 0x1F && t2 & 0x0C00 == t & 0x0C00
  {
  }

  /** Two PPUSCROLL writes starting with the latch clear: fine X is
    * `sx & 7`, coarse X `sx >> 3`, fine Y `sy & 7`, coarse Y `sy >> 3`, and
    * the latch is clear again. */
  lemma ScrollPair(r: Regs, sx: Byte, sy: Byte)
    requires !r.w
    ensures var r2 := AfterWrite(AfterWrite(r, PpuScrollAddr, sx), PpuScrollAddr, sy);
      r2.x == sx & 7 && !r2.w &&
      r2.t & 0x1F == (sx >> 3) as Word &&
      (r2.t >> 12) & 7 == (sy & 7) as Word &&
      (r2.t >> 5) & 0x1F == (sy >> 3) as Word &&
      r2.t & 0x0C00 == r.t & 0x0C00
  {
    var r1 := AfterWrite(r, PpuScrollAddr, sx);
    ScrollWriteStep(r, sx);
    ScrollWriteStep(r1, sy);
    ScrollLatchPair(r.t, sx, sy);
  }

  /** Reading PPUSTATUS resets the write latch, so the next PPUSCROLL or
    * PPUADDR write is a first write; it clears only the vblank flag. */
  lemma StatusReadResetsLatch(r: Regs)
    ensures !AfterRead(r, PpuStatusAddr).w
    ensures AfterRead(r, PpuStatusAddr).status == r.status & 0x7F
  {
  }

  /** `ctrl` always has its low two bits clear: PPUCTRL stores `value & 0xFC`.
    * (The PPUDATA read step tests bit 1, so it is always 1.) */
  predicate CtrlMasked(r: Regs)
  {
    r.ctrl & 3 == 0
  }

  /** Every register write keeps `ctrl`'s low bits clear. */
  lemma WriteKeepsCtrlMasked(r: Regs, addr: Word, value: Byte)
    requires CtrlMasked(r)
    requires addr == PpuDataAddr ==> StepFits(r.v, r.ctrl, WriteStepBit)
    ensures CtrlMasked(AfterWrite(r, addr, value))
  {
    var s := RegisterWrite(r, addr, value);
    assert (value & 0xFC) & 3 == 0;
    assert AfterWrite(r, addr, value).ctrl == s.ctrl;
  }

  /** Hence a PPUDATA read always advances `v` by exactly 1. */
  lemma DataReadStepsByOne(r: Regs)
    requires CtrlMasked(r) && StepFits(r.v, r.ctrl, ReadStepBit)
    ensures AfterRead(r, PpuDataAddr).v == r.v + 1
  {
  }

  // ---------------------------------------------------------------------
  // The PPU-side memories as values

  /** The byte a PPU-side read returns, given the byte the mapper would
    * return for `addr`. */
  function PpuSideRead(mode: MirroringType, addr: nat, mapperByte: Byte, vram: seq<Byte>, palette: seq<Byte>): Byte
    requires |vram| == VramSize && |palette| == PaletteSize
  {
    match Route(mode, addr)
    case ToMapper => mapperByte
    case ToVram(i) => vram[i]
    case ToPalette(i) => palette[i % PaletteSize]
    case Nowhere => 0
  }

  /** Nametable RAM after a PPU-side write. */
  function VramAfter(mode: MirroringType, addr: nat, value: Byte, vram: seq<Byte>): (r: seq<Byte>)
    requires |vram| == VramSize
    ensures |r| == VramSize
  {
    match Route(mode, addr)
    case ToVram(i) => vram[i := value]
    case _ => vram
  }

  /** Palette RAM after a PPU-side write (32 entries, so the index wraps). */
  function PaletteAfter(mode: MirroringType, addr: nat, value: Byte, palette: seq<Byte>): (r: seq<Byte>)
    requires |palette| == PaletteSize
    ensures |r| == PaletteSize
  {
    match Route(mode, addr)
    case ToPalette(i) => palette[i % PaletteSize := value]
    case _ => palette
  }

  /** A PPU-side write to nametable or palette space reads back, at the
    * same address and at every address that shares its cell. */
  lemma PpuReadBack(mode: MirroringType, addr: nat, other: nat, value: Byte, mb: Byte, vram: seq<Byte>, palette: seq<Byte>)
    requires |vram| == VramSize && |palette| == PaletteSize
    requires 0x2000 <= addr <= 0x3FFF
    requires Route(mode, other) == Route(mode, addr)
    ensures PpuSideRead(mode, other, mb, VramAfter(mode, addr, value, vram), PaletteAfter(mode, addr, value, palette)) == value
  {
  }

  /** A write to 0x3F10 (the sprite backdrop) is read back at 0x3F00. */
  lemma BackdropAlias(mode: MirroringType, value: Byte, mb: Byte, vram: seq<Byte>, palette: seq<Byte>)
    requires |vram| == VramSize && |palette| == PaletteSize
    ensures PpuSideRead(mode, 0x3F00, mb, VramAfter(mode, 0x3F10, value, vram), PaletteAfter(mode, 0x3F10, value, palette)) == value
  {
    PaletteAliases(mode, 0x3F10);
    PpuReadBack(mode, 0x3F10, 0x3F00, value, mb, vram, palette);
  }

  /** The byte a CPU read of register `addr` returns. */
  function RegisterRead(r: Regs, addr: Word, oam: seq<Byte>, vram: seq<Byte>): Byte
    requires |oam| == OamSize && |vram| == VramSize
  {
    if addr == PpuStatusAddr then r.status
    else if addr == OamDataAddr then oam[r.oamAddr as nat]
    else if addr == PpuDataAddr then vram[MirrorAddress(r.mirroring, r.v) % VramSize]
    else 0
  }

  /** An `oam_addr` indexes OAM without wrapping. */
  lemma OamSlot(i: nat)
    requires i < 0x100
    ensures i % OamSize == i
  {
  }

  // ---------------------------------------------------------------------
  // The register file

  class PPUMemory {
    var ctrl: Byte
    var mask: Byte
    var status: Byte
    var v: U16
    var t: Word
    var x: Byte
    var w: bool
    var openBus: Byte
    var oamAddr: Byte
    var oamDma: Byte
    const vram: Memory
    const oam: Memory
    const palette: Memory
    var nmiOutput: bool
    var mirroringType: MirroringType

    /** Three distinct writable memories of 4 KiB, 256 and 32 bytes. */
    predicate Valid()
      reads this, vram, oam, palette
    {
      vram != oam && vram != palette && oam != palette &&
      |vram.data| == VramSize && |oam.data| == OamSize && |palette.data| == PaletteSize &&
      vram.writable && oam.writable && palette.writable
    }

    /** Every field outside the three memories. */
    function Registers(): Regs
      reads this
    {
      Regs(ctrl, mask, status, v, t, x, w, openBus, oamAddr, oamDma, nmiOutput, mirroringType)
    }

    /** `PPUMemory::new`: zeroed registers with `nmi_output` set, Horizontal
      * mirroring, and zeroed memories. */
    constructor New()
      ensures Valid() && fresh(vram) && fresh(oam) && fresh(palette)
      ensures Registers() == InitialRegs && CtrlMasked(Registers())
      ensures vram.data == Zeros(VramSize) && oam.data == Zeros(OamSize) && palette.data == Zeros(PaletteSize)
    {
      ctrl := 0;
      mask := 0;
      status := 0;
      v := 0;
      t := 0;
      x := 0;
      w := false;
      openBus := 0;
      oamAddr := 0;
      oamDma := 0;
      vram := new Memory.Ram(VramSize);
      oam := new Memory.Ram(OamSize);
      palette := new Memory.Ram(PaletteSize);
      nmiOutput := true;
      mirroringType := Horizontal;
    }

    /** `nmi()`: acknowledges the NMI by clearing `nmi_output`. */
    method Nmi()
      modifies this`nmiOutput
      ensures !nmiOutput
    {
      nmiOutput := false;
    }

    /** `set_interupt`: the vblank flag, bit 7. */
    method SetInterrupt(on: bool)
      modifies this`status
      ensures status == WithFlag(old(status), VblankFlag, on)
    {
      if on {
        status := status | 0x80;
      } else {
        status := status & 0x7F;
      }
    }

    /** `set_sprite_overflow`: bit 5. */
    method SetSpriteOverflow(on: bool)
      modifies this`status
      ensures status == WithFlag(old(status), SpriteOverflowFlag, on)
    {
      if on {
        status := status | 0x20;
      } else {
        status := status & 0xDF;
      }
    }

    /** `set_sprite_0hit`: bit 6. */
    method SetSprite0Hit(on: bool)
      modifies this`status
      ensures status == WithFlag(old(status), Sprite0HitFlag, on)
    {
      if on {
        status := status | 0x40;
      } else {
        status := status & 0xBF;
      }
    }

    /** `oam_dma_write`: stores at `oam_addr`, then moves `oam_addr` on,
      * wrapping at 256. */
    method OamDmaWrite(value: Byte)
      requires Valid()
      modifies oam, this`oamAddr
      ensures Valid()
      ensures oam.data == old(oam.data)[old(oamAddr) as nat := value]
      ensures oamAddr == old(oamAddr) + 1
    {
      var i := oamAddr as nat;
      OamSlot(i);
      oam.Write(i, value);
      oamAddr := oamAddr + 1;
    }

    /** `set_mirroring`. */
    method SetMirroring(mode: MirroringType)
      modifies this`mirroringType
      ensures mirroringType == mode
    {
      mirroringType := mode;
    }

    /** `read`: the CPU side of PPUSTATUS, OAMDATA and PPUDATA; every other
      * register reads 0. `v` is a `u16` whose overflow panics. */
    method Read(addr: nat) returns (val: Byte)
      requires Valid()
      requires Cut(addr) == PpuDataAddr ==> StepFits(v, ctrl, ReadStepBit)
      modifies this`w, this`status, this`v
      ensures Registers() == AfterRead(old(Registers()), Cut(addr))
      ensures val == RegisterRead(old(Registers()), Cut(addr), oam.data, vram.data)
    {
      val := ReadRegister(Cut(addr));
    }

    /** The decode of `read` once the address is cut to 16 bits. */
    method ReadRegister(a: Word) returns (val: Byte)
      requires Valid()
      requires a == PpuDataAddr ==> StepFits(v, ctrl, ReadStepBit)
      modifies this`w, this`status, this`v
      ensures Registers() == AfterRead(old(Registers()), a)
      ensures val == RegisterRead(old(Registers()), a, oam.data, vram.data)
    {
      if a == PpuStatusAddr {
        val := ReadStatus();
      } else if a == OamDataAddr {
        var i := oamAddr as nat;
        OamSlot(i);
        val := oam.Read(i);
      } else if a == PpuDataAddr {
        val := ReadData();
      } else {
        val := 0;
      }
    }

    /** The PPUSTATUS read. */
    method ReadStatus() returns (val: Byte)
      modifies this`w, this`status
      ensures Registers() == AfterRead(old(Registers()), PpuStatusAddr)
      ensures val == old(status)
    {
      w := false;
      val := status;
      SetInterrupt(false);
    }

    /** The PPUDATA read. */
    method ReadData() returns (val: Byte)
      requires Valid() && StepFits(v, ctrl, ReadStepBit)
      modifies this`v
      ensures Registers() == AfterRead(old(Registers()), PpuDataAddr)
      ensures val == vram.data[MirrorAddress(mirroringType, old(v)) % VramSize]
    {
      val := vram.Read(MirrorAddress(mirroringType, v));
      StepAddress(ReadStepBit);
    }

    /** The PPUDATA step of `v`: 32 when `ctrl & bit` is set, else 1. */
    method StepAddress(bit: Byte)
      requires StepFits(v, ctrl, bit)
      modifies this`v
      ensures v == old(v) + DataStep(ctrl, bit)
    {
      if ctrl & bit != 0 {
        v := v + 32;
      } else {
        v := v + 1;
      }
    }

    /** `oam_read(n, offset)`. */
    method OamRead(n: nat, offset: nat) returns (val: Byte)
      requires Valid()
      ensures val == oam.data[OamIndex(n, offset) % OamSize]
    {
      val := oam.Read((n % 64) * 4 + offset);
    }

    /** `ppu_read`: the PPU-side decode; `mapperByte` is what the mapper's
      * `read` returns for a pattern-table address. */
    method PpuRead(addr: nat, mapperByte: Byte) returns (val: Byte)
      requires Valid()
      ensures val == PpuSideRead(mirroringType, addr, mapperByte, vram.data, palette.data)
    {
      if addr <= 0x1FFF {
        val := mapperByte;
      } else if addr <= 0x2FFF {
        val := vram.Read(MirrorAddress(mirroringType, addr));
      } else if addr <= 0x3EFF {
        val := vram.Read(MirrorAddress(mirroringType, addr));
      } else if addr == 0x3F10 {
        val := palette.Read(0x00);
      } else if addr == 0x3F14 {
        val := palette.Read(0x04);
      } else if addr == 0x3F18 {
        val := palette.Read(0x08);
      } else if addr == 0x3F1C {
        val := palette.Read(0x0C);
      } else if addr <= 0x3FFF {
        val := palette.Read(PaletteIndex(addr));
      } else {
        val := 0;
      }
    }

    /** `ppu_write`: the PPU-side decode. A pattern-table write belongs to
      * the mapper and is handed back (`toMapper`), leaving both RAMs alone. */
    method PpuWrite(addr: nat, value: Byte) returns (toMapper: bool)
      requires Valid()
      modifies vram, palette
      ensures Valid()
      ensures toMapper <==> addr <= 0x1FFF
      ensures vram.data == VramAfter(mirroringType, addr, value, old(vram.data))
      ensures palette.data == PaletteAfter(mirroringType, addr, value, old(palette.data))
    {
      toMapper := addr <= 0x1FFF;
      if addr <= 0x1FFF {
      } else if addr <= 0x2FFF {
        VramWrite(addr, value);
      } else if addr <= 0x3EFF {
        VramWrite(addr, value);
      } else if addr <= 0x3FFF {
        PaletteWrite(addr, value);
      }
    }

    /** The nametable branch of `ppu_write`. */
    method VramWrite(addr: nat, value: Byte)
      requires Valid() && 0x2000 <= addr <= 0x3EFF
      modifies vram
      ensures Valid()
      ensures vram.data == VramAfter(mirroringType, addr, value, old(vram.data))
    {
      vram.Write(MirrorAddress(mirroringType, addr), value);
    }

    /** The palette branch of `ppu_write`. */
    method PaletteWrite(addr: nat, value: Byte)
      requires Valid() && 0x3F00 <= addr <= 0x3FFF
      modifies palette
      ensures Valid()
      ensures palette.data == PaletteAfter(mirroringType, addr, value, old(palette.data))
    {
      if addr == 0x3F10 {
        palette.Write(0x00, value);
      } else if addr == 0x3F14 {
        palette.Write(0x04, value);
      } else if addr == 0x3F18 {
        palette.Write(0x08, value);
      } else if addr == 0x3F1C {
        palette.Write(0x0C, value);
      } else {
        palette.Write(PaletteIndex(addr), value);
      }
    }

    /** `write`: the CPU side of the registers. PPUDATA passes the byte to
      * the PPU-side decode at `v` (handing a pattern-table write back as
      * `forward`); OAMDATA stores at `oam_addr` without moving it; every
      * write ORs `value & 0x1F` into the status. */
    method Write(addr: nat, value: Byte) returns (forward: Option<(nat, Byte)>)
      requires Valid()
      requires Cut(addr) == PpuDataAddr ==> StepFits(v, ctrl, WriteStepBit)
      modifies this, oam, vram, palette
      ensures Valid()
      ensures Registers() == AfterWrite(old(Registers()), Cut(addr), value)
      ensures oam.data == if Cut(addr) == OamDataAddr then old(oam.data)[old(oamAddr) as nat := value] else old(oam.data)
      ensures vram.data == if Cut(addr) == PpuDataAddr then VramAfter(mirroringType, old(v), value, old(vram.data)) else old(vram.data)
      ensures palette.data == if Cut(addr) == PpuDataAddr then PaletteAfter(mirroringType, old(v), value, old(palette.data)) else old(palette.data)
      ensures forward == if Cut(addr) == PpuDataAddr && old(v) <= 0x1FFF then Some((old(v), value)) else None
    {
      forward := WriteAt(Cut(addr), value);
    }

    /** The decode of `write` once the address is cut to 16 bits. */
    method WriteAt(a: Word, value: Byte) returns (forward: Option<(nat, Byte)>)
      requires Valid()
      requires a == PpuDataAddr ==> StepFits(v, ctrl, WriteStepBit)
      modifies this, oam, vram, palette
      ensures Valid()
      ensures Registers() == AfterWrite(old(Registers()), a, value)
      ensures oam.data == if a == OamDataAddr then old(oam.data)[old(oamAddr) as nat := value] else old(oam.data)
      ensures vram.data == if a == PpuDataAddr then VramAfter(mirroringType, old(v), value, old(vram.data)) else old(vram.data)
      ensures palette.data == if a == PpuDataAddr then PaletteAfter(mirroringType, old(v), value, old(palette.data)) else old(palette.data)
      ensures forward == if a == PpuDataAddr && old(v) <= 0x1FFF then Some((old(v), value)) else None
    {
      forward := None;
      if a == OamDataAddr {
        WriteOamData(value);
      } else if a == PpuDataAddr {
        forward := WriteData(value);
      } else {
        WriteOther(a, value);
      }
    }

    /** OAMDATA: stores at `oam_addr`. */
    method WriteOamData(value: Byte)
      requires Valid()
      modifies oam, this`status
      ensures Valid()
      ensures Registers() == AfterWrite(old(Registers()), OamDataAddr, value)
      ensures oam.data == old(oam.data)[old(oamAddr) as nat := value]
    {
      ghost var r := Registers();
      var i := oamAddr as nat;
      OamSlot(i);
      oam.Write(i, value);
      assert Registers() == r;
      MarkStatus(value);
      OamDataWrite(r, value);
    }

    /** Every register that holds no memory. */
    method WriteOther(a: Word, value: Byte)
      requires a != OamDataAddr && a != PpuDataAddr
      modifies this`ctrl, this`nmiOutput, this`t, this`mask, this`oamAddr, this`x, this`w, this`v, this`status
      ensures Registers() == AfterWrite(old(Registers()), a, value)
    {
      WriteRegister(a, value);
      MarkStatus(value);
    }

    /** The status update every write ends with. */
    method MarkStatus(value: Byte)
      modifies this`status
      ensures status == old(status) | (value & 0x1F)
      ensures Registers() == old(Registers()).(status := old(status) | (value & 0x1F))
    {
      status := status | (value & 0x1F);
    }

    /** PPUDATA: the PPU-side write at `v`, then the step of `v`. */
    method WriteData(value: Byte) returns (forward: Option<(nat, Byte)>)
      requires Valid() && StepFits(v, ctrl, WriteStepBit)
      modifies this`v, this`status, vram, palette
      ensures Valid()
      ensures Registers() == AfterWrite(old(Registers()), PpuDataAddr, value)
      ensures vram.data == VramAfter(mirroringType, old(v), value, old(vram.data))
      ensures palette.data == PaletteAfter(mirroringType, old(v), value, old(palette.data))
      ensures forward == if old(v) <= 0x1FFF then Some((old(v), value)) else None
    {
      var toMapper := PpuWrite(v, value);
      forward := if toMapper then Some((v, value)) else None;
      StepData(value);
    }

    /** The register part of a PPUDATA write. */
    method StepData(value: Byte)
      requires StepFits(v, ctrl, WriteStepBit)
      modifies this`v, this`status
      ensures Registers() == AfterWrite(old(Registers()), PpuDataAddr, value)
    {
      ghost var r := Registers();
      StepAddress(WriteStepBit);
      MarkStatus(value);
      assert Registers() == r.(v := r.v + DataStep(r.ctrl, WriteStepBit), status := r.status | (value & 0x1F));
      DataWrite(r, value);
    }

    /** The registers that hold no memory: PPUCTRL, PPUMASK, OAMADDR,
      * PPUSCROLL, PPUADDR, and the ignored ones. */
    method WriteRegister(a: Word, value: Byte)
      requires a != OamDataAddr && a != PpuDataAddr
      modifies this`ctrl, this`nmiOutput, this`t, this`mask, this`oamAddr, this`x, this`w, this`v
      ensures Registers() == RegisterWrite(old(Registers()), a, value)
    {
      if a == PpuCtrlAddr {
        ctrl := value & 0xFC;
        nmiOutput := value & 0x80 != 0;
        t := CtrlLatch(t, value);
      } else if a == PpuMaskAddr {
        mask := value;
      } else if a == OamAddrAddr {
        oamAddr := value;
      } else if a == PpuScrollAddr {
        if w {
          t := ScrollYLatch(t, value);
        } else {
          x := value & 7;
          t := ScrollXLatch(t, value);
        }
        w := !w;
      } else if a == PpuAddrAddr {
        if !w {
          t := AddrHighLatch(t, value);
        } else {
          t := AddrLowLatch(t, value);
          v := t as nat;
        }
        w := !w;
      }
    }
  }
}
