/** The NES CPU bus: 2 KiB of work RAM, the PPU's register file, the APU/IO
  * register block, an NROM cartridge, and the OAM-DMA state machine that
  * copies one CPU page into sprite memory, one byte per tick. */
module Bus {
  import opened Common
  import opened NesMemory
  import Nrom
  import Cartridge
  import PpuMemory

  const WramSize: nat := 0x800
  const MappedRegSize: nat := 0x2F

  /** Where a CPU access lands. */
  datatype CpuTarget = Wram | PpuRegs | MappedRegs | Cart | Open

  /** The read decode, on the full address: 0x0000..=0x0800 is work RAM
    * (so 0x0800 wraps to cell 0 and 0x0801..0x1FFF is unmapped), the eight
    * PPU registers and 0x4014 go to the PPU, the rest of 0x4000..0x401F to
    * the APU/IO block, and 0x4020..0xFFFF to the cartridge. */
  function ReadTarget(addr: nat): (t: CpuTarget)
    ensures t == Wram <==> addr <= 0x800
    ensures t == PpuRegs <==> (0x2000 <= addr <= 0x2007 || addr == 0x4014)
    ensures t == MappedRegs <==> (0x4000 <= addr <= 0x401F && addr != 0x4014)
    ensures t == Cart <==> 0x4020 <= addr <= 0xFFFF
  {
    if addr <= 0x800 then Wram
    else if 0x2000 <= addr <= 0x2007 || addr == 0x4014 then PpuRegs
    else if 0x4000 <= addr <= 0x401F then MappedRegs
    else if 0x4020 <= addr <= 0xFFFF then Cart
    else Open
  }

  /** Where a CPU write lands. */
  datatype WriteDest = ToWram | StartDma | ToPpu | ToMappedRegs | ToCart | Dropped

  /** The write decode, on the address cut to 16 bits; 0x4014 starts a DMA
    * and never reaches the APU/IO block. */
  function WriteTarget(a: Word): (t: WriteDest)
    ensures t == ToWram <==> a <= 0x800
    ensures t == StartDma <==> a == 0x4014
    ensures t == ToPpu <==> 0x2000 <= a <= 0x2007
    ensures t == ToMappedRegs <==> (0x4000 <= a <= 0x401F && a != 0x4014)
    ensures t == ToCart <==> 0x4020 <= a
  {
    if a <= 0x800 then ToWram
    else if a == 0x4014 then StartDma
    else if 0x2000 <= a <= 0x2007 then ToPpu
    else if 0x4000 <= a <= 0x401F then ToMappedRegs
    else if 0x4020 <= a then ToCart
    else Dropped
  }

  /** A write above 0xFFFF is cut to 16 bits before it is decoded, but a read
    * is not: a write to 0x10000 reaches work RAM while a read of it gives 0. */
  lemma WriteWrapsReadDoesNot()
    ensures WriteTarget(Cut(0x10000)) == ToWram
    ensures ReadTarget(0x10000) == Open
  {
    assert Cut(0x10000) == 0;
  }

  /** The `oam_dma` tuple: running, source page, next index. */
  datatype Dma = Dma(active: bool, page: Byte, index: Byte)

  /** The CPU address tick `index` of a DMA from `page` reads:
    * `(page << 8) | index`. */
  function DmaAddress(d: Dma): (a: nat)
    ensures a < 0x10000
    ensures a / 256 == d.page as nat && a % 256 == d.index as nat
  {
    d.page as nat * 256 + d.index as nat
  }

  /** One tick's update of the tuple: the index moves on, and the tick that
    * copies index 0xFF stops the DMA instead. */
  function DmaStep(d: Dma): (r: Dma)
    ensures r.page == d.page
    ensures d.index == 0xFF ==> r == d.(active := false)
    ensures d.index != 0xFF ==> r.active == d.active && r.index as nat == d.index as nat + 1
  {
    if d.index == 0xFF then d.(active := false) else d.(index := d.index + 1)
  }

  /** The tuple after `n` ticks. */
  function DmaRun(d: Dma, n: nat): Dma
    decreases n
  {
    if n == 0 then d else DmaRun(DmaStep(d), n - 1)
  }

  /** Before index 0xFF is copied, `k` ticks move the index on by `k` and
    * keep the DMA running. */
  lemma {:induction false} DmaAdvances(d: Dma, k: nat)
    requires d.index as nat + k <= 0xFF
    decreases k
    ensures DmaRun(d, k).active == d.active && DmaRun(d, k).page == d.page
    ensures DmaRun(d, k).index as nat == d.index as nat + k
  {
    if k > 0 {
      DmaAdvances(DmaStep(d), k - 1);
    }
  }

  /** A DMA started by a write to 0x4014 lasts exactly 256 ticks: tick
    * `k + 1` (for `k` < 256) copies the byte at `page * 256 + k`, the first
    * 255 ticks report the DMA still running and the 256th reports it done. */
  lemma DmaLasts256(page: Byte, k: nat)
    requires k < 256
    ensures DmaAddress(DmaRun(Dma(true, page, 0), k)) == page as nat * 256 + k
    ensures DmaRun(Dma(true, page, 0), k + 1).active <==> k < 255
  {
    var d := Dma(true, page, 0);
    DmaAdvances(d, k);
    RunSplit(d, k);
    if k < 255 {
      DmaAdvances(d, k + 1);
    } else {
      assert DmaRun(d, k).index == 0xFF;
    }
  }

  /** `k + 1` ticks are `k` ticks and then one more. */
  lemma {:induction false} RunSplit(d: Dma, k: nat)
    decreases k
    ensures DmaRun(d, k + 1) == DmaStep(DmaRun(d, k))
  {
    if k > 0 {
      RunSplit(DmaStep(d), k - 1);
    }
  }

  class Bus {
    const wram: Memory
    var mapper: Nrom.Nrom
    const ppuMem: PpuMemory.PPUMemory
    const mappedRegs: Memory
    var dma: Dma

    /** Work RAM and the register block have their sizes and are writable,
      * the cartridge and the PPU are consistent, and no two of the eight
      * memories are the same object. */
    predicate Valid()
      reads this, wram, mappedRegs, mapper, mapper.prgRam, mapper.prgRom, mapper.chrRom
      reads ppuMem, ppuMem.vram, ppuMem.oam, ppuMem.palette
    {
      |wram.data| == WramSize && wram.writable &&
      |mappedRegs.data| == MappedRegSize && mappedRegs.writable &&
      mapper.Valid() && ppuMem.Valid() && Separate()
    }

    /** The memories of the bus, the cartridge and the PPU are distinct. */
    predicate Separate()
      reads this, mapper, ppuMem
    {
      wram != mappedRegs &&
      wram != mapper.prgRam && wram != mapper.prgRom && wram != mapper.chrRom &&
      mappedRegs != mapper.prgRam && mappedRegs != mapper.prgRom && mappedRegs != mapper.chrRom &&
      wram != ppuMem.vram && wram != ppuMem.oam && wram != ppuMem.palette &&
      mappedRegs != ppuMem.vram && mappedRegs != ppuMem.oam && mappedRegs != ppuMem.palette &&
      ppuMem.vram != mapper.prgRam && ppuMem.vram != mapper.prgRom && ppuMem.vram != mapper.chrRom &&
      ppuMem.oam != mapper.prgRam && ppuMem.oam != mapper.prgRom && ppuMem.oam != mapper.chrRom &&
      ppuMem.palette != mapper.prgRam && ppuMem.palette != mapper.prgRom && ppuMem.palette != mapper.chrRom
    }

    /** `Bus::new`: 2 KiB of zeroed work RAM, a fresh PPU, 0x2F zeroed
      * register bytes, the cartridge loaded as NROM, and no DMA. */
    constructor New(cart: Cartridge.Cartridge)
      ensures Valid()
      ensures fresh(wram) && fresh(mappedRegs) && fresh(ppuMem) && fresh(ppuMem.vram) && fresh(ppuMem.oam) && fresh(ppuMem.palette)
      ensures fresh(mapper) && fresh(mapper.prgRam) && fresh(mapper.prgRom) && fresh(mapper.chrRom)
      ensures wram.data == Zeros(WramSize) && mappedRegs.data == Zeros(MappedRegSize)
      ensures ppuMem.Registers() == PpuMemory.InitialRegs
      ensures mapper.prgRom.data == cart.prgRom && mapper.chrRom.data == Cartridge.ChrBytes(cart)
      ensures dma == Dma(false, 0, 0)
    {
      wram := new Memory.Ram(WramSize);
      ppuMem := new PpuMemory.PPUMemory.New();
      mappedRegs := new Memory.Ram(MappedRegSize);
      mapper := new Nrom.Nrom.Load(cart);
      dma := Dma(false, 0, 0);
    }

    /** `mapper_load`: swaps in another cartridge, which (being moved in)
      * shares no memory with the bus. */
    method MapperLoad(m: Nrom.Nrom)
      requires Valid() && m.Valid()
      requires m.prgRam != wram && m.prgRom != wram && m.chrRom != wram
      requires m.prgRam != mappedRegs && m.prgRom != mappedRegs && m.chrRom != mappedRegs
      requires {m.prgRam, m.prgRom, m.chrRom} !! {ppuMem.vram, ppuMem.oam, ppuMem.palette}
      modifies this`mapper
      ensures Valid() && mapper == m
    {
      mapper := m;
    }

    /** `get_oam_dma_state`. */
    function OamDmaState(): (active: bool)
      reads this
      ensures active <==> dma.active
    {
      dma.active
    }

    /** A CPU read of `addr` does not panic: a cartridge read reaches a
      * non-empty memory, and a PPUDATA read's step of `v` fits in `u16`. */
    predicate CanRead(addr: nat)
      reads this, mapper, mapper.prgRom, mapper.chrRom, ppuMem
    {
      (ReadTarget(addr) == Cart ==> mapper.Reachable(addr)) &&
      (ReadTarget(addr) == PpuRegs && Cut(addr) == PpuMemory.PpuDataAddr ==>
         PpuMemory.StepFits(ppuMem.v, ppuMem.ctrl, PpuMemory.ReadStepBit))
    }

    /** The byte a CPU read of `addr` returns. */
    function ReadValue(addr: nat): Byte
      reads this, wram, mappedRegs, mapper, mapper.prgRam, mapper.prgRom, mapper.chrRom
      reads ppuMem, ppuMem.vram, ppuMem.oam, ppuMem.palette
      requires Valid() && CanRead(addr)
    {
      match ReadTarget(addr)
      case Wram => wram.data[addr % WramSize]
      case PpuRegs => PpuMemory.RegisterRead(ppuMem.Registers(), Cut(addr), ppuMem.oam.data, ppuMem.vram.data)
      case MappedRegs => mappedRegs.data[addr % MappedRegSize]
      case Cart => mapper.ReadValue(addr)
      case Open => 0
    }

    /** `Bus::read`. Only a PPU register read changes state (PPUSTATUS and
      * PPUDATA); unmapped addresses read 0. */
    method Read(addr: nat) returns (v: Byte)
      requires Valid() && CanRead(addr)
      modifies ppuMem`w, ppuMem`status, ppuMem`v
      ensures Valid()
      ensures v == old(ReadValue(addr))
      ensures ppuMem.Registers() == ReadEffect(old(ppuMem.Registers()), addr)
    {
      var t := ReadTarget(addr);
      if t == Wram {
        v := wram.Read(addr);
      } else if t == PpuRegs {
        v := ppuMem.Read(addr);
      } else if t == MappedRegs {
        v := mappedRegs.Read(addr);
      } else if t == Cart {
        v := mapper.Read(addr);
      } else {
        v := 0;
      }
    }

    /** A CPU write of `addr` does not panic: a cartridge write, or a PPUDATA
      * write that `v` below 0x2000 forwards to the cartridge, reaches a
      * non-empty memory, and the PPUDATA step of `v` fits in `u16`. */
    predicate CanWrite(addr: nat)
      reads this, mapper, mapper.prgRom, mapper.chrRom, ppuMem
    {
      var t := WriteTarget(Cut(addr));
      (t == ToCart ==> mapper.Reachable(addr)) &&
      (t == ToPpu && Cut(addr) == PpuMemory.PpuDataAddr ==>
         PpuMemory.StepFits(ppuMem.v, ppuMem.ctrl, PpuMemory.WriteStepBit) &&
         (ppuMem.v <= 0x1FFF ==> mapper.Reachable(ppuMem.v)))
    }

    /** `Bus::write`, decoded on the address cut to 16 bits: work RAM and the
      * register block store the byte, 0x4014 starts a DMA of page `value`,
      * the PPU registers take it (a PPUDATA write into pattern-table space
      * goes on to the cartridge, which is read-only), and cartridge writes
      * change no cartridge byte. */
    method Write(addr: nat, value: Byte)
      requires Valid() && CanWrite(addr)
      modifies wram, mappedRegs, this`dma, ppuMem, ppuMem.oam, ppuMem.vram, ppuMem.palette, mapper.prgRom, mapper.chrRom
      ensures Valid()
      ensures wram.data == if WriteTarget(Cut(addr)) == ToWram then old(wram.data)[addr % WramSize := value] else old(wram.data)
      ensures mappedRegs.data == if WriteTarget(Cut(addr)) == ToMappedRegs then old(mappedRegs.data)[addr % MappedRegSize := value] else old(mappedRegs.data)
      ensures dma == if WriteTarget(Cut(addr)) == StartDma then Dma(true, value, 0) else old(dma)
      ensures ppuMem.Registers() == if WriteTarget(Cut(addr)) == ToPpu then PpuMemory.AfterWrite(old(ppuMem.Registers()), Cut(addr), value) else old(ppuMem.Registers())
      ensures ppuMem.oam.data == if WriteTarget(Cut(addr)) == ToPpu then PpuOam(addr, value, old(ppuMem.Registers()), old(ppuMem.oam.data)) else old(ppuMem.oam.data)
      ensures ppuMem.vram.data == if WriteTarget(Cut(addr)) == ToPpu then PpuVram(addr, value, old(ppuMem.Registers()), old(ppuMem.vram.data)) else old(ppuMem.vram.data)
      ensures ppuMem.palette.data == if WriteTarget(Cut(addr)) == ToPpu then PpuPalette(addr, value, old(ppuMem.Registers()), old(ppuMem.palette.data)) else old(ppuMem.palette.data)
      ensures mapper.prgRom.data == old(mapper.prgRom.data) && mapper.chrRom.data == old(mapper.chrRom.data)
    {
      var t := WriteTarget(Cut(addr));
      if t == ToWram {
        wram.Write(addr, value);
      } else if t == StartDma {
        dma := Dma(true, value, 0);
      } else if t == ToPpu {
        WritePpu(addr, value);
      } else if t == ToMappedRegs {
        mappedRegs.Write(addr, value);
      } else if t == ToCart {
        mapper.Write(addr, value);
      }
    }

    /** A PPU register write, with the pattern-table write it may hand back
      * performed on the cartridge. */
    method WritePpu(addr: nat, value: Byte)
      requires Valid() && WriteTarget(Cut(addr)) == ToPpu && CanWrite(addr)
      modifies ppuMem, ppuMem.oam, ppuMem.vram, ppuMem.palette, mapper.prgRom, mapper.chrRom
      ensures Valid()
      ensures ppuMem.Registers() == PpuMemory.AfterWrite(old(ppuMem.Registers()), Cut(addr), value)
      ensures ppuMem.oam.data == PpuOam(addr, value, old(ppuMem.Registers()), old(ppuMem.oam.data))
      ensures ppuMem.vram.data == PpuVram(addr, value, old(ppuMem.Registers()), old(ppuMem.vram.data))
      ensures ppuMem.palette.data == PpuPalette(addr, value, old(ppuMem.Registers()), old(ppuMem.palette.data))
      ensures mapper.prgRom.data == old(mapper.prgRom.data) && mapper.chrRom.data == old(mapper.chrRom.data)
    {
      var forward := ppuMem.Write(addr, value);
      if forward.Some? {
        mapper.Write(forward.value.0, forward.value.1);
      }
    }

    /** `oam_dma_tick`: reads the byte at `(page << 8) | index` through the
      * bus (with a PPU read's side effects), stores it into OAM at
      * `oam_addr`, moves the tuple on, and reports whether the DMA is still
      * running. The tick runs whether or not a DMA is active. */
    method OamDmaTick() returns (active: bool)
      requires Valid() && CanRead(DmaAddress(dma))
      modifies ppuMem`w, ppuMem`status, ppuMem`v, ppuMem`oamAddr, ppuMem.oam, this`dma
      ensures Valid()
      ensures ppuMem.oam.data == old(ppuMem.oam.data)[old(ppuMem.oamAddr) as nat := old(ReadValue(DmaAddress(dma)))]
      ensures ppuMem.Registers() == ReadEffect(old(ppuMem.Registers()), old(DmaAddress(dma))).(oamAddr := old(ppuMem.oamAddr) + 1)
      ensures dma == DmaStep(old(dma))
      ensures active == dma.active
    {
      var value := Read(DmaAddress(dma));
      ppuMem.OamDmaWrite(value);
      dma := DmaStep(dma);
      active := dma.active;
    }

    /** `Bus::ppu_read`: pattern-table space from the cartridge, the rest of
      * 0x2000..0x3FFF from the PPU's memories, 0 above. */
    method PpuRead(addr: nat) returns (v: Byte)
      requires Valid() && (addr <= 0x1FFF ==> mapper.Reachable(addr))
      ensures v == PpuMemory.PpuSideRead(ppuMem.mirroringType, addr, ChrByte(addr), ppuMem.vram.data, ppuMem.palette.data)
    {
      if addr <= 0x1FFF {
        v := mapper.Read(addr);
      } else if addr <= 0x3FFF {
        v := ppuMem.PpuRead(addr, 0);
      } else {
        v := 0;
      }
    }

    /** The cartridge byte a PPU-side read of pattern-table space sees. */
    function ChrByte(addr: nat): Byte
      reads this, mapper, mapper.prgRam, mapper.prgRom, mapper.chrRom
      requires mapper.Valid() && (addr <= 0x1FFF ==> mapper.Reachable(addr))
    {
      if addr <= 0x1FFF then mapper.ReadValue(addr) else 0
    }

    /** `Bus::ppu_write`: pattern-table writes go to the read-only
      * cartridge, 0x2000..0x3FFF to the PPU's memories, others are dropped. */
    method PpuWrite(addr: nat, value: Byte)
      requires Valid() && (addr <= 0x1FFF ==> mapper.Reachable(addr))
      modifies ppuMem.vram, ppuMem.palette, mapper.prgRom, mapper.chrRom
      ensures Valid()
      ensures ppuMem.vram.data == PpuMemory.VramAfter(ppuMem.mirroringType, addr, value, old(ppuMem.vram.data))
      ensures ppuMem.palette.data == PpuMemory.PaletteAfter(ppuMem.mirroringType, addr, value, old(ppuMem.palette.data))
      ensures mapper.prgRom.data == old(mapper.prgRom.data) && mapper.chrRom.data == old(mapper.chrRom.data)
    {
      if addr <= 0x1FFF {
        mapper.Write(addr, value);
      } else if addr <= 0x3FFF {
        var _ := ppuMem.PpuWrite(addr, value);
      }
    }
  }

  /** The PPU registers after a CPU read of `addr`. */
  function ReadEffect(r: PpuMemory.Regs, addr: nat): PpuMemory.Regs
    requires ReadTarget(addr) == PpuRegs && Cut(addr) == PpuMemory.PpuDataAddr ==>
      PpuMemory.StepFits(r.v, r.ctrl, PpuMemory.ReadStepBit)
  {
    if ReadTarget(addr) == PpuRegs then PpuMemory.AfterRead(r, Cut(addr)) else r
  }

  /** OAM after a PPU register write: an OAMDATA write stores at `oam_addr`. */
  function PpuOam(addr: nat, value: Byte, r: PpuMemory.Regs, oam: seq<Byte>): seq<Byte>
  {
    if Cut(addr) == PpuMemory.OamDataAddr && r.oamAddr as nat < |oam| then oam[r.oamAddr as nat := value] else oam
  }

  /** Nametable RAM after a PPU register write: a PPUDATA write stores at `v`. */
  function PpuVram(addr: nat, value: Byte, r: PpuMemory.Regs, vram: seq<Byte>): seq<Byte>
  {
    if Cut(addr) == PpuMemory.PpuDataAddr && |vram| == PpuMemory.VramSize then PpuMemory.VramAfter(r.mirroring, r.v, value, vram) else vram
  }

  /** Palette RAM after a PPU register write. */
  function PpuPalette(addr: nat, value: Byte, r: PpuMemory.Regs, palette: seq<Byte>): seq<Byte>
  {
    if Cut(addr) == PpuMemory.PpuDataAddr && |palette| == PpuMemory.PaletteSize then PpuMemory.PaletteAfter(r.mirroring, r.v, value, palette) else palette
  }
}
