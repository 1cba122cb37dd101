/** The vocabulary every mapper shares: the nametable mirroring kinds and the
  * error a cartridge with an unknown mapper number produces. */
module MapperTypes {
  import opened Common

  datatype MirroringType = Horizontal | Vertical | FourScreen | SingleScreenA | SingleScreenB

  /** `MirroringType::default()`. */
  function DefaultMirroring(): (m: MirroringType)
    ensures m == Horizontal
  {
    Horizontal
  }

  /** The error `load_rom` returns for a mapper it does not implement. */
  datatype ErrorMissingMapper = ErrorMissingMapper(mapperNum: Word)

  const MissingMapperPrefix: string := "unsupported mapper number: "

  /** The error's display text: a fixed prefix and the number in decimal. */
  function Message(e: ErrorMissingMapper): (s: string)
    ensures |s| > |MissingMapperPrefix|
    ensures s[..|MissingMapperPrefix|] == MissingMapperPrefix
    ensures DecimalValue(s[|MissingMapperPrefix|..]) == e.mapperNum as nat
  {
    var digits := Decimal(e.mapperNum as nat);
    DecimalRoundTrip(e.mapperNum as nat);
    assert (MissingMapperPrefix + digits)[|MissingMapperPrefix|..] == digits;
    MissingMapperPrefix + digits
  }
}

/** `load_rom` and the `Mapper` trait: the dispatch from a cartridge's mapper
  * number to a mapper, and the trait's answers for each mapper. */
module Mapper {
  import opened Common
  import opened MapperTypes
  import Cartridge
  import Nrom
  import Mmc1
  import Uxrom
  import Bankable

  /** `MapperType`: one of the implemented mappers, or none. */
  datatype MapperType =
    | NullMapper
    | NromMapper(nrom: Nrom.Nrom)
    | Mmc1Mapper(mmc1: Mmc1.MMC1)
    | UxromMapper(uxrom: Uxrom.Uxrom)

  /** `Result<MapperType, Box<dyn Error>>` with the one error `load_rom`
    * produces. */
  datatype LoadResult = Ok(mapper: MapperType) | Err(error: ErrorMissingMapper)

  /** The mapper numbers `load_rom` accepts. */
  predicate Supported(mapperNum: Word)
  {
    mapperNum == 0 || mapperNum == 1 || mapperNum == 2 || mapperNum == 71
  }

  /** The objects a mapper's state lives in. */
  function Footprint(m: MapperType): set<object>
  {
    match m
    case NullMapper => {}
    case NromMapper(n) => {n, n.prgRam, n.prgRom, n.chrRom}
    case Mmc1Mapper(c) => {c, c.prgRam, c.prgRom, c.chr}
    case UxromMapper(u) => {u, u.prgRom, u.chr}
  }

  predicate Valid(m: MapperType)
    reads Footprint(m)
  {
    match m
    case NullMapper => true
    case NromMapper(n) => n.Valid()
    case Mmc1Mapper(c) => c.Valid()
    case UxromMapper(u) => u.Valid()
  }

  /** The PRG-ROM bytes a mapper serves. */
  function PrgRomBytes(m: MapperType): seq<Byte>
    reads Footprint(m)
  {
    match m
    case NullMapper => []
    case NromMapper(n) => n.prgRom.data
    case Mmc1Mapper(c) => c.prgRom.data
    case UxromMapper(u) => u.prgRom.data
  }

  /** The CHR bytes a mapper serves. */
  function ChrBytes(m: MapperType): seq<Byte>
    reads Footprint(m)
  {
    match m
    case NullMapper => []
    case NromMapper(n) => n.chrRom.data
    case Mmc1Mapper(c) => c.chr.data
    case UxromMapper(u) => u.chr.data
  }

  /** `mirroring()`: NROM and the null mapper keep the trait default, MMC1
    * and UxROM report their own field. */
  function Mirroring(m: MapperType): MirroringType
    reads Footprint(m)
  {
    match m
    case Mmc1Mapper(c) => c.Mirroring()
    case UxromMapper(u) => u.Mirroring()
    case _ => DefaultMirroring()
  }

  /** `irq_pending()`: no mapper raises an interrupt. */
  function IrqPending(m: MapperType): bool
  {
    false
  }

  /** `battery_backed()`. */
  function BatteryBacked(m: MapperType): bool
  {
    false
  }

  /** `use_ciram(addr)`: the console's nametable RAM is always used. */
  function UseCiram(m: MapperType, addr: nat): bool
  {
    true
  }

  /** `nametable_page(addr)`. */
  function NametablePage(m: MapperType, addr: nat): nat
  {
    0
  }

  /** Every mapper answers the trait's questions with its defaults. */
  lemma TraitDefaults(m: MapperType, addr: nat)
    ensures !IrqPending(m) && !BatteryBacked(m)
    ensures UseCiram(m, addr) && NametablePage(m, addr) == 0
  {
  }

  /** The mirroring a freshly loaded mapper reports: MMC1's initial control
    * value selects Vertical, UxROM keeps the header's, and NROM the trait
    * default whatever the header says. */
  function LoadedMirroring(header: Cartridge.NesHeader): MirroringType
  {
    if header.mapperNum == 1 then Vertical
    else if header.mapperNum == 2 || header.mapperNum == 71 then header.mirroringType
    else DefaultMirroring()
  }

  /** `load_rom`: 0 is NROM, 1 is MMC1, 2 and 71 are UxROM; any other number
    * is an error that carries it. */
  method LoadRom(cart: Cartridge.Cartridge) returns (r: LoadResult)
    ensures r.Ok? <==> Supported(cart.header.mapperNum)
    ensures r.Err? ==> r.error.mapperNum == cart.header.mapperNum
    ensures cart.header.mapperNum == 0 ==> r.Ok? && r.mapper.NromMapper?
    ensures cart.header.mapperNum == 1 ==> r.Ok? && r.mapper.Mmc1Mapper?
    ensures cart.header.mapperNum == 2 || cart.header.mapperNum == 71 ==> r.Ok? && r.mapper.UxromMapper?
    ensures r.Ok? ==> fresh(Footprint(r.mapper)) && Valid(r.mapper)
    ensures r.Ok? ==> PrgRomBytes(r.mapper) == cart.prgRom
    ensures r.Ok? ==> Mirroring(r.mapper) == LoadedMirroring(cart.header)
  {
    var num := cart.header.mapperNum;
    if num == 0 {
      var n := new Nrom.Nrom.Load(cart);
      r := Ok(NromMapper(n));
    } else if num == 1 {
      var c := new Mmc1.MMC1.Load(cart);
      r := Ok(Mmc1Mapper(c));
    } else if num == 2 || num == 71 {
      var u := new Uxrom.Uxrom.Load(cart);
      r := Ok(UxromMapper(u));
    } else {
      r := Err(ErrorMissingMapper(num));
    }
  }

  /** `null()`. */
  function Null(): (m: MapperType)
    ensures Footprint(m) == {} && Valid(m)
    ensures ChrBytes(m) == [] && PrgRomBytes(m) == []
  {
    NullMapper
  }

  /** The address reaches a memory that can be indexed (only NROM can
    * fail this, on an empty PRG or CHR memory). */
  predicate Reachable(m: MapperType, addr: nat)
    reads Footprint(m)
  {
    m.NromMapper? ==> m.nrom.Reachable(addr)
  }

  /** The byte the mapper's `read` returns; the null mapper takes the
    * `MemRead` default 0. */
  function ReadValue(m: MapperType, addr: nat): Byte
    reads Footprint(m)
    requires Valid(m) && Reachable(m, addr)
  {
    match m
    case NullMapper => 0
    case NromMapper(n) => n.ReadValue(addr)
    case Mmc1Mapper(c) => c.ReadValue(addr)
    case UxromMapper(u) => u.ReadValue(addr)
  }

  /** No mapper answers at 0x2000..0x5FFF. */
  lemma UnmappedReadsZero(m: MapperType, addr: nat)
    requires Valid(m) && 0x2000 <= addr < 0x6000
    ensures Reachable(m, addr) && ReadValue(m, addr) == 0
  {
  }

  /** `MemRead::read` dispatched to the mapper. */
  method Read(m: MapperType, addr: nat) returns (v: Byte)
    requires Valid(m) && Reachable(m, addr)
    ensures v == ReadValue(m, addr)
  {
    match m {
      case NullMapper => v := 0;
      case NromMapper(n) => v := n.Read(addr);
      case Mmc1Mapper(c) => v := c.Read(addr);
      case UxromMapper(u) => v := u.Read(addr);
    }
  }

  /** `MemWrite::write` dispatched to the mapper: no write changes PRG-ROM,
    * only writes below 0x2000 reach CHR, NROM keeps all its memories, and
    * the registers, windows, CHR and PRG-RAM of MMC1 and UxROM move as each
    * mapper's own `write` says. */
  method Write(m: MapperType, addr: nat, value: Byte)
    requires Valid(m) && Reachable(m, addr)
    modifies Footprint(m)
    ensures Valid(m)
    ensures PrgRomBytes(m) == old(PrgRomBytes(m))
    ensures addr > 0x1FFF ==> ChrBytes(m) == old(ChrBytes(m))
    ensures m.NromMapper? ==> ChrBytes(m) == old(ChrBytes(m))
    ensures m.Mmc1Mapper? ==>
      m.mmc1.State() ==
        if 0x8000 <= addr <= 0xFFFF then Mmc1.AfterSerialWrite(old(m.mmc1.State()), addr, value, m.mmc1.Last())
        else old(m.mmc1.State())
    ensures m.NromMapper? ==> unchanged(m.nrom.prgRam, m.nrom.prgRom, m.nrom.chrRom)
    ensures m.Mmc1Mapper? ==>
      m.mmc1.chr.data ==
        if addr <= 0x1FFF then Bankable.Store(old(m.mmc1.chr.data), true, Mmc1.ChrWindow, m.mmc1.chr.banks, addr, value)
        else old(m.mmc1.chr.data)
    ensures m.Mmc1Mapper? ==>
      m.mmc1.prgRam.data ==
        if 0x6000 <= addr <= 0x7FFF && old(m.mmc1.prgBank) & 0x10 == 0
        then Bankable.Store(old(m.mmc1.prgRam.data), true, Mmc1.PrgRamWindow, m.mmc1.prgRam.banks, addr, value)
        else old(m.mmc1.prgRam.data)
    ensures m.Mmc1Mapper? ==> m.mmc1.prgRam.banks == old(m.mmc1.prgRam.banks)
    ensures m.UxromMapper? ==> m.uxrom.prgRom.banks == Uxrom.SelectBank(old(m.uxrom.prgRom.banks), addr, value)
    ensures m.UxromMapper? ==>
      m.uxrom.chr.data ==
        if addr <= 0x1FFF then Bankable.Store(old(m.uxrom.chr.data), m.uxrom.chr.writable, Uxrom.ChrWindow, m.uxrom.chr.banks, addr, value)
        else old(m.uxrom.chr.data)
    ensures m.UxromMapper? ==> m.uxrom.chr.banks == old(m.uxrom.chr.banks)
  {
    match m {
      case NullMapper =>
      case NromMapper(n) => n.Write(addr, value);
      case Mmc1Mapper(c) => c.Write(addr, value);
      case UxromMapper(u) => u.Write(addr, value);
    }
  }
}
