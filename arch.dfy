/** The older cartridge loader: plain iNES sizes from header bytes 4 and 5,
  * and the PRG and CHR slices of the image. */
module Arch {
  import opened Common
  import Cartridge

  datatype RomInfo = RomInfo(trainer: bool, sizePrg: nat, sizeChr: nat, startPrg: nat, startChr: nat)

  /** `RomInfo::info_from_header`: 16 KiB PRG units, 8 KiB CHR units, PRG
    * right after the 16-byte header and CHR right after PRG; a trainer is
    * never assumed. */
  function InfoFromHeader(header: seq<Byte>): (r: RomInfo)
    requires |header| > 5
    ensures !r.trainer && r.startPrg == 16 && r.startChr == r.startPrg + r.sizePrg
    ensures r.sizePrg % 0x4000 == 0 && r.sizePrg / 0x4000 == header[4] as nat
    ensures r.sizeChr % 0x2000 == 0 && r.sizeChr / 0x2000 == header[5] as nat
  {
    var sizePrg := header[4] as nat * 16 * 1024;
    var sizeChr := header[5] as nat * 8 * 1024;
    Cartridge.MulDiv(header[4] as nat, 0x4000);
    Cartridge.MulDiv(header[5] as nat, 0x2000);
    RomInfo(false, sizePrg, sizeChr, 16, 16 + sizePrg)
  }

  /** A cartridge that borrows its parts from the image. */
  datatype ArchCartridge = ArchCartridge(
    fullRom: seq<Byte>,
    header: seq<Byte>,
    prgRom: seq<Byte>,
    prgSize: nat,
    chrRom: Option<seq<Byte>>,
    chrSize: nat)

  /** The image holds the header and every slice its header announces. */
  predicate RomDefined(rom: seq<Byte>)
  {
    |rom| >= 16 &&
    var info := InfoFromHeader(rom[..16]);
    info.startPrg + info.sizePrg <= |rom| &&
    (info.sizeChr > 0 ==> info.startChr + info.sizeChr <= |rom|)
  }

  /** `Cartridge::create_from_rom` of the older loader. */
  function CreateFromRom(rom: seq<Byte>): (c: ArchCartridge)
    requires RomDefined(rom)
    ensures c.fullRom == rom && c.header == rom[..16]
    ensures |c.prgRom| == c.prgSize == InfoFromHeader(rom[..16]).sizePrg
    ensures c.chrRom.None? <==> c.chrSize == 0
    ensures c.chrSize == InfoFromHeader(rom[..16]).sizeChr
    ensures c.chrRom.Some? ==> |c.chrRom.value| == c.chrSize
  {
    var info := InfoFromHeader(rom[..16]);
    ArchCartridge(rom, rom[..16],
      rom[info.startPrg..info.startPrg + info.sizePrg], info.sizePrg,
      if info.sizeChr > 0 then Some(rom[info.startChr..info.startChr + info.sizeChr]) else None,
      info.sizeChr)
  }

  /** On a header whose byte 9 is zero (every iNES 1.0 image) both loaders
    * agree on the two sizes. */
  lemma AgreesWithHeaderDecode(header: seq<Byte>)
    requires |header| >= 16 && header[9] == 0
    ensures Cartridge.HeaderDefined(header)
    ensures Cartridge.DecodeHeader(header).prgRomSize == InfoFromHeader(header).sizePrg
    ensures Cartridge.DecodeHeader(header).chrRomSize == InfoFromHeader(header).sizeChr
  {
    assert Cartridge.PrgMsb(header) == 0 && Cartridge.ChrMsb(header) == 0;
    Cartridge.PlainSizesDefined(header);
  }

  /** On such an image both loaders cut out the same PRG and CHR bytes. */
  lemma AgreesWithCartridge(rom: seq<Byte>)
    requires |rom| >= 16 && rom[9] == 0 && RomDefined(rom)
    ensures Cartridge.HeaderDefined(rom[..16]) && Cartridge.CartridgeDefined(rom)
    ensures Cartridge.CreateFromRom(rom).prgRom == CreateFromRom(rom).prgRom
    ensures Cartridge.CreateFromRom(rom).chrRom == CreateFromRom(rom).chrRom
  {
    AgreesWithHeaderDecode(rom[..16]);
  }

  /** The CHR bytes the cartridge holds, empty when it has none. */
  function ChrBytes(c: ArchCartridge): seq<Byte>
  {
    match c.chrRom
    case Some(chr) => chr
    case None => []
  }

  /** The header, PRG and CHR slices lie back to back at the start of the
    * image. */
  lemma Layout(rom: seq<Byte>)
    requires RomDefined(rom)
    ensures var c := CreateFromRom(rom);
      c.header + c.prgRom + ChrBytes(c) == rom[..16 + c.prgSize + |ChrBytes(c)|]
  {
    var c := CreateFromRom(rom);
    var n := 16 + c.prgSize;
    Cartridge.PrefixSplit(rom, 16, n);
    if c.chrRom.Some? {
      Cartridge.PrefixSplit(rom, n, n + c.chrSize);
    } else {
      assert ChrBytes(c) == [];
    }
  }
}
