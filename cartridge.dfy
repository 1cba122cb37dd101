/** The iNES / NES 2.0 cartridge image: its 16-byte header decoded into sizes
  * and flags, and the PRG and CHR data cut out of the image behind it. */
module Cartridge {
  import opened Common
  import opened MapperTypes

  datatype ConsoleType = Nes | VsSystem(ppuType: Byte, hardwareType: Byte) | PC10 | Extended(kind: Byte)

  datatype TimingType = NtscNes | PalNes | MultipleRegion | Dendy

  datatype NesHeader = NesHeader(
    prgRomSize: nat,
    chrRomSize: nat,
    mirroringType: MirroringType,
    battery: bool,
    trainer: bool,
    mapperNum: Word,
    consoleType: ConsoleType,
    nes2: bool,
    submapperNum: Byte,
    eepromSize: nat,
    prgRamSize: nat,
    chrRamSize: nat,
    chrNvramSize: nat,
    timingType: TimingType,
    miscRoms: Byte,
    defaultExpDevice: Byte)

  /** PRG-ROM is counted in 16 KiB units, CHR-ROM in 8 KiB units. */
  const PrgUnit: nat := 0x4000
  const ChrUnit: nat := 0x2000
  /** One more than the largest `usize` on a 64-bit target. */
  const UsizeModulus: nat := 0x1_0000_0000_0000_0000

  function Pow2(n: nat): (r: nat)
    ensures r >= 1
  {
    if n == 0 then 1 else 2 * Pow2(n - 1)
  }

  /** The exponent-multiplier form of a size byte: `2 << (b >> 2)` in 64-bit
    * arithmetic (bits shifted out are lost), times `(b & 3) * 2 + 1`. The
    * product itself must fit, which `HeaderDefined` demands. */
  function ExponentSize(b: Byte): nat
  {
    (Pow2(((b & 0xFC) >> 2) as nat + 1) % UsizeModulus) * ((b & 3) * 2 + 1) as nat
  }

  /** A ROM size from its most significant nibble `msb` (0..15) and least
    * significant byte `lsb`: the exponent form when the nibble is 0xF,
    * otherwise `(msb << 8 | lsb)` units. */
  function RomSize(msb: Byte, lsb: Byte, unit: nat): nat
  {
    if msb == 0xF then ExponentSize(lsb) else (msb as nat * 256 + lsb as nat) * unit
  }

  function PrgMsb(header: seq<Byte>): Byte
    requires |header| >= 16
  {
    header[9] & 0x0F
  }

  function ChrMsb(header: seq<Byte>): Byte
    requires |header| >= 16
  {
    (header[9] & 0xF0) >> 4
  }

  /** The size decode does not overflow `usize` (a panic in the source). */
  predicate HeaderDefined(header: seq<Byte>)
  {
    |header| >= 16 &&
    RomSize(PrgMsb(header), header[4], PrgUnit) < UsizeModulus &&
    RomSize(ChrMsb(header), header[5], ChrUnit) < UsizeModulus
  }

  /** A RAM size from its shift-count nibble: none when 0, `64 << n` else. */
  function RamSize(n: nat): nat
  {
    if n == 0 then 0 else 64 * Pow2(n)
  }

  function Mirroring(flags6: Byte): MirroringType
  {
    if flags6 & 0x08 != 0 then FourScreen
    else if flags6 & 0x01 != 0 then Vertical
    else Horizontal
  }

  function MapperNumber(flags6: Byte, flags7: Byte, byte8: Byte): Word
  {
    (flags6 >> 4) as Word | (flags7 & 0xF0) as Word | ((byte8 & 0x0F) as Word << 8)
  }

  function Console(flags7: Byte, byte13: Byte): ConsoleType
  {
    match flags7 & 0x03
    case 0 => Nes
    case 1 => VsSystem(byte13 & 0x0F, (byte13 & 0xF0) >> 4)
    case 2 => PC10
    case 3 => Extended(byte13 & 0x0F)
    case _ => Nes
  }

  function Timing(byte12: Byte): TimingType
  {
    match byte12 & 0x03
    case 0 => NtscNes
    case 1 => PalNes
    case 2 => MultipleRegion
    case 3 => Dendy
    case _ => NtscNes
  }

  /** `NesHeader::new`: every field decoded from its header bits. */
  function DecodeHeader(header: seq<Byte>): (h: NesHeader)
    requires HeaderDefined(header)
    ensures h.prgRomSize < UsizeModulus && h.chrRomSize < UsizeModulus
    ensures h.mapperNum < 0x1000
    ensures h.nes2 <==> header[7] & 0x0C == 8
    ensures h.battery <==> header[6] & 0x02 != 0
    ensures h.trainer <==> header[6] & 0x04 != 0
    ensures h.submapperNum < 16 && h.miscRoms < 4 && h.defaultExpDevice < 64
  {
    NesHeader(
      RomSize(PrgMsb(header), header[4], PrgUnit),
      RomSize(ChrMsb(header), header[5], ChrUnit),
      Mirroring(header[6]),
      header[6] & 0x02 != 0,
      header[6] & 0x04 != 0,
      MapperNumber(header[6], header[7], header[8]),
      Console(header[7], header[13]),
      header[7] & 0x0C == 8,
      (header[8] & 0xF0) >> 4,
      RamSize((header[10] & 0x0F) as nat),
      RamSize(((header[10] & 0xF0) >> 4) as nat),
      RamSize((header[11] & 0x0F) as nat),
      RamSize(((header[11] & 0xF0) >> 4) as nat),
      Timing(header[12]),
      header[14] & 0x03,
      header[15] & 0x3F)
  }

  /** Outside the exponent form a size is a whole number of units, and the
    * nibble and the byte it was decoded from can be read back from it. */
  lemma SizeUnits(msb: Byte, lsb: Byte, unit: nat)
    requires msb != 0xF && unit > 0
    ensures RomSize(msb, lsb, unit) % unit == 0
    ensures RomSize(msb, lsb, unit) / unit / 256 == msb as nat
    ensures RomSize(msb, lsb, unit) / unit % 256 == lsb as nat
  {
    var u := msb as nat * 256 + lsb as nat;
    MulDiv(u, unit);
    MulDiv(msb as nat, 256);
    assert u / 256 == msb as nat && u % 256 == lsb as nat by {
      DivPlus(msb as nat, lsb as nat, 256);
    }
  }

  lemma MulDiv(u: nat, k: nat)
    requires k > 0
    ensures (u * k) % k == 0 && (u * k) / k == u
  {
    DivPlus(u, 0, k);
  }

  /** Euclidean division is unique: `q * k + r` with `r < k` divides back. */
  lemma DivPlus(q: nat, r: nat, k: nat)
    requires r < k
    ensures (q * k + r) / k == q && (q * k + r) % k == r
  {
    var a := q * k + r;
    var d := a / k;
    if d > q {
      MulGrows(q + 1, d, k);
    } else if d < q {
      MulGrows(d + 1, q, k);
    }
  }

  lemma {:induction false} MulGrows(x: nat, y: nat, k: nat)
    requires x <= y
    ensures x * k <= y * k
    decreases y - x
  {
    if x < y {
      MulGrows(x, y - 1, k);
      assert y * k == (y - 1) * k + k;
    }
  }

  /** Outside the exponent form a size cannot overflow, so such a header
    * is always defined. */
  lemma PlainSizesDefined(header: seq<Byte>)
    requires |header| >= 16
    requires PrgMsb(header) != 0xF && ChrMsb(header) != 0xF
    ensures HeaderDefined(header)
  {
    NibbleBound(header[9]);
  }

  lemma NibbleBound(b: Byte)
    ensures (b & 0x0F) as nat < 16 && ((b & 0xF0) >> 4) as nat < 16
  {
  }

  /** FourScreen overrides Vertical, and Horizontal is the default. */
  lemma MirroringFlags(flags6: Byte)
    ensures Mirroring(flags6) == FourScreen <==> flags6 & 0x08 != 0
    ensures Mirroring(flags6) == Vertical <==> flags6 & 0x08 == 0 && flags6 & 0x01 != 0
    ensures Mirroring(flags6) == Horizontal <==> flags6 & 0x09 == 0
  {
  }

  /** The mapper number is the three nibbles it is made of, each recoverable. */
  lemma MapperNibbles(flags6: Byte, flags7: Byte, byte8: Byte)
    ensures MapperNumber(flags6, flags7, byte8) < 0x1000
    ensures MapperNumber(flags6, flags7, byte8) & 0x0F == (flags6 >> 4) as Word
    ensures (MapperNumber(flags6, flags7, byte8) >> 4) & 0x0F == (flags7 >> 4) as Word
    ensures MapperNumber(flags6, flags7, byte8) >> 8 == (byte8 & 0x0F) as Word
  {
  }

  /** Every mapper number below 4096 can be written into flags 6, flags 7 and
    * byte 8, whatever their other bits hold, and decodes back unchanged. */
  lemma MapperRoundTrip(m: Word, low6: Byte, low7: Byte, high8: Byte)
    requires m < 0x1000
    ensures MapperNumber(((m & 0x0F) as Byte << 4) | (low6 & 0x0F),
                         ((m & 0xF0) as Byte) | (low7 & 0x0F),
                         ((m >> 8) as Byte) | (high8 & 0xF0)) == m
  {
  }

  /** The console and timing matches are total: their fallback arms are never
    * taken, so NES and NTSC are each reached from exactly one code. */
  lemma ConsoleCodes(flags7: Byte, byte13: Byte, byte12: Byte)
    ensures Console(flags7, byte13) == Nes <==> flags7 & 3 == 0
    ensures Console(flags7, byte13).VsSystem? <==> flags7 & 3 == 1
    ensures Console(flags7, byte13) == PC10 <==> flags7 & 3 == 2
    ensures Console(flags7, byte13).Extended? <==> flags7 & 3 == 3
    ensures Timing(byte12) == NtscNes <==> byte12 & 3 == 0
    ensures Timing(byte12) == Dendy <==> byte12 & 3 == 3
  {
  }

  /** A RAM size is absent exactly for a zero nibble, otherwise a power of two
    * of at least 128 bytes; different nibbles give different sizes. */
  lemma {:induction false} RamSizes(a: nat, b: nat)
    ensures RamSize(a) == 0 <==> a == 0
    ensures a > 0 ==> RamSize(a) >= 128
    ensures RamSize(a) == RamSize(b) ==> a == b
  {
    if a > 0 && b > 0 && a != b {
      if a < b { Pow2Grows(a, b); } else { Pow2Grows(b, a); }
    }
  }

  lemma {:induction false} Pow2Grows(a: nat, b: nat)
    requires a < b
    ensures Pow2(a) < Pow2(b)
    decreases b
  {
    if a < b - 1 {
      Pow2Grows(a, b - 1);
    }
  }

  /** The decoded header read back against the bytes it came from: plain
    * sizes are whole units whose count is the nibble of byte 9 above byte
    * 4 or 5, FourScreen wins over Vertical, the mapper number carries the
    * three nibbles of bytes 6, 7 and 8, and PRG-RAM is absent exactly for
    * a zero shift count. */
  lemma DecodedFields(header: seq<Byte>)
    requires HeaderDefined(header)
    ensures var h := DecodeHeader(header);
      (PrgMsb(header) != 0xF ==>
        h.prgRomSize % PrgUnit == 0 &&
        h.prgRomSize / PrgUnit / 256 == (header[9] & 0x0F) as nat &&
        h.prgRomSize / PrgUnit % 256 == header[4] as nat) &&
      (ChrMsb(header) != 0xF ==>
        h.chrRomSize % ChrUnit == 0 &&
        h.chrRomSize / ChrUnit / 256 == ((header[9] & 0xF0) >> 4) as nat &&
        h.chrRomSize / ChrUnit % 256 == header[5] as nat) &&
      (h.mirroringType == FourScreen <==> header[6] & 0x08 != 0) &&
      (h.mirroringType == Vertical <==> header[6] & 0x08 == 0 && header[6] & 0x01 != 0) &&
      h.mapperNum & 0x0F == (header[6] >> 4) as Word &&
      (h.mapperNum >> 4) & 0x0F == (header[7] >> 4) as Word &&
      h.mapperNum >> 8 == (header[8] & 0x0F) as Word &&
      (h.prgRamSize == 0 <==> header[10] & 0xF0 == 0)
  {
    if PrgMsb(header) != 0xF {
      SizeUnits(PrgMsb(header), header[4], PrgUnit);
    }
    if ChrMsb(header) != 0xF {
      SizeUnits(ChrMsb(header), header[5], ChrUnit);
    }
    MirroringFlags(header[6]);
    MapperNibbles(header[6], header[7], header[8]);
    RamSizes(((header[10] & 0xF0) >> 4) as nat, 0);
    assert ((header[10] & 0xF0) >> 4) as nat == 0 <==> header[10] & 0xF0 == 0;
  }

  /** A cartridge: the header, PRG-ROM, CHR-ROM when the header has any, and
    * the two recorded sizes. */
  datatype Cartridge = Cartridge(
    header: NesHeader,
    prgRom: seq<Byte>,
    prgSize: nat,
    chrRom: Option<seq<Byte>>,
    chrSize: nat)

  const HeaderLength: nat := 16

  /** The image holds the PRG bytes and (when there are any) the CHR bytes
    * the header announces; otherwise the source's slices panic. */
  predicate SlicesFit(rom: seq<Byte>, h: NesHeader)
  {
    HeaderLength + h.prgRomSize <= |rom| &&
    (h.chrRomSize != 0 ==> HeaderLength + h.prgRomSize + h.chrRomSize <= |rom|)
  }

  /** The image has a defined header and every slice it announces. */
  predicate CartridgeDefined(rom: seq<Byte>)
  {
    |rom| >= HeaderLength && HeaderDefined(rom[..HeaderLength]) &&
    SlicesFit(rom, DecodeHeader(rom[..HeaderLength]))
  }

  /** `prg_rom_vec`: the PRG bytes right after the header. */
  function PrgRomVec(rom: seq<Byte>, h: NesHeader): (r: seq<Byte>)
    requires HeaderLength + h.prgRomSize <= |rom|
    ensures |r| == h.prgRomSize
    ensures forall i :: 0 <= i < |r| ==> r[i] == rom[HeaderLength + i]
  {
    rom[HeaderLength..HeaderLength + h.prgRomSize]
  }

  /** `chr_rom_vec`: the CHR bytes right after the PRG bytes. */
  function ChrRomVec(rom: seq<Byte>, h: NesHeader): (r: seq<Byte>)
    requires HeaderLength + h.prgRomSize + h.chrRomSize <= |rom|
    ensures |r| == h.chrRomSize
    ensures forall i :: 0 <= i < |r| ==> r[i] == rom[HeaderLength + h.prgRomSize + i]
  {
    rom[HeaderLength + h.prgRomSize..HeaderLength + h.prgRomSize + h.chrRomSize]
  }

  /** The cartridge built around an already decoded header. As written,
    * `chr_size` is given the PRG size, not the CHR size. */
  function Assemble(rom: seq<Byte>, h: NesHeader): (c: Cartridge)
    requires SlicesFit(rom, h)
    ensures c.header == h
    ensures |c.prgRom| == c.prgSize == h.prgRomSize
    ensures c.chrRom.None? <==> h.chrRomSize == 0
    ensures c.chrRom.Some? ==> |c.chrRom.value| == h.chrRomSize
    ensures c.chrSize == h.prgRomSize
  {
    Cartridge(h, PrgRomVec(rom, h), h.prgRomSize,
      if h.chrRomSize == 0 then None else Some(ChrRomVec(rom, h)),
      h.prgRomSize)
  }

  /** `Cartridge::create_from_rom`: the header decoded from the first 16
    * bytes and the slices it announces. */
  function CreateFromRom(rom: seq<Byte>): (c: Cartridge)
    requires CartridgeDefined(rom)
    ensures c.header == DecodeHeader(rom[..HeaderLength])
    ensures |c.prgRom| == c.prgSize == c.header.prgRomSize
    ensures c.chrRom.None? <==> c.header.chrRomSize == 0
    ensures c.chrSize == c.header.prgRomSize
  {
    Assemble(rom, DecodeHeader(rom[..HeaderLength]))
  }

  /** The CHR data the cartridge holds, empty when it has none. */
  function ChrBytes(c: Cartridge): seq<Byte>
  {
    match c.chrRom
    case Some(chr) => chr
    case None => []
  }

  /** The image starts with the header, then the PRG data, then the CHR
    * data, with nothing skipped between them. */
  lemma CartridgeLayout(rom: seq<Byte>)
    requires CartridgeDefined(rom)
    ensures var c := CreateFromRom(rom);
      rom[..HeaderLength] + c.prgRom + ChrBytes(c) ==
        rom[..HeaderLength + c.header.prgRomSize + |ChrBytes(c)|]
  {
    AssembledLayout(rom, DecodeHeader(rom[..HeaderLength]));
  }

  lemma AssembledLayout(rom: seq<Byte>, h: NesHeader)
    requires SlicesFit(rom, h)
    ensures var c := Assemble(rom, h);
      rom[..HeaderLength] + c.prgRom + ChrBytes(c) ==
        rom[..HeaderLength + h.prgRomSize + |ChrBytes(c)|]
  {
    var c := Assemble(rom, h);
    var n := HeaderLength + h.prgRomSize;
    PrefixSplit(rom, HeaderLength, n);
    if c.chrRom.Some? {
      PrefixSplit(rom, n, n + h.chrRomSize);
    } else {
      assert ChrBytes(c) == [];
    }
  }

  /** A prefix is a shorter prefix followed by the slice between them. */
  lemma PrefixSplit(s: seq<Byte>, i: nat, j: nat)
    requires i <= j <= |s|
    ensures s[..i] + s[i..j] == s[..j]
  {
  }
}
