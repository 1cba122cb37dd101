/** Mapper 0 (NROM): fixed PRG-ROM and CHR-ROM, no bank switching. */
module Nrom {
  import opened Common
  import opened NesMemory
  import Cartridge

  const PrgRamSize: nat := 8 * 1024

  class Nrom {
    const prgRam: Memory
    const prgRom: Memory
    const chrRom: Memory

    /** The three memories are distinct, PRG-RAM is 8 KiB of zeros (no write
      * reaches it), PRG-ROM is read-only, and CHR is read-only unless it is
      * the empty stand-in for a cartridge without CHR. */
    predicate Valid()
      reads this, prgRam, prgRom, chrRom
    {
      prgRam != prgRom && prgRam != chrRom && prgRom != chrRom &&
      prgRam.data == Zeros(PrgRamSize) &&
      !prgRom.writable &&
      (chrRom.writable ==> chrRom.data == [])
    }

    /** `Nrom::load`: copies the cartridge's PRG and CHR bytes into read-only
      * memories and adds 8 KiB of PRG-RAM. */
    constructor Load(cart: Cartridge.Cartridge)
      ensures Valid()
      ensures prgRom.data == cart.prgRom
      ensures chrRom.data == Cartridge.ChrBytes(cart)
      ensures |prgRam.data| == PrgRamSize
      ensures fresh(prgRam) && fresh(prgRom) && fresh(chrRom)
    {
      prgRam := new Memory.Ram(PrgRamSize);
      prgRom := new Memory.RomFromBytes(cart.prgRom);
      if cart.chrRom.Some? {
        chrRom := new Memory.RomFromBytes(cart.chrRom.value);
      } else {
        chrRom := new Memory();
      }
    }

    /** The memory `addr` is routed to can be indexed: each memory wraps the
      * address around its length, so an empty one cannot be read. */
    predicate Reachable(addr: nat)
      reads this, prgRom, chrRom
    {
      (addr <= 0x1FFF ==> |chrRom.data| > 0) &&
      (0x8000 <= addr <= 0xFFFF ==> |prgRom.data| > 0)
    }

    /** The byte `read` returns. */
    function ReadValue(addr: nat): Byte
      reads this, prgRam, prgRom, chrRom
      requires Valid() && Reachable(addr)
    {
      if addr <= 0x1FFF then chrRom.data[addr % |chrRom.data|]
      else if 0x6000 <= addr <= 0x7FFF then prgRam.data[addr % |prgRam.data|]
      else if 0x8000 <= addr <= 0xFFFF then prgRom.data[addr % |prgRom.data|]
      else 0
    }

    /** CPU/PPU read decode: CHR below 0x2000, PRG-RAM (always zero) at
      * 0x6000..0x7FFF, PRG-ROM from 0x8000, 0 elsewhere. */
    method Read(addr: nat) returns (v: Byte)
      requires Valid() && Reachable(addr)
      ensures v == ReadValue(addr)
      ensures addr <= 0x1FFF ==> v == chrRom.data[addr % |chrRom.data|]
      ensures 0x6000 <= addr <= 0x7FFF ==> v == 0
      ensures 0x8000 <= addr <= 0xFFFF ==> v == prgRom.data[addr % |prgRom.data|]
      ensures 0x2000 <= addr < 0x6000 || addr > 0xFFFF ==> v == 0
    {
      if addr <= 0x1FFF {
        v := chrRom.Read(addr);
      } else if 0x6000 <= addr <= 0x7FFF {
        v := prgRam.Read(addr);
      } else if 0x8000 <= addr <= 0xFFFF {
        v := prgRom.Read(addr);
      } else {
        v := 0;
      }
    }

    /** Writes are routed to CHR and PRG-ROM only, both read-only, so no
      * write changes any content; PRG-RAM is never written. */
    method Write(addr: nat, value: Byte)
      requires Valid() && Reachable(addr)
      modifies prgRom`data, chrRom`data
      ensures Valid()
      ensures prgRom.data == old(prgRom.data) && chrRom.data == old(chrRom.data)
    {
      if addr <= 0x1FFF {
        chrRom.Write(addr, value);
      } else if 0x8000 <= addr <= 0xFFFF {
        prgRom.Write(addr, value);
      }
    }
  }
}
