/** Mappers 2 and 71 (UxROM): a switchable 16 KiB PRG window at 0x8000, the
  * last PRG bank fixed at 0xC000, and 8 KiB of CHR. */
module Uxrom {
  import opened Common
  import opened Bankable
  import opened MapperTypes
  import Cartridge

  const PrgRomWindow: nat := 16 * 1024
  const ChrWindow: nat := 8 * 1024
  const ChrSize: nat := 8 * 1024

  /** The PRG bank windows after a write: from 0x8000 on, the 0x8000 window
    * selects bank `value & 0x0F`; other writes leave the windows alone. */
  function SelectBank(banks: map<nat, nat>, addr: nat, value: Byte): (r: map<nat, nat>)
    ensures 0x8000 <= addr <= 0xFFFF ==> 0x8000 in r && r[0x8000] == (value & 0x0F) as nat
    ensures forall b :: b in banks ==> b in r
    ensures forall b :: b in r && b != 0x8000 ==> b in banks && r[b] == banks[b]
    ensures !(0x8000 <= addr <= 0xFFFF) ==> r == banks
  {
    if 0x8000 <= addr <= 0xFFFF then banks[0x8000 := (value & 0x0F) as nat] else banks
  }

  /** The PRG windows after a sequence of writes. */
  function AfterWrites(banks: map<nat, nat>, writes: seq<(nat, Byte)>): map<nat, nat>
  {
    if writes == [] then banks
    else SelectBank(AfterWrites(banks, writes[..|writes| - 1]), writes[|writes| - 1].0, writes[|writes| - 1].1)
  }

  /** No sequence of writes moves the fixed window at 0xC000. */
  lemma {:induction false} FixedWindowStays(banks: map<nat, nat>, writes: seq<(nat, Byte)>)
    requires 0xC000 in banks
    ensures 0xC000 in AfterWrites(banks, writes)
    ensures AfterWrites(banks, writes)[0xC000] == banks[0xC000]
  {
    if writes != [] {
      FixedWindowStays(banks, writes[..|writes| - 1]);
    }
  }

  /** Hence every read of 0xC000..0xFFFF sees the same byte before and after
    * any sequence of writes. */
  lemma FixedWindowReads(data: seq<Byte>, banks: map<nat, nat>, writes: seq<(nat, Byte)>, addr: nat)
    requires 0xC000 in banks && 0xC000 <= addr <= 0xFFFF
    ensures Fetch(data, PrgRomWindow, AfterWrites(banks, writes), addr) == Fetch(data, PrgRomWindow, banks, addr)
  {
    FixedWindowStays(banks, writes);
    assert WindowBase(PrgRomWindow, addr) == 0xC000;
  }

  class Uxrom {
    const prgRom: BankableMemory
    const chr: BankableMemory
    const mirroring: MirroringType

    predicate Valid()
    {
      prgRom != chr && prgRom.window == PrgRomWindow && chr.window == ChrWindow
    }

    /** `Uxrom::load`: PRG-ROM read-only in 16 KiB banks with 0x8000 showing
      * bank 0 and 0xC000 the last bank; CHR writable in one 8 KiB window;
      * the header's mirroring. */
    constructor Load(cart: Cartridge.Cartridge)
      ensures Valid() && fresh(prgRom) && fresh(chr)
      ensures prgRom.data == cart.prgRom && !prgRom.writable
      ensures chr.data == (if cart.chrRom.Some? then cart.chrRom.value else NesMemory.Zeros(ChrSize))
      ensures chr.writable && mirroring == cart.header.mirroringType
      ensures prgRom.banks == map[0x8000 := 0, 0xC000 := LastBankOf(|cart.prgRom|, PrgRomWindow)]
      ensures chr.banks == map[0 := 0]
    {
      prgRom := new BankableMemory.RomFromBytes(cart.prgRom, PrgRomWindow);
      if cart.chrRom.Some? {
        chr := new BankableMemory.RamFromBytes(cart.chrRom.value, ChrWindow);
      } else {
        chr := new BankableMemory.Ram(ChrSize, ChrWindow);
      }
      mirroring := cart.header.mirroringType;
      new;
      MapWindows(prgRom, chr);
    }

    /** The header's mirroring (the source also prints it). */
    function Mirroring(): (m: MirroringType)
    {
      mirroring
    }

    /** The byte `read` returns. */
    function ReadValue(addr: nat): Byte
      reads prgRom, chr
      requires Valid()
    {
      if addr <= 0x1FFF then chr.Peek(addr)
      else if 0x8000 <= addr <= 0xFFFF then prgRom.Peek(addr)
      else 0
    }

    /** CHR below 0x2000, PRG-ROM from 0x8000, 0 everywhere else. */
    method Read(addr: nat) returns (v: Byte)
      requires Valid()
      ensures v == ReadValue(addr)
      ensures addr <= 0x1FFF ==> v == chr.Peek(addr)
      ensures 0x8000 <= addr <= 0xFFFF ==> v == prgRom.Peek(addr)
      ensures 0x2000 <= addr < 0x8000 || addr > 0xFFFF ==> v == 0
    {
      if addr <= 0x1FFF {
        v := chr.Read(addr);
      } else if 0x8000 <= addr <= 0xBFFF {
        v := prgRom.Read(addr);
      } else if 0xC000 <= addr <= 0xFFFF {
        v := prgRom.Read(addr);
      } else {
        v := 0;
      }
    }

    /** A write below 0x2000 stores into CHR; one from 0x8000 selects the PRG
      * bank of the 0x8000 window; others are dropped. */
    method Write(addr: nat, value: Byte)
      requires Valid()
      modifies chr`data, prgRom`banks
      ensures chr.data == if addr <= 0x1FFF then Store(old(chr.data), chr.writable, ChrWindow, chr.banks, addr, value) else old(chr.data)
      ensures prgRom.banks == SelectBank(old(prgRom.banks), addr, value)
    {
      if addr <= 0x1FFF {
        chr.Write(addr, value);
      } else if 0x8000 <= addr <= 0xFFFF {
        var v := value & 0x0F;
        prgRom.SetBank(0x8000, v as nat);
      }
    }
  }

  /** The bank setup of `load`: both PRG windows, the last bank at 0xC000,
    * and the one CHR window. */
  method MapWindows(prgRom: BankableMemory, chr: BankableMemory)
    requires prgRom != chr && prgRom.window == PrgRomWindow && chr.window == ChrWindow
    requires prgRom.banks == map[] && chr.banks == map[]
    modifies prgRom`banks, chr`banks
    ensures prgRom.banks == map[0x8000 := 0, 0xC000 := LastBankOf(|prgRom.data|, PrgRomWindow)]
    ensures chr.banks == map[0 := 0]
  {
    prgRom.AddBankRange(0x8000, 0xFFFF);
    TwoWindows(0x8000, 0xFFFF, PrgRomWindow);
    var last := prgRom.LastBank();
    prgRom.SetBank(0xC000, last);
    chr.AddBankRange(0x0000, 0x1FFF);
    OneWindow(0, 0x1FFF, ChrWindow);
  }

  lemma TwoWindows(start: nat, end: nat, window: nat)
    requires start == 0x8000 && end == 0xFFFF && window == 0x4000
    ensures BankRange(start, end, window) == map[0x8000 := 0, 0xC000 := 1]
  {
    var r := BankRange(start, end, window);
    forall b | b in r ensures b == 0x8000 || b == 0xC000 {
      assert Aligned(start, window, b);
    }
    assert Aligned(start, window, 0x8000) && Aligned(start, window, 0xC000);
  }

  lemma OneWindow(start: nat, end: nat, window: nat)
    requires start == 0 && end == 0x1FFF && window == 0x2000
    ensures BankRange(start, end, window) == map[0 := 0]
  {
    var r := BankRange(start, end, window);
    forall b | b in r ensures b == 0 {
      assert Aligned(start, window, b);
    }
    assert Aligned(start, window, 0);
  }
}
