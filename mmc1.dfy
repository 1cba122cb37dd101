/** Mapper 1 (MMC1): a five-write serial port at 0x8000..0xFFFF that loads the
  * control, CHR-bank and PRG-bank registers, which in turn select the
  * mirroring and the bank shown in each PRG and CHR window. */
module Mmc1 {
  import opened Common
  import opened Bankable
  import opened MapperTypes
  import Cartridge

  const PrgRamWindow: nat := 8 * 1024
  const PrgRamSize: nat := 8 * 1024
  const PrgRomWindow: nat := 16 * 1024
  const ChrWindow: nat := 4 * 1024
  const ChrSize: nat := 8 * 1024

  /** The value `shift_reg` returns to after a commit or a reset: the marker
    * bit in position 4 and no data. */
  const ShiftReset: Byte := 0x10

  /** Every register of the mapper together with the bank windows they
    * select, as one value. */
  datatype Regs = Regs(
    shiftReg: Byte,
    control: Byte,
    chrBank0: Byte,
    chrBank1: Byte,
    prgBank: Byte,
    mirroring: MirroringType,
    prgBanks: map<nat, nat>,
    chrBanks: map<nat, nat>)

  /** The mirroring selected by the two low bits of the control register. */
  function ControlMirroring(control: Byte, current: MirroringType): MirroringType
  {
    match control & 3
    case 0 => SingleScreenA
    case 1 => SingleScreenB
    case 2 => Vertical
    case 3 => Horizontal
    case _ => current
  }

  /** The PRG windows selected by control bits 2-3. In modes 0 and 4 the
    * source sets the 0x8000 window twice, to the even bank and then to the
    * odd one, and never touches 0xC000. */
  function ControlPrgBanks(control: Byte, prgBank: Byte, banks: map<nat, nat>, last: nat): map<nat, nat>
  {
    match control & 0xC
    case 0 => banks[0x8000 := (prgBank & 0x1E) as nat][0x8000 := ((prgBank & 0x1E) | 1) as nat]
    case 4 => banks[0x8000 := (prgBank & 0x1E) as nat][0x8000 := ((prgBank & 0x1E) | 1) as nat]
    case 8 => banks[0x8000 := 0][0xC000 := (prgBank & 0x1F) as nat]
    case 0xC => banks[0x8000 := (prgBank & 0x1F) as nat][0xC000 := last]
    case _ => banks
  }

  /** The CHR windows selected by control bit 4: one 8 KiB bank (an even and
    * odd 4 KiB pair from bank 0) or two independent 4 KiB banks. */
  function ControlChrBanks(control: Byte, chrBank0: Byte, chrBank1: Byte, banks: map<nat, nat>): map<nat, nat>
  {
    match control & 0x10
    case 0 => banks[0x0000 := (chrBank0 & 0x1E) as nat][0x1000 := ((chrBank0 & 0x1E) | 1) as nat]
    case 0x10 => banks[0x0000 := (chrBank0 & 0x1F) as nat][0x1000 := (chrBank1 & 0x1F) as nat]
    case _ => banks
  }

  /** `control_write(v)`: stores the low five bits and re-derives the
    * mirroring and every window from them. `last` is the last PRG bank. */
  function AfterControlWrite(s: Regs, v: Byte, last: nat): Regs
  {
    var control := v & 0x1F;
    s.(control := control,
       mirroring := ControlMirroring(control, s.mirroring),
       prgBanks := ControlPrgBanks(control, s.prgBank, s.prgBanks, last),
       chrBanks := ControlChrBanks(control, s.chrBank0, s.chrBank1, s.chrBanks))
  }

  /** `chr_bank_write(v, bank1)`. For bank 0 the source masks with 0x1E and
    * also sets the upper window when control bit 4 is SET, the opposite of
    * the sense `control_write` gives that bit. */
  function AfterChrBankWrite(s: Regs, v: Byte, bank1: bool): Regs
  {
    if !bank1 then
      var b0 := v & 0x1F;
      var bank := b0 & (if s.control & 0x10 == 0x10 then 0x1E else 0x1F);
      var banks := s.chrBanks[0x0000 := bank as nat];
      s.(chrBank0 := b0,
         chrBanks := if s.control & 0x10 == 0x10 then banks[0x1000 := (bank | 1) as nat] else banks)
    else
      var b1 := v & 0x1F;
      s.(chrBank1 := b1,
         chrBanks := if s.control & 0x10 == 0 then s.chrBanks[0x1000 := b1 as nat] else s.chrBanks)
  }

  /** The PRG windows `prg_bank_write` moves for the stored bank `prg`,
    * as the PRG mode lets it. */
  function PrgBankWindows(control: Byte, prg: Byte, banks: map<nat, nat>): map<nat, nat>
  {
    match control & 0xC
    case 0 => banks[0x8000 := (prg & 0x1E) as nat][0xC000 := ((prg & 0x1E) | 1) as nat]
    case 4 => banks[0x8000 := (prg & 0x1E) as nat][0xC000 := ((prg & 0x1E) | 1) as nat]
    case 8 => banks[0xC000 := prg as nat]
    case 0xC => banks[0x8000 := prg as nat]
    case _ => banks
  }

  /** `prg_bank_write(v)`: stores the low five bits and moves the windows
    * the PRG mode lets it move. */
  function AfterPrgBankWrite(s: Regs, v: Byte): Regs
  {
    var prg := v & 0x1F;
    s.(prgBank := prg, prgBanks := PrgBankWindows(s.control, prg, s.prgBanks))
  }

  /** The register a committed five-bit value goes to, chosen by address
    * bits 13-14. */
  function AfterDispatch(s: Regs, addr: nat, v: Byte, last: nat): Regs
    requires 0x8000 <= addr <= 0xFFFF
  {
    match Region(addr)
    case 0x8000 => AfterControlWrite(s, v, last)
    case 0xA000 => AfterChrBankWrite(s, v, false)
    case 0xC000 => AfterChrBankWrite(s, v, true)
    case 0xE000 => AfterPrgBankWrite(s, v)
    case _ => s
  }

  /** `addr & 0xE000` for an address of the serial port: the address with
    * its low 13 bits cleared. */
  function Region(addr: nat): (r: nat)
    requires 0x8000 <= addr <= 0xFFFF
    ensures r == 0x8000 || r == 0xA000 || r == 0xC000 || r == 0xE000
    ensures r <= addr < r + 0x2000
  {
    addr - addr % 0x2000
  }

  /** One shift of the serial register: `value & 1` enters at bit 4. */
  function ShiftIn(shiftReg: Byte, value: Byte): Byte
  {
    (shiftReg >> 1) | ((value & 1) << 4)
  }

  /** A write to the serial port 0x8000..0xFFFF. Bit 7 resets the shift
    * register and forces PRG mode 0xC; otherwise the bit is shifted in, and
    * when the marker reaches bit 0 the five collected bits are committed to
    * the register `addr` selects and the shift register restarts. */
  function AfterSerialWrite(s: Regs, addr: nat, value: Byte, last: nat): Regs
    requires 0x8000 <= addr <= 0xFFFF
  {
    if value & 0x80 != 0 then
      AfterControlWrite(s.(shiftReg := ShiftReset), s.control | 0xC, last)
    else if s.shiftReg & 1 == 1 then
      AfterDispatch(s, addr, ShiftIn(s.shiftReg, value), last).(shiftReg := ShiftReset)
    else
      s.(shiftReg := ShiftIn(s.shiftReg, value))
  }

  /** The value five writes with bit 7 clear deliver: bit 0 of each, the
    * first write's bit landing in bit 0. */
  function SerialValue(v0: Byte, v1: Byte, v2: Byte, v3: Byte, v4: Byte): Byte
  {
    (v0 & 1) | ((v1 & 1) << 1) | ((v2 & 1) << 2) | ((v3 & 1) << 3) | ((v4 & 1) << 4)
  }

  /** Starting from the reset shift register, four writes only shift, and the
    * fifth commits the five collected bits to the register its own address
    * selects and resets the shift register; the earlier addresses do not
    * matter. */
  lemma FiveWriteCommit(s: Regs, a0: nat, a1: nat, a2: nat, a3: nat, a4: nat,
                        v0: Byte, v1: Byte, v2: Byte, v3: Byte, v4: Byte, last: nat)
    requires s.shiftReg == ShiftReset
    requires 0x8000 <= a0 <= 0xFFFF && 0x8000 <= a1 <= 0xFFFF && 0x8000 <= a2 <= 0xFFFF
    requires 0x8000 <= a3 <= 0xFFFF && 0x8000 <= a4 <= 0xFFFF
    requires v0 & 0x80 == 0 && v1 & 0x80 == 0 && v2 & 0x80 == 0 && v3 & 0x80 == 0 && v4 & 0x80 == 0
    ensures var s1 := AfterSerialWrite(s, a0, v0, last);
      var s2 := AfterSerialWrite(s1, a1, v1, last);
      var s3 := AfterSerialWrite(s2, a2, v2, last);
      var s4 := AfterSerialWrite(s3, a3, v3, last);
      s4 == s.(shiftReg := s4.shiftReg) &&
      AfterSerialWrite(s4, a4, v4, last) ==
        AfterDispatch(s, a4, SerialValue(v0, v1, v2, v3, v4), last).(shiftReg := ShiftReset)
  {
    ShiftSteps(v0, v1, v2, v3, v4);
    var s1 := AfterSerialWrite(s, a0, v0, last);
    ShiftOnly(s, a0, v0, last);
    var s2 := AfterSerialWrite(s1, a1, v1, last);
    ShiftOnly(s1, a1, v1, last);
    var s3 := AfterSerialWrite(s2, a2, v2, last);
    ShiftOnly(s2, a2, v2, last);
    var s4 := AfterSerialWrite(s3, a3, v3, last);
    ShiftOnly(s3, a3, v3, last);
    assert s4 == s.(shiftReg := s4.shiftReg);
    Commits(s4, a4, v4, last);
    DispatchIgnoresShift(s, s4.shiftReg, a4, SerialValue(v0, v1, v2, v3, v4), last);
  }

  /** While the marker has not reached bit 0, a write only shifts. */
  lemma ShiftOnly(s: Regs, addr: nat, value: Byte, last: nat)
    requires 0x8000 <= addr <= 0xFFFF && value & 0x80 == 0 && s.shiftReg & 1 == 0
    ensures AfterSerialWrite(s, addr, value, last) == s.(shiftReg := ShiftIn(s.shiftReg, value))
  {
  }

  /** Once it has, the write commits. */
  lemma Commits(s: Regs, addr: nat, value: Byte, last: nat)
    requires 0x8000 <= addr <= 0xFFFF && value & 0x80 == 0 && s.shiftReg & 1 == 1
    ensures AfterSerialWrite(s, addr, value, last) ==
      AfterDispatch(s, addr, ShiftIn(s.shiftReg, value), last).(shiftReg := ShiftReset)
  {
  }

  /** No register write reads or changes the shift register. */
  lemma DispatchIgnoresShift(s: Regs, x: Byte, addr: nat, v: Byte, last: nat)
    requires 0x8000 <= addr <= 0xFFFF
    ensures AfterDispatch(s.(shiftReg := x), addr, v, last).(shiftReg := ShiftReset) ==
      AfterDispatch(s, addr, v, last).(shiftReg := ShiftReset)
  {
    match Region(addr)
    case 0x8000 => ControlIgnoresShift(s, x, v, last);
    case 0xA000 => ChrIgnoresShift(s, x, v, false);
    case 0xC000 => ChrIgnoresShift(s, x, v, true);
    case 0xE000 => PrgIgnoresShift(s, x, v);
  }

  lemma ControlIgnoresShift(s: Regs, x: Byte, v: Byte, last: nat)
    ensures AfterControlWrite(s.(shiftReg := x), v, last) == AfterControlWrite(s, v, last).(shiftReg := x)
  {
  }

  lemma ChrIgnoresShift(s: Regs, x: Byte, v: Byte, bank1: bool)
    ensures AfterChrBankWrite(s.(shiftReg := x), v, bank1) == AfterChrBankWrite(s, v, bank1).(shiftReg := x)
  {
  }

  lemma PrgIgnoresShift(s: Regs, x: Byte, v: Byte)
    ensures AfterPrgBankWrite(s.(shiftReg := x), v) == AfterPrgBankWrite(s, v).(shiftReg := x)
  {
  }

  /** The shift register's bit 0 stays clear for four shifts from the reset
    * value and is set after the fourth, by which time it holds the four
    * bits below the marker. */
  lemma ShiftSteps(v0: Byte, v1: Byte, v2: Byte, v3: Byte, v4: Byte)
    ensures ShiftReset & 1 == 0
    ensures ShiftIn(ShiftReset, v0) & 1 == 0
    ensures ShiftIn(ShiftIn(ShiftReset, v0), v1) & 1 == 0
    ensures ShiftIn(ShiftIn(ShiftIn(ShiftReset, v0), v1), v2) & 1 == 0
    ensures ShiftIn(ShiftIn(ShiftIn(ShiftIn(ShiftReset, v0), v1), v2), v3) & 1 == 1
    ensures ShiftIn(ShiftIn(ShiftIn(ShiftIn(ShiftIn(ShiftReset, v0), v1), v2), v3), v4) ==
      SerialValue(v0, v1, v2, v3, v4)
  {
  }

  /** A write with bit 7 set resets the shift register, keeps the other
    * registers but control, sets PRG mode 0xC and so fixes the last bank at
    * 0xC000. */
  lemma ResetWrite(s: Regs, addr: nat, value: Byte, last: nat)
    requires 0x8000 <= addr <= 0xFFFF && value & 0x80 != 0
    ensures var r := AfterSerialWrite(s, addr, value, last);
      r.shiftReg == ShiftReset && r.control == (s.control | 0xC) & 0x1F &&
      r.control & 0xC == 0xC && r.prgBank == s.prgBank &&
      r.chrBank0 == s.chrBank0 && r.chrBank1 == s.chrBank1 &&
      r.prgBanks == s.prgBanks[0x8000 := (s.prgBank & 0x1F) as nat][0xC000 := last]
  {
    assert ((s.control | 0xC) & 0x1F) & 0xC == 0xC;
  }

  /** A committed value reaches exactly the register its address selects:
    * control for 0x8000..0x9FFF, CHR bank 0 for 0xA000..0xBFFF, CHR bank 1
    * for 0xC000..0xDFFF and the PRG bank for 0xE000..0xFFFF. */
  lemma DispatchTargets(s: Regs, addr: nat, v: Byte, last: nat)
    requires 0x8000 <= addr <= 0xFFFF
    ensures var r := AfterDispatch(s, addr, v, last);
      (addr <= 0x9FFF ==> r == AfterControlWrite(s, v, last)) &&
      (0xA000 <= addr <= 0xBFFF ==> r == AfterChrBankWrite(s, v, false)) &&
      (0xC000 <= addr <= 0xDFFF ==> r == AfterChrBankWrite(s, v, true)) &&
      (0xE000 <= addr ==> r == AfterPrgBankWrite(s, v))
  {
  }
  /** `control_write` keeps the low five bits and the two lowest choose the
    * mirroring: 0 single screen A, 1 single screen B, 2 vertical, 3
    * horizontal. */
  lemma ControlSelectsMirroring(s: Regs, v: Byte, last: nat)
    ensures var r := AfterControlWrite(s, v, last);
      r.control == v & 0x1F &&
      (r.mirroring == SingleScreenA <==> v & 3 == 0) &&
      (r.mirroring == SingleScreenB <==> v & 3 == 1) &&
      (r.mirroring == Vertical <==> v & 3 == 2) &&
      (r.mirroring == Horizontal <==> v & 3 == 3)
  {
    assert (v & 0x1F) & 3 == v & 3;
  }

  /** `prg_bank_write` keeps the low five bits. In modes 0 and 4 both windows
    * move to an even/odd pair; in mode 8 only 0xC000 moves; in mode 0xC only
    * 0x8000 moves. No other window changes. */
  lemma PrgModes(s: Regs, v: Byte)
    ensures var r := AfterPrgBankWrite(s, v);
      var prg := v & 0x1F;
      r.prgBank == prg &&
      (s.control & 0x8 == 0 ==>
        r.prgBanks == s.prgBanks[0x8000 := (prg & 0x1E) as nat][0xC000 := ((prg & 0x1E) | 1) as nat]) &&
      (s.control & 0xC == 0x8 ==> r.prgBanks == s.prgBanks[0xC000 := prg as nat]) &&
      (s.control & 0xC == 0xC ==> r.prgBanks == s.prgBanks[0x8000 := prg as nat]) &&
      r.chrBanks == s.chrBanks && r.control == s.control
  {
  }

  /** The state `load` ends in: after the initial `control_write(0b11110)`
    * the control register is 0x1E, the mirroring vertical, 0x8000 shows bank
    * 0 and 0xC000 the last bank, and both CHR windows show bank 0. */
  lemma LoadState(m: MirroringType, last: nat)
    ensures var init := Regs(ShiftReset, 0, 0, 0, 0, m,
                             BankRange(0x8000, 0xFFFF, PrgRomWindow)[0xC000 := last],
                             BankRange(0x0000, 0x1FFF, ChrWindow));
      AfterControlWrite(init, 0x1E, last) ==
        Regs(ShiftReset, 0x1E, 0, 0, 0, Vertical,
             map[0x8000 := 0, 0xC000 := last], map[0x0000 := 0, 0x1000 := 0])
  {
    PrgWindows();
    ChrWindows();
  }

  lemma PrgWindows()
    ensures BankRange(0x8000, 0xFFFF, PrgRomWindow) == map[0x8000 := 0, 0xC000 := 1]
  {
    var r := BankRange(0x8000, 0xFFFF, PrgRomWindow);
    forall b | b in r ensures b == 0x8000 || b == 0xC000 {
      assert Aligned(0x8000, PrgRomWindow, b);
    }
    assert Aligned(0x8000, PrgRomWindow, 0x8000) && Aligned(0x8000, PrgRomWindow, 0xC000);
  }

  lemma ChrWindows()
    ensures BankRange(0x0000, 0x1FFF, ChrWindow) == map[0x0000 := 0, 0x1000 := 1]
  {
    var r := BankRange(0x0000, 0x1FFF, ChrWindow);
    forall b | b in r ensures b == 0 || b == 0x1000 {
      assert Aligned(0, ChrWindow, b);
    }
    assert Aligned(0, ChrWindow, 0) && Aligned(0, ChrWindow, 0x1000);
  }

  lemma RamWindows()
    ensures BankRange(0x6000, 0x7FFF, PrgRamWindow) == map[0x6000 := 0]
  {
    var r := BankRange(0x6000, 0x7FFF, PrgRamWindow);
    forall b | b in r ensures b == 0x6000 {
      assert Aligned(0x6000, PrgRamWindow, b);
    }
    assert Aligned(0x6000, PrgRamWindow, 0x6000);
  }
  class MMC1 {
    const prgRam: BankableMemory
    const prgRom: BankableMemory
    const chr: BankableMemory
    var mirroring: MirroringType
    var shiftReg: Byte
    var control: Byte
    var chrBank0: Byte
    var chrBank1: Byte
    var prgBank: Byte

    /** Three distinct memories with the mapper's window sizes; PRG-RAM and
      * CHR are writable. */
    predicate Valid()
    {
      prgRam != prgRom && prgRam != chr && prgRom != chr &&
      prgRam.window == PrgRamWindow && prgRom.window == PrgRomWindow && chr.window == ChrWindow &&
      prgRam.writable && chr.writable
    }

    /** The registers and the PRG and CHR windows. */
    function State(): Regs
      reads this, prgRom, chr
    {
      Regs(shiftReg, control, chrBank0, chrBank1, prgBank, mirroring, prgRom.banks, chr.banks)
    }

    /** The last PRG bank, which PRG mode 0xC fixes at 0xC000. */
    function Last(): nat
      reads prgRom
      requires Valid()
    {
      prgRom.LastBank()
    }

    /** `MMC1::load`: PRG-RAM of the header's size (8 KiB when it gives
      * none), read-only PRG-ROM, writable CHR (8 KiB of zeros when the
      * cartridge has none), the header's mirroring, then the windows and the
      * initial `control_write(0b11110)`. */
    constructor Load(cart: Cartridge.Cartridge)
      ensures Valid() && fresh(prgRam) && fresh(prgRom) && fresh(chr)
      ensures prgRam.data == NesMemory.Zeros(if cart.header.prgRamSize == 0 then PrgRamSize else cart.header.prgRamSize)
      ensures prgRom.data == cart.prgRom && !prgRom.writable
      ensures chr.data == (if cart.chrRom.Some? then cart.chrRom.value else NesMemory.Zeros(ChrSize))
      ensures prgRam.banks == map[0x6000 := 0]
      ensures State() == Regs(ShiftReset, 0x1E, 0, 0, 0, Vertical,
                              map[0x8000 := 0, 0xC000 := LastBankOf(|cart.prgRom|, PrgRomWindow)],
                              map[0x0000 := 0, 0x1000 := 0])
    {
      if cart.header.prgRamSize == 0 {
        prgRam := new BankableMemory.Ram(PrgRamSize, PrgRamWindow);
      } else {
        prgRam := new BankableMemory.Ram(cart.header.prgRamSize, PrgRamWindow);
      }
      prgRom := new BankableMemory.RomFromBytes(cart.prgRom, PrgRomWindow);
      if cart.chrRom.Some? {
        chr := new BankableMemory.RamFromBytes(cart.chrRom.value, ChrWindow);
      } else {
        chr := new BankableMemory.Ram(ChrSize, ChrWindow);
      }
      mirroring := cart.header.mirroringType;
      shiftReg := ShiftReset;
      control := 0;
      chrBank0 := 0;
      chrBank1 := 0;
      prgBank := 0;
      new;
      MapWindows(prgRam, prgRom, chr);
      ControlWrite(0x1E);
      LoadState(cart.header.mirroringType, LastBankOf(|cart.prgRom|, PrgRomWindow));
    }

    /** `mirroring()`: the mirroring the control register last selected. */
    function Mirroring(): MirroringType
      reads this
    {
      mirroring
    }

    /** `control_write`. */
    method ControlWrite(v: Byte)
      requires Valid()
      modifies this`control, this`mirroring, prgRom`banks, chr`banks
      ensures State() == AfterControlWrite(old(State()), v, Last())
    {
      control := v & 0x1F;
      mirroring := SelectMirroring(control, mirroring);
      MapPrgMode(prgRom, control, prgBank);
      MapChrMode(chr, control, chrBank0, chrBank1);
    }

    /** `chr_bank_write`. */
    method ChrBankWrite(v: Byte, bank1: bool)
      requires Valid()
      modifies this`chrBank0, this`chrBank1, chr`banks
      ensures State() == AfterChrBankWrite(old(State()), v, bank1)
    {
      if !bank1 {
        chrBank0 := v & 0x1F;
        var bank := chrBank0 & (if control & 0x10 == 0x10 then 0x1E else 0x1F);
        chr.SetBank(0x0000, bank as nat);
        if control & 0x10 == 0x10 {
          chr.SetBank(0x1000, (bank | 1) as nat);
        }
      } else {
        chrBank1 := v & 0x1F;
        if control & 0x10 == 0 {
          chr.SetBank(0x1000, chrBank1 as nat);
        }
      }
    }

    /** `prg_bank_write`. */
    method PrgBankWrite(v: Byte)
      requires Valid()
      modifies this`prgBank, prgRom`banks
      ensures State() == AfterPrgBankWrite(old(State()), v)
    {
      prgBank := v & 0x1F;
      MapPrgBank(prgRom, control, prgBank);
    }

    /** The serial-port half of `write`, for 0x8000..0xFFFF. */
    method SerialPortWrite(addr: nat, value: Byte)
      requires Valid() && 0x8000 <= addr <= 0xFFFF
      modifies this`shiftReg, this`control, this`mirroring, this`chrBank0, this`chrBank1, this`prgBank
      modifies prgRom`banks, chr`banks
      ensures State() == AfterSerialWrite(old(State()), addr, value, Last())
    {
      if value & 0x80 != 0 {
        shiftReg := ShiftReset;
        ControlWrite(control | 0xC);
      } else if shiftReg & 1 == 1 {
        var v := ShiftIn(shiftReg, value);
        match Region(addr) {
          case 0x8000 => ControlWrite(v);
          case 0xA000 => ChrBankWrite(v, false);
          case 0xC000 => ChrBankWrite(v, true);
          case 0xE000 => PrgBankWrite(v);
        }
        shiftReg := ShiftReset;
      } else {
        shiftReg := ShiftIn(shiftReg, value);
      }
    }

    /** `write`: CHR below 0x2000; PRG-RAM at 0x6000..0x7FFF only while PRG
      * bank bit 4 is clear; the serial port from 0x8000; others dropped. */
    method Write(addr: nat, value: Byte)
      requires Valid()
      modifies this`shiftReg, this`control, this`mirroring, this`chrBank0, this`chrBank1, this`prgBank
      modifies prgRom`banks, chr`banks, chr`data, prgRam`data
      ensures State() == if 0x8000 <= addr <= 0xFFFF then AfterSerialWrite(old(State()), addr, value, Last()) else old(State())
      ensures chr.data == if addr <= 0x1FFF then Store(old(chr.data), true, ChrWindow, chr.banks, addr, value) else old(chr.data)
      ensures prgRam.data ==
        if 0x6000 <= addr <= 0x7FFF && old(prgBank) & 0x10 == 0
        then Store(old(prgRam.data), true, PrgRamWindow, prgRam.banks, addr, value)
        else old(prgRam.data)
    {
      if addr <= 0x1FFF {
        chr.Write(addr, value);
      } else if 0x6000 <= addr <= 0x7FFF {
        if prgBank & 0x10 == 0 {
          prgRam.Write(addr, value);
        }
      } else if 0x8000 <= addr <= 0xFFFF {
        SerialPortWrite(addr, value);
      }
    }

    /** The byte `read` returns. */
    function ReadValue(addr: nat): Byte
      reads this, prgRam, prgRom, chr
      requires Valid()
    {
      if addr <= 0x1FFF then chr.Peek(addr)
      else if 0x6000 <= addr <= 0x7FFF then (if prgBank & 0x10 == 0 then prgRam.Peek(addr) else 0)
      else if 0x8000 <= addr <= 0xFFFF then prgRom.Peek(addr)
      else 0
    }

    /** `read`: CHR below 0x2000; PRG-RAM at 0x6000..0x7FFF, reading 0 while
      * PRG bank bit 4 is set; PRG-ROM from 0x8000; 0 elsewhere. */
    method Read(addr: nat) returns (v: Byte)
      requires Valid()
      ensures v == ReadValue(addr)
      ensures addr <= 0x1FFF ==> v == chr.Peek(addr)
      ensures 0x6000 <= addr <= 0x7FFF ==> v == if prgBank & 0x10 == 0 then prgRam.Peek(addr) else 0
      ensures 0x8000 <= addr <= 0xFFFF ==> v == prgRom.Peek(addr)
      ensures 0x2000 <= addr < 0x6000 || addr > 0xFFFF ==> v == 0
    {
      if addr <= 0x1FFF {
        v := chr.Read(addr);
      } else if 0x6000 <= addr <= 0x7FFF {
        if prgBank & 0x10 == 0 {
          v := prgRam.Read(addr);
        } else {
          v := 0;
        }
      } else if 0x8000 <= addr <= 0xBFFF {
        v := prgRom.Read(addr);
      } else if 0xC000 <= addr <= 0xFFFF {
        v := prgRom.Read(addr);
      } else {
        v := 0;
      }
    }
  }

  /** The mirroring part of `control_write`. */
  method SelectMirroring(control: Byte, current: MirroringType) returns (m: MirroringType)
    ensures m == ControlMirroring(control, current)
  {
    m := current;
    match control & 3 {
      case 0 => m := SingleScreenA;
      case 1 => m := SingleScreenB;
      case 2 => m := Vertical;
      case 3 => m := Horizontal;
      case _ =>
    }
  }

  /** The PRG-window part of `control_write`. */
  method MapPrgMode(prgRom: BankableMemory, control: Byte, prgBank: Byte)
    requires prgRom.window > 0
    modifies prgRom`banks
    ensures prgRom.banks == ControlPrgBanks(control, prgBank, old(prgRom.banks), prgRom.LastBank())
  {
    match control & 0xC {
      case 0 =>
        prgRom.SetBank(0x8000, (prgBank & 0x1E) as nat);
        prgRom.SetBank(0x8000, ((prgBank & 0x1E) | 1) as nat);
      case 4 =>
        prgRom.SetBank(0x8000, (prgBank & 0x1E) as nat);
        prgRom.SetBank(0x8000, ((prgBank & 0x1E) | 1) as nat);
      case 8 =>
        prgRom.SetBank(0x8000, 0);
        prgRom.SetBank(0xC000, (prgBank & 0x1F) as nat);
      case 0xC =>
        prgRom.SetBank(0x8000, (prgBank & 0x1F) as nat);
        var last := prgRom.LastBank();
        prgRom.SetBank(0xC000, last);
      case _ =>
    }
  }

  /** The CHR-window part of `control_write`. */
  method MapChrMode(chr: BankableMemory, control: Byte, chrBank0: Byte, chrBank1: Byte)
    modifies chr`banks
    ensures chr.banks == ControlChrBanks(control, chrBank0, chrBank1, old(chr.banks))
  {
    match control & 0x10 {
      case 0 =>
        chr.SetBank(0x0000, (chrBank0 & 0x1E) as nat);
        chr.SetBank(0x1000, ((chrBank0 & 0x1E) | 1) as nat);
      case 0x10 =>
        chr.SetBank(0x0000, (chrBank0 & 0x1F) as nat);
        chr.SetBank(0x1000, (chrBank1 & 0x1F) as nat);
      case _ =>
    }
  }

  /** The window part of `prg_bank_write`. */
  method MapPrgBank(prgRom: BankableMemory, control: Byte, prg: Byte)
    modifies prgRom`banks
    ensures prgRom.banks == PrgBankWindows(control, prg, old(prgRom.banks))
  {
    match control & 0xC {
      case 0 =>
        prgRom.SetBank(0x8000, (prg & 0x1E) as nat);
        prgRom.SetBank(0xC000, ((prg & 0x1E) | 1) as nat);
      case 4 =>
        prgRom.SetBank(0x8000, (prg & 0x1E) as nat);
        prgRom.SetBank(0xC000, ((prg & 0x1E) | 1) as nat);
      case 8 =>
        prgRom.SetBank(0xC000, prg as nat);
      case 0xC =>
        prgRom.SetBank(0x8000, prg as nat);
      case _ =>
    }
  }

  /** The bank setup of `load` before its `control_write`. */
  method MapWindows(prgRam: BankableMemory, prgRom: BankableMemory, chr: BankableMemory)
    requires prgRam != prgRom && prgRam != chr && prgRom != chr
    requires prgRam.window == PrgRamWindow && prgRom.window == PrgRomWindow && chr.window == ChrWindow
    requires prgRam.banks == map[] && prgRom.banks == map[] && chr.banks == map[]
    modifies prgRam`banks, prgRom`banks, chr`banks
    ensures prgRam.banks == map[0x6000 := 0]
    ensures prgRom.banks == BankRange(0x8000, 0xFFFF, PrgRomWindow)[0xC000 := LastBankOf(|prgRom.data|, PrgRomWindow)]
    ensures chr.banks == BankRange(0x0000, 0x1FFF, ChrWindow)
  {
    prgRam.AddBankRange(0x6000, 0x7FFF);
    RamWindows();
    prgRom.AddBankRange(0x8000, 0xFFFF);
    var last := prgRom.LastBank();
    prgRom.SetBank(0xC000, last);
    chr.AddBankRange(0x0000, 0x1FFF);
  }
}
