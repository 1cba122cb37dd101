/** The PPU's internal scroll latches and background shift registers. */
module PpuRegister {
  import opened Common

  /** Base address of the first nametable. */
  const NametableAddr: Word := 0x2000

  /** A 16-bit shifter whose high byte is replaced by `value`. */
  function LoadUpper(shifter: Word, value: Byte): (r: Word)
    ensures (r >> 8) as Byte == value
    ensures r & 0xFF == shifter & 0xFF
  {
    (shifter & 0x00FF) | ((value as Word) << 8)
  }

  /** A logical right shift by one halves a 16-bit shifter. */
  function Halve16(x: Word): (r: Word)
    ensures r == x / 2
  {
    x >> 1
  }

  /** A logical right shift by one halves an 8-bit shifter. */
  function Halve8(x: Byte): (r: Byte)
    ensures r == x / 2
  {
    x >> 1
  }

  class Register {
    var vramCur: Word
    var vramTemp: Word
    var fineXScroll: Byte
    var w: bool
    const shiftBack16: array<Word>
    const shiftBack8: array<Byte>

    /** Two panes of each shifter; the two arrays are distinct buffers. */
    ghost predicate Valid()
      reads this
    {
      shiftBack16.Length == 2 && shiftBack8.Length == 2
    }

    /** Both VRAM addresses at the first nametable, no fine scroll, the
      * write toggle set and all shifters zero. */
    constructor ()
      ensures Valid() && fresh(shiftBack16) && fresh(shiftBack8)
      ensures vramCur == NametableAddr && vramTemp == NametableAddr
      ensures fineXScroll == 0 && w
      ensures shiftBack16[..] == [0, 0] && shiftBack8[..] == [0, 0]
    {
      vramCur := NametableAddr;
      vramTemp := NametableAddr;
      fineXScroll := 0x00;
      w := true;
      shiftBack16 := new Word[2](_ => 0);
      shiftBack8 := new Byte[2](_ => 0);
    }

    /** Loads `value` into the high byte of pane `pane`; the other pane and
      * the 8-bit shifters are untouched. */
    method LoadBackUpper(value: Byte, pane: nat)
      requires Valid() && pane < 2
      modifies shiftBack16
      ensures Valid()
      ensures shiftBack16[..] == old(shiftBack16[..])[pane := LoadUpper(old(shiftBack16[pane]), value)]
    {
      shiftBack16[pane] := (shiftBack16[pane] & 0x00FF) | ((value as Word) << 8);
    }

    /** Shifts all four background shifters right by one bit. */
    method ShiftBackground()
      requires Valid()
      modifies shiftBack16, shiftBack8
      ensures Valid()
      ensures shiftBack16[..] == [Halve16(old(shiftBack16[0])), Halve16(old(shiftBack16[1]))]
      ensures shiftBack8[..] == [Halve8(old(shiftBack8[0])), Halve8(old(shiftBack8[1]))]
    {
      shiftBack16[0] := shiftBack16[0] >> 1;
      shiftBack16[1] := shiftBack16[1] >> 1;
      shiftBack8[0] := shiftBack8[0] >> 1;
      shiftBack8[1] := shiftBack8[1] >> 1;
    }
  }

  /** A second load replaces the first one entirely. */
  lemma LoadUpperTwice(shifter: Word, a: Byte, b: Byte)
    ensures LoadUpper(LoadUpper(shifter, a), b) == LoadUpper(shifter, b)
  {
  }
}
