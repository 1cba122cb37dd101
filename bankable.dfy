/** The bank-switched memory the mappers use. Its implementation is not part
  * of this model; it is modelled as a byte buffer cut into banks of `window`
  * bytes, together with a map from the base address of each CPU- or
  * PPU-visible window to the bank that window currently shows. */
module Bankable {
  import opened Common
  import NesMemory

  /** The base address of the window that holds `addr`. Windows are aligned
    * to their own size, which every mapper here respects. */
  function WindowBase(window: nat, addr: nat): (b: nat)
    requires window > 0
    ensures b <= addr < b + window
  {
    addr - addr % window
  }

  /** The buffer index an address reaches: bank number times window size plus
    * the offset inside the window, wrapped around the buffer. None when the
    * window has no bank or the buffer is empty. */
  function Translate(size: nat, window: nat, banks: map<nat, nat>, addr: nat): (r: Option<nat>)
    requires window > 0
    ensures r.Some? ==> r.value < size
    ensures r.Some? <==> size > 0 && WindowBase(window, addr) in banks
  {
    var base := WindowBase(window, addr);
    if base in banks && size > 0 then Some((banks[base] * window + addr % window) % size) else None
  }

  /** What a read at `addr` returns. */
  function Fetch(data: seq<Byte>, window: nat, banks: map<nat, nat>, addr: nat): Byte
    requires window > 0
  {
    match Translate(|data|, window, banks, addr)
    case Some(i) => data[i]
    case None => 0
  }

  /** The buffer after a write of `value` at `addr`. */
  function Store(data: seq<Byte>, writable: bool, window: nat, banks: map<nat, nat>, addr: nat, value: Byte): (r: seq<Byte>)
    requires window > 0
    ensures |r| == |data|
    ensures writable && Translate(|data|, window, banks, addr).Some? ==>
      Fetch(r, window, banks, addr) == value
  {
    match Translate(|data|, window, banks, addr)
    case Some(i) => if writable then data[i := value] else data
    case None => data
  }

  /** The windows `add_bank_range(start, end)` creates: one every `window`
    * bytes from `start` up to `end`, showing the banks 0, 1, 2, … in order. */
  function BankRange(start: nat, end: nat, window: nat): (r: map<nat, nat>)
    requires window > 0
    ensures forall b :: b in r <==> start <= b <= end && Aligned(start, window, b)
  {
    map b | start <= b <= end && Aligned(start, window, b) :: (b - start) / window
  }

  /** Whether `b` lies a whole number of windows above `start`. */
  predicate Aligned(start: nat, window: nat, b: nat)
    requires window > 0
  {
    start <= b && (b - start) % window == 0
  }

  /** The number of the last whole bank, 0 when the buffer holds less than
    * one window. */
  function LastBankOf(size: nat, window: nat): (r: nat)
    requires window > 0
    ensures size >= window ==> (r + 1) * window <= size < (r + 2) * window
    ensures size < window ==> r == 0
  {
    if size / window == 0 then 0 else size / window - 1
  }

  class BankableMemory {
    var data: seq<Byte>
    const writable: bool
    const window: nat
    var banks: map<nat, nat>

    /** `size` zero bytes, writable, with no window mapped yet. */
    constructor Ram(size: nat, window: nat)
      requires window > 0
      ensures data == NesMemory.Zeros(size) && writable && this.window == window && banks == map[]
    {
      data := NesMemory.Zeros(size);
      writable := true;
      this.window := window;
      banks := map[];
    }

    /** A read-only copy of `bytes`. */
    constructor RomFromBytes(bytes: seq<Byte>, window: nat)
      requires window > 0
      ensures data == bytes && !writable && this.window == window && banks == map[]
    {
      data := bytes;
      writable := false;
      this.window := window;
      banks := map[];
    }

    /** A writable copy of `bytes`. */
    constructor RamFromBytes(bytes: seq<Byte>, window: nat)
      requires window > 0
      ensures data == bytes && writable && this.window == window && banks == map[]
    {
      data := bytes;
      writable := true;
      this.window := window;
      banks := map[];
    }

    function LastBank(): nat
      reads this
      requires window > 0
    {
      LastBankOf(|data|, window)
    }

    function Peek(addr: nat): Byte
      reads this
      requires window > 0
    {
      Fetch(data, window, banks, addr)
    }

    method Read(addr: nat) returns (v: Byte)
      requires window > 0
      ensures v == Peek(addr)
    {
      match Translate(|data|, window, banks, addr)
      case Some(i) => v := data[i];
      case None => v := 0;
    }

    method Write(addr: nat, value: Byte)
      requires window > 0
      modifies this`data
      ensures data == Store(old(data), writable, window, banks, addr, value)
    {
      match Translate(|data|, window, banks, addr)
      case Some(i) =>
        if writable {
          data := data[i := value];
        }
      case None =>
    }

    /** Points the window at `base` to `bank`. */
    method SetBank(base: nat, bank: nat)
      modifies this`banks
      ensures banks == old(banks)[base := bank]
    {
      banks := banks[base := bank];
    }

    /** Maps the windows from `start` to `end` to the banks in order. */
    method AddBankRange(start: nat, end: nat)
      requires window > 0
      modifies this`banks
      ensures banks == old(banks) + BankRange(start, end, window)
    {
      banks := banks + BankRange(start, end, window);
    }
  }
}
