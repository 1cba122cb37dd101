/** The emulator's plain byte store: RAM or ROM addressed modulo its length. */
module NesMemory {
  import opened Common

  /** `n` zero bytes, the content of every freshly sized memory. */
  function Zeros(n: nat): (r: seq<Byte>)
    ensures |r| == n
    ensures forall i :: 0 <= i < n ==> r[i] == 0
  {
    seq(n, _ => 0)
  }

  /** A byte buffer that wraps every address around its length; writes are
    * dropped while it is write-protected. */
  class Memory {
    var data: seq<Byte>
    var writable: bool

    /** An empty, writable memory (`Memory::new`). */
    constructor ()
      ensures data == [] && writable
    {
      data := [];
      writable := true;
    }

    /** `capacity` zero bytes, writable. */
    constructor WithCapacity(capacity: nat)
      ensures data == Zeros(capacity) && writable
    {
      data := Zeros(capacity);
      writable := true;
    }

    /** `capacity` zero bytes, write-protected. */
    constructor Rom(capacity: nat)
      ensures data == Zeros(capacity) && !writable
    {
      data := Zeros(capacity);
      writable := false;
    }

    /** A write-protected copy of `bytes`. */
    constructor RomFromBytes(bytes: seq<Byte>)
      ensures data == bytes && !writable
    {
      data := bytes;
      writable := false;
    }

    /** `capacity` zero bytes, writable (same as `WithCapacity`). */
    constructor Ram(capacity: nat)
      ensures data == Zeros(capacity) && writable
    {
      data := Zeros(capacity);
      writable := true;
    }

    /** A writable copy of `bytes`. */
    constructor RamFromBytes(bytes: seq<Byte>)
      ensures data == bytes && writable
    {
      data := bytes;
      writable := true;
    }

    function Len(): nat
      reads this
    {
      |data|
    }

    function IsEmpty(): bool
      reads this
    {
      |data| == 0
    }

    function Writable(): bool
      reads this
    {
      writable
    }

    /** The cell an address lands on once wrapped around the length. */
    ghost function Cell(addr: nat): Byte
      reads this
      requires |data| > 0
    {
      data[addr % |data|]
    }

    /** Reads the wrapped cell; an empty memory cannot be read (the modulo
      * by zero is a panic in the source). */
    method Read(addr: nat) returns (v: Byte)
      requires |data| > 0
      ensures v == Cell(addr)
      ensures v == data[addr % Len()]
    {
      v := data[addr % |data|];
    }

    /** Stores `value` in the wrapped cell when writable; every other cell,
      * the length and the protection flag stay as they were. */
    method Write(addr: nat, value: Byte)
      requires |data| > 0
      modifies this`data
      ensures writable == old(writable) && |data| == old(|data|)
      ensures data == if writable then old(data)[addr % |data| := value] else old(data)
      ensures writable ==> Cell(addr) == value
      ensures forall b: nat {:trigger Cell(b)} :: b % |data| != addr % |data| ==> Cell(b) == old(Cell(b))
    {
      if writable {
        data := data[addr % |data| := value];
      }
    }

    /** Sets or lifts write protection; the contents are kept. */
    method WriteProtect(protect: bool)
      modifies this`writable
      ensures writable == !protect && data == old(data)
    {
      writable := !protect;
    }
  }

  /** Read-after-write on the cell values of a memory, as a statement about
    * two successive contents: the written cell reads back, the others keep
    * their value, and a protected memory is untouched. */
  lemma {:induction false} WriteThenRead(data: seq<Byte>, writable: bool, addr: nat, value: Byte, other: nat)
    requires |data| > 0
    ensures var after := if writable then data[addr % |data| := value] else data;
      |after| == |data| &&
      after[other % |data|] ==
        if writable && other % |data| == addr % |data| then value else data[other % |data|]
  {
  }
}
