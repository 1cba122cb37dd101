/** The 6502 core: status flags, register file, addressing modes and the
  * effect of every implemented instruction, driven by a CPU object that
  * fetches and executes one instruction at a time against a flat bus. */
module Cpu {
  import opened Common

  /** Page of the hardware stack. */
  const StackAddr: Word := 0x0100
  /** The stack pointer after a reset. */
  const ResetStack: Byte := 0xFD

  // ---------------------------------------------------------------------
  // Status register

  datatype Flag = N | V | D | I | Z | C

  /** The status byte NV-- DIZC, one field per bit; `b5` and `b4` are the
    * two bits no flag names. */
  datatype Status = Status(n: bool, v: bool, b5: bool, b4: bool, d: bool, i: bool, z: bool, c: bool)

  /** The bit a flag occupies in the status byte. */
  function Mask(f: Flag): Byte
  {
    match f
    case N => 0x80
    case V => 0x40
    case D => 0x08
    case I => 0x04
    case Z => 0x02
    case C => 0x01
  }

  function Bit(b: bool, mask: Byte): Byte
  {
    if b then mask else 0
  }

  /** The byte the status register holds. */
  function ToByte(st: Status): Byte
  {
    Bit(st.n, 0x80) | Bit(st.v, 0x40) | Bit(st.b5, 0x20) | Bit(st.b4, 0x10)
      | Bit(st.d, 0x08) | Bit(st.i, 0x04) | Bit(st.z, 0x02) | Bit(st.c, 0x01)
  }

  /** The status register loaded from a byte. */
  function FromByte(b: Byte): Status
  {
    Status(b & 0x80 != 0, b & 0x40 != 0, b & 0x20 != 0, b & 0x10 != 0,
           b & 0x08 != 0, b & 0x04 != 0, b & 0x02 != 0, b & 0x01 != 0)
  }

  /** Loading a byte and storing it back gives the same byte, and the
    * other way round. */
  lemma ByteRoundTrip(b: Byte)
    ensures ToByte(FromByte(b)) == b
  {
  }

  lemma StatusRoundTrip(st: Status)
    ensures FromByte(ToByte(st)) == st
  {
  }

  /** Reads a flag (`get_N` ... `get_C`). */
  function Get(st: Status, f: Flag): bool
  {
    match f
    case N => st.n
    case V => st.v
    case D => st.d
    case I => st.i
    case Z => st.z
    case C => st.c
  }

  /** Sets or clears a flag (`set_N` ... `set_C`). */
  function Set(st: Status, f: Flag, v: bool): (r: Status)
    ensures Get(r, f) == v
  {
    match f
    case N => st.(n := v)
    case V => st.(v := v)
    case D => st.(d := v)
    case I => st.(i := v)
    case Z => st.(z := v)
    case C => st.(c := v)
  }

  // On the byte, each flag is the bit its mask selects (`get_X` tests it);
  // setting ORs the mask in and clearing ANDs its complement (`set_X`), so
  // every other bit of the byte is kept.

  lemma ByteN(st: Status, v: bool)
    ensures st.n <==> ToByte(st) & 0x80 != 0
    ensures ToByte(st.(n := v)) == if v then ToByte(st) | 0x80 else ToByte(st) & 0x7F
  {
  }

  lemma ByteV(st: Status, v: bool)
    ensures st.v <==> ToByte(st) & 0x40 != 0
    ensures ToByte(st.(v := v)) == if v then ToByte(st) | 0x40 else ToByte(st) & 0xBF
  {
  }

  lemma ByteD(st: Status, v: bool)
    ensures st.d <==> ToByte(st) & 0x08 != 0
    ensures ToByte(st.(d := v)) == if v then ToByte(st) | 0x08 else ToByte(st) & 0xF7
  {
  }

  lemma ByteI(st: Status, v: bool)
    ensures st.i <==> ToByte(st) & 0x04 != 0
    ensures ToByte(st.(i := v)) == if v then ToByte(st) | 0x04 else ToByte(st) & 0xFB
  {
  }

  lemma ByteZ(st: Status, v: bool)
    ensures st.z <==> ToByte(st) & 0x02 != 0
    ensures ToByte(st.(z := v)) == if v then ToByte(st) | 0x02 else ToByte(st) & 0xFD
  {
  }

  lemma ByteC(st: Status, v: bool)
    ensures st.c <==> ToByte(st) & 0x01 != 0
    ensures ToByte(st.(c := v)) == if v then ToByte(st) | 0x01 else ToByte(st) & 0xFE
  {
  }

  /** Setting one flag leaves every other flag as it was. */
  lemma SetKeepsOtherFlags(st: Status, f: Flag, v: bool, g: Flag)
    requires g != f
    ensures Get(Set(st, f, v), g) == Get(st, g)
  {
  }

  /** The value after power-on and `reset`. */
  const PowerOnStatus: Status := FromByte(0x34)

  /** Z from "the value is zero" and N from its bit 7, as almost every
    * instruction ends. */
  function SetNZ(p: Status, value: Byte): (r: Status)
    ensures r == p.(z := value == 0, n := value & 0x80 != 0)
  {
    Set(Set(p, Z, value == 0), N, value & 0x80 != 0)
  }

  // ---------------------------------------------------------------------
  // Register file

  datatype Regs = Regs(a: Byte, x: Byte, y: Byte, pc: Word, s: Byte, p: Status)

  /** The registers an instruction can name as a destination. */
  datatype Target = A | X | Y | S

  function RegOf(reg: Regs, t: Target): Byte
  {
    match t
    case A => reg.a
    case X => reg.x
    case Y => reg.y
    case S => reg.s
  }

  /** Loads `value` into `t` and sets Z and N from it (the loads, the
    * transfers and the logical operations). */
  function Transfer(reg: Regs, t: Target, value: Byte): (r: Regs)
    ensures RegOf(r, t) == value && r.pc == reg.pc
    ensures forall u: Target :: u != t ==> RegOf(r, u) == RegOf(reg, u)
    ensures r.p == SetNZ(reg.p, value)
  {
    var p := SetNZ(reg.p, value);
    match t
    case A => reg.(a := value, p := p)
    case X => reg.(x := value, p := p)
    case Y => reg.(y := value, p := p)
    case S => reg.(s := value, p := p)
  }

  // ---------------------------------------------------------------------
  // Decoded instructions (the opcode table itself is not part of the model)

  datatype OpMode = IMP | ACC | IMM | ZP0 | ZPX | ZPY | IZX | IZY | ABS | ABX | ABY | IND | REL

  datatype Mnemonic =
    | ORA | AND | BIT | EOR | ADC | SBC | CMP | CPX | CPY
    | DEC | DEX | DEY | INC | INX | INY | ASL | ROL | LSR | ROR
    | LDA | LDX | LDY | STA | STX | STY | TAX | TXA | TAY | TYA | TSX | TXS
    | PLA | PHA | PLP | PHP
    | BPL | BMI | BVC | BVS | BCC | BCS | BNE | BEQ | JMP | JSR | RTS | RTI | BRK
    | CLC | SEC | CLD | SED | CLI | SEI | CLV | NOP
      /** Whatever else the decoder may hand back. */
    | Other

  datatype InstructionInfo = InstructionInfo(instr: Mnemonic, mode: OpMode)

  /** The decoding of every opcode (`opcode_to_enum`); the table's contents
    * are not part of the model. */
  type OpcodeTable = t: seq<InstructionInfo> | |t| == 256 witness seq(256, _ => InstructionInfo(NOP, IMP))

  /** Operand bytes following the opcode. */
  function OperandLength(mode: OpMode): (n: nat)
    ensures n <= 2
    ensures n == 0 <==> mode == IMP || mode == ACC
    ensures n == 2 <==> mode == ABS || mode == ABX || mode == ABY || mode == IND || mode == REL
  {
    match mode
    case IMP => 0
    case ACC => 0
    case IMM => 1
    case ZP0 => 1
    case ZPX => 1
    case ZPY => 1
    case IZX => 1
    case IZY => 1
    case ABS => 2
    case ABX => 2
    case ABY => 2
    case IND => 2
    case REL => 2
  }

  // ---------------------------------------------------------------------
  // The bus as the CPU sees it

  /** A 16-bit CPU address as a bus index. */
  function Index(w: Word): (i: nat)
    ensures i < 0x10000
  {
    w as nat
  }

  /** What a flat bus returns at `addr`: the stored byte, 0 where nothing is. */
  function Peek(cells: map<nat, Byte>, addr: nat): Byte
  {
    if addr in cells then cells[addr] else 0
  }

  /** The byte `k` places after `pc` on a flat bus. */
  function After(cells: map<nat, Byte>, pc: Word, k: nat): Byte
  {
    Peek(cells, Index(pc) + k)
  }

  /** A flat byte-addressed bus (the address decoding of the real bus is
    * modelled separately). */
  class FlatBus {
    var cells: map<nat, Byte>

    constructor (cells: map<nat, Byte>)
      ensures this.cells == cells
    {
      this.cells := cells;
    }

    method Read(addr: nat) returns (v: Byte)
      ensures v == Peek(cells, addr)
    {
      v := if addr in cells then cells[addr] else 0;
    }

    method Write(addr: nat, v: Byte)
      modifies this
      ensures cells == old(cells)[addr := v]
    {
      cells := cells[addr := v];
    }
  }

  /** A sequence of bus writes applied in order. */
  function Apply(cells: map<nat, Byte>, writes: seq<(nat, Byte)>): map<nat, Byte>
  {
    if writes == [] then cells
    else Apply(cells, writes[..|writes| - 1])[writes[|writes| - 1].0 := writes[|writes| - 1].1]
  }

  // ---------------------------------------------------------------------
  // Address arithmetic

  /** `(hi << 8) + lo`: `lo` is the low byte and `hi` the high byte. */
  function Word16(lo: Byte, hi: Byte): (r: Word)
    ensures r & 0xFF == lo as Word && r >> 8 == hi as Word
  {
    ((hi as Word) << 8) + lo as Word
  }

  /** A zero-page address indexed by a register, wrapping inside page 0. */
  function ZeroPageIndexed(op0: Byte, index: Byte): (r: Word)
    ensures r < 0x100 && r == (op0 + index) as Word
  {
    (op0 + index) as Word
  }

  /** The operand byte read as a two's-complement offset. */
  function Signed(b: Byte): (r: int)
    ensures -128 <= r < 128
    ensures r >= 0 ==> r == b as int
    ensures r < 0 ==> r + 256 == b as int
  {
    if b <= 127 then b as int else -1 - (255 - b) as int
  }

  /** An 8-bit offset sign-extended to 16 bits. */
  function SignExtend(b: Byte): (r: Word)
    ensures r & 0xFF == b as Word
    ensures r >> 8 == if b & 0x80 != 0 then 0xFF else 0
  {
    if b <= 127 then b as Word else (b as Word) | 0xFF00
  }

  /** Adding `index` to `base` does not carry out of 16 bits (the source's
    * `u16` addition panics otherwise). */
  predicate NoCarry16(base: Word, index: Byte)
  {
    base <= 0xFFFF - index as Word
  }

  /** The outcome of addressing: the effective address, the operand byte the
    * instruction works on, and the signed branch offset. */
  datatype Operands = Operands(addr: Word, value: Byte, rel: int)

  /** The address stored at `ind` as the source assembles it: the byte at
    * `ind` becomes the HIGH byte and the byte after it the low byte. */
  function Pointer(cells: map<nat, Byte>, ind: nat): (r: Word)
    ensures r >> 8 == Peek(cells, ind) as Word && r & 0xFF == Peek(cells, ind + 1) as Word
  {
    Word16(Peek(cells, ind + 1), Peek(cells, ind))
  }

  /** `base + index` on 16 bits, for the indexed modes. */
  function Indexed(base: Word, index: Byte): Word
  {
    base + index as Word
  }

  /** The source's 16-bit `+` must not overflow for the indexed modes. */
  predicate AddressingDefined(mode: OpMode, reg: Regs, op0: Byte, op1: Byte, cells: map<nat, Byte>)
  {
    match mode
    case IZY => NoCarry16(Pointer(cells, Index(op0 as Word)), reg.y)
    case ABX => NoCarry16(Word16(op0, op1), reg.x)
    case ABY => NoCarry16(Word16(op0, op1), reg.y)
    case _ => true
  }

  /** Whether the mode reads its operand from the bus at the effective address. */
  predicate FromBus(mode: OpMode)
  {
    match mode
    case ZP0 | ZPX | ZPY | IZX | IZY | ABS | ABX | ABY => true
    case _ => false
  }

  /** The effective address of the modes that read the bus. */
  function BusAddress(mode: OpMode, reg: Regs, op0: Byte, op1: Byte, cells: map<nat, Byte>): Word
    requires FromBus(mode) && AddressingDefined(mode, reg, op0, op1, cells)
  {
    match mode
    case ZP0 => op0 as Word
    case ZPX => ZeroPageIndexed(op0, reg.x)
    case ZPY => ZeroPageIndexed(op0, reg.y)
    case IZX => Pointer(cells, Index(ZeroPageIndexed(op0, reg.x)))
    case IZY => Indexed(Pointer(cells, Index(op0 as Word)), reg.y)
    case ABS => Word16(op0, op1)
    case ABX => Indexed(Word16(op0, op1), reg.x)
    case ABY => Indexed(Word16(op0, op1), reg.y)
  }

  /** The target of indirect addressing, with the 6502 page bug: for a
    * pointer ending in 0xFF the second byte comes from the start of the
    * same page. */
  function IndirectTarget(op0: Byte, op1: Byte, cells: map<nat, Byte>): Word
  {
    var ind := Index(Word16(op0, op1));
    var first := Peek(cells, ind);
    var second := if op0 == 0xFF then Peek(cells, (op1 as nat) * 256) else Peek(cells, ind + 1);
    Word16(second, first)
  }

  /** Relative addressing: the branch target, PC plus the sign-extended
    * offset, and the offset itself as a signed number. */
  function Relative(pc: Word, op0: Byte): Operands
  {
    Operands(pc + SignExtend(op0), op0, Signed(op0))
  }

  /** Effective address and operand for each mode (`handle_adressing_mode`).
    * Implied, immediate and accumulator modes keep the old address; only
    * REL sets the branch offset. */
  function Addressing(mode: OpMode, reg: Regs, op0: Byte, op1: Byte, old_: Operands,
                      cells: map<nat, Byte>): (r: Operands)
    requires AddressingDefined(mode, reg, op0, op1, cells)
    ensures FromBus(mode) ==> r.value == Peek(cells, Index(r.addr))
    ensures mode != REL ==> r.rel == old_.rel
  {
    if FromBus(mode) then
      var addr := BusAddress(mode, reg, op0, op1, cells);
      old_.(addr := addr, value := Peek(cells, Index(addr)))
    else
      match mode
      case ACC => old_.(value := reg.a)
      case IMP => old_
      case IMM => old_.(value := op0)
      case IND => old_.(addr := IndirectTarget(op0, op1, cells), value := op0)
      case REL => Relative(reg.pc, op0)
  }

  /** The operand of the modes that do not read the bus: A for the
    * accumulator mode, the first operand byte otherwise. */
  lemma OperandWithoutBus(mode: OpMode, reg: Regs, op0: Byte, op1: Byte, old_: Operands,
                          cells: map<nat, Byte>)
    requires AddressingDefined(mode, reg, op0, op1, cells)
    ensures var r := Addressing(mode, reg, op0, op1, old_, cells);
      && (mode == ACC ==> r.value == reg.a)
      && (mode == IMP ==> r.value == old_.value)
      && (mode == IMM || mode == IND || mode == REL ==> r.value == op0)
      && (mode == ACC || mode == IMP || mode == IMM ==> r.addr == old_.addr)
  {
  }

  /** Zero-page indexing stays on page 0. */
  lemma ZeroPageWraps(mode: OpMode, reg: Regs, op0: Byte, op1: Byte, old_: Operands,
                      cells: map<nat, Byte>)
    requires mode == ZPX || mode == ZPY
    ensures var r := Addressing(mode, reg, op0, op1, old_, cells);
      r.addr < 0x100 && r.addr as Byte == op0 + (if mode == ZPX then reg.x else reg.y)
  {
    var index := if mode == ZPX then reg.x else reg.y;
    assert Addressing(mode, reg, op0, op1, old_, cells).addr == BusAddress(mode, reg, op0, op1, cells);
    assert BusAddress(mode, reg, op0, op1, cells) == ZeroPageIndexed(op0, index);
  }

  /** Absolute addressing: `op0` is the low byte, `op1` the high byte. */
  lemma AbsoluteAddress(reg: Regs, op0: Byte, op1: Byte, old_: Operands, cells: map<nat, Byte>)
    ensures var r := Addressing(ABS, reg, op0, op1, old_, cells);
      r.addr & 0xFF == op0 as Word && r.addr >> 8 == op1 as Word
  {
  }

  /** Indirect addressing reads the target from the pointer `op1:op0`, and on
    * a pointer ending in 0xFF the low byte comes from the start of the page. */
  lemma IndirectPageBug(reg: Regs, op0: Byte, op1: Byte, old_: Operands, cells: map<nat, Byte>)
    ensures var r := Addressing(IND, reg, op0, op1, old_, cells);
      && r.addr >> 8 == Peek(cells, Index(Word16(op0, op1))) as Word
      && r.addr & 0xFF == (if op0 == 0xFF then Peek(cells, (op1 as nat) * 256)
                           else Peek(cells, Index(Word16(op0, op1)) + 1)) as Word
  {
  }

  /** Relative addressing: the target is PC plus the sign-extended offset,
    * and the offset is remembered as a signed number. */
  lemma RelativeTarget(reg: Regs, op0: Byte, op1: Byte, old_: Operands, cells: map<nat, Byte>)
    ensures var r := Addressing(REL, reg, op0, op1, old_, cells);
      r.addr == reg.pc + SignExtend(op0) && r.rel == Signed(op0) && -128 <= r.rel < 128
  {
  }

  // ---------------------------------------------------------------------
  // Instruction semantics

  datatype Sum = Sum(value: Byte, carry: bool)

  /** The two overflowing additions of ADC taken together: the 8-bit sum
    * of A, M and the carry, and whether either addition carried out. */
  function AdcSum(a: Byte, m: Byte, carry: bool): (r: Sum)
    ensures r.value as int == (a as int + m as int + (if carry then 1 else 0)) % 256
    ensures r.carry <==> a as int + m as int + (if carry then 1 else 0) > 0xFF
  {
    var wide := a as int + m as int + (if carry then 1 else 0);
    Sum(if wide > 0xFF then (wide - 256) as Byte else wide as Byte, wide > 0xFF)
  }

  /** The flags ADC leaves from a sum: C the carry out, Z and N from the
    * 8-bit sum, and V only for two non-negative inputs giving a negative
    * result; D, I and the unnamed bits are kept. */
  function AdcFlags(p: Status, a: Byte, m: Byte, sum: Sum): (r: Status)
    ensures r == p.(c := r.c, z := r.z, v := r.v, n := r.n)
    ensures r.c == sum.carry
    ensures r.z <==> sum.value == 0
    ensures r.n <==> sum.value & 0x80 != 0
    ensures r.v <==> sum.value & 0x80 != 0 && a & 0x80 == 0 && m & 0x80 == 0
  {
    var n := sum.value & 0x80 != 0;
    p.(c := sum.carry, z := sum.value == 0, v := n && a & 0x80 == 0 && m & 0x80 == 0, n := n)
  }

  /** Add with carry in binary mode: A gets the 8-bit sum of A, M and C,
    * and the flags are those of that sum; X, Y, S and PC are kept. */
  function AddBinary(reg: Regs, m: Byte): (r: Regs)
    ensures r == reg.(a := r.a, p := r.p)
    ensures Sum(r.a, r.p.c) == AdcSum(reg.a, m, reg.p.c)
    ensures r.p == AdcFlags(reg.p, reg.a, m, AdcSum(reg.a, m, reg.p.c))
  {
    var sum := AdcSum(reg.a, m, Get(reg.p, C));
    reg.(a := sum.value, p := AdcFlags(reg.p, reg.a, m, sum))
  }

  /** ADC: nothing happens in decimal mode, binary addition otherwise. */
  function AddWithCarry(reg: Regs, m: Byte): (r: Regs)
    ensures reg.p.d ==> r == reg
    ensures !reg.p.d ==> r == AddBinary(reg, m)
  {
    if Get(reg.p, D) then reg else AddBinary(reg, m)
  }

  /** BIT: Z from `A & M`, V and N copied from bits 6 and 7 of M. */
  function BitTest(p: Status, a: Byte, m: Byte): (r: Status)
    ensures r == p.(z := a & m == 0, v := m & 0x40 != 0, n := m & 0x80 != 0)
  {
    var p := Set(p, Z, a & m == 0);
    var p := Set(p, V, m & 0x40 != 0);
    Set(p, N, m & 0x80 != 0)
  }

  /** CMP/CPX/CPY as written: C iff reg >= M, Z iff equal, N iff reg < M
    * (not bit 7 of the difference). */
  function CompareFlags(p: Status, r: Byte, m: Byte): (q: Status)
    ensures q == p.(c := r >= m, z := r == m, n := r < m)
  {
    if r < m then Set(Set(Set(p, C, false), Z, false), N, true)
    else if r == m then Set(Set(Set(p, C, true), Z, true), N, false)
    else Set(Set(Set(p, C, true), Z, false), N, false)
  }

  /** DEC/DEX/DEY: the value minus one (0 wraps to 0xFF) with Z iff the
    * result is 0 and N iff the old value was 0. */
  function Decrement(p: Status, v: Byte): (r: (Byte, Status))
    ensures r.0 == v - 1
    ensures r.1 == p.(z := r.0 == 0, n := v == 0)
  {
    if v == 0 then (0xFF, Set(Set(p, N, true), Z, false))
    else if v == 1 then (0, Set(Set(p, N, false), Z, true))
    else (v - 1, Set(Set(p, N, false), Z, false))
  }

  /** INC/INX/INY as written: 0xFE becomes 0, any other value is incremented
    * (0xFF would overflow the source's `u8`); Z iff the result is 0 and N
    * from its bit 7. */
  function Increment(p: Status, v: Byte): (r: (Byte, Status))
    requires v != 0xFF
    ensures r.0 == if v == 0xFE then 0 else v + 1
    ensures r.1 == SetNZ(p, r.0)
  {
    if v == 0xFE then (0, Set(Set(p, Z, true), N, false))
    else (v + 1, Set(Set(p, Z, false), N, (v + 1) & 0x80 != 0))
  }

  /** ASL: C from bit 7, result shifted left, Z and N from the result. */
  function ShiftLeft(p: Status, v: Byte): (r: (Byte, Status))
    ensures r.0 == v << 1
    ensures r.1 == SetNZ(p.(c := v & 0x80 != 0), r.0)
  {
    var q := Set(p, C, v & 0x80 != 0);
    (v << 1, SetNZ(q, v << 1))
  }

  /** LSR: C from bit 0, result shifted right, Z from the result, N cleared. */
  function ShiftRight(p: Status, v: Byte): (r: (Byte, Status))
    ensures r.0 == v >> 1
    ensures r.1 == p.(c := v & 1 != 0, z := r.0 == 0, n := false)
  {
    var q := Set(p, C, v & 0x01 != 0);
    (v >> 1, Set(Set(q, Z, v >> 1 == 0), N, false))
  }

  /** ROL as written: C from bit 7; the shifted value is then masked with 1
    * when the old carry was set, which always leaves 0. */
  function RotateLeft(p: Status, v: Byte): (r: (Byte, Status))
    ensures r.0 == if p.c then 0 else v << 1
    ensures r.1 == SetNZ(p.(c := v & 0x80 != 0), r.0)
  {
    var carry := Get(p, C);
    var q := Set(p, C, v & 0x80 != 0);
    var w := if carry then (v << 1) & 0x01 else v << 1;
    (w, SetNZ(q, w))
  }

  /** ROR as written: C from bit 0; the shifted value is then masked with
    * 0x80 when the old carry was set, which always leaves 0. */
  function RotateRight(p: Status, v: Byte): (r: (Byte, Status))
    ensures r.0 == if p.c then 0 else v >> 1
    ensures r.1 == SetNZ(p.(c := v & 1 != 0), r.0)
  {
    var carry := Get(p, C);
    var q := Set(p, C, v & 0x01 != 0);
    var w := if carry then (v >> 1) & 0x80 else v >> 1;
    (w, SetNZ(q, w))
  }

  /** The stack cell the stack pointer designates. */
  function StackCell(s: Byte): (a: nat)
    ensures 0x100 <= a <= 0x1FF
  {
    Index(StackAddr + s as Word)
  }

  /** Whether a conditional branch is taken; `None` for every other instruction. */
  function BranchCondition(instr: Mnemonic, p: Status): Option<bool>
  {
    match instr
    case BCS => Some(Get(p, C))
    case BCC => Some(!Get(p, C))
    case BEQ => Some(Get(p, Z))
    case BNE => Some(!Get(p, Z))
    case BMI => Some(Get(p, N))
    case BPL => Some(!Get(p, N))
    case BVS => Some(Get(p, V))
    case BVC => Some(!Get(p, V))
    case _ => None
  }

  /** Extra cycles of a taken branch: 3 when the target is on the page of the
    * current PC, 1 otherwise. */
  function BranchCycles(target: Word, pc: Word): (n: nat)
    ensures n == 3 <==> target >> 8 == pc >> 8
    ensures n == 1 || n == 3
  {
    if target >> 8 == pc >> 8 then 3 else 1
  }

  /** What one instruction does: the new register file, the bus writes in
    * order, whether it jumped and the branch cycles. */
  datatype Effect = Effect(reg: Regs, writes: seq<(nat, Byte)>, jump: bool, cycles: nat)

  /** The registers and bus writes of an instruction that never jumps. */
  datatype Change = Change(reg: Regs, writes: seq<(nat, Byte)>)

  function Plain(c: Change): Effect
  {
    Effect(c.reg, c.writes, false, 0)
  }

  /** The increments overflow the source's `u8` at 0xFF. */
  predicate ExecDefined(instr: Mnemonic, reg: Regs, value: Byte)
  {
    && (instr == INC ==> value != 0xFF)
    && (instr == INX ==> reg.x != 0xFF)
    && (instr == INY ==> reg.y != 0xFF)
  }

  /** The groups of the dispatch, as the source lays them out. */
  datatype Group = Arithmetic | Move | Jump | Flags

  function GroupOf(instr: Mnemonic): Group
  {
    match instr
    case ORA | AND | BIT | EOR | ADC | SBC | CMP | CPX | CPY
       | DEC | DEX | DEY | INC | INX | INY | ASL | ROL | LSR | ROR => Arithmetic
    case LDA | LDX | LDY | STA | STX | STY | TAX | TXA | TAY | TYA | TSX | TXS
       | PLA | PHA | PLP | PHP => Move
    case BPL | BMI | BVC | BVS | BCC | BCS | BNE | BEQ | JMP | JSR | RTS | RTI | BRK => Jump
    case CLC | SEC | CLD | SED | CLI | SEI | CLV | NOP | Other => Flags
  }

  /** The instruction dispatch of `exec_instr` after addressing: `ops` is the
    * outcome of addressing and `top` the byte at the stack cell (read by the
    * pulls and RTS). CLV is dispatched to SEI; SBC, BRK, RTI and anything
    * else fall into the catch-all arm and change nothing. Branch cycles come
    * only with a jump, and the flag instructions change nothing but the
    * status register. */
  function Execute(info: InstructionInfo, reg: Regs, ops: Operands, top: Byte): (e: Effect)
    requires ExecDefined(info.instr, reg, ops.value)
    ensures !e.jump ==> e.cycles == 0
    ensures GroupOf(info.instr) == Flags ==> e.reg == reg.(p := e.reg.p) && e.writes == [] && !e.jump
  {
    match GroupOf(info.instr)
    case Arithmetic => Plain(ExecuteArithmetic(info, reg, ops))
    case Move => Plain(ExecuteMove(info.instr, reg, ops, top))
    case Jump => ExecuteJump(info.instr, reg, ops, top)
    case Flags => Effect(reg.(p := ExecuteFlags(info.instr, reg.p)), [], false, 0)
  }

  /** Logical and arithmetic instructions; SBC is not implemented. */
  function ExecuteArithmetic(info: InstructionInfo, reg: Regs, ops: Operands): (c: Change)
    requires ExecDefined(info.instr, reg, ops.value)
  {
    var m := ops.value;
    match info.instr
    case ORA => Change(Transfer(reg, A, reg.a | m), [])
    case AND => Change(Transfer(reg, A, reg.a & m), [])
    case BIT => Change(reg.(p := BitTest(reg.p, reg.a, m)), [])
    case EOR => Change(Transfer(reg, A, reg.a ^ m), [])
    case ADC => Change(AddWithCarry(reg, m), [])
    case CMP => Change(reg.(p := CompareFlags(reg.p, reg.a, m)), [])
    case CPX => Change(reg.(p := CompareFlags(reg.p, reg.x, m)), [])
    case CPY => Change(reg.(p := CompareFlags(reg.p, reg.y, m)), [])
    case DEC =>
      var (v, p) := Decrement(reg.p, m);
      Change(reg.(p := p), [(Index(ops.addr), v)])
    case DEX =>
      var (v, p) := Decrement(reg.p, reg.x);
      Change(reg.(x := v, p := p), [])
    case DEY =>
      var (v, p) := Decrement(reg.p, reg.y);
      Change(reg.(y := v, p := p), [])
    case INC =>
      var (v, p) := Increment(reg.p, m);
      Change(reg.(p := p), [(Index(ops.addr), v)])
    case INX =>
      var (v, p) := Increment(reg.p, reg.x);
      Change(reg.(x := v, p := p), [])
    case INY =>
      var (v, p) := Increment(reg.p, reg.y);
      Change(reg.(y := v, p := p), [])
    case ASL => Shifted(info.mode, reg, ops.addr, ShiftLeft(reg.p, m))
    case ROL => Shifted(info.mode, reg, ops.addr, RotateLeft(reg.p, m))
    case LSR => Shifted(info.mode, reg, ops.addr, ShiftRight(reg.p, m))
    case ROR => Shifted(info.mode, reg, ops.addr, RotateRight(reg.p, m))
    case _ => Change(reg, [])
  }

  /** Loads, stores, transfers, pushes and pulls. */
  function ExecuteMove(instr: Mnemonic, reg: Regs, ops: Operands, top: Byte): (c: Change)
  {
    var m := ops.value;
    match instr
    case LDA => Change(Transfer(reg, A, m), [])
    case LDX => Change(Transfer(reg, X, m), [])
    case LDY => Change(Transfer(reg, Y, m), [])
    case STA => Change(reg, [(Index(ops.addr), reg.a)])
    case STX => Change(reg, [(Index(ops.addr), reg.x)])
    case STY => Change(reg, [(Index(ops.addr), reg.y)])
    case TAX => Change(Transfer(reg, X, reg.a), [])
    case TXA => Change(Transfer(reg, A, reg.x), [])
    case TAY => Change(Transfer(reg, Y, reg.a), [])
    case TYA => Change(Transfer(reg, A, reg.y), [])
    case TSX => Change(Transfer(reg, X, reg.s), [])
    case TXS => Change(Transfer(reg, S, reg.x), [])
    case PLA => Change(reg.(a := top, s := reg.s - 1), [])
    case PHA => Change(reg.(s := reg.s + 1), [(StackCell(reg.s), reg.a)])
    case PLP => Change(reg.(p := FromByte(top), s := reg.s - 1), [])
    case PHP => Change(reg.(s := reg.s + 1), [(StackCell(reg.s), ToByte(reg.p))])
    case _ => Change(reg, [])
  }

  /** Branches, jumps and subroutine calls; RTI and BRK are not implemented. */
  function ExecuteJump(instr: Mnemonic, reg: Regs, ops: Operands, top: Byte): (e: Effect)
    ensures !e.jump ==> e.reg == reg && e.writes == [] && e.cycles == 0
  {
    match instr
    case BPL => Branch(reg, ops.addr, !Get(reg.p, N))
    case BMI => Branch(reg, ops.addr, Get(reg.p, N))
    case BVC => Branch(reg, ops.addr, !Get(reg.p, V))
    case BVS => Branch(reg, ops.addr, Get(reg.p, V))
    case BCC => Branch(reg, ops.addr, !Get(reg.p, C))
    case BCS => Branch(reg, ops.addr, Get(reg.p, C))
    case BNE => Branch(reg, ops.addr, !Get(reg.p, Z))
    case BEQ => Branch(reg, ops.addr, Get(reg.p, Z))
    case JMP => Effect(reg.(pc := ops.addr), [], true, 0)
    case JSR => Effect(reg.(s := reg.s + 2, pc := ops.addr), JsrWrites(reg), true, 0)
    case RTS => Effect(reg.(s := reg.s - 2, pc := Word16(top - 1, top)), [], true, 0)
    case _ => Effect(reg, [], false, 0)
  }

  /** Flag instructions: the new status register. NOP and unknown
    * instructions keep it. */
  function ExecuteFlags(instr: Mnemonic, p: Status): Status
  {
    match instr
    case CLC => Set(p, C, false)
    case SEC => Set(p, C, true)
    case CLD => Set(p, D, false)
    case SED => Set(p, D, true)
    case CLI => Set(p, I, false)
    case SEI => Set(p, I, true)
    case CLV => Set(p, I, true)
    case _ => p
  }

  /** A shift or rotate result goes to A in accumulator mode and to the bus
    * at the effective address otherwise. */
  function Shifted(mode: OpMode, reg: Regs, addr: Word, r: (Byte, Status)): Change
  {
    if mode == ACC then Change(reg.(a := r.0, p := r.1), [])
    else Change(reg.(p := r.1), [(Index(addr), r.0)])
  }

  /** A conditional branch records whether it is taken and the page-crossing
    * cycles; it does not move the PC itself. */
  function Branch(reg: Regs, target: Word, taken: bool): (e: Effect)
    ensures e.reg == reg && e.writes == [] && e.jump == taken
    ensures e.cycles == if taken then BranchCycles(target, reg.pc) else 0
  {
    if taken then Effect(reg, [], true, BranchCycles(target, reg.pc)) else Effect(reg, [], false, 0)
  }

  /** JSR as written: both bytes go to the SAME stack cell (the one `S`
    * designated before the call): first the high byte of PC minus one, then
    * the low byte of PC. */
  function JsrWrites(reg: Regs): (w: seq<(nat, Byte)>)
    ensures |w| == 2 && w[0].0 == w[1].0 == StackCell(reg.s)
    ensures w[0].1 as Word == ((reg.pc >> 8) as Byte - 1) as Word && w[1].1 as Word == reg.pc & 0xFF
  {
    var hi := (reg.pc >> 8) as Byte;
    var lo := ((reg.pc << 8) >> 8) as Byte;
    [(StackCell(reg.s), hi - 1), (StackCell(reg.s), lo)]
  }

  /** Only the pulls and RTS look at the byte on the stack. */
  predicate ReadsStack(instr: Mnemonic)
  {
    instr == PLA || instr == PLP || instr == RTS
  }

  /** The other instructions do not depend on that byte. */
  lemma StackByteIgnoredWhenNotRead(info: InstructionInfo, reg: Regs, ops: Operands, t1: Byte, t2: Byte)
    requires ExecDefined(info.instr, reg, ops.value)
    ensures !ReadsStack(info.instr) ==> Execute(info, reg, ops, t1) == Execute(info, reg, ops, t2)
  {
  }

  /** A conditional branch is taken exactly when its flag condition holds;
    * it then reports a jump with 3 cycles on the same page and 1 across
    * pages, and it never changes a register. */
  lemma BranchTakenIffCondition(info: InstructionInfo, reg: Regs, ops: Operands, top: Byte)
    requires BranchCondition(info.instr, reg.p).Some?
    ensures var e := Execute(info, reg, ops, top);
      var taken := BranchCondition(info.instr, reg.p).value;
      && (e.jump <==> taken)
      && e.cycles == (if taken then BranchCycles(ops.addr, reg.pc) else 0)
      && e.reg == reg && e.writes == []
  {
  }

  /** Every instruction outside the jump group (the branches, JMP, JSR, RTS
    * and the unimplemented RTI and BRK) leaves the jump flag and the branch
    * cycles cleared. */
  lemma OnlyJumpsJump(info: InstructionInfo, reg: Regs, ops: Operands, top: Byte)
    requires ExecDefined(info.instr, reg, ops.value) && GroupOf(info.instr) != Jump
    ensures var e := Execute(info, reg, ops, top); !e.jump && e.cycles == 0
  {
  }

  /** CLV is dispatched to SEI: it sets I and leaves V (and everything else) alone. */
  lemma ClvActsAsSei(mode: OpMode, reg: Regs, ops: Operands, top: Byte)
    ensures Execute(InstructionInfo(CLV, mode), reg, ops, top) == Execute(InstructionInfo(SEI, mode), reg, ops, top)
    ensures Execute(InstructionInfo(CLV, mode), reg, ops, top) == Effect(reg.(p := reg.p.(i := true)), [], false, 0)
  {
    assert GroupOf(CLV) == GroupOf(SEI) == Flags;
  }

  /** PHA writes A at the cell S designates and then increments S. */
  lemma PushEffect(mode: OpMode, reg: Regs, ops: Operands, top: Byte)
    ensures Execute(InstructionInfo(PHA, mode), reg, ops, top)
         == Effect(reg.(s := reg.s + 1), [(StackCell(reg.s), reg.a)], false, 0)
  {
    assert GroupOf(PHA) == Move;
  }

  /** PLA loads the stack byte into A (setting nothing else) and decrements S. */
  lemma PullEffect(mode: OpMode, reg: Regs, ops: Operands, top: Byte)
    ensures Execute(InstructionInfo(PLA, mode), reg, ops, top)
         == Effect(reg.(a := top, s := reg.s - 1), [], false, 0)
  {
    assert GroupOf(PLA) == Move;
  }

  /** A push writes at the cell S designates and then increments S; the
    * following pull reads the cell the NEW S designates and decrements S.
    * So PHA then PLA restores S, but the pull reads the cell above the one
    * the push wrote, not the pushed byte. */
  lemma PushThenPull(modeA: OpMode, modeB: OpMode, reg: Regs, ops: Operands, cells: map<nat, Byte>)
    ensures var push := Execute(InstructionInfo(PHA, modeA), reg, ops, 0);
      var cells1 := Apply(cells, push.writes);
      var pull := Execute(InstructionInfo(PLA, modeB), push.reg, ops, Peek(cells1, StackCell(push.reg.s)));
      && pull.reg.s == reg.s
      && Peek(cells1, StackCell(reg.s)) == reg.a
      && StackCell(push.reg.s) != StackCell(reg.s)
      && pull.reg.a == Peek(cells, StackCell(reg.s + 1))
  {
    PushEffect(modeA, reg, ops, 0);
    var push := Execute(InstructionInfo(PHA, modeA), reg, ops, 0);
    StackRoundTrip(reg, cells);
    var cells1 := Apply(cells, push.writes);
    PullEffect(modeB, push.reg, ops, Peek(cells1, StackCell(push.reg.s)));
  }

  /** The stack cells a push writes and the next pull reads, on a flat bus. */
  lemma StackRoundTrip(reg: Regs, cells: map<nat, Byte>)
    ensures var cells1 := Apply(cells, [(StackCell(reg.s), reg.a)]);
      && Peek(cells1, StackCell(reg.s)) == reg.a
      && StackCell(reg.s + 1) != StackCell(reg.s)
      && Peek(cells1, StackCell(reg.s + 1)) == Peek(cells, StackCell(reg.s + 1))
  {
    var w := [(StackCell(reg.s), reg.a)];
    assert w[..0] == [];
    assert Apply(cells, w) == cells[StackCell(reg.s) := reg.a];
    StackCellsDiffer(reg.s);
  }

  /** Consecutive stack pointers designate different cells. */
  lemma StackCellsDiffer(s: Byte)
    ensures StackCell(s + 1) != StackCell(s)
  {
    assert StackAddr + (s + 1) as Word != StackAddr + s as Word;
  }

  /** JSR as written: S moves up by two, PC goes to the target, and the
    * stack cell S designated holds the LOW byte of PC (written last). */
  lemma JsrStack(mode: OpMode, reg: Regs, ops: Operands, top: Byte, cells: map<nat, Byte>)
    ensures var e := Execute(InstructionInfo(JSR, mode), reg, ops, top);
      && e.reg == reg.(s := reg.s + 2, pc := ops.addr) && e.jump
      && Peek(Apply(cells, e.writes), StackCell(reg.s)) as Word == reg.pc & 0xFF
  {
    assert GroupOf(JSR) == Jump;
    var w := JsrWrites(reg);
    assert Apply(cells, w) == Apply(cells, w[..1])[w[1].0 := w[1].1];
  }

  /** RTS as written: S moves down by two and PC is made of one stack byte
    * used twice, as the high byte and (minus one) as the low byte. */
  lemma RtsStack(mode: OpMode, reg: Regs, ops: Operands, top: Byte)
    ensures var e := Execute(InstructionInfo(RTS, mode), reg, ops, top);
      && e.reg == reg.(s := reg.s - 2, pc := e.reg.pc) && e.jump && e.writes == []
      && e.reg.pc >> 8 == top as Word && e.reg.pc & 0xFF == (top - 1) as Word
  {
  }

  // ---------------------------------------------------------------------
  // Fetch

  /** The source's `u16` PC arithmetic must not overflow: PC plus the
    * instruction's length stays at most 0xFFFF. */
  predicate FetchDefined(reg: Regs, cells: map<nat, Byte>, table: OpcodeTable)
  {
    reg.pc <= 0xFFFE - OperandLength(table[Peek(cells, Index(reg.pc))].mode) as Word
  }

  /** PC moved past an instruction of `n` operand bytes, without wrapping. */
  function Advance(pc: Word, n: nat): (r: Word)
    requires n <= 2 && pc <= 0xFFFE - n as Word
    ensures r == pc + n as Word + 1 && r > pc
  {
    pc + n as Word + 1
  }

  // ---------------------------------------------------------------------
  // The CPU object

  class CPU {
    var reg: Regs
    var cyclesSinceStartup: nat
    var cyclesInstr: nat
    var cyclesBranch: nat
    /** The two operand bytes; `operand[0]` is replaced by the operand value
      * during addressing. */
    const operand: array<Byte>
    var addrAbs: Word
    var addrRel: int
    var instr: InstructionInfo
    var opLen: nat
    var asJump: bool

    predicate Valid()
      reads this
    {
      operand.Length == 2
    }

    /** The latched outcome of the last addressing step. */
    function Latched(): Operands
      reads this, operand
      requires Valid()
    {
      Operands(addrAbs, operand[0], addrRel)
    }

    /** `CPU::new`: every register 0 except P, which holds the power-on
      * value; `initial` is what the opcode table's default entry decodes to. */
    constructor (initial: InstructionInfo)
      ensures Valid() && fresh(operand)
      ensures reg == Regs(0, 0, 0, 0, 0, PowerOnStatus)
      ensures cyclesSinceStartup == 0 && cyclesInstr == 0 && cyclesBranch == 0
      ensures operand[..] == [0, 0] && addrAbs == 0 && addrRel == 0
      ensures instr == initial && opLen == 0 && !asJump
    {
      reg := Regs(0, 0, 0, 0, 0, PowerOnStatus);
      cyclesSinceStartup := 0;
      cyclesInstr := 0;
      cyclesBranch := 0;
      operand := new Byte[2](_ => 0);
      addrAbs := 0;
      addrRel := 0;
      instr := initial;
      opLen := 0;
      asJump := false;
    }

    /** `reset`: A, X, Y cleared, S = 0xFD, P back to the power-on value,
      * the cycle counters cleared and PC loaded from the reset vector at
      * 0xFFFC (low byte) and 0xFFFD (high byte). */
    method Reset(bus: FlatBus)
      requires Valid()
      modifies this`reg, this`cyclesSinceStartup, this`cyclesInstr
      ensures reg == Regs(0, 0, 0, Word16(Peek(bus.cells, 0xFFFC), Peek(bus.cells, 0xFFFD)), ResetStack, PowerOnStatus)
      ensures cyclesSinceStartup == 0 && cyclesInstr == 0
    {
      reg := Regs(0, 0, 0, 0, ResetStack, PowerOnStatus);
      cyclesSinceStartup := 0;
      cyclesInstr := 0;
      var hi := bus.Read(0xFFFD);
      var lo := bus.Read(0xFFFC);
      reg := reg.(pc := ((hi as Word) << 8) + lo as Word);
    }

    /** `read_instr`: decodes the opcode at PC, reads its operand bytes and
      * moves PC past the instruction. */
    method ReadInstr(bus: FlatBus, table: OpcodeTable)
      requires Valid() && FetchDefined(reg, bus.cells, table)
      modifies this`reg, this`instr, this`opLen, operand
      ensures instr == table[After(bus.cells, old(reg).pc, 0)] && opLen == OperandLength(instr.mode)
      ensures reg == old(reg).(pc := Advance(old(reg).pc, opLen))
      ensures operand[0] == if opLen >= 1 then After(bus.cells, old(reg).pc, 1) else old(operand[0])
      ensures operand[1] == if opLen == 2 then After(bus.cells, old(reg).pc, 2) else old(operand[1])
    {
      var opcode := bus.Read(Index(reg.pc));
      instr := table[opcode];
      opLen := OperandLength(instr.mode);
      ReadOperands(bus, reg.pc, opLen);
      reg := reg.(pc := Advance(reg.pc, opLen));
    }

    /** Reads the `n` operand bytes that follow the opcode at `at`. */
    method ReadOperands(bus: FlatBus, pc: Word, n: nat)
      requires Valid()
      modifies operand
      ensures operand[0] == if n >= 1 then After(bus.cells, pc, 1) else old(operand[0])
      ensures operand[1] == if n == 2 then After(bus.cells, pc, 2) else old(operand[1])
    {
      if n >= 1 {
        var b := bus.Read(Index(pc) + 1);
        operand[0] := b;
      }
      if n == 2 {
        var b := bus.Read(Index(pc) + 2);
        operand[1] := b;
      }
    }

    /** What addressing the latched instruction yields on `bus`. */
    function NextOperands(bus: FlatBus): Operands
      reads this, operand, bus
      requires Valid() && AddressingDefined(instr.mode, reg, operand[0], operand[1], bus.cells)
    {
      Addressing(instr.mode, reg, operand[0], operand[1], Latched(), bus.cells)
    }

    /** The source's arithmetic does not overflow for the latched instruction. */
    predicate CanExecute(bus: FlatBus)
      reads this, operand, bus
    {
      && Valid()
      && AddressingDefined(instr.mode, reg, operand[0], operand[1], bus.cells)
      && ExecDefined(instr.instr, reg, NextOperands(bus).value)
    }

    /** The effect of the latched instruction on the current state. */
    function NextEffect(bus: FlatBus): Effect
      reads this, operand, bus
      requires CanExecute(bus)
    {
      Execute(instr, reg, NextOperands(bus), Peek(bus.cells, StackCell(reg.s)))
    }

    /** `handle_adressing_mode`: latches the effective address, the operand
      * value (in `operand[0]`) and the branch offset. */
    method HandleAddressingMode(bus: FlatBus)
      requires Valid() && AddressingDefined(instr.mode, reg, operand[0], operand[1], bus.cells)
      modifies this`addrAbs, this`addrRel, operand
      ensures Latched() == old(NextOperands(bus))
      ensures operand[1] == old(operand[1])
    {
      var r := ComputeAddressing(bus, instr.mode, reg, operand[0], operand[1], Latched());
      addrAbs := r.addr;
      operand[0] := r.value;
      addrRel := r.rel;
    }

    /** The bus reads and the arithmetic of one addressing step. */
    static method ComputeAddressing(bus: FlatBus, mode: OpMode, reg: Regs, op0: Byte, op1: Byte, old_: Operands)
      returns (r: Operands)
      requires AddressingDefined(mode, reg, op0, op1, bus.cells)
      ensures r == Addressing(mode, reg, op0, op1, old_, bus.cells)
    {
      if FromBus(mode) {
        var addr := EffectiveAddress(bus, mode, reg, op0, op1);
        var v := bus.Read(Index(addr));
        r := old_.(addr := addr, value := v);
      } else {
        match mode {
          case ACC => r := old_.(value := reg.a);
          case IMP => r := old_;
          case IMM => r := old_.(value := op0);
          case IND =>
            var addr := IndirectAddress(bus, op0, op1);
            r := old_.(addr := addr, value := op0);
          case REL =>
            r := Relative(reg.pc, op0);
        }
      }
    }

    /** The bus reads of the modes that take their operand from the bus. */
    static method EffectiveAddress(bus: FlatBus, mode: OpMode, reg: Regs, op0: Byte, op1: Byte)
      returns (addr: Word)
      requires FromBus(mode) && AddressingDefined(mode, reg, op0, op1, bus.cells)
      ensures addr == BusAddress(mode, reg, op0, op1, bus.cells)
    {
      match mode {
        case ZP0 => addr := op0 as Word;
        case ZPX => addr := ZeroPageIndexed(op0, reg.x);
        case ZPY => addr := ZeroPageIndexed(op0, reg.y);
        case IZX =>
          var ind := Index(ZeroPageIndexed(op0, reg.x));
          var addr1 := bus.Read(ind);
          var addr2 := bus.Read(ind + 1);
          addr := Word16(addr2, addr1);
        case IZY =>
          var ind := Index(op0 as Word);
          var addr1 := bus.Read(ind);
          var addr2 := bus.Read(ind + 1);
          addr := Indexed(Word16(addr2, addr1), reg.y);
        case ABS => addr := Word16(op0, op1);
        case ABX => addr := Indexed(Word16(op0, op1), reg.x);
        case ABY => addr := Indexed(Word16(op0, op1), reg.y);
      }
    }

    /** The bus reads of indirect addressing, page bug included. */
    static method IndirectAddress(bus: FlatBus, op0: Byte, op1: Byte) returns (addr: Word)
      ensures addr == IndirectTarget(op0, op1, bus.cells)
    {
      var ind := Index(Word16(op0, op1));
      var addr1 := bus.Read(ind);
      var addr2 := bus.Read(ind + 1);
      if op0 == 0xFF {
        addr2 := bus.Read((op1 as nat) * 256);
      }
      addr := Word16(addr2, addr1);
    }

    /** The effect of the latched instruction; the stack byte `top` is only
      * read (and so only known to be `stackByte`) for the pulls and RTS. */
    static method ComputeEffect(info: InstructionInfo, reg: Regs, ops: Operands, top: Byte, ghost stackByte: Byte)
      returns (e: Effect)
      requires ExecDefined(info.instr, reg, ops.value)
      requires ReadsStack(info.instr) ==> top == stackByte
      ensures e == Execute(info, reg, ops, stackByte)
    {
      e := Execute(info, reg, ops, top);
      StackByteIgnoredWhenNotRead(info, reg, ops, top, stackByte);
    }

    /** The bus writes of one instruction, in order. */
    method Commit(bus: FlatBus, writes: seq<(nat, Byte)>)
      modifies bus
      ensures bus.cells == Apply(old(bus.cells), writes)
    {
      for k := 0 to |writes|
        invariant bus.cells == Apply(old(bus.cells), writes[..k])
      {
        assert writes[..k + 1][..k] == writes[..k];
        bus.Write(writes[k].0, writes[k].1);
      }
      assert writes[..|writes|] == writes;
    }

    /** `exec_instr`: addressing, then the instruction's effect on the
      * registers, the bus, the jump flag and the branch cycles. The stack
      * byte is read only by the pulls and RTS. */
    method ExecInstr(bus: FlatBus)
      requires CanExecute(bus)
      modifies this`reg, this`addrAbs, this`addrRel, this`asJump, this`cyclesBranch, operand, bus
      ensures Latched() == old(NextOperands(bus))
      ensures var e := old(NextEffect(bus));
        reg == e.reg && bus.cells == old(Apply(bus.cells, e.writes)) && asJump == e.jump && cyclesBranch == e.cycles
      ensures operand[1] == old(operand[1])
    {
      ghost var stackByte := Peek(bus.cells, StackCell(reg.s));
      HandleAddressingMode(bus);
      var top: Byte := 0;
      if ReadsStack(instr.instr) {
        top := bus.Read(StackCell(reg.s));
      }
      var e := ComputeEffect(instr, reg, Latched(), top, stackByte);
      Commit(bus, e.writes);
      Finish(e);
    }

    /** The register file, the jump flag and the branch cycles an
      * instruction leaves. */
    method Finish(e: Effect)
      requires Valid()
      modifies this`reg, this`asJump, this`cyclesBranch
      ensures reg == e.reg && asJump == e.jump && cyclesBranch == e.cycles
    {
      reg := e.reg;
      asJump := e.jump;
      cyclesBranch := e.cycles;
    }
  }
}
