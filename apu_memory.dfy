/** The APU's CPU-visible register file: five channel register arrays, the
  * status byte, the frame-counter byte, and the two-tick countdown that
  * clears the frame counter after it is written. */
module ApuMemory {
  import opened Common

  const Pulse1Addr: nat := 0x4000
  const Pulse2Addr: nat := 0x4004
  const TriangleAddr: nat := 0x4008
  const NoiseAddr: nat := 0x400C
  const DmcAddr: nat := 0x4010
  const StatusAddr: Word := 0x4015
  const FrameCounterAddr: Word := 0x4017

  /** Every field of `APUMemory`, as a value. */
  datatype ApuRegs = ApuRegs(
    pulse1: seq<Byte>,
    pulse2: seq<Byte>,
    triangle: seq<Byte>,
    noise: seq<Byte>,
    dmc: seq<Byte>,
    status: Byte,
    frameCounter: Byte,
    writeFcCounter: nat)

  /** The channel arrays have their fixed lengths 4, 4, 3, 3 and 4. */
  predicate WellSized(s: ApuRegs)
  {
    |s.pulse1| == 4 && |s.pulse2| == 4 && |s.triangle| == 3 && |s.noise| == 3 && |s.dmc| == 4
  }

  /** The bits a write to `a` keeps: the noise, DMC, status and frame
    * counter registers drop some, the others store the value whole. */
  function Mask(a: Word): Byte
  {
    if a == 0x400C then 0x3F
    else if a == 0x400E then 0x8F
    else if a == 0x400F then 0xF8
    else if a == 0x4010 then 0xCF
    else if a == 0x4011 then 0x7F
    else if a == 0x4015 then 0x1F
    else if a == 0x4017 then 0xC0
    else 0xFF
  }

  /** Where a register lives: an element of one of the five channel
    * arrays, the status byte, or the frame-counter byte. */
  datatype Place =
    | InPulse1(i: nat) | InPulse2(i: nat) | InTriangle(i: nat) | InNoise(i: nat) | InDmc(i: nat)
    | InStatus | InFrameCounter | Nowhere

  /** The address table of `write`. The triangle has no register at
    * 0x4009 and the noise channel none at 0x400D. */
  function Loc(a: Word): Place
  {
    if a == 0x4000 then InPulse1(0) else if a == 0x4001 then InPulse1(1)
    else if a == 0x4002 then InPulse1(2) else if a == 0x4003 then InPulse1(3)
    else if a == 0x4004 then InPulse2(0) else if a == 0x4005 then InPulse2(1)
    else if a == 0x4006 then InPulse2(2) else if a == 0x4007 then InPulse2(3)
    else if a == 0x4008 then InTriangle(0) else if a == 0x400A then InTriangle(1)
    else if a == 0x400B then InTriangle(2)
    else if a == 0x400C then InNoise(0) else if a == 0x400E then InNoise(1)
    else if a == 0x400F then InNoise(2)
    else if a == 0x4010 then InDmc(0) else if a == 0x4011 then InDmc(1)
    else if a == 0x4012 then InDmc(2) else if a == 0x4013 then InDmc(3)
    else if a == 0x4015 then InStatus
    else if a == 0x4017 then InFrameCounter
    else Nowhere
  }

  /** The address of a place: the inverse of `Loc`. */
  function AddrOf(p: Place): Word
  {
    match p
    case InPulse1(i) => if i == 0 then 0x4000 else if i == 1 then 0x4001 else if i == 2 then 0x4002 else 0x4003
    case InPulse2(i) => if i == 0 then 0x4004 else if i == 1 then 0x4005 else if i == 2 then 0x4006 else 0x4007
    case InTriangle(i) => if i == 0 then 0x4008 else if i == 1 then 0x400A else 0x400B
    case InNoise(i) => if i == 0 then 0x400C else if i == 1 then 0x400E else 0x400F
    case InDmc(i) => if i == 0 then 0x4010 else if i == 1 then 0x4011 else if i == 2 then 0x4012 else 0x4013
    case InStatus => 0x4015
    case InFrameCounter => 0x4017
    case Nowhere => 0
  }

  /** The addresses `write` stores to. */
  predicate Listed(a: Word)
  {
    Loc(a) != Nowhere
  }

  /** `AddrOf` undoes `Loc` on every listed address. */
  lemma LocInverse(a: Word)
    requires Listed(a)
    ensures AddrOf(Loc(a)) == a
  {
  }

  /** Hence no two listed addresses share a register. */
  lemma LocInjective(a: Word, b: Word)
    requires Listed(a) && Listed(b) && Loc(a) == Loc(b)
    ensures a == b
  {
    LocInverse(a);
    LocInverse(b);
  }

  /** `p` is inside the arrays of `s`. */
  predicate Fits(s: ApuRegs, p: Place)
  {
    match p
    case InPulse1(i) => i < |s.pulse1|
    case InPulse2(i) => i < |s.pulse2|
    case InTriangle(i) => i < |s.triangle|
    case InNoise(i) => i < |s.noise|
    case InDmc(i) => i < |s.dmc|
    case _ => true
  }

  /** Every place the table names fits a well-sized state. */
  lemma LocFits(s: ApuRegs, a: Word)
    requires WellSized(s)
    ensures Fits(s, Loc(a))
  {
  }

  /** The register at `p`. */
  function Get(s: ApuRegs, p: Place): Byte
    requires Fits(s, p)
  {
    match p
    case InPulse1(i) => s.pulse1[i]
    case InPulse2(i) => s.pulse2[i]
    case InTriangle(i) => s.triangle[i]
    case InNoise(i) => s.noise[i]
    case InDmc(i) => s.dmc[i]
    case InStatus => s.status
    case InFrameCounter => s.frameCounter
    case Nowhere => 0
  }

  /** `s` with the register at `p` set to `x`. */
  function Put(s: ApuRegs, p: Place, x: Byte): (r: ApuRegs)
    requires Fits(s, p)
    ensures WellSized(s) ==> WellSized(r)
    ensures r.writeFcCounter == s.writeFcCounter
  {
    match p
    case InPulse1(i) => s.(pulse1 := s.pulse1[i := x])
    case InPulse2(i) => s.(pulse2 := s.pulse2[i := x])
    case InTriangle(i) => s.(triangle := s.triangle[i := x])
    case InNoise(i) => s.(noise := s.noise[i := x])
    case InDmc(i) => s.(dmc := s.dmc[i := x])
    case InStatus => s.(status := x)
    case InFrameCounter => s.(frameCounter := x)
    case Nowhere => s
  }

  /** A stored register reads back. */
  lemma GetPut(s: ApuRegs, p: Place, x: Byte)
    requires Fits(s, p) && p != Nowhere
    ensures Get(Put(s, p, x), p) == x
  {
  }

  /** Storing at one place leaves every other place alone. */
  lemma GetPutOther(s: ApuRegs, p: Place, q: Place, x: Byte)
    requires Fits(s, p) && Fits(s, q) && p != q
    ensures Get(Put(s, p, x), q) == Get(s, q)
  {
  }

  /** The register a listed address names, read out of `s`. */
  function Cell(s: ApuRegs, a: Word): Byte
    requires WellSized(s)
  {
    LocFits(s, a);
    Get(s, Loc(a))
  }

  /** The state after a CPU write of `value` to `a` (cut to 16 bits): the
    * register `a` names takes `value & Mask(a)`, and a frame-counter write
    * also starts the two-tick countdown. */
  function AfterWrite(s: ApuRegs, a: Word, value: Byte): (r: ApuRegs)
    requires WellSized(s)
    ensures WellSized(r)
  {
    LocFits(s, a);
    var r := Put(s, Loc(a), value & Mask(a));
    if a == FrameCounterAddr then r.(writeFcCounter := 2) else r
  }

  /** A write to a listed address stores the value under that address's
    * mask. */
  lemma WriteStoresMasked(s: ApuRegs, a: Word, value: Byte)
    requires WellSized(s) && Listed(a)
    ensures Cell(AfterWrite(s, a, value), a) == value & Mask(a)
  {
    LocFits(s, a);
    GetPut(s, Loc(a), value & Mask(a));
  }

  /** It leaves every other listed register as it was. */
  lemma WriteKeepsOthers(s: ApuRegs, a: Word, b: Word, value: Byte)
    requires WellSized(s) && Listed(a) && Listed(b) && a != b
    ensures Cell(AfterWrite(s, a, value), b) == Cell(s, b)
  {
    LocFits(s, a);
    LocFits(s, b);
    if Loc(a) == Loc(b) {
      LocInjective(a, b);
    }
    GetPutOther(s, Loc(a), Loc(b), value & Mask(a));
  }

  /** A write to an unlisted address (such as 0x4009 or 0x400D) changes
    * nothing. */
  lemma UnlistedWriteIgnored(s: ApuRegs, a: Word, value: Byte)
    requires WellSized(s) && !Listed(a)
    ensures AfterWrite(s, a, value) == s
  {
  }

  /** The state after a `tick`: the countdown moves towards 0 and clears
    * the frame counter when it gets there. (The source also computes
    * `frame_counter + 1` and throws it away.) */
  function AfterTick(s: ApuRegs): ApuRegs
  {
    if s.writeFcCounter > 0 then
      var c := s.writeFcCounter - 1;
      s.(writeFcCounter := c, frameCounter := if c == 0 then 0 else s.frameCounter)
    else s
  }

  /** After a frame-counter write the masked value survives one tick and the
    * second tick clears it. */
  lemma FrameCounterClears(s: ApuRegs, value: Byte)
    requires WellSized(s)
    ensures AfterTick(AfterWrite(s, FrameCounterAddr, value)).frameCounter == value & 0xC0
    ensures AfterTick(AfterTick(AfterWrite(s, FrameCounterAddr, value))).frameCounter == 0
  {
  }

  /** Except on the tick that ends the countdown, `tick` never changes the
    * frame counter, and it never changes anything but the countdown and the
    * frame counter. */
  lemma TickKeepsFrameCounter(s: ApuRegs)
    requires s.writeFcCounter != 1
    ensures AfterTick(s).frameCounter == s.frameCounter
    ensures AfterTick(s).(writeFcCounter := s.writeFcCounter) == s
  {
  }

  /** `get_channel_reg`: the register array of the channel whose first
    * register is `addr`, or `[0]`. */
  function ChannelReg(s: ApuRegs, addr: nat): (r: seq<Byte>)
    ensures WellSized(s) ==> |r| == ChannelLen(addr)
  {
    if addr == Pulse1Addr then s.pulse1
    else if addr == Pulse2Addr then s.pulse2
    else if addr == TriangleAddr then s.triangle
    else if addr == NoiseAddr then s.noise
    else if addr == DmcAddr then s.dmc
    else [0]
  }

  /** The length of the array `get_channel_reg(addr)` returns. */
  function ChannelLen(addr: nat): nat
  {
    if addr == Pulse1Addr || addr == Pulse2Addr || addr == DmcAddr then 4
    else if addr == TriangleAddr || addr == NoiseAddr then 3
    else 1
  }

  /** A channel's first register address. */
  predicate IsChannel(addr: nat)
  {
    addr == Pulse1Addr || addr == Pulse2Addr || addr == TriangleAddr || addr == NoiseAddr || addr == DmcAddr
  }

  /** The state after `set_channel_reg(addr, n, value)`. */
  function SetChannel(s: ApuRegs, addr: nat, n: nat, value: Byte): (r: ApuRegs)
    requires WellSized(s) && (IsChannel(addr) ==> n < ChannelLen(addr))
    ensures WellSized(r)
  {
    if addr == Pulse1Addr then s.(pulse1 := s.pulse1[n := value])
    else if addr == Pulse2Addr then s.(pulse2 := s.pulse2[n := value])
    else if addr == TriangleAddr then s.(triangle := s.triangle[n := value])
    else if addr == NoiseAddr then s.(noise := s.noise[n := value])
    else if addr == DmcAddr then s.(dmc := s.dmc[n := value])
    else s
  }

  /** `set_channel_reg` changes only the addressed element: the addressed
    * channel reads back with element `n` replaced, every other channel,
    * the status and the frame counter are left alone. */
  lemma SetChannelOnly(s: ApuRegs, addr: nat, other: nat, n: nat, value: Byte)
    requires WellSized(s) && IsChannel(addr) && n < ChannelLen(addr)
    requires IsChannel(other) && other != addr
    ensures ChannelReg(SetChannel(s, addr, n, value), addr) == ChannelReg(s, addr)[n := value]
    ensures ChannelReg(SetChannel(s, addr, n, value), other) == ChannelReg(s, other)
    ensures SetChannel(s, addr, n, value).status == s.status
    ensures SetChannel(s, addr, n, value).frameCounter == s.frameCounter
    ensures SetChannel(s, addr, n, value).writeFcCounter == s.writeFcCounter
  {
  }

  /** Writes through `set_channel_reg` and through `write` agree: storing a
    * raw pulse register by either route gives the same state. */
  lemma SetChannelMatchesWrite(s: ApuRegs, n: nat, value: Byte)
    requires WellSized(s) && n < 4
    ensures SetChannel(s, Pulse1Addr, n, value) == AfterWrite(s, AddrOf(InPulse1(n)), value)
  {
    var a := AddrOf(InPulse1(n));
    assert Loc(a) == InPulse1(n) && Mask(a) == 0xFF;
    assert value & 0xFF == value;
  }

  /** The byte `read(addr)` returns. */
  function ReadValue(s: ApuRegs, addr: nat): Byte
  {
    if addr == 0x4015 then s.status else 0
  }

  /** Reading the status register returns what was written there, under
    * its mask. */
  lemma StatusReadBack(s: ApuRegs, value: Byte)
    requires WellSized(s)
    ensures ReadValue(AfterWrite(s, StatusAddr, value), 0x4015) == value & 0x1F
  {
  }

  class APUMemory {
    const pulse1: array<Byte>
    const pulse2: array<Byte>
    const triangle: array<Byte>
    const noise: array<Byte>
    const dmc: array<Byte>
    var status: Byte
    var frameCounter: Byte
    var writeFcCounter: nat

    /** The five arrays are distinct and have their fixed lengths. */
    predicate Valid()
      reads this
    {
      pulse1.Length == 4 && pulse2.Length == 4 && triangle.Length == 3 && noise.Length == 3 && dmc.Length == 4 &&
      pulse1 != pulse2 && pulse1 != triangle && pulse1 != noise && pulse1 != dmc &&
      pulse2 != triangle && pulse2 != noise && pulse2 != dmc &&
      triangle != noise && triangle != dmc && noise != dmc
    }

    /** The whole state as a value. */
    function State(): (s: ApuRegs)
      reads this, pulse1, pulse2, triangle, noise, dmc
      ensures Valid() ==> WellSized(s)
    {
      ApuRegs(pulse1[..], pulse2[..], triangle[..], noise[..], dmc[..], status, frameCounter, writeFcCounter)
    }

    /** `APUMemory::new`: every register and the countdown zero. */
    constructor New()
      ensures Valid()
      ensures fresh(pulse1) && fresh(pulse2) && fresh(triangle) && fresh(noise) && fresh(dmc)
      ensures State() == ApuRegs([0, 0, 0, 0], [0, 0, 0, 0], [0, 0, 0], [0, 0, 0], [0, 0, 0, 0], 0, 0, 0)
    {
      pulse1 := new Byte[4](_ => 0);
      pulse2 := new Byte[4](_ => 0);
      triangle := new Byte[3](_ => 0);
      noise := new Byte[3](_ => 0);
      dmc := new Byte[4](_ => 0);
      status := 0;
      frameCounter := 0;
      writeFcCounter := 0;
      new;
      assert pulse1[..] == [0, 0, 0, 0] && pulse2[..] == [0, 0, 0, 0] && dmc[..] == [0, 0, 0, 0];
      assert triangle[..] == [0, 0, 0] && noise[..] == [0, 0, 0];
    }

    /** `tick`: always reports false. */
    method Tick() returns (r: bool)
      requires Valid()
      modifies this`writeFcCounter, this`frameCounter
      ensures State() == AfterTick(old(State()))
      ensures !r
    {
      if writeFcCounter > 0 {
        writeFcCounter := writeFcCounter - 1;
        if writeFcCounter == 0 {
          frameCounter := 0;
        }
      }
      r := false;
    }

    /** `get_channel_reg`. */
    method GetChannelReg(addr: nat) returns (r: seq<Byte>)
      requires Valid()
      ensures r == ChannelReg(State(), addr)
      ensures |r| == ChannelLen(addr)
    {
      if addr == Pulse1Addr {
        r := pulse1[..];
      } else if addr == Pulse2Addr {
        r := pulse2[..];
      } else if addr == TriangleAddr {
        r := triangle[..];
      } else if addr == NoiseAddr {
        r := noise[..];
      } else if addr == DmcAddr {
        r := dmc[..];
      } else {
        r := [0];
      }
    }

    /** `set_channel_reg`; `n` must index the addressed array. */
    method SetChannelReg(addr: nat, n: nat, value: Byte)
      requires Valid() && (IsChannel(addr) ==> n < ChannelLen(addr))
      modifies pulse1, pulse2, triangle, noise, dmc
      ensures State() == SetChannel(old(State()), addr, n, value)
    {
      if addr == Pulse1Addr {
        pulse1[n] := value;
      } else if addr == Pulse2Addr {
        pulse2[n] := value;
      } else if addr == TriangleAddr {
        triangle[n] := value;
      } else if addr == NoiseAddr {
        noise[n] := value;
      } else if addr == DmcAddr {
        dmc[n] := value;
      }
    }

    /** `read`: the status at 0x4015, 0 elsewhere. */
    method Read(addr: nat) returns (v: Byte)
      ensures v == ReadValue(State(), addr)
    {
      if addr == 0x4015 {
        v := status;
      } else {
        v := 0;
      }
    }

    /** `write`, decoded on the address cut to 16 bits. */
    method Write(addr: nat, value: Byte)
      requires Valid()
      modifies this`status, this`frameCounter, this`writeFcCounter, pulse1, pulse2, triangle, noise, dmc
      ensures State() == AfterWrite(old(State()), Cut(addr), value)
    {
      var a := Cut(addr);
      if 0x4000 <= a <= 0x4007 {
        WritePulse(a, value);
      } else if 0x4008 <= a <= 0x400F {
        WriteTriangleNoise(a, value);
      } else if 0x4010 <= a <= 0x4013 {
        WriteDmc(a, value);
      } else if a == 0x4015 {
        status := value & 0x1F;
      } else if a == 0x4017 {
        frameCounter := value & 0xC0;
        writeFcCounter := 2;
      }
    }

    method WritePulse(a: Word, value: Byte)
      requires Valid() && 0x4000 <= a <= 0x4007
      modifies pulse1, pulse2
      ensures State() == AfterWrite(old(State()), a, value)
    {
      if a == 0x4000 {
        pulse1[0] := value;
      } else if a == 0x4001 {
        pulse1[1] := value;
      } else if a == 0x4002 {
        pulse1[2] := value;
      } else if a == 0x4003 {
        pulse1[3] := value;
      } else if a == 0x4004 {
        pulse2[0] := value;
      } else if a == 0x4005 {
        pulse2[1] := value;
      } else if a == 0x4006 {
        pulse2[2] := value;
      } else {
        pulse2[3] := value;
      }
    }

    method WriteTriangleNoise(a: Word, value: Byte)
      requires Valid() && 0x4008 <= a <= 0x400F
      modifies triangle, noise
      ensures State() == AfterWrite(old(State()), a, value)
    {
      if a == 0x4008 {
        triangle[0] := value;
      } else if a == 0x400A {
        triangle[1] := value;
      } else if a == 0x400B {
        triangle[2] := value;
      } else if a == 0x400C {
        noise[0] := value & 0x3F;
      } else if a == 0x400E {
        noise[1] := value & 0x8F;
      } else if a == 0x400F {
        noise[2] := value & 0xF8;
      }
    }

    method WriteDmc(a: Word, value: Byte)
      requires Valid() && 0x4010 <= a <= 0x4013
      modifies dmc
      ensures State() == AfterWrite(old(State()), a, value)
    {
      if a == 0x4010 {
        dmc[0] := value & 0xCF;
      } else if a == 0x4011 {
        dmc[1] := value & 0x7F;
      } else if a == 0x4012 {
        dmc[2] := value;
      } else {
        dmc[3] := value;
      }
    }
  }
}
