/** The triangle channel: a timer counting down from the 11-bit period in
  * registers 0x400A/0x400B, and the 32-step sequence its value selects. */
module Triangle {
  import opened Common

  /** `SEQUENCE_LOOKUP_TABLE`: from 15 down to 0, then from 0 up to 15. */
  const Sequence: seq<nat> := [
    15, 14, 13, 12, 11, 10, 9, 8, 7, 6, 5, 4, 3, 2, 1, 0,
    0, 1, 2, 3, 4, 5, 6, 7, 8, 9, 10, 11, 12, 13, 14, 15]

  /** The table's shape: a descending ramp followed by an ascending one, so
    * every entry is a 4-bit volume and step `i` mirrors step `31 - i`. */
  lemma SequenceShape(i: nat)
    requires i < 32
    ensures |Sequence| == 32
    ensures Sequence[i] == if i < 16 then 15 - i else i - 16
    ensures Sequence[i] <= 15
    ensures Sequence[i] == Sequence[31 - i]
  {
  }

  /** The timer period: the low 8 bits from `channelReg[1]` (0x400A) and
    * bits 8-10 from bits 0-2 of `channelReg[2]` (0x400B), as
    * `((reg[2] & 7) << 8) | reg[1]` of the channel's three registers. */
  function Period(channelReg: seq<Byte>): (p: nat)
    requires |channelReg| >= 3
    ensures p <= 0x7FF
    ensures p % 256 == channelReg[1] as nat && p / 256 == (channelReg[2] & 7) as nat
  {
    (channelReg[2] & 7) as nat * 256 + channelReg[1] as nat
  }

  /** The timer after one tick: reload with the period at 0, else count
    * down. */
  function NextTimer(timer: nat, channelReg: seq<Byte>): nat
    requires |channelReg| >= 3
  {
    if timer == 0 then Period(channelReg) else timer - 1
  }

  /** The timer after `n` ticks with the registers held fixed. */
  function TimerAfter(timer: nat, channelReg: seq<Byte>, n: nat): nat
    requires |channelReg| >= 3
    decreases n
  {
    if n == 0 then timer else TimerAfter(NextTimer(timer, channelReg), channelReg, n - 1)
  }

  /** A running timer counts down one per tick. */
  lemma {:induction false} CountsDown(timer: nat, channelReg: seq<Byte>, k: nat)
    requires |channelReg| >= 3 && k <= timer
    ensures TimerAfter(timer, channelReg, k) == timer - k
    decreases k
  {
    if k > 0 {
      CountsDown(timer - 1, channelReg, k - 1);
    }
  }

  /** With the registers fixed, the timer runs with period `Period + 1`: it
    * reaches 0 again `Period + 1` ticks after being 0. */
  lemma TimerPeriodic(channelReg: seq<Byte>)
    requires |channelReg| >= 3
    ensures TimerAfter(0, channelReg, Period(channelReg) + 1) == 0
  {
    var p := Period(channelReg);
    assert TimerAfter(0, channelReg, p + 1) == TimerAfter(p, channelReg, p);
    CountsDown(p, channelReg, p);
  }

  /** `Register`: the triangle's decoded registers and its timer. */
  class TriangleRegister {
    var controlFlag: bool
    var linearCounterLoad: Byte
    var timer: nat
    var lengthCounterLoad: Byte

    /** `Register::new`: everything clear. */
    constructor New()
      ensures !controlFlag && linearCounterLoad == 0 && timer == 0 && lengthCounterLoad == 0
    {
      controlFlag := false;
      linearCounterLoad := 0;
      timer := 0;
      lengthCounterLoad := 0;
    }

    /** `load_from_channel_reg`: register 0 splits into the control flag
      * (bit 7) and the linear counter load (bits 0-6); the top 5 bits of
      * register 2 are the length counter load. The timer is kept. */
    method LoadFromChannelReg(channelReg: seq<Byte>)
      requires |channelReg| >= 3
      modifies this`controlFlag, this`linearCounterLoad, this`lengthCounterLoad
      ensures controlFlag == (channelReg[0] & 0x80 != 0)
      ensures linearCounterLoad == channelReg[0] & 0x7F
      ensures lengthCounterLoad == channelReg[2] >> 3
    {
      controlFlag := channelReg[0] & 0x80 != 0;
      linearCounterLoad := channelReg[0] & 0x7F;
      lengthCounterLoad := channelReg[2] >> 3;
    }
  }

  /** The split of register 0 loses nothing: the control flag and the
    * linear counter load put back together give the register, and the two
    * loads fit their 7 and 5 bits. */
  lemma LoadSplitsRegister(reg0: Byte, reg2: Byte)
    ensures ((if reg0 & 0x80 != 0 then 0x80 else 0) | (reg0 & 0x7F)) == reg0
    ensures reg0 & 0x7F <= 0x7F && reg2 >> 3 <= 31
  {
  }

  /** `Triangle`: the channel, reading its registers from `addrFirstReg`. */
  class Triangle {
    const addrFirstReg: nat
    const reg: TriangleRegister

    /** The timer never holds more than an 11-bit period. */
    predicate Valid()
      reads this, reg
    {
      reg.timer <= 0x7FF
    }

    /** `Triangle::new`. */
    constructor New(addrFirstReg: nat)
      ensures Valid()
      ensures this.addrFirstReg == addrFirstReg && fresh(reg)
      ensures !reg.controlFlag && reg.linearCounterLoad == 0 && reg.timer == 0 && reg.lengthCounterLoad == 0
    {
      this.addrFirstReg := addrFirstReg;
      reg := new TriangleRegister.New();
    }

    /** `handle_channel`, given the channel's registers as read from the
      * APU: loads them, ticks the timer and returns the sequence step the
      * new timer selects. */
    method HandleChannel(channelReg: seq<Byte>) returns (out: nat)
      requires Valid() && |channelReg| >= 3
      modifies reg
      ensures Valid()
      ensures reg.timer == NextTimer(old(reg.timer), channelReg)
      ensures reg.controlFlag == (channelReg[0] & 0x80 != 0)
      ensures reg.linearCounterLoad == channelReg[0] & 0x7F
      ensures reg.lengthCounterLoad == channelReg[2] >> 3
      ensures out == Sequence[reg.timer % 32] && out <= 15
    {
      reg.LoadFromChannelReg(channelReg);
      if reg.timer == 0 {
        reg.timer := Period(channelReg);
      } else {
        reg.timer := reg.timer - 1;
      }
      SequenceShape(reg.timer % 32);
      out := Sequence[reg.timer % 32];
    }
  }
}
