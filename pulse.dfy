/** A pulse channel: a timer counting down from the 11-bit period of its
  * registers 2 and 3, an eight-step duty position that advances on every
  * reload, and the duty table that turns the position into a 0/1 output. */
module Pulse {
  import opened Common

  /** `sequence_lookup_table`: one row of eight steps per duty cycle
    * (12.5%, 25%, 50% and 25% negated). */
  const DutyTable: seq<seq<nat>> := [
    [0, 0, 0, 0, 0, 0, 0, 1],
    [0, 0, 0, 0, 0, 0, 1, 1],
    [0, 0, 0, 0, 1, 1, 1, 1],
    [1, 1, 1, 1, 1, 1, 0, 0]]

  /** The timer period of the four registers, `((reg[3] & 7) << 8) | reg[2]`. */
  function Period(channelReg: seq<Byte>): (p: nat)
    requires |channelReg| >= 4
    ensures p <= 0x7FF
    ensures p % 256 == channelReg[2] as nat && p / 256 == (channelReg[3] & 7) as nat
  {
    (channelReg[3] & 7) as nat * 256 + channelReg[2] as nat
  }

  /** The duty cycle, the top two bits of register 0. */
  function DutyCycle(channelReg: seq<Byte>): (d: nat)
    requires |channelReg| >= 1
    ensures d < 4
  {
    (channelReg[0] >> 6) as nat
  }

  /** The timer after one tick: reload with the period at 0, else count
    * down. */
  function NextTimer(timer: nat, channelReg: seq<Byte>): nat
    requires |channelReg| >= 4
  {
    if timer == 0 then Period(channelReg) else timer - 1
  }

  /** The duty position after one tick: it moves on (modulo 8) only when the
    * timer reloads with a nonzero period. */
  function NextDutyIndex(timer: nat, dutyIndex: nat, channelReg: seq<Byte>): nat
    requires |channelReg| >= 4
  {
    if timer == 0 && Period(channelReg) != 0 then (dutyIndex + 1) % 8 else dutyIndex
  }

  /** The duty position stays in 0..7, and a reload with a nonzero period
    * moves it to the next step of the cycle. */
  lemma DutyIndexCycles(timer: nat, dutyIndex: nat, channelReg: seq<Byte>)
    requires |channelReg| >= 4 && dutyIndex < 8
    ensures NextDutyIndex(timer, dutyIndex, channelReg) < 8
    ensures timer == 0 && Period(channelReg) != 0 ==>
      NextDutyIndex(timer, dutyIndex, channelReg) == if dutyIndex == 7 then 0 else dutyIndex + 1
    ensures timer != 0 || Period(channelReg) == 0 ==> NextDutyIndex(timer, dutyIndex, channelReg) == dutyIndex
  {
  }

  /** The table entry line 53 of pulse.rs looks up: row `dutyIndex % 4`,
    * column `dutyCycle`. */
  function TableOutput(dutyIndex: nat, dutyCycle: nat): (v: nat)
    requires dutyCycle < 4
    ensures v <= 1
  {
    DutyTable[dutyIndex % 4][dutyCycle]
  }

  /** The entry the duty table is laid out for: row `dutyCycle`, step
    * `dutyIndex`. */
  function DutyOutput(dutyIndex: nat, dutyCycle: nat): (v: nat)
    requires dutyIndex < 8 && dutyCycle < 4
    ensures v <= 1
  {
    DutyTable[dutyCycle][dutyIndex]
  }

  /** The number of high steps among the first `n` steps of a duty cycle,
    * looked up as written or as laid out. */
  function HighSteps(dutyCycle: nat, n: nat, asWritten: bool): nat
    requires dutyCycle < 4 && n <= 8
  {
    if n == 0 then 0
    else HighSteps(dutyCycle, n - 1, asWritten) + (if asWritten then TableOutput(n - 1, dutyCycle) else DutyOutput(n - 1, dutyCycle))
  }

  /** As written, the output does not depend on the duty cycle at all: it is
    * high exactly on duty positions 3 and 7, two steps of eight for every
    * setting. */
  lemma TableOutputIgnoresDutyCycle(dutyIndex: nat, dutyCycle: nat)
    requires dutyCycle < 4
    ensures TableOutput(dutyIndex, dutyCycle) == if dutyIndex % 4 == 3 then 1 else 0
  {
  }

  /** Hence the 12.5% setting (duty cycle 0) plays two high steps per cycle
    * instead of one, and the 50% setting two instead of four. */
  lemma TableOutputWrongWidth()
    ensures HighSteps(0, 8, true) == 2 && HighSteps(0, 8, false) == 1
    ensures HighSteps(2, 8, true) == 2 && HighSteps(2, 8, false) == 4
  {
    AsWrittenWidth(0);
    AsWrittenWidth(2);
    DutyOutputWidths();
  }

  /** Every duty cycle, as written, is two steps of eight wide. */
  lemma AsWrittenWidth(dutyCycle: nat)
    requires dutyCycle < 4
    ensures HighSteps(dutyCycle, 8, true) == 2
  {
    assert TableOutput(3, dutyCycle) == 1 && TableOutput(7, dutyCycle) == 1;
    assert TableOutput(0, dutyCycle) == 0 && TableOutput(1, dutyCycle) == 0 && TableOutput(2, dutyCycle) == 0;
    assert TableOutput(4, dutyCycle) == 0 && TableOutput(5, dutyCycle) == 0 && TableOutput(6, dutyCycle) == 0;
  }

  /** Looked up as laid out, each duty cycle has its own width: 1, 2, 4 and
    * 6 high steps out of 8. */
  lemma DutyOutputWidths()
    ensures HighSteps(0, 8, false) == 1
    ensures HighSteps(1, 8, false) == 2
    ensures HighSteps(2, 8, false) == 4
    ensures HighSteps(3, 8, false) == 6
  {
  }

  /** The channel's output for a period, a duty position and a duty cycle,
    * as `(flag, value)`; the 0/1 value stands for the source's `f32`.
    * `lookup` is the table entry for the position and the cycle. */
  function Output(period: nat, lookup: nat): (nat, nat)
  {
    if period >= 8 && lookup != 0 then (1, lookup) else (0, 0)
  }

  /** The output is silent whenever the period is under 8, and otherwise
    * sounds exactly when the table entry is 1. */
  lemma OutputRule(period: nat, lookup: nat)
    requires lookup <= 1
    ensures period < 8 ==> Output(period, lookup) == (0, 0)
    ensures period >= 8 ==> Output(period, lookup) == (lookup, lookup)
  {
  }

  class Pulse {
    const addrFirstReg: nat
    var timer: nat
    var shiftReg: Byte
    var dutyIndex: nat

    /** The timer never holds more than an 11-bit period and the duty
      * position stays in 0..7. */
    predicate Valid()
      reads this
    {
      timer <= 0x7FF && dutyIndex < 8
    }

    /** `Pulse::new`: timer, shift register and duty position zero. */
    constructor New(addrFirstReg: nat)
      ensures Valid()
      ensures this.addrFirstReg == addrFirstReg && timer == 0 && shiftReg == 0 && dutyIndex == 0
    {
      this.addrFirstReg := addrFirstReg;
      timer := 0;
      shiftReg := 0;
      dutyIndex := 0;
    }

    /** `handle_channel`, given the channel's registers as read from the
      * APU: ticks the timer and the duty position and returns the output
      * at the new position; `flag` is set when the channel sounds. The
      * entry is looked up as line 53 writes it (`TableOutput`, row
      * `dutyIndex % 4`, column `dutyCycle`); `DutyOutput` is the lookup the
      * table's layout intends. */
    method HandleChannel(channelReg: seq<Byte>) returns (flag: bool, value: nat)
      requires Valid() && |channelReg| >= 4
      modifies this`timer, this`dutyIndex
      ensures Valid()
      ensures timer == NextTimer(old(timer), channelReg)
      ensures dutyIndex == NextDutyIndex(old(timer), old(dutyIndex), channelReg)
      ensures ((if flag then 1 else 0), value) == Output(Period(channelReg), TableOutput(dutyIndex, DutyCycle(channelReg)))
      ensures flag <==> Period(channelReg) >= 8 && TableOutput(dutyIndex, DutyCycle(channelReg)) != 0
    {
      var dutyCycle := DutyCycle(channelReg);
      var period := Period(channelReg);
      if timer == 0 {
        timer := period;
        if timer != 0 {
          dutyIndex := (dutyIndex + 1) % 8;
        }
      } else {
        timer := timer - 1;
      }
      var lookup := TableOutput(dutyIndex, dutyCycle);
      if period >= 8 {
        if lookup != 0 {
          flag, value := true, lookup;
        } else {
          flag, value := false, 0;
        }
      } else {
        flag, value := false, 0;
      }
    }
  }
}
