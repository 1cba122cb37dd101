/** The standard NES controller on port 0x4016 or 0x4017: eight button
  * states, shifted out one per read in the order A, B, Select, Start, Up,
  * Down, Left, Right, with a strobe that holds the shift at button A. */
module Controller {
  /** The button states read from the host pad: A, B, Start, Select and the
    * D-pad as (Up, Down, Left, Right). */
  datatype Buttons = Buttons(a: bool, b: bool, start: bool, select: bool, dpad: (bool, bool, bool, bool))

  /** The D-pad after `update`'s filtering: unless opposite directions are
    * allowed, Up wins over Down and Right over Left. */
  function FilterDpad(dpad: (bool, bool, bool, bool), oppositeDpad: bool): (r: (bool, bool, bool, bool))
    ensures !oppositeDpad ==> !(r.1 && r.0) && !(r.2 && r.3)
    ensures r.0 == dpad.0 && r.3 == dpad.3
    ensures r.1 == (dpad.1 && (oppositeDpad || !dpad.0))
    ensures r.2 == (dpad.2 && (oppositeDpad || !dpad.3))
  {
    var down := if !oppositeDpad && dpad.0 && dpad.1 then false else dpad.1;
    var left := if !oppositeDpad && dpad.2 && dpad.3 then false else dpad.2;
    (dpad.0, down, left, dpad.3)
  }

  /** Filtering twice is filtering once. */
  lemma FilterIdempotent(dpad: (bool, bool, bool, bool), oppositeDpad: bool)
    ensures FilterDpad(FilterDpad(dpad, oppositeDpad), oppositeDpad) == FilterDpad(dpad, oppositeDpad)
  {
  }

  /** The bit the serial port reports for report number `count`: the eight
    * buttons in order, then 1. */
  function ReportBit(bt: Buttons, count: nat): bool
  {
    if count == 0 then bt.a
    else if count == 1 then bt.b
    else if count == 2 then bt.select
    else if count == 3 then bt.start
    else if count == 4 then bt.dpad.0
    else if count == 5 then bt.dpad.1
    else if count == 6 then bt.dpad.2
    else if count == 7 then bt.dpad.3
    else true
  }

  /** The report sequence as a table: the buttons in the serial order. */
  function SerialOrder(bt: Buttons): (s: seq<bool>)
    ensures |s| == 8
  {
    [bt.a, bt.b, bt.select, bt.start, bt.dpad.0, bt.dpad.1, bt.dpad.2, bt.dpad.3]
  }

  /** The state the serial port depends on. */
  datatype Port = Port(buttons: Buttons, count: nat, strobe: bool)

  /** One `port_report`: the new port state and the reported bit. */
  function Report(p: Port): (Port, nat)
  {
    var c := if p.strobe then 0 else p.count;
    (p.(count := c + 1), if ReportBit(p.buttons, c) then 1 else 0)
  }

  /** The bits of `n` reports in a row. */
  function Reports(p: Port, n: nat): seq<nat>
    decreases n
  {
    if n == 0 then [] else [Report(p).1] + Reports(Report(p).0, n - 1)
  }

  /** The count after `n` reports in a row without strobe. */
  lemma {:induction false} ReportsCount(p: Port, n: nat, k: nat)
    requires !p.strobe && k <= n
    ensures |Reports(p, n)| == n
    ensures k < n ==> Reports(p, n)[k] == if ReportBit(p.buttons, p.count + k) then 1 else 0
    decreases n
  {
    if n > 0 {
      ReportsCount(Report(p).0, n - 1, if k == 0 then 0 else k - 1);
    }
  }

  /** With the strobe clear and the count reset (as `update` leaves it),
    * the next eight reads report the buttons in serial order, and every
    * read after those reports 1. */
  lemma SerialShiftOut(bt: Buttons, n: nat, k: nat)
    requires k < n
    ensures |Reports(Port(bt, 0, false), n)| == n
    ensures k < 8 ==> Reports(Port(bt, 0, false), n)[k] == if SerialOrder(bt)[k] then 1 else 0
    ensures k >= 8 ==> Reports(Port(bt, 0, false), n)[k] == 1
  {
    ReportsCount(Port(bt, 0, false), n, k);
  }

  /** With the strobe set, every read reports button A. */
  lemma {:induction false} StrobeRepeatsA(p: Port, n: nat, k: nat)
    requires p.strobe && k < n
    ensures |Reports(p, n)| == n
    ensures Reports(p, n)[k] == if p.buttons.a then 1 else 0
    decreases n
  {
    if k > 0 {
      StrobeRepeatsA(Report(p).0, n - 1, k - 1);
    } else if n > 1 {
      StrobeRepeatsA(Report(p).0, n - 1, 0);
    }
  }

  /** The port address: 0x4016 for even ports, 0x4017 for odd ones. */
  function PortAddr(port: nat): (a: nat)
    ensures a == 0x4016 <==> port % 2 == 0
    ensures a == 0x4016 || a == 0x4017
  {
    if port % 2 == 0 then 0x4016 else 0x4017
  }

  class NesController {
    var a: bool
    var b: bool
    var start: bool
    var select: bool
    var dpad: (bool, bool, bool, bool)
    var oppositeDpad: bool
    const port: nat
    var reportCount: nat
    var strobe: bool

    /** The serial port state as a value. */
    function PortState(): Port
      reads this
    {
      Port(Buttons(a, b, start, select, dpad), reportCount, strobe)
    }

    /** `report_count` is a `u8`: at most 255. */
    predicate Valid()
      reads this
    {
      reportCount <= 255
    }

    /** `NesController::new`: no button pressed, opposite directions
      * filtered, count 0 and strobe clear. */
    constructor New(port: nat)
      ensures Valid() && this.port == port
      ensures PortState() == Port(Buttons(false, false, false, false, (false, false, false, false)), 0, false)
      ensures !oppositeDpad
    {
      a, b, start, select := false, false, false, false;
      dpad := (false, false, false, false);
      oppositeDpad := false;
      this.port := port;
      reportCount := 0;
      strobe := false;
    }

    /** `set_opposite_dpad`. */
    method SetOppositeDpad(v: bool)
      modifies this`oppositeDpad
      ensures oppositeDpad == v
    {
      oppositeDpad := v;
    }

    /** `dpad_active`: whether any D-pad direction is pressed. */
    function DpadActive(): (r: bool)
      reads this
      ensures r <==> dpad.0 || dpad.1 || dpad.2 || dpad.3
      ensures !r ==> dpad == (false, false, false, false)
    {
      if dpad.0 || dpad.1 || dpad.2 || dpad.3 then true else false
    }

    /** `set_strobe`. */
    method SetStrobe(value: bool)
      modifies this`strobe
      ensures strobe == value
    {
      strobe := value;
    }

    /** `port_report`: the bit for the current count (reset to 0 first while
      * the strobe is set), then one more report counted. The `u8` count
      * must not pass 255. */
    method PortReport() returns (r: nat)
      requires Valid() && (strobe || reportCount < 255)
      modifies this`reportCount
      ensures Valid()
      ensures (PortState(), r) == Report(old(PortState()))
      ensures r == if ReportBit(Buttons(a, b, start, select, dpad), old(if strobe then 0 else reportCount)) then 1 else 0
    {
      if strobe {
        reportCount := 0;
      }
      var report;
      if reportCount == 0 {
        report := a;
      } else if reportCount == 1 {
        report := b;
      } else if reportCount == 2 {
        report := select;
      } else if reportCount == 3 {
        report := start;
      } else if reportCount == 4 {
        report := dpad.0;
      } else if reportCount == 5 {
        report := dpad.1;
      } else if reportCount == 6 {
        report := dpad.2;
      } else if reportCount == 7 {
        report := dpad.3;
      } else {
        report := true;
      }
      reportCount := reportCount + 1;
      r := if report then 1 else 0;
    }

    /** `read`: a read of this controller's port address reports the next
      * bit; any other address reads 0 and changes nothing. */
    method Read(addr: nat) returns (r: nat)
      requires Valid() && (addr == PortAddr(port) ==> strobe || reportCount < 255)
      modifies this`reportCount
      ensures Valid()
      ensures addr == PortAddr(port) ==> (PortState(), r) == Report(old(PortState()))
      ensures addr != PortAddr(port) ==> r == 0 && reportCount == old(reportCount)
    {
      var portAddr := if port % 2 == 0 then 0x4016 else 0x4017;
      if addr == portAddr {
        r := PortReport();
      } else {
        r := 0;
      }
    }

    /** `write`: a write to 0x4016 sets the strobe to bit 0 of the value;
      * other addresses are ignored. */
    method Write(addr: nat, value: bv8)
      modifies this`strobe
      ensures strobe == if addr == 0x4016 then value & 1 == 1 else old(strobe)
    {
      if addr == 0x4016 {
        SetStrobe(if value & 1 == 1 then true else false);
      }
    }

    /** `update`, with the host pad's button states as `input`: stores
      * them, filters opposite D-pad directions unless allowed, and restarts
      * the report count. */
    method Update(input: Buttons)
      modifies this`a, this`b, this`start, this`select, this`dpad, this`reportCount
      ensures Valid()
      ensures a == input.a && b == input.b && start == input.start && select == input.select
      ensures dpad == FilterDpad(input.dpad, oppositeDpad)
      ensures reportCount == 0
    {
      a := input.a;
      b := input.b;
      start := input.start;
      select := input.select;
      dpad := input.dpad;
      if oppositeDpad == false {
        if dpad.0 && dpad.1 {
          dpad := (dpad.0, false, dpad.2, dpad.3);
        }
        if dpad.2 && dpad.3 {
          dpad := (dpad.0, dpad.1, false, dpad.3);
        }
      }
      reportCount := 0;
    }
  }
}
