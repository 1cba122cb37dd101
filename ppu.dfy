/** The picture unit's frame buffer and its dot/scanline counter. */
module Ppu {
  import opened Common
  import opened NesMemory

  const FrameHeightNtsc: nat := 224
  const FrameHeightPal: nat := 240
  const FrameWidth: nat := 256
  /** Dots per scanline: the dot counter runs 0..340. */
  const LastDot: nat := 340
  /** The palette entry every visible dot is painted with. */
  const DotColor: nat := 21

  datatype Color = Color(r: Byte, g: Byte, b: Byte)

  /** `pixels` with the four bytes of pixel `index` set to B, G, R and an
    * opaque alpha. */
  function Painted(pixels: seq<Byte>, index: nat, color: Color): (r: seq<Byte>)
    requires 4 * index + 3 < |pixels|
    ensures |r| == |pixels|
  {
    pixels[..4 * index] + [color.b, color.g, color.r, 255] + pixels[4 * index + 4..]
  }

  /** Painting changes exactly the four bytes of one pixel. */
  lemma {:induction false} PaintedCells(pixels: seq<Byte>, index: nat, color: Color, i: nat)
    requires 4 * index + 3 < |pixels| && i < |pixels|
    ensures Painted(pixels, index, color)[i] ==
      if i == 4 * index then color.b
      else if i == 4 * index + 1 then color.g
      else if i == 4 * index + 2 then color.r
      else if i == 4 * index + 3 then 255
      else pixels[i]
  {
    var head, quad := pixels[..4 * index], [color.b, color.g, color.r, 255];
    assert Painted(pixels, index, color) == (head + quad) + pixels[4 * index + 4..];
    if i >= 4 * index + 4 {
      assert pixels[4 * index + 4..][i - (4 * index + 4)] == pixels[i];
    }
  }

  /** A BGRA pixel buffer of `width * height` pixels. */
  class Frame {
    const width: nat
    const height: nat
    const pixels: array<Byte>

    ghost predicate Valid()
      reads this
    {
      pixels.Length == width * height * 4
    }

    /** An all-zero buffer of `width * height * 4` bytes. */
    constructor (width: nat, height: nat)
      ensures Valid() && fresh(pixels)
      ensures this.width == width && this.height == height
      ensures pixels[..] == Zeros(width * height * 4)
    {
      this.width := width;
      this.height := height;
      pixels := new Byte[width * height * 4](_ => 0);
    }

    /** Paints pixel (x, y); the source indexes the buffer unchecked, so the
      * pixel must lie inside it. */
    method PutPixel(x: nat, y: nat, color: Color)
      requires 4 * (width * y + x) + 3 < pixels.Length
      modifies pixels
      ensures pixels[..] == Painted(old(pixels[..]), width * y + x, color)
    {
      var base := (width * y + x) * 4;
      pixels[base + 3] := 255;
      pixels[base + 2] := color.r;
      pixels[base + 1] := color.g;
      pixels[base + 0] := color.b;
      assert pixels[..] == Painted(old(pixels[..]), width * y + x, color) by {
        forall i | 0 <= i < pixels.Length
          ensures pixels[i] == Painted(old(pixels[..]), width * y + x, color)[i]
        {
          PaintedCells(old(pixels[..]), width * y + x, color, i);
        }
      }
    }
  }

  /** The dot counter one tick later: the last dot wraps to the next scanline. */
  function NextDot(cycle: nat, scanline: nat): (r: (nat, nat))
    ensures cycle < LastDot ==> r == (cycle + 1, scanline)
    ensures cycle == LastDot ==> r == (0, scanline + 1)
  {
    if cycle == LastDot then (0, scanline + 1) else (cycle + 1, scanline)
  }

  /** The dot counter after `t` ticks. */
  function DotsAfter(cycle: nat, scanline: nat, t: nat): (nat, nat)
    decreases t
  {
    if t == 0 then (cycle, scanline)
    else
      var (c, s) := NextDot(cycle, scanline);
      DotsAfter(c, s, t - 1)
  }

  /** The position of a dot counted from the top of the first scanline. */
  function Position(cycle: nat, scanline: nat): nat
  {
    scanline * (LastDot + 1) + cycle
  }

  /** `t` ticks move the counter exactly `t` dots forward and keep it on a
    * real dot. */
  lemma {:induction false} DotsAdvanceByT(cycle: nat, scanline: nat, t: nat)
    requires cycle <= LastDot
    ensures DotsAfter(cycle, scanline, t).0 <= LastDot
    ensures Position(DotsAfter(cycle, scanline, t).0, DotsAfter(cycle, scanline, t).1)
      == Position(cycle, scanline) + t
    decreases t
  {
    if t > 0 {
      var (c, s) := NextDot(cycle, scanline);
      DotsAdvanceByT(c, s, t - 1);
    }
  }

  class PPU {
    var palette: seq<Color>
    const frame: Frame
    const oam: Memory
    const paletteMem: Memory
    var scanlineIndex: nat
    var cycleN: nat

    ghost predicate Valid()
      reads this, frame
    {
      |palette| == 64 && frame.Valid() && frame.width == FrameWidth && cycleN <= LastDot
    }

    /** A black palette, an NTSC-sized blank frame, 256 bytes of OAM, 32
      * bytes of palette memory and the counter on dot 0 of scanline 0. */
    constructor ()
      ensures Valid() && fresh(frame) && fresh(frame.pixels) && fresh(oam) && fresh(paletteMem)
      ensures palette == seq(64, _ => Color(0, 0, 0))
      ensures frame.width == FrameWidth && frame.height == FrameHeightNtsc
      ensures frame.pixels[..] == Zeros(FrameWidth * FrameHeightNtsc * 4)
      ensures oam.data == Zeros(256) && oam.writable
      ensures paletteMem.data == Zeros(32) && paletteMem.writable
      ensures scanlineIndex == 0 && cycleN == 0
    {
      palette := seq(64, _ => Color(0, 0, 0));
      frame := new Frame(FrameWidth, FrameHeightNtsc);
      oam := new Memory.Ram(256);
      paletteMem := new Memory.Ram(32);
      scanlineIndex := 0;
      cycleN := 0;
    }

    /** The counter pair reported to the debugger. */
    method GetCyclesInfo() returns (scanline: nat, cycle: nat)
      ensures (scanline, cycle) == (scanlineIndex, cycleN)
    {
      scanline, cycle := scanlineIndex, cycleN;
    }

    /** Whether the dot at the counter is a visible one that gets painted. */
    static predicate Visible(cycle: nat)
    {
      1 <= cycle <= 256
    }

    /** One dot: paints column `cycleN - 1` of the current scanline on
      * visible dots, then advances the counter. The source indexes the frame
      * unchecked, so a painted dot must lie inside the frame. */
    method Tick() returns (r: bool)
      requires Valid()
      requires Visible(cycleN) ==> 4 * (frame.width * scanlineIndex + cycleN - 1) + 3 < frame.pixels.Length
      modifies this, frame.pixels
      ensures Valid() && palette == old(palette)
      ensures r
      ensures (cycleN, scanlineIndex) == NextDot(old(cycleN), old(scanlineIndex))
      ensures frame.pixels[..] ==
        if Visible(old(cycleN))
        then Painted(old(frame.pixels[..]), frame.width * old(scanlineIndex) + old(cycleN) - 1, palette[DotColor])
        else old(frame.pixels[..])
    {
      if 1 <= cycleN <= 256 {
        frame.PutPixel(cycleN - 1, scanlineIndex, palette[DotColor]);
      }
      if cycleN == LastDot {
        cycleN := 0;
        scanlineIndex := scanlineIndex + 1;
      } else {
        cycleN := cycleN + 1;
      }
      r := true;
    }

    /** `Clock::tick_n`: `t` dots in a row. The source indexes the frame
      * unchecked, so every visible dot of the run must lie inside it. */
    method TickN(t: nat)
      requires Valid()
      requires RunFits(frame.pixels.Length, frame.width, cycleN, scanlineIndex, t)
      modifies this, frame.pixels
      ensures Valid() && palette == old(palette)
      ensures (cycleN, scanlineIndex) == DotsAfter(old(cycleN), old(scanlineIndex), t)
      ensures Position(cycleN, scanlineIndex) == Position(old(cycleN), old(scanlineIndex)) + t
      ensures frame.pixels[..] ==
        FrameAfter(old(frame.pixels[..]), frame.width, old(cycleN), old(scanlineIndex), t, palette[DotColor])
    {
      DotsAdvanceByT(cycleN, scanlineIndex, t);
      var k := 0;
      while k < t
        invariant 0 <= k <= t
        invariant Valid() && palette == old(palette)
        invariant DotsAfter(cycleN, scanlineIndex, t - k) == DotsAfter(old(cycleN), old(scanlineIndex), t)
        invariant Position(cycleN, scanlineIndex) == Position(old(cycleN), old(scanlineIndex)) + k
        invariant RunFits(frame.pixels.Length, frame.width, cycleN, scanlineIndex, t - k)
        invariant FrameAfter(frame.pixels[..], frame.width, cycleN, scanlineIndex, t - k, palette[DotColor])
          == FrameAfter(old(frame.pixels[..]), frame.width, old(cycleN), old(scanlineIndex), t, palette[DotColor])
      {
        var _ := Tick();
        k := k + 1;
      }
    }
  }

  /** Whether every visible dot among the next `t` dots paints a pixel inside
    * a buffer of `len` bytes. */
  predicate RunFits(len: nat, width: nat, cycle: nat, scanline: nat, t: nat)
    decreases t
  {
    t == 0 ||
    ((PPU.Visible(cycle) ==> 4 * (width * scanline + cycle - 1) + 3 < len) &&
     RunFits(len, width, NextDot(cycle, scanline).0, NextDot(cycle, scanline).1, t - 1))
  }

  /** The buffer after `t` dots that paint every visible dot with `color`. */
  function FrameAfter(pixels: seq<Byte>, width: nat, cycle: nat, scanline: nat, t: nat, color: Color): (r: seq<Byte>)
    requires RunFits(|pixels|, width, cycle, scanline, t)
    ensures |r| == |pixels|
    decreases t
  {
    if t == 0 then pixels
    else
      var painted := if PPU.Visible(cycle) then Painted(pixels, width * scanline + cycle - 1, color) else pixels;
      FrameAfter(painted, width, NextDot(cycle, scanline).0, NextDot(cycle, scanline).1, t - 1, color)
  }

  /** Whether one of the next `t` dots paints pixel `j`. */
  predicate PaintsPixel(width: nat, cycle: nat, scanline: nat, t: nat, j: nat)
    decreases t
  {
    t > 0 &&
    ((PPU.Visible(cycle) && width * scanline + cycle - 1 == j) ||
     PaintsPixel(width, NextDot(cycle, scanline).0, NextDot(cycle, scanline).1, t - 1, j))
  }

  /** Byte `b` of a pixel painted with `color`: B, G, R, then opaque alpha. */
  function ColorByte(color: Color, b: nat): Byte
    requires b < 4
  {
    [color.b, color.g, color.r, 255][b]
  }

  /** After a run of dots, a pixel holds the dot colour when some dot of the
    * run painted it, and its old bytes otherwise. */
  lemma {:induction false} FrameAfterCells(pixels: seq<Byte>, width: nat, cycle: nat, scanline: nat, t: nat,
                                           color: Color, j: nat, b: nat)
    requires RunFits(|pixels|, width, cycle, scanline, t)
    requires b < 4 && 4 * j + b < |pixels|
    ensures FrameAfter(pixels, width, cycle, scanline, t, color)[4 * j + b] ==
      if PaintsPixel(width, cycle, scanline, t, j) then ColorByte(color, b) else pixels[4 * j + b]
    decreases t
  {
    if t > 0 {
      var painted := if PPU.Visible(cycle) then Painted(pixels, width * scanline + cycle - 1, color) else pixels;
      var (c, s) := NextDot(cycle, scanline);
      FrameAfterCells(painted, width, c, s, t - 1, color, j, b);
      if PPU.Visible(cycle) {
        PaintedCells(pixels, width * scanline + cycle - 1, color, 4 * j + b);
      }
    }
  }

  /** Within one scanline, the dots `cycle .. cycle + t - 1` paint exactly
    * the pixels of their visible columns on that scanline's row. */
  lemma {:induction false} ScanlineRun(width: nat, cycle: nat, scanline: nat, t: nat, j: nat)
    requires cycle + t <= LastDot + 1
    ensures PaintsPixel(width, cycle, scanline, t, j) <==>
      width * scanline <= j && cycle <= j - width * scanline + 1 < cycle + t && j - width * scanline < 256
    decreases t
  {
    if t > 0 {
      var (c, s) := NextDot(cycle, scanline);
      if t > 1 {
        assert (c, s) == (cycle + 1, scanline);
        ScanlineRun(width, c, s, t - 1, j);
      }
    }
  }

  /** A whole scanline, from dot 0 through dot 340, paints the 256 pixels of
    * its row and leaves every other byte of the frame as it was. */
  lemma FullScanlinePaintsRow(pixels: seq<Byte>, width: nat, scanline: nat, color: Color, j: nat, b: nat)
    requires RunFits(|pixels|, width, 0, scanline, LastDot + 1)
    requires b < 4 && 4 * j + b < |pixels|
    ensures FrameAfter(pixels, width, 0, scanline, LastDot + 1, color)[4 * j + b] ==
      if width * scanline <= j < width * scanline + 256 then ColorByte(color, b) else pixels[4 * j + b]
  {
    FrameAfterCells(pixels, width, 0, scanline, LastDot + 1, color, j, b);
    ScanlineRun(width, 0, scanline, LastDot + 1, j);
  }

  /** A run that ends before the last scanline of a frame at least 256
    * pixels wide paints only inside the buffer. */
  lemma {:induction false} FitsWithinFrame(cycle: nat, scanline: nat, t: nat, width: nat, height: nat)
    requires cycle <= LastDot && width >= 256
    requires Position(cycle, scanline) + t <= height * (LastDot + 1)
    ensures RunFits(width * height * 4, width, cycle, scanline, t)
    decreases t
  {
    if t > 0 {
      InFrame(cycle, scanline, width, height);
      var (c, s) := NextDot(cycle, scanline);
      FitsWithinFrame(c, s, t - 1, width, height);
    }
  }

  /** A dot before the end of the frame lies on a scanline of the frame, so
    * painting it stays inside the buffer. */
  lemma InFrame(cycle: nat, scanline: nat, width: nat, height: nat)
    requires cycle <= LastDot && width >= 256
    requires Position(cycle, scanline) < height * (LastDot + 1)
    ensures PPU.Visible(cycle) ==> 4 * (width * scanline + cycle - 1) + 3 < width * height * 4
  {
    assert scanline < height;
    if PPU.Visible(cycle) {
      assert width * scanline + cycle - 1 < width * (scanline + 1);
      assert width * (scanline + 1) <= width * height;
    }
  }
}
