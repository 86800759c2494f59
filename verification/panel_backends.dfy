// The two backends as objects that draw into the driver's pixel array, each method proved to do
// what module PanelModel says.
module PanelBackends {
  import opened Bytes
  import opened EngineModel
  import opened PanelModel
  import opened ConfigBlob

  const OD_COLOR_SCHEME_MONO: Byte := 0

  // The display driver: pixels and the state machine behind update().
  class Driver {
    const geo: Geometry
    const pixels: array2<bool>
    const rotation: nat
    var phase: Phase
    var launched: nat
    var finished: nat

    ghost predicate Valid()
    {
      pixels.Length0 == geo.height && pixels.Length1 == geo.width
    }

    ghost function Pic(): (p: Picture)
      requires Valid()
      reads pixels
      ensures Fits(p, geo)
      ensures forall x, y | 0 <= x < geo.width && 0 <= y < geo.height :: p[y][x] == pixels[y, x]
    {
      seq(geo.height, y requires 0 <= y < geo.height reads pixels =>
        seq(geo.width, x requires 0 <= x < geo.width reads pixels => pixels[y, x]))
    }

    ghost function View(): Device
      requires Valid()
      reads this, pixels
    {
      Device(geo, Pic(), phase, launched, finished)
    }

    constructor (geo: Geometry, rotation: nat)
      ensures Valid() && fresh(pixels) && this.geo == geo && this.rotation == rotation
      ensures phase == Ready && launched == finished == 0
    {
      this.geo, this.rotation := geo, rotation;
      pixels := new bool[geo.height, geo.width];
      phase, launched, finished := Ready, 0, 0;
    }

    method DrawPixelAt(x: nat, y: nat, white: bool)
      requires Valid() && x < geo.width && y < geo.height
      modifies pixels
      ensures pixels[y, x] == white
      ensures forall i, j | 0 <= i < geo.height && 0 <= j < geo.width && !(i == y && j == x) ::
                pixels[i, j] == old(pixels[i, j])
    {
      pixels[y, x] := white;
    }

    // Returns nothing and rejects re-entry; whether a refresh starts is the driver's affair.
    method DoUpdate() returns (ghost luck: Luck)
      requires Valid()
      modifies this
      ensures View() == Update(old(View()), luck)
    {
      luck := Rejected;
      if phase == Ready {
        if * {
          phase, launched := Working, launched + 1;
          luck := Launches;
        } else if * {
          phase := Broken;
          luck := Breaks;
        }
      }
    }
  }

  // The pixel loop both backends share: one bit per pixel, padding bits skipped.
  method DrawRun(display: Driver, offset: U32, data: seq<Byte>)
    requires display.Valid()
    requires offset + |data| <= FullFrame(display.geo)
    modifies display.pixels
    ensures display.Pic() == Paint(old(display.Pic()), display.geo, offset, data)
  {
    var g := display.geo;
    ghost var before := display.Pic();
    for i := 0 to |data|
      invariant forall x, y | 0 <= x < g.width && 0 <= y < g.height ::
                  display.pixels[y, x] == Painted(g, offset, data[..i], x, y, before[y][x])
    {
      ghost var start := display.Pic();
      var byteIndex := offset + i;
      RowInRange(g, byteIndex);
      var y0, x0 := byteIndex / Stride(g), (byteIndex % Stride(g)) * 8;
      DrawByte(display, data[i], x0, y0);
      forall x, y | 0 <= x < g.width && 0 <= y < g.height
        ensures display.pixels[y, x] == Painted(g, offset, data[..i + 1], x, y, before[y][x])
      {
        assert start[y][x] == Painted(g, offset, data[..i], x, y, before[y][x]);
        PaintOneMore(g, offset, data, i, x, y, before[y][x]);
      }
    }
    assert data[..|data|] == data;
    ghost var after, painted := display.Pic(), Paint(before, g, offset, data);
    assert forall y | 0 <= y < g.height :: after[y] == painted[y];
  }

  // The eight pixels of one byte, as far as the row reaches.
  method DrawByte(display: Driver, bits: Byte, x0: nat, y0: nat)
    requires display.Valid() && y0 < display.geo.height
    modifies display.pixels
    ensures forall x, y | 0 <= x < display.geo.width && 0 <= y < display.geo.height ::
              display.pixels[y, x]
              == if y == y0 && x0 <= x < x0 + 8 then White(bits, x - x0) else old(display.pixels[y, x])
  {
    var g := display.geo;
    var b := 0;
    while b < 8 && x0 + b < g.width
      invariant 0 <= b <= 8
      invariant forall x, y | 0 <= x < g.width && 0 <= y < g.height ::
                  display.pixels[y, x]
                  == if y == y0 && x0 <= x < x0 + b then White(bits, x - x0) else old(display.pixels[y, x])
    {
      display.DrawPixelAt(x0 + b, y0, White(bits, b));
      b := b + 1;
    }
  }

  // Painting one more byte changes exactly the pixels the loop draws for it.
  lemma PaintOneMore(g: Geometry, offset: nat, data: seq<Byte>, i: nat, x: nat, y: nat, before: bool)
    requires i < |data| && x < g.width && Stride(g) > 0
    ensures var k := offset + i;
            var x0 := (k % Stride(g)) * 8;
            Painted(g, offset, data[..i + 1], x, y, before)
            == if y == k / Stride(g) && x0 <= x < x0 + 8 then White(data[i], x - x0)
               else Painted(g, offset, data[..i], x, y, before)
  {
    var k := offset + i;
    PixelsOfByte(g, k, x, y);
    var x0 := (k % Stride(g)) * 8;
    if y == k / Stride(g) && x0 <= x < x0 + 8 {
      assert x % 8 == x - x0;
    }
  }

  class EpaperBackend {
    const display: Driver?
    var caps: DisplayCapabilities
    var rowStride: nat
    var refreshStarted: bool

    // After a successful init().
    ghost predicate Valid()
      reads this
    {
      && display != null && display.Valid()
      && caps.fullFrameBytes == FullFrame(display.geo) && rowStride == Stride(display.geo)
    }

    ghost function View(): Panel
      requires Valid()
      reads this, display, display.pixels
    {
      Epaper(display.View(), caps.colorScheme, refreshStarted)
    }

    constructor (display: Driver?, colorScheme: Byte, panelIcType: U16)
      ensures this.display == display && caps.colorScheme == colorScheme && caps.panelIcType == panelIcType
    {
      this.display := display;
      caps := DisplayCapabilities(0, 0, colorScheme, panelIcType, 0, false, false);
      rowStride, refreshStarted := 0, false;
    }

    // Pre-rotation geometry, mono only; the frame size is derived and cannot wrap.
    method Init() returns (ok: bool)
      requires display != null ==> display.Valid()
      modifies this
      ensures ok <==> display != null && display.phase != Broken && display.rotation == 0
                      && display.geo.width != 0 && display.geo.height != 0
                      && old(caps.colorScheme) == 0
      ensures ok ==> Valid() && caps.fullFrameBytes > 0 && refreshStarted == old(refreshStarted)
                     && caps == DisplayCapabilities(display.geo.width, display.geo.height, OD_COLOR_SCHEME_MONO,
                                                    old(caps.panelIcType),
                                                    (display.geo.width + 7) / 8 * display.geo.height, true, true)
    {
      if display == null {
        return false;
      }
      if display.phase == Broken {
        return false;
      }
      if display.rotation != 0 {
        return false;
      }
      caps := caps.(width := display.geo.width, height := display.geo.height);
      if caps.width == 0 || caps.height == 0 {
        return false;
      }
      if caps.colorScheme != OD_COLOR_SCHEME_MONO {
        return false;
      }
      FullFrameFits(display.geo);
      rowStride := (caps.width + 7) / 8;
      caps := caps.(fullFrameBytes := rowStride * caps.height);
      caps := caps.(supportsDirectWrite := true, supportsPipeWrite := true);
      ok := true;
    }

    method DoBeginFrame(frame: FrameDescriptor) returns (ok: bool)
      requires Valid()
      modifies this
      ensures Valid()
      ensures forall m, u :: (View(), BeginFrame(frame, ok)) == Answer(old(View()), BeginFrame(frame, ok), m, u)
      ensures ok <==> !frame.compressed && !frame.partial && frame.colorScheme == caps.colorScheme
                      && frame.totalBytes == (display.geo.width + 7) / 8 * display.geo.height
      ensures refreshStarted == (old(refreshStarted) && !ok)
    {
      if frame.compressed || frame.partial {
        return false;
      }
      if frame.colorScheme != caps.colorScheme {
        return false;
      }
      if frame.totalBytes != caps.fullFrameBytes {
        return false;
      }
      refreshStarted := false;
      ok := true;
    }

    method DoWriteContiguous(offset: U32, data: seq<Byte>) returns (ok: bool)
      requires Valid()
      modifies display.pixels
      ensures Valid()
      ensures forall m, u :: (View(), WriteContiguous(offset, data, ok))
                             == Answer(old(View()), WriteContiguous(offset, data, ok), m, u)
      ensures ok <==> offset + |data| <= (display.geo.width + 7) / 8 * display.geo.height
    {
      if offset > caps.fullFrameBytes || |data| > caps.fullFrameBytes - offset {
        return false;
      }
      DrawRun(display, offset, data);
      ok := true;
    }

    method DoFinishFrame() returns (ok: bool)
      requires Valid()
      ensures Valid() && ok
    {
      ok := true;
    }

    method DoBeginRefresh(ghost millis: U32) returns (ok: bool, ghost luck: Luck)
      requires Valid()
      modifies this, display
      ensures Valid()
      ensures (View(), BeginRefresh(ok)) == Answer(old(View()), BeginRefresh(ok), millis, luck)
      ensures ok <==> old(display.phase) == Ready && display.phase != Ready
      ensures refreshStarted == ok
    {
      luck := Rejected;
      refreshStarted := false;
      if display.phase != Ready {
        return false, luck;
      }
      luck := display.DoUpdate();
      if display.phase == Ready {
        return false, luck;
      }
      refreshStarted := true;
      ok := true;
    }

    method DoPollRefresh(ghost millis: U32) returns (result: PollResult)
      requires Valid()
      modifies this
      ensures Valid()
      ensures forall u :: (View(), PollRefresh(result)) == Answer(old(View()), PollRefresh(result), millis, u)
      ensures result == if display.phase == Broken then Failed
                        else if old(refreshStarted) && display.phase == Ready then Complete
                        else Pending
      ensures refreshStarted == (old(refreshStarted) && result != Complete)
    {
      if display.phase == Broken {
        return Failed;
      }
      if !refreshStarted {
        return Pending;
      }
      if display.phase != Ready {
        return Pending;
      }
      refreshStarted := false;
      result := Complete;
    }

    method DoAbortTransfer()
      requires Valid()
      modifies this
      ensures Valid()
      ensures forall m, u :: View() == Answer(old(View()), AbortTransfer, m, u).0
      ensures !refreshStarted
    {
      refreshStarted := false;
    }
  }

  class IT8951Backend {
    const display: Driver?
    var caps: DisplayCapabilities
    var rowStride: nat
    var refreshSettleDeadline: U32

    ghost predicate Valid()
      reads this
    {
      && display != null && display.Valid()
      && caps.fullFrameBytes == FullFrame(display.geo) && rowStride == Stride(display.geo)
    }

    ghost function View(): Panel
      requires Valid()
      reads this, display, display.pixels
    {
      It8951(display.View(), caps.colorScheme, refreshSettleDeadline)
    }

    constructor (display: Driver?, colorScheme: Byte, panelIcType: U16)
      ensures this.display == display && caps.colorScheme == colorScheme && caps.panelIcType == panelIcType
    {
      this.display := display;
      caps := DisplayCapabilities(0, 0, colorScheme, panelIcType, 0, false, false);
      rowStride, refreshSettleDeadline := 0, 0;
    }

    method DoBeginFrame(frame: FrameDescriptor) returns (ok: bool)
      requires Valid()
      modifies this
      ensures Valid()
      ensures forall m, u :: (View(), BeginFrame(frame, ok)) == Answer(old(View()), BeginFrame(frame, ok), m, u)
      ensures ok <==> !frame.compressed && !frame.partial && frame.colorScheme == caps.colorScheme
                      && frame.totalBytes == (display.geo.width + 7) / 8 * display.geo.height
      ensures refreshSettleDeadline == (if ok then 0 else old(refreshSettleDeadline))
    {
      if frame.compressed || frame.partial {
        return false;
      }
      if frame.colorScheme != caps.colorScheme {
        return false;
      }
      if frame.totalBytes != caps.fullFrameBytes {
        return false;
      }
      refreshSettleDeadline := 0;
      ok := true;
    }

    method DoWriteContiguous(offset: U32, data: seq<Byte>) returns (ok: bool)
      requires Valid()
      modifies display.pixels
      ensures Valid()
      ensures forall m, u :: (View(), WriteContiguous(offset, data, ok))
                             == Answer(old(View()), WriteContiguous(offset, data, ok), m, u)
      ensures ok <==> offset + |data| <= (display.geo.width + 7) / 8 * display.geo.height
    {
      if offset > caps.fullFrameBytes || |data| > caps.fullFrameBytes - offset {
        return false;
      }
      DrawRun(display, offset, data);
      ok := true;
    }

    // The driver's answer to update() is not looked at.
    method DoBeginRefresh(millis: U32) returns (ok: bool, ghost luck: Luck)
      requires Valid()
      modifies this, display
      ensures Valid()
      ensures (View(), BeginRefresh(ok)) == Answer(old(View()), BeginRefresh(ok), millis, luck)
      ensures ok <==> old(display.phase) == Ready
      ensures refreshSettleDeadline == (if ok then (millis + 5000) % 0x1_0000_0000 else old(refreshSettleDeadline))
    {
      luck := Rejected;
      if display.phase != Ready {
        return false, luck;
      }
      luck := display.DoUpdate();
      refreshSettleDeadline := Add32(millis, IT8951_REFRESH_SETTLE_MS);
      ok := true;
    }

    method DoPollRefresh(millis: U32) returns (result: PollResult)
      requires Valid()
      modifies this
      ensures Valid()
      ensures forall u :: (View(), PollRefresh(result)) == Answer(old(View()), PollRefresh(result), millis, u)
      ensures result == if display.phase == Broken then Failed
                        else if old(refreshSettleDeadline) != 0
                                && (millis - old(refreshSettleDeadline)) % 0x1_0000_0000 < 0x8000_0000 then Complete
                        else Pending
      ensures refreshSettleDeadline == (if result == Complete then 0 else old(refreshSettleDeadline))
    {
      if display.phase == Broken {
        return Failed;
      }
      if refreshSettleDeadline == 0 {
        return Pending;
      }
      if Sub32(millis, refreshSettleDeadline) < 0x8000_0000 {
        refreshSettleDeadline := 0;
        return Complete;
      }
      result := Pending;
    }

    method DoAbortTransfer()
      requires Valid()
      modifies this
      ensures Valid()
      ensures forall m, u :: View() == Answer(old(View()), AbortTransfer, m, u).0
      ensures refreshSettleDeadline == 0
    {
      refreshSettleDeadline := 0;
    }
  }
}
