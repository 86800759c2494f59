// The two concrete backends over a small display driver: a pixel array and a state machine
// that is ready, busy with a refresh, or broken.
module PanelModel {
  import opened Bytes
  import opened EngineModel

  // --- Geometry and pixels ---------------------------------------------------------------

  datatype Geometry = Geometry(width: U16, height: U16)

  // 1 bit per pixel, rows padded to whole bytes.
  function Stride(g: Geometry): nat {
    (g.width + 7) / 8
  }

  function FullFrame(g: Geometry): nat {
    Stride(g) * g.height
  }

  // Where a pixel's bit lives in the wire image.
  function ByteIndex(g: Geometry, x: nat, y: nat): nat {
    y * Stride(g) + x / 8
  }

  // bits & (0x80 >> b): the most significant bit is the leftmost pixel.
  predicate White(bits: Byte, b: nat)
    requires b < 8
  {
    Bit(bits, 7 - b)
  }

  lemma FullFrameFits(g: Geometry)
    ensures FullFrame(g) < TWO_TO_32
    ensures 0 < g.width && 0 < g.height ==> 0 < FullFrame(g)
  {
    var s := Stride(g);
    assert s <= 8192;
    assert s * g.height <= 8192 * 65535 by {
      MulMonotone(s, 8192, g.height, 65535);
    }
    if 0 < g.width && 0 < g.height {
      MulMonotone(1, s, 1, g.height);
    }
  }

  lemma MulMonotone(a: nat, b: nat, c: nat, d: nat)
    requires a <= b && c <= d
    ensures a * c <= b * d
  {
    assert b * d - a * c == b * (d - c) + (b - a) * c;
  }

  // The loop's y = k / stride, x0 = (k % stride) * 8 name the pixels whose byte index is k.
  lemma PixelsOfByte(g: Geometry, k: nat, x: nat, y: nat)
    requires Stride(g) > 0 && x < g.width
    ensures ByteIndex(g, x, y) == k
       <==> y == k / Stride(g) && (k % Stride(g)) * 8 <= x < (k % Stride(g)) * 8 + 8
  {
    var s := Stride(g);
    assert x / 8 < s;
    var q, r := k / s, k % s;
    assert k == q * s + r && 0 <= r < s;
    if ByteIndex(g, x, y) == k {
      SameQuotient(s, y, x / 8, q, r);
    }
  }

  lemma SameQuotient(s: nat, a: nat, b: nat, c: nat, d: nat)
    requires b < s && d < s && a * s + b == c * s + d
    ensures a == c && b == d
  {
    assert (a + 1) * s == a * s + s && (c + 1) * s == c * s + s;
    if a < c {
      MulMonotone(a + 1, c, s, s);
      assert false;
    } else if c < a {
      MulMonotone(c + 1, a, s, s);
      assert false;
    }
  }

  lemma RowInRange(g: Geometry, k: nat)
    requires k < FullFrame(g)
    ensures Stride(g) > 0 && k / Stride(g) < g.height
  {
    var s := Stride(g);
    assert s > 0;
    assert k == (k / s) * s + k % s;
    if k / s >= g.height {
      MulMonotone(g.height, k / s, s, s);
      assert false;
    }
  }

  lemma ByteInFrame(g: Geometry, x: nat, y: nat)
    requires x < g.width && y < g.height
    ensures ByteIndex(g, x, y) < FullFrame(g)
  {
    MulMonotone(y + 1, g.height, Stride(g), Stride(g));
    assert (y + 1) * Stride(g) == y * Stride(g) + Stride(g);
  }

  // Rows are padded to whole bytes and no further.
  lemma RowsPadded(g: Geometry)
    ensures g.width > 0 ==> 8 * Stride(g) - 8 < g.width <= 8 * Stride(g)
    ensures g.width == 0 ==> FullFrame(g) == 0
  {
  }

  // Every byte of a frame carries a pixel.
  lemma EveryByteShows(g: Geometry, k: nat) returns (x: nat, y: nat)
    requires k < FullFrame(g)
    ensures x < g.width && y < g.height && y * ((g.width + 7) / 8) + x / 8 == k && x % 8 == 0
  {
    RowInRange(g, k);
    x, y := (k % Stride(g)) * 8, k / Stride(g);
    RowsPadded(g);
    PixelsOfByte(g, k, x, y);
  }

  // And every pixel a bit of its own, of a byte of the frame.
  lemma PixelsApart(g: Geometry, x: nat, y: nat, x': nat, y': nat)
    requires x < g.width && y < g.height && x' < g.width && y' < g.height
    ensures y * ((g.width + 7) / 8) + x / 8 < FullFrame(g)
    ensures y * ((g.width + 7) / 8) + x / 8 == y' * ((g.width + 7) / 8) + x' / 8 && x % 8 == x' % 8 ==>
              x == x' && y == y'
  {
    ByteInFrame(g, x, y);
    var k := ByteIndex(g, x, y);
    PixelsOfByte(g, k, x, y);
    PixelsOfByte(g, k, x', y');
  }

  // What one pixel is after writing `data` at byte `offset` of the frame.
  predicate Painted(g: Geometry, offset: nat, data: seq<Byte>, x: nat, y: nat, before: bool) {
    var k := ByteIndex(g, x, y);
    if offset <= k < offset + |data| then White(data[k - offset], x % 8) else before
  }

  // Rows of pixels, true for white.
  type Picture = seq<seq<bool>>

  predicate Fits(pic: Picture, g: Geometry) {
    |pic| == g.height && forall y | 0 <= y < |pic| :: |pic[y]| == g.width
  }

  function Paint(pic: Picture, g: Geometry, offset: nat, data: seq<Byte>): (r: Picture)
    requires Fits(pic, g)
    ensures Fits(r, g)
    ensures forall x, y | 0 <= x < g.width && 0 <= y < g.height ::
              r[y][x] == Painted(g, offset, data, x, y, pic[y][x])
  {
    seq(g.height, y requires 0 <= y < g.height =>
      seq(g.width, x requires 0 <= x < g.width => Painted(g, offset, data, x, y, pic[y][x])))
  }

  // --- The driver ---------------------------------------------------------------------------

  datatype Phase = Ready | Working | Broken

  // What an accepted update() call does.
  datatype Luck = Launches | Rejected | Breaks

  // Refreshes are numbered as they are launched; those up to `finished` have completed.
  datatype Device = Device(geo: Geometry, pic: Picture, phase: Phase, launched: nat, finished: nat)

  function Update(d: Device, luck: Luck): Device {
    if d.phase != Ready then d
    else
      match luck
      case Launches => d.(phase := Working, launched := d.launched + 1)
      case Rejected => d
      case Breaks => d.(phase := Broken)
  }

  // --- The backends --------------------------------------------------------------------------

  const IT8951_REFRESH_SETTLE_MS := 5000

  datatype Panel =
    | Epaper(dev: Device, scheme: Byte, started: bool)
    | It8951(dev: Device, scheme: Byte, settle: U32)

  predicate Armed(p: Panel) {
    match p
    case Epaper(_, _, started) => started
    case It8951(_, _, settle) => settle != 0
  }

  function Disarm(p: Panel): Panel {
    match p
    case Epaper(_, _, _) => p.(started := false)
    case It8951(_, _, _) => p.(settle := 0)
  }

  function WithDevice(p: Panel, d: Device): Panel {
    match p
    case Epaper(_, _, _) => p.(dev := d)
    case It8951(_, _, _) => p.(dev := d)
  }

  predicate AcceptsFrame(p: Panel, f: FrameDescriptor) {
    !f.compressed && !f.partial && f.colorScheme == p.scheme && f.totalBytes == FullFrame(p.dev.geo)
  }

  predicate AcceptsWrite(p: Panel, offset: nat, length: nat) {
    offset <= FullFrame(p.dev.geo) && length <= FullFrame(p.dev.geo) - offset
  }

  // begin_refresh(): the new backend and whether it accepted.
  function Launch(p: Panel, millis: U32, luck: Luck): (Panel, bool) {
    match p
    case Epaper(d, _, _) =>
      var q := p.(started := false);
      if d.phase != Ready then (q, false)
      else
        var d' := Update(d, luck);
        if d'.phase == Ready then (q.(dev := d'), false) else (q.(dev := d', started := true), true)
    case It8951(d, _, _) =>
      if d.phase != Ready then (p, false)
      else (p.(dev := Update(d, luck), settle := Add32(millis, IT8951_REFRESH_SETTLE_MS)), true)
  }

  function Poll(p: Panel, millis: U32): (Panel, PollResult) {
    if p.dev.phase == Broken then (p, Failed)
    else if !Armed(p) then (p, Pending)
    else
      match p
      case Epaper(d, _, _) => if d.phase != Ready then (p, Pending) else (Disarm(p), Complete)
      case It8951(_, _, settle) =>
        if Sub32(millis, settle) < 0x8000_0000 then (Disarm(p), Complete) else (p, Pending)
  }

  predicate PanelOk(p: Panel) {
    Fits(p.dev.pic, p.dev.geo)
  }

  // The backend after a call, and the same call carrying the answer this backend gives.
  function Answer(p: Panel, c: Call, millis: U32, luck: Luck): (r: (Panel, Call))
    requires PanelOk(p)
    ensures PanelOk(r.0) && r.0.dev.geo == p.dev.geo && r.0.scheme == p.scheme
  {
    match c
    case AbortTransfer => (Disarm(p), c)
    case BeginFrame(f, _) =>
      var ok := AcceptsFrame(p, f);
      (if ok then Disarm(p) else p, BeginFrame(f, ok))
    case WriteContiguous(offset, data, _) =>
      var ok := AcceptsWrite(p, offset, |data|);
      (if ok then WithDevice(p, p.dev.(pic := Paint(p.dev.pic, p.dev.geo, offset, data))) else p,
       WriteContiguous(offset, data, ok))
    case FinishFrame(_) => (p, FinishFrame(true))
    case BeginRefresh(_) =>
      var l := Launch(p, millis, luck);
      (l.0, BeginRefresh(l.1))
    case PollRefresh(_) =>
      var r := Poll(p, millis);
      (r.0, PollRefresh(r.1))
  }
}
