// The 0x0040 configuration blob: building it, cutting it into notification frames, and the
// client's way back.
module ConfigBlob {
  import opened Bytes
  import opened Wire
  import Crc16

  const OD_CONFIG_VERSION: Byte := 1
  const OD_PKT_SYSTEM: Byte := 0x01
  const OD_PKT_MANUFACTURER: Byte := 0x02
  const OD_PKT_POWER: Byte := 0x04
  const OD_PKT_DISPLAY: Byte := 0x20
  const MODE_DIRECT_WRITE: Byte := 0x08
  const MODE_PIPE_WRITE: Byte := 0x10
  const NO_PIN: Byte := 0xFF

  datatype DisplayCapabilities = DisplayCapabilities(
    width: U16, height: U16, colorScheme: Byte, panelIcType: U16,
    fullFrameBytes: U32, supportsDirectWrite: bool, supportsPipeWrite: bool)

  datatype BuildError = NoBuildError | ZeroGeometry | UnsupportedScheme | NoTransmissionMode | FrameBytesZero

  function Zeros(n: nat): (s: seq<Byte>)
    ensures |s| == n
  {
    seq(n, _ => 0)
  }

  // The packed structs, field by field.
  function SystemBytes(icType: U16): (s: seq<Byte>)
    ensures |s| == 22
  {
    PutU16(icType) + Zeros(20)
  }

  function TransmissionModes(caps: DisplayCapabilities): Byte {
    (if caps.supportsDirectWrite then MODE_DIRECT_WRITE else 0)
    + (if caps.supportsPipeWrite then MODE_PIPE_WRITE else 0)
  }

  function DisplayBytes(caps: DisplayCapabilities): (s: seq<Byte>)
    ensures |s| == 46
  {
    [0, 0] + PutU16(caps.panelIcType) + PutU16(caps.width) + PutU16(caps.height)
    + Zeros(7)
    + [NO_PIN, NO_PIN, 0, NO_PIN, 0, 0, caps.colorScheme, TransmissionModes(caps), 0, NO_PIN]
    + Zeros(21)
  }

  function PacketBytes(id: Byte, payload: seq<Byte>): seq<Byte> {
    [0, id] + payload
  }

  function Packets(caps: DisplayCapabilities, icType: U16): (s: seq<Byte>)
    ensures |s| == 128
  {
    FixedRecords(icType) + PacketBytes(OD_PKT_DISPLAY, DisplayBytes(caps))
  }

  const BLOB_BYTES := 133

  // The CRC is taken while the two length bytes are still zero; the length goes in afterwards.
  function Blob(caps: DisplayCapabilities, icType: U16): (s: seq<Byte>)
    ensures |s| == BLOB_BYTES
  {
    var body := [OD_CONFIG_VERSION] + Packets(caps, icType);
    PutU16(BLOB_BYTES) + body + PutU16(Crc16.Crc([0, 0] + body))
  }

  function Verdict(caps: DisplayCapabilities, capacity: nat): BuildError {
    if caps.width == 0 || caps.height == 0 then ZeroGeometry
    else if caps.fullFrameBytes == 0 then FrameBytesZero
    else if !caps.supportsDirectWrite && !caps.supportsPipeWrite then NoTransmissionMode
    else if capacity < 83 then ZeroGeometry
    else if capacity < 131 then UnsupportedScheme
    else if capacity < BLOB_BYTES then ZeroGeometry
    else NoBuildError
  }

  method WriteBytes(out: array<Byte>, pos: nat, data: seq<Byte>)
    requires pos + |data| <= out.Length
    modifies out
    ensures out[..] == old(out[..pos]) + data + old(out[pos + |data|..])
  {
    forall i | 0 <= i < |data| {
      out[pos + i] := data[i];
    }
  }

  method AppendPacket(out: array<Byte>, pos: nat, id: Byte, payload: seq<Byte>) returns (ok: bool, newPos: nat)
    requires pos <= out.Length
    modifies out
    ensures ok <==> pos + 2 + |payload| <= out.Length
    ensures ok ==> newPos == pos + 2 + |payload| && out[..newPos] == old(out[..pos]) + PacketBytes(id, payload)
    ensures !ok ==> newPos == pos && out[..] == old(out[..])
  {
    newPos := pos;
    if newPos + 2 + |payload| > out.Length {
      return false, pos;
    }
    out[newPos] := 0;
    newPos := newPos + 1;
    out[newPos] := id;
    newPos := newPos + 1;
    WriteBytes(out, newPos, payload);
    newPos := newPos + |payload|;
    ok := true;
  }

  // The CRC goes behind the packets, then the real length into the first two bytes.
  method SealBlob(out: array<Byte>, pos: nat) returns (len: nat)
    requires 3 <= pos && pos + 2 <= out.Length && pos + 2 < TWO_TO_16
    requires out[0] == out[1] == 0
    modifies out
    ensures len == pos + 2
    ensures out[..len] == PutU16(len) + old(out[2..pos]) + PutU16(Crc16.Crc([0, 0] + old(out[2..pos])))
  {
    ghost var body := out[2..pos];
    assert out[..pos] == [0, 0] + body;
    var crc := Crc16.ComputeCrc(out[..pos]);
    WriteBytes(out, pos, PutU16(crc));
    len := pos + 2;
    ghost var sealed := out[..];
    assert sealed[..len] == [0, 0] + body + PutU16(crc);
    assert sealed[2..len] == sealed[..len][2..] == body + PutU16(crc);
    WriteBytes(out, 0, PutU16(len));
    assert out[..] == sealed[..0] + PutU16(len) + sealed[2..];
    assert out[..len] == PutU16(len) + sealed[2..len];
  }

  function FixedRecords(icType: U16): (s: seq<Byte>)
    ensures |s| == 80
  {
    PacketBytes(OD_PKT_SYSTEM, SystemBytes(icType)) + PacketBytes(OD_PKT_MANUFACTURER, Zeros(22))
    + PacketBytes(OD_PKT_POWER, Zeros(30))
  }

  // The three records that do not depend on the panel.
  method WriteFixedRecords(icType: U16, out: array<Byte>, start: nat) returns (ok: bool, pos: nat)
    requires start <= out.Length
    modifies out
    ensures ok <==> start + 80 <= out.Length
    ensures ok ==> pos == start + 80
    ensures ok ==> out[..pos] == old(out[..start]) + FixedRecords(icType)
  {
    var system, none, unpowered := SystemBytes(icType), Zeros(22), Zeros(30);
    ok, pos := AppendPacket(out, start, OD_PKT_SYSTEM, system);
    if !ok {
      return;
    }
    ok, pos := AppendPacket(out, pos, OD_PKT_MANUFACTURER, none);
    if !ok {
      return;
    }
    ok, pos := AppendPacket(out, pos, OD_PKT_POWER, unpowered);
  }

  // The outer header and the four records.
  method WritePackets(caps: DisplayCapabilities, icType: U16, out: array<Byte>)
    returns (err: BuildError, pos: nat)
    modifies out
    ensures err == if out.Length < 83 then ZeroGeometry
                   else if out.Length < 131 then UnsupportedScheme
                   else NoBuildError
    ensures err == NoBuildError ==> pos == 131 && out[..pos] == [0, 0, OD_CONFIG_VERSION] + Packets(caps, icType)
  {
    pos := 0;
    if out.Length < 3 {
      return ZeroGeometry, 0;
    }
    out[0], out[1], out[2] := 0, 0, OD_CONFIG_VERSION;
    ghost var header := out[..3];
    assert header == [0, 0, OD_CONFIG_VERSION];
    var ok;
    ok, pos := WriteFixedRecords(icType, out, 3);
    if !ok {
      return ZeroGeometry, 0;
    }
    var display := DisplayBytes(caps);
    ok, pos := AppendPacket(out, pos, OD_PKT_DISPLAY, display);
    if !ok {
      return UnsupportedScheme, 0;
    }
    assert header + FixedRecords(icType) + PacketBytes(OD_PKT_DISPLAY, display) == header + Packets(caps, icType);
    return NoBuildError, pos;
  }

  method BuildConfigBlob(caps: DisplayCapabilities, icType: U16, out: array<Byte>)
    returns (err: BuildError, len: nat)
    modifies out
    ensures err == Verdict(caps, out.Length)
    ensures var sound := caps.width > 0 && caps.height > 0;
            var usable := sound && caps.fullFrameBytes > 0 && (caps.supportsDirectWrite || caps.supportsPipeWrite);
            && (err == NoBuildError <==> usable && out.Length >= 133)
            && (err == FrameBytesZero <==> sound && caps.fullFrameBytes == 0)
            && (err == NoTransmissionMode <==> sound && caps.fullFrameBytes > 0 && !usable)
            && (err == UnsupportedScheme <==> usable && 83 <= out.Length < 131)
    ensures err == NoBuildError ==> len == BLOB_BYTES && out[..len] == Blob(caps, icType)
  {
    if caps.width == 0 || caps.height == 0 {
      return ZeroGeometry, 0;
    }
    if caps.fullFrameBytes == 0 {
      return FrameBytesZero, 0;
    }
    if !caps.supportsDirectWrite && !caps.supportsPipeWrite {
      return NoTransmissionMode, 0;
    }
    var pos;
    err, pos := WritePackets(caps, icType, out);
    if err != NoBuildError {
      return err, 0;
    }
    if pos + 2 > out.Length {
      return ZeroGeometry, 0;
    }
    ghost var written := out[..pos];
    assert out[2..pos] == written[2..] == [OD_CONFIG_VERSION] + Packets(caps, icType);
    assert out[0] == written[0] && out[1] == written[1];
    len := SealBlob(out, pos);
    return NoBuildError, len;
  }

  // --- The client's reading of a blob -------------------------------------------------

  datatype Packet = Packet(id: Byte, payload: seq<Byte>)

  datatype ClientConfig = ClientConfig(
    icType: U16, panelIcType: U16, width: U16, height: U16, colorScheme: Byte, modes: Byte)

  function PayloadSize(id: Byte): nat {
    if id == OD_PKT_SYSTEM || id == OD_PKT_MANUFACTURER then 22
    else if id == OD_PKT_POWER then 30
    else if id == OD_PKT_DISPLAY then 46
    else 0
  }

  // [instance][id][payload] records back to back; an unknown id or a short record is an error.
  function ParsePackets(s: seq<Byte>): Option<seq<Packet>>
    decreases |s|
  {
    if s == [] then Some([])
    else if |s| < 2 || PayloadSize(s[1]) == 0 || |s| < 2 + PayloadSize(s[1]) then None
    else
      var end := 2 + PayloadSize(s[1]);
      match ParsePackets(s[end..])
      case None => None
      case Some(rest) => Some([Packet(s[1], s[2..end])] + rest)
  }

  function FindPacket(packets: seq<Packet>, id: Byte): Option<seq<Byte>>
    decreases |packets|
  {
    if packets == [] then None
    else if packets[0].id == id then Some(packets[0].payload)
    else FindPacket(packets[1..], id)
  }

  function ParseBlob(blob: seq<Byte>): Option<ClientConfig> {
    if |blob| < 5 || GetU16(blob) != |blob| || blob[2] != OD_CONFIG_VERSION then None
    else
      var end := |blob| - 2;
      if Crc16.Crc([0, 0] + blob[2..end]) != GetU16(blob[end..]) then None
      else
        match ParsePackets(blob[3..end])
        case None => None
        case Some(packets) =>
          match (FindPacket(packets, OD_PKT_SYSTEM), FindPacket(packets, OD_PKT_DISPLAY))
          case (Some(sys), Some(dsp)) =>
            if |sys| < 2 || |dsp| < 23 then None
            else Some(ClientConfig(GetU16(sys), GetU16(dsp[2..]), GetU16(dsp[4..]), GetU16(dsp[6..]), dsp[21], dsp[22]))
          case _ => None
  }

  function Records(packets: seq<Packet>): seq<Byte>
    decreases |packets|
  {
    if packets == [] then [] else PacketBytes(packets[0].id, packets[0].payload) + Records(packets[1..])
  }

  predicate Sized(p: Packet) {
    PayloadSize(p.id) == |p.payload| > 0
  }

  // Every list of records of known kinds is recovered from its bytes.
  lemma {:induction false} RecordsRoundTrip(packets: seq<Packet>)
    requires forall p | p in packets :: Sized(p)
    ensures ParsePackets(Records(packets)) == Some(packets)
    decreases |packets|
  {
    hide ParsePackets, PacketBytes, Sized;
    if packets == [] {
      NoRecords();
    } else {
      assert packets[0] in packets && forall q | q in packets[1..] :: q in packets;
      RecordsRoundTrip(packets[1..]);
      ParseOneRecord(packets[0], Records(packets[1..]), packets[1..]);
      assert [packets[0]] + packets[1..] == packets;
    }
  }

  lemma NoRecords()
    ensures ParsePackets([]) == Some([])
  {
  }

  lemma ParseOneRecord(p: Packet, rest: seq<Byte>, parsed: seq<Packet>)
    requires Sized(p) && ParsePackets(rest) == Some(parsed)
    ensures ParsePackets(PacketBytes(p.id, p.payload) + rest) == Some([p] + parsed)
  {
    var s, end := PacketBytes(p.id, p.payload) + rest, 2 + |p.payload|;
    assert s[1] == p.id && s[2..end] == p.payload && s[end..] == rest;
  }

  lemma RecordsCons(p: Packet, rest: seq<Packet>)
    ensures Records([p] + rest) == PacketBytes(p.id, p.payload) + Records(rest)
  {
    assert ([p] + rest)[1..] == rest;
  }

  lemma FourRecords(a: Packet, b: Packet, c: Packet, d: Packet)
    ensures Records([a, b, c, d]) == PacketBytes(a.id, a.payload) + PacketBytes(b.id, b.payload)
                                     + PacketBytes(c.id, c.payload) + PacketBytes(d.id, d.payload)
  {
    RecordsCons(a, [b, c, d]);
    RecordsCons(b, [c, d]);
    RecordsCons(c, [d]);
    RecordsCons(d, []);
    assert [a] + [b, c, d] == [a, b, c, d] && [b] + [c, d] == [b, c, d];
    assert [c] + [d] == [c, d] && [d] + [] == [d];
  }

  lemma FindFirstAndLast(p: seq<Packet>)
    requires |p| == 4 && p[3].id != p[0].id && p[3].id != p[1].id && p[3].id != p[2].id
    ensures FindPacket(p, p[0].id) == Some(p[0].payload)
    ensures FindPacket(p, p[3].id) == Some(p[3].payload)
  {
    assert p[1..][1..] == p[2..] && p[2..][1..] == p[3..];
    assert FindPacket(p[2..], p[3].id) == FindPacket(p[3..], p[3].id);
  }

  function Advertised(caps: DisplayCapabilities, icType: U16): ClientConfig {
    ClientConfig(icType, caps.panelIcType, caps.width, caps.height, caps.colorScheme, TransmissionModes(caps))
  }

  lemma DisplayFields(caps: DisplayCapabilities)
    ensures var d := DisplayBytes(caps);
            GetU16(d[2..]) == caps.panelIcType && GetU16(d[4..]) == caps.width && GetU16(d[6..]) == caps.height
            && d[21] == caps.colorScheme && d[22] == TransmissionModes(caps)
  {
    var d := DisplayBytes(caps);
    assert d[2..][..2] == PutU16(caps.panelIcType);
    assert d[4..][..2] == PutU16(caps.width);
    assert d[6..][..2] == PutU16(caps.height);
  }

  lemma PacketsParse(caps: DisplayCapabilities, icType: U16) returns (p: seq<Packet>)
    ensures ParsePackets(Packets(caps, icType)) == Some(p)
    ensures FindPacket(p, OD_PKT_SYSTEM) == Some(SystemBytes(icType))
    ensures FindPacket(p, OD_PKT_DISPLAY) == Some(DisplayBytes(caps))
  {
    var a, b := Packet(OD_PKT_SYSTEM, SystemBytes(icType)), Packet(OD_PKT_MANUFACTURER, Zeros(22));
    var c, d := Packet(OD_PKT_POWER, Zeros(30)), Packet(OD_PKT_DISPLAY, DisplayBytes(caps));
    p := [a, b, c, d];
    FourRecords(a, b, c, d);
    RecordsRoundTrip(p);
    FindFirstAndLast(p);
  }

  lemma BlobParts(caps: DisplayCapabilities, icType: U16)
    ensures var blob, body := Blob(caps, icType), [OD_CONFIG_VERSION] + Packets(caps, icType);
            && blob[..2] == PutU16(BLOB_BYTES) && blob[2..131] == body && blob[3..131] == Packets(caps, icType)
            && blob[131..] == PutU16(Crc16.Crc([0, 0] + body))
  {
    var packets := Packets(caps, icType);
    var body := [OD_CONFIG_VERSION] + packets;
    assert body[1..] == packets;
    hide Packets, FixedRecords, PacketBytes, DisplayBytes, SystemBytes, Crc16.Crc;
    ThreeParts(PutU16(BLOB_BYTES), body, PutU16(Crc16.Crc([0, 0] + body)));
  }

  lemma ThreeParts(length: seq<Byte>, body: seq<Byte>, crc: seq<Byte>)
    requires |length| == 2 && |body| == 129
    ensures var blob := length + body + crc;
            blob[..2] == length && blob[2..131] == body && blob[3..131] == body[1..] && blob[131..] == crc
  {
  }

  lemma SystemField(icType: U16)
    ensures SystemBytes(icType)[..2] == PutU16(icType)
  {
  }

  // The client recovers from the blob exactly what the capabilities say.
  lemma BlobRoundTrip(caps: DisplayCapabilities, icType: U16)
    ensures ParseBlob(Blob(caps, icType)) == Some(Advertised(caps, icType))
  {
    var blob := Blob(caps, icType);
    BlobParts(caps, icType);
    SystemField(icType);
    DisplayFields(caps);
    hide Blob, Packets, FixedRecords, PacketBytes, DisplayBytes, SystemBytes, ParsePackets, FindPacket, Crc16.Crc;
    assert GetU16(blob) == GetU16(blob[..2]);
    var p := PacketsParse(caps, icType);
  }

  // The bytes between length and CRC: version, then the system, manufacturer, power and display
  // records at 3, 27, 51 and 83, each as a zero, its id and its fields; every other byte is zero.
  function BodyByte(caps: DisplayCapabilities, icType: U16, i: nat): Byte {
    if i == 2 then 1
    else if i == 4 then 0x01
    else if i == 5 then icType % 256
    else if i == 6 then icType / 256
    else if i == 28 then 0x02
    else if i == 52 then 0x04
    else if i == 84 then 0x20
    else if i == 87 then caps.panelIcType % 256
    else if i == 88 then caps.panelIcType / 256
    else if i == 89 then caps.width % 256
    else if i == 90 then caps.width / 256
    else if i == 91 then caps.height % 256
    else if i == 92 then caps.height / 256
    else if i == 100 || i == 101 || i == 103 || i == 109 then 0xFF
    else if i == 106 then caps.colorScheme
    else if i == 107 then
      (if caps.supportsDirectWrite then 0x08 else 0) + (if caps.supportsPipeWrite then 0x10 else 0)
    else 0
  }

  // The blob byte by byte: the length 133, the body, and the CRC of the body behind a zero length.
  lemma BlobLaidOut(caps: DisplayCapabilities, icType: U16)
    ensures var b := Blob(caps, icType); var crc := Crc16.Crc([0, 0] + b[2..131]);
            && |b| == 133 && b[0] == 0x85 && b[1] == 0x00
            && (forall i | 2 <= i < 131 :: b[i] == BodyByte(caps, icType, i))
            && b[131] == crc % 256 && b[132] == crc / 256
  {
    var b := Blob(caps, icType);
    BlobParts(caps, icType);
    assert b[0] == b[..2][0] && b[1] == b[..2][1] && b[131] == b[131..][0] && b[132] == b[131..][1];
    var fixed, display := FixedRecords(icType), DisplayBytes(caps);
    assert b[3..131] == fixed + [0, OD_PKT_DISPLAY] + display;
    hide Blob, Packets, FixedRecords, DisplayBytes, Crc16.Crc, PacketBytes;
    forall i | 2 <= i < 131
      ensures b[i] == BodyByte(caps, icType, i)
    {
      assert b[i] == b[2..131][i - 2];
      if i >= 85 {
        assert b[i] == b[3..131][i - 3] == display[i - 85];
        FieldBytes(caps, icType, i);
      } else if i >= 3 {
        assert b[i] == b[3..131][i - 3];
        FixedBytes(icType);
      }
    }
  }

  lemma FieldBytes(caps: DisplayCapabilities, icType: U16, i: nat)
    requires 85 <= i < 131
    ensures DisplayBytes(caps)[i - 85] == BodyByte(caps, icType, i)
  {
  }

  lemma FixedBytes(icType: U16)
    ensures var f := FixedRecords(icType);
            && f[1] == 0x01 && f[2] == icType % 256 && f[3] == icType / 256 && f[25] == 0x02 && f[49] == 0x04
            && forall i | 0 <= i < 80 && i !in {1, 2, 3, 25, 49} :: f[i] == 0
  {
  }

  // Two CRC-protected bodies behind the same trailer that differ in at most two adjacent bytes.
  lemma BodyDamage(a: seq<Byte>, b: seq<Byte>, k: nat)
    requires |a| == |b| && a != b
    requires forall i | 0 <= i < |a| :: a[i] != b[i] ==> k <= i <= k + 1
    ensures Crc16.Crc([0, 0] + a) != Crc16.Crc([0, 0] + b)
  {
    var p, q := [0, 0] + a, [0, 0] + b;
    assert p[2..] == a && q[2..] == b;
    Crc16.AdjacentBytesDetected(p, q, k + 2);
  }

  // A blob with one or two adjacent damaged bytes between length and CRC is never read as valid.
  lemma DamageDetected(caps: DisplayCapabilities, icType: U16, body: seq<Byte>, k: nat)
    requires var sent := Blob(caps, icType)[2..131];
             |body| == |sent| && body != sent
             && forall i | 0 <= i < |body| :: body[i] != sent[i] ==> k <= i <= k + 1
    ensures ParseBlob(Blob(caps, icType)[..2] + body + Blob(caps, icType)[131..]) == None
  {
    var blob := Blob(caps, icType);
    BlobParts(caps, icType);
    var damaged := blob[..2] + body + blob[131..];
    BodyDamage(body, blob[2..131], k);
    assert damaged[2..131] == body && damaged[131..] == blob[131..];
  }

  // --- Chunking -------------------------------------------------------------------------

  const FIRST_CHUNK := MAX_RESPONSE_DATA_SIZE - 6
  const LATER_CHUNK := MAX_RESPONSE_DATA_SIZE - 4

  function ChunkOffset(index: nat): nat {
    if index == 0 then 0 else FIRST_CHUNK + (index - 1) * LATER_CHUNK
  }

  function EncodeConfigChunk(blob: seq<Byte>, index: U16): (r: Response)
    ensures r == [] <==> ChunkOffset(index) >= |blob|
    ensures |r| <= MAX_RESPONSE_DATA_SIZE
  {
    var header := if index == 0 then 6 else 4;
    var capacity := MAX_RESPONSE_DATA_SIZE - header;
    var offset := ChunkOffset(index);
    if offset >= |blob| then []
    else
      var n := Min(|blob| - offset, capacity);
      [RESP_ACK, 0x40] + PutU16(index)
      + (if index == 0 then PutU16(|blob| % TWO_TO_16) else [])
      + blob[offset..offset + n]
  }

  // The frames send_config_ produces from `index` on: it stops at the first empty chunk.
  function ChunksFrom(blob: seq<Byte>, index: nat): (frames: seq<Response>)
    requires |blob| < TWO_TO_16 && index <= 1000
    decreases 1000 - index
  {
    if EncodeConfigChunk(blob, index) == [] then []
    else
      [EncodeConfigChunk(blob, index)] + ChunksFrom(blob, index + 1)
  }

  // The client's side: frames must arrive in order; the first announces the total length.
  function JoinLater(frames: seq<Response>, index: nat): Option<seq<Byte>>
    decreases |frames|
  {
    if frames == [] then Some([])
    else if |frames[0]| < 4 || frames[0][..2] != [RESP_ACK, 0x40] || GetU16(frames[0][2..]) != index then None
    else
      match JoinLater(frames[1..], index + 1)
      case None => None
      case Some(rest) => Some(frames[0][4..] + rest)
  }

  function Reassemble(frames: seq<Response>): Option<seq<Byte>> {
    if frames == [] || |frames[0]| < 6 || frames[0][..4] != [RESP_ACK, 0x40, 0, 0] then None
    else
      match JoinLater(frames[1..], 1)
      case None => None
      case Some(rest) =>
        var blob := frames[0][6..] + rest;
        if |blob| == GetU16(frames[0][4..]) then Some(blob) else None
  }

  lemma LaterChunk(blob: seq<Byte>, index: nat)
    requires |blob| < TWO_TO_16 && 1 <= index <= 1000 && ChunkOffset(index) < |blob|
    ensures var r, offset := EncodeConfigChunk(blob, index), ChunkOffset(index);
            && |r| >= 4 && r[..2] == [RESP_ACK, 0x40] && GetU16(r[2..]) == index
            && r[4..] == blob[offset..offset + Min(|blob| - offset, LATER_CHUNK)]
  {
    var offset := ChunkOffset(index);
    FourByteHeader(index, blob[offset..offset + Min(|blob| - offset, LATER_CHUNK)]);
    assert EncodeConfigChunk(blob, index)
        == [RESP_ACK, 0x40] + PutU16(index) + [] + blob[offset..offset + Min(|blob| - offset, LATER_CHUNK)];
  }

  lemma FourByteHeader(index: U16, data: seq<Byte>)
    ensures var r := [RESP_ACK, 0x40] + PutU16(index) + [] + data;
            r[..2] == [RESP_ACK, 0x40] && GetU16(r[2..]) == index && r[4..] == data
  {
    var r := [RESP_ACK, 0x40] + PutU16(index) + [] + data;
    assert r[2..][..2] == PutU16(index);
  }

  lemma SixByteHeader(length: U16, data: seq<Byte>)
    ensures var r := [RESP_ACK, 0x40] + PutU16(0) + PutU16(length) + data;
            r[..4] == [RESP_ACK, 0x40, 0, 0] && GetU16(r[4..]) == length && r[6..] == data
  {
    var r := [RESP_ACK, 0x40] + PutU16(0) + PutU16(length) + data;
    assert PutU16(0) == [0, 0];
    assert r[4..][..2] == PutU16(length);
  }

  lemma ChunksStep(blob: seq<Byte>, index: nat)
    requires |blob| < TWO_TO_16 && index <= 1000
    ensures ChunksFrom(blob, index) == if ChunkOffset(index) >= |blob| then []
                                       else [EncodeConfigChunk(blob, index)] + ChunksFrom(blob, index + 1)
    ensures ChunkOffset(index) < |blob| ==> index < 1000
  {
  }

  lemma JoinCons(r: Response, later: seq<Response>, index: nat, rest: seq<Byte>)
    requires |r| >= 4 && r[..2] == [RESP_ACK, 0x40] && GetU16(r[2..]) == index
    requires JoinLater(later, index + 1) == Some(rest)
    ensures JoinLater([r] + later, index) == Some(r[4..] + rest)
  {
    assert ([r] + later)[1..] == later;
  }

  lemma TailSplits(blob: seq<Byte>, a: nat, b: nat)
    requires a <= b <= |blob|
    ensures blob[a..] == blob[a..b] + blob[b..]
  {
  }

  lemma NextOffset(index: nat)
    requires index >= 1
    ensures ChunkOffset(index + 1) == ChunkOffset(index) + LATER_CHUNK
  {
  }

  // One more chunk in front of those that already join.
  lemma JoinStep(blob: seq<Byte>, index: nat, later: seq<Response>, end: nat)
    requires |blob| < TWO_TO_16 && 1 <= index <= 1000 && ChunkOffset(index) < |blob|
    requires end == Min(ChunkOffset(index + 1), |blob|) && JoinLater(later, index + 1) == Some(blob[end..])
    ensures JoinLater([EncodeConfigChunk(blob, index)] + later, index) == Some(blob[ChunkOffset(index)..])
  {
    hide EncodeConfigChunk, JoinLater;
    var offset := ChunkOffset(index);
    LaterChunk(blob, index);
    NextOffset(index);
    JoinCons(EncodeConfigChunk(blob, index), later, index, blob[end..]);
    TailSplits(blob, offset, end);
  }

  lemma {:induction false} JoinLaterChunks(blob: seq<Byte>, index: nat)
    requires |blob| < TWO_TO_16 && 1 <= index <= 1000
    ensures JoinLater(ChunksFrom(blob, index), index) == Some(blob[Min(ChunkOffset(index), |blob|)..])
    decreases 1000 - index
  {
    ChunksStep(blob, index);
    if ChunkOffset(index) < |blob| {
      hide EncodeConfigChunk, ChunksFrom, JoinLater, ChunkOffset;
      JoinLaterChunks(blob, index + 1);
      JoinStep(blob, index, ChunksFrom(blob, index + 1), Min(ChunkOffset(index + 1), |blob|));
    } else {
      assert ChunksFrom(blob, index) == [];
      assert blob[|blob|..] == [];
    }
  }

  lemma FirstChunk(blob: seq<Byte>)
    requires 0 < |blob| < TWO_TO_16
    ensures var r := EncodeConfigChunk(blob, 0);
            && |r| >= 6 && r[..4] == [RESP_ACK, 0x40, 0, 0] && GetU16(r[4..]) == |blob|
            && r[6..] == blob[..Min(|blob|, FIRST_CHUNK)]
  {
    var n := Min(|blob|, FIRST_CHUNK);
    SixByteHeader(|blob|, blob[..n]);
    assert |blob| % TWO_TO_16 == |blob|;
    assert EncodeConfigChunk(blob, 0) == [RESP_ACK, 0x40] + PutU16(0) + PutU16(|blob|) + blob[..n];
  }

  lemma ReassembleParts(r: Response, later: seq<Response>, rest: seq<Byte>)
    requires |r| >= 6 && r[..4] == [RESP_ACK, 0x40, 0, 0] && JoinLater(later, 1) == Some(rest)
    requires GetU16(r[4..]) == |r[6..] + rest|
    ensures Reassemble([r] + later) == Some(r[6..] + rest)
  {
    assert ([r] + later)[1..] == later;
  }

  // A frame of the answer byte by byte: chunk 0 carries the total length and 94 bytes, every later
  // one 96 bytes from where the previous one ends.
  lemma ChunkLaidOut(blob: seq<Byte>, index: U16)
    requires |blob| < TWO_TO_16
    ensures var r, length := EncodeConfigChunk(blob, index), |blob|;
            if index == 0 then
              r == (if length == 0 then []
                    else [0x00, 0x40, 0, 0, length % 256, length / 256] + blob[..if length < 94 then length else 94])
            else
              var start := 94 + (index - 1) * 96;
              r == (if length <= start then []
                    else [0x00, 0x40, index % 256, index / 256]
                         + blob[start..if length < start + 96 then length else start + 96])
  {
    if index == 0 {
      assert |blob| % TWO_TO_16 == |blob|;
      assert PutU16(0) == [0, 0];
      assert blob[0..Min(|blob|, 94)] == blob[..Min(|blob|, 94)];
    }
  }

  // For every blob a 16-bit length can announce, reassembling the chunks gives the blob back.
  lemma ChunksRoundTrip(blob: seq<Byte>)
    requires 0 < |blob| < TWO_TO_16
    ensures Reassemble(ChunksFrom(blob, 0)) == Some(blob)
  {
    var n := Min(|blob|, FIRST_CHUNK);
    FirstChunk(blob);
    LaterChunks(blob, n);
    SplitAt(blob, n);
    ReassembleParts(EncodeConfigChunk(blob, 0), ChunksFrom(blob, 1), blob[n..]);
  }

  lemma LaterChunks(blob: seq<Byte>, n: nat)
    requires 0 < |blob| < TWO_TO_16 && n == Min(|blob|, FIRST_CHUNK)
    ensures JoinLater(ChunksFrom(blob, 1), 1) == Some(blob[n..])
    ensures ChunksFrom(blob, 0) == [EncodeConfigChunk(blob, 0)] + ChunksFrom(blob, 1)
  {
    JoinLaterChunks(blob, 1);
    ChunksStep(blob, 0);
  }

  lemma SplitAt(blob: seq<Byte>, n: nat)
    requires n <= |blob|
    ensures blob[..n] + blob[n..] == blob
  {
  }

  lemma {:induction false} JoinTruncated(blob: seq<Byte>, index: nat, k: nat)
    requires |blob| < TWO_TO_16 && 1 <= index <= 1000 && k < |ChunksFrom(blob, index)|
    ensures ChunkOffset(index) < |blob|
    ensures var joined := JoinLater(ChunksFrom(blob, index)[..k], index);
            joined.Some? && |joined.value| < |blob| - ChunkOffset(index)
    decreases k
  {
    if k == 0 {
    } else {
      var frames := ChunksFrom(blob, index);
      var later := ChunksFrom(blob, index + 1)[..k - 1];
      JoinTruncated(blob, index + 1, k - 1);
      LaterChunk(blob, index);
      JoinCons(EncodeConfigChunk(blob, index), later, index, JoinLater(later, index + 1).value);
      assert frames[..k] == [EncodeConfigChunk(blob, index)] + later;
    }
  }

  // A truncated answer is never taken for a whole configuration.
  lemma TruncatedChunks(blob: seq<Byte>, k: nat)
    requires 0 < |blob| < TWO_TO_16 && k < |ChunksFrom(blob, 0)|
    ensures Reassemble(ChunksFrom(blob, 0)[..k]) == None
  {
    hide EncodeConfigChunk, ChunksFrom, JoinLater;
    if k > 0 {
      var frames := ChunksFrom(blob, 0);
      FirstChunk(blob);
      ChunksStep(blob, 0);
      JoinTruncated(blob, 1, k - 1);
      assert frames[..k][1..] == ChunksFrom(blob, 1)[..k - 1];
      assert frames[..k][0] == EncodeConfigChunk(blob, 0);
    }
  }

  // 0x0040 end to end: build, chunk, reassemble, verify the CRC, parse.
  lemma ConfigReadRoundTrip(caps: DisplayCapabilities, icType: U16)
    ensures Reassemble(ChunksFrom(Blob(caps, icType), 0)).Some?
    ensures ParseBlob(Reassemble(ChunksFrom(Blob(caps, icType), 0)).value) == Some(Advertised(caps, icType))
  {
    ChunksRoundTrip(Blob(caps, icType));
    BlobRoundTrip(caps, icType);
  }
}
