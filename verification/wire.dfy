// Frame parsing, response encoding and the SACK acknowledgement rule.
module Wire {
  import opened Bytes

  const RESP_ACK: Byte := 0x00
  const RESP_NACK: Byte := 0xFF

  const CMD_CONFIG_READ := 0x0040
  const CMD_FIRMWARE_VERSION := 0x0043
  const CMD_READ_MSD := 0x0044
  const CMD_DIRECT_WRITE_START := 0x0070
  const CMD_DIRECT_WRITE_DATA := 0x0071
  const CMD_DIRECT_WRITE_END := 0x0072
  const CMD_PIPE_WRITE_START := 0x0080
  const CMD_PIPE_WRITE_DATA := 0x0081
  const CMD_PIPE_WRITE_END := 0x0082
  const RESP_REFRESH_SUCCESS := 0x0073
  const RESP_REFRESH_TIMEOUT := 0x0074

  const PIPE_VERSION: Byte := 1
  const PIPE_MAX_FRAME := 244
  const PIPE_FRAME_OVERHEAD := 3
  const PIPE_ACK_MASK_BITS := 32
  const PIPE_MAX_WINDOW: Byte := 16
  const PIPE_MAX_ACK_EVERY: Byte := 4
  const PIPE_WINDOW_LIMIT_LO := 1
  const PIPE_WINDOW_LIMIT_HI := 32

  const ERR_BAD_HEADER: Byte := 0x01
  const ERR_UNKNOWN_FLAG: Byte := 0x02
  const ERR_SIZE_MISMATCH: Byte := 0x03
  const ERR_PARTIAL_UNSUPPORTED: Byte := 0x06

  const NACK_WRITE_SIZE: Byte := 0x03
  const NACK_PROTOCOL: Byte := 0x04

  const MAX_RESPONSE_DATA_SIZE := 100

  // A response is the bytes of one notification; the empty sequence is "nothing to send".
  type Response = seq<Byte>

  function EncodeAck(opcode: nat): Response {
    [RESP_ACK, opcode % 256]
  }

  function EncodeNack(opcode: nat): Response {
    [RESP_NACK, opcode % 256]
  }

  function EncodeNackErr(opcode: nat, scopedError: Byte): Response {
    [RESP_NACK, opcode % 256, scopedError, 0x00]
  }

  function EncodePipeStartResponse(window: Byte, ackEvery: Byte, frame: U16): Response
  {
    [RESP_ACK, 0x80, PIPE_VERSION, window, ackEvery] + PutU16(frame) + [0x00]
  }

  function EncodePipeSack(highestSeen: Byte, mask: U32): Response {
    [RESP_ACK, 0x81, highestSeen] + PutU32(mask)
  }

  function EncodePipeNack(err: Byte, highestSeen: Byte, mask: U32): Response {
    [RESP_NACK, 0x81, err, highestSeen] + PutU32(mask)
  }

  predicate IsSack(r: Response) {
    |r| == 7 && r[0] == RESP_ACK && r[1] == 0x81
  }

  predicate IsPipeNack(r: Response) {
    |r| == 8 && r[0] == RESP_NACK && r[1] == 0x81
  }

  function BuildInorderAckMask(acceptedPackets: U32): U32 {
    if acceptedPackets <= 1 then 0
    else if acceptedPackets - 1 >= PIPE_ACK_MASK_BITS then 0xFFFF_FFFF
    else
      Pow2Small(acceptedPackets - 1);
      Pow2(acceptedPackets - 1) - 1
  }

  // --- The client's reading of a SACK ---------------------------------------

  // The 0x0081 rule: highest_seen is acknowledged implicitly, and mask bit i
  // acknowledges the chunk whose sequence number is highest_seen - 1 - i (mod 256).
  predicate Covers(r: Response, seqNo: Byte)
    requires IsSack(r)
  {
    var back := (r[2] - seqNo) % 256;
    back == 0 || (back <= PIPE_ACK_MASK_BITS && Bit(GetU32(r[3..]), back - 1))
  }

  ghost function Decoded(r: Response): set<int>
    requires IsSack(r)
  {
    set s | 0 <= s < 256 && Covers(r, s)
  }

  // The sequence numbers of the last min(n, 33) of n accepted chunks.
  ghost function LastAccepted(n: nat): set<int> {
    set k | Max(0, n - 33) <= k < n :: k % 256
  }

  // The SACK of a transaction in which n chunks have been accepted, as the engine
  // encodes it: the packet counter is 32 bits wide, the sequence number 8.
  function SackAfter(n: nat): (r: Response)
    ensures IsSack(r)
  {
    EncodePipeSack(if n == 0 then 0 else (n - 1) % 256, BuildInorderAckMask(n % TWO_TO_32))
  }

  // How many predecessors of highest_seen the mask reports for a packet counter of m.
  function MaskedPredecessors(m: U32): nat {
    if m <= 1 then 0 else Min(m - 1, PIPE_ACK_MASK_BITS)
  }

  lemma MaskBits(m: U32, i: nat)
    requires i < 32
    ensures Bit(BuildInorderAckMask(m), i) <==> i < MaskedPredecessors(m)
  {
    Pow2At31();
    LowOnes(if m <= 1 then 0 else Min(m - 1, 32), i);
  }

  // Through the encoding and back: a sequence number is acknowledged exactly when it
  // lies at most MaskedPredecessors(m) behind highest_seen.
  lemma SackCovers(highest: Byte, m: U32, seqNo: Byte)
    ensures Covers(EncodePipeSack(highest, BuildInorderAckMask(m)), seqNo)
       <==> (highest - seqNo) % 256 <= MaskedPredecessors(m)
  {
    var mask := BuildInorderAckMask(m);
    var r := EncodePipeSack(highest, mask);
    var back := (highest - seqNo) % 256;
    assert r[3..] == PutU32(mask);
    if 0 < back <= 32 {
      MaskBits(m, back - 1);
    }
  }

  // Distances between 8-bit sequence numbers are true distances up to 255.
  lemma Distance8(newest: nat, k: nat)
    requires k <= newest < k + 256
    ensures (newest % 256 - k % 256) % 256 == newest - k
  {
  }

  lemma NearestBelow(newest: nat, s: Byte)
    ensures var d := (newest % 256 - s) % 256; (newest - d) % 256 == s
  {
  }

  lemma DecodedWithin(n: nat, m: U32)
    requires n >= 1 && MaskedPredecessors(m) <= n - 1
    ensures Decoded(EncodePipeSack((n - 1) % 256, BuildInorderAckMask(m))) <= LastAccepted(n)
  {
    forall s | s in Decoded(EncodePipeSack((n - 1) % 256, BuildInorderAckMask(m)))
      ensures s in LastAccepted(n)
    {
      SackCovers((n - 1) % 256, m, s);
      NearestBelow(n - 1, s);
      var back := ((n - 1) % 256 - s) % 256;
      assert Max(0, n - 33) <= n - 1 - back < n;
    }
  }

  lemma DecodedReaches(n: nat, m: U32, k: nat)
    requires Max(0, n - 33) <= k < n
    ensures k % 256 in Decoded(EncodePipeSack((n - 1) % 256, BuildInorderAckMask(m)))
       <==> n - 1 - k <= MaskedPredecessors(m)
  {
    Distance8(n - 1, k);
    SackCovers((n - 1) % 256, m, k % 256);
  }

  lemma CounterPredecessors(n: nat)
    requires n >= 1
    ensures MaskedPredecessors(n % TWO_TO_32) <= Min(n - 1, 32)
    ensures MaskedPredecessors(n % TWO_TO_32) == Min(n - 1, 32) <==> (n < TWO_TO_32 || n % TWO_TO_32 >= 33)
  {
    assert n % TWO_TO_32 <= n;
  }

  // With at least one accepted chunk no SACK ever acknowledges a chunk outside the
  // last min(n, 33) accepted ones, even after the 32-bit packet counter has wrapped.
  lemma SackSound(n: nat)
    requires n >= 1
    ensures Decoded(SackAfter(n)) <= LastAccepted(n)
  {
    CounterPredecessors(n);
    DecodedWithin(n, n % TWO_TO_32);
  }

  // The decoded set is exactly the last min(n, 33) accepted sequence numbers if and only
  // if the 32-bit packet counter has not wrapped to a value below 33.
  lemma SackExactness(n: nat)
    requires n >= 1
    ensures Decoded(SackAfter(n)) == LastAccepted(n) <==> (n < TWO_TO_32 || n % TWO_TO_32 >= 33)
  {
    SackSound(n);
    CounterPredecessors(n);
    forall k: nat | Max(0, n - 33) <= k < n
      ensures k % 256 in LastAccepted(n)
      ensures k % 256 in Decoded(SackAfter(n)) <==> n - 1 - k <= MaskedPredecessors(n % TWO_TO_32)
    {
      DecodedReaches(n, n % TWO_TO_32, k);
    }
    var oldest := Max(0, n - 33);
    assert oldest % 256 in LastAccepted(n);
  }

  // Before anything is accepted the SACK is unsound: it acknowledges chunk 0.
  lemma SackBeforeFirstChunk()
    ensures Decoded(SackAfter(0)) == {0} && LastAccepted(0) == {}
  {
    forall s | 0 <= s < 256
      ensures Covers(SackAfter(0), s) <==> s == 0
    {
      SackCovers(0, 0, s);
    }
  }

  // --- 0x0080 START -----------------------------------------------------------

  datatype PipeStartRequest = PipeStartRequest(
    flags: Byte, window: Byte, ackEvery: Byte, clientMaxFrame: U16, totalSize: U32)

  datatype Parsed = Accepted(req: PipeStartRequest) | Rejected(scopedError: Byte)

  const HEADER := 8
  const HEADER_PARTIAL := 20
  // The payload pointer addresses a 244-byte receive slot, two bytes in.
  const PAYLOAD_MEMORY := 242

  // `memory` is everything behind the payload pointer, `len` the length of the payload in it.
  // The length test admits 8 bytes while total_size is read from offsets 6..9.
  function ParsePipeStart(memory: seq<Byte>, len: nat): (p: Parsed)
    requires |memory| == PAYLOAD_MEMORY && len <= PAYLOAD_MEMORY
    ensures p.Accepted? ==> 1 <= p.req.window <= 32 && 1 <= p.req.ackEvery <= 32
    ensures p.Accepted? ==> p.req.flags <= 1
  {
    if len < HEADER then Rejected(ERR_BAD_HEADER)
    else if memory[0] != PIPE_VERSION then Rejected(ERR_BAD_HEADER)
    else if memory[1] > 3 then Rejected(ERR_UNKNOWN_FLAG)
    else if memory[1] >= 2 then
      if len < HEADER_PARTIAL then Rejected(ERR_BAD_HEADER) else Rejected(ERR_PARTIAL_UNSUPPORTED)
    else if !(PIPE_WINDOW_LIMIT_LO <= memory[2] <= PIPE_WINDOW_LIMIT_HI)
         || !(PIPE_WINDOW_LIMIT_LO <= memory[3] <= PIPE_WINDOW_LIMIT_HI) then Rejected(ERR_BAD_HEADER)
    else
      Accepted(PipeStartRequest(memory[1], memory[2], memory[3], GetU16(memory[4..]), GetU32(memory[6..])))
  }

  function PipeStartHeader(req: PipeStartRequest): seq<Byte>
  {
    [PIPE_VERSION, req.flags, req.window, req.ackEvery] + PutU16(req.clientMaxFrame) + PutU32(req.totalSize)
  }

  // A request the engine may be asked for: known flags but partial, numbers in range.
  predicate Legal(req: PipeStartRequest) {
    req.flags <= 1 && 1 <= req.window <= 32 && 1 <= req.ackEvery <= 32
  }

  ghost predicate BeginsWithLegal(memory: seq<Byte>) {
    exists req: PipeStartRequest :: Legal(req) && PipeStartHeader(req) <= memory
  }

  // Exactly the headers of legal requests are accepted, each as the request it encodes. Of the
  // rest, a full partial header and an unknown flag have codes of their own, whatever follows;
  // everything else, all short payloads included, is a bad header.
  lemma PipeStartVerdict(memory: seq<Byte>, len: nat)
    requires |memory| == PAYLOAD_MEMORY && len <= PAYLOAD_MEMORY
    ensures var p := ParsePipeStart(memory, len);
            && (p.Accepted? <==> len >= HEADER && BeginsWithLegal(memory))
            && (p.Accepted? ==> Legal(p.req) && PipeStartHeader(p.req) <= memory)
            && (p.Rejected? ==>
                  p.scopedError == if len < HEADER || memory[0] != PIPE_VERSION then ERR_BAD_HEADER
                                   else if memory[1] > 3 then ERR_UNKNOWN_FLAG
                                   else if memory[1] >= 2 && len >= HEADER_PARTIAL then ERR_PARTIAL_UNSUPPORTED
                                   else ERR_BAD_HEADER)
  {
    var p := ParsePipeStart(memory, len);
    if p.Accepted? {
      var h := PipeStartHeader(p.req);
      assert memory[4..][..2] == PutU16(p.req.clientMaxFrame) == h[4..6];
      PutBack32(memory[6..]);
      assert memory[6..][..4] == PutU32(p.req.totalSize) == h[6..10];
      forall i | 0 <= i < 10
        ensures h[i] == memory[i]
      {
        assert 4 <= i < 6 ==> memory[i] == memory[4..][..2][i - 4] && h[i] == h[4..6][i - 4];
        assert 6 <= i ==> memory[i] == memory[6..][..4][i - 6] && h[i] == h[6..10][i - 6];
      }
    }
    if req: PipeStartRequest :| Legal(req) && PipeStartHeader(req) <= memory {
      var h := PipeStartHeader(req);
      assert forall i | 0 <= i < 4 :: memory[i] == h[i];
    }
  }

  lemma PutBack32(s: seq<Byte>)
    requires |s| >= 4
    ensures PutU32(GetU32(s)) == s[..4]
  {
    var low, high := GetU16(s), GetU16(s[2..]);
    assert GetU32(s) % TWO_TO_16 == low && GetU32(s) / TWO_TO_16 == high;
    assert PutU16(low) == s[..2] && PutU16(high) == s[2..][..2];
  }

  // Every request a client may make is recovered from its header, whatever follows it in the slot.
  lemma PipeStartRoundTrip(req: PipeStartRequest, memory: seq<Byte>, len: nat)
    requires req.flags <= 1 && 1 <= req.window <= 32 && 1 <= req.ackEvery <= 32
    requires |memory| == PAYLOAD_MEMORY && 10 <= len <= PAYLOAD_MEMORY
    requires PipeStartHeader(req) <= memory
    ensures ParsePipeStart(memory, len) == Accepted(req)
  {
    var h := PipeStartHeader(req);
    assert h[4..6] == PutU16(req.clientMaxFrame);
    assert h[6..10] == PutU32(req.totalSize);
    assert forall i | 0 <= i < 10 :: memory[i] == h[i];
    assert GetU16(memory[4..]) == GetU16(h[4..6]);
    assert GetU32(memory[6..]) == GetU32(h[6..10]);
  }

  // The verdict depends on the payload alone exactly when the payload is not an
  // otherwise acceptable header of 8 or 9 bytes; then total_size comes from stale memory.
  lemma PipeStartReadsPayloadOnly(payload: seq<Byte>)
    requires |payload| <= PAYLOAD_MEMORY
    ensures (forall m, m' | SlotHolds(m, payload) && SlotHolds(m', payload) ::
               ParsePipeStart(m, |payload|) == ParsePipeStart(m', |payload|))
       <==> !(8 <= |payload| <= 9 && payload[0] == PIPE_VERSION && payload[1] <= 1
              && 1 <= payload[2] <= 32 && 1 <= payload[3] <= 32)
  {
    var zeros: seq<Byte> := seq(PAYLOAD_MEMORY - |payload|, _ => 0);
    var ones: seq<Byte> := seq(PAYLOAD_MEMORY - |payload|, _ => 1);
    var m0, m1 := payload + zeros, payload + ones;
    assert SlotHolds(m0, payload) && SlotHolds(m1, payload);
    if 8 <= |payload| <= 9 && payload[0] == PIPE_VERSION && payload[1] <= 1
       && 1 <= payload[2] <= 32 && 1 <= payload[3] <= 32 {
      assert forall i | 0 <= i < 4 :: m0[i] == payload[i] && m1[i] == payload[i];
      assert m0[6..][3] == 0 && m1[6..][3] == 1;
      assert m0[6..][0] == m1[6..][0] && m0[6..][1] == m1[6..][1];
    } else {
      forall m, m' | SlotHolds(m, payload) && SlotHolds(m', payload)
        ensures ParsePipeStart(m, |payload|) == ParsePipeStart(m', |payload|)
      {
        assert forall i | 0 <= i < |payload| :: m[i] == payload[i] == m'[i];
        if |payload| >= 10 {
          assert m[4..][..6] == m'[4..][..6];
          assert forall i | 0 <= i < 6 :: m[4..][i] == m[4 + i] && m'[4..][i] == m'[4 + i];
          assert forall i | 0 <= i < 4 :: m[6..][i] == m[6 + i] && m'[6..][i] == m'[6 + i];
        }
      }
    }
  }

  predicate SlotHolds(memory: seq<Byte>, payload: seq<Byte>) {
    |memory| == PAYLOAD_MEMORY && payload <= memory
  }
}
