// What a client reads: the answer to every frame, byte by byte as the protocol header lays it down,
// over every run of the engine, and what the engine keeps about itself.
module Replies {
  import opened Bytes
  import opened Wire
  import opened EngineModel
  import opened EngineRuns
  import opened EngineTheorems

  // The open transfer of a kind, as far as its bytes have come.
  predicate OpenFor(e: Engine, mode: Mode) {
    e.txn.state == Receiving && e.txn.mode == mode
  }

  // --- DIRECT -----------------------------------------------------------------------------------

  // A DIRECT START is answered 00 70 if it opens a transfer and FF 70 otherwise.
  lemma DirectStartAnswer(cfg: Config, steps: seq<Step>, len: nat, now: U32, ans: Answers)
    ensures var e := After(Boot(cfg), steps); var out := Handle(e, Step(DirectStart(len), now, ans));
            && out.res.response == [if out.res.transferStarted then 0x00 else 0xFF, 0x70]
            && (out.res.transferStarted <==> cfg.attached && !e.hwOwned && len == 0 && ans.begin)
            && (out.res.transferStarted ==> OpenFor(out.eng, Direct))
  {
    RunKeepsInv(cfg, steps);
  }

  // DIRECT DATA is answered 00 71 exactly when its bytes went to the panel, which is when a DIRECT
  // transfer is open, there are bytes, they fit, and the backend takes them; otherwise FF 71.
  lemma DirectDataAnswer(cfg: Config, steps: seq<Step>, payload: seq<Byte>, now: U32, ans: Answers)
    ensures var e, log := After(Boot(cfg), steps), Log(Boot(cfg), steps);
            var out := Handle(e, Step(DirectData(payload), now, ans));
            && out.res.response == [if Took(out) then 0x00 else 0xFF, 0x71]
            && (Took(out) <==> OpenFor(e, Direct) && payload != [] && ans.write
                               && |Written(cfg.fullFrameBytes, log)| + |payload| <= cfg.fullFrameBytes)
  {
    RunKeepsInv(cfg, steps);
    DataAnswer(After(Boot(cfg), steps), LedgerOf(cfg.fullFrameBytes, Log(Boot(cfg), steps)), payload, now, ans);
    hide Inv, OnDirectData;
  }

  lemma DataAnswer(e: Engine, l: Ledger, payload: seq<Byte>, now: U32, ans: Answers)
    requires Inv(e, l)
    ensures var out := OnDirectData(e, payload, now, ans);
            && out.res.response == [if Took(out) then 0x00 else 0xFF, 0x71]
            && (Took(out) <==> OpenFor(e, Direct) && payload != [] && ans.write
                               && |l.written| + |payload| <= e.cfg.fullFrameBytes)
  {
  }

  // DIRECT END is answered 00 72 exactly when it begins a refresh, which is when the open DIRECT
  // transfer has filled the frame and the backend agrees; otherwise FF 72.
  lemma DirectEndAnswer(cfg: Config, steps: seq<Step>, now: U32, ans: Answers)
    ensures var e, log := After(Boot(cfg), steps), Log(Boot(cfg), steps);
            var out := Handle(e, Step(DirectEnd, now, ans));
            && out.res.response == [if StartsRefresh(out) then 0x00 else 0xFF, 0x72]
            && (StartsRefresh(out) <==> OpenFor(e, Direct) && ans.finish && ans.refresh
                                        && |Written(cfg.fullFrameBytes, log)| == cfg.fullFrameBytes)
            && (StartsRefresh(out) <==> out.eng.txn.state == Refreshing && e.txn.state != Refreshing)
  {
    RunKeepsInv(cfg, steps);
    EndAnswer(After(Boot(cfg), steps), LedgerOf(cfg.fullFrameBytes, Log(Boot(cfg), steps)), now, ans);
  }

  lemma EndAnswer(e: Engine, l: Ledger, now: U32, ans: Answers)
    requires Inv(e, l)
    ensures var out := OnDirectEnd(e, now, ans);
            && out.res.response == [if StartsRefresh(out) then 0x00 else 0xFF, 0x72]
            && (StartsRefresh(out) <==> OpenFor(e, Direct) && ans.finish && ans.refresh
                                        && |l.written| == e.cfg.fullFrameBytes)
            && (StartsRefresh(out) <==> out.eng.txn.state == Refreshing && e.txn.state != Refreshing)
  {
    FinishAnswer(e, 0x72, now, ans);
  }

  lemma FinishAnswer(e: Engine, endOpcode: nat, now: U32, ans: Answers)
    requires endOpcode < 256
    ensures var out := FinishAndRefresh(e, endOpcode, now, ans);
            && out.res.response == [if StartsRefresh(out) then 0x00 else 0xFF, endOpcode]
            && out.eng.tail == e.tail && out.eng.cfg == e.cfg
            && (StartsRefresh(out) <==> e.txn.acceptedBytes == e.txn.expectedFrameBytes && ans.finish && ans.refresh)
            && out.eng.txn.state == (if StartsRefresh(out) then Refreshing else Idle)
            && out.res.terminalError == !StartsRefresh(out)
  {
    assert [FinishFrame(true), BeginRefresh(true)][1] == BeginRefresh(true);
  }

  // --- PIPE START --------------------------------------------------------------------------------

  // The request in plain bytes: version, flags, window, ack_every, client_max_frame, total_size.
  predicate PlainRequest(memory: seq<Byte>, len: nat)
    requires |memory| == PAYLOAD_MEMORY
  {
    len >= 8 && memory[0] == 1 && memory[1] == 0 && 1 <= memory[2] <= 32 && 1 <= memory[3] <= 32
  }

  function RequestedSize(memory: seq<Byte>): int
    requires |memory| == PAYLOAD_MEMORY
  {
    (memory[6] as int) + 0x100 * (memory[7] as int) + 0x1_0000 * (memory[8] as int) + 0x100_0000 * (memory[9] as int)
  }

  // The code of a refused START: 1 for a bad header and for a panel that cannot be had, 2 for an
  // unknown flag and for compression, 6 for a partial transfer, 3 for a size that is not the panel's.
  function RefusalCode(memory: seq<Byte>, len: nat, available: bool, full: U32): Byte
    requires |memory| == PAYLOAD_MEMORY
  {
    if len < 8 || memory[0] != 1 then 1
    else if memory[1] > 3 then 2
    else if memory[1] >= 2 then (if len >= 20 then 6 else 1)
    else if memory[2] < 1 || memory[2] > 32 || memory[3] < 1 || memory[3] > 32 then 1
    else if memory[1] == 1 then 2
    else if available && RequestedSize(memory) != full then 3
    else 1
  }

  predicate StartAnswered(e: Engine, memory: seq<Byte>, len: nat, ans: Answers, out: Outcome)
    requires |memory| == PAYLOAD_MEMORY
  {
    var free, full := e.cfg.attached && !e.hwOwned, e.cfg.fullFrameBytes;
    var window, every := Min(memory[2], 16), Min(memory[3], 4);
    var frame := Min((memory[4] as int) + 256 * (memory[5] as int), 244);
    && (out.res.transferStarted <==> PlainRequest(memory, len) && RequestedSize(memory) == full && free && ans.begin)
    && (out.res.transferStarted ==>
          && out.res.response == [0x00, 0x80, 0x01, window, every, frame % 256, frame / 256, 0x00]
          && OpenFor(out.eng, Pipe) && out.eng.txn.negotiatedWindow == window
          && out.eng.txn.negotiatedAckEvery == every && out.eng.txn.negotiatedFrame == frame)
    && (!out.res.transferStarted ==> out.res.response == [0xFF, 0x80, RefusalCode(memory, len, free, full), 0x00])
  }

  // A PIPE START is accepted for a plain request of the panel's size while nobody owns the panel. The
  // answer then announces the smaller of what was asked and what the device offers, and those are
  // the numbers the transfer goes by; otherwise it carries the code of the reason.
  lemma PipeStartAnswer(cfg: Config, steps: seq<Step>, memory: seq<Byte>, len: nat, now: U32, ans: Answers)
    requires |memory| == PAYLOAD_MEMORY && len <= PAYLOAD_MEMORY
    ensures var e := After(Boot(cfg), steps);
            StartAnswered(e, memory, len, ans, Handle(e, Step(PipeStart(memory, len), now, ans))) && e.cfg == cfg
  {
    hide StartAnswered, OnPipeStart;
    RunKeepsInv(cfg, steps);
    StartAnswer(After(Boot(cfg), steps), memory, len, now, ans);
  }

  lemma StartAnswer(e: Engine, memory: seq<Byte>, len: nat, now: U32, ans: Answers)
    requires |memory| == PAYLOAD_MEMORY && len <= PAYLOAD_MEMORY
    ensures StartAnswered(e, memory, len, ans, OnPipeStart(e, memory, len, now, ans))
  {
    HeaderRead(memory);
    var p := ParsePipeStart(memory, len);
    if p.Accepted? {
      BeginAnswers(e, Pipe, p.req.totalSize, now, ans);
      Announced(Min(p.req.window, 16), Min(p.req.ackEvery, 4), Min(p.req.clientMaxFrame, 244));
    }
    hide BeginTransaction, EncodePipeStartResponse, GetU16, GetU32;
  }

  lemma HeaderRead(memory: seq<Byte>)
    requires |memory| == PAYLOAD_MEMORY
    ensures GetU16(memory[4..]) == (memory[4] as int) + 256 * (memory[5] as int)
    ensures GetU32(memory[6..]) == RequestedSize(memory)
  {
    assert memory[6..][2..] == memory[8..];
  }

  lemma Announced(window: Byte, every: Byte, frame: U16)
    ensures EncodePipeStartResponse(window, every, frame)
         == [0x00, 0x80, 0x01, window, every, frame % 256, frame / 256, 0x00]
  {
  }

  lemma BeginAnswers(e: Engine, mode: Mode, total: U32, now: U32, ans: Answers)
    ensures var b := BeginTransaction(e, mode, total, now, ans);
            && (b.why == NoError <==> e.cfg.attached && !e.hwOwned && total == e.cfg.fullFrameBytes && ans.begin)
            && (b.why == InvalidSize <==> e.cfg.attached && !e.hwOwned && total != e.cfg.fullFrameBytes)
            && (b.why == NoError ==> OpenFor(b.eng, mode))
  {
  }

  // --- The SACK, laid out ------------------------------------------------------------------------

  function Doubled(q: nat, times: nat): nat {
    if times == 0 then q else 2 * Doubled(q, times - 1)
  }

  // Numbers that differ by a multiple of 2^k agree in their k lowest bits.
  lemma {:induction false} SameLowBits(a: nat, b: nat, q: nat, k: nat, i: nat)
    requires i < k && a == b + Doubled(q, k)
    ensures Bit(a, i) == Bit(b, i)
    decreases i
  {
    assert Doubled(q, k) == 2 * Doubled(q, k - 1);
    if i == 0 {
    } else {
      SameLowBits(a / 2, b / 2, q, k - 1, i - 1);
    }
  }

  lemma LowByte(v: nat, i: nat)
    requires i < 8
    ensures Bit(v % 256, i) == Bit(v, i)
  {
    var q := v / 256;
    assert Doubled(q, 1) == 2 * q;
    assert Doubled(q, 2) == 4 * q;
    assert Doubled(q, 4) == 16 * q;
    assert Doubled(q, 6) == 64 * q;
    assert Doubled(q, 8) == 256 * q;
    SameLowBits(v, v % 256, q, 8, i);
  }

  lemma BitOfNextByte(v: nat, i: nat)
    requires i >= 8
    ensures Bit(v, i) == Bit(v / 256, i - 8)
  {
    assert Bit(v, i) == Bit(v / 2 / 2, i - 2);
    assert Bit(v / 4, i - 2) == Bit(v / 4 / 2 / 2, i - 4);
    assert Bit(v / 16, i - 4) == Bit(v / 16 / 2 / 2, i - 6);
    assert Bit(v / 64, i - 6) == Bit(v / 64 / 2 / 2, i - 8);
  }

  // What is left of a number without its lowest j bytes.
  function Above(v: nat, j: nat): nat
    decreases j
  {
    if j == 0 then v else Above(v / 256, j - 1)
  }

  lemma {:induction false} BitOfByte(v: nat, i: nat)
    ensures Bit(Above(v, i / 8) % 256, i % 8) == Bit(v, i)
    decreases i
  {
    if i < 8 {
      LowByte(v, i);
    } else {
      hide Bit;
      BitOfNextByte(v, i);
      BitOfByte(v / 256, i - 8);
      assert (i - 8) / 8 == i / 8 - 1 && (i - 8) % 8 == i % 8;
    }
  }

  lemma By256(v: nat, q: nat, r: nat)
    requires v == 256 * q + r && r < 256
    ensures v / 256 == q && v % 256 == r
  {
  }

  lemma LowWord(v: nat)
    ensures v % 0x1_0000 % 256 == v % 256 && v % 0x1_0000 / 256 == v / 256 % 256 && v / 0x1_0000 == v / 256 / 256
  {
    var q, w := v / 0x1_0000, v % 0x1_0000;
    var b, c := w / 256, w % 256;
    By256(v, 256 * q + b, c);
    By256(256 * q + b, q, b);
  }

  lemma FourBytes(v: U32)
    ensures PutU32(v) == [v % 256, v / 256 % 256, v / 256 / 256 % 256, v / 256 / 256 / 256]
  {
    LowWord(v);
  }

  lemma LittleEndian(v: U32, j: nat)
    requires j < 4
    ensures PutU32(v)[j] == Above(v, j) % 256
  {
    FourBytes(v);
    hide PutU32;
    var a := v / 256;
    var b := a / 256;
    assert Above(v, 0) == v && Above(a, 0) == a && Above(b, 0) == b && Above(b / 256, 0) == b / 256;
    assert Above(b, 1) == Above(b / 256, 0) && Above(a, 1) == Above(b, 0) && Above(v, 1) == Above(a, 0);
    assert Above(a, 2) == Above(b, 1) && Above(v, 2) == Above(a, 1) && Above(v, 3) == Above(a, 2);
    assert 0 <= b / 256 < 256;
  }

  // Bit i of a number is bit i mod 8 of byte i / 8 of its little-endian form.
  lemma BitInByte(v: U32, i: nat)
    requires i < 32
    ensures Bit(PutU32(v)[i / 8], i % 8) == Bit(v, i)
  {
    LittleEndian(v, i / 8);
    BitOfByte(v, i);
    hide Bit, Above, PutU32;
  }

  // Seven bytes: 00 81, the newest sequence number, and four mask bytes, lowest first, whose bit i
  // stands for the chunk i + 1 before the newest.
  predicate LaidOut(r: Response, n: nat) {
    && |r| == 7 && r[0] == 0x00 && r[1] == 0x81 && r[2] == (if n == 0 then 0 else (n - 1) % 256)
    && forall i | 0 <= i < 32 :: Bit(r[3 + i / 8], i % 8) <==> i + 1 < n % 0x1_0000_0000
  }

  lemma SackLaidOut(n: nat)
    ensures LaidOut(SackAfter(n), n)
  {
    var r, m := SackAfter(n), n % TWO_TO_32;
    forall i | 0 <= i < 32
      ensures Bit(r[3 + i / 8], i % 8) <==> i + 1 < m
    {
      BitInByte(BuildInorderAckMask(m), i);
      MaskBits(m, i);
      assert r[3 + i / 8] == PutU32(BuildInorderAckMask(m))[i / 8];
    }
  }

  // --- PIPE DATA and END -------------------------------------------------------------------------

  // The numbers a NACK reports: those of the chunks accepted, also while their refresh is pending,
  // and none for anything but a PIPE transfer.
  predicate Placed(e: Engine, l: Ledger) {
    var n := if e.txn.mode == Pipe then l.packets else 0;
    && e.txn.highestSeen == (if n == 0 then 0 else (n - 1) % 256)
    && e.txn.acceptedPackets == n % TWO_TO_32
  }

  // 0xFF 0x81, the code, and the newest sequence number and mask as in the SACK for n chunks.
  predicate NackLaidOut(r: Response, code: Byte, n: nat) {
    |r| == 8 && r[0] == 0xFF && r[1] == 0x81 && r[2] == code && LaidOut([0x00, 0x81] + r[3..], n)
  }

  // A chunk the panel took, the (n + 1)-th of its transfer.
  predicate TakenAnswer(e: Engine, n: nat, fills: bool, ans: Answers, out: Outcome) {
    var r := out.res.response;
    if fills then
      && out.eng.tail.Some? && LaidOut(out.eng.tail.value, n + 1)
      && r == [if StartsRefresh(out) then 0x00 else 0xFF, 0x82]
      && (StartsRefresh(out) <==> ans.finish && ans.refresh)
    else
      && out.eng.tail == e.tail && !StartsRefresh(out)
      && e.txn.negotiatedAckEvery > 0
      && (if (n + 1) % e.txn.negotiatedAckEvery == 0 then LaidOut(r, n + 1) else r == [])
  }

  // Everything PIPE DATA can be answered with.
  predicate ChunkAnswered(e: Engine, l: Ledger, payload: seq<Byte>, ans: Answers, out: Outcome) {
    var n, r, size := l.packets, out.res.response, |l.written| + |payload| - 1;
    if e.txn.pipeFatal then r == [] && !Took(out)
    else if !OpenFor(e, Pipe) then NackLaidOut(r, 0x04, if e.txn.mode == Pipe then n else 0) && !Took(out)
    else if payload == [] then r == [0xFF, 0x81, 0x04, 0, 0, 0, 0, 0] && !Took(out)
    else if payload[0] != n % 256 then LaidOut(r, n) && !Took(out)
    else if !ans.write || size > e.cfg.fullFrameBytes then r == [0xFF, 0x81, 0x03, 0, 0, 0, 0, 0] && !Took(out)
    else Took(out) && TakenAnswer(e, n, size == e.cfg.fullFrameBytes, ans, out)
  }

  // After a fatal NACK nothing; to a stray frame NACK 4, to a chunk out of order the SACK of those
  // accepted, to one that does not fit or that the backend refuses NACK 3; to the chunk that fills
  // the frame the tail SACK and 00 82 with the refresh begun, or FF 82; to every ack_every-th of
  // the others a SACK.
  lemma PipeDataAnswer(cfg: Config, steps: seq<Step>, payload: seq<Byte>, now: U32, ans: Answers)
    ensures var e, l := After(Boot(cfg), steps), LedgerOf(cfg.fullFrameBytes, Log(Boot(cfg), steps));
            ChunkAnswered(e, l, payload, ans, Handle(e, Step(PipeData(payload), now, ans))) && e.cfg == cfg
  {
    hide ChunkAnswered, OnPipeData, Inv, After, Log, LedgerOf;
    RunKeepsInv(cfg, steps);
    RunKeepsPlace(cfg, steps);
    ChunkAnswer(After(Boot(cfg), steps), LedgerOf(cfg.fullFrameBytes, Log(Boot(cfg), steps)), payload, now, ans);
  }

  predicate EndAnswered(e: Engine, l: Ledger, out: Outcome) {
    && out.res.response == [if StartsRefresh(out) then 0x00 else 0xFF, 0x82]
    && (if OpenFor(e, Pipe) && e.txn.negotiatedAckEvery > 0 && l.packets % e.txn.negotiatedAckEvery != 0
        then out.eng.tail.Some? && LaidOut(out.eng.tail.value, l.packets)
        else out.eng.tail == e.tail)
  }

  // PIPE END is answered FF 82 unless it begins a refresh; in an open transfer it first stages the
  // tail SACK, if and only if chunks have been accepted since the last one.
  lemma PipeEndAnswer(cfg: Config, steps: seq<Step>, now: U32, ans: Answers)
    ensures var e, l := After(Boot(cfg), steps), LedgerOf(cfg.fullFrameBytes, Log(Boot(cfg), steps));
            EndAnswered(e, l, Handle(e, Step(PipeEnd, now, ans)))
  {
    hide EndAnswered, OnPipeEnd, Inv, After, Log, LedgerOf;
    RunKeepsInv(cfg, steps);
    PipeEndAnswers(After(Boot(cfg), steps), LedgerOf(cfg.fullFrameBytes, Log(Boot(cfg), steps)), now, ans);
  }

  lemma PipeEndAnswers(e: Engine, l: Ledger, now: U32, ans: Answers)
    requires Inv(e, l)
    ensures EndAnswered(e, l, OnPipeEnd(e, now, ans))
  {
    if OpenFor(e, Pipe) {
      var flushed := e.txn.(acceptedSinceAck := 0);
      SackOfState(e.txn, l);
      SackLaidOut(l.packets);
      FinishAnswer(e, 0x82, now, ans);
      FinishAnswer(e.(txn := flushed, tail := Some(CurrentSack(flushed))), 0x82, now, ans);
      assert CurrentSack(flushed) == CurrentSack(e.txn);
      hide FinishAndRefresh, SackAfter, LaidOut, CurrentSack;
    }
  }

  lemma ChunkAnswer(e: Engine, l: Ledger, payload: seq<Byte>, now: U32, ans: Answers)
    requires Inv(e, l) && Placed(e, l)
    ensures ChunkAnswered(e, l, payload, ans, OnPipeData(e, payload, now, ans))
  {
    if !e.txn.pipeFatal && !OpenFor(e, Pipe) {
      StrayAnswer(e, l, payload, now, ans);
    } else if OpenFor(e, Pipe) && payload != [] {
      SackOfState(e.txn, l);
      SackLaidOut(l.packets);
      if payload[0] == l.packets % 256 {
        StoreAnswer(e, l, payload[0], payload[1..], now, ans);
      }
      hide StoreChunk, SackAfter, LaidOut, CurrentSack;
    }
  }

  lemma StrayAnswer(e: Engine, l: Ledger, payload: seq<Byte>, now: U32, ans: Answers)
    requires Placed(e, l) && !e.txn.pipeFatal && !OpenFor(e, Pipe)
    ensures var out := OnPipeData(e, payload, now, ans);
            NackLaidOut(out.res.response, 0x04, if e.txn.mode == Pipe then l.packets else 0) && !Took(out)
  {
    var n := if e.txn.mode == Pipe then l.packets else 0;
    var r := OnPipeData(e, payload, now, ans).res.response;
    SackLaidOut(n);
    assert [0x00, 0x81] + r[3..] == SackAfter(n);
    hide LaidOut;
  }

  lemma StoreAnswer(e: Engine, l: Ledger, seqNo: Byte, data: seq<Byte>, now: U32, ans: Answers)
    requires Inv(e, l) && OpenFor(e, Pipe) && seqNo == e.txn.nextPipeSequence
    ensures var out := StoreChunk(e, seqNo, data, now, ans); var size := |l.written| + |data|;
            if !ans.write || size > e.cfg.fullFrameBytes
            then out.res.response == [0xFF, 0x81, 0x03, 0, 0, 0, 0, 0] && !Took(out)
            else Took(out) && TakenAnswer(e, l.packets, size == e.cfg.fullFrameBytes, ans, out)
  {
    if ans.write && |l.written| + |data| <= e.cfg.fullFrameBytes {
      StoreTaken(e, l, seqNo, data, now, ans);
      AcceptedAnswer(e, l, data, now, ans);
      var out, rest := StoreChunk(e, seqNo, data, now, ans), AckOrFinish(AcceptChunk(e, seqNo, data, now), now, ans);
      hide Inv, AckOrFinish, AcceptChunk, LaidOut, StoreChunk, PostAll;
      BehindWrite(e, l.packets, |l.written| + |data| == e.cfg.fullFrameBytes, ans, rest, out,
                  WriteContiguous(e.txn.acceptedBytes, data, true));
    } else {
      RefusedAnswer(e, seqNo, data, now, ans);
      hide StoreChunk;
    }
  }

  lemma RefusedAnswer(e: Engine, seqNo: Byte, data: seq<Byte>, now: U32, ans: Answers)
    requires !ans.write || |data| > Sub32(e.txn.expectedFrameBytes, e.txn.acceptedBytes)
    ensures var out := StoreChunk(e, seqNo, data, now, ans);
            out.res.response == [0xFF, 0x81, 0x03, 0, 0, 0, 0, 0] && !Took(out)
  {
  }

  lemma BehindWrite(e: Engine, n: nat, fills: bool, ans: Answers, rest: Outcome, out: Outcome, write: Call)
    requires TakenAnswer(e, n, fills, ans, rest) && write.WriteContiguous? && write.ok
    requires out == Outcome(rest.eng, rest.res, [write] + rest.calls)
    ensures Took(out) && TakenAnswer(e, n, fills, ans, out)
  {
    hide LaidOut;
    assert StartsRefresh(out) <==> StartsRefresh(rest);
  }

  lemma AcceptedAnswer(e: Engine, l: Ledger, data: seq<Byte>, now: U32, ans: Answers)
    requires Inv(e, l) && OpenFor(e, Pipe) && |l.written| + |data| <= e.cfg.fullFrameBytes
    ensures TakenAnswer(e, l.packets, |l.written| + |data| == e.cfg.fullFrameBytes, ans,
                        AckOrFinish(AcceptChunk(e, e.txn.nextPipeSequence, data, now), now, ans))
  {
    var a := AcceptChunk(e, e.txn.nextPipeSequence, data, now);
    AcceptedCounters(e, l, data, now);
    AcceptedCadence(e, l, data, now);
    SackLaidOut(l.packets + 1);
    FinishAnswer(a.(tail := Some(CurrentSack(a.txn)), txn := a.txn.(acceptedSinceAck := 0)), 0x82, now, ans);
    hide LaidOut, SackAfter, FinishAndRefresh, CurrentSack;
  }

  // --- The numbers stay in place -------------------------------------------------------------------

  lemma {:induction false} RunKeepsPlace(cfg: Config, steps: seq<Step>)
    ensures Placed(After(Boot(cfg), steps), LedgerOf(cfg.fullFrameBytes, Log(Boot(cfg), steps)))
    decreases |steps|
  {
    if steps == [] {
    } else {
      var init, last := steps[..|steps| - 1], steps[|steps| - 1];
      var e, log := After(Boot(cfg), init), Log(Boot(cfg), init);
      RunKeepsPlace(cfg, init);
      RunKeepsInv(cfg, init);
      StepKeepsPlace(e, LedgerOf(cfg.fullFrameBytes, log), last);
      LedgerConcat(cfg.fullFrameBytes, log, Handle(e, last).calls);
      hide Handle, Placed, Inv;
    }
  }

  lemma StepKeepsPlace(e: Engine, l: Ledger, s: Step)
    requires Inv(e, l) && Placed(e, l)
    ensures Placed(Handle(e, s).eng, PostAll(l, e.cfg.fullFrameBytes, Handle(e, s).calls))
  {
    hide OnDirectStart, OnPipeStart, OnPipeData, OnDirectData, OnDirectEnd, OnPipeEnd, Tick, Abort, OnDisconnect,
         Placed, PostAll;
    match s.ev {
      case DirectStart(_) => StartKeepsPlace(e, l, s);
      case PipeStart(_, _) => StartKeepsPlace(e, l, s);
      case DirectData(payload) => DirectDataKeepsPlace(e, l, payload, s.now, s.ans);
      case PipeData(payload) => PipeDataKeepsPlace(e, l, payload, s.now, s.ans);
      case DirectEnd => EndKeepsPlace(e, l, s.now, s.ans);
      case PipeEnd => EndKeepsPlace(e, l, s.now, s.ans);
      case _ => OtherKeepsPlace(e, l, s);
    }
  }

  // The calls neither begin a frame nor write to it, and the transaction keeps its numbers or is gone.
  predicate StaysPut(t: Transaction, out: Outcome) {
    && (forall c | c in out.calls :: Quiet(c))
    && (out.eng.txn == BLANK
        || (out.eng.txn.mode == t.mode && out.eng.txn.highestSeen == t.highestSeen
            && out.eng.txn.acceptedPackets == t.acceptedPackets))
  }

  lemma TickPlace(e: Engine, now: U32, ans: Answers)
    ensures StaysPut(e.txn, Tick(e, now, ans))
  {
  }

  lemma OtherPlace(e: Engine, s: Step)
    requires !IsStart(s.ev) && !s.ev.DirectData? && !s.ev.PipeData? && !s.ev.DirectEnd? && !s.ev.PipeEnd?
    ensures StaysPut(e.txn, Handle(e, s))
  {
    hide Tick;
    if s.ev.TickAt? {
      TickPlace(e, s.now, s.ans);
      hide StaysPut;
    }
  }

  lemma OtherKeepsPlace(e: Engine, l: Ledger, s: Step)
    requires Placed(e, l) && !IsStart(s.ev)
    requires !s.ev.DirectData? && !s.ev.PipeData? && !s.ev.DirectEnd? && !s.ev.PipeEnd?
    ensures Placed(Handle(e, s).eng, PostAll(l, e.cfg.fullFrameBytes, Handle(e, s).calls))
  {
    hide Handle, PostAll, Post;
    OtherPlace(e, s);
    QuietCallsKeepFrame(l, e.cfg.fullFrameBytes, Handle(e, s).calls);
  }

  lemma DirectDataKeepsPlace(e: Engine, l: Ledger, payload: seq<Byte>, now: U32, ans: Answers)
    requires Placed(e, l)
    ensures var out := OnDirectData(e, payload, now, ans);
            Placed(out.eng, PostAll(l, e.cfg.fullFrameBytes, out.calls))
  {
    var out := OnDirectData(e, payload, now, ans);
    if e.txn.mode == Pipe || !Took(out) {
      QuietCallsKeepFrame(l, e.cfg.fullFrameBytes, out.calls);
    }
    hide PostAll, Post;
  }

  lemma StartKeepsPlace(e: Engine, l: Ledger, s: Step)
    requires Inv(e, l) && Placed(e, l) && IsStart(s.ev)
    ensures Placed(Handle(e, s).eng, PostAll(l, e.cfg.fullFrameBytes, Handle(e, s).calls))
  {
    hide Handle, Inv, PostAll;
    StartPlace(e, s);
    if Handle(e, s).res.transferStarted {
      StartClears(e, l, s);
    } else {
      QuietCallsKeepFrame(l, e.cfg.fullFrameBytes, Handle(e, s).calls);
    }
  }

  lemma StartPlace(e: Engine, s: Step)
    requires IsStart(s.ev)
    ensures var out := Handle(e, s);
            && (out.res.transferStarted ==> out.eng.txn.highestSeen == 0 && out.eng.txn.acceptedPackets == 0)
            && (!out.res.transferStarted ==>
                  (out.eng.txn == e.txn || out.eng.txn == BLANK) && forall c | c in out.calls :: Quiet(c))
  {
  }

  lemma StartClears(e: Engine, l: Ledger, s: Step)
    requires Inv(e, l) && IsStart(s.ev) && Handle(e, s).res.transferStarted
    ensures PostAll(l, e.cfg.fullFrameBytes, Handle(e, s).calls).packets == 0
  {
    if s.ev.DirectStart? {
      BeginKeepsInv(e, l, Direct, e.cfg.fullFrameBytes, s.now, s.ans);
    } else {
      BeginKeepsInv(e, l, Pipe, ParsePipeStart(s.ev.memory, s.ev.len).req.totalSize, s.now, s.ans);
    }
  }

  lemma EndKeepsPlace(e: Engine, l: Ledger, now: U32, ans: Answers)
    requires Placed(e, l)
    ensures Placed(OnDirectEnd(e, now, ans).eng, PostAll(l, e.cfg.fullFrameBytes, OnDirectEnd(e, now, ans).calls))
    ensures Placed(OnPipeEnd(e, now, ans).eng, PostAll(l, e.cfg.fullFrameBytes, OnPipeEnd(e, now, ans).calls))
  {
    EndPlace(e, now, ans);
    QuietCallsKeepFrame(l, e.cfg.fullFrameBytes, OnDirectEnd(e, now, ans).calls);
    QuietCallsKeepFrame(l, e.cfg.fullFrameBytes, OnPipeEnd(e, now, ans).calls);
    hide OnDirectEnd, OnPipeEnd, PostAll;
  }

  // The end of a frame moves nothing but the state.
  lemma FinishPlace(e: Engine, endOpcode: nat, now: U32, ans: Answers)
    ensures StaysPut(e.txn, FinishAndRefresh(e, endOpcode, now, ans))
  {
  }

  lemma EndPlace(e: Engine, now: U32, ans: Answers)
    ensures StaysPut(e.txn, OnDirectEnd(e, now, ans)) && StaysPut(e.txn, OnPipeEnd(e, now, ans))
  {
    FinishPlace(e, CMD_DIRECT_WRITE_END, now, ans);
    FinishPlace(e, CMD_PIPE_WRITE_END, now, ans);
    var flushed := e.txn.(acceptedSinceAck := 0);
    FinishPlace(e.(txn := flushed, tail := Some(CurrentSack(flushed))), CMD_PIPE_WRITE_END, now, ans);
    hide FinishAndRefresh, CurrentSack;
  }

  lemma PipeDataKeepsPlace(e: Engine, l: Ledger, payload: seq<Byte>, now: U32, ans: Answers)
    requires Inv(e, l) && Placed(e, l)
    ensures var out := OnPipeData(e, payload, now, ans);
            Placed(out.eng, PostAll(l, e.cfg.fullFrameBytes, out.calls))
  {
    var out := OnPipeData(e, payload, now, ans);
    if OpenFor(e, Pipe) && payload != [] && payload[0] == e.txn.nextPipeSequence {
      StoreKeepsPlace(e, l, payload[0], payload[1..], now, ans);
      hide StoreChunk;
    } else {
      QuietCallsKeepFrame(l, e.cfg.fullFrameBytes, out.calls);
    }
  }

  // The counters of an accepted chunk, whatever its acknowledgement does besides.
  lemma CountedPlace(a: Transaction, l: Ledger, out: Outcome)
    requires a.mode == Pipe && a.highestSeen == (l.packets - 1) % 256 && a.acceptedPackets == l.packets % TWO_TO_32
    requires l.packets > 0
    requires out.eng.txn == BLANK
             || (out.eng.txn.mode == a.mode && out.eng.txn.highestSeen == a.highestSeen
                 && out.eng.txn.acceptedPackets == a.acceptedPackets)
    ensures Placed(out.eng, l)
  {
  }

  lemma StoreKeepsPlace(e: Engine, l: Ledger, seqNo: Byte, data: seq<Byte>, now: U32, ans: Answers)
    requires Inv(e, l) && OpenFor(e, Pipe) && seqNo == e.txn.nextPipeSequence
    ensures var out := StoreChunk(e, seqNo, data, now, ans);
            Placed(out.eng, PostAll(l, e.cfg.fullFrameBytes, out.calls))
  {
    hide StoreChunk, AckOrFinish, PostAll, CurrentSack, SackAfter;
    var out := StoreChunk(e, seqNo, data, now, ans);
    if ans.write && |data| <= Sub32(e.txn.expectedFrameBytes, e.txn.acceptedBytes) {
      var a := AcceptChunk(e, seqNo, data, now);
      assert |l.written| + |data| <= e.cfg.fullFrameBytes;
      AcceptedCounters(e, l, data, now);
      assert a.txn.mode == Pipe;
      StoreTaken(e, l, seqNo, data, now, ans);
      AcknowledgedPlace(a, now, ans);
      hide Inv, AcceptChunk, Placed;
      CountedPlace(a.txn, PostAll(l, e.cfg.fullFrameBytes, out.calls), out);
    } else {
      RefusedIsBlank(e, seqNo, data, now, ans);
      hide Inv;
    }
  }

  lemma RefusedIsBlank(e: Engine, seqNo: Byte, data: seq<Byte>, now: U32, ans: Answers)
    requires !ans.write || |data| > Sub32(e.txn.expectedFrameBytes, e.txn.acceptedBytes)
    ensures StoreChunk(e, seqNo, data, now, ans).eng.txn == BLANK
  {
  }

  lemma AcknowledgedPlace(a: Engine, now: U32, ans: Answers)
    ensures var t := AckOrFinish(a, now, ans).eng.txn;
            || t == BLANK
            || (t.mode == a.txn.mode && t.highestSeen == a.txn.highestSeen
                && t.acceptedPackets == a.txn.acceptedPackets)
  {
  }
}
