// The transfer engine as an object: its handlers update their fields step by step and drive a
// backend that may answer anything. Each handler is proved to do what the
// corresponding function of module EngineModel says, for the answers the backend happened to give.
module TransferEngines {
  import opened Bytes
  import opened Wire
  import opened EngineModel

  // Any implementation of the backend interface: the log records what was called with which
  // answer, and the answers are arbitrary.
  class Backend {
    const fullFrameBytes: U32
    const colorScheme: Byte
    ghost var log: seq<Call>

    constructor (fullFrameBytes: U32, colorScheme: Byte)
      ensures this.fullFrameBytes == fullFrameBytes && this.colorScheme == colorScheme && log == []
    {
      this.fullFrameBytes, this.colorScheme := fullFrameBytes, colorScheme;
      log := [];
    }

    method DoAbortTransfer()
      modifies this
      ensures log == old(log) + [AbortTransfer]
    {
      log := log + [AbortTransfer];
    }

    method DoBeginFrame(frame: FrameDescriptor) returns (ok: bool)
      modifies this
      ensures log == old(log) + [BeginFrame(frame, ok)]
    {
      ok := *;
      log := log + [BeginFrame(frame, ok)];
    }

    method DoWriteContiguous(offset: U32, data: seq<Byte>) returns (ok: bool)
      modifies this
      ensures log == old(log) + [WriteContiguous(offset, data, ok)]
    {
      ok := *;
      log := log + [WriteContiguous(offset, data, ok)];
    }

    method DoFinishFrame() returns (ok: bool)
      modifies this
      ensures log == old(log) + [FinishFrame(ok)]
    {
      ok := *;
      log := log + [FinishFrame(ok)];
    }

    method DoBeginRefresh() returns (ok: bool)
      modifies this
      ensures log == old(log) + [BeginRefresh(ok)]
    {
      ok := *;
      log := log + [BeginRefresh(ok)];
    }

    method DoPollRefresh() returns (result: PollResult)
      modifies this
      ensures log == old(log) + [PollRefresh(result)]
    {
      result := *;
      log := log + [PollRefresh(result)];
    }
  }

  const ANY_ANSWERS := Answers(false, false, false, false, Pending)

  // Acknowledging a chunk asks the backend for no write.
  lemma AckIgnoresWrite(a: Engine, now: U32, ans: Answers, write: bool)
    ensures AckOrFinish(a, now, ans) == AckOrFinish(a, now, ans.(write := write))
  {
  }

  class TransferEngine {
    const backend: Backend?
    var transferTimeout: U32
    var refreshTimeout: U32
    var txn: Transaction
    var stats: Stats
    var lastError: ErrorCode
    var hwOwned: bool
    var connectionGeneration: U32
    var pendingTailSack: Response
    var hasTailSack: bool

    // A transaction exists only over a backend: the guard in begin_transaction_ sees to it.
    ghost predicate Valid()
      reads this
    {
      txn.state != Idle ==> backend != null
    }

    ghost function Log(): seq<Call>
      reads backend
    {
      if backend == null then [] else backend.log
    }

    ghost function View(): Engine
      reads this
    {
      Engine(
        Config(backend != null,
               if backend == null then 0 else backend.fullFrameBytes,
               if backend == null then 0 else backend.colorScheme,
               transferTimeout, refreshTimeout),
        txn, stats, lastError, hwOwned, connectionGeneration,
        if hasTailSack then Some(pendingTailSack) else None)
    }

    constructor (backend: Backend?)
      ensures Valid() && this.backend == backend
      ensures View() == Boot(View().cfg) && transferTimeout == 30000 && refreshTimeout == 180000
    {
      this.backend := backend;
      transferTimeout, refreshTimeout := 30000, 180000;
      txn, stats, lastError := BLANK, Stats(0, 0, 0, 0, 0, 0, 0), NoError;
      hwOwned, connectionGeneration := false, 0;
      pendingTailSack, hasTailSack := [], false;
    }

    method SetTimeouts(transferMs: U32, refreshMs: U32)
      requires Valid()
      modifies this
      ensures Valid()
      ensures var cfg := old(View()).cfg;
              View() == old(View()).(cfg := cfg.(transferTimeout := transferMs, refreshTimeout := refreshMs))
    {
      transferTimeout, refreshTimeout := transferMs, refreshMs;
    }

    method SetConnectionGeneration(generation: U32)
      requires Valid()
      modifies this
      ensures Valid() && View() == old(View()).(connectionGeneration := generation)
    {
      connectionGeneration := generation;
    }

    method TakeTailSack() returns (tail: Option<Response>)
      requires Valid()
      modifies this
      ensures Valid() && tail == old(View()).tail && View() == old(View()).(tail := None)
    {
      if !hasTailSack {
        return None;
      }
      hasTailSack := false;
      return Some(pendingTailSack);
    }

    method AbortTxn(error: ErrorCode)
      requires Valid()
      modifies this, backend
      ensures Valid()
      ensures var out := Abort(old(View()), error); View() == out.eng && Log() == old(Log()) + out.calls
    {
      if txn.state != Idle {
        if backend != null {
          backend.DoAbortTransfer();
        }
        stats := stats.(transfersAborted := Inc32(stats.transfersAborted));
      }
      txn := BLANK;
      lastError := error;
    }

    method HandleDisconnect(generation: U32)
      requires Valid()
      modifies this, backend
      ensures Valid()
      ensures var out := OnDisconnect(old(View()), generation); View() == out.eng && Log() == old(Log()) + out.calls
    {
      if txn.state == Idle {
        return;
      }
      if txn.connectionGeneration != generation {
        return;
      }
      if txn.state == Refreshing {
        return;
      }
      AbortTxn(Disconnected);
    }

    method Begin(mode: Mode, total: U32, now: U32) returns (why: ErrorCode, ghost ans: Answers)
      requires Valid()
      modifies this, backend
      ensures Valid()
      ensures var b := BeginTransaction(old(View()), mode, total, now, ans);
              View() == b.eng && why == b.why && Log() == old(Log()) + b.calls
    {
      ans := ANY_ANSWERS;
      if backend == null {
        return BackendBeginFailed, ans;
      }
      if hwOwned {
        return Busy, ans;
      }
      if txn.state != Idle {
        AbortTxn(InvalidState);
      }
      if total != backend.fullFrameBytes {
        return InvalidSize, ans;
      }
      var ok := OpenFrame(mode, total, now);
      ans := ans.(begin := ok);
      why := if ok then NoError else BackendBeginFailed;
    }

    // The rest of begin_transaction_(): a fresh transaction, if the backend opens its frame.
    method OpenFrame(mode: Mode, total: U32, now: U32) returns (ok: bool)
      requires Valid() && backend != null
      modifies this, backend
      ensures Valid()
      ensures var e, frame := old(View()), FrameDescriptor(total, backend.colorScheme, false, false);
              && Log() == old(Log()) + [BeginFrame(frame, ok)]
              && View() == e.(txn := if !ok then BLANK
                                     else BLANK.(mode := mode, state := Receiving,
                                                 connectionGeneration := e.connectionGeneration,
                                                 expectedFrameBytes := total,
                                                 transferDeadline := Add32(now, e.cfg.transferTimeout),
                                                 frame := frame))
    {
      txn := BLANK;
      txn := txn.(mode := mode);
      txn := txn.(connectionGeneration := connectionGeneration);
      txn := txn.(expectedFrameBytes := total);
      txn := txn.(transferDeadline := Add32(now, transferTimeout));
      txn := txn.(frame := FrameDescriptor(total, backend.colorScheme, false, false));
      ok := backend.DoBeginFrame(txn.frame);
      if !ok {
        txn := BLANK;
        return;
      }
      txn := txn.(state := Receiving);
    }

    method HandleDirectStart(len: nat, now: U32) returns (res: Result, ghost ans: Answers)
      requires Valid()
      modifies this, backend
      ensures Valid()
      ensures var out := OnDirectStart(old(View()), len, now, ans);
              View() == out.eng && res == out.res && Log() == old(Log()) + out.calls
    {
      ans := ANY_ANSWERS;
      if len != 0 {
        lastError := UnsupportedFormat;
        return Refuse(EncodeNack(CMD_DIRECT_WRITE_START)), ans;
      }
      var total := if backend != null then backend.fullFrameBytes else 0;
      var why;
      why, ans := Begin(Direct, total, now);
      if why != NoError {
        lastError := why;
        return Refuse(EncodeNack(CMD_DIRECT_WRITE_START)), ans;
      }
      res := Reply(EncodeAck(CMD_DIRECT_WRITE_START)).(transferStarted := true);
    }

    method HandleDirectData(payload: seq<Byte>, now: U32) returns (res: Result, ghost ans: Answers)
      requires Valid()
      modifies this, backend
      ensures Valid()
      ensures var out := OnDirectData(old(View()), payload, now, ans);
              View() == out.eng && res == out.res && Log() == old(Log()) + out.calls
    {
      ans := ANY_ANSWERS;
      var nack := EncodeNack(CMD_DIRECT_WRITE_DATA);
      if txn.state != Receiving || txn.mode != Direct {
        lastError := InvalidState;
        return Reply(nack), ans;
      }
      if |payload| == 0 {
        AbortTxn(MalformedPacket);
        return Refuse(nack), ans;
      }
      if |payload| > Sub32(txn.expectedFrameBytes, txn.acceptedBytes) {
        AbortTxn(InvalidSize);
        return Refuse(nack), ans;
      }
      var ok := backend.DoWriteContiguous(txn.nextDirectOffset, payload);
      ans := ans.(write := ok);
      if !ok {
        stats := stats.(backendFailures := Inc32(stats.backendFailures));
        AbortTxn(BackendWriteFailed);
        return Refuse(nack), ans;
      }
      txn := txn.(nextDirectOffset := Advance32(txn.nextDirectOffset, |payload|));
      txn := txn.(acceptedBytes := Advance32(txn.acceptedBytes, |payload|));
      txn := txn.(transferDeadline := Add32(now, transferTimeout));
      stats := stats.(directPackets := Inc32(stats.directPackets));
      res := Reply(EncodeAck(CMD_DIRECT_WRITE_DATA));
    }

    method HandleDirectEnd(now: U32) returns (res: Result, ghost ans: Answers)
      requires Valid()
      modifies this, backend
      ensures Valid()
      ensures var out := OnDirectEnd(old(View()), now, ans);
              View() == out.eng && res == out.res && Log() == old(Log()) + out.calls
    {
      if txn.state != Receiving || txn.mode != Direct {
        lastError := InvalidState;
        return Reply(EncodeNack(CMD_DIRECT_WRITE_END)), ANY_ANSWERS;
      }
      res, ans := Finish(CMD_DIRECT_WRITE_END, now);
    }

    method HandlePipeStart(memory: seq<Byte>, len: nat, now: U32) returns (res: Result, ghost ans: Answers)
      requires Valid()
      requires |memory| == PAYLOAD_MEMORY && len <= PAYLOAD_MEMORY
      modifies this, backend
      ensures Valid()
      ensures var out := OnPipeStart(old(View()), memory, len, now, ans);
              View() == out.eng && res == out.res && Log() == old(Log()) + out.calls
    {
      hide ParsePipeStart, EncodeNackErr, EncodePipeStartResponse;
      ans := ANY_ANSWERS;
      var parsed := ParsePipeStart(memory, len);
      if parsed.Rejected? {
        lastError := MalformedPacket;
        return Refuse(EncodeNackErr(CMD_PIPE_WRITE_START, parsed.scopedError)), ans;
      }
      var req := parsed.req;
      if req.flags % 2 == 1 {
        lastError := UnsupportedFormat;
        return Refuse(EncodeNackErr(CMD_PIPE_WRITE_START, ERR_UNKNOWN_FLAG)), ans;
      }
      var why;
      why, ans := Begin(Pipe, req.totalSize, now);
      if why != NoError {
        lastError := why;
        var code := if why == InvalidSize then ERR_SIZE_MISMATCH else ERR_BAD_HEADER;
        return Refuse(EncodeNackErr(CMD_PIPE_WRITE_START, code)), ans;
      }
      txn := txn.(negotiatedWindow := if req.window < PIPE_MAX_WINDOW then req.window else PIPE_MAX_WINDOW);
      txn := txn.(negotiatedAckEvery := if req.ackEvery < PIPE_MAX_ACK_EVERY then req.ackEvery else PIPE_MAX_ACK_EVERY);
      txn := txn.(negotiatedFrame := if req.clientMaxFrame < PIPE_MAX_FRAME then req.clientMaxFrame
                                     else PIPE_MAX_FRAME);
      res := Reply(EncodePipeStartResponse(txn.negotiatedWindow, txn.negotiatedAckEvery, txn.negotiatedFrame));
      res := res.(transferStarted := true);
    }

    method HandlePipeData(payload: seq<Byte>, now: U32) returns (res: Result, ghost ans: Answers)
      requires Valid()
      modifies this, backend
      ensures Valid()
      ensures var out := OnPipeData(old(View()), payload, now, ans);
              View() == out.eng && res == out.res && Log() == old(Log()) + out.calls
    {
      ans := ANY_ANSWERS;
      if txn.pipeFatal {
        return SILENT, ans;
      }
      if txn.state != Receiving || txn.mode != Pipe {
        lastError := InvalidState;
        res := Reply(EncodePipeNack(NACK_PROTOCOL, txn.highestSeen, BuildInorderAckMask(txn.acceptedPackets)));
        txn := txn.(pipeFatal := true);
        return;
      }
      if |payload| < 1 {
        txn := txn.(pipeFatal := true);
        AbortTxn(MalformedPacket);
        return Refuse(EncodePipeNack(NACK_PROTOCOL, 0, 0)), ans;
      }
      var seqNo := payload[0];
      if seqNo != txn.nextPipeSequence {
        stats := stats.(retransmitRequests := Inc32(stats.retransmitRequests));
        return Reply(EncodePipeSack(txn.highestSeen, BuildInorderAckMask(txn.acceptedPackets))), ans;
      }
      res, ans := Store(seqNo, payload[1..], now);
    }

    // The rest of on_pipe_data(): an in-order chunk goes to the backend.
    method Store(seqNo: Byte, data: seq<Byte>, now: U32) returns (res: Result, ghost ans: Answers)
      requires Valid() && txn.state == Receiving
      modifies this, backend
      ensures Valid()
      ensures var out := StoreChunk(old(View()), seqNo, data, now, ans);
              View() == out.eng && res == out.res && Log() == old(Log()) + out.calls
    {
      ans := ANY_ANSWERS;
      if |data| > Sub32(txn.expectedFrameBytes, txn.acceptedBytes) {
        txn := txn.(pipeFatal := true);
        AbortTxn(InvalidSize);
        return Refuse(EncodePipeNack(NACK_WRITE_SIZE, txn.highestSeen, 0)), ans;
      }
      var ok := backend.DoWriteContiguous(txn.acceptedBytes, data);
      ans := ans.(write := ok);
      if !ok {
        stats := stats.(backendFailures := Inc32(stats.backendFailures));
        txn := txn.(pipeFatal := true);
        AbortTxn(BackendWriteFailed);
        return Refuse(EncodePipeNack(NACK_WRITE_SIZE, txn.highestSeen, 0)), ans;
      }
      Count(seqNo, data, now);
      res, ans := Acknowledge(now);
      AckIgnoresWrite(AcceptChunk(old(View()), seqNo, data, now), now, ans, true);
      ans := ans.(write := true);
    }

    method Count(seqNo: Byte, data: seq<Byte>, now: U32)
      requires Valid()
      modifies this
      ensures Valid() && View() == AcceptChunk(old(View()), seqNo, data, now)
    {
      txn := txn.(acceptedBytes := Advance32(txn.acceptedBytes, |data|));
      txn := txn.(highestSeen := seqNo);
      txn := txn.(nextPipeSequence := ((seqNo as int) + 1) % 256);
      txn := txn.(acceptedPackets := Inc32(txn.acceptedPackets));
      txn := txn.(acceptedSinceAck := (txn.acceptedSinceAck + 1) % 256);
      txn := txn.(transferDeadline := Add32(now, transferTimeout));
      stats := stats.(pipePackets := Inc32(stats.pipePackets));
    }

    // Auto-complete on the last byte, otherwise a SACK at the negotiated cadence.
    method Acknowledge(now: U32) returns (res: Result, ghost ans: Answers)
      requires Valid() && txn.state == Receiving
      modifies this, backend
      ensures Valid()
      ensures var out := AckOrFinish(old(View()), now, ans);
              View() == out.eng && res == out.res && Log() == old(Log()) + out.calls
    {
      ans := ANY_ANSWERS;
      if txn.acceptedBytes >= txn.expectedFrameBytes && !txn.frame.compressed && !txn.frame.partial {
        pendingTailSack := EncodePipeSack(txn.highestSeen, BuildInorderAckMask(txn.acceptedPackets));
        hasTailSack := true;
        txn := txn.(acceptedSinceAck := 0);
        res, ans := Finish(CMD_PIPE_WRITE_END, now);
        return;
      }
      res := SILENT;
      if txn.acceptedSinceAck >= txn.negotiatedAckEvery {
        txn := txn.(acceptedSinceAck := 0);
        res := Reply(EncodePipeSack(txn.highestSeen, BuildInorderAckMask(txn.acceptedPackets)));
      }
    }

    method HandlePipeEnd(now: U32) returns (res: Result, ghost ans: Answers)
      requires Valid()
      modifies this, backend
      ensures Valid()
      ensures var out := OnPipeEnd(old(View()), now, ans);
              View() == out.eng && res == out.res && Log() == old(Log()) + out.calls
    {
      if txn.state != Receiving || txn.mode != Pipe {
        lastError := InvalidState;
        return Reply(EncodeNack(CMD_PIPE_WRITE_END)), ANY_ANSWERS;
      }
      if txn.acceptedSinceAck != 0 {
        txn := txn.(acceptedSinceAck := 0);
        pendingTailSack := EncodePipeSack(txn.highestSeen, BuildInorderAckMask(txn.acceptedPackets));
        hasTailSack := true;
      }
      res, ans := Finish(CMD_PIPE_WRITE_END, now);
    }

    method Finish(endOpcode: nat, now: U32) returns (res: Result, ghost ans: Answers)
      requires Valid() && txn.state == Receiving
      modifies this, backend
      ensures Valid()
      ensures var out := FinishAndRefresh(old(View()), endOpcode, now, ans);
              View() == out.eng && res == out.res && Log() == old(Log()) + out.calls
    {
      hide EncodeNack, EncodeAck, Add32, Inc32, Abort;
      ans := ANY_ANSWERS;
      var nack := Refuse(EncodeNack(endOpcode));
      txn := txn.(state := Validating);
      if txn.acceptedBytes != txn.expectedFrameBytes {
        AbortTxn(InvalidSize);
        return nack, ans;
      }
      var ok := backend.DoFinishFrame();
      ans := ans.(finish := ok);
      if !ok {
        stats := stats.(backendFailures := Inc32(stats.backendFailures));
        AbortTxn(BackendFinishFailed);
        return nack, ans;
      }
      txn := txn.(state := Writing);
      ghost var begun;
      res, begun := LaunchRefresh(endOpcode, now);
      ans := ans.(refresh := begun);
    }

    // The second half: the frame is finished, the refresh is begun.
    method LaunchRefresh(endOpcode: nat, now: U32) returns (res: Result, ghost begun: bool)
      requires Valid() && txn.state == Writing
      modifies this, backend
      ensures Valid()
      ensures begun ==>
                && View() == old(View()).(hwOwned := true,
                                          txn := old(txn).(state := Refreshing,
                                                           refreshDeadline := Add32(now, refreshTimeout)))
                && res == Reply(EncodeAck(endOpcode)) && Log() == old(Log()) + [BeginRefresh(true)]
      ensures !begun ==>
                var out := Abort(BackendFailed(old(View())), BackendBeginFailed);
                && View() == out.eng && res == Refuse(EncodeNack(endOpcode))
                && Log() == old(Log()) + [BeginRefresh(false)] + out.calls
    {
      hide EncodeNack, EncodeAck, Add32, Inc32, Abort;
      var ok := backend.DoBeginRefresh();
      begun := ok;
      if !ok {
        stats := stats.(backendFailures := Inc32(stats.backendFailures));
        AbortTxn(BackendBeginFailed);
        return Refuse(EncodeNack(endOpcode)), begun;
      }
      hwOwned := true;
      txn := txn.(state := Refreshing);
      txn := txn.(refreshDeadline := Add32(now, refreshTimeout));
      res := Reply(EncodeAck(endOpcode));
    }

    method HandleTick(now: U32) returns (res: Result, ghost ans: Answers)
      requires Valid()
      modifies this, backend
      ensures Valid()
      ensures var out := Tick(old(View()), now, ans);
              View() == out.eng && res == out.res && Log() == old(Log()) + out.calls
    {
      hide DeadlinePassed, Inc32, Abort;
      ans := ANY_ANSWERS;
      res := SILENT;
      if hwOwned && backend != null {
        var p := backend.DoPollRefresh();
        ans := ans.(poll := p);
        if p == Complete || p == Failed {
          hwOwned := false;
          if txn.state == Refreshing {
            txn := BLANK;
            if p == Complete {
              stats := stats.(transfersOk := Inc32(stats.transfersOk));
              res := res.(refreshComplete := true);
            } else {
              stats := stats.(backendFailures := Inc32(stats.backendFailures));
              lastError := BackendFinishFailed;
              res := res.(terminalError := true);
            }
          }
          return;
        }
      }
      match txn.state {
        case Receiving | Validating | Writing =>
          if DeadlinePassed(now, txn.transferDeadline) {
            AbortTxn(TransferTimeout);
            res := res.(terminalError := true);
          }
        case Refreshing =>
          if DeadlinePassed(now, txn.refreshDeadline) {
            stats := stats.(refreshTimeouts := Inc32(stats.refreshTimeouts));
            AbortTxn(RefreshTimeout);
            res := res.(refreshTimeout := true);
          }
        case Idle =>
      }
    }
  }
}
