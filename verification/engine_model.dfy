// The transfer engine as a function: what each handler makes of the engine's state, which
// backend calls it performs with which answers, and what it hands back to the component.
module EngineModel {
  import opened Bytes
  import opened Wire

  datatype Mode = NoMode | Direct | Pipe

  datatype State = Idle | Receiving | Validating | Writing | Refreshing

  datatype ErrorCode =
    | NoError | Busy | MalformedPacket | InvalidState | UnsupportedFormat | InvalidSize
    | BackendBeginFailed | BackendWriteFailed | BackendFinishFailed
    | TransferTimeout | RefreshTimeout | Disconnected

  datatype FrameDescriptor = FrameDescriptor(totalBytes: U32, colorScheme: Byte, compressed: bool, partial: bool)

  datatype Transaction = Transaction(
    mode: Mode, connectionGeneration: U32, state: State,
    expectedFrameBytes: U32, acceptedBytes: U32, nextDirectOffset: U32,
    nextPipeSequence: Byte, highestSeen: Byte, acceptedPackets: U32, acceptedSinceAck: Byte, pipeFatal: bool,
    negotiatedWindow: Byte, negotiatedAckEvery: Byte, negotiatedFrame: U16,
    transferDeadline: U32, refreshDeadline: U32, frame: FrameDescriptor)

  // Transaction::reset()
  const BLANK := Transaction(NoMode, 0, Idle, 0, 0, 0, 0, 0, 0, 0, false, 0, 0, 0, 0, 0,
                             FrameDescriptor(0, 0, false, false))

  datatype Stats = Stats(
    transfersOk: U32, transfersAborted: U32, directPackets: U32, pipePackets: U32,
    retransmitRequests: U32, backendFailures: U32, refreshTimeouts: U32)

  datatype Config = Config(
    attached: bool, fullFrameBytes: U32, colorScheme: Byte, transferTimeout: U32, refreshTimeout: U32)

  datatype Engine = Engine(
    cfg: Config, txn: Transaction, stats: Stats, lastError: ErrorCode,
    hwOwned: bool, connectionGeneration: U32, tail: Option<Response>)

  function Boot(cfg: Config): Engine {
    Engine(cfg, BLANK, Stats(0, 0, 0, 0, 0, 0, 0), NoError, false, 0, None)
  }

  // --- The backend as the engine sees it ---------------------------------------------

  datatype PollResult = Pending | Complete | Failed

  // One backend call together with the answer it got.
  datatype Call =
    | AbortTransfer
    | BeginFrame(frame: FrameDescriptor, ok: bool)
    | WriteContiguous(offset: U32, data: seq<Byte>, ok: bool)
    | FinishFrame(ok: bool)
    | BeginRefresh(ok: bool)
    | PollRefresh(result: PollResult)

  // What the backend will answer during one handler; no handler makes the same call twice.
  datatype Answers = Answers(begin: bool, write: bool, finish: bool, refresh: bool, poll: PollResult)

  datatype Result = Result(
    response: Response, refreshComplete: bool, refreshTimeout: bool, transferStarted: bool, terminalError: bool)

  const SILENT := Result([], false, false, false, false)

  function Reply(r: Response): Result {
    SILENT.(response := r)
  }

  function Refuse(r: Response): Result {
    SILENT.(response := r, terminalError := true)
  }

  datatype Outcome = Outcome(eng: Engine, res: Result, calls: seq<Call>)

  // --- Terminal paths -------------------------------------------------------------------

  predicate DeadlinePassed(now: U32, deadline: U32) {
    deadline != 0 && Sub32(now, deadline) < 0x8000_0000
  }

  function Abort(e: Engine, error: ErrorCode): Outcome {
    var active := e.txn.state != Idle;
    Outcome(
      e.(txn := BLANK, lastError := error,
         stats := if active then e.stats.(transfersAborted := Inc32(e.stats.transfersAborted)) else e.stats),
      SILENT,
      if active && e.cfg.attached then [AbortTransfer] else [])
  }

  function AbortWith(e: Engine, error: ErrorCode, before: seq<Call>, res: Result): Outcome {
    var out := Abort(e, error);
    Outcome(out.eng, res, before + out.calls)
  }

  function BackendFailed(e: Engine): Engine {
    e.(stats := e.stats.(backendFailures := Inc32(e.stats.backendFailures)))
  }

  function OnDisconnect(e: Engine, generation: U32): Outcome {
    if e.txn.state == Idle || e.txn.connectionGeneration != generation || e.txn.state == Refreshing then
      Outcome(e, SILENT, [])
    else
      Abort(e, Disconnected)
  }

  // --- START --------------------------------------------------------------------------

  // `why` is NoError exactly when the transaction was opened.
  datatype Begun = Begun(eng: Engine, why: ErrorCode, calls: seq<Call>)

  function BeginTransaction(e: Engine, mode: Mode, total: U32, now: U32, ans: Answers): Begun {
    if !e.cfg.attached then Begun(e, BackendBeginFailed, [])
    else if e.hwOwned then Begun(e, Busy, [])
    else
      var cleared := if e.txn.state != Idle then Abort(e, InvalidState) else Outcome(e, SILENT, []);
      if total != e.cfg.fullFrameBytes then Begun(cleared.eng, InvalidSize, cleared.calls)
      else
        var frame := FrameDescriptor(total, e.cfg.colorScheme, false, false);
        var calls := cleared.calls + [BeginFrame(frame, ans.begin)];
        if !ans.begin then Begun(cleared.eng.(txn := BLANK), BackendBeginFailed, calls)
        else
          Begun(cleared.eng.(txn := BLANK.(mode := mode, state := Receiving,
                                           connectionGeneration := e.connectionGeneration,
                                           expectedFrameBytes := total,
                                           transferDeadline := Add32(now, e.cfg.transferTimeout),
                                           frame := frame)),
                NoError, calls)
  }

  function OnDirectStart(e: Engine, len: nat, now: U32, ans: Answers): Outcome {
    if len != 0 then
      Outcome(e.(lastError := UnsupportedFormat), Refuse(EncodeNack(CMD_DIRECT_WRITE_START)), [])
    else
      var b := BeginTransaction(e, Direct, if e.cfg.attached then e.cfg.fullFrameBytes else 0, now, ans);
      if b.why != NoError then
        Outcome(b.eng.(lastError := b.why), Refuse(EncodeNack(CMD_DIRECT_WRITE_START)), b.calls)
      else
        Outcome(b.eng, Reply(EncodeAck(CMD_DIRECT_WRITE_START)).(transferStarted := true), b.calls)
  }

  function OnPipeStart(e: Engine, memory: seq<Byte>, len: nat, now: U32, ans: Answers): Outcome
    requires |memory| == PAYLOAD_MEMORY && len <= PAYLOAD_MEMORY
  {
    match ParsePipeStart(memory, len)
    case Rejected(scoped) =>
      Outcome(e.(lastError := MalformedPacket), Refuse(EncodeNackErr(CMD_PIPE_WRITE_START, scoped)), [])
    case Accepted(req) =>
      if req.flags % 2 == 1 then
        Outcome(e.(lastError := UnsupportedFormat),
                Refuse(EncodeNackErr(CMD_PIPE_WRITE_START, ERR_UNKNOWN_FLAG)), [])
      else
        var b := BeginTransaction(e, Pipe, req.totalSize, now, ans);
        if b.why != NoError then
          Outcome(b.eng.(lastError := b.why),
                  Refuse(EncodeNackErr(CMD_PIPE_WRITE_START,
                                       if b.why == InvalidSize then ERR_SIZE_MISMATCH else ERR_BAD_HEADER)),
                  b.calls)
        else
          var window := Min(req.window, PIPE_MAX_WINDOW);
          var ackEvery := Min(req.ackEvery, PIPE_MAX_ACK_EVERY);
          var frame := Min(req.clientMaxFrame, PIPE_MAX_FRAME);
          Outcome(b.eng.(txn := b.eng.txn.(negotiatedWindow := window, negotiatedAckEvery := ackEvery,
                                           negotiatedFrame := frame)),
                  Reply(EncodePipeStartResponse(window, ackEvery, frame)).(transferStarted := true),
                  b.calls)
  }

  // --- DATA -----------------------------------------------------------------------------

  function OnDirectData(e: Engine, payload: seq<Byte>, now: U32, ans: Answers): Outcome {
    var nack := EncodeNack(CMD_DIRECT_WRITE_DATA);
    if e.txn.state != Receiving || e.txn.mode != Direct then
      Outcome(e.(lastError := InvalidState), Reply(nack), [])
    else if payload == [] then AbortWith(e, MalformedPacket, [], Refuse(nack))
    else if |payload| > Sub32(e.txn.expectedFrameBytes, e.txn.acceptedBytes) then
      AbortWith(e, InvalidSize, [], Refuse(nack))
    else
      var write := WriteContiguous(e.txn.nextDirectOffset, payload, ans.write);
      if !ans.write then AbortWith(BackendFailed(e), BackendWriteFailed, [write], Refuse(nack))
      else
        Outcome(e.(txn := e.txn.(nextDirectOffset := Advance32(e.txn.nextDirectOffset, |payload|),
                                 acceptedBytes := Advance32(e.txn.acceptedBytes, |payload|),
                                 transferDeadline := Add32(now, e.cfg.transferTimeout)),
                   stats := e.stats.(directPackets := Inc32(e.stats.directPackets))),
                Reply(EncodeAck(CMD_DIRECT_WRITE_DATA)), [write])
  }

  // The SACK the current transaction answers with.
  function CurrentSack(t: Transaction): Response {
    EncodePipeSack(t.highestSeen, BuildInorderAckMask(t.acceptedPackets))
  }

  // The bookkeeping for one accepted chunk.
  function AcceptChunk(e: Engine, seqNo: Byte, data: seq<Byte>, now: U32): Engine {
    e.(txn := e.txn.(acceptedBytes := Advance32(e.txn.acceptedBytes, |data|),
                     highestSeen := seqNo,
                     nextPipeSequence := (seqNo + 1) % 256,
                     acceptedPackets := Inc32(e.txn.acceptedPackets),
                     acceptedSinceAck := (e.txn.acceptedSinceAck + 1) % 256,
                     transferDeadline := Add32(now, e.cfg.transferTimeout)),
       stats := e.stats.(pipePackets := Inc32(e.stats.pipePackets)))
  }

  function OnPipeData(e: Engine, payload: seq<Byte>, now: U32, ans: Answers): Outcome {
    var t := e.txn;
    if t.pipeFatal then Outcome(e, SILENT, [])
    else if t.state != Receiving || t.mode != Pipe then
      Outcome(e.(lastError := InvalidState, txn := t.(pipeFatal := true)),
              Reply(EncodePipeNack(NACK_PROTOCOL, t.highestSeen, BuildInorderAckMask(t.acceptedPackets))), [])
    else if payload == [] then
      AbortWith(e, MalformedPacket, [], Refuse(EncodePipeNack(NACK_PROTOCOL, 0, 0)))
    else if payload[0] != t.nextPipeSequence then
      Outcome(e.(stats := e.stats.(retransmitRequests := Inc32(e.stats.retransmitRequests))),
              Reply(CurrentSack(t)), [])
    else StoreChunk(e, payload[0], payload[1..], now, ans)
  }

  // An in-order chunk goes to the backend. abort() has already reset the transaction when the
  // NACKs are encoded, so they report highest_seen as 0.
  function StoreChunk(e: Engine, seqNo: Byte, data: seq<Byte>, now: U32, ans: Answers): Outcome {
    var t := e.txn;
    var nack := Refuse(EncodePipeNack(NACK_WRITE_SIZE, 0, 0));
    if |data| > Sub32(t.expectedFrameBytes, t.acceptedBytes) then AbortWith(e, InvalidSize, [], nack)
    else
      var write := WriteContiguous(t.acceptedBytes, data, ans.write);
      if !ans.write then AbortWith(BackendFailed(e), BackendWriteFailed, [write], nack)
      else
        var out := AckOrFinish(AcceptChunk(e, seqNo, data, now), now, ans);
        Outcome(out.eng, out.res, [write] + out.calls)
  }

  // Auto-complete on the last byte, otherwise a SACK at the negotiated cadence.
  function AckOrFinish(a: Engine, now: U32, ans: Answers): Outcome {
    var t := a.txn;
    if t.acceptedBytes >= t.expectedFrameBytes && !t.frame.compressed && !t.frame.partial then
      FinishAndRefresh(a.(tail := Some(CurrentSack(t)), txn := t.(acceptedSinceAck := 0)),
                       CMD_PIPE_WRITE_END, now, ans)
    else if t.acceptedSinceAck >= t.negotiatedAckEvery then
      Outcome(a.(txn := t.(acceptedSinceAck := 0)), Reply(CurrentSack(t)), [])
    else
      Outcome(a, SILENT, [])
  }

  // --- END and refresh --------------------------------------------------------------------

  function FinishAndRefresh(e: Engine, endOpcode: nat, now: U32, ans: Answers): Outcome {
    var v := e.(txn := e.txn.(state := Validating));
    var nack := Refuse(EncodeNack(endOpcode));
    if e.txn.acceptedBytes != e.txn.expectedFrameBytes then AbortWith(v, InvalidSize, [], nack)
    else if !ans.finish then AbortWith(BackendFailed(v), BackendFinishFailed, [FinishFrame(false)], nack)
    else
      var w := v.(txn := v.txn.(state := Writing));
      if !ans.refresh then
        AbortWith(BackendFailed(w), BackendBeginFailed, [FinishFrame(true), BeginRefresh(false)], nack)
      else
        Outcome(w.(hwOwned := true,
                   txn := w.txn.(state := Refreshing, refreshDeadline := Add32(now, e.cfg.refreshTimeout))),
                Reply(EncodeAck(endOpcode)), [FinishFrame(true), BeginRefresh(true)])
  }

  function OnDirectEnd(e: Engine, now: U32, ans: Answers): Outcome {
    if e.txn.state != Receiving || e.txn.mode != Direct then
      Outcome(e.(lastError := InvalidState), Reply(EncodeNack(CMD_DIRECT_WRITE_END)), [])
    else
      FinishAndRefresh(e, CMD_DIRECT_WRITE_END, now, ans)
  }

  function OnPipeEnd(e: Engine, now: U32, ans: Answers): Outcome {
    if e.txn.state != Receiving || e.txn.mode != Pipe then
      Outcome(e.(lastError := InvalidState), Reply(EncodeNack(CMD_PIPE_WRITE_END)), [])
    else if e.txn.acceptedSinceAck != 0 then
      var flushed := e.txn.(acceptedSinceAck := 0);
      FinishAndRefresh(e.(txn := flushed, tail := Some(CurrentSack(flushed))), CMD_PIPE_WRITE_END, now, ans)
    else
      FinishAndRefresh(e, CMD_PIPE_WRITE_END, now, ans)
  }

  // --- Loop -----------------------------------------------------------------------------------

  function CheckDeadlines(e: Engine, now: U32, before: seq<Call>): Outcome {
    match e.txn.state
    case Receiving | Validating | Writing =>
      if DeadlinePassed(now, e.txn.transferDeadline) then
        AbortWith(e, TransferTimeout, before, SILENT.(terminalError := true))
      else Outcome(e, SILENT, before)
    case Refreshing =>
      if DeadlinePassed(now, e.txn.refreshDeadline) then
        AbortWith(e.(stats := e.stats.(refreshTimeouts := Inc32(e.stats.refreshTimeouts))),
                  RefreshTimeout, before, SILENT.(refreshTimeout := true))
      else Outcome(e, SILENT, before)
    case Idle => Outcome(e, SILENT, before)
  }

  function Tick(e: Engine, now: U32, ans: Answers): Outcome {
    if e.hwOwned && e.cfg.attached then
      var calls := [PollRefresh(ans.poll)];
      if ans.poll == Pending then CheckDeadlines(e, now, calls)
      else
        var released := e.(hwOwned := false);
        if e.txn.state != Refreshing then Outcome(released, SILENT, calls)
        else if ans.poll == Complete then
          Outcome(released.(txn := BLANK, stats := e.stats.(transfersOk := Inc32(e.stats.transfersOk))),
                  SILENT.(refreshComplete := true), calls)
        else
          Outcome(BackendFailed(released).(txn := BLANK, lastError := BackendFinishFailed),
                  SILENT.(terminalError := true), calls)
    else CheckDeadlines(e, now, [])
  }

  // --- One step of any kind ---------------------------------------------------------------------

  datatype Event =
    | DirectStart(len: nat)
    | DirectData(payload: seq<Byte>)
    | DirectEnd
    | PipeStart(memory: seq<Byte>, len: nat)
    | PipeData(payload: seq<Byte>)
    | PipeEnd
    | TickAt
    | UserAbort
    | Disconnect(generation: U32)
    | SetGeneration(generation: U32)
    | TakeTail

  predicate EventOk(ev: Event) {
    ev.PipeStart? ==> |ev.memory| == PAYLOAD_MEMORY && ev.len <= PAYLOAD_MEMORY
  }

  type GoodEvent = ev: Event | EventOk(ev) witness TickAt

  datatype Step = Step(ev: GoodEvent, now: U32, ans: Answers)

  function Handle(e: Engine, s: Step): Outcome {
    match s.ev
    case DirectStart(len) => OnDirectStart(e, len, s.now, s.ans)
    case DirectData(payload) => OnDirectData(e, payload, s.now, s.ans)
    case DirectEnd => OnDirectEnd(e, s.now, s.ans)
    case PipeStart(memory, len) => OnPipeStart(e, memory, len, s.now, s.ans)
    case PipeData(payload) => OnPipeData(e, payload, s.now, s.ans)
    case PipeEnd => OnPipeEnd(e, s.now, s.ans)
    case TickAt => Tick(e, s.now, s.ans)
    case UserAbort => Abort(e, InvalidState)
    case Disconnect(generation) => OnDisconnect(e, generation)
    case SetGeneration(generation) => Outcome(e.(connectionGeneration := generation), SILENT, [])
    case TakeTail => Outcome(e.(tail := None), SILENT, [])
  }
}
