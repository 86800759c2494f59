// What holds over every run of the engine: any interleaving of handlers, ticks, aborts and
// disconnects, over a backend that may refuse any call.
module EngineRuns {
  import opened Bytes
  import opened Wire
  import opened EngineModel

  // --- Runs and the log of backend calls -----------------------------------------------

  function After(e: Engine, steps: seq<Step>): Engine {
    if steps == [] then e else Handle(After(e, steps[..|steps| - 1]), steps[|steps| - 1]).eng
  }

  function Log(e: Engine, steps: seq<Step>): seq<Call> {
    if steps == [] then []
    else Log(e, steps[..|steps| - 1]) + Handle(After(e, steps[..|steps| - 1]), steps[|steps| - 1]).calls
  }

  // The outcome of the i-th step of a run.
  function At(e: Engine, steps: seq<Step>, i: nat): Outcome
    requires i < |steps|
  {
    Handle(After(e, steps[..i]), steps[i])
  }

  // --- The ledger: what a call log says about the panel --------------------------------

  // `held`: a refresh was begun and no terminal poll has been seen since. `written` and
  // `packets`: the bytes and the number of writes the backend took since the frame was opened.
  // `exclusive`, `framed`: no call so far broke panel exclusion or the frame discipline.
  datatype Ledger = Ledger(held: bool, written: seq<Byte>, packets: nat, exclusive: bool, framed: bool)

  const CLEAN := Ledger(false, [], 0, true, true)

  predicate TouchesPanel(c: Call) {
    c.BeginFrame? || c.WriteContiguous? || c.FinishFrame? || c.BeginRefresh?
  }

  predicate IsTerminalPoll(c: Call) {
    c.PollRefresh? && c.result != Pending
  }

  function Post(l: Ledger, full: U32, c: Call): Ledger {
    var m := l.(exclusive := l.exclusive && (TouchesPanel(c) ==> !l.held) && (c.PollRefresh? ==> l.held));
    match c
    case AbortTransfer => m
    case BeginFrame(_, ok) => if ok then m.(written := [], packets := 0) else m
    case WriteContiguous(offset, data, ok) =>
      var n := m.(framed := m.framed && offset == |l.written| && |l.written| + |data| <= full);
      if ok then n.(written := l.written + data, packets := l.packets + 1) else n
    case FinishFrame(_) => m.(framed := m.framed && |l.written| == full)
    case BeginRefresh(ok) => m.(framed := m.framed && |l.written| == full, held := ok)
    case PollRefresh(result) => m.(held := l.held && result == Pending)
  }

  function PostAll(l: Ledger, full: U32, calls: seq<Call>): Ledger
    decreases |calls|
  {
    if calls == [] then l else PostAll(Post(l, full, calls[0]), full, calls[1..])
  }

  function LedgerOf(full: U32, log: seq<Call>): Ledger {
    if log == [] then CLEAN else Post(LedgerOf(full, log[..|log| - 1]), full, log[|log| - 1])
  }

  lemma {:induction false} PostAllConcat(l: Ledger, full: U32, a: seq<Call>, b: seq<Call>)
    ensures PostAll(l, full, a + b) == PostAll(PostAll(l, full, a), full, b)
    decreases |a|
  {
    if a == [] {
      assert a + b == b;
    } else {
      assert (a + b)[1..] == a[1..] + b;
      PostAllConcat(Post(l, full, a[0]), full, a[1..], b);
    }
  }

  lemma {:induction false} LedgerConcat(full: U32, log: seq<Call>, calls: seq<Call>)
    ensures LedgerOf(full, log + calls) == PostAll(LedgerOf(full, log), full, calls)
    decreases |calls|
  {
    if calls == [] {
      assert log + calls == log;
    } else {
      var c := calls[0];
      assert log + calls == (log + [c]) + calls[1..];
      assert (log + [c])[..|log|] == log;
      LedgerConcat(full, log + [c], calls[1..]);
    }
  }

  lemma PostPair(l: Ledger, full: U32, a: Call, b: Call)
    ensures PostAll(l, full, [a, b]) == Post(Post(l, full, a), full, b)
  {
    assert [a, b][1..] == [b];
    assert PostAll(Post(l, full, a), full, [b]) == Post(Post(l, full, a), full, b);
  }

  lemma AfterOne(e: Engine, s: Step)
    ensures After(e, [s]) == Handle(e, s).eng && Log(e, [s]) == Handle(e, s).calls
  {
    assert [s][..0] == [];
    assert After(e, []) == e && Log(e, []) == [];
  }

  // --- The invariant ----------------------------------------------------------------------

  predicate PipeCounters(t: Transaction, l: Ledger) {
    && 1 <= t.negotiatedWindow <= 16 && 1 <= t.negotiatedAckEvery <= 4 && t.negotiatedFrame <= PIPE_MAX_FRAME
    && t.nextPipeSequence == l.packets % 256
    && t.highestSeen == (if l.packets == 0 then 0 else (l.packets - 1) % 256)
    && t.acceptedPackets == l.packets % TWO_TO_32
    && t.acceptedSinceAck == l.packets % t.negotiatedAckEvery
    && (t.expectedFrameBytes > 0 ==> t.acceptedBytes < t.expectedFrameBytes)
    && !t.pipeFatal
  }

  predicate InvReceiving(e: Engine, l: Ledger) {
    var t := e.txn;
    && !e.hwOwned && t.expectedFrameBytes == e.cfg.fullFrameBytes
    && t.acceptedBytes == |l.written| <= t.expectedFrameBytes
    && !t.frame.compressed && !t.frame.partial
    && t.mode != NoMode
    && (t.mode == Direct ==> t.nextDirectOffset == |l.written|)
    && (t.mode == Pipe ==> PipeCounters(t, l))
  }

  predicate Inv(e: Engine, l: Ledger) {
    var t := e.txn;
    && l.exclusive && l.framed && l.held == e.hwOwned
    && (t.state == Idle || t.state == Receiving || t.state == Refreshing)
    && (t.state != Idle || e.hwOwned ==> e.cfg.attached)
    && (t.state == Idle ==> t == BLANK.(pipeFatal := t.pipeFatal))
    && (t.state == Refreshing ==> e.hwOwned && |l.written| == e.cfg.fullFrameBytes)
    && (t.state == Receiving ==> InvReceiving(e, l))
  }

  // Enough for abort() to restore the invariant, also from the transient states.
  predicate Abortable(e: Engine, l: Ledger) {
    && l.exclusive && l.framed && l.held == e.hwOwned
    && (e.txn.state != Idle || e.hwOwned ==> e.cfg.attached)
  }

  lemma AbortKeepsInv(e: Engine, l: Ledger, error: ErrorCode)
    requires Abortable(e, l)
    ensures var out := Abort(e, error);
            Inv(out.eng, PostAll(l, e.cfg.fullFrameBytes, out.calls)) && out.eng.cfg == e.cfg
            && PostAll(l, e.cfg.fullFrameBytes, out.calls) == l
  {
  }

  lemma AbortWithKeepsInv(e: Engine, l: Ledger, error: ErrorCode, before: seq<Call>, res: Result)
    requires Abortable(e, PostAll(l, e.cfg.fullFrameBytes, before))
    ensures var out := AbortWith(e, error, before, res);
            Inv(out.eng, PostAll(l, e.cfg.fullFrameBytes, out.calls)) && out.eng.cfg == e.cfg
            && out.eng.txn == BLANK
  {
    AbortKeepsInv(e, PostAll(l, e.cfg.fullFrameBytes, before), error);
    PostAllConcat(l, e.cfg.fullFrameBytes, before, Abort(e, error).calls);
  }

  lemma BeginKeepsInv(e: Engine, l: Ledger, mode: Mode, total: U32, now: U32, ans: Answers)
    requires Inv(e, l) && mode != NoMode
    ensures var b := BeginTransaction(e, mode, total, now, ans);
            var m := PostAll(l, e.cfg.fullFrameBytes, b.calls);
            && b.eng.cfg == e.cfg
            && (b.why != NoError ==> Inv(b.eng, m))
            && (b.why == NoError ==>
                  && Abortable(b.eng, m) && !b.eng.hwOwned && e.cfg.attached && m.written == [] && m.packets == 0
                  && b.eng.txn == BLANK.(mode := mode, state := Receiving,
                                         connectionGeneration := e.connectionGeneration,
                                         expectedFrameBytes := e.cfg.fullFrameBytes,
                                         transferDeadline := Add32(now, e.cfg.transferTimeout),
                                         frame := FrameDescriptor(total, e.cfg.colorScheme, false, false)))
  {
    var full := e.cfg.fullFrameBytes;
    if e.cfg.attached && !e.hwOwned {
      var cleared := if e.txn.state != Idle then Abort(e, InvalidState) else Outcome(e, SILENT, []);
      AbortKeepsInv(e, l, InvalidState);
      if total == full {
        var c := BeginFrame(FrameDescriptor(total, e.cfg.colorScheme, false, false), ans.begin);
        PostAllConcat(l, full, cleared.calls, [c]);
        assert PostAll(l, full, [c]) == Post(l, full, c);
      }
    }
  }

  lemma DirectStartKeepsInv(e: Engine, l: Ledger, len: nat, now: U32, ans: Answers)
    requires Inv(e, l)
    ensures var out := OnDirectStart(e, len, now, ans);
            Inv(out.eng, PostAll(l, e.cfg.fullFrameBytes, out.calls)) && out.eng.cfg == e.cfg
  {
    if len == 0 {
      BeginKeepsInv(e, l, Direct, if e.cfg.attached then e.cfg.fullFrameBytes else 0, now, ans);
    }
  }

  lemma PipeStartKeepsInv(e: Engine, l: Ledger, memory: seq<Byte>, len: nat, now: U32, ans: Answers)
    requires Inv(e, l) && |memory| == PAYLOAD_MEMORY && len <= PAYLOAD_MEMORY
    ensures var out := OnPipeStart(e, memory, len, now, ans);
            Inv(out.eng, PostAll(l, e.cfg.fullFrameBytes, out.calls)) && out.eng.cfg == e.cfg
  {
    var p := ParsePipeStart(memory, len);
    if p.Accepted? && p.req.flags % 2 == 0 {
      BeginKeepsInv(e, l, Pipe, p.req.totalSize, now, ans);
      var b := BeginTransaction(e, Pipe, p.req.totalSize, now, ans);
      if b.why == NoError {
        var ackEvery := Min(p.req.ackEvery, PIPE_MAX_ACK_EVERY);
        assert 0 % ackEvery == 0;
      }
    }
  }

  lemma DirectDataKeepsInv(e: Engine, l: Ledger, payload: seq<Byte>, now: U32, ans: Answers)
    requires Inv(e, l)
    ensures var out := OnDirectData(e, payload, now, ans);
            Inv(out.eng, PostAll(l, e.cfg.fullFrameBytes, out.calls)) && out.eng.cfg == e.cfg
  {
    var full := e.cfg.fullFrameBytes;
    if e.txn.state == Receiving && e.txn.mode == Direct {
      var res := Refuse(EncodeNack(CMD_DIRECT_WRITE_DATA));
      AbortWithKeepsInv(e, l, MalformedPacket, [], res);
      AbortWithKeepsInv(e, l, InvalidSize, [], res);
      if payload != [] && |payload| <= Sub32(e.txn.expectedFrameBytes, e.txn.acceptedBytes) {
        var write := WriteContiguous(e.txn.nextDirectOffset, payload, ans.write);
        assert PostAll(l, full, [write]) == Post(l, full, write);
        if !ans.write {
          AbortWithKeepsInv(BackendFailed(e), l, BackendWriteFailed, [write], res);
        }
      }
    }
  }

  lemma FinishKeepsInv(e: Engine, l: Ledger, endOpcode: nat, now: U32, ans: Answers)
    requires Abortable(e, l) && e.txn.state == Receiving && !e.hwOwned
    requires e.txn.acceptedBytes == |l.written| && e.txn.expectedFrameBytes == e.cfg.fullFrameBytes
    ensures var out := FinishAndRefresh(e, endOpcode, now, ans);
            Inv(out.eng, PostAll(l, e.cfg.fullFrameBytes, out.calls)) && out.eng.cfg == e.cfg
  {
    var full := e.cfg.fullFrameBytes;
    var v := e.(txn := e.txn.(state := Validating));
    var nack := Refuse(EncodeNack(endOpcode));
    if e.txn.acceptedBytes != e.txn.expectedFrameBytes {
      AbortWithKeepsInv(v, l, InvalidSize, [], nack);
    } else if !ans.finish {
      assert PostAll(l, full, [FinishFrame(false)]) == Post(l, full, FinishFrame(false));
      AbortWithKeepsInv(BackendFailed(v), l, BackendFinishFailed, [FinishFrame(false)], nack);
    } else {
      var calls := [FinishFrame(true), BeginRefresh(ans.refresh)];
      PostPair(l, full, FinishFrame(true), BeginRefresh(ans.refresh));
      var w := v.(txn := v.txn.(state := Writing));
      if !ans.refresh {
        AbortWithKeepsInv(BackendFailed(w), l, BackendBeginFailed, calls, nack);
      }
    }
  }

  lemma DirectEndKeepsInv(e: Engine, l: Ledger, now: U32, ans: Answers)
    requires Inv(e, l)
    ensures var out := OnDirectEnd(e, now, ans);
            Inv(out.eng, PostAll(l, e.cfg.fullFrameBytes, out.calls)) && out.eng.cfg == e.cfg
  {
    if e.txn.state == Receiving && e.txn.mode == Direct {
      FinishKeepsInv(e, l, CMD_DIRECT_WRITE_END, now, ans);
    }
  }

  lemma PipeEndKeepsInv(e: Engine, l: Ledger, now: U32, ans: Answers)
    requires Inv(e, l)
    ensures var out := OnPipeEnd(e, now, ans);
            Inv(out.eng, PostAll(l, e.cfg.fullFrameBytes, out.calls)) && out.eng.cfg == e.cfg
  {
    if e.txn.state == Receiving && e.txn.mode == Pipe {
      var flushed := e.txn.(acceptedSinceAck := 0);
      FinishKeepsInv(e.(txn := flushed, tail := Some(CurrentSack(flushed))), l, CMD_PIPE_WRITE_END, now, ans);
      FinishKeepsInv(e, l, CMD_PIPE_WRITE_END, now, ans);
    }
  }

  // The cadence counter is the packet counter modulo ack_every.
  lemma CadenceStep(n: nat, every: nat)
    requires 1 <= every <= 4
    ensures (n + 1) % every == if n % every + 1 == every then 0 else n % every + 1
  {
    if every == 1 {
    } else if every == 2 {
    } else if every == 3 {
    } else {
      assert every == 4;
    }
  }

  lemma CounterSteps(n: nat)
    ensures Inc32(n % TWO_TO_32) == (n + 1) % TWO_TO_32
    ensures (n % 256 + 1) % 256 == (n + 1) % 256
  {
  }

  lemma SackOfCounters(t: Transaction, n: nat)
    requires n >= 1 && t.highestSeen == (n - 1) % 256 && t.acceptedPackets == n % TWO_TO_32
    ensures CurrentSack(t) == SackAfter(n)
  {
  }

  // The counters once a chunk has been taken, before the cadence is applied.
  lemma AcceptedCounters(e: Engine, l: Ledger, data: seq<Byte>, now: U32)
    requires Inv(e, l) && e.txn.state == Receiving && e.txn.mode == Pipe
    requires |l.written| + |data| <= e.cfg.fullFrameBytes
    ensures var a, n := AcceptChunk(e, e.txn.nextPipeSequence, data, now).txn, l.packets + 1;
            && a.acceptedBytes == |l.written| + |data| && a.highestSeen == (n - 1) % 256
            && a.nextPipeSequence == n % 256 && a.acceptedPackets == n % TWO_TO_32
            && CurrentSack(a) == SackAfter(n)
  {
    var t, a := e.txn, AcceptChunk(e, e.txn.nextPipeSequence, data, now).txn;
    NoWrap(t.acceptedBytes, |data|);
    AdvanceCounters(t, a, l.packets);
  }

  lemma NoWrap(a: U32, n: nat)
    requires a + n < TWO_TO_32
    ensures Advance32(a, n) == a + n
  {
  }

  lemma AdvanceCounters(t: Transaction, a: Transaction, n: nat)
    requires t.nextPipeSequence == n % 256 && t.acceptedPackets == n % TWO_TO_32
    requires a.highestSeen == t.nextPipeSequence && a.nextPipeSequence == (t.nextPipeSequence + 1) % 256
    requires a.acceptedPackets == Inc32(t.acceptedPackets)
    ensures a.highestSeen == n % 256 && a.nextPipeSequence == (n + 1) % 256
    ensures a.acceptedPackets == (n + 1) % TWO_TO_32 && CurrentSack(a) == SackAfter(n + 1)
  {
    CounterSteps(n);
    SackOfCounters(a, n + 1);
  }

  lemma AcceptedCadence(e: Engine, l: Ledger, data: seq<Byte>, now: U32)
    requires Inv(e, l) && e.txn.state == Receiving && e.txn.mode == Pipe
    ensures var every, a := e.txn.negotiatedAckEvery, AcceptChunk(e, e.txn.nextPipeSequence, data, now).txn;
            && a.acceptedSinceAck == l.packets % every + 1
            && (l.packets + 1) % every == if a.acceptedSinceAck == every then 0 else a.acceptedSinceAck
  {
    CadenceStep(l.packets, e.txn.negotiatedAckEvery);
  }

  lemma AckOrFinishKeepsInv(e: Engine, l: Ledger, data: seq<Byte>, now: U32, ans: Answers, m: Ledger)
    requires Inv(e, l) && e.txn.state == Receiving && e.txn.mode == Pipe
    requires |l.written| + |data| <= e.cfg.fullFrameBytes
    requires m == l.(written := l.written + data, packets := l.packets + 1)
    ensures var out := AckOrFinish(AcceptChunk(e, e.txn.nextPipeSequence, data, now), now, ans);
            Inv(out.eng, PostAll(m, e.cfg.fullFrameBytes, out.calls)) && out.eng.cfg == e.cfg
  {
    var a := AcceptChunk(e, e.txn.nextPipeSequence, data, now);
    AcceptedCounters(e, l, data, now);
    AcceptedCadence(e, l, data, now);
    if a.txn.acceptedBytes >= a.txn.expectedFrameBytes {
      FinishKeepsInv(a.(tail := Some(CurrentSack(a.txn)), txn := a.txn.(acceptedSinceAck := 0)), m,
                     CMD_PIPE_WRITE_END, now, ans);
    }
  }

  lemma StoreChunkKeepsInv(e: Engine, l: Ledger, data: seq<Byte>, now: U32, ans: Answers)
    requires Inv(e, l) && e.txn.state == Receiving && e.txn.mode == Pipe
    ensures var out := StoreChunk(e, e.txn.nextPipeSequence, data, now, ans);
            Inv(out.eng, PostAll(l, e.cfg.fullFrameBytes, out.calls)) && out.eng.cfg == e.cfg
  {
    var full := e.cfg.fullFrameBytes;
    var nack := Refuse(EncodePipeNack(NACK_WRITE_SIZE, 0, 0));
    AbortWithKeepsInv(e, l, InvalidSize, [], nack);
    if |data| <= Sub32(e.txn.expectedFrameBytes, e.txn.acceptedBytes) {
      var write := WriteContiguous(e.txn.acceptedBytes, data, ans.write);
      var m := Post(l, full, write);
      assert PostAll(l, full, [write]) == m;
      if !ans.write {
        AbortWithKeepsInv(BackendFailed(e), l, BackendWriteFailed, [write], nack);
      } else {
        AckOrFinishKeepsInv(e, l, data, now, ans, m);
        PostAllConcat(l, full, [write], AckOrFinish(AcceptChunk(e, e.txn.nextPipeSequence, data, now), now, ans).calls);
      }
    }
  }

  lemma PipeDataKeepsInv(e: Engine, l: Ledger, payload: seq<Byte>, now: U32, ans: Answers)
    requires Inv(e, l)
    ensures var out := OnPipeData(e, payload, now, ans);
            Inv(out.eng, PostAll(l, e.cfg.fullFrameBytes, out.calls)) && out.eng.cfg == e.cfg
  {
    if e.txn.state == Receiving && e.txn.mode == Pipe {
      AbortWithKeepsInv(e, l, MalformedPacket, [], Refuse(EncodePipeNack(NACK_PROTOCOL, 0, 0)));
      if payload != [] && payload[0] == e.txn.nextPipeSequence {
        StoreChunkKeepsInv(e, l, payload[1..], now, ans);
      }
    }
  }

  lemma TickKeepsInv(e: Engine, l: Ledger, now: U32, ans: Answers)
    requires Inv(e, l)
    ensures var out := Tick(e, now, ans);
            Inv(out.eng, PostAll(l, e.cfg.fullFrameBytes, out.calls)) && out.eng.cfg == e.cfg
  {
    var full := e.cfg.fullFrameBytes;
    var poll := PollRefresh(ans.poll);
    assert PostAll(l, full, [poll]) == Post(l, full, poll);
    var before := if e.hwOwned && e.cfg.attached then [poll] else [];
    if before == [] || ans.poll == Pending {
      var timedOut := e.(stats := e.stats.(refreshTimeouts := Inc32(e.stats.refreshTimeouts)));
      AbortWithKeepsInv(e, l, TransferTimeout, before, SILENT.(terminalError := true));
      AbortWithKeepsInv(timedOut, l, RefreshTimeout, before, SILENT.(refreshTimeout := true));
    }
  }

  lemma InvWithoutTail(e: Engine, l: Ledger)
    requires Inv(e, l)
    ensures Inv(e.(tail := None), l)
  {
  }

  lemma StepKeepsInv(e: Engine, l: Ledger, s: Step)
    requires Inv(e, l)
    ensures var out := Handle(e, s);
            Inv(out.eng, PostAll(l, e.cfg.fullFrameBytes, out.calls)) && out.eng.cfg == e.cfg
  {
    hide OnDirectStart, OnDirectData, OnDirectEnd, OnPipeStart, OnPipeData, OnPipeEnd, Tick;
    match s.ev {
      case DirectStart(len) => DirectStartKeepsInv(e, l, len, s.now, s.ans);
      case DirectData(payload) => DirectDataKeepsInv(e, l, payload, s.now, s.ans);
      case DirectEnd => DirectEndKeepsInv(e, l, s.now, s.ans);
      case PipeStart(memory, len) => PipeStartKeepsInv(e, l, memory, len, s.now, s.ans);
      case PipeData(payload) => PipeDataKeepsInv(e, l, payload, s.now, s.ans);
      case PipeEnd => PipeEndKeepsInv(e, l, s.now, s.ans);
      case TickAt => TickKeepsInv(e, l, s.now, s.ans);
      case UserAbort => AbortKeepsInv(e, l, InvalidState);
      case Disconnect(_) => AbortKeepsInv(e, l, Disconnected);
      case SetGeneration(_) =>
      case TakeTail =>
    }
  }

  // The invariant over every run from boot.
  lemma {:induction false} RunKeepsInv(cfg: Config, steps: seq<Step>)
    ensures var e := After(Boot(cfg), steps);
            e.cfg == cfg && Inv(e, LedgerOf(cfg.fullFrameBytes, Log(Boot(cfg), steps)))
    decreases |steps|
  {
    if steps == [] {
    } else {
      var init, last := steps[..|steps| - 1], steps[|steps| - 1];
      var e, log := After(Boot(cfg), init), Log(Boot(cfg), init);
      RunKeepsInv(cfg, init);
      StepKeepsInv(e, LedgerOf(cfg.fullFrameBytes, log), last);
      LedgerConcat(cfg.fullFrameBytes, log, Handle(e, last).calls);
    }
  }
}
