// The engine's promises, each stated over every run.
module EngineTheorems {
  import opened Bytes
  import opened Wire
  import opened EngineModel
  import opened EngineRuns

  predicate IsStart(ev: Event) {
    ev.DirectStart? || ev.PipeStart?
  }

  // --- Panel exclusion -------------------------------------------------------------------

  lemma {:induction false} LedgerPrefix(full: U32, log: seq<Call>, j: nat)
    requires j <= |log|
    ensures LedgerOf(full, log).exclusive ==> LedgerOf(full, log[..j]).exclusive
    ensures LedgerOf(full, log).framed ==> LedgerOf(full, log[..j]).framed
    decreases |log|
  {
    if j < |log| {
      LedgerPrefix(full, log[..|log| - 1], j);
      assert log[..|log| - 1][..j] == log[..j];
    } else {
      assert log[..j] == log;
    }
  }

  lemma {:induction false} HeldUntilPoll(full: U32, log: seq<Call>, i: nat, j: nat)
    requires i < j <= |log| && log[i] == BeginRefresh(true)
    requires LedgerOf(full, log).exclusive
    requires forall k | i < k < j :: !IsTerminalPoll(log[k])
    ensures LedgerOf(full, log[..j]).held
    decreases j
  {
    assert log[..j][..j - 1] == log[..j - 1];
    if j > i + 1 {
      HeldUntilPoll(full, log, i, j - 1);
      LedgerPrefix(full, log, j);
    }
  }

  ghost predicate OpenRefresh(log: seq<Call>, i: nat, j: nat) {
    i < j < |log| && log[i] == BeginRefresh(true) && forall k | i < k < j :: !IsTerminalPoll(log[k])
  }

  lemma ExclusionInLog(full: U32, log: seq<Call>, i: nat, j: nat)
    requires LedgerOf(full, log).exclusive && OpenRefresh(log, i, j)
    ensures !TouchesPanel(log[j])
  {
    HeldUntilPoll(full, log, i, j);
    LedgerPrefix(full, log, j + 1);
    assert log[..j + 1] == log[..j] + [log[j]];
    UntouchedWhileHeld(full, log[..j], log[j]);
  }

  lemma UntouchedWhileHeld(full: U32, log: seq<Call>, c: Call)
    requires LedgerOf(full, log).held && LedgerOf(full, log + [c]).exclusive
    ensures !TouchesPanel(c)
  {
    assert (log + [c])[..|log|] == log;
  }

  // In every run, between a successful begin_refresh and the next terminal poll the backend is
  // only polled or told to abort: no frame is opened, written, finished or refreshed.
  lemma PanelExclusion(cfg: Config, steps: seq<Step>, i: nat, j: nat)
    requires OpenRefresh(Log(Boot(cfg), steps), i, j)
    ensures !TouchesPanel(Log(Boot(cfg), steps)[j])
  {
    RunKeepsInv(cfg, steps);
    ExclusionInLog(cfg.fullFrameBytes, Log(Boot(cfg), steps), i, j);
  }

  // Between handlers the transient states are never visible, a refreshing transaction owns the
  // panel and a receiving one does not; ownership ends exactly at the first terminal poll.
  lemma StatesAndOwnership(cfg: Config, steps: seq<Step>)
    ensures var e := After(Boot(cfg), steps);
            && (e.txn.state == Idle || e.txn.state == Receiving || e.txn.state == Refreshing)
            && (e.txn.state == Refreshing ==> e.hwOwned)
            && (e.txn.state == Receiving ==> !e.hwOwned)
            && (e.hwOwned <==> LedgerOf(cfg.fullFrameBytes, Log(Boot(cfg), steps)).held)
  {
    RunKeepsInv(cfg, steps);
  }

  // --- Frame discipline ----------------------------------------------------------------------

  // The bytes the backend took since the frame was last opened.
  function Written(full: U32, log: seq<Call>): seq<Byte> {
    LedgerOf(full, log).written
  }

  // Call j of a log continues exactly where the accepted bytes of its frame end and stays inside
  // the frame; if it begins a refresh, exactly one full frame has been accepted.
  predicate InFrame(full: U32, sofar: seq<Byte>, c: Call) {
    && (c.WriteContiguous? ==> c.offset == |sofar| && |sofar| + |c.data| <= full)
    && (c.BeginRefresh? ==> |sofar| == full)
  }

  lemma FramedLog(full: U32, log: seq<Call>, j: nat)
    requires j < |log| && LedgerOf(full, log).framed
    ensures InFrame(full, Written(full, log[..j]), log[j])
  {
    LedgerPrefix(full, log, j + 1);
    assert log[..j + 1][..j] == log[..j];
  }

  lemma FrameDiscipline(cfg: Config, steps: seq<Step>, j: nat)
    requires j < |Log(Boot(cfg), steps)|
    ensures var log := Log(Boot(cfg), steps);
            InFrame(cfg.fullFrameBytes, Written(cfg.fullFrameBytes, log[..j]), log[j])
  {
    RunKeepsInv(cfg, steps);
    FramedLog(cfg.fullFrameBytes, Log(Boot(cfg), steps), j);
  }

  // --- Accepted payloads ---------------------------------------------------------------------

  // Calls that neither open a frame nor get data accepted.
  predicate Quiet(c: Call) {
    (c.BeginFrame? ==> !c.ok) && (c.WriteContiguous? ==> !c.ok)
  }

  lemma {:induction false} QuietCallsKeepFrame(l: Ledger, full: U32, calls: seq<Call>)
    requires forall c | c in calls :: Quiet(c)
    ensures PostAll(l, full, calls).written == l.written && PostAll(l, full, calls).packets == l.packets
    decreases |calls|
  {
    if calls == [] {
    } else {
      assert Quiet(calls[0]);
      QuietCallsKeepFrame(Post(l, full, calls[0]), full, calls[1..]);
    }
  }

  lemma FinishIsQuiet(e: Engine, endOpcode: nat, now: U32, ans: Answers)
    ensures forall c | c in FinishAndRefresh(e, endOpcode, now, ans).calls :: Quiet(c)
  {
  }

  lemma AckOrFinishIsQuiet(a: Engine, now: U32, ans: Answers)
    ensures forall c | c in AckOrFinish(a, now, ans).calls :: Quiet(c)
  {
    FinishIsQuiet(a.(tail := Some(CurrentSack(a.txn)), txn := a.txn.(acceptedSinceAck := 0)),
                  CMD_PIPE_WRITE_END, now, ans);
  }

  function PayloadOf(ev: Event): seq<Byte> {
    match ev
    case DirectData(payload) => payload
    case PipeData(payload) => if payload == [] then [] else payload[1..]
    case _ => []
  }

  // The data of this step went to the panel.
  predicate Took(out: Outcome) {
    |out.calls| > 0 && out.calls[0].WriteContiguous? && out.calls[0].ok
  }

  // The concatenated payloads the current transaction has accepted, read off a run's events.
  function AcceptedPayloads(e: Engine, steps: seq<Step>): seq<Byte> {
    if steps == [] then []
    else
      var n := |steps| - 1;
      var out := At(e, steps, n);
      if out.res.transferStarted then []
      else if Took(out) then AcceptedPayloads(e, steps[..n]) + PayloadOf(steps[n].ev)
      else AcceptedPayloads(e, steps[..n])
  }

  predicate WrittenFollows(l: Ledger, m: Ledger, ev: Event, out: Outcome) {
    m.written == if out.res.transferStarted then []
                 else if Took(out) then l.written + PayloadOf(ev)
                 else l.written
  }

  lemma StartWritten(e: Engine, l: Ledger, s: Step)
    requires Inv(e, l) && (s.ev.DirectStart? || s.ev.PipeStart?)
    ensures WrittenFollows(l, PostAll(l, e.cfg.fullFrameBytes, Handle(e, s).calls), s.ev, Handle(e, s))
  {
    var out, full := Handle(e, s), e.cfg.fullFrameBytes;
    if out.res.transferStarted {
      if s.ev.DirectStart? {
        BeginKeepsInv(e, l, Direct, full, s.now, s.ans);
      } else {
        BeginKeepsInv(e, l, Pipe, ParsePipeStart(s.ev.memory, s.ev.len).req.totalSize, s.now, s.ans);
      }
    } else {
      QuietCallsKeepFrame(l, full, out.calls);
    }
  }

  lemma FirstCallThenQuiet(l: Ledger, full: U32, c: Call, rest: seq<Call>)
    requires forall d | d in rest :: Quiet(d)
    ensures PostAll(l, full, [c] + rest).written == Post(l, full, c).written
    ensures PostAll(l, full, [c] + rest).packets == Post(l, full, c).packets
  {
    PostAllConcat(l, full, [c], rest);
    assert PostAll(l, full, [c]) == Post(l, full, c);
    QuietCallsKeepFrame(Post(l, full, c), full, rest);
  }

  lemma DirectDataWritten(e: Engine, l: Ledger, payload: seq<Byte>, now: U32, ans: Answers)
    ensures var out := OnDirectData(e, payload, now, ans);
            WrittenFollows(l, PostAll(l, e.cfg.fullFrameBytes, out.calls), DirectData(payload), out)
  {
    var out := OnDirectData(e, payload, now, ans);
    if Took(out) {
      FirstCallThenQuiet(l, e.cfg.fullFrameBytes, out.calls[0], []);
      assert [out.calls[0]] + [] == out.calls;
    } else {
      QuietCallsKeepFrame(l, e.cfg.fullFrameBytes, out.calls);
    }
  }

  lemma StoreWritten(e: Engine, l: Ledger, seqNo: Byte, data: seq<Byte>, now: U32, ans: Answers)
    ensures var out := StoreChunk(e, seqNo, data, now, ans);
            WrittenFollows(l, PostAll(l, e.cfg.fullFrameBytes, out.calls), PipeData([seqNo] + data), out)
  {
    var out := StoreChunk(e, seqNo, data, now, ans);
    if Took(out) {
      var a := AcceptChunk(e, seqNo, data, now);
      AckOrFinishIsQuiet(a, now, ans);
      FirstCallThenQuiet(l, e.cfg.fullFrameBytes, out.calls[0], AckOrFinish(a, now, ans).calls);
    } else {
      QuietCallsKeepFrame(l, e.cfg.fullFrameBytes, out.calls);
    }
  }

  lemma PipeDataWritten(e: Engine, l: Ledger, payload: seq<Byte>, now: U32, ans: Answers)
    ensures var out := OnPipeData(e, payload, now, ans);
            WrittenFollows(l, PostAll(l, e.cfg.fullFrameBytes, out.calls), PipeData(payload), out)
  {
    if payload != [] {
      StoreWritten(e, l, payload[0], payload[1..], now, ans);
      assert [payload[0]] + payload[1..] == payload;
    }
  }

  lemma EndWritten(e: Engine, l: Ledger, now: U32, ans: Answers)
    ensures PostAll(l, e.cfg.fullFrameBytes, OnDirectEnd(e, now, ans).calls).written == l.written
    ensures PostAll(l, e.cfg.fullFrameBytes, OnPipeEnd(e, now, ans).calls).written == l.written
  {
    var flushed := e.txn.(acceptedSinceAck := 0);
    FinishIsQuiet(e, CMD_DIRECT_WRITE_END, now, ans);
    FinishIsQuiet(e, CMD_PIPE_WRITE_END, now, ans);
    FinishIsQuiet(e.(txn := flushed, tail := Some(CurrentSack(flushed))), CMD_PIPE_WRITE_END, now, ans);
    QuietCallsKeepFrame(l, e.cfg.fullFrameBytes, OnDirectEnd(e, now, ans).calls);
    QuietCallsKeepFrame(l, e.cfg.fullFrameBytes, OnPipeEnd(e, now, ans).calls);
  }

  lemma StepWritten(e: Engine, l: Ledger, s: Step)
    requires Inv(e, l)
    ensures WrittenFollows(l, PostAll(l, e.cfg.fullFrameBytes, Handle(e, s).calls), s.ev, Handle(e, s))
  {
    hide StoreChunk, BeginTransaction;
    match s.ev {
      case DirectStart(_) => StartWritten(e, l, s);
      case PipeStart(_, _) => StartWritten(e, l, s);
      case DirectData(payload) => DirectDataWritten(e, l, payload, s.now, s.ans);
      case PipeData(payload) => PipeDataWritten(e, l, payload, s.now, s.ans);
      case DirectEnd => EndWritten(e, l, s.now, s.ans);
      case PipeEnd => EndWritten(e, l, s.now, s.ans);
      case _ => QuietCallsKeepFrame(l, e.cfg.fullFrameBytes, Handle(e, s).calls);
    }
  }

  // In every run the bytes the panel holds of the open frame are the payloads accepted since its START.
  lemma {:induction false} WrittenIsAccepted(cfg: Config, steps: seq<Step>)
    ensures Written(cfg.fullFrameBytes, Log(Boot(cfg), steps)) == AcceptedPayloads(Boot(cfg), steps)
    decreases |steps|
  {
    if steps == [] {
    } else {
      var n := |steps| - 1;
      var e, log := After(Boot(cfg), steps[..n]), Log(Boot(cfg), steps[..n]);
      WrittenIsAccepted(cfg, steps[..n]);
      RunKeepsInv(cfg, steps[..n]);
      StepWritten(e, LedgerOf(cfg.fullFrameBytes, log), steps[n]);
      LedgerConcat(cfg.fullFrameBytes, log, Handle(e, steps[n]).calls);
    }
  }

  // --- Conservation of outcomes -----------------------------------------------------------------

  datatype Tally = Tally(started: nat, completed: nat, failed: nat, aborted: nat)

  function AbortsIn(calls: seq<Call>): nat
    decreases |calls|
  {
    if calls == [] then 0 else (if calls[0].AbortTransfer? then 1 else 0) + AbortsIn(calls[1..])
  }

  lemma {:induction false} AbortsConcat(a: seq<Call>, b: seq<Call>)
    ensures AbortsIn(a + b) == AbortsIn(a) + AbortsIn(b)
    decreases |a|
  {
    if a == [] {
      assert a + b == b;
    } else {
      assert (a + b)[1..] == a[1..] + b;
      AbortsConcat(a[1..], b);
    }
  }

  predicate RefreshFailed(out: Outcome) {
    out.res.terminalError && out.calls == [PollRefresh(Failed)]
  }

  function Count(t: Tally, out: Outcome): Tally {
    Tally(t.started + (if out.res.transferStarted then 1 else 0),
          t.completed + (if out.res.refreshComplete then 1 else 0),
          t.failed + (if RefreshFailed(out) then 1 else 0),
          t.aborted + AbortsIn(out.calls))
  }

  function TallyOf(e: Engine, steps: seq<Step>): Tally {
    if steps == [] then Tally(0, 0, 0, 0)
    else Count(TallyOf(e, steps[..|steps| - 1]), At(e, steps, |steps| - 1))
  }

  function Active(e: Engine): nat {
    if e.txn.state == Idle then 0 else 1
  }

  // One step opens at most one transaction, and ends one for every abort, completion or failure;
  // the two counters the engine keeps move with the tally.
  predicate Balanced(e: Engine, out: Outcome) {
    var t := Count(Tally(0, 0, 0, 0), out);
    && Active(e) + t.started == Active(out.eng) + t.completed + t.failed + t.aborted
    && t.completed <= 1 && t.aborted <= 1
    && out.eng.stats.transfersOk == Bump(e.stats.transfersOk, t.completed)
    && out.eng.stats.transfersAborted == Bump(e.stats.transfersAborted, t.aborted)
  }

  function Bump(counter: U32, n: nat): U32 {
    if n == 0 then counter else Inc32(counter)
  }

  lemma BumpCounts(n: nat, k: nat)
    requires k <= 1
    ensures Bump(n % TWO_TO_32, k) == (n + k) % TWO_TO_32
  {
  }

  lemma AbortBalanced(e: Engine, error: ErrorCode)
    requires e.txn.state != Idle ==> e.cfg.attached
    ensures Balanced(e, Abort(e, error))
  {
    assert AbortsIn([AbortTransfer]) == 1;
  }

  lemma AbortWithBalanced(e: Engine, error: ErrorCode, before: seq<Call>, res: Result)
    requires e.txn.state != Idle && e.cfg.attached && AbortsIn(before) == 0
    requires !res.transferStarted && !res.refreshComplete
    ensures Balanced(e, AbortWith(e, error, before, res))
  {
    AbortBalanced(e, error);
    AbortsConcat(before, [AbortTransfer]);
    assert (before + [AbortTransfer])[|before|] == AbortTransfer;
  }

  lemma BeginBalanced(e: Engine, mode: Mode, total: U32, now: U32, ans: Answers)
    requires e.txn.state != Idle ==> e.cfg.attached
    ensures var b := BeginTransaction(e, mode, total, now, ans);
            forall res: Result | res.transferStarted == (b.why == NoError) && !res.refreshComplete ::
              Balanced(e, Outcome(b.eng, res, b.calls))
  {
    if e.cfg.attached && !e.hwOwned {
      var cleared := if e.txn.state != Idle then Abort(e, InvalidState) else Outcome(e, SILENT, []);
      AbortBalanced(e, InvalidState);
      var c := BeginFrame(FrameDescriptor(total, e.cfg.colorScheme, false, false), ans.begin);
      AbortsConcat(cleared.calls, [c]);
      assert AbortsIn([c]) == 0;
    }
  }

  lemma AbortsPair(a: Call, b: Call)
    ensures AbortsIn([a, b]) == AbortsIn([a]) + AbortsIn([b])
  {
    AbortsConcat([a], [b]);
    assert [a] + [b] == [a, b];
  }

  // A failure after `before` while finishing: only the state and a failure counter differ from e.
  lemma FinishFailureBalanced(e: Engine, v: Engine, error: ErrorCode, before: seq<Call>, res: Result)
    requires e.txn.state != Idle && v.txn.state != Idle && v.cfg.attached && AbortsIn(before) == 0
    requires v.stats.transfersOk == e.stats.transfersOk && v.stats.transfersAborted == e.stats.transfersAborted
    requires !res.transferStarted && !res.refreshComplete
    ensures Balanced(e, AbortWith(v, error, before, res))
  {
    AbortWithBalanced(v, error, before, res);
  }

  lemma FinishBalanced(e: Engine, endOpcode: nat, now: U32, ans: Answers)
    requires e.txn.state != Idle && e.cfg.attached
    ensures Balanced(e, FinishAndRefresh(e, endOpcode, now, ans))
  {
    var v := e.(txn := e.txn.(state := Validating));
    var w := v.(txn := v.txn.(state := Writing));
    var nack := Refuse(EncodeNack(endOpcode));
    AbortsPair(FinishFrame(true), BeginRefresh(ans.refresh));
    if e.txn.acceptedBytes != e.txn.expectedFrameBytes {
      FinishFailureBalanced(e, v, InvalidSize, [], nack);
    } else if !ans.finish {
      FinishFailureBalanced(e, BackendFailed(v), BackendFinishFailed, [FinishFrame(false)], nack);
    } else if !ans.refresh {
      FinishFailureBalanced(e, BackendFailed(w), BackendBeginFailed, [FinishFrame(true), BeginRefresh(false)], nack);
    }
  }

  lemma DirectDataBalanced(e: Engine, payload: seq<Byte>, now: U32, ans: Answers)
    requires e.txn.state != Idle ==> e.cfg.attached
    ensures Balanced(e, OnDirectData(e, payload, now, ans))
  {
    if e.txn.state == Receiving {
      var nack := Refuse(EncodeNack(CMD_DIRECT_WRITE_DATA));
      var write := WriteContiguous(e.txn.nextDirectOffset, payload, ans.write);
      assert AbortsIn([write]) == 0;
      AbortWithBalanced(e, MalformedPacket, [], nack);
      AbortWithBalanced(e, InvalidSize, [], nack);
      AbortWithBalanced(BackendFailed(e), BackendWriteFailed, [write], nack);
    }
  }

  lemma PipeDataBalanced(e: Engine, payload: seq<Byte>, now: U32, ans: Answers)
    requires e.txn.state != Idle ==> e.cfg.attached
    ensures Balanced(e, OnPipeData(e, payload, now, ans))
  {
    if e.txn.state == Receiving {
      if payload == [] {
        AbortWithBalanced(e, MalformedPacket, [], Refuse(EncodePipeNack(NACK_PROTOCOL, 0, 0)));
      } else {
        StoreBalanced(e, payload[0], payload[1..], now, ans);
      }
    }
  }

  lemma AckOrFinishBalanced(a: Engine, now: U32, ans: Answers)
    requires a.txn.state != Idle && a.cfg.attached
    ensures Balanced(a, AckOrFinish(a, now, ans))
  {
    FinishBalanced(a.(tail := Some(CurrentSack(a.txn)), txn := a.txn.(acceptedSinceAck := 0)),
                   CMD_PIPE_WRITE_END, now, ans);
  }

  lemma StoreBalanced(e: Engine, seqNo: Byte, data: seq<Byte>, now: U32, ans: Answers)
    requires e.txn.state != Idle && e.cfg.attached
    ensures Balanced(e, StoreChunk(e, seqNo, data, now, ans))
  {
    var write := WriteContiguous(e.txn.acceptedBytes, data, ans.write);
    assert AbortsIn([write]) == 0;
    if |data| > Sub32(e.txn.expectedFrameBytes, e.txn.acceptedBytes) {
      AbortWithBalanced(e, InvalidSize, [], Refuse(EncodePipeNack(NACK_WRITE_SIZE, 0, 0)));
    } else if !ans.write {
      AbortWithBalanced(BackendFailed(e), BackendWriteFailed, [write], Refuse(EncodePipeNack(NACK_WRITE_SIZE, 0, 0)));
    } else {
      var a := AcceptChunk(e, seqNo, data, now);
      AckOrFinishBalanced(a, now, ans);
      AbortsConcat([write], AckOrFinish(a, now, ans).calls);
    }
  }

  lemma StartBalanced(e: Engine, s: Step)
    requires IsStart(s.ev) && (e.txn.state != Idle ==> e.cfg.attached)
    ensures Balanced(e, Handle(e, s))
  {
    match s.ev {
      case DirectStart(len) => DirectStartBalanced(e, len, s.now, s.ans);
      case PipeStart(memory, len) => PipeStartBalanced(e, memory, len, s.now, s.ans);
    }
  }

  lemma DirectStartBalanced(e: Engine, len: nat, now: U32, ans: Answers)
    requires e.txn.state != Idle ==> e.cfg.attached
    ensures Balanced(e, OnDirectStart(e, len, now, ans))
  {
    BeginBalanced(e, Direct, if e.cfg.attached then e.cfg.fullFrameBytes else 0, now, ans);
    hide BeginTransaction;
  }

  lemma PipeStartBalanced(e: Engine, memory: seq<Byte>, len: nat, now: U32, ans: Answers)
    requires |memory| == PAYLOAD_MEMORY && len <= PAYLOAD_MEMORY && (e.txn.state != Idle ==> e.cfg.attached)
    ensures Balanced(e, OnPipeStart(e, memory, len, now, ans))
  {
    var p := ParsePipeStart(memory, len);
    if p.Accepted? {
      BeginBalanced(e, Pipe, p.req.totalSize, now, ans);
    }
    hide BeginTransaction, ParsePipeStart;
  }

  lemma EndBalanced(e: Engine, now: U32, ans: Answers)
    requires e.txn.state != Idle ==> e.cfg.attached
    ensures Balanced(e, OnDirectEnd(e, now, ans)) && Balanced(e, OnPipeEnd(e, now, ans))
  {
    if e.txn.state == Receiving {
      var flushed := e.txn.(acceptedSinceAck := 0);
      FinishBalanced(e, CMD_DIRECT_WRITE_END, now, ans);
      FinishBalanced(e, CMD_PIPE_WRITE_END, now, ans);
      FinishBalanced(e.(txn := flushed, tail := Some(CurrentSack(flushed))), CMD_PIPE_WRITE_END, now, ans);
    }
  }

  lemma TickBalanced(e: Engine, now: U32, ans: Answers)
    requires e.txn.state != Idle ==> e.cfg.attached
    requires e.txn.state == Refreshing ==> e.hwOwned
    ensures Balanced(e, Tick(e, now, ans))
  {
    var before := if e.hwOwned && e.cfg.attached then [PollRefresh(ans.poll)] else [];
    assert AbortsIn(before) == 0;
    if e.txn.state != Idle && (before == [] || ans.poll == Pending) {
      var timedOut := e.(stats := e.stats.(refreshTimeouts := Inc32(e.stats.refreshTimeouts)));
      AbortWithBalanced(e, TransferTimeout, before, SILENT.(terminalError := true));
      AbortWithBalanced(timedOut, RefreshTimeout, before, SILENT.(refreshTimeout := true));
    }
  }

  lemma AsideBalanced(e: Engine, s: Step)
    requires s.ev.Disconnect? || s.ev.SetGeneration? || s.ev.TakeTail?
    requires e.txn.state != Idle ==> e.cfg.attached
    ensures Balanced(e, Handle(e, s))
  {
    AbortBalanced(e, Disconnected);
  }

  lemma StepBalanced(e: Engine, l: Ledger, s: Step)
    requires Inv(e, l)
    ensures Balanced(e, Handle(e, s))
  {
    hide Balanced, OnDirectStart, OnPipeStart, StoreChunk, FinishAndRefresh;
    match s.ev {
      case DirectStart(_) => StartBalanced(e, s);
      case PipeStart(_, _) => StartBalanced(e, s);
      case DirectData(payload) => DirectDataBalanced(e, payload, s.now, s.ans);
      case PipeData(payload) => PipeDataBalanced(e, payload, s.now, s.ans);
      case DirectEnd => EndBalanced(e, s.now, s.ans);
      case PipeEnd => EndBalanced(e, s.now, s.ans);
      case TickAt => TickBalanced(e, s.now, s.ans);
      case UserAbort => AbortBalanced(e, InvalidState);
      case _ => AsideBalanced(e, s);
    }
  }

  // Over every run each accepted START ends in exactly one way: completed, refresh failed,
  // aborted, or still active; transfers_ok and transfers_aborted are those counts modulo 2^32.
  lemma {:induction false} OutcomesConserved(cfg: Config, steps: seq<Step>)
    ensures Conserved(After(Boot(cfg), steps), TallyOf(Boot(cfg), steps))
    decreases |steps|
  {
    if steps == [] {
    } else {
      var init := steps[..|steps| - 1];
      OutcomesConserved(cfg, init);
      RunKeepsInv(cfg, init);
      StepBalanced(After(Boot(cfg), init), LedgerOf(cfg.fullFrameBytes, Log(Boot(cfg), init)), steps[|steps| - 1]);
      StepConserves(After(Boot(cfg), init), TallyOf(Boot(cfg), init), At(Boot(cfg), steps, |steps| - 1));
    }
  }

  predicate Conserved(e: Engine, t: Tally) {
    && t.started == t.completed + t.failed + t.aborted + Active(e)
    && e.stats.transfersOk == t.completed % TWO_TO_32
    && e.stats.transfersAborted == t.aborted % TWO_TO_32
  }

  lemma StepConserves(e: Engine, t: Tally, out: Outcome)
    requires Conserved(e, t) && Balanced(e, out)
    ensures Conserved(out.eng, Count(t, out))
  {
    var c := Count(Tally(0, 0, 0, 0), out);
    BumpCounts(t.completed, c.completed);
    BumpCounts(t.aborted, c.aborted);
  }

  // --- A START takes over ------------------------------------------------------------------------

  // The request itself is one the engine serves.
  predicate GoodRequest(cfg: Config, ev: GoodEvent)
    requires IsStart(ev)
  {
    match ev
    case DirectStart(len) => len == 0
    case PipeStart(memory, len) =>
      var p := ParsePipeStart(memory, len);
      p.Accepted? && p.req.flags % 2 == 0 && p.req.totalSize == cfg.fullFrameBytes
  }

  // Whether a START is accepted does not depend on a transfer in progress, only on who owns the
  // panel; one that is accepted first aborts that transfer.
  lemma StartAcceptedIff(cfg: Config, steps: seq<Step>, s: Step)
    requires IsStart(s.ev)
    ensures var e := After(Boot(cfg), steps); var out := Handle(e, s);
            && (out.res.transferStarted <==> cfg.attached && !e.hwOwned && GoodRequest(cfg, s.ev) && s.ans.begin)
            && (out.res.transferStarted ==> (AbortTransfer in out.calls <==> e.txn.state != Idle))
  {
    RunKeepsInv(cfg, steps);
    StartOutcome(After(Boot(cfg), steps), s);
  }

  lemma StartOutcome(e: Engine, s: Step)
    requires IsStart(s.ev)
    ensures var out := Handle(e, s);
            && (out.res.transferStarted <==> e.cfg.attached && !e.hwOwned && GoodRequest(e.cfg, s.ev) && s.ans.begin)
            && (out.res.transferStarted ==> (AbortTransfer in out.calls <==> e.txn.state != Idle))
  {
    var c := BeginFrame(FrameDescriptor(e.cfg.fullFrameBytes, e.cfg.colorScheme, false, false), true);
    assert AbortTransfer in [AbortTransfer] + [c] && AbortTransfer !in [] + [c];
  }

  // --- Fatal NACKs ------------------------------------------------------------------------------

  function FatalNacks(e: Engine, steps: seq<Step>): nat {
    if steps == [] then 0
    else FatalNacks(e, steps[..|steps| - 1]) + (if IsPipeNack(At(e, steps, |steps| - 1).res.response) then 1 else 0)
  }

  function UserAborts(steps: seq<Step>): nat {
    if steps == [] then 0
    else UserAborts(steps[..|steps| - 1]) + (if steps[|steps| - 1].ev.UserAbort? then 1 else 0)
  }

  // How many fatal NACKs are still possible before the next START.
  function NackPotential(e: Engine): nat {
    (if e.txn.state == Idle then 1 else 2) - (if e.txn.pipeFatal then 1 else 0)
  }

  predicate NackPaid(e: Engine, out: Outcome, credit: nat) {
    (if IsPipeNack(out.res.response) then 1 else 0) + NackPotential(out.eng) <= NackPotential(e) + credit
  }

  lemma StoreNackPaid(e: Engine, seqNo: Byte, data: seq<Byte>, now: U32, ans: Answers)
    requires e.txn.state == Receiving && !e.txn.pipeFatal
    ensures NackPaid(e, StoreChunk(e, seqNo, data, now, ans), 0)
  {
    var a := AcceptChunk(e, seqNo, data, now);
    assert NackPaid(e, AckOrFinish(a, now, ans), 0);
  }

  lemma UnstoredNackPaid(e: Engine, payload: seq<Byte>, now: U32, ans: Answers)
    requires e.txn.state == Receiving && e.txn.mode == Pipe ==> !e.txn.pipeFatal
    requires e.txn.state == Receiving && e.txn.mode == Pipe ==> payload == [] || payload[0] != e.txn.nextPipeSequence
    ensures NackPaid(e, OnPipeData(e, payload, now, ans), 0)
  {
  }

  lemma PipeDataNackPaid(e: Engine, l: Ledger, payload: seq<Byte>, now: U32, ans: Answers)
    requires Inv(e, l)
    ensures NackPaid(e, OnPipeData(e, payload, now, ans), 0)
  {
    if e.txn.state == Receiving && e.txn.mode == Pipe && payload != [] && payload[0] == e.txn.nextPipeSequence {
      StoreNackPaid(e, payload[0], payload[1..], now, ans);
    } else {
      UnstoredNackPaid(e, payload, now, ans);
    }
  }

  lemma NackStep(e: Engine, l: Ledger, s: Step)
    requires Inv(e, l) && !IsStart(s.ev)
    ensures NackPaid(e, Handle(e, s), if s.ev.UserAbort? then 1 else 0)
  {
    hide StoreChunk, BeginTransaction;
    match s.ev {
      case PipeData(payload) => PipeDataNackPaid(e, l, payload, s.now, s.ans);
      case DirectEnd => assert NackPaid(e, OnDirectEnd(e, s.now, s.ans), 0);
      case PipeEnd => assert NackPaid(e, OnPipeEnd(e, s.now, s.ans), 0);
      case TickAt => assert NackPaid(e, Tick(e, s.now, s.ans), 0);
      case _ =>
    }
  }

  lemma {:induction false} NacksFrom(e: Engine, l: Ledger, steps: seq<Step>) returns (m: Ledger)
    requires Inv(e, l) && forall s | s in steps :: !IsStart(s.ev)
    ensures Inv(After(e, steps), m)
    ensures FatalNacks(e, steps) + NackPotential(After(e, steps)) <= NackPotential(e) + UserAborts(steps)
    decreases |steps|
  {
    if steps == [] {
      m := l;
    } else {
      var init, last := steps[..|steps| - 1], steps[|steps| - 1];
      var k := NacksFrom(e, l, init);
      NackStep(After(e, init), k, last);
      StepKeepsInv(After(e, init), k, last);
      m := PostAll(k, After(e, init).cfg.fullFrameBytes, Handle(After(e, init), last).calls);
    }
  }

  // Between two START frames of any run there are at most two fatal NACKs, plus one for every
  // user abort in between.
  lemma FatalNacksBounded(cfg: Config, before: seq<Step>, steps: seq<Step>)
    requires forall s | s in steps :: !IsStart(s.ev)
    ensures FatalNacks(After(Boot(cfg), before), steps) <= 2 + UserAborts(steps)
  {
    RunKeepsInv(cfg, before);
    var m := NacksFrom(After(Boot(cfg), before), LedgerOf(cfg.fullFrameBytes, Log(Boot(cfg), before)), steps);
  }

  const YES := Answers(true, true, true, true, Pending)

  function PipeRequest(total: U32, window: Byte, ackEvery: Byte): (memory: seq<Byte>)
    requires 1 <= window <= 32 && 1 <= ackEvery <= 32
    ensures |memory| == PAYLOAD_MEMORY
    ensures ParsePipeStart(memory, 10) == Accepted(PipeStartRequest(0, window, ackEvery, PIPE_MAX_FRAME, total))
  {
    var req := PipeStartRequest(0, window, ackEvery, PIPE_MAX_FRAME, total);
    var memory: seq<Byte> := PipeStartHeader(req) + seq(PAYLOAD_MEMORY - 10, _ => 0);
    PipeStartRoundTrip(req, memory, 10);
    memory
  }

  // Two is reached: the latch that should silence a failed transfer does not survive its abort.
  lemma FatalLatchLost(cfg: Config)
    requires cfg.attached
    ensures var e := Handle(Boot(cfg), Step(PipeStart(PipeRequest(cfg.fullFrameBytes, 16, 4), 10), 0, YES)).eng;
            var s := Step(PipeData([]), 0, YES);
            FatalNacks(e, [s, s]) == 2
  {
    var e := Handle(Boot(cfg), Step(PipeStart(PipeRequest(cfg.fullFrameBytes, 16, 4), 10), 0, YES)).eng;
    var s := Step(PipeData([]), 0, YES);
    assert e.txn.state == Receiving && e.txn.mode == Pipe && !e.txn.pipeFatal;
    assert [s, s][..1] == [s] && [s][..0] == [];
    assert After(e, [s]) == Handle(e, s).eng && After(e, []) == e;
    assert FatalNacks(e, [s]) == 1;
  }

  // --- When the fatal latch holds ------------------------------------------------------------------

  predicate OpenPipe(e: Engine) {
    e.txn.state == Receiving && e.txn.mode == Pipe
  }

  // A NACK leaves the latch set if and only if it was not the open PIPE transfer that it ended:
  // the abort of that transfer resets the latch with everything else.
  lemma LatchSetIff(e: Engine, l: Ledger, payload: seq<Byte>, now: U32, ans: Answers)
    requires Inv(e, l) && IsPipeNack(OnPipeData(e, payload, now, ans).res.response)
    ensures OnPipeData(e, payload, now, ans).eng.txn.pipeFatal <==> !OpenPipe(e)
    ensures !OpenPipe(OnPipeData(e, payload, now, ans).eng)
  {
    if OpenPipe(e) && payload != [] && payload[0] == e.txn.nextPipeSequence {
      StoreNackAborts(e, payload[0], payload[1..], now, ans);
    }
  }

  lemma StoreNackAborts(e: Engine, seqNo: Byte, data: seq<Byte>, now: U32, ans: Answers)
    requires IsPipeNack(StoreChunk(e, seqNo, data, now, ans).res.response)
    ensures StoreChunk(e, seqNo, data, now, ans).eng.txn == BLANK
  {
  }

  // The step ends the transfer in progress: an abort, a timeout, a sweep, a failure or the end of
  // its refresh. A user abort counts even when nothing is in progress.
  predicate EndsTransfer(e: Engine, s: Step) {
    s.ev.UserAbort? || (e.txn.state != Idle && Handle(e, s).eng.txn.state == Idle)
  }

  predicate Undisturbed(e: Engine, steps: seq<Step>) {
    steps == []
    || (Undisturbed(e, steps[..|steps| - 1])
        && !EndsTransfer(After(e, steps[..|steps| - 1]), steps[|steps| - 1]))
  }

  // The 0x81 frames of these steps are dropped without a reply and without effect.
  predicate Silenced(e: Engine, steps: seq<Step>) {
    steps == []
    || (Silenced(e, steps[..|steps| - 1])
        && (steps[|steps| - 1].ev.PipeData? ==>
              At(e, steps, |steps| - 1) == Outcome(After(e, steps[..|steps| - 1]), SILENT, [])))
  }

  // So would be any further one.
  ghost predicate Deaf(e: Engine) {
    forall payload: seq<Byte>, now: U32, ans: Answers :: OnPipeData(e, payload, now, ans) == Outcome(e, SILENT, [])
  }

  lemma DeafIff(e: Engine)
    requires !OpenPipe(e)
    ensures Deaf(e) <==> e.txn.pipeFatal
  {
    if !e.txn.pipeFatal {
      assert OnPipeData(e, [], 0, YES).res.response != [];
    }
  }

  lemma LatchStep(e: Engine, l: Ledger, s: Step)
    requires Inv(e, l) && !OpenPipe(e) && !IsStart(s.ev)
    ensures var out := Handle(e, s);
            && !OpenPipe(out.eng)
            && (s.ev.PipeData? ==> (out == Outcome(e, SILENT, []) <==> e.txn.pipeFatal))
            && (!s.ev.PipeData? ==> (out.eng.txn.pipeFatal <==> e.txn.pipeFatal && !EndsTransfer(e, s)))
            && (out == Outcome(e, SILENT, []) && s.ev.PipeData? ==> !EndsTransfer(e, s))
  {
    match s.ev {
      case DirectData(_) => LatchDirectData(e, s);
      case DirectEnd => LatchEnd(e, s);
      case TickAt => LatchTick(e, l, s);
      case PipeEnd => assert Handle(e, s).eng.txn == e.txn;
      case _ =>
    }
  }

  lemma LatchDirectData(e: Engine, s: Step)
    requires s.ev.DirectData? && !OpenPipe(e)
    ensures var out := Handle(e, s);
            !OpenPipe(out.eng) && (out.eng.txn.pipeFatal <==> e.txn.pipeFatal && !EndsTransfer(e, s))
  {
  }

  lemma LatchEnd(e: Engine, s: Step)
    requires s.ev.DirectEnd? && !OpenPipe(e)
    ensures var out := Handle(e, s);
            !OpenPipe(out.eng) && (out.eng.txn.pipeFatal <==> e.txn.pipeFatal && !EndsTransfer(e, s))
  {
  }

  lemma LatchTick(e: Engine, l: Ledger, s: Step)
    requires Inv(e, l) && s.ev.TickAt? && !OpenPipe(e)
    ensures var out := Handle(e, s);
            !OpenPipe(out.eng) && (out.eng.txn.pipeFatal <==> e.txn.pipeFatal && !EndsTransfer(e, s))
  {
  }

  lemma {:induction false} LatchFrom(e: Engine, l: Ledger, steps: seq<Step>) returns (m: Ledger)
    requires Inv(e, l) && !OpenPipe(e) && forall s | s in steps :: !IsStart(s.ev)
    ensures Inv(After(e, steps), m) && !OpenPipe(After(e, steps))
    ensures Silenced(e, steps) && After(e, steps).txn.pipeFatal <==> e.txn.pipeFatal && Undisturbed(e, steps)
    decreases |steps|
  {
    hide Handle;
    if steps == [] {
      m := l;
    } else {
      var init, last := steps[..|steps| - 1], steps[|steps| - 1];
      assert last in steps && forall s | s in init :: s in steps;
      var k := LatchFrom(e, l, init);
      LatchStep(After(e, init), k, last);
      StepKeepsInv(After(e, init), k, last);
      m := PostAll(k, After(e, init).cfg.fullFrameBytes, Handle(After(e, init), last).calls);
    }
  }

  // "Discard until the next START": after a fatal NACK all further 0x81 frames up to the next START
  // are dropped in silence if and only if the NACK did not end an open PIPE transfer and nothing
  // ends the transfer in progress in the meantime.
  lemma LatchHoldsIff(cfg: Config, before: seq<Step>, s: Step, steps: seq<Step>)
    requires s.ev.PipeData? && IsPipeNack(Handle(After(Boot(cfg), before), s).res.response)
    requires forall r | r in steps :: !IsStart(r.ev)
    ensures var e := After(Boot(cfg), before); var f := Handle(e, s).eng;
            Silenced(f, steps) && Deaf(After(f, steps)) <==> !OpenPipe(e) && Undisturbed(f, steps)
  {
    var e, l := After(Boot(cfg), before), LedgerOf(cfg.fullFrameBytes, Log(Boot(cfg), before));
    RunKeepsInv(cfg, before);
    LatchSetIff(e, l, s.ev.payload, s.now, s.ans);
    StepKeepsInv(e, l, s);
    var f := Handle(e, s).eng;
    var m := LatchFrom(f, PostAll(l, e.cfg.fullFrameBytes, Handle(e, s).calls), steps);
    DeafIff(After(f, steps));
  }

  // --- SACKs on the wire ---------------------------------------------------------------------------

  predicate Multiple(n: nat, every: nat) {
    every > 0 && n % every == 0
  }

  // Every SACK the engine answers a chunk with, and every tail SACK it stages, is the one for the
  // number of chunks accepted so far; an in-order chunk that does not complete the frame is
  // answered exactly when that number is a multiple of ack_every.
  lemma EmittedSacks(cfg: Config, steps: seq<Step>, payload: seq<Byte>, now: U32, ans: Answers)
    requires var t := After(Boot(cfg), steps).txn; t.state == Receiving && t.mode == Pipe
    ensures var e, full := After(Boot(cfg), steps), cfg.fullFrameBytes;
            var out := OnPipeData(e, payload, now, ans);
            var n := LedgerOf(full, Log(Boot(cfg), steps) + out.calls).packets;
            && (IsSack(out.res.response) ==> out.res.response == SackAfter(n))
            && (out.eng.tail != e.tail ==> out.eng.tail == Some(SackAfter(n)))
            && (out.eng.txn.state == Receiving && payload != [] && payload[0] == e.txn.nextPipeSequence ==>
                  (out.res.response != [] <==> Multiple(n, e.txn.negotiatedAckEvery)))
  {
    var e, log, full := After(Boot(cfg), steps), Log(Boot(cfg), steps), cfg.fullFrameBytes;
    var l := LedgerOf(full, log);
    RunKeepsInv(cfg, steps);
    var out := OnPipeData(e, payload, now, ans);
    LedgerConcat(full, log, out.calls);
    if payload == [] || payload[0] != e.txn.nextPipeSequence {
      SackOfState(e.txn, l);
      AbortKeepsInv(e, l, MalformedPacket);
    } else {
      StoredSacks(e, l, payload[1..], now, ans);
    }
  }

  lemma SackOfState(t: Transaction, l: Ledger)
    requires PipeCounters(t, l)
    ensures CurrentSack(t) == SackAfter(l.packets)
  {
    if l.packets >= 1 {
      SackOfCounters(t, l.packets);
    }
  }

  predicate SacksExact(e: Engine, out: Outcome, n: nat) {
    && (IsSack(out.res.response) ==> out.res.response == SackAfter(n))
    && (out.eng.tail != e.tail ==> out.eng.tail == Some(SackAfter(n)))
    && (out.eng.txn.state == Receiving ==> (out.res.response != [] <==> Multiple(n, e.txn.negotiatedAckEvery)))
  }

  lemma AckedSacks(e: Engine, l: Ledger, data: seq<Byte>, now: U32, ans: Answers)
    requires Inv(e, l) && e.txn.state == Receiving && e.txn.mode == Pipe
    requires |l.written| + |data| <= e.cfg.fullFrameBytes
    ensures SacksExact(e, AckOrFinish(AcceptChunk(e, e.txn.nextPipeSequence, data, now), now, ans), l.packets + 1)
  {
    AcceptedCounters(e, l, data, now);
    AcceptedCadence(e, l, data, now);
  }

  lemma RefusedSacks(e: Engine, seqNo: Byte, data: seq<Byte>, now: U32, ans: Answers, n: nat)
    requires |data| > Sub32(e.txn.expectedFrameBytes, e.txn.acceptedBytes) || !ans.write
    ensures SacksExact(e, StoreChunk(e, seqNo, data, now, ans), n)
  {
  }

  // A chunk the backend takes: one more packet and its data, and the rest is acknowledgement.
  lemma StoreTaken(e: Engine, l: Ledger, seqNo: Byte, data: seq<Byte>, now: U32, ans: Answers)
    requires |data| <= Sub32(e.txn.expectedFrameBytes, e.txn.acceptedBytes) && ans.write
    ensures var out := StoreChunk(e, seqNo, data, now, ans);
            var rest := AckOrFinish(AcceptChunk(e, seqNo, data, now), now, ans);
            && out.eng == rest.eng && out.res == rest.res
            && out.calls == [WriteContiguous(e.txn.acceptedBytes, data, true)] + rest.calls
    ensures var m := PostAll(l, e.cfg.fullFrameBytes, StoreChunk(e, seqNo, data, now, ans).calls);
            m.packets == l.packets + 1 && m.written == l.written + data
  {
    var a := AcceptChunk(e, seqNo, data, now);
    var write, rest := WriteContiguous(e.txn.acceptedBytes, data, true), AckOrFinish(a, now, ans);
    AckOrFinishIsQuiet(a, now, ans);
    FirstCallThenQuiet(l, e.cfg.fullFrameBytes, write, rest.calls);
  }

  lemma StoredSacks(e: Engine, l: Ledger, data: seq<Byte>, now: U32, ans: Answers)
    requires Inv(e, l) && e.txn.state == Receiving && e.txn.mode == Pipe
    ensures var out := StoreChunk(e, e.txn.nextPipeSequence, data, now, ans);
            SacksExact(e, out, PostAll(l, e.cfg.fullFrameBytes, out.calls).packets)
  {
    var seqNo := e.txn.nextPipeSequence;
    if |data| <= Sub32(e.txn.expectedFrameBytes, e.txn.acceptedBytes) && ans.write {
      AckedSacks(e, l, data, now, ans);
      StoreTaken(e, l, seqNo, data, now, ans);
    } else {
      var n := PostAll(l, e.cfg.fullFrameBytes, StoreChunk(e, seqNo, data, now, ans).calls).packets;
      RefusedSacks(e, seqNo, data, now, ans, n);
    }
  }

  // --- PIPE ends by itself ---------------------------------------------------------------------------

  predicate StartsRefresh(out: Outcome) {
    BeginRefresh(true) in out.calls
  }

  // An explicit 0x0082 can start a refresh in some run if and only if the panel claims a frame of
  // zero bytes; for every real panel PIPE transfers complete by their last chunk alone.
  lemma PipeEndStartsRefreshIff(cfg: Config)
    ensures (exists steps: seq<Step>, now: U32, ans: Answers ::
               StartsRefresh(OnPipeEnd(After(Boot(cfg), steps), now, ans)))
       <==> cfg.attached && cfg.fullFrameBytes == 0
  {
    if cfg.attached && cfg.fullFrameBytes == 0 {
      var start := Step(PipeStart(PipeRequest(0, 16, 4), 10), 0, YES);
      var e := After(Boot(cfg), [start]);
      AfterOne(Boot(cfg), start);
      assert OnPipeEnd(e, 0, YES).calls == [FinishFrame(true), BeginRefresh(true)];
      assert StartsRefresh(OnPipeEnd(e, 0, YES));
    }
    forall steps: seq<Step>, now: U32, ans: Answers | StartsRefresh(OnPipeEnd(After(Boot(cfg), steps), now, ans))
      ensures cfg.attached && cfg.fullFrameBytes == 0
    {
      RunKeepsInv(cfg, steps);
    }
  }

  // The unsolicited END ACK of a PIPE transfer comes with its tail SACK staged, and the refresh
  // was begun before either is sent.
  lemma PipeEndAckCarriesTail(cfg: Config, steps: seq<Step>, s: Step)
    requires cfg.fullFrameBytes > 0
    requires var out := Handle(After(Boot(cfg), steps), s); out.res.response == EncodeAck(CMD_PIPE_WRITE_END)
    ensures var e := After(Boot(cfg), steps); var out := Handle(e, s);
            && s.ev.PipeData? && StartsRefresh(out) && out.eng.txn.state == Refreshing
            && out.eng.tail == Some(SackAfter(LedgerOf(cfg.fullFrameBytes, Log(Boot(cfg), steps) + out.calls).packets))
  {
    var e := After(Boot(cfg), steps);
    var out := Handle(e, s);
    RunKeepsInv(cfg, steps);
    EndAckOnlyFromData(e, LedgerOf(cfg.fullFrameBytes, Log(Boot(cfg), steps)), s);
    var payload := s.ev.payload;
    LedgerConcat(cfg.fullFrameBytes, Log(Boot(cfg), steps), out.calls);
    StoredTail(e, LedgerOf(cfg.fullFrameBytes, Log(Boot(cfg), steps)), payload[1..], s.now, s.ans);
  }

  lemma EndAckOnlyFromData(e: Engine, l: Ledger, s: Step)
    requires Inv(e, l) && e.cfg.fullFrameBytes > 0
    requires Handle(e, s).res.response == EncodeAck(CMD_PIPE_WRITE_END)
    ensures s.ev.PipeData? && e.txn.state == Receiving && e.txn.mode == Pipe
    ensures s.ev.payload != [] && s.ev.payload[0] == e.txn.nextPipeSequence
    ensures StoreChunk(e, s.ev.payload[0], s.ev.payload[1..], s.now, s.ans) == Handle(e, s)
  {
  }

  lemma StoredTail(e: Engine, l: Ledger, data: seq<Byte>, now: U32, ans: Answers)
    requires Inv(e, l) && e.txn.state == Receiving && e.txn.mode == Pipe
    requires StoreChunk(e, e.txn.nextPipeSequence, data, now, ans).res.response == EncodeAck(CMD_PIPE_WRITE_END)
    ensures var out := StoreChunk(e, e.txn.nextPipeSequence, data, now, ans);
            && StartsRefresh(out) && out.eng.txn.state == Refreshing
            && out.eng.tail == Some(SackAfter(PostAll(l, e.cfg.fullFrameBytes, out.calls).packets))
  {
    hide StoreChunk, AckOrFinish, SackAfter, CurrentSack, FinishAndRefresh, PostAll;
    EndAckMeansTaken(e, data, now, ans);
    AcceptedCounters(e, l, data, now);
    StoreTaken(e, l, e.txn.nextPipeSequence, data, now, ans);
    EndAckMeansRefreshing(AcceptChunk(e, e.txn.nextPipeSequence, data, now), now, ans);
    var rest := AckOrFinish(AcceptChunk(e, e.txn.nextPipeSequence, data, now), now, ans).calls;
    RefreshAmong(WriteContiguous(e.txn.acceptedBytes, data, true), rest);
  }

  lemma RefreshAmong(c: Call, rest: seq<Call>)
    requires rest == [FinishFrame(true), BeginRefresh(true)]
    ensures BeginRefresh(true) in [c] + rest
  {
    assert ([c] + rest)[2] == BeginRefresh(true);
  }

  lemma EndAckMeansTaken(e: Engine, data: seq<Byte>, now: U32, ans: Answers)
    requires StoreChunk(e, e.txn.nextPipeSequence, data, now, ans).res.response == EncodeAck(CMD_PIPE_WRITE_END)
    ensures |data| <= Sub32(e.txn.expectedFrameBytes, e.txn.acceptedBytes) && ans.write
    ensures AckOrFinish(AcceptChunk(e, e.txn.nextPipeSequence, data, now), now, ans).res.response
         == EncodeAck(CMD_PIPE_WRITE_END)
  {
  }

  lemma EndAckMeansRefreshing(a: Engine, now: U32, ans: Answers)
    requires AckOrFinish(a, now, ans).res.response == EncodeAck(CMD_PIPE_WRITE_END)
    ensures var out := AckOrFinish(a, now, ans);
            && out.eng.txn.state == Refreshing && out.eng.tail == Some(CurrentSack(a.txn))
            && out.calls == [FinishFrame(true), BeginRefresh(true)]
  {
  }
}
