// What the engine keeps about itself over every run: its statistics, the last error, and which of its
// results end something.
module EngineBooks {
  import opened Bytes
  import opened Wire
  import opened EngineModel
  import opened EngineRuns
  import opened EngineTheorems
  import opened Replies

  // A deadline of 0 is none; otherwise the difference is read as a signed 32-bit number.
  predicate Due(now: U32, deadline: U32) {
    deadline != 0 && (now - deadline) % 0x1_0000_0000 < 0x8000_0000
  }

  // --- The tick ----------------------------------------------------------------------------------

  // A tick answers nothing. It reports a refresh complete, timed out or failed exactly when the
  // transaction is refreshing and the backend says so, or says nothing and the deadline has come;
  // it ends an open transfer exactly when its deadline has come.
  lemma TickReports(cfg: Config, steps: seq<Step>, now: U32, ans: Answers)
    ensures var e := After(Boot(cfg), steps); var out := Handle(e, Step(TickAt, now, ans));
            TickReported(e, now, ans, out)
  {
    RunKeepsInv(cfg, steps);
    TickReport(After(Boot(cfg), steps), LedgerOf(cfg.fullFrameBytes, Log(Boot(cfg), steps)), now, ans);
    hide Inv, Tick, TickReported;
  }

  predicate TickReported(e: Engine, now: U32, ans: Answers, out: Outcome) {
    var refreshing := e.txn.state == Refreshing;
    && out.res.response == [] && !out.res.transferStarted
    && (out.res.refreshComplete <==> refreshing && ans.poll == Complete)
    && (out.res.refreshTimeout <==> refreshing && ans.poll == Pending && Due(now, e.txn.refreshDeadline))
    && (out.res.terminalError <==>
          || (refreshing && ans.poll == Failed)
          || (e.txn.state == Receiving && Due(now, e.txn.transferDeadline)))
    && (out.eng.hwOwned <==> e.hwOwned && ans.poll == Pending)
  }

  lemma TickReport(e: Engine, l: Ledger, now: U32, ans: Answers)
    requires Inv(e, l)
    ensures TickReported(e, now, ans, Tick(e, now, ans))
  {
  }

  // --- What is final -----------------------------------------------------------------------------

  // The step ends a transfer or a refresh without success, and nobody asked it to.
  predicate EndsBadly(e: Engine, s: Step, out: Outcome) {
    && e.txn.state != Idle && out.eng.txn.state == Idle && !out.res.refreshComplete && !out.res.refreshTimeout
    && !IsStart(s.ev) && !s.ev.UserAbort? && !s.ev.Disconnect?
  }

  // In every run a result is flagged as a terminal error exactly when it refuses a START, or ends a
  // transfer or a refresh without success; a stray frame is refused without the flag.
  lemma TerminalErrorIff(cfg: Config, steps: seq<Step>, s: Step)
    ensures var e := After(Boot(cfg), steps); var out := Handle(e, s);
            out.res.terminalError <==> (IsStart(s.ev) && !out.res.transferStarted) || EndsBadly(e, s, out)
  {
    RunKeepsInv(cfg, steps);
    StepTerminal(After(Boot(cfg), steps), LedgerOf(cfg.fullFrameBytes, Log(Boot(cfg), steps)), s);
  }

  predicate Terminal(e: Engine, s: Step, out: Outcome) {
    out.res.terminalError <==> (IsStart(s.ev) && !out.res.transferStarted) || EndsBadly(e, s, out)
  }

  lemma StepTerminal(e: Engine, l: Ledger, s: Step)
    requires Inv(e, l)
    ensures Terminal(e, s, Handle(e, s))
  {
    hide OnDirectStart, OnPipeStart, OnPipeData, OnDirectData, OnDirectEnd, OnPipeEnd, Tick, Terminal;
    match s.ev {
      case DirectStart(_) => StartTerminal(e, s);
      case PipeStart(_, _) => StartTerminal(e, s);
      case DirectData(_) => DirectDataTerminal(e, l, s);
      case PipeData(_) => PipeDataTerminal(e, l, s);
      case DirectEnd => EndTerminal(e, l, s);
      case PipeEnd => EndTerminal(e, l, s);
      case TickAt => TickTerminal(e, l, s);
      case _ => AsideTerminal(e, s);
    }
  }

  lemma AsideTerminal(e: Engine, s: Step)
    requires s.ev.UserAbort? || s.ev.Disconnect? || s.ev.SetGeneration? || s.ev.TakeTail?
    ensures Terminal(e, s, Handle(e, s))
  {
  }

  lemma StartTerminal(e: Engine, s: Step)
    requires IsStart(s.ev)
    ensures Terminal(e, s, Handle(e, s))
  {
  }

  lemma DirectDataTerminal(e: Engine, l: Ledger, s: Step)
    requires Inv(e, l) && s.ev.DirectData?
    ensures Terminal(e, s, Handle(e, s))
  {
  }

  lemma EndTerminal(e: Engine, l: Ledger, s: Step)
    requires Inv(e, l) && (s.ev.DirectEnd? || s.ev.PipeEnd?)
    ensures Terminal(e, s, Handle(e, s))
  {
  }

  lemma TickTerminal(e: Engine, l: Ledger, s: Step)
    requires Inv(e, l) && s.ev.TickAt?
    ensures Terminal(e, s, Handle(e, s))
  {
  }

  lemma StoreTerminal(e: Engine, seqNo: Byte, data: seq<Byte>, now: U32, ans: Answers)
    requires e.txn.state == Receiving
    ensures var out := StoreChunk(e, seqNo, data, now, ans);
            && (out.res.terminalError <==> out.eng.txn.state == Idle)
            && !out.res.refreshComplete && !out.res.refreshTimeout
  {
  }

  lemma PipeDataTerminal(e: Engine, l: Ledger, s: Step)
    requires Inv(e, l) && s.ev.PipeData?
    ensures Terminal(e, s, Handle(e, s))
  {
    if OpenFor(e, Pipe) && s.ev.payload != [] {
      StoreTerminal(e, s.ev.payload[0], s.ev.payload[1..], s.now, s.ans);
      hide StoreChunk;
    }
  }

  // --- The statistics ----------------------------------------------------------------------------

  predicate BackendRefused(c: Call) {
    (c.WriteContiguous? && !c.ok) || (c.FinishFrame? && !c.ok) || (c.BeginRefresh? && !c.ok)
  }

  function Refusals(calls: seq<Call>): nat
    decreases |calls|
  {
    if calls == [] then 0 else (if BackendRefused(calls[0]) then 1 else 0) + Refusals(calls[1..])
  }

  // How often each thing happened.
  datatype Sums = Sums(direct: nat, pipe: nat, outOfOrder: nat, failures: nat, timeouts: nat)

  function One(b: bool): nat {
    if b then 1 else 0
  }

  function SumsOf(s: Step, out: Outcome): Sums {
    Sums(One(s.ev.DirectData? && Took(out)),
         One(s.ev.PipeData? && Took(out)),
         One(s.ev.PipeData? && !Took(out) && IsSack(out.res.response)),
         Refusals(out.calls) + One(RefreshFailed(out)),
         One(out.res.refreshTimeout))
  }

  function Plus(a: Sums, b: Sums): Sums {
    Sums(a.direct + b.direct, a.pipe + b.pipe, a.outOfOrder + b.outOfOrder, a.failures + b.failures,
         a.timeouts + b.timeouts)
  }

  function SumsUpTo(e: Engine, steps: seq<Step>): Sums {
    if steps == [] then Sums(0, 0, 0, 0, 0)
    else Plus(SumsUpTo(e, steps[..|steps| - 1]), SumsOf(steps[|steps| - 1], At(e, steps, |steps| - 1)))
  }

  predicate Shown(stats: Stats, t: Sums) {
    && stats.directPackets == t.direct % 0x1_0000_0000
    && stats.pipePackets == t.pipe % 0x1_0000_0000
    && stats.retransmitRequests == t.outOfOrder % 0x1_0000_0000
    && stats.backendFailures == t.failures % 0x1_0000_0000
    && stats.refreshTimeouts == t.timeouts % 0x1_0000_0000
  }

  // The statistics move with what one step does.
  predicate Counted(e: Engine, out: Outcome, t: Sums) {
    && t.failures <= 1
    && out.eng.stats.directPackets == Bump(e.stats.directPackets, t.direct)
    && out.eng.stats.pipePackets == Bump(e.stats.pipePackets, t.pipe)
    && out.eng.stats.retransmitRequests == Bump(e.stats.retransmitRequests, t.outOfOrder)
    && out.eng.stats.backendFailures == Bump(e.stats.backendFailures, t.failures)
    && out.eng.stats.refreshTimeouts == Bump(e.stats.refreshTimeouts, t.timeouts)
  }

  // Over every run each statistic is the number of times its event happened, modulo 2^32: chunks the
  // panel took, chunks out of order, calls the backend refused and refreshes it failed, timeouts.
  lemma {:induction false} StatisticsCount(cfg: Config, steps: seq<Step>)
    ensures Shown(After(Boot(cfg), steps).stats, SumsUpTo(Boot(cfg), steps))
    decreases |steps|
  {
    if steps == [] {
    } else {
      var init, last := steps[..|steps| - 1], steps[|steps| - 1];
      var e := After(Boot(cfg), init);
      StatisticsCount(cfg, init);
      RunKeepsInv(cfg, init);
      StepCounted(e, LedgerOf(cfg.fullFrameBytes, Log(Boot(cfg), init)), last);
      CountedShows(e, Handle(e, last), SumsUpTo(Boot(cfg), init), SumsOf(last, Handle(e, last)));
      hide Handle, SumsOf, Shown, Counted, Inv;
    }
  }

  lemma CountedShows(e: Engine, out: Outcome, t: Sums, more: Sums)
    requires Shown(e.stats, t) && Counted(e, out, more)
    requires more.direct <= 1 && more.pipe <= 1 && more.outOfOrder <= 1 && more.timeouts <= 1
    ensures Shown(out.eng.stats, Plus(t, more))
  {
    BumpCounts(t.direct, more.direct);
    BumpCounts(t.pipe, more.pipe);
    BumpCounts(t.outOfOrder, more.outOfOrder);
    BumpCounts(t.failures, more.failures);
    BumpCounts(t.timeouts, more.timeouts);
    hide Bump;
  }

  lemma {:induction false} RefusalsConcat(a: seq<Call>, b: seq<Call>)
    ensures Refusals(a + b) == Refusals(a) + Refusals(b)
    decreases |a|
  {
    if a == [] {
      assert a + b == b;
    } else {
      assert (a + b)[1..] == a[1..] + b;
      RefusalsConcat(a[1..], b);
    }
  }

  lemma ShortRefusals(a: Call, b: Call, c: Call)
    ensures Refusals([a]) == One(BackendRefused(a))
    ensures Refusals([a, b]) == One(BackendRefused(a)) + One(BackendRefused(b))
    ensures Refusals([a, b, c]) == One(BackendRefused(a)) + One(BackendRefused(b)) + One(BackendRefused(c))
  {
    assert [a][1..] == [] && [a, b][1..] == [b] && [b][1..] == [];
    assert [a, b, c][1..] == [b, c] && [b, c][1..] == [c] && [c][1..] == [];
    assert Refusals([b]) == One(BackendRefused(b)) && Refusals([c]) == One(BackendRefused(c));
    assert Refusals([b, c]) == One(BackendRefused(b)) + One(BackendRefused(c));
  }

  lemma StepCounted(e: Engine, l: Ledger, s: Step)
    requires Inv(e, l)
    ensures Counted(e, Handle(e, s), SumsOf(s, Handle(e, s)))
  {
    hide OnDirectStart, OnPipeStart, OnPipeData, OnDirectData, OnDirectEnd, OnPipeEnd, Tick, Counted, SumsOf;
    match s.ev {
      case DirectStart(_) => StartCounted(e, s);
      case PipeStart(_, _) => StartCounted(e, s);
      case DirectData(payload) => DirectDataCounted(e, payload, s.now, s.ans);
      case PipeData(payload) => PipeDataCounted(e, l, payload, s.now, s.ans);
      case DirectEnd => EndCounted(e, s);
      case PipeEnd => EndCounted(e, s);
      case TickAt => TickCounted(e, l, s.now, s.ans);
      case _ => AsideCounted(e, s);
    }
  }

  lemma AsideCounted(e: Engine, s: Step)
    requires s.ev.UserAbort? || s.ev.Disconnect? || s.ev.SetGeneration? || s.ev.TakeTail?
    ensures Counted(e, Handle(e, s), SumsOf(s, Handle(e, s)))
  {
    ShortRefusals(AbortTransfer, AbortTransfer, AbortTransfer);
  }

  lemma {:induction false} NoneRefused(calls: seq<Call>)
    requires forall c | c in calls :: !BackendRefused(c)
    ensures Refusals(calls) == 0
    decreases |calls|
  {
    if calls == [] {
    } else {
      assert calls[0] in calls && forall c | c in calls[1..] :: c in calls;
      NoneRefused(calls[1..]);
    }
  }

  // A START counts nothing here, whatever becomes of it.
  predicate StartCounts(e: Engine, out: Outcome) {
    && (forall c | c in out.calls :: c.AbortTransfer? || c.BeginFrame?)
    && out.eng.stats == e.stats.(transfersAborted := out.eng.stats.transfersAborted) && !out.res.refreshTimeout
  }

  lemma BeginBooks(e: Engine, mode: Mode, total: U32, now: U32, ans: Answers)
    ensures var b := BeginTransaction(e, mode, total, now, ans);
            && (forall c | c in b.calls :: c.AbortTransfer? || c.BeginFrame?)
            && b.eng.stats == e.stats.(transfersAborted := b.eng.stats.transfersAborted)
  {
  }

  lemma StartBooks(e: Engine, s: Step)
    requires IsStart(s.ev)
    ensures StartCounts(e, Handle(e, s))
  {
    BeginBooks(e, Direct, if e.cfg.attached then e.cfg.fullFrameBytes else 0, s.now, s.ans);
    if s.ev.PipeStart? && ParsePipeStart(s.ev.memory, s.ev.len).Accepted? {
      BeginBooks(e, Pipe, ParsePipeStart(s.ev.memory, s.ev.len).req.totalSize, s.now, s.ans);
    }
    hide BeginTransaction, ParsePipeStart, EncodePipeStartResponse, EncodeNackErr, EncodeNack, EncodeAck;
  }

  lemma StartCounted(e: Engine, s: Step)
    requires IsStart(s.ev)
    ensures Counted(e, Handle(e, s), SumsOf(s, Handle(e, s)))
  {
    StartBooks(e, s);
    NoneRefused(Handle(e, s).calls);
    hide Handle;
  }

  lemma DirectDataCounted(e: Engine, payload: seq<Byte>, now: U32, ans: Answers)
    ensures Counted(e, OnDirectData(e, payload, now, ans),
                    SumsOf(Step(DirectData(payload), now, ans), OnDirectData(e, payload, now, ans)))
  {
    var c := WriteContiguous(e.txn.nextDirectOffset, payload, ans.write);
    ShortRefusals(c, AbortTransfer, AbortTransfer);
    ShortRefusals(AbortTransfer, AbortTransfer, AbortTransfer);
    assert [c] + [AbortTransfer] == [c, AbortTransfer] && [c] + [] == [c] && [] + [AbortTransfer] == [AbortTransfer];
  }

  // The end of a frame: only failures are counted, of finish_frame or of begin_refresh.
  predicate FinishCounted(e: Engine, out: Outcome) {
    && Refusals(out.calls) <= 1 && !RefreshFailed(out) && !out.res.refreshTimeout && !Took(out)
    && !IsSack(out.res.response)
    && out.eng.stats == e.stats.(backendFailures := Bump(e.stats.backendFailures, Refusals(out.calls)),
                                 transfersAborted := out.eng.stats.transfersAborted)
  }

  lemma FinishCounts(e: Engine, endOpcode: nat, now: U32, ans: Answers)
    ensures FinishCounted(e, FinishAndRefresh(e, endOpcode, now, ans))
  {
    var f, b := FinishFrame(ans.finish), BeginRefresh(ans.refresh);
    ShortRefusals(f, AbortTransfer, AbortTransfer);
    ShortRefusals(f, b, AbortTransfer);
    ShortRefusals(AbortTransfer, f, f);
    assert [f] + [AbortTransfer] == [f, AbortTransfer] && [f] + [] == [f];
    assert [f, b] + [AbortTransfer] == [f, b, AbortTransfer] && [f, b] + [] == [f, b];
    assert [] + [AbortTransfer] == [AbortTransfer];
  }

  lemma DirectEndFinishes(e: Engine, now: U32, ans: Answers)
    ensures FinishCounted(e, OnDirectEnd(e, now, ans))
  {
    FinishCounts(e, CMD_DIRECT_WRITE_END, now, ans);
    hide FinishAndRefresh;
  }

  lemma PipeEndFinishes(e: Engine, now: U32, ans: Answers)
    ensures FinishCounted(e, OnPipeEnd(e, now, ans))
  {
    var flushed := e.txn.(acceptedSinceAck := 0);
    FinishCounts(e, CMD_PIPE_WRITE_END, now, ans);
    FinishCounts(e.(txn := flushed, tail := Some(CurrentSack(flushed))), CMD_PIPE_WRITE_END, now, ans);
    hide FinishAndRefresh, CurrentSack;
  }

  lemma EndCounted(e: Engine, s: Step)
    requires s.ev.DirectEnd? || s.ev.PipeEnd?
    ensures Counted(e, Handle(e, s), SumsOf(s, Handle(e, s)))
  {
    DirectEndFinishes(e, s.now, s.ans);
    PipeEndFinishes(e, s.now, s.ans);
    hide OnDirectEnd, OnPipeEnd;
  }

  lemma TickCounted(e: Engine, l: Ledger, now: U32, ans: Answers)
    requires Inv(e, l)
    ensures Counted(e, Tick(e, now, ans), SumsOf(Step(TickAt, now, ans), Tick(e, now, ans)))
  {
    var c := PollRefresh(ans.poll);
    ShortRefusals(c, AbortTransfer, AbortTransfer);
    ShortRefusals(AbortTransfer, AbortTransfer, AbortTransfer);
    assert [c] + [AbortTransfer] == [c, AbortTransfer] && [c] + [] == [c] && [] + [AbortTransfer] == [AbortTransfer];
  }

  lemma PipeDataCounted(e: Engine, l: Ledger, payload: seq<Byte>, now: U32, ans: Answers)
    requires Inv(e, l)
    ensures Counted(e, OnPipeData(e, payload, now, ans),
                    SumsOf(Step(PipeData(payload), now, ans), OnPipeData(e, payload, now, ans)))
  {
    if OpenFor(e, Pipe) && payload != [] && payload[0] == e.txn.nextPipeSequence {
      StoreCounted(e, payload[0], payload[1..], now, ans);
      hide StoreChunk, Inv, Counted;
    } else {
      UnstoredCounted(e, payload, now, ans);
      hide OnPipeData, Inv;
    }
  }

  lemma UnstoredCounted(e: Engine, payload: seq<Byte>, now: U32, ans: Answers)
    requires !OpenFor(e, Pipe) || payload == [] || payload[0] != e.txn.nextPipeSequence
    ensures Counted(e, OnPipeData(e, payload, now, ans),
                    SumsOf(Step(PipeData(payload), now, ans), OnPipeData(e, payload, now, ans)))
  {
    ShortRefusals(AbortTransfer, AbortTransfer, AbortTransfer);
    assert [] + [AbortTransfer] == [AbortTransfer];
    hide StoreChunk;
  }

  predicate StoreCounts(e: Engine, out: Outcome) {
    && Counted(e, out, Sums(0, One(Took(out)), 0, Refusals(out.calls), 0))
    && (IsSack(out.res.response) ==> Took(out)) && !RefreshFailed(out) && !out.res.refreshTimeout
  }

  lemma StoreCounted(e: Engine, seqNo: Byte, data: seq<Byte>, now: U32, ans: Answers)
    requires e.txn.state == Receiving
    ensures StoreCounts(e, StoreChunk(e, seqNo, data, now, ans))
  {
    if ans.write && |data| <= Sub32(e.txn.expectedFrameBytes, e.txn.acceptedBytes) {
      var a := AcceptChunk(e, seqNo, data, now);
      AckCounts(a, now, ans);
      hide AckOrFinish;
      RefusalsConcat([WriteContiguous(e.txn.acceptedBytes, data, true)], AckOrFinish(a, now, ans).calls);
      ShortRefusals(WriteContiguous(e.txn.acceptedBytes, data, true), AbortTransfer, AbortTransfer);
    } else {
      RefusedCounts(e, seqNo, data, now, ans);
      hide StoreChunk;
    }
  }

  lemma RefusedCounts(e: Engine, seqNo: Byte, data: seq<Byte>, now: U32, ans: Answers)
    requires !ans.write || |data| > Sub32(e.txn.expectedFrameBytes, e.txn.acceptedBytes)
    ensures StoreCounts(e, StoreChunk(e, seqNo, data, now, ans))
  {
    var c := WriteContiguous(e.txn.acceptedBytes, data, ans.write);
    ShortRefusals(c, AbortTransfer, AbortTransfer);
    ShortRefusals(AbortTransfer, AbortTransfer, AbortTransfer);
    assert [c] + [AbortTransfer] == [c, AbortTransfer] && [c] + [] == [c] && [] + [AbortTransfer] == [AbortTransfer];
  }

  // Acknowledging a chunk counts nothing but failures of the end of the frame.
  lemma AckCounts(a: Engine, now: U32, ans: Answers)
    ensures var out := AckOrFinish(a, now, ans);
            && Refusals(out.calls) <= 1 && !out.res.refreshTimeout
            && !(PollRefresh(Failed) in out.calls)
            && out.eng.stats == a.stats.(backendFailures := Bump(a.stats.backendFailures, Refusals(out.calls)),
                                         transfersAborted := out.eng.stats.transfersAborted)
  {
    var flushed := a.(tail := Some(CurrentSack(a.txn)), txn := a.txn.(acceptedSinceAck := 0));
    FinishCounts(flushed, CMD_PIPE_WRITE_END, now, ans);
    FinishPolls(flushed, CMD_PIPE_WRITE_END, now, ans);
    hide FinishAndRefresh, CurrentSack;
  }

  lemma FinishPolls(e: Engine, endOpcode: nat, now: U32, ans: Answers)
    ensures PollRefresh(Failed) !in FinishAndRefresh(e, endOpcode, now, ans).calls
  {
  }

  // --- The last error ----------------------------------------------------------------------------

  // Why the end of a frame of `size` bytes failed, or what was there before.
  function EndReason(full: U32, size: nat, ans: Answers, before: ErrorCode): ErrorCode {
    if size != full then InvalidSize
    else if !ans.finish then BackendFinishFailed
    else if !ans.refresh then BackendBeginFailed
    else before
  }

  // Why the panel was not to be had, for a request that is in order but for its size.
  function NotHad(e: Engine, size: int): ErrorCode {
    if !e.cfg.attached then BackendBeginFailed
    else if e.hwOwned then Busy
    else if size != e.cfg.fullFrameBytes then InvalidSize
    else BackendBeginFailed
  }

  // What last_error names after a step, read off the frame, what the panel holds and what the backend
  // answered.
  function ErrorAfter(e: Engine, l: Ledger, s: Step): ErrorCode {
    var had, full, size := e.lastError, e.cfg.fullFrameBytes, |l.written|;
    var restarted := if e.txn.state != Idle then InvalidState else had;
    var free := e.cfg.attached && !e.hwOwned && s.ans.begin;
    match s.ev
    case DirectStart(len) =>
      if len != 0 then UnsupportedFormat else if free then restarted else NotHad(e, full)
    case PipeStart(memory, len) =>
      if PlainRequest(memory, len) then
        if free && RequestedSize(memory) == full then restarted else NotHad(e, RequestedSize(memory))
      else if len >= 8 && memory[0] == 1 && memory[1] == 1 && 1 <= memory[2] <= 32 && 1 <= memory[3] <= 32
      then UnsupportedFormat
      else MalformedPacket
    case DirectData(payload) =>
      if !OpenFor(e, Direct) then InvalidState
      else if payload == [] then MalformedPacket
      else if size + |payload| > full then InvalidSize
      else if !s.ans.write then BackendWriteFailed
      else had
    case PipeData(payload) =>
      if e.txn.pipeFatal then had
      else if !OpenFor(e, Pipe) then InvalidState
      else if payload == [] then MalformedPacket
      else if payload[0] != l.packets % 256 then had
      else if size + |payload| - 1 > full then InvalidSize
      else if !s.ans.write then BackendWriteFailed
      else if size + |payload| - 1 < full then had
      else EndReason(full, full, s.ans, had)
    case DirectEnd => if !OpenFor(e, Direct) then InvalidState else EndReason(full, size, s.ans, had)
    case PipeEnd => if !OpenFor(e, Pipe) then InvalidState else EndReason(full, size, s.ans, had)
    case TickAt =>
      if e.txn.state == Receiving && Due(s.now, e.txn.transferDeadline) then TransferTimeout
      else if e.txn.state == Refreshing && s.ans.poll == Failed then BackendFinishFailed
      else if e.txn.state == Refreshing && s.ans.poll == Pending && Due(s.now, e.txn.refreshDeadline)
      then RefreshTimeout
      else had
    case UserAbort => InvalidState
    case Disconnect(generation) =>
      if e.txn.state == Receiving && e.txn.connectionGeneration == generation then Disconnected else had
    case _ => had
  }

  // In every run last_error names the reason of the last refusal or abort.
  lemma LastErrorNames(cfg: Config, steps: seq<Step>, s: Step)
    ensures var e, l := After(Boot(cfg), steps), LedgerOf(cfg.fullFrameBytes, Log(Boot(cfg), steps));
            Handle(e, s).eng.lastError == ErrorAfter(e, l, s)
  {
    RunKeepsInv(cfg, steps);
    StepNames(After(Boot(cfg), steps), LedgerOf(cfg.fullFrameBytes, Log(Boot(cfg), steps)), s);
    hide Handle, Inv, ErrorAfter;
  }

  predicate Names(e: Engine, l: Ledger, s: Step) {
    Handle(e, s).eng.lastError == ErrorAfter(e, l, s)
  }

  lemma StepNames(e: Engine, l: Ledger, s: Step)
    requires Inv(e, l)
    ensures Names(e, l, s)
  {
    hide Names;
    match s.ev {
      case DirectStart(_) => DirectStartNames(e, l, s);
      case PipeStart(_, _) => PipeStartNames(e, l, s);
      case DirectData(_) => DirectDataNames(e, l, s);
      case PipeData(_) => PipeDataNames(e, l, s);
      case DirectEnd => EndNames(e, l, s);
      case PipeEnd => EndNames(e, l, s);
      case _ => OtherNames(e, l, s);
    }
  }

  lemma BeginNames(e: Engine, mode: Mode, total: U32, now: U32, ans: Answers)
    ensures var b := BeginTransaction(e, mode, total, now, ans);
            if e.cfg.attached && !e.hwOwned && total == e.cfg.fullFrameBytes && ans.begin
            then b.why == NoError && b.eng.lastError == (if e.txn.state != Idle then InvalidState else e.lastError)
            else b.why == NotHad(e, total)
  {
  }

  lemma DirectStartNames(e: Engine, l: Ledger, s: Step)
    requires s.ev.DirectStart?
    ensures Names(e, l, s)
  {
    BeginNames(e, Direct, if e.cfg.attached then e.cfg.fullFrameBytes else 0, s.now, s.ans);
    hide BeginTransaction;
  }

  lemma PipeStartNames(e: Engine, l: Ledger, s: Step)
    requires s.ev.PipeStart?
    ensures Names(e, l, s)
  {
    var p := ParsePipeStart(s.ev.memory, s.ev.len);
    HeaderRead(s.ev.memory);
    if p.Accepted? {
      BeginNames(e, Pipe, p.req.totalSize, s.now, s.ans);
    }
    hide BeginTransaction, GetU16, GetU32, EncodePipeStartResponse;
  }

  lemma DirectDataNames(e: Engine, l: Ledger, s: Step)
    requires Inv(e, l) && s.ev.DirectData?
    ensures Names(e, l, s)
  {
  }

  lemma FinishNames(e: Engine, endOpcode: nat, now: U32, ans: Answers)
    requires e.txn.expectedFrameBytes == e.cfg.fullFrameBytes
    ensures FinishAndRefresh(e, endOpcode, now, ans).eng.lastError
         == EndReason(e.cfg.fullFrameBytes, e.txn.acceptedBytes, ans, e.lastError)
  {
  }

  lemma EndNames(e: Engine, l: Ledger, s: Step)
    requires Inv(e, l) && (s.ev.DirectEnd? || s.ev.PipeEnd?)
    ensures Names(e, l, s)
  {
    if e.txn.state == Receiving {
      var flushed := e.txn.(acceptedSinceAck := 0);
      FinishNames(e, CMD_DIRECT_WRITE_END, s.now, s.ans);
      FinishNames(e, CMD_PIPE_WRITE_END, s.now, s.ans);
      FinishNames(e.(txn := flushed, tail := Some(CurrentSack(flushed))), CMD_PIPE_WRITE_END, s.now, s.ans);
    }
    hide FinishAndRefresh, CurrentSack;
  }

  lemma OtherNames(e: Engine, l: Ledger, s: Step)
    requires Inv(e, l)
    requires s.ev.TickAt? || s.ev.UserAbort? || s.ev.Disconnect? || s.ev.SetGeneration? || s.ev.TakeTail?
    ensures Names(e, l, s)
  {
  }

  lemma PipeDataNames(e: Engine, l: Ledger, s: Step)
    requires Inv(e, l) && s.ev.PipeData?
    ensures Names(e, l, s)
  {
    if OpenFor(e, Pipe) && s.ev.payload != [] && s.ev.payload[0] == e.txn.nextPipeSequence {
      StoreNames(e, l, s.ev.payload[0], s.ev.payload[1..], s.now, s.ans);
    }
    hide StoreChunk;
  }

  lemma AcknowledgedNames(a: Engine, now: U32, ans: Answers)
    requires a.txn.expectedFrameBytes == a.cfg.fullFrameBytes && a.txn.acceptedBytes <= a.cfg.fullFrameBytes
    requires !a.txn.frame.compressed && !a.txn.frame.partial
    ensures AckOrFinish(a, now, ans).eng.lastError
         == if a.txn.acceptedBytes < a.cfg.fullFrameBytes then a.lastError
            else EndReason(a.cfg.fullFrameBytes, a.cfg.fullFrameBytes, ans, a.lastError)
  {
    var flushed := a.(tail := Some(CurrentSack(a.txn)), txn := a.txn.(acceptedSinceAck := 0));
    FinishNames(flushed, CMD_PIPE_WRITE_END, now, ans);
    hide FinishAndRefresh, CurrentSack;
  }

  lemma StoreNames(e: Engine, l: Ledger, seqNo: Byte, data: seq<Byte>, now: U32, ans: Answers)
    requires Inv(e, l) && OpenFor(e, Pipe) && seqNo == e.txn.nextPipeSequence
    ensures var size, full := |l.written| + |data|, e.cfg.fullFrameBytes;
            StoreChunk(e, seqNo, data, now, ans).eng.lastError
            == if size > full then InvalidSize
               else if !ans.write then BackendWriteFailed
               else if size < full then e.lastError
               else EndReason(full, full, ans, e.lastError)
  {
    if ans.write && |l.written| + |data| <= e.cfg.fullFrameBytes {
      var a := AcceptChunk(e, seqNo, data, now);
      AcceptedCounters(e, l, data, now);
      AcknowledgedNames(a, now, ans);
      assert StoreChunk(e, seqNo, data, now, ans).eng == AckOrFinish(a, now, ans).eng by {
        hide AckOrFinish, AcceptChunk, CurrentSack;
      }
      hide StoreChunk, AckOrFinish, CurrentSack;
    } else {
      RefusedNames(e, seqNo, data, now, ans);
      hide StoreChunk;
    }
  }

  lemma RefusedNames(e: Engine, seqNo: Byte, data: seq<Byte>, now: U32, ans: Answers)
    requires !ans.write || |data| > Sub32(e.txn.expectedFrameBytes, e.txn.acceptedBytes)
    ensures StoreChunk(e, seqNo, data, now, ans).eng.lastError
         == if |data| > Sub32(e.txn.expectedFrameBytes, e.txn.acceptedBytes) then InvalidSize else BackendWriteFailed
  {
  }
}
