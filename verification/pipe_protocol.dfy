// The PIPE transfer as a protocol between two parties: a client that keeps at most `window`
// unacknowledged chunks, a channel that may lose anything in either direction, and the engine.
module PipeProtocol {
  import opened Bytes
  import opened Wire
  import opened EngineModel
  import opened EngineRuns
  import opened EngineTheorems

  // --- The two parties and what is on its way between them --------------------------------

  // A DATA frame on its way: the chunk it carries and how many chunks had been started when it
  // was sent. The frame itself only holds the chunk number modulo 256.
  datatype Msg = Msg(index: nat, sentBy: nat)

  // A notification on its way back, and how many chunks had been accepted when it was made.
  datatype Notice = Notice(bytes: Response, count: nat)

  datatype Net = Net(
    chunks: seq<seq<Byte>>, window: nat,               // what the client sends, and its limit
    acked: set<nat>, next: nat,                        // what it believes, and its next new chunk
    flight: seq<Msg>, back: seq<Notice>,               // the two directions, oldest first
    eng: Engine, book: Ledger)                         // the device, and what its panel was told

  datatype NetLabel =
    | SendNew
    | Retransmit(index: nat)
    | LoseFrame(at: nat)
    | LoseNotice(at: nat)
    | Deliver(now: U32, ans: Answers)
    | Receive
    | Elsewhere(step: Step)  // anything but a START or a chunk: ticks, ENDs, aborts, disconnects

  function Below(n: nat): (b: set<nat>)
    ensures |b| == n && forall j: nat :: j in b <==> j < n
  {
    if n == 0 then {} else Below(n - 1) + {n - 1}
  }

  function Remove<T>(q: seq<T>, at: nat): (r: seq<T>)
    requires at < |q|
    ensures |r| == |q| - 1 && forall k | 0 <= k < |r| :: r[k] == q[if k < at then k else k + 1]
  {
    q[..at] + q[at + 1..]
  }

  function Outstanding(s: Net): set<nat> {
    Below(s.next) - s.acked
  }

  predicate CanSend(s: Net) {
    s.next < |s.chunks| && |Outstanding(s)| < s.window
  }

  function ChunkFrame(s: Net, index: nat): seq<Byte>
    requires index < |s.chunks|
  {
    [index % 256] + s.chunks[index]
  }

  // What the client newly learns from a notification.
  function Learned(s: Net, bytes: Response): set<nat> {
    if IsSack(bytes) then set j | j in Outstanding(s) && Covers(bytes, j % 256) else {}
  }

  // A handler's outcome goes back as the staged tail SACK, then the response.
  function Notices(out: Outcome, count: nat): seq<Notice> {
    (if out.eng.tail.Some? then [Notice(out.eng.tail.value, count)] else [])
    + (if out.res.response != [] then [Notice(out.res.response, count)] else [])
  }

  function DeviceStep(s: Net, step: Step): Net {
    var out := Handle(s.eng, step);
    var book := PostAll(s.book, s.eng.cfg.fullFrameBytes, out.calls);
    s.(eng := out.eng.(tail := None), book := book, back := s.back + Notices(out, book.packets))
  }

  function DeliverStep(s: Net, now: U32, ans: Answers): Step
    requires s.flight != [] && s.flight[0].index < |s.chunks|
  {
    Step(PipeData(ChunkFrame(s, s.flight[0].index)), now, ans)
  }

  // Labels that are not possible leave the state unchanged, so every label sequence is a run.
  function NetStep(s: Net, l: NetLabel): Net {
    match l
    case SendNew =>
      if CanSend(s) then s.(next := s.next + 1, flight := s.flight + [Msg(s.next, s.next + 1)]) else s
    case Retransmit(index) =>
      if index in Outstanding(s) then s.(flight := s.flight + [Msg(index, s.next)]) else s
    case LoseFrame(at) =>
      if at < |s.flight| then s.(flight := Remove(s.flight, at)) else s
    case LoseNotice(at) =>
      if at < |s.back| then s.(back := Remove(s.back, at)) else s
    case Deliver(now, ans) =>
      if s.flight != [] && s.flight[0].index < |s.chunks|
      then DeviceStep(s, DeliverStep(s, now, ans)).(flight := s.flight[1..]) else s
    case Receive =>
      if s.back != [] then s.(acked := s.acked + Learned(s, s.back[0].bytes), back := s.back[1..]) else s
    case Elsewhere(step) =>
      if IsStart(step.ev) || step.ev.PipeData? then s else DeviceStep(s, step)
  }

  function NetRun(s: Net, labels: seq<NetLabel>): Net {
    if labels == [] then s else NetStep(NetRun(s, labels[..|labels| - 1]), labels[|labels| - 1])
  }

  // The transfer has just been accepted and nothing is on its way.
  ghost predicate NetStart(s: Net) {
    && Inv(s.eng, s.book) && s.eng.txn.state == Receiving && s.eng.txn.mode == Pipe && s.eng.tail == None
    && s.book.written == [] && s.book.packets == 0
    && s.acked == {} && s.next == 0 && s.flight == [] && s.back == []
    && s.window <= 32 && |s.chunks| < TWO_TO_32
    && |Concat(s.chunks)| == s.eng.cfg.fullFrameBytes
  }

  // Every accepted 0x0080 START of every run is such a beginning for a client that cuts an image of
  // the announced size into chunks and respects the negotiated window.
  lemma AcceptedStartBegins(cfg: Config, steps: seq<Step>, start: Step, chunks: seq<seq<Byte>>)
    requires start.ev.PipeStart? && Handle(After(Boot(cfg), steps), start).res.transferStarted
    requires |chunks| < TWO_TO_32
    requires |Concat(chunks)| == ParsePipeStart(start.ev.memory, start.ev.len).req.totalSize
    ensures var out := Handle(After(Boot(cfg), steps), start);
            var book := LedgerOf(cfg.fullFrameBytes, Log(Boot(cfg), steps) + out.calls);
            NetStart(Net(chunks, out.eng.txn.negotiatedWindow, {}, 0, [], [], out.eng.(tail := None), book))
  {
    var e, l := After(Boot(cfg), steps), LedgerOf(cfg.fullFrameBytes, Log(Boot(cfg), steps));
    RunKeepsInv(cfg, steps);
    StepKeepsInv(e, l, start);
    LedgerConcat(cfg.fullFrameBytes, Log(Boot(cfg), steps), Handle(e, start).calls);
    BeginKeepsInv(e, l, Pipe, ParsePipeStart(start.ev.memory, start.ev.len).req.totalSize, start.now, start.ans);
  }

  // --- The invariant --------------------------------------------------------------------------

  ghost predicate DeviceInv(s: Net) {
    && Inv(s.eng, s.book) && s.eng.tail == None
    && (s.eng.txn.state == Receiving ==> s.eng.txn.mode == Pipe)
    && |Concat(s.chunks)| == s.eng.cfg.fullFrameBytes
    && s.book.packets <= |s.chunks| && s.book.written == Concat(s.chunks[..s.book.packets])
  }

  // The client's belief is a prefix of the chunks, and the window counts from its end.
  ghost predicate ClientInv(s: Net) {
    && s.window <= 32 && |s.chunks| < TWO_TO_32
    && s.acked == Below(|s.acked|) && |s.acked| <= Max(s.book.packets, 1)
    && |s.acked| <= s.next <= |s.acked| + s.window
    && s.book.packets <= s.next <= |s.chunks|
  }

  // Every frame on its way was inside the window when it was sent, in the order of sending.
  ghost predicate FlightFits(q: seq<Msg>, window: nat, accepted: nat, next: nat) {
    && (forall k | 0 <= k < |q| ::
          q[k].index < q[k].sentBy <= q[k].index + window && accepted <= q[k].sentBy <= next)
    && (forall j, k | 0 <= j < k < |q| :: q[j].sentBy <= q[k].sentBy)
  }

  // Every SACK on its way back is the one of a count that the client does not yet exceed.
  ghost predicate BackFits(q: seq<Notice>, believed: nat, accepted: nat) {
    && (forall k | 0 <= k < |q| ::
          q[k].count <= accepted && believed <= Max(q[k].count, 1)
          && (IsSack(q[k].bytes) ==> q[k].bytes == SackAfter(q[k].count)))
    && (forall j, k | 0 <= j < k < |q| :: q[j].count <= q[k].count)
  }

  ghost predicate FlightInv(s: Net) {
    FlightFits(s.flight, s.window, s.book.packets, s.next)
  }

  ghost predicate BackInv(s: Net) {
    BackFits(s.back, |s.acked|, s.book.packets)
  }

  ghost predicate NetInv(s: Net) {
    DeviceInv(s) && ClientInv(s) && FlightInv(s) && BackInv(s)
  }

  // --- Sets of chunk numbers -------------------------------------------------------------------

  lemma OutstandingSize(s: Net)
    requires s.acked == Below(|s.acked|) && |s.acked| <= s.next
    ensures |Outstanding(s)| == s.next - |s.acked|
  {
    assert Outstanding(s) + s.acked == Below(s.next);
    assert |Outstanding(s) + s.acked| == |Outstanding(s)| + |s.acked|;
  }

  lemma MaySend(s: Net)
    requires s.acked == Below(|s.acked|) && |s.acked| <= s.next
    ensures CanSend(s) <==> s.next < |s.chunks| && s.next < |s.acked| + s.window
  {
    OutstandingSize(s);
  }

  // --- The client's side -------------------------------------------------------------------------

  lemma FlightGrows(q: seq<Msg>, window: nat, accepted: nat, next: nat, index: nat, now: nat)
    requires FlightFits(q, window, accepted, next) && accepted <= now && next <= now
    requires index < now <= index + window
    ensures FlightFits(q + [Msg(index, now)], window, accepted, now)
  {
  }

  lemma SendKeepsInv(s: Net)
    requires NetInv(s)
    ensures NetInv(NetStep(s, SendNew))
  {
    MaySend(s);
    if CanSend(s) {
      AdvanceKeepsInv(s);
    }
  }

  lemma AdvanceKeepsInv(s: Net)
    requires NetInv(s) && s.next < |s.chunks| && s.next < |s.acked| + s.window
    ensures NetInv(s.(next := s.next + 1, flight := s.flight + [Msg(s.next, s.next + 1)]))
  {
    FlightGrows(s.flight, s.window, s.book.packets, s.next, s.next, s.next + 1);
  }

  lemma RetransmitKeepsInv(s: Net, index: nat)
    requires NetInv(s)
    ensures NetInv(NetStep(s, Retransmit(index)))
  {
    if index in Outstanding(s) {
      assert |s.acked| <= index < s.next;
      FlightGrows(s.flight, s.window, s.book.packets, s.next, index, s.next);
    }
  }

  lemma FlightShrinks(q: seq<Msg>, at: nat, window: nat, accepted: nat, next: nat)
    requires FlightFits(q, window, accepted, next) && at < |q|
    ensures FlightFits(Remove(q, at), window, accepted, next)
  {
  }

  lemma BackShrinks(q: seq<Notice>, at: nat, believed: nat, accepted: nat)
    requires BackFits(q, believed, accepted) && at < |q|
    ensures BackFits(Remove(q, at), believed, accepted)
  {
  }

  lemma LossKeepsInv(s: Net, at: nat)
    requires NetInv(s)
    ensures NetInv(NetStep(s, LoseFrame(at))) && NetInv(NetStep(s, LoseNotice(at)))
  {
    if at < |s.flight| {
      FlightShrinks(s.flight, at, s.window, s.book.packets, s.next);
    }
    if at < |s.back| {
      BackShrinks(s.back, at, |s.acked|, s.book.packets);
    }
  }

  lemma Ahead8(newest: nat, k: nat)
    requires newest < k < newest + 256
    ensures (newest % 256 - k % 256) % 256 == newest - k + 256
  {
  }

  // A SACK made after c accepted chunks tells the client about exactly the chunks below c, however
  // late it arrives and although it names sequence numbers modulo 256; chunk 0 is the exception.
  lemma SackTellsBelow(c: nat, a: nat, next: nat, j: nat)
    requires c < TWO_TO_32 && a <= Max(c, 1) && c <= next <= a + 32 && a <= j < next
    ensures Covers(SackAfter(c), j % 256) <==> j < Max(c, 1)
  {
    var newest := if c == 0 then 0 else c - 1;
    SackCovers(newest % 256, c % TWO_TO_32, j % 256);
    if j <= newest {
      Distance8(newest, j);
    } else {
      Ahead8(newest, j);
    }
  }

  // So a SACK extends the believed prefix.
  lemma LearnedPrefix(s: Net, c: nat)
    requires ClientInv(s) && |s.acked| <= Max(c, 1) && c <= s.book.packets
    ensures s.acked + Learned(s, SackAfter(c)) == Below(Max(|s.acked|, Min(s.next, Max(c, 1))))
  {
    var a := |s.acked|;
    forall j | j in Outstanding(s)
      ensures Covers(SackAfter(c), j % 256) <==> j < Max(c, 1)
    {
      SackTellsBelow(c, a, s.next, j);
    }
    forall j: nat
      ensures j in s.acked + Learned(s, SackAfter(c)) <==> j in Below(Max(a, Min(s.next, Max(c, 1))))
    {
      assert j in s.acked <==> j < a;
      assert j in Outstanding(s) <==> a <= j < s.next;
    }
  }

  lemma ReceiveBelieves(n: Net)
    requires n.back != []
    ensures NetStep(n, Receive).acked == n.acked + Learned(n, n.back[0].bytes)
  {
    hide Learned;
  }

  lemma BelievingKeepsInv(s: Net, b: nat)
    requires NetInv(s) && s.back != [] && |s.acked| <= b <= Max(|s.acked|, Min(s.next, Max(s.back[0].count, 1)))
    ensures NetInv(s.(acked := Below(b), back := s.back[1..]))
  {
    assert BackFits(s.back[1..], b, s.book.packets);
  }

  lemma ReceiveKeepsInv(s: Net)
    requires NetInv(s)
    ensures NetInv(NetStep(s, Receive))
  {
    if s.back != [] {
      var c, r, a := s.back[0].count, s.back[0].bytes, |s.acked|;
      BelievingKeepsInv(s, a);
      if IsSack(r) {
        LearnedPrefix(s, c);
        BelievingKeepsInv(s, Max(a, Min(s.next, Max(c, 1))));
      } else {
        assert s.acked + Learned(s, r) == s.acked;
      }
    }
  }

  // --- The device's side ------------------------------------------------------------------------

  // What one handler may do to the book and to the staged and returned bytes.
  ghost predicate Reports(e: Engine, out: Outcome, n: nat) {
    && (out.eng.tail.Some? ==> out.eng.tail == Some(SackAfter(n)))
    && (IsSack(out.res.response) ==> out.res.response == SackAfter(n))
    && (out.eng.txn.state == Receiving ==> out.eng.txn.mode == Pipe)
  }

  lemma EndReports(e: Engine, l: Ledger, now: U32, ans: Answers)
    requires Inv(e, l) && e.tail == None && (e.txn.state == Receiving ==> e.txn.mode == Pipe)
    ensures Reports(e, OnPipeEnd(e, now, ans), l.packets)
    ensures PostAll(l, e.cfg.fullFrameBytes, OnPipeEnd(e, now, ans).calls).packets == l.packets
  {
    var flushed := e.txn.(acceptedSinceAck := 0);
    if e.txn.state == Receiving {
      SackOfState(e.txn, l);
    }
    FinishIsQuiet(e, CMD_PIPE_WRITE_END, now, ans);
    FinishIsQuiet(e.(txn := flushed, tail := Some(CurrentSack(flushed))), CMD_PIPE_WRITE_END, now, ans);
    QuietCallsKeepFrame(l, e.cfg.fullFrameBytes, OnPipeEnd(e, now, ans).calls);
  }

  lemma ElsewhereReports(e: Engine, l: Ledger, step: Step)
    requires Inv(e, l) && e.tail == None && (e.txn.state == Receiving ==> e.txn.mode == Pipe)
    requires !IsStart(step.ev) && !step.ev.PipeData?
    ensures var out := Handle(e, step);
            var m := PostAll(l, e.cfg.fullFrameBytes, out.calls);
            Reports(e, out, l.packets) && m.packets == l.packets && m.written == l.written
  {
    match step.ev {
      case PipeEnd =>
        EndReports(e, l, step.now, step.ans);
        EndWritten(e, l, step.now, step.ans);
      case DirectEnd => assert Handle(e, step).calls == [];
      case DirectData(_) => assert Handle(e, step).calls == [];
      case _ => QuietCallsKeepFrame(l, e.cfg.fullFrameBytes, Handle(e, step).calls);
    }
  }

  lemma NoticesKeepBack(q: seq<Notice>, believed: nat, accepted: nat, e: Engine, out: Outcome, n: nat)
    requires BackFits(q, believed, accepted) && accepted <= n && believed <= Max(accepted, 1)
    requires Reports(e, out, n)
    ensures BackFits(q + Notices(out, n), believed, n)
  {
  }

  lemma ElsewhereKeepsInv(s: Net, step: Step)
    requires NetInv(s)
    ensures NetInv(NetStep(s, Elsewhere(step)))
  {
    if !IsStart(step.ev) && !step.ev.PipeData? {
      var out := Handle(s.eng, step);
      var book := PostAll(s.book, s.eng.cfg.fullFrameBytes, out.calls);
      StepKeepsInv(s.eng, s.book, step);
      ElsewhereReports(s.eng, s.book, step);
      NoticesKeepBack(s.back, |s.acked|, s.book.packets, s.eng, out, s.book.packets);
    }
  }

  // The 8-bit test is exact: a frame whose sequence number is the expected one carries the true
  // next chunk, whether it was delayed, retransmitted or overtaken by losses.
  lemma ExpectedSequenceIsNext(s: Net)
    requires ClientInv(s) && FlightInv(s) && s.flight != []
    requires s.flight[0].index % 256 == s.book.packets % 256
    ensures s.flight[0].index == s.book.packets
  {
    SameModulo256(s.flight[0].index, s.book.packets);
  }

  // The next chunk always fits in what is left of the frame.
  lemma NextChunkFits(s: Net, n: nat)
    requires n < |s.chunks|
    ensures Concat(s.chunks[..n + 1]) == Concat(s.chunks[..n]) + s.chunks[n]
    ensures Concat(s.chunks[..n + 1]) <= Concat(s.chunks)
  {
    assert s.chunks[..n + 1][..n] == s.chunks[..n];
    ConcatPrefix(s.chunks, n + 1);
  }

  // What a delivered chunk does: taken if it is the next one and the backend writes it.
  ghost predicate Delivered(s: Net, out: Outcome, ans: Answers)
    requires s.flight != [] && (s.flight[0].index == s.book.packets ==> s.book.packets < |s.chunks|)
  {
    var n := s.book.packets;
    var m := PostAll(s.book, s.eng.cfg.fullFrameBytes, out.calls);
    var taken := s.eng.txn.state == Receiving && s.flight[0].index == n && ans.write;
    && m.packets == (if taken then n + 1 else n)
    && m.written == (if taken then s.book.written + s.chunks[n] else s.book.written)
    && Reports(s.eng, out, m.packets)
  }

  lemma StoreRefused(e: Engine, l: Ledger, seqNo: Byte, data: seq<Byte>, now: U32, ans: Answers)
    requires |data| <= Sub32(e.txn.expectedFrameBytes, e.txn.acceptedBytes) && !ans.write
    ensures var out := StoreChunk(e, seqNo, data, now, ans);
            && !IsSack(out.res.response) && out.eng.tail == e.tail && out.eng.txn.state == Idle
            && out.eng.lastError == BackendWriteFailed
            && out.eng.stats.retransmitRequests == e.stats.retransmitRequests
    ensures var m := PostAll(l, e.cfg.fullFrameBytes, StoreChunk(e, seqNo, data, now, ans).calls);
            m.packets == l.packets && m.written == l.written
  {
    QuietCallsKeepFrame(l, e.cfg.fullFrameBytes, StoreChunk(e, seqNo, data, now, ans).calls);
  }

  lemma StoreDelivers(s: Net, now: U32, ans: Answers)
    requires NetInv(s) && s.flight != [] && s.eng.txn.state == Receiving
    requires s.flight[0].index == s.book.packets < |s.chunks|
    ensures var out := StoreChunk(s.eng, s.eng.txn.nextPipeSequence, s.chunks[s.book.packets], now, ans);
            Delivered(s, out, ans) && (out.eng.lastError == InvalidSize ==> s.eng.lastError == InvalidSize)
  {
    var e, n := s.eng, s.book.packets;
    var data := s.chunks[n];
    NextChunkFits(s, n);
    NoShortfall(e.txn.expectedFrameBytes, e.txn.acceptedBytes);
    if ans.write {
      StoreTaken(e, s.book, e.txn.nextPipeSequence, data, now, ans);
      AcceptedCounters(e, s.book, data, now);
      AckOrFinishReports(AcceptChunk(e, e.txn.nextPipeSequence, data, now), n + 1, now, ans);
    } else {
      StoreRefused(e, s.book, e.txn.nextPipeSequence, data, now, ans);
    }
  }

  lemma NoShortfall(total: U32, accepted: U32)
    requires accepted <= total
    ensures Sub32(total, accepted) == total - accepted
  {
  }

  lemma AckOrFinishReports(a: Engine, n: nat, now: U32, ans: Answers)
    requires a.tail == None && a.txn.mode == Pipe && CurrentSack(a.txn) == SackAfter(n)
    requires a.txn.acceptedBytes <= a.txn.expectedFrameBytes
    ensures Reports(a, AckOrFinish(a, now, ans), n)
    ensures AckOrFinish(a, now, ans).eng.lastError == InvalidSize ==> a.lastError == InvalidSize
  {
  }

  lemma ChunkDelivers(s: Net, now: U32, ans: Answers)
    requires NetInv(s) && s.flight != [] && s.flight[0].index < |s.chunks|
    ensures var out := Handle(s.eng, DeliverStep(s, now, ans));
            Delivered(s, out, ans) && (out.eng.lastError == InvalidSize ==> s.eng.lastError == InvalidSize)
  {
    var e, i := s.eng, s.flight[0].index;
    var payload := ChunkFrame(s, i);
    assert payload[0] == i % 256 && payload[1..] == s.chunks[i];
    if e.txn.state == Receiving {
      if i % 256 == e.txn.nextPipeSequence {
        ExpectedSequenceIsNext(s);
        StoreDelivers(s, now, ans);
      } else {
        SackOfState(e.txn, s.book);
      }
    }
  }

  lemma FlightLeaves(s: Net, accepted: nat)
    requires NetInv(s) && s.flight != []
    requires accepted == s.book.packets || (accepted == s.book.packets + 1 && s.flight[0].index == s.book.packets)
    ensures FlightFits(s.flight[1..], s.window, accepted, s.next)
  {
    hide Inv, BackFits;
  }

  // The device has dealt with the first frame: either nothing was added or the next chunk was.
  lemma DealtWithKeepsInv(s: Net, e: Engine, book: Ledger, back: seq<Notice>, taken: bool)
    requires NetInv(s) && s.flight != [] && (taken ==> s.flight[0].index == s.book.packets < |s.chunks|)
    requires Inv(e, book) && e.tail == None && e.cfg == s.eng.cfg
    requires e.txn.state == Receiving ==> e.txn.mode == Pipe
    requires book.packets == s.book.packets + (if taken then 1 else 0)
    requires book.written == s.book.written + (if taken then s.chunks[s.book.packets] else [])
    requires BackFits(back, |s.acked|, book.packets)
    ensures NetInv(s.(eng := e, book := book, back := back, flight := s.flight[1..]))
  {
    FlightLeaves(s, book.packets);
    hide Inv, BackFits, FlightFits;
    if taken {
      NextChunkFits(s, s.book.packets);
    }
  }

  lemma DeliverKeepsInv(s: Net, now: U32, ans: Answers)
    requires NetInv(s)
    ensures NetInv(NetStep(s, Deliver(now, ans)))
  {
    if s.flight != [] && s.flight[0].index < |s.chunks| {
      var step := DeliverStep(s, now, ans);
      var out := Handle(s.eng, step);
      var book := PostAll(s.book, s.eng.cfg.fullFrameBytes, out.calls);
      StepKeepsInv(s.eng, s.book, step);
      ChunkDelivers(s, now, ans);
      NoticesKeepBack(s.back, |s.acked|, s.book.packets, s.eng, out, book.packets);
      DealtWithKeepsInv(s, out.eng.(tail := None), book, s.back + Notices(out, book.packets),
                        s.eng.txn.state == Receiving && s.flight[0].index == s.book.packets && ans.write);
    }
  }

  lemma StepKeepsNetInv(s: Net, l: NetLabel)
    requires NetInv(s)
    ensures NetInv(NetStep(s, l))
    ensures NetStep(s, l).chunks == s.chunks && NetStep(s, l).window == s.window
  {
    match l {
      case SendNew => SendKeepsInv(s);
      case Retransmit(index) => RetransmitKeepsInv(s, index);
      case LoseFrame(at) => LossKeepsInv(s, at);
      case LoseNotice(at) => LossKeepsInv(s, at);
      case Deliver(now, ans) => DeliverKeepsInv(s, now, ans);
      case Receive => ReceiveKeepsInv(s);
      case Elsewhere(step) => ElsewhereKeepsInv(s, step);
    }
  }

  lemma {:induction false} RunKeepsNetInv(s: Net, labels: seq<NetLabel>)
    requires NetInv(s)
    ensures NetInv(NetRun(s, labels))
    ensures NetRun(s, labels).chunks == s.chunks && NetRun(s, labels).window == s.window
    decreases |labels|
  {
    if labels == [] {
    } else {
      RunKeepsNetInv(s, labels[..|labels| - 1]);
      StepKeepsNetInv(NetRun(s, labels[..|labels| - 1]), labels[|labels| - 1]);
    }
  }

  lemma StartIsInv(s: Net)
    requires NetStart(s)
    ensures NetInv(s)
  {
    assert s.chunks[..0] == [];
  }

  // --- What the transfer guarantees ------------------------------------------------------------

  // In every run over a channel that loses frames and notifications at will, with retransmissions,
  // timeouts, aborts and disconnects at any point, what the panel was given is a prefix of the
  // client's image made of whole chunks, and the whole image whenever a refresh is under way.
  lemma SlidingWindowSafety(s: Net, labels: seq<NetLabel>)
    requires NetStart(s)
    ensures var t := NetRun(s, labels);
            && t.book.packets <= |s.chunks|
            && t.book.written == Concat(s.chunks[..t.book.packets]) <= Concat(s.chunks)
            && (t.eng.txn.state == Refreshing ==> t.book.written == Concat(s.chunks))
  {
    StartIsInv(s);
    RunKeepsNetInv(s, labels);
    ConcatPrefix(s.chunks, NetRun(s, labels).book.packets);
  }

  // In every run a delivered chunk is accepted exactly when it is the true next one of a live
  // transfer and the backend takes it; no chunk is ever refused for its size.
  lemma AcceptedExactlyNext(s: Net, labels: seq<NetLabel>, now: U32, ans: Answers)
    requires NetStart(s) && NetRun(s, labels).flight != []
    ensures Arrival(NetRun(s, labels), NetStep(NetRun(s, labels), Deliver(now, ans)), ans)
  {
    StartIsInv(s);
    RunKeepsNetInv(s, labels);
    DeliveryIsArrival(NetRun(s, labels), now, ans);
  }

  predicate Arrival(t: Net, u: Net, ans: Answers)
    requires t.flight != []
  {
    var taken := t.eng.txn.state == Receiving && t.flight[0].index == t.book.packets && ans.write;
    && u.book.packets == t.book.packets + (if taken then 1 else 0)
    && (u.eng.lastError == InvalidSize ==> t.eng.lastError == InvalidSize)
  }

  lemma DeliveryIsArrival(t: Net, now: U32, ans: Answers)
    requires NetInv(t) && t.flight != []
    ensures Arrival(t, NetStep(t, Deliver(now, ans)), ans)
  {
    assert t.flight[0].index < |t.chunks|;
    ChunkDelivers(t, now, ans);
  }

  // In every run the client believes of a chunk that it arrived only if it did, except of chunk 0
  // before anything was accepted; and its belief never has a gap.
  lemma BeliefSound(s: Net, labels: seq<NetLabel>, j: nat)
    requires NetStart(s)
    ensures var t := NetRun(s, labels);
            && (j in t.acked ==> j < t.book.packets || (j == 0 && t.book.packets == 0))
            && (j in t.acked ==> forall i: nat | i < j :: i in t.acked)
  {
    StartIsInv(s);
    RunKeepsNetInv(s, labels);
  }

  // --- The exception: losing the first chunk ----------------------------------------------------

  // The client believes chunk 0 arrived, it did not, and no copy of it is on its way.
  ghost predicate Deluded(s: Net) {
    NetInv(s) && 0 in s.acked && s.book.packets == 0 && forall m | m in s.flight :: m.index != 0
  }

  lemma DeludedDelivery(s: Net, now: U32, ans: Answers)
    requires Deluded(s)
    ensures NetStep(s, Deliver(now, ans)).book.packets == 0
  {
    if s.flight != [] && s.flight[0].index < |s.chunks| {
      assert s.flight[0] in s.flight;
      ChunkDelivers(s, now, ans);
    }
  }

  lemma DeludedElsewhere(s: Net, step: Step)
    requires Deluded(s)
    ensures NetStep(s, Elsewhere(step)).book.packets == 0
  {
    if !IsStart(step.ev) && !step.ev.PipeData? {
      ElsewhereReports(s.eng, s.book, step);
    }
  }

  lemma DeludedFrames(s: Net, l: NetLabel)
    requires Deluded(s)
    ensures forall m | m in NetStep(s, l).flight :: m.index != 0
    ensures 0 in NetStep(s, l).acked
  {
    forall m | m in NetStep(s, l).flight
      ensures m in s.flight || m.index != 0
    {
      assert 0 < s.next;
    }
  }

  lemma StaysDeluded(s: Net, l: NetLabel)
    requires Deluded(s)
    ensures Deluded(NetStep(s, l))
  {
    StepKeepsNetInv(s, l);
    DeludedFrames(s, l);
    match l {
      case Deliver(now, ans) => DeludedDelivery(s, now, ans);
      case Elsewhere(step) => DeludedElsewhere(s, step);
      case _ =>
    }
  }

  // From then on nothing is ever accepted: the transfer can only time out.
  lemma {:induction false} DeludedForever(s: Net, labels: seq<NetLabel>)
    requires Deluded(s)
    ensures NetRun(s, labels).book.packets == 0 && Deluded(NetRun(s, labels))
    decreases |labels|
  {
    if labels == [] {
    } else {
      DeludedForever(s, labels[..|labels| - 1]);
      StaysDeluded(NetRun(s, labels[..|labels| - 1]), labels[|labels| - 1]);
    }
  }

  const FIRST_CHUNK_LOST := [SendNew, SendNew, LoseFrame(0), Deliver(0, YES), Receive]

  lemma RunOfFive(s: Net, a: NetLabel, b: NetLabel, c: NetLabel, d: NetLabel, e: NetLabel)
    ensures NetRun(s, [a, b, c, d, e]) == NetStep(NetStep(NetStep(NetStep(NetStep(s, a), b), c), d), e)
  {
    var l := [a, b, c, d, e];
    assert l[..4] == [a, b, c, d] && l[..4][..3] == [a, b, c] && [a, b, c][..2] == [a, b];
    assert [a, b][..1] == [a] && [a][..0] == [];
    assert NetRun(s, []) == s;
    assert NetRun(s, [a]) == NetStep(s, a);
    assert NetRun(s, [a, b]) == NetStep(NetStep(s, a), b);
    assert NetRun(s, [a, b, c]) == NetStep(NetStep(NetStep(s, a), b), c);
  }

  lemma OnlySecondLeft(s: Net) returns (t: Net)
    requires NetStart(s) && s.window >= 2 && |s.chunks| >= 2
    ensures t == NetStep(NetStep(NetStep(s, SendNew), SendNew), LoseFrame(0))
    ensures t == s.(next := 2, flight := [Msg(1, 2)])
  {
    var s1 := NetStep(s, SendNew);
    OutstandingSize(s);
    OutstandingSize(s1);
    assert s1 == s.(next := 1, flight := [Msg(0, 1)]);
    var s2 := NetStep(s1, SendNew);
    assert s2 == s.(next := 2, flight := [Msg(0, 1), Msg(1, 2)]);
    t := NetStep(s2, LoseFrame(0));
    assert s2.flight[..0] + s2.flight[1..] == [Msg(1, 2)];
  }

  // The early chunk is answered with the SACK of nothing.
  lemma EarlyChunkAnswered(s: Net)
    requires NetInv(s) && s.flight == [Msg(1, 2)] && |s.chunks| >= 2 && s.book.packets == 0 && s.back == []
    requires s.eng.txn.state == Receiving
    ensures var t := NetStep(s, Deliver(0, YES));
            && t.back == [Notice(SackAfter(0), 0)] && t.flight == []
            && t.acked == s.acked && t.next == s.next && t.book == s.book
  {
    SackOfState(s.eng.txn, s.book);
    assert ChunkFrame(s, 1)[0] == 1;
  }

  lemma FirstBelief(s: Net)
    requires NetInv(s) && s.back == [Notice(SackAfter(0), 0)] && s.flight == [] && s.next == 2 && s.acked == {}
    requires s.book.packets == 0
    ensures Deluded(NetStep(s, Receive))
  {
    ReceiveKeepsInv(s);
    LearnedPrefix(s, 0);
  }

  // It happens when the first of two chunks sent back to back is lost: the second is answered with
  // a SACK that acknowledges the first.
  lemma FirstChunkLost(s: Net)
    requires NetStart(s) && s.window >= 2 && |s.chunks| >= 2
    ensures Deluded(NetRun(s, FIRST_CHUNK_LOST))
  {
    StartIsInv(s);
    RunKeepsNetInv(s, FIRST_CHUNK_LOST);
    RunOfFive(s, SendNew, SendNew, LoseFrame(0), Deliver(0, YES), Receive);
    var t := OnlySecondLeft(s);
    SendKeepsInv(s);
    SendKeepsInv(NetStep(s, SendNew));
    LossKeepsInv(NetStep(NetStep(s, SendNew), SendNew), 0);
    EarlyChunkAnswered(t);
    DeliverKeepsInv(t, 0, YES);
    FirstBelief(NetStep(t, Deliver(0, YES)));
  }

  // --- The only way into it ----------------------------------------------------------------------

  // The client never has a second chunk on its way before the first is acknowledged.
  predicate OneAtATime(s: Net) {
    s.window <= 1 || |s.chunks| <= 1
  }

  // Before anything is accepted, nothing is believed and no SACK is on its way.
  ghost predicate Sober(s: Net) {
    s.book.packets == 0 ==> s.acked == {} && forall k | 0 <= k < |s.back| :: !IsSack(s.back[k].bytes)
  }

  lemma ElsewhereWithoutSack(e: Engine, l: Ledger, step: Step)
    requires Inv(e, l) && e.tail == None && (e.txn.state == Receiving ==> e.txn.mode == Pipe) && l.packets == 0
    requires !IsStart(step.ev) && !step.ev.PipeData?
    ensures var out := Handle(e, step); out.eng.tail == None && !IsSack(out.res.response)
  {
    if step.ev.PipeEnd? && e.txn.state == Receiving {
      assert e.txn.acceptedSinceAck == 0;
      EndWithoutSack(e, CMD_PIPE_WRITE_END, step.now, step.ans);
    }
  }

  lemma EndWithoutSack(e: Engine, endOpcode: nat, now: U32, ans: Answers)
    requires e.tail == None
    ensures var out := FinishAndRefresh(e, endOpcode, now, ans); out.eng.tail == None && !IsSack(out.res.response)
  {
  }

  // A chunk that is not taken, though it is not out of order, is answered with a NACK or nothing.
  lemma StrayChunk(e: Engine, payload: seq<Byte>, now: U32, ans: Answers)
    requires e.txn.state != Receiving
    ensures var out := OnPipeData(e, payload, now, ans);
            && out.eng.tail == e.tail && out.eng.txn.state == e.txn.state && !IsSack(out.res.response)
            && out.eng.stats == e.stats
  {
  }

  lemma UntakenWithoutSack(s: Net, now: U32, ans: Answers)
    requires NetInv(s) && s.flight != [] && s.flight[0].index < |s.chunks|
    requires s.eng.txn.state == Receiving ==> s.flight[0].index == s.book.packets && !ans.write
    ensures var out := Handle(s.eng, DeliverStep(s, now, ans));
            && out.eng.tail == None && !IsSack(out.res.response) && out.eng.txn.state != Receiving
            && out.eng.stats.retransmitRequests == s.eng.stats.retransmitRequests
  {
    var n := s.flight[0].index;
    var payload := ChunkFrame(s, n);
    assert payload[0] == n % 256 && payload[1..] == s.chunks[n];
    assert Handle(s.eng, DeliverStep(s, now, ans)) == OnPipeData(s.eng, payload, now, ans);
    hide StoreChunk, Handle, BackInv, ClientInv, PostAll;
    if s.eng.txn.state == Receiving {
      NextChunkFits(s, n);
      NoShortfall(s.eng.txn.expectedFrameBytes, s.eng.txn.acceptedBytes);
      StoreRefused(s.eng, s.book, n % 256, s.chunks[n], now, ans);
    } else {
      StrayChunk(s.eng, payload, now, ans);
    }
  }

  lemma DeliverStaysSober(s: Net, now: U32, ans: Answers)
    requires NetInv(s) && OneAtATime(s) && Sober(s)
    ensures Sober(NetStep(s, Deliver(now, ans)))
  {
    hide Handle;
    if s.flight != [] && s.flight[0].index < |s.chunks| {
      ChunkDelivers(s, now, ans);
      if NetStep(s, Deliver(now, ans)).book.packets == 0 {
        assert s.flight[0].index == 0;
        UntakenWithoutSack(s, now, ans);
      }
    }
  }

  lemma ElsewhereStaysSober(s: Net, step: Step)
    requires NetInv(s) && Sober(s)
    ensures Sober(NetStep(s, Elsewhere(step)))
  {
    hide Handle;
    if !IsStart(step.ev) && !step.ev.PipeData? {
      ElsewhereReports(s.eng, s.book, step);
      if s.book.packets == 0 {
        ElsewhereWithoutSack(s.eng, s.book, step);
      }
    }
  }

  lemma StaysSober(s: Net, l: NetLabel)
    requires NetInv(s) && OneAtATime(s) && Sober(s)
    ensures Sober(NetStep(s, l))
  {
    hide Handle;
    match l {
      case Deliver(now, ans) => DeliverStaysSober(s, now, ans);
      case Elsewhere(step) => ElsewhereStaysSober(s, step);
      case Receive =>
        if s.back != [] && s.book.packets == 0 {
          assert Learned(s, s.back[0].bytes) == {};
        }
      case _ =>
    }
  }

  lemma {:induction false} SoberForever(s: Net, labels: seq<NetLabel>)
    requires NetInv(s) && OneAtATime(s) && Sober(s)
    ensures Sober(NetRun(s, labels))
    decreases |labels|
  {
    if labels == [] {
    } else {
      SoberForever(s, labels[..|labels| - 1]);
      RunKeepsNetInv(s, labels[..|labels| - 1]);
      StaysSober(NetRun(s, labels[..|labels| - 1]), labels[|labels| - 1]);
    }
  }

  lemma NeverDeluded(s: Net, labels: seq<NetLabel>)
    requires NetStart(s) && OneAtATime(s)
    ensures !Deluded(NetRun(s, labels))
  {
    StartIsInv(s);
    SoberForever(s, labels);
  }

  // A client can be led to believe that its first chunk arrived when it did not if and only if it
  // may have two chunks on their way at once.
  lemma DelusionIff(s: Net)
    requires NetStart(s)
    ensures (exists labels :: Deluded(NetRun(s, labels))) <==> s.window >= 2 && |s.chunks| >= 2
  {
    hide NetRun, NetStart, Deluded;
    if s.window >= 2 && |s.chunks| >= 2 {
      FirstChunkLost(s);
      var labels := FIRST_CHUNK_LOST;
      assert Deluded(NetRun(s, labels));
    } else {
      forall labels
        ensures !Deluded(NetRun(s, labels))
      {
        NeverDeluded(s, labels);
      }
    }
  }

  // --- One transfer after another --------------------------------------------------------------------

  // A client may give up at any point and start over with another image. It then sends nothing
  // until its START is answered, and ignores what was on its way before: channels being first-in
  // first-out, by then everything older has been handled, read or lost.
  datatype SessionLabel = Within(inner: NetLabel) | Restart(start: Step, chunks: seq<seq<Byte>>)

  ghost function SessionStep(s: Net, l: SessionLabel): Net {
    match l
    case Within(inner) => NetStep(s, inner)
    case Restart(start, chunks) =>
      if s.flight != [] || s.back != [] || !start.ev.PipeStart? || |chunks| >= TWO_TO_32 then s
      else
        var out := Handle(s.eng, start);
        var book := PostAll(s.book, s.eng.cfg.fullFrameBytes, out.calls);
        var eng := out.eng.(tail := None);
        if !out.res.transferStarted then s.(eng := eng, book := book)
        else if |Concat(chunks)| == s.eng.cfg.fullFrameBytes then
          Net(chunks, out.eng.txn.negotiatedWindow, {}, 0, [], [], eng, book)
        else s
  }

  ghost function SessionRun(s: Net, labels: seq<SessionLabel>): Net {
    if labels == [] then s else SessionStep(SessionRun(s, labels[..|labels| - 1]), labels[|labels| - 1])
  }

  lemma AcceptedRestart(e: Engine, l: Ledger, start: Step)
    requires Inv(e, l) && start.ev.PipeStart? && Handle(e, start).res.transferStarted
    ensures var out := Handle(e, start); var m := PostAll(l, e.cfg.fullFrameBytes, out.calls);
            && m.written == [] && m.packets == 0
            && out.eng.txn.state == Receiving && out.eng.txn.mode == Pipe && out.eng.txn.negotiatedWindow <= 16
  {
    BeginKeepsInv(e, l, Pipe, ParsePipeStart(start.ev.memory, start.ev.len).req.totalSize, start.now, start.ans);
  }

  // A START that is refused leaves the bytes of the open frame alone.
  lemma RefusedRestart(e: Engine, l: Ledger, start: Step)
    requires Inv(e, l) && start.ev.PipeStart? && !Handle(e, start).res.transferStarted
    ensures var out := Handle(e, start); var m := PostAll(l, e.cfg.fullFrameBytes, out.calls);
            && m.written == l.written && m.packets == l.packets
            && (out.eng.txn.state == Receiving ==> e.txn.state == Receiving && out.eng.txn.mode == e.txn.mode)
  {
    QuietCallsKeepFrame(l, e.cfg.fullFrameBytes, Handle(e, start).calls);
  }

  lemma RestartKeepsInv(s: Net, start: Step, chunks: seq<seq<Byte>>)
    requires NetInv(s) && s.flight == [] && s.back == [] && start.ev.PipeStart? && |chunks| < TWO_TO_32
    ensures NetInv(SessionStep(s, Restart(start, chunks)))
  {
    hide Handle;
    var out := Handle(s.eng, start);
    var book := PostAll(s.book, s.eng.cfg.fullFrameBytes, out.calls);
    StepKeepsInv(s.eng, s.book, start);
    InvWithoutTail(out.eng, book);
    if !out.res.transferStarted {
      RefusedRestart(s.eng, s.book, start);
    } else {
      AcceptedRestart(s.eng, s.book, start);
      if |Concat(chunks)| == s.eng.cfg.fullFrameBytes {
        StartIsInv(Net(chunks, out.eng.txn.negotiatedWindow, {}, 0, [], [], out.eng.(tail := None), book));
      }
    }
  }

  lemma {:induction false} SessionKeepsInv(s: Net, labels: seq<SessionLabel>)
    requires NetInv(s)
    ensures NetInv(SessionRun(s, labels))
    decreases |labels|
  {
    hide NetInv, NetStep, Handle;
    if labels == [] {
    } else {
      var t, last := SessionRun(s, labels[..|labels| - 1]), labels[|labels| - 1];
      SessionKeepsInv(s, labels[..|labels| - 1]);
      match last {
        case Within(inner) => StepKeepsNetInv(t, inner);
        case Restart(start, chunks) =>
          if t.flight == [] && t.back == [] && start.ev.PipeStart? && |chunks| < TWO_TO_32 {
            RestartKeepsInv(t, start, chunks);
          }
      }
    }
  }

  // Over any number of transfers, given up at any point, the panel holds a prefix of the image of the
  // last accepted START, and all of it whenever a refresh is under way.
  lemma SessionSafety(s: Net, labels: seq<SessionLabel>)
    requires NetStart(s)
    ensures var t := SessionRun(s, labels);
            && t.book.packets <= |t.chunks|
            && t.book.written == Concat(t.chunks[..t.book.packets]) <= Concat(t.chunks)
            && (t.eng.txn.state == Refreshing ==> t.book.written == Concat(t.chunks))
  {
    StartIsInv(s);
    SessionKeepsInv(s, labels);
    var t := SessionRun(s, labels);
    ConcatPrefix(t.chunks, t.book.packets);
  }
}
