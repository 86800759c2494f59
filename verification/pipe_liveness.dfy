// The PIPE transfer when nothing is lost: when the window jams, that no chunk arrives
// out of order, and that the transfer completes by itself.
module PipeLiveness {
  import opened Bytes
  import opened Wire
  import opened EngineModel
  import opened EngineRuns
  import opened EngineTheorems
  import opened PipeProtocol

  predicate Willing(ans: Answers) {
    ans.write && ans.finish && ans.refresh
  }

  // The client sends new chunks, the device handles what arrives, the client reads the answers.
  predicate Lossless(l: NetLabel) {
    l.SendNew? || l.Receive? || (l.Deliver? && Willing(l.ans))
  }

  // A tick that finds no deadline due and no refresh finished.
  predicate IdleTick(t: Net, l: NetLabel) {
    l.Elsewhere? && l.step.ev.TickAt? && Handle(t.eng, l.step).eng == t.eng
  }

  // A run without loss, with such ticks anywhere.
  ghost predicate LosslessRun(s: Net, labels: seq<NetLabel>) {
    labels == []
    || (LosslessRun(s, labels[..|labels| - 1])
        && (Lossless(labels[|labels| - 1]) || IdleTick(NetRun(s, labels[..|labels| - 1]), labels[|labels| - 1])))
  }

  // A fresh transfer of a real frame, with the window the device announced.
  ghost predicate FreshTransfer(s: Net) {
    NetStart(s) && s.window == s.eng.txn.negotiatedWindow && s.eng.cfg.fullFrameBytes > 0
  }

  // --- The invariant -----------------------------------------------------------------------

  ghost predicate InOrder(flight: seq<Msg>, accepted: nat, next: nat) {
    |flight| == next - accepted && forall k | 0 <= k < |flight| :: flight[k].index == accepted + k
  }

  function LastCount(back: seq<Notice>, believed: nat): nat {
    if back == [] then believed else back[|back| - 1].count
  }

  // The SACKs on their way back continue from what the client believes in steps of `every`.
  ghost predicate Cadence(back: seq<Notice>, believed: nat, every: nat) {
    && (forall k | 0 <= k < |back| :: IsSack(back[k].bytes))
    && (back != [] ==> back[0].count == believed + every)
    && (forall k | 0 < k < |back| :: back[k].count == back[k - 1].count + every)
  }

  // What holds on top of NetInv: `every` is the negotiated ack_every, `resent` the number of
  // out-of-order frames the engine had seen before this transfer.
  ghost predicate Flowing(s: Net, every: nat, resent: U32) {
    && 1 <= every <= 4 && s.window <= 16 && s.eng.cfg.fullFrameBytes > 0
    && s.eng.stats.retransmitRequests == resent
    && (s.eng.txn.state == Receiving || s.eng.txn.state == Refreshing)
    && (s.eng.txn.state == Receiving ==> Steady(s, every))
  }

  ghost predicate Steady(s: Net, every: nat)
    requires every > 0
  {
    && s.eng.txn.negotiatedAckEvery == every && |s.acked| <= s.book.packets
    && InOrder(s.flight, s.book.packets, s.next)
    && Cadence(s.back, |s.acked|, every)
    && LastCount(s.back, |s.acked|) == s.book.packets - s.book.packets % every
  }

  // --- Steps ---------------------------------------------------------------------------------

  lemma SendKeepsFlow(s: Net, every: nat, resent: U32)
    requires NetInv(s) && Flowing(s, every, resent)
    ensures Flowing(NetStep(s, SendNew), every, resent)
  {
  }

  lemma CadenceReads(back: seq<Notice>, believed: nat, every: nat)
    requires back != [] && Cadence(back, believed, every)
    ensures Cadence(back[1..], back[0].count, every)
    ensures LastCount(back[1..], back[0].count) == LastCount(back, believed)
    ensures back[0].count <= LastCount(back, believed)
    decreases |back|
  {
    if |back| > 1 {
      assert back[1].count == back[0].count + every;
      CadenceReads(back[1..], back[0].count, every);
    }
  }

  // The client takes the front SACK for its count.
  lemma FrontSackTells(s: Net, every: nat)
    requires NetInv(s) && every > 0 && Steady(s, every) && s.back != []
    ensures var c := s.back[0].count;
            s.acked + Learned(s, s.back[0].bytes) == Below(c) && |Below(c)| == c && c <= s.book.packets
  {
    CadenceReads(s.back, |s.acked|, every);
    LearnedPrefix(s, s.back[0].count);
  }

  lemma ReceiveKeepsFlow(s: Net, every: nat, resent: U32)
    requires NetInv(s) && Flowing(s, every, resent)
    ensures Flowing(NetStep(s, Receive), every, resent)
  {
    hide InOrder, LastCount;
    if s.eng.txn.state == Receiving && s.back != [] {
      FrontSackTells(s, every);
      CadenceReads(s.back, |s.acked|, every);
      hide NetInv, Cadence, Learned, Below;
    }
  }

  lemma CadenceGrows(back: seq<Notice>, believed: nat, every: nat, n: nat)
    requires 1 <= every <= 4 && Cadence(back, believed, every)
    requires LastCount(back, believed) == n - n % every
    ensures var more := if (n + 1) % every == 0 then [Notice(SackAfter(n + 1), n + 1)] else [];
            Cadence(back + more, believed, every) && LastCount(back + more, believed) == n + 1 - (n + 1) % every
  {
    CadenceStep(n, every);
  }

  predicate Completes(s: Net) {
    s.book.packets < |s.chunks| && |s.book.written| + |s.chunks[s.book.packets]| == s.eng.cfg.fullFrameBytes
  }

  // The next chunk reaches a live transfer over a willing backend.
  ghost predicate Handled(s: Net, out: Outcome) {
    var n := s.book.packets + 1;
    && out.eng.stats.retransmitRequests == s.eng.stats.retransmitRequests
    && (if Completes(s) then
          out.eng.txn.state == Refreshing && out.eng.tail == Some(SackAfter(n))
          && out.res.response == EncodeAck(CMD_PIPE_WRITE_END)
        else
          out.eng.txn.state == Receiving && out.eng.tail == None
          && out.eng.txn.negotiatedAckEvery == s.eng.txn.negotiatedAckEvery
          && out.res.response == (if Multiple(n, s.eng.txn.negotiatedAckEvery) then SackAfter(n) else []))
  }

  lemma AckOrFinishHandles(s: Net, now: U32, ans: Answers)
    requires NetInv(s) && s.eng.txn.state == Receiving && Willing(ans) && s.book.packets < |s.chunks|
    requires |s.book.written| + |s.chunks[s.book.packets]| <= s.eng.cfg.fullFrameBytes
    ensures var a := AcceptChunk(s.eng, s.eng.txn.nextPipeSequence, s.chunks[s.book.packets], now);
            Handled(s, AckOrFinish(a, now, ans))
  {
    AcceptedCounters(s.eng, s.book, s.chunks[s.book.packets], now);
    AcceptedCadence(s.eng, s.book, s.chunks[s.book.packets], now);
  }

  lemma NextChunkHandled(s: Net, now: U32, ans: Answers)
    requires NetInv(s) && s.eng.txn.state == Receiving && Willing(ans)
    requires s.flight != [] && s.flight[0].index == s.book.packets < |s.chunks|
    ensures Handled(s, Handle(s.eng, DeliverStep(s, now, ans)))
  {
    var n := s.book.packets;
    var payload := ChunkFrame(s, n);
    assert payload[0] == s.eng.txn.nextPipeSequence && payload[1..] == s.chunks[n];
    NextChunkFits(s, n);
    NoShortfall(s.eng.txn.expectedFrameBytes, s.eng.txn.acceptedBytes);
    StoreTaken(s.eng, s.book, s.eng.txn.nextPipeSequence, s.chunks[n], now, ans);
    AckOrFinishHandles(s, now, ans);
  }

  function AnswerTo(s: Net, every: nat): seq<Notice> {
    var n := s.book.packets + 1;
    if Completes(s) then [Notice(SackAfter(n), n), Notice(EncodeAck(CMD_PIPE_WRITE_END), n)]
    else if Multiple(n, every) then [Notice(SackAfter(n), n)]
    else []
  }

  // t is s after the next chunk has been handled.
  ghost predicate Advanced(s: Net, t: Net) {
    && s.flight != [] && s.book.packets < |s.chunks|
    && t == s.(flight := s.flight[1..], eng := t.eng, book := t.book,
               back := s.back + AnswerTo(s, s.eng.txn.negotiatedAckEvery))
    && t.book.packets == s.book.packets + 1 && t.book.written == s.book.written + s.chunks[s.book.packets]
    && t.eng.stats.retransmitRequests == s.eng.stats.retransmitRequests && t.eng.cfg == s.eng.cfg
    && (if Completes(s) then t.eng.txn.state == Refreshing
        else t.eng.txn.state == Receiving && t.eng.txn.negotiatedAckEvery == s.eng.txn.negotiatedAckEvery)
  }

  lemma NoticesAnswer(s: Net, out: Outcome)
    requires Handled(s, out)
    ensures Notices(out, s.book.packets + 1) == AnswerTo(s, s.eng.txn.negotiatedAckEvery)
  {
  }

  lemma DeliverAdvances(s: Net, now: U32, ans: Answers)
    requires NetInv(s) && s.eng.txn.state == Receiving && Willing(ans)
    requires s.flight != [] && s.flight[0].index == s.book.packets < |s.chunks|
    ensures Advanced(s, NetStep(s, Deliver(now, ans)))
  {
    NextChunkHandled(s, now, ans);
    ChunkDelivers(s, now, ans);
    StepKeepsInv(s.eng, s.book, DeliverStep(s, now, ans));
    NoticesAnswer(s, Handle(s.eng, DeliverStep(s, now, ans)));
  }

  lemma AdvanceKeepsFlow(s: Net, t: Net, every: nat, resent: U32)
    requires Flowing(s, every, resent) && s.eng.txn.state == Receiving && Advanced(s, t)
    ensures Flowing(t, every, resent)
  {
    if !Completes(s) {
      CadenceGrows(s.back, |s.acked|, every, s.book.packets);
      assert InOrder(s.flight[1..], s.book.packets + 1, s.next);
    }
  }

  // Once the refresh has begun, further chunks change nothing that matters here.
  lemma LateChunk(s: Net, now: U32, ans: Answers)
    requires s.flight != [] && s.flight[0].index < |s.chunks| && s.eng.txn.state == Refreshing
    ensures var t := NetStep(s, Deliver(now, ans));
            && t.eng.txn.state == Refreshing && t.eng.cfg == s.eng.cfg && t.window == s.window
            && t.eng.stats == s.eng.stats
  {
  }

  lemma DeliverKeepsFlow(s: Net, every: nat, resent: U32, now: U32, ans: Answers)
    requires NetInv(s) && Flowing(s, every, resent) && Willing(ans)
    ensures Flowing(NetStep(s, Deliver(now, ans)), every, resent)
  {
    if s.flight != [] && s.flight[0].index < |s.chunks| {
      if s.eng.txn.state == Receiving {
        DeliverAdvances(s, now, ans);
        AdvanceKeepsFlow(s, NetStep(s, Deliver(now, ans)), every, resent);
      } else {
        LateChunk(s, now, ans);
      }
    }
  }

  lemma StepKeepsFlow(s: Net, every: nat, resent: U32, l: NetLabel)
    requires NetInv(s) && Flowing(s, every, resent) && Lossless(l)
    ensures Flowing(NetStep(s, l), every, resent)
  {
    match l {
      case SendNew => SendKeepsFlow(s, every, resent);
      case Receive => ReceiveKeepsFlow(s, every, resent);
      case Deliver(now, ans) => DeliverKeepsFlow(s, every, resent, now, ans);
    }
  }

  lemma {:induction false} RunKeepsFlow(s: Net, labels: seq<NetLabel>)
    requires FreshTransfer(s) && LosslessRun(s, labels)
    ensures NetInv(NetRun(s, labels)) && NetRun(s, labels).chunks == s.chunks && NetRun(s, labels).window == s.window
    ensures Flowing(NetRun(s, labels), s.eng.txn.negotiatedAckEvery, s.eng.stats.retransmitRequests)
    decreases |labels|
  {
    if labels == [] {
      StartIsInv(s);
      assert 0 % s.eng.txn.negotiatedAckEvery == 0;
    } else {
      hide NetStep;
      var init, last := labels[..|labels| - 1], labels[|labels| - 1];
      RunKeepsFlow(s, init);
      if Lossless(last) {
        StepKeepsNetInv(NetRun(s, init), last);
        StepKeepsFlow(NetRun(s, init), s.eng.txn.negotiatedAckEvery, s.eng.stats.retransmitRequests, last);
      } else {
        IdleTickStutters(NetRun(s, init), last);
      }
    }
  }

  lemma IdleTickStutters(t: Net, l: NetLabel)
    requires NetInv(t) && IdleTick(t, l)
    ensures NetStep(t, l) == t
  {
    IdleTickSilent(t.eng, t.book, l.step);
    var full := t.eng.cfg.fullFrameBytes;
    assert PostAll(t.book, full, [PollRefresh(Pending)]) == Post(t.book, full, PollRefresh(Pending));
    assert t.back + [] == t.back;
  }

  lemma IdleTickSilent(e: Engine, l: Ledger, s: Step)
    requires Inv(e, l) && s.ev.TickAt? && Handle(e, s).eng == e
    ensures Handle(e, s).res.response == []
    ensures Handle(e, s).calls == [] || (e.hwOwned && Handle(e, s).calls == [PollRefresh(Pending)])
  {
  }

  // --- Deadlock freedom ------------------------------------------------------------------------

  predicate AtRest(s: Net) {
    s.flight == [] && s.back == [] && !CanSend(s)
  }

  // The transfer is open, everything sent has been handled and every answer read, and the client
  // may not go on.
  predicate Jammed(s: Net) {
    s.eng.txn.state == Receiving && AtRest(s)
  }

  lemma JammedCounts(s: Net, every: nat, resent: U32)
    requires NetInv(s) && Flowing(s, every, resent) && Jammed(s)
    ensures |s.acked| == s.book.packets - s.book.packets % every && s.next == s.book.packets
    ensures s.next == |s.chunks| || s.window <= s.book.packets % every
  {
    MaySend(s);
  }

  // While chunks are being received, the image is incomplete.
  lemma ReceivingIsPartial(s: Net, k: nat)
    requires NetInv(s) && s.eng.txn.state == Receiving && s.eng.cfg.fullFrameBytes > 0 && k <= s.book.packets
    ensures |Concat(s.chunks[..k])| < s.eng.cfg.fullFrameBytes && s.book.packets < |s.chunks|
  {
    var n := s.book.packets;
    assert s.chunks[..|s.chunks|] == s.chunks;
    ConcatPrefix(s.chunks[..n], k);
    assert s.chunks[..n][..k] == s.chunks[..k];
  }

  lemma JammedMeans(s: Net, every: nat, resent: U32)
    requires NetInv(s) && Flowing(s, every, resent) && Jammed(s)
    ensures s.window < every && s.window <= s.book.packets < |s.chunks|
    ensures |Concat(s.chunks[..s.window])| < s.eng.cfg.fullFrameBytes
  {
    JammedCounts(s, every, resent);
    ReceivingIsPartial(s, s.book.packets);
    assert s.book.packets % every < every && s.book.packets % every <= s.book.packets;
    ReceivingIsPartial(s, s.window);
  }

  function Times(l: NetLabel, n: nat): (r: seq<NetLabel>)
    ensures |r| == n && forall k | 0 <= k < n :: r[k] == l
  {
    seq(n, _ => l)
  }

  lemma RunSnoc(s: Net, labels: seq<NetLabel>, l: NetLabel)
    ensures NetRun(s, labels + [l]) == NetStep(NetRun(s, labels), l)
  {
    assert (labels + [l])[..|labels|] == labels;
  }

  lemma SendOne(t: Net)
    requires t.acked == {} && t.next < |t.chunks| && t.next < t.window
    ensures NetStep(t, SendNew) == t.(next := t.next + 1, flight := t.flight + [Msg(t.next, t.next + 1)])
  {
    assert t.acked == Below(0);
    MaySend(t);
  }

  lemma {:induction false} SendBurst(s: Net, k: nat) returns (flight: seq<Msg>)
    requires FreshTransfer(s) && k <= s.window && k <= |s.chunks|
    ensures NetRun(s, Times(SendNew, k)) == s.(next := k, flight := flight)
  {
    if k == 0 {
      flight := [];
    } else {
      var sent := SendBurst(s, k - 1);
      assert Times(SendNew, k) == Times(SendNew, k - 1) + [SendNew];
      RunSnoc(s, Times(SendNew, k - 1), SendNew);
      SendOne(s.(next := k - 1, flight := sent));
      flight := sent + [Msg(k - 1, k)];
    }
  }

  const TAKE := Deliver(0, YES)

  predicate Bursting(t: Net, k: nat, j: nat) {
    t.eng.txn.state == Receiving && t.next == k && t.book.packets == j && t.back == [] && t.acked == {}
  }

  lemma BurstStep(t: Net, k: nat, j: nat, every: nat, resent: U32)
    requires NetInv(t) && Flowing(t, every, resent) && Bursting(t, k, j) && j < k < every && k <= |t.chunks|
    requires |Concat(t.chunks[..k])| < t.eng.cfg.fullFrameBytes
    ensures Bursting(NetStep(t, TAKE), k, j + 1)
  {
    BurstGoesOn(t, k, j);
    DeliverAdvances(t, 0, YES);
    SmallRemainder(j + 1, every);
  }

  lemma SmallRemainder(n: nat, every: nat)
    requires 0 < n < every
    ensures !Multiple(n, every)
  {
  }

  lemma BurstGoesOn(t: Net, k: nat, j: nat)
    requires NetInv(t) && Bursting(t, k, j) && j < k <= |t.chunks|
    requires |Concat(t.chunks[..k])| < t.eng.cfg.fullFrameBytes
    ensures !Completes(t)
  {
    ConcatPrefix(t.chunks[..k], j + 1);
    assert t.chunks[..k][..j + 1] == t.chunks[..j + 1];
    NextChunkFits(t, j);
  }

  lemma LosslessSnoc(s: Net, labels: seq<NetLabel>, l: NetLabel)
    requires LosslessRun(s, labels) && Lossless(l)
    ensures LosslessRun(s, labels + [l])
  {
    hide NetStep, Handle;
    assert (labels + [l])[..|labels|] == labels;
  }

  lemma {:induction false} SendsLossless(s: Net, k: nat)
    ensures LosslessRun(s, Times(SendNew, k))
  {
    if k == 0 {
    } else {
      SendsLossless(s, k - 1);
      LosslessSnoc(s, Times(SendNew, k - 1), SendNew);
      assert Times(SendNew, k) == Times(SendNew, k - 1) + [SendNew];
    }
  }

  lemma SentBurst(s: Net, k: nat)
    requires FreshTransfer(s) && k <= s.window && k <= |s.chunks|
    ensures Bursting(NetRun(s, Times(SendNew, k)), k, 0)
  {
    var flight := SendBurst(s, k);
  }

  lemma {:induction false} DeliverBurst(s: Net, k: nat, j: nat)
    requires FreshTransfer(s) && j <= k <= s.window < s.eng.txn.negotiatedAckEvery && k <= |s.chunks|
    requires |Concat(s.chunks[..k])| < s.eng.cfg.fullFrameBytes
    ensures Bursting(NetRun(s, Times(SendNew, k) + Times(TAKE, j)), k, j)
    ensures LosslessRun(s, Times(SendNew, k) + Times(TAKE, j))
    decreases j
  {
    hide NetRun, NetStep, LosslessRun, Bursting, FreshTransfer;
    if j == 0 {
      assert Times(SendNew, k) + Times(TAKE, j) == Times(SendNew, k);
      SentBurst(s, k);
      SendsLossless(s, k);
    } else {
      var init := Times(SendNew, k) + Times(TAKE, j - 1);
      assert Times(SendNew, k) + Times(TAKE, j) == init + [TAKE];
      DeliverBurst(s, k, j - 1);
      RunSnoc(s, init, TAKE);
      LosslessSnoc(s, init, TAKE);
      RunKeepsFlow(s, init);
      FreshSize(s);
      BurstOnce(s, NetRun(s, init), k, j - 1);
    }
  }

  lemma FreshSize(s: Net)
    requires FreshTransfer(s)
    ensures s.eng.cfg.fullFrameBytes == |Concat(s.chunks)|
  {
  }

  lemma BurstOnce(s: Net, t: Net, k: nat, j: nat)
    requires NetInv(t) && Flowing(t, s.eng.txn.negotiatedAckEvery, s.eng.stats.retransmitRequests)
    requires t.chunks == s.chunks && Bursting(t, k, j) && j < k < s.eng.txn.negotiatedAckEvery && k <= |s.chunks|
    requires |Concat(s.chunks[..k])| < s.eng.cfg.fullFrameBytes == |Concat(s.chunks)|
    ensures Bursting(NetStep(t, TAKE), k, j + 1)
  {
    BurstStep(t, k, j, s.eng.txn.negotiatedAckEvery, s.eng.stats.retransmitRequests);
  }

  // The client can jam in some lossless run if and only if the negotiated ack_every exceeds the
  // negotiated window and a windowful of chunks is not yet the whole image.
  lemma JamsIff(s: Net)
    requires FreshTransfer(s)
    ensures (exists labels :: LosslessRun(s, labels) && Jammed(NetRun(s, labels)))
       <==> (s.window < s.eng.txn.negotiatedAckEvery && s.window < |s.chunks|
             && |Concat(s.chunks[..s.window])| < s.eng.cfg.fullFrameBytes)
  {
    var every, resent := s.eng.txn.negotiatedAckEvery, s.eng.stats.retransmitRequests;
    forall labels | LosslessRun(s, labels) && Jammed(NetRun(s, labels))
      ensures s.window < every && s.window < |s.chunks| && |Concat(s.chunks[..s.window])| < s.eng.cfg.fullFrameBytes
    {
      RunKeepsFlow(s, labels);
      JammedMeans(NetRun(s, labels), every, resent);
    }
    if s.window < every && s.window < |s.chunks| && |Concat(s.chunks[..s.window])| < s.eng.cfg.fullFrameBytes {
      var w := s.window;
      var labels := Times(SendNew, w) + Times(TAKE, w);
      DeliverBurst(s, w, w);
      RunKeepsFlow(s, labels);
      MaySend(NetRun(s, labels));
      assert Jammed(NetRun(s, labels));
    }
  }

  // The net right after an accepted START, for a client that cuts this image into chunks.
  ghost function NetAfter(cfg: Config, steps: seq<Step>, start: Step, chunks: seq<seq<Byte>>): Net {
    var out := Handle(After(Boot(cfg), steps), start);
    Net(chunks, out.eng.txn.negotiatedWindow, {}, 0, [], [], out.eng.(tail := None),
        LedgerOf(cfg.fullFrameBytes, Log(Boot(cfg), steps) + out.calls))
  }

  // In terms of what the client asked for: a request with req_ack_every <= req_window never jams.
  lemma RequestNeverJams(cfg: Config, steps: seq<Step>, start: Step, chunks: seq<seq<Byte>>, labels: seq<NetLabel>)
    requires start.ev.PipeStart? && Handle(After(Boot(cfg), steps), start).res.transferStarted
    requires |chunks| < TWO_TO_32 && cfg.fullFrameBytes > 0
    requires |Concat(chunks)| == ParsePipeStart(start.ev.memory, start.ev.len).req.totalSize
    requires var req := ParsePipeStart(start.ev.memory, start.ev.len).req; req.ackEvery <= req.window
    requires LosslessRun(NetAfter(cfg, steps, start, chunks), labels)
    ensures !Jammed(NetRun(NetAfter(cfg, steps, start, chunks), labels))
  {
    var s := NetAfter(cfg, steps, start, chunks);
    RunKeepsInv(cfg, steps);
    AcceptedStartBegins(cfg, steps, start, chunks);
    StartNegotiates(After(Boot(cfg), steps), start);
    NeverJams(s, labels);
  }

  lemma NeverJams(s: Net, labels: seq<NetLabel>)
    requires FreshTransfer(s) && LosslessRun(s, labels) && s.eng.txn.negotiatedAckEvery <= s.window
    ensures !Jammed(NetRun(s, labels))
  {
    RunKeepsFlow(s, labels);
    if Jammed(NetRun(s, labels)) {
      JammedMeans(NetRun(s, labels), s.eng.txn.negotiatedAckEvery, s.eng.stats.retransmitRequests);
      assert false;
    }
  }

  lemma StartNegotiates(e: Engine, start: Step)
    requires start.ev.PipeStart? && Handle(e, start).res.transferStarted
    ensures var p := ParsePipeStart(start.ev.memory, start.ev.len);
            && p.Accepted?
            && Handle(e, start).eng.txn.negotiatedWindow == Min(p.req.window, 16)
            && Handle(e, start).eng.txn.negotiatedAckEvery == Min(p.req.ackEvery, 4)
            && Handle(e, start).eng.txn.negotiatedFrame == Min(p.req.clientMaxFrame, PIPE_MAX_FRAME)
            && Handle(e, start).eng.cfg == e.cfg
  {
  }

  // --- Completion -------------------------------------------------------------------------------

  // Chunks not sent, frames not handled and answers not read: what is left to do.
  function WorkLeft(s: Net): int {
    4 * (|s.chunks| - s.next) + 3 * |s.flight| + |s.back|
  }

  lemma NoticesAtMostTwo(out: Outcome, n: nat)
    ensures |Notices(out, n)| <= 2
  {
  }

  // Every lossless step that does anything leaves less to do, so no lossless run goes on forever.
  lemma WorkShrinks(s: Net, l: NetLabel)
    requires Lossless(l) && NetStep(s, l) != s && s.next <= |s.chunks|
    ensures 0 <= WorkLeft(NetStep(s, l)) < WorkLeft(s)
  {
    match l {
      case Deliver(now, ans) =>
        var step := DeliverStep(s, now, ans);
        var book := PostAll(s.book, s.eng.cfg.fullFrameBytes, Handle(s.eng, step).calls);
        NoticesAtMostTwo(Handle(s.eng, step), book.packets);
      case _ =>
    }
  }

  // When the window is not smaller than the cadence, a lossless run that has come to rest has
  // delivered the whole image and begun its refresh.
  lemma RestMeansDone(s: Net, labels: seq<NetLabel>)
    requires FreshTransfer(s) && s.eng.txn.negotiatedAckEvery <= s.window
    requires LosslessRun(s, labels) && AtRest(NetRun(s, labels))
    ensures var t := NetRun(s, labels);
            t.eng.txn.state == Refreshing && t.eng.hwOwned && t.book.written == Concat(s.chunks)
  {
    RunKeepsFlow(s, labels);
    SlidingWindowSafety(s, labels);
    if Jammed(NetRun(s, labels)) {
      JammedMeans(NetRun(s, labels), s.eng.txn.negotiatedAckEvery, s.eng.stats.retransmitRequests);
      assert false;
    }
  }

  lemma SomethingToDo(t: Net) returns (l: NetLabel)
    requires NetInv(t) && !AtRest(t)
    ensures Lossless(l) && NetStep(t, l) != t
  {
    l := if t.flight != [] then TAKE else if t.back != [] then Receive else SendNew;
    if t.flight != [] {
      assert |NetStep(t, l).flight| == |t.flight| - 1;
    } else if t.back != [] {
      assert |NetStep(t, l).back| == |t.back| - 1;
    } else {
      assert NetStep(t, l).next == t.next + 1;
    }
  }

  // And from everywhere in a lossless run there is a way to come to rest.
  lemma {:induction false} CanComplete(s: Net, labels: seq<NetLabel>) returns (more: seq<NetLabel>)
    requires FreshTransfer(s) && s.eng.txn.negotiatedAckEvery <= s.window && LosslessRun(s, labels)
    ensures LosslessRun(s, more) && labels <= more
    ensures NetRun(s, more).eng.txn.state == Refreshing && NetRun(s, more).book.written == Concat(s.chunks)
    decreases WorkLeft(NetRun(s, labels))
  {
    RunKeepsFlow(s, labels);
    var t := NetRun(s, labels);
    if AtRest(t) {
      RestMeansDone(s, labels);
      more := labels;
    } else {
      var l := SomethingToDo(t);
      RunSnoc(s, labels, l);
      WorkShrinks(t, l);
      more := CanComplete(s, labels + [l]);
    }
  }

  ghost predicate Finished(t: Net, u: Net) {
    var n := t.book.packets + 1;
    && u.eng.txn.state == Refreshing && u.book.held
    && u.back == t.back + [Notice(SackAfter(n), n), Notice(EncodeAck(CMD_PIPE_WRITE_END), n)]
    && forall j | j in Outstanding(t) && j < n :: Covers(SackAfter(n), j % 256)
  }

  lemma LastSackCovers(t: Net)
    requires NetInv(t) && |t.acked| <= t.book.packets < t.next
    ensures forall j | j in Outstanding(t) && j < t.book.packets + 1 :: Covers(SackAfter(t.book.packets + 1), j % 256)
  {
    forall j | j in Outstanding(t) && j < t.book.packets + 1
      ensures Covers(SackAfter(t.book.packets + 1), j % 256)
    {
      SackTellsBelow(t.book.packets + 1, |t.acked|, t.next, j);
    }
  }

  lemma LastChunkFinishes(t: Net, every: nat, resent: U32, now: U32, ans: Answers)
    requires NetInv(t) && Flowing(t, every, resent) && Willing(ans)
    requires t.eng.txn.state == Receiving && t.flight != [] && Completes(t)
    ensures Finished(t, NetStep(t, Deliver(now, ans)))
  {
    hide NetStep, Cadence, LastCount, Covers, SackAfter;
    DeliverAdvances(t, now, ans);
    DeliverKeepsInv(t, now, ans);
    LastSackCovers(t);
  }

  // In a lossless run the last byte of the image brings the tail SACK, which acknowledges every
  // chunk the client still waits for, and then the END ACK, with the refresh already begun.
  lemma LastByteAnswered(s: Net, labels: seq<NetLabel>, now: U32, ans: Answers)
    requires FreshTransfer(s) && LosslessRun(s, labels) && Willing(ans)
    requires var t := NetRun(s, labels); t.eng.txn.state == Receiving && t.flight != [] && Completes(t)
    ensures Finished(NetRun(s, labels), NetStep(NetRun(s, labels), Deliver(now, ans)))
  {
    RunKeepsFlow(s, labels);
    LastChunkFinishes(NetRun(s, labels), s.eng.txn.negotiatedAckEvery, s.eng.stats.retransmitRequests, now, ans);
  }
}
