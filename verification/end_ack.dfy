// The acknowledgements of a PIPE transfer on their way through the component's own transmit ring:
// they never jam the client, and the END ACK is lost in one case only.
module EndAck {
  import opened Bytes
  import opened Wire
  import opened EngineModel
  import opened EngineRuns
  import opened EngineTheorems
  import opened PipeProtocol
  import opened PipeLiveness
  import opened Rings
  import opened Component
  import opened ComponentRuns
  import opened PipeComponent

  // --- The SACKs on their way ------------------------------------------------------------------

  function LastOf(counts: seq<nat>, believed: nat): nat {
    if counts == [] then believed else counts[|counts| - 1]
  }

  // Each SACK is at least ack_every chunks ahead of the one before.
  predicate Spaced(counts: seq<nat>, believed: nat, every: nat) {
    counts == []
    || (Spaced(counts[..|counts| - 1], believed, every)
        && counts[|counts| - 1] >= LastOf(counts[..|counts| - 1], believed) + every)
  }

  lemma {:induction false} SpacedReach(counts: seq<nat>, believed: nat, every: nat)
    requires Spaced(counts, believed, every) && every >= 1
    ensures LastOf(counts, believed) >= believed + |counts|
    ensures every >= 2 ==> LastOf(counts, believed) >= believed + 2 * |counts|
    decreases |counts|
  {
    if counts == [] {
    } else {
      SpacedReach(counts[..|counts| - 1], believed, every);
    }
  }

  lemma {:induction false} SpacedTail(counts: seq<nat>, believed: nat, every: nat)
    requires counts != [] && Spaced(counts, believed, every)
    ensures counts[0] >= believed + every
    ensures Spaced(counts[1..], counts[0], every)
    ensures LastOf(counts[1..], counts[0]) == LastOf(counts, believed)
    decreases |counts|
  {
    if |counts| > 1 {
      SpacedTail(counts[..|counts| - 1], believed, every);
      assert counts[1..][..|counts| - 2] == counts[..|counts| - 1][1..];
    } else {
      assert counts[..0] == [];
    }
  }

  lemma SpacedSnoc(counts: seq<nat>, believed: nat, every: nat, n: nat)
    requires Spaced(counts, believed, every) && n >= LastOf(counts, believed) + every
    ensures Spaced(counts + [n], believed, every) && LastOf(counts + [n], believed) == n
  {
    assert (counts + [n])[..|counts|] == counts;
  }

  // Chunks accepted since the last SACK that was queued. With ack_every 1 and a window above twelve
  // the ring can be full of SACKs and drop some.
  predicate SmallGap(packets: nat, last: nat, every: nat, window: nat) {
    last <= packets && (if every >= 2 then packets - last < every else packets <= last + Max(0, window - 12))
  }

  // While chunks are being received, everything unread is a SACK.
  ghost predicate Tidy(s: Link, every: nat) {
    var last := LastOf(s.counts, |s.acked|);
    && 1 <= every <= 4 && s.node.eng.txn.negotiatedAckEvery == every && Matched(s)
    && (forall k | 0 <= k < |s.counts| :: IsSack(Unread(s)[k]))
    && Spaced(s.counts, |s.acked|, every) && last % every == 0
    && SmallGap(BookOf(s.node).packets, last, every, s.window)
  }

  ghost predicate TidyInv(s: Link, every: nat, resent: U32) {
    LinkInv(s, resent) && (s.node.eng.txn.state == Receiving ==> Tidy(s, every))
  }

  lemma TransmitKeepsTidy(s: Link, every: nat)
    requires Tidy(s, every)
    ensures Tidy(LinkStep(s, Transmit), every)
  {
    var t := LinkStep(s, Transmit);
    assert t.node == s.node && t.counts == s.counts && t.acked == s.acked && t.heard == s.heard;
    assert Unread(t) == Unread(s);
  }

  lemma ArriveKeepsTidy(s: Link, every: nat, resent: U32, p: RxPacket)
    requires LinkInv(s, resent) && Tidy(s, every)
    ensures Tidy(LinkStep(s, Arrive(p)), every)
  {
    if s.air != [] {
      WithinWindow(s, resent);
      assert RxAccepts(|s.node.rx|, WireFrame(s.chunks, s.air[0]));
      ArriveIsNothing(s, p);
      hide LinkStep, NetInv;
      var t := LinkStep(s, Arrive(p));
      assert Abs(t).eng == t.node.eng;
      ArriveLeavesClient(s, p);
    }
  }

  lemma ArriveLeavesClient(s: Link, p: RxPacket)
    ensures var t := LinkStep(s, Arrive(p));
            && t.counts == s.counts && t.acked == s.acked && t.heard == s.heard && t.window == s.window
            && t.node == s.node.(rx := t.node.rx)
  {
    hide BookOf, Notified;
    var t := LinkStep(s, Arrive(p));
    assert t.node == s.node.(rx := t.node.rx);
  }

  lemma HearKeepsTidy(s: Link, every: nat, resent: U32)
    requires LinkInv(s, resent) && Tidy(s, every)
    ensures Tidy(LinkStep(s, Hear), every)
  {
    if s.heard < |s.node.air| && s.counts != [] {
      HearIsReceive(s);
      HeardCount(s, resent, every);
      HearLeavesNode(s);
      hide LinkInv, LinkStep, Tidy, Abs, NetStep;
      HeardKeepsTidy(s, LinkStep(s, Hear), every);
    }
  }

  lemma HeardKeepsTidy(s: Link, t: Link, every: nat)
    requires Tidy(s, every) && s.heard < |s.node.air| && s.counts != []
    requires t.counts == s.counts[1..] && t.node == s.node && t.heard == s.heard + 1 && t.window == s.window
    requires |t.acked| == s.counts[0]
    ensures Tidy(t, every)
  {
    SpacedTail(s.counts, |s.acked|, every);
    hide Spaced, BookOf, Notified;
    assert Unread(t) == Unread(s)[1..];
  }

  lemma HearLeavesNode(s: Link)
    requires s.heard < |s.node.air| && s.counts != []
    ensures var t := LinkStep(s, Hear);
            && t.counts == s.counts[1..] && t.node == s.node && t.heard == s.heard + 1 && t.window == s.window
  {
    hide BookOf, Notified;
  }

  // A SACK for more chunks than the client believed in is believed.
  lemma Believed(n: Net)
    requires NetInv(n) && n.back != [] && IsSack(n.back[0].bytes) && n.back[0].count > |n.acked|
    ensures |NetStep(n, Receive).acked| == n.back[0].count
  {
    LearnedPrefix(n, n.back[0].count);
    ReceiveBelieves(n);
    hide NetInv, NetStep, Learned, SackAfter;
  }

  lemma HeardCount(s: Link, resent: U32, every: nat)
    requires LinkInv(s, resent) && Tidy(s, every) && s.heard < |s.node.air| && s.counts != []
    ensures |LinkStep(s, Hear).acked| == s.counts[0]
  {
    hide NetInv, NetStep, LinkStep;
    HearIsReceive(s);
    SpacedTail(s.counts, |s.acked|, every);
    assert Abs(s).back[0] == Notice(Unread(s)[0], s.counts[0]);
    Believed(Abs(s));
    assert LinkStep(s, Hear).acked == Abs(LinkStep(s, Hear)).acked;
  }

  // --- What a chunk adds ---------------------------------------------------------------------------

  // A chunk that is taken and does not complete the image.
  lemma PlainChunk(n: Net, now: U32, ans: Answers)
    requires NetInv(n) && n.eng.txn.state == Receiving && ans.write && !Completes(n)
    requires n.flight != [] && n.flight[0].index == n.book.packets < |n.chunks|
    ensures var out := Handle(n.eng, DeliverStep(n, now, ans));
            && out.eng.txn.state == Receiving && out.eng.tail == None && !IsTerminal(out.res)
            && out.eng.txn.negotiatedAckEvery == n.eng.txn.negotiatedAckEvery
            && out.eng.txn.transferDeadline == Add32(now, n.eng.cfg.transferTimeout)
            && !out.res.refreshComplete && !out.res.refreshTimeout
            && out.res.response == (if Multiple(n.book.packets + 1, n.eng.txn.negotiatedAckEvery)
                                    then SackAfter(n.book.packets + 1) else [])
  {
    var k := n.book.packets;
    var payload := ChunkFrame(n, k);
    assert payload[0] == n.eng.txn.nextPipeSequence && payload[1..] == n.chunks[k];
    NextChunkFits(n, k);
    NoShortfall(n.eng.txn.expectedFrameBytes, n.eng.txn.acceptedBytes);
    StoreTaken(n.eng, n.book, n.eng.txn.nextPipeSequence, n.chunks[k], now, ans);
    PlainAck(n, now, ans);
  }

  lemma PlainAck(n: Net, now: U32, ans: Answers)
    requires NetInv(n) && n.eng.txn.state == Receiving && !Completes(n) && n.book.packets < |n.chunks|
    requires |n.book.written| + |n.chunks[n.book.packets]| <= n.eng.cfg.fullFrameBytes
    ensures var a := AcceptChunk(n.eng, n.eng.txn.nextPipeSequence, n.chunks[n.book.packets], now);
            var out := AckOrFinish(a, now, ans);
            && out.eng.txn.state == Receiving && out.eng.tail == None && !IsTerminal(out.res)
            && out.eng.txn.negotiatedAckEvery == n.eng.txn.negotiatedAckEvery
            && out.eng.txn.transferDeadline == Add32(now, n.eng.cfg.transferTimeout)
            && out.res.response == (if Multiple(n.book.packets + 1, n.eng.txn.negotiatedAckEvery)
                                    then SackAfter(n.book.packets + 1) else [])
  {
    AcceptedCounters(n.eng, n.book, n.chunks[n.book.packets], now);
    AcceptedCadence(n.eng, n.book, n.chunks[n.book.packets], now);
  }

  // A chunk that would complete the image never leaves the transfer receiving.
  lemma LastChunkEnds(n: Net, now: U32, ans: Answers)
    requires NetInv(n) && n.eng.txn.state == Receiving && Completes(n) && ans.write
    requires n.flight != [] && n.flight[0].index == n.book.packets < |n.chunks|
    ensures Handle(n.eng, DeliverStep(n, now, ans)).eng.txn.state != Receiving
  {
    var k := n.book.packets;
    var payload := ChunkFrame(n, k);
    assert payload[0] == n.eng.txn.nextPipeSequence && payload[1..] == n.chunks[k];
    NextChunkFits(n, k);
    NoShortfall(n.eng.txn.expectedFrameBytes, n.eng.txn.acceptedBytes);
    StoreTaken(n.eng, n.book, n.eng.txn.nextPipeSequence, n.chunks[k], now, ans);
    AcceptedCounters(n.eng, n.book, n.chunks[k], now);
    FinishLeaves(AcceptChunk(n.eng, n.eng.txn.nextPipeSequence, n.chunks[k], now), now, ans);
  }

  lemma FinishLeaves(a: Engine, now: U32, ans: Answers)
    requires a.txn.acceptedBytes >= a.txn.expectedFrameBytes && !a.txn.frame.compressed && !a.txn.frame.partial
    ensures AckOrFinish(a, now, ans).eng.txn.state != Receiving
  {
  }

  // How one ordinary response reaches the ring.
  lemma OrdinaryApplied(n: Node, res: Result)
    requires n.eng.tail == None && !IsTerminal(res)
    ensures Applied(n, res) == n.(tx := if res.response != [] && |n.tx| < ORDINARY_SLOTS
                                        then n.tx + [TxItem(res.response, false)] else n.tx)
  {
  }

  // The node after a chunk that is taken and does not complete the image.
  ghost predicate PlainStep(s: Link, m: GoodNode, now: U32, every: nat) {
    var n := BookOf(s.node).packets;
    && m.eng.txn.state == Receiving && m.eng.txn.negotiatedAckEvery == every
    && m.eng.txn.transferDeadline == Add32(now, s.node.eng.cfg.transferTimeout)
    && m.eng.cfg == s.node.eng.cfg
    && m.connected == s.node.connected && m.air == s.node.air && BookOf(m).packets == n + 1
    && m.tx == (if Multiple(n + 1, every) && |s.node.tx| < ORDINARY_SLOTS
                then s.node.tx + [TxItem(SackAfter(n + 1), false)] else s.node.tx)
  }

  lemma PlainPop(s: Link, resent: U32, every: nat, now: U32, ans: Answers)
    requires LinkInv(s, resent) && Tidy(s, every) && s.node.rx != [] && ans.write
    requires s.node.eng.txn.state == Receiving && !Completes(Abs(s))
    ensures PlainStep(s, NodeStep(s.node, PopOne(now, ans)), now, every)
  {
    hide NetInv, Handle, NetStep, Tidy;
    TidyCadence(s, every);
    PoppedIsChunk(s, resent);
    ChunkComesTo(s, resent, now, ans);
    PlainChunk(Abs(s), now, ans);
    PlainApplied(s, now, ans, Handle(s.node.eng, DeliverStep(Abs(s), now, ans)), every);
  }

  lemma TidyCadence(s: Link, every: nat)
    requires Tidy(s, every)
    ensures s.node.eng.txn.negotiatedAckEvery == every
  {
  }

  lemma PlainApplied(s: Link, now: U32, ans: Answers, out: Outcome, every: nat)
    requires s.node.rx != [] && PoppedEvent(s.node).Some?
    requires out == Handle(s.node.eng, Step(PoppedEvent(s.node).value, now, ans))
    requires out.eng.txn.state == Receiving && out.eng.tail == None && !IsTerminal(out.res)
    requires out.eng.txn.negotiatedAckEvery == every && out.eng.cfg == s.node.eng.cfg
    requires out.eng.txn.transferDeadline == Add32(now, s.node.eng.cfg.transferTimeout)
    requires var n := BookOf(s.node).packets + 1;
             && PostAll(BookOf(s.node), s.node.eng.cfg.fullFrameBytes, out.calls).packets == n
             && out.res.response == (if Multiple(n, every) then SackAfter(n) else [])
    ensures PlainStep(s, NodeStep(s.node, PopOne(now, ans)), now, every)
  {
    hide Handle, PostAll, SackAfter, Post;
    var k := s.node.(rx := s.node.rx[1..], eng := out.eng, log := s.node.log + out.calls);
    LedgerConcat(s.node.eng.cfg.fullFrameBytes, s.node.log, out.calls);
    OrdinaryApplied(k, out.res);
    assert NodeStep(s.node, PopOne(now, ans)) == Applied(k, out.res);
  }

  lemma FramesGrow(n: Node, m: Node, r: Response)
    requires m.air == n.air && m.tx == n.tx + [TxItem(r, false)]
    ensures Notified(m) == Notified(n) + [r]
  {
    assert Frames(m.tx) == Frames(n.tx) + [r];
  }

  // Both are multiples of ack_every, so the next SACK keeps its distance.
  lemma NextMultiple(last: nat, n: nat, every: nat)
    requires 1 <= every <= 4 && last % every == 0 && n % every == 0 && last < n
    ensures last + every <= n
  {
  }

  lemma NotYet(last: nat, n: nat, every: nat)
    requires 2 <= every <= 4 && last % every == 0 && n % every != 0 && last < n && n - 1 - last < every
    ensures n - last < every
  {
  }

  lemma QueuedKeepsTidy(s: Link, every: nat, m: GoodNode, n: nat)
    requires Tidy(s, every) && n == BookOf(s.node).packets + 1 == BookOf(m).packets && n % every == 0
    requires m.eng.txn.negotiatedAckEvery == every && m.air == s.node.air
    requires m.tx == s.node.tx + [TxItem(SackAfter(n), false)]
    ensures Tidy(s.(node := m, counts := s.counts + Copies(n, |Notified(m)| - |Notified(s.node)|)), every)
  {
    FramesGrow(s.node, m, SackAfter(n));
    NextMultiple(LastOf(s.counts, |s.acked|), n, every);
    SpacedSnoc(s.counts, |s.acked|, every, n);
    hide BookOf, Spaced;
    var t := s.(node := m, counts := s.counts + Copies(n, 1));
    assert t.counts == s.counts + [n] && Unread(t) == Unread(s) + [SackAfter(n)];
  }

  lemma UnqueuedKeepsTidy(s: Link, every: nat, m: GoodNode, n: nat)
    requires Tidy(s, every) && n == BookOf(s.node).packets + 1 == BookOf(m).packets
    requires m.eng.txn.negotiatedAckEvery == every && m.air == s.node.air && m.tx == s.node.tx
    requires SmallGap(n, LastOf(s.counts, |s.acked|), every, s.window)
    ensures Tidy(s.(node := m, counts := s.counts + Copies(n, |Notified(m)| - |Notified(s.node)|)), every)
  {
    hide BookOf, Spaced;
    assert Notified(m) == Notified(s.node);
    var t := s.(node := m, counts := s.counts + Copies(n, 0));
    assert t.counts == s.counts && Unread(t) == Unread(s);
  }

  // No SACK is queued: none was due, or the ring was full of SACKs the client has not read.
  lemma GapStaysSmall(packets: nat, last: nat, believed: nat, waiting: nat, every: nat, window: nat)
    requires SmallGap(packets, last, every, window) && 1 <= every <= 4 && last % every == 0
    requires packets + 1 <= believed + window && window <= 16 && last >= believed + waiting
    requires every >= 2 ==> last >= believed + 2 * waiting
    requires (packets + 1) % every == 0 ==> waiting >= ORDINARY_SLOTS
    ensures SmallGap(packets + 1, last, every, window)
  {
    if every >= 2 {
      NotYet(last, packets + 1, every);
    } else {
      assert (packets + 1) % every == 0;
    }
  }

  lemma PopKeepsTidy(s: Link, every: nat, m: GoodNode, now: U32)
    requires Tidy(s, every) && PlainStep(s, m, now, every)
    requires BookOf(s.node).packets + 1 <= |s.acked| + s.window && s.window <= 16 && |s.node.tx| <= |s.counts|
    ensures var more := Copies(BookOf(m).packets, |Notified(m)| - |Notified(s.node)|);
            Tidy(s.(node := m, counts := s.counts + more), every)
  {
    var n, a, last := BookOf(s.node).packets + 1, |s.acked|, LastOf(s.counts, |s.acked|);
    hide BookOf, Notified, Spaced, Copies;
    if Multiple(n, every) && |s.node.tx| < ORDINARY_SLOTS {
      QueuedKeepsTidy(s, every, m, n);
    } else {
      SpacedReach(s.counts, a, every);
      GapStaysSmall(n - 1, last, a, |s.counts|, every, s.window);
      UnqueuedKeepsTidy(s, every, m, n);
    }
  }

  // The next chunk is inside the window that begins where the client's belief ends.
  lemma RoomFor(s: Link, resent: U32)
    requires LinkInv(s, resent) && s.node.rx != [] && s.node.eng.txn.state == Receiving
    ensures BookOf(s.node).packets + 1 <= |s.acked| + s.window && s.window <= 16
    ensures |s.node.tx| <= |s.counts|
  {
  }

  // --- The other steps -----------------------------------------------------------------------------

  lemma CalmTick(e: Engine, l: Ledger, now: U32, ans: Answers)
    requires Inv(e, l) && e.txn.state == Receiving && Tick(e, now, ans).eng.txn.state == Receiving
    ensures Tick(e, now, ans) == Outcome(e, SILENT, [])
  {
  }

  lemma TickIsNothing(n: GoodNode, now: U32, ans: Answers)
    requires Inv(n.eng, BookOf(n)) && n.eng.txn.state == Receiving && n.eng.tail == None
    requires NodeStep(n, TickNow(now, ans)).eng.txn.state == Receiving
    ensures NodeStep(n, TickNow(now, ans)) == n
  {
    hide Handle;
    var step := Step(TickAt, now, ans);
    var out := Handle(n.eng, step);
    AppliedTakesTail(n.(eng := out.eng, log := n.log + out.calls), out.res);
    TickStep(n.eng, step);
    CalmTick(n.eng, BookOf(n), now, ans);
    OrdinaryApplied(n, SILENT);
    assert n.(eng := out.eng, log := n.log + out.calls) == n;
  }

  lemma TickStep(e: Engine, step: Step)
    requires step.ev.TickAt?
    ensures Handle(e, step) == Tick(e, step.now, step.ans)
  {
  }

  lemma AsideKeepsTidy(s: Link, every: nat, m: GoodNode)
    requires Tidy(s, every) && m.eng == s.node.eng && m.log == s.node.log
    requires Notified(m) == Notified(s.node) && |s.node.air| <= |m.air|
    ensures Tidy(s.(node := m, counts := s.counts + Copies(BookOf(m).packets, 0)), every)
  {
    var t := s.(node := m, counts := s.counts + Copies(BookOf(m).packets, 0));
    assert t.counts == s.counts && Unread(t) == Unread(s) && BookOf(m) == BookOf(s.node);
  }

  lemma SweepOrAbortIsNothing(n: GoodNode, inner: NodeLabel)
    requires inner == Sweep || inner == AbortByUser
    requires NodeStep(n, inner).eng.txn.state == Receiving
    ensures NodeStep(n, inner) == n
  {
    assert n.log + [] == n.log;
  }

  // Leaving the transfer receiving, a chunk was taken and did not complete the image.
  lemma StillReceiving(s: Link, resent: U32, now: U32, ans: Answers)
    requires LinkInv(s, resent) && s.node.rx != [] && s.node.eng.txn.state == Receiving
    requires NodeStep(s.node, PopOne(now, ans)).eng.txn.state == Receiving
    ensures ans.write && !Completes(Abs(s))
  {
    hide NetInv, Handle, NetStep, NodeStep;
    ChunkComesTo(s, resent, now, ans);
    PopDigests(s, resent, now, ans);
    PoppedIsChunk(s, resent);
    assert ans.write;
    if Completes(Abs(s)) {
      LastChunkEnds(Abs(s), now, ans);
      assert false;
    }
  }

  lemma PopInTidy(s: Link, every: nat, resent: U32, now: U32, ans: Answers)
    requires LinkInv(s, resent) && Tidy(s, every) && s.node.eng.txn.state == Receiving
    requires NodeStep(s.node, PopOne(now, ans)).eng.txn.state == Receiving
    ensures Tidy(LinkStep(s, Inside(PopOne(now, ans))), every)
  {
    hide LinkInv, Tidy;
    var m := NodeStep(s.node, PopOne(now, ans));
    StepAppends(s.node, PopOne(now, ans));
    if s.node.rx == [] {
      AsideKeepsTidy(s, every, m);
    } else {
      hide NodeStep;
      StillReceiving(s, resent, now, ans);
      PlainPop(s, resent, every, now, ans);
      RoomFor(s, resent);
      PopKeepsTidy(s, every, m, now);
    }
  }

  // No event but a START makes the transfer receiving.
  lemma NotReopened(s: Link, resent: U32, l: LinkLabel)
    requires LinkInv(s, resent) && LinkStep(s, l).node.eng.txn.state == Receiving
    ensures s.node.eng.txn.state == Receiving
  {
    hide NetInv, Handle, NetStep;
    if l.Inside? && !l.inner.Connect? && !l.inner.Write? {
      TailTaken(s, resent);
      match l.inner {
        case PopOne(now, ans) =>
          if s.node.rx != [] {
            ChunkComesTo(s, resent, now, ans);
            PopDigests(s, resent, now, ans);
          }
        case TickNow(now, ans) =>
          TickStirs(s.node, now, ans);
          ElsewhereCalm(s.node.eng, Step(TickAt, now, ans));
        case AbortByUser =>
          AbortStirs(s.node);
          ElsewhereCalm(s.node.eng, Quietly(UserAbort));
        case Sweep =>
          if !s.node.connected {
            SweepStirs(s.node);
            ElsewhereCalm(s.node.eng, Quietly(Disconnect(s.node.generation)));
          }
        case _ =>
      }
    } else if l.Arrive? {
      ArriveLeavesClient(s, l.packet);
    }
  }

  lemma InsideKeepsTidy(s: Link, every: nat, resent: U32, inner: NodeLabel)
    requires LinkInv(s, resent) && Tidy(s, every) && s.node.eng.txn.state == Receiving
    requires !inner.Connect? && !inner.Write? && LinkStep(s, Inside(inner)).node.eng.txn.state == Receiving
    ensures Tidy(LinkStep(s, Inside(inner)), every)
  {
    hide NetInv, Handle, NetStep;
    var m := NodeStep(s.node, inner);
    match inner {
      case PopOne(now, ans) => PopInTidy(s, every, resent, now, ans);
      case TickNow(now, ans) =>
        EngineIsInv(s, resent);
        TickIsNothing(s.node, now, ans);
        AsideKeepsTidy(s, every, m);
      case AbortByUser =>
        SweepOrAbortIsNothing(s.node, inner);
        AsideKeepsTidy(s, every, m);
      case Sweep =>
        SweepOrAbortIsNothing(s.node, inner);
        AsideKeepsTidy(s, every, m);
      case Drain =>
        DrainKeepsOrder(s.node);
        AsideKeepsTidy(s, every, m);
      case Hangup => AsideKeepsTidy(s, every, m);
    }
  }

  lemma EngineIsInv(s: Link, resent: U32)
    requires LinkInv(s, resent)
    ensures Inv(s.node.eng, BookOf(s.node)) && s.node.eng.tail == None
  {
  }

  lemma StepKeepsTidy(s: Link, every: nat, resent: U32, l: LinkLabel)
    requires TidyInv(s, every, resent)
    ensures TidyInv(LinkStep(s, l), every, resent)
  {
    LinkStepKeepsInv(s, resent, l);
    hide LinkInv, Tidy, LinkStep;
    if LinkStep(s, l).node.eng.txn.state == Receiving {
      NotReopened(s, resent, l);
      match l {
        case Transmit => TransmitKeepsTidy(s, every);
        case Arrive(p) => ArriveKeepsTidy(s, every, resent, p);
        case Hear => HearKeepsTidy(s, every, resent);
        case Inside(inner) => InsideOrNot(s, every, resent, inner);
      }
    }
  }

  lemma InsideOrNot(s: Link, every: nat, resent: U32, inner: NodeLabel)
    requires LinkInv(s, resent) && Tidy(s, every) && s.node.eng.txn.state == Receiving
    requires LinkStep(s, Inside(inner)).node.eng.txn.state == Receiving
    ensures Tidy(LinkStep(s, Inside(inner)), every)
  {
    hide LinkInv, Tidy;
    if inner.Connect? || inner.Write? {
      assert LinkStep(s, Inside(inner)) == s;
    } else {
      InsideKeepsTidy(s, every, resent, inner);
    }
  }

  lemma StartIsTidy(s: Link)
    requires LinkStart(s)
    ensures TidyInv(s, s.node.eng.txn.negotiatedAckEvery, s.node.eng.stats.retransmitRequests)
  {
    StartIsLinkInv(s);
    assert 0 % s.node.eng.txn.negotiatedAckEvery == 0;
  }

  lemma {:induction false} RunKeepsTidy(s: Link, labels: seq<LinkLabel>)
    requires LinkStart(s)
    ensures TidyInv(LinkRun(s, labels), s.node.eng.txn.negotiatedAckEvery, s.node.eng.stats.retransmitRequests)
    decreases |labels|
  {
    hide LinkStart, LinkStep, TidyInv;
    if labels == [] {
      StartIsTidy(s);
    } else {
      RunKeepsTidy(s, labels[..|labels| - 1]);
      StepKeepsTidy(LinkRun(s, labels[..|labels| - 1]), s.node.eng.txn.negotiatedAckEvery,
                    s.node.eng.stats.retransmitRequests, labels[|labels| - 1]);
    }
  }

  // --- What follows -----------------------------------------------------------------------------------

  // Everything sent has been handled, every answer has been read, and the client may not go on.
  ghost predicate LinkAtRest(t: Link) {
    t.air == [] && t.node.rx == [] && t.node.tx == [] && t.heard == |t.node.air| && !MayTransmit(t)
  }

  // Through the component, SACKs dropped by a full transmit ring included, a client whose request
  // respects ack_every <= window never jams: at rest its transfer is over.
  lemma LinkNeverJams(s: Link, labels: seq<LinkLabel>)
    requires LinkStart(s) && s.node.eng.cfg.fullFrameBytes > 0
    requires s.node.eng.txn.negotiatedAckEvery <= s.window && LinkAtRest(LinkRun(s, labels))
    ensures LinkRun(s, labels).node.eng.txn.state != Receiving
  {
    RunKeepsTidy(s, labels);
    LinkRunKeepsInv(s, labels);
    LinkKeepsConfig(s, labels);
    var t := LinkRun(s, labels);
    if t.node.eng.txn.state == Receiving {
      RestIsRoom(t, s.node.eng.txn.negotiatedAckEvery, s.node.eng.stats.retransmitRequests);
      assert false;
    }
  }

  lemma RestIsRoom(t: Link, every: nat, resent: U32)
    requires LinkInv(t, resent) && Tidy(t, every) && t.node.eng.txn.state == Receiving && every <= t.window
    requires t.node.eng.cfg.fullFrameBytes > 0
    requires t.air == [] && t.node.rx == [] && t.node.tx == [] && t.heard == |t.node.air|
    ensures MayTransmit(t)
  {
    ReceivingIsPartial(Abs(t), BookOf(t.node).packets);
    MaySend(Abs(t));
    assert Outstanding(Abs(t)) == Below(t.next) - t.acked;
  }

  lemma {:induction false} LinkKeepsConfig(s: Link, labels: seq<LinkLabel>)
    requires LinkStart(s)
    ensures LinkRun(s, labels).node.eng.cfg == s.node.eng.cfg
    decreases |labels|
  {
    hide LinkStart, LinkStep;
    if labels == [] {
    } else {
      LinkKeepsConfig(s, labels[..|labels| - 1]);
      LinkRunKeepsInv(s, labels[..|labels| - 1]);
      StepKeepsConfig(LinkRun(s, labels[..|labels| - 1]), s.node.eng.stats.retransmitRequests, labels[|labels| - 1]);
    }
  }

  lemma StepKeepsConfig(s: Link, resent: U32, l: LinkLabel)
    requires LinkInv(s, resent)
    ensures LinkStep(s, l).node.eng.cfg == s.node.eng.cfg
  {
    hide NetInv, Handle, NetStep;
    if l.Inside? && !l.inner.Connect? && !l.inner.Write? {
      TailTaken(s, resent);
      EngineIsInv(s, resent);
      match l.inner {
        case PopOne(now, ans) =>
          if s.node.rx != [] {
            ChunkComesTo(s, resent, now, ans);
            PopDigests(s, resent, now, ans);
          }
        case TickNow(now, ans) =>
          TickStirs(s.node, now, ans);
          StepKeepsInv(s.node.eng, BookOf(s.node), Step(TickAt, now, ans));
        case AbortByUser =>
          AbortStirs(s.node);
          StepKeepsInv(s.node.eng, BookOf(s.node), Quietly(UserAbort));
        case Sweep =>
          if !s.node.connected {
            SweepStirs(s.node);
            StepKeepsInv(s.node.eng, BookOf(s.node), Quietly(Disconnect(s.node.generation)));
          }
        case _ =>
      }
    } else if l.Arrive? {
      ArriveLeavesClient(s, l.packet);
    }
  }

  // --- The END ACK -------------------------------------------------------------------------------------

  // The next packet completes the transfer, and no END ACK gets into the transmit ring.
  ghost predicate LosesEndAck(m: GoodNode, now: U32, ans: Answers) {
    var x := NodeStep(m, PopOne(now, ans)).tx;
    CompletesPipe(m, now, ans)
    && forall k | |m.tx| <= k < |x| :: x[k] != TxItem(EncodeAck(CMD_PIPE_WRITE_END), false)
  }

  lemma CompletionInLink(t: Link, resent: U32, now: U32, ans: Answers) returns (sack: Response)
    requires LinkInv(t, resent) && t.node.eng.cfg.fullFrameBytes > 0 && CompletesPipe(t.node, now, ans)
    ensures t.node.eng.txn.state == Receiving && sack != EncodeAck(CMD_PIPE_WRITE_END)
    ensures NodeStep(t.node, PopOne(now, ans)).tx == Queued(t.node.tx, sack, EncodeAck(CMD_PIPE_WRITE_END))
  {
    hide NetInv, Handle, NodeStep;
    EngineIsInv(t, resent);
    var step := Step(PoppedEvent(t.node).value, now, ans);
    var e, l := t.node.eng, BookOf(t.node);
    EndAckOnlyFromData(e, l, step);
    StoredTail(e, l, step.ev.payload[1..], now, ans);
    sack := SackAfter(PostAll(l, e.cfg.fullFrameBytes, Handle(e, step).calls).packets);
    CompletingChunk(t.node, now, ans, sack);
  }

  lemma LostIff(t: Link, resent: U32, now: U32, ans: Answers)
    requires LinkInv(t, resent) && t.node.eng.cfg.fullFrameBytes > 0 && CompletesPipe(t.node, now, ans)
    ensures LosesEndAck(t.node, now, ans) <==> |t.node.tx| > 10
    ensures t.node.eng.txn.state == Receiving
  {
    var sack := CompletionInLink(t, resent, now, ans);
    hide LinkInv, NodeStep, CompletesPipe;
    var x, q, ack := NodeStep(t.node, PopOne(now, ans)).tx, t.node.tx, TxItem(EncodeAck(CMD_PIPE_WRITE_END), false);
    if |q| <= 10 {
      assert x[|q| + 1] == ack;
    }
  }

  // In every run of a client that sends nothing else, whatever order callbacks and loop() take, the
  // END ACK can be lost only with ack_every 1 and a window of at least twelve.
  lemma EndAckLostOnlyIf(s: Link, labels: seq<LinkLabel>, now: U32, ans: Answers)
    requires LinkStart(s) && s.node.eng.cfg.fullFrameBytes > 0
    requires LosesEndAck(LinkRun(s, labels).node, now, ans)
    ensures s.node.eng.txn.negotiatedAckEvery == 1 && s.window >= 12
  {
    hide LosesEndAck;
    var t, every, resent := LinkRun(s, labels), s.node.eng.txn.negotiatedAckEvery, s.node.eng.stats.retransmitRequests;
    RunKeepsTidy(s, labels);
    LinkRunKeepsInv(s, labels);
    LinkKeepsConfig(s, labels);
    LostCompletes(t.node, now, ans);
    LostIff(t, resent, now, ans);
    CrowdedMeans(t, every, resent);
  }

  lemma LostCompletes(m: GoodNode, now: U32, ans: Answers)
    requires LosesEndAck(m, now, ans)
    ensures CompletesPipe(m, now, ans) && m.rx != []
  {
  }

  lemma CrowdedMeans(t: Link, every: nat, resent: U32)
    requires LinkInv(t, resent) && Tidy(t, every) && t.node.eng.txn.state == Receiving
    requires t.node.rx != [] && |t.node.tx| > 10
    ensures every == 1 && t.window >= 12
  {
    SpacedReach(t.counts, |t.acked|, every);
    RoomFor(t, resent);
  }

  // --- And there it happens --------------------------------------------------------------------------

  // How far the current pass through loop() has come: 0 between passes, 1 + k after k packets, 10
  // after the tick, -1 if the steps of a pass are out of order or too many.
  function Phase(labels: seq<LinkLabel>): int {
    if labels == [] then 0
    else
      var p, l := Phase(labels[..|labels| - 1]), labels[|labels| - 1];
      if !l.Inside? then p
      else
        match l.inner
        case Sweep => if p == 0 then 1 else -1
        case PopOne(_, _) => if 1 <= p <= POPS_PER_LOOP then p + 1 else -1
        case TickNow(_, _) => if 1 <= p <= POPS_PER_LOOP + 1 then 10 else -1
        case Drain => if p == 10 then 0 else -1
        case _ => -1
  }

  // k chunks accepted and v sent, all of these in the receive ring; a SACK for every chunk, the
  // last q of them in the transmit ring and u more notified and not yet read.
  ghost predicate Posed(t: Link, resent: U32, k: nat, q: nat, u: nat, v: nat) {
    && LinkInv(t, resent) && Tidy(t, 1) && t.node.eng.txn.state == Receiving && t.node.connected
    && t.air == [] && BookOf(t.node).packets == k && |t.node.tx| == q && |t.node.air| == t.heard + u
    && |t.acked| + q + u == k && t.next == v && k <= v
    && t.node.eng.cfg.transferTimeout <= 0x8000_0000
  }

  // What the run does not change.
  ghost predicate SameClient(s: Link, t: Link) {
    t.chunks == s.chunks && t.window == s.window && t.node.eng.cfg == s.node.eng.cfg
  }

  lemma LinkRunSnoc(s: Link, labels: seq<LinkLabel>, l: LinkLabel)
    ensures LinkRun(s, labels + [l]) == LinkStep(LinkRun(s, labels), l)
    ensures Phase(labels + [l]) == (if !l.Inside? then Phase(labels) else Phase(labels + [l]))
  {
    assert (labels + [l])[..|labels|] == labels;
  }

  lemma PhaseSnoc(labels: seq<LinkLabel>, inner: NodeLabel)
    ensures Phase(labels + [Inside(inner)])
         == match inner
            case Sweep => (if Phase(labels) == 0 then 1 else -1)
            case PopOne(_, _) => (if 1 <= Phase(labels) <= POPS_PER_LOOP then Phase(labels) + 1 else -1)
            case TickNow(_, _) => (if 1 <= Phase(labels) <= POPS_PER_LOOP + 1 then 10 else -1)
            case Drain => (if Phase(labels) == 10 then 0 else -1)
            case _ => -1
  {
    assert (labels + [Inside(inner)])[..|labels|] == labels;
  }

  lemma TransmitStep(t: Link, resent: U32, k: nat, q: nat, u: nat, v: nat)
    requires Posed(t, resent, k, q, u, v) && v < |t.chunks| && v < |t.acked| + t.window
    ensures LinkStep(t, Transmit) == t.(next := v + 1, air := [v])
  {
    hide BookOf, Notified, Tidy;
    MaySend(Abs(t));
    assert Outstanding(Abs(t)) == Below(t.next) - t.acked;
    assert t.air + [v] == [v];
  }

  lemma ArriveStep(t: Link, resent: U32, k: nat, q: nat, u: nat, v: nat, p: RxPacket)
    requires Posed(t, resent, k, q, u, v) && v < |t.chunks|
    requires p.WellFormed() && p.Data() == WireFrame(t.chunks, v) && p.generation == t.node.generation
    requires |t.node.rx| <= 15
    ensures LinkStep(t.(next := v + 1, air := [v]), Arrive(p))
         == t.(next := v + 1, node := t.node.(rx := t.node.rx + [p]))
  {
    hide BookOf, Notified, Tidy;
    var a := t.(next := v + 1, air := [v]);
    assert RxAccepts(|a.node.rx|, WireFrame(t.chunks, v));
    assert a.air[1..] == [] == t.air;
  }

  lemma Feed(t: Link, resent: U32, k: nat, q: nat, u: nat, v: nat) returns (p: RxPacket)
    requires Posed(t, resent, k, q, u, v) && v < |t.chunks| && v < |t.acked| + t.window
    ensures var a := LinkStep(LinkStep(t, Transmit), Arrive(p));
            Posed(a, resent, k, q, u, v + 1) && SameClient(t, a)
  {
    WithinWindow(t, resent);
    FrameFits(t, resent, v);
    p := PacketWith(WireFrame(t.chunks, v), t.node.generation);
    TransmitKeepsInv(t, resent);
    TransmitKeepsTidy(t, 1);
    ArriveKeepsInv(LinkStep(t, Transmit), resent, p);
    ArriveKeepsTidy(LinkStep(t, Transmit), 1, resent, p);
    TransmitStep(t, resent, k, q, u, v);
    RingBelowWindow(t, resent);
    ArriveStep(t, resent, k, q, u, v, p);
    hide LinkInv, Tidy, LinkStep;
  }

  lemma FrameFits(t: Link, resent: U32, v: nat)
    requires LinkInv(t, resent) && v < |t.chunks|
    ensures 0 < |WireFrame(t.chunks, v)| <= RX_SLOT_BYTES
  {
  }

  lemma RingBelowWindow(t: Link, resent: U32)
    requires LinkInv(t, resent) && t.next < |t.acked| + t.window && t.air == []
    ensures |t.node.rx| <= 15
  {
  }

  lemma TakeShape(t: Link)
    requires PlainStep(t, NodeStep(t.node, POP), 0, 1) && |t.node.tx| < ORDINARY_SLOTS
    ensures var a := LinkStep(t, Inside(POP));
            && a == t.(node := a.node, counts := a.counts) && a.node == NodeStep(t.node, POP)
            && a.node.eng.txn.state == Receiving && a.node.connected == t.node.connected && a.node.air == t.node.air
            && a.node.eng.cfg == t.node.eng.cfg && BookOf(a.node).packets == BookOf(t.node).packets + 1
            && |a.node.tx| == |t.node.tx| + 1
            && a.node.eng.txn.transferDeadline == t.node.eng.cfg.transferTimeout
  {
    hide NodeStep, BookOf, Notified;
  }

  lemma TakeOne(t: Link, resent: U32, k: nat, q: nat, u: nat, v: nat)
    requires Posed(t, resent, k, q, u, v) && k < v && q < ORDINARY_SLOTS && !Completes(Abs(t))
    ensures var a := LinkStep(t, Inside(POP));
            && Posed(a, resent, k + 1, q + 1, u, v) && SameClient(t, a)
            && a.node.eng.txn.transferDeadline == t.node.eng.cfg.transferTimeout
  {
    hide LinkInv, Tidy, NodeStep, LinkStep, Notified, BookOf;
    RingHolds(t, resent);
    PlainPop(t, resent, 1, 0, YES);
    PlainReceives(t);
    TakeShape(t);
    InsideKeepsInv(t, resent, POP);
    PopInTidy(t, 1, resent, 0, YES);
  }

  lemma PlainReceives(t: Link)
    requires PlainStep(t, NodeStep(t.node, POP), 0, 1)
    ensures NodeStep(t.node, POP).eng.txn.state == Receiving
  {
  }

  lemma RingHolds(t: Link, resent: U32)
    requires LinkInv(t, resent) && t.node.eng.txn.state == Receiving && t.air == []
    ensures |t.node.rx| == t.next - BookOf(t.node).packets
  {
  }

  // A tick right after an accepted chunk finds nothing due.
  lemma EarlyTickIsNothing(n: GoodNode)
    requires Inv(n.eng, BookOf(n)) && n.eng.txn.state == Receiving && n.eng.tail == None
    requires n.eng.txn.transferDeadline == n.eng.cfg.transferTimeout && n.eng.cfg.transferTimeout <= 0x8000_0000
    ensures NodeStep(n, TickNow(0, YES)) == n
  {
    NotDue(n.eng, BookOf(n));
    hide Handle;
    var step := Step(TickAt, 0, YES);
    TickStep(n.eng, step);
    OrdinaryApplied(n, SILENT);
    assert n.(eng := n.eng, log := n.log + []) == n;
  }

  lemma NotDue(e: Engine, l: Ledger)
    requires Inv(e, l) && e.txn.state == Receiving
    requires e.txn.transferDeadline == e.cfg.transferTimeout && e.cfg.transferTimeout <= 0x8000_0000
    ensures Tick(e, 0, YES) == Outcome(e, SILENT, [])
  {
    assert !DeadlinePassed(0, e.txn.transferDeadline);
  }

  lemma TickLeaves(t: Link, resent: U32, k: nat, q: nat, v: nat)
    requires Posed(t, resent, k, q, 0, v) && t.node.eng.txn.transferDeadline == t.node.eng.cfg.transferTimeout
    ensures LinkStep(t, Inside(TickNow(0, YES))) == t
  {
    EngineIsInv(t, resent);
    EarlyTickIsNothing(t.node);
    hide LinkInv, Tidy, NodeStep, Notified, BookOf, Posed;
    SameNode(t, TickNow(0, YES));
  }

  lemma SameNode(t: Link, inner: NodeLabel)
    requires NodeStep(t.node, inner) == t.node
    ensures LinkStep(t, Inside(inner)) == t
  {
    hide NodeStep, Notified, BookOf;
    assert t.counts + Copies(BookOf(t.node).packets, 0) == t.counts;
  }

  lemma DrainPoses(t: Link, resent: U32, k: nat, q: nat, v: nat)
    requires Posed(t, resent, k, q, 0, v)
    ensures var a := LinkStep(t, Inside(Drain));
            Posed(a, resent, k, q - Min(4, q), Min(4, q), v) && SameClient(t, a)
  {
    hide LinkInv, Tidy, LinkStep, NodeStep, Notified, BookOf;
    DrainSplits(t);
    InsideKeepsInv(t, resent, Drain);
    InsideKeepsTidy(t, 1, resent, Drain);
  }

  lemma DrainSplits(t: Link)
    requires t.node.connected
    ensures var a := LinkStep(t, Inside(Drain)); var r := Min(4, |t.node.tx|);
            && |a.node.tx| == |t.node.tx| - r && |a.node.air| == |t.node.air| + r
            && a.node == t.node.(tx := a.node.tx, air := a.node.air)
            && a == t.(node := a.node, counts := a.counts) && BookOf(a.node) == BookOf(t.node)
  {
  }

  lemma HearOne(t: Link, resent: U32, k: nat, q: nat, u: nat, v: nat)
    requires Posed(t, resent, k, q, u, v) && u > 0
    ensures Posed(LinkStep(t, Hear), resent, k, q, u - 1, v) && SameClient(t, LinkStep(t, Hear))
  {
    HearKeepsInv(t, resent);
    HearKeepsTidy(t, 1, resent);
    CountsLength(t, u);
    HeardCount(t, resent, 1);
    HearLeavesNode(t);
    FirstCount(t);
    hide LinkInv, Tidy, LinkStep, Notified, BookOf;
    var a := LinkStep(t, Hear);
    HearLeavesRest(t);
  }

  lemma HearLeavesRest(t: Link)
    ensures var a := LinkStep(t, Hear); a.chunks == t.chunks && a.air == t.air && a.next == t.next
  {
    hide BookOf, Notified;
  }

  lemma CountsLength(t: Link, u: nat)
    requires Matched(t) && |t.node.air| == t.heard + u
    ensures |t.counts| == u + |t.node.tx|
  {
  }

  // With a SACK for every chunk, the oldest unread one is for the next chunk to be believed.
  lemma FirstCount(t: Link)
    requires Tidy(t, 1) && t.counts != [] && |t.counts| + |t.acked| == BookOf(t.node).packets
    ensures t.counts[0] == |t.acked| + 1
  {
    SpacedTail(t.counts, |t.acked|, 1);
    SpacedReach(t.counts[1..], t.counts[0], 1);
  }

  // --- Whole passes ------------------------------------------------------------------------------------

  lemma {:induction false} FeedMany(s: Link, labels: seq<LinkLabel>, resent: U32, k: nat, q: nat, v: nat, n: nat)
    returns (more: seq<LinkLabel>)
    requires var t := LinkRun(s, labels); Posed(t, resent, k, q, 0, v) && SameClient(s, t)
    requires v + n <= |s.chunks| && v + n <= k - q + s.window
    ensures var t := LinkRun(s, more); Posed(t, resent, k, q, 0, v + n) && SameClient(s, t)
    ensures Phase(more) == Phase(labels)
    decreases n
  {
    hide LinkStep, Posed, LinkRun;
    if n == 0 {
      more := labels;
    } else {
      var init := FeedMany(s, labels, resent, k, q, v, n - 1);
      PosedBelief(LinkRun(s, init), resent, k, q, 0, v + n - 1);
      var p := Feed(LinkRun(s, init), resent, k, q, 0, v + n - 1);
      LinkRunSnoc(s, init, Transmit);
      LinkRunSnoc(s, init + [Transmit], Arrive(p));
      more := init + [Transmit] + [Arrive(p)];
    }
  }

  lemma PosedBelief(t: Link, resent: U32, k: nat, q: nat, u: nat, v: nat)
    requires Posed(t, resent, k, q, u, v)
    ensures |t.acked| == k - q - u
  {
  }

  // The image is not complete before its last chunk.
  lemma NotComplete(t: Link, resent: U32, k: nat, q: nat, u: nat, v: nat, size: nat)
    requires Posed(t, resent, k, q, u, v) && k + 1 < size <= |t.chunks|
    requires |Concat(t.chunks[..size - 1])| < t.node.eng.cfg.fullFrameBytes
    ensures !Completes(Abs(t))
  {
    hide Notified, Tidy;
    NextChunkFits(Abs(t), k);
    ConcatPrefix(t.chunks[..size - 1], k + 1);
    assert t.chunks[..size - 1][..k + 1] == t.chunks[..k + 1];
    assert Abs(t).book == BookOf(t.node);
  }

  ghost predicate Sized(s: Link, size: nat) {
    && 0 < size <= |s.chunks| && |Concat(s.chunks[..size])| == s.node.eng.cfg.fullFrameBytes
    && |Concat(s.chunks[..size - 1])| < s.node.eng.cfg.fullFrameBytes
  }

  lemma {:induction false} TakeMany(s: Link, labels: seq<LinkLabel>, resent: U32, k: nat, q: nat, v: nat, n: nat,
                                    size: nat)
    returns (more: seq<LinkLabel>)
    requires var t := LinkRun(s, labels); Posed(t, resent, k, q, 0, v) && SameClient(s, t)
    requires Sized(s, size) && k + n <= v && k + n < size && q + n <= ORDINARY_SLOTS
    requires n <= POPS_PER_LOOP && Phase(labels) == 1
    ensures var t := LinkRun(s, more);
            && Posed(t, resent, k + n, q + n, 0, v) && SameClient(s, t)
            && (n > 0 ==> t.node.eng.txn.transferDeadline == t.node.eng.cfg.transferTimeout)
    ensures Phase(more) == 1 + n
    decreases n
  {
    hide LinkStep, Posed, LinkRun, NodeStep;
    if n == 0 {
      more := labels;
    } else {
      var init := TakeMany(s, labels, resent, k, q, v, n - 1, size);
      NotComplete(LinkRun(s, init), resent, k + n - 1, q + n - 1, 0, v, size);
      TakeOne(LinkRun(s, init), resent, k + n - 1, q + n - 1, 0, v);
      LinkRunSnoc(s, init, Inside(POP));
      PhaseSnoc(init, POP);
      more := init + [Inside(POP)];
    }
  }

  lemma {:induction false} HearMany(s: Link, labels: seq<LinkLabel>, resent: U32, k: nat, q: nat, u: nat, v: nat)
    returns (more: seq<LinkLabel>)
    requires var t := LinkRun(s, labels); Posed(t, resent, k, q, u, v) && SameClient(s, t)
    ensures var t := LinkRun(s, more); Posed(t, resent, k, q, 0, v) && SameClient(s, t)
    ensures Phase(more) == Phase(labels)
    decreases u
  {
    hide LinkStep, Posed, LinkRun;
    if u == 0 {
      more := labels;
    } else {
      HearOne(LinkRun(s, labels), resent, k, q, u, v);
      LinkRunSnoc(s, labels, Hear);
      more := HearMany(s, labels + [Hear], resent, k, q, u - 1, v);
    }
  }

  lemma SweepIsNothing(t: Link)
    requires t.node.connected
    ensures LinkStep(t, Inside(Sweep)) == t
  {
    assert t.counts + [] == t.counts;
  }

  lemma PosedConnected(t: Link, resent: U32, k: nat, q: nat, u: nat, v: nat)
    requires Posed(t, resent, k, q, u, v)
    ensures t.node.connected
  {
  }

  // A whole pass that takes n packets, after which the client reads what it was sent.
  lemma Pass(s: Link, labels: seq<LinkLabel>, resent: U32, k: nat, q: nat, v: nat, n: nat, size: nat)
    returns (more: seq<LinkLabel>)
    requires var t := LinkRun(s, labels); Posed(t, resent, k, q, 0, v) && SameClient(s, t)
    requires Sized(s, size) && k + n <= v && k + n < size && q + n <= ORDINARY_SLOTS && 0 < n <= POPS_PER_LOOP
    requires Phase(labels) == 0
    ensures var t := LinkRun(s, more); Posed(t, resent, k + n, q + n - Min(4, q + n), 0, v) && SameClient(s, t)
    ensures Phase(more) == 0
  {
    hide LinkStep, Posed, LinkRun, NodeStep, Sized;
    PosedConnected(LinkRun(s, labels), resent, k, q, 0, v);
    SweepIsNothing(LinkRun(s, labels));
    LinkRunSnoc(s, labels, Inside(Sweep));
    PhaseSnoc(labels, Sweep);
    var taken := TakeMany(s, labels + [Inside(Sweep)], resent, k, q, v, n, size);
    TickLeaves(LinkRun(s, taken), resent, k + n, q + n, v);
    DrainPoses(LinkRun(s, taken), resent, k + n, q + n, v);
    LinkRunSnoc(s, taken, Inside(TickNow(0, YES)));
    PhaseSnoc(taken, TickNow(0, YES));
    var ticked := taken + [Inside(TickNow(0, YES))];
    LinkRunSnoc(s, ticked, Inside(Drain));
    PhaseSnoc(ticked, Drain);
    more := HearMany(s, ticked + [Inside(Drain)], resent, k + n, q + n - Min(4, q + n), Min(4, q + n), v);
  }

  // Chunk by chunk, with a pass for each.
  lemma {:induction false} Lockstep(s: Link, resent: U32, n: nat, size: nat) returns (labels: seq<LinkLabel>)
    requires Posed(s, resent, 0, 0, 0, 0) && Sized(s, size) && n + 1 < size && s.window >= 1
    ensures var t := LinkRun(s, labels); Posed(t, resent, n, 0, 0, n) && SameClient(s, t)
    ensures Phase(labels) == 0
    decreases n
  {
    hide LinkStep, Posed, NodeStep;
    if n == 0 {
      labels := [];
      assert LinkRun(s, []) == s;
    } else {
      var init := Lockstep(s, resent, n - 1, size);
      var fed := FeedMany(s, init, resent, n - 1, 0, n - 1, 1);
      labels := Pass(s, fed, resent, n - 1, 0, n, 1, size);
    }
  }

  lemma LastTaken(t: Link, resent: U32, k: nat, q: nat, v: nat)
    requires Posed(t, resent, k, q, 0, v) && k < v && Completes(Abs(t))
    ensures CompletesPipe(t.node, 0, YES)
  {
    RingHolds(t, resent);
    PoppedIsChunk(t, resent);
    EngineIsInv(t, resent);
    NextChunkHandled(Abs(t), 0, YES);
  }

  lemma NowComplete(t: Link, resent: U32, k: nat, q: nat, u: nat, v: nat)
    requires Posed(t, resent, k, q, u, v) && k < |t.chunks|
    requires |Concat(t.chunks[..k + 1])| == t.node.eng.cfg.fullFrameBytes
    ensures Completes(Abs(t))
  {
    hide Notified, Tidy;
    NextChunkFits(Abs(t), k);
    assert Abs(t).book == BookOf(t.node);
  }

  lemma PosedIsInv(t: Link, resent: U32, k: nat, q: nat, u: nat, v: nat)
    requires Posed(t, resent, k, q, u, v)
    ensures LinkInv(t, resent) && |t.node.tx| == q
  {
  }

  lemma StartIsPosed(s: Link)
    requires LinkStart(s) && s.node.connected && s.node.eng.txn.negotiatedAckEvery == 1
    requires s.node.eng.cfg.transferTimeout <= 0x8000_0000
    ensures Posed(s, s.node.eng.stats.retransmitRequests, 0, 0, 0, 0)
  {
    StartIsTidy(s);
  }

  // A pass that finds eight packets leaves four SACKs waiting; the next one finds eight again.
  lemma FirstPass(s: Link, labels: seq<LinkLabel>, resent: U32, base: nat, size: nat) returns (more: seq<LinkLabel>)
    requires var t := LinkRun(s, labels); Posed(t, resent, base, 0, 0, base) && SameClient(s, t)
    requires Sized(s, size) && base + 16 == size <= |s.chunks| && s.window >= 12 && Phase(labels) == 0
    ensures var t := LinkRun(s, more); Posed(t, resent, base + 8, 4, 0, base + 16) && SameClient(s, t)
    ensures Phase(more) == 0
  {
    hide Posed, LinkStep, LinkRun, NodeStep, Sized, SameClient;
    var fed := FeedMany(s, labels, resent, base, 0, base, 12);
    var passed := Pass(s, fed, resent, base, 0, base + 12, 8, size);
    more := FeedMany(s, passed, resent, base + 8, 4, base + 12, 4);
  }

  // It takes seven of them before the last.
  lemma SecondPass(s: Link, labels: seq<LinkLabel>, resent: U32, base: nat, size: nat) returns (more: seq<LinkLabel>)
    requires var t := LinkRun(s, labels); Posed(t, resent, base + 8, 4, 0, base + 16) && SameClient(s, t)
    requires Sized(s, size) && base + 16 == size && Phase(labels) == 0
    ensures var t := LinkRun(s, more); Posed(t, resent, base + 15, 11, 0, base + 16) && SameClient(s, t)
    ensures Phase(more) == POPS_PER_LOOP
  {
    hide Posed, LinkStep, LinkRun, NodeStep, Sized, SameClient;
    PosedConnected(LinkRun(s, labels), resent, base + 8, 4, 0, base + 16);
    SweepIsNothing(LinkRun(s, labels));
    LinkRunSnoc(s, labels, Inside(Sweep));
    PhaseSnoc(labels, Sweep);
    more := TakeMany(s, labels + [Inside(Sweep)], resent, base + 8, 4, base + 16, 7, size);
  }

  lemma LastOneLoses(s: Link, t: Link, resent: U32, base: nat, size: nat)
    requires Posed(t, resent, base + 15, 11, 0, base + 16) && SameClient(s, t)
    requires Sized(s, size) && base + 16 == size
    ensures LosesEndAck(t.node, 0, YES)
  {
    hide Posed, LosesEndAck;
    NowComplete(t, resent, base + 15, 11, 0, base + 16);
    LastTaken(t, resent, base + 15, 11, base + 16);
    PosedIsInv(t, resent, base + 15, 11, 0, base + 16);
    LostIff(t, resent, 0, YES);
  }

  // With ack_every 1 and a window of at least twelve, for every image of sixteen chunks or more there
  // is a run of whole passes through loop(), each of at most eight packets and four notifications,
  // in which the last chunk is the eighth packet of its pass and its END ACK is lost.
  lemma EndAckCanBeLost(s: Link, size: nat) returns (labels: seq<LinkLabel>)
    requires LinkStart(s) && s.node.connected && s.node.eng.txn.negotiatedAckEvery == 1 && s.window >= 12
    requires Sized(s, size) && size >= 16 && s.node.eng.cfg.transferTimeout <= 0x8000_0000
    ensures Phase(labels) == POPS_PER_LOOP && LosesEndAck(LinkRun(s, labels).node, 0, YES)
  {
    var resent, base := s.node.eng.stats.retransmitRequests, size - 16;
    StartIsPosed(s);
    hide LinkStart, Posed, LinkStep, LinkRun, NodeStep, LosesEndAck, SameClient;
    var l0 := Lockstep(s, resent, base, size);
    var l1 := FirstPass(s, l0, resent, base, size);
    labels := SecondPass(s, l1, resent, base, size);
    LastOneLoses(s, LinkRun(s, labels), resent, base, size);
  }

  // --- And not sooner ---------------------------------------------------------------------------------

  // In a run of whole passes every frame in the ring answers a chunk of its own, and all but the
  // chunks of this pass have seen four frames leave.
  predicate Thinned(packets: nat, waiting: nat, phase: int) {
    && waiting <= packets
    && (phase == 0 && waiting > 0 ==> packets >= waiting + 4)
    && (1 <= phase <= 9 && waiting > phase - 1 ==> packets >= waiting + 4)
  }

  // While chunks are received a step of loop() takes one, or sends four frames, or does nothing.
  lemma StepThins(s: Link, every: nat, resent: U32, labels: seq<LinkLabel>, l: LinkLabel)
    requires LinkInv(s, resent) && Tidy(s, every) && s.node.eng.txn.state == Receiving && s.node.connected
    requires LinkStep(s, l).node.eng.txn.state == Receiving
    requires Thinned(BookOf(s.node).packets, |s.node.tx|, Phase(labels)) && Phase(labels + [l]) >= 0
    ensures var t := LinkStep(s, l);
            t.node.connected && Thinned(BookOf(t.node).packets, |t.node.tx|, Phase(labels + [l]))
  {
    hide LinkInv, Tidy;
    if l.Inside? {
      hide LinkStep;
      PhaseSnoc(labels, l.inner);
      InsideThins(s, every, resent, Phase(labels), l.inner, Phase(labels + [l]));
    } else {
      assert (labels + [l])[..|labels|] == labels;
      if l.Arrive? {
        ArriveLeavesClient(s, l.packet);
      }
    }
  }

  lemma InsideThins(s: Link, every: nat, resent: U32, phase: int, inner: NodeLabel, phase': int)
    requires LinkInv(s, resent) && Tidy(s, every) && s.node.eng.txn.state == Receiving && s.node.connected
    requires LinkStep(s, Inside(inner)).node.eng.txn.state == Receiving
    requires Thinned(BookOf(s.node).packets, |s.node.tx|, phase) && phase' >= 0
    requires phase' == match inner
                       case Sweep => (if phase == 0 then 1 else -1)
                       case PopOne(_, _) => (if 1 <= phase <= POPS_PER_LOOP then phase + 1 else -1)
                       case TickNow(_, _) => (if 1 <= phase <= POPS_PER_LOOP + 1 then 10 else -1)
                       case Drain => (if phase == 10 then 0 else -1)
                       case _ => -1
    ensures var t := LinkStep(s, Inside(inner));
            t.node.connected && Thinned(BookOf(t.node).packets, |t.node.tx|, phase')
  {
    hide LinkInv, Tidy;
    match inner {
      case Sweep => SweepIsNothing(s);
      case PopOne(now, ans) => PopThins(s, every, resent, now, ans);
      case TickNow(now, ans) =>
        EngineIsInv(s, resent);
        TickIsNothing(s.node, now, ans);
      case Drain => DrainSplits(s);
      case _ =>
    }
  }

  lemma PopThins(s: Link, every: nat, resent: U32, now: U32, ans: Answers)
    requires LinkInv(s, resent) && Tidy(s, every) && s.node.eng.txn.state == Receiving
    requires NodeStep(s.node, PopOne(now, ans)).eng.txn.state == Receiving
    ensures var m := NodeStep(s.node, PopOne(now, ans));
            && m.connected == s.node.connected
            && (|| m == s.node
                || (BookOf(m).packets == BookOf(s.node).packets + 1 && |s.node.tx| <= |m.tx| <= |s.node.tx| + 1))
  {
    if s.node.rx != [] {
      StillReceiving(s, resent, now, ans);
      PlainPop(s, resent, every, now, ans);
      hide NodeStep, LinkInv, Tidy;
    }
  }

  lemma {:induction false} RunThins(s: Link, labels: seq<LinkLabel>)
    requires LinkStart(s) && s.node.connected && Phase(labels) >= 0
    requires LinkRun(s, labels).node.eng.txn.state == Receiving
    ensures var t := LinkRun(s, labels);
            t.node.connected && Thinned(BookOf(t.node).packets, |t.node.tx|, Phase(labels))
    decreases |labels|
  {
    hide LinkStep, LinkInv, Tidy;
    if labels == [] {
      hide BookOf;
    } else {
      var init, last := labels[..|labels| - 1], labels[|labels| - 1];
      var every, resent := s.node.eng.txn.negotiatedAckEvery, s.node.eng.stats.retransmitRequests;
      RunKeepsTidy(s, init);
      NotReopened(LinkRun(s, init), resent, last);
      hide LinkStart;
      RunThins(s, init);
      assert init + [last] == labels;
      StepThins(LinkRun(s, init), every, resent, init, last);
    }
  }

  // An END ACK says that the frame is full.
  lemma EndAckMeansFull(t: Link, resent: U32, now: U32, ans: Answers)
    requires LinkInv(t, resent) && t.node.eng.cfg.fullFrameBytes > 0 && CompletesPipe(t.node, now, ans)
    ensures t.node.eng.txn.state == Receiving && Completes(Abs(t))
  {
    hide NetInv, Handle, NetStep;
    EngineIsInv(t, resent);
    PoppedIsChunk(t, resent);
    ChunkComesTo(t, resent, now, ans);
    var e, l, step := t.node.eng, BookOf(t.node), DeliverStep(Abs(t), now, ans);
    EndAckOnlyFromData(e, l, step);
    StoredTail(e, l, step.ev.payload[1..], now, ans);
    FullAfter(t, resent, Handle(e, step), ans);
  }

  lemma FullAfter(t: Link, resent: U32, out: Outcome, ans: Answers)
    requires LinkInv(t, resent) && t.node.rx != [] && ChunkOutcome(t, out, ans, resent)
    requires t.node.eng.txn.state == Receiving && t.node.eng.cfg.fullFrameBytes > 0 && out.eng.txn.state == Refreshing
    ensures Completes(Abs(t))
  {
    ReceivingIsPartial(Abs(t), BookOf(t.node).packets);
    assert Abs(t).book == BookOf(t.node);
    hide PostAll;
  }

  // An image of `size` chunks is complete with that chunk and with no other.
  lemma CompletingIsLast(t: Link, resent: U32, size: nat)
    requires LinkInv(t, resent) && Sized(t, size) && t.node.eng.txn.state == Receiving && Completes(Abs(t))
    ensures BookOf(t.node).packets + 1 == size
  {
    hide Concat, Flight, PipeComponent.Labelled, Notified;
    var n := Abs(t).book.packets;
    ReceivingIsPartial(Abs(t), n);
    NextChunkFits(Abs(t), n);
    if n + 1 < size {
      PrefixShorter(t.chunks, n + 1, size - 1);
    } else if size < n + 1 {
      ReceivingIsPartial(Abs(t), size);
    }
  }

  lemma PrefixShorter(chunks: seq<seq<Byte>>, a: nat, b: nat)
    requires a <= b <= |chunks|
    ensures |Concat(chunks[..a])| <= |Concat(chunks[..b])|
  {
    ConcatPrefix(chunks[..b], a);
    assert chunks[..b][..a] == chunks[..a];
  }

  lemma SizedRun(s: Link, labels: seq<LinkLabel>, size: nat)
    requires LinkStart(s) && Sized(s, size)
    ensures Sized(LinkRun(s, labels), size)
  {
    LinkRunKeepsInv(s, labels);
    LinkKeepsConfig(s, labels);
  }

  // A run of whole passes, up to a moment when loop() may take another packet.
  predicate WholePasses(labels: seq<LinkLabel>) {
    1 <= Phase(labels) <= POPS_PER_LOOP
  }

  lemma SixteenNeeded(s: Link, size: nat, labels: seq<LinkLabel>, now: U32, ans: Answers)
    requires LinkStart(s) && s.node.connected && Sized(s, size)
    requires WholePasses(labels) && LosesEndAck(LinkRun(s, labels).node, now, ans)
    ensures size >= 16
  {
    hide LinkStart, LinkInv, LinkRun, Sized, LosesEndAck, CompletesPipe, BookOf;
    var t, resent := LinkRun(s, labels), s.node.eng.stats.retransmitRequests;
    LinkRunKeepsInv(s, labels);
    SizedRun(s, labels, size);
    SizedIsFull(t, size);
    LostCompletes(t.node, now, ans);
    EndAckMeansFull(t, resent, now, ans);
    CompletingIsLast(t, resent, size);
    LostIff(t, resent, now, ans);
    RunThins(s, labels);
  }

  lemma SizedIsFull(s: Link, size: nat)
    requires Sized(s, size)
    ensures s.node.eng.cfg.fullFrameBytes > 0
  {
  }

  // Exactly then: over whole passes of a connected component an image of `size` chunks can lose its
  // END ACK if and only if every chunk is acknowledged, twelve may be outstanding, and it is
  // sixteen chunks long or longer.
  lemma EndAckLossIff(s: Link, size: nat)
    requires LinkStart(s) && s.node.connected && Sized(s, size)
    requires s.node.eng.cfg.transferTimeout <= 0x8000_0000
    ensures (exists labels, now, ans :: WholePasses(labels) && LosesEndAck(LinkRun(s, labels).node, now, ans))
       <==> s.node.eng.txn.negotiatedAckEvery == 1 && s.window >= 12 && size >= 16
  {
    hide LinkStart, LinkRun, Sized, LosesEndAck;
    SizedIsFull(s, size);
    forall labels, now, ans | WholePasses(labels) && LosesEndAck(LinkRun(s, labels).node, now, ans)
      ensures s.node.eng.txn.negotiatedAckEvery == 1 && s.window >= 12 && size >= 16
    {
      EndAckLostOnlyIf(s, labels, now, ans);
      SixteenNeeded(s, size, labels, now, ans);
    }
    if s.node.eng.txn.negotiatedAckEvery == 1 && s.window >= 12 && size >= 16 {
      var labels := EndAckCanBeLost(s, size);
      assert WholePasses(labels);
    }
  }
}
