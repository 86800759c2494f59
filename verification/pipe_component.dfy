// A PIPE transfer through the whole component: a windowed client, a radio that loses nothing, the
// receive ring, loop() in any order with the callbacks, the engine, and the transmit ring.
module PipeComponent {
  import opened Bytes
  import opened Wire
  import opened EngineModel
  import opened EngineRuns
  import opened EngineTheorems
  import opened PipeProtocol
  import opened Rings
  import opened Component
  import opened ComponentRuns

  // `air` are the chunks sent and not yet written to the characteristic, oldest first. `heard`
  // counts the notifications the client has read; `counts` says for each later one how many chunks
  // had been accepted when it was queued. `refused` counts the writes the receive ring turned away.
  datatype Link = Link(
    chunks: seq<seq<Byte>>, window: nat, acked: set<nat>, next: nat,
    air: seq<nat>, node: GoodNode, heard: nat, counts: seq<nat>, refused: nat)

  datatype LinkLabel =
    | Transmit                    // the client sends its next chunk
    | Arrive(packet: RxPacket)    // the oldest chunk on the radio reaches on_ble_write()
    | Inside(inner: NodeLabel)    // anything in the component but another connection or writer
    | Hear                        // the client reads its next notification

  // The value written to the characteristic for a chunk: opcode, sequence number, data.
  function WireFrame(chunks: seq<seq<Byte>>, index: nat): seq<Byte>
    requires index < |chunks|
  {
    [0x00, 0x81, index % 256] + chunks[index]
  }

  function Unread(s: Link): seq<Response>
    requires s.heard <= |Notified(s.node)|
  {
    Notified(s.node)[s.heard..]
  }

  function Copies(n: nat, k: nat): (r: seq<nat>)
    ensures |r| == k && forall i | 0 <= i < k :: r[i] == n
  {
    seq(k, _ => n)
  }

  predicate MayTransmit(s: Link) {
    s.next < |s.chunks| && |Below(s.next) - s.acked| < s.window
  }

  function Told(s: Link, bytes: Response): set<nat> {
    if IsSack(bytes) then set j | j in Below(s.next) - s.acked && Covers(bytes, j % 256) else {}
  }

  // Labels that are not possible leave the state unchanged, so every label sequence is a run.
  ghost function LinkStep(s: Link, l: LinkLabel): Link {
    match l
    case Transmit => if MayTransmit(s) then s.(next := s.next + 1, air := s.air + [s.next]) else s
    case Arrive(p) =>
      if s.air == [] || s.air[0] >= |s.chunks| then s
      else if !RxAccepts(|s.node.rx|, WireFrame(s.chunks, s.air[0])) then
        s.(air := s.air[1..], refused := s.refused + 1)
      else if p.WellFormed() && p.Data() == WireFrame(s.chunks, s.air[0]) && p.generation == s.node.generation then
        s.(air := s.air[1..], node := NodeStep(s.node, Write(p)))
      else s
    case Inside(inner) =>
      if inner.Connect? || inner.Write? then s
      else
        var m := NodeStep(s.node, inner);
        var more := Max(0, |Notified(m)| - |Notified(s.node)|);
        s.(node := m, counts := s.counts + Copies(BookOf(m).packets, more))
    case Hear =>
      if s.heard < |s.node.air| && s.counts != [] then
        s.(acked := s.acked + Told(s, s.node.air[s.heard]), heard := s.heard + 1, counts := s.counts[1..])
      else s
  }

  ghost function LinkRun(s: Link, labels: seq<LinkLabel>): Link {
    if labels == [] then s else LinkStep(LinkRun(s, labels[..|labels| - 1]), labels[|labels| - 1])
  }

  ghost predicate KeepsToFrame(chunks: seq<seq<Byte>>, limit: nat) {
    forall i | 0 <= i < |chunks| :: |chunks[i]| + PIPE_FRAME_OVERHEAD <= limit
  }

  // A component that has just accepted a PIPE START.
  ghost predicate JustStarted(n: GoodNode) {
    && Inv(n.eng, BookOf(n)) && n.eng.txn.state == Receiving && n.eng.txn.mode == Pipe && n.eng.tail == None
    && BookOf(n).written == [] && BookOf(n).packets == 0
  }

  // Handling an accepted PIPE START is how a component gets there, in every run.
  lemma StartHandled(n: GoodNode, labels: seq<NodeLabel>, now: U32, ans: Answers)
    requires Fresh(n)
    requires var m := NodeRun(n, labels);
             && m.rx != [] && PoppedEvent(m).Some? && PoppedEvent(m).value.PipeStart?
             && Handle(m.eng, Step(PoppedEvent(m).value, now, ans)).res.transferStarted
    ensures JustStarted(NodeStep(NodeRun(n, labels), PopOne(now, ans)))
  {
    hide Handle, NodeStep, NodeRun;
    var m := NodeRun(n, labels);
    NodeInv(n, labels);
    StartPops(m, now, ans);
  }

  lemma StartPops(m: GoodNode, now: U32, ans: Answers)
    requires Inv(m.eng, BookOf(m)) && m.rx != [] && PoppedEvent(m).Some? && PoppedEvent(m).value.PipeStart?
    requires Handle(m.eng, Step(PoppedEvent(m).value, now, ans)).res.transferStarted
    ensures JustStarted(NodeStep(m, PopOne(now, ans)))
  {
    hide Handle;
    var step := Step(PoppedEvent(m).value, now, ans);
    var out := Handle(m.eng, step);
    var k := m.(rx := m.rx[1..], eng := out.eng, log := m.log + out.calls);
    StepKeepsInv(m.eng, BookOf(m), step);
    AcceptedRestart(m.eng, BookOf(m), step);
    InvWithoutTail(out.eng, PostAll(BookOf(m), m.eng.cfg.fullFrameBytes, out.calls));
    LedgerConcat(m.eng.cfg.fullFrameBytes, m.log, out.calls);
    AppliedTakesTail(k, out.res);
    assert NodeStep(m, PopOne(now, ans)) == Applied(k, out.res);
  }

  // The client has read the answer to its START, so nothing is on its way in either direction. It
  // keeps to the window, the frame size and the image size that were agreed.
  ghost predicate LinkStart(s: Link) {
    && JustStarted(s.node) && s.node.rx == [] && s.node.tx == [] && s.heard == |s.node.air| && s.counts == []
    && s.acked == {} && s.next == 0 && s.air == [] && s.refused == 0
    && s.window == s.node.eng.txn.negotiatedWindow && KeepsToFrame(s.chunks, s.node.eng.txn.negotiatedFrame)
    && |s.chunks| < TWO_TO_32 && |Concat(s.chunks)| == s.node.eng.cfg.fullFrameBytes
  }

  // A client that has read everything the component has sent, and begins.
  function Begins(n: GoodNode, chunks: seq<seq<Byte>>): Link {
    Link(chunks, n.eng.txn.negotiatedWindow, {}, 0, [], n, |n.air|, [], 0)
  }

  function Drains(k: nat): (r: seq<NodeLabel>)
    ensures |r| == k && forall i | 0 <= i < k :: r[i] == Drain
  {
    seq(k, _ => Drain)
  }

  // The first i frames of the transmit ring notified.
  function Drained(n: GoodNode, i: nat): GoodNode
    requires i <= |n.tx|
  {
    n.(tx := n.tx[i..], air := n.air + Frames(n.tx[..i]))
  }

  lemma FramesJoin(q: seq<TxItem>, i: nat, j: nat)
    requires i <= j <= |q|
    ensures Frames(q[..i]) + Frames(q[i..j]) == Frames(q[..j])
  {
  }

  lemma DrainedFurther(n: GoodNode, i: nat)
    requires n.connected && i <= |n.tx|
    ensures NodeStep(Drained(n, i), Drain) == Drained(n, Min(i + NOTIFICATIONS_PER_LOOP, |n.tx|))
  {
    var j := Min(i + NOTIFICATIONS_PER_LOOP, |n.tx|);
    assert n.tx[i..][j - i..] == n.tx[j..] && n.tx[i..][..j - i] == n.tx[i..j];
    FramesJoin(n.tx, i, j);
    assert n.air + Frames(n.tx[..i]) + Frames(n.tx[i..j]) == n.air + (Frames(n.tx[..i]) + Frames(n.tx[i..j]));
  }

  lemma NothingDrained(n: GoodNode)
    ensures Drained(n, 0) == n
  {
    assert n.tx[0..] == n.tx && n.air + Frames(n.tx[..0]) == n.air;
  }

  lemma OneMoreDrain(n: GoodNode, k: nat)
    ensures NodeRun(n, Drains(0)) == n
    ensures k > 0 ==> NodeRun(n, Drains(k)) == NodeStep(NodeRun(n, Drains(k - 1)), Drain)
  {
    hide NodeStep;
    assert Drains(0) == [];
    NoSteps(n);
    if k > 0 {
      assert Drains(k) == Drains(k - 1) + [Drain];
      NodeRunSnoc(n, Drains(k - 1), Drain);
    }
  }

  lemma {:induction false} DrainsSend(n: GoodNode, k: nat)
    requires n.connected
    ensures NodeRun(n, Drains(k)) == Drained(n, Min(NOTIFICATIONS_PER_LOOP * k, |n.tx|))
    decreases k
  {
    hide NodeRun, NodeStep, Drains, Drained;
    OneMoreDrain(n, k);
    if k == 0 {
      NothingDrained(n);
    } else {
      DrainsSend(n, k - 1);
      DrainedFurther(n, Min(NOTIFICATIONS_PER_LOOP * (k - 1), |n.tx|));
    }
  }

  // The START is handled, its answer queued and notified: the client that waited for it begins.
  lemma StartAnswered(n: GoodNode, labels: seq<NodeLabel>, now: U32, ans: Answers, k: nat, chunks: seq<seq<Byte>>)
    requires Fresh(n)
    requires var m := NodeRun(n, labels);
             && m.connected && |m.rx| == 1 && PoppedEvent(m).Some? && PoppedEvent(m).value.PipeStart?
             && Handle(m.eng, Step(PoppedEvent(m).value, now, ans)).res.transferStarted
    requires var s := NodeStep(NodeRun(n, labels), PopOne(now, ans));
             && |s.tx| <= NOTIFICATIONS_PER_LOOP * k
             && KeepsToFrame(chunks, s.eng.txn.negotiatedFrame) && |chunks| < TWO_TO_32
             && |Concat(chunks)| == s.eng.cfg.fullFrameBytes
    ensures LinkStart(Begins(NodeRun(NodeStep(NodeRun(n, labels), PopOne(now, ans)), Drains(k)), chunks))
  {
    hide Handle, NodeRun;
    var m := NodeRun(n, labels);
    var s := NodeStep(m, PopOne(now, ans));
    StartHandled(n, labels, now, ans);
    PopLeaves(m, now, ans);
    DrainsSend(s, k);
    hide NodeStep;
    assert s.tx[|s.tx|..] == [] && s.tx[..|s.tx|] == s.tx;
  }

  lemma PopLeaves(m: GoodNode, now: U32, ans: Answers)
    requires |m.rx| == 1
    ensures var s := NodeStep(m, PopOne(now, ans)); s.rx == [] && s.connected == m.connected
  {
    hide Handle, Applied;
    DispatchLeaves(m.(rx := m.rx[1..]), m.rx[0], now, ans);
  }

  lemma DispatchLeaves(n: Node, p: RxPacket, now: U32, ans: Answers)
    requires p.WellFormed()
    ensures Dispatch(n, p, now, ans).rx == n.rx && Dispatch(n, p, now, ans).connected == n.connected
  {
    hide Handle, Applied;
    if p.length >= 2 && EventOf(p).Some? {
      var out := Handle(n.eng, Step(EventOf(p).value, now, ans));
      AppliedTakesTail(n.(eng := out.eng, log := n.log + out.calls), out.res);
    }
  }

  // --- The link as a net ------------------------------------------------------------------------

  // How many chunks have been taken out of the receive ring.
  function Taken(s: Link): int {
    s.next - |s.air| - |s.node.rx|
  }

  // In order: the chunks in the ring follow those taken out, and those on the radio follow the ring.
  ghost predicate InLine(s: Link) {
    && 0 <= Taken(s) && s.next <= |s.chunks|
    && (forall k | 0 <= k < |s.air| :: s.air[k] == s.next - |s.air| + k)
    && (forall k | 0 <= k < |s.node.rx| ::
          s.node.rx[k].generation == s.node.generation
          && s.node.rx[k].Data() == WireFrame(s.chunks, Taken(s) + k))
  }

  function Flight(taken: nat, next: nat): (f: seq<Msg>)
    requires taken <= next
    ensures |f| == next - taken && forall i | 0 <= i < |f| :: f[i] == Msg(taken + i, taken + i + 1)
  {
    seq(next - taken, i requires 0 <= i => Msg(taken + i, taken + i + 1))
  }

  function Labelled(frames: seq<Response>, counts: seq<nat>): (q: seq<Notice>)
    requires |frames| == |counts|
    ensures |q| == |frames| && forall i | 0 <= i < |q| :: q[i] == Notice(frames[i], counts[i])
  {
    seq(|frames|, i requires 0 <= i < |frames| => Notice(frames[i], counts[i]))
  }

  ghost predicate Matched(s: Link) {
    s.heard <= |s.node.air| && |s.counts| == |Notified(s.node)| - s.heard
  }

  // What the protocol theorems see of the link.
  ghost function Abs(s: Link): Net
    requires InLine(s) && Matched(s)
  {
    Net(s.chunks, s.window, s.acked, s.next, Flight(Taken(s), s.next), Labelled(Unread(s), s.counts),
        s.node.eng, BookOf(s.node))
  }

  ghost predicate LinkInv(s: Link, resent: U32) {
    && InLine(s) && Matched(s) && NetInv(Abs(s))
    && |s.acked| <= BookOf(s.node).packets <= Taken(s)
    && (s.node.eng.txn.state == Receiving ==> Taken(s) == BookOf(s.node).packets)
    && (forall k | 0 <= k < |s.counts| :: IsSack(Unread(s)[k]) ==> s.counts[k] >= 1)
    && s.window <= 16 && KeepsToFrame(s.chunks, PIPE_MAX_FRAME)
    && s.refused == 0 && s.node.eng.stats.retransmitRequests == resent
  }

  lemma StartIsLinkInv(s: Link)
    requires LinkStart(s)
    ensures LinkInv(s, s.node.eng.stats.retransmitRequests)
  {
    assert s.chunks[..0] == [];
    assert Notified(s.node) == s.node.air;
  }

  // --- The client's steps -------------------------------------------------------------------------

  lemma TransmitIsSend(s: Link)
    requires InLine(s) && Matched(s) && MayTransmit(s)
    ensures InLine(LinkStep(s, Transmit)) && Matched(LinkStep(s, Transmit))
    ensures Abs(LinkStep(s, Transmit)) == NetStep(Abs(s), SendNew)
  {
    hide Notified, DeviceStep, BookOf, Flight, Labelled, Unread, WireFrame;
    assert Outstanding(Abs(s)) == Below(s.next) - s.acked;
    TransmitShape(s);
    FlightSnoc(Taken(s), s.next);
  }

  lemma FlightSnoc(taken: nat, next: nat)
    requires taken <= next
    ensures Flight(taken, next + 1) == Flight(taken, next) + [Msg(next, next + 1)]
  {
  }

  lemma TransmitShape(s: Link)
    requires InLine(s) && Matched(s) && MayTransmit(s)
    ensures var t := LinkStep(s, Transmit);
            && InLine(t) && Matched(t) && Taken(t) == Taken(s) && Unread(t) == Unread(s)
            && t == s.(next := s.next + 1, air := s.air + [s.next])
  {
    hide Notified, BookOf, WireFrame, Told, NodeStep, Frames, RxAccepts;
  }

  lemma TransmitKeepsInv(s: Link, resent: U32)
    requires LinkInv(s, resent)
    ensures LinkInv(LinkStep(s, Transmit), resent)
  {
    hide NetInv, NetStep, Notified;
    if MayTransmit(s) {
      SendKeepsInv(Abs(s));
      TransmitIsSend(s);
    }
  }

  lemma HearIsReceive(s: Link)
    requires InLine(s) && Matched(s) && s.heard < |s.node.air|
    ensures InLine(LinkStep(s, Hear)) && Matched(LinkStep(s, Hear))
    ensures Abs(LinkStep(s, Hear)) == NetStep(Abs(s), Receive)
    ensures forall k | 0 <= k < |s.counts| - 1 :: Unread(LinkStep(s, Hear))[k] == Unread(s)[k + 1]
  {
    TellsTheSame(s, Unread(s)[0]);
    hide DeviceStep, BookOf, Told, Learned, Flight, Frames;
    var t := LinkStep(s, Hear);
    assert Unread(s)[0] == s.node.air[s.heard];
    assert Unread(t) == Unread(s)[1..];
    assert Labelled(Unread(t), t.counts) == Labelled(Unread(s), s.counts)[1..];
  }

  lemma TellsTheSame(s: Link, bytes: Response)
    requires InLine(s) && Matched(s)
    ensures Told(s, bytes) == Learned(Abs(s), bytes)
  {
    hide Covers, IsSack, Notified, BookOf, Flight, Labelled;
    assert Outstanding(Abs(s)) == Below(s.next) - s.acked;
  }

  lemma HearKeepsInv(s: Link, resent: U32)
    requires LinkInv(s, resent)
    ensures LinkInv(LinkStep(s, Hear), resent)
  {
    hide NetInv, NetStep, Notified;
    if s.heard < |s.node.air| && s.counts != [] {
      ReceiveKeepsInv(Abs(s));
      HearIsReceive(s);
      HeardAtMost(Abs(s));
    }
  }

  // A SACK is never ahead of the device, and none made before the first chunk is on its way.
  lemma HeardAtMost(n: Net)
    requires NetInv(n) && n.back != [] && |n.acked| <= n.book.packets
    requires IsSack(n.back[0].bytes) ==> n.back[0].count >= 1
    ensures |NetStep(n, Receive).acked| <= n.book.packets
  {
    var r := n.back[0];
    ReceiveBelieves(n);
    if IsSack(r.bytes) {
      LearnedPrefix(n, r.count);
    } else {
      assert n.acked + Learned(n, r.bytes) == n.acked;
    }
    hide NetStep, Learned, SackAfter;
  }

  // --- The radio and the ring -------------------------------------------------------------------------

  // What the client has sent and the component has not taken is at most a window.
  lemma WithinWindow(s: Link, resent: U32)
    requires LinkInv(s, resent)
    ensures |s.air| + |s.node.rx| <= s.window <= 16
  {
  }

  lemma ArriveIsNothing(s: Link, p: RxPacket)
    requires InLine(s) && Matched(s) && s.air != [] && RxAccepts(|s.node.rx|, WireFrame(s.chunks, s.air[0]))
    ensures var t := LinkStep(s, Arrive(p));
            && InLine(t) && Matched(t) && Abs(t) == Abs(s) && Taken(t) == Taken(s) && t.refused == s.refused
            && t.node == s.node.(rx := t.node.rx)
  {
    hide NetInv;
    var t := LinkStep(s, Arrive(p));
    assert t.node == s.node.(rx := t.node.rx);
  }

  lemma ArriveKeepsInv(s: Link, resent: U32, p: RxPacket)
    requires LinkInv(s, resent)
    ensures LinkInv(LinkStep(s, Arrive(p)), resent)
  {
    if s.air != [] {
      WithinWindow(s, resent);
      assert RxAccepts(|s.node.rx|, WireFrame(s.chunks, s.air[0]));
      hide NetInv, LinkStep;
      ArriveIsNothing(s, p);
    }
  }

  // --- The component's steps ----------------------------------------------------------------------------

  // The new frames are SACKs for the chunks accepted by then, or no SACKs at all.
  ghost predicate Extends(n: Node, m: Node, packets: nat) {
    && Notified(n) <= Notified(m)
    && forall k | |Notified(n)| <= k < |Notified(m)| ::
         IsSack(Notified(m)[k]) ==> Notified(m)[k] == SackAfter(packets) && packets >= 1
  }

  // The unread notifications, with new ones behind them.
  lemma UnreadGrows(s: Link, m: GoodNode, packets: nat)
    requires Matched(s) && Extends(s.node, m, packets) && |s.node.air| <= |m.air|
    ensures var counts := s.counts + Copies(packets, |Notified(m)| - |Notified(s.node)|);
            var t := s.(node := m, counts := counts);
            && Matched(t) && |Unread(t)| == |counts|
            && (forall k | 0 <= k < |s.counts| :: Unread(t)[k] == Unread(s)[k] && counts[k] == s.counts[k])
            && (forall k | |s.counts| <= k < |counts| ::
                  && counts[k] == packets
                  && (IsSack(Unread(t)[k]) ==> Unread(t)[k] == SackAfter(packets) && packets >= 1))
  {
    hide SackAfter, IsSack;
    var counts := s.counts + Copies(packets, |Notified(m)| - |Notified(s.node)|);
    var t := s.(node := m, counts := counts);
    forall k | 0 <= k < |counts|
      ensures Unread(t)[k] == Notified(m)[s.heard + k]
      ensures k < |s.counts| ==> Unread(s)[k] == Notified(s.node)[s.heard + k]
    {
    }
  }

  lemma BackExtends(q: seq<Notice>, r: seq<Notice>, believed: nat, accepted: nat, packets: nat)
    requires BackFits(q, believed, accepted) && accepted <= packets && believed <= Max(packets, 1) && |q| <= |r|
    requires forall k | 0 <= k < |q| :: r[k] == q[k]
    requires forall k | |q| <= k < |r| ::
               r[k].count == packets && (IsSack(r[k].bytes) ==> r[k].bytes == SackAfter(packets))
    ensures BackFits(r, believed, packets)
  {
    hide SackAfter, IsSack;
  }

  lemma ExtendedNet(s: Link, m: GoodNode, packets: nat)
    requires InLine(s) && Matched(s) && BackFits(Abs(s).back, |s.acked|, BookOf(s.node).packets)
    requires Extends(s.node, m, packets) && BookOf(s.node).packets <= packets && |s.acked| <= Max(packets, 1)
    requires |s.node.air| <= |m.air|
    ensures var counts := s.counts + Copies(packets, |Notified(m)| - |Notified(s.node)|);
            var t := s.(node := m, counts := counts);
            && Matched(t) && BackFits(Labelled(Unread(t), counts), |s.acked|, packets)
            && ((forall k | 0 <= k < |s.counts| :: IsSack(Unread(s)[k]) ==> s.counts[k] >= 1) ==>
                  forall k | 0 <= k < |counts| :: IsSack(Unread(t)[k]) ==> counts[k] >= 1)
  {
    UnreadGrows(s, m, packets);
    var counts := s.counts + Copies(packets, |Notified(m)| - |Notified(s.node)|);
    var t := s.(node := m, counts := counts);
    BackExtends(Abs(s).back, Labelled(Unread(t), counts), |s.acked|, BookOf(s.node).packets, packets);
    hide BookOf, SackAfter, IsSack, Flight, InLine, BackFits, Extends, Unread, Copies;
  }

  lemma SentFrames(n: Node, r: Response, terminal: bool)
    ensures Send(n, r, terminal).air == n.air
    ensures Notified(Send(n, r, terminal)) == Notified(n) || Notified(Send(n, r, terminal)) == Notified(n) + [r]
  {
    assert Send(n, r, terminal).tx == n.tx || Frames(Send(n, r, terminal).tx) == Frames(n.tx) + [r];
  }

  lemma SendExtends(n: Node, m: Node, r: Response, terminal: bool, packets: nat)
    requires Extends(n, m, packets) && (IsSack(r) ==> r == SackAfter(packets) && packets >= 1)
    ensures Extends(n, Send(m, r, terminal), packets)
  {
    SentFrames(m, r, terminal);
  }

  lemma AppliedExtends(n: Node, res: Result, packets: nat)
    requires n.eng.tail.Some? ==> n.eng.tail.value == SackAfter(packets) && packets >= 1
    requires IsSack(res.response) ==> res.response == SackAfter(packets) && packets >= 1
    ensures Extends(n, Applied(n, res), packets) && Applied(n, res).air == n.air
  {
    hide Send;
    var a := if n.eng.tail.Some? then Send(n.(eng := n.eng.(tail := None)), n.eng.tail.value, true) else n;
    if n.eng.tail.Some? {
      var k := n.(eng := n.eng.(tail := None));
      assert Extends(n, k, packets);
      SentFrames(k, n.eng.tail.value, true);
      SendExtends(n, k, n.eng.tail.value, true, packets);
    }
    assert Extends(n, a, packets) && a.air == n.air;
    SendExtends(n, a, res.response, IsTerminal(res), packets);
    SentFrames(a, res.response, IsTerminal(res));
    var b := if res.response != [] then Send(a, res.response, IsTerminal(res)) else a;
    SendExtends(n, b, EncodeAck(RESP_REFRESH_SUCCESS), true, packets);
    SentFrames(b, EncodeAck(RESP_REFRESH_SUCCESS), true);
    var c := if res.refreshComplete then Send(b, EncodeAck(RESP_REFRESH_SUCCESS), true) else b;
    SendExtends(n, c, EncodeAck(RESP_REFRESH_TIMEOUT), true, packets);
    SentFrames(c, EncodeAck(RESP_REFRESH_TIMEOUT), true);
  }

  // An engine event that is neither a START nor a chunk, seen from the net.
  lemma ElsewhereKeepsNet(n: Net, step: Step, back: seq<Notice>)
    requires NetInv(n) && !IsStart(step.ev) && !step.ev.PipeData? && BackFits(back, |n.acked|, n.book.packets)
    ensures var out := Handle(n.eng, step); var book := PostAll(n.book, n.eng.cfg.fullFrameBytes, out.calls);
            NetInv(n.(eng := out.eng.(tail := None), book := book, back := back)) && book.packets == n.book.packets
  {
    var out := Handle(n.eng, step);
    StepKeepsInv(n.eng, n.book, step);
    ElsewhereReports(n.eng, n.book, step);
  }

  lemma ElsewhereCalm(e: Engine, step: Step)
    requires (step.ev.TickAt? || step.ev.UserAbort? || step.ev.Disconnect?) && e.tail == None
    ensures var out := Handle(e, step);
            && out.eng.stats.retransmitRequests == e.stats.retransmitRequests
            && (out.eng.txn.state == Receiving ==> e.txn.state == Receiving)
            && out.res.response == [] && out.eng.tail == None
  {
  }

  // What such an event does to the component: engine and log, and frames that are no SACKs.
  ghost predicate Stirred(n: Node, m: Node, step: Step) {
    var out := Handle(n.eng, step);
    && m.eng == out.eng.(tail := None) && m.log == n.log + out.calls
    && m.rx == n.rx && m.generation == n.generation && m.air == n.air
    && Extends(n, m, 0)
  }

  lemma StirredBook(n: GoodNode, m: GoodNode, step: Step)
    requires Stirred(n, m, step) && Inv(n.eng, BookOf(n))
    ensures BookOf(m) == PostAll(BookOf(n), n.eng.cfg.fullFrameBytes, Handle(n.eng, step).calls)
  {
    StepKeepsInv(n.eng, BookOf(n), step);
    LedgerConcat(n.eng.cfg.fullFrameBytes, n.log, Handle(n.eng, step).calls);
  }

  lemma BackOf(s: Link, resent: U32)
    requires LinkInv(s, resent)
    ensures BackFits(Abs(s).back, |s.acked|, BookOf(s.node).packets) && Inv(s.node.eng, BookOf(s.node))
    ensures s.node.eng.tail == None && |s.acked| <= Max(BookOf(s.node).packets, 1)
  {
  }

  // The link after its component became m.
  ghost function Became(s: Link, m: GoodNode): Link
    requires |Notified(s.node)| <= |Notified(m)|
  {
    s.(node := m, counts := s.counts + Copies(BookOf(m).packets, |Notified(m)| - |Notified(s.node)|))
  }

  lemma StirShape(s: Link, m: GoodNode)
    requires InLine(s) && Matched(s) && |Notified(s.node)| <= |Notified(m)|
    requires m.rx == s.node.rx && m.generation == s.node.generation && m.air == s.node.air
    ensures var t := Became(s, m);
            && InLine(t) && Matched(t) && Taken(t) == Taken(s)
            && Abs(t) == Abs(s).(eng := m.eng, book := BookOf(m), back := Labelled(Unread(t), t.counts))
  {
    hide Notified, BookOf, Flight;
  }

  lemma StirKeepsNet(s: Link, resent: U32, m: GoodNode, step: Step)
    requires LinkInv(s, resent) && Stirred(s.node, m, step)
    requires step.ev.TickAt? || step.ev.UserAbort? || step.ev.Disconnect?
    ensures var t := Became(s, m);
            && Matched(t) && BookOf(m).packets == BookOf(s.node).packets
            && NetInv(Abs(s).(eng := m.eng, book := BookOf(m), back := Labelled(Unread(t), t.counts)))
            && forall k | 0 <= k < |t.counts| :: IsSack(Unread(t)[k]) ==> t.counts[k] >= 1
  {
    hide Handle, NetStep, NetInv, Labelled, Flight, Notified, BookOf;
    BackOf(s, resent);
    StirredBook(s.node, m, step);
    var packets := BookOf(s.node).packets;
    ElsewhereKeepsNet(Abs(s), step, Abs(s).back);
    assert Extends(s.node, m, packets);
    ExtendedNet(s, m, packets);
    hide Extends, BackFits, Unread, Copies, InLine;
    ElsewhereKeepsNet(Abs(s), step, Labelled(Unread(Became(s, m)), Became(s, m).counts));
  }

  lemma StirringKeepsInv(s: Link, resent: U32, m: GoodNode, step: Step)
    requires LinkInv(s, resent) && Stirred(s.node, m, step)
    requires step.ev.TickAt? || step.ev.UserAbort? || step.ev.Disconnect?
    ensures LinkInv(Became(s, m), resent)
  {
    StirKeepsNet(s, resent, m, step);
    StirShape(s, m);
    BackOf(s, resent);
    ElsewhereCalm(s.node.eng, step);
    hide Handle, NetInv, Labelled, Flight, Notified, BookOf, Extends;
  }

  lemma TickStirs(n: GoodNode, now: U32, ans: Answers)
    requires n.eng.tail == None
    ensures Stirred(n, NodeStep(n, TickNow(now, ans)), Step(TickAt, now, ans))
  {
    hide Handle;
    var step := Step(TickAt, now, ans);
    var out := Handle(n.eng, step);
    ElsewhereCalm(n.eng, step);
    var k := n.(eng := out.eng, log := n.log + out.calls);
    AppliedExtends(k, out.res, 0);
    AppliedTakesTail(k, out.res);
    assert Notified(k) == Notified(n);
  }

  lemma AbortStirs(n: GoodNode)
    requires n.eng.tail == None
    ensures Stirred(n, NodeStep(n, AbortByUser), Quietly(UserAbort))
  {
  }

  lemma SweepStirs(n: GoodNode)
    requires n.eng.tail == None && !n.connected
    ensures Stirred(n, NodeStep(n, Sweep), Quietly(Disconnect(n.generation)))
  {
  }

  // Steps that leave engine, ring and the order of the notifications alone.
  lemma AsideKeepsInv(s: Link, resent: U32, m: GoodNode)
    requires LinkInv(s, resent) && m.eng == s.node.eng && m.log == s.node.log && m.rx == s.node.rx
    requires m.generation == s.node.generation && Notified(m) == Notified(s.node) && |s.node.air| <= |m.air|
    ensures LinkInv(Became(s, m), resent)
  {
    hide NetInv;
    var t := Became(s, m);
    assert t.counts == s.counts;
    assert Abs(t) == Abs(s);
  }

  // --- A chunk out of the ring ---------------------------------------------------------------------

  lemma PoppedIsChunk(s: Link, resent: U32)
    requires LinkInv(s, resent) && s.node.rx != []
    ensures Taken(s) < |s.chunks| && Abs(s).flight != [] && Abs(s).flight[0].index == Taken(s)
    ensures PoppedEvent(s.node) == Some(PipeData(ChunkFrame(Abs(s), Taken(s))))
  {
    hide NetInv;
    var p, f := s.node.rx[0], WireFrame(s.chunks, Taken(s));
    assert p.Data() == f;
    assert p.payload[0] == f[0] && p.payload[1] == f[1];
    assert f[2..] == ChunkFrame(Abs(s), Taken(s));
  }

  // One chunk handled, seen from the node.
  ghost predicate Digested(s: Link, m: GoodNode, out: Outcome)
    requires s.node.rx != []
  {
    && m.eng == out.eng.(tail := None) && m.log == s.node.log + out.calls
    && m.rx == s.node.rx[1..] && m.generation == s.node.generation && m.air == s.node.air
    && Extends(s.node, m, BookOf(m).packets)
  }

  // What handling the next chunk comes to.
  ghost predicate ChunkOutcome(s: Link, out: Outcome, ans: Answers, resent: U32)
    requires InLine(s) && Matched(s) && s.node.rx != []
  {
    var n := BookOf(s.node).packets;
    var book := PostAll(BookOf(s.node), s.node.eng.cfg.fullFrameBytes, out.calls);
    var taken := s.node.eng.txn.state == Receiving && ans.write;
    && book.packets == n + (if taken then 1 else 0)
    && (taken ==> n == Taken(s) < |s.chunks|)
    && book.written == BookOf(s.node).written + (if taken then s.chunks[n] else [])
    && (out.eng.tail.Some? ==> out.eng.tail.value == SackAfter(book.packets) && book.packets >= 1)
    && (IsSack(out.res.response) ==> out.res.response == SackAfter(book.packets) && book.packets >= 1)
    && Inv(out.eng, book) && out.eng.cfg == s.node.eng.cfg
    && (out.eng.txn.state == Receiving ==> taken && out.eng.txn.mode == Pipe)
    && out.eng.stats.retransmitRequests == resent
  }

  lemma TakenKeepsStats(s: Net, now: U32, ans: Answers)
    requires NetInv(s) && s.flight != [] && s.eng.txn.state == Receiving && ans.write
    requires s.flight[0].index == s.book.packets < |s.chunks|
    ensures Handle(s.eng, DeliverStep(s, now, ans)).eng.stats.retransmitRequests == s.eng.stats.retransmitRequests
  {
    var n := s.book.packets;
    var payload := ChunkFrame(s, n);
    assert payload[0] == s.eng.txn.nextPipeSequence && payload[1..] == s.chunks[n];
    NextChunkFits(s, n);
    NoShortfall(s.eng.txn.expectedFrameBytes, s.eng.txn.acceptedBytes);
    StoreTaken(s.eng, s.book, s.eng.txn.nextPipeSequence, s.chunks[n], now, ans);
    AckOrFinishKeepsStats(AcceptChunk(s.eng, s.eng.txn.nextPipeSequence, s.chunks[n], now), now, ans);
  }

  lemma AckOrFinishKeepsStats(a: Engine, now: U32, ans: Answers)
    ensures AckOrFinish(a, now, ans).eng.stats.retransmitRequests == a.stats.retransmitRequests
  {
  }

  lemma ChunkComesTo(s: Link, resent: U32, now: U32, ans: Answers)
    requires LinkInv(s, resent) && s.node.rx != []
    ensures var n := Abs(s);
            n.flight != [] && n.flight[0].index < |n.chunks|
            && ChunkOutcome(s, Handle(s.node.eng, DeliverStep(n, now, ans)), ans, resent)
  {
    hide Handle, NetStep;
    var n := Abs(s);
    PoppedIsChunk(s, resent);
    ChunkDelivers(n, now, ans);
    StepKeepsInv(n.eng, n.book, DeliverStep(n, now, ans));
    if s.node.eng.txn.state == Receiving && ans.write {
      TakenKeepsStats(n, now, ans);
    } else {
      UntakenWithoutSack(n, now, ans);
    }
  }

  lemma PopDigests(s: Link, resent: U32, now: U32, ans: Answers)
    requires LinkInv(s, resent) && s.node.rx != []
    ensures var n := Abs(s);
            n.flight != [] && n.flight[0].index < |n.chunks|
            && Digested(s, NodeStep(s.node, PopOne(now, ans)), Handle(s.node.eng, DeliverStep(n, now, ans)))
  {
    hide Handle, NetStep, NetInv;
    PoppedIsChunk(s, resent);
    ChunkComesTo(s, resent, now, ans);
    var step := DeliverStep(Abs(s), now, ans);
    var out := Handle(s.node.eng, step);
    var k := s.node.(rx := s.node.rx[1..], eng := out.eng, log := s.node.log + out.calls);
    LedgerConcat(s.node.eng.cfg.fullFrameBytes, s.node.log, out.calls);
    AppliedExtends(k, out.res, BookOf(k).packets);
    AppliedTakesTail(k, out.res);
    assert Notified(k) == Notified(s.node);
    assert NodeStep(s.node, PopOne(now, ans)) == Applied(k, out.res);
  }

  lemma DigestShape(s: Link, m: GoodNode)
    requires InLine(s) && Matched(s) && s.node.rx != [] && |Notified(s.node)| <= |Notified(m)|
    requires m.rx == s.node.rx[1..] && m.generation == s.node.generation && m.air == s.node.air
    ensures var t := Became(s, m);
            && InLine(t) && Matched(t) && Taken(t) == Taken(s) + 1
            && Abs(t) == Abs(s).(eng := m.eng, book := BookOf(m), back := Labelled(Unread(t), t.counts),
                                 flight := Abs(s).flight[1..])
  {
    hide Notified, BookOf;
    var t := Became(s, m);
    assert Taken(t) == Taken(s) + 1;
    assert Flight(Taken(t), s.next) == Flight(Taken(s), s.next)[1..];
  }

  lemma DigestKeepsNet(s: Link, resent: U32, m: GoodNode, out: Outcome, ans: Answers)
    requires LinkInv(s, resent) && s.node.rx != [] && Digested(s, m, out) && ChunkOutcome(s, out, ans, resent)
    ensures var t := Became(s, m);
            && BookOf(m) == PostAll(BookOf(s.node), s.node.eng.cfg.fullFrameBytes, out.calls)
            && NetInv(Abs(s).(eng := m.eng, book := BookOf(m), back := Labelled(Unread(t), t.counts),
                              flight := Abs(s).flight[1..]))
            && forall k | 0 <= k < |t.counts| :: IsSack(Unread(t)[k]) ==> t.counts[k] >= 1
  {
    LedgerConcat(s.node.eng.cfg.fullFrameBytes, s.node.log, out.calls);
    assert BookOf(m) == PostAll(BookOf(s.node), s.node.eng.cfg.fullFrameBytes, out.calls);
    hide Notified, BookOf, PostAll;
    var t := Became(s, m);
    PoppedIsChunk(s, resent);
    ExtendedNet(s, m, BookOf(m).packets);
    DealtWithKeepsInv(Abs(s), m.eng, BookOf(m), Labelled(Unread(t), t.counts),
                      s.node.eng.txn.state == Receiving && ans.write);
  }

  lemma DigestKeepsInv(s: Link, resent: U32, m: GoodNode, out: Outcome, ans: Answers)
    requires LinkInv(s, resent) && s.node.rx != [] && Digested(s, m, out) && ChunkOutcome(s, out, ans, resent)
    ensures LinkInv(Became(s, m), resent)
  {
    DigestKeepsNet(s, resent, m, out, ans);
    DigestShape(s, m);
    hide Notified, BookOf, NetStep, NetInv, Labelled, Flight;
  }

  // --- Every run -----------------------------------------------------------------------------------

  lemma InsideBecomes(s: Link, inner: NodeLabel)
    requires !inner.Connect? && !inner.Write?
    ensures Notified(s.node) <= Notified(NodeStep(s.node, inner))
    ensures LinkStep(s, Inside(inner)) == Became(s, NodeStep(s.node, inner))
  {
    StepAppends(s.node, inner);
    hide NodeStep, Notified, BookOf;
  }

  lemma AsideStep(s: Link, resent: U32, inner: NodeLabel)
    requires LinkInv(s, resent)
    requires inner.Drain? || inner.Hangup? || (inner.PopOne? && s.node.rx == []) || (inner.Sweep? && s.node.connected)
    ensures LinkInv(Became(s, NodeStep(s.node, inner)), resent)
  {
    DrainKeepsOrder(s.node);
    AsideKeepsInv(s, resent, NodeStep(s.node, inner));
  }

  lemma PopStep(s: Link, resent: U32, now: U32, ans: Answers)
    requires LinkInv(s, resent) && s.node.rx != []
    ensures |Notified(s.node)| <= |Notified(NodeStep(s.node, PopOne(now, ans)))|
    ensures LinkInv(Became(s, NodeStep(s.node, PopOne(now, ans))), resent)
  {
    hide NetInv, Handle, NodeStep;
    StepAppends(s.node, PopOne(now, ans));
    ChunkComesTo(s, resent, now, ans);
    PopDigests(s, resent, now, ans);
    DigestKeepsInv(s, resent, NodeStep(s.node, PopOne(now, ans)),
                   Handle(s.node.eng, DeliverStep(Abs(s), now, ans)), ans);
  }

  lemma InsideKeepsInv(s: Link, resent: U32, inner: NodeLabel)
    requires LinkInv(s, resent) && !inner.Connect? && !inner.Write?
    ensures Notified(s.node) <= Notified(NodeStep(s.node, inner))
    ensures LinkInv(LinkStep(s, Inside(inner)), resent)
  {
    hide LinkInv, Handle, NodeStep, LinkStep, Became, Notified;
    var m := NodeStep(s.node, inner);
    InsideBecomes(s, inner);
    TailTaken(s, resent);
    match inner {
      case PopOne(now, ans) =>
        if s.node.rx == [] {
          AsideStep(s, resent, inner);
        } else {
          PopStep(s, resent, now, ans);
        }
      case TickNow(now, ans) =>
        TickStirs(s.node, now, ans);
        StirringKeepsInv(s, resent, m, Step(TickAt, now, ans));
      case AbortByUser =>
        AbortStirs(s.node);
        StirringKeepsInv(s, resent, m, Quietly(UserAbort));
      case Sweep =>
        if s.node.connected {
          AsideStep(s, resent, inner);
        } else {
          SweepStirs(s.node);
          StirringKeepsInv(s, resent, m, Quietly(Disconnect(s.node.generation)));
        }
      case _ => AsideStep(s, resent, inner);
    }
  }

  lemma TailTaken(s: Link, resent: U32)
    requires LinkInv(s, resent)
    ensures s.node.eng.tail == None
  {
  }

  lemma LinkStepKeepsInv(s: Link, resent: U32, l: LinkLabel)
    requires LinkInv(s, resent)
    ensures LinkInv(LinkStep(s, l), resent)
    ensures LinkStep(s, l).chunks == s.chunks && LinkStep(s, l).window == s.window
  {
    hide LinkInv, NodeStep;
    match l {
      case Transmit => TransmitKeepsInv(s, resent);
      case Arrive(p) => ArriveKeepsInv(s, resent, p);
      case Hear => HearKeepsInv(s, resent);
      case Inside(inner) =>
        if !inner.Connect? && !inner.Write? {
          InsideKeepsInv(s, resent, inner);
        }
    }
  }

  lemma {:induction false} LinkRunKeepsInv(s: Link, labels: seq<LinkLabel>)
    requires LinkStart(s)
    ensures LinkInv(LinkRun(s, labels), s.node.eng.stats.retransmitRequests)
    ensures LinkRun(s, labels).chunks == s.chunks && LinkRun(s, labels).window == s.window
    decreases |labels|
  {
    hide LinkInv, LinkStep, LinkStart;
    if labels == [] {
      StartIsLinkInv(s);
    } else {
      LinkRunKeepsInv(s, labels[..|labels| - 1]);
      LinkStepKeepsInv(LinkRun(s, labels[..|labels| - 1]), s.node.eng.stats.retransmitRequests, labels[|labels| - 1]);
    }
  }

  // In every run without radio loss, whatever the component does meanwhile (timeouts, aborts, a
  // failing backend, dropped SACKs, a begun refresh): the ring never refuses a frame of a client
  // that keeps to the window and the frame size; ring and radio together hold at most a window of
  // chunks, and the ring exactly the next ones not yet taken, in order; and the out-of-order
  // branch is never entered.
  lemma RxNeverOverflows(s: Link, labels: seq<LinkLabel>)
    requires LinkStart(s)
    ensures var t := LinkRun(s, labels);
            && t.refused == 0
            && |t.node.rx| + |t.air| <= s.window <= 16 < RX_QUEUE_SLOTS - 1
            && InLine(t) && BookOf(t.node).packets <= Taken(t)
            && t.node.eng.stats.retransmitRequests == s.node.eng.stats.retransmitRequests
  {
    LinkRunKeepsInv(s, labels);
    WithinWindow(LinkRun(s, labels), s.node.eng.stats.retransmitRequests);
  }

  // The safety of the protocol holds through the whole component.
  lemma LinkSafety(s: Link, labels: seq<LinkLabel>)
    requires LinkStart(s)
    ensures var t := LinkRun(s, labels); var book := BookOf(t.node);
            && book.packets <= |s.chunks|
            && book.written == Concat(s.chunks[..book.packets]) <= Concat(s.chunks)
            && (t.node.eng.txn.state == Refreshing ==> book.written == Concat(s.chunks))
            && forall j | j in t.acked :: j < book.packets
  {
    LinkRunKeepsInv(s, labels);
    var t := LinkRun(s, labels);
    ConcatPrefix(s.chunks, BookOf(t.node).packets);
    assert Abs(t).book == BookOf(t.node);
  }
}
