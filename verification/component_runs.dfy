// What holds over every run of the whole component: any interleaving of connections, writes and
// the parts of loop().
module ComponentRuns {
  import opened Bytes
  import opened Wire
  import opened EngineModel
  import opened EngineRuns
  import opened EngineTheorems
  import opened Rings
  import opened Component
  import ConfigBlob

  // --- The component's engine is an engine of the other theorems -----------------------------

  lemma AfterSnoc(e: Engine, a: seq<Step>, s: Step, u: Engine, out: Outcome)
    requires u == After(e, a) && out == Handle(u, s)
    ensures After(e, a + [s]) == out.eng
    ensures Log(e, a + [s]) == Log(e, a) + out.calls
  {
    assert (a + [s])[..|a|] == a;
  }

  // A run in two parts, the second from the state f that the first ends in.
  lemma {:induction false} AfterConcat(e: Engine, a: seq<Step>, f: Engine, b: seq<Step>)
    requires f == After(e, a)
    ensures After(e, a + b) == After(f, b)
    ensures Log(e, a + b) == Log(e, a) + Log(f, b)
    decreases |b|
  {
    hide Handle;
    if b == [] {
      assert a + b == a;
    } else {
      var init, last := b[..|b| - 1], b[|b| - 1];
      AfterConcat(e, a, f, init);
      assert a + b == a + init + [last] && b == init + [last];
      AfterBoth(e, a, f, init, last, After(f, init), Handle(After(f, init), last));
    }
  }

  lemma AfterBoth(e: Engine, a: seq<Step>, f: Engine, init: seq<Step>, last: Step, u: Engine, out: Outcome)
    requires After(e, a + init) == u == After(f, init) && out == Handle(u, last)
    requires Log(e, a + init) == Log(e, a) + Log(f, init)
    ensures After(e, a + init + [last]) == out.eng == After(f, init + [last])
    ensures Log(e, a + init + [last]) == Log(e, a) + Log(f, init + [last])
  {
    AfterSnoc(e, a + init, last, u, out);
    AfterSnoc(f, init, last, u, out);
    Associative(Log(e, a), Log(f, init), out.calls);
  }

  lemma Associative(a: seq<Call>, b: seq<Call>, c: seq<Call>)
    ensures a + b + c == a + (b + c)
  {
  }

  // What popping the next packet asks of the engine.
  function PoppedEvent(n: GoodNode): Option<Event>
    requires n.rx != []
    ensures PoppedEvent(n).Some? ==> EventOk(PoppedEvent(n).value)
  {
    if n.rx[0].generation == n.generation && n.rx[0].length >= 2 then EventOf(n.rx[0]) else None
  }

  const TAIL_TAKEN := Step(TakeTail, 0, Answers(false, false, false, false, Pending))

  function Quietly(ev: GoodEvent): Step {
    TAIL_TAKEN.(ev := ev)
  }

  function EngineStepsAt(n: GoodNode, l: NodeLabel): seq<Step> {
    match l
    case Connect => [Quietly(SetGeneration(Inc32(n.generation)))]
    case Sweep => if n.connected then [] else [Quietly(Disconnect(n.generation))]
    case PopOne(now, ans) =>
      if n.rx != [] && PoppedEvent(n).Some? then [Step(PoppedEvent(n).value, now, ans), TAIL_TAKEN] else []
    case TickNow(now, ans) => [Step(TickAt, now, ans), TAIL_TAKEN]
    case AbortByUser => [Quietly(UserAbort)]
    case _ => []
  }

  function EngineSteps(n: GoodNode, labels: seq<NodeLabel>): seq<Step> {
    if labels == [] then []
    else
      var init := labels[..|labels| - 1];
      EngineSteps(n, init) + EngineStepsAt(NodeRun(n, init), labels[|labels| - 1])
  }

  lemma TwoSteps(e: Engine, a: Step, b: Step)
    ensures After(e, [a, b]) == Handle(Handle(e, a).eng, b).eng
    ensures Log(e, [a, b]) == Handle(e, a).calls + Handle(Handle(e, a).eng, b).calls
  {
    AfterOne(e, a);
    assert [a, b][..1] == [a];
  }

  lemma AppliedTakesTail(n: Node, res: Result)
    ensures Applied(n, res).eng == n.eng.(tail := None) && Applied(n, res).log == n.log
    ensures Applied(n, res).rx == n.rx && Applied(n, res).generation == n.generation
    ensures Applied(n, res).connected == n.connected
  {
  }

  lemma EngineDoesTwoSteps(n: Node, step: Step)
    ensures EngineDoes(n, step).eng == After(n.eng, [step, TAIL_TAKEN])
    ensures EngineDoes(n, step).log == n.log + Log(n.eng, [step, TAIL_TAKEN])
  {
    var out := Handle(n.eng, step);
    AppliedTakesTail(n.(eng := out.eng, log := n.log + out.calls), out.res);
    TwoSteps(n.eng, step, TAIL_TAKEN);
    assert out.calls + [] == out.calls;
  }

  lemma NodeStepIsEngineSteps(n: GoodNode, l: NodeLabel)
    ensures NodeStep(n, l).eng == After(n.eng, EngineStepsAt(n, l))
    ensures NodeStep(n, l).log == n.log + Log(n.eng, EngineStepsAt(n, l))
  {
    match l {
      case Connect => AfterOne(n.eng, Quietly(SetGeneration(Inc32(n.generation))));
      case Sweep => AfterOne(n.eng, Quietly(Disconnect(n.generation)));
      case AbortByUser => AfterOne(n.eng, Quietly(UserAbort));
      case TickNow(now, ans) => EngineDoesTwoSteps(n, Step(TickAt, now, ans));
      case PopOne(now, ans) =>
        if n.rx != [] && PoppedEvent(n).Some? {
          EngineDoesTwoSteps(n.(rx := n.rx[1..]), Step(PoppedEvent(n).value, now, ans));
        }
      case _ =>
    }
  }

  predicate Fresh(n: GoodNode) {
    n.eng == Boot(n.eng.cfg) && n.log == [] && n.rx == [] && n.tx == [] && n.air == [] && n.generation == 0
  }

  // So everything proved of every run of the engine holds in every run of the component.
  lemma {:induction false} NodeRunIsEngineRun(n: GoodNode, labels: seq<NodeLabel>)
    requires Fresh(n)
    ensures NodeRun(n, labels).eng == After(Boot(n.eng.cfg), EngineSteps(n, labels))
    ensures NodeRun(n, labels).log == Log(Boot(n.eng.cfg), EngineSteps(n, labels))
    decreases |labels|
  {
    if labels == [] {
    } else {
      var init, last := labels[..|labels| - 1], labels[|labels| - 1];
      NodeRunIsEngineRun(n, init);
      NodeStepIsEngineSteps(NodeRun(n, init), last);
      AfterConcat(Boot(n.eng.cfg), EngineSteps(n, init), NodeRun(n, init).eng, EngineStepsAt(NodeRun(n, init), last));
    }
  }

  ghost function BookOf(n: GoodNode): Ledger {
    LedgerOf(n.eng.cfg.fullFrameBytes, n.log)
  }

  lemma NodeInv(n: GoodNode, labels: seq<NodeLabel>)
    requires Fresh(n)
    ensures Inv(NodeRun(n, labels).eng, BookOf(NodeRun(n, labels))) && NodeRun(n, labels).eng.cfg == n.eng.cfg
  {
    NodeRunIsEngineRun(n, labels);
    RunKeepsInv(n.eng.cfg, EngineSteps(n, labels));
  }

  const POP := PopOne(0, YES)

  function PacketWith(frame: seq<Byte>, generation: U32): (p: RxPacket)
    requires 0 < |frame| <= RX_SLOT_BYTES
    ensures p.WellFormed() && p.Data() == frame && p.generation == generation
  {
    RxPacket(generation, |frame|, 0, frame + seq(RX_SLOT_BYTES - |frame|, _ => 0))
  }

  // --- Order and fate of the notifications --------------------------------------------------------------

  function Notified(n: Node): seq<Response> {
    n.air + Frames(n.tx)
  }

  lemma SendAppends(n: Node, r: Response, terminal: bool)
    ensures Notified(n) <= Notified(Send(n, r, terminal))
  {
  }

  lemma AppliedAppends(n: Node, res: Result)
    ensures Notified(n) <= Notified(Applied(n, res))
  {
    var a := if n.eng.tail.Some? then Send(n.(eng := n.eng.(tail := None)), n.eng.tail.value, true) else n;
    var b := if res.response != [] then Send(a, res.response, IsTerminal(res)) else a;
    var c := if res.refreshComplete then Send(b, EncodeAck(RESP_REFRESH_SUCCESS), true) else b;
    if n.eng.tail.Some? {
      SendAppends(n.(eng := n.eng.(tail := None)), n.eng.tail.value, true);
    }
    SendAppends(a, res.response, IsTerminal(res));
    SendAppends(b, EncodeAck(RESP_REFRESH_SUCCESS), true);
    SendAppends(c, EncodeAck(RESP_REFRESH_TIMEOUT), true);
  }

  lemma {:induction false} ChunksAppend(q: seq<TxItem>, frames: seq<Response>)
    ensures q <= SendChunks(q, frames)
    decreases |frames|
  {
    if frames == [] {
    } else {
      var p := TxPush(q, frames[0], false);
      if p.1 {
        ChunksAppend(p.0, frames[1..]);
      }
    }
  }

  lemma FramesMonotone(q: seq<TxItem>, r: seq<TxItem>)
    requires q <= r
    ensures Frames(q) <= Frames(r)
  {
  }

  lemma DispatchAppends(n: Node, pkt: RxPacket, now: U32, ans: Answers)
    requires pkt.WellFormed()
    ensures Notified(n) <= Notified(Dispatch(n, pkt, now, ans))
  {
    if pkt.length >= 2 {
      if EventOf(pkt).Some? {
        var out := Handle(n.eng, Step(EventOf(pkt).value, now, ans));
        AppliedAppends(n.(eng := out.eng, log := n.log + out.calls), out.res);
      } else {
        AnsweredAppends(n, OpcodeOf(pkt));
      }
    }
  }

  lemma AnsweredAppends(n: Node, opcode: nat)
    ensures Notified(n) <= Notified(Answered(n, opcode))
  {
    if opcode != CMD_CONFIG_READ {
      SendAppends(n, n.id.version, false);
      SendAppends(n, n.id.msd, false);
      SendAppends(n, EncodeNack(opcode), false);
    } else {
      ConfigAppends(n);
    }
  }

  lemma LongerRingAppends(n: Node, q: seq<TxItem>)
    requires n.tx <= q
    ensures Notified(n) <= Notified(n.(tx := q))
  {
    FramesMonotone(n.tx, q);
  }

  lemma ConfigAppends(n: Node)
    ensures Notified(n) <= Notified(ConfigSent(n))
  {
    match n.id.blob {
      case None => SendAppends(n, EncodeNackErr(CMD_CONFIG_READ, 0x00), false);
      case Some(blob) =>
        var frames := ConfigBlob.ChunksFrom(blob, 0);
        ChunksAppend(n.tx, frames);
        LongerRingAppends(n, SendChunks(n.tx, frames));
    }
  }

  lemma DrainKeepsOrder(n: GoodNode)
    ensures Notified(NodeStep(n, Drain)) == Notified(n)
  {
    var k := Min(NOTIFICATIONS_PER_LOOP, |n.tx|);
    assert Frames(n.tx) == Frames(n.tx[..k]) + Frames(n.tx[k..]);
  }

  lemma StepAppends(n: GoodNode, l: NodeLabel)
    ensures Notified(n) <= Notified(NodeStep(n, l))
  {
    match l {
      case PopOne(now, ans) =>
        if n.rx != [] && n.rx[0].generation == n.generation {
          DispatchAppends(n.(rx := n.rx[1..]), n.rx[0], now, ans);
        }
      case TickNow(now, ans) =>
        var out := Handle(n.eng, Step(TickAt, now, ans));
        AppliedAppends(n.(eng := out.eng, log := n.log + out.calls), out.res);
      case Drain => DrainKeepsOrder(n);
      case _ =>
    }
  }

  // Frames leave in the order they were queued, in every run: what was queued or sent before stays
  // in front of everything that comes later.
  lemma {:induction false} NotificationsKeepOrder(n: GoodNode, labels: seq<NodeLabel>)
    ensures Notified(n) <= Notified(NodeRun(n, labels))
    decreases |labels|
  {
    if labels == [] {
    } else {
      NotificationsKeepOrder(n, labels[..|labels| - 1]);
      StepAppends(NodeRun(n, labels[..|labels| - 1]), labels[|labels| - 1]);
    }
  }

  // --- What a new connection is sent ---------------------------------------------------------------

  lemma {:induction false} AirGrows(n: GoodNode, labels: seq<NodeLabel>)
    ensures n.air <= NodeRun(n, labels).air
    decreases |labels|
  {
    hide NodeStep;
    if labels == [] {
    } else {
      AirGrows(n, labels[..|labels| - 1]);
      StepSends(NodeRun(n, labels[..|labels| - 1]), labels[|labels| - 1]);
    }
  }

  lemma StepSends(n: GoodNode, l: NodeLabel)
    ensures n.air <= NodeStep(n, l).air
  {
  }

  // What is notified on a connection, in a run that begins where it is made.
  function SentOn(n: GoodNode, more: seq<NodeLabel>): seq<Response> {
    AirGrows(NodeStep(n, Connect), more);
    NodeRun(NodeStep(n, Connect), more).air[|n.air|..]
  }

  // How many of them had been queued for an earlier connection.
  function Leftovers(n: GoodNode, more: seq<NodeLabel>): nat {
    Min(|SentOn(n, more)|, |n.tx|)
  }

  // The frames still queued when a connection is made come first, in order, and nothing sent after
  // them is older than the connection.
  lemma LeftoversFirst(n: GoodNode, more: seq<NodeLabel>)
    ensures SentOn(n, more)[..Leftovers(n, more)] == Frames(n.tx)[..Leftovers(n, more)]
    ensures |n.tx| <= |SentOn(n, more)| ==> n.air + Frames(n.tx) <= NodeRun(NodeStep(n, Connect), more).air
  {
    var c := NodeStep(n, Connect);
    NotificationsKeepOrder(c, more);
    AirGrows(c, more);
    hide NodeRun;
    var m, k := NodeRun(c, more), Leftovers(n, more);
    assert forall i | 0 <= i < k :: SentOn(n, more)[i] == Notified(m)[|n.air| + i] == Frames(n.tx)[i];
  }

  // The transmit ring is never emptied on a disconnect or a connect, so a new connection is sent only
  // frames queued under it if and only if the ring is empty when it is made.
  lemma OnlyItsOwnIff(n: GoodNode)
    ensures (forall more :: Leftovers(n, more) == 0) <==> n.tx == []
  {
    if n.tx != [] {
      NodeRunSnoc(NodeStep(n, Connect), [], Drain);
      assert [] + [Drain] == [Drain];
      assert Leftovers(n, [Drain]) > 0;
    }
  }

  // What queueing a tail SACK and an END ACK comes to, for a ring with `used` frames waiting.
  function Queued(q: seq<TxItem>, tail: Response, ack: Response): seq<TxItem> {
    q + (if |q| <= 14 then [TxItem(tail, true)] else []) + (if |q| <= 10 then [TxItem(ack, false)] else [])
  }

  lemma TailThenAck(n: Node, tail: Response, res: Result)
    requires n.eng.tail == Some(tail) && tail != [] && res.response != []
    requires !IsTerminal(res)
    ensures Applied(n, res).tx == Queued(n.tx, tail, res.response)
  {
  }

  // The next packet makes the engine answer with the END ACK of a PIPE transfer.
  predicate CompletesPipe(m: GoodNode, now: U32, ans: Answers) {
    && m.rx != [] && PoppedEvent(m).Some?
    && Handle(m.eng, Step(PoppedEvent(m).value, now, ans)).res.response == EncodeAck(CMD_PIPE_WRITE_END)
  }

  ghost predicate Completed(m: GoodNode, x: GoodNode) {
    var ack := EncodeAck(CMD_PIPE_WRITE_END);
    && x.eng.txn.state == Refreshing && x.eng.cfg == m.eng.cfg
    && x.tx == Queued(m.tx, SackAfter(BookOf(x).packets), ack)
    && |m.tx| <= |x.tx| && (TxItem(ack, false) in x.tx[|m.tx|..] <==> |m.tx| <= 10)
  }

  // In every run, when a chunk completes a PIPE transfer, its tail SACK is queued directly before
  // the END ACK; but the END ACK is pushed as an ordinary frame and is lost if and only if more
  // than ten frames wait, although the refresh has already begun.
  lemma EndAckFate(n: GoodNode, labels: seq<NodeLabel>, now: U32, ans: Answers)
    requires Fresh(n) && n.eng.cfg.fullFrameBytes > 0 && CompletesPipe(NodeRun(n, labels), now, ans)
    ensures Completed(NodeRun(n, labels), NodeStep(NodeRun(n, labels), PopOne(now, ans)))
  {
    NodeRunIsEngineRun(n, labels);
    NodeInv(n, labels);
    CompletionAt(n.eng.cfg, EngineSteps(n, labels), NodeRun(n, labels), now, ans);
  }

  lemma CompletionAt(cfg: Config, steps: seq<Step>, m: GoodNode, now: U32, ans: Answers)
    requires m.eng == After(Boot(cfg), steps) && m.log == Log(Boot(cfg), steps) && m.eng.cfg == cfg
    requires cfg.fullFrameBytes > 0 && CompletesPipe(m, now, ans)
    ensures Completed(m, NodeStep(m, PopOne(now, ans)))
  {
    var step := Step(PoppedEvent(m).value, now, ans);
    PipeEndAckCarriesTail(cfg, steps, step);
    StepKeepsConfig(cfg, steps, step);
    var book := LedgerOf(cfg.fullFrameBytes, m.log + Handle(m.eng, step).calls);
    CompletingChunk(m, now, ans, SackAfter(book.packets));
    InQueued(m.tx, SackAfter(book.packets));
  }

  lemma StepKeepsConfig(cfg: Config, steps: seq<Step>, step: Step)
    ensures Handle(After(Boot(cfg), steps), step).eng.cfg == cfg
  {
    RunKeepsInv(cfg, steps);
    StepKeepsInv(After(Boot(cfg), steps), LedgerOf(cfg.fullFrameBytes, Log(Boot(cfg), steps)), step);
  }

  lemma CompletingChunk(m: GoodNode, now: U32, ans: Answers, sack: Response)
    requires m.rx != [] && PoppedEvent(m).Some? && sack != []
    requires var out := Handle(m.eng, Step(PoppedEvent(m).value, now, ans));
             out.res.response == EncodeAck(CMD_PIPE_WRITE_END) && out.eng.tail == Some(sack)
    ensures var out := Handle(m.eng, Step(PoppedEvent(m).value, now, ans)); var x := NodeStep(m, PopOne(now, ans));
            && x.eng.txn == out.eng.txn && x.eng.cfg == out.eng.cfg && x.log == m.log + out.calls
            && x.tx == Queued(m.tx, sack, EncodeAck(CMD_PIPE_WRITE_END))
  {
    var step := Step(PoppedEvent(m).value, now, ans);
    var out := Handle(m.eng, step);
    EndAckNotTerminal(m.eng, step);
    var k := m.(rx := m.rx[1..], eng := out.eng, log := m.log + out.calls);
    TailThenAck(k, sack, out.res);
    AppliedTakesTail(k, out.res);
    assert NodeStep(m, PopOne(now, ans)) == Applied(k, out.res);
  }

  lemma InQueued(q: seq<TxItem>, sack: Response)
    requires sack != EncodeAck(CMD_PIPE_WRITE_END)
    ensures var ack := EncodeAck(CMD_PIPE_WRITE_END);
            TxItem(ack, false) in Queued(q, sack, ack)[|q|..] <==> |q| <= 10
  {
    var ack := TxItem(EncodeAck(CMD_PIPE_WRITE_END), false);
    if |q| <= 10 {
      assert Queued(q, sack, EncodeAck(CMD_PIPE_WRITE_END))[|q|..] == [TxItem(sack, true), ack];
      assert [TxItem(sack, true), ack][1] == ack;
    }
  }

  lemma EndAckNotTerminal(e: Engine, step: Step)
    requires Handle(e, step).res.response == EncodeAck(CMD_PIPE_WRITE_END)
    ensures !IsTerminal(Handle(e, step).res)
  {
  }

  // --- The answer to a configuration read ------------------------------------------------------------

  const ORDINARY_SLOTS := TX_QUEUE_SLOTS - TX_RESERVED_FOR_TERMINAL

  function Ordinary(frames: seq<Response>): (q: seq<TxItem>)
    ensures |q| == |frames| && Frames(q) == frames
  {
    seq(|frames|, i requires 0 <= i < |frames| => TxItem(frames[i], false))
  }

  lemma {:induction false} ChunksQueued(q: seq<TxItem>, frames: seq<Response>, room: nat)
    requires room == Min(|frames|, Max(0, ORDINARY_SLOTS - |q|)) && forall f | f in frames :: f != []
    ensures SendChunks(q, frames) == q + Ordinary(frames[..room])
    decreases |frames|
  {
    if room > 0 {
      assert frames[0] in frames && forall f | f in frames[1..] :: f in frames;
      ChunksQueued(q + [TxItem(frames[0], false)], frames[1..], room - 1);
      assert Ordinary(frames[..room]) == [TxItem(frames[0], false)] + Ordinary(frames[1..][..room - 1]);
    } else if frames != [] {
      assert frames[0] in frames;
    }
  }

  lemma {:induction false} ChunksNotEmpty(blob: seq<Byte>, index: nat)
    requires |blob| < TWO_TO_16 && index <= 1000
    ensures forall f | f in ConfigBlob.ChunksFrom(blob, index) :: f != []
    decreases 1000 - index
  {
    if ConfigBlob.EncodeConfigChunk(blob, index) != [] {
      ChunksNotEmpty(blob, index + 1);
    }
  }

  // The frames a configuration read adds give the blob back if and only if they all fit beside
  // the frames already waiting: at most twelve in all.
  lemma ConfigAnswerCompleteIff(n: Node, blob: seq<Byte>)
    requires n.id.blob == Some(blob) && 0 < |blob|
    ensures n.tx <= ConfigSent(n).tx
    ensures ConfigBlob.Reassemble(Frames(ConfigSent(n).tx[|n.tx|..])) == Some(blob)
       <==> |n.tx| + |ConfigBlob.ChunksFrom(blob, 0)| <= ORDINARY_SLOTS
  {
    var frames := ConfigBlob.ChunksFrom(blob, 0);
    var room := Min(|frames|, Max(0, ORDINARY_SLOTS - |n.tx|));
    ChunksNotEmpty(blob, 0);
    ChunksQueued(n.tx, frames, room);
    assert ConfigSent(n).tx[|n.tx|..] == Ordinary(frames[..room]);
    if room == |frames| {
      assert frames[..room] == frames;
      ConfigBlob.ChunksRoundTrip(blob);
    } else {
      ConfigBlob.TruncatedChunks(blob, room);
    }
  }
}
