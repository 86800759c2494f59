// What a frame written to the component brings about, and what is notified, byte by byte: which
// handler gets it, and which frames are queued in answer.
module ComponentFrames {
  import opened Bytes
  import opened Wire
  import opened EngineModel
  import opened EngineRuns
  import opened EngineTheorems
  import opened Rings
  import opened Component
  import opened ComponentRuns
  import opened Replies

  // --- Queueing ----------------------------------------------------------------------------------

  // Frames queued one after the other: fifteen fit, ordinary ones only up to twelve.
  function Pushed(q: seq<TxItem>, items: seq<TxItem>): seq<TxItem>
    decreases |items|
  {
    if items == [] then q
    else Pushed(if |q| < (if items[0].terminal then 15 else 12) then q + [items[0]] else q, items[1..])
  }

  // What a result puts on the wire: the staged SACK, the response, and 00 73 for a refresh that is
  // complete or 00 74 for one that has timed out.
  function ItemsOf(tail: Option<Response>, res: Result): seq<TxItem> {
    var final := res.refreshComplete || res.refreshTimeout || res.terminalError;
    (if tail.Some? then [TxItem(tail.value, true)] else [])
    + (if res.response != [] then [TxItem(res.response, final)] else [])
    + (if res.refreshComplete then [TxItem([0x00, 0x73], true)] else [])
    + (if res.refreshTimeout then [TxItem([0x00, 0x74], true)] else [])
  }

  lemma {:induction false} PushedConcat(q: seq<TxItem>, a: seq<TxItem>, b: seq<TxItem>)
    ensures Pushed(q, a + b) == Pushed(Pushed(q, a), b)
    decreases |a|
  {
    if a == [] {
      assert a + b == b;
    } else {
      assert (a + b)[1..] == a[1..] + b;
      PushedConcat(if |q| < (if a[0].terminal then 15 else 12) then q + [a[0]] else q, a[1..], b);
    }
  }

  lemma SendPushes(n: Node, r: Response, terminal: bool)
    requires r != []
    ensures Send(n, r, terminal) == n.(tx := Pushed(n.tx, [TxItem(r, terminal)]))
  {
    assert [TxItem(r, terminal)][1..] == [];
  }

  lemma NothingPushed(q: seq<TxItem>)
    ensures Pushed(q, []) == q
  {
  }

  // Applying a result queues exactly that, in that order.
  lemma AppliedPushes(n: Node, res: Result)
    requires n.eng.tail.Some? ==> n.eng.tail.value != []
    ensures Applied(n, res) == n.(eng := n.eng.(tail := None), tx := Pushed(n.tx, ItemsOf(n.eng.tail, res)))
  {
    hide Pushed, Send;
    var final := res.refreshComplete || res.refreshTimeout || res.terminalError;
    var k := n.(eng := n.eng.(tail := None));
    var a := if n.eng.tail.Some? then [TxItem(n.eng.tail.value, true)] else [];
    var b := if res.response != [] then [TxItem(res.response, final)] else [];
    var c := if res.refreshComplete then [TxItem([0x00, 0x73], true)] else [];
    var d := if res.refreshTimeout then [TxItem([0x00, 0x74], true)] else [];
    PushedConcat(n.tx, a + b + c, d);
    PushedConcat(n.tx, a + b, c);
    PushedConcat(n.tx, a, b);
    var na := k.(tx := Pushed(n.tx, a));
    var nb := na.(tx := Pushed(na.tx, b));
    var nc := nb.(tx := Pushed(nb.tx, c));
    if n.eng.tail.Some? {
      SendPushes(k, n.eng.tail.value, true);
    }
    if res.response != [] {
      SendPushes(na, res.response, final);
    }
    SendPushes(nb, [0x00, 0x73], true);
    SendPushes(nc, [0x00, 0x74], true);
    NothingPushed(n.tx);
    NothingPushed(na.tx);
    NothingPushed(nb.tx);
    NothingPushed(nc.tx);
  }

  // --- One packet ----------------------------------------------------------------------------------

  // The engine did this, and its result went out.
  predicate Did(n: Node, m: Node, out: Outcome) {
    m == n.(eng := out.eng.(tail := None), log := n.log + out.calls, tx := Pushed(n.tx, ItemsOf(out.eng.tail, out.res)))
  }

  lemma EngineDid(n: Node, step: Step)
    requires n.eng.tail == None
    ensures Did(n, EngineDoes(n, step), Handle(n.eng, step))
  {
    var out := Handle(n.eng, step);
    TailNotEmpty(n.eng, step);
    hide Handle, Applied, Pushed, ItemsOf;
    AppliedPushes(n.(eng := out.eng, log := n.log + out.calls), out.res);
  }

  predicate TailIsSack(e: Engine) {
    e.tail.Some? ==> IsSack(e.tail.value)
  }

  lemma FinishLeavesTail(e: Engine, endOpcode: nat, now: U32, ans: Answers)
    ensures FinishAndRefresh(e, endOpcode, now, ans).eng.tail == e.tail
  {
  }

  lemma StoreTail(e: Engine, seqNo: Byte, data: seq<Byte>, now: U32, ans: Answers)
    requires e.tail == None
    ensures TailIsSack(StoreChunk(e, seqNo, data, now, ans).eng)
  {
    var a := AcceptChunk(e, seqNo, data, now);
    FinishLeavesTail(a.(tail := Some(CurrentSack(a.txn)), txn := a.txn.(acceptedSinceAck := 0)), CMD_PIPE_WRITE_END,
                     now, ans);
    hide FinishAndRefresh;
  }

  lemma EndTail(e: Engine, now: U32, ans: Answers)
    requires e.tail == None
    ensures TailIsSack(OnDirectEnd(e, now, ans).eng) && TailIsSack(OnPipeEnd(e, now, ans).eng)
  {
    var flushed := e.txn.(acceptedSinceAck := 0);
    FinishLeavesTail(e, CMD_DIRECT_WRITE_END, now, ans);
    FinishLeavesTail(e, CMD_PIPE_WRITE_END, now, ans);
    FinishLeavesTail(e.(txn := flushed, tail := Some(CurrentSack(flushed))), CMD_PIPE_WRITE_END, now, ans);
    hide FinishAndRefresh;
  }

  lemma StartTail(e: Engine, step: Step)
    requires e.tail == None && IsStart(step.ev)
    ensures TailIsSack(Handle(e, step).eng)
  {
  }

  lemma TailNotEmpty(e: Engine, step: Step)
    requires e.tail == None
    ensures TailIsSack(Handle(e, step).eng)
  {
    hide OnDirectStart, OnPipeStart, OnDirectEnd, OnPipeEnd, StoreChunk;
    match step.ev {
      case DirectStart(_) => StartTail(e, step);
      case PipeStart(_, _) => StartTail(e, step);
      case PipeData(payload) =>
        if payload != [] {
          StoreTail(e, payload[0], payload[1..], step.now, step.ans);
        }
      case DirectEnd => EndTail(e, step.now, step.ans);
      case PipeEnd => EndTail(e, step.now, step.ans);
      case _ =>
    }
  }

  // What happens to a packet, by its first two bytes. The DIRECT and PIPE opcodes reach the handler
  // of that name with what follows them; 00 40, 00 43 and 00 44 read the configuration, the
  // version and the advertisement; anything else is refused with its low byte and leaves
  // the transfer alone.
  predicate Served(n: Node, p: RxPacket, now: U32, ans: Answers, m: Node)
    requires p.WellFormed() && p.length >= 2
  {
    var hi, lo, rest, e := p.payload[0], p.payload[1], p.payload[2..p.length], n.eng;
    if hi == 0x00 && lo == 0x70 then Did(n, m, OnDirectStart(e, |rest|, now, ans))
    else if hi == 0x00 && lo == 0x71 then Did(n, m, OnDirectData(e, rest, now, ans))
    else if hi == 0x00 && lo == 0x72 then Did(n, m, OnDirectEnd(e, now, ans))
    else if hi == 0x00 && lo == 0x80 then Did(n, m, OnPipeStart(e, p.payload[2..], |rest|, now, ans))
    else if hi == 0x00 && lo == 0x81 then Did(n, m, OnPipeData(e, rest, now, ans))
    else if hi == 0x00 && lo == 0x82 then Did(n, m, OnPipeEnd(e, now, ans))
    else if hi == 0x00 && lo == 0x40 then
      if n.id.blob.None? then m == n.(tx := Pushed(n.tx, [TxItem([0xFF, 0x40, 0x00, 0x00], false)]))
      else m == n.(tx := m.tx)
    else if hi == 0x00 && lo == 0x43 then
      n.id.version != [] ==> m == n.(tx := Pushed(n.tx, [TxItem(n.id.version, false)]))
    else if hi == 0x00 && lo == 0x44 then
      n.id.msd != [] ==> m == n.(tx := Pushed(n.tx, [TxItem(n.id.msd, false)]))
    else m == n.(tx := Pushed(n.tx, [TxItem([0xFF, lo], false)]))
  }

  lemma PacketServed(n: Node, p: RxPacket, now: U32, ans: Answers)
    requires p.WellFormed() && n.eng.tail == None
    ensures p.length < 2 ==> Dispatch(n, p, now, ans) == n
    ensures p.length >= 2 ==> Served(n, p, now, ans, Dispatch(n, p, now, ans))
  {
    if p.length >= 2 {
      assert p.Data()[2..] == p.payload[2..p.length];
      if EventOf(p).Some? {
        EngineDid(n, Step(EventOf(p).value, now, ans));
        hide Did, EngineDoes, OnDirectStart, OnDirectData, OnDirectEnd, OnPipeStart, OnPipeData, OnPipeEnd;
      } else {
        OtherServed(n, p);
        hide Answered, Pushed;
      }
    }
  }

  lemma OtherServed(n: Node, p: RxPacket)
    requires p.WellFormed() && p.length >= 2 && EventOf(p).None?
    ensures forall now, ans :: Served(n, p, now, ans, Answered(n, OpcodeOf(p)))
  {
    SendPushes(n, EncodeNackErr(CMD_CONFIG_READ, 0x00), false);
    SendPushes(n, EncodeNack(OpcodeOf(p)), false);
    if n.id.version != [] {
      SendPushes(n, n.id.version, false);
    }
    if n.id.msd != [] {
      SendPushes(n, n.id.msd, false);
    }
    hide Send, Pushed;
  }

  // --- Every run -----------------------------------------------------------------------------------

  lemma AnsweredKeepsEngine(n: Node, opcode: nat)
    ensures Answered(n, opcode).eng == n.eng
  {
  }

  lemma StepTakesTail(n: GoodNode, l: NodeLabel)
    requires n.eng.tail == None
    ensures NodeStep(n, l).eng.tail == None
  {
    hide Applied, Answered;
    match l {
      case PopOne(now, ans) =>
        if n.rx != [] && n.rx[0].generation == n.generation && n.rx[0].length >= 2 {
          AnsweredKeepsEngine(n.(rx := n.rx[1..]), OpcodeOf(n.rx[0]));
          if EventOf(n.rx[0]).Some? {
            var out := Handle(n.eng, Step(EventOf(n.rx[0]).value, now, ans));
            AppliedTakesTail(n.(rx := n.rx[1..], eng := out.eng, log := n.log + out.calls), out.res);
            hide Handle;
          }
        }
      case TickNow(now, ans) =>
        var out := Handle(n.eng, Step(TickAt, now, ans));
        AppliedTakesTail(n.(eng := out.eng, log := n.log + out.calls), out.res);
        hide Handle;
      case _ =>
    }
  }

  lemma {:induction false} TailTaken(n: GoodNode, labels: seq<NodeLabel>)
    requires Fresh(n)
    ensures NodeRun(n, labels).eng.tail == None
    decreases |labels|
  {
    hide NodeStep;
    if labels == [] {
    } else {
      TailTaken(n, labels[..|labels| - 1]);
      StepTakesTail(NodeRun(n, labels[..|labels| - 1]), labels[|labels| - 1]);
    }
  }

  // In every run of the component, a packet of the current connection is served by its first two
  // bytes, and one that cannot carry an opcode, or is of an earlier connection, by nobody.
  lemma FramesServed(n: GoodNode, labels: seq<NodeLabel>, now: U32, ans: Answers)
    requires Fresh(n) && NodeRun(n, labels).rx != []
    ensures var m, x := NodeRun(n, labels), NodeStep(NodeRun(n, labels), PopOne(now, ans));
            var p, rest := m.rx[0], m.(rx := m.rx[1..]);
            if p.generation != m.generation || p.length < 2 then x == rest else Served(rest, p, now, ans, x)
  {
    TailTaken(n, labels);
    var m := NodeRun(n, labels);
    PacketServed(m.(rx := m.rx[1..]), m.rx[0], now, ans);
    hide Dispatch, Served, NodeRun;
  }
}
