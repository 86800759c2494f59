// The component that ties the parts together: BLE callbacks fill the receive ring, loop() hands
// packets to the engine and queues what goes back, and a ring paces the notifications.
module Component {
  import opened Bytes
  import opened Wire
  import opened EngineModel
  import opened TransferEngines
  import opened Rings
  import ConfigBlob

  // What the node answers to the read commands; no blob while the configuration is invalid.
  datatype Identity = Identity(blob: Option<seq<Byte>>, version: Response, msd: Response)

  predicate IdentityOk(id: Identity) {
    id.blob.Some? ==> |id.blob.value| < TWO_TO_16
  }

  type GoodIdentity = id: Identity | IdentityOk(id) witness Identity(None, [], [])

  // `log` is every backend call so far, `air` every notification handed to the BLE stack.
  datatype Node = Node(
    id: GoodIdentity, connected: bool, generation: U32, eng: Engine, log: seq<Call>,
    rx: seq<RxPacket>, tx: seq<TxItem>, air: seq<Response>)

  const POPS_PER_LOOP := 8
  const NOTIFICATIONS_PER_LOOP := 4

  // --- One result, one packet ------------------------------------------------------------

  function Send(n: Node, r: Response, terminal: bool): Node {
    n.(tx := TxPush(n.tx, r, terminal).0)
  }

  // apply_result_(): a staged tail SACK goes first, then the response, then a refresh report.
  function Applied(n: Node, res: Result): Node {
    var a := if n.eng.tail.Some? then Send(n.(eng := n.eng.(tail := None)), n.eng.tail.value, true) else n;
    var b := if res.response != [] then Send(a, res.response, IsTerminal(res)) else a;
    var c := if res.refreshComplete then Send(b, EncodeAck(RESP_REFRESH_SUCCESS), true) else b;
    if res.refreshTimeout then Send(c, EncodeAck(RESP_REFRESH_TIMEOUT), true) else c
  }

  predicate IsTerminal(res: Result) {
    res.refreshComplete || res.refreshTimeout || res.terminalError
  }

  function EngineDoes(n: Node, step: Step): Node {
    var out := Handle(n.eng, step);
    Applied(n.(eng := out.eng, log := n.log + out.calls), out.res)
  }

  // send_config_(): the chunks in order, until one does not fit.
  function SendChunks(q: seq<TxItem>, frames: seq<Response>): seq<TxItem>
    decreases |frames|
  {
    if frames == [] then q
    else
      var p := TxPush(q, frames[0], false);
      if p.1 then SendChunks(p.0, frames[1..]) else q
  }

  function ConfigSent(n: Node): Node {
    match n.id.blob
    case None => Send(n, EncodeNackErr(CMD_CONFIG_READ, 0x00), false)
    case Some(blob) => n.(tx := SendChunks(n.tx, ConfigBlob.ChunksFrom(blob, 0)))
  }

  function OpcodeOf(pkt: RxPacket): nat
    requires pkt.WellFormed()
  {
    256 * (pkt.payload[0] as int) + (pkt.payload[1] as int)
  }

  // The engine's share of the opcodes.
  function EventOf(pkt: RxPacket): (ev: Option<Event>)
    requires pkt.WellFormed() && pkt.length >= 2
    ensures ev.Some? ==> EventOk(ev.value)
  {
    var op := OpcodeOf(pkt);
    if op == CMD_DIRECT_WRITE_START then Some(DirectStart(pkt.length - 2))
    else if op == CMD_DIRECT_WRITE_DATA then Some(DirectData(pkt.Data()[2..]))
    else if op == CMD_DIRECT_WRITE_END then Some(DirectEnd)
    else if op == CMD_PIPE_WRITE_START then Some(PipeStart(pkt.payload[2..], pkt.length - 2))
    else if op == CMD_PIPE_WRITE_DATA then Some(PipeData(pkt.Data()[2..]))
    else if op == CMD_PIPE_WRITE_END then Some(PipeEnd)
    else None
  }

  // The other opcodes: three reads, and a NACK for everything unsupported.
  function Answered(n: Node, opcode: nat): Node {
    if opcode == CMD_CONFIG_READ then ConfigSent(n)
    else if opcode == CMD_FIRMWARE_VERSION then Send(n, n.id.version, false)
    else if opcode == CMD_READ_MSD then Send(n, n.id.msd, false)
    else Send(n, EncodeNack(opcode), false)
  }

  // handle_packet_(): whatever the packet, at most one engine event.
  function Dispatch(n: Node, pkt: RxPacket, now: U32, ans: Answers): Node
    requires pkt.WellFormed()
  {
    if pkt.length < 2 then n
    else
      match EventOf(pkt)
      case Some(ev) => EngineDoes(n, Step(ev, now, ans))
      case None => Answered(n, OpcodeOf(pkt))
  }

  // --- The steps of the node --------------------------------------------------------------

  datatype NodeLabel =
    | Connect
    | Hangup
    | Write(packet: RxPacket)
    | Sweep                                // loop(): on_disconnect() unless connected
    | PopOne(now: U32, ans: Answers)       // loop(): one packet off the receive ring
    | TickNow(now: U32, ans: Answers)      // loop(): tick() and its result
    | Drain                                // loop(): up to four notifications
    | AbortByUser

  predicate RxOk(n: Node) {
    |n.rx| < RX_QUEUE_SLOTS && forall i | 0 <= i < |n.rx| :: n.rx[i].WellFormed()
  }

  type GoodNode = n: Node | RxOk(n)
    witness Node(Identity(None, [], []), false, 0, Boot(Config(false, 0, 0, 0, 0)), [], [], [], [])

  // Callbacks and the parts of loop() in any order, so every interleaving of the two contexts is
  // a run. A packet enters the ring with the connection it was written on.
  function NodeStep(n: GoodNode, l: NodeLabel): GoodNode {
    match l
    case Connect =>
      var g := Inc32(n.generation);
      n.(connected := true, generation := g, eng := n.eng.(connectionGeneration := g))
    case Hangup => n.(connected := false)
    case Write(packet) =>
      if packet.WellFormed() && packet.generation == n.generation && |n.rx| < RX_QUEUE_SLOTS - 1
      then n.(rx := n.rx + [packet]) else n
    case Sweep =>
      if n.connected then n
      else
        var out := OnDisconnect(n.eng, n.generation);
        n.(eng := out.eng, log := n.log + out.calls)
    case PopOne(now, ans) =>
      if n.rx == [] then n
      else
        var m := n.(rx := n.rx[1..]);
        if n.rx[0].generation != n.generation then m else Dispatch(m, n.rx[0], now, ans)
    case TickNow(now, ans) => EngineDoes(n, Step(TickAt, now, ans))
    case Drain =>
      if !n.connected then n
      else
        var k := Min(NOTIFICATIONS_PER_LOOP, |n.tx|);
        n.(tx := n.tx[k..], air := n.air + Frames(n.tx[..k]))
    case AbortByUser =>
      var out := Abort(n.eng, InvalidState);
      n.(eng := out.eng, log := n.log + out.calls)
  }

  function NodeRun(n: GoodNode, labels: seq<NodeLabel>): GoodNode {
    if labels == [] then n else NodeStep(NodeRun(n, labels[..|labels| - 1]), labels[|labels| - 1])
  }

  lemma NoSteps(n: GoodNode)
    ensures NodeRun(n, []) == n
  {
  }

  lemma NodeRunSnoc(n: GoodNode, labels: seq<NodeLabel>, l: NodeLabel)
    ensures NodeRun(n, labels + [l]) == NodeStep(NodeRun(n, labels), l)
  {
    assert (labels + [l])[..|labels|] == labels;
  }

  // One pass through loop(): the sweep, at most eight packets, the tick, the notifications.
  predicate IsIteration(labels: seq<NodeLabel>) {
    && 3 <= |labels| <= 3 + POPS_PER_LOOP
    && labels[0] == Sweep && labels[|labels| - 2].TickNow? && labels[|labels| - 1] == Drain
    && forall i | 1 <= i < |labels| - 2 :: labels[i].PopOne?
  }

  lemma {:induction false} NodeRunConcat(n: GoodNode, a: seq<NodeLabel>, b: seq<NodeLabel>)
    ensures NodeRun(n, a + b) == NodeRun(NodeRun(n, a), b)
    decreases |b|
  {
    hide NodeStep;
    if b == [] {
      assert a + b == a;
    } else {
      var init, last := b[..|b| - 1], b[|b| - 1];
      NodeRunConcat(n, a, init);
      assert a + b == (a + init) + [last];
      NodeRunSnoc(n, a + init, last);
    }
  }

  lemma RunOfIteration(n: GoodNode, pops: seq<NodeLabel>, tick: NodeLabel)
    ensures NodeRun(n, [Sweep] + pops + [tick, Drain])
         == NodeStep(NodeStep(NodeRun(NodeStep(n, Sweep), pops), tick), Drain)
  {
    NodeRunSnoc(n, [], Sweep);
    NodeRunConcat(n, [Sweep], pops);
    NodeRunSnoc(n, [Sweep] + pops, tick);
    NodeRunSnoc(n, [Sweep] + pops + [tick], Drain);
    assert [] + [Sweep] == [Sweep];
    assert [Sweep] + pops + [tick] + [Drain] == [Sweep] + pops + [tick, Drain];
  }

  lemma FramesSnoc(q: seq<TxItem>, i: nat)
    requires i < |q|
    ensures Frames(q[..i + 1]) == Frames(q[..i]) + [q[i].frame]
  {
  }

  // --- The object ---------------------------------------------------------------------------

  // millis()
  method Millis() returns (now: U32) {
    now := *;
  }

  class OpenDisplayComponent {
    const id: GoodIdentity
    const engine: TransferEngine
    const rx: RxQueue
    const tx: TxQueue
    var connected: bool
    var generation: U32
    ghost var air: seq<Response>

    ghost predicate Valid()
      reads this, engine, rx, rx.slots, tx, tx.slots
    {
      engine.Valid() && rx.Valid() && tx.Valid()
    }

    ghost function View(): (n: Node)
      requires Valid()
      reads this, engine, engine.backend, rx, rx.slots, tx, tx.slots
      ensures RxOk(n)
    {
      Node(id, connected, generation, engine.View(), engine.Log(), rx.Contents(), tx.items, air)
    }

    constructor (id: GoodIdentity, backend: Backend?)
      ensures Valid() && this.id == id && engine.backend == backend
      ensures fresh(engine) && fresh(rx) && fresh(rx.slots) && fresh(tx) && fresh(tx.slots)
      ensures View() == Node(id, false, 0, Boot(View().eng.cfg), engine.Log(), [], [], [])
    {
      this.id := id;
      engine := new TransferEngine(backend);
      rx := new RxQueue();
      tx := new TxQueue();
      connected, generation := false, 0;
      air := [];
    }

    method OnBleConnect()
      requires Valid()
      modifies this, engine
      ensures Valid() && View() == NodeStep(old(View()), Connect)
      ensures connected && generation == (old(generation) + 1) % 0x1_0000_0000
      ensures View().eng == old(View()).eng.(connectionGeneration := generation)
    {
      connected := true;
      generation := Inc32(generation);
      engine.SetConnectionGeneration(generation);
    }

    method OnBleDisconnect()
      requires Valid()
      modifies this
      ensures Valid() && View() == NodeStep(old(View()), Hangup)
      ensures View() == old(View()).(connected := false)
    {
      connected := false;
    }

    // A frame the ring refuses leaves no trace; one it takes is queued whole.
    method OnBleWrite(data: seq<Byte>) returns (ghost packet: RxPacket)
      requires Valid()
      modifies rx, rx.slots
      ensures Valid()
      ensures !RxAccepts(|old(View()).rx|, data) ==> View() == old(View())
      ensures RxAccepts(|old(View()).rx|, data) ==>
                packet.WellFormed() && packet.Data() == data && View() == NodeStep(old(View()), Write(packet))
    {
      var now := Millis();
      ghost var before := rx.Contents();
      var ok := rx.Push(data, generation, now);
      packet := RxPacket(0, 0, 0, []);
      if ok {
        packet := rx.Contents()[|before|];
        assert rx.Contents() == before + [packet];
      }
    }

    method SendFrame(r: Response, terminal: bool)
      requires Valid()
      modifies tx, tx.slots
      ensures Valid() && View() == Send(old(View()), r, terminal)
    {
      var ok := tx.Push(r, terminal);
    }

    method ApplyResult(res: Result)
      requires Valid()
      modifies engine, tx, tx.slots
      ensures Valid() && View() == Applied(old(View()), res)
    {
      var tail := engine.TakeTailSack();
      if tail.Some? {
        SendFrame(tail.value, true);
      }
      var terminal := res.refreshComplete || res.refreshTimeout || res.terminalError;
      if res.response != [] {
        SendFrame(res.response, terminal);
      }
      if res.refreshComplete {
        SendFrame(EncodeAck(RESP_REFRESH_SUCCESS), true);
      }
      if res.refreshTimeout {
        SendFrame(EncodeAck(RESP_REFRESH_TIMEOUT), true);
      }
    }

    // The loop over the chunks of the blob.
    method QueueChunks(blob: seq<Byte>)
      requires tx.Valid() && |blob| < TWO_TO_16
      modifies tx, tx.slots
      ensures tx.Valid() && tx.items == SendChunks(old(tx.items), ConfigBlob.ChunksFrom(blob, 0))
    {
      hide Window, Frames;
      var i := 0;
      while true
        invariant 0 <= i <= 1000 && tx.Valid()
        invariant SendChunks(tx.items, ConfigBlob.ChunksFrom(blob, i))
               == SendChunks(old(tx.items), ConfigBlob.ChunksFrom(blob, 0))
        decreases 1000 - i
      {
        var r := ConfigBlob.EncodeConfigChunk(blob, i);
        if r == [] {
          break;
        }
        assert ConfigBlob.ChunksFrom(blob, i)[1..] == ConfigBlob.ChunksFrom(blob, i + 1);
        var ok := tx.Push(r, false);
        if !ok {
          break;
        }
        i := i + 1;
      }
    }

    method SendConfig()
      requires Valid()
      modifies tx, tx.slots
      ensures Valid() && View() == ConfigSent(old(View()))
    {
      match id.blob {
        case None => SendFrame(EncodeNackErr(CMD_CONFIG_READ, 0x00), false);
        case Some(blob) => QueueChunks(blob);
      }
    }

    // The cases of handle_packet_() that do not involve the engine.
    method AnswerOther(opcode: nat)
      requires Valid()
      modifies tx, tx.slots
      ensures Valid() && View() == Answered(old(View()), opcode)
    {
      if opcode == CMD_CONFIG_READ {
        SendConfig();
      } else if opcode == CMD_FIRMWARE_VERSION {
        SendFrame(id.version, false);
      } else if opcode == CMD_READ_MSD {
        SendFrame(id.msd, false);
      } else {
        SendFrame(EncodeNack(opcode), false);
      }
    }

    // The cases that do.
    method CallEngine(pkt: RxPacket, now: U32) returns (res: Result, ghost ans: Answers)
      requires engine.Valid() && pkt.WellFormed() && pkt.length >= 2 && EventOf(pkt).Some?
      modifies engine, engine.backend
      ensures engine.Valid()
      ensures var out := Handle(old(engine.View()), Step(EventOf(pkt).value, now, ans));
              engine.View() == out.eng && res == out.res && engine.Log() == old(engine.Log()) + out.calls
    {
      hide OnDirectStart, OnDirectData, OnDirectEnd, OnPipeStart, OnPipeData, OnPipeEnd;
      var opcode := OpcodeOf(pkt);
      if opcode == CMD_DIRECT_WRITE_START {
        res, ans := engine.HandleDirectStart(pkt.length - 2, now);
      } else if opcode == CMD_DIRECT_WRITE_DATA {
        res, ans := engine.HandleDirectData(pkt.Data()[2..], now);
      } else if opcode == CMD_DIRECT_WRITE_END {
        res, ans := engine.HandleDirectEnd(now);
      } else if opcode == CMD_PIPE_WRITE_START {
        res, ans := engine.HandlePipeStart(pkt.payload[2..], pkt.length - 2, now);
      } else if opcode == CMD_PIPE_WRITE_DATA {
        res, ans := engine.HandlePipeData(pkt.Data()[2..], now);
      } else {
        res, ans := engine.HandlePipeEnd(now);
      }
    }

    method HandlePacket(pkt: RxPacket) returns (ghost now: U32, ghost ans: Answers)
      requires Valid() && pkt.WellFormed()
      modifies engine, engine.backend, tx, tx.slots
      ensures Valid() && View() == Dispatch(old(View()), pkt, now, ans)
    {
      now, ans := 0, ANY_ANSWERS;
      if pkt.length < 2 {
        return;
      }
      if EventOf(pkt).Some? {
        var clock := Millis();
        now := clock;
        var res: Result;
        res, ans := CallEngine(pkt, clock);
        ApplyResult(res);
      } else {
        AnswerOther(OpcodeOf(pkt));
      }
    }

    method DrainTx()
      requires Valid()
      modifies this`air, tx
      ensures Valid() && View() == NodeStep(old(View()), Drain)
      ensures var sent := if old(connected) then Min(4, |old(tx.items)|) else 0;
              tx.items == old(tx.items)[sent..] && air == old(air) + Frames(old(tx.items)[..sent])
    {
      if !connected {
        return;
      }
      ghost var queued := tx.items;
      var i := 0;
      while i < NOTIFICATIONS_PER_LOOP
        invariant 0 <= i <= NOTIFICATIONS_PER_LOOP && i <= |queued| && tx.Valid()
        invariant tx.items == queued[i..]
        invariant air == old(air) + Frames(queued[..i])
      {
        var ok, r := tx.Pop();
        if !ok {
          break;
        }
        FramesSnoc(queued, i);
        air := air + [r];
        i := i + 1;
      }
      assert i == Min(NOTIFICATIONS_PER_LOOP, |queued|);
    }

    method AbortTransaction()
      requires Valid()
      modifies engine, engine.backend
      ensures Valid() && View() == NodeStep(old(View()), AbortByUser)
    {
      engine.AbortTxn(InvalidState);
    }

    // --- The parts of loop() ---

    method SweepDisconnected()
      requires Valid()
      modifies engine, engine.backend
      ensures Valid() && View() == NodeStep(old(View()), Sweep)
    {
      if !connected {
        engine.HandleDisconnect(generation);
      }
    }

    method TakePacket() returns (ok: bool, ghost now: U32, ghost ans: Answers)
      requires Valid()
      modifies engine, engine.backend, rx`tail, tx, tx.slots
      ensures Valid() && View() == NodeStep(old(View()), PopOne(now, ans))
      ensures ok <==> old(View()).rx != []
      ensures !ok ==> View() == old(View())
    {
      now, ans := 0, ANY_ANSWERS;
      ghost var n := View();
      var pkt: RxPacket;
      ok, pkt := rx.Pop();
      if ok {
        assert View() == n.(rx := n.rx[1..]);
        if pkt.generation == generation {
          now, ans := HandlePacket(pkt);
        }
      }
    }

    method TickEngine(now: U32) returns (ghost ans: Answers)
      requires Valid()
      modifies engine, engine.backend, tx, tx.slots
      ensures Valid() && View() == NodeStep(old(View()), TickNow(now, ans))
    {
      hide Tick, Applied;
      var res: Result;
      res, ans := engine.HandleTick(now);
      ApplyResult(res);
    }

    // A bounded drain: the ring is empty afterwards unless eight packets were taken.
    method DrainRx() returns (ghost pops: seq<NodeLabel>)
      requires Valid()
      modifies engine, engine.backend, rx`tail, tx, tx.slots
      ensures Valid() && View() == NodeRun(old(View()), pops)
      ensures |pops| <= POPS_PER_LOOP && forall k | 0 <= k < |pops| :: pops[k].PopOne?
      ensures |pops| < POPS_PER_LOOP ==> View().rx == []
    {
      hide NodeStep, NodeRun, Window;
      ghost var start := View();
      NoSteps(start);
      pops := [];
      var i := 0;
      while i < POPS_PER_LOOP
        invariant i == |pops| <= POPS_PER_LOOP && Valid()
        invariant forall k | 0 <= k < |pops| :: pops[k].PopOne?
        invariant View() == NodeRun(start, pops)
      {
        ghost var clock, ans;
        var ok;
        ok, clock, ans := TakePacket();
        if !ok {
          break;
        }
        NodeRunSnoc(start, pops, PopOne(clock, ans));
        pops := pops + [PopOne(clock, ans)];
        i := i + 1;
      }
    }

    method Loop() returns (ghost labels: seq<NodeLabel>)
      requires Valid()
      modifies this`air, engine, engine.backend, rx`tail, tx, tx.slots
      ensures Valid() && IsIteration(labels) && View() == NodeRun(old(View()), labels)
      ensures 3 <= |labels| <= 11 && (|labels| < 11 ==> View().rx == [])
    {
      hide NodeStep, NodeRun, Window;
      ghost var start := View();
      var now := Millis();
      SweepDisconnected();
      ghost var pops := DrainRx();
      ghost var ticked := TickEngine(now);
      DrainTx();
      labels := [Sweep] + pops + [TickNow(now, ticked), Drain];
      RunOfIteration(start, pops, TickNow(now, ticked));
    }
  }
}
