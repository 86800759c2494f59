// Whose data a transfer gets. The callbacks run beside loop(), so a connection can be made between
// any two of their accesses to what they share: here each of them is a step of its own.
module Isolation {
  import opened Bytes
  import opened Wire
  import opened EngineModel
  import opened EngineRuns
  import opened EngineTheorems
  import opened Rings
  import opened Component
  import opened ComponentRuns

  type GoodPacket = p: RxPacket | p.WellFormed() witness RxPacket(0, 1, 0, seq(RX_SLOT_BYTES, _ => 0))

  // What loop() is in the middle of: it has seen that nobody is connected; it has read the
  // generation to sweep; it has taken a packet and found its generation to be the current one.
  datatype Doing = Between | Looked | Sweeping(generation: U32) | Holding(packet: GoodPacket)

  // How far on_ble_connect() has come.
  datatype Calling = Away | Announced | Raised

  datatype Fine = Fine(node: GoodNode, doing: Doing, calling: Calling)

  datatype FineLabel =
    | Announce                             // on_ble_connect(): connected
    | Raise                                // on_ble_connect(): the generation is counted up
    | HandOver                             // on_ble_connect(): and handed to the engine
    | Leave                                // on_ble_disconnect()
    | Wrote(packet: RxPacket)              // on_ble_write()
    | Look                                 // loop(): is anybody connected?
    | ReadGeneration                       // loop(): if not, which connection was the last?
    | DoSweep                              // loop(): on_disconnect() for that one
    | Take                                 // loop(): a packet off the ring, its generation compared
    | HandleHeld(now: U32, ans: Answers)   // loop(): the packet handled
    | Rest(inner: NodeLabel)               // loop(): the tick, the notifications, an abort

  // Labels that are not possible leave the state unchanged, so every label sequence is a run. One
  // callback runs at a time, and loop() does one thing after the other.
  function FineStep(s: Fine, l: FineLabel): Fine {
    var n := s.node;
    match l
    case Announce => if s.calling.Away? then s.(calling := Announced, node := n.(connected := true)) else s
    case Raise =>
      if s.calling.Announced? then s.(calling := Raised, node := n.(generation := Inc32(n.generation))) else s
    case HandOver =>
      if s.calling.Raised?
      then s.(calling := Away, node := n.(eng := n.eng.(connectionGeneration := n.generation)))
      else s
    case Leave => if s.calling.Away? then s.(node := NodeStep(n, Hangup)) else s
    case Wrote(packet) => if s.calling.Away? then s.(node := NodeStep(n, Write(packet))) else s
    case Look => if s.doing.Between? && !n.connected then s.(doing := Looked) else s
    case ReadGeneration => if s.doing.Looked? then s.(doing := Sweeping(n.generation)) else s
    case DoSweep =>
      if !s.doing.Sweeping? then s
      else
        var out := OnDisconnect(n.eng, s.doing.generation);
        s.(doing := Between, node := n.(eng := out.eng, log := n.log + out.calls))
    case Take =>
      if !s.doing.Between? || n.rx == [] then s
      else
        var m := n.(rx := n.rx[1..]);
        if n.rx[0].generation != n.generation then s.(node := m) else s.(node := m, doing := Holding(n.rx[0]))
    case HandleHeld(now, ans) =>
      if !s.doing.Holding? then s
      else s.(doing := Between, node := Dispatch(n, s.doing.packet, now, ans))
    case Rest(inner) =>
      if s.doing.Between? && (inner.TickNow? || inner.Drain? || inner.AbortByUser?)
      then s.(node := NodeStep(n, inner))
      else s
  }

  function FineRun(s: Fine, labels: seq<FineLabel>): Fine {
    if labels == [] then s else FineStep(FineRun(s, labels[..|labels| - 1]), labels[|labels| - 1])
  }

  lemma FineRunSnoc(s: Fine, labels: seq<FineLabel>, l: FineLabel)
    ensures FineRun(s, labels + [l]) == FineStep(FineRun(s, labels), l)
  {
    assert (labels + [l])[..|labels|] == labels;
  }

  lemma {:induction false} FineRunConcat(s: Fine, a: seq<FineLabel>, b: seq<FineLabel>)
    ensures FineRun(s, a + b) == FineRun(FineRun(s, a), b)
    decreases |b|
  {
    hide FineStep;
    if b == [] {
      assert a + b == a;
    } else {
      var init, last := b[..|b| - 1], b[|b| - 1];
      FineRunConcat(s, a, init);
      assert a + b == (a + init) + [last];
      FineRunSnoc(s, a + init, last);
    }
  }

  function AtRest(n: GoodNode): Fine {
    Fine(n, Between, Away)
  }

  // --- The runs of the other theorems are among these --------------------------------------------

  // A step of the component, access by access.
  function Accesses(l: NodeLabel): seq<FineLabel> {
    match l
    case Connect => [Announce, Raise, HandOver]
    case Hangup => [Leave]
    case Write(packet) => [Wrote(packet)]
    case Sweep => [Look, ReadGeneration, DoSweep]
    case PopOne(now, ans) => [Take, HandleHeld(now, ans)]
    case _ => [Rest(l)]
  }

  function AllAccesses(labels: seq<NodeLabel>): seq<FineLabel> {
    if labels == [] then [] else AllAccesses(labels[..|labels| - 1]) + Accesses(labels[|labels| - 1])
  }

  lemma ThreeSteps(s: Fine, a: FineLabel, b: FineLabel, c: FineLabel)
    ensures FineRun(s, [a]) == FineStep(s, a)
    ensures FineRun(s, [a, b]) == FineStep(FineStep(s, a), b)
    ensures FineRun(s, [a, b, c]) == FineStep(FineStep(FineStep(s, a), b), c)
  {
    assert FineRun(s, []) == s;
    hide FineStep, FineRun;
    FineRunSnoc(s, [], a);
    FineRunSnoc(s, [a], b);
    FineRunSnoc(s, [a, b], c);
    assert [] + [a] == [a] && [a] + [b] == [a, b] && [a, b] + [c] == [a, b, c];
  }

  lemma LoopByAccesses(n: GoodNode, l: NodeLabel)
    requires l.Sweep? || l.PopOne?
    ensures FineRun(AtRest(n), Accesses(l)) == AtRest(NodeStep(n, l))
  {
    hide Dispatch, OnDisconnect, FineRun;
    if l.Sweep? {
      ThreeSteps(AtRest(n), Look, ReadGeneration, DoSweep);
    } else {
      ThreeSteps(AtRest(n), Take, HandleHeld(l.now, l.ans), Leave);
    }
  }

  lemma StepByAccesses(n: GoodNode, l: NodeLabel)
    ensures FineRun(AtRest(n), Accesses(l)) == AtRest(NodeStep(n, l))
  {
    hide Dispatch, Handle, FineRun;
    var s := AtRest(n);
    match l {
      case Connect => ThreeSteps(s, Announce, Raise, HandOver);
      case Sweep => LoopByAccesses(n, l);
      case PopOne(_, _) => LoopByAccesses(n, l);
      case Hangup => ThreeSteps(s, Leave, Leave, Leave);
      case Write(packet) => ThreeSteps(s, Wrote(packet), Leave, Leave);
      case _ => ThreeSteps(s, Rest(l), Leave, Leave);
    }
  }

  // What the component does with each of its steps in one piece, it can do with them in pieces.
  lemma {:induction false} RunByAccesses(n: GoodNode, labels: seq<NodeLabel>)
    ensures FineRun(AtRest(n), AllAccesses(labels)) == AtRest(NodeRun(n, labels))
    decreases |labels|
  {
    hide FineStep, NodeStep, Accesses;
    if labels == [] {
    } else {
      var init, last := labels[..|labels| - 1], labels[|labels| - 1];
      RunByAccesses(n, init);
      StepByAccesses(NodeRun(n, init), last);
      FineRunConcat(AtRest(n), AllAccesses(init), Accesses(last));
    }
  }

  // --- And are runs of the engine themselves -------------------------------------------------------

  function HeldEvent(s: Fine): (ev: Option<Event>)
    ensures ev.Some? ==> EventOk(ev.value)
  {
    if s.doing.Holding? && s.doing.packet.length >= 2 then EventOf(s.doing.packet) else None
  }

  function StepsOf(s: Fine, l: FineLabel): seq<Step> {
    match l
    case HandOver => if s.calling.Raised? then [Quietly(SetGeneration(s.node.generation))] else []
    case DoSweep => if s.doing.Sweeping? then [Quietly(Disconnect(s.doing.generation))] else []
    case HandleHeld(now, ans) =>
      if HeldEvent(s).Some? then [Step(HeldEvent(s).value, now, ans), TAIL_TAKEN] else []
    case Rest(inner) =>
      if s.doing.Between? && (inner.TickNow? || inner.AbortByUser?) then EngineStepsAt(s.node, inner) else []
    case _ => []
  }

  function StepsOfRun(s: Fine, labels: seq<FineLabel>): seq<Step> {
    if labels == [] then []
    else
      var init := labels[..|labels| - 1];
      StepsOfRun(s, init) + StepsOf(FineRun(s, init), labels[|labels| - 1])
  }

  // The step is the same to the engine as these.
  predicate ByEngineSteps(s: Fine, l: FineLabel) {
    && FineStep(s, l).node.eng == After(s.node.eng, StepsOf(s, l))
    && FineStep(s, l).node.log == s.node.log + Log(s.node.eng, StepsOf(s, l))
  }

  lemma QuietIsEngineSteps(s: Fine, l: FineLabel)
    requires !l.HandleHeld? && !l.Rest?
    ensures ByEngineSteps(s, l)
  {
    if l.HandOver? {
      AfterOne(s.node.eng, Quietly(SetGeneration(s.node.generation)));
    } else if l.DoSweep? && s.doing.Sweeping? {
      AfterOne(s.node.eng, Quietly(Disconnect(s.doing.generation)));
    }
  }

  lemma HandleIsEngineSteps(s: Fine, now: U32, ans: Answers)
    ensures ByEngineSteps(s, HandleHeld(now, ans))
  {
    hide Handle;
    if HeldEvent(s).Some? {
      EngineDoesTwoSteps(s.node, Step(HeldEvent(s).value, now, ans));
      hide EngineDoes, After, Log;
    } else if s.doing.Holding? {
      DispatchAnswers(s.node, s.doing.packet, now, ans);
      hide Dispatch;
    }
  }

  lemma DispatchAnswers(m: GoodNode, p: GoodPacket, now: U32, ans: Answers)
    requires p.length < 2 || EventOf(p).None?
    ensures var x := Dispatch(m, p, now, ans); RxOk(x) && x.eng == m.eng && x.log == m.log
  {
  }

  lemma RestIsEngineSteps(s: Fine, inner: NodeLabel)
    ensures ByEngineSteps(s, Rest(inner))
  {
    if s.doing.Between? && (inner.TickNow? || inner.Drain? || inner.AbortByUser?) {
      NodeStepIsEngineSteps(s.node, inner);
      hide NodeStep, Handle, After, Log;
    }
  }

  lemma FineStepIsEngineSteps(s: Fine, l: FineLabel)
    ensures ByEngineSteps(s, l)
  {
    hide ByEngineSteps;
    match l {
      case HandleHeld(now, ans) => HandleIsEngineSteps(s, now, ans);
      case Rest(inner) => RestIsEngineSteps(s, inner);
      case _ => QuietIsEngineSteps(s, l);
    }
  }

  // So everything proved of every run of the engine holds whatever the callbacks interrupt.
  lemma {:induction false} FineRunIsEngineRun(n: GoodNode, labels: seq<FineLabel>)
    requires Fresh(n)
    ensures var m := FineRun(AtRest(n), labels).node;
            && m.eng == After(Boot(n.eng.cfg), StepsOfRun(AtRest(n), labels))
            && m.log == Log(Boot(n.eng.cfg), StepsOfRun(AtRest(n), labels))
            && Inv(m.eng, BookOf(m)) && m.eng.cfg == n.eng.cfg
    decreases |labels|
  {
    hide FineStep;
    var s := AtRest(n);
    if labels == [] {
      assert FineRun(s, labels) == s;
    } else {
      var init, last := labels[..|labels| - 1], labels[|labels| - 1];
      FineRunIsEngineRun(n, init);
      FineStepIsEngineSteps(FineRun(s, init), last);
      AfterConcat(Boot(n.eng.cfg), StepsOfRun(s, init), FineRun(s, init).node.eng, StepsOf(FineRun(s, init), last));
    }
    RunKeepsInv(n.eng.cfg, StepsOfRun(s, labels));
  }

  // --- What one event can do to the open transfer ------------------------------------------------

  // An open DIRECT transfer that has all its bytes: another DATA frame can only abort it.
  predicate FullDirect(e: Engine) {
    e.txn.mode == Direct && e.txn.acceptedBytes == e.txn.expectedFrameBytes
  }

  // The engine would take data for the open transfer from whoever sends it next.
  predicate Open(e: Engine) {
    e.txn.state == Receiving && !FullDirect(e)
  }

  // What one event can do to the open transfer, whatever state the engine is in.
  predicate Sheltered(e: Engine, out: Outcome) {
    && out.eng.connectionGeneration == e.connectionGeneration
    && (out.res.transferStarted ==> out.eng.txn.connectionGeneration == e.connectionGeneration)
    && (!out.res.transferStarted && Open(out.eng) ==>
          Open(e) && out.eng.txn.connectionGeneration == e.txn.connectionGeneration)
    && (Took(out) ==> Open(e))
  }

  lemma StoreSheltered(e: Engine, seqNo: Byte, data: seq<Byte>, now: U32, ans: Answers)
    requires e.txn.state == Receiving && e.txn.mode == Pipe
    ensures Sheltered(e, StoreChunk(e, seqNo, data, now, ans))
    ensures !StoreChunk(e, seqNo, data, now, ans).res.transferStarted
  {
    var a := AcceptChunk(e, seqNo, data, now);
    assert Sheltered(e, AckOrFinish(a, now, ans));
  }

  lemma PipeDataSheltered(e: Engine, payload: seq<Byte>, now: U32, ans: Answers)
    ensures Sheltered(e, OnPipeData(e, payload, now, ans))
  {
    if e.txn.state == Receiving && e.txn.mode == Pipe && payload != [] {
      StoreSheltered(e, payload[0], payload[1..], now, ans);
    }
  }

  lemma DirectDataSheltered(e: Engine, payload: seq<Byte>, now: U32, ans: Answers)
    ensures Sheltered(e, OnDirectData(e, payload, now, ans))
  {
  }

  lemma BeginSheltered(e: Engine, mode: Mode, total: U32, now: U32, ans: Answers)
    ensures var b := BeginTransaction(e, mode, total, now, ans);
            && b.eng.connectionGeneration == e.connectionGeneration
            && (b.why == NoError ==> b.eng.txn.connectionGeneration == e.connectionGeneration)
            && (b.why != NoError && b.eng.txn.state == Receiving ==> b.eng.txn == e.txn)
            && !(|b.calls| > 0 && b.calls[0].WriteContiguous?)
  {
  }

  lemma StartSheltered(e: Engine, s: Step)
    requires IsStart(s.ev)
    ensures Sheltered(e, Handle(e, s))
  {
    match s.ev {
      case DirectStart(len) =>
        BeginSheltered(e, Direct, if e.cfg.attached then e.cfg.fullFrameBytes else 0, s.now, s.ans);
      case PipeStart(memory, len) =>
        var p := ParsePipeStart(memory, len);
        if p.Accepted? {
          BeginSheltered(e, Pipe, p.req.totalSize, s.now, s.ans);
        }
    }
  }

  lemma EndSheltered(e: Engine, now: U32, ans: Answers)
    ensures Sheltered(e, OnDirectEnd(e, now, ans)) && Sheltered(e, OnPipeEnd(e, now, ans))
  {
  }

  lemma TickSheltered(e: Engine, now: U32, ans: Answers)
    ensures Sheltered(e, Tick(e, now, ans))
  {
  }

  lemma EventSheltered(e: Engine, s: Step)
    requires !s.ev.SetGeneration?
    ensures Sheltered(e, Handle(e, s))
  {
    match s.ev {
      case DirectStart(_) => StartSheltered(e, s);
      case PipeStart(_, _) => StartSheltered(e, s);
      case DirectData(payload) => DirectDataSheltered(e, payload, s.now, s.ans);
      case PipeData(payload) => PipeDataSheltered(e, payload, s.now, s.ans);
      case DirectEnd => EndSheltered(e, s.now, s.ans);
      case PipeEnd => EndSheltered(e, s.now, s.ans);
      case TickAt => TickSheltered(e, s.now, s.ans);
      case _ =>
    }
  }

  // --- Connection isolation --------------------------------------------------------------------

  // The run with its history: the connection whose packet started the open transaction, and the
  // connections whose packets contributed data to it.
  datatype Trace = Trace(run: Fine, starter: U32, origins: seq<U32>)

  function TraceStep(t: Trace, l: FineLabel): Trace {
    var s := FineStep(t.run, l);
    if l.HandleHeld? && HeldEvent(t.run).Some? then
      var from := t.run.doing.packet.generation;
      var out := Handle(t.run.node.eng, Step(HeldEvent(t.run).value, l.now, l.ans));
      if out.res.transferStarted then Trace(s, from, [])
      else if Took(out) then Trace(s, t.starter, t.origins + [from])
      else t.(run := s)
    else t.(run := s)
  }

  function TraceRun(t: Trace, labels: seq<FineLabel>): Trace {
    if labels == [] then t else TraceStep(TraceRun(t, labels[..|labels| - 1]), labels[|labels| - 1])
  }

  function TraceStart(n: GoodNode): Trace {
    Trace(AtRest(n), 0, [])
  }

  predicate Isolated(t: Trace) {
    forall g | g in t.origins :: g == t.starter
  }

  // The engine once loop() is done with what it is in the middle of, if the backend plays along.
  function Ahead(s: Fine): Engine {
    match s.doing
    case Sweeping(g) => OnDisconnect(s.node.eng, g).eng
    case Holding(_) =>
      if HeldEvent(s).Some? then Handle(s.node.eng, Step(HeldEvent(s).value, 0, YES)).eng else s.node.eng
    case _ => s.node.eng
  }

  // A connection made now finds a transfer open that takes data from whoever sends them, or a START
  // between its check and its handler that is about to open one.
  predicate Exposed(s: Fine) {
    Open(Ahead(s))
  }

  function Raises(labels: seq<FineLabel>): nat {
    if labels == [] then 0
    else Raises(labels[..|labels| - 1]) + (if labels[|labels| - 1].Raise? then 1 else 0)
  }

  // No connection of the run is made at such a moment.
  predicate Calm(t: Trace, labels: seq<FineLabel>) {
    labels == []
    || (Calm(t, labels[..|labels| - 1])
        && (labels[|labels| - 1].Raise? ==> !Exposed(TraceRun(t, labels[..|labels| - 1]).run)))
  }

  predicate StartsAhead(s: Fine) {
    HeldEvent(s).Some? && Handle(s.node.eng, Step(HeldEvent(s).value, 0, YES)).res.transferStarted
  }

  // The connection that starts, or started, the transfer loop() is about to leave open.
  function Owner(t: Trace): U32 {
    if StartsAhead(t.run) then t.run.doing.packet.generation else t.starter
  }

  predicate NoneNewer(q: seq<RxPacket>, generation: int) {
    forall i | 0 <= i < |q| :: q[i].generation <= generation
  }

  // While a connection is being made no packet of it is there and nothing is or will be open.
  predicate InPlace(s: Fine) {
    && (s.calling.Raised? ==> s.node.generation > 0 && !Exposed(s))
    && s.node.eng.connectionGeneration == s.node.generation - (if s.calling.Raised? then 1 else 0)
    && NoneNewer(s.node.rx, s.node.eng.connectionGeneration)
    && (s.doing.Holding? ==> s.doing.packet.generation <= s.node.eng.connectionGeneration)
    && (Exposed(s) ==> Ahead(s).txn.connectionGeneration == s.node.generation)
  }

  predicate IsoInv(t: Trace) {
    && Isolated(t) && InPlace(t.run)
    && (Exposed(t.run) ==> Owner(t) == t.run.node.generation)
    && (t.run.doing.Holding? && Open(t.run.node.eng) ==> t.run.doing.packet.generation == t.starter)
  }

  // The events a packet can bring.
  predicate FromPacket(ev: Event) {
    IsStart(ev) || ev.DirectData? || ev.PipeData? || ev.DirectEnd? || ev.PipeEnd?
  }

  // What a packet does to the open transfer does not depend on the generation the engine was handed.
  predicate SameOpen(out: Outcome, out': Outcome) {
    Open(out.eng) == Open(out'.eng) && out.res.transferStarted == out'.res.transferStarted
  }

  predicate Aside(e: Engine, d: Engine) {
    d == e.(connectionGeneration := d.connectionGeneration)
  }

  lemma FinishAside(e: Engine, d: Engine, endOpcode: nat, now: U32, ans: Answers)
    requires Aside(e, d)
    ensures SameOpen(FinishAndRefresh(e, endOpcode, now, ans), FinishAndRefresh(d, endOpcode, now, ans))
  {
  }

  lemma AckOrFinishAside(e: Engine, d: Engine, now: U32, ans: Answers)
    requires Aside(e, d)
    ensures SameOpen(AckOrFinish(e, now, ans), AckOrFinish(d, now, ans))
  {
    FinishAside(e.(tail := Some(CurrentSack(e.txn)), txn := e.txn.(acceptedSinceAck := 0)),
                d.(tail := Some(CurrentSack(d.txn)), txn := d.txn.(acceptedSinceAck := 0)),
                CMD_PIPE_WRITE_END, now, ans);
    hide FinishAndRefresh;
  }

  lemma StoreAside(e: Engine, d: Engine, seqNo: Byte, data: seq<Byte>, now: U32, ans: Answers)
    requires Aside(e, d)
    ensures SameOpen(StoreChunk(e, seqNo, data, now, ans), StoreChunk(d, seqNo, data, now, ans))
  {
    AckOrFinishAside(AcceptChunk(e, seqNo, data, now), AcceptChunk(d, seqNo, data, now), now, ans);
    hide AckOrFinish;
  }

  lemma PipeDataAside(e: Engine, d: Engine, payload: seq<Byte>, now: U32, ans: Answers)
    requires Aside(e, d)
    ensures SameOpen(OnPipeData(e, payload, now, ans), OnPipeData(d, payload, now, ans))
  {
    hide StoreChunk;
    if payload != [] {
      StoreAside(e, d, payload[0], payload[1..], now, ans);
    }
  }

  lemma EndAside(e: Engine, d: Engine, now: U32, ans: Answers)
    requires Aside(e, d)
    ensures SameOpen(OnDirectEnd(e, now, ans), OnDirectEnd(d, now, ans))
    ensures SameOpen(OnPipeEnd(e, now, ans), OnPipeEnd(d, now, ans))
  {
    hide FinishAndRefresh;
    var t := e.txn.(acceptedSinceAck := 0);
    FinishAside(e, d, CMD_DIRECT_WRITE_END, now, ans);
    FinishAside(e, d, CMD_PIPE_WRITE_END, now, ans);
    FinishAside(e.(txn := t, tail := Some(CurrentSack(t))), d.(txn := t, tail := Some(CurrentSack(t))),
                CMD_PIPE_WRITE_END, now, ans);
  }

  lemma BeginAside(e: Engine, d: Engine, mode: Mode, total: U32, now: U32, ans: Answers)
    requires Aside(e, d)
    ensures var a, b := BeginTransaction(e, mode, total, now, ans), BeginTransaction(d, mode, total, now, ans);
            a.why == b.why && Open(a.eng) == Open(b.eng)
  {
  }

  lemma StartAside(e: Engine, d: Engine, s: Step)
    requires Aside(e, d) && IsStart(s.ev)
    ensures SameOpen(Handle(e, s), Handle(d, s))
  {
    hide BeginTransaction, ParsePipeStart;
    match s.ev {
      case DirectStart(len) =>
        BeginAside(e, d, Direct, if e.cfg.attached then e.cfg.fullFrameBytes else 0, s.now, s.ans);
      case PipeStart(memory, len) =>
        var p := ParsePipeStart(memory, len);
        if p.Accepted? {
          BeginAside(e, d, Pipe, p.req.totalSize, s.now, s.ans);
        }
    }
  }

  lemma GenerationIsAside(e: Engine, d: Engine, s: Step)
    requires Aside(e, d) && FromPacket(s.ev)
    ensures SameOpen(Handle(e, s), Handle(d, s))
  {
    hide OnPipeData, OnDirectEnd, OnPipeEnd, OnDirectStart, OnPipeStart;
    match s.ev {
      case PipeData(payload) => PipeDataAside(e, d, payload, s.now, s.ans);
      case DirectStart(_) => StartAside(e, d, s);
      case PipeStart(_, _) => StartAside(e, d, s);
      case DirectEnd => EndAside(e, d, s.now, s.ans);
      case PipeEnd => EndAside(e, d, s.now, s.ans);
      case DirectData(_) =>
    }
  }

  // A backend that plays along leaves a transfer open if any does.
  predicate Along(out: Outcome, best: Outcome) {
    && (Open(out.eng) ==>
          Open(best.eng) && best.eng.txn.connectionGeneration == out.eng.txn.connectionGeneration)
    && (out.res.transferStarted ==> best.res.transferStarted)
    && (Open(out.eng) && best.res.transferStarted ==> out.res.transferStarted)
    && (Took(out) ==> !best.res.transferStarted)
  }

  lemma PlayingAlongOpensMost(e: Engine, ev: GoodEvent, now: U32, ans: Answers)
    requires FromPacket(ev)
    ensures Along(Handle(e, Step(ev, now, ans)), Handle(e, Step(ev, 0, YES)))
  {
    hide OnDirectStart, OnDirectData, OnDirectEnd, OnPipeStart, OnPipeData, OnPipeEnd, Along;
    match ev {
      case PipeData(payload) => PipeDataAlong(e, payload, now, ans);
      case DirectStart(_) => StartAlong(e, ev, now, ans);
      case PipeStart(_, _) => StartAlong(e, ev, now, ans);
      case DirectData(payload) => DirectDataAlong(e, payload, now, ans);
      case DirectEnd => EndAlong(e, now, ans);
      case PipeEnd => EndAlong(e, now, ans);
    }
  }

  lemma StartAlong(e: Engine, ev: GoodEvent, now: U32, ans: Answers)
    requires IsStart(ev)
    ensures Along(Handle(e, Step(ev, now, ans)), Handle(e, Step(ev, 0, YES)))
  {
    hide ParsePipeStart, EncodePipeStartResponse;
  }

  lemma DirectDataAlong(e: Engine, payload: seq<Byte>, now: U32, ans: Answers)
    ensures Along(OnDirectData(e, payload, now, ans), OnDirectData(e, payload, 0, YES))
  {
  }

  lemma EndAlong(e: Engine, now: U32, ans: Answers)
    ensures Along(OnDirectEnd(e, now, ans), OnDirectEnd(e, 0, YES))
    ensures Along(OnPipeEnd(e, now, ans), OnPipeEnd(e, 0, YES))
  {
  }

  lemma PipeDataAlong(e: Engine, payload: seq<Byte>, now: U32, ans: Answers)
    ensures Along(OnPipeData(e, payload, now, ans), OnPipeData(e, payload, 0, YES))
  {
  }

  lemma HandOverKeepsIso(t: Trace)
    requires IsoInv(t)
    ensures IsoInv(TraceStep(t, HandOver))
    ensures TraceStep(t, HandOver).run.node.generation == t.run.node.generation
  {
    hide Handle;
    var s := t.run;
    if s.calling.Raised? {
      var d := s.node.eng.(connectionGeneration := s.node.generation);
      if HeldEvent(s).Some? {
        GenerationIsAside(s.node.eng, d, Step(HeldEvent(s).value, 0, YES));
      }
      assert HeldEvent(FineStep(s, HandOver)) == HeldEvent(s);
      assert !Exposed(FineStep(s, HandOver));
    }
  }

  // A packet is taken whose connection is still the current one.
  lemma TakeKeepsIso(t: Trace)
    requires IsoInv(t)
    ensures IsoInv(TraceStep(t, Take))
    ensures TraceStep(t, Take).run.node.generation == t.run.node.generation
  {
    hide Handle;
    var s := t.run;
    if s.doing.Between? && s.node.rx != [] && s.node.rx[0].generation == s.node.generation {
      var u := FineStep(s, Take);
      if HeldEvent(u).Some? {
        EventSheltered(s.node.eng, Step(HeldEvent(u).value, 0, YES));
      }
    }
  }

  lemma DispatchKeepsPlace(n: Node, pkt: RxPacket, now: U32, ans: Answers)
    requires pkt.WellFormed()
    ensures var m := Dispatch(n, pkt, now, ans);
            && m.rx == n.rx && m.generation == n.generation && m.connected == n.connected
            && (pkt.length >= 2 && EventOf(pkt).Some? ==>
                  m.eng == Handle(n.eng, Step(EventOf(pkt).value, now, ans)).eng.(tail := None))
            && (!(pkt.length >= 2 && EventOf(pkt).Some?) ==> m.eng == n.eng)
  {
    hide Handle;
    if pkt.length >= 2 && EventOf(pkt).Some? {
      var out := Handle(n.eng, Step(EventOf(pkt).value, now, ans));
      AppliedTakesTail(n.(eng := out.eng, log := n.log + out.calls), out.res);
    }
  }

  lemma HandleKeepsIso(t: Trace, now: U32, ans: Answers)
    requires IsoInv(t)
    ensures IsoInv(TraceStep(t, HandleHeld(now, ans)))
    ensures TraceStep(t, HandleHeld(now, ans)).run.node.generation == t.run.node.generation
  {
    var s := t.run;
    hide Handle, Dispatch;
    if s.doing.Holding? {
      DispatchKeepsPlace(s.node, s.doing.packet, now, ans);
      if HeldEvent(s).Some? {
        PlayingAlongOpensMost(s.node.eng, HeldEvent(s).value, now, ans);
        EventSheltered(s.node.eng, Step(HeldEvent(s).value, now, ans));
      }
    }
  }

  lemma RestKeepsIso(t: Trace, inner: NodeLabel)
    requires IsoInv(t)
    ensures IsoInv(TraceStep(t, Rest(inner)))
    ensures TraceStep(t, Rest(inner)).run.node.generation == t.run.node.generation
  {
    hide Handle, Dispatch;
    var n := t.run.node;
    if t.run.doing.Between? && inner.TickNow? {
      var step := Step(TickAt, inner.now, inner.ans);
      var out := Handle(n.eng, step);
      EventSheltered(n.eng, step);
      TickStartsNothing(n.eng, step);
      AppliedTakesTail(n.(eng := out.eng, log := n.log + out.calls), out.res);
    }
  }

  lemma TickStartsNothing(e: Engine, s: Step)
    requires s.ev.TickAt?
    ensures !Handle(e, s).res.transferStarted
  {
  }

  lemma CallbackKeepsIso(t: Trace, l: FineLabel)
    requires IsoInv(t) && (l.Announce? || l.Raise? || l.Leave? || l.Wrote?)
    requires l.Raise? ==> !Exposed(t.run) && t.run.node.generation + 1 < TWO_TO_32
    ensures IsoInv(TraceStep(t, l))
    ensures TraceStep(t, l).run.node.generation <= t.run.node.generation + (if l.Raise? then 1 else 0)
  {
    hide Handle;
    assert HeldEvent(FineStep(t.run, l)) == HeldEvent(t.run);
  }

  lemma SweepKeepsIso(t: Trace, l: FineLabel)
    requires IsoInv(t) && (l.Look? || l.ReadGeneration? || l.DoSweep?)
    ensures IsoInv(TraceStep(t, l))
    ensures TraceStep(t, l).run.node.generation == t.run.node.generation
  {
    hide Handle;
  }

  lemma StepKeepsIso(t: Trace, l: FineLabel)
    requires IsoInv(t) && (l.Raise? ==> !Exposed(t.run) && t.run.node.generation + 1 < TWO_TO_32)
    ensures IsoInv(TraceStep(t, l))
    ensures TraceStep(t, l).run.node.generation <= t.run.node.generation + (if l.Raise? then 1 else 0)
  {
    hide TraceStep, IsoInv, Exposed;
    match l {
      case HandOver => HandOverKeepsIso(t);
      case Take => TakeKeepsIso(t);
      case HandleHeld(now, ans) => HandleKeepsIso(t, now, ans);
      case Rest(inner) => RestKeepsIso(t, inner);
      case Look => SweepKeepsIso(t, l);
      case ReadGeneration => SweepKeepsIso(t, l);
      case DoSweep => SweepKeepsIso(t, l);
      case _ => CallbackKeepsIso(t, l);
    }
  }

  // In every run with fewer than 2^32 connections, none of them made while a transfer is open or a
  // START about to open one, all data of a transfer come from packets of the connection that
  // started it, wherever the callbacks interrupt loop().
  lemma {:induction false} ConnectionIsolation(n: GoodNode, labels: seq<FineLabel>)
    requires Fresh(n) && Calm(TraceStart(n), labels) && Raises(labels) < TWO_TO_32
    ensures var t := TraceRun(TraceStart(n), labels);
            && Isolated(t) && IsoInv(t) && t.run.node.generation <= Raises(labels)
            && t.run == FineRun(AtRest(n), labels)
    decreases |labels|
  {
    hide FineStep, IsoInv;
    if labels == [] {
      StartIsIso(n);
    } else {
      ConnectionIsolation(n, labels[..|labels| - 1]);
      StepKeepsIso(TraceRun(TraceStart(n), labels[..|labels| - 1]), labels[|labels| - 1]);
    }
    IsoIsIsolated(TraceRun(TraceStart(n), labels));
  }

  lemma StartIsIso(n: GoodNode)
    requires Fresh(n)
    ensures IsoInv(TraceStart(n))
  {
  }

  lemma IsoIsIsolated(t: Trace)
    requires IsoInv(t)
    ensures Isolated(t) && InPlace(t.run)
  {
  }

  // --- What happens otherwise ----------------------------------------------------------------------

  lemma TraceRunSnoc(t: Trace, labels: seq<FineLabel>, l: FineLabel)
    ensures TraceRun(t, labels + [l]) == TraceStep(TraceRun(t, labels), l)
  {
    assert (labels + [l])[..|labels|] == labels;
  }

  lemma {:induction false} TraceRunConcat(t: Trace, a: seq<FineLabel>, b: seq<FineLabel>)
    ensures TraceRun(t, a + b) == TraceRun(TraceRun(t, a), b)
    decreases |b|
  {
    hide TraceStep;
    if b == [] {
      assert a + b == a;
    } else {
      var init, last := b[..|b| - 1], b[|b| - 1];
      TraceRunConcat(t, a, init);
      assert a + b == (a + init) + [last];
      TraceRunSnoc(t, a + init, last);
    }
  }

  predicate NoRaise(labels: seq<FineLabel>) {
    forall l | l in labels :: !l.Raise?
  }

  function Takes(k: nat): (r: seq<FineLabel>)
    ensures |r| == k && NoRaise(r)
  {
    if k == 0 then [] else Takes(k - 1) + [Take]
  }

  lemma OneMoreTake(t: Trace, k: nat)
    ensures TraceRun(t, Takes(0)) == t
    ensures k > 0 ==> TraceRun(t, Takes(k)) == TraceStep(TraceRun(t, Takes(k - 1)), Take)
  {
    hide TraceStep;
    assert TraceRun(t, []) == t;
    if k > 0 {
      TraceRunSnoc(t, Takes(k - 1), Take);
    }
  }

  // The ring without its first k packets.
  function Skipped(t: Trace, k: nat): Trace
    requires k <= |t.run.node.rx|
  {
    t.(run := t.run.(node := t.run.node.(rx := t.run.node.rx[k..])))
  }

  lemma StalePacketSkipped(t: Trace, k: nat)
    requires t.run.doing.Between? && k < |t.run.node.rx| && t.run.node.rx[k].generation != t.run.node.generation
    ensures TraceStep(Skipped(t, k), Take) == Skipped(t, k + 1)
  {
    var q := t.run.node.rx;
    assert q[k..][0] == q[k] && q[k..][1..] == q[k + 1..];
  }

  // A packet written before a new connection, and not taken before it, never reaches a handler:
  // taking it changes nothing but the ring.
  lemma {:induction false} StalePacketsSkipped(t: Trace, k: nat)
    requires t.run.doing.Between? && k <= |t.run.node.rx|
    requires forall i | 0 <= i < k :: t.run.node.rx[i].generation != t.run.node.generation
    ensures TraceRun(t, Takes(k)) == Skipped(t, k)
    decreases k
  {
    OneMoreTake(t, k);
    if k == 0 {
      assert t.run.node.rx[0..] == t.run.node.rx;
    } else {
      hide TraceStep, TraceRun, Takes, Skipped;
      StalePacketsSkipped(t, k - 1);
      StalePacketSkipped(t, k - 1);
    }
  }

  // A frame an open transfer cannot tell from the next one of its own client.
  function IntrudingFrame(e: Engine): (f: seq<Byte>)
    ensures |f| == 3
  {
    if e.txn.mode == Pipe then [0x00, 0x81, e.txn.nextPipeSequence] else [0x00, 0x71, 0x00]
  }

  lemma IntruderTaken(e: Engine, l: Ledger, p: RxPacket)
    requires Inv(e, l) && Open(e) && p == PacketWith(IntrudingFrame(e), p.generation)
    ensures EventOf(p).Some?
    ensures var out := Handle(e, Step(EventOf(p).value, 0, YES)); Took(out) && !out.res.transferStarted
  {
    assert p.Data() == IntrudingFrame(e);
    assert p.payload[0] == p.Data()[0] && p.payload[1] == p.Data()[1];
    if e.txn.mode == Pipe {
      assert EventOf(p) == Some(PipeData(p.Data()[2..]));
      assert p.Data()[2..] == [e.txn.nextPipeSequence];
      EmptyChunkTaken(e, l, 0);
    } else {
      assert EventOf(p) == Some(DirectData(p.Data()[2..]));
    }
  }

  lemma EmptyChunkTaken(e: Engine, l: Ledger, now: U32)
    requires Inv(e, l) && e.txn.state == Receiving && e.txn.mode == Pipe
    ensures var out := OnPipeData(e, [e.txn.nextPipeSequence], now, YES); Took(out) && !out.res.transferStarted
  {
    assert [e.txn.nextPipeSequence][1..] == [];
    StoreSheltered(e, e.txn.nextPipeSequence, [], now, YES);
  }

  // loop() finishes what it is in the middle of while the connection is being made.
  function Finishing(s: Fine): (labels: seq<FineLabel>)
    ensures NoRaise(labels)
  {
    match s.doing
    case Between => []
    case Looked => [ReadGeneration, DoSweep]
    case Sweeping(_) => [DoSweep]
    case Holding(_) => [HandleHeld(0, YES)]
  }

  // A connection made while a transfer is open or about to be: the transfer is not its own, and open
  // once the connection is made.
  ghost predicate Intruded(t: Trace, generation: U32) {
    && t.run.doing.Between? && t.run.calling.Away? && Open(t.run.node.eng) && Inv(t.run.node.eng, BookOf(t.run.node))
    && t.run.node.generation == generation != t.starter && NoneNewer(t.run.node.rx, generation - 1)
  }

  // The same before the hand-over.
  ghost predicate HalfWay(t: Trace, before: nat) {
    && t.run.doing.Between? && t.run.calling.Raised? && Open(t.run.node.eng)
    && Inv(t.run.node.eng, BookOf(t.run.node))
    && t.run.node.generation == before + 1 && t.starter == before && NoneNewer(t.run.node.rx, before)
  }

  ghost predicate BeingMade(t: Trace, u: Trace) {
    && IsoInv(t) && Inv(t.run.node.eng, BookOf(t.run.node)) && t.run.calling.Announced? && Exposed(t.run)
    && t.run.node.generation + 1 < TWO_TO_32
    && u == t.(run := t.run.(calling := Raised, node := t.run.node.(generation := t.run.node.generation + 1)))
  }

  lemma OneOrTwo(t: Trace, a: FineLabel, b: FineLabel)
    ensures TraceRun(t, []) == t && TraceRun(t, [a]) == TraceStep(t, a)
    ensures TraceRun(t, [a, b]) == TraceStep(TraceStep(t, a), b)
  {
    assert TraceRun(t, []) == t;
    hide TraceRun, TraceStep;
    TraceRunSnoc(t, [], a);
    TraceRunSnoc(t, [a], b);
    assert [] + [a] == [a] && [a] + [b] == [a, b];
  }

  lemma SweepFinished(t: Trace, u: Trace)
    requires BeingMade(t, u) && !u.run.doing.Holding?
    ensures HalfWay(TraceRun(u, Finishing(u.run)), t.run.node.generation)
  {
    OneOrTwo(u, ReadGeneration, DoSweep);
    OneOrTwo(u, DoSweep, DoSweep);
    hide TraceRun, Handle;
    assert u.run.node.log + [] == u.run.node.log;
  }

  lemma PacketFinished(t: Trace, u: Trace)
    requires BeingMade(t, u) && u.run.doing.Holding?
    ensures HalfWay(TraceRun(u, Finishing(u.run)), t.run.node.generation)
  {
    OneOrTwo(u, HandleHeld(0, YES), Look);
    hide TraceRun, TraceStep, BeingMade, HalfWay;
    if HeldEvent(u.run).Some? {
      EventFinished(t, u);
    } else {
      AnswerFinished(t, u);
    }
  }

  lemma EventFinished(t: Trace, u: Trace)
    requires BeingMade(t, u) && HeldEvent(u.run).Some?
    ensures HalfWay(TraceStep(u, HandleHeld(0, YES)), t.run.node.generation)
  {
    var m, p := u.run.node, u.run.doing.packet;
    HeldAhead(t, u);
    HeldIsEvent(u.run);
    HandledTrace(u, Step(HeldEvent(u.run).value, 0, YES));
    DispatchKeepsPlace(m, p, 0, YES);
    hide Handle, Dispatch, Inv, BookOf, EventOf, Took, IsoInv, InPlace, Exposed, TraceStep, FineStep, HeldEvent;
    DispatchBooks(m, p, Step(HeldEvent(u.run).value, 0, YES));
  }

  lemma HeldIsEvent(s: Fine)
    requires HeldEvent(s).Some?
    ensures s.doing.Holding? && s.doing.packet.length >= 2
    ensures EventOf(s.doing.packet).Some? && EventOf(s.doing.packet).value == HeldEvent(s).value
  {
    hide EventOf;
  }

  lemma HandledTrace(u: Trace, step: Step)
    requires HeldEvent(u.run).Some? && HeldEvent(u.run).value == step.ev
    ensures var x, p := TraceStep(u, HandleHeld(step.now, step.ans)), u.run.doing.packet;
            && x.run == u.run.(doing := Between, node := Dispatch(u.run.node, p, step.now, step.ans))
            && x.starter == (if Handle(u.run.node.eng, step).res.transferStarted then p.generation else u.starter)
  {
    hide Handle, Dispatch, EventOf, Took;
  }

  // What is known of the packet in hand.
  lemma HeldAhead(t: Trace, u: Trace)
    requires BeingMade(t, u) && HeldEvent(u.run).Some?
    ensures var m, p := u.run.node, u.run.doing.packet;
            var out := Handle(m.eng, Step(HeldEvent(u.run).value, 0, YES));
            && Inv(m.eng, BookOf(m)) && NoneNewer(m.rx, t.run.node.generation)
            && Open(out.eng) && (out.res.transferStarted ==> p.generation == t.run.node.generation)
            && (!out.res.transferStarted ==> u.starter == t.run.node.generation)
  {
    assert HeldEvent(u.run) == HeldEvent(t.run);
    BookUnderConnect(t.run.node, u.run.node);
    hide Handle, Inv, BookOf, EventOf;
  }

  lemma AnswerFinished(t: Trace, u: Trace)
    requires BeingMade(t, u) && u.run.doing.Holding? && HeldEvent(u.run).None?
    ensures HalfWay(TraceStep(u, HandleHeld(0, YES)), t.run.node.generation)
  {
    var m, p := u.run.node, u.run.doing.packet;
    assert HeldEvent(u.run) == HeldEvent(t.run);
    DispatchKeepsPlace(m, p, 0, YES);
    DispatchAnswers(m, p, 0, YES);
    BookUnderConnect(t.run.node, m);
    BookUnderConnect(m, Dispatch(m, p, 0, YES));
    hide Handle, Dispatch, Inv, BookOf, EventOf, Took;
  }

  lemma BookUnderConnect(n: GoodNode, m: GoodNode)
    requires m.eng == n.eng && m.log == n.log
    ensures BookOf(m) == BookOf(n)
  {
  }

  lemma DispatchBooks(m: GoodNode, p: GoodPacket, step: Step)
    requires Inv(m.eng, BookOf(m)) && p.length >= 2 && EventOf(p).Some? && EventOf(p).value == step.ev
    ensures var x := Dispatch(m, p, step.now, step.ans); RxOk(x) && Inv(x.eng, BookOf(x))
  {
    hide Handle;
    var out := Handle(m.eng, step);
    StepKeepsInv(m.eng, BookOf(m), step);
    InvWithoutTail(out.eng, PostAll(BookOf(m), m.eng.cfg.fullFrameBytes, out.calls));
    LedgerConcat(m.eng.cfg.fullFrameBytes, m.log, out.calls);
    AppliedTakesTail(m.(eng := out.eng, log := m.log + out.calls), out.res);
  }

  lemma HandOverIntrudes(v: Trace, before: nat)
    requires HalfWay(v, before)
    ensures Intruded(TraceStep(v, HandOver), before + 1)
  {
    hide Handle;
  }

  lemma FinishedExposed(t: Trace) returns (more: seq<FineLabel>)
    requires IsoInv(t) && Inv(t.run.node.eng, BookOf(t.run.node)) && t.run.calling.Announced? && Exposed(t.run)
    requires t.run.node.generation + 1 < TWO_TO_32
    ensures NoRaise(more) && Intruded(TraceRun(TraceStep(t, Raise), more), t.run.node.generation + 1)
  {
    var u := TraceStep(t, Raise);
    more := Finishing(u.run) + [HandOver];
    RaiseLeaves(t);
    TraceRunSnoc(u, Finishing(u.run), HandOver);
    hide TraceStep, TraceRun, IsoInv, Exposed, Inv, BookOf, Intruded, HalfWay;
    if u.run.doing.Holding? {
      PacketFinished(t, u);
    } else {
      SweepFinished(t, u);
    }
    HandOverIntrudes(TraceRun(u, Finishing(u.run)), t.run.node.generation);
  }

  lemma RaiseLeaves(t: Trace)
    requires t.run.calling.Announced? && t.run.node.generation + 1 < TWO_TO_32
    ensures TraceStep(t, Raise)
         == t.(run := t.run.(calling := Raised, node := t.run.node.(generation := t.run.node.generation + 1)))
  {
  }

  // The first frame of the new connection is taken for the old client's.
  lemma IntruderMixes(u: Trace) returns (more: seq<FineLabel>)
    requires u.run.node.generation > 0 && Intruded(u, u.run.node.generation)
    ensures NoRaise(more) && !Isolated(TraceRun(u, more))
  {
    var k, p := |u.run.node.rx|, PacketWith(IntrudingFrame(u.run.node.eng), u.run.node.generation);
    StalePacketsSkipped(u, k);
    var v := u.(run := u.run.(node := u.run.node.(rx := [])));
    assert u.run.node.rx[k..] == [] && Skipped(u, k) == v;
    IntruderTaken(u.run.node.eng, BookOf(u.run.node), p);
    var w := TraceStep(TraceStep(v, Wrote(p)), Take);
    IntruderHeld(v, p);
    OneOrTwo(v, Wrote(p), Take);
    TraceRunConcat(u, Takes(k), [Wrote(p), Take]);
    TraceRunSnoc(u, Takes(k) + [Wrote(p), Take], HandleHeld(0, YES));
    more := Takes(k) + [Wrote(p), Take] + [HandleHeld(0, YES)];
    HeldIntruder(w, p);
  }

  lemma IntruderHeld(v: Trace, p: GoodPacket)
    requires v.run.doing.Between? && v.run.calling.Away? && v.run.node.rx == [] && p.generation == v.run.node.generation
    ensures TraceStep(TraceStep(v, Wrote(p)), Take) == v.(run := v.run.(doing := Holding(p)))
  {
    var w := TraceStep(v, Wrote(p));
    assert w == v.(run := v.run.(node := v.run.node.(rx := [p])));
    assert w.run.node.rx[1..] == [];
  }

  lemma HeldIntruder(w: Trace, p: GoodPacket)
    requires w.run.doing == Holding(p) && p.length >= 2 && EventOf(p).Some? && p.generation != w.starter
    requires var out := Handle(w.run.node.eng, Step(EventOf(p).value, 0, YES)); Took(out) && !out.res.transferStarted
    ensures !Isolated(TraceStep(w, HandleHeld(0, YES)))
  {
    hide Handle, Dispatch;
    var x := TraceStep(w, HandleHeld(0, YES));
    assert x.origins == w.origins + [p.generation] && x.starter == w.starter;
    assert p.generation in x.origins;
  }

  lemma {:induction false} IsoWithoutRaises(t: Trace, more: seq<FineLabel>)
    requires IsoInv(t) && NoRaise(more)
    ensures IsoInv(TraceRun(t, more))
    decreases |more|
  {
    hide IsoInv, TraceStep;
    if more == [] {
    } else {
      var init, last := more[..|more| - 1], more[|more| - 1];
      assert last in more && forall l | l in init :: l in more;
      IsoWithoutRaises(t, init);
      StepKeepsIso(TraceRun(t, init), last);
    }
  }

  // Exactly that condition decides: after a calm run a further connection keeps its own data apart
  // in every continuation if and only if, when its generation is counted up, no transfer is left
  // open by what loop() is in the middle of.
  lemma IsolationIff(n: GoodNode, labels: seq<FineLabel>)
    requires Fresh(n) && Calm(TraceStart(n), labels) && Raises(labels) + 1 < TWO_TO_32
    requires FineRun(AtRest(n), labels).calling.Announced?
    ensures var t := TraceRun(TraceStart(n), labels);
            (forall more | NoRaise(more) :: Isolated(TraceRun(TraceStep(t, Raise), more))) <==> !Exposed(t.run)
  {
    hide TraceStep, FineStep, IsoInv, Exposed, Isolated, Inv, Intruded, BookOf, TraceRun, FineRun;
    ConnectionIsolation(n, labels);
    FineRunIsEngineRun(n, labels);
    var t := TraceRun(TraceStart(n), labels);
    if Exposed(t.run) {
      var made := FinishedExposed(t);
      IntrudedIs(TraceRun(TraceStep(t, Raise), made), t.run.node.generation + 1);
      var mixed := IntruderMixes(TraceRun(TraceStep(t, Raise), made));
      TraceRunConcat(TraceStep(t, Raise), made, mixed);
      assert NoRaise(made + mixed);
    } else {
      StepKeepsIso(t, Raise);
      forall more | NoRaise(more)
        ensures Isolated(TraceRun(TraceStep(t, Raise), more))
      {
        IsoWithoutRaises(TraceStep(t, Raise), more);
        IsoIsIsolated(TraceRun(TraceStep(t, Raise), more));
      }
    }
  }

  lemma IntrudedIs(t: Trace, generation: U32)
    requires Intruded(t, generation)
    ensures t.run.node.generation == generation
  {
  }

  // --- The moment that matters ---------------------------------------------------------------------

  const START_PACKET := PacketWith([0x00, 0x70], 1)
  const CHECKED_START := [Announce, Raise, HandOver] + [Wrote(START_PACKET), Take, Announce]

  // No transfer need be open: a connection made between the check of a START and its handler gets
  // its data into the transfer that the packet of the old connection then opens.
  lemma CheckedStartMixes(n: GoodNode) returns (more: seq<FineLabel>)
    requires Fresh(n) && n.eng.cfg.attached && n.eng.cfg.fullFrameBytes > 0
    ensures var t := TraceRun(TraceStart(n), CHECKED_START);
            && Calm(TraceStart(n), CHECKED_START) && t.run.calling.Announced? && !Open(t.run.node.eng)
            && NoRaise(more) && !Isolated(TraceRun(TraceStep(t, Raise), more))
  {
    CheckedStart(n);
    var t := TraceRun(TraceStart(n), CHECKED_START);
    ConnectionIsolation(n, CHECKED_START);
    FineRunIsEngineRun(n, CHECKED_START);
    hide FineStep, TraceStep, IsoInv, Isolated, Inv, BookOf, TraceRun, FineRun, Exposed;
    var made := FinishedExposed(t);
    IntrudedIs(TraceRun(TraceStep(t, Raise), made), t.run.node.generation + 1);
    var mixed := IntruderMixes(TraceRun(TraceStep(t, Raise), made));
    TraceRunConcat(TraceStep(t, Raise), made, mixed);
    more := made + mixed;
  }

  lemma CheckedStart(n: GoodNode)
    requires Fresh(n) && n.eng.cfg.attached && n.eng.cfg.fullFrameBytes > 0
    ensures var t := TraceRun(TraceStart(n), CHECKED_START);
            && Calm(TraceStart(n), CHECKED_START) && Raises(CHECKED_START) == 1 && t.run.calling.Announced?
            && !Open(t.run.node.eng) && Exposed(t.run) && t.run.node.generation == 1
  {
    var t := FirstConnection(n);
    SixSteps(TraceStart(n));
    IntruderHeld(t, START_PACKET);
    StartPacket();
    BootStartOpens(t.run.node.eng);
    hide TraceRun, Calm, Raises, OnDirectStart;
  }

  lemma FirstConnection(n: GoodNode) returns (t: Trace)
    requires Fresh(n)
    ensures t == TraceStep(TraceStep(TraceStep(TraceStart(n), Announce), Raise), HandOver)
    ensures !Exposed(TraceStep(TraceStart(n), Announce).run)
    ensures t.run == AtRest(n.(connected := true, generation := 1, eng := n.eng.(connectionGeneration := 1)))
  {
    hide Handle;
    t := TraceStep(TraceStep(TraceStep(TraceStart(n), Announce), Raise), HandOver);
  }

  lemma CalmSnoc(t: Trace, labels: seq<FineLabel>, l: FineLabel)
    requires Calm(t, labels) && (l.Raise? ==> !Exposed(TraceRun(t, labels).run))
    ensures Calm(t, labels + [l]) && Raises(labels + [l]) == Raises(labels) + (if l.Raise? then 1 else 0)
    ensures TraceRun(t, labels + [l]) == TraceStep(TraceRun(t, labels), l)
  {
    hide TraceStep, Exposed;
    assert (labels + [l])[..|labels|] == labels;
  }

  lemma CalmThree(t: Trace, labels: seq<FineLabel>, a: FineLabel, b: FineLabel, c: FineLabel)
    requires Calm(t, labels) && !a.Raise? && !c.Raise?
    requires b.Raise? ==> !Exposed(TraceStep(TraceRun(t, labels), a).run)
    ensures var three := labels + [a, b, c];
            && Calm(t, three) && Raises(three) == Raises(labels) + (if b.Raise? then 1 else 0)
            && TraceRun(t, three) == TraceStep(TraceStep(TraceStep(TraceRun(t, labels), a), b), c)
  {
    hide TraceStep, TraceRun, Exposed, Calm, Raises;
    CalmSnoc(t, labels, a);
    CalmSnoc(t, labels + [a], b);
    CalmSnoc(t, labels + [a] + [b], c);
    assert labels + [a] + [b] + [c] == labels + [a, b, c];
  }

  lemma CalmAtFirst(t: Trace)
    ensures TraceRun(t, []) == t && Calm(t, []) && Raises([]) == 0
  {
    hide TraceStep, Exposed;
  }

  lemma SixSteps(t: Trace)
    requires !Exposed(TraceStep(t, Announce).run)
    ensures Calm(t, CHECKED_START) && Raises(CHECKED_START) == 1
    ensures TraceRun(t, CHECKED_START)
         == TraceStep(TraceStep(TraceStep(TraceStep(TraceStep(TraceStep(t, Announce), Raise), HandOver),
                                          Wrote(START_PACKET)), Take), Announce)
  {
    hide TraceStep, TraceRun, Exposed, Calm, Raises;
    CalmAtFirst(t);
    CalmThree(t, [], Announce, Raise, HandOver);
    assert [] + [Announce, Raise, HandOver] == [Announce, Raise, HandOver];
    CalmThree(t, [Announce, Raise, HandOver], Wrote(START_PACKET), Take, Announce);
  }

  lemma StartPacket()
    ensures START_PACKET.length == 2 && EventOf(START_PACKET) == Some(DirectStart(0))
  {
    var p := START_PACKET;
    assert p.payload[0] == p.Data()[0] && p.payload[1] == p.Data()[1];
  }

  predicate JustOpened(e: Engine) {
    && e.txn.state == Receiving && e.txn.mode == Direct && e.txn.acceptedBytes == 0 && e.txn.expectedFrameBytes > 0
    && e.txn.transferDeadline == e.cfg.transferTimeout && !e.hwOwned
  }

  lemma BootStartOpens(e: Engine)
    requires !e.hwOwned && e.cfg.attached && e.cfg.fullFrameBytes > 0
    ensures var out := OnDirectStart(e, 0, 0, YES);
            JustOpened(out.eng) && out.res.transferStarted && out.eng.cfg == e.cfg
    ensures Open(OnDirectStart(e, 0, 0, YES).eng)
  {
  }

  // --- How many passes through loop() make the next connection safe --------------------------------

  // Only a handled packet opens a transfer.
  lemma {:induction false} StaysClosed(s: Fine, labels: seq<FineLabel>)
    requires !Open(s.node.eng) && forall l | l in labels :: !l.HandleHeld?
    ensures !Open(FineRun(s, labels).node.eng)
    decreases |labels|
  {
    hide FineStep;
    if labels == [] {
    } else {
      var init, last := labels[..|labels| - 1], labels[|labels| - 1];
      assert last in labels && forall l | l in init :: l in labels;
      StaysClosed(s, init);
      StepStaysClosed(FineRun(s, init), last);
    }
  }

  lemma StepStaysClosed(s: Fine, l: FineLabel)
    requires !Open(s.node.eng) && !l.HandleHeld?
    ensures !Open(FineStep(s, l).node.eng)
  {
    hide Handle;
    if l.Rest? && l.inner.TickNow? {
      TickLeavesClosed(s.node, l.inner.now, l.inner.ans);
    }
  }

  lemma TickLeavesClosed(n: GoodNode, now: U32, ans: Answers)
    ensures var m := NodeStep(n, TickNow(now, ans));
            && (Open(m.eng) ==> Open(n.eng) && m.eng.txn.connectionGeneration == n.eng.txn.connectionGeneration)
            && m.eng.connectionGeneration == n.eng.connectionGeneration
            && m.rx == n.rx && m.generation == n.generation && m.connected == n.connected
  {
    hide Handle;
    var step := Step(TickAt, now, ans);
    var out := Handle(n.eng, step);
    EventSheltered(n.eng, step);
    TickStartsNothing(n.eng, step);
    AppliedTakesTail(n.(eng := out.eng, log := n.log + out.calls), out.res);
  }

  // Nobody is connected, and a transfer that is open belongs to the last connection.
  predicate Lulled(n: GoodNode) {
    && !n.connected && n.eng.connectionGeneration == n.generation
    && (Open(n.eng) ==> n.eng.txn.connectionGeneration == n.generation)
  }

  lemma CalmIsLulled(n: GoodNode, labels: seq<FineLabel>)
    requires Fresh(n) && Calm(TraceStart(n), labels) && Raises(labels) < TWO_TO_32
    requires var s := FineRun(AtRest(n), labels); s.doing.Between? && s.calling.Away? && !s.node.connected
    ensures Lulled(FineRun(AtRest(n), labels).node)
  {
    ConnectionIsolation(n, labels);
    IsoIsIsolated(TraceRun(TraceStart(n), labels));
  }

  // The sweep then ends that transfer.
  lemma SweepCloses(s: Fine)
    requires s.doing.Between? && s.calling.Away? && Lulled(s.node)
    ensures !Open(FineRun(s, [Look, ReadGeneration, DoSweep]).node.eng)
  {
    ThreeSteps(s, Look, ReadGeneration, DoSweep);
    hide FineRun;
  }

  // A pass through loop(): it takes fewer than eight packets only if it empties the ring.
  predicate IsPass(n: GoodNode, labels: seq<NodeLabel>) {
    IsIteration(labels) && (|labels| < 3 + POPS_PER_LOOP ==> NodeRun(n, labels).rx == [])
  }

  function AfterPasses(n: GoodNode, passes: seq<seq<NodeLabel>>): GoodNode {
    if passes == [] then n else NodeRun(AfterPasses(n, passes[..|passes| - 1]), passes[|passes| - 1])
  }

  predicate ArePasses(n: GoodNode, passes: seq<seq<NodeLabel>>) {
    passes == []
    || (ArePasses(n, passes[..|passes| - 1])
        && IsPass(AfterPasses(n, passes[..|passes| - 1]), passes[|passes| - 1]))
  }

  predicate OfLoop(l: NodeLabel) {
    l.Sweep? || l.PopOne? || l.TickNow? || l.Drain?
  }

  function Left(waiting: nat, taken: nat): nat {
    Max(0, waiting - taken)
  }

  lemma PopKeepsLull(n: GoodNode, now: U32, ans: Answers)
    requires Lulled(n)
    ensures var m := NodeStep(n, PopOne(now, ans));
            Lulled(m) && |m.rx| == Left(|n.rx|, 1) && (n.rx == [] ==> m == n)
  {
    hide Handle, Dispatch;
    if n.rx != [] && n.rx[0].generation == n.generation {
      var k := n.(rx := n.rx[1..]);
      DispatchKeepsPlace(k, n.rx[0], now, ans);
      if n.rx[0].length >= 2 && EventOf(n.rx[0]).Some? {
        EventSheltered(n.eng, Step(EventOf(n.rx[0]).value, now, ans));
      }
    }
  }

  lemma LoopKeepsLull(n: GoodNode, l: NodeLabel)
    requires Lulled(n) && OfLoop(l)
    ensures var m := NodeStep(n, l);
            && Lulled(m) && |m.rx| == Left(|n.rx|, if l.PopOne? then 1 else 0)
            && (l.Sweep? ==> !Open(m.eng))
            && (!Open(n.eng) && (l.PopOne? ==> n.rx == []) ==> !Open(m.eng))
  {
    hide Handle, Dispatch;
    match l {
      case PopOne(now, ans) => PopKeepsLull(n, now, ans);
      case TickNow(now, ans) => TickLeavesClosed(n, now, ans);
      case _ =>
    }
  }

  // The sweep closes the transfer, and the pops take the ring down.
  lemma {:induction false} WithinPass(n: GoodNode, labels: seq<NodeLabel>, i: nat)
    requires Lulled(n) && IsIteration(labels) && 1 <= i <= |labels|
    ensures var m := NodeRun(n, labels[..i]);
            Lulled(m) && |m.rx| == Left(|n.rx|, Min(i, |labels| - 2) - 1) && (n.rx == [] ==> !Open(m.eng))
    decreases i
  {
    hide NodeStep, Lulled, Open;
    assert labels[..i][..i - 1] == labels[..i - 1];
    if i == 1 {
      NoSteps(n);
      assert labels[..1][..0] == [];
      LoopKeepsLull(n, labels[0]);
    } else {
      WithinPass(n, labels, i - 1);
      LoopKeepsLull(NodeRun(n, labels[..i - 1]), labels[i - 1]);
    }
  }

  lemma PassTakesEight(n: GoodNode, labels: seq<NodeLabel>)
    requires Lulled(n) && IsPass(n, labels)
    ensures var m := NodeRun(n, labels);
            Lulled(m) && |m.rx| <= Left(|n.rx|, POPS_PER_LOOP) && (n.rx == [] ==> !Open(m.eng))
  {
    hide Lulled, Open, NodeRun;
    WithinPass(n, labels, |labels|);
    assert labels[..|labels|] == labels;
  }

  lemma {:induction false} PassesTake(n: GoodNode, passes: seq<seq<NodeLabel>>)
    requires Lulled(n) && ArePasses(n, passes)
    ensures var m := AfterPasses(n, passes); Lulled(m) && |m.rx| <= Left(|n.rx|, POPS_PER_LOOP * |passes|)
    decreases |passes|
  {
    hide Lulled, NodeRun, IsPass;
    if passes == [] {
    } else {
      PassesTake(n, passes[..|passes| - 1]);
      PassTakesEight(AfterPasses(n, passes[..|passes| - 1]), passes[|passes| - 1]);
    }
  }

  // With nobody connected, a pass more than it takes to empty the ring closes every transfer. The
  // ring holds at most 23 packets, so four passes always do.
  lemma PassesClose(n: GoodNode, passes: seq<seq<NodeLabel>>)
    requires Lulled(n) && passes != [] && ArePasses(n, passes) && |n.rx| <= POPS_PER_LOOP * (|passes| - 1)
    ensures !Open(AfterPasses(n, passes).eng) && AfterPasses(n, passes).rx == []
  {
    hide Lulled, NodeRun, IsPass, Open;
    var init := passes[..|passes| - 1];
    PassesTake(n, init);
    PassTakesEight(AfterPasses(n, init), passes[|passes| - 1]);
  }

  // --- And fewer do not -----------------------------------------------------------------------------

  function Starts(k: nat): (q: seq<RxPacket>)
    ensures |q| == k && forall i | 0 <= i < k :: q[i] == START_PACKET
  {
    seq(k, _ => START_PACKET)
  }

  // A component whose only client has written k STARTs and hung up.
  predicate Crowded(n: GoodNode, cfg: Config, k: nat) {
    && !n.connected && n.generation == 1 && n.rx == Starts(k) && n.eng.cfg == cfg && !n.eng.hwOwned
    && (Open(n.eng) ==> JustOpened(n.eng))
  }

  predicate Usable(cfg: Config) {
    cfg.attached && cfg.fullFrameBytes > 0 && cfg.transferTimeout <= 0x8000_0000
  }

  lemma StartPops(n: GoodNode, cfg: Config, k: nat)
    requires Crowded(n, cfg, k) && Usable(cfg) && k > 0
    ensures var m := NodeStep(n, POP); Crowded(m, cfg, k - 1) && Open(m.eng)
  {
    StartPacket();
    BootStartOpens(n.eng);
    var out := Handle(n.eng, Step(DirectStart(0), 0, YES));
    var m := n.(rx := n.rx[1..], eng := out.eng, log := n.log + out.calls);
    hide Handle, Applied;
    AppliedTakesTail(m, out.res);
    assert n.rx[1..] == Starts(k - 1);
    assert NodeStep(n, POP) == Applied(m, out.res);
  }

  lemma SweptStaysCrowded(n: GoodNode, cfg: Config, k: nat)
    requires Crowded(n, cfg, k)
    ensures Crowded(NodeStep(n, Sweep), cfg, k)
  {
  }

  lemma TickedStaysCrowded(n: GoodNode, cfg: Config, k: nat)
    requires Crowded(n, cfg, k) && Usable(cfg) && Open(n.eng)
    ensures var m := NodeStep(n, TickNow(0, YES)); Crowded(m, cfg, k) && Open(m.eng)
  {
    var out := Handle(n.eng, Step(TickAt, 0, YES));
    assert out == Outcome(n.eng, SILENT, []);
    AppliedTakesTail(n.(eng := out.eng, log := n.log + out.calls), out.res);
    hide Handle, Applied;
  }

  function Pops(k: nat): (r: seq<NodeLabel>)
    ensures |r| == k && forall i | 0 <= i < k :: r[i] == POP
  {
    seq(k, _ => POP)
  }

  const FULL_PASS := [Sweep] + Pops(POPS_PER_LOOP) + [TickNow(0, YES), Drain]

  lemma OneMorePop(n: GoodNode, j: nat)
    ensures NodeRun(n, Pops(0)) == n
    ensures j > 0 ==> NodeRun(n, Pops(j)) == NodeStep(NodeRun(n, Pops(j - 1)), POP)
  {
    hide NodeStep;
    assert Pops(0) == [];
    NoSteps(n);
    if j > 0 {
      assert Pops(j) == Pops(j - 1) + [POP];
      NodeRunSnoc(n, Pops(j - 1), POP);
    }
  }

  lemma {:induction false} StartsPop(n: GoodNode, cfg: Config, k: nat, j: nat)
    requires Crowded(n, cfg, k) && Usable(cfg)
    ensures var m := NodeRun(n, Pops(j)); Crowded(m, cfg, Left(k, j)) && (k > 0 && j > 0 ==> Open(m.eng))
    decreases j
  {
    hide NodeStep, NodeRun, Crowded, Open, Pops;
    OneMorePop(n, j);
    if j == 0 {
    } else {
      StartsPop(n, cfg, k, j - 1);
      var m := NodeRun(n, Pops(j - 1));
      if k >= j {
        StartPops(m, cfg, k - j + 1);
      } else {
        EmptyPop(m, cfg);
      }
    }
  }

  lemma EmptyPop(n: GoodNode, cfg: Config)
    requires Crowded(n, cfg, 0)
    ensures NodeStep(n, POP) == n
  {
  }

  lemma PassReopens(n: GoodNode, cfg: Config, k: nat)
    requires Crowded(n, cfg, k) && Usable(cfg) && k > 0
    ensures IsPass(n, FULL_PASS)
    ensures var m := NodeRun(n, FULL_PASS); Crowded(m, cfg, Left(k, POPS_PER_LOOP)) && Open(m.eng)
  {
    hide Crowded, Open, NodeStep, NodeRun;
    RunOfIteration(n, Pops(POPS_PER_LOOP), TickNow(0, YES));
    SweptStaysCrowded(n, cfg, k);
    var u := NodeRun(NodeStep(n, Sweep), Pops(POPS_PER_LOOP));
    StartsPop(NodeStep(n, Sweep), cfg, k, POPS_PER_LOOP);
    TickedStaysCrowded(u, cfg, Left(k, POPS_PER_LOOP));
    DrainIsNothing(NodeStep(u, TickNow(0, YES)), cfg, Left(k, POPS_PER_LOOP));
  }

  lemma DrainIsNothing(n: GoodNode, cfg: Config, k: nat)
    requires Crowded(n, cfg, k)
    ensures NodeStep(n, Drain) == n
  {
  }

  function Repeated(pass: seq<NodeLabel>, k: nat): (r: seq<seq<NodeLabel>>)
    ensures |r| == k && forall i | 0 <= i < k :: r[i] == pass
  {
    seq(k, _ => pass)
  }

  lemma {:induction false} PassesReopen(n: GoodNode, cfg: Config, k: nat, passes: nat)
    requires Crowded(n, cfg, k) && Usable(cfg) && (passes > 0 ==> POPS_PER_LOOP * (passes - 1) < k)
    ensures ArePasses(n, Repeated(FULL_PASS, passes))
    ensures var m := AfterPasses(n, Repeated(FULL_PASS, passes));
            Crowded(m, cfg, Left(k, POPS_PER_LOOP * passes)) && (passes > 0 ==> Open(m.eng))
    decreases passes
  {
    hide Crowded, Open, NodeRun, IsPass;
    if passes == 0 {
    } else {
      var init := Repeated(FULL_PASS, passes - 1);
      assert Repeated(FULL_PASS, passes)[..passes - 1] == init;
      PassesReopen(n, cfg, k, passes - 1);
      PassReopens(AfterPasses(n, init), cfg, Left(k, POPS_PER_LOOP * (passes - 1)));
    }
  }

  function Writes(k: nat): (r: seq<NodeLabel>)
    ensures |r| == k && forall i | 0 <= i < k :: r[i] == Write(START_PACKET)
  {
    seq(k, _ => Write(START_PACKET))
  }

  function LateStarts(k: nat): seq<NodeLabel> {
    [Connect] + Writes(k) + [Hangup]
  }

  lemma {:induction false} StartsWritten(n: GoodNode, k: nat)
    requires n.rx == [] && n.generation == 1 && k < RX_QUEUE_SLOTS
    ensures NodeRun(n, Writes(k)) == n.(rx := Starts(k))
    decreases k
  {
    if k == 0 {
      assert Writes(0) == [] && Starts(0) == [];
    } else {
      StartsWritten(n, k - 1);
      assert Writes(k) == Writes(k - 1) + [Write(START_PACKET)] && Starts(k) == Starts(k - 1) + [START_PACKET];
      NodeRunSnoc(n, Writes(k - 1), Write(START_PACKET));
    }
  }

  // A client connects, writes k STARTs and is gone before loop() comes round.
  lemma LateStartsCrowd(n: GoodNode, k: nat)
    requires Fresh(n) && k < RX_QUEUE_SLOTS
    ensures Crowded(NodeRun(n, LateStarts(k)), n.eng.cfg, k) && Lulled(NodeRun(n, LateStarts(k)))
  {
    var c := NodeStep(n, Connect);
    NoSteps(n);
    NodeRunSnoc(n, [], Connect);
    assert [] + [Connect] == [Connect];
    NodeRunConcat(n, [Connect], Writes(k));
    StartsWritten(c, k);
    NodeRunSnoc(n, [Connect] + Writes(k), Hangup);
    assert NodeRun(n, LateStarts(k)) == NodeStep(c.(rx := Starts(k)), Hangup);
    hide NodeRun;
  }

  // Exactly so many: from every lulled state with q packets waiting p passes close the transfer if
  // and only if q <= 8 (p - 1); otherwise q STARTs, late but accepted, leave one open.
  lemma PassesNeeded(n: GoodNode, q: nat, p: nat)
    requires Fresh(n) && Usable(n.eng.cfg) && q < RX_QUEUE_SLOTS && p > 0
    ensures (forall labels, passes |
               Lulled(NodeRun(n, labels)) && |NodeRun(n, labels).rx| == q && |passes| == p
               && ArePasses(NodeRun(n, labels), passes)
             :: !Open(AfterPasses(NodeRun(n, labels), passes).eng)) <==> q <= POPS_PER_LOOP * (p - 1)
  {
    hide Lulled, Open, NodeRun, ArePasses, AfterPasses;
    if q <= POPS_PER_LOOP * (p - 1) {
      forall labels, passes |
        Lulled(NodeRun(n, labels)) && |NodeRun(n, labels).rx| == q && |passes| == p
        && ArePasses(NodeRun(n, labels), passes)
        ensures !Open(AfterPasses(NodeRun(n, labels), passes).eng)
      {
        PassesClose(NodeRun(n, labels), passes);
      }
    } else {
      var m := NodeRun(n, LateStarts(q));
      LateStartsCrowd(n, q);
      PassesReopen(m, n.eng.cfg, q, p);
      assert ArePasses(m, Repeated(FULL_PASS, p));
    }
  }
}
