// A whole DIRECT transfer through the component: frames written to the characteristic, byte by byte,
// and the notifications that come back, with the picture on the panel.
module DirectComponent {
  import opened Bytes
  import opened Wire
  import opened EngineModel
  import opened EngineRuns
  import opened EngineTheorems
  import opened EngineBooks
  import opened Replies
  import opened PanelModel
  import opened SystemRuns
  import opened Rings
  import opened Component
  import opened ComponentRuns
  import opened ComponentFrames
  import opened ComponentPanel
  import opened ComponentSystem
  import D = DirectTransfer

  // One step at a moment, with the answers this backend gives then.
  function Stepped(t: Plant, l: NodeLabel, m: D.Moment): (u: Plant)
    requires PanelOk(t.sys.panel)
    ensures PanelOk(u.sys.panel)
  {
    PlantStep(t, Does(l, m.millis, Launches))
  }

  function Honestly(t: Plant, m: D.Moment): Answers {
    Answers0(t.sys.panel, m.millis, Launches)
  }

  // A frame is written, taken off the ring and handled, and what it is answered is notified.
  function Fed(t: Plant, frame: seq<Byte>, m: D.Moment): (u: Plant)
    requires PanelOk(t.sys.panel) && 0 < |frame| <= 244
    ensures PanelOk(u.sys.panel)
  {
    var written := Stepped(t, Write(PacketWith(frame, t.node.generation)), m);
    Stepped(Stepped(written, PopOne(m.at % TWO_TO_32, Honestly(t, m)), m), Drain, m)
  }

  // What can happen between START and END, as it reaches the component.
  function Happened(t: Plant, a: D.Act): (u: Plant)
    requires PanelOk(t.sys.panel) && (a.Data? ==> |a.chunk| <= 242)
    ensures PanelOk(u.sys.panel)
  {
    match a
    case Data(chunk, when) => Fed(t, [0x00, 0x71] + chunk, when)
    case Wait(when) => Stepped(t, TickNow(when.at % TWO_TO_32, Honestly(t, when)), when)
    case Own(luck) => PlantStep(t, Drives(LocalUpdate(luck)))
    case Done => PlantStep(t, Drives(DriverFinishes))
    case Fault => PlantStep(t, Drives(DriverBreaks))
  }

  predicate FitSlots(acts: seq<D.Act>) {
    forall a | a in acts && a.Data? :: |a.chunk| <= 242
  }

  function Sofar(t: Plant, start: D.Moment, acts: seq<D.Act>): (u: Plant)
    requires PanelOk(t.sys.panel) && FitSlots(acts)
    ensures PanelOk(u.sys.panel)
  {
    if acts == [] then Fed(t, [0x00, 0x70], start)
    else
      assert acts[|acts| - 1] in acts && forall a | a in acts[..|acts| - 1] :: a in acts;
      Happened(Sofar(t, start, acts[..|acts| - 1]), acts[|acts| - 1])
  }

  // A component that is connected, with both rings empty, over a system.
  predicate Listening(t: Plant) {
    Mirrors(t) && t.node.connected && t.node.rx == [] && t.node.tx == []
  }

  // The notifications in answer to the packets.
  function Acknowledged(timeout: U32, start: D.Moment, acts: seq<D.Act>): seq<Response> {
    if acts == [] then []
    else
      var init := acts[..|acts| - 1];
      Acknowledged(timeout, start, init)
      + (if acts[|acts| - 1].Data? then [[if D.Timely(timeout, start, init) then 0x00 else 0xFF, 0x71]] else [])
  }

  // --- One frame -----------------------------------------------------------------------------------

  predicate DirectFrame(frame: seq<Byte>, ev: GoodEvent) {
    || (frame == [0x00, 0x70] && ev == DirectStart(0))
    || (ev.DirectData? && |ev.payload| <= 242 && frame == [0x00, 0x71] + ev.payload)
    || (frame == [0x00, 0x72] && ev == DirectEnd)
  }

  lemma FrameIsEvent(frame: seq<Byte>, ev: GoodEvent, generation: U32)
    requires DirectFrame(frame, ev) && 0 < |frame| <= 244
    ensures var p := PacketWith(frame, generation); p.length >= 2 && EventOf(p).Some? && EventOf(p).value == ev
  {
    var p := PacketWith(frame, generation);
    assert p.Data() == frame;
    assert p.payload[0] == frame[0] && p.payload[1] == frame[1];
    assert frame[2..] == (if ev.DirectData? then ev.payload else []);
  }

  // The engine's side of a DIRECT event: a two-byte answer and nothing staged.
  lemma DirectSilent(e: Engine, step: Step)
    requires e.tail == None && (step.ev.DirectStart? || step.ev.DirectData? || step.ev.DirectEnd?)
    ensures var out := Handle(e, step);
            && out.eng.tail == None && !out.res.refreshComplete && !out.res.refreshTimeout
            && |out.res.response| == 2
  {
  }

  lemma OnePushed(res: Result)
    requires !res.refreshComplete && !res.refreshTimeout && res.response != []
    ensures Pushed([], ItemsOf(None, res)) == [TxItem(res.response, IsTerminal(res))]
  {
    var x := TxItem(res.response, IsTerminal(res));
    assert ItemsOf(None, res) == [x] && [x][1..] == [];
    assert [] + [x] == [x];
  }

  lemma WriteHolds(t: Plant, p: RxPacket, m: D.Moment)
    requires Listening(t) && p.WellFormed() && p.generation == t.node.generation
    ensures Stepped(t, Write(p), m) == Plant(t.node.(rx := [p]), t.sys)
  {
    var l := Write(p);
    NoEngineSteps(t.node.eng);
    MirroredSteps(t, l, m.millis, Launches);
    assert t.node.rx + [p] == [p];
  }

  lemma DrainSends(t: Plant, m: D.Moment, x: TxItem)
    requires Mirrors(t) && t.node.connected && t.node.tx == [x]
    ensures Stepped(t, Drain, m) == Plant(t.node.(tx := [], air := t.node.air + [x.frame]), t.sys)
  {
    NoEngineSteps(t.node.eng);
    MirroredSteps(t, Drain, m.millis, Launches);
    assert t.node.tx[1..] == [] && t.node.tx[..1] == [x] && Frames([x]) == [x.frame];
  }

  // Both sides of a step that hands the engine one event and takes what it staged.
  lemma BothStep(t: Plant, l: NodeLabel, ev: GoodEvent, m: D.Moment)
    requires Mirrors(t) && SysInv(t.sys) && t.sys.eng.cfg.colorScheme == t.sys.panel.scheme
    requires EngineStepsAt(t.node, l) == [D.Given(t.sys, ev, m).step, TAIL_TAKEN]
    ensures var step := D.Given(t.sys, ev, m).step;
            var out := Handle(t.sys.eng, step);
            Stepped(t, l, m)
            == Plant(NodeStep(t.node, l), SysStep(t.sys, D.Given(t.sys, ev, m)).(eng := out.eng.(tail := None)))
  {
    var step := D.Given(t.sys, ev, m).step;
    LogOfSteps(t.node, step);
    EveryEventEnabled(t.sys, ev, m.at % TWO_TO_32, m.millis, Launches);
    OneOrTwoSteps(t.sys, step, m.millis, Launches);
    hide Handle, Honest, SysRun, Log, After, NodeStep, SysInv, EngineStepsAt;
    assert Labelled([step, TAIL_TAKEN], m.millis, Launches)
        == [EngineStep(step, m.millis, Launches), EngineStep(TAIL_TAKEN, m.millis, Launches)];
  }

  lemma GivenStep(s: Sys, ev: GoodEvent, m: D.Moment)
    requires SysInv(s) && s.eng.cfg.colorScheme == s.panel.scheme
    ensures SysStep(s, D.Given(s, ev, m)).eng == Handle(s.eng, D.Given(s, ev, m).step).eng
  {
    EveryEventEnabled(s, ev, m.at % TWO_TO_32, m.millis, Launches);
    hide Handle, Serve, SysInv, Honest;
  }

  // The packet in the ring is handled like the event it carries.
  lemma PopHandles(t: Plant, p: RxPacket, ev: GoodEvent, m: D.Moment)
    requires Mirrors(t) && SysInv(t.sys) && t.sys.eng.cfg.colorScheme == t.sys.panel.scheme && t.node.tx == []
    requires p.WellFormed() && t.node.rx == [p] && p.generation == t.node.generation && p.length >= 2
    requires EventOf(p).Some? && EventOf(p).value == ev && (ev.DirectStart? || ev.DirectData? || ev.DirectEnd?)
    ensures var u := Stepped(t, PopOne(m.at % TWO_TO_32, Honestly(t, m)), m);
            var out := Handle(t.sys.eng, D.Given(t.sys, ev, m).step);
            && u.sys == SysStep(t.sys, D.Given(t.sys, ev, m))
            && u.node == t.node.(rx := [], eng := out.eng, log := t.node.log + out.calls,
                                 tx := [TxItem(out.res.response, IsTerminal(out.res))])
  {
    var l := PopOne(m.at % TWO_TO_32, Honestly(t, m));
    var step := D.Given(t.sys, ev, m).step;
    var out := Handle(t.sys.eng, step);
    BothStep(t, l, ev, m);
    GivenStep(t.sys, ev, m);
    DirectSilent(t.node.eng, step);
    var n := t.node.(rx := []);
    assert t.node.rx[1..] == [];
    EngineDid(n, step);
    OnePushed(out.res);
    assert NodeStep(t.node, l) == EngineDoes(n, step) by {
      hide Handle, EngineDoes, SysInv;
    }
    hide Handle, SysStep, Stepped, NodeStep, EngineDoes, Pushed, ItemsOf, SysInv;
  }

  // Writing a frame to a listening component does to the system what its event does, and brings one
  // notification: the event's answer.
  lemma FrameFed(t: Plant, frame: seq<Byte>, ev: GoodEvent, m: D.Moment)
    requires Listening(t) && SysInv(t.sys) && t.sys.eng.cfg.colorScheme == t.sys.panel.scheme
    requires DirectFrame(frame, ev) && 0 < |frame| <= 244
    ensures var u := Fed(t, frame, m);
            && Listening(u) && u.sys == SysStep(t.sys, D.Given(t.sys, ev, m))
            && u.node.air == t.node.air + [D.ReplyTo(t.sys, ev, m)]
  {
    var p := PacketWith(frame, t.node.generation);
    FrameIsEvent(frame, ev, t.node.generation);
    WriteHolds(t, p, m);
    var written := Stepped(t, Write(p), m);
    PopHandles(written, p, ev, m);
    var popped := Stepped(written, PopOne(m.at % TWO_TO_32, Honestly(t, m)), m);
    var out := Handle(t.sys.eng, D.Given(t.sys, ev, m).step);
    DirectSilent(t.sys.eng, D.Given(t.sys, ev, m).step);
    StepMirrors(written, Does(PopOne(m.at % TWO_TO_32, Honestly(t, m)), m.millis, Launches));
    hide Stepped, Handle, PacketWith, EventOf, SysInv;
    DrainSends(popped, m, TxItem(out.res.response, IsTerminal(out.res)));
  }

  // A tick without a refresh notifies nothing.
  lemma TickPasses(t: Plant, m: D.Moment)
    requires Listening(t) && SysInv(t.sys) && t.sys.eng.cfg.colorScheme == t.sys.panel.scheme
    requires t.sys.eng.txn.state != Refreshing
    ensures var u := Stepped(t, TickNow(m.at % TWO_TO_32, Honestly(t, m)), m);
            Listening(u) && u.sys == SysStep(t.sys, D.Given(t.sys, TickAt, m)) && u.node.air == t.node.air
  {
    var l := TickNow(m.at % TWO_TO_32, Honestly(t, m));
    var step := D.Given(t.sys, TickAt, m).step;
    var out := Handle(t.sys.eng, step);
    BothStep(t, l, TickAt, m);
    GivenStep(t.sys, TickAt, m);
    StepMirrors(t, Does(l, m.millis, Launches));
    TickReport(t.sys.eng, Book(t.sys), step.now, step.ans);
    TickStages(t.sys.eng, step.now, step.ans);
    EngineDid(t.node, step);
    TickItems(out.res);
    NothingPushed(t.node.tx);
    hide Handle, Tick, SysStep, EngineDoes, Pushed, ItemsOf, SysInv;
    assert NodeStep(t.node, l) == EngineDoes(t.node, step);
  }

  lemma DriverPasses(t: Plant, k: Label)
    requires Listening(t) && !k.EngineStep?
    ensures var u := PlantStep(t, Drives(k)); u.node == t.node && u.sys == SysStep(t.sys, k) && Listening(u)
  {
    ShortRuns(t.sys, k, k);
    StepMirrors(t, Drives(k));
    hide SysRun, SysStep;
  }

  lemma ActHappens(t: Plant, a: D.Act)
    requires Listening(t) && SysInv(t.sys) && t.sys.eng.cfg.colorScheme == t.sys.panel.scheme
    requires (a.Data? ==> |a.chunk| <= 242) && t.sys.eng.txn.state != Refreshing
    ensures var u := Happened(t, a);
            && Listening(u) && u.sys == D.Moved(t.sys, a)
            && u.node.air == t.node.air + (if a.Data? then [D.ReplyTo(t.sys, DirectData(a.chunk), a.when)] else [])
  {
    hide Fed, Stepped, SysInv, SysStep, PlantStep;
    match a {
      case Data(chunk, when) => FrameFed(t, [0x00, 0x71] + chunk, DirectData(chunk), when);
      case Wait(when) => TickPasses(t, when);
      case Own(luck) => DriverPasses(t, LocalUpdate(luck));
      case Done => DriverPasses(t, DriverFinishes);
      case Fault => DriverPasses(t, DriverBreaks);
    }
    assert t.node.air + [] == t.node.air;
  }

  // --- The whole transfer --------------------------------------------------------------------------

  lemma BeforeTheEnd(s: Sys, start: D.Moment, acts: seq<D.Act>)
    requires D.ReadyFor(s) && D.NoEmptyChunks(acts) && |D.Sent(acts)| <= s.eng.cfg.fullFrameBytes
    ensures var t := D.Played(s, start, acts);
            SysInv(t) && t.eng.cfg.colorScheme == t.panel.scheme && t.eng.txn.state != Refreshing
  {
    D.PlayedHolds(s, start, acts);
    hide SysInv;
  }

  lemma {:induction false} SofarIsPlayed(t: Plant, start: D.Moment, acts: seq<D.Act>)
    requires Listening(t) && D.ReadyFor(t.sys) && D.NoEmptyChunks(acts) && FitSlots(acts)
    requires |D.Sent(acts)| <= t.sys.eng.cfg.fullFrameBytes
    ensures var u := Sofar(t, start, acts);
            && Listening(u) && u.sys == D.Played(t.sys, start, acts)
            && u.node.air == t.node.air + [[0x00, 0x70]]
                             + Acknowledged(t.sys.eng.cfg.transferTimeout, start, acts)
    decreases |acts|
  {
    hide Fed, Happened, Listening, SysStep, D.Moved, D.Timely, D.ReplyTo, D.Given;
    var base := t.node.air + [[0x00, 0x70]];
    if acts == [] {
      ReadyIsInv(t.sys);
      D.StartReply(t.sys, start);
      FrameFed(t, [0x00, 0x70], DirectStart(0), start);
      assert base + [] == base;
    } else {
      var init, a := acts[..|acts| - 1], acts[|acts| - 1];
      assert a in acts && forall b | b in init :: b in acts;
      D.SentFits(acts, |acts| - 1);
      SofarIsPlayed(t, start, init);
      BeforeTheEnd(t.sys, start, init);
      ActHappens(Sofar(t, start, init), a);
      if a.Data? {
        D.PacketReply(t.sys, start, acts, |acts| - 1);
      }
      Appended(base, Acknowledged(t.sys.eng.cfg.transferTimeout, start, init),
               if a.Data? then [[if D.Timely(t.sys.eng.cfg.transferTimeout, start, init) then 0x00 else 0xFF, 0x71]]
               else []);
    }
  }

  lemma Appended<T>(a: seq<T>, b: seq<T>, c: seq<T>)
    ensures a + b + c == a + (b + c)
  {
  }

  lemma ReadyIsInv(s: Sys)
    requires D.ReadyFor(s)
    ensures SysInv(s) && s.eng.cfg.colorScheme == s.panel.scheme
  {
  }

  // For an image of the panel's size and a component that keeps up: the frame 00 70, a frame 00 71
  // and data for each chunk, and the frame 00 72 are answered 00 70, then 00 71 for every chunk before
  // a tick finds the deadline due and FF 71 after, then 00 72 with the image on the panel if and only
  // if there was no such tick and the driver is ready, and FF 72 otherwise; nothing else is notified.
  lemma ImageThroughComponent(t: Plant, start: D.Moment, acts: seq<D.Act>, end: D.Moment)
    requires Listening(t) && D.ReadyFor(t.sys) && D.NoEmptyChunks(acts) && FitSlots(acts)
    requires |D.Sent(acts)| == t.sys.eng.cfg.fullFrameBytes
    ensures var u := Fed(Sofar(t, start, acts), [0x00, 0x72], end);
            && u.node.air == t.node.air + [[0x00, 0x70]]
                             + Acknowledged(t.sys.eng.cfg.transferTimeout, start, acts)
                             + [[if D.Works(t.sys, start, acts) then 0x00 else 0xFF, 0x72]]
            && (u.sys.eng.txn.state == Refreshing && Displays(u.sys.panel, D.Sent(acts))
                <==> D.Works(t.sys, start, acts))
  {
    hide Fed, Happened, Listening, SysStep, D.Moved, D.Timely, D.ReplyTo, D.Given, Displays, D.Works;
    SofarIsPlayed(t, start, acts);
    BeforeTheEnd(t.sys, start, acts);
    FrameFed(Sofar(t, start, acts), [0x00, 0x72], DirectEnd, end);
    D.EndReply(t.sys, start, acts, end);
  }
}
