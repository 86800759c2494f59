// The component with a backend and driver behind it: when a client is told that its picture is on
// the panel, or that it took too long.
module ComponentSystem {
  import opened Bytes
  import opened Wire
  import opened EngineModel
  import opened EngineRuns
  import opened EngineTheorems
  import opened EngineBooks
  import opened PanelModel
  import opened SystemRuns
  import opened Rings
  import opened Component
  import opened ComponentRuns
  import opened ComponentFrames
  import opened ComponentPanel
  import ConfigBlob

  // The component, and the system of its engine, backend and driver with the system's own books.
  datatype Plant = Plant(node: GoodNode, sys: Sys)

  datatype PlantLabel =
    | Does(l: NodeLabel, millis: U32, luck: Luck)
    | Drives(k: Label)

  function Labelled(steps: seq<Step>, millis: U32, luck: Luck): (r: seq<Label>)
    ensures |r| == |steps| && forall i | 0 <= i < |r| :: r[i] == EngineStep(steps[i], millis, luck)
  {
    seq(|steps|, i requires 0 <= i < |steps| => EngineStep(steps[i], millis, luck))
  }

  // The system's share of a step.
  function SystemSteps(s: Plant, l: PlantLabel): seq<Label>
    requires PanelOk(s.sys.panel)
  {
    match l
    case Does(inner, millis, luck) =>
      if Honest(s.sys.panel, CallsOf(s.node, inner), millis, luck)
      then Labelled(EngineStepsAt(s.node, inner), millis, luck) else []
    case Drives(k) => if k.EngineStep? then [] else [k]
  }

  // A step is possible if the answers the engine sees are those of this backend.
  function PlantStep(s: Plant, l: PlantLabel): (t: Plant)
    requires PanelOk(s.sys.panel)
    ensures PanelOk(t.sys.panel)
  {
    var possible := l.Does? && Honest(s.sys.panel, CallsOf(s.node, l.l), l.millis, l.luck);
    Plant(if possible then NodeStep(s.node, l.l) else s.node,
          SysRun(s.sys, SystemSteps(s, l)))
  }

  function PlantRun(s: Plant, labels: seq<PlantLabel>): (t: Plant)
    requires PanelOk(s.sys.panel)
    ensures PanelOk(t.sys.panel)
  {
    if labels == [] then s else PlantStep(PlantRun(s, labels[..|labels| - 1]), labels[|labels| - 1])
  }

  ghost function SystemRun(s: Plant, labels: seq<PlantLabel>): seq<Label>
    requires PanelOk(s.sys.panel)
  {
    if labels == [] then []
    else
      var init := labels[..|labels| - 1];
      SystemRun(s, init) + SystemSteps(PlantRun(s, init), labels[|labels| - 1])
  }

  // Just booted, over an initialised backend.
  predicate PlantStart(s: Plant) {
    Booted(s.sys) && Fresh(s.node) && s.node.eng == s.sys.eng
  }

  // The component's engine is the system's, and has made the same calls.
  predicate Mirrors(s: Plant) {
    PanelOk(s.sys.panel) && s.sys.eng == s.node.eng && s.sys.log == s.node.log && s.node.eng.tail == None
  }

  // --- The system goes through a run of its own ----------------------------------------------------

  lemma SysRunSnoc(s: Sys, labels: seq<Label>, l: Label)
    requires PanelOk(s.panel)
    ensures SysRun(s, labels + [l]) == SysStep(SysRun(s, labels), l)
  {
    assert (labels + [l])[..|labels|] == labels;
  }

  lemma {:induction false} SysRunConcat(s: Sys, a: seq<Label>, b: seq<Label>)
    requires PanelOk(s.panel)
    ensures SysRun(s, a + b) == SysRun(SysRun(s, a), b)
    decreases |b|
  {
    hide SysStep;
    if b == [] {
      assert a + b == a;
    } else {
      var init, last := b[..|b| - 1], b[|b| - 1];
      SysRunConcat(s, a, init);
      assert a + b == (a + init) + [last];
      SysRunSnoc(s, a + init, last);
    }
  }

  lemma ShortRuns(s: Sys, a: Label, b: Label)
    requires PanelOk(s.panel)
    ensures SysRun(s, []) == s && SysRun(s, [a]) == SysStep(s, a) && SysRun(s, [a, b]) == SysStep(SysStep(s, a), b)
  {
    hide SysStep;
    assert [a][..0] == [] && [a, b][..1] == [a];
    assert SysRun(s, [a]) == SysStep(SysRun(s, []), a);
  }

  // A step of the component is no step of its engine, one, or one and taking what it staged.
  lemma FewEngineSteps(n: GoodNode, l: NodeLabel)
    ensures var steps := EngineStepsAt(n, l);
            steps == [] || steps == [steps[0]] || steps == [steps[0], TAIL_TAKEN]
  {
  }

  lemma LabelledSteps(step: Step, millis: U32, luck: Luck)
    ensures var a, b := EngineStep(step, millis, luck), EngineStep(TAIL_TAKEN, millis, luck);
            && Labelled([], millis, luck) == [] && Labelled([step], millis, luck) == [a]
            && Labelled([step, TAIL_TAKEN], millis, luck) == [a, b]
  {
  }

  lemma MirroredSteps(s: Plant, l: NodeLabel, millis: U32, luck: Luck)
    requires Mirrors(s) && Honest(s.sys.panel, CallsOf(s.node, l), millis, luck)
    ensures var t := SysRun(s.sys, Labelled(EngineStepsAt(s.node, l), millis, luck));
            t.eng == NodeStep(s.node, l).eng && t.log == NodeStep(s.node, l).log
    ensures EngineStepsAt(s.node, l) == [] ==> SysRun(s.sys, Labelled(EngineStepsAt(s.node, l), millis, luck)) == s.sys
  {
    hide NodeStep, EngineStepsAt, Log, After, Handle, Labelled, SysStep, Honest;
    var n, steps := s.node, EngineStepsAt(s.node, l);
    NodeStepIsEngineSteps(n, l);
    FewEngineSteps(n, l);
    NoEngineSteps(n.eng);
    if steps == [] {
      LabelledSteps(TAIL_TAKEN, millis, luck);
      assert n.log + [] == n.log;
    } else {
      LogOfSteps(n, steps[0]);
      LabelledSteps(steps[0], millis, luck);
      hide SysRun;
      OneOrTwoSteps(s.sys, steps[0], millis, luck);
    }
  }

  lemma OneOrTwoSteps(t: Sys, step: Step, millis: U32, luck: Luck)
    requires PanelOk(t.panel) && Honest(t.panel, Handle(t.eng, step).calls, millis, luck)
    ensures var a, b := EngineStep(step, millis, luck), EngineStep(TAIL_TAKEN, millis, luck);
            var out := Handle(t.eng, step);
            && SysRun(t, [a]) == SysStep(t, a) && SysStep(t, a).eng == out.eng && SysStep(t, a).log == t.log + out.calls
            && SysRun(t, [a, b]) == SysStep(t, a).(eng := out.eng.(tail := None))
  {
    var a, b := EngineStep(step, millis, luck), EngineStep(TAIL_TAKEN, millis, luck);
    ShortRuns(t, a, b);
    TakesOnlyTail(SysStep(t, a), millis, luck);
    hide Handle, Serve, Honest, SysRun;
  }

  lemma TakesOnlyTail(t: Sys, millis: U32, luck: Luck)
    requires PanelOk(t.panel)
    ensures SysStep(t, EngineStep(TAIL_TAKEN, millis, luck)) == t.(eng := t.eng.(tail := None))
  {
    assert t.log + [] == t.log;
  }

  lemma StepMirrors(s: Plant, l: PlantLabel)
    requires Mirrors(s)
    ensures Mirrors(PlantStep(s, l))
  {
    var none := SysRun(s.sys, []);
    assert none == s.sys;
    match l {
      case Does(inner, millis, luck) =>
        if Honest(s.sys.panel, CallsOf(s.node, inner), millis, luck) {
          MirroredSteps(s, inner, millis, luck);
          StepTakesTail(s.node, inner);
        }
        hide NodeStep, EngineStepsAt, Honest, SysRun;
      case Drives(k) =>
        ShortRuns(s.sys, k, k);
        hide SysRun;
    }
  }

  lemma {:induction false} RunMirrors(s: Plant, labels: seq<PlantLabel>)
    requires PlantStart(s)
    ensures Mirrors(PlantRun(s, labels)) && PlantRun(s, labels).sys == SysRun(s.sys, SystemRun(s, labels))
    decreases |labels|
  {
    hide PlantStep, SystemSteps, SysStep;
    if labels == [] {
    } else {
      var init, last := labels[..|labels| - 1], labels[|labels| - 1];
      RunMirrors(s, init);
      StepMirrors(PlantRun(s, init), last);
      StepSystem(PlantRun(s, init), last);
      SysRunConcat(s.sys, SystemRun(s, init), SystemSteps(PlantRun(s, init), last));
    }
  }

  lemma StepSystem(s: Plant, l: PlantLabel)
    requires PanelOk(s.sys.panel)
    ensures PlantStep(s, l).sys == SysRun(s.sys, SystemSteps(s, l))
  {
  }

  // --- What a step notifies ------------------------------------------------------------------------

  // The frames a step adds behind those sent and queued.
  function NewFrames(n: Node, m: Node): seq<Response>
    requires |Notified(n)| <= |Notified(m)|
  {
    Notified(m)[|Notified(n)|..]
  }

  // The answers to the reads begin with 00 and the opcode they answer.
  predicate Echoes(id: GoodIdentity) {
    && |id.version| >= 2 && id.version[0] == 0x00 && id.version[1] == 0x43
    && |id.msd| >= 2 && id.msd[0] == 0x00 && id.msd[1] == 0x44
  }

  predicate Report(r: Response) {
    r == [0x00, 0x73] || r == [0x00, 0x74]
  }

  lemma {:induction false} PushedAdds(q: seq<TxItem>, items: seq<TxItem>)
    ensures q <= Pushed(q, items) && forall x | x in Pushed(q, items)[|q|..] :: x in items
    decreases |items|
  {
    if items == [] {
    } else {
      var p := if |q| < (if items[0].terminal then 15 else 12) then q + [items[0]] else q;
      PushedAdds(p, items[1..]);
      var r := Pushed(q, items);
      assert items == [items[0]] + items[1..];
      forall x | x in r[|q|..]
        ensures x in items
      {
        var tail := r[|q|..];
        var i :| 0 <= i < |tail| && tail[i] == x;
        assert tail[i] == r[|q| + i];
        if |q| + i >= |p| {
          assert r[|p|..][|q| + i - |p|] == x;
        } else {
          assert p[|q| + i] == items[0];
        }
      }
    }
  }

  lemma FramesAdded(n: Node, m: Node)
    requires m.air == n.air && n.tx <= m.tx
    ensures |Notified(n)| <= |Notified(m)| && NewFrames(n, m) == Frames(m.tx[|n.tx|..])
  {
    FramesMonotone(n.tx, m.tx);
  }

  // A packet is never answered with a report of a refresh.
  lemma PacketReportsNothing(e: Engine, step: Step)
    requires step.ev.DirectStart? || step.ev.PipeStart? || step.ev.DirectData? || step.ev.PipeData?
             || step.ev.DirectEnd? || step.ev.PipeEnd?
    ensures var res := Handle(e, step).res;
            !res.refreshComplete && !res.refreshTimeout && !Report(res.response)
  {
    match step.ev {
      case PipeData(payload) => ChunkReportsNothing(e, payload, step.now, step.ans);
      case DirectStart(_) => StartReportsNothing(e, step);
      case PipeStart(_, _) => StartReportsNothing(e, step);
      case _ =>
    }
  }

  lemma StartReportsNothing(e: Engine, step: Step)
    requires IsStart(step.ev)
    ensures var res := Handle(e, step).res;
            !res.refreshComplete && !res.refreshTimeout && !Report(res.response)
  {
  }

  lemma ChunkReportsNothing(e: Engine, payload: seq<Byte>, now: U32, ans: Answers)
    ensures var res := OnPipeData(e, payload, now, ans).res;
            !res.refreshComplete && !res.refreshTimeout && !Report(res.response)
  {
  }

  // None of these frames is a report.
  predicate NoReports(q: seq<TxItem>) {
    forall x | x in q :: !Report(x.frame)
  }

  lemma NothingReported(n: Node, m: Node)
    requires m.air == n.air && n.tx <= m.tx && NoReports(m.tx[|n.tx|..])
    ensures |Notified(n)| <= |Notified(m)| && forall r | r in NewFrames(n, m) :: !Report(r)
  {
    FramesAdded(n, m);
    forall r | r in NewFrames(n, m)
      ensures !Report(r)
    {
      var i :| 0 <= i < |NewFrames(n, m)| && NewFrames(n, m)[i] == r;
      assert m.tx[|n.tx|..][i] in m.tx[|n.tx|..];
    }
  }

  lemma ConfigReportsNothing(n: Node)
    ensures ConfigSent(n).air == n.air && n.tx <= ConfigSent(n).tx && NoReports(ConfigSent(n).tx[|n.tx|..])
  {
    match n.id.blob {
      case None =>
        var x := TxItem(EncodeNackErr(CMD_CONFIG_READ, 0x00), false);
        assert ConfigSent(n).tx == n.tx || ConfigSent(n).tx == n.tx + [x];
      case Some(blob) =>
        var frames := ConfigBlob.ChunksFrom(blob, 0);
        var room := Min(|frames|, Max(0, ORDINARY_SLOTS - |n.tx|));
        ChunksNotEmpty(blob, 0);
        ChunksQueued(n.tx, frames, room);
        ChunksEcho(blob, 0);
        forall x | x in ConfigSent(n).tx[|n.tx|..]
          ensures !Report(x.frame)
        {
          assert ConfigSent(n).tx[|n.tx|..] == Ordinary(frames[..room]);
          var i :| 0 <= i < room && Ordinary(frames[..room])[i] == x;
          assert Frames(Ordinary(frames[..room]))[i] == frames[i] && frames[i] in frames;
        }
    }
  }

  lemma {:induction false} ChunksEcho(blob: seq<Byte>, index: nat)
    requires |blob| < TWO_TO_16 && index <= 1000
    ensures forall f | f in ConfigBlob.ChunksFrom(blob, index) :: !Report(f)
    decreases 1000 - index
  {
    var r := ConfigBlob.EncodeConfigChunk(blob, index);
    if r == [] {
    } else {
      assert r[1] == 0x40;
      ChunksEcho(blob, index + 1);
    }
  }

  lemma PopReportsNothing(n: GoodNode, now: U32, ans: Answers)
    requires n.eng.tail == None && Echoes(n.id)
    ensures var m := NodeStep(n, PopOne(now, ans));
            |Notified(n)| <= |Notified(m)| && forall r | r in NewFrames(n, m) :: !Report(r)
  {
    if n.rx != [] && n.rx[0].generation == n.generation {
      ServedReportsNothing(n.(rx := n.rx[1..]), n.rx[0], now, ans);
    } else {
      hide Dispatch;
      assert Notified(NodeStep(n, PopOne(now, ans))) == Notified(n);
    }
  }

  lemma ServedReportsNothing(n: Node, p: RxPacket, now: U32, ans: Answers)
    requires p.WellFormed() && n.eng.tail == None && Echoes(n.id)
    ensures var m := Dispatch(n, p, now, ans);
            |Notified(n)| <= |Notified(m)| && forall r | r in NewFrames(n, m) :: !Report(r)
  {
    if p.length < 2 {
      NothingReported(n, n);
    } else if EventOf(p).Some? {
      EventReportsNothing(n, Step(EventOf(p).value, now, ans));
      hide EngineDoes;
    } else {
      OtherReportsNothing(n, OpcodeOf(p));
      hide Answered;
    }
  }

  lemma OtherReportsNothing(n: Node, opcode: nat)
    requires Echoes(n.id)
    ensures var m := Answered(n, opcode);
            |Notified(n)| <= |Notified(m)| && forall r | r in NewFrames(n, m) :: !Report(r)
  {
    var m := Answered(n, opcode);
    if opcode == CMD_CONFIG_READ {
      ConfigReportsNothing(n);
    } else {
      var r := if opcode == CMD_FIRMWARE_VERSION then n.id.version
               else if opcode == CMD_READ_MSD then n.id.msd else EncodeNack(opcode);
      assert m == Send(n, r, false);
      assert m.tx == n.tx || m.tx == n.tx + [TxItem(r, false)];
    }
    hide Answered, ConfigSent;
    NothingReported(n, m);
  }

  lemma EventReportsNothing(n: Node, step: Step)
    requires n.eng.tail == None
    requires step.ev.DirectStart? || step.ev.PipeStart? || step.ev.DirectData? || step.ev.PipeData?
             || step.ev.DirectEnd? || step.ev.PipeEnd?
    ensures var m := EngineDoes(n, step);
            |Notified(n)| <= |Notified(m)| && forall r | r in NewFrames(n, m) :: !Report(r)
  {
    var m, out := EngineDoes(n, step), Handle(n.eng, step);
    EngineDid(n, step);
    PacketReportsNothing(n.eng, step);
    TailNotEmpty(n.eng, step);
    var items := ItemsOf(out.eng.tail, out.res);
    assert NoReports(items);
    PushedAdds(n.tx, items);
    hide EngineDoes, Handle, Pushed, ItemsOf;
    NothingReported(n, m);
  }

  // --- The reports ---------------------------------------------------------------------------------

  // Nothing but a tick queues a report.
  lemma OthersReportNothing(n: GoodNode, l: NodeLabel)
    requires n.eng.tail == None && Echoes(n.id) && !l.TickNow?
    ensures |Notified(n)| <= |Notified(NodeStep(n, l))| && forall r | r in NewFrames(n, NodeStep(n, l)) :: !Report(r)
  {
    if l.PopOne? {
      PopReportsNothing(n, l.now, l.ans);
    } else if l.Drain? {
      DrainKeepsOrder(n);
    } else {
      assert Notified(NodeStep(n, l)) == Notified(n);
    }
  }

  lemma TickQueues(n: GoodNode, l: Ledger, now: U32, ans: Answers)
    requires n.eng.tail == None && Inv(n.eng, l)
    ensures var m, res := NodeStep(n, TickNow(now, ans)), Handle(n.eng, Step(TickAt, now, ans)).res;
            && |Notified(n)| <= |Notified(m)|
            && ([0x00, 0x73] in NewFrames(n, m) <==> res.refreshComplete && |n.tx| < 15)
            && ([0x00, 0x74] in NewFrames(n, m) <==> res.refreshTimeout && |n.tx| < 15)
  {
    var m, out := NodeStep(n, TickNow(now, ans)), Handle(n.eng, Step(TickAt, now, ans));
    EngineDid(n, Step(TickAt, now, ans));
    TickReport(n.eng, l, now, ans);
    TickStages(n.eng, now, ans);
    hide NodeStep, Tick, EngineDoes;
    assert Did(n, m, out);
    TickItems(out.res);
    var items := ItemsOf(None, out.res);
    hide ItemsOf;
    FewPushed(n.tx, items);
    FramesAdded(n, m);
    TickFrames(n, m, items);
  }

  lemma TickStages(e: Engine, now: U32, ans: Answers)
    ensures Handle(e, Step(TickAt, now, ans)) == Tick(e, now, ans) && Tick(e, now, ans).eng.tail == e.tail
  {
  }

  lemma TickItems(res: Result)
    requires res.response == [] && !(res.refreshComplete && res.refreshTimeout)
    ensures ItemsOf(None, res) == if res.refreshComplete then [TxItem([0x00, 0x73], true)]
                                  else if res.refreshTimeout then [TxItem([0x00, 0x74], true)]
                                  else []
  {
  }

  lemma FewPushed(q: seq<TxItem>, items: seq<TxItem>)
    requires |items| <= 1 && forall x | x in items :: x.terminal
    ensures Pushed(q, items) == if |q| < 15 then q + items else q
  {
    if items == [] {
    } else {
      assert items[0] in items && items == [items[0]] && items[1..] == [];
    }
  }

  lemma TickFrames(n: Node, m: Node, items: seq<TxItem>)
    requires |items| <= 1 && m.tx == (if |n.tx| < 15 then n.tx + items else n.tx) && m.air == n.air
    requires |Notified(n)| <= |Notified(m)| && NewFrames(n, m) == Frames(m.tx[|n.tx|..])
    ensures forall r :: r in NewFrames(n, m) <==> |n.tx| < 15 && |items| == 1 && items[0].frame == r
  {
    if |n.tx| < 15 {
      assert m.tx[|n.tx|..] == items;
      if items != [] {
        assert Frames(items) == [items[0].frame];
      }
    }
    hide NewFrames;
  }

  // The refresh the transaction waits for is over, as far as this backend can tell.
  predicate RefreshOver(t: Sys, due: U32, millis: U32) {
    if t.panel.Epaper? then t.panel.dev.phase == Ready
    else t.panel.dev.phase != Broken && PastSettle(millis, due)
  }

  lemma StepKeepsIdentity(n: GoodNode, l: NodeLabel)
    ensures NodeStep(n, l).id == n.id
  {
    hide Handle, ConfigSent;
    if l.PopOne? && n.rx != [] && n.rx[0].length >= 2 && EventOf(n.rx[0]).None? {
      OtherKeepsIdentity(n.(rx := n.rx[1..]), OpcodeOf(n.rx[0]));
      hide Answered;
    }
  }

  lemma OtherKeepsIdentity(n: Node, opcode: nat)
    ensures Answered(n, opcode).id == n.id
  {
  }

  lemma {:induction false} KeepsIdentity(s: Plant, labels: seq<PlantLabel>)
    requires PanelOk(s.sys.panel)
    ensures PlantRun(s, labels).node.id == s.node.id
    decreases |labels|
  {
    hide NodeStep, SysRun;
    if labels == [] {
    } else {
      var init, last := labels[..|labels| - 1], labels[|labels| - 1];
      KeepsIdentity(s, init);
      if last.Does? {
        StepKeepsIdentity(PlantRun(s, init).node, last.l);
      }
    }
  }

  // What the system makes of a tick of the component.
  lemma TickIsSystemStep(t: Plant, l: NodeLabel, millis: U32, luck: Luck)
    requires Mirrors(t) && l.TickNow? && Honest(t.sys.panel, CallsOf(t.node, l), millis, luck)
    ensures var k, u := EngineStep(Step(TickAt, l.now, l.ans), millis, luck), PlantStep(t, Does(l, millis, luck));
            Enabled(t.sys, k) && u.sys.open == SysStep(t.sys, k).open && u.node == NodeStep(t.node, l)
  {
    hide NodeStep, Handle, Honest, SysRun, SysStep, Log, After, Labelled;
    var step := Step(TickAt, l.now, l.ans);
    assert EngineStepsAt(t.node, l) == [step, TAIL_TAKEN];
    LogOfSteps(t.node, step);
    LabelledSteps(step, millis, luck);
    OneOrTwoSteps(t.sys, step, millis, luck);
  }

  // The backend's answer to the poll of a refreshing transaction.
  lemma PollTells(s: Sys, run: seq<Label>, k: Label)
    requires Booted(s) && k.EngineStep? && k.step.ev.TickAt?
    requires var t := SysRun(s, run); Enabled(t, k) && t.eng.txn.state == Refreshing
    ensures var t := SysRun(s, run);
            k.step.ans.poll == if t.panel.dev.phase == Broken then Failed
                               else if RefreshOver(t, SettleOf(s, run), k.millis) then Complete
                               else Pending
  {
    var t := SysRun(s, run);
    RunKeepsSysInv(s, run);
    OwnedTick(t.eng, Book(t), k.step);
    if s.panel.Epaper? {
      RunRemembered(s, run);
    } else {
      RunSettles(s, run);
    }
    hide SysRun, Handle, Booted, SettleOf, Inv;
    PolledFirst(t.panel, Handle(t.eng, k.step).calls, k.step.ans.poll, k.millis, k.luck);
  }

  lemma PolledFirst(p: Panel, calls: seq<Call>, poll: PollResult, millis: U32, luck: Luck)
    requires PanelOk(p) && Honest(p, calls, millis, luck) && |calls| > 0 && calls[0] == PollRefresh(poll)
    ensures poll == Poll(p, millis).1
  {
  }

  lemma TickTells(s: Sys, run: seq<Label>, k: Label)
    requires Booted(s) && k.EngineStep? && k.step.ev.TickAt? && Enabled(SysRun(s, run), k)
    ensures var t := SysRun(s, run); var res := Handle(t.eng, k.step).res;
            var over := RefreshOver(t, SettleOf(s, run), k.millis);
            && (res.refreshComplete <==> t.eng.txn.state == Refreshing && t.panel.dev.phase != Broken && over)
            && (res.refreshTimeout <==>
                  t.eng.txn.state == Refreshing && !over && t.panel.dev.phase != Broken
                  && Due(k.step.now, t.eng.txn.refreshDeadline))
            && (res.refreshComplete ==>
                  && t.open.Some? && SysStep(t, k).open == None
                  && (t.panel.Epaper? ==> t.open.value <= t.panel.dev.finished))
  {
    var t := SysRun(s, run);
    RunKeepsSysInv(s, run);
    TickReport(t.eng, Book(t), k.step.now, k.step.ans);
    TickStages(t.eng, k.step.now, k.step.ans);
    KindStays(s, run);
    hide SysRun, Handle, Tick, Booted, SettleOf, Inv, SysStep, Honest, RefreshOver;
    if t.eng.txn.state == Refreshing {
      PollTells(s, run, k);
    }
    if Handle(t.eng, k.step).res.refreshComplete {
      if s.panel.Epaper? {
        CompletionAttributed(s, run, k);
      } else {
        CompletionSettled(s, run, k);
      }
    }
  }

  lemma {:induction false} KindStays(s: Sys, run: seq<Label>)
    requires PanelOk(s.panel)
    ensures SysRun(s, run).panel.Epaper? == s.panel.Epaper?
    decreases |run|
  {
    hide Handle, Serve, Honest;
    if run == [] {
    } else {
      var t, l := SysRun(s, run[..|run| - 1]), run[|run| - 1];
      KindStays(s, run[..|run| - 1]);
      if l.EngineStep? {
        ServeKeepsKind(t.panel, Handle(t.eng, l.step).calls, l.millis, l.luck);
      }
    }
  }

  // In every run of the component over either backend, 00 73 is queued by a step exactly when it is a
  // tick that finds the refresh of a refreshing transaction over, and 00 74 exactly when it is a
  // tick that finds it neither over nor failed although its deadline has come; with fifteen frames
  // waiting neither is. The 00 73 uses up an acknowledged END.
  lemma ReportsNotified(s: Plant, labels: seq<PlantLabel>, l: NodeLabel, millis: U32, luck: Luck)
    requires PlantStart(s) && Echoes(s.node.id)
    requires var t := PlantRun(s, labels); Honest(t.sys.panel, CallsOf(t.node, l), millis, luck)
    ensures var t := PlantRun(s, labels); var u := PlantStep(t, Does(l, millis, luck));
            var over := RefreshOver(t.sys, SettleOf(s.sys, SystemRun(s, labels)), millis);
            var waits := l.TickNow? && t.node.eng.txn.state == Refreshing && |t.node.tx| < 15;
            && |Notified(t.node)| <= |Notified(u.node)|
            && ([0x00, 0x73] in NewFrames(t.node, u.node) <==> waits && over)
            && ([0x00, 0x74] in NewFrames(t.node, u.node) <==>
                  waits && !over && t.sys.panel.dev.phase != Broken && Due(l.now, t.node.eng.txn.refreshDeadline))
            && ([0x00, 0x73] in NewFrames(t.node, u.node) ==>
                  && t.sys.open.Some? && u.sys.open == None
                  && (t.sys.panel.Epaper? ==> t.sys.open.value <= t.sys.panel.dev.finished))
  {
    assert PanelOk(s.sys.panel);
    hide PlantRun, SystemRun, Booted, Fresh, NodeStep, SysRun, Handle, Honest, RefreshOver, SettleOf;
    var t, run := PlantRun(s, labels), SystemRun(s, labels);
    RunMirrors(s, labels);
    KeepsIdentity(s, labels);
    RunKeepsSysInv(s.sys, run);
    if l.TickNow? {
      TickIsSystemStep(t, l, millis, luck);
      TickQueues(t.node, Book(t.sys), l.now, l.ans);
      TickTells(s.sys, run, EngineStep(Step(TickAt, l.now, l.ans), millis, luck));
      OverIsNotBroken(t.sys, SettleOf(s.sys, run), millis);
    } else {
      OthersReportNothing(t.node, l);
    }
    hide PlantStep, NewFrames;
  }

  lemma OverIsNotBroken(t: Sys, due: U32, millis: U32)
    ensures RefreshOver(t, due, millis) ==> t.panel.dev.phase != Broken
  {
  }
}
