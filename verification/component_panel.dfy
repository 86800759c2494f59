// The whole way: a PIPE client, its radio, the component with both rings, a backend and the driver
// behind it. When the refresh begins, the client's image is on the panel.
module ComponentPanel {
  import opened Bytes
  import opened EngineModel
  import opened EngineRuns
  import opened EngineTheorems
  import opened PanelModel
  import opened SystemRuns
  import opened PipeProtocol
  import opened Component
  import opened ComponentRuns
  import opened PipeComponent

  datatype Whole = Whole(link: Link, panel: Panel)

  // A step of client, radio or component with what the backend's clock reads and what an update()
  // would do meanwhile; or something the driver or a local automation does.
  datatype WholeLabel =
    | Acts(l: LinkLabel, millis: U32, luck: Luck)
    | Finishes
    | Fails
    | Updates(luck: Luck)

  function SysOf(n: GoodNode, p: Panel): Sys {
    Sys(n.eng, p, n.log, None, true)
  }

  // The backend calls of one step.
  function CallsOf(n: GoodNode, l: NodeLabel): seq<Call> {
    Log(n.eng, EngineStepsAt(n, l))
  }

  ghost function CallsIn(s: Link, l: LinkLabel): seq<Call> {
    if l.Inside? && !l.inner.Connect? && !l.inner.Write? then CallsOf(s.node, l.inner) else []
  }

  // A step is possible if the answers the engine sees in it are those of this backend.
  ghost function WholeStep(s: Whole, l: WholeLabel): (t: Whole)
    requires PanelOk(s.panel)
    ensures PanelOk(t.panel) && t.panel.dev.geo == s.panel.dev.geo && t.panel.scheme == s.panel.scheme
  {
    match l
    case Acts(l, millis, luck) =>
      var calls := CallsIn(s.link, l);
      if Honest(s.panel, calls, millis, luck)
      then Whole(LinkStep(s.link, l), Serve(s.panel, calls, millis, luck)) else s
    case Finishes => s.(panel := SysStep(SysOf(s.link.node, s.panel), DriverFinishes).panel)
    case Fails => s.(panel := SysStep(SysOf(s.link.node, s.panel), DriverBreaks).panel)
    case Updates(luck) => s.(panel := SysStep(SysOf(s.link.node, s.panel), LocalUpdate(luck)).panel)
  }

  ghost function WholeRun(s: Whole, labels: seq<WholeLabel>): (t: Whole)
    requires PanelOk(s.panel)
    ensures PanelOk(t.panel) && t.panel.dev.geo == s.panel.dev.geo && t.panel.scheme == s.panel.scheme
  {
    if labels == [] then s else WholeStep(WholeRun(s, labels[..|labels| - 1]), labels[|labels| - 1])
  }

  // The transfer has just been accepted by a component over this backend, whatever the panel shows.
  ghost predicate WholeStart(s: Whole) {
    && LinkStart(s.link) && PanelOk(s.panel)
    && s.link.node.eng.cfg.fullFrameBytes == FullFrame(s.panel.dev.geo)
  }

  ghost predicate WholeInv(s: Whole, resent: U32) {
    LinkInv(s.link, resent) && SysInv(SysOf(s.link.node, s.panel))
  }

  // --- One step ------------------------------------------------------------------------------------

  lemma LogOfSteps(n: GoodNode, step: Step)
    ensures Log(n.eng, []) == [] && After(n.eng, []) == n.eng
    ensures Log(n.eng, [step]) == Handle(n.eng, step).calls && After(n.eng, [step]) == Handle(n.eng, step).eng
    ensures Log(n.eng, [step, TAIL_TAKEN]) == Handle(n.eng, step).calls
    ensures After(n.eng, [step, TAIL_TAKEN]) == Handle(n.eng, step).eng.(tail := None)
  {
    hide Log, After;
    assert Log(n.eng, []) == [] && After(n.eng, []) == n.eng by { NoEngineSteps(n.eng); }
    AfterOne(n.eng, step);
    TwoSteps(n.eng, step, TAIL_TAKEN);
    assert Handle(n.eng, step).calls + [] == Handle(n.eng, step).calls;
  }

  lemma NoEngineSteps(e: Engine)
    ensures Log(e, []) == [] && After(e, []) == e
  {
  }

  // What the system theorems say of one engine step holds of a step of the component.
  lemma StepKeepsPanel(n: GoodNode, p: Panel, l: NodeLabel, millis: U32, luck: Luck)
    requires SysInv(SysOf(n, p)) && Honest(p, CallsOf(n, l), millis, luck)
    ensures SysInv(SysOf(NodeStep(n, l), Serve(p, CallsOf(n, l), millis, luck)))
  {
    NodeStepIsEngineSteps(n, l);
    var steps := EngineStepsAt(n, l);
    var m := NodeStep(n, l);
    if steps == [] {
      NoEngineSteps(n.eng);
      assert n.log + [] == n.log;
    } else {
      LogOfSteps(n, steps[0]);
      assert steps == [steps[0]] || steps == [steps[0], TAIL_TAKEN];
      hide NodeStep, EngineStepsAt, SysInv, Handle, Log, After;
      var t := SysOf(n, p);
      var k := EngineStep(steps[0], millis, luck);
      EngineStepKeepsSysInv(t, k);
      TakenTail(SysStep(t, k), m, Handle(n.eng, steps[0]).eng);
    }
  }

  lemma TakenTail(t: Sys, m: GoodNode, e: Engine)
    requires SysInv(t) && t.eng == e && m.log == t.log && (m.eng == e || m.eng == e.(tail := None))
    ensures SysInv(SysOf(m, t.panel))
  {
    InvWithoutTail(e, Book(t));
  }

  lemma OtherLeavesEngine(s: Link, l: LinkLabel)
    requires !(l.Inside? && !l.inner.Connect? && !l.inner.Write?)
    ensures LinkStep(s, l).node.eng == s.node.eng && LinkStep(s, l).node.log == s.node.log
  {
    hide BookOf, Notified, Told;
  }

  lemma InsideIsNodeStep(s: Link, inner: NodeLabel)
    requires !inner.Connect? && !inner.Write?
    ensures LinkStep(s, Inside(inner)).node == NodeStep(s.node, inner)
  {
    hide BookOf, Notified, NodeStep;
  }

  lemma ActsKeepsPanel(s: Whole, l: LinkLabel, millis: U32, luck: Luck)
    requires SysInv(SysOf(s.link.node, s.panel)) && Honest(s.panel, CallsIn(s.link, l), millis, luck)
    ensures SysInv(SysOf(LinkStep(s.link, l).node, Serve(s.panel, CallsIn(s.link, l), millis, luck)))
  {
    var n := s.link.node;
    assert PanelOk(s.panel);
    hide LinkStep, SysInv, Honest, NodeStep, CallsOf;
    if l.Inside? && !l.inner.Connect? && !l.inner.Write? {
      InsideIsNodeStep(s.link, l.inner);
      StepKeepsPanel(n, s.panel, l.inner, millis, luck);
    } else {
      OtherLeavesEngine(s.link, l);
      ServesNothing(s.panel, millis, luck);
    }
  }

  lemma ServesNothing(p: Panel, millis: U32, luck: Luck)
    requires PanelOk(p)
    ensures Serve(p, [], millis, luck) == p
  {
  }

  lemma ActsKeepsInv(s: Whole, resent: U32, l: LinkLabel, millis: U32, luck: Luck)
    requires WholeInv(s, resent)
    ensures WholeInv(WholeStep(s, Acts(l, millis, luck)), resent)
  {
    LinkStepKeepsInv(s.link, resent, l);
    hide LinkInv, LinkStep, Honest, CallsIn, Inv, Shows;
    if Honest(s.panel, CallsIn(s.link, l), millis, luck) {
      ActsKeepsPanel(s, l, millis, luck);
    }
  }

  lemma DriverKeepsInv(s: Whole, resent: U32, l: WholeLabel)
    requires WholeInv(s, resent) && !l.Acts?
    ensures WholeInv(WholeStep(s, l), resent)
  {
    hide LinkInv;
    match l {
      case Finishes => DeviceKeepsInv(s, DriverFinishes);
      case Fails => DeviceKeepsInv(s, DriverBreaks);
      case Updates(luck) => DeviceKeepsInv(s, LocalUpdate(luck));
    }
  }

  lemma DeviceKeepsInv(s: Whole, k: Label)
    requires SysInv(SysOf(s.link.node, s.panel)) && !k.EngineStep?
    ensures SysInv(SysOf(s.link.node, SysStep(SysOf(s.link.node, s.panel), k).panel))
  {
    var t := SysOf(s.link.node, s.panel);
    StepKeepsSysInv(t, k);
    assert SysOf(s.link.node, SysStep(t, k).panel) == SysStep(t, k);
  }

  // --- Every run -------------------------------------------------------------------------------------

  lemma WholeStartIsInv(s: Whole)
    requires WholeStart(s)
    ensures WholeInv(s, s.link.node.eng.stats.retransmitRequests)
  {
    StartIsLinkInv(s.link);
    hide LinkInv;
  }

  lemma {:induction false} WholeRunKeepsInv(s: Whole, labels: seq<WholeLabel>)
    requires WholeStart(s)
    ensures WholeInv(WholeRun(s, labels), s.link.node.eng.stats.retransmitRequests)
    ensures WholeRun(s, labels).link.chunks == s.link.chunks
    decreases |labels|
  {
    hide LinkStart, WholeStep, WholeInv;
    if labels == [] {
      WholeStartIsInv(s);
    } else {
      var t, l := WholeRun(s, labels[..|labels| - 1]), labels[|labels| - 1];
      var resent := s.link.node.eng.stats.retransmitRequests;
      WholeRunKeepsInv(s, labels[..|labels| - 1]);
      KeepsChunks(t, resent, l);
      match l {
        case Acts(l, millis, luck) => ActsKeepsInv(t, resent, l, millis, luck);
        case _ => DriverKeepsInv(t, resent, l);
      }
    }
  }

  lemma KeepsChunks(s: Whole, resent: U32, l: WholeLabel)
    requires WholeInv(s, resent)
    ensures WholeStep(s, l).link.chunks == s.link.chunks
  {
    if l.Acts? {
      LinkStepKeepsInv(s.link, resent, l.l);
    }
    hide LinkInv, SysInv, Serve, Honest;
  }

  // In every run of a PIPE client without radio loss, through both rings, the component and the
  // backend, whatever times out, is aborted or fails and whatever else uses the driver: from the
  // moment the refresh is begun until it is released, the panel shows the client's image.
  lemma ImageShown(s: Whole, labels: seq<WholeLabel>)
    requires WholeStart(s) && WholeRun(s, labels).link.node.eng.hwOwned
    ensures Displays(WholeRun(s, labels).panel, Concat(s.link.chunks))
  {
    WholeRunKeepsInv(s, labels);
    var t := WholeRun(s, labels);
    OwnedIsWhole(t, s.link.node.eng.stats.retransmitRequests);
    hide LinkInv;
    FullShowsDisplays(t.panel, Concat(s.link.chunks));
  }

  lemma OwnedIsWhole(t: Whole, resent: U32)
    requires WholeInv(t, resent) && t.link.node.eng.hwOwned
    ensures BookOf(t.link.node).written == Concat(t.link.chunks)
    ensures |Concat(t.link.chunks)| == FullFrame(t.panel.dev.geo)
  {
    var book := BookOf(t.link.node);
    assert Abs(t.link).book == book;
    ConcatPrefix(t.link.chunks, book.packets);
    hide Shows;
  }

  // And nothing is left out: whatever the component is about to do, there are answers that this
  // backend gives.
  lemma AlwaysPossible(s: Whole, l: NodeLabel, millis: U32, luck: Luck) returns (k: NodeLabel)
    requires SysInv(SysOf(s.link.node, s.panel)) && s.link.node.eng.cfg.colorScheme == s.panel.scheme
    ensures Honest(s.panel, CallsOf(s.link.node, k), millis, luck)
    ensures match l
            case PopOne(now, _) => k.PopOne? && k.now == now
            case TickNow(now, _) => k.TickNow? && k.now == now
            case _ => k == l
  {
    var n, ans := s.link.node, Answers0(s.panel, millis, luck);
    k := match l case PopOne(now, _) => PopOne(now, ans) case TickNow(now, _) => TickNow(now, ans) case _ => l;
    var steps := EngineStepsAt(n, k);
    NoEngineSteps(n.eng);
    hide Log, Handle, SysInv, Honest;
    if steps == [] {
      HonestNothing(s.panel, millis, luck);
    } else {
      LogOfSteps(n, steps[0]);
      EveryEventEnabled(SysOf(n, s.panel), steps[0].ev, steps[0].now, millis, luck);
      AnswersMatter(n.eng, steps[0], ans);
    }
  }

  lemma HonestNothing(p: Panel, millis: U32, luck: Luck)
    requires PanelOk(p)
    ensures Honest(p, [], millis, luck)
  {
  }

  // Aborts and generations ask the backend nothing.
  lemma AnswersMatter(e: Engine, step: Step, ans: Answers)
    requires step.ev.UserAbort? || step.ev.Disconnect? || step.ev.SetGeneration? || step.ans == ans
    ensures Handle(e, step) == Handle(e, step.(ans := ans))
  {
  }
}
