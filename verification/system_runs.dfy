// Engine, backend and display driver together: what reaches the panel, whose refresh a 0x0073
// reports, and when the panel is free again.
module SystemRuns {
  import opened Bytes
  import opened Wire
  import opened EngineModel
  import opened EngineRuns
  import opened EngineTheorems
  import opened PanelModel

  // --- The composed step relation --------------------------------------------------------

  // `log` is every backend call so far. `open` is the number of the refresh launched by the last
  // END that was acknowledged and not yet reported complete; `attributed` stays true as long as
  // every 0x0073 found such an END and its refresh finished.
  datatype Sys = Sys(eng: Engine, panel: Panel, log: seq<Call>, open: Option<nat>, attributed: bool)

  datatype Label =
    | EngineStep(step: Step, millis: U32, luck: Luck)
    | DriverFinishes
    | DriverBreaks
    | LocalUpdate(luck: Luck)  // a local automation calls update()

  // The backend after a list of calls.
  function Serve(p: Panel, calls: seq<Call>, millis: U32, luck: Luck): (r: Panel)
    requires PanelOk(p)
    ensures PanelOk(r) && r.dev.geo == p.dev.geo && r.scheme == p.scheme
    decreases |calls|
  {
    if calls == [] then p else Serve(Answer(p, calls[0], millis, luck).0, calls[1..], millis, luck)
  }

  // Every recorded answer is the one this backend gives.
  predicate Honest(p: Panel, calls: seq<Call>, millis: U32, luck: Luck)
    requires PanelOk(p)
    decreases |calls|
  {
    calls == []
    || (Answer(p, calls[0], millis, luck).1 == calls[0]
        && Honest(Answer(p, calls[0], millis, luck).0, calls[1..], millis, luck))
  }

  // The step is possible: the answers the engine saw are those of this backend.
  predicate Enabled(s: Sys, l: Label)
    requires PanelOk(s.panel)
  {
    l.EngineStep? ==> Honest(s.panel, Handle(s.eng, l.step).calls, l.millis, l.luck)
  }

  // Labels that are not possible leave the state unchanged, so every label sequence is a run.
  function SysStep(s: Sys, l: Label): (t: Sys)
    requires PanelOk(s.panel)
    ensures PanelOk(t.panel) && t.panel.dev.geo == s.panel.dev.geo && t.panel.scheme == s.panel.scheme
  {
    match l
    case EngineStep(step, millis, luck) =>
      if !Enabled(s, l) then s
      else
        var out := Handle(s.eng, step);
        var panel := Serve(s.panel, out.calls, millis, luck);
        Sys(out.eng, panel, s.log + out.calls,
            if StartsRefresh(out) then Some(panel.dev.launched)
            else if out.res.refreshComplete then None else s.open,
            s.attributed && (out.res.refreshComplete ==>
                               s.open.Some? && s.open.value <= s.panel.dev.finished))
    case DriverFinishes =>
      if s.panel.dev.phase != Working then s
      else s.(panel := WithDevice(s.panel, s.panel.dev.(phase := Ready, finished := s.panel.dev.launched)))
    case DriverBreaks =>
      s.(panel := WithDevice(s.panel, s.panel.dev.(phase := Broken)))
    case LocalUpdate(luck) =>
      s.(panel := WithDevice(s.panel, Update(s.panel.dev, luck)))
  }

  function SysRun(s: Sys, labels: seq<Label>): (t: Sys)
    requires PanelOk(s.panel)
    ensures PanelOk(t.panel) && t.panel.dev.geo == s.panel.dev.geo && t.panel.scheme == s.panel.scheme
  {
    if labels == [] then s else SysStep(SysRun(s, labels[..|labels| - 1]), labels[|labels| - 1])
  }

  // A freshly booted component over an initialised backend, whatever the panel shows and even if
  // the driver is already busy with a refresh of its own.
  predicate Booted(s: Sys) {
    && PanelOk(s.panel) && s.eng == Boot(s.eng.cfg) && s.log == [] && s.open == None && s.attributed
    && s.eng.cfg.attached && s.eng.cfg.fullFrameBytes == FullFrame(s.panel.dev.geo)
    && s.eng.cfg.colorScheme == s.panel.scheme && 0 < s.eng.cfg.fullFrameBytes
    && s.panel.dev.finished <= s.panel.dev.launched
    && (s.panel.dev.phase == Ready ==> s.panel.dev.finished == s.panel.dev.launched)
    && !Armed(s.panel)
  }

  // --- End to end: the picture on the panel ---------------------------------------------------

  // Pixel (x, y) shows bit 7 - x % 8 of byte y * stride + x / 8 of the image.
  predicate ShowsPixel(p: Panel, image: seq<Byte>, x: nat, y: nat)
    requires PanelOk(p) && x < p.dev.geo.width && y < p.dev.geo.height
  {
    var k := ByteIndex(p.dev.geo, x, y);
    k < |image| ==> p.dev.pic[y][x] == Bit(image[k], 7 - x % 8)
  }

  ghost predicate Shows(p: Panel, image: seq<Byte>)
    requires PanelOk(p)
  {
    forall x, y | 0 <= x < p.dev.geo.width && 0 <= y < p.dev.geo.height :: ShowsPixel(p, image, x, y)
  }

  lemma AnswerKeepsPicture(p: Panel, l: Ledger, c: Call, millis: U32, luck: Luck)
    requires PanelOk(p) && Shows(p, l.written) && Answer(p, c, millis, luck).1 == c
    requires Post(l, FullFrame(p.dev.geo) % TWO_TO_32, c).framed && FullFrame(p.dev.geo) < TWO_TO_32
    ensures Shows(Answer(p, c, millis, luck).0, Post(l, FullFrame(p.dev.geo) % TWO_TO_32, c).written)
  {
    var q, image := Answer(p, c, millis, luck).0, Post(l, FullFrame(p.dev.geo) % TWO_TO_32, c).written;
    forall x, y | 0 <= x < p.dev.geo.width && 0 <= y < p.dev.geo.height
      ensures ShowsPixel(q, image, x, y)
    {
      assert ShowsPixel(p, l.written, x, y);
      if c.WriteContiguous? {
        var k := ByteIndex(p.dev.geo, x, y);
        assert q.dev.pic[y][x] == if c.ok then Painted(p.dev.geo, c.offset, c.data, x, y, p.dev.pic[y][x])
                                  else p.dev.pic[y][x];
      }
    }
  }

  lemma {:induction false} FramedSoFar(l: Ledger, full: U32, calls: seq<Call>)
    requires PostAll(l, full, calls).framed
    ensures l.framed
    decreases |calls|
  {
    if calls == [] {
    } else {
      FramedSoFar(Post(l, full, calls[0]), full, calls[1..]);
    }
  }

  lemma {:induction false} ServeKeepsPicture(p: Panel, l: Ledger, calls: seq<Call>, millis: U32, luck: Luck)
    requires PanelOk(p) && Shows(p, l.written) && Honest(p, calls, millis, luck)
    requires FullFrame(p.dev.geo) < TWO_TO_32 && PostAll(l, FullFrame(p.dev.geo), calls).framed
    ensures Shows(Serve(p, calls, millis, luck), PostAll(l, FullFrame(p.dev.geo), calls).written)
    decreases |calls|
  {
    hide Answer, Shows, Post, FullFrame;
    if calls == [] {
    } else {
      var full := FullFrame(p.dev.geo);
      var m := Post(l, full, calls[0]);
      FramedSoFar(m, full, calls[1..]);
      AnswerKeepsPicture(p, l, calls[0], millis, luck);
      ServeKeepsPicture(Answer(p, calls[0], millis, luck).0, m, calls[1..], millis, luck);
    }
  }

  // The ledger of everything called so far.
  ghost function Book(s: Sys): Ledger {
    LedgerOf(s.eng.cfg.fullFrameBytes, s.log)
  }

  ghost predicate SysInv(s: Sys) {
    && PanelOk(s.panel)
    && s.eng.cfg.attached && s.eng.cfg.fullFrameBytes == FullFrame(s.panel.dev.geo)
    && Inv(s.eng, Book(s)) && Shows(s.panel, Book(s).written)
    && (s.eng.hwOwned ==> |Book(s).written| == s.eng.cfg.fullFrameBytes)
  }

  // A refresh is only begun over a full frame, and what was written stays while it is held.
  lemma {:induction false} HeldMeansFull(l: Ledger, full: U32, calls: seq<Call>)
    requires PostAll(l, full, calls).framed && PostAll(l, full, calls).exclusive
    requires l.held ==> |l.written| == full
    ensures PostAll(l, full, calls).held ==> |PostAll(l, full, calls).written| == full
    decreases |calls|
  {
    if calls == [] {
    } else {
      var m := Post(l, full, calls[0]);
      FramedSoFar(m, full, calls[1..]);
      ExclusiveSoFar(m, full, calls[1..]);
      HeldMeansFull(m, full, calls[1..]);
    }
  }

  lemma {:induction false} ExclusiveSoFar(l: Ledger, full: U32, calls: seq<Call>)
    requires PostAll(l, full, calls).exclusive
    ensures l.exclusive
    decreases |calls|
  {
    if calls == [] {
    } else {
      ExclusiveSoFar(Post(l, full, calls[0]), full, calls[1..]);
    }
  }

  lemma EngineStepKeepsSysInv(s: Sys, l: Label)
    requires SysInv(s) && l.EngineStep? && Enabled(s, l)
    ensures SysInv(SysStep(s, l))
  {
    var out, full := Handle(s.eng, l.step), s.eng.cfg.fullFrameBytes;
    StepKeepsInv(s.eng, Book(s), l.step);
    LedgerConcat(full, s.log, out.calls);
    ServeKeepsPicture(s.panel, Book(s), out.calls, l.millis, l.luck);
    HeldMeansFull(Book(s), full, out.calls);
  }

  lemma DeviceStepKeepsSysInv(s: Sys, d: Device)
    requires SysInv(s) && d.pic == s.panel.dev.pic && d.geo == s.panel.dev.geo
    ensures SysInv(s.(panel := WithDevice(s.panel, d)))
  {
    var p := WithDevice(s.panel, d);
    forall x, y | 0 <= x < d.geo.width && 0 <= y < d.geo.height
      ensures ShowsPixel(p, Book(s).written, x, y)
    {
      assert ShowsPixel(s.panel, Book(s).written, x, y);
    }
  }

  lemma StepKeepsSysInv(s: Sys, l: Label)
    requires SysInv(s)
    ensures SysInv(SysStep(s, l))
  {
    match l {
      case EngineStep(_, _, _) =>
        if Enabled(s, l) {
          EngineStepKeepsSysInv(s, l);
        }
      case DriverFinishes =>
        DeviceStepKeepsSysInv(s, s.panel.dev.(phase := Ready, finished := s.panel.dev.launched));
      case DriverBreaks => DeviceStepKeepsSysInv(s, s.panel.dev.(phase := Broken));
      case LocalUpdate(luck) => DeviceStepKeepsSysInv(s, Update(s.panel.dev, luck));
    }
  }

  lemma {:induction false} RunKeepsSysInv(s: Sys, labels: seq<Label>)
    requires Booted(s)
    ensures SysInv(SysRun(s, labels)) && SysRun(s, labels).eng.cfg == s.eng.cfg
    decreases |labels|
  {
    if labels == [] {
      assert Book(s) == CLEAN;
    } else {
      var init, last := labels[..|labels| - 1], labels[|labels| - 1];
      RunKeepsSysInv(s, init);
      StepKeepsSysInv(SysRun(s, init), last);
      var t := SysRun(s, init);
      if last.EngineStep? {
        StepKeepsInv(t.eng, Book(t), last.step);
      }
    }
  }

  // Pixel (x, y) is bit 7 - x mod 8 of byte y * (width in bytes) + x / 8.
  predicate PixelIs(p: Panel, image: seq<Byte>, x: nat, y: nat)
    requires PanelOk(p) && x < p.dev.geo.width && y < p.dev.geo.height
  {
    var k := y * ((p.dev.geo.width + 7) / 8) + x / 8;
    k < |image| && p.dev.pic[y][x] == Bit(image[k], 7 - x % 8)
  }

  // The panel holds exactly this image.
  ghost predicate Displays(p: Panel, image: seq<Byte>)
    requires PanelOk(p)
  {
    && |image| == (p.dev.geo.width + 7) / 8 * p.dev.geo.height
    && forall x, y | 0 <= x < p.dev.geo.width && 0 <= y < p.dev.geo.height :: PixelIs(p, image, x, y)
  }

  lemma FullShowsDisplays(p: Panel, image: seq<Byte>)
    requires PanelOk(p) && Shows(p, image) && |image| == FullFrame(p.dev.geo)
    ensures Displays(p, image)
  {
    forall x, y | 0 <= x < p.dev.geo.width && 0 <= y < p.dev.geo.height
      ensures PixelIs(p, image, x, y)
    {
      ByteInFrame(p.dev.geo, x, y);
      assert ShowsPixel(p, image, x, y);
    }
  }

  // The engine steps of a run that were possible.
  ghost function EngineStepsOf(s: Sys, labels: seq<Label>): seq<Step>
    requires PanelOk(s.panel)
  {
    if labels == [] then []
    else
      var init, last := labels[..|labels| - 1], labels[|labels| - 1];
      EngineStepsOf(s, init)
      + (if last.EngineStep? && Enabled(SysRun(s, init), last) then [last.step] else [])
  }

  lemma StepIsEngineStep(t: Sys, l: Label)
    requires PanelOk(t.panel)
    ensures var u := SysStep(t, l);
            if l.EngineStep? && Enabled(t, l)
            then u.eng == Handle(t.eng, l.step).eng && u.log == t.log + Handle(t.eng, l.step).calls
            else u.eng == t.eng && u.log == t.log
  {
    hide Handle, Serve, Honest, StartsRefresh;
  }

  lemma OneMoreEngineStep(e: Engine, steps: seq<Step>, step: Step)
    ensures After(e, steps + [step]) == Handle(After(e, steps), step).eng
    ensures Log(e, steps + [step]) == Log(e, steps) + Handle(After(e, steps), step).calls
  {
    hide Handle;
    assert (steps + [step])[..|steps|] == steps;
  }

  lemma {:induction false} SysRunIsEngineRun(s: Sys, labels: seq<Label>)
    requires Booted(s)
    ensures var steps := EngineStepsOf(s, labels);
            && SysRun(s, labels).eng == After(Boot(s.eng.cfg), steps)
            && SysRun(s, labels).log == Log(Boot(s.eng.cfg), steps)
    decreases |labels|
  {
    hide Handle, SysStep, Enabled;
    if labels == [] {
    } else {
      var init, last := labels[..|labels| - 1], labels[|labels| - 1];
      SysRunIsEngineRun(s, init);
      StepIsEngineStep(SysRun(s, init), last);
      var before := EngineStepsOf(s, init);
      if last.EngineStep? {
        OneMoreEngineStep(Boot(s.eng.cfg), before, last.step);
      }
      assert before + [] == before;
    }
  }

  // In every run without outside writers, from the moment a refresh is begun until it is released
  // (even across timeouts, aborts and disconnects) every pixel of the panel is the corresponding
  // bit of the concatenated payloads accepted since that transaction's START, however they were
  // cut into packets and whatever earlier transfers left behind.
  lemma RefreshedPicture(s: Sys, labels: seq<Label>)
    requires Booted(s) && SysRun(s, labels).eng.hwOwned
    ensures Displays(SysRun(s, labels).panel, AcceptedPayloads(Boot(s.eng.cfg), EngineStepsOf(s, labels)))
  {
    var t := SysRun(s, labels);
    RunKeepsSysInv(s, labels);
    SysRunIsEngineRun(s, labels);
    WrittenIsAccepted(s.eng.cfg, EngineStepsOf(s, labels));
    FullShowsDisplays(t.panel, Book(t).written);
  }

  // --- Every event can happen -------------------------------------------------------------------

  // What this backend would answer during one handler.
  function Answers0(p: Panel, millis: U32, luck: Luck): Answers {
    Answers(true, true, true, Launch(p, millis, luck).1, Poll(p, millis).1)
  }

  lemma HonestConcat(p: Panel, c: Call, calls: seq<Call>, millis: U32, luck: Luck)
    requires PanelOk(p) && Answer(p, c, millis, luck).1 == c
    requires Honest(Answer(p, c, millis, luck).0, calls, millis, luck)
    ensures Honest(p, [c] + calls, millis, luck)
  {
    assert ([c] + calls)[1..] == calls;
  }

  lemma HonestOne(p: Panel, c: Call, millis: U32, luck: Luck)
    requires PanelOk(p) && Answer(p, c, millis, luck).1 == c
    ensures Honest(p, [c], millis, luck)
  {
    HonestConcat(p, c, [], millis, luck);
    assert [c] + [] == [c];
  }

  // The refresh at the end of a frame, with the abort that follows a refusal.
  lemma HonestRefresh(p: Panel, millis: U32, luck: Luck)
    requires PanelOk(p)
    ensures var refresh := BeginRefresh(Launch(p, millis, luck).1);
            && Honest(p, [FinishFrame(true), refresh], millis, luck)
            && Honest(p, [FinishFrame(true), refresh] + [AbortTransfer], millis, luck)
  {
    var refresh := BeginRefresh(Launch(p, millis, luck).1);
    HonestOne(p, refresh, millis, luck);
    HonestOne(Launch(p, millis, luck).0, AbortTransfer, millis, luck);
    HonestConcat(p, refresh, [AbortTransfer], millis, luck);
    HonestConcat(p, FinishFrame(true), [refresh], millis, luck);
    HonestConcat(p, FinishFrame(true), [refresh] + [AbortTransfer], millis, luck);
    assert [FinishFrame(true)] + [refresh] == [FinishFrame(true), refresh];
    assert [FinishFrame(true)] + ([refresh] + [AbortTransfer]) == [FinishFrame(true), refresh] + [AbortTransfer];
  }

  lemma HonestFinish(p: Panel, e: Engine, endOpcode: nat, now: U32, ans: Answers, millis: U32, luck: Luck)
    requires PanelOk(p) && ans.finish && ans.refresh == Launch(p, millis, luck).1
    ensures Honest(p, FinishAndRefresh(e, endOpcode, now, ans).calls, millis, luck)
  {
    HonestOne(p, AbortTransfer, millis, luck);
    HonestRefresh(p, millis, luck);
    hide Launch, Honest;
    var calls := [FinishFrame(true), BeginRefresh(ans.refresh)];
    assert calls + [] == calls && [] + [AbortTransfer] == [AbortTransfer];
    HonestAtFirst(p, millis, luck);
  }

  lemma HonestAtFirst(p: Panel, millis: U32, luck: Luck)
    requires PanelOk(p)
    ensures Honest(p, [], millis, luck)
  {
  }

  lemma HonestAckOrFinish(p: Panel, a: Engine, now: U32, ans: Answers, millis: U32, luck: Luck)
    requires PanelOk(p) && ans.finish && ans.refresh == Launch(p, millis, luck).1
    ensures Honest(p, AckOrFinish(a, now, ans).calls, millis, luck)
  {
    HonestFinish(p, a.(tail := Some(CurrentSack(a.txn)), txn := a.txn.(acceptedSinceAck := 0)),
                 CMD_PIPE_WRITE_END, now, ans, millis, luck);
  }

  lemma HonestWrite(p: Panel, offset: U32, data: seq<Byte>, calls: seq<Call>, millis: U32, luck: Luck)
    requires PanelOk(p) && offset + |data| <= FullFrame(p.dev.geo)
    requires forall q | PanelOk(q) && q.dev.phase == p.dev.phase && q.Epaper? == p.Epaper? ::
               Honest(q, calls, millis, luck)
    ensures Honest(p, [WriteContiguous(offset, data, true)] + calls, millis, luck)
  {
    HonestConcat(p, WriteContiguous(offset, data, true), calls, millis, luck);
  }

  lemma HonestStore(s: Sys, seqNo: Byte, data: seq<Byte>, now: U32, millis: U32, luck: Luck)
    requires SysInv(s) && s.eng.txn.state == Receiving && s.eng.txn.mode == Pipe
    ensures Honest(s.panel, StoreChunk(s.eng, seqNo, data, now, Answers0(s.panel, millis, luck)).calls, millis, luck)
  {
    var e, p, ans := s.eng, s.panel, Answers0(s.panel, millis, luck);
    if |data| <= Sub32(e.txn.expectedFrameBytes, e.txn.acceptedBytes) {
      assert e.txn.acceptedBytes + |data| <= FullFrame(p.dev.geo);
      var rest := AckOrFinish(AcceptChunk(e, seqNo, data, now), now, ans).calls;
      forall q | PanelOk(q) && q.dev.phase == p.dev.phase && q.Epaper? == p.Epaper?
        ensures Honest(q, rest, millis, luck)
      {
        HonestAckOrFinish(q, AcceptChunk(e, seqNo, data, now), now, ans, millis, luck);
      }
      HonestWrite(p, e.txn.acceptedBytes, data, rest, millis, luck);
    } else {
      HonestConcat(p, AbortTransfer, [], millis, luck);
      assert [] + [AbortTransfer] == [AbortTransfer] + [];
    }
  }

  lemma HonestDirectData(s: Sys, payload: seq<Byte>, now: U32, millis: U32, luck: Luck)
    requires SysInv(s)
    ensures Honest(s.panel, OnDirectData(s.eng, payload, now, Answers0(s.panel, millis, luck)).calls, millis, luck)
  {
    HonestConcat(s.panel, AbortTransfer, [], millis, luck);
    assert [] + [AbortTransfer] == [AbortTransfer] + [];
    if s.eng.txn.state == Receiving && s.eng.txn.mode == Direct
       && |payload| <= Sub32(s.eng.txn.expectedFrameBytes, s.eng.txn.acceptedBytes) {
      var write := WriteContiguous(s.eng.txn.nextDirectOffset, payload, true);
      HonestWrite(s.panel, s.eng.txn.nextDirectOffset, payload, [], millis, luck);
      assert [write] + [] == [write];
    }
  }

  lemma HonestBegin(s: Sys, mode: Mode, total: U32, now: U32, millis: U32, luck: Luck)
    requires SysInv(s) && s.eng.cfg.colorScheme == s.panel.scheme
    ensures var begun := BeginTransaction(s.eng, mode, total, now, Answers0(s.panel, millis, luck));
            Honest(s.panel, begun.calls, millis, luck)
  {
    var p := s.panel;
    var f := BeginFrame(FrameDescriptor(total, s.eng.cfg.colorScheme, false, false), true);
    HonestConcat(p, AbortTransfer, [], millis, luck);
    assert [AbortTransfer] + [] == [AbortTransfer];
    if total == s.eng.cfg.fullFrameBytes {
      HonestConcat(p, f, [], millis, luck);
      HonestConcat(Disarm(p), f, [], millis, luck);
      assert [f] + [] == [f] && [] + [f] == [f];
      HonestConcat(p, AbortTransfer, [f], millis, luck);
    }
  }

  lemma HonestTick(s: Sys, now: U32, millis: U32, luck: Luck)
    requires SysInv(s)
    ensures Honest(s.panel, Tick(s.eng, now, Answers0(s.panel, millis, luck)).calls, millis, luck)
  {
    var p := s.panel;
    var poll := PollRefresh(Poll(p, millis).1);
    var q := Poll(p, millis).0;
    HonestConcat(p, AbortTransfer, [], millis, luck);
    HonestConcat(q, AbortTransfer, [], millis, luck);
    HonestConcat(p, poll, [], millis, luck);
    HonestConcat(p, poll, [AbortTransfer], millis, luck);
    assert [] + [AbortTransfer] == [AbortTransfer] + [] == [AbortTransfer];
    assert [poll] + [] == [poll];
  }

  // No event is ever impossible over a real backend: whatever the driver does, there are answers
  // it really gives. So the statements about enabled steps speak of every event.
  lemma EveryEventEnabled(s: Sys, ev: GoodEvent, now: U32, millis: U32, luck: Luck)
    requires SysInv(s) && s.eng.cfg.colorScheme == s.panel.scheme
    ensures Enabled(s, EngineStep(Step(ev, now, Answers0(s.panel, millis, luck)), millis, luck))
  {
    var e, p, ans := s.eng, s.panel, Answers0(s.panel, millis, luck);
    HonestConcat(p, AbortTransfer, [], millis, luck);
    assert [] + [AbortTransfer] == [AbortTransfer] + [] == [AbortTransfer];
    match ev {
      case DirectStart(len) => HonestBegin(s, Direct, e.cfg.fullFrameBytes, now, millis, luck);
      case PipeStart(memory, len) =>
        var parsed := ParsePipeStart(memory, len);
        if parsed.Accepted? {
          HonestBegin(s, Pipe, parsed.req.totalSize, now, millis, luck);
        }
      case DirectData(payload) => HonestDirectData(s, payload, now, millis, luck);
      case PipeData(payload) =>
        if e.txn.state == Receiving && e.txn.mode == Pipe && payload != [] {
          HonestStore(s, payload[0], payload[1..], now, millis, luck);
        }
      case DirectEnd => HonestFinish(p, e, CMD_DIRECT_WRITE_END, now, ans, millis, luck);
      case PipeEnd =>
        var flushed := e.txn.(acceptedSinceAck := 0);
        HonestFinish(p, e, CMD_PIPE_WRITE_END, now, ans, millis, luck);
        HonestFinish(p, e.(txn := flushed, tail := Some(CurrentSack(flushed))), CMD_PIPE_WRITE_END,
                     now, ans, millis, luck);
      case TickAt => HonestTick(s, now, millis, luck);
      case _ =>
    }
  }

  // --- Whose refresh a 0x0073 reports ----------------------------------------------------------

  ghost predicate Attribution(s: Sys) {
    && s.attributed
    && s.panel.dev.finished <= s.panel.dev.launched
    && (s.panel.dev.phase == Ready ==> s.panel.dev.finished == s.panel.dev.launched)
    && (s.eng.txn.state == Refreshing ==> s.open.Some? && s.open.value <= s.panel.dev.launched)
  }

  // Launch numbers only grow, and a list of calls leaves a ready driver only through a launch.
  lemma {:induction false} ServeDriver(p: Panel, calls: seq<Call>, millis: U32, luck: Luck)
    requires PanelOk(p) && p.dev.finished <= p.dev.launched
    requires p.dev.phase == Ready ==> p.dev.finished == p.dev.launched
    ensures var q := Serve(p, calls, millis, luck);
            && q.dev.finished == p.dev.finished <= p.dev.launched <= q.dev.launched
            && (q.dev.phase == Ready ==> q.dev.finished == q.dev.launched)
    decreases |calls|
  {
    if calls == [] {
    } else {
      ServeDriver(Answer(p, calls[0], millis, luck).0, calls[1..], millis, luck);
    }
  }

  // How a handler ends in state REFRESHING: with the refresh just begun, or with nothing done but
  // a poll that stayed pending.
  predicate JustBegun(calls: seq<Call>) {
    |calls| > 0 && calls[|calls| - 1] == BeginRefresh(true)
  }

  lemma RefreshingCalls(e: Engine, l: Ledger, step: Step)
    requires Inv(e, l) && Handle(e, step).eng.txn.state == Refreshing
    ensures var calls := Handle(e, step).calls;
            JustBegun(calls) || (e.txn.state == Refreshing && (calls == [] || calls == [PollRefresh(Pending)]))
  {
    match step.ev {
      case PipeData(payload) =>
        if e.txn.state == Receiving && e.txn.mode == Pipe && payload != [] {
          StoreBegins(e, payload[0], payload[1..], step.now, step.ans);
        }
      case DirectStart(_) => StartRefreshing(e, step);
      case PipeStart(_, _) => StartRefreshing(e, step);
      case _ =>
    }
  }

  lemma StartRefreshing(e: Engine, s: Step)
    requires IsStart(s.ev) && Handle(e, s).eng.txn.state == Refreshing
    ensures e.txn.state == Refreshing && Handle(e, s).calls == []
  {
  }

  lemma StoreBegins(e: Engine, seqNo: Byte, data: seq<Byte>, now: U32, ans: Answers)
    requires e.txn.state == Receiving && StoreChunk(e, seqNo, data, now, ans).eng.txn.state == Refreshing
    ensures JustBegun(StoreChunk(e, seqNo, data, now, ans).calls)
  {
    var rest := AckOrFinish(AcceptChunk(e, seqNo, data, now), now, ans).calls;
    assert rest == [FinishFrame(true), BeginRefresh(true)];
  }

  // A refresh is reported complete only by a poll that answered COMPLETE, in state REFRESHING.
  lemma CompleteComesFromPoll(e: Engine, l: Ledger, step: Step)
    requires Inv(e, l) && Handle(e, step).res.refreshComplete
    ensures e.txn.state == Refreshing && Handle(e, step).calls == [PollRefresh(Complete)]
  {
  }

  lemma StaysRefreshing(e: Engine, l: Ledger, step: Step)
    requires Inv(e, l) && Handle(e, step).eng.txn.state == Refreshing
    ensures StartsRefresh(Handle(e, step)) || (e.txn.state == Refreshing && !Handle(e, step).res.refreshComplete)
  {
    hide Handle;
    RefreshingCalls(e, l, step);
    var out := Handle(e, step);
    if JustBegun(out.calls) {
      assert out.calls[|out.calls| - 1] in out.calls;
    } else if out.res.refreshComplete {
      CompleteComesFromPoll(e, l, step);
      assert false;
    }
  }

  lemma StepKeepsAttribution(s: Sys, l: Label)
    requires SysInv(s) && Attribution(s) && s.panel.Epaper?
    ensures Attribution(SysStep(s, l)) && SysStep(s, l).panel.Epaper?
  {
    if l.EngineStep? && Enabled(s, l) {
      var out := Handle(s.eng, l.step);
      ServeDriver(s.panel, out.calls, l.millis, l.luck);
      ServeKeepsKind(s.panel, out.calls, l.millis, l.luck);
      if out.res.refreshComplete {
        CompleteComesFromPoll(s.eng, Book(s), l.step);
      }
      if out.eng.txn.state == Refreshing {
        StaysRefreshing(s.eng, Book(s), l.step);
      }
    }
  }

  lemma {:induction false} ServeKeepsKind(p: Panel, calls: seq<Call>, millis: U32, luck: Luck)
    requires PanelOk(p)
    ensures Serve(p, calls, millis, luck).Epaper? == p.Epaper?
    decreases |calls|
  {
    if calls == [] {
    } else {
      ServeKeepsKind(Answer(p, calls[0], millis, luck).0, calls[1..], millis, luck);
    }
  }

  lemma {:induction false} RunKeepsAttribution(s: Sys, labels: seq<Label>)
    requires Booted(s) && s.panel.Epaper?
    ensures Attribution(SysRun(s, labels)) && SysRun(s, labels).panel.Epaper?
    decreases |labels|
  {
    if labels == [] {
    } else {
      RunKeepsAttribution(s, labels[..|labels| - 1]);
      RunKeepsSysInv(s, labels[..|labels| - 1]);
      StepKeepsAttribution(SysRun(s, labels[..|labels| - 1]), labels[|labels| - 1]);
    }
  }

  // With the epaper backend, in every run (local automations calling update() included) a 0x0073
  // is sent only for an acknowledged END not yet reported, after the driver finished the refresh
  // that END launched; the END is then used up, so it is reported at most once.
  lemma CompletionAttributed(s: Sys, labels: seq<Label>, l: Label)
    requires Booted(s) && s.panel.Epaper?
    requires var t := SysRun(s, labels);
             l.EngineStep? && Enabled(t, l) && Handle(t.eng, l.step).res.refreshComplete
    ensures var t := SysRun(s, labels);
            t.open.Some? && t.open.value <= t.panel.dev.finished && SysStep(t, l).open == None
  {
    RunKeepsAttribution(s, labels + [l]);
    assert (labels + [l])[..|labels|] == labels;
    RunKeepsSysInv(s, labels);
    var t := SysRun(s, labels);
    CompleteComesFromPoll(t.eng, Book(t), l.step);
  }

  // --- When the panel is free again ----------------------------------------------------------------

  // The engine holds the panel for a transaction that is gone, and the backend has forgotten the refresh.
  predicate Stuck(s: Sys) {
    s.eng.hwOwned && s.eng.txn.state != Refreshing && !Armed(s.panel)
  }

  lemma {:induction false} AbortsOnly(p: Panel, calls: seq<Call>, millis: U32, luck: Luck)
    requires PanelOk(p) && !Armed(p) && Honest(p, calls, millis, luck)
    requires forall c | c in calls :: c.AbortTransfer? || c.PollRefresh?
    ensures !Armed(Serve(p, calls, millis, luck)) && Serve(p, calls, millis, luck).dev == p.dev
    ensures forall c | c in calls && c.PollRefresh? :: c.result == if p.dev.phase == Broken then Failed else Pending
    decreases |calls|
  {
    if calls == [] {
    } else {
      var q := Answer(p, calls[0], millis, luck).0;
      AbortsOnly(q, calls[1..], millis, luck);
      assert calls == [calls[0]] + calls[1..];
    }
  }

  // Aborting a refreshing transaction, by the user or by its timeout, with either backend.
  lemma AbortWhileRefreshingSticks(s: Sys, l: Label)
    requires SysInv(s) && s.eng.txn.state == Refreshing && l.EngineStep? && Enabled(s, l)
    requires l.step.ev.UserAbort? || Handle(s.eng, l.step).res.refreshTimeout
    ensures Stuck(SysStep(s, l))
  {
    var out := Handle(s.eng, l.step);
    if l.step.ev.UserAbort? {
      assert out.calls == [AbortTransfer];
      assert Serve(s.panel, out.calls, l.millis, l.luck) == Disarm(s.panel);
    } else {
      TimeoutIsTick(s.eng, Book(s), l.step);
      var q := Answer(s.panel, PollRefresh(Pending), l.millis, l.luck).0;
      assert out.calls[1..] == [AbortTransfer] && [AbortTransfer][1..] == [];
      assert Serve(q, [AbortTransfer], l.millis, l.luck) == Disarm(q);
    }
  }

  lemma TimeoutIsTick(e: Engine, l: Ledger, step: Step)
    requires Inv(e, l) && Handle(e, step).res.refreshTimeout
    ensures step.ev.TickAt? && Handle(e, step).calls == [PollRefresh(Pending), AbortTransfer]
    ensures Handle(e, step).eng.txn == BLANK && Handle(e, step).eng.hwOwned
  {
  }

  // What the engine does while stuck: it polls, or it touches nothing and refuses every START.
  lemma StuckEngine(e: Engine, l: Ledger, step: Step)
    requires Inv(e, l) && e.hwOwned && e.txn.state != Refreshing
    ensures var out := Handle(e, step);
            && out.eng.txn.state == Idle && !out.res.transferStarted
            && (out.calls == [] || out.calls == [PollRefresh(step.ans.poll)])
            && (out.eng.hwOwned <==> !(step.ev.TickAt? && step.ans.poll != Pending))
  {
  }

  lemma StuckStep(s: Sys, l: Label)
    requires SysInv(s) && Stuck(s)
    ensures var t := SysStep(s, l);
            && (Stuck(t) || !t.eng.hwOwned)
            && (!t.eng.hwOwned <==> l.EngineStep? && Enabled(s, l) && l.step.ev.TickAt? && s.panel.dev.phase == Broken)
            && (l.EngineStep? && Enabled(s, l) ==> !Handle(s.eng, l.step).res.transferStarted)
  {
    if l.EngineStep? && Enabled(s, l) {
      StuckEngine(s.eng, Book(s), l.step);
      AbortsOnly(s.panel, Handle(s.eng, l.step).calls, l.millis, l.luck);
    }
  }

  // Once stuck, always stuck: over every continuation in which the driver does not break, with
  // either backend, the panel stays owned and no START is accepted.
  lemma {:induction false} StuckForever(s: Sys, labels: seq<Label>)
    requires SysInv(s) && Stuck(s) && s.panel.dev.phase != Broken
    requires forall l | l in labels :: !l.DriverBreaks? && (l.LocalUpdate? ==> l.luck != Breaks)
    ensures var t := SysRun(s, labels);
            && SysInv(t) && Stuck(t) && t.panel.dev.phase != Broken
            && forall l: Label | l.EngineStep? && Enabled(t, l) :: !Handle(t.eng, l.step).res.transferStarted
    decreases |labels|
  {
    if labels == [] {
    } else {
      var init, last := labels[..|labels| - 1], labels[|labels| - 1];
      assert last in labels && forall l | l in init :: l in labels;
      StuckForever(s, init);
      var t := SysRun(s, init);
      StuckStep(t, last);
      StepKeepsSysInv(t, last);
      if last.EngineStep? && Enabled(t, last) {
        StuckEngine(t.eng, Book(t), last.step);
        AbortsOnly(t.panel, Handle(t.eng, last.step).calls, last.millis, last.luck);
      }
    }
    var t := SysRun(s, labels);
    forall l: Label | l.EngineStep? && Enabled(t, l)
      ensures !Handle(t.eng, l.step).res.transferStarted
    {
      StuckStep(t, l);
    }
  }

  // --- How the panel gets stuck, and only how ------------------------------------------------------

  // The step aborts a transaction whose refresh is under way.
  predicate AbandonsRefresh(s: Sys, l: Label)
    requires PanelOk(s.panel)
  {
    && s.eng.txn.state == Refreshing && l.EngineStep? && Enabled(s, l)
    && (l.step.ev.UserAbort? || Handle(s.eng, l.step).res.refreshTimeout)
  }

  predicate Accounted(s: Sys) {
    s.eng.hwOwned ==> s.eng.txn.state == Refreshing || Stuck(s)
  }

  // A step after which the panel is owned: it begins a refresh, leaves one alone, or abandons it.
  lemma OwnedAfter(e: Engine, l: Ledger, step: Step)
    requires Inv(e, l) && Handle(e, step).eng.hwOwned && (e.hwOwned ==> e.txn.state == Refreshing)
    ensures Handle(e, step).eng.txn.state == Refreshing
            || (e.txn.state == Refreshing && (step.ev.UserAbort? || Handle(e, step).res.refreshTimeout))
  {
    match step.ev {
      case PipeData(payload) => OwnedAfterData(e, l, payload, step.now, step.ans);
      case DirectStart(_) => OwnedAfterStart(e, step);
      case PipeStart(_, _) => OwnedAfterStart(e, step);
      case _ =>
    }
  }

  lemma OwnedAfterData(e: Engine, l: Ledger, payload: seq<Byte>, now: U32, ans: Answers)
    requires Inv(e, l) && OnPipeData(e, payload, now, ans).eng.hwOwned && (e.hwOwned ==> e.txn.state == Refreshing)
    ensures OnPipeData(e, payload, now, ans).eng.txn.state == Refreshing
  {
  }

  lemma OwnedAfterStart(e: Engine, s: Step)
    requires IsStart(s.ev) && Handle(e, s).eng.hwOwned
    ensures e.hwOwned && Handle(e, s).eng.txn.state == e.txn.state
  {
  }

  // While every owner is refreshing, exactly these steps get the panel stuck.
  lemma StuckIff(s: Sys, l: Label)
    requires SysInv(s) && (s.eng.hwOwned ==> s.eng.txn.state == Refreshing)
    ensures Stuck(SysStep(s, l)) <==> AbandonsRefresh(s, l)
  {
    if AbandonsRefresh(s, l) {
      AbortWhileRefreshingSticks(s, l);
    } else if l.EngineStep? && Enabled(s, l) && Handle(s.eng, l.step).eng.hwOwned {
      OwnedAfter(s.eng, Book(s), l.step);
    }
  }

  // In every run an owned panel is refreshing or stuck: nothing else holds it.
  lemma {:induction false} RunAccounted(s: Sys, labels: seq<Label>)
    requires Booted(s)
    ensures Accounted(SysRun(s, labels))
    decreases |labels|
  {
    if labels == [] {
    } else {
      var t, last := SysRun(s, labels[..|labels| - 1]), labels[|labels| - 1];
      RunAccounted(s, labels[..|labels| - 1]);
      RunKeepsSysInv(s, labels[..|labels| - 1]);
      StepAccounted(t, last);
    }
  }

  lemma StepAccounted(t: Sys, l: Label)
    requires SysInv(t) && Accounted(t)
    ensures Accounted(SysStep(t, l))
  {
    if t.eng.hwOwned && t.eng.txn.state != Refreshing {
      StuckStep(t, l);
    } else if AbandonsRefresh(t, l) {
      AbortWhileRefreshingSticks(t, l);
    } else if l.EngineStep? && Enabled(t, l) && Handle(t.eng, l.step).eng.hwOwned {
      OwnedAfter(t.eng, Book(t), l.step);
    }
  }

  // With the epaper backend a transaction that is refreshing has its refresh remembered.
  predicate Remembered(s: Sys) {
    s.panel.Epaper? && (s.eng.txn.state == Refreshing ==> s.panel.started)
  }

  lemma {:induction false} ServeLaunch(p: Panel, calls: seq<Call>, millis: U32, luck: Luck)
    requires PanelOk(p) && p.Epaper? && Honest(p, calls, millis, luck)
    requires |calls| > 0 && calls[|calls| - 1] == BeginRefresh(true)
    ensures Armed(Serve(p, calls, millis, luck))
    decreases |calls|
  {
    var q := Answer(p, calls[0], millis, luck).0;
    if |calls| == 1 {
      assert Serve(q, calls[1..], millis, luck) == q;
    } else {
      ServeLaunch(q, calls[1..], millis, luck);
    }
  }

  lemma StepRemembered(s: Sys, l: Label)
    requires SysInv(s) && Remembered(s)
    ensures Remembered(SysStep(s, l))
  {
    if l.EngineStep? && Enabled(s, l) {
      var out := Handle(s.eng, l.step);
      ServeKeepsKind(s.panel, out.calls, l.millis, l.luck);
      if out.eng.txn.state == Refreshing {
        RefreshingCalls(s.eng, Book(s), l.step);
        if JustBegun(out.calls) {
          ServeLaunch(s.panel, out.calls, l.millis, l.luck);
        } else {
          PendingKeepsPanel(s.panel, out.calls, l.millis, l.luck);
        }
      }
    }
  }

  lemma PendingKeepsPanel(p: Panel, calls: seq<Call>, millis: U32, luck: Luck)
    requires PanelOk(p) && Honest(p, calls, millis, luck)
    requires calls == [] || calls == [PollRefresh(Pending)]
    ensures Serve(p, calls, millis, luck) == p
  {
    if calls != [] {
      assert calls[1..] == [];
      assert Answer(p, calls[0], millis, luck).0 == p;
    }
  }

  lemma {:induction false} RunRemembered(s: Sys, labels: seq<Label>)
    requires Booted(s) && s.panel.Epaper?
    ensures Remembered(SysRun(s, labels))
    decreases |labels|
  {
    if labels == [] {
    } else {
      RunRemembered(s, labels[..|labels| - 1]);
      RunKeepsSysInv(s, labels[..|labels| - 1]);
      StepRemembered(SysRun(s, labels[..|labels| - 1]), labels[|labels| - 1]);
    }
  }

  // In every run with the epaper backend, once the driver is done a tick frees an owned panel if
  // and only if the transaction that began the refresh is still there.
  lemma ReadyTickFreesIff(s: Sys, labels: seq<Label>, l: Label)
    requires Booted(s) && s.panel.Epaper?
    requires var t := SysRun(s, labels);
             && t.eng.hwOwned && t.panel.dev.phase == Ready
             && l.EngineStep? && l.step.ev.TickAt? && Enabled(t, l)
    ensures !SysStep(SysRun(s, labels), l).eng.hwOwned <==> SysRun(s, labels).eng.txn.state == Refreshing
  {
    RunRemembered(s, labels);
    RunAccounted(s, labels);
    RunKeepsSysInv(s, labels);
    ReadyTick(SysRun(s, labels), l);
  }

  lemma ReadyTick(t: Sys, l: Label)
    requires SysInv(t) && Remembered(t) && Accounted(t) && t.eng.hwOwned && t.panel.dev.phase == Ready
    requires l.EngineStep? && l.step.ev.TickAt? && Enabled(t, l)
    ensures !SysStep(t, l).eng.hwOwned <==> t.eng.txn.state == Refreshing
  {
    if t.eng.txn.state != Refreshing {
      StuckStep(t, l);
    } else {
      PollIsComplete(t.panel, t.eng, Book(t), l);
    }
  }

  lemma PollIsComplete(p: Panel, e: Engine, b: Ledger, l: Label)
    requires PanelOk(p) && p.Epaper? && p.started && p.dev.phase == Ready && Inv(e, b) && e.txn.state == Refreshing
    requires l.EngineStep? && l.step.ev.TickAt? && Honest(p, Handle(e, l.step).calls, l.millis, l.luck)
    ensures !Handle(e, l.step).eng.hwOwned && Handle(e, l.step).res.refreshComplete
  {
    assert Handle(e, l.step).calls[0] == PollRefresh(l.step.ans.poll);
  }

  // --- The IT8951 backend, which judges by the clock ---------------------------------------------

  // The settle deadline of the last END that was acknowledged.
  ghost function SettleOf(s: Sys, labels: seq<Label>): U32
    requires PanelOk(s.panel)
  {
    if labels == [] then 0
    else SettleAfter(SysRun(s, labels[..|labels| - 1]), SettleOf(s, labels[..|labels| - 1]), labels[|labels| - 1])
  }

  function SettleAfter(t: Sys, due: U32, l: Label): U32
    requires PanelOk(t.panel)
  {
    if l.EngineStep? && Enabled(t, l) && StartsRefresh(Handle(t.eng, l.step))
    then (l.millis + 5000) % 0x1_0000_0000 else due
  }

  predicate PastSettle(millis: U32, due: U32) {
    due != 0 && (millis - due) % 0x1_0000_0000 < 0x8000_0000
  }

  predicate Settling(t: Sys, due: U32) {
    t.panel.It8951? && (t.eng.txn.state == Refreshing ==> t.panel.settle == due && t.open.Some?)
  }

  lemma {:induction false} ServeSettles(p: Panel, calls: seq<Call>, millis: U32, luck: Luck)
    requires PanelOk(p) && p.It8951? && Honest(p, calls, millis, luck) && JustBegun(calls)
    ensures var q := Serve(p, calls, millis, luck); q.It8951? && q.settle == (millis + 5000) % 0x1_0000_0000
    decreases |calls|
  {
    var q := Answer(p, calls[0], millis, luck).0;
    if |calls| == 1 {
      assert Serve(q, calls[1..], millis, luck) == q;
    } else {
      ServeSettles(q, calls[1..], millis, luck);
    }
  }

  lemma StepSettles(t: Sys, due: U32, l: Label)
    requires SysInv(t) && Settling(t, due)
    ensures Settling(SysStep(t, l), SettleAfter(t, due, l))
  {
    hide Handle;
    if l.EngineStep? && Enabled(t, l) {
      var out := Handle(t.eng, l.step);
      ServeKeepsKind(t.panel, out.calls, l.millis, l.luck);
      if out.eng.txn.state == Refreshing {
        RefreshingCalls(t.eng, Book(t), l.step);
        StaysRefreshing(t.eng, Book(t), l.step);
        if JustBegun(out.calls) {
          assert out.calls[|out.calls| - 1] in out.calls;
          ServeSettles(t.panel, out.calls, l.millis, l.luck);
        } else {
          PendingKeepsPanel(t.panel, out.calls, l.millis, l.luck);
        }
      }
    }
  }

  lemma {:induction false} RunSettles(s: Sys, labels: seq<Label>)
    requires Booted(s) && s.panel.It8951?
    ensures Settling(SysRun(s, labels), SettleOf(s, labels))
    decreases |labels|
  {
    hide SysStep, SettleAfter;
    if labels == [] {
    } else {
      var init := labels[..|labels| - 1];
      RunSettles(s, init);
      RunKeepsSysInv(s, init);
      StepSettles(SysRun(s, init), SettleOf(s, init), labels[|labels| - 1]);
    }
  }

  // With the IT8951 backend a 0x0073 is sent only for an acknowledged END not yet reported, at a
  // poll past the settle deadline that END set; the END is then used up.
  lemma CompletionSettled(s: Sys, labels: seq<Label>, l: Label)
    requires Booted(s) && s.panel.It8951?
    requires var t := SysRun(s, labels);
             l.EngineStep? && Enabled(t, l) && Handle(t.eng, l.step).res.refreshComplete
    ensures var t := SysRun(s, labels);
            t.open.Some? && SysStep(t, l).open == None && PastSettle(l.millis, SettleOf(s, labels))
  {
    hide Handle;
    var t := SysRun(s, labels);
    RunSettles(s, labels);
    RunKeepsSysInv(s, labels);
    CompleteComesFromPoll(t.eng, Book(t), l.step);
    assert BeginRefresh(true) !in [PollRefresh(Complete)];
  }

  // With it a tick frees an owned panel if and only if the driver is broken, or the transaction is
  // still refreshing and its settle deadline has passed, whatever the driver does.
  lemma SettledTickFreesIff(s: Sys, labels: seq<Label>, l: Label)
    requires Booted(s) && s.panel.It8951?
    requires var t := SysRun(s, labels);
             t.eng.hwOwned && l.EngineStep? && l.step.ev.TickAt? && Enabled(t, l)
    ensures var t := SysRun(s, labels);
            !SysStep(t, l).eng.hwOwned <==>
              t.panel.dev.phase == Broken
              || (t.eng.txn.state == Refreshing && PastSettle(l.millis, SettleOf(s, labels)))
  {
    var t := SysRun(s, labels);
    RunSettles(s, labels);
    RunAccounted(s, labels);
    RunKeepsSysInv(s, labels);
    hide SysRun;
    if t.eng.txn.state != Refreshing {
      StuckStep(t, l);
    } else {
      OwnedTick(t.eng, Book(t), l.step);
      assert Handle(t.eng, l.step).calls[0] == PollRefresh(l.step.ans.poll);
    }
  }

  lemma OwnedTick(e: Engine, l: Ledger, step: Step)
    requires Inv(e, l) && e.hwOwned && step.ev.TickAt?
    ensures var out := Handle(e, step);
            |out.calls| > 0 && out.calls[0] == PollRefresh(step.ans.poll)
            && (!out.eng.hwOwned <==> step.ans.poll != Pending)
  {
  }

  // The IT8951 settle deadline 0 means "no refresh": a refresh begun 5 s before the clock wraps is
  // forgotten at once and stays pending until its timeout, even though nothing was aborted.
  lemma SettleDeadlineAtZero(p: Panel, millis: U32, luck: Luck, later: U32)
    requires p.It8951? && p.dev.phase == Ready && luck != Breaks
    ensures var l := Launch(p, millis, luck);
            l.1 && (Armed(l.0) <==> millis != 0x1_0000_0000 - 5000)
            && (!Armed(l.0) ==> Poll(l.0, later).1 == Pending)
  {
  }
}
