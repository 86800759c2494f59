// A whole DIRECT transfer, end to end and at any pace: when a client's image is shown, and when
// the client is told so.
module DirectTransfer {
  import opened Bytes
  import opened Wire
  import opened EngineModel
  import opened EngineRuns
  import opened EngineTheorems
  import opened EngineTimers
  import opened Replies
  import opened PanelModel
  import opened SystemRuns

  // The true time of a step, and what the backend's own clock reads meanwhile.
  datatype Moment = Moment(at: nat, millis: U32)

  // What happens between START and END: the next packet arrives, loop() ticks, a local automation
  // calls update(), the driver finishes a refresh of whoever began it, or breaks.
  datatype Act = Data(chunk: seq<Byte>, when: Moment) | Wait(when: Moment) | Own(luck: Luck) | Done | Fault

  // An engine event with the answers this backend gives, and an update() that works.
  function Given(s: Sys, ev: GoodEvent, m: Moment): Label {
    EngineStep(Step(ev, m.at % TWO_TO_32, Answers0(s.panel, m.millis, Launches)), m.millis, Launches)
  }

  function Moved(s: Sys, a: Act): (t: Sys)
    requires PanelOk(s.panel)
    ensures PanelOk(t.panel)
  {
    match a
    case Data(chunk, when) => SysStep(s, Given(s, DirectData(chunk), when))
    case Wait(when) => SysStep(s, Given(s, TickAt, when))
    case Own(luck) => SysStep(s, LocalUpdate(luck))
    case Done => SysStep(s, DriverFinishes)
    case Fault => SysStep(s, DriverBreaks)
  }

  // What becomes of the driver, if no transfer begins a refresh.
  function PhaseAfter(phase: Phase, a: Act): Phase {
    match a
    case Own(Launches) => if phase == Ready then Working else phase
    case Own(Breaks) => if phase == Ready then Broken else phase
    case Done => if phase == Working then Ready else phase
    case Fault => Broken
    case _ => phase
  }

  function DriverAfter(phase: Phase, acts: seq<Act>): Phase {
    if acts == [] then phase else PhaseAfter(DriverAfter(phase, acts[..|acts| - 1]), acts[|acts| - 1])
  }

  // The system after START and some acts, and after END.
  function Played(s: Sys, start: Moment, acts: seq<Act>): (t: Sys)
    requires PanelOk(s.panel)
    ensures PanelOk(t.panel)
  {
    if acts == [] then SysStep(s, Given(s, DirectStart(0), start))
    else
      Moved(Played(s, start, acts[..|acts| - 1]), acts[|acts| - 1])
  }

  function Ended(s: Sys, start: Moment, acts: seq<Act>, end: Moment): (t: Sys)
    requires PanelOk(s.panel)
    ensures PanelOk(t.panel)
  {
    var t := Played(s, start, acts);
    SysStep(t, Given(t, DirectEnd, end))
  }

  ghost function Sent(acts: seq<Act>): seq<Byte> {
    if acts == [] then []
    else
      var last := acts[|acts| - 1];
      Sent(acts[..|acts| - 1]) + (if last.Data? then last.chunk else [])
  }

  function LastPacket(start: Moment, acts: seq<Act>): nat {
    if acts == [] then start.at
    else if acts[|acts| - 1].Data? then acts[|acts| - 1].when.at
    else LastPacket(start, acts[..|acts| - 1])
  }

  // No tick comes when the deadline set by the packet before it is due.
  predicate Timely(timeout: U32, start: Moment, acts: seq<Act>) {
    acts == []
    || (Timely(timeout, start, acts[..|acts| - 1])
        && (acts[|acts| - 1].Wait? ==>
              !Fires(acts[|acts| - 1].when.at, LastPacket(start, acts[..|acts| - 1]) + timeout)))
  }

  predicate NoEmptyChunks(acts: seq<Act>) {
    forall a | a in acts && a.Data? :: a.chunk != []
  }

  // A system whose panel no transfer owns, whatever transfer is open and whatever the driver does.
  ghost predicate ReadyFor(s: Sys) {
    && SysInv(s) && s.eng.cfg.colorScheme == s.panel.scheme && 0 < s.eng.cfg.fullFrameBytes
    && !s.eng.hwOwned
  }

  // Which backend it is, and what its driver does.
  datatype Kind = Kind(epaper: bool, phase: Phase)

  function KindOf(p: Panel): Kind {
    Kind(p.Epaper?, p.dev.phase)
  }

  ghost predicate Idling(t: Sys, cfg: Config, kind: Kind) {
    SysInv(t) && t.eng.cfg == cfg && cfg.colorScheme == t.panel.scheme && KindOf(t.panel) == kind
  }

  // The transfer is open, these data have been taken, and `last` was its last packet.
  ghost predicate Holding(t: Sys, cfg: Config, kind: Kind, data: seq<Byte>, last: nat) {
    && Idling(t, cfg, kind)
    && t.eng.txn.state == Receiving && t.eng.txn.mode == Direct && Book(t).written == data
    && t.eng.txn.transferDeadline == (last + cfg.transferTimeout) % TWO_TO_32
  }

  // The transfer has timed out.
  ghost predicate Dropped(t: Sys, cfg: Config, kind: Kind) {
    Idling(t, cfg, kind) && t.eng.txn.state == Idle && !t.eng.hwOwned
  }

  // The calls of a handler that does not begin a refresh leave the driver as it is.
  lemma {:induction false} DriverUntouched(p: Panel, calls: seq<Call>, millis: U32, luck: Luck)
    requires PanelOk(p) && forall c | c in calls :: !c.BeginRefresh?
    ensures Serve(p, calls, millis, luck).dev.phase == p.dev.phase
    ensures Serve(p, calls, millis, luck).Epaper? == p.Epaper?
    decreases |calls|
  {
    if calls == [] {
    } else {
      assert calls[0] in calls && forall c | c in calls[1..] :: c in calls;
      DriverUntouched(Answer(p, calls[0], millis, luck).0, calls[1..], millis, luck);
    }
  }

  // One engine step that does not begin a refresh leaves the driver to itself.
  lemma StepIdling(t: Sys, cfg: Config, kind: Kind, ev: GoodEvent, m: Moment)
    requires Idling(t, cfg, kind)
    requires forall c | c in Handle(t.eng, Given(t, ev, m).step).calls :: !c.BeginRefresh?
    ensures var u, out := SysStep(t, Given(t, ev, m)), Handle(t.eng, Given(t, ev, m).step);
            && Idling(u, cfg, kind) && u.eng == out.eng
            && Book(u) == PostAll(Book(t), cfg.fullFrameBytes, out.calls)
  {
    hide Handle;
    var l := Given(t, ev, m);
    var out := Handle(t.eng, l.step);
    EveryEventEnabled(t, ev, l.step.now, m.millis, Launches);
    StepKeepsSysInv(t, l);
    StepKeepsInv(t.eng, Book(t), l.step);
    LedgerConcat(t.eng.cfg.fullFrameBytes, t.log, out.calls);
    DriverUntouched(t.panel, out.calls, m.millis, Launches);
  }

  lemma StartOpens(e: Engine, now: U32, ans: Answers)
    requires e.cfg.attached && !e.hwOwned && ans.begin
    ensures var out := OnDirectStart(e, 0, now, ans);
            && out.res.transferStarted && out.eng.txn.state == Receiving && out.eng.txn.mode == Direct
            && out.eng.txn.transferDeadline == Add32(now, e.cfg.transferTimeout)
            && forall c | c in out.calls :: !c.BeginRefresh?
  {
  }

  lemma Starts(s: Sys, start: Moment)
    requires ReadyFor(s)
    ensures Holding(Played(s, start, []), s.eng.cfg, KindOf(s.panel), [], start.at)
  {
    var l := Given(s, DirectStart(0), start);
    StartOpens(s.eng, l.step.now, l.step.ans);
    StepIdling(s, s.eng.cfg, KindOf(s.panel), DirectStart(0), start);
    StepWritten(s.eng, Book(s), l.step);
    AddModular(start.at, s.eng.cfg.transferTimeout);
  }

  lemma DataTaken(e: Engine, l: Ledger, payload: seq<Byte>, now: U32, ans: Answers)
    requires Inv(e, l) && e.txn.state == Receiving && e.txn.mode == Direct && ans.write
    requires payload != [] && |l.written| + |payload| <= e.cfg.fullFrameBytes
    ensures var out := OnDirectData(e, payload, now, ans);
            && Took(out) && !out.res.transferStarted && |out.calls| == 1
            && out.eng.txn.state == Receiving && out.eng.txn.mode == Direct
            && out.eng.txn.transferDeadline == Add32(now, e.cfg.transferTimeout)
  {
  }

  lemma Takes(t: Sys, cfg: Config, kind: Kind, data: seq<Byte>, last: nat, chunk: seq<Byte>, m: Moment)
    requires Holding(t, cfg, kind, data, last) && chunk != [] && |data| + |chunk| <= cfg.fullFrameBytes
    ensures Holding(SysStep(t, Given(t, DirectData(chunk), m)), cfg, kind, data + chunk, m.at)
  {
    var l := Given(t, DirectData(chunk), m);
    var out := Handle(t.eng, l.step);
    DataTaken(t.eng, Book(t), chunk, l.step.now, l.step.ans);
    assert out == OnDirectData(t.eng, chunk, l.step.now, l.step.ans);
    hide Handle, OnDirectData, SysStep, SysInv, Given;
    assert out.calls == [out.calls[0]];
    StepIdling(t, cfg, kind, DirectData(chunk), m);
    StepWritten(t.eng, Book(t), l.step);
    AddModular(m.at, cfg.transferTimeout);
  }

  lemma TickCalls(e: Engine, l: Ledger, now: U32, ans: Answers)
    requires Inv(e, l) && e.txn.state == Receiving
    ensures var out := Tick(e, now, ans);
            && (forall c | c in out.calls :: !c.BeginRefresh?)
            && (out.eng == e ==> out.calls == []) && (out.eng != e ==> out.calls == [AbortTransfer])
            && !out.eng.hwOwned
  {
  }

  lemma Waits(t: Sys, cfg: Config, kind: Kind, data: seq<Byte>, last: nat, m: Moment)
    requires Holding(t, cfg, kind, data, last)
    ensures var u := SysStep(t, Given(t, TickAt, m));
            if Fires(m.at, last + cfg.transferTimeout) then Dropped(u, cfg, kind)
            else Holding(u, cfg, kind, data, last)
  {
    var l := Given(t, TickAt, m);
    TickCalls(t.eng, Book(t), l.step.now, l.step.ans);
    TickWhileReceiving(t.eng, Book(t), m.at, last + cfg.transferTimeout, l.step.ans);
    StepIdling(t, cfg, kind, TickAt, m);
  }

  lemma StaysDropped(t: Sys, cfg: Config, kind: Kind, ev: GoodEvent, m: Moment)
    requires Dropped(t, cfg, kind) && (ev.DirectData? || ev.TickAt? || ev.DirectEnd?)
    ensures Dropped(SysStep(t, Given(t, ev, m)), cfg, kind)
    ensures ev.DirectEnd? ==> Handle(t.eng, Given(t, ev, m).step).res.response == EncodeNack(CMD_DIRECT_WRITE_END)
  {
    assert Handle(t.eng, Given(t, ev, m).step).calls == [];
    StepIdling(t, cfg, kind, ev, m);
  }

  lemma {:induction false} SentFits(acts: seq<Act>, n: nat)
    requires n <= |acts|
    ensures |Sent(acts[..n])| <= |Sent(acts)|
    decreases |acts|
  {
    if n < |acts| {
      SentFits(acts[..|acts| - 1], n);
      assert acts[..|acts| - 1][..n] == acts[..n];
    } else {
      assert acts[..n] == acts;
    }
  }

  // The driver and local automations leave the transfer alone.
  lemma DriverMoves(t: Sys, cfg: Config, kind: Kind, a: Act)
    requires Idling(t, cfg, kind) && (a.Own? || a.Done? || a.Fault?)
    ensures var u := Moved(t, a);
            Idling(u, cfg, kind.(phase := PhaseAfter(kind.phase, a))) && u.eng == t.eng && Book(u) == Book(t)
  {
    match a {
      case Own(luck) => StepKeepsSysInv(t, LocalUpdate(luck));
      case Done => StepKeepsSysInv(t, DriverFinishes);
      case _ => StepKeepsSysInv(t, DriverBreaks);
    }
  }

  // Whatever the pace, the transfer is open with everything sent so far, or a tick has ended it.
  lemma {:induction false} PlayedHolds(s: Sys, start: Moment, acts: seq<Act>)
    requires ReadyFor(s) && NoEmptyChunks(acts) && |Sent(acts)| <= s.eng.cfg.fullFrameBytes
    ensures var t, cfg := Played(s, start, acts), s.eng.cfg;
            var kind := Kind(s.panel.Epaper?, DriverAfter(s.panel.dev.phase, acts));
            if Timely(cfg.transferTimeout, start, acts)
            then Holding(t, cfg, kind, Sent(acts), LastPacket(start, acts))
            else Dropped(t, cfg, kind)
    decreases |acts|
  {
    hide SysStep, Holding, Dropped, Moved;
    if acts == [] {
      Starts(s, start);
    } else {
      var init, last := acts[..|acts| - 1], acts[|acts| - 1];
      var cfg, kind := s.eng.cfg, Kind(s.panel.Epaper?, DriverAfter(s.panel.dev.phase, init));
      assert last in acts && forall a | a in init :: a in acts;
      SentFits(acts, |acts| - 1);
      PlayedHolds(s, start, init);
      if Timely(cfg.transferTimeout, start, init) {
        MovedHolds(Played(s, start, init), cfg, kind, Sent(init), LastPacket(start, init), last);
      } else {
        MovedDropped(Played(s, start, init), cfg, kind, last);
      }
    }
  }

  lemma MovedHolds(t: Sys, cfg: Config, kind: Kind, data: seq<Byte>, last: nat, a: Act)
    requires Holding(t, cfg, kind, data, last)
    requires a.Data? ==> a.chunk != [] && |data| + |a.chunk| <= cfg.fullFrameBytes
    ensures var u, next := Moved(t, a), kind.(phase := PhaseAfter(kind.phase, a));
            if a.Wait? && Fires(a.when.at, last + cfg.transferTimeout) then Dropped(u, cfg, next)
            else Holding(u, cfg, next, data + (if a.Data? then a.chunk else []), if a.Data? then a.when.at else last)
  {
    match a {
      case Data(chunk, when) => Takes(t, cfg, kind, data, last, chunk, when);
      case Wait(when) => Waits(t, cfg, kind, data, last, when);
      case _ => DriverMoves(t, cfg, kind, a);
    }
    hide SysStep, Given, SysInv;
    assert data + [] == data;
  }

  lemma MovedDropped(t: Sys, cfg: Config, kind: Kind, a: Act)
    requires Dropped(t, cfg, kind)
    ensures Dropped(Moved(t, a), cfg, kind.(phase := PhaseAfter(kind.phase, a)))
  {
    match a {
      case Data(chunk, when) => StaysDropped(t, cfg, kind, DirectData(chunk), when);
      case Wait(when) => StaysDropped(t, cfg, kind, TickAt, when);
      case _ => DriverMoves(t, cfg, kind, a);
    }
  }

  lemma EndRefreshes(e: Engine, l: Ledger, now: U32, ans: Answers)
    requires Inv(e, l) && e.txn.state == Receiving && e.txn.mode == Direct
    requires |l.written| == e.cfg.fullFrameBytes && ans.finish && ans.refresh
    ensures var out := OnDirectEnd(e, now, ans);
            && out.calls == [FinishFrame(true), BeginRefresh(true)] && out.eng.txn.state == Refreshing
            && out.eng.txn.refreshDeadline == Add32(now, e.cfg.refreshTimeout)
            && out.res.response == EncodeAck(CMD_DIRECT_WRITE_END)
  {
  }

  lemma ServeEnd(p: Panel, millis: U32)
    requires PanelOk(p) && p.dev.phase == Ready
    ensures Launch(p, millis, Launches).1
    ensures Serve(p, [FinishFrame(true), BeginRefresh(true)], millis, Launches) == Launch(p, millis, Launches).0
  {
    assert [FinishFrame(true), BeginRefresh(true)][1..] == [BeginRefresh(true)];
    assert [BeginRefresh(true)][1..] == [];
    assert Serve(p, [BeginRefresh(true)], millis, Launches) == Launch(p, millis, Launches).0;
  }

  // Without a ready driver no refresh can be begun.
  lemma EndRefused(e: Engine, l: Ledger, now: U32, ans: Answers)
    requires Inv(e, l) && e.txn.state == Receiving && e.txn.mode == Direct
    requires |l.written| == e.cfg.fullFrameBytes && ans.finish && !ans.refresh
    ensures var out := OnDirectEnd(e, now, ans);
            out.eng.txn.state == Idle && out.res.response == EncodeNack(CMD_DIRECT_WRITE_END)
  {
  }

  // A refresh of these data was begun at true time `begun`.
  ghost predicate Launched(u: Sys, cfg: Config, data: seq<Byte>, begun: nat, phase: Phase) {
    && SysInv(u) && u.eng.cfg == cfg && cfg.colorScheme == u.panel.scheme
    && u.eng.txn.state == Refreshing && Book(u).written == data && |data| == cfg.fullFrameBytes
    && u.eng.txn.refreshDeadline == (begun + cfg.refreshTimeout) % TWO_TO_32
    && (u.panel.Epaper? ==> u.panel.started) && u.panel.dev.phase == phase
  }

  lemma Ends(t: Sys, cfg: Config, kind: Kind, data: seq<Byte>, last: nat, m: Moment)
    requires Holding(t, cfg, kind, data, last) && |data| == cfg.fullFrameBytes && kind.phase == Ready
    ensures var u := SysStep(t, Given(t, DirectEnd, m));
            Launched(u, cfg, data, m.at, Working) && u.panel.Epaper? == kind.epaper
    ensures Handle(t.eng, Given(t, DirectEnd, m).step).res.response == EncodeAck(CMD_DIRECT_WRITE_END)
  {
    var l := Given(t, DirectEnd, m);
    var out := Handle(t.eng, l.step);
    ServeEnd(t.panel, m.millis);
    EndRefreshes(t.eng, Book(t), l.step.now, l.step.ans);
    EndSteps(t, m);
    EndWritten(t.eng, Book(t), l.step.now, l.step.ans);
    AddModular(m.at, cfg.refreshTimeout);
  }

  lemma EndsInVain(t: Sys, cfg: Config, kind: Kind, data: seq<Byte>, last: nat, m: Moment)
    requires Holding(t, cfg, kind, data, last) && |data| == cfg.fullFrameBytes && kind.phase != Ready
    ensures SysStep(t, Given(t, DirectEnd, m)).eng.txn.state == Idle
    ensures Handle(t.eng, Given(t, DirectEnd, m).step).res.response == EncodeNack(CMD_DIRECT_WRITE_END)
  {
    var l := Given(t, DirectEnd, m);
    EndRefused(t.eng, Book(t), l.step.now, l.step.ans);
    EndSteps(t, m);
  }

  lemma EndSteps(t: Sys, m: Moment)
    requires SysInv(t) && t.eng.cfg.colorScheme == t.panel.scheme
    ensures var l := Given(t, DirectEnd, m); var u, out := SysStep(t, l), Handle(t.eng, l.step);
            && SysInv(u) && u.eng == out.eng && out.eng.cfg == t.eng.cfg && u.panel.scheme == t.panel.scheme
            && u.panel == Serve(t.panel, out.calls, m.millis, Launches)
            && Book(u) == PostAll(Book(t), t.eng.cfg.fullFrameBytes, out.calls)
  {
    hide Handle;
    var l := Given(t, DirectEnd, m);
    EveryEventEnabled(t, DirectEnd, l.step.now, m.millis, Launches);
    StepKeepsSysInv(t, l);
    StepKeepsInv(t.eng, Book(t), l.step);
    LedgerConcat(t.eng.cfg.fullFrameBytes, t.log, Handle(t.eng, l.step).calls);
  }

  // The END finds the transfer open and the driver ready.
  predicate Works(s: Sys, start: Moment, acts: seq<Act>) {
    Timely(s.eng.cfg.transferTimeout, start, acts) && DriverAfter(s.panel.dev.phase, acts) == Ready
  }

  // What the client reads in answer to an event.
  function ReplyTo(t: Sys, ev: GoodEvent, m: Moment): Response
    requires PanelOk(t.panel)
  {
    Handle(t.eng, Given(t, ev, m).step).res.response
  }

  lemma StartReply(s: Sys, start: Moment)
    requires ReadyFor(s)
    ensures ReplyTo(s, DirectStart(0), start) == [0x00, 0x70]
  {
    hide BeginTransaction;
    var l := Given(s, DirectStart(0), start);
    BeginAnswers(s.eng, Direct, s.eng.cfg.fullFrameBytes, l.step.now, l.step.ans);
  }

  // A packet is acknowledged as long as no tick has ended the transfer.
  lemma PacketReply(s: Sys, start: Moment, acts: seq<Act>, i: nat)
    requires ReadyFor(s) && NoEmptyChunks(acts) && |Sent(acts)| <= s.eng.cfg.fullFrameBytes
    requires i < |acts| && acts[i].Data?
    ensures ReplyTo(Played(s, start, acts[..i]), DirectData(acts[i].chunk), acts[i].when)
         == [if Timely(s.eng.cfg.transferTimeout, start, acts[..i]) then 0x00 else 0xFF, 0x71]
  {
    var init, chunk, cfg := acts[..i], acts[i].chunk, s.eng.cfg;
    assert acts[i] in acts && forall a | a in init :: a in acts;
    assert acts[..i + 1][..i] == init;
    SentFits(acts, i);
    SentFits(acts, i + 1);
    PlayedHolds(s, start, init);
    var t := Played(s, start, init);
    var kind := Kind(s.panel.Epaper?, DriverAfter(s.panel.dev.phase, init));
    hide Played, Timely, Sent;
    if Timely(cfg.transferTimeout, start, init) {
      HeldReply(t, cfg, kind, Sent(init), LastPacket(start, init), chunk, acts[i].when);
    } else {
      DroppedReply(t, cfg, kind, chunk, acts[i].when);
    }
  }

  lemma HeldReply(t: Sys, cfg: Config, kind: Kind, data: seq<Byte>, last: nat, chunk: seq<Byte>, m: Moment)
    requires Holding(t, cfg, kind, data, last) && chunk != [] && |data| + |chunk| <= cfg.fullFrameBytes
    ensures ReplyTo(t, DirectData(chunk), m) == [0x00, 0x71]
  {
    var l := Given(t, DirectData(chunk), m);
    DataAnswer(t.eng, Book(t), chunk, l.step.now, l.step.ans);
    hide OnDirectData, SysInv;
  }

  lemma DroppedReply(t: Sys, cfg: Config, kind: Kind, chunk: seq<Byte>, m: Moment)
    requires Dropped(t, cfg, kind)
    ensures ReplyTo(t, DirectData(chunk), m) == [0xFF, 0x71]
  {
  }

  // Whatever the system held before and with either backend: an image of the panel's size, cut into
  // any non-empty chunks and sent at any pace, has its END acknowledged, its refresh begun and is
  // on the panel if and only if no tick on the way found the transfer's deadline due and no
  // refresh of somebody else's keeps the driver from it at the END; otherwise the END is refused.
  // The START is acknowledged, and every packet up to such a tick.
  lemma ImageDisplayedIff(s: Sys, start: Moment, acts: seq<Act>, end: Moment)
    requires ReadyFor(s) && NoEmptyChunks(acts) && |Sent(acts)| == s.eng.cfg.fullFrameBytes
    ensures ReplyTo(s, DirectStart(0), start) == [0x00, 0x70]
    ensures forall i | 0 <= i < |acts| && acts[i].Data? ::
              ReplyTo(Played(s, start, acts[..i]), DirectData(acts[i].chunk), acts[i].when)
              == [if Timely(s.eng.cfg.transferTimeout, start, acts[..i]) then 0x00 else 0xFF, 0x71]
    ensures ReplyTo(Played(s, start, acts), DirectEnd, end) == [if Works(s, start, acts) then 0x00 else 0xFF, 0x72]
    ensures var u := Ended(s, start, acts, end);
            u.eng.txn.state == Refreshing && Displays(u.panel, Sent(acts)) <==> Works(s, start, acts)
  {
    hide SysStep, Handle;
    StartReply(s, start);
    forall i | 0 <= i < |acts| && acts[i].Data?
      ensures ReplyTo(Played(s, start, acts[..i]), DirectData(acts[i].chunk), acts[i].when)
           == [if Timely(s.eng.cfg.transferTimeout, start, acts[..i]) then 0x00 else 0xFF, 0x71]
    {
      PacketReply(s, start, acts, i);
    }
    EndReply(s, start, acts, end);
  }

  lemma EndReply(s: Sys, start: Moment, acts: seq<Act>, end: Moment)
    requires ReadyFor(s) && NoEmptyChunks(acts) && |Sent(acts)| == s.eng.cfg.fullFrameBytes
    ensures ReplyTo(Played(s, start, acts), DirectEnd, end) == [if Works(s, start, acts) then 0x00 else 0xFF, 0x72]
    ensures var u := Ended(s, start, acts, end);
            u.eng.txn.state == Refreshing && Displays(u.panel, Sent(acts)) <==> Works(s, start, acts)
  {
    hide SysStep, Handle;
    var t, cfg := Played(s, start, acts), s.eng.cfg;
    var kind := Kind(s.panel.Epaper?, DriverAfter(s.panel.dev.phase, acts));
    PlayedHolds(s, start, acts);
    if !Timely(cfg.transferTimeout, start, acts) {
      StaysDropped(t, cfg, kind, DirectEnd, end);
    } else if kind.phase == Ready {
      Ends(t, cfg, kind, Sent(acts), LastPacket(start, acts), end);
      FullShowsDisplays(Ended(s, start, acts, end).panel, Sent(acts));
    } else {
      EndsInVain(t, cfg, kind, Sent(acts), LastPacket(start, acts), end);
    }
  }

  // --- When it is reported --------------------------------------------------------------------

  // After the END: ticks, local updates and the driver.
  function Watched(u: Sys, waits: seq<Act>): (t: Sys)
    requires PanelOk(u.panel)
    ensures PanelOk(t.panel)
  {
    if waits == [] then u else Moved(Watched(u, waits[..|waits| - 1]), waits[|waits| - 1])
  }

  predicate Patient(due: nat, waits: seq<Act>) {
    forall a | a in waits && a.Wait? :: !Fires(a.when.at, due)
  }

  // No tick yet has found the driver done, and no packet comes.
  predicate StillBusy(waits: seq<Act>) {
    waits == []
    || (StillBusy(waits[..|waits| - 1]) && !waits[|waits| - 1].Data?
        && (waits[|waits| - 1].Wait? ==> DriverAfter(Working, waits[..|waits| - 1]) != Ready))
  }

  // The transaction is gone and its refresh forgotten, whatever the driver does.
  ghost predicate Forgotten(u: Sys, cfg: Config, phase: Phase) {
    && SysInv(u) && u.eng.cfg == cfg && cfg.colorScheme == u.panel.scheme
    && Stuck(u) && u.eng.txn.state == Idle && u.panel.Epaper? && u.panel.dev.phase == phase
  }

  lemma PendingPoll(p: Panel, millis: U32)
    requires p.Epaper? && p.dev.phase == Working
    ensures Poll(p, millis) == (p, Pending)
  {
  }

  lemma TickPending(e: Engine, l: Ledger, now: U32, ans: Answers)
    requires Inv(e, l) && e.txn.state == Refreshing && ans.poll == Pending
    ensures var out := Tick(e, now, ans);
            if out.res.refreshTimeout then out.eng.txn == BLANK && out.calls == [PollRefresh(Pending), AbortTransfer]
            else out.eng == e && out.calls == [PollRefresh(Pending)]
  {
  }

  lemma PendingServe(p: Panel, millis: U32)
    requires PanelOk(p) && p.Epaper? && p.dev.phase == Working
    ensures Serve(p, [PollRefresh(Pending)], millis, Launches) == p
    ensures Serve(p, [PollRefresh(Pending), AbortTransfer], millis, Launches) == Disarm(p)
  {
    assert [PollRefresh(Pending)][1..] == [] && [AbortTransfer][1..] == [];
    assert [PollRefresh(Pending), AbortTransfer][1..] == [AbortTransfer];
    assert Serve(p, [AbortTransfer], millis, Launches) == Disarm(p);
  }

  lemma TickSteps(u: Sys, m: Moment)
    requires SysInv(u) && u.eng.cfg.colorScheme == u.panel.scheme
    ensures var l := Given(u, TickAt, m); var v, out := SysStep(u, l), Handle(u.eng, l.step);
            && SysInv(v) && Enabled(u, l) && v.eng == out.eng && out.eng.cfg == u.eng.cfg
            && v.panel.scheme == u.panel.scheme
            && v.panel == Serve(u.panel, out.calls, m.millis, Launches)
            && Book(v) == PostAll(Book(u), u.eng.cfg.fullFrameBytes, out.calls)
  {
    hide Handle;
    var l := Given(u, TickAt, m);
    EveryEventEnabled(u, TickAt, l.step.now, m.millis, Launches);
    StepKeepsSysInv(u, l);
    StepKeepsInv(u.eng, Book(u), l.step);
    LedgerConcat(u.eng.cfg.fullFrameBytes, u.log, Handle(u.eng, l.step).calls);
  }

  lemma WatchOnce(u: Sys, cfg: Config, data: seq<Byte>, begun: nat, m: Moment)
    requires Launched(u, cfg, data, begun, Working) && u.panel.Epaper?
    ensures var v := SysStep(u, Given(u, TickAt, m));
            if Fires(m.at, begun + cfg.refreshTimeout) then Forgotten(v, cfg, Working)
            else Launched(v, cfg, data, begun, Working) && v.panel.Epaper?
  {
    hide PostAll;
    var l := Given(u, TickAt, m);
    PendingPoll(u.panel, m.millis);
    PendingServe(u.panel, m.millis);
    TickSteps(u, m);
    TickPending(u.eng, Book(u), l.step.now, l.step.ans);
    TickWhilePending(u.eng, Book(u), m.at, begun + cfg.refreshTimeout, l.step.ans);
  }

  lemma ForgottenOnce(u: Sys, cfg: Config, phase: Phase, m: Moment)
    requires Forgotten(u, cfg, phase) && phase != Broken
    ensures var v, l := SysStep(u, Given(u, TickAt, m)), Given(u, TickAt, m);
            && Forgotten(v, cfg, phase) && Enabled(u, l) && !Handle(u.eng, l.step).res.refreshComplete
  {
    var l := Given(u, TickAt, m);
    TickSteps(u, m);
    StuckEngine(u.eng, Book(u), l.step);
    AbortsOnly(u.panel, Handle(u.eng, l.step).calls, m.millis, Launches);
    StuckStep(u, l);
    DisarmedStays(u.panel, Handle(u.eng, l.step).calls, m.millis);
    NothingCompletes(u.eng, Book(u), l.step);
  }

  lemma NothingCompletes(e: Engine, l: Ledger, step: Step)
    requires Inv(e, l) && e.txn.state == Idle
    ensures !Handle(e, step).res.refreshComplete
  {
    if Handle(e, step).res.refreshComplete {
      CompleteComesFromPoll(e, l, step);
    }
  }

  lemma DisarmedStays(p: Panel, calls: seq<Call>, millis: U32)
    requires PanelOk(p) && p.Epaper? && (calls == [] || (|calls| == 1 && calls[0].PollRefresh?))
    ensures Serve(p, calls, millis, Launches).Epaper?
  {
    ServeKeepsKind(p, calls, millis, Launches);
  }

  // A refresh waited for, or forgotten, and what the driver does meanwhile.
  ghost predicate Waiting(u: Sys, cfg: Config, data: seq<Byte>, begun: nat, phase: Phase, remembered: bool) {
    if remembered then Launched(u, cfg, data, begun, phase) && u.panel.Epaper? else Forgotten(u, cfg, phase)
  }

  lemma DriverWaits(u: Sys, cfg: Config, data: seq<Byte>, begun: nat, phase: Phase, remembered: bool, a: Act)
    requires Waiting(u, cfg, data, begun, phase, remembered) && (a.Own? || a.Done? || a.Fault?)
    ensures Waiting(Moved(u, a), cfg, data, begun, PhaseAfter(phase, a), remembered)
  {
    DriverMoves(u, cfg, Kind(true, phase), a);
  }

  lemma WaitMoves(u: Sys, cfg: Config, data: seq<Byte>, begun: nat, phase: Phase, remembered: bool, a: Act)
    requires Waiting(u, cfg, data, begun, phase, remembered) && !a.Data? && phase != Broken
    requires a.Wait? ==> phase == Working
    ensures Waiting(Moved(u, a), cfg, data, begun, PhaseAfter(phase, a),
                    remembered && (a.Wait? ==> !Fires(a.when.at, begun + cfg.refreshTimeout)))
  {
    hide SysStep, SysInv, Given;
    if !a.Wait? {
      DriverWaits(u, cfg, data, begun, phase, remembered, a);
    } else if remembered {
      WatchOnce(u, cfg, data, begun, a.when);
    } else {
      ForgottenOnce(u, cfg, phase, a.when);
    }
  }

  lemma {:induction false} Watching(u: Sys, cfg: Config, data: seq<Byte>, begun: nat, waits: seq<Act>)
    requires Launched(u, cfg, data, begun, Working) && u.panel.Epaper?
    requires StillBusy(waits) && DriverAfter(Working, waits) != Broken
    ensures Waiting(Watched(u, waits), cfg, data, begun, DriverAfter(Working, waits),
                    Patient(begun + cfg.refreshTimeout, waits))
    decreases |waits|
  {
    hide SysStep, Moved, Waiting, Launched;
    WaitingAtFirst(u, cfg, data, begun);
    if waits == [] {
    } else {
      var init, a := waits[..|waits| - 1], waits[|waits| - 1];
      var due := begun + cfg.refreshTimeout;
      Watching(u, cfg, data, begun, init);
      assert a in waits && forall w | w in init :: w in waits;
      assert forall w | w in waits :: w in init || w == a;
      WaitMoves(Watched(u, init), cfg, data, begun, DriverAfter(Working, init), Patient(due, init), a);
    }
  }

  lemma WaitingAtFirst(u: Sys, cfg: Config, data: seq<Byte>, begun: nat)
    requires Launched(u, cfg, data, begun, Working) && u.panel.Epaper?
    ensures Waiting(u, cfg, data, begun, Working, true) && PanelOk(u.panel)
  {
  }

  lemma OnePoll(p: Panel, millis: U32)
    requires PanelOk(p) && p.Epaper? && p.started && p.dev.phase == Ready
    ensures Poll(p, millis) == (Disarm(p), Complete)
    ensures Serve(p, [PollRefresh(Complete)], millis, Launches) == Disarm(p)
  {
    assert [PollRefresh(Complete)][1..] == [];
  }

  lemma SamePicture(p: Panel, q: Panel, data: seq<Byte>)
    requires PanelOk(p) && PanelOk(q) && q.dev.pic == p.dev.pic && q.dev.geo == p.dev.geo && Displays(p, data)
    ensures Displays(q, data)
  {
    forall x, y | 0 <= x < q.dev.geo.width && 0 <= y < q.dev.geo.height
      ensures PixelIs(q, data, x, y)
    {
      assert PixelIs(p, data, x, y);
    }
  }

  lemma DoneTick(e: Engine, l: Ledger, now: U32, ans: Answers)
    requires Inv(e, l) && e.txn.state == Refreshing && ans.poll == Complete
    ensures var out := Tick(e, now, ans);
            out.res.refreshComplete && !out.eng.hwOwned && out.calls == [PollRefresh(Complete)]
  {
  }

  lemma Reports(v: Sys, cfg: Config, data: seq<Byte>, begun: nat, m: Moment)
    requires Launched(v, cfg, data, begun, Ready) && v.panel.Epaper?
    ensures var l := Given(v, TickAt, m);
            && Enabled(v, l) && Handle(v.eng, l.step).res.refreshComplete
            && !SysStep(v, l).eng.hwOwned && Displays(SysStep(v, l).panel, data)
  {
    var l := Given(v, TickAt, m);
    OnePoll(v.panel, m.millis);
    TickSteps(v, m);
    DoneTick(v.eng, Book(v), l.step.now, l.step.ans);
    FullShowsDisplays(v.panel, data);
    SamePicture(v.panel, SysStep(v, l).panel, data);
  }

  lemma StuckOwns(v: Sys, cfg: Config, phase: Phase)
    requires Forgotten(v, cfg, phase)
    ensures v.eng.hwOwned
  {
  }

  // With the epaper backend, and any ticks, local updates and driver steps after the END: the first
  // tick that finds the driver done, whenever it comes, reports 0x0073 and frees the panel with
  // the image on it, if and only if no earlier tick found the refresh deadline due; otherwise the
  // panel stays owned.
  lemma CompletionReportedIff(s: Sys, start: Moment, acts: seq<Act>, end: Moment, waits: seq<Act>, m: Moment)
    requires ReadyFor(s) && s.panel.Epaper? && NoEmptyChunks(acts) && |Sent(acts)| == s.eng.cfg.fullFrameBytes
    requires Works(s, start, acts) && StillBusy(waits) && DriverAfter(Working, waits) == Ready
    ensures var v := Watched(Ended(s, start, acts, end), waits);
            var l := Given(v, TickAt, m); var w := SysStep(v, l);
            && Enabled(v, l)
            && (Handle(v.eng, l.step).res.refreshComplete <==> Patient(end.at + s.eng.cfg.refreshTimeout, waits))
            && (Handle(v.eng, l.step).res.refreshComplete ==> !w.eng.hwOwned && Displays(w.panel, Sent(acts)))
            && (!Handle(v.eng, l.step).res.refreshComplete ==> w.eng.hwOwned)
  {
    hide SysStep, Handle, Launched, Forgotten, Holding, Displays, Timely, Given, Inv, Shows, Moved;
    var cfg := s.eng.cfg;
    PlayedHolds(s, start, acts);
    Ends(Played(s, start, acts), cfg, Kind(true, Ready), Sent(acts), LastPacket(start, acts), end);
    var u := Ended(s, start, acts, end);
    Watching(u, cfg, Sent(acts), end.at, waits);
    var v := Watched(u, waits);
    if Patient(end.at + cfg.refreshTimeout, waits) {
      Reports(v, cfg, Sent(acts), end.at, m);
    } else {
      ForgottenOnce(v, cfg, Ready, m);
      StuckOwns(SysStep(v, Given(v, TickAt, m)), cfg, Ready);
    }
  }
}
