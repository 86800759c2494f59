// The PIPE transfer over a channel that has lost things: as long as the client holds no false belief,
// retransmission can still bring the image through, and otherwise nothing can.
module PipeRecovery {
  import opened Bytes
  import opened Wire
  import opened EngineModel
  import opened EngineRuns
  import opened EngineTheorems
  import opened PipeProtocol
  import opened PipeLiveness

  // A transfer that is still open, of a client with no false belief about its first chunk.
  ghost predicate Hopeful(t: Net) {
    && NetInv(t) && t.eng.txn.state == Receiving && t.eng.cfg.fullFrameBytes > 0 && t.window >= 1
    && !Deluded(t)
  }

  ghost predicate Done(t: Net) {
    NetInv(t) && t.eng.txn.state == Refreshing && t.book.written == Concat(t.chunks)
  }

  // The image has come through, or the transfer is open and at least that far.
  ghost predicate Further(t: Net, u: Net, packets: nat) {
    u.chunks == t.chunks && (Done(u) || (Hopeful(u) && u.book.packets >= packets))
  }

  lemma FullIsDone(u: Net)
    requires NetInv(u) && u.eng.txn.state == Refreshing
    ensures Done(u)
  {
    ConcatPrefix(u.chunks, u.book.packets);
  }

  // --- What the device makes of the first frame --------------------------------------------------

  // A chunk that is not the next one draws a SACK for what has been accepted.
  lemma OtherAnswered(t: Net)
    requires NetInv(t) && t.eng.txn.state == Receiving && t.flight != [] && t.flight[0].index != t.book.packets
    ensures var u, p := NetStep(t, TAKE), t.book.packets;
            && u == t.(flight := t.flight[1..], eng := u.eng, back := t.back + [Notice(SackAfter(p), p)])
            && u.eng.txn == t.eng.txn && u.eng.cfg == t.eng.cfg
  {
    var i := t.flight[0].index;
    if i % 256 == t.book.packets % 256 {
      ExpectedSequenceIsNext(t);
    }
    assert ChunkFrame(t, i)[0] == i % 256;
    SackOfState(t.eng.txn, t.book);
    hide SackAfter, StoreChunk;
  }

  lemma OtherIsHopeful(t: Net)
    requires Hopeful(t) && t.flight != [] && t.flight[0].index != t.book.packets
    ensures Hopeful(NetStep(t, TAKE))
  {
    StepKeepsNetInv(t, TAKE);
    OtherAnswered(t);
    hide NetStep, NetInv;
    assert forall m | m in t.flight :: m == t.flight[0] || m in t.flight[1..];
  }

  lemma NextGoesFurther(t: Net)
    requires Hopeful(t) && t.flight != [] && t.flight[0].index == t.book.packets
    ensures Further(t, NetStep(t, TAKE), t.book.packets + 1)
    ensures NetStep(t, TAKE).flight == t.flight[1..]
  {
    StepKeepsNetInv(t, TAKE);
    ReceivingIsPartial(t, t.book.packets);
    DeliverAdvances(t, 0, YES);
    var u := NetStep(t, TAKE);
    hide NetStep, NetInv;
    if Completes(t) {
      FullIsDone(u);
    }
  }

  lemma TakeGoesFurther(t: Net)
    requires Hopeful(t) && t.flight != []
    ensures Further(t, NetStep(t, TAKE), t.book.packets) && NetStep(t, TAKE).flight == t.flight[1..]
  {
    hide NetStep, Hopeful, Done, Deluded;
    if t.flight[0].index == t.book.packets {
      NextGoesFurther(t);
    } else {
      OtherIsHopeful(t);
      HopefulReceives(t);
      OtherAnswered(t);
    }
  }

  lemma HopefulReceives(t: Net)
    requires Hopeful(t)
    ensures NetInv(t) && t.eng.txn.state == Receiving && t.book.packets < |t.chunks| && t.window >= 1
  {
    ReceivingIsPartial(t, t.book.packets);
  }

  // Whatever is on its way arrives.
  lemma {:induction false} ClearFlight(s: Net, labels: seq<NetLabel>) returns (more: seq<NetLabel>)
    requires Hopeful(NetRun(s, labels))
    ensures Further(NetRun(s, labels), NetRun(s, more), NetRun(s, labels).book.packets)
    ensures Done(NetRun(s, more)) || NetRun(s, more).flight == []
    decreases |NetRun(s, labels).flight|
  {
    hide NetStep, NetRun, Hopeful, Done;
    var t := NetRun(s, labels);
    if t.flight == [] {
      more := labels;
    } else {
      TakeGoesFurther(t);
      RunSnoc(s, labels, TAKE);
      if Done(NetRun(s, labels + [TAKE])) {
        more := labels + [TAKE];
      } else {
        more := ClearFlight(s, labels + [TAKE]);
      }
    }
  }

  // --- The next chunk brought through ------------------------------------------------------------

  lemma ResendIsHopeful(t: Net, index: nat)
    requires Hopeful(t) && t.flight == [] && index in Outstanding(t)
    ensures var u := NetStep(t, Retransmit(index));
            Hopeful(u) && u == t.(flight := [Msg(index, t.next)])
  {
    StepKeepsNetInv(t, Retransmit(index));
  }

  lemma SendIsHopeful(t: Net)
    requires Hopeful(t) && t.flight == [] && CanSend(t)
    ensures var u := NetStep(t, SendNew);
            Hopeful(u) && u == t.(next := t.next + 1, flight := [Msg(t.next, t.next + 1)])
  {
    StepKeepsNetInv(t, SendNew);
  }

  // With nothing on its way and no false belief, belief is not ahead of the device.
  lemma BeliefBehind(t: Net)
    requires Hopeful(t) && t.flight == []
    ensures |t.acked| <= t.book.packets <= t.next && t.acked == Below(|t.acked|)
    ensures forall j: nat :: j in Outstanding(t) <==> |t.acked| <= j < t.next
  {
    assert |t.acked| >= 1 ==> 0 in t.acked;
  }

  // The client resends the chunk the device waits for, or sends it for the first time.
  lemma NextUp(t: Net) returns (l: NetLabel)
    requires Hopeful(t) && t.flight == [] && (t.book.packets < t.next || CanSend(t))
    ensures var u := NetStep(t, l);
            && Hopeful(u) && u.flight != [] && u.flight[0].index == u.book.packets == t.book.packets
            && u.chunks == t.chunks
  {
    BeliefBehind(t);
    hide NetStep, Hopeful, CanSend;
    if t.book.packets < t.next {
      l := Retransmit(t.book.packets);
      ResendIsHopeful(t, t.book.packets);
    } else {
      l := SendNew;
      SendIsHopeful(t);
    }
  }

  lemma BringNext(s: Net, labels: seq<NetLabel>) returns (more: seq<NetLabel>)
    requires var t := NetRun(s, labels); Hopeful(t) && t.flight == [] && (t.book.packets < t.next || CanSend(t))
    ensures Further(NetRun(s, labels), NetRun(s, more), NetRun(s, labels).book.packets + 1)
  {
    hide NetStep, NetRun, Hopeful, Done, CanSend;
    var t := NetRun(s, labels);
    var l := NextUp(t);
    RunSnoc(s, labels, l);
    RunSnoc(s, labels + [l], TAKE);
    more := labels + [l] + [TAKE];
    NextGoesFurther(NetStep(t, l));
  }

  // --- A window full of accepted chunks ----------------------------------------------------------

  // All chunks sent have been accepted, and a SACK that says so comes last.
  ghost predicate Caught(t: Net) {
    && NetInv(t) && t.book.packets == t.next >= 1 && t.back != []
    && t.back[|t.back| - 1] == Notice(SackAfter(t.next), t.next)
  }

  lemma CaughtReads(t: Net)
    requires Caught(t)
    ensures var u := NetStep(t, Receive);
            && u == t.(acked := u.acked, back := t.back[1..])
            && (|t.back| > 1 ==> Caught(u)) && (|t.back| == 1 ==> NetInv(u) && |u.acked| == t.next)
  {
    ReceiveKeepsInv(t);
    ReceiveReads(t);
    if |t.back| == 1 {
      CaughtLearns(t);
      ReceiveBelieves(t);
    }
    hide SackAfter, NetStep, NetInv;
  }

  lemma ReceiveReads(t: Net)
    requires t.back != []
    ensures var u := NetStep(t, Receive); u == t.(acked := u.acked, back := t.back[1..])
  {
    hide Learned;
  }

  lemma CaughtLearns(t: Net)
    requires Caught(t) && |t.back| == 1
    ensures t.acked + Learned(t, t.back[0].bytes) == Below(t.next)
  {
    LearnedPrefix(t, t.next);
  }

  // Once everything has been read the client knows.
  lemma {:induction false} ReadAll(s: Net, labels: seq<NetLabel>) returns (more: seq<NetLabel>)
    requires Caught(NetRun(s, labels))
    ensures var t, u := NetRun(s, labels), NetRun(s, more);
            NetInv(u) && |u.acked| == t.next && u == t.(acked := u.acked, back := [])
    decreases |NetRun(s, labels).back|
  {
    hide NetStep, NetRun;
    var t := NetRun(s, labels);
    CaughtReads(t);
    RunSnoc(s, labels, Receive);
    if |t.back| == 1 {
      more := labels + [Receive];
    } else {
      more := ReadAll(s, labels + [Receive]);
    }
  }

  lemma WindowFull(t: Net)
    requires Hopeful(t) && t.flight == [] && t.book.packets == t.next && !CanSend(t)
    ensures t.next >= 1 && t.next - 1 in Outstanding(t)
  {
    BeliefBehind(t);
    HopefulReceives(t);
    MaySend(t);
    hide Hopeful, NetInv;
  }

  // Any outstanding chunk, sent again, draws a SACK that says so.
  lemma AskAgain(t: Net)
    requires Hopeful(t) && t.flight == [] && t.book.packets == t.next && !CanSend(t)
    ensures var u, v := NetStep(t, Retransmit(t.next - 1)), NetStep(NetStep(t, Retransmit(t.next - 1)), TAKE);
            && t.next - 1 in Outstanding(t) && Hopeful(u) && Hopeful(v) && Caught(v) && v.flight == []
            && v.chunks == t.chunks && v.book == t.book && v.next == t.next && v.window == t.window
  {
    WindowFull(t);
    ResendIsHopeful(t, t.next - 1);
    var u := NetStep(t, Retransmit(t.next - 1));
    HopefulReceives(u);
    hide NetStep, SackAfter, NetInv, Hopeful, Outstanding, CanSend;
    OtherAnswered(u);
    OtherIsHopeful(u);
    HopefulReceives(NetStep(u, TAKE));
  }

  lemma StaysHopeful(v: Net, u: Net)
    requires Hopeful(v) && NetInv(u) && u == v.(acked := u.acked, back := []) && v.book.packets >= 1
    ensures Hopeful(u)
  {
    hide NetInv;
  }

  // Which opens the window.
  lemma OpenWindow(s: Net, labels: seq<NetLabel>) returns (more: seq<NetLabel>)
    requires var t := NetRun(s, labels);
             Hopeful(t) && t.flight == [] && t.book.packets == t.next && !CanSend(t)
    ensures var t, u := NetRun(s, labels), NetRun(s, more);
            Hopeful(u) && u.book.packets == t.book.packets && u.chunks == t.chunks && u.flight == [] && CanSend(u)
  {
    var t := NetRun(s, labels);
    var l := Retransmit(t.next - 1);
    AskAgain(t);
    RunSnoc(s, labels, l);
    RunSnoc(s, labels + [l], TAKE);
    var v := NetRun(s, labels + [l] + [TAKE]);
    hide NetStep, NetRun, SackAfter, Hopeful;
    more := ReadAll(s, labels + [l] + [TAKE]);
    var u := NetRun(s, more);
    StaysHopeful(v, u);
    HopefulReceives(u);
    MaySend(u);
  }

  // One more chunk.
  lemma NextThrough(s: Net, labels: seq<NetLabel>) returns (more: seq<NetLabel>)
    requires Hopeful(NetRun(s, labels)) && NetRun(s, labels).flight == []
    ensures Further(NetRun(s, labels), NetRun(s, more), NetRun(s, labels).book.packets + 1)
  {
    hide NetStep, NetRun, Hopeful, Done, CanSend;
    var t := NetRun(s, labels);
    BeliefBehind(t);
    if t.book.packets < t.next || CanSend(t) {
      more := BringNext(s, labels);
    } else {
      var ready := OpenWindow(s, labels);
      more := BringNext(s, ready);
    }
  }

  // And all the others.
  lemma {:induction false} Recover(s: Net, labels: seq<NetLabel>) returns (more: seq<NetLabel>)
    requires Hopeful(NetRun(s, labels))
    ensures Done(NetRun(s, more)) && NetRun(s, more).chunks == NetRun(s, labels).chunks
    decreases |NetRun(s, labels).chunks| - NetRun(s, labels).book.packets
  {
    hide NetStep, NetRun, Hopeful, Done;
    more := ClearFlight(s, labels);
    if !Done(NetRun(s, more)) {
      more := NextThrough(s, more);
    }
    if !Done(NetRun(s, more)) {
      HopefulReceives(NetRun(s, more));
      more := Recover(s, more);
    }
  }

  // --- And otherwise nothing can -----------------------------------------------------------------

  lemma StepStaysOver(t: Net, l: NetLabel)
    requires NetInv(t) && t.eng.txn.state != Receiving
    ensures var u := NetStep(t, l); u.eng.txn.state != Receiving && u.book.written == t.book.written
  {
    hide Handle;
    match l {
      case Deliver(now, ans) =>
        if t.flight != [] && t.flight[0].index < |t.chunks| {
          ChunkDelivers(t, now, ans);
          DeliveredStray(t, now, ans);
        }
      case Elsewhere(step) =>
        if !IsStart(step.ev) && !step.ev.PipeData? {
          ElsewhereReports(t.eng, t.book, step);
          ElsewhereStaysOver(t.eng, step);
        }
      case _ =>
    }
  }

  lemma ElsewhereStaysOver(e: Engine, step: Step)
    requires e.txn.state != Receiving && !IsStart(step.ev) && !step.ev.PipeData?
    ensures Handle(e, step).eng.txn.state != Receiving
  {
  }

  lemma DeliveredStray(t: Net, now: U32, ans: Answers)
    requires t.eng.txn.state != Receiving && t.flight != [] && t.flight[0].index < |t.chunks|
    ensures Handle(t.eng, DeliverStep(t, now, ans)).eng.txn.state != Receiving
  {
    StrayChunk(t.eng, ChunkFrame(t, t.flight[0].index), now, ans);
    hide StoreChunk;
  }

  lemma {:induction false} StaysOver(t: Net, more: seq<NetLabel>)
    requires NetInv(t) && t.eng.txn.state != Receiving
    ensures var u := NetRun(t, more);
            NetInv(u) && u.chunks == t.chunks && u.eng.txn.state != Receiving && u.book.written == t.book.written
    decreases |more|
  {
    hide NetStep;
    if more == [] {
    } else {
      var init, last := more[..|more| - 1], more[|more| - 1];
      StaysOver(t, init);
      StepKeepsNetInv(NetRun(t, init), last);
      StepStaysOver(NetRun(t, init), last);
    }
  }

  lemma SizeOf(t: Net)
    requires NetInv(t)
    ensures |Concat(t.chunks)| == t.eng.cfg.fullFrameBytes
  {
  }

  lemma HoldsNothing(t: Net)
    requires Deluded(t)
    ensures t.book.written == []
  {
    assert t.chunks[..0] == [];
  }

  lemma DoneIsWritten(t: Net)
    requires Done(t)
    ensures t.book.written == Concat(t.chunks)
  {
  }

  // After any run whatever, over any channel, some continuation puts the whole image on the panel if
  // and only if it is there already, or the transfer is still open and the client has not been led to
  // believe that a first chunk which is lost had arrived.
  lemma RecoverableIff(s: Net, labels: seq<NetLabel>)
    requires NetStart(s) && s.window >= 1 && s.eng.cfg.fullFrameBytes > 0
    ensures var t := NetRun(s, labels);
            (exists more :: NetRun(t, more).book.written == Concat(s.chunks))
            <==> t.book.written == Concat(s.chunks) || (t.eng.txn.state == Receiving && !Deluded(t))
  {
    hide NetStep, NetStart, Deluded, Done;
    StartIsInv(s);
    RunKeepsNetInv(s, labels);
    var t := NetRun(s, labels);
    assert NetRun(t, []) == t;
    SizeOf(s);
    SizeOf(t);
    hide NetRun, NetInv;
    if t.eng.txn.state != Receiving {
      forall more
        ensures NetRun(t, more).book.written == t.book.written
      {
        StaysOver(t, more);
      }
    } else if Deluded(t) {
      forall more
        ensures NetRun(t, more).book.written != Concat(s.chunks)
      {
        DeludedForever(t, more);
        HoldsNothing(NetRun(t, more));
      }
    } else {
      var more := Recover(t, []);
      assert NetRun(t, more).book.written == Concat(s.chunks) by { DoneIsWritten(NetRun(t, more)); }
    }
  }
}
