// Deadlines over unbounded time, compared through a 32-bit millisecond clock that wraps.
module EngineTimers {
  import opened Bytes
  import opened Wire
  import opened EngineModel
  import opened EngineRuns
  import opened EngineTheorems

  const HALF := 0x8000_0000

  // Step i of the run happens at true time times[i]; the engine sees it modulo 2^32.
  ghost predicate OnTime(steps: seq<Step>, times: seq<nat>) {
    |steps| == |times| && forall i | 0 <= i < |steps| :: steps[i].now == times[i] % TWO_TO_32
  }

  // A step makes progress when it opens a transaction or the backend takes its data.
  predicate Progress(out: Outcome) {
    out.res.transferStarted || Took(out)
  }

  function LastProgress(e: Engine, steps: seq<Step>, times: seq<nat>): nat
    requires |steps| == |times|
  {
    if steps == [] then 0
    else if Progress(Handle(After(e, steps[..|steps| - 1]), steps[|steps| - 1])) then times[|steps| - 1]
    else LastProgress(e, steps[..|steps| - 1], times[..|steps| - 1])
  }

  function LastRefresh(e: Engine, steps: seq<Step>, times: seq<nat>): nat
    requires |steps| == |times|
  {
    if steps == [] then 0
    else if StartsRefresh(Handle(After(e, steps[..|steps| - 1]), steps[|steps| - 1])) then times[|steps| - 1]
    else LastRefresh(e, steps[..|steps| - 1], times[..|steps| - 1])
  }

  // What one step does to the deadlines of the transaction it leaves behind.
  predicate DeadlinesFollow(e: Engine, s: Step, out: Outcome) {
    && (out.eng.txn.state == Receiving ==>
          out.eng.txn.transferDeadline
          == if Progress(out) then Add32(s.now, e.cfg.transferTimeout) else e.txn.transferDeadline)
    && (out.eng.txn.state == Receiving && !Progress(out) ==> e.txn.state == Receiving)
    && (out.eng.txn.state == Refreshing ==>
          out.eng.txn.refreshDeadline
          == if StartsRefresh(out) then Add32(s.now, e.cfg.refreshTimeout) else e.txn.refreshDeadline)
    && (out.eng.txn.state == Refreshing && !StartsRefresh(out) ==> e.txn.state == Refreshing)
  }

  lemma FinishDeadlines(e: Engine, endOpcode: nat, now: U32, ans: Answers)
    ensures var out := FinishAndRefresh(e, endOpcode, now, ans);
            && out.eng.txn.state != Receiving
            && (out.eng.txn.state == Refreshing ==>
                  BeginRefresh(true) in out.calls && out.eng.txn.refreshDeadline == Add32(now, e.cfg.refreshTimeout))
  {
    assert [FinishFrame(true), BeginRefresh(true)][1] == BeginRefresh(true);
  }

  lemma StoreDeadlines(e: Engine, seqNo: Byte, data: seq<Byte>, now: U32, ans: Answers)
    requires e.txn.state == Receiving
    ensures DeadlinesFollow(e, Step(PipeData([seqNo] + data), now, ans), StoreChunk(e, seqNo, data, now, ans))
  {
    var a := AcceptChunk(e, seqNo, data, now);
    var rest := AckOrFinish(a, now, ans);
    FinishDeadlines(a.(tail := Some(CurrentSack(a.txn)), txn := a.txn.(acceptedSinceAck := 0)),
                    CMD_PIPE_WRITE_END, now, ans);
    var write := WriteContiguous(e.txn.acceptedBytes, data, true);
    assert BeginRefresh(true) in rest.calls ==> BeginRefresh(true) in [write] + rest.calls;
  }

  lemma DirectEndDeadlines(e: Engine, now: U32, ans: Answers)
    ensures DeadlinesFollow(e, Step(DirectEnd, now, ans), OnDirectEnd(e, now, ans))
  {
    FinishDeadlines(e, CMD_DIRECT_WRITE_END, now, ans);
  }

  lemma PipeEndDeadlines(e: Engine, now: U32, ans: Answers)
    ensures DeadlinesFollow(e, Step(PipeEnd, now, ans), OnPipeEnd(e, now, ans))
  {
    hide FinishAndRefresh;
    var flushed := e.txn.(acceptedSinceAck := 0);
    FinishDeadlines(e, CMD_PIPE_WRITE_END, now, ans);
    FinishDeadlines(e.(txn := flushed, tail := Some(CurrentSack(flushed))), CMD_PIPE_WRITE_END, now, ans);
  }

  lemma PipeDataDeadlines(e: Engine, payload: seq<Byte>, now: U32, ans: Answers)
    ensures DeadlinesFollow(e, Step(PipeData(payload), now, ans), OnPipeData(e, payload, now, ans))
  {
    if !e.txn.pipeFatal && e.txn.state == Receiving && e.txn.mode == Pipe && payload != []
       && payload[0] == e.txn.nextPipeSequence {
      StoreDeadlines(e, payload[0], payload[1..], now, ans);
    }
  }

  lemma StartDeadlines(e: Engine, s: Step)
    requires s.ev.DirectStart? || s.ev.PipeStart?
    ensures DeadlinesFollow(e, s, Handle(e, s))
  {
  }

  lemma StepDeadlines(e: Engine, s: Step)
    ensures DeadlinesFollow(e, s, Handle(e, s))
  {
    match s.ev {
      case DirectStart(_) => StartDeadlines(e, s);
      case PipeStart(_, _) => StartDeadlines(e, s);
      case PipeData(payload) => PipeDataDeadlines(e, payload, s.now, s.ans);
      case DirectEnd => DirectEndDeadlines(e, s.now, s.ans);
      case PipeEnd => PipeEndDeadlines(e, s.now, s.ans);
      case _ =>
    }
  }

  // A deadline set for true time `due` fires at true time t.
  predicate Fires(t: nat, due: nat) {
    due % TWO_TO_32 != 0 && (t - due) % TWO_TO_32 < HALF
  }

  // Within half the clock's range the wrapping test is the plain comparison, except that a
  // deadline landing exactly on 0 never fires.
  lemma FiresWhenDue(t: nat, due: nat)
    ensures -HALF <= t - due < HALF && due % TWO_TO_32 != 0 ==> (Fires(t, due) <==> t >= due)
    ensures due % TWO_TO_32 == 0 ==> !Fires(t, due)
  {
    if -HALF <= t - due < HALF {
      HalfRange(t - due);
    }
  }

  lemma HalfRange(x: int)
    requires -HALF <= x < HALF
    ensures x % TWO_TO_32 < HALF <==> x >= 0
  {
  }

  lemma SubModular(t: nat, d: nat)
    ensures Sub32(t % TWO_TO_32, d % TWO_TO_32) == (t - d) % TWO_TO_32
  {
  }

  lemma DeadlineTest(t: nat, due: nat)
    ensures DeadlinePassed(t % TWO_TO_32, due % TWO_TO_32) <==> Fires(t, due)
  {
    SubModular(t, due);
  }

  // The two deadlines of a transaction are those of true times `progress` and `refresh`.
  predicate Tracks(cfg: Config, t: Transaction, progress: nat, refresh: nat) {
    && (t.state == Receiving ==> t.transferDeadline == (progress + cfg.transferTimeout) % TWO_TO_32)
    && (t.state == Refreshing ==> t.refreshDeadline == (refresh + cfg.refreshTimeout) % TWO_TO_32)
  }

  lemma TrackStep(e: Engine, s: Step, out: Outcome, progress: nat, refresh: nat, time: nat)
    requires DeadlinesFollow(e, s, out) && s.now == time % TWO_TO_32
    requires Tracks(e.cfg, e.txn, progress, refresh)
    ensures Tracks(e.cfg, out.eng.txn, if Progress(out) then time else progress,
                   if StartsRefresh(out) then time else refresh)
  {
    AddModular(time, e.cfg.transferTimeout);
    AddModular(time, e.cfg.refreshTimeout);
  }

  lemma AddModular(t: nat, d: U32)
    ensures Add32(t % TWO_TO_32, d) == (t + d) % TWO_TO_32
  {
  }

  // In every run the stored deadlines are the true ones modulo 2^32.
  lemma {:induction false} DeadlinesTrackTime(cfg: Config, steps: seq<Step>, times: seq<nat>)
    requires OnTime(steps, times)
    ensures Tracks(cfg, After(Boot(cfg), steps).txn,
                   LastProgress(Boot(cfg), steps, times), LastRefresh(Boot(cfg), steps, times))
    decreases |steps|
  {
    if steps == [] {
    } else {
      var n := |steps| - 1;
      var e := After(Boot(cfg), steps[..n]);
      DeadlinesTrackTime(cfg, steps[..n], times[..n]);
      RunKeepsInv(cfg, steps[..n]);
      StepDeadlines(e, steps[n]);
      TrackStep(e, steps[n], Handle(e, steps[n]), LastProgress(Boot(cfg), steps[..n], times[..n]),
                LastRefresh(Boot(cfg), steps[..n], times[..n]), times[n]);
    }
  }

  predicate EndsIdle(e: Engine, out: Outcome, fires: bool) {
    if fires then out.eng.txn == BLANK && out.eng.lastError == TransferTimeout else out.eng == e
  }

  predicate EndsPending(e: Engine, out: Outcome, fires: bool) {
    && out.eng.hwOwned && out.res.refreshTimeout == fires
    && (if fires then out.eng.txn == BLANK else out.eng == e)
  }

  lemma TickWhileReceiving(e: Engine, l: Ledger, t: nat, due: nat, ans: Answers)
    requires Inv(e, l) && e.txn.state == Receiving && e.txn.transferDeadline == due % TWO_TO_32
    ensures EndsIdle(e, Tick(e, t % TWO_TO_32, ans), Fires(t, due))
  {
    DeadlineTest(t, due);
  }

  lemma TickWhilePending(e: Engine, l: Ledger, t: nat, due: nat, ans: Answers)
    requires Inv(e, l) && e.txn.state == Refreshing && ans.poll == Pending && e.txn.refreshDeadline == due % TWO_TO_32
    ensures EndsPending(e, Tick(e, t % TWO_TO_32, ans), Fires(t, due))
  {
    DeadlineTest(t, due);
  }

  lemma TickFrom(cfg: Config, e: Engine, l: Ledger, progress: nat, refresh: nat, t: nat, ans: Answers)
    requires Inv(e, l) && Tracks(cfg, e.txn, progress, refresh)
    ensures e.txn.state == Receiving ==>
              EndsIdle(e, Tick(e, t % TWO_TO_32, ans), Fires(t, progress + cfg.transferTimeout))
    ensures e.txn.state == Refreshing && ans.poll == Pending ==>
              EndsPending(e, Tick(e, t % TWO_TO_32, ans), Fires(t, refresh + cfg.refreshTimeout))
  {
    if e.txn.state == Receiving {
      TickWhileReceiving(e, l, t, progress + cfg.transferTimeout, ans);
    } else if e.txn.state == Refreshing && ans.poll == Pending {
      TickWhilePending(e, l, t, refresh + cfg.refreshTimeout, ans);
    }
  }

  // The engine after a run, with the true times of its last accepted packet (or START) and of its
  // last refresh.
  ghost predicate Reached(cfg: Config, steps: seq<Step>, times: seq<nat>, e: Engine, progress: nat, refresh: nat) {
    && OnTime(steps, times) && e == After(Boot(cfg), steps)
    && progress == LastProgress(Boot(cfg), steps, times) && refresh == LastRefresh(Boot(cfg), steps, times)
  }

  // A tick at true time t ends an idle transfer exactly when, counted from the last accepted
  // packet (or the START), the timeout has passed: rejected packets never postpone it. A tick
  // that does not end the transfer changes nothing.
  lemma IdleTransferEnds(cfg: Config, steps: seq<Step>, times: seq<nat>, e: Engine, progress: nat, refresh: nat,
                         t: nat, ans: Answers)
    requires Reached(cfg, steps, times, e, progress, refresh) && e.txn.state == Receiving
    ensures EndsIdle(e, Tick(e, t % TWO_TO_32, ans), Fires(t, progress + cfg.transferTimeout))
  {
    RunKeepsInv(cfg, steps);
    DeadlinesTrackTime(cfg, steps, times);
    TickFrom(cfg, e, LedgerOf(cfg.fullFrameBytes, Log(Boot(cfg), steps)), progress, refresh, t, ans);
  }

  // The same for a refresh the backend keeps reporting as pending; the panel stays owned.
  lemma PendingRefreshEnds(cfg: Config, steps: seq<Step>, times: seq<nat>, e: Engine, progress: nat, refresh: nat,
                           t: nat, ans: Answers)
    requires Reached(cfg, steps, times, e, progress, refresh) && e.txn.state == Refreshing && ans.poll == Pending
    ensures EndsPending(e, Tick(e, t % TWO_TO_32, ans), Fires(t, refresh + cfg.refreshTimeout))
  {
    RunKeepsInv(cfg, steps);
    DeadlinesTrackTime(cfg, steps, times);
    TickFrom(cfg, e, LedgerOf(cfg.fullFrameBytes, Log(Boot(cfg), steps)), progress, refresh, t, ans);
  }
}
