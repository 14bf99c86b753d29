/**
 * When Reset returns. It waits for the event that flushing uses too; a flush whose worker
 * scans twice leaves that event set, and the next Reset then returns with its packet still
 * on the list.
 */
module OutputQueueReset {
  import opened OutputQueueTypes
  import opened OutputQueueProtocol
  import opened OutputQueueWakeups
  import opened OutputQueueFlush
  import opened OutputQueueOrder
  import opened OutputQueueLiveness

  function Resets(list: seq<Item>): nat {
    if list == [] then 0 else (if list[0].ResetPacket? then 1 else 0) + Resets(list[1..])
  }

  function InHand(pc: Pc): nat {
    if (pc.Sending? || pc.InReceive? || pc.AfterBatch?) && pc.control.Reset? then 1 else 0
  }

  function InHandOf(o: Outcome): nat { if o.Send? && o.control.Reset? then 1 else 0 }

  /** The RESET packets the worker has still to deal with. */
  function AllResets(s: Sys): nat { Resets(s.q.list) + InHand(s.pc) }

  lemma {:induction false} ResetsAppend(a: seq<Item>, b: seq<Item>)
    ensures Resets(a + b) == Resets(a) + Resets(b)
    decreases |a|
  {
    if a == [] {
      assert a + b == b;
    } else {
      assert (a + b)[0] == a[0] && (a + b)[1..] == a[1..] + b;
      ResetsAppend(a[1..], b);
    }
  }

  lemma {:induction false} ResetsIff(list: seq<Item>)
    ensures Resets(list) > 0 <==> ResetPacket in list
    decreases |list|
  {
    if list == [] {
    } else {
      ResetsIff(list[1..]);
      assert list == [list[0]] + list[1..];
    }
  }

  lemma PendingIff(s: Sys)
    ensures AllResets(s) > 0 <==> ResetPending(s)
  {
    ResetsIff(s.q.list);
  }

  lemma {:induction false} NoResets(xs: seq<Sample>)
    ensures Resets(Wrap(xs)) == 0
    decreases |xs|
  {
    if xs == [] {
    } else {
      assert Wrap(xs)[1..] == Wrap(xs[1..]);
      NoResets(xs[1..]);
    }
  }

  lemma ResetsOnce(c: Config, q: QState)
    requires WellPaired(q.list) && !q.terminate && !q.flushing
    ensures match ScanOnce(c, q)
      case Stop(r, o) => Resets(r.list) + InHandOf(o) == Resets(q.list)
      case Continue(r) => Resets(r.list) == Resets(q.list)
  {
    NoPayloadFirst(q.list);
    if q.list != [] && q.list[0].NewSegmentPacket? {
      assert q.list[1..][1..] == q.list[2..];
    }
    hide WellPaired;
  }

  /** A scan that neither flushes nor exits loses no RESET packet. */
  lemma {:induction false} ScanKeepsResets(c: Config, q: QState)
    requires WellPaired(q.list) && !q.terminate && !q.flushing
    ensures var (r, o) := Scan(c, q); Resets(r.list) + InHandOf(o) == Resets(q.list)
    decreases |q.list|
  {
    hide ScanOnce, WellPaired, Resets;
    ResetsOnce(c, q);
    ScanOnceShrinks(c, q);
    if ScanOnce(c, q).Stop? {
    } else {
      ScanKeepsResets(c, ScanOnce(c, q).q);
    }
  }

  /** A Reset that found the event clear: its own packet is the only one, until the event says it is dealt with. */
  ghost predicate Alone(s: Sys) {
    s.resetting && s.flush.NoFlush? && (s.q.terminate || AllResets(s) == if s.q.evFlush then 0 else 1)
  }

  lemma AloneAfterClients(c: Config, s: Sys, step: Step)
    requires Alone(s) && Enabled(c, s, step) && !step.Work? && step != Ask(ResetWait)
    ensures Alone(Apply(c, s, step))
  {
    hide Resets, Wrap, Frames, ApplyControl;
    if step.Receive? {
      NoResets(step.xs);
      ResetsAppend(s.q.list, Wrap(step.xs));
    } else if step.Ask? {
      ControlAppends(s, step.control);
      AskLeaves(s, step.control);
      ResetsAppend(s.q.list, Queued(s.q, step.control));
      QueuedResets(s.q, step.control);
    }
  }

  lemma QueuedResets(q: QState, a: ControlStep)
    ensures !a.ResetQueue? ==> Resets(Queued(q, a)) == 0
    ensures a.ResetQueue? ==> Resets(Queued(q, a)) == 1
  {
    if a.QueueSegment? {
      assert Resets([Payload(a.seg)]) == 0;
      assert [NewSegmentPacket, Payload(a.seg)][1..] == [Payload(a.seg)];
    }
  }

  lemma AloneAfterWork(c: Config, s: Sys, w: WorkerStep)
    requires GoodConfig(c) && AllOk(c, s) && Alone(s) && WorkerEnabled(s, w)
    ensures Alone(ApplyWorker(c, s, w))
  {
    hide WellPaired, Conserved, CallsOk, Pipe, PcOk, Scan, Resets;
    if w.WorkerScan? {
      ScanShape(c, s.q);
      if !s.q.terminate {
        ScanKeepsResets(c, s.q);
      }
    }
  }

  lemma {:induction false} AloneRun(c: Config, s: Sys, steps: seq<Step>)
    requires GoodConfig(c) && AllOk(c, s) && Alone(s) && Possible(c, s, steps) && Ask(ResetWait) !in steps
    ensures Alone(Exec(c, s, steps))
    decreases |steps|
  {
    hide AllOk, Alone, ApplyWorker, ApplyControl, ApplyFlush, ReceiveRegion, TerminateRegion, FlushEnabled, ControlEnabled, WorkerEnabled, Frames;
    if steps == [] {
    } else {
      AllOkStep(c, s, steps[0]);
      if steps[0].Work? {
        AloneAfterWork(c, s, steps[0].work);
      } else {
        AloneAfterClients(c, s, steps[0]);
      }
      AloneRun(c, Apply(c, s, steps[0]), steps[1..]);
    }
  }

  /** Reset, called at s, may return after these steps. */
  ghost predicate MayReturn(c: Config, s: Sys, steps: seq<Step>)
    requires Enabled(c, s, Ask(ResetQueue))
  {
    && Possible(c, Apply(c, s, Ask(ResetQueue)), steps) && Ask(ResetWait) !in steps
    && Enabled(c, Exec(c, Apply(c, s, Ask(ResetQueue)), steps), Ask(ResetWait))
  }

  /** Reset never returns before its packet has been dealt with exactly when the event was clear as it was called. */
  lemma {:induction false} ResetReturnsIff(c: Config, s: Sys)
    requires GoodConfig(c) && Reachable(c, s) && Enabled(c, s, Ask(ResetQueue)) && !ResetPending(s)
    ensures !s.q.evFlush <==>
            forall steps :: MayReturn(c, s, steps) ==> !ResetPending(Exec(c, Apply(c, s, Ask(ResetQueue)), steps))
  {
    hide Reachable, AllOk, ResetRegion, Alone, Apply;
    var r := Apply(c, s, Ask(ResetQueue));
    ReachableOk(c, s);
    AllOkStep(c, s, Ask(ResetQueue));
    ResetBegins(c, s);
    if s.q.evFlush {
      assert Possible(c, r, []) && Exec(c, r, []) == r && MayReturn(c, s, []);
    } else {
      forall steps | MayReturn(c, s, steps)
        ensures !ResetPending(Exec(c, r, steps))
      {
        AloneRun(c, r, steps);
        AloneMeans(Exec(c, r, steps));
      }
    }
  }

  lemma AloneMeans(s: Sys)
    requires Alone(s) && s.q.evFlush && !s.q.terminate
    ensures !ResetPending(s)
  {
    PendingIff(s);
  }

  lemma ResetBegins(c: Config, s: Sys)
    requires Enabled(c, s, Ask(ResetQueue)) && !ResetPending(s)
    ensures var r := Apply(c, s, Ask(ResetQueue));
      && (s.q.evFlush ==> ResetPending(r) && Enabled(c, r, Ask(ResetWait)))
      && (!s.q.evFlush ==> Alone(r))
  {
    PendingIff(s);
    ControlAppends(s, ResetQueue);
    ResetsAppend(s.q.list, [ResetPacket]);
    QueuedResets(s.q, ResetQueue);
  }

  // ---- A run that leaves the event set ----

  const PLAIN := Config(1, false, false)

  /** A state of a queue with nothing in it. */
  function Bare(waiting: nat, sem: nat, flushing: bool, evFlush: bool, hr: int, list: seq<Item>, pc: Pc, flush: Flush, epoch: nat): Sys {
    Sys(QState(list, [], waiting, sem, flushing, true, false, evFlush, hr, multiset{}, []), pc, flush, false, multiset{}, epoch, multiset{}, [])
  }

  /** The worker's scan while flushing, with nothing but SEND packets listed. */
  lemma FlushScan(list: seq<Item>, evFlush: bool, flush: Flush)
    requires list == [] || list == [SendPacket]
    ensures var s := Bare(0, 0, true, evFlush, S_FALSE, list, AtLock, flush, 0);
      && Enabled(PLAIN, s, Work(WorkerScan))
      && Apply(PLAIN, s, Work(WorkerScan)) == Bare(1, 0, true, true, S_FALSE, [], Blocked, flush, 0)
  {
    var q := Bare(0, 0, true, evFlush, S_FALSE, list, AtLock, flush, 0).q;
    assert SamplesIn(list) == multiset{};
    assert FreeAll(q) == q.(list := []);
    assert ScanOnce(PLAIN, q) == Stop(q.(list := [], evFlush := true, waiting := 1), Wait);
  }

  /** SendAnyway during the flush wakes the worker for another scan. */
  lemma SendWakesWorker()
    ensures var s := Bare(1, 0, true, false, S_FALSE, [], Blocked, Waited, 0);
      && Enabled(PLAIN, s, Ask(SendAnyway))
      && Apply(PLAIN, s, Ask(SendAnyway)) == Bare(0, 1, true, false, S_FALSE, [SendPacket], Blocked, Waited, 0)
  {
  }

  /** The flush's own steps, and the worker's waking. */
  lemma FlushSteps()
    ensures var s := START;
      Enabled(PLAIN, s, Flushing(BeginFlush)) &&
      Apply(PLAIN, s, Flushing(BeginFlush)) == Bare(0, 0, true, false, S_FALSE, [], AtLock, Begun, 0)
    ensures var s := Bare(1, 0, true, true, S_FALSE, [], Blocked, Begun, 0);
      Enabled(PLAIN, s, Flushing(EndFlushWait)) &&
      Apply(PLAIN, s, Flushing(EndFlushWait)) == Bare(1, 0, true, false, S_FALSE, [], Blocked, Waited, 0)
    ensures var s := Bare(0, 1, true, false, S_FALSE, [SendPacket], Blocked, Waited, 0);
      Enabled(PLAIN, s, Work(WorkerWake)) &&
      Apply(PLAIN, s, Work(WorkerWake)) == Bare(0, 0, true, false, S_FALSE, [SendPacket], AtLock, Waited, 0)
    ensures var s := Bare(1, 0, true, true, S_FALSE, [], Blocked, Waited, 0);
      Enabled(PLAIN, s, Flushing(EndFlushFlags)) &&
      Apply(PLAIN, s, Flushing(EndFlushFlags)) == Bare(1, 0, false, true, S_FALSE, [], Blocked, Flagged, 0)
    ensures var s := Bare(1, 0, false, true, S_FALSE, [], Blocked, Flagged, 0);
      Enabled(PLAIN, s, Flushing(EndFlushDone)) &&
      Apply(PLAIN, s, Flushing(EndFlushDone)) == Bare(1, 0, false, true, S_OK, [], Blocked, NoFlush, 1)
  {
  }

  /**
   * A flush during which a SEND packet has the worker scan once more: EndFlush's wait has taken
   * the event by then, so that it is set when EndFlush has returned.
   */
  lemma {:induction false} StaleEventReachable()
    ensures exists s :: Reachable(PLAIN, s) && Enabled(PLAIN, s, Ask(ResetQueue)) && !ResetPending(s) && s.q.evFlush
  {
    FlushSteps();
    FlushScan([], false, Begun);
    FlushScan([SendPacket], false, Waited);
    SendWakesWorker();
    var last := Bare(1, 0, false, true, S_OK, [], Blocked, NoFlush, 1);
    LastIsQuiet(last);
    hide Bare, Apply, Enabled, Leads, PLAIN, START;
    var t8: seq<Step> := [];
    LeadsNowhere(PLAIN, last);
    Then(PLAIN, Bare(1, 0, false, true, S_FALSE, [], Blocked, Flagged, 0), Flushing(EndFlushDone), last, t8, last);
    var t7 := [Flushing(EndFlushDone)] + t8;
    Then(PLAIN, Bare(1, 0, true, true, S_FALSE, [], Blocked, Waited, 0), Flushing(EndFlushFlags), Bare(1, 0, false, true, S_FALSE, [], Blocked, Flagged, 0), t7, last);
    var t6 := [Flushing(EndFlushFlags)] + t7;
    Then(PLAIN, Bare(0, 0, true, false, S_FALSE, [SendPacket], AtLock, Waited, 0), Work(WorkerScan), Bare(1, 0, true, true, S_FALSE, [], Blocked, Waited, 0), t6, last);
    var t5 := [Work(WorkerScan)] + t6;
    Then(PLAIN, Bare(0, 1, true, false, S_FALSE, [SendPacket], Blocked, Waited, 0), Work(WorkerWake), Bare(0, 0, true, false, S_FALSE, [SendPacket], AtLock, Waited, 0), t5, last);
    var t4 := [Work(WorkerWake)] + t5;
    Then(PLAIN, Bare(1, 0, true, false, S_FALSE, [], Blocked, Waited, 0), Ask(SendAnyway), Bare(0, 1, true, false, S_FALSE, [SendPacket], Blocked, Waited, 0), t4, last);
    var t3 := [Ask(SendAnyway)] + t4;
    Then(PLAIN, Bare(1, 0, true, true, S_FALSE, [], Blocked, Begun, 0), Flushing(EndFlushWait), Bare(1, 0, true, false, S_FALSE, [], Blocked, Waited, 0), t3, last);
    var t2 := [Flushing(EndFlushWait)] + t3;
    Then(PLAIN, Bare(0, 0, true, false, S_FALSE, [], AtLock, Begun, 0), Work(WorkerScan), Bare(1, 0, true, true, S_FALSE, [], Blocked, Begun, 0), t2, last);
    var t1 := [Work(WorkerScan)] + t2;
    Then(PLAIN, START, Flushing(BeginFlush), Bare(0, 0, true, false, S_FALSE, [], AtLock, Begun, 0), t1, last);
    LeadsReachable(PLAIN, [Flushing(BeginFlush)] + t1, last);
  }

  lemma LastIsQuiet(s: Sys)
    requires s == Bare(1, 0, false, true, S_OK, [], Blocked, NoFlush, 1)
    ensures Enabled(PLAIN, s, Ask(ResetQueue)) && !ResetPending(s) && s.q.evFlush
  {
  }
}
