/**
 * EndFlush and Reset wait for the worker. Neither waits for ever: while one does,
 * the worker always has a step to take, and each brings the event nearer.
 */
module OutputQueueLiveness {
  import opened OutputQueueTypes
  import opened OutputQueueProtocol
  import opened OutputQueueWakeups
  import opened OutputQueueFlush
  import opened OutputQueueOrder

  /** EndFlush is, or will be, waiting for m_evFlushComplete. */
  predicate FlushWaits(c: Config, s: Sys) {
    s.flush.Begun? && !Quick(c, s.q) && !s.q.evFlush && !s.q.terminate
  }

  /** Reset is waiting for it. */
  predicate ResetWaits(s: Sys) { s.resetting && !s.q.evFlush && !s.q.terminate }

  ghost predicate WaitsOk(c: Config, s: Sys) {
    && (FlushWaits(c, s) && s.pc.Blocked? ==> s.q.sem > 0)
    && (ResetWaits(s) ==> ResetPending(s))
    && (s.resetting ==> s.flush.NoFlush?)
    && (s.pc.Exited? ==> s.q.terminate)
  }

  // ---- The RESET packet's way through the list ----

  function FirstReset(list: seq<Item>): nat {
    if list == [] || list[0].ResetPacket? then 0 else 1 + FirstReset(list[1..])
  }

  lemma {:induction false} ResetTail(list: seq<Item>)
    requires WellPaired(list) && ResetPacket in list && !list[0].ResetPacket?
    ensures var rest := if list[0].NewSegmentPacket? then list[2..] else list[1..];
      ResetPacket in rest && FirstReset(rest) < FirstReset(list)
  {
    if list[0].NewSegmentPacket? {
      assert list[1..][1..] == list[2..] && list[1].Payload?;
      assert list == [list[0], list[1]] + list[2..];
    } else {
      assert list == [list[0]] + list[1..];
    }
  }

  ghost predicate ResetMoves(list: seq<Item>, r: QState, o: Outcome) {
    o.Send? && (o.control.Reset? || (ResetPacket in r.list && FirstReset(r.list) < FirstReset(list)))
  }

  lemma ResetMovesOnce(c: Config, q: QState)
    requires WellPaired(q.list) && !q.terminate && !q.flushing && ResetPacket in q.list
    ensures match ScanOnce(c, q)
      case Stop(r, o) => ResetMoves(q.list, r, o)
      case Continue(r) => ResetPacket in r.list && FirstReset(r.list) < FirstReset(q.list)
  {
    NoPayloadFirst(q.list);
    if !q.list[0].ResetPacket? {
      ResetTail(q.list);
    }
    hide WellPaired, FirstReset;
  }

  /** A scan hands the first RESET packet over, or brings it nearer the head. */
  lemma {:induction false} ScanMovesReset(c: Config, q: QState)
    requires WellPaired(q.list) && !q.terminate && !q.flushing && ResetPacket in q.list
    ensures ResetMoves(q.list, Scan(c, q).0, Scan(c, q).1)
    decreases |q.list|
  {
    hide ScanOnce, WellPaired, FirstReset;
    ResetMovesOnce(c, q);
    ScanOnceShrinks(c, q);
    if ScanOnce(c, q).Stop? {
    } else {
      ScanMovesReset(c, ScanOnce(c, q).q);
    }
  }

  // ---- What every step keeps ----

  lemma ReceiveWaits(c: Config, s: Sys, xs: seq<Sample>)
    requires GoodConfig(c) && AllOk(c, s) && WaitsOk(c, s) && Enabled(c, s, Receive(xs))
    ensures WaitsOk(c, Apply(c, s, Receive(xs)))
  {
    hide WellPaired, Wrap, Frames, Conserved, CallsOk, Pipe, PcOk;
  }

  lemma TerminateWaits(c: Config, s: Sys)
    requires GoodConfig(c) && WaitsOk(c, s) && Enabled(c, s, Terminate)
    ensures WaitsOk(c, Apply(c, s, Terminate))
  {
  }

  lemma AskWaits(c: Config, s: Sys, a: ControlStep)
    requires GoodConfig(c) && AllOk(c, s) && WaitsOk(c, s) && Enabled(c, s, Ask(a))
    ensures WaitsOk(c, ApplyControl(s, a))
  {
    hide WellPaired, Conserved, CallsOk, Pipe, PcOk;
  }

  lemma FlushingWaits(c: Config, s: Sys, f: FlushStep)
    requires GoodConfig(c) && AllOk(c, s) && WaitsOk(c, s) && Enabled(c, s, Flushing(f))
    ensures WaitsOk(c, Apply(c, s, Flushing(f)))
  {
    hide WellPaired, Conserved, CallsOk, Pipe;
  }

  lemma ScanWaits(c: Config, s: Sys)
    requires GoodConfig(c) && AllOk(c, s) && WaitsOk(c, s) && s.pc.AtLock?
    ensures WaitsOk(c, ApplyWorker(c, s, WorkerScan))
  {
    hide WellPaired, Conserved, CallsOk, Pipe, Scan, FirstReset;
    ScanShape(c, s.q);
    if s.resetting && !s.q.terminate && ResetPacket in s.q.list {
      ScanMovesReset(c, s.q);
    }
  }

  lemma WorkWaits(c: Config, s: Sys, w: WorkerStep)
    requires GoodConfig(c) && AllOk(c, s) && WaitsOk(c, s) && WorkerEnabled(s, w) && !w.WorkerScan?
    ensures WaitsOk(c, ApplyWorker(c, s, w))
  {
    hide WellPaired, Conserved, CallsOk, Pipe, FlushOk;
  }

  lemma WaitsStep(c: Config, s: Sys, step: Step)
    requires GoodConfig(c) && AllOk(c, s) && WaitsOk(c, s) && Enabled(c, s, step)
    ensures WaitsOk(c, Apply(c, s, step))
  {
    hide AllOk, WaitsOk, ApplyControl, ApplyFlush, ApplyWorker, ReceiveRegion, TerminateRegion;
    match step
    case Flushing(f) => FlushingWaits(c, s, f);
    case Work(w) =>
      if w.WorkerScan? {
        ScanWaits(c, s);
      } else {
        WorkWaits(c, s, w);
      }
    case Receive(xs) => ReceiveWaits(c, s, xs);
    case Terminate => TerminateWaits(c, s);
    case Ask(a) => AskWaits(c, s, a);
  }

  lemma {:induction false} RunWaits(c: Config, s: Sys, steps: seq<Step>)
    requires GoodConfig(c) && AllOk(c, s) && WaitsOk(c, s) && Possible(c, s, steps)
    ensures WaitsOk(c, Exec(c, s, steps))
    decreases |steps|
  {
    hide AllOk, WaitsOk, Apply;
    if steps == [] {
    } else {
      AllOkStep(c, s, steps[0]);
      WaitsStep(c, s, steps[0]);
      RunWaits(c, Apply(c, s, steps[0]), steps[1..]);
    }
  }

  lemma {:induction false} ReachableWaits(c: Config, s: Sys)
    requires GoodConfig(c) && Reachable(c, s)
    ensures AllOk(c, s) && WaitsOk(c, s)
  {
    hide AllOk, Apply;
    var steps :| Possible(c, START, steps) && Exec(c, START, steps) == s;
    StartOk(c);
    RunOk(c, START, steps);
    RunWaits(c, START, steps);
  }

  // ---- Progress ----

  /** How much the worker has to do before it deals with the first RESET packet. */
  function ToReset(s: Sys): nat {
    StepsToExit(s.pc) +
    if (s.pc.Sending? || s.pc.InReceive? || s.pc.AfterBatch?) && s.pc.control.Reset? then 0
    else 5 * (1 + FirstReset(s.q.list))
  }

  /**
   * While EndFlush waits for a flush to complete, the worker is not stuck, and its next step
   * either signals completion or is one of at most four before the step that does.
   */
  lemma {:induction false} FlushCompletes(c: Config, s: Sys, hr: int)
    requires GoodConfig(c) && Reachable(c, s) && FlushWaits(c, s)
    ensures Enabled(c, s, Work(NextWork(s.pc, hr)))
    ensures var r := Apply(c, s, Work(NextWork(s.pc, hr)));
      r.q.evFlush || (FlushWaits(c, r) && StepsToExit(r.pc) < StepsToExit(s.pc))
  {
    hide Conserved, CallsOk, Pipe, WellPaired, Scan, Reachable;
    ReachableWaits(c, s);
    ScanShape(c, s.q);
  }

  lemma ResetAtLock(c: Config, s: Sys)
    requires GoodConfig(c) && AllOk(c, s) && WaitsOk(c, s) && ResetWaits(s) && s.pc.AtLock?
    ensures var r := ApplyWorker(c, s, WorkerScan); ResetWaits(r) && ToReset(r) < ToReset(s)
  {
    hide Conserved, CallsOk, Pipe, WellPaired, Scan, FirstReset, PcOk;
    ScanShape(c, s.q);
    ScanMovesReset(c, s.q);
  }

  lemma ResetElsewhere(c: Config, s: Sys, w: WorkerStep)
    requires WaitsOk(c, s) && ResetWaits(s) && WorkerEnabled(s, w) && !s.pc.AtLock?
    ensures var r := ApplyWorker(c, s, w); r.q.evFlush || (ResetWaits(r) && ToReset(r) < ToReset(s))
  {
    hide FirstReset, ApplyWorker, WaitsOk;
    BetweenScans(c, s, w);
  }

  /** What a step of the worker other than a scan leaves as it was, and where it takes the worker. */
  lemma BetweenScans(c: Config, s: Sys, w: WorkerStep)
    requires WorkerEnabled(s, w) && !w.WorkerScan?
    ensures var r := ApplyWorker(c, s, w);
      && r.q.list == s.q.list && r.q.terminate == s.q.terminate && r.resetting == s.resetting && r.flush == s.flush
      && r.q.evFlush == (s.q.evFlush || (w.WorkerAfter? && s.pc.control.Reset?))
      && StepsToExit(r.pc) < StepsToExit(s.pc)
      && if w.WorkerWake? || w.WorkerAfter? then r.pc.AtLock?
         else (r.pc.InReceive? || r.pc.AfterBatch?) && r.pc.control == s.pc.control
  {
    hide Scan, SendEffect, Release, ControlEffect;
    match w
    case WorkerSend => SendLeaves(s);
    case WorkerReturn(hr) => ReleaseKeeps(s.q.(hr := if s.q.hr == S_OK then hr else s.q.hr), s.pc.batch);
    case WorkerAfter => ActionLeaves(s.q, s.pc.control);
    case WorkerWake =>
  }

  lemma SendLeaves(s: Sys)
    requires s.pc.Sending?
    ensures var r := SendEffect(s);
      && r.q.list == s.q.list && r.q.terminate == s.q.terminate && r.resetting == s.resetting && r.flush == s.flush
      && r.q.evFlush == s.q.evFlush && (r.pc.InReceive? || r.pc.AfterBatch?) && r.pc.control == s.pc.control
  {
    ReleaseKeeps(s.q, s.pc.batch);
  }

  /** While Reset waits, the worker is not stuck, and each of its steps signals or brings the RESET packet nearer. */
  lemma {:induction false} ResetCompletes(c: Config, s: Sys, hr: int)
    requires GoodConfig(c) && Reachable(c, s) && ResetWaits(s)
    ensures Enabled(c, s, Work(NextWork(s.pc, hr)))
    ensures var r := Apply(c, s, Work(NextWork(s.pc, hr)));
      r.q.evFlush || (ResetWaits(r) && ToReset(r) < ToReset(s))
  {
    hide Conserved, CallsOk, Pipe, WellPaired, Scan, Reachable, FirstReset, ToReset, ApplyWorker, FlushOk;
    ReachableWaits(c, s);
    if s.pc.AtLock? {
      ResetAtLock(c, s);
    } else {
      ResetElsewhere(c, s, NextWork(s.pc, hr));
    }
  }

  // ---- What the other threads' steps leave alone ----

  lemma {:induction false} FirstResetAppend(list: seq<Item>, more: seq<Item>)
    requires ResetPacket in list
    ensures ResetPacket in list + more && FirstReset(list + more) == FirstReset(list)
    decreases |list|
  {
    assert (list + more)[0] == list[0] && (list + more)[1..] == list[1..] + more;
    if list[0].ResetPacket? {
    } else {
      assert list == [list[0]] + list[1..];
      FirstResetAppend(list[1..], more);
    }
  }

  /** Any step but the worker's, and but the destructor's. */
  predicate ByOthers(step: Step) { !step.Work? && !step.Terminate? }

  lemma AppendKeepsDistance(s: Sys, r: Sys, more: seq<Item>)
    requires ResetPending(s) && r.pc == s.pc && r.q.list == s.q.list + more
    ensures ToReset(r) == ToReset(s)
  {
    hide FirstReset;
    if ResetPacket in s.q.list {
      FirstResetAppend(s.q.list, more);
    }
  }

  lemma ReceiveKeepsDistance(c: Config, s: Sys, xs: seq<Sample>)
    requires WaitsOk(c, s) && ResetWaits(s) && Enabled(c, s, Receive(xs))
    ensures var r := Apply(c, s, Receive(xs)); ResetWaits(r) && ToReset(r) == ToReset(s)
  {
    hide ToReset, Wrap, Frames;
    assert s.q.list + [] == s.q.list;
    AppendKeepsDistance(s, Apply(c, s, Receive(xs)), if s.q.hr != S_OK then [] else Wrap(xs));
  }

  /** While Reset waits, what other threads do neither ends its wait nor puts the RESET packet off. */
  lemma {:induction false} OthersKeepReset(c: Config, s: Sys, step: Step)
    requires WaitsOk(c, s) && ResetWaits(s) && Enabled(c, s, step) && ByOthers(step)
    ensures var r := Apply(c, s, step); ResetWaits(r) && ToReset(r) == ToReset(s)
  {
    hide ToReset, ReceiveRegion, ApplyControl;
    if step.Receive? {
      ReceiveKeepsDistance(c, s, step.xs);
    } else if step.Ask? {
      ControlAppends(s, step.control);
      AskLeaves(s, step.control);
      AppendKeepsDistance(s, Apply(c, s, step), Queued(s.q, step.control));
    }
  }

  lemma AskLeaves(s: Sys, a: ControlStep)
    requires ControlEnabled(s, a) && !a.ResetWait?
    ensures ApplyControl(s, a).resetting == (s.resetting || a.ResetQueue?)
  {
    hide SendAnywayRegion, EosRegion, NewSegmentRegion, ResetRegion;
  }

  /** The worker's steps in a run. */
  function WorkSteps(steps: seq<Step>): nat {
    if steps == [] then 0 else (if steps[0].Work? then 1 else 0) + WorkSteps(steps[1..])
  }

  /** Once the event is set for a waiting Reset, it stays set until Reset takes it. */
  lemma {:induction false} SignalStays(c: Config, s: Sys, steps: seq<Step>)
    requires GoodConfig(c) && AllOk(c, s) && WaitsOk(c, s) && s.resetting && s.q.evFlush && Possible(c, s, steps)
    requires Ask(ResetWait) !in steps
    ensures Exec(c, s, steps).q.evFlush
    decreases |steps|
  {
    NotResetting(c, s);
    hide AllOk, WaitsOk, Apply, Enabled;
    if steps == [] {
    } else {
      AllOkStep(c, s, steps[0]);
      WaitsStep(c, s, steps[0]);
      SignalKept(c, s, steps[0]);
      SignalStays(c, Apply(c, s, steps[0]), steps[1..]);
    }
  }

  lemma SignalKept(c: Config, s: Sys, step: Step)
    requires GoodConfig(c) && AllOk(c, s) && WaitsOk(c, s) && Enabled(c, s, step) && step != Ask(ResetWait)
    requires s.q.evFlush && (s.resetting || s.flush.Begun?)
    requires s.flush.Begun? ==> step != Flushing(EndFlushWait) && step != Flushing(EndFlushQuick)
    ensures var r := Apply(c, s, step); r.q.evFlush && r.resetting == s.resetting && r.flush == s.flush
  {
    hide ApplyControl, Scan, WellPaired, Conserved, CallsOk, Pipe, Wrap, Frames;
    if step.Ask? {
      ControlAppends(s, step.control);
      AskLeaves(s, step.control);
    } else if step == Work(WorkerScan) {
      ScanShape(c, s.q);
    } else if step.Work? {
      hide ApplyWorker;
      BetweenScans(c, s, step.work);
    }
  }

  /**
   * However many steps other threads take, a waiting Reset has its event after at most
   * ToReset(s) steps of the worker.
   */
  lemma {:induction false} ResetBounded(c: Config, s: Sys, steps: seq<Step>)
    requires GoodConfig(c) && AllOk(c, s) && WaitsOk(c, s) && ResetWaits(s) && Possible(c, s, steps)
    requires Terminate !in steps && Ask(ResetWait) !in steps
    ensures var e := Exec(c, s, steps); e.q.evFlush || (ResetWaits(e) && WorkSteps(steps) + ToReset(e) <= ToReset(s))
    decreases |steps|
  {
    hide AllOk, WaitsOk, ApplyWorker, ApplyControl, ApplyFlush, ReceiveRegion, TerminateRegion, FlushEnabled, ControlEnabled, WorkerEnabled, Frames, ToReset, ResetWaits;
    if steps == [] {
    } else {
      var r := Apply(c, s, steps[0]);
      AllOkStep(c, s, steps[0]);
      WaitsStep(c, s, steps[0]);
      if steps[0].Work? {
        ResetAdvances(c, s, steps[0].work);
      } else {
        OthersKeepReset(c, s, steps[0]);
      }
      StillResetting(r);
      if r.q.evFlush {
        SignalStays(c, r, steps[1..]);
      } else {
        ResetBounded(c, r, steps[1..]);
      }
    }
  }

  lemma StillResetting(s: Sys)
    ensures ResetWaits(s) ==> s.resetting && !s.q.evFlush
  {
  }

  lemma ResetAdvances(c: Config, s: Sys, w: WorkerStep)
    requires GoodConfig(c) && AllOk(c, s) && WaitsOk(c, s) && ResetWaits(s) && WorkerEnabled(s, w)
    ensures var r := ApplyWorker(c, s, w); r.resetting && (r.q.evFlush || (ResetWaits(r) && ToReset(r) < ToReset(s)))
  {
    hide AllOk, WaitsOk, ToReset, Scan, SendEffect, Release, ControlEffect, WellPaired;
    WorkKeepsReset(c, s, w);
    if s.pc.AtLock? {
      ResetAtLock(c, s);
    } else {
      ResetElsewhere(c, s, w);
    }
  }

  lemma WorkKeepsReset(c: Config, s: Sys, w: WorkerStep)
    requires WorkerEnabled(s, w)
    ensures ApplyWorker(c, s, w).resetting == s.resetting && ApplyWorker(c, s, w).flush == s.flush
  {
    hide Scan;
    if !w.WorkerScan? {
      BetweenScans(c, s, w);
    }
  }

  /** While EndFlush waits, what other threads do neither ends its wait nor keeps the worker from its scan. */
  lemma {:induction false} OthersKeepFlush(c: Config, s: Sys, step: Step)
    requires AllOk(c, s) && WaitsOk(c, s) && FlushWaits(c, s) && Enabled(c, s, step) && ByOthers(step)
    ensures var r := Apply(c, s, step); FlushWaits(c, r) && r.pc == s.pc
  {
    hide ApplyControl, WellPaired, Conserved, CallsOk, Pipe, Wrap, Frames, WakeupsOk;
    if step.Ask? {
      ControlAppends(s, step.control);
      AskLeaves(s, step.control);
    }
  }

  /** Once the event is set for a waiting EndFlush, it stays set until EndFlush takes it. */
  lemma {:induction false} FlushSignalStays(c: Config, s: Sys, steps: seq<Step>)
    requires GoodConfig(c) && AllOk(c, s) && WaitsOk(c, s) && s.flush.Begun? && s.q.evFlush && Possible(c, s, steps)
    requires forall f :: Flushing(f) !in steps
    ensures Exec(c, s, steps).q.evFlush
    decreases |steps|
  {
    NotResetting(c, s);
    hide AllOk, WaitsOk, Apply;
    if steps == [] {
    } else {
      assert steps[0] in steps && steps[0] != Ask(ResetWait);
      AllOkStep(c, s, steps[0]);
      WaitsStep(c, s, steps[0]);
      SignalKept(c, s, steps[0]);
      FlushSignalStays(c, Apply(c, s, steps[0]), steps[1..]);
    }
  }

  lemma NotResetting(c: Config, s: Sys)
    requires WaitsOk(c, s)
    ensures !(s.resetting && s.flush.Begun?)
  {
  }

  /** However many steps other threads take, a waiting EndFlush has its event after at most four steps of the worker. */
  lemma {:induction false} FlushBounded(c: Config, s: Sys, steps: seq<Step>)
    requires GoodConfig(c) && AllOk(c, s) && WaitsOk(c, s) && FlushWaits(c, s) && Possible(c, s, steps)
    requires Terminate !in steps && forall f :: Flushing(f) !in steps
    ensures var e := Exec(c, s, steps);
      e.q.evFlush || (FlushWaits(c, e) && WorkSteps(steps) + StepsToExit(e.pc) <= StepsToExit(s.pc) <= 4)
    decreases |steps|
  {
    hide AllOk, WaitsOk, ApplyWorker, ApplyControl, ApplyFlush, ReceiveRegion, TerminateRegion, FlushEnabled, ControlEnabled, WorkerEnabled, Frames, FlushWaits;
    if steps == [] {
    } else {
      var r := Apply(c, s, steps[0]);
      AllOkStep(c, s, steps[0]);
      WaitsStep(c, s, steps[0]);
      if steps[0].Work? {
        FlushAdvances(c, s, steps[0].work);
      } else {
        OthersKeepFlush(c, s, steps[0]);
      }
      StillBegun(c, r);
      if r.q.evFlush {
        FlushSignalStays(c, r, steps[1..]);
      } else {
        FlushBounded(c, r, steps[1..]);
      }
    }
  }

  lemma StillBegun(c: Config, s: Sys)
    ensures FlushWaits(c, s) ==> s.flush.Begun? && !s.q.evFlush
  {
  }

  lemma FlushAdvances(c: Config, s: Sys, w: WorkerStep)
    requires GoodConfig(c) && AllOk(c, s) && WaitsOk(c, s) && FlushWaits(c, s) && WorkerEnabled(s, w)
    ensures var r := ApplyWorker(c, s, w);
      r.flush.Begun? && (r.q.evFlush || (FlushWaits(c, r) && StepsToExit(r.pc) < StepsToExit(s.pc)))
  {
    hide Conserved, CallsOk, Pipe, WellPaired, Scan;
    ScanShape(c, s.q);
  }
}
