/**
 * What else can cross a flush: no EndOfStream does, and a segment does exactly when no scan of
 * the worker falls between BeginFlush and EndFlush, which takes the short path of both.
 */
module OutputQueueCrossing {
  import opened OutputQueueTypes
  import opened OutputQueueProtocol
  import opened OutputQueueWakeups
  import opened OutputQueueFlush
  import opened OutputQueueOrder

  // ---- EndOfStream ----

  predicate EosInHand(pc: Pc) { (pc.Sending? || pc.InReceive? || pc.AfterBatch?) && pc.control.Eos? }

  /** An EndOfStream accepted and not yet passed on or dropped is listed, or in the worker's hands. */
  predicate EosPending(s: Sys) { EosPacket in s.q.list || EosInHand(s.pc) }

  ghost predicate EosOk(c: Config, s: Sys) {
    && (s.q.flushed ==> !EosPending(s))
    && (s.flush.Begun? && !Quick(c, s.q) && s.q.evFlush ==> !EosPending(s))
    && (s.flush.Waited? || s.flush.Flagged? ==> !EosPending(s))
  }

  lemma EosOnce(c: Config, q: QState)
    requires WellPaired(q.list)
    ensures EosPacket in ScanOnce(c, q).q.list ==> EosPacket in q.list
    ensures ScanOnce(c, q).Stop? && ScanOnce(c, q).outcome.Send? && ScanOnce(c, q).outcome.control.Eos? ==> EosPacket in q.list
  {
    NoPayloadFirst(q.list);
    hide WellPaired, SamplesIn;
  }

  lemma {:induction false} ScanEos(c: Config, q: QState)
    requires WellPaired(q.list)
    ensures EosPacket in Scan(c, q).0.list ==> EosPacket in q.list
    ensures Scan(c, q).1.Send? && Scan(c, q).1.control.Eos? ==> EosPacket in q.list
    decreases |q.list|
  {
    hide ScanOnce, WellPaired;
    EosOnce(c, q);
    ScanOnceShrinks(c, q);
    if ScanOnce(c, q).Stop? {
    } else {
      ScanEos(c, ScanOnce(c, q).q);
    }
  }

  lemma EosReceive(c: Config, s: Sys, xs: seq<Sample>)
    requires EosOk(c, s) && FlushOk(c, s) && Enabled(c, s, Receive(xs))
    ensures EosOk(c, Apply(c, s, Receive(xs)))
  {
    hide Wrap, Frames, Pipe, SamplesIn;
    NoEos(xs);
  }

  lemma NoEos(xs: seq<Sample>)
    ensures EosPacket !in Wrap(xs)
  {
  }

  lemma EosAsk(c: Config, s: Sys, a: ControlStep)
    requires EosOk(c, s) && FlushOk(c, s) && ControlEnabled(s, a)
    ensures EosOk(c, ApplyControl(s, a))
  {
    hide ApplyControl, Pipe, SamplesIn;
    ControlAppends(s, a);
    QueuedEos(s.q, a);
  }

  lemma QueuedEos(q: QState, a: ControlStep)
    ensures EosPacket in Queued(q, a) <==> a.EndOfStream? && q.hr == S_OK
  {
  }

  lemma EosFlush(c: Config, s: Sys, f: FlushStep)
    requires EosOk(c, s) && FlushOk(c, s) && Enabled(c, s, Flushing(f))
    ensures EosOk(c, ApplyFlush(c, s, f))
  {
    hide Pipe, SamplesIn;
  }

  lemma EosScan(c: Config, s: Sys)
    requires GoodConfig(c) && EosOk(c, s) && FlushOk(c, s) && WakeupsOk(c, s) && s.pc.AtLock?
    ensures EosOk(c, ApplyWorker(c, s, WorkerScan))
  {
    hide Scan, WellPaired, Pipe, SamplesIn, CallsOk;
    ScanShape(c, s.q);
    ScanEos(c, s.q);
  }

  lemma EosWork(c: Config, s: Sys, w: WorkerStep)
    requires EosOk(c, s) && FlushOk(c, s) && WorkerEnabled(s, w) && !w.WorkerScan?
    ensures EosOk(c, ApplyWorker(c, s, w))
  {
    hide Pipe, SamplesIn;
  }

  lemma EosStep(c: Config, s: Sys, step: Step)
    requires GoodConfig(c) && AllOk(c, s) && EosOk(c, s) && Enabled(c, s, step)
    ensures EosOk(c, Apply(c, s, step))
  {
    hide FlushOk, WakeupsOk, EosOk, Conserved, ApplyControl, ApplyFlush, ApplyWorker, ReceiveRegion;
    match step
    case Receive(xs) => EosReceive(c, s, xs);
    case Ask(a) => EosAsk(c, s, a);
    case Flushing(f) => EosFlush(c, s, f);
    case Terminate => EosTerminate(c, s);
    case Work(w) =>
      if w.WorkerScan? {
        EosScan(c, s);
      } else {
        EosWork(c, s, w);
      }
  }

  lemma EosTerminate(c: Config, s: Sys)
    requires EosOk(c, s) && Enabled(c, s, Terminate)
    ensures EosOk(c, Apply(c, s, Terminate))
  {
  }

  lemma {:induction false} EosRun(c: Config, s: Sys, steps: seq<Step>)
    requires GoodConfig(c) && AllOk(c, s) && EosOk(c, s) && Possible(c, s, steps)
    ensures EosOk(c, Exec(c, s, steps))
    decreases |steps|
  {
    hide AllOk, EosOk, Apply;
    if steps == [] {
    } else {
      AllOkStep(c, s, steps[0]);
      EosStep(c, s, steps[0]);
      EosRun(c, Apply(c, s, steps[0]), steps[1..]);
    }
  }

  /** No EndOfStream crosses a flush: when EndFlush returns, none accepted before is listed or in the worker's hands. */
  lemma {:induction false} NoEosCrossesFlush(c: Config, s: Sys, f: FlushStep)
    requires GoodConfig(c) && Reachable(c, s)
    requires Enabled(c, s, Flushing(f)) && (f.EndFlushQuick? || f.EndFlushDone?)
    ensures !EosPending(Apply(c, s, Flushing(f)))
  {
    hide AllOk;
    var steps :| Possible(c, START, steps) && Exec(c, START, steps) == s;
    StartOk(c);
    EosRun(c, START, steps);
  }

  // ---- Segments ----

  /** Neither a step of a flush nor the destructor's. */
  predicate BetweenFlushSteps(steps: seq<Step>) { Terminate !in steps && forall f :: Flushing(f) !in steps }

  lemma AskKept(s: Sys, a: ControlStep)
    requires ControlEnabled(s, a)
    ensures var r := ApplyControl(s, a); s.q.list <= r.q.list && r.q.flushing == s.q.flushing && r.flush == s.flush
  {
    hide ApplyControl;
    ControlAppends(s, a);
  }

  lemma EffectKept(q: QState, k: Control, xs: seq<Sample>)
    ensures var r := ControlEffect(q, k); r.list == q.list && r.flushing == q.flushing && r.flushed == q.flushed
    ensures var r := Release(q, xs); r.list == q.list && r.flushing == q.flushing && r.flushed == q.flushed
  {
  }

  lemma WorkKept(c: Config, s: Sys, w: WorkerStep)
    requires WorkerEnabled(s, w) && !w.WorkerScan?
    ensures var r := ApplyWorker(c, s, w);
      r.q.list == s.q.list && r.q.flushing == s.q.flushing && r.q.flushed == s.q.flushed && r.flush == s.flush
  {
    hide ResetPending, Scan, WellPaired, ControlEffect, Release;
    match w
    case WorkerWake =>
    case WorkerSend => EffectKept(s.q, NoControl, s.pc.batch);
    case WorkerReturn(hr) => EffectKept(s.q.(hr := if s.q.hr == S_OK then hr else s.q.hr), NoControl, s.pc.batch);
    case WorkerAfter => EffectKept(s.q, s.pc.control, []);
  }

  /** Every other step leaves what is listed listed. */
  lemma ListKept(c: Config, s: Sys, step: Step)
    requires Enabled(c, s, step) && step != Work(WorkerScan) && step != Terminate && !step.Flushing?
    ensures var r := Apply(c, s, step); s.q.list <= r.q.list && r.q.flushing == s.q.flushing && r.flush == s.flush
  {
    hide ApplyControl, ApplyWorker, Wrap, Frames;
    match step
    case Receive(xs) =>
    case Ask(a) => AskKept(s, a);
    case Work(w) => WorkKept(c, s, w);
  }

  lemma ScanWhileFlushing(c: Config, s: Sys)
    requires GoodConfig(c) && WakeupsOk(c, s) && s.pc.AtLock? && s.q.flushing
    ensures var r := ApplyWorker(c, s, WorkerScan); r.q.list == [] && r.q.flushing && r.flush == s.flush
  {
    hide Scan, WellPaired;
    ScanShape(c, s.q);
  }

  lemma {:induction false} StillFlushing(c: Config, s: Sys, steps: seq<Step>)
    requires GoodConfig(c) && AllOk(c, s) && s.q.flushing && Possible(c, s, steps) && BetweenFlushSteps(steps)
    ensures AllOk(c, Exec(c, s, steps)) && Exec(c, s, steps).q.flushing && Exec(c, s, steps).flush == s.flush
    decreases |steps|
  {
    hide Apply, Conserved, FlushOk, WakeupsOk, PairedOk;
    if steps == [] {
    } else {
      assert steps[0] in steps;
      AllOkStep(c, s, steps[0]);
      if steps[0] == Work(WorkerScan) {
        ScanNow(c, s);
      } else {
        ListKept(c, s, steps[0]);
      }
      StillFlushing(c, Apply(c, s, steps[0]), steps[1..]);
    }
  }

  lemma ScanNow(c: Config, s: Sys)
    requires GoodConfig(c) && AllOk(c, s) && s.q.flushing && Enabled(c, s, Work(WorkerScan))
    ensures var r := Apply(c, s, Work(WorkerScan)); r.q.list == [] && r.q.flushing && r.flush == s.flush
  {
    hide Conserved, FlushOk, WakeupsOk;
    ScanWhileFlushing(c, s);
  }

  /** With no scan between, what is listed stays listed. */
  lemma {:induction false} ListSurvives(c: Config, s: Sys, steps: seq<Step>)
    requires Possible(c, s, steps) && BetweenFlushSteps(steps) && Work(WorkerScan) !in steps
    ensures s.q.list <= Exec(c, s, steps).q.list
    decreases |steps|
  {
    hide Apply, Enabled;
    if steps == [] {
    } else {
      assert steps[0] in steps;
      ListKept(c, s, steps[0]);
      ListSurvives(c, Apply(c, s, steps[0]), steps[1..]);
    }
  }

  /** A scan while flushing empties the list, whatever comes before it. */
  lemma {:induction false} ScanDropsAll(c: Config, s: Sys, steps: seq<Step>, i: nat)
    requires GoodConfig(c) && AllOk(c, s) && s.q.flushing && Possible(c, s, steps) && BetweenFlushSteps(steps)
    requires i < |steps| && steps[i] == Work(WorkerScan)
    ensures Possible(c, s, steps[..i + 1]) && Exec(c, s, steps[..i + 1]).q.list == []
    decreases |steps|
  {
    hide AllOk, Apply, Enabled;
    var r := Apply(c, s, steps[0]);
    assert steps[0] in steps;
    assert steps[..i + 1][0] == steps[0] && steps[..i + 1][1..] == steps[1..][..i];
    if i == 0 {
      ScanNow(c, s);
      assert steps[..1][1..] == [];
    } else {
      AllOkStep(c, s, steps[0]);
      if steps[0] == Work(WorkerScan) {
        ScanNow(c, s);
      } else {
        ListKept(c, s, steps[0]);
      }
      ScanDropsAll(c, r, steps[1..], i - 1);
    }
  }

  // ---- The two paths of a flush ----

  /** EndFlush will take its short path, or has no event to take yet. */
  predicate Unsignalled(c: Config, s: Sys) { s.flush.Begun? && (Quick(c, s.q) || !s.q.evFlush) }

  lemma UnsignalledStep(c: Config, s: Sys, step: Step)
    requires Unsignalled(c, s) && FlushOk(c, s) && Enabled(c, s, step)
    requires step != Work(WorkerScan) && step != Terminate && !step.Flushing?
    ensures Unsignalled(c, Apply(c, s, step))
  {
    hide ApplyControl, ApplyWorker, Wrap, Frames, Pipe, CallsInEpoch;
    match step
    case Receive(xs) =>
    case Ask(a) => ControlAppends(s, a);
    case Work(w) => UnsignalledWork(s, c, w);
  }

  lemma UnsignalledWork(s: Sys, c: Config, w: WorkerStep)
    requires WorkerEnabled(s, w) && !w.WorkerScan? && !ResetPending(s)
    ensures var r := ApplyWorker(c, s, w); r.q.evFlush == s.q.evFlush && r.q.flushed == s.q.flushed && r.flush == s.flush
  {
    WorkKept(c, s, w);
    hide Scan, WellPaired;
  }

  lemma {:induction false} UnsignalledRun(c: Config, s: Sys, steps: seq<Step>)
    requires GoodConfig(c) && AllOk(c, s) && Unsignalled(c, s) && Possible(c, s, steps)
    requires BetweenFlushSteps(steps) && Work(WorkerScan) !in steps
    ensures Unsignalled(c, Exec(c, s, steps))
    decreases |steps|
  {
    hide Apply, Enabled, Unsignalled, Conserved, FlushOk, WakeupsOk, PairedOk;
    if steps == [] {
    } else {
      assert steps[0] in steps;
      AllOkStep(c, s, steps[0]);
      UnsignalledStep(c, s, steps[0]);
      UnsignalledRun(c, Apply(c, s, steps[0]), steps[1..]);
    }
  }

  /** What was listed when the flush began is gone from the list at some moment of these steps. */
  ghost predicate Emptied(c: Config, s: Sys, steps: seq<Step>)
    requires Possible(c, s, steps)
  {
    exists n :: 0 < n <= |steps| && Possible(c, s, steps[..n]) && Exec(c, s, steps[..n]).q.list == []
  }

  /**
   * Between BeginFlush and EndFlush, either the worker scans, and nothing listed before the flush
   * survives it; or it does not, everything listed is still there when EndFlush has returned, and
   * EndFlush took its short path. So a segment crosses exactly in the second case.
   */
  lemma {:induction false} SegmentCrossesIff(c: Config, s: Sys, steps: seq<Step>, f: FlushStep)
    requires GoodConfig(c) && Reachable(c, s) && Enabled(c, s, Flushing(BeginFlush))
    requires Possible(c, Apply(c, s, Flushing(BeginFlush)), steps) && BetweenFlushSteps(steps)
    requires Enabled(c, Exec(c, Apply(c, s, Flushing(BeginFlush)), steps), Flushing(f))
    ensures var begun := Apply(c, s, Flushing(BeginFlush));
      var e := Exec(c, begun, steps);
      if Work(WorkerScan) in steps then Emptied(c, begun, steps)
      else f == EndFlushQuick && s.q.list <= Apply(c, e, Flushing(f)).q.list
  {
    hide Reachable, AllOk, Possible, Exec;
    var begun := Apply(c, s, Flushing(BeginFlush));
    ReachableOk(c, s);
    AllOkStep(c, s, Flushing(BeginFlush));
    StillFlushing(c, begun, steps);
    if Work(WorkerScan) in steps {
      var i :| 0 <= i < |steps| && steps[i] == Work(WorkerScan);
      ScanDropsAll(c, begun, steps, i);
    } else {
      ListSurvives(c, begun, steps);
      UnsignalledRun(c, begun, steps);
    }
  }

  lemma AskClear(s: Sys, a: ControlStep)
    requires ControlEnabled(s, a) && !s.q.flushed
    ensures !ApplyControl(s, a).q.flushed
  {
    hide ApplyControl;
    ControlAppends(s, a);
  }

  lemma {:induction false} ScanFlushed(c: Config, q: QState)
    requires WellPaired(q.list)
    ensures Scan(c, q).0.flushed == q.flushed
    decreases |q.list|
  {
    hide ScanOnce, WellPaired;
    ScanOnceShrinks(c, q);
    ScanOnceFlushed(c, q);
    if ScanOnce(c, q).Stop? {
    } else {
      ScanFlushed(c, ScanOnce(c, q).q);
    }
  }

  lemma ScanOnceFlushed(c: Config, q: QState)
    requires WellPaired(q.list)
    ensures ScanOnce(c, q).q.flushed == q.flushed
  {
    NoPayloadFirst(q.list);
    hide WellPaired, SamplesIn;
  }

  lemma ClearStep(c: Config, s: Sys, step: Step)
    requires Enabled(c, s, step) && !s.q.flushed && !step.Flushing? && step != Terminate
    ensures !Apply(c, s, step).q.flushed
  {
    hide ApplyControl, Scan, SendEffect, Release, ControlEffect, Wrap, Frames, WellPaired;
    match step
    case Receive(xs) =>
    case Ask(a) => AskClear(s, a);
    case Work(w) =>
      if w.WorkerScan? {
        ScanFlushed(c, s.q);
      } else {
        WorkKept(c, s, w);
      }
  }

  /** Only EndFlush sets m_bFlushed: clear, it stays clear until then. */
  lemma {:induction false} StaysClear(c: Config, s: Sys, steps: seq<Step>)
    requires Possible(c, s, steps) && BetweenFlushSteps(steps) && !s.q.flushed
    ensures !Exec(c, s, steps).q.flushed
    decreases |steps|
  {
    hide Apply, Enabled;
    if steps == [] {
    } else {
      assert steps[0] in steps;
      ClearStep(c, s, steps[0]);
      StaysClear(c, Apply(c, s, steps[0]), steps[1..]);
    }
  }

  /** After BeginFlush at s and these steps, EndFlush may go on, and the list was never empty of what it held. */
  ghost predicate Survives(c: Config, s: Sys, steps: seq<Step>, f: FlushStep)
    requires Enabled(c, s, Flushing(BeginFlush))
  {
    var begun := Apply(c, s, Flushing(BeginFlush));
    && Possible(c, begun, steps) && BetweenFlushSteps(steps)
    && Enabled(c, Exec(c, begun, steps), Flushing(f))
    && !Emptied(c, begun, steps)
  }

  /**
   * What is listed as a flush begins, a segment included, may survive the flush exactly when
   * m_bFlushed is set and the optimisation is on as BeginFlush is called; it is then still listed
   * when EndFlush has returned.
   */
  lemma {:induction false} MayCrossIff(c: Config, s: Sys)
    requires GoodConfig(c) && Reachable(c, s) && Enabled(c, s, Flushing(BeginFlush))
    ensures Quick(c, s.q) <==> exists steps, f :: Survives(c, s, steps, f)
    ensures forall steps, f :: Survives(c, s, steps, f) ==>
              s.q.list <= Apply(c, Exec(c, Apply(c, s, Flushing(BeginFlush)), steps), Flushing(f)).q.list
  {
    var begun := Apply(c, s, Flushing(BeginFlush));
    BegunIs(c, s);
    hide Reachable, Apply, Emptied;
    if Quick(c, s.q) {
      NeverEmptied(c, begun);
      assert Possible(c, begun, []) && Exec(c, begun, []) == begun;
      assert Survives(c, s, [], EndFlushQuick);
    }
    forall steps, f | Survives(c, s, steps, f)
      ensures Quick(c, s.q)
      ensures s.q.list <= Apply(c, Exec(c, begun, steps), Flushing(f)).q.list
    {
      SegmentCrossesIff(c, s, steps, f);
      if !Quick(c, s.q) && c.flushingOpt {
        StaysClear(c, begun, steps);
      }
    }
  }

  lemma BegunIs(c: Config, s: Sys)
    requires Enabled(c, s, Flushing(BeginFlush))
    ensures var begun := Apply(c, s, Flushing(BeginFlush));
      begun.q.flushed == s.q.flushed && (Quick(c, s.q) ==> Enabled(c, begun, Flushing(EndFlushQuick)))
  {
  }

  lemma NeverEmptied(c: Config, s: Sys)
    ensures Possible(c, s, []) && !Emptied(c, s, [])
  {
  }

  // ---- A segment that crosses ----

  const OPTIMISED := Config(1, false, true)

  /** The steps of such a run. */
  lemma SegmentSteps(seg: Segment)
    ensures var s1 := START.(tested := multiset{seg});
      var s2 := START.(q := INITIAL_STATE.(list := [NewSegmentPacket, Payload(seg)]), accepted := [Segmented(seg)]);
      var s3 := s2.(q := s2.q.(flushing := true, hr := S_FALSE), flush := Begun);
      && Enabled(OPTIMISED, START, Ask(TestSegment(seg))) && Apply(OPTIMISED, START, Ask(TestSegment(seg))) == s1
      && Enabled(OPTIMISED, s1, Ask(QueueSegment(seg))) && Apply(OPTIMISED, s1, Ask(QueueSegment(seg))) == s2
      && Enabled(OPTIMISED, s2, Flushing(BeginFlush)) && Apply(OPTIMISED, s2, Flushing(BeginFlush)) == s3
      && Enabled(OPTIMISED, s3, Flushing(EndFlushQuick)) && Apply(OPTIMISED, s3, Flushing(EndFlushQuick)) == s2.(epoch := 1)
  {
    assert [] + [NewSegmentPacket, Payload(seg)] == [NewSegmentPacket, Payload(seg)];
    assert [] + [Segmented(seg)] == [Segmented(seg)];
  }

  /** NewSegment, then a flush that takes the short path: the segment is listed, the queue accepts again, and the next epoch has begun. */
  lemma {:induction false} SegmentCrosses(seg: Segment)
    ensures exists s ::
      Reachable(OPTIMISED, s) && s.epoch == 1 && s.q.hr == S_OK && s.q.list == [NewSegmentPacket, Payload(seg)]
  {
    SegmentSteps(seg);
    var s1 := START.(tested := multiset{seg});
    var s2 := START.(q := INITIAL_STATE.(list := [NewSegmentPacket, Payload(seg)]), accepted := [Segmented(seg)]);
    var s3 := s2.(q := s2.q.(flushing := true, hr := S_FALSE), flush := Begun);
    var s4 := s2.(epoch := 1);
    hide Apply, Enabled, Leads, Reachable;
    LeadsNowhere(OPTIMISED, s4);
    Then(OPTIMISED, s3, Flushing(EndFlushQuick), s4, [], s4);
    var t3 := [Flushing(EndFlushQuick)] + [];
    Then(OPTIMISED, s2, Flushing(BeginFlush), s3, t3, s4);
    var t2 := [Flushing(BeginFlush)] + t3;
    Then(OPTIMISED, s1, Ask(QueueSegment(seg)), s2, t2, s4);
    var t1 := [Ask(QueueSegment(seg))] + t2;
    Then(OPTIMISED, START, Ask(TestSegment(seg)), s1, t1, s4);
    LeadsReachable(OPTIMISED, [Ask(TestSegment(seg))] + t1, s4);
  }
}
