/**
 * In-order delivery, and the theorems about whole runs of a queued COutputQueue.
 */
module OutputQueueOrder {
  import opened Sequences
  import opened OutputQueueTypes
  import opened OutputQueueProtocol
  import opened OutputQueueWakeups
  import opened OutputQueueFlush

  /** What the worker holds and has yet to send on. */
  function PcEvents(pc: Pc): seq<Event> {
    match pc
    case Sending(batch, k) => Frames(batch) + ControlEvents(k)
    case InReceive(_, k) => ControlEvents(k)
    case AfterBatch(k) => ControlEvents(k)
    case _ => []
  }

  /** No flush, no shutdown, and a downstream pin that always returns S_OK. */
  predicate Smooth(step: Step) {
    match step
    case Flushing(_) => false
    case Terminate => false
    case Work(w) => w.WorkerReturn? ==> w.hr == S_OK
    case _ => true
  }

  /** Sent, then in flight, then batched, then listed: together exactly what was accepted, in order. */
  ghost predicate InOrder(s: Sys) {
    Flat(s.q.calls) + (PcEvents(s.pc) + ToCome(s.q)) == s.accepted
  }

  ghost predicate SmoothOk(s: Sys) {
    s.q.hr == S_OK && !s.q.flushing && !s.q.terminate && WellPaired(s.q.list) && InOrder(s)
  }

  lemma OrderExtended(s: Sys, s': Sys, more: seq<Event>)
    requires InOrder(s)
    requires s'.q.calls == s.q.calls && s'.pc == s.pc
    requires ToCome(s'.q) == ToCome(s.q) + more && s'.accepted == s.accepted + more
    ensures InOrder(s')
  {
    hide Flat, PcEvents, ToCome;
    ConcatAssociates(PcEvents(s.pc), ToCome(s.q), more);
    ConcatAssociates(Flat(s.q.calls), PcEvents(s.pc) + ToCome(s.q), more);
  }

  lemma OrderMoved(s: Sys, s': Sys, sent: seq<Event>)
    requires InOrder(s) && s'.accepted == s.accepted
    requires Flat(s'.q.calls) == Flat(s.q.calls) + sent
    requires PcEvents(s.pc) + ToCome(s.q) == sent + (PcEvents(s'.pc) + ToCome(s'.q))
    ensures InOrder(s')
  {
    hide Flat, PcEvents, ToCome;
    ConcatAssociates(Flat(s.q.calls), sent, PcEvents(s'.pc) + ToCome(s'.q));
  }

  lemma ReceiveOrder(c: Config, s: Sys, xs: seq<Sample>)
    requires SmoothOk(s) && Enabled(c, s, Receive(xs))
    ensures SmoothOk(Apply(c, s, Receive(xs)))
  {
    hide WellPaired, InOrder, Wrap, Frames, ToCome;
    ReceiveConserves(c, s.q, xs);
    OrderExtended(s, Apply(c, s, Receive(xs)), Frames(xs));
  }

  lemma ControlOrder(s: Sys, a: ControlStep)
    requires SmoothOk(s) && ControlEnabled(s, a)
    ensures SmoothOk(ApplyControl(s, a))
  {
    hide WellPaired, InOrder, ToCome, ApplyControl, Queued, Decode;
    ControlAppends(s, a);
    QueuedMeans(s.q, a);
    ControlAccepts(s, a);
    AppendKeeps(s.q, ApplyControl(s, a).q, Queued(s.q, a));
    OrderExtended(s, ApplyControl(s, a), Decode(Queued(s.q, a)));
  }

  lemma ControlAccepts(s: Sys, a: ControlStep)
    requires ControlEnabled(s, a)
    ensures ApplyControl(s, a).accepted ==
            s.accepted + if a.EndOfStream? && s.q.hr == S_OK then [End] else if a.QueueSegment? then [Segmented(a.seg)] else []
  {
  }

  lemma ScanOrder(c: Config, s: Sys)
    requires GoodConfig(c) && |s.q.batch| < c.batchSize
    requires SmoothOk(s) && s.pc.AtLock?
    ensures SmoothOk(ApplyWorker(c, s, WorkerScan))
  {
    hide WellPaired, InOrder, ToCome, Scan, Frames, ControlEvents, Flat;
    ScanKeepsOrder(c, s.q);
    ScanShape(c, s.q);
    var s' := ApplyWorker(c, s, WorkerScan);
    EmptyIsUnit(Flat(s.q.calls));
    EmptyIsUnit(ToCome(s.q));
    EmptyIsUnit(PcEvents(s'.pc) + ToCome(s'.q));
    OrderMoved(s, s', []);
  }

  lemma FlatOne(calls: seq<Call>, k: Call)
    ensures Flat(calls + [k]) == Flat(calls) + CallEvents(k)
  {
    FlatAppend(calls, [k]);
    EmptyIsUnit(CallEvents(k));
    assert Flat([k]) == CallEvents(k) + Flat([]);
  }

  lemma SendOrder(s: Sys)
    requires SmoothOk(s) && s.pc.Sending?
    ensures SmoothOk(SendEffect(s))
  {
    hide WellPaired, InOrder, ToCome, Flat, ControlEvents;
    var s' := SendEffect(s);
    SameHeld(s.q, s'.q);
    var f, k, t := Frames(s.pc.batch), ControlEvents(s.pc.control), ToCome(s.q);
    assert (f + k) + t == f + (k + t);
    EmptyIsUnit(Flat(s.q.calls));
    if s.pc.batch != [] {
      FlatOne(s.q.calls, Deliver(s.pc.batch, s.epoch, !s.pc.control.NoControl?));
    }
    OrderMoved(s, s', f);
  }

  lemma AfterOrder(c: Config, s: Sys)
    requires SmoothOk(s) && s.pc.AfterBatch?
    ensures SmoothOk(ApplyWorker(c, s, WorkerAfter))
  {
    hide WellPaired, InOrder, ToCome, Flat;
    var s' := ApplyWorker(c, s, WorkerAfter);
    SameHeld(s.q, s'.q);
    EmptyIsUnit(ToCome(s.q));
    EmptyIsUnit(Flat(s.q.calls));
    FlatOne(s.q.calls, DeliverEos);
    if s.pc.control.NewSegment? {
      FlatOne(s.q.calls, DeliverSegment(s.pc.control.seg));
    }
    OrderMoved(s, s', ControlEvents(s.pc.control));
  }

  lemma OtherWorkOrder(c: Config, s: Sys, w: WorkerStep)
    requires SmoothOk(s) && WorkerEnabled(s, w) && (w.WorkerWake? || w == WorkerReturn(S_OK))
    ensures SmoothOk(ApplyWorker(c, s, w))
  {
  }

  lemma {:induction false} SmoothStep(c: Config, s: Sys, step: Step)
    requires GoodConfig(c) && |s.q.batch| < c.batchSize
    requires SmoothOk(s) && Enabled(c, s, step) && Smooth(step)
    ensures SmoothOk(Apply(c, s, step))
  {
    hide SmoothOk, ApplyControl, ApplyFlush, ReceiveRegion, TerminateRegion, Scan, SendEffect, Release, ControlEffect, WellPaired;
    match step
    case Receive(xs) => ReceiveOrder(c, s, xs);
    case Ask(a) => ControlOrder(s, a);
    case Work(w) =>
      match w {
        case WorkerScan => ScanOrder(c, s);
        case WorkerSend => SendOrder(s);
        case WorkerAfter => AfterOrder(c, s);
        case _ => OtherWorkOrder(c, s, w);
      }
  }

  // ---- Runs ----

  ghost predicate Possible(c: Config, s: Sys, steps: seq<Step>)
    decreases |steps|
  {
    steps != [] ==> Enabled(c, s, steps[0]) && Possible(c, Apply(c, s, steps[0]), steps[1..])
  }

  ghost function Exec(c: Config, s: Sys, steps: seq<Step>): Sys
    requires Possible(c, s, steps)
    decreases |steps|
  {
    if steps == [] then s else Exec(c, Apply(c, s, steps[0]), steps[1..])
  }

  /** These steps are possible from s and lead to r. */
  ghost predicate Leads(c: Config, s: Sys, steps: seq<Step>, r: Sys) { Possible(c, s, steps) && Exec(c, s, steps) == r }

  lemma LeadsNowhere(c: Config, s: Sys)
    ensures Leads(c, s, [], s)
  {
  }

  lemma Then(c: Config, s: Sys, step: Step, s': Sys, rest: seq<Step>, r: Sys)
    requires Enabled(c, s, step) && Apply(c, s, step) == s' && Leads(c, s', rest, r)
    ensures Leads(c, s, [step] + rest, r)
  {
    assert ([step] + rest)[1..] == rest;
  }

  lemma LeadsReachable(c: Config, steps: seq<Step>, s: Sys)
    requires Leads(c, START, steps, s)
    ensures Reachable(c, s)
  {
  }

  ghost predicate AllOk(c: Config, s: Sys) {
    Conserved(s) && PairedOk(s) && WakeupsOk(c, s) && FlushOk(c, s)
  }

  lemma AllOkStep(c: Config, s: Sys, step: Step)
    requires GoodConfig(c) && AllOk(c, s) && Enabled(c, s, step)
    ensures AllOk(c, Apply(c, s, step))
  {
    hide Conserved, FlushOk, Apply, PcOk, CallsOk, WellPaired;
    ConservedStep(c, s, step);
    WakeupsStep(c, s, step);
    FlushOkStep(c, s, step);
  }

  lemma StartOk(c: Config)
    requires GoodConfig(c)
    ensures AllOk(c, START) && SmoothOk(START)
  {
  }

  lemma {:induction false} RunOk(c: Config, s: Sys, steps: seq<Step>)
    requires GoodConfig(c) && AllOk(c, s) && Possible(c, s, steps)
    ensures AllOk(c, Exec(c, s, steps))
    decreases |steps|
  {
    hide AllOk, Apply;
    if steps == [] {
    } else {
      AllOkStep(c, s, steps[0]);
      RunOk(c, Apply(c, s, steps[0]), steps[1..]);
    }
  }

  lemma {:induction false} SmoothRunOk(c: Config, s: Sys, steps: seq<Step>)
    requires GoodConfig(c) && AllOk(c, s) && SmoothOk(s) && Possible(c, s, steps)
    requires forall i :: 0 <= i < |steps| ==> Smooth(steps[i])
    ensures AllOk(c, Exec(c, s, steps)) && SmoothOk(Exec(c, s, steps))
    decreases |steps|
  {
    hide Apply, SmoothOk, Conserved, FlushOk, PcOk, CallsOk, WellPaired;
    if steps == [] {
    } else {
      AllOkStep(c, s, steps[0]);
      SmoothStep(c, s, steps[0]);
      SmoothRunOk(c, Apply(c, s, steps[0]), steps[1..]);
    }
  }

  ghost predicate Reachable(c: Config, s: Sys) {
    exists steps :: Possible(c, START, steps) && Exec(c, START, steps) == s
  }

  lemma {:induction false} ReachableOk(c: Config, s: Sys)
    requires GoodConfig(c) && Reachable(c, s)
    ensures AllOk(c, s)
  {
    hide AllOk;
    var steps :| Possible(c, START, steps) && Exec(c, START, steps) == s;
    StartOk(c);
    RunOk(c, START, steps);
  }

  /**
   * Queued delivery refines direct delivery: with no flush and downstream returning S_OK, what
   * has been sent followed by what is in flight, batched and listed is exactly what was
   * accepted, with EndOfStream and NewSegment in their places.
   */
  lemma {:induction false} DeliveredInOrder(c: Config, steps: seq<Step>)
    requires GoodConfig(c) && Possible(c, START, steps)
    requires forall i :: 0 <= i < |steps| ==> Smooth(steps[i])
    ensures var s := Exec(c, START, steps);
      && Flat(s.q.calls) <= s.accepted
      && Flat(s.q.calls) + PcEvents(s.pc) + Frames(s.q.batch) + Decode(s.q.list) == s.accepted
  {
    hide WellPaired, Flat, PcEvents, Frames, Decode, AllOk;
    StartOk(c);
    SmoothRunOk(c, START, steps);
    var s := Exec(c, START, steps);
    FourParts(Flat(s.q.calls), PcEvents(s.pc), Frames(s.q.batch), Decode(s.q.list));
  }

  lemma FourParts<T>(a: seq<T>, b: seq<T>, c: seq<T>, d: seq<T>)
    ensures a + (b + (c + d)) == a + b + c + d && a <= a + (b + (c + d))
  {
  }

  /** When the worker sleeps on a queue that is not exact, everything accepted has been delivered. */
  lemma {:induction false} SleepsOnlyWhenDone(c: Config, steps: seq<Step>)
    requires GoodConfig(c) && Possible(c, START, steps) && !c.exact
    requires forall i :: 0 <= i < |steps| ==> Smooth(steps[i])
    requires Exec(c, START, steps).pc.Blocked? && Exec(c, START, steps).q.sem == 0
    ensures Flat(Exec(c, START, steps).q.calls) == Exec(c, START, steps).accepted
  {
    DeliveredInOrder(c, steps);
    StartOk(c);
    SmoothRunOk(c, START, steps);
    var s := Exec(c, START, steps);
    hide Flat, Conserved, FlushOk, WellPaired, CallsOk, SmoothOk;
    EmptyIsUnit(Flat(s.q.calls));
  }

  /** Every batch sent has between 1 and m_lBatchSize samples, and in exact mode is full unless a control packet forced it. */
  lemma {:induction false} BatchSizes(c: Config, s: Sys, i: nat)
    requires GoodConfig(c) && Reachable(c, s)
    requires i < |s.q.calls| && s.q.calls[i].Deliver?
    ensures 1 <= |s.q.calls[i].batch| <= c.batchSize
    ensures c.exact && !s.q.calls[i].forced ==> |s.q.calls[i].batch| == c.batchSize
  {
    hide Conserved, FlushOk, WellPaired;
    ReachableOk(c, s);
  }

  /**
   * No lost wake-up: a worker blocked with nothing on the semaphore has no control packet and no
   * request to terminate waiting for it, and no more samples than may stay batched.
   */
  lemma {:induction false} NoLostWakeup(c: Config, s: Sys)
    requires GoodConfig(c) && Reachable(c, s) && s.pc.Blocked? && s.q.sem == 0
    ensures !s.q.terminate && forall i :: i in s.q.list ==> !IsControl(i)
    ensures !c.exact ==> s.q.list == [] && s.q.batch == []
    ensures c.exact ==> |s.q.batch| + |s.q.list| < c.batchSize
    ensures s.q.waiting == 1
  {
    hide Conserved, FlushOk, WellPaired, CallsOk;
    ReachableOk(c, s);
  }

  /**
   * What wakes a sleeping worker: samples, when they are accepted and in exact mode fill a batch
   * with what waits already; and a flush, when it is not one the optimisation makes short.
   */
  lemma {:induction false} WakesIff(c: Config, s: Sys, step: Step)
    requires GoodConfig(c) && Reachable(c, s) && s.pc.Blocked? && s.q.sem == 0 && Enabled(c, s, step)
    ensures var woken := Apply(c, s, step).q.sem > 0;
      && (step.Receive? ==>
            var filled := |s.q.batch| + |s.q.list| + |step.xs| >= c.batchSize;
            (woken <==> s.q.hr == S_OK && (c.exact ==> filled)))
      && (step == Flushing(BeginFlush) ==> (woken <==> !Quick(c, s.q)))
      && (step == Flushing(BeginFlush) ==> Apply(c, s, step).q.evFlush == (Quick(c, s.q) && s.q.evFlush))
  {
    hide Conserved, FlushOk, WellPaired, CallsOk, Frames, Reachable, ApplyControl, ApplyWorker;
    ReachableOk(c, s);
  }

  /**
   * Conservation in every reachable state, whatever downstream returns and however flushes fall:
   * each sample handed in is released, listed, batched or in flight, in one place, once; and
   * once the worker has exited, all of them have been released.
   */
  lemma {:induction false} SamplesConserved(c: Config, s: Sys)
    requires GoodConfig(c) && Reachable(c, s)
    ensures s.handed == s.q.released + SamplesIn(s.q.list) + multiset(s.q.batch) + multiset(Inflight(s.pc))
    ensures WellPaired(s.q.list)
    ensures s.pc.Exited? ==> s.handed == s.q.released
  {
    hide FlushOk, WellPaired, CallsOk;
    ReachableOk(c, s);
  }

  /** No sample accepted before a flush began is delivered after EndFlush returned. */
  lemma {:induction false} NothingCrossesAFlush(c: Config, s: Sys, i: nat, x: Sample)
    requires GoodConfig(c) && Reachable(c, s)
    requires i < |s.q.calls| && s.q.calls[i].Deliver? && x in s.q.calls[i].batch
    ensures x.epoch == s.q.calls[i].epoch
  {
    hide Conserved, WakeupsOk, WellPaired;
    ReachableOk(c, s);
  }

  /** When EndFlush returns, no sample is left anywhere in the queue. */
  lemma {:induction false} FlushEmpties(c: Config, s: Sys, f: FlushStep)
    requires GoodConfig(c) && Reachable(c, s)
    requires Enabled(c, s, Flushing(f)) && (f.EndFlushQuick? || f.EndFlushDone?)
    ensures Empty(Apply(c, s, Flushing(f)))
  {
    hide Conserved, WakeupsOk, WellPaired, Empty, Current, CallsInEpoch;
    ReachableOk(c, s);
    SamePipe(s, Apply(c, s, Flushing(f)));
  }

  // ---- Shutting down ----

  /** How many worker steps are left once termination is requested. */
  function StepsToExit(pc: Pc): nat {
    match pc
    case Exited => 0
    case AtLock => 1
    case AfterBatch(_) => 2
    case Blocked => 2
    case InReceive(_, _) => 3
    case Sending(_, _) => 4
  }

  /** The step the worker takes next; downstream may answer anything. */
  function NextWork(pc: Pc, hr: int): WorkerStep {
    match pc
    case Sending(_, _) => WorkerSend
    case InReceive(_, _) => WorkerReturn(hr)
    case AfterBatch(_) => WorkerAfter
    case Blocked => WorkerWake
    case _ => WorkerScan
  }

  /** After the destructor's request the worker is never stuck and reaches its exit within four steps. */
  lemma {:induction false} WorkerExits(c: Config, s: Sys, hr: int)
    requires GoodConfig(c) && Reachable(c, s) && s.q.terminate && !s.pc.Exited?
    ensures Enabled(c, s, Work(NextWork(s.pc, hr)))
    ensures StepsToExit(Apply(c, s, Work(NextWork(s.pc, hr))).pc) < StepsToExit(s.pc)
  {
    hide WakeupsOk, PairedOk, Conserved, FlushOk, Apply, NextWork, StepsToExit, WorkerEnabled, Exec, Possible, Reachable;
    ReachableOk(c, s);
    NextWorkEnabled(c, s, hr);
    NextWorkDescends(c, s, hr);
  }

  lemma ExitStep(c: Config, s: Sys, step: Step)
    requires PairedOk(s) && s.q.terminate && Enabled(c, s, step)
    ensures var r := Apply(c, s, step); step.Work? && r.q.terminate && StepsToExit(r.pc) < StepsToExit(s.pc)
  {
    hide Release, ControlEffect, SendEffect, WellPaired;
    var w := step.work;
    NextWorkDescends(c, s, if w.WorkerReturn? then w.hr else S_OK);
    WorkLeavesRequest(c, s, w);
  }

  lemma WorkLeavesRequest(c: Config, s: Sys, w: WorkerStep)
    requires WorkerEnabled(s, w) && s.q.terminate
    ensures ApplyWorker(c, s, w).q.terminate
  {
    hide WellPaired;
  }

  lemma {:induction false} ExitRun(c: Config, s: Sys, steps: seq<Step>)
    requires GoodConfig(c) && AllOk(c, s) && s.q.terminate && Possible(c, s, steps)
    ensures var e := Exec(c, s, steps); e.q.terminate && |steps| + StepsToExit(e.pc) <= StepsToExit(s.pc)
    decreases |steps|
  {
    hide Apply, Enabled, Conserved, FlushOk, WakeupsOk, StepsToExit;
    if steps == [] {
    } else {
      AllOkStep(c, s, steps[0]);
      ExitStep(c, s, steps[0]);
      ExitRun(c, Apply(c, s, steps[0]), steps[1..]);
    }
  }

  /**
   * The destructor's request, made in any state: at most four steps follow, all of them the
   * worker's, and until it has exited it has one to take; every sample has been released then.
   */
  lemma {:induction false} DestructorEnds(c: Config, s: Sys, steps: seq<Step>, hr: int)
    requires GoodConfig(c) && Reachable(c, s) && Enabled(c, s, Terminate)
    requires Possible(c, Apply(c, s, Terminate), steps)
    ensures var e := Exec(c, Apply(c, s, Terminate), steps);
      && |steps| + StepsToExit(e.pc) <= StepsToExit(s.pc) <= 4
      && (if e.pc.Exited? then e.handed == e.q.released else Enabled(c, e, Work(NextWork(e.pc, hr))))
  {
    hide Conserved, FlushOk, WakeupsOk, StepsToExit, Reachable, Exec, Possible, NextWork, PairedOk, WorkerEnabled;
    ReachableOk(c, s);
    AllOkStep(c, s, Terminate);
    ExitRun(c, Apply(c, s, Terminate), steps);
    RunOk(c, Apply(c, s, Terminate), steps);
    var e := Exec(c, Apply(c, s, Terminate), steps);
    FourAtMost(s.pc);
    if e.pc.Exited? {
      AllReleased(c, e);
    } else {
      NextWorkEnabled(c, e, hr);
    }
  }

  lemma FourAtMost(pc: Pc)
    ensures StepsToExit(pc) <= 4
  {
  }

  lemma AllReleased(c: Config, s: Sys)
    requires AllOk(c, s) && s.pc.Exited?
    ensures s.handed == s.q.released
  {
    hide FlushOk, WellPaired, CallsOk;
  }

  lemma NextWorkEnabled(c: Config, s: Sys, hr: int)
    requires WakeupsOk(c, s) && s.q.terminate && !s.pc.Exited?
    ensures Enabled(c, s, Work(NextWork(s.pc, hr)))
  {
  }

  lemma NextWorkDescends(c: Config, s: Sys, hr: int)
    requires PairedOk(s) && s.q.terminate && !s.pc.Exited?
    requires WorkerEnabled(s, NextWork(s.pc, hr))
    ensures StepsToExit(Apply(c, s, Work(NextWork(s.pc, hr))).pc) < StepsToExit(s.pc)
  {
  }
}
