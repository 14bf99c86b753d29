/**
 * No lost wake-up, and the sizes of the batches: what holds of the semaphore,
 * the worker and the list in every state.
 */
module OutputQueueWakeups {
  import opened OutputQueueTypes
  import opened OutputQueueProtocol

  /** There is nothing for a sleeping worker to do. */
  ghost predicate Quiet(c: Config, q: QState) {
    && !q.terminate
    && (forall i :: i in q.list ==> i.Media?)
    && (if c.exact then |q.batch| + |q.list| < c.batchSize else q.list == [] && q.batch == [])
  }

  /** A batch is full unless it is not exact or a control packet cut it short; it is never empty. */
  ghost predicate SizeOk(c: Config, n: nat, forced: bool) {
    0 < n <= c.batchSize && (c.exact && !forced ==> n == c.batchSize)
  }

  ghost predicate PcOk(c: Config, q: QState, pc: Pc) {
    match pc
    case Sending(batch, k) => (batch == [] && !k.NoControl?) || SizeOk(c, |batch|, !k.NoControl?)
    case InReceive(batch, k) => SizeOk(c, |batch|, !k.NoControl?)
    case Blocked => q.sem == 0 ==> Quiet(c, q)
    case Exited => q.terminate && q.list == [] && q.batch == []
    case _ => true
  }

  ghost predicate CallsOk(c: Config, calls: seq<Call>) {
    forall i :: 0 <= i < |calls| && calls[i].Deliver? ==> SizeOk(c, |calls[i].batch|, calls[i].forced)
  }

  ghost predicate WakeupsOk(c: Config, s: Sys) {
    && s.q.waiting + s.q.sem == (if s.pc.Blocked? then 1 else 0)
    && WellPaired(s.q.list) && |s.q.batch| < c.batchSize
    && PcOk(c, s.q, s.pc)
    && CallsOk(c, s.q.calls)
  }

  lemma ReceivePairs(c: Config, q: QState, xs: seq<Sample>)
    requires WellPaired(q.list)
    ensures WellPaired(ReceiveRegion(c, q, xs).list)
  {
    ReceiveConserves(c, q, xs);
  }

  /** Either the worker has been woken, or what it waits for has still not come. */
  lemma ReceiveSignals(c: Config, q: QState, xs: seq<Sample>)
    requires GoodConfig(c) && q.waiting + q.sem == 1 && (q.sem == 0 ==> Quiet(c, q))
    ensures var r := ReceiveRegion(c, q, xs); r.waiting + r.sem == 1 && (r.sem == 0 ==> Quiet(c, r))
  {
  }

  lemma ReceiveWakes(c: Config, s: Sys, xs: seq<Sample>)
    requires GoodConfig(c) && WakeupsOk(c, s) && Enabled(c, s, Receive(xs))
    ensures WakeupsOk(c, Apply(c, s, Receive(xs)))
  {
    ReceivePairs(c, s.q, xs);
    if s.pc.Blocked? {
      ReceiveSignals(c, s.q, xs);
    }
    ReceiveLeaves(c, s.q, xs);
    hide WellPaired, Frames, Quiet, ReceiveRegion;
  }

  lemma ReceiveLeaves(c: Config, q: QState, xs: seq<Sample>)
    ensures var r := ReceiveRegion(c, q, xs);
      && r.batch == q.batch && r.calls == q.calls && r.terminate == q.terminate
      && r.waiting + r.sem == q.waiting + q.sem && (q.terminate && q.hr != S_OK ==> r.list == q.list)
  {
  }

  lemma ControlWakes(c: Config, s: Sys, a: ControlStep)
    requires GoodConfig(c) && WakeupsOk(c, s) && !s.q.terminate && ControlEnabled(s, a)
    ensures WakeupsOk(c, ApplyControl(s, a))
  {
    ControlPairs(s.q, a);
    ControlAppends(s, a);
    assert s.q.list + [] == s.q.list;
    hide WellPaired, CallsOk, SizeOk, ApplyControl, Queued;
  }

  lemma ControlPairs(q: QState, a: ControlStep)
    requires WellPaired(q.list)
    ensures WellPaired(q.list + Queued(q, a))
  {
    QueuedMeans(q, a);
    WellPairedAppend(q.list, Queued(q, a));
  }

  lemma FlushWakes(c: Config, s: Sys, f: FlushStep)
    requires GoodConfig(c) && WakeupsOk(c, s) && !s.q.terminate && FlushEnabled(c, s, f)
    ensures WakeupsOk(c, ApplyFlush(c, s, f))
  {
  }

  lemma TerminateWakes(c: Config, s: Sys)
    requires GoodConfig(c) && WakeupsOk(c, s) && Enabled(c, s, Terminate)
    ensures WakeupsOk(c, Apply(c, s, Terminate))
  {
  }

  lemma ScanWakes(c: Config, s: Sys)
    requires GoodConfig(c) && WakeupsOk(c, s) && s.pc.AtLock?
    ensures WakeupsOk(c, ApplyWorker(c, s, WorkerScan))
  {
    hide WellPaired, Scan;
    ScanShape(c, s.q);
  }

  lemma SendWakes(c: Config, s: Sys)
    requires GoodConfig(c) && WakeupsOk(c, s) && s.pc.Sending?
    ensures WakeupsOk(c, SendEffect(s))
  {
    hide WellPaired, CallsOk, SizeOk, Release, Quiet;
    CallsAppend(c, s.q.calls, Deliver(s.pc.batch, s.epoch, !s.pc.control.NoControl?));
    ReleaseKeeps(s.q, s.pc.batch);
  }

  lemma CallsAppend(c: Config, calls: seq<Call>, k: Call)
    requires CallsOk(c, calls)
    ensures (k.Deliver? ==> SizeOk(c, |k.batch|, k.forced)) ==> CallsOk(c, calls + [k])
  {
  }

  lemma AfterWakes(c: Config, s: Sys)
    requires GoodConfig(c) && WakeupsOk(c, s) && s.pc.AfterBatch?
    ensures WakeupsOk(c, ApplyWorker(c, s, WorkerAfter))
  {
    hide WellPaired, CallsOk, SizeOk, Quiet;
    CallsAppend(c, s.q.calls, DeliverEos);
    if s.pc.control.NewSegment? {
      CallsAppend(c, s.q.calls, DeliverSegment(s.pc.control.seg));
    }
  }

  lemma ReturnWakes(c: Config, s: Sys, hr: int)
    requires GoodConfig(c) && WakeupsOk(c, s) && s.pc.InReceive?
    ensures WakeupsOk(c, ApplyWorker(c, s, WorkerReturn(hr)))
  {
    hide WellPaired, CallsOk, SizeOk, Quiet, Release;
    ReleaseKeeps(s.q.(hr := if s.q.hr == S_OK then hr else s.q.hr), s.pc.batch);
  }

  lemma WakeWakes(c: Config, s: Sys)
    requires WakeupsOk(c, s) && s.pc.Blocked? && s.q.sem > 0
    ensures WakeupsOk(c, ApplyWorker(c, s, WorkerWake))
  {
    hide WellPaired, CallsOk, SizeOk;
  }

  lemma WorkerWakes(c: Config, s: Sys, w: WorkerStep)
    requires GoodConfig(c) && WakeupsOk(c, s) && WorkerEnabled(s, w)
    ensures WakeupsOk(c, ApplyWorker(c, s, w))
  {
    hide WakeupsOk, Scan, SendEffect, Release, ControlEffect, WellPaired;
    match w
    case WorkerScan => ScanWakes(c, s);
    case WorkerWake => WakeWakes(c, s);
    case WorkerSend => SendWakes(c, s);
    case WorkerReturn(hr) => ReturnWakes(c, s, hr);
    case WorkerAfter => AfterWakes(c, s);
  }

  lemma WakeupsStep(c: Config, s: Sys, step: Step)
    requires GoodConfig(c) && WakeupsOk(c, s) && Enabled(c, s, step)
    ensures WakeupsOk(c, Apply(c, s, step))
  {
    hide WakeupsOk, ApplyControl, ApplyWorker, ApplyFlush, ReceiveRegion, TerminateRegion;
    match step
    case Receive(xs) => ReceiveWakes(c, s, xs);
    case Ask(a) => ControlWakes(c, s, a);
    case Flushing(f) => FlushWakes(c, s, f);
    case Terminate => TerminateWakes(c, s);
    case Work(w) => WorkerWakes(c, s, w);
  }
}
