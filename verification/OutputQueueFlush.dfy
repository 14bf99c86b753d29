/**
 * Flushing: no sample accepted before a flush is delivered after it. Samples
 * carry the number of flushes completed when they were handed in.
 */
module OutputQueueFlush {
  import opened OutputQueueTypes
  import opened OutputQueueProtocol

  /** The samples accepted and not yet disposed of. */
  ghost function Pipe(s: Sys): multiset<Sample> {
    SamplesIn(s.q.list) + multiset(s.q.batch) + multiset(Inflight(s.pc))
  }

  ghost predicate Empty(s: Sys) { Pipe(s) == multiset{} }

  /** Nothing in the pipe is older than the last completed flush. */
  ghost predicate Current(s: Sys) { forall x :: x in Pipe(s) ==> x.epoch == s.epoch }

  /** Every batch went downstream in the epoch of each of its samples. */
  ghost predicate CallsInEpoch(calls: seq<Call>) {
    forall i, x :: 0 <= i < |calls| && calls[i].Deliver? && x in calls[i].batch ==> x.epoch == calls[i].epoch
  }

  ghost predicate FlushOk(c: Config, s: Sys) {
    && (s.q.flushed ==> Empty(s))
    && (s.flush.Begun? && !Quick(c, s.q) && s.q.evFlush ==> Empty(s))
    && (s.flush.Waited? || s.flush.Flagged? ==> Empty(s))
    && (s.q.flushing <==> s.flush.Begun? || s.flush.Waited?)
    && (!s.flush.NoFlush? ==> s.q.hr != S_OK && !ResetPending(s))
    && Current(s) && CallsInEpoch(s.q.calls)
  }

  // ---- What each step does to the pipe ----

  /** The pipe has not grown: what was empty or current still is. */
  ghost predicate NotGrown(s: Sys, s': Sys) {
    && (Empty(s) ==> Empty(s'))
    && (Current(s) && s'.epoch == s.epoch ==> Current(s'))
    && (Empty(s') ==> Current(s'))
  }

  lemma ShrunkPipe(s: Sys, s': Sys)
    requires Pipe(s') <= Pipe(s)
    ensures NotGrown(s, s')
  {
  }

  lemma SamePipe(s: Sys, s': Sys)
    requires s'.q.list == s.q.list && s'.q.batch == s.q.batch && Inflight(s'.pc) == Inflight(s.pc)
    ensures NotGrown(s, s')
  {
  }

  lemma AppendedPipe(s: Sys, s': Sys, more: seq<Item>)
    requires s'.q.list == s.q.list + more && s'.q.batch == s.q.batch && Inflight(s'.pc) == Inflight(s.pc)
    ensures Pipe(s') == Pipe(s) + SamplesIn(more)
  {
    hide SamplesIn;
    SamplesInAppend(s.q.list, more);
  }

  lemma ReceivePipe(c: Config, s: Sys, xs: seq<Sample>)
    requires Enabled(c, s, Receive(xs))
    ensures Current(s) ==> Current(Apply(c, s, Receive(xs)))
    ensures s.q.hr != S_OK ==> NotGrown(s, Apply(c, s, Receive(xs)))
  {
    hide SamplesIn, Wrap, Frames, Pipe;
    var s' := Apply(c, s, Receive(xs));
    if s.q.hr == S_OK {
      WrapMeans(xs);
      AppendedPipe(s, s', Wrap(xs));
    } else {
      SamePipe(s, s');
    }
  }

  lemma ControlPipe(s: Sys, a: ControlStep)
    requires ControlEnabled(s, a)
    ensures NotGrown(s, ApplyControl(s, a))
  {
    hide ApplyControl, SamplesIn, Queued, Pipe, NotGrown;
    ControlAppends(s, a);
    QueuedMeans(s.q, a);
    AppendedPipe(s, ApplyControl(s, a), Queued(s.q, a));
    ShrunkPipe(s, ApplyControl(s, a));
  }

  lemma CancelReleased<T>(released: multiset<T>, a: multiset<T>, b: multiset<T>, t: multiset<T>, a': multiset<T>, b': multiset<T>)
    requires released + a + b + t == released + a' + b'
    ensures a + b + t == a' + b'
  {
    assert a + b + t == (released + a + b + t) - released;
    assert a' + b' == (released + a' + b') - released;
  }

  lemma ScanKeepsPipe(c: Config, s: Sys)
    requires GoodConfig(c) && WellPaired(s.q.list) && |s.q.batch| < c.batchSize && s.pc.AtLock?
    requires !s.q.flushing && !s.q.terminate
    ensures Pipe(ApplyWorker(c, s, WorkerScan)) == Pipe(s)
  {
    hide Scan, WellPaired, SamplesIn;
    ScanConserves(c, s.q);
    ScanShape(c, s.q);
    var (r, o) := Scan(c, s.q);
    CancelReleased(s.q.released, SamplesIn(r.list), multiset(r.batch), Taken(o), SamplesIn(s.q.list), multiset(s.q.batch));
  }

  lemma ScanPipe(c: Config, s: Sys)
    requires GoodConfig(c) && WellPaired(s.q.list) && |s.q.batch| < c.batchSize && s.pc.AtLock?
    ensures NotGrown(s, ApplyWorker(c, s, WorkerScan))
    ensures s.q.flushing || s.q.terminate ==> Empty(ApplyWorker(c, s, WorkerScan))
  {
    hide Scan, WellPaired, NotGrown, Pipe, Empty;
    var s' := ApplyWorker(c, s, WorkerScan);
    if s.q.flushing || s.q.terminate {
      ScanShape(c, s.q);
      NoneLeft(s');
      EmptyNotGrown(s, s');
    } else {
      ScanKeepsPipe(c, s);
      ShrunkPipe(s, s');
    }
  }

  lemma NoneLeft(s: Sys)
    requires s.q.list == [] && s.q.batch == [] && Inflight(s.pc) == []
    ensures Empty(s)
  {
  }

  lemma EmptyNotGrown(s: Sys, s': Sys)
    requires Empty(s')
    ensures NotGrown(s, s')
  {
  }

  lemma DisposedPipe(s: Sys, s': Sys)
    requires s'.q.list == s.q.list && s'.q.batch == s.q.batch && Inflight(s'.pc) == []
    ensures NotGrown(s, s')
  {
  }

  // ---- Keeping the invariants ----

  lemma ReceiveFlush(c: Config, s: Sys, xs: seq<Sample>)
    requires FlushOk(c, s) && Enabled(c, s, Receive(xs))
    ensures FlushOk(c, Apply(c, s, Receive(xs)))
  {
    hide Empty, Current, Frames, CallsInEpoch, Wrap;
    ReceivePipe(c, s, xs);
  }

  lemma ControlFlush(c: Config, s: Sys, a: ControlStep)
    requires FlushOk(c, s) && ControlEnabled(s, a)
    ensures FlushOk(c, ApplyControl(s, a))
  {
    hide Empty, Current, CallsInEpoch, ApplyControl;
    ControlPipe(s, a);
    ControlAppends(s, a);
    assert !a.ResetQueue? ==> ResetPacket !in Queued(s.q, a);
  }

  lemma FlushFlush(c: Config, s: Sys, f: FlushStep)
    requires FlushOk(c, s) && FlushEnabled(c, s, f)
    ensures FlushOk(c, ApplyFlush(c, s, f))
  {
    hide Empty, Current, CallsInEpoch;
    SamePipe(s, ApplyFlush(c, s, f));
  }

  lemma TerminateFlush(c: Config, s: Sys)
    requires FlushOk(c, s) && Enabled(c, s, Terminate)
    ensures FlushOk(c, Apply(c, s, Terminate))
  {
    hide Empty, Current, CallsInEpoch;
    SamePipe(s, Apply(c, s, Terminate));
  }

  lemma ScanFlush(c: Config, s: Sys)
    requires GoodConfig(c) && WellPaired(s.q.list) && |s.q.batch| < c.batchSize
    requires FlushOk(c, s) && s.pc.AtLock?
    ensures FlushOk(c, ApplyWorker(c, s, WorkerScan))
  {
    hide Empty, Current, CallsInEpoch, WellPaired, Scan;
    ScanPipe(c, s);
    ScanShape(c, s.q);
    ScanLeaves(c, s.q);
  }

  lemma BatchCurrent(s: Sys)
    requires Current(s)
    ensures forall x :: x in Inflight(s.pc) ==> x.epoch == s.epoch
  {
  }

  lemma CallsAppendEpoch(calls: seq<Call>, k: Call)
    requires CallsInEpoch(calls)
    requires k.Deliver? ==> forall x :: x in k.batch ==> x.epoch == k.epoch
    ensures CallsInEpoch(calls + [k])
  {
  }

  lemma SendFlush(c: Config, s: Sys)
    requires FlushOk(c, s) && s.pc.Sending?
    ensures FlushOk(c, SendEffect(s))
  {
    hide Empty, Current, CallsInEpoch, Release;
    BatchCurrent(s);
    ReleaseKeeps(s.q, s.pc.batch);
    CallsAppendEpoch(s.q.calls, Deliver(s.pc.batch, s.epoch, !s.pc.control.NoControl?));
    if SendEffect(s).pc.InReceive? {
      SamePipe(s, SendEffect(s));
    } else {
      DisposedPipe(s, SendEffect(s));
    }
  }

  lemma AfterFlush(c: Config, s: Sys, w: WorkerStep)
    requires FlushOk(c, s) && WorkerEnabled(s, w) && !w.WorkerScan? && !w.WorkerSend?
    ensures FlushOk(c, ApplyWorker(c, s, w))
  {
    hide Empty, Current, CallsInEpoch, Release, Scan, SendEffect;
    AfterKeepsQueue(c, s, w);
    DisposedPipe(s, ApplyWorker(c, s, w));
    CallsAppendEpoch(s.q.calls, DeliverEos);
    if s.pc.AfterBatch? && s.pc.control.NewSegment? {
      CallsAppendEpoch(s.q.calls, DeliverSegment(s.pc.control.seg));
    }
  }

  lemma AfterKeepsQueue(c: Config, s: Sys, w: WorkerStep)
    requires WorkerEnabled(s, w) && !w.WorkerScan? && !w.WorkerSend?
    ensures var s' := ApplyWorker(c, s, w);
      && s'.q.list == s.q.list && s'.q.batch == s.q.batch && Inflight(s'.pc) == [] && s'.epoch == s.epoch
      && s'.q.flushing == s.q.flushing && s'.q.flushed == s.q.flushed && s'.flush == s.flush
      && (w.WorkerReturn? ==> s'.q.calls == s.q.calls && s'.q.evFlush == s.q.evFlush && (s.q.hr != S_OK ==> s'.q.hr == s.q.hr))
  {
    hide Scan, SendEffect, Release, ControlEffect;
    match w
    case WorkerReturn(hr) => ReleaseKeeps(s.q.(hr := if s.q.hr == S_OK then hr else s.q.hr), s.pc.batch);
    case WorkerAfter => ActionLeaves(s.q, s.pc.control);
    case WorkerWake =>
  }

  /** What the control action after a batch leaves as it was. */
  lemma ActionLeaves(q: QState, k: Control)
    ensures var r := ControlEffect(q, k);
      && r.list == q.list && r.batch == q.batch && r.flushing == q.flushing && r.flushed == q.flushed
      && r.terminate == q.terminate && r.evFlush == (q.evFlush || k.Reset?)
  {
  }

  lemma WorkerFlush(c: Config, s: Sys, w: WorkerStep)
    requires GoodConfig(c) && WellPaired(s.q.list) && |s.q.batch| < c.batchSize
    requires FlushOk(c, s) && WorkerEnabled(s, w)
    ensures FlushOk(c, ApplyWorker(c, s, w))
  {
    hide FlushOk, Scan, WellPaired, SendEffect, Release, ControlEffect;
    if w.WorkerScan? {
      ScanFlush(c, s);
    } else if w.WorkerSend? {
      SendFlush(c, s);
    } else {
      AfterFlush(c, s, w);
    }
  }

  lemma FlushOkStep(c: Config, s: Sys, step: Step)
    requires GoodConfig(c) && WellPaired(s.q.list) && |s.q.batch| < c.batchSize
    requires FlushOk(c, s) && Enabled(c, s, step)
    ensures FlushOk(c, Apply(c, s, step))
  {
    hide FlushOk, WellPaired, ApplyControl, ApplyWorker, ApplyFlush, ReceiveRegion, TerminateRegion;
    match step
    case Receive(xs) => ReceiveFlush(c, s, xs);
    case Ask(a) => ControlFlush(c, s, a);
    case Flushing(f) => FlushFlush(c, s, f);
    case Terminate => TerminateFlush(c, s);
    case Work(w) => WorkerFlush(c, s, w);
  }
}
