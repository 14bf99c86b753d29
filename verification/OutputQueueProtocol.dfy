/**
 * A queued COutputQueue with its worker thread: the client regions and the
 * worker's steps in any order, with any replies from the downstream pin.
 */
module OutputQueueProtocol {
  import opened Sequences
  import opened OutputQueueTypes

  /** Where the worker is. InReceive means the downstream ReceiveMultiple is running, outside the lock. */
  datatype Pc =
    | AtLock
    | Blocked
    | Sending(batch: seq<Sample>, control: Control)
    | InReceive(batch: seq<Sample>, control: Control)
    | AfterBatch(control: Control)
    | Exited

  /** How far a flush has got: BeginFlush returned; EndFlush's wait returned; EndFlush reset the flags. */
  datatype Flush = NoFlush | Begun | Waited | Flagged

  datatype Sys = Sys(
    q: QState,
    pc: Pc,
    flush: Flush,
    resetting: bool,             // a Reset() call waits for its packet
    tested: multiset<Segment>,   // NewSegment calls that saw S_OK and have yet to take the lock
    epoch: nat,                  // flushes completed
    handed: multiset<Sample>,    // every sample ever handed in
    accepted: seq<Event>         // what clients asked to be delivered, in order
  )

  const START := Sys(INITIAL_STATE, AtLock, NoFlush, false, multiset{}, 0, multiset{}, [])

  /** Clients that only put a packet on the list, or wait for one. */
  datatype ControlStep = SendAnyway | EndOfStream | TestSegment(seg: Segment) | QueueSegment(seg: Segment) | ResetQueue | ResetWait

  datatype FlushStep = BeginFlush | EndFlushQuick | EndFlushWait | EndFlushFlags | EndFlushDone

  datatype WorkerStep = WorkerScan | WorkerWake | WorkerSend | WorkerReturn(hr: int) | WorkerAfter

  datatype Step = Receive(xs: seq<Sample>) | Ask(control: ControlStep) | Flushing(flush: FlushStep) | Terminate | Work(work: WorkerStep)

  predicate ResetPending(s: Sys) {
    ResetPacket in s.q.list || (s.pc.Sending? && s.pc.control.Reset?) ||
    (s.pc.InReceive? && s.pc.control.Reset?) || (s.pc.AfterBatch? && s.pc.control.Reset?)
  }

  predicate Quick(c: Config, q: QState) { c.flushingOpt && q.flushed }

  /** Clients stop once the destructor runs; a Reset and a flush do not overlap. */
  predicate Enabled(c: Config, s: Sys, step: Step) {
    match step
    case Receive(xs) => !s.q.terminate && forall x :: x in xs ==> x.epoch == s.epoch
    case Ask(a) => !s.q.terminate && ControlEnabled(s, a)
    case Flushing(f) => !s.q.terminate && FlushEnabled(c, s, f)
    case Terminate => !s.q.terminate
    case Work(w) => WorkerEnabled(s, w)
  }

  predicate ControlEnabled(s: Sys, a: ControlStep) {
    match a
    case QueueSegment(seg) => seg in s.tested
    case ResetQueue => s.flush.NoFlush? && !s.resetting
    case ResetWait => s.resetting && s.q.evFlush
    case _ => true
  }

  predicate FlushEnabled(c: Config, s: Sys, f: FlushStep) {
    match f
    case BeginFlush => s.flush.NoFlush? && !s.resetting && !ResetPending(s)
    case EndFlushQuick => s.flush.Begun? && Quick(c, s.q)
    case EndFlushWait => s.flush.Begun? && !Quick(c, s.q) && s.q.evFlush
    case EndFlushFlags => s.flush.Waited?
    case EndFlushDone => s.flush.Flagged?
  }

  predicate WorkerEnabled(s: Sys, w: WorkerStep) {
    match w
    case WorkerScan => s.pc.AtLock? && WellPaired(s.q.list)
    case WorkerWake => s.pc.Blocked? && s.q.sem > 0
    case WorkerSend => s.pc.Sending?
    case WorkerReturn(_) => s.pc.InReceive?
    case WorkerAfter => s.pc.AfterBatch?
  }

  function Apply(c: Config, s: Sys, step: Step): Sys
    requires Enabled(c, s, step)
  {
    match step
    case Receive(xs) =>
      s.(q := ReceiveRegion(c, s.q, xs), handed := s.handed + multiset(xs),
         accepted := s.accepted + if s.q.hr == S_OK then Frames(xs) else [])
    case Ask(a) => ApplyControl(s, a)
    case Flushing(f) => ApplyFlush(c, s, f)
    case Terminate => s.(q := TerminateRegion(s.q))
    case Work(w) => ApplyWorker(c, s, w)
  }

  function ApplyControl(s: Sys, a: ControlStep): Sys
    requires ControlEnabled(s, a)
  {
    match a
    case SendAnyway => s.(q := SendAnywayRegion(s.q))
    case EndOfStream =>
      s.(q := EosRegion(s.q), accepted := s.accepted + if s.q.hr == S_OK then [End] else [])
    case TestSegment(seg) => if s.q.hr == S_OK then s.(tested := s.tested + multiset{seg}) else s
    case QueueSegment(seg) =>
      s.(q := NewSegmentRegion(s.q, seg), tested := s.tested - multiset{seg},
         accepted := s.accepted + [Segmented(seg)])
    case ResetQueue => s.(q := ResetRegion(s.q), resetting := true)
    case ResetWait => s.(q := s.q.(evFlush := false), resetting := false)
  }

  function ApplyFlush(c: Config, s: Sys, f: FlushStep): Sys {
    match f
    case BeginFlush => s.(q := BeginFlushRegion(c, s.q), flush := Begun)
    case EndFlushQuick => s.(q := s.q.(flushing := false, hr := S_OK), flush := NoFlush, epoch := s.epoch + 1)
    case EndFlushWait => s.(q := s.q.(evFlush := false), flush := Waited)
    case EndFlushFlags => s.(q := s.q.(flushing := false, flushed := true), flush := Flagged)
    case EndFlushDone => s.(q := s.q.(hr := S_OK), flush := NoFlush, epoch := s.epoch + 1)
  }

  function Release(q: QState, xs: seq<Sample>): QState { q.(released := q.released + multiset(xs)) }

  /** The control action after the batch has gone. */
  function ControlEffect(q: QState, k: Control): QState {
    match k
    case Eos => if q.hr == S_OK then q.(calls := q.calls + [DeliverEos]) else q
    case Reset => q.(hr := S_OK, evFlush := true)
    case NewSegment(seg) => q.(calls := q.calls + [DeliverSegment(seg)])
    case _ => q
  }

  function AfterScan(o: Outcome): Pc {
    match o
    case Exit => Exited
    case Wait => Blocked
    case Send(batch, k) => Sending(batch, k)
  }

  function SendEffect(s: Sys): Sys
    requires s.pc.Sending?
  {
    var batch, k := s.pc.batch, s.pc.control;
    if batch == [] then s.(pc := AfterBatch(k))
    else if s.q.hr == S_OK then
      s.(q := s.q.(calls := s.q.calls + [Deliver(batch, s.epoch, !k.NoControl?)]), pc := InReceive(batch, k))
    else s.(q := Release(s.q, batch), pc := AfterBatch(k))
  }

  function ApplyWorker(c: Config, s: Sys, w: WorkerStep): Sys
    requires WorkerEnabled(s, w)
  {
    match w
    case WorkerScan => var (r, o) := Scan(c, s.q); s.(q := r, pc := AfterScan(o))
    case WorkerWake => s.(q := s.q.(sem := s.q.sem - 1), pc := AtLock)
    case WorkerSend => SendEffect(s)
    case WorkerReturn(hr) =>
      s.(q := Release(s.q.(hr := if s.q.hr == S_OK then hr else s.q.hr), s.pc.batch), pc := AfterBatch(s.pc.control))
    case WorkerAfter => s.(q := ControlEffect(s.q, s.pc.control), pc := AtLock)
  }

  function Inflight(pc: Pc): seq<Sample> {
    match pc
    case Sending(batch, _) => batch
    case InReceive(batch, _) => batch
    case _ => []
  }

  // ---- Conservation ----

  /** Every sample handed in is released, on the list, in the batch, or in the worker's hands: one of them, once. */
  ghost predicate Conserved(s: Sys) {
    s.handed == Held(s.q) + multiset(Inflight(s.pc))
  }

  ghost predicate PairedOk(s: Sys) { WellPaired(s.q.list) }

  lemma AppendKeeps(q: QState, r: QState, more: seq<Item>)
    requires WellPaired(q.list) && WellPaired(more)
    requires r.list == q.list + more && r.batch == q.batch && r.released == q.released
    ensures WellPaired(r.list) && Held(r) == Held(q) + SamplesIn(more)
    ensures ToCome(r) == ToCome(q) + Decode(more)
  {
    hide WellPaired, SamplesIn, Decode, Frames;
    WellPairedAppend(q.list, more);
    SamplesInAppend(q.list, more);
    DecodeAppend(q.list, more);
    ConcatAssociates(Frames(q.batch), Decode(q.list), Decode(more));
  }

  lemma ReceiveConserves(c: Config, q: QState, xs: seq<Sample>)
    requires WellPaired(q.list)
    ensures var r := ReceiveRegion(c, q, xs);
      WellPaired(r.list) && Held(r) == Held(q) + multiset(xs) &&
      (q.hr == S_OK ==> ToCome(r) == ToCome(q) + Frames(xs))
  {
    WellPairedWrap(xs);
    WrapMeans(xs);
    hide WellPaired, SamplesIn, Decode, Frames, ToCome, Wrap;
    if q.hr == S_OK {
      AppendKeeps(q, ReceiveRegion(c, q, xs), Wrap(xs));
    }
  }

  /** The packets a client step puts on the list. */
  function Queued(q: QState, a: ControlStep): seq<Item> {
    match a
    case SendAnyway => [SendPacket]
    case EndOfStream => if q.hr == S_OK then [EosPacket] else []
    case QueueSegment(seg) => [NewSegmentPacket, Payload(seg)]
    case ResetQueue => [ResetPacket]
    case _ => []
  }

  lemma QueuedMeans(q: QState, a: ControlStep)
    ensures WellPaired(Queued(q, a)) && SamplesIn(Queued(q, a)) == multiset{}
    ensures Decode(Queued(q, a)) ==
            if a.EndOfStream? && q.hr == S_OK then [End] else if a.QueueSegment? then [Segmented(a.seg)] else []
  {
    if a.QueueSegment? {
      var list := [NewSegmentPacket, Payload(a.seg)];
      assert list[2..] == [] && WellPaired(list[2..]);
      ListHead(list);
    }
  }

  /** r is q with these items appended, the worker woken if there are any, and the two flags as given. */
  predicate Appended(q: QState, r: QState, items: seq<Item>, flushed: bool, evFlush: bool) {
    && r == q.(list := q.list + items, waiting := r.waiting, sem := r.sem, flushed := flushed, evFlush := evFlush)
    && r.waiting + r.sem == q.waiting + q.sem
    && (if items == [] then r.sem == q.sem else r.waiting == 0)
  }

  lemma EnqueueAppends(q: QState, items: seq<Item>, flushed: bool)
    requires items != []
    ensures Appended(q, Enqueue(q.(flushed := flushed), items), items, flushed, q.evFlush)
  {
  }

  lemma NothingAppends(q: QState, evFlush: bool)
    ensures Appended(q, q.(evFlush := evFlush), [], q.flushed, evFlush)
  {
    EmptyIsUnit(q.list);
  }

  lemma UnchangedAppends(q: QState)
    ensures Appended(q, q, [], q.flushed, q.evFlush)
  {
    EmptyIsUnit(q.list);
  }

  lemma ControlAppended(s: Sys, a: ControlStep)
    requires ControlEnabled(s, a)
    ensures Appended(s.q, ApplyControl(s, a).q, Queued(s.q, a),
                     if a.EndOfStream? && s.q.hr == S_OK then false else s.q.flushed,
                     if a.ResetWait? then false else s.q.evFlush)
  {
    hide Enqueue, Appended;
    UnchangedAppends(s.q);
    NothingAppends(s.q, false);
    assert s.q.(flushed := s.q.flushed) == s.q;
    EnqueueAppends(s.q, [EosPacket], false);
    match a
    case SendAnyway => EnqueueAppends(s.q, [SendPacket], s.q.flushed);
    case EndOfStream =>
    case TestSegment(_) =>
    case QueueSegment(seg) => EnqueueAppends(s.q, [NewSegmentPacket, Payload(seg)], s.q.flushed);
    case ResetQueue => EnqueueAppends(s.q, [ResetPacket], s.q.flushed);
    case ResetWait =>
  }

  lemma ControlLeaves(s: Sys, a: ControlStep)
    requires ControlEnabled(s, a)
    ensures var s' := ApplyControl(s, a);
      s'.pc == s.pc && s'.handed == s.handed && s'.flush == s.flush && s'.epoch == s.epoch
  {
    hide SendAnywayRegion, EosRegion, NewSegmentRegion, ResetRegion;
  }

  /**
   * A control request appends its packets, waking the worker if there are any, and changes
   * nothing else a sample could be in.
   */
  lemma ControlAppends(s: Sys, a: ControlStep)
    requires ControlEnabled(s, a)
    ensures var s' := ApplyControl(s, a);
      && s'.pc == s.pc && s'.handed == s.handed && s'.flush == s.flush && s'.epoch == s.epoch
      && s'.q == s.q.(list := s.q.list + Queued(s.q, a), waiting := s'.q.waiting, sem := s'.q.sem,
                      flushed := if a.EndOfStream? && s.q.hr == S_OK then false else s.q.flushed,
                      evFlush := if a.ResetWait? then false else s.q.evFlush)
      && s'.q.waiting + s'.q.sem == s.q.waiting + s.q.sem
      && (if Queued(s.q, a) == [] then s'.q.sem == s.q.sem else s'.q.waiting == 0)
  {
    hide ApplyControl, Queued;
    ControlAppended(s, a);
    ControlLeaves(s, a);
  }

  lemma ControlConserves(s: Sys, a: ControlStep)
    requires Conserved(s) && PairedOk(s) && ControlEnabled(s, a)
    ensures Conserved(ApplyControl(s, a)) && PairedOk(ApplyControl(s, a))
  {
    hide SamplesIn, WellPaired, Frames, Decode, ApplyControl, Queued;
    ControlAppends(s, a);
    QueuedMeans(s.q, a);
    AppendKeeps(s.q, ApplyControl(s, a).q, Queued(s.q, a));
  }

  lemma SameHeld(q: QState, r: QState)
    requires r.list == q.list && r.batch == q.batch && r.released == q.released
    ensures Held(r) == Held(q) && ToCome(r) == ToCome(q)
  {
  }

  lemma ReleaseHeld(q: QState, xs: seq<Sample>)
    ensures Held(Release(q, xs)) == Held(q) + multiset(xs)
    ensures ToCome(Release(q, xs)) == ToCome(q)
  {
  }

  lemma ScanConserved(c: Config, s: Sys)
    requires Conserved(s) && PairedOk(s) && GoodConfig(c) && |s.q.batch| < c.batchSize && s.pc.AtLock?
    ensures Conserved(ApplyWorker(c, s, WorkerScan)) && PairedOk(ApplyWorker(c, s, WorkerScan))
  {
    hide WellPaired, Scan, Held;
    ScanConserves(c, s.q);
    ScanShape(c, s.q);
  }

  lemma ReleaseKeeps(q: QState, xs: seq<Sample>)
    ensures Release(q, xs) == q.(released := Release(q, xs).released)
  {
  }

  lemma SendConserved(s: Sys)
    requires Conserved(s) && s.pc.Sending?
    ensures Conserved(SendEffect(s)) && SendEffect(s).q.list == s.q.list
  {
    hide Held, Release;
    ReleaseKeeps(s.q, s.pc.batch);
    ReleaseHeld(s.q, s.pc.batch);
    if s.pc.batch == [] || s.q.hr == S_OK {
      SameHeld(s.q, SendEffect(s).q);
    }
  }

  lemma ReturnConserved(c: Config, s: Sys, hr: int)
    requires Conserved(s) && s.pc.InReceive?
    ensures Conserved(ApplyWorker(c, s, WorkerReturn(hr)))
    ensures ApplyWorker(c, s, WorkerReturn(hr)).q.list == s.q.list
  {
    hide Held;
    var q := s.q.(hr := if s.q.hr == S_OK then hr else s.q.hr);
    SameHeld(s.q, q);
    ReleaseHeld(q, s.pc.batch);
  }

  lemma AfterConserved(c: Config, s: Sys)
    requires Conserved(s) && s.pc.AfterBatch?
    ensures Conserved(ApplyWorker(c, s, WorkerAfter)) && ApplyWorker(c, s, WorkerAfter).q.list == s.q.list
  {
    hide Held;
    SameHeld(s.q, ControlEffect(s.q, s.pc.control));
  }

  lemma WakeConserved(c: Config, s: Sys)
    requires Conserved(s) && s.pc.Blocked? && s.q.sem > 0
    ensures Conserved(ApplyWorker(c, s, WorkerWake)) && ApplyWorker(c, s, WorkerWake).q.list == s.q.list
  {
  }

  lemma WorkerConserves(c: Config, s: Sys, w: WorkerStep)
    requires Conserved(s) && PairedOk(s) && GoodConfig(c) && |s.q.batch| < c.batchSize
    requires WorkerEnabled(s, w)
    ensures Conserved(ApplyWorker(c, s, w)) && PairedOk(ApplyWorker(c, s, w))
  {
    hide Conserved, WellPaired, Scan, SendEffect, Release, ControlEffect;
    match w
    case WorkerScan => ScanConserved(c, s);
    case WorkerWake => WakeConserved(c, s);
    case WorkerSend => SendConserved(s);
    case WorkerReturn(hr) => ReturnConserved(c, s, hr);
    case WorkerAfter => AfterConserved(c, s);
  }

  lemma FlushConserves(c: Config, s: Sys, f: FlushStep)
    requires Conserved(s) && PairedOk(s)
    ensures Conserved(ApplyFlush(c, s, f)) && PairedOk(ApplyFlush(c, s, f))
  {
    hide Held, WellPaired;
    SameHeld(s.q, ApplyFlush(c, s, f).q);
  }

  lemma TerminateConserves(c: Config, s: Sys)
    requires Conserved(s) && PairedOk(s) && Enabled(c, s, Terminate)
    ensures Conserved(Apply(c, s, Terminate)) && PairedOk(Apply(c, s, Terminate))
  {
    hide Held, WellPaired;
    SameHeld(s.q, TerminateRegion(s.q));
  }

  lemma ReceiveStepConserves(c: Config, s: Sys, xs: seq<Sample>)
    requires Conserved(s) && PairedOk(s) && Enabled(c, s, Receive(xs))
    ensures Conserved(Apply(c, s, Receive(xs))) && PairedOk(Apply(c, s, Receive(xs)))
  {
    hide Held, WellPaired, Frames, ReceiveRegion;
    ReceiveConserves(c, s.q, xs);
  }

  lemma ConservedStep(c: Config, s: Sys, step: Step)
    requires Conserved(s) && PairedOk(s) && GoodConfig(c) && |s.q.batch| < c.batchSize
    requires Enabled(c, s, step)
    ensures Conserved(Apply(c, s, step)) && PairedOk(Apply(c, s, step))
  {
    hide Conserved, PairedOk, ApplyControl, ApplyWorker, ApplyFlush, ReceiveRegion, TerminateRegion;
    match step
    case Receive(xs) => ReceiveStepConserves(c, s, xs);
    case Ask(a) => ControlConserves(s, a);
    case Flushing(f) => FlushConserves(c, s, f);
    case Terminate => TerminateConserves(c, s);
    case Work(w) => WorkerConserves(c, s, w);
  }
}
