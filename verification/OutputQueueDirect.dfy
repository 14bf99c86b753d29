/**
 * COutputQueue without a thread: batches go straight downstream from the caller.
 * With a pin that returns S_OK it delivers what the queued form accepts, so the
 * queued form refines it.
 */
module OutputQueueDirect {
  import opened Sequences
  import opened OutputQueueTypes
  import opened OutputQueueProtocol
  import opened OutputQueueWakeups
  import opened OutputQueueFlush
  import opened OutputQueueOrder

  /** Downstream's answer to the n-th call: its result and how many samples it processed. */
  type Pin = nat -> (int, nat)

  /** Sends the batch, unless an error is already sticky, and releases it; `forced` says it was not full that made it go. */
  function SendBatch(q: QState, epoch: nat, pin: Pin, forced: bool): QState {
    var r := q.(batch := [], released := q.released + multiset(q.batch));
    if q.hr == S_OK then
      r.(calls := q.calls + [Deliver(q.batch, epoch, forced)], hr := pin(|q.calls|).0)
    else r
  }

  function Lost(q: QState, pin: Pin): int {
    |q.batch| - if q.hr == S_OK then pin(|q.calls|).1 else 0
  }

  /** The loop of ReceiveMultiple: one sample at a time, sending whenever the batch fills. Also how many were lost. */
  function Feed(c: Config, q: QState, xs: seq<Sample>, epoch: nat, pin: Pin): (QState, int)
    decreases |xs|
  {
    if xs == [] then (q, 0)
    else
      var t := q.(batch := q.batch + [xs[0]]);
      if |t.batch| == c.batchSize then
        var (r, lost) := Feed(c, SendBatch(t, epoch, pin, false), xs[1..], epoch, pin);
        (r, lost + Lost(t, pin))
      else Feed(c, t, xs[1..], epoch, pin)
  }

  function DirectReceive(c: Config, q: QState, xs: seq<Sample>, epoch: nat, pin: Pin): (QState, int) {
    if q.hr != S_OK then (q.(released := q.released + multiset(xs)), 0)
    else
      var (r, lost) := Feed(c, q.(flushed := false), xs, epoch, pin);
      (r, if lost > |xs| then 0 else |xs| - lost)
  }

  /** ReceiveMultiple(NULL, 0) with m_bSendAnyway set. */
  function DirectSendAnyway(c: Config, q: QState, epoch: nat, pin: Pin): QState {
    if q.hr != S_OK then q
    else if q.batch == [] then q.(flushed := false)
    else SendBatch(q.(flushed := false), epoch, pin, true)
  }

  function DirectEos(c: Config, q: QState, epoch: nat, pin: Pin): QState {
    var r := if c.exact then DirectSendAnyway(c, q, epoch, pin) else q;
    if r.hr == S_OK then r.(flushed := false, calls := r.calls + [DeliverEos]) else r
  }

  function DirectNewSegment(c: Config, q: QState, seg: Segment, epoch: nat, pin: Pin): QState {
    if q.hr != S_OK then q
    else
      var r := if c.exact then DirectSendAnyway(c, q, epoch, pin) else q;
      r.(calls := r.calls + [DeliverSegment(seg)])
  }

  // ---- Conservation ----

  /** The samples the direct form accounts for. */
  ghost function Kept(q: QState): multiset<Sample> { q.released + multiset(q.batch) }

  lemma SendBatchKeeps(q: QState, epoch: nat, pin: Pin, forced: bool)
    ensures Kept(SendBatch(q, epoch, pin, forced)) == Kept(q)
  {
  }

  lemma AddKeeps(q: QState, x: Sample)
    ensures Kept(q.(batch := q.batch + [x])) == Kept(q) + multiset{x}
  {
  }

  lemma FirstAndRest(xs: seq<Sample>, k: multiset<Sample>)
    requires xs != []
    ensures k + multiset{xs[0]} + multiset(xs[1..]) == k + multiset(xs)
  {
    assert xs == [xs[0]] + xs[1..];
  }

  /** Every sample handed in is released or still batched, whatever downstream answers. */
  lemma {:induction false} FeedConserves(c: Config, q: QState, xs: seq<Sample>, epoch: nat, pin: Pin)
    requires c.batchSize > 0 && |q.batch| < c.batchSize
    ensures Kept(Feed(c, q, xs, epoch, pin).0) == Kept(q) + multiset(xs)
    ensures |Feed(c, q, xs, epoch, pin).0.batch| < c.batchSize
    decreases |xs|
  {
    hide Kept, SendBatch, Lost;
    if xs == [] {
    } else {
      var t := q.(batch := q.batch + [xs[0]]);
      AddKeeps(q, xs[0]);
      SendBatchKeeps(t, epoch, pin, false);
      SendBatchEmpties(t, epoch, pin, false);
      FeedConserves(c, if |t.batch| == c.batchSize then SendBatch(t, epoch, pin, false) else t, xs[1..], epoch, pin);
      FirstAndRest(xs, Kept(q));
    }
  }

  lemma SendBatchEmpties(q: QState, epoch: nat, pin: Pin, forced: bool)
    ensures SendBatch(q, epoch, pin, forced).batch == []
  {
  }

  // ---- Order ----

  ghost predicate AlwaysOk(pin: Pin) { forall n :: pin(n) == (S_OK, pin(n).1) }

  ghost function Seen(q: QState): seq<Event> { Flat(q.calls) + Frames(q.batch) }

  lemma SendBatchSeen(q: QState, epoch: nat, pin: Pin, forced: bool)
    requires AlwaysOk(pin) && q.hr == S_OK
    ensures var r := SendBatch(q, epoch, pin, forced);
      Seen(r) == Seen(q) && r.hr == S_OK && r.batch == [] && Flat(r.calls) == Seen(q)
  {
    hide Flat;
    FlatOne(q.calls, Deliver(q.batch, epoch, forced));
    EmptyIsUnit(Seen(q));
    assert pin(|q.calls|).0 == S_OK;
  }

  lemma AddSeen(q: QState, x: Sample)
    ensures Seen(q.(batch := q.batch + [x])) == Seen(q) + [Frame(x)]
  {
  }

  lemma {:induction false} FeedSeen(c: Config, q: QState, xs: seq<Sample>, epoch: nat, pin: Pin)
    requires AlwaysOk(pin) && q.hr == S_OK && c.batchSize > 0 && |q.batch| < c.batchSize
    ensures var r := Feed(c, q, xs, epoch, pin).0;
      Seen(r) == Seen(q) + Frames(xs) && r.hr == S_OK && |r.batch| < c.batchSize
    decreases |xs|
  {
    hide Seen, AlwaysOk, SendBatch, Lost;
    if xs == [] {
      EmptyIsUnit(Seen(q));
    } else {
      var t := q.(batch := q.batch + [xs[0]]);
      AddSeen(q, xs[0]);
      SendBatchSeen(t, epoch, pin, false);
      FeedSeen(c, if |t.batch| == c.batchSize then SendBatch(t, epoch, pin, false) else t, xs[1..], epoch, pin);
      ConcatAssociates(Seen(q), [Frame(xs[0])], Frames(xs[1..]));
    }
  }

  /** What a client asks for. */
  datatype Op = OpReceive(xs: seq<Sample>) | OpEos | OpSegment(seg: Segment) | OpSendAnyway

  function OpEvents(op: Op): seq<Event> {
    match op
    case OpReceive(xs) => Frames(xs)
    case OpEos => [End]
    case OpSegment(seg) => [Segmented(seg)]
    case OpSendAnyway => []
  }

  function Asked(ops: seq<Op>): seq<Event> {
    if ops == [] then [] else OpEvents(ops[0]) + Asked(ops[1..])
  }

  function DirectOp(c: Config, q: QState, op: Op, epoch: nat, pin: Pin): QState {
    match op
    case OpReceive(xs) => DirectReceive(c, q, xs, epoch, pin).0
    case OpEos => DirectEos(c, q, epoch, pin)
    case OpSegment(seg) => DirectNewSegment(c, q, seg, epoch, pin)
    case OpSendAnyway => DirectSendAnyway(c, q, epoch, pin)
  }

  function DirectRun(c: Config, q: QState, ops: seq<Op>, epoch: nat, pin: Pin): QState
    decreases |ops|
  {
    if ops == [] then q else DirectRun(c, DirectOp(c, q, ops[0], epoch, pin), ops[1..], epoch, pin)
  }

  /** Direct mode keeps EndOfStream and NewSegment in place when it is exact or does not batch at all. */
  predicate Orderly(c: Config) { c.exact || c.batchSize == 1 }

  ghost predicate DirectOk(c: Config, q: QState) { q.hr == S_OK && |q.batch| < c.batchSize }

  lemma SendAnywaySeen(c: Config, q: QState, epoch: nat, pin: Pin)
    requires AlwaysOk(pin) && DirectOk(c, q)
    ensures var r := DirectSendAnyway(c, q, epoch, pin);
      Seen(r) == Seen(q) && DirectOk(c, r) && r.batch == [] && Flat(r.calls) == Seen(q)
  {
    hide AlwaysOk, SendBatch;
    if q.batch == [] {
      EmptyIsUnit(Flat(q.calls));
    } else {
      SendBatchSeen(q.(flushed := false), epoch, pin, true);
    }
  }

  lemma OpSeen(c: Config, q: QState, op: Op, epoch: nat, pin: Pin)
    requires GoodConfig(c) && Orderly(c) && AlwaysOk(pin) && DirectOk(c, q)
    ensures var r := DirectOp(c, q, op, epoch, pin);
      Seen(r) == Seen(q) + OpEvents(op) && DirectOk(c, r)
  {
    hide AlwaysOk, Feed, DirectSendAnyway, Flat;
    SendAnywaySeen(c, q, epoch, pin);
    EmptyIsUnit(Seen(q));
    match op
    case OpReceive(xs) => FeedSeen(c, q.(flushed := false), xs, epoch, pin);
    case OpEos =>
      var r := if c.exact then DirectSendAnyway(c, q, epoch, pin) else q;
      EmptyIsUnit(Flat(r.calls));
      FlatOne(r.calls, DeliverEos);
      EmptyIsUnit(Flat(r.calls) + [End]);
    case OpSegment(seg) =>
      var r := if c.exact then DirectSendAnyway(c, q, epoch, pin) else q;
      EmptyIsUnit(Flat(r.calls));
      FlatOne(r.calls, DeliverSegment(seg));
      EmptyIsUnit(Flat(r.calls) + [Segmented(seg)]);
    case OpSendAnyway =>
  }

  /** Direct delivery: what went downstream followed by what is batched is what was asked for, in order. */
  lemma {:induction false} DirectInOrder(c: Config, q: QState, ops: seq<Op>, epoch: nat, pin: Pin)
    requires GoodConfig(c) && Orderly(c) && AlwaysOk(pin) && DirectOk(c, q)
    ensures var r := DirectRun(c, q, ops, epoch, pin);
      Flat(r.calls) + Frames(r.batch) == Flat(q.calls) + Frames(q.batch) + Asked(ops)
    decreases |ops|
  {
    hide AlwaysOk, DirectOp, DirectOk, OpEvents;
    DirectSeen(c, q, ops, epoch, pin);
  }

  lemma {:induction false} DirectSeen(c: Config, q: QState, ops: seq<Op>, epoch: nat, pin: Pin)
    requires GoodConfig(c) && Orderly(c) && AlwaysOk(pin) && DirectOk(c, q)
    ensures Seen(DirectRun(c, q, ops, epoch, pin)) == Seen(q) + Asked(ops)
    decreases |ops|
  {
    hide AlwaysOk, DirectOp, DirectOk, OpEvents, Seen;
    EmptyIsUnit(Seen(q));
    if ops == [] {
    } else {
      OpSeen(c, q, ops[0], epoch, pin);
      DirectSeen(c, DirectOp(c, q, ops[0], epoch, pin), ops[1..], epoch, pin);
      ConcatAssociates(Seen(q), OpEvents(ops[0]), Asked(ops[1..]));
    }
  }

  // ---- Runs with flushes ----

  /** BeginFlush without a thread: nothing more is accepted. */
  function DirectBeginFlush(q: QState): QState { q.(flushing := true, hr := if q.hr == S_OK then S_FALSE else q.hr) }

  /** EndFlush without a thread: what was batched is released, and new data is welcome. */
  function DirectEndFlush(q: QState): QState { FreeAll(q).(flushing := false, flushed := true, hr := S_OK) }

  datatype DirectStep = Do(op: Op) | BeginDirectFlush | EndDirectFlush | DirectReset

  /** The queue, and the flushes completed. */
  datatype Direct = Direct(q: QState, epoch: nat)

  const DIRECT_START := Direct(INITIAL_STATE, 0)

  function DirectApply(c: Config, d: Direct, step: DirectStep, pin: Pin): Direct {
    match step
    case Do(op) => d.(q := DirectOp(c, d.q, op, d.epoch, pin))
    case BeginDirectFlush => d.(q := DirectBeginFlush(d.q))
    case EndDirectFlush => Direct(DirectEndFlush(d.q), d.epoch + 1)
    case DirectReset => d.(q := d.q.(hr := S_OK))
  }

  /** Samples handed in carry the flushes completed so far. */
  predicate Dated(d: Direct, step: DirectStep) {
    step.Do? && step.op.OpReceive? ==> forall x :: x in step.op.xs ==> x.epoch == d.epoch
  }

  predicate AllDated(c: Config, d: Direct, steps: seq<DirectStep>, pin: Pin)
    decreases |steps|
  {
    steps != [] ==> Dated(d, steps[0]) && AllDated(c, DirectApply(c, d, steps[0], pin), steps[1..], pin)
  }

  function DirectExec(c: Config, d: Direct, steps: seq<DirectStep>, pin: Pin): Direct
    decreases |steps|
  {
    if steps == [] then d else DirectExec(c, DirectApply(c, d, steps[0], pin), steps[1..], pin)
  }

  function HandedBy(step: DirectStep): multiset<Sample> {
    if step.Do? && step.op.OpReceive? then multiset(step.op.xs) else multiset{}
  }

  function AllHanded(steps: seq<DirectStep>): multiset<Sample> {
    if steps == [] then multiset{} else HandedBy(steps[0]) + AllHanded(steps[1..])
  }

  lemma SendAnywayConserves(c: Config, q: QState, epoch: nat, pin: Pin)
    requires |q.batch| < c.batchSize
    ensures var r := DirectSendAnyway(c, q, epoch, pin); |r.batch| < c.batchSize && Kept(r) == Kept(q)
  {
  }

  lemma OpConserves(c: Config, q: QState, op: Op, epoch: nat, pin: Pin)
    requires GoodConfig(c) && |q.batch| < c.batchSize
    ensures var r := DirectOp(c, q, op, epoch, pin);
      |r.batch| < c.batchSize && r.list == q.list && Kept(r) == Kept(q) + HandedBy(Do(op))
  {
    hide Feed, DirectSendAnyway;
    SendAnywayConserves(c, q, epoch, pin);
    OpLeavesList(c, q, op, epoch, pin);
    if op.OpReceive? {
      FeedConserves(c, q.(flushed := false), op.xs, epoch, pin);
    }
  }

  lemma {:induction false} FeedLeavesList(c: Config, q: QState, xs: seq<Sample>, epoch: nat, pin: Pin)
    ensures Feed(c, q, xs, epoch, pin).0.list == q.list
    decreases |xs|
  {
    hide Lost;
    if xs == [] {
    } else {
      var t := q.(batch := q.batch + [xs[0]]);
      FeedLeavesList(c, if |t.batch| == c.batchSize then SendBatch(t, epoch, pin, false) else t, xs[1..], epoch, pin);
    }
  }

  lemma OpLeavesList(c: Config, q: QState, op: Op, epoch: nat, pin: Pin)
    ensures DirectOp(c, q, op, epoch, pin).list == q.list
  {
    hide Feed;
    if op.OpReceive? {
      FeedLeavesList(c, q.(flushed := false), op.xs, epoch, pin);
    }
  }

  lemma StepConserves(c: Config, d: Direct, step: DirectStep, pin: Pin)
    requires GoodConfig(c) && |d.q.batch| < c.batchSize && d.q.list == []
    ensures var r := DirectApply(c, d, step, pin).q;
      |r.batch| < c.batchSize && r.list == [] && Kept(r) == Kept(d.q) + HandedBy(step)
  {
    hide DirectOp;
    if step.Do? {
      OpConserves(c, d.q, step.op, d.epoch, pin);
    }
    assert SamplesIn([]) == multiset{};
  }

  /**
   * Whatever downstream answers and wherever flushes fall, every sample handed in is released
   * once or in the batch, which has room; after EndFlush all are released.
   */
  lemma {:induction false} DirectConserves(c: Config, d: Direct, steps: seq<DirectStep>, pin: Pin)
    requires GoodConfig(c) && |d.q.batch| < c.batchSize && d.q.list == []
    ensures var r := DirectExec(c, d, steps, pin).q;
      && |r.batch| < c.batchSize && r.list == []
      && r.released + multiset(r.batch) == d.q.released + multiset(d.q.batch) + AllHanded(steps)
      && DirectEndFlush(r).batch == [] && DirectEndFlush(r).released == r.released + multiset(r.batch)
    decreases |steps|
  {
    hide DirectApply;
    if steps == [] {
    } else {
      StepConserves(c, d, steps[0], pin);
      DirectConserves(c, DirectApply(c, d, steps[0], pin), steps[1..], pin);
    }
    assert SamplesIn([]) == multiset{};
  }

  // ---- Delivery after a flush ----

  /** What is asked for by steps that are not refused: none from a BeginFlush to the EndFlush or Reset after it. */
  function AskedOpen(open: bool, steps: seq<DirectStep>): seq<Event>
    decreases |steps|
  {
    if steps == [] then []
    else
      match steps[0]
      case Do(op) => (if open then OpEvents(op) else []) + AskedOpen(open, steps[1..])
      case BeginDirectFlush => AskedOpen(false, steps[1..])
      case _ => AskedOpen(true, steps[1..])
  }

  /** With an error sticking, nothing asked for is sent or batched. */
  lemma OpRefused(c: Config, q: QState, op: Op, epoch: nat, pin: Pin)
    requires q.hr != S_OK
    ensures var r := DirectOp(c, q, op, epoch, pin); r.calls == q.calls && r.batch == q.batch && r.hr == q.hr
  {
    hide Feed, SendBatch;
  }

  lemma DirectStepSeen(c: Config, d: Direct, step: DirectStep, pin: Pin)
    requires GoodConfig(c) && Orderly(c) && AlwaysOk(pin) && |d.q.batch| < c.batchSize && step != EndDirectFlush
    ensures var r := DirectApply(c, d, step, pin).q;
      && |r.batch| < c.batchSize
      && Seen(r) == Seen(d.q) + (if step.Do? && d.q.hr == S_OK then OpEvents(step.op) else [])
      && (r.hr == S_OK <==> if step.Do? then d.q.hr == S_OK else step.DirectReset?)
  {
    hide DirectOp, AlwaysOk, OpEvents, Flat;
    EmptyIsUnit(Seen(d.q));
    if step.Do? {
      if d.q.hr == S_OK {
        OpSeen(c, d.q, step.op, d.epoch, pin);
      } else {
        OpRefused(c, d.q, step.op, d.epoch, pin);
      }
    }
  }

  lemma {:induction false} DirectStepsSeen(c: Config, d: Direct, steps: seq<DirectStep>, pin: Pin)
    requires GoodConfig(c) && Orderly(c) && AlwaysOk(pin) && |d.q.batch| < c.batchSize && EndDirectFlush !in steps
    ensures Seen(DirectExec(c, d, steps, pin).q) == Seen(d.q) + AskedOpen(d.q.hr == S_OK, steps)
    decreases |steps|
  {
    hide DirectApply, AlwaysOk, OpEvents, Seen;
    EmptyIsUnit(Seen(d.q));
    if steps == [] {
    } else {
      var r := DirectApply(c, d, steps[0], pin);
      DirectStepSeen(c, d, steps[0], pin);
      DirectStepsSeen(c, r, steps[1..], pin);
      ConcatAssociates(Seen(d.q), if steps[0].Do? && d.q.hr == S_OK then OpEvents(steps[0].op) else [],
                       AskedOpen(r.q.hr == S_OK, steps[1..]));
    }
  }

  /**
   * EndFlush accepts data again, whatever came before it: up to the next EndFlush, what is then
   * sent or batched is exactly what is asked for, in order, but for what the next BeginFlush
   * has refused.
   */
  lemma {:induction false} DirectSinceFlush(c: Config, d: Direct, steps: seq<DirectStep>, pin: Pin)
    requires GoodConfig(c) && Orderly(c) && AlwaysOk(pin) && EndDirectFlush !in steps
    ensures var e := DirectApply(c, d, EndDirectFlush, pin);
      var r := DirectExec(c, e, steps, pin).q;
      && e.q.hr == S_OK && !e.q.flushing && e.q.flushed && e.q.calls == d.q.calls
      && Flat(r.calls) + Frames(r.batch) == Flat(d.q.calls) + AskedOpen(true, steps)
  {
    hide AlwaysOk, Flat, Orderly, AskedOpen;
    var e := DirectApply(c, d, EndDirectFlush, pin);
    assert e.q.batch == [] && Frames(e.q.batch) == [];
    EmptyIsUnit(Flat(d.q.calls));
    DirectStepsSeen(c, e, steps, pin);
  }

  /** Whether the last flush step was a BeginFlush. */
  predicate InFlush(was: bool, steps: seq<DirectStep>) {
    if steps == [] then was
    else
      match steps[|steps| - 1]
      case BeginDirectFlush => true
      case EndDirectFlush => false
      case _ => InFlush(was, steps[..|steps| - 1])
  }

  function Flushes(steps: seq<DirectStep>): nat { multiset(steps)[EndDirectFlush] }

  lemma {:induction false} ExecSplits(c: Config, d: Direct, steps: seq<DirectStep>, step: DirectStep, pin: Pin)
    ensures DirectExec(c, d, steps + [step], pin) == DirectApply(c, DirectExec(c, d, steps, pin), step, pin)
    decreases |steps|
  {
    hide DirectApply;
    if steps == [] {
      assert ([step])[1..] == [] && [] + [step] == [step];
    } else {
      assert (steps + [step])[1..] == steps[1..] + [step];
      ExecSplits(c, DirectApply(c, d, steps[0], pin), steps[1..], step, pin);
    }
  }

  lemma {:induction false} FeedLeavesFlags(c: Config, q: QState, xs: seq<Sample>, epoch: nat, pin: Pin)
    ensures var r := Feed(c, q, xs, epoch, pin).0; r.flushing == q.flushing && r.flushed == q.flushed
    decreases |xs|
  {
    hide Lost;
    if xs == [] {
    } else {
      var t := q.(batch := q.batch + [xs[0]]);
      FeedLeavesFlags(c, if |t.batch| == c.batchSize then SendBatch(t, epoch, pin, false) else t, xs[1..], epoch, pin);
    }
  }

  lemma OpLeavesFlushing(c: Config, q: QState, op: Op, epoch: nat, pin: Pin)
    ensures DirectOp(c, q, op, epoch, pin).flushing == q.flushing
  {
    hide Feed;
    if op.OpReceive? {
      FeedLeavesFlags(c, q.(flushed := false), op.xs, epoch, pin);
    }
  }

  /** m_bFlushing tells on every run whether a flush is under way, and each EndFlush opens a new epoch. */
  lemma {:induction false} FlushingMeans(c: Config, d: Direct, steps: seq<DirectStep>, pin: Pin)
    ensures var r := DirectExec(c, d, steps, pin);
      r.q.flushing == InFlush(d.q.flushing, steps) && r.epoch == d.epoch + Flushes(steps)
    decreases |steps|
  {
    hide DirectOp;
    if steps == [] {
    } else {
      var rest, step := steps[..|steps| - 1], steps[|steps| - 1];
      assert steps == rest + [step];
      FlushingMeans(c, d, rest, pin);
      ExecSplits(c, d, rest, step, pin);
      if step.Do? {
        var s := DirectExec(c, d, rest, pin);
        OpLeavesFlushing(c, s.q, step.op, s.epoch, pin);
      }
    }
  }

  /** The flag says that nothing has been accepted since, but segments: none is batched and none has gone on. */
  ghost predicate FlushedOk(q: QState, from: nat) {
    from <= |q.calls| && (q.flushed ==> q.batch == [] && forall i :: from <= i < |q.calls| ==> q.calls[i].DeliverSegment?)
  }

  lemma {:induction false} FeedGoesOn(c: Config, q: QState, xs: seq<Sample>, epoch: nat, pin: Pin)
    ensures |Feed(c, q, xs, epoch, pin).0.calls| >= |q.calls|
    decreases |xs|
  {
    hide Lost;
    if xs == [] {
    } else {
      var t := q.(batch := q.batch + [xs[0]]);
      FeedGoesOn(c, if |t.batch| == c.batchSize then SendBatch(t, epoch, pin, false) else t, xs[1..], epoch, pin);
    }
  }

  lemma StepFlushedOk(c: Config, d: Direct, step: DirectStep, pin: Pin, from: nat)
    requires FlushedOk(d.q, from) && step != EndDirectFlush
    ensures FlushedOk(DirectApply(c, d, step, pin).q, from)
  {
    hide FlushedOk, DirectOp;
    if step.Do? {
      OpFlushedOk(c, d.q, step.op, d.epoch, pin, from);
    } else {
      SameFlushedOk(d.q, DirectApply(c, d, step, pin).q, from);
    }
  }

  lemma OpFlushedOk(c: Config, q: QState, op: Op, epoch: nat, pin: Pin, from: nat)
    requires FlushedOk(q, from)
    ensures FlushedOk(DirectOp(c, q, op, epoch, pin), from)
  {
    hide Feed, DirectSendAnyway, FlushedOk;
    AnywayClears(c, q, epoch, pin);
    var r := if c.exact then DirectSendAnyway(c, q, epoch, pin) else q;
    match op
    case OpReceive(xs) =>
      FeedLeavesFlags(c, q.(flushed := false), xs, epoch, pin);
      FeedGoesOn(c, q.(flushed := false), xs, epoch, pin);
      SameFlushedOk(q, DirectOp(c, q, op, epoch, pin), from);
    case OpEos => SameFlushedOk(q, DirectOp(c, q, op, epoch, pin), from);
    case OpSegment(seg) => SegmentFlushedOk(q, r, seg, from);
    case OpSendAnyway => SameFlushedOk(q, DirectOp(c, q, op, epoch, pin), from);
  }

  lemma AnywayClears(c: Config, q: QState, epoch: nat, pin: Pin)
    ensures var r := DirectSendAnyway(c, q, epoch, pin); |r.calls| >= |q.calls| && (r == q || !r.flushed)
  {
  }

  lemma SameFlushedOk(q: QState, r: QState, from: nat)
    requires FlushedOk(q, from) && |r.calls| >= |q.calls|
    requires r.flushed ==> q.flushed && r.batch == q.batch && r.calls == q.calls
    ensures FlushedOk(r, from)
  {
  }

  lemma SegmentFlushedOk(q: QState, r: QState, seg: Segment, from: nat)
    requires FlushedOk(q, from) && |r.calls| >= |q.calls| && (r == q || !r.flushed)
    ensures FlushedOk(r.(calls := r.calls + [DeliverSegment(seg)]), from)
  {
  }

  /** While m_bFlushed stays set after EndFlush, nothing is batched, and nothing but segments has gone on since. */
  lemma {:induction false} FlushedMeans(c: Config, d: Direct, steps: seq<DirectStep>, pin: Pin, from: nat)
    requires FlushedOk(d.q, from) && EndDirectFlush !in steps
    ensures FlushedOk(DirectExec(c, d, steps, pin).q, from)
    decreases |steps|
  {
    hide DirectApply, FlushedOk;
    if steps == [] {
    } else {
      StepFlushedOk(c, d, steps[0], pin, from);
      FlushedMeans(c, DirectApply(c, d, steps[0], pin), steps[1..], pin, from);
    }
  }

  // ---- What downstream answers ----

  /** The samples downstream says it processed, over the calls numbered from a up to b. */
  function Processed(pin: Pin, a: nat, b: nat): nat
    decreases b
  {
    if b <= a then 0 else Processed(pin, a, b - 1) + pin(b - 1).1
  }

  lemma {:induction false} ProcessedSplits(pin: Pin, a: nat, m: nat, b: nat)
    requires a <= m <= b
    ensures Processed(pin, a, b) == Processed(pin, a, m) + Processed(pin, m, b)
    decreases b
  {
    if b == m {
    } else {
      ProcessedSplits(pin, a, m, b - 1);
    }
  }

  lemma BatchLoses(q: QState, epoch: nat, pin: Pin)
    ensures var r := SendBatch(q, epoch, pin, false);
      r.batch == [] && |r.calls| >= |q.calls| && Lost(q, pin) == |q.batch| - Processed(pin, |q.calls|, |r.calls|)
  {
    assert Processed(pin, |q.calls|, |q.calls|) == 0;
  }

  /** The samples lost are those that left the batch, sent or not, less those downstream says it processed. */
  lemma {:induction false} FeedLoses(c: Config, q: QState, xs: seq<Sample>, epoch: nat, pin: Pin)
    requires c.batchSize > 0 && |q.batch| < c.batchSize
    ensures var (r, lost) := Feed(c, q, xs, epoch, pin);
      |r.calls| >= |q.calls| && lost == |q.batch| + |xs| - |r.batch| - Processed(pin, |q.calls|, |r.calls|)
    decreases |xs|
  {
    hide SendBatch, Lost;
    if xs == [] {
    } else {
      var t := q.(batch := q.batch + [xs[0]]);
      if |t.batch| == c.batchSize {
        var s := SendBatch(t, epoch, pin, false);
        BatchLoses(t, epoch, pin);
        FeedLoses(c, s, xs[1..], epoch, pin);
        ProcessedSplits(pin, |q.calls|, |s.calls|, |Feed(c, s, xs[1..], epoch, pin).0.calls|);
      } else {
        FeedLoses(c, t, xs[1..], epoch, pin);
      }
    }
  }

  /**
   * What ReceiveMultiple reports as processed: none once an error sticks; else all it was given,
   * less the samples that left the batch and that downstream did not say it processed, and never
   * less than none.
   */
  lemma {:induction false} ProcessedReported(c: Config, q: QState, xs: seq<Sample>, epoch: nat, pin: Pin)
    requires c.batchSize > 0 && |q.batch| < c.batchSize
    ensures var (r, n) := DirectReceive(c, q, xs, epoch, pin);
      var lost := |q.batch| + |xs| - |r.batch| - Processed(pin, |q.calls|, |r.calls|);
      n == if q.hr != S_OK || lost > |xs| then 0 else |xs| - lost
  {
    hide Feed;
    FeedLoses(c, q.(flushed := false), xs, epoch, pin);
  }

  /** No call from the `from`-th on has sent a batch and been answered with anything but S_OK. */
  ghost predicate AllAnsweredOk(calls: seq<Call>, from: nat, pin: Pin) {
    forall i :: from <= i < |calls| && calls[i].Deliver? ==> pin(i).0 == S_OK
  }

  /** After an answer that is not S_OK at most one call is made, a segment whose batch it was. */
  ghost predicate StopsAtError(calls: seq<Call>, from: nat, pin: Pin) {
    forall i, j :: from <= i < j < |calls| && calls[i].Deliver? && pin(i).0 != S_OK ==>
      j == i + 1 && calls[j].DeliverSegment?
  }

  ghost predicate Sticks(q: QState, from: nat, pin: Pin) {
    && from <= |q.calls| && (q.hr == S_OK <==> AllAnsweredOk(q.calls, from, pin)) && StopsAtError(q.calls, from, pin)
    && (q.hr != S_OK ==> Answered(q.calls, from, pin, q.hr))
  }

  /** This is what a batch sent since then was answered with. */
  ghost predicate Answered(calls: seq<Call>, from: nat, pin: Pin, hr: int) {
    exists i :: from <= i < |calls| && calls[i].Deliver? && pin(i).0 == hr
  }

  lemma OneMoreAnswer(calls: seq<Call>, k: Call, from: nat, pin: Pin)
    requires from <= |calls| && AllAnsweredOk(calls, from, pin)
    ensures StopsAtError(calls + [k], from, pin)
    ensures AllAnsweredOk(calls + [k], from, pin) <==> !k.Deliver? || pin(|calls|).0 == S_OK
    ensures k.Deliver? ==> Answered(calls + [k], from, pin, pin(|calls|).0)
  {
    assert forall i :: 0 <= i < |calls| ==> (calls + [k])[i] == calls[i];
    assert (calls + [k])[|calls|] == k;
  }

  lemma SendBatchSticks(q: QState, epoch: nat, pin: Pin, forced: bool, from: nat)
    requires Sticks(q, from, pin)
    ensures Sticks(SendBatch(q, epoch, pin, forced), from, pin)
    ensures q.hr == S_OK ==> |SendBatch(q, epoch, pin, forced).calls| == |q.calls| + 1
  {
    hide AllAnsweredOk, StopsAtError, Answered;
    if q.hr == S_OK {
      OneMoreAnswer(q.calls, Deliver(q.batch, epoch, forced), from, pin);
    }
  }

  lemma {:induction false} FeedSticks(c: Config, q: QState, xs: seq<Sample>, epoch: nat, pin: Pin, from: nat)
    requires Sticks(q, from, pin)
    ensures Sticks(Feed(c, q, xs, epoch, pin).0, from, pin)
    decreases |xs|
  {
    hide AllAnsweredOk, StopsAtError, Answered, SendBatch, Lost;
    if xs == [] {
    } else {
      var t := q.(batch := q.batch + [xs[0]]);
      SendBatchSticks(t, epoch, pin, false, from);
      FeedSticks(c, if |t.batch| == c.batchSize then SendBatch(t, epoch, pin, false) else t, xs[1..], epoch, pin, from);
    }
  }

  /** A segment sent after its batch: if the batch was answered with an error, it was the last call. */
  lemma SegmentAfterBatch(calls: seq<Call>, batch: Call, seg: Call, from: nat, pin: Pin)
    requires from <= |calls| && AllAnsweredOk(calls, from, pin) && batch.Deliver? && seg.DeliverSegment?
    ensures StopsAtError(calls + [batch] + [seg], from, pin)
    ensures AllAnsweredOk(calls + [batch] + [seg], from, pin) <==> pin(|calls|).0 == S_OK
    ensures Answered(calls + [batch] + [seg], from, pin, pin(|calls|).0)
  {
    var all := calls + [batch] + [seg];
    assert forall i :: 0 <= i < |calls| ==> all[i] == calls[i];
    assert all[|calls|] == batch && all[|calls| + 1] == seg;
  }

  lemma OpSticks(c: Config, q: QState, op: Op, epoch: nat, pin: Pin, from: nat)
    requires Sticks(q, from, pin)
    ensures Sticks(DirectOp(c, q, op, epoch, pin), from, pin)
  {
    hide AllAnsweredOk, StopsAtError, Answered, Feed;
    SendBatchSticks(q.(flushed := false), epoch, pin, true, from);
    if q.hr == S_OK {
      var r := if c.exact then DirectSendAnyway(c, q, epoch, pin) else q;
      match op
      case OpReceive(xs) => FeedSticks(c, q.(flushed := false), xs, epoch, pin, from);
      case OpEos =>
        if r.hr == S_OK {
          OneMoreAnswer(r.calls, DeliverEos, from, pin);
        }
      case OpSegment(seg) =>
        OneMoreAnswer(q.calls, DeliverSegment(seg), from, pin);
        SegmentAfterBatch(q.calls, Deliver(q.batch, epoch, true), DeliverSegment(seg), from, pin);
      case OpSendAnyway =>
    }
  }

  lemma {:induction false} RunSticks(c: Config, q: QState, ops: seq<Op>, epoch: nat, pin: Pin, from: nat)
    requires Sticks(q, from, pin)
    ensures Sticks(DirectRun(c, q, ops, epoch, pin), from, pin)
    decreases |ops|
  {
    hide Sticks, DirectOp;
    if ops == [] {
    } else {
      OpSticks(c, q, ops[0], epoch, pin, from);
      RunSticks(c, DirectOp(c, q, ops[0], epoch, pin), ops[1..], epoch, pin, from);
    }
  }

  /**
   * Without a thread an error sticks: over any requests, until a flush or Reset, the queue goes on
   * accepting exactly as long as every batch has been answered with S_OK; an answer that is not
   * is the result that sticks, and nothing more is sent, save the segment whose batch it was.
   */
  lemma {:induction false} ErrorSticks(c: Config, q: QState, ops: seq<Op>, epoch: nat, pin: Pin)
    requires q.hr == S_OK
    ensures var r := DirectRun(c, q, ops, epoch, pin);
      && (r.hr == S_OK <==> AllAnsweredOk(r.calls, |q.calls|, pin)) && StopsAtError(r.calls, |q.calls|, pin)
      && (r.hr != S_OK ==> Answered(r.calls, |q.calls|, pin, r.hr))
  {
    assert Sticks(q, |q.calls|, pin);
    RunSticks(c, q, ops, epoch, pin, |q.calls|);
  }

  // ---- What goes downstream ----

  /** The batch, and every batch ever sent, holds samples of one epoch; a batch sent is full unless it was forced, and never empty. */
  ghost predicate SentOk(c: Config, d: Direct) {
    && |d.q.batch| < c.batchSize
    && (forall x :: x in d.q.batch ==> x.epoch == d.epoch)
    && CallsInEpoch(d.q.calls) && DirectSizes(c, d.q.calls)
  }

  ghost predicate DirectSizes(c: Config, calls: seq<Call>) {
    forall i :: 0 <= i < |calls| && calls[i].Deliver? ==>
      0 < |calls[i].batch| <= c.batchSize && (!calls[i].forced ==> |calls[i].batch| == c.batchSize)
  }

  lemma OneMoreCall(c: Config, calls: seq<Call>, k: Call)
    requires CallsInEpoch(calls) && DirectSizes(c, calls)
    requires k.Deliver? ==> 0 < |k.batch| <= c.batchSize && (!k.forced ==> |k.batch| == c.batchSize)
    requires k.Deliver? ==> forall x :: x in k.batch ==> x.epoch == k.epoch
    ensures CallsInEpoch(calls + [k]) && DirectSizes(c, calls + [k])
  {
  }

  lemma SendBatchOk(c: Config, d: Direct, pin: Pin, forced: bool)
    requires 0 < |d.q.batch| <= c.batchSize && (!forced ==> |d.q.batch| == c.batchSize)
    requires forall x :: x in d.q.batch ==> x.epoch == d.epoch
    requires CallsInEpoch(d.q.calls) && DirectSizes(c, d.q.calls)
    ensures SentOk(c, d.(q := SendBatch(d.q, d.epoch, pin, forced)))
  {
    hide CallsInEpoch, DirectSizes;
    OneMoreCall(c, d.q.calls, Deliver(d.q.batch, d.epoch, forced));
  }

  lemma {:induction false} FeedOk(c: Config, d: Direct, xs: seq<Sample>, pin: Pin)
    requires GoodConfig(c) && SentOk(c, d) && forall x :: x in xs ==> x.epoch == d.epoch
    ensures SentOk(c, d.(q := Feed(c, d.q, xs, d.epoch, pin).0))
    decreases |xs|
  {
    hide CallsInEpoch, DirectSizes, SendBatch, Lost;
    if xs == [] {
    } else {
      assert xs[0] in xs && forall x :: x in xs[1..] ==> x in xs;
      var t := d.q.(batch := d.q.batch + [xs[0]]);
      if |t.batch| == c.batchSize {
        SendBatchOk(c, d.(q := t), pin, false);
        FeedOk(c, d.(q := SendBatch(t, d.epoch, pin, false)), xs[1..], pin);
      } else {
        FeedOk(c, d.(q := t), xs[1..], pin);
      }
    }
  }

  lemma AnywayOk(c: Config, d: Direct, pin: Pin)
    requires SentOk(c, d)
    ensures SentOk(c, d.(q := DirectSendAnyway(c, d.q, d.epoch, pin)))
  {
    hide CallsInEpoch, DirectSizes, SendBatch;
    if d.q.hr == S_OK && d.q.batch != [] {
      SendBatchOk(c, d.(q := d.q.(flushed := false)), pin, true);
    }
  }

  lemma SentOkStep(c: Config, d: Direct, step: DirectStep, pin: Pin)
    requires GoodConfig(c) && SentOk(c, d) && Dated(d, step)
    ensures SentOk(c, DirectApply(c, d, step, pin))
  {
    hide CallsInEpoch, DirectSizes, Feed, DirectSendAnyway;
    if step.Do? {
      AnywayOk(c, d, pin);
      var q := if c.exact then DirectSendAnyway(c, d.q, d.epoch, pin) else d.q;
      match step.op
      case OpReceive(xs) => FeedOk(c, d.(q := d.q.(flushed := false)), xs, pin);
      case OpEos => OneMoreCall(c, q.calls, DeliverEos);
      case OpSegment(seg) => OneMoreCall(c, q.calls, DeliverSegment(seg));
      case OpSendAnyway =>
    }
  }

  lemma {:induction false} SentOkRun(c: Config, d: Direct, steps: seq<DirectStep>, pin: Pin)
    requires GoodConfig(c) && SentOk(c, d) && AllDated(c, d, steps, pin)
    ensures SentOk(c, DirectExec(c, d, steps, pin))
    decreases |steps|
  {
    hide SentOk, DirectApply, Dated;
    if steps == [] {
    } else {
      SentOkStep(c, d, steps[0], pin);
      SentOkRun(c, DirectApply(c, d, steps[0], pin), steps[1..], pin);
    }
  }

  /**
   * In direct mode too, on every run with flushes and any answers: no sample accepted before a
   * flush goes downstream after EndFlush, and a batch has between 1 and m_lBatchSize samples and
   * is full unless SendAnyway, EOS or NewSegment forced it.
   */
  lemma {:induction false} DirectNothingCrosses(c: Config, steps: seq<DirectStep>, pin: Pin)
    requires GoodConfig(c) && AllDated(c, DIRECT_START, steps, pin)
    ensures var calls := DirectExec(c, DIRECT_START, steps, pin).q.calls; CallsInEpoch(calls) && DirectSizes(c, calls)
  {
    SentOkRun(c, DIRECT_START, steps, pin);
  }

  // ---- Refinement ----

  /** The client requests in a run of the queued form. */
  function OpsOf(steps: seq<Step>): seq<Op> {
    if steps == [] then [] else OpsOfStep(steps[0]) + OpsOf(steps[1..])
  }

  function OpsOfStep(step: Step): seq<Op> {
    match step
    case Receive(xs) => [OpReceive(xs)]
    case Ask(a) =>
      (match a
       case EndOfStream => [OpEos]
       case QueueSegment(seg) => [OpSegment(seg)]
       case SendAnyway => [OpSendAnyway]
       case _ => [])
    case _ => []
  }

  lemma AskedOne(op: Op)
    ensures Asked([op]) == OpEvents(op)
  {
  }

  lemma StepAccepts(c: Config, s: Sys, step: Step)
    requires s.q.hr == S_OK && Enabled(c, s, step)
    ensures Apply(c, s, step).accepted == s.accepted + Asked(OpsOfStep(step))
  {
    hide Frames, ReceiveRegion, TerminateRegion, WellPaired, Asked, ApplyControl, ApplyWorker, ApplyFlush;
    EmptyIsUnit(s.accepted);
    NothingAsked();
    match step
    case Receive(xs) => AskedOne(OpReceive(xs));
    case Ask(a) =>
      ControlAccepts(s, a);
      AskedOne(OpEos);
      AskedOne(OpSendAnyway);
      if a.QueueSegment? {
        AskedOne(OpSegment(a.seg));
      }
    case Flushing(f) => FlushAccepts(c, s, f);
    case Terminate =>
    case Work(w) => WorkAccepts(c, s, w);
  }

  lemma NothingAsked()
    ensures Asked([]) == []
  {
  }

  lemma FlushAccepts(c: Config, s: Sys, f: FlushStep)
    ensures ApplyFlush(c, s, f).accepted == s.accepted
  {
  }

  lemma WorkAccepts(c: Config, s: Sys, w: WorkerStep)
    requires WorkerEnabled(s, w)
    ensures ApplyWorker(c, s, w).accepted == s.accepted
  {
  }

  lemma AskedAppend(a: seq<Op>, b: seq<Op>)
    ensures Asked(a + b) == Asked(a) + Asked(b)
  {
    if a == [] {
      assert a + b == b;
    } else {
      assert (a + b)[1..] == a[1..] + b;
      AskedAppend(a[1..], b);
      ConcatAssociates(OpEvents(a[0]), Asked(a[1..]), Asked(b));
    }
  }

  lemma {:induction false} SmoothAccepts(c: Config, s: Sys, steps: seq<Step>)
    requires GoodConfig(c) && AllOk(c, s) && SmoothOk(s) && Possible(c, s, steps)
    requires forall i :: 0 <= i < |steps| ==> Smooth(steps[i])
    ensures Exec(c, s, steps).accepted == s.accepted + Asked(OpsOf(steps))
    decreases |steps|
  {
    hide Apply, Conserved, FlushOk, PcOk, CallsOk, WellPaired, OpsOfStep, InOrder, Asked;
    if steps == [] {
      EmptyOps();
      EmptyIsUnit(s.accepted);
    } else {
      AllOkStep(c, s, steps[0]);
      SmoothStep(c, s, steps[0]);
      SmoothAccepts(c, Apply(c, s, steps[0]), steps[1..]);
      StepAccepts(c, s, steps[0]);
      AskedAppend(OpsOfStep(steps[0]), OpsOf(steps[1..]));
      ConcatAssociates(s.accepted, Asked(OpsOfStep(steps[0])), Asked(OpsOf(steps[1..])));
    }
  }

  lemma EmptyOps()
    ensures Asked(OpsOf([])) == []
  {
  }

  /**
   * Whatever the interleaving, the queued form has sent a prefix of what the direct form would
   * have sent or batched for the same requests, and holds exactly the rest, in order.
   */
  lemma {:induction false} QueuedRefinesDirect(c: Config, steps: seq<Step>, epoch: nat, pin: Pin)
    requires GoodConfig(c) && Orderly(c) && AlwaysOk(pin) && Possible(c, START, steps)
    requires forall i :: 0 <= i < |steps| ==> Smooth(steps[i])
    ensures var s := Exec(c, START, steps);
      var d := DirectRun(c, INITIAL_STATE, OpsOf(steps), epoch, pin);
      && Flat(s.q.calls) <= Flat(d.calls) + Frames(d.batch)
      && Flat(s.q.calls) + PcEvents(s.pc) + Frames(s.q.batch) + Decode(s.q.list) == Flat(d.calls) + Frames(d.batch)
  {
    hide AlwaysOk, AllOk, Asked, PcEvents, Decode, OpsOf, SmoothOk;
    StartOk(c);
    DeliveredInOrder(c, steps);
    SmoothAccepts(c, START, steps);
    DirectInOrder(c, INITIAL_STATE, OpsOf(steps), epoch, pin);
    EmptyIsUnit(Asked(OpsOf(steps)));
    assert Flat(INITIAL_STATE.calls) + Frames(INITIAL_STATE.batch) == [];
  }
}
