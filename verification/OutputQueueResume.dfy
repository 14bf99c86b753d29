/**
 * What EndFlush and RESET promise a queue with a thread: it takes data again, and
 * delivers everything it then takes, in order.
 */
module OutputQueueResume {
  import opened Sequences
  import opened OutputQueueTypes
  import opened OutputQueueProtocol
  import opened OutputQueueWakeups
  import opened OutputQueueFlush
  import opened OutputQueueOrder
  import opened OutputQueueCrossing
  import opened OutputQueueDirect

  /** Samples and events are accepted, and nothing is about to throw them away. */
  predicate Open(s: Sys) { s.q.hr == S_OK && !s.q.flushing && !s.q.terminate }

  /** Everything sent, in flight, batched and listed. */
  ghost function Total(s: Sys): seq<Event> { Flat(s.q.calls) + (PcEvents(s.pc) + ToCome(s.q)) }

  /** Steps read nothing of the record of what was accepted. */
  lemma StepIgnoresRecord(c: Config, s: Sys, a: seq<Event>, step: Step)
    requires Enabled(c, s, step)
    ensures Enabled(c, s.(accepted := a), step)
    ensures var r := Apply(c, s.(accepted := a), step); r == Apply(c, s, step).(accepted := r.accepted)
  {
    hide ReceiveRegion, TerminateRegion, ApplyControl, ApplyFlush, ApplyWorker, WellPaired, Frames;
    match step
    case Ask(k) => ControlIgnoresRecord(s, a, k);
    case Flushing(f) => FlushIgnoresRecord(c, s, a, f);
    case Work(w) => WorkIgnoresRecord(c, s, a, w);
    case _ =>
  }

  lemma ControlIgnoresRecord(s: Sys, a: seq<Event>, k: ControlStep)
    requires ControlEnabled(s, k)
    ensures var r := ApplyControl(s.(accepted := a), k); r == ApplyControl(s, k).(accepted := r.accepted)
  {
    hide SendAnywayRegion, EosRegion, NewSegmentRegion, ResetRegion;
  }

  lemma FlushIgnoresRecord(c: Config, s: Sys, a: seq<Event>, f: FlushStep)
    ensures ApplyFlush(c, s.(accepted := a), f) == ApplyFlush(c, s, f).(accepted := a)
  {
    hide BeginFlushRegion;
  }

  lemma WorkIgnoresRecord(c: Config, s: Sys, a: seq<Event>, w: WorkerStep)
    requires WorkerEnabled(s, w)
    ensures ApplyWorker(c, s.(accepted := a), w) == ApplyWorker(c, s, w).(accepted := a)
  {
    hide Scan, Release, ControlEffect;
  }

  lemma {:induction false} RunIgnoresRecord(c: Config, s: Sys, a: seq<Event>, steps: seq<Step>)
    requires Possible(c, s, steps)
    ensures Possible(c, s.(accepted := a), steps)
    ensures var r := Exec(c, s.(accepted := a), steps); r == Exec(c, s, steps).(accepted := r.accepted)
    decreases |steps|
  {
    hide Apply, Enabled;
    if steps == [] {
    } else {
      StepIgnoresRecord(c, s, a, steps[0]);
      RunIgnoresRecord(c, Apply(c, s, steps[0]), Apply(c, s.(accepted := a), steps[0]).accepted, steps[1..]);
    }
  }

  /** From any state that is open, over any run without flush, shutdown or error: what it held, and then what it is asked for, in order. */
  lemma {:induction false} DeliveredFrom(c: Config, s: Sys, steps: seq<Step>)
    requires GoodConfig(c) && AllOk(c, s) && Open(s) && Possible(c, s, steps)
    requires forall i :: 0 <= i < |steps| ==> Smooth(steps[i])
    ensures Total(Exec(c, s, steps)) == Total(s) + Asked(OpsOf(steps)) && Open(Exec(c, s, steps))
  {
    hide Exec, Possible, Conserved, FlushOk, PcOk, CallsOk, WellPaired, OpsOf, Asked, Smooth;
    var t := s.(accepted := Total(s));
    RecordIgnored(c, s, Total(s));
    RunIgnoresRecord(c, s, Total(s), steps);
    SmoothRunOk(c, t, steps);
    SmoothAccepts(c, t, steps);
  }

  lemma RecordIgnored(c: Config, s: Sys, a: seq<Event>)
    requires AllOk(c, s)
    ensures AllOk(c, s.(accepted := a))
  {
  }

  // ---- While an error sticks ----

  /** The steps that clear it: EndFlush, and the worker's dealing with a RESET packet. */
  predicate Clears(s: Sys, step: Step) {
    || step == Flushing(EndFlushQuick) || step == Flushing(EndFlushDone)
    || (step == Work(WorkerAfter) && s.pc == AfterBatch(Reset))
  }

  ghost predicate NeverClears(c: Config, s: Sys, steps: seq<Step>)
    requires Possible(c, s, steps)
    decreases |steps|
  {
    steps != [] ==> !Clears(s, steps[0]) && NeverClears(c, Apply(c, s, steps[0]), steps[1..])
  }

  /** Where the result that sticks comes from, and where it goes. */
  lemma ResultStep(c: Config, s: Sys, step: Step)
    requires Enabled(c, s, step)
    ensures var r := Apply(c, s, step);
      && (s.q.hr != S_OK ==> (r.q.hr == S_OK <==> Clears(s, step)) && OnlySegments(s.q.calls, r.q.calls))
      && (s.q.hr != S_OK && !Clears(s, step) && step != Terminate ==> r.q.hr == s.q.hr)
      && (s.q.hr == S_OK && r.q.hr != S_OK ==>
            step == Flushing(BeginFlush) || step == Terminate || (step.Work? && step.work == WorkerReturn(r.q.hr)))
      && (s.q.hr == S_OK && step.Work? && step.work.WorkerReturn? ==> r.q.hr == step.work.hr)
  {
    hide Frames, ReceiveRegion, TerminateRegion, ApplyControl, ApplyFlush, ApplyWorker, WellPaired, OnlySegments;
    SameCalls(s.q.calls);
    match step
    case Receive(xs) => ReceiveKeepsResult(c, s.q, xs);
    case Ask(a) => ControlAppends(s, a);
    case Flushing(f) => FlushResult(c, s, f);
    case Terminate => TerminateResult(s.q);
    case Work(w) => WorkResult(c, s, w);
  }

  /** At most one call more, and that a segment. */
  ghost predicate OnlySegments(before: seq<Call>, after: seq<Call>) {
    after == before || (|after| == |before| + 1 && before <= after && after[|before|].DeliverSegment?)
  }

  lemma SameCalls(calls: seq<Call>)
    ensures OnlySegments(calls, calls)
  {
  }

  lemma FlushResult(c: Config, s: Sys, f: FlushStep)
    requires FlushEnabled(c, s, f)
    ensures var r := ApplyFlush(c, s, f);
      r.q.calls == s.q.calls && r.q.hr == match f
        case BeginFlush => if s.q.hr == S_OK then S_FALSE else s.q.hr
        case EndFlushQuick => S_OK
        case EndFlushDone => S_OK
        case _ => s.q.hr
  {
    hide Quick;
  }

  lemma TerminateResult(q: QState)
    ensures TerminateRegion(q).hr == S_FALSE && TerminateRegion(q).calls == q.calls
  {
  }

  lemma WorkResult(c: Config, s: Sys, w: WorkerStep)
    requires WorkerEnabled(s, w)
    ensures var r := ApplyWorker(c, s, w);
      && r.q.hr == (if w.WorkerReturn? && s.q.hr == S_OK then w.hr
                    else if w.WorkerAfter? && s.pc.control.Reset? then S_OK else s.q.hr)
      && (s.q.hr != S_OK ==> OnlySegments(s.q.calls, r.q.calls))
  {
    hide Scan, SendEffect, Release, WellPaired;
    match w
    case WorkerScan => ScanKeepsResult(c, s.q);
    case WorkerSend => SendKeepsResult(s);
    case WorkerReturn(hr) => ReleaseKeeps(s.q.(hr := if s.q.hr == S_OK then hr else s.q.hr), s.pc.batch);
    case _ =>
  }

  lemma SendKeepsResult(s: Sys)
    requires s.pc.Sending?
    ensures SendEffect(s).q.hr == s.q.hr && (s.q.hr != S_OK ==> SendEffect(s).q.calls == s.q.calls)
  {
    hide Release;
    ReleaseKeeps(s.q, s.pc.batch);
  }

  lemma ReceiveKeepsResult(c: Config, q: QState, xs: seq<Sample>)
    ensures ReceiveRegion(c, q, xs).hr == q.hr && ReceiveRegion(c, q, xs).calls == q.calls
  {
  }

  lemma {:induction false} ScanKeepsResult(c: Config, q: QState)
    requires WellPaired(q.list)
    ensures Scan(c, q).0.hr == q.hr && Scan(c, q).0.calls == q.calls
    decreases |q.list|
  {
    hide WellPaired, SamplesIn;
    ScanOnceShrinks(c, q);
    if ScanOnce(c, q).Stop? {
    } else {
      ScanKeepsResult(c, ScanOnce(c, q).q);
    }
  }

  /**
   * An error sticks, on every run, until EndFlush or a RESET: meanwhile nothing goes downstream
   * but segments, neither samples nor EndOfStream.
   */
  lemma {:induction false} NothingSentWhileClosed(c: Config, s: Sys, steps: seq<Step>)
    requires Possible(c, s, steps) && s.q.hr != S_OK && NeverClears(c, s, steps)
    ensures var e := Exec(c, s, steps);
      && e.q.hr != S_OK && s.q.calls <= e.q.calls
      && forall i :: |s.q.calls| <= i < |e.q.calls| ==> e.q.calls[i].DeliverSegment?
    decreases |steps|
  {
    hide Apply, Enabled, Clears;
    if steps == [] {
    } else {
      ResultStep(c, s, steps[0]);
      NothingSentWhileClosed(c, Apply(c, s, steps[0]), steps[1..]);
    }
  }

  /**
   * While an error sticks, and so all through a flush, samples are released and EndOfStream and
   * NewSegment are dropped: nothing is listed for any of them.
   */
  lemma {:induction false} RefusedWhileClosed(c: Config, s: Sys, step: Step)
    requires GoodConfig(c) && Reachable(c, s) && Enabled(c, s, step) && (s.q.hr != S_OK || !s.flush.NoFlush?)
    requires step.Receive? || step == Ask(EndOfStream) || (step.Ask? && step.control.TestSegment?)
    ensures var r := Apply(c, s, step);
      && r.accepted == s.accepted && r.q.list == s.q.list && r.tested == s.tested && r.q.hr == s.q.hr
      && r.q.released == s.q.released + (if step.Receive? then multiset(step.xs) else multiset{})
  {
    hide AllOk, Reachable, WellPaired;
    ReachableOk(c, s);
    EmptyIsUnit(s.accepted);
    ClosedInFlush(c, s);
  }

  lemma ClosedInFlush(c: Config, s: Sys)
    requires AllOk(c, s)
    ensures !s.flush.NoFlush? ==> s.q.hr != S_OK
  {
    hide Conserved, WakeupsOk, PairedOk, Empty, Current, CallsInEpoch;
  }

  /** From where EndFlush sets m_bFlushed to where it returns, the flag stays set. */
  ghost predicate FlaggedOk(s: Sys) { s.flush.Flagged? ==> s.q.flushed }

  lemma FlaggedStep(c: Config, s: Sys, step: Step)
    requires FlushOk(c, s) && FlaggedOk(s) && Enabled(c, s, step)
    ensures FlaggedOk(Apply(c, s, step))
  {
    hide ApplyControl, Scan, SendEffect, Release, ControlEffect, Wrap, Frames, WellPaired, Empty, Current, CallsInEpoch;
    match step
    case Ask(a) => ControlAppends(s, a);
    case Work(w) =>
      if w.WorkerScan? {
        ScanFlushed(c, s.q);
      } else {
        WorkKept(c, s, w);
      }
    case _ =>
  }

  lemma {:induction false} FlaggedRun(c: Config, s: Sys, steps: seq<Step>)
    requires GoodConfig(c) && AllOk(c, s) && FlaggedOk(s) && Possible(c, s, steps)
    ensures FlaggedOk(Exec(c, s, steps))
    decreases |steps|
  {
    hide FlaggedOk, Apply, Enabled, Conserved, PairedOk, FlushOk, WakeupsOk;
    if steps == [] {
    } else {
      AllOkStep(c, s, steps[0]);
      FlaggedStep(c, s, steps[0]);
      FlaggedRun(c, Apply(c, s, steps[0]), steps[1..]);
    }
  }

  lemma {:induction false} ReachableFlagged(c: Config, s: Sys)
    requires GoodConfig(c) && Reachable(c, s)
    ensures FlaggedOk(s)
  {
    hide AllOk;
    var steps :| Possible(c, START, steps) && Exec(c, START, steps) == s;
    StartOk(c);
    FlaggedRun(c, START, steps);
  }

  /**
   * When EndFlush returns the queue is open, is marked as flushed, and holds no sample; over any run that follows,
   * without another flush, shutdown or error downstream, what has been sent since, in flight, batched
   * and listed is what survived the flush, which is no sample, and then exactly what is asked for.
   */
  lemma {:induction false} DeliveredSinceFlush(c: Config, s: Sys, f: FlushStep, steps: seq<Step>)
    requires GoodConfig(c) && Reachable(c, s) && !s.q.terminate
    requires Enabled(c, s, Flushing(f)) && (f.EndFlushQuick? || f.EndFlushDone?)
    requires Possible(c, Apply(c, s, Flushing(f)), steps) && forall i :: 0 <= i < |steps| ==> Smooth(steps[i])
    ensures var e := Apply(c, s, Flushing(f));
      var r := Exec(c, e, steps);
      && Open(e) && Empty(e) && e.q.flushed && e.q.calls == s.q.calls
      && Flat(r.q.calls) + (PcEvents(r.pc) + ToCome(r.q)) ==
         Flat(s.q.calls) + (PcEvents(s.pc) + ToCome(s.q)) + Asked(OpsOf(steps))
  {
    hide Exec, Possible, Conserved, PcOk, CallsOk, WellPaired, OpsOf, Asked, Smooth, Reachable, Empty, Flat, ToCome;
    FlushEmpties(c, s, f);
    ReachableFlagged(c, s);
    ReachableOk(c, s);
    AllOkStep(c, s, Flushing(f));
    SameHeld(s.q, Apply(c, s, Flushing(f)).q);
    DeliveredFrom(c, Apply(c, s, Flushing(f)), steps);
  }

  /**
   * RESET clears a sticky error: once the worker has dealt with the packet the queue is open,
   * unless a flush or the destructor has closed it, and delivers in order all it is then asked for.
   */
  lemma {:induction false} DeliveredSinceReset(c: Config, s: Sys, steps: seq<Step>)
    requires GoodConfig(c) && Reachable(c, s) && s.pc == AfterBatch(Reset) && !s.q.flushing && !s.q.terminate
    requires Possible(c, Apply(c, s, Work(WorkerAfter)), steps) && forall i :: 0 <= i < |steps| ==> Smooth(steps[i])
    ensures var e := Apply(c, s, Work(WorkerAfter));
      Open(e) && e.q.evFlush && e.q.calls == s.q.calls &&
      Total(Exec(c, e, steps)) == Flat(s.q.calls) + ToCome(s.q) + Asked(OpsOf(steps))
  {
    hide Exec, Possible, Conserved, PcOk, CallsOk, WellPaired, OpsOf, Asked, Smooth, Reachable, Flat, ToCome, FlushOk;
    var e := Apply(c, s, Work(WorkerAfter));
    ReachableOk(c, s);
    AllOkStep(c, s, Work(WorkerAfter));
    SameHeld(s.q, e.q);
    EmptyIsUnit(ToCome(s.q));
    DeliveredFrom(c, e, steps);
  }
}
