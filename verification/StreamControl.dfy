/**
 * CBaseStreamControl: one pending start and one pending stop, and the decision for
 * each sample. The decision made case by case, sample after sample, is shown to be
 * what the two commands mean on the time line.
 */
module StreamControl {
  import opened Wrappers
  import opened Words
  import opened RefTime

  datatype Flow = STREAM_FLOWING | STREAM_DISCARDING

  datatype FilterState = State_Stopped | State_Paused | State_Running

  /** EC_STREAM_CONTROL_STARTED or EC_STREAM_CONTROL_STOPPED, with the cookie the application gave. */
  datatype Notice = Started(cookie: nat) | Stopped(cookie: nat)

  datatype Control = Control(
    flow: Flow,           // m_StreamState
    onStop: Flow,         // m_StreamStateOnStop
    tStart: int64,        // MAX_TIME for none
    tStop: int64,
    startCookie: nat,
    stopCookie: nat,
    filter: FilterState,
    sendExtra: bool,
    extraSent: bool,
    log: seq<Notice>
  )

  const INITIAL_CONTROL :=
    Control(STREAM_FLOWING, STREAM_FLOWING, MAX_TIME, MAX_TIME, 0, 0, State_Stopped, false, false, [])

  /** Stopping discards, and cookies belong to pending commands. */
  predicate Consistent(c: Control) {
    && (c.onStop == if c.tStop < MAX_TIME then STREAM_DISCARDING else STREAM_FLOWING)
    && (c.tStart == MAX_TIME ==> c.startCookie == 0)
    && (c.tStop == MAX_TIME ==> c.stopCookie == 0)
  }

  // ---- What the commands mean ----

  /** The stream's state once every command before t has been carried out, a start ahead of a stop at the same time. */
  function FlowBefore(c: Control, t: int64): Flow {
    if c.tStart < t && c.tStop < t then if c.tStart <= c.tStop then STREAM_DISCARDING else STREAM_FLOWING
    else if c.tStart < t then STREAM_FLOWING
    else if c.tStop < t then STREAM_DISCARDING
    else c.flow
  }

  /** A sample is sent when the stream flows as it begins, or starts to flow within it. */
  predicate ShouldFlow(c: Control, s: int64, e: int64) {
    FlowBefore(c, s) == STREAM_FLOWING || s <= c.tStart < e
  }

  /** The commands a sample carries out: a start before its end, a stop before its start or before such a start. */
  predicate StartDone(c: Control, e: int64) { c.tStart < e }

  predicate StopDone(c: Control, s: int64, e: int64) { c.tStop < s || (c.tStop < c.tStart && StartDone(c, e)) }

  function StartNotice(c: Control): seq<Notice> { if c.startCookie != 0 then [Started(c.startCookie)] else [] }

  function StopNotice(c: Control): seq<Notice> { if c.stopCookie != 0 then [Stopped(c.stopCookie)] else [] }

  /** Both commands in the order of their times. */
  function BothNotices(c: Control): seq<Notice> {
    if c.tStart <= c.tStop then StartNotice(c) + StopNotice(c) else StopNotice(c) + StartNotice(c)
  }

  function Notices(c: Control, start: bool, stop: bool): seq<Notice> {
    if start && stop then BothNotices(c)
    else if start then StartNotice(c) else if stop then StopNotice(c) else []
  }

  /** The control after carrying out a start, a stop, or both in order of time. */
  function Done(c: Control, start: bool, stop: bool): Control {
    c.(flow := if start && (!stop || c.tStop < c.tStart) then STREAM_FLOWING else if stop then c.onStop else c.flow,
       tStart := if start then MAX_TIME else c.tStart,
       startCookie := if start then 0 else c.startCookie,
       tStop := if stop then MAX_TIME else c.tStop,
       stopCookie := if stop then 0 else c.stopCookie,
       onStop := if stop then STREAM_FLOWING else c.onStop,
       log := c.log + Notices(c, start, stop))
  }

  /** What one sample does to the control. */
  function AfterSample(c: Control, s: int64, e: int64): Control {
    Done(c, StartDone(c, e), StopDone(c, s, e))
  }

  /**
   * One pass of CheckStreamState: what CheckSampleTimes says, except that one sample more is sent
   * after a stop that asked for it.
   */
  function Pass(c: Control, s: int64, e: int64): (Control, Flow) {
    var r := AfterSample(c, s, e);
    if r.flow == STREAM_FLOWING then (r, STREAM_FLOWING)
    else if r.sendExtra && !r.extraSent && r.tStop == MAX_TIME then (r.(extraSent := true), STREAM_FLOWING)
    else (r, STREAM_DISCARDING)
  }

  // ---- Commands ----

  datatype Command =
    | StopAt(t: int64, extra: bool, cookie: nat)   // t == MAX_TIME cancels
    | StopNow
    | StartAt(t: int64, cookie: nat)
    | StartNow

  function WithoutStop(c: Control): Control {
    c.(tStop := MAX_TIME, stopCookie := 0, onStop := STREAM_FLOWING)
  }

  function WithoutStart(c: Control): Control { c.(tStart := MAX_TIME, startCookie := 0) }

  function AfterCommand(c: Control, k: Command): Control {
    var idle := c.filter == State_Stopped;
    match k
    case StopNow =>
      WithoutStop(c).(flow := STREAM_DISCARDING, sendExtra := false, extraSent := false)
    case StopAt(t, extra, cookie) =>
      if t == MAX_TIME then
        WithoutStop(c).(flow := if idle && c.tStart < MAX_TIME then STREAM_DISCARDING else c.flow,
                       sendExtra := false, extraSent := false)
      else
        c.(tStop := t, stopCookie := cookie, onStop := STREAM_DISCARDING,
           flow := if idle && c.tStart > t then STREAM_FLOWING else c.flow,
           sendExtra := extra, extraSent := false)
    case StartNow => WithoutStart(c).(flow := STREAM_FLOWING)
    case StartAt(t, cookie) =>
      if t == MAX_TIME then
        WithoutStart(c).(flow := if idle && c.tStop < MAX_TIME then STREAM_FLOWING else c.flow)
      else
        c.(tStart := t, startCookie := cookie, flow := if idle && c.tStop >= t then STREAM_DISCARDING else c.flow)
  }

  function AfterFilterState(c: Control, state: FilterState): Control {
    if c.filter == state then c
    else if state == State_Stopped then
      Done(c, c.tStart != MAX_TIME, c.tStop != MAX_TIME).(flow := STREAM_FLOWING, filter := state)
    else c.(filter := state)
  }

  // ---- A sample held back ----

  /** What another thread does to the control while a sample is held back. */
  datatype Change = Commanded(command: Command) | Filtered(state: FilterState)

  function AfterChange(c: Control, x: Change): Control {
    match x
    case Commanded(k) => AfterCommand(c, k)
    case Filtered(state) => AfterFilterState(c, state)
  }

  function AfterChanges(c: Control, xs: seq<Change>): Control
    decreases |xs|
  {
    if xs == [] then c else AfterChanges(AfterChange(c, xs[0]), xs[1..])
  }

  /** The event ends a wait after these changes; `flushing` is what the next pass then finds. */
  datatype Wake = Wake(changes: seq<Change>, flushing: bool)

  /** One pass: the control, the decision, and whether the sample is held back rather than finally decided. */
  function OnePass(c: Control, times: Option<Span>, flushing: bool): (Control, Flow, bool) {
    if flushing || c.filter == State_Stopped then (c, STREAM_DISCARDING, false)
    else if times.None? then (c, c.flow, false)
    else
      var (r, flow) := Pass(c, times.value.s, times.value.e);
      (r, flow, flow == STREAM_DISCARDING)
  }

  /** Passes until one decides, or until a wait times out (or is not worth while): then the wakes have run out. */
  function CheckAll(c: Control, times: Option<Span>, flushing: bool, wakes: seq<Wake>): (Control, Flow)
    decreases |wakes|
  {
    var (r, flow, held) := OnePass(c, times, flushing);
    if !held || wakes == [] then (r, flow)
    else CheckAll(AfterChanges(r, wakes[0].changes), times, wakes[0].flushing, wakes[1..])
  }

  // ---- The object ----

  class CBaseStreamControl {
    var m_StreamState: Flow
    var m_StreamStateOnStop: Flow
    var m_tStartTime: int64
    var m_tStopTime: int64
    var m_dwStartCookie: nat
    var m_dwStopCookie: nat
    var m_FilterState: FilterState
    var m_bStopSendExtra: bool
    var m_bStopExtraSent: bool
    var log: seq<Notice>

    function State(): Control
      reads this
    {
      Control(m_StreamState, m_StreamStateOnStop, m_tStartTime, m_tStopTime, m_dwStartCookie, m_dwStopCookie,
              m_FilterState, m_bStopSendExtra, m_bStopExtraSent, log)
    }

    constructor ()
      ensures State() == INITIAL_CONTROL
    {
      m_StreamState, m_StreamStateOnStop := STREAM_FLOWING, STREAM_FLOWING;
      m_tStartTime, m_tStopTime, m_dwStartCookie, m_dwStopCookie := MAX_TIME, MAX_TIME, 0, 0;
      m_FilterState, m_bStopSendExtra, m_bStopExtraSent, log := State_Stopped, false, false, [];
    }

    method ExecuteStop()
      modifies this
      ensures State() == Done(old(State()), false, true)
    {
      m_StreamState := m_StreamStateOnStop;
      if m_dwStopCookie != 0 {
        log := log + [Stopped(m_dwStopCookie)];
      }
      CancelStop();
    }

    method ExecuteStart()
      modifies this
      ensures State() == Done(old(State()), true, false)
    {
      m_StreamState := STREAM_FLOWING;
      if m_dwStartCookie != 0 {
        log := log + [Started(m_dwStartCookie)];
      }
      CancelStart();
    }

    method CancelStop()
      modifies this
      ensures State() == WithoutStop(old(State()))
    {
      m_tStopTime := MAX_TIME;
      m_dwStopCookie := 0;
      m_StreamStateOnStop := STREAM_FLOWING;
    }

    method CancelStart()
      modifies this
      ensures State() == WithoutStart(old(State()))
    {
      m_tStartTime := MAX_TIME;
      m_dwStartCookie := 0;
    }

    method StopThenStart()
      requires m_tStopTime < m_tStartTime
      modifies this
      ensures State() == Done(old(State()), true, true)
    {
      ghost var c := State();
      ExecuteStop();
      ExecuteStart();
      StopStartDone(c);
    }

    method StartThenStop()
      requires m_tStartTime <= m_tStopTime
      modifies this
      ensures State() == Done(old(State()), true, true)
    {
      ghost var c := State();
      ExecuteStart();
      ExecuteStop();
      StartStopDone(c);
    }

    /** The nineteen cases. */
    method CheckSampleTimes(s: int64, e: int64) returns (flow: Flow)
      modifies this
      ensures State() == AfterSample(old(State()), s, e) && flow == State().flow
    {
      hide Done;
      NothingDone(State());
      if m_tStopTime >= s {
        if m_tStartTime >= e {
          return m_StreamState;
        }
        if m_tStopTime < m_tStartTime {
          StopThenStart();
        } else {
          ExecuteStart();
        }
        return m_StreamState;
      }
      if m_tStartTime >= e {
        ExecuteStop();
        return m_StreamState;
      }
      if m_tStartTime <= m_tStopTime {
        StartThenStop();
      } else {
        StopThenStart();
      }
      return m_StreamState;
    }

    /** A pass for a sample with times, or None. */
    method CheckOnce(times: Option<Span>, flushing: bool) returns (state: Flow, held: bool)
      modifies this
      ensures (State(), state, held) == OnePass(old(State()), times, flushing)
    {
      hide AfterSample;
      if flushing || m_FilterState == State_Stopped {
        return STREAM_DISCARDING, false;
      }
      if times.None? {
        return m_StreamState, false;
      }
      state := CheckSampleTimes(times.value.s, times.value.e);
      SameFilter(old(State()), times.value.s, times.value.e);
      held := false;
      if state == STREAM_FLOWING {
        return;
      }
      if m_bStopSendExtra && !m_bStopExtraSent && m_tStopTime == MAX_TIME && m_FilterState != State_Stopped {
        m_bStopExtraSent := true;
        state := STREAM_FLOWING;
        return;
      }
      held := true;
    }

    /** The other threads' calls during a wait. */
    method Others(changes: seq<Change>)
      modifies this
      ensures State() == AfterChanges(old(State()), changes)
    {
      hide AfterCommand, AfterFilterState;
      var i := 0;
      assert changes[0..] == changes;
      while i < |changes|
        invariant 0 <= i <= |changes| && AfterChanges(State(), changes[i..]) == AfterChanges(old(State()), changes)
      {
        assert changes[i..][0] == changes[i] && changes[i..][1..] == changes[i + 1..];
        match changes[i] {
          case Commanded(StopAt(t, extra, cookie)) => StopAtTime(Some(t), extra, cookie);
          case Commanded(StopNow) => StopAtTime(None, false, 0);
          case Commanded(StartAt(t, cookie)) => StartAtTime(Some(t), cookie);
          case Commanded(StartNow) => StartAtTime(None, 0);
          case Filtered(state) => NotifyFilterState(state);
        }
        i := i + 1;
      }
    }

    /** CheckStreamState with its wait: while the sample is held back, each wake has it looked at again. */
    method CheckStreamState(times: Option<Span>, flushing: bool, wakes: seq<Wake>) returns (state: Flow)
      modifies this
      ensures (State(), state) == CheckAll(old(State()), times, flushing, wakes)
    {
      hide OnePass, AfterChanges;
      var i, now := 0, flushing;
      assert wakes[0..] == wakes;
      while true
        invariant 0 <= i <= |wakes|
        invariant CheckAll(State(), times, now, wakes[i..]) == CheckAll(old(State()), times, flushing, wakes)
        decreases |wakes| - i
      {
        var held;
        state, held := CheckOnce(times, now);
        if !held || i == |wakes| {
          return;
        }
        assert wakes[i..][0] == wakes[i] && wakes[i..][1..] == wakes[i + 1..];
        Others(wakes[i].changes);
        now, i := wakes[i].flushing, i + 1;
      }
    }

    method StopAtTime(ptStop: Option<int64>, bSendExtra: bool, dwCookie: nat)
      modifies this
      ensures State() == AfterCommand(old(State()), if ptStop.None? then StopNow else StopAt(ptStop.value, bSendExtra, dwCookie))
    {
      m_bStopSendExtra := false;
      m_bStopExtraSent := false;
      match ptStop
      case Some(t) =>
        if t == MAX_TIME {
          CancelStop();
          if m_FilterState == State_Stopped && m_tStartTime < MAX_TIME {
            m_StreamState := STREAM_DISCARDING;
          }
          return;
        }
        if m_FilterState == State_Stopped && m_tStartTime > t {
          m_StreamState := STREAM_FLOWING;
        }
        m_bStopSendExtra := bSendExtra;
        m_tStopTime := t;
        m_dwStopCookie := dwCookie;
        m_StreamStateOnStop := STREAM_DISCARDING;
      case None =>
        m_tStopTime := MAX_TIME;
        m_dwStopCookie := 0;
        m_StreamState := STREAM_DISCARDING;
        m_StreamStateOnStop := STREAM_FLOWING;
    }

    method StartAtTime(ptStart: Option<int64>, dwCookie: nat)
      modifies this
      ensures State() == AfterCommand(old(State()), if ptStart.None? then StartNow else StartAt(ptStart.value, dwCookie))
    {
      match ptStart
      case Some(t) =>
        if t == MAX_TIME {
          CancelStart();
          if m_FilterState == State_Stopped && m_tStopTime < MAX_TIME {
            m_StreamState := STREAM_FLOWING;
          }
          return;
        }
        if m_FilterState == State_Stopped && m_tStopTime >= t {
          m_StreamState := STREAM_DISCARDING;
        }
        m_tStartTime := t;
        m_dwStartCookie := dwCookie;
      case None =>
        m_tStartTime := MAX_TIME;
        m_dwStartCookie := 0;
        m_StreamState := STREAM_FLOWING;
    }

    method NotifyFilterState(new_state: FilterState)
      modifies this
      ensures State() == AfterFilterState(old(State()), new_state)
    {
      hide Done;
      if m_FilterState == new_state {
        return;
      }
      if new_state == State_Stopped {
        NothingDone(State());
        ghost var c := State();
        if m_tStartTime != MAX_TIME && m_tStopTime == MAX_TIME {
          ExecuteStart();
        } else if m_tStopTime != MAX_TIME && m_tStartTime == MAX_TIME {
          ExecuteStop();
        } else if m_tStopTime != MAX_TIME && m_tStartTime != MAX_TIME {
          if m_tStartTime <= m_tStopTime {
            StartThenStop();
          } else {
            StopThenStart();
          }
        }
        assert State() == Done(c, c.tStart != MAX_TIME, c.tStop != MAX_TIME);
        m_StreamState := STREAM_FLOWING;
      }
      m_FilterState := new_state;
    }
  }

  lemma StopStartDone(c: Control)
    requires c.tStop < c.tStart
    ensures Done(Done(c, false, true), true, false) == Done(c, true, true)
  {
  }

  lemma StartStopDone(c: Control)
    requires c.tStart <= c.tStop
    ensures Done(Done(c, true, false), false, true) == Done(c, true, true)
  {
  }

  lemma NothingDone(c: Control)
    ensures Done(c, false, false) == c
  {
  }

  // ---- One sample ----

  /** The decision is what the commands mean, for every placing of start, stop and sample. */
  lemma DecisionMeansCommands(c: Control, s: int64, e: int64)
    requires Consistent(c) && s <= e
    ensures AfterSample(c, s, e).flow == STREAM_FLOWING <==> ShouldFlow(c, s, e)
    ensures Consistent(AfterSample(c, s, e))
  {
  }

  /**
   * Seen from where an earlier sample left it, the control acts as the two commands would have
   * acted on a later sample alone, and ends up the same. Samples may overlap, provided neither
   * their starts nor their ends go backwards.
   */
  lemma {:induction false} LaterSampleAbsorbs(c: Control, s: int64, e: int64, s2: int64, e2: int64)
    requires Consistent(c) && s <= e && s2 <= e2 && s <= s2 && e <= e2
    ensures AfterSample(AfterSample(c, s, e), s2, e2) == AfterSample(c, s2, e2)
  {
  }

  /** Checking the same sample again changes nothing and gives the same answer. */
  lemma {:induction false} RecheckChangesNothing(c: Control, s: int64, e: int64)
    requires Consistent(c) && s <= e
    ensures AfterSample(AfterSample(c, s, e), s, e) == AfterSample(c, s, e)
  {
  }

  // ---- Runs of samples ----

  datatype Span = Span(s: int64, e: int64)

  /** Samples whose starts and whose ends do not go backwards; in particular any that do not overlap. */
  ghost predicate Ordered(xs: seq<Span>) {
    && (forall i :: 0 <= i < |xs| ==> xs[i].s <= xs[i].e)
    && (forall i, j :: 0 <= i < j < |xs| ==> xs[i].s <= xs[j].s && xs[i].e <= xs[j].e)
  }

  function Run(c: Control, xs: seq<Span>): Control {
    if xs == [] then c else AfterSample(Run(c, xs[..|xs| - 1]), xs[|xs| - 1].s, xs[|xs| - 1].e)
  }

  /** A run of samples leaves the control as its last sample alone would have. */
  lemma {:induction false} RunIsLast(c: Control, xs: seq<Span>)
    requires Consistent(c) && Ordered(xs) && xs != []
    ensures Run(c, xs) == AfterSample(c, xs[|xs| - 1].s, xs[|xs| - 1].e)
  {
    hide AfterSample, Consistent;
    var rest, x := xs[..|xs| - 1], xs[|xs| - 1];
    if rest == [] {
    } else {
      RunIsLast(c, rest);
      LaterSampleAbsorbs(c, rest[|rest| - 1].s, rest[|rest| - 1].e, x.s, x.e);
    }
  }

  /**
   * In any ordered run of samples, each sample is sent exactly when the commands before it leave
   * the stream flowing or the start lies within it, however many samples came before; and the
   * application has been told of each command that has come due once, in order of time.
   */
  lemma {:induction false} SampleFlowsIff(c: Control, xs: seq<Span>, i: nat)
    requires Consistent(c) && Ordered(xs) && i < |xs|
    ensures Run(c, xs[..i + 1]).flow == STREAM_FLOWING <==> ShouldFlow(c, xs[i].s, xs[i].e)
    ensures Run(c, xs[..i + 1]).log ==
            c.log + Notices(c, StartDone(c, xs[i].e), StopDone(c, xs[i].s, xs[i].e))
  {
    var seen := xs[..i + 1];
    RunIsLast(c, seen);
    DecisionMeansCommands(c, xs[i].s, xs[i].e);
  }

  lemma SameFilter(c: Control, s: int64, e: int64)
    ensures AfterSample(c, s, e).filter == c.filter
  {
  }

  // ---- The extra sample ----

  /** A sample the commands would not send, though a stop has been carried out that asked for one more. */
  ghost predicate Extra(c: Control, x: Span) {
    c.sendExtra && !c.extraSent && !ShouldFlow(c, x.s, x.e) && (c.tStop == MAX_TIME || StopDone(c, x.s, x.e))
  }

  function PassRun(c: Control, xs: seq<Span>): Control {
    if xs == [] then c else Pass(PassRun(c, xs[..|xs| - 1]), xs[|xs| - 1].s, xs[|xs| - 1].e).0
  }

  /** AfterSample neither reads nor writes the mark that the extra sample has gone. */
  lemma MarkPasses(c: Control, s: int64, e: int64, mark: bool)
    ensures AfterSample(c.(extraSent := mark), s, e) == AfterSample(c, s, e).(extraSent := mark)
    ensures AfterSample(c, s, e).extraSent == c.extraSent && AfterSample(c, s, e).sendExtra == c.sendExtra
    ensures AfterSample(c, s, e).tStop == if StopDone(c, s, e) then MAX_TIME else c.tStop
  {
  }

  ghost predicate ExtraAmong(c: Control, xs: seq<Span>) { exists i :: 0 <= i < |xs| && Extra(c, xs[i]) }

  lemma ExtraAmongLast(c: Control, xs: seq<Span>)
    requires xs != []
    ensures ExtraAmong(c, xs) <==> ExtraAmong(c, xs[..|xs| - 1]) || Extra(c, xs[|xs| - 1])
  {
  }

  /** Passes do what checks do, and mark the extra sample once one qualifies. */
  lemma {:induction false} PassRunIs(c: Control, xs: seq<Span>)
    requires Consistent(c) && Ordered(xs)
    ensures PassRun(c, xs) == Run(c, xs).(extraSent := c.extraSent || ExtraAmong(c, xs))
    decreases |xs|
  {
    hide AfterSample, Extra, ExtraAmong, Ordered, Consistent;
    if xs == [] {
      NoExtra(c);
    } else {
      var rest := xs[..|xs| - 1];
      OrderedPrefix(xs);
      PassRunIs(c, rest);
      ExtraAmongLast(c, xs);
      PassIs(c, xs);
    }
  }

  lemma NoExtra(c: Control)
    ensures !ExtraAmong(c, [])
  {
  }

  lemma OrderedPrefix(xs: seq<Span>)
    requires Ordered(xs) && xs != []
    ensures Ordered(xs[..|xs| - 1]) && xs[|xs| - 1].s <= xs[|xs| - 1].e
  {
  }

  /** The last pass of a run, from where the passes before it left the control. */
  lemma PassIs(c: Control, xs: seq<Span>)
    requires Consistent(c) && Ordered(xs) && xs != []
    requires var rest := xs[..|xs| - 1]; PassRun(c, rest) == Run(c, rest).(extraSent := c.extraSent || ExtraAmong(c, rest))
    ensures var rest, x := xs[..|xs| - 1], xs[|xs| - 1];
      var (r, flow) := Pass(PassRun(c, rest), x.s, x.e);
      && r == Run(c, xs).(extraSent := c.extraSent || ExtraAmong(c, rest) || Extra(c, x))
      && (flow == STREAM_FLOWING <==> ShouldFlow(c, x.s, x.e) || (Extra(c, x) && !ExtraAmong(c, rest)))
  {
    hide AfterSample, ExtraAmong, Ordered, Consistent, ShouldFlow, StopDone;
    var rest, x := xs[..|xs| - 1], xs[|xs| - 1];
    var mark := c.extraSent || ExtraAmong(c, rest);
    OrderedPrefix(xs);
    MarkPasses(Run(c, rest), x.s, x.e, mark);
    RunIsLast(c, xs);
    MarkPasses(c, x.s, x.e, c.extraSent);
    DecisionMeansCommands(c, x.s, x.e);
    NoneWhenSent(c, rest);
    assert AfterSample(PassRun(c, rest), x.s, x.e) == Run(c, xs).(extraSent := mark);
  }

  lemma NoneWhenSent(c: Control, xs: seq<Span>)
    ensures c.extraSent || !c.sendExtra ==> !ExtraAmong(c, xs)
  {
  }

  /**
   * In an ordered run of samples each is sent exactly when the commands send it or it is the
   * first they would not send once a stop that asked for an extra sample has been carried out.
   */
  lemma {:induction false} ExtraSampleOnce(c: Control, xs: seq<Span>, i: nat)
    requires Consistent(c) && Ordered(xs) && i < |xs|
    ensures Pass(PassRun(c, xs[..i]), xs[i].s, xs[i].e).1 == STREAM_FLOWING <==>
            ShouldFlow(c, xs[i].s, xs[i].e) || (Extra(c, xs[i]) && forall j :: 0 <= j < i ==> !Extra(c, xs[j]))
  {
    hide AfterSample, Extra, Consistent, ShouldFlow;
    var seen := xs[..i + 1];
    assert seen[..|seen| - 1] == xs[..i];
    PassRunIs(c, xs[..i]);
    PassIs(c, seen);
    assert ExtraAmong(c, xs[..i]) <==> exists j :: 0 <= j < i && Extra(c, xs[j]) by {
      if j :| 0 <= j < i && Extra(c, xs[j]) {
        assert xs[..i][j] == xs[j];
      }
    }
  }

  // ---- What waking changes ----

  /** A sample held back stays held back, and the control as it is, however often it is looked at with nothing changed. */
  lemma {:induction false} IdleWakes(c: Control, x: Span, wakes: seq<Wake>)
    requires Consistent(c) && x.s <= x.e && c.filter != State_Stopped
    requires forall i :: 0 <= i < |wakes| ==> wakes[i] == Wake([], false)
    ensures CheckAll(c, Some(x), false, wakes) == Pass(c, x.s, x.e)
    decreases |wakes|
  {
    hide AfterSample, Consistent;
    var r := AfterSample(c, x.s, x.e);
    SameFilter(c, x.s, x.e);
    MarkPasses(c, x.s, x.e, c.extraSent);
    DecisionMeansCommands(c, x.s, x.e);
    RecheckChangesNothing(c, x.s, x.e);
    if wakes == [] || Pass(c, x.s, x.e).1 != STREAM_DISCARDING {
    } else {
      assert AfterChanges(r, []) == r;
      IdleWakes(r, x, wakes[1..]);
    }
  }

  /** Starting the stream while a sample is held back has that sample sent. */
  lemma {:induction false} StartReleases(c: Control, x: Span, more: seq<Wake>)
    requires Consistent(c) && x.s <= x.e && c.filter != State_Stopped && Pass(c, x.s, x.e).1 == STREAM_DISCARDING
    ensures CheckAll(c, Some(x), false, [Wake([Commanded(StartNow)], false)] + more).1 == STREAM_FLOWING
  {
    var wakes := [Wake([Commanded(StartNow)], false)] + more;
    var r := AfterSample(c, x.s, x.e);
    SameFilter(c, x.s, x.e);
    var one := [Commanded(StartNow)];
    assert one[1..] == [];
    assert AfterChanges(r, one) == AfterCommand(r, StartNow);
    var k := AfterCommand(r, StartNow);
    DecisionMeansCommands(c, x.s, x.e);
    assert Consistent(k) && FlowBefore(k, x.s) == STREAM_FLOWING;
    DecisionMeansCommands(k, x.s, x.e);
    assert wakes[0] == Wake(one, false);
  }

  // ---- What a command does to the samples after it ----

  /** Whether a sample is sent with a start due at `start` and a stop due at `stop`, the stream being as in c until then. */
  predicate Sends(c: Control, start: int64, stop: int64, s: int64, e: int64) {
    if start < e then !(start <= stop < s) else s <= stop && c.flow == STREAM_FLOWING
  }

  /** Stopping now, only a start still to come has a later sample sent, and no extra one is. */
  lemma {:induction false} StopNowStops(c: Control, s: int64, e: int64)
    requires Consistent(c) && s <= e
    ensures ShouldFlow(AfterCommand(c, StopNow), s, e) <==> c.tStart < e
    ensures !Extra(AfterCommand(c, StopNow), Span(s, e))
  {
  }

  /** With no start pending, stopping now has no sample of any later run sent. */
  lemma {:induction false} NothingAfterStopNow(c: Control, xs: seq<Span>, i: nat)
    requires Consistent(c) && Ordered(xs) && i < |xs| && c.tStart == MAX_TIME
    ensures Pass(PassRun(AfterCommand(c, StopNow), xs[..i]), xs[i].s, xs[i].e).1 == STREAM_DISCARDING
  {
    hide AfterSample, PassRun, ShouldFlow, Extra;
    var r := AfterCommand(c, StopNow);
    assert Consistent(r);
    StopNowStops(c, xs[i].s, xs[i].e);
    ExtraSampleOnce(r, xs, i);
  }

  /** Starting now, a later sample is sent unless a stop comes before it. */
  lemma {:induction false} StartNowStarts(c: Control, s: int64, e: int64)
    requires Consistent(c) && s <= e
    ensures ShouldFlow(AfterCommand(c, StartNow), s, e) <==> s <= c.tStop
  {
  }

  /** With no stop pending, starting now has every sample of any later run sent. */
  lemma {:induction false} EverythingAfterStartNow(c: Control, xs: seq<Span>, i: nat)
    requires Consistent(c) && Ordered(xs) && i < |xs| && c.tStop == MAX_TIME
    ensures Pass(PassRun(AfterCommand(c, StartNow), xs[..i]), xs[i].s, xs[i].e).1 == STREAM_FLOWING
  {
    hide AfterSample, PassRun, ShouldFlow, Extra;
    var r := AfterCommand(c, StartNow);
    assert Consistent(r);
    StartNowStarts(c, xs[i].s, xs[i].e);
    ExtraSampleOnce(r, xs, i);
  }

  /**
   * While the filter is not stopped, a stop asked for at t takes the place of the one pending,
   * MAX_TIME for none, and changes nothing else about which samples are sent; the extra sample is
   * the one asked for with it, and comes after t.
   */
  lemma {:induction false} StopAtTakes(c: Control, t: int64, extra: bool, cookie: nat, s: int64, e: int64)
    requires Consistent(c) && c.filter != State_Stopped && s <= e
    ensures var r := AfterCommand(c, StopAt(t, extra, cookie));
      && (ShouldFlow(r, s, e) <==> Sends(c, c.tStart, t, s, e))
      && (Extra(r, Span(s, e)) <==> extra && t < s && !Sends(c, c.tStart, t, s, e))
  {
  }

  /** Likewise a start; the extra sample asked for with the stop stays as it is. */
  lemma {:induction false} StartAtTakes(c: Control, t: int64, cookie: nat, s: int64, e: int64)
    requires Consistent(c) && c.filter != State_Stopped && s <= e
    ensures var r := AfterCommand(c, StartAt(t, cookie));
      && (ShouldFlow(r, s, e) <==> Sends(c, t, c.tStop, s, e))
      && r.sendExtra == c.sendExtra && r.extraSent == c.extraSent
  {
  }

  /** A stopped filter has no sample sent, and held back none, whatever was pending or is asked for meanwhile. */
  lemma {:induction false} NothingWhileStopped(c: Control, times: Option<Span>, flushing: bool, commands: seq<Change>, wakes: seq<Wake>)
    requires forall i :: 0 <= i < |commands| ==> commands[i].Commanded?
    ensures CheckAll(AfterChanges(AfterFilterState(c, State_Stopped), commands), times, flushing, wakes).1 == STREAM_DISCARDING
  {
    CommandsKeepFilter(AfterFilterState(c, State_Stopped), commands);
  }

  lemma {:induction false} CommandsKeepFilter(c: Control, commands: seq<Change>)
    requires forall i :: 0 <= i < |commands| ==> commands[i].Commanded?
    ensures AfterChanges(c, commands).filter == c.filter
    decreases |commands|
  {
    if commands == [] {
    } else {
      CommandsKeepFilter(AfterChange(c, commands[0]), commands[1..]);
    }
  }

  /** Stopped and set going again, the stream flows: every sample is sent until new commands are given. */
  lemma {:induction false} FlowsAgain(c: Control, state: FilterState, x: Span, wakes: seq<Wake>)
    requires Consistent(c) && c.filter != State_Stopped && state != State_Stopped && x.s <= x.e
    ensures CheckAll(AfterFilterState(AfterFilterState(c, State_Stopped), state), Some(x), false, wakes).1 == STREAM_FLOWING
  {
    hide Consistent, AfterSample, Done;
    var d := AfterFilterState(c, State_Stopped);
    FilterSettles(c);
    var r := d.(filter := state);
    assert r.flow == STREAM_FLOWING && r.tStart == MAX_TIME && r.tStop == MAX_TIME;
    FlowingStays(r, x.s, x.e);
  }

  lemma FilterSettles(c: Control)
    requires c.filter != State_Stopped
    ensures var d := AfterFilterState(c, State_Stopped);
      d.flow == STREAM_FLOWING && d.tStart == MAX_TIME && d.tStop == MAX_TIME && d.filter == State_Stopped
  {
  }

  lemma FlowingStays(c: Control, s: int64, e: int64)
    requires c.flow == STREAM_FLOWING && c.tStart == MAX_TIME && c.tStop == MAX_TIME
    ensures AfterSample(c, s, e).flow == STREAM_FLOWING
  {
  }

  /** While the filter flushes no sample is sent, and none is held back. */
  lemma {:induction false} NothingWhileFlushing(c: Control, times: Option<Span>, wakes: seq<Wake>)
    ensures CheckAll(c, times, true, wakes) == (c, STREAM_DISCARDING)
  {
  }

  /** A sample without times is sent or discarded at once, as the stream flows or not, and carries out no command. */
  lemma {:induction false} UntimedFollowsStream(c: Control, wakes: seq<Wake>)
    requires c.filter != State_Stopped
    ensures CheckAll(c, None, false, wakes) == (c, c.flow)
  {
  }

  // ---- Whole lives ----

  datatype Step = Issue(command: Command) | Sample(s: int64, e: int64) | Filter(state: FilterState)

  /** A control with a record of what was asked of it and what later commands overrode. */
  datatype Life = Life(c: Control, issued: multiset<Notice>, overridden: multiset<Notice>)

  ghost function Apply(l: Life, step: Step): Life {
    match step
    case Issue(k) => Life(AfterCommand(l.c, k), l.issued + Asks(k), l.overridden + Overrides(l.c, k))
    case Sample(s, e) => l.(c := AfterSample(l.c, s, e))
    case Filter(state) => l.(c := AfterFilterState(l.c, state))
  }

  ghost function StartDue(c: Control): multiset<Notice> {
    if c.startCookie != 0 then multiset{Started(c.startCookie)} else multiset{}
  }

  ghost function StopDue(c: Control): multiset<Notice> {
    if c.stopCookie != 0 then multiset{Stopped(c.stopCookie)} else multiset{}
  }

  /** The pending notification a command does away with. */
  ghost function Overrides(c: Control, k: Command): multiset<Notice> {
    if k.StopAt? || k.StopNow? then StopDue(c) else StartDue(c)
  }

  /** The notification a command asks for. */
  ghost function Asks(k: Command): multiset<Notice> {
    match k
    case StopAt(t, _, cookie) => if t < MAX_TIME && cookie != 0 then multiset{Stopped(cookie)} else multiset{}
    case StartAt(t, cookie) => if t < MAX_TIME && cookie != 0 then multiset{Started(cookie)} else multiset{}
    case _ => multiset{}
  }

  ghost function PendingNotices(c: Control): multiset<Notice> { StartDue(c) + StopDue(c) }

  ghost predicate Accounted(l: Life) {
    Consistent(l.c) && l.issued == multiset(l.c.log) + PendingNotices(l.c) + l.overridden
  }

  lemma DoneAccounts(c: Control, start: bool, stop: bool)
    ensures var r := Done(c, start, stop); multiset(r.log) + PendingNotices(r) == multiset(c.log) + PendingNotices(c)
  {
  }

  lemma StopAccounts(c: Control, k: Command)
    requires Consistent(c) && (k.StopAt? || k.StopNow?)
    ensures var r := AfterCommand(c, k);
      Consistent(r) && r.log == c.log && StartDue(r) == StartDue(c) && StopDue(r) == Asks(k)
  {
    var r := AfterCommand(c, k);
    assert r.tStart == c.tStart && r.startCookie == c.startCookie;
    if k.StopAt? && k.t < MAX_TIME {
      assert r.stopCookie == k.cookie && r.tStop == k.t;
    } else {
      assert r.stopCookie == 0 && r.tStop == MAX_TIME;
    }
  }

  lemma StartAccounts(c: Control, k: Command)
    requires Consistent(c) && (k.StartAt? || k.StartNow?)
    ensures var r := AfterCommand(c, k);
      Consistent(r) && r.log == c.log && StopDue(r) == StopDue(c) && StartDue(r) == Asks(k)
  {
    var r := AfterCommand(c, k);
    assert r.tStop == c.tStop && r.stopCookie == c.stopCookie && r.onStop == c.onStop;
    if k.StartAt? && k.t < MAX_TIME {
      assert r.startCookie == k.cookie && r.tStart == k.t;
    } else {
      assert r.startCookie == 0 && r.tStart == MAX_TIME;
    }
  }

  lemma CommandAccounts(c: Control, k: Command)
    requires Consistent(c)
    ensures var r := AfterCommand(c, k);
      Consistent(r) && r.log == c.log && PendingNotices(r) + Overrides(c, k) == PendingNotices(c) + Asks(k)
  {
    hide AfterCommand, StopDue, StartDue, Asks, Consistent;
    if k.StopAt? || k.StopNow? {
      StopAccounts(c, k);
    } else {
      StartAccounts(c, k);
    }
  }

  lemma DoneConsistent(c: Control, start: bool, stop: bool)
    requires Consistent(c)
    ensures Consistent(Done(c, start, stop))
  {
  }

  lemma Exchange(told: multiset<Notice>, due: multiset<Notice>, over: multiset<Notice>,
                 asked: multiset<Notice>, due2: multiset<Notice>, gone: multiset<Notice>)
    requires due2 + gone == due + asked
    ensures told + due + over + asked == told + due2 + (over + gone)
  {
    assert told + due + over + asked == told + (due + asked) + over;
  }

  lemma AccountedStep(l: Life, step: Step)
    requires Accounted(l)
    ensures Accounted(Apply(l, step))
  {
    hide Done, AfterCommand, AfterFilterState, PendingNotices, Asks, Overrides, Consistent;
    match step
    case Issue(k) =>
      CommandAccounts(l.c, k);
      Exchange(multiset(l.c.log), PendingNotices(l.c), l.overridden, Asks(k),
               PendingNotices(AfterCommand(l.c, k)), Overrides(l.c, k));
    case Sample(s, e) =>
      DoneAccounts(l.c, StartDone(l.c, e), StopDone(l.c, s, e));
      DoneConsistent(l.c, StartDone(l.c, e), StopDone(l.c, s, e));
    case Filter(state) => FilterAccounts(l.c, state);
  }

  lemma FilterAccounts(c: Control, state: FilterState)
    requires Consistent(c)
    ensures var r := AfterFilterState(c, state);
      Consistent(r) && multiset(r.log) + PendingNotices(r) == multiset(c.log) + PendingNotices(c)
  {
    hide Done, Consistent, PendingNotices;
    var d := Done(c, c.tStart != MAX_TIME, c.tStop != MAX_TIME);
    DoneAccounts(c, c.tStart != MAX_TIME, c.tStop != MAX_TIME);
    DoneConsistent(c, c.tStart != MAX_TIME, c.tStop != MAX_TIME);
    SamePending(d, d.(flow := STREAM_FLOWING, filter := state));
    SamePending(c, c.(filter := state));
  }

  lemma SamePending(c: Control, r: Control)
    requires r == c.(flow := r.flow, filter := r.filter)
    ensures PendingNotices(r) == PendingNotices(c) && (Consistent(r) <==> Consistent(c)) && r.log == c.log
  {
  }

  ghost function Lives(l: Life, steps: seq<Step>): Life
    decreases |steps|
  {
    if steps == [] then l else Lives(Apply(l, steps[0]), steps[1..])
  }

  /**
   * Over any life of the control, each command that asked to be reported is reported once, still
   * pending, or overridden by a later command of its kind: one of the three.
   */
  lemma {:induction false} EveryCommandAccounted(l: Life, steps: seq<Step>)
    requires Accounted(l)
    ensures var r := Lives(l, steps);
      Accounted(r) && r.issued == multiset(r.c.log) + PendingNotices(r.c) + r.overridden
    decreases |steps|
  {
    hide Apply, PendingNotices, Consistent;
    if steps == [] {
    } else {
      AccountedStep(l, steps[0]);
      EveryCommandAccounted(Apply(l, steps[0]), steps[1..]);
    }
  }

  /** A sample reports the commands it finds due. */
  lemma {:induction false} DueIsReported(l: Life, steps: seq<Step>, s: int64, e: int64)
    ensures var c, r := Lives(l, steps).c, Apply(Lives(l, steps), Sample(s, e)).c;
      && (c.tStart < e && c.startCookie != 0 ==> Started(c.startCookie) in r.log[|c.log|..] && r.tStart == MAX_TIME)
      && (c.tStop < s && c.stopCookie != 0 ==> Stopped(c.stopCookie) in r.log[|c.log|..] && r.tStop == MAX_TIME)
  {
    hide Lives;
    var c := Lives(l, steps).c;
    var told := Notices(c, StartDone(c, e), StopDone(c, s, e));
    assert AfterSample(c, s, e).log[|c.log|..] == told;
  }

  /** Once the filter has been stopped, no command is left pending: all were reported or overridden. */
  lemma {:induction false} StoppingSettles(l: Life, steps: seq<Step>)
    requires Accounted(l) && Lives(l, steps).c.filter != State_Stopped
    ensures var r := Apply(Lives(l, steps), Filter(State_Stopped));
      && r.issued == multiset(r.c.log) + r.overridden
      && r.c.tStart == MAX_TIME && r.c.tStop == MAX_TIME && r.c.flow == STREAM_FLOWING
  {
    EveryCommandAccounted(l, steps);
    AccountedStep(Lives(l, steps), Filter(State_Stopped));
  }

  // ---- How the stream begins ----

  /** With the filter stopped, a stream whose first command is a start is to begin by discarding, one whose first is a stop by flowing. */
  predicate BeginsRight(c: Control) {
    c.tStart < MAX_TIME || c.tStop < MAX_TIME ==>
      c.flow == if c.tStart <= c.tStop then STREAM_DISCARDING else STREAM_FLOWING
  }

  /** Asking for a stop keeps that, except when it moves a stop from ahead of the start to after it. */
  lemma StopKeepsBeginning(c: Control, t: int64, extra: bool, cookie: nat)
    requires Consistent(c) && c.filter == State_Stopped && BeginsRight(c)
    ensures BeginsRight(AfterCommand(c, StopAt(t, extra, cookie))) <==> !(c.tStop < c.tStart <= t < MAX_TIME)
  {
  }

  /** Asking for a start keeps it, except when it moves a start from ahead of the stop to after it. */
  lemma StartKeepsBeginning(c: Control, t: int64, cookie: nat)
    requires Consistent(c) && c.filter == State_Stopped && BeginsRight(c)
    ensures BeginsRight(AfterCommand(c, StartAt(t, cookie))) <==> !(c.tStart <= c.tStop < t < MAX_TIME)
  {
  }

  /** Cancelling the only command pending leaves the stream to begin as it was to. */
  lemma LastCancelKeepsFlow(c: Control, extra: bool, cookie: nat)
    ensures c.tStart == MAX_TIME ==> AfterCommand(c, StopAt(MAX_TIME, extra, cookie)).flow == c.flow
    ensures c.tStop == MAX_TIME ==> AfterCommand(c, StartAt(MAX_TIME, cookie)).flow == c.flow
  {
  }

  /** Stop at 3, start at 5, then stop at 7 instead: the stream begins by flowing although its first command is a start. */
  lemma {:induction false} MovedStopBeginsWrong()
    ensures var c := AfterCommand(AfterCommand(INITIAL_CONTROL, StopAt(3, false, 0)), StartAt(5, 0));
      BeginsRight(c) && !BeginsRight(AfterCommand(c, StopAt(7, false, 0)))
  {
  }

  /** Moving the start of a pending start and stop past the stop: the stream stays discarding, although its next command is a stop. */
  lemma {:induction false} MovedStartBeginsWrong()
    ensures var c := AfterCommand(AfterCommand(INITIAL_CONTROL, StartAt(3, 0)), StopAt(5, false, 0));
      var moved := AfterCommand(c, StartAt(7, 0));
      && BeginsRight(c) && !BeginsRight(moved)
      && moved.flow == STREAM_DISCARDING && moved.tStop == 5 && moved.tStart == 7
  {
  }
}
