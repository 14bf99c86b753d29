/**
 * COutputQueue's state and the effect of each region it executes under its lock,
 * as functions. Samples and control packets travel in one list; a NEW_SEGMENT
 * packet is followed by its parameters.
 */
module OutputQueueTypes {
  import opened Sequences

  /** A media sample; `epoch` counts the flushes completed before it was handed in. */
  datatype Sample = Sample(id: nat, epoch: nat)

  datatype Segment = Segment(tStart: int, tStop: int, dRate: real)

  datatype Item = Media(x: Sample) | SendPacket | EosPacket | ResetPacket | NewSegmentPacket | Payload(seg: Segment)

  /** A call on the downstream pin. `forced` says a control packet cut the batch short. */
  datatype Call =
    | Deliver(batch: seq<Sample>, epoch: nat, forced: bool)
    | DeliverEos
    | DeliverSegment(seg: Segment)

  const S_OK: int := 0
  const S_FALSE: int := 1

  datatype Config = Config(batchSize: nat, exact: bool, flushingOpt: bool)

  /** m_bBatchExact is only set together with a batch size above one. */
  predicate GoodConfig(c: Config) { c.batchSize > 0 && (c.exact ==> c.batchSize > 1) }

  datatype QState = QState(
    list: seq<Item>,
    batch: seq<Sample>,     // m_ppSamples[..m_nBatched]
    waiting: nat,           // m_lWaiting
    sem: nat,               // the count of m_hSem
    flushing: bool,
    flushed: bool,
    terminate: bool,
    evFlush: bool,          // m_evFlushComplete, an auto-reset event
    hr: int,
    released: multiset<Sample>,
    calls: seq<Call>
  )

  const INITIAL_STATE: QState :=
    QState([], [], 0, 0, false, true, false, false, S_OK, multiset{}, [])

  /** Every NEW_SEGMENT is followed by its parameters, and parameters appear nowhere else. */
  predicate WellPaired(list: seq<Item>) {
    if list == [] then true
    else match list[0]
      case Payload(_) => false
      case NewSegmentPacket => |list| >= 2 && list[1].Payload? && WellPaired(list[2..])
      case _ => WellPaired(list[1..])
  }

  function SampleOf(i: Item): multiset<Sample> { if i.Media? then multiset{i.x} else multiset{} }

  function SamplesIn(list: seq<Item>): multiset<Sample> {
    if list == [] then multiset{} else SampleOf(list[0]) + SamplesIn(list[1..])
  }

  predicate IsControl(i: Item) { !i.Media? && !i.Payload? }

  function Wrap(xs: seq<Sample>): (r: seq<Item>)
    ensures |r| == |xs| && forall i :: 0 <= i < |xs| ==> r[i] == Media(xs[i])
  {
    if xs == [] then [] else [Media(xs[0])] + Wrap(xs[1..])
  }

  // ---- Regions executed by clients ----

  function Notify(q: QState): QState {
    if q.waiting != 0 then q.(sem := q.sem + q.waiting, waiting := 0) else q
  }

  function ReceiveRegion(c: Config, q: QState, xs: seq<Sample>): QState {
    if q.hr != S_OK then q.(released := q.released + multiset(xs))
    else
      var r := q.(flushed := false, list := q.list + Wrap(xs));
      if !c.exact || |r.batch| + |r.list| >= c.batchSize then Notify(r) else r
  }

  /** QueueSample for each item, then NotifyThread. */
  function Enqueue(q: QState, items: seq<Item>): QState {
    Notify(q.(list := q.list + items))
  }

  function SendAnywayRegion(q: QState): QState { Enqueue(q, [SendPacket]) }

  function EosRegion(q: QState): QState {
    if q.hr == S_OK then Enqueue(q.(flushed := false), [EosPacket]) else q
  }

  function NewSegmentRegion(q: QState, seg: Segment): QState {
    Enqueue(q, [NewSegmentPacket, Payload(seg)])
  }

  function ResetRegion(q: QState): QState { Enqueue(q, [ResetPacket]) }

  function BeginFlushRegion(c: Config, q: QState): QState {
    var r := q.(flushing := true, hr := if q.hr == S_OK then S_FALSE else q.hr);
    if q.flushed && c.flushingOpt then r else Notify(r.(evFlush := false))
  }

  function TerminateRegion(q: QState): QState {
    Notify(q.(terminate := true, hr := S_FALSE))
  }

  // ---- The worker's region ----

  datatype Control = NoControl | Sent | Eos | Reset | NewSegment(seg: Segment)

  /** What the worker does after its locked region. */
  datatype Outcome = Exit | Wait | Send(batch: seq<Sample>, control: Control)

  function FreeAll(q: QState): QState {
    q.(list := [], batch := [], released := q.released + SamplesIn(q.list) + multiset(q.batch))
  }

  datatype ScanStep = Stop(q: QState, outcome: Outcome) | Continue(q: QState)

  function Hand(q: QState, rest: seq<Item>, k: Control): ScanStep {
    Stop(q.(list := rest, batch := []), Send(q.batch, k))
  }

  /** What the worker does with the head of the list, or with its being empty. */
  function TakeHead(c: Config, q: QState): ScanStep
    requires WellPaired(q.list)
  {
    if q.list == [] then
      if c.exact || q.batch == [] then Stop(q.(waiting := q.waiting + 1), Wait)
      else Hand(q, [], NoControl)
    else
      match q.list[0]
      case Media(x) =>
        var t := q.(list := q.list[1..], batch := q.batch + [x]);
        if |t.batch| == c.batchSize then Hand(t, t.list, NoControl) else Continue(t)
      case SendPacket =>
        if q.batch == [] then Continue(q.(list := q.list[1..])) else Hand(q, q.list[1..], Sent)
      case EosPacket => Hand(q, q.list[1..], Eos)
      case ResetPacket => Hand(q, q.list[1..], Reset)
      case NewSegmentPacket => Hand(q, q.list[2..], NewSegment(q.list[1].seg))
  }

  /** One turn of the worker's inner loop. */
  function ScanOnce(c: Config, q: QState): ScanStep
    requires WellPaired(q.list)
  {
    if q.terminate then Stop(FreeAll(q), Exit)
    else TakeHead(c, if q.flushing then FreeAll(q).(evFlush := true) else q)
  }

  /** The worker's locked region: a full batch, a control packet with something to say, or an empty list ends it. */
  function Scan(c: Config, q: QState): (QState, Outcome)
    requires WellPaired(q.list)
    decreases |q.list|
  {
    match ScanOnce(c, q)
    case Stop(r, o) => (r, o)
    case Continue(r) => Scan(c, r)
  }

  // ---- What the list means ----

  /** What the downstream pin sees, batches forgotten. */
  datatype Event = Frame(x: Sample) | End | Segmented(seg: Segment)

  function Frames(xs: seq<Sample>): (r: seq<Event>)
    ensures |r| == |xs| && forall i :: 0 <= i < |xs| ==> r[i] == Frame(xs[i])
  {
    if xs == [] then [] else [Frame(xs[0])] + Frames(xs[1..])
  }

  function DecodeItem(i: Item): seq<Event> {
    match i
    case Media(x) => [Frame(x)]
    case EosPacket => [End]
    case Payload(seg) => [Segmented(seg)]
    case _ => []
  }

  function Decode(list: seq<Item>): seq<Event> {
    if list == [] then [] else DecodeItem(list[0]) + Decode(list[1..])
  }

  function ControlEvents(k: Control): seq<Event> {
    match k
    case Eos => [End]
    case NewSegment(seg) => [Segmented(seg)]
    case _ => []
  }

  function CallEvents(k: Call): seq<Event> {
    match k
    case Deliver(batch, _, _) => Frames(batch)
    case DeliverEos => [End]
    case DeliverSegment(seg) => [Segmented(seg)]
  }

  function Flat(calls: seq<Call>): seq<Event> {
    if calls == [] then [] else CallEvents(calls[0]) + Flat(calls[1..])
  }

  // ---- Appending to the list ----

  lemma {:induction false} WellPairedAppend(a: seq<Item>, b: seq<Item>)
    requires WellPaired(a) && WellPaired(b)
    ensures WellPaired(a + b)
    decreases |a|
  {
    if a == [] {
      assert a + b == b;
    } else if a[0].NewSegmentPacket? {
      WellPairedAppend(a[2..], b);
      assert (a + b)[2..] == a[2..] + b;
    } else {
      WellPairedAppend(a[1..], b);
      assert (a + b)[1..] == a[1..] + b;
    }
  }

  lemma WellPairedWrap(xs: seq<Sample>)
    ensures WellPaired(Wrap(xs))
  {
  }

  lemma {:induction false} DecodeAppend(a: seq<Item>, b: seq<Item>)
    ensures Decode(a + b) == Decode(a) + Decode(b)
  {
    hide DecodeItem;
    if a == [] {
      assert a + b == b;
    } else {
      DecodeAppend(a[1..], b);
      assert (a + b)[1..] == a[1..] + b && (a + b)[0] == a[0];
      assert DecodeItem(a[0]) + (Decode(a[1..]) + Decode(b)) == DecodeItem(a[0]) + Decode(a[1..]) + Decode(b);
    }
  }

  lemma {:induction false} SamplesInAppend(a: seq<Item>, b: seq<Item>)
    ensures SamplesIn(a + b) == SamplesIn(a) + SamplesIn(b)
  {
    hide SampleOf;
    if a == [] {
      assert a + b == b;
    } else {
      SamplesInAppend(a[1..], b);
      assert (a + b)[1..] == a[1..] + b && (a + b)[0] == a[0];
      assert SampleOf(a[0]) + (SamplesIn(a[1..]) + SamplesIn(b)) == SampleOf(a[0]) + SamplesIn(a[1..]) + SamplesIn(b);
    }
  }

  lemma {:induction false} WrapMeans(xs: seq<Sample>)
    ensures Decode(Wrap(xs)) == Frames(xs) && SamplesIn(Wrap(xs)) == multiset(xs)
  {
    if xs == [] {
    } else {
      WrapMeans(xs[1..]);
      assert Wrap(xs)[1..] == Wrap(xs[1..]);
      assert xs == [xs[0]] + xs[1..];
    }
  }

  lemma {:induction false} FlatAppend(a: seq<Call>, b: seq<Call>)
    ensures Flat(a + b) == Flat(a) + Flat(b)
  {
    hide CallEvents;
    if a == [] {
      assert a + b == b;
    } else {
      FlatAppend(a[1..], b);
      assert (a + b)[1..] == a[1..] + b && (a + b)[0] == a[0];
      assert CallEvents(a[0]) + (Flat(a[1..]) + Flat(b)) == CallEvents(a[0]) + Flat(a[1..]) + Flat(b);
    }
  }

  // ---- What a scan does ----

  /** The samples a queue accounts for: those released and those it still holds. */
  ghost function Held(q: QState): multiset<Sample> {
    q.released + SamplesIn(q.list) + multiset(q.batch)
  }

  /** What the queue still has to deliver, in order. */
  ghost function ToCome(q: QState): seq<Event> { Frames(q.batch) + Decode(q.list) }

  ghost function Taken(o: Outcome): multiset<Sample> {
    if o.Send? then multiset(o.batch) else multiset{}
  }

  ghost function Going(o: Outcome): seq<Event> {
    if o.Send? then Frames(o.batch) + ControlEvents(o.control) else []
  }

  lemma FreeAllConserves(q: QState)
    ensures Held(FreeAll(q)) == Held(q) && FreeAll(q).list == [] && FreeAll(q).batch == []
  {
  }

  lemma HandConserves(q: QState, rest: seq<Item>, k: Control)
    requires SamplesIn(rest) == SamplesIn(q.list)
    ensures Held(Hand(q, rest, k).q) + multiset(q.batch) == Held(q)
  {
  }

  /** What the first item of a list contributes. */
  lemma ListHead(list: seq<Item>)
    requires WellPaired(list) && list != []
    ensures !list[0].Payload?
    ensures list[0].Media? ==>
              SamplesIn(list) == multiset{list[0].x} + SamplesIn(list[1..]) &&
              Decode(list) == [Frame(list[0].x)] + Decode(list[1..])
    ensures list[0].NewSegmentPacket? ==>
              |list| >= 2 && list[1].Payload? && SamplesIn(list) == SamplesIn(list[2..]) &&
              Decode(list) == [Segmented(list[1].seg)] + Decode(list[2..])
    ensures !list[0].Media? && !list[0].NewSegmentPacket? ==>
              SamplesIn(list) == SamplesIn(list[1..]) &&
              Decode(list) == (if list[0].EosPacket? then [End] else []) + Decode(list[1..])
  {
  }

  lemma MediaConserves(q: QState, x: Sample, rest: seq<Item>)
    requires SamplesIn(q.list) == multiset{x} + SamplesIn(rest)
    ensures Held(q.(list := rest, batch := q.batch + [x])) == Held(q)
  {
  }

  ghost predicate StepConserves(q: QState, s: ScanStep) {
    match s
    case Stop(r, o) => Held(r) + Taken(o) == Held(q)
    case Continue(r) => Held(r) == Held(q)
  }

  lemma EmptyConserves(c: Config, q: QState)
    requires WellPaired(q.list) && (q.terminate || q.flushing || q.list == [])
    ensures StepConserves(q, ScanOnce(c, q))
  {
    hide SamplesIn, WellPaired;
    FreeAllConserves(q);
    HandConserves(q, q.list, NoControl);
  }

  lemma ControlConserves(c: Config, q: QState)
    requires WellPaired(q.list) && !q.terminate && !q.flushing && q.list != [] && !q.list[0].Media?
    ensures StepConserves(q, ScanOnce(c, q))
  {
    ListHead(q.list);
    hide SamplesIn, WellPaired;
    match q.list[0]
    case SendPacket => HandConserves(q, q.list[1..], Sent);
    case EosPacket => HandConserves(q, q.list[1..], Eos);
    case ResetPacket => HandConserves(q, q.list[1..], Reset);
    case NewSegmentPacket => HandConserves(q, q.list[2..], NewSegment(q.list[1].seg));
  }

  lemma ScanOnceConserves(c: Config, q: QState)
    requires WellPaired(q.list)
    ensures StepConserves(q, ScanOnce(c, q))
  {
    hide SamplesIn, WellPaired;
    if q.terminate || q.flushing || q.list == [] {
      EmptyConserves(c, q);
    } else if q.list[0].Media? {
      ListHead(q.list);
      MediaConserves(q, q.list[0].x, q.list[1..]);
      HandConserves(q.(list := q.list[1..], batch := q.batch + [q.list[0].x]), q.list[1..], NoControl);
    } else {
      ControlConserves(c, q);
    }
  }

  /** A scan moves samples but keeps every one: in the batch to send, in the batch and list left, or released. */
  lemma {:induction false} ScanConserves(c: Config, q: QState)
    requires WellPaired(q.list)
    ensures var (r, o) := Scan(c, q); Held(r) + Taken(o) == Held(q)
    decreases |q.list|
  {
    hide Held, ScanOnce;
    ScanOnceConserves(c, q);
    ScanOnceShrinks(c, q);
    if ScanOnce(c, q).Stop? {
    } else {
      ScanConserves(c, ScanOnce(c, q).q);
    }
  }

  lemma ScanOnceShrinks(c: Config, q: QState)
    requires WellPaired(q.list)
    ensures WellPaired(ScanOnce(c, q).q.list)
    ensures q.list != [] && !q.list[0].NewSegmentPacket? ==> WellPaired(q.list[1..])
    ensures q.list != [] && q.list[0].NewSegmentPacket? ==> WellPaired(q.list[2..])
    ensures ScanOnce(c, q).Continue? ==> |ScanOnce(c, q).q.list| < |q.list|
    ensures ScanOnce(c, q).Continue? ==> !ScanOnce(c, q).q.terminate && !ScanOnce(c, q).q.flushing
  {
  }

  lemma HandKeepsOrder(q: QState, rest: seq<Item>, k: Control)
    requires Decode(q.list) == ControlEvents(k) + Decode(rest)
    ensures ToCome(q) == Going(Hand(q, rest, k).outcome) + ToCome(Hand(q, rest, k).q)
  {
  }

  lemma MediaKeepsOrder(q: QState, x: Sample, rest: seq<Item>)
    requires Decode(q.list) == [Frame(x)] + Decode(rest)
    ensures ToCome(q.(list := rest, batch := q.batch + [x])) == ToCome(q)
  {
  }

  lemma ScanOnceKeepsOrder(c: Config, q: QState)
    requires WellPaired(q.list) && !q.terminate && !q.flushing
    ensures match ScanOnce(c, q)
      case Stop(r, o) => !o.Exit? && ToCome(q) == Going(o) + ToCome(r)
      case Continue(r) => ToCome(q) == ToCome(r)
  {
    hide WellPaired, Frames, SamplesIn, Decode, ToCome, Going;
    if q.list == [] {
      EmptyKeepsOrder(c, q);
    } else {
      ListHead(q.list);
      EmptyIsUnit(Decode(q.list[1..]));
      match q.list[0]
      case Media(x) =>
        MediaKeepsOrder(q, x, q.list[1..]);
        var t := q.(list := q.list[1..], batch := q.batch + [x]);
        EmptyIsUnit(Decode(t.list));
        HandKeepsOrder(t, t.list, NoControl);
      case SendPacket =>
        HandKeepsOrder(q, q.list[1..], Sent);
        SameList(q);
      case EosPacket => HandKeepsOrder(q, q.list[1..], Eos);
      case ResetPacket => HandKeepsOrder(q, q.list[1..], Reset);
      case NewSegmentPacket => HandKeepsOrder(q, q.list[2..], NewSegment(q.list[1].seg));
    }
  }

  lemma SameList(q: QState)
    requires q.list != [] && q.list[0].SendPacket?
    ensures ToCome(q.(list := q.list[1..])) == ToCome(q)
  {
  }

  lemma EmptyKeepsOrder(c: Config, q: QState)
    requires q.list == [] && !q.terminate && !q.flushing
    ensures var s := ScanOnce(c, q); s.Stop? && ToCome(q) == Going(s.outcome) + ToCome(s.q)
  {
  }

  /** The order of what is still to be delivered is unchanged by a scan that neither flushes nor exits. */
  lemma {:induction false} ScanKeepsOrder(c: Config, q: QState)
    requires WellPaired(q.list) && !q.terminate && !q.flushing
    ensures var (r, o) := Scan(c, q); !o.Exit? && ToCome(q) == Going(o) + ToCome(r)
    decreases |q.list|
  {
    hide ToCome, Going, ScanOnce;
    ScanOnceKeepsOrder(c, q);
    ScanOnceShrinks(c, q);
    if ScanOnce(c, q).Stop? {
    } else {
      ScanKeepsOrder(c, ScanOnce(c, q).q);
    }
  }

  /** The batch invariant, the pairing, and when a scan decides to wait. */
  ghost predicate ScanOk(c: Config, q: QState, r: QState, o: Outcome) {
    && r == q.(list := r.list, batch := r.batch,
               released := if q.flushing || q.terminate then r.released else q.released,
               waiting := q.waiting + if o.Wait? then 1 else 0,
               evFlush := q.evFlush || (q.flushing && !q.terminate))
    && WellPaired(r.list) && |r.batch| < c.batchSize
    && (o.Exit? <==> q.terminate)
    && (o.Wait? ==> r.list == [] && (c.exact || r.batch == []))
    && (o.Send? ==> !q.flushing && r.batch == [] && |o.batch| <= c.batchSize)
    && (o.Send? && o.control.NoControl? ==> |o.batch| > 0 && (c.exact ==> |o.batch| == c.batchSize))
    && (q.flushing || q.terminate ==> r.list == [] && r.batch == [])
  }

  ghost predicate ScanOnceOk(c: Config, q: QState, s: ScanStep) {
    match s
    case Stop(r, o) => ScanOk(c, q, r, o)
    case Continue(r) => r.(list := q.list, batch := q.batch) == q && |r.batch| < c.batchSize
  }

  /** What is left on the list was there before. */
  lemma {:induction false} ScanLeaves(c: Config, q: QState)
    requires WellPaired(q.list)
    ensures forall i :: i in Scan(c, q).0.list ==> i in q.list
    ensures Scan(c, q).1.Send? && Scan(c, q).1.control.Reset? ==> ResetPacket in q.list
    decreases |q.list|
  {
    ScanOnceShrinks(c, q);
    ScanOnceLeaves(c, q);
    hide ScanOnce, WellPaired;
    if ScanOnce(c, q).Stop? {
    } else {
      ScanLeaves(c, ScanOnce(c, q).q);
    }
  }

  lemma ScanOnceLeaves(c: Config, q: QState)
    requires WellPaired(q.list)
    ensures forall i :: i in ScanOnce(c, q).q.list ==> i in q.list
    ensures ScanOnce(c, q).Stop? && ScanOnce(c, q).outcome.Send? && ScanOnce(c, q).outcome.control.Reset? ==>
              ResetPacket in q.list
  {
  }

  lemma EmptyShape(c: Config, q: QState)
    requires GoodConfig(c) && |q.batch| < c.batchSize
    requires q.terminate || q.flushing || q.list == []
    ensures WellPaired(q.list) ==> ScanOnceOk(c, q, ScanOnce(c, q))
  {
  }

  lemma MediaShape(c: Config, q: QState)
    requires GoodConfig(c) && WellPaired(q.list) && |q.batch| < c.batchSize
    requires !q.terminate && !q.flushing && q.list != [] && q.list[0].Media?
    ensures ScanOnceOk(c, q, ScanOnce(c, q))
  {
  }

  lemma ControlShape(c: Config, q: QState)
    requires GoodConfig(c) && WellPaired(q.list) && |q.batch| < c.batchSize
    requires !q.terminate && !q.flushing && q.list != [] && !q.list[0].Media?
    ensures ScanOnceOk(c, q, ScanOnce(c, q))
  {
  }

  lemma ScanOnceShape(c: Config, q: QState)
    requires GoodConfig(c) && WellPaired(q.list) && |q.batch| < c.batchSize
    ensures ScanOnceOk(c, q, ScanOnce(c, q))
  {
    hide ScanOnce, ScanOnceOk, WellPaired;
    if q.terminate || q.flushing || q.list == [] {
      EmptyShape(c, q);
    } else if q.list[0].Media? {
      MediaShape(c, q);
    } else {
      ControlShape(c, q);
    }
  }

  lemma NoPayloadFirst(list: seq<Item>)
    requires WellPaired(list)
    ensures list != [] ==> !list[0].Payload?
    ensures list != [] && list[0].NewSegmentPacket? ==> |list| >= 2 && list[1].Payload?
  {
  }

  lemma {:induction false} ScanShape(c: Config, q: QState)
    requires GoodConfig(c) && WellPaired(q.list) && |q.batch| < c.batchSize
    ensures ScanOk(c, q, Scan(c, q).0, Scan(c, q).1)
    decreases |q.list|
  {
    hide ScanOnce, WellPaired;
    ScanOnceShape(c, q);
    ScanOnceShrinks(c, q);
    if ScanOnce(c, q).Stop? {
    } else {
      ScanShape(c, ScanOnce(c, q).q);
    }
  }
}
