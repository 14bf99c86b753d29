/**
 * COpenALStream::SoundLoop's ring of OpenAL buffers. OpenAL's source queue, the data
 * in its buffers and what it has played are modelled beside the loop's own variables.
 */
module SoundRing {
  import opened Sequences

  /** The audio put in one buffer. */
  type Chunk = seq<bv8>

  datatype Ring = Ring(
    slots: seq<nat>,           // m_buffers: OpenAL buffer names
    queued: nat,               // num_buffers_queued
    next: nat,                 // next_buffer
    source: seq<nat>,          // OpenAL: names queued on the source, oldest first
    data: map<nat, Chunk>,     // OpenAL: what each buffer holds
    format: nat,
    played: seq<Chunk>,        // chunks OpenAL has finished with
    given: seq<Chunk>,         // chunks queued since the last change of format, after those played before it
    total: nat                 // m_total_buffered
  )

  /** An index that may have run past the end of the ring once. */
  function Wrap(i: nat, n: nat): nat
    requires i < 2 * n
  {
    if i < n then i else i - n
  }

  /** The source holds exactly the `queued` slots ending just before `next`, in order. */
  ghost predicate RingOk(r: Ring) {
    && Distinct(r.slots) && r.next < |r.slots| && r.queued <= |r.slots| && |r.source| == r.queued
    && forall j :: 0 <= j < r.queued ==> r.source[j] == r.slots[Wrap(r.next + |r.slots| - r.queued + j, |r.slots|)]
  }

  function Waiting(source: seq<nat>, data: map<nat, Chunk>): (w: seq<Chunk>)
    ensures |w| == |source|
    ensures forall j :: 0 <= j < |source| ==> w[j] == if source[j] in data then data[source[j]] else []
  {
    seq(|source|, j requires 0 <= j < |source| => if source[j] in data then data[source[j]] else [])
  }

  /** Nothing queued has been overwritten: what was given is what was played and then what waits, in order. */
  ghost predicate AudioOk(r: Ring) {
    r.given == r.played + Waiting(r.source, r.data)
  }

  // ---- What one turn of the loop does ----

  /** A change of format drops what the source still held and starts with fresh buffers. */
  function Restart(r: Ring, format: nat, names: seq<nat>): Ring {
    r.(slots := names, queued := 0, next := 0, source := [], data := map[], format := format, given := r.played)
  }

  /** Takes the k oldest buffers back from the source. */
  function Unqueue(r: Ring, k: nat): Ring
    requires k <= |r.source| && k <= r.queued
  {
    r.(source := r.source[k..], queued := r.queued - k, played := r.played + Waiting(r.source, r.data)[..k])
  }

  function Fill(r: Ring, chunk: Chunk, frames: nat): Ring
    requires r.next < |r.slots|
  {
    r.(data := r.data[r.slots[r.next] := chunk], source := r.source + [r.slots[r.next]],
       queued := r.queued + 1, next := (r.next + 1) % |r.slots|, given := r.given + [chunk], total := r.total + frames)
  }

  /** What the loop finds in one turn: the stream's format, how many buffers OpenAL has played, and what the mixer gives. */
  datatype Turn = Turn(streaming: bool, format: nat, names: seq<nat>, processed: nat, frames: nat, chunk: Chunk)

  /** OpenAL never reports more processed buffers than the source holds, and generates as many new names as asked. */
  ghost predicate Possible(r: Ring, t: Turn) {
    && |t.names| == |r.slots| && Distinct(t.names)
    && t.processed <= if t.format == r.format then |r.source| else 0
  }

  function Apply(r: Ring, t: Turn): Ring
    requires |r.slots| > 0 && r.next < |r.slots| && |t.names| == |r.slots|
    requires t.processed <= (if t.format == r.format then |r.source| else 0) && |r.source| == r.queued
  {
    if !t.streaming then r
    else
      var s := if t.format != r.format then Restart(r, t.format, t.names) else r;
      if s.queued == |s.slots| && t.processed == 0 then s
      else
        var u := Unqueue(s, t.processed);
        if t.frames == 0 then u else Fill(u, t.chunk, t.frames)
  }

  /** Whether the turn has a buffer to refill, and something to fill it with. */
  predicate Mixes(queued: nat, slots: nat, t: Turn) {
    t.streaming && t.frames > 0 && (queued < slots || t.processed > 0)
  }

  /**
   * From r, a turn should lead to s: buffers OpenAL is done with are taken back, their chunks
   * played in order; then, if one is free and the mixer has anything, its chunk is given to the
   * source last, in the next slot, and its frames are counted. A change of format comes first,
   * and drops what was not played.
   */
  ghost predicate TurnDone(r: Ring, t: Turn, s: Ring) {
    var changed := t.streaming && t.format != r.format;
    var next := if changed then 0 else r.next;
    var waiting := if changed then 0 else r.queued;
    var mixed := if Mixes(waiting, |r.slots|, t) then [t.chunk] else [];
    var given := if changed then r.played else r.given;
    var taken := if t.streaming then t.processed else 0;
    && s.given == given + mixed
    && s.total == r.total + (if mixed == [] then 0 else t.frames)
    && s.queued == waiting - taken + |mixed| && |s.source| == s.queued
    && |s.played| == |r.played| + taken && r.played <= s.played
    && s.slots == (if changed then t.names else r.slots)
    && s.format == (if t.streaming then t.format else r.format)
    && if mixed == [] then s.next == next
       else next < |s.slots| && s.next == (next + 1) % |s.slots| && s.source != [] && s.source[|s.source| - 1..] == [s.slots[next]]
  }

  class COpenALStream {
    const num_buffers: nat
    const m_buffers: array<nat>
    var num_buffers_queued: nat
    var next_buffer: nat
    var source: seq<nat>
    var data: map<nat, Chunk>
    var past_format: nat
    ghost var played: seq<Chunk>
    ghost var given: seq<Chunk>
    var m_total_buffered: nat

    ghost function State(): Ring
      reads this, m_buffers
    {
      Ring(m_buffers[..], num_buffers_queued, next_buffer, source, data, past_format, played, given, m_total_buffered)
    }

    ghost predicate Valid()
      reads this, m_buffers
    {
      m_buffers.Length == num_buffers > 0 && RingOk(State()) && AudioOk(State())
    }

    constructor (names: seq<nat>, format: nat)
      requires names != [] && Distinct(names)
      ensures Valid() && fresh(m_buffers) && m_buffers[..] == names && num_buffers_queued == 0 && past_format == format
      ensures played == [] && given == []
    {
      num_buffers := |names|;
      m_buffers := new nat[|names|](i requires 0 <= i < |names| => names[i]);
      num_buffers_queued, next_buffer, source, data, past_format := 0, 0, [], map[], format;
      played, given, m_total_buffered := [], [], 0;
      new;
      assert m_buffers[..] == names;
    }

    /** Stops the source, drops its queue and generates new buffers. */
    method ChangeFormat(format: nat, names: seq<nat>)
      requires Valid() && |names| == num_buffers
      modifies this, m_buffers
      ensures m_buffers[..] == names && State() == Restart(old(State()), format, names)
    {
      source, data := [], map[];
      for i := 0 to num_buffers
        invariant m_buffers[..i] == names[..i]
        invariant this.source == [] && this.data == map[]
        modifies m_buffers
      {
        m_buffers[i] := names[i];
      }
      assert m_buffers[..] == names;
      given := played;
      next_buffer, num_buffers_queued, past_format := 0, 0, format;
    }

    /** One turn of SoundLoop; m_total_buffered counts the frames handed to OpenAL. */
    method SoundTurn(t: Turn)
      requires Valid() && Possible(State(), t)
      modifies this, m_buffers
      ensures Valid() && State() == Apply(old(State()), t) && TurnDone(old(State()), t, State())
    {
      hide RingOk, AudioOk, Fill, Waiting, TurnDone;
      ghost var r := State();
      TurnKeeps(r, t);
      TurnDoes(r, t);
      RingShape(r);
      if !t.streaming {
        return;
      }
      if t.format != past_format {
        ChangeFormat(t.format, t.names);
      }
      if num_buffers_queued == num_buffers && t.processed == 0 {
        return;
      }
      UnqueueNone(State());
      if t.processed != 0 {
        played := played + Waiting(source, data)[..t.processed];
        source := source[t.processed..];
        num_buffers_queued := num_buffers_queued - t.processed;
      }
      if t.frames == 0 {
        return;
      }
      QueueNext(t.chunk, t.frames);
    }

    /** Fills the next slot, queues it on the source and moves on round the ring. */
    method QueueNext(chunk: Chunk, frames: nat)
      requires next_buffer < num_buffers == m_buffers.Length
      modifies this
      ensures State() == Fill(old(State()), chunk, frames)
    {
      data := data[m_buffers[next_buffer] := chunk];
      source := source + [m_buffers[next_buffer]];
      given := given + [chunk];
      m_total_buffered := m_total_buffered + frames;
      num_buffers_queued := num_buffers_queued + 1;
      next_buffer := (next_buffer + 1) % num_buffers;
    }
  }

  lemma RingShape(r: Ring)
    requires RingOk(r)
    ensures r.next < |r.slots| && |r.source| == r.queued <= |r.slots|
  {
  }

  // ---- What every turn keeps ----

  lemma RestartKeeps(r: Ring, format: nat, names: seq<nat>)
    requires names != [] && Distinct(names)
    ensures RingOk(Restart(r, format, names)) && AudioOk(Restart(r, format, names))
  {
  }

  lemma UnqueueKeepsRing(r: Ring, k: nat)
    requires RingOk(r) && k <= r.queued
    ensures RingOk(Unqueue(r, k))
  {
  }

  lemma UnqueueKeepsAudio(r: Ring, k: nat)
    requires AudioOk(r) && k <= |r.source| == r.queued
    ensures AudioOk(Unqueue(r, k))
  {
  }

  lemma UnqueueNone(r: Ring)
    ensures Unqueue(r, 0) == r
  {
  }

  lemma UnqueueKeeps(r: Ring, k: nat)
    requires RingOk(r) && AudioOk(r) && k <= r.queued
    ensures RingOk(Unqueue(r, k)) && AudioOk(Unqueue(r, k))
  {
    hide AudioOk, Unqueue;
    UnqueueKeepsRing(r, k);
    UnqueueKeepsAudio(r, k);
  }

  /** The slot about to be refilled is not one the source still holds. */
  lemma NextIsFree(r: Ring)
    requires RingOk(r) && r.queued < |r.slots|
    ensures r.slots[r.next] !in r.source
  {
  }

  lemma FillKeepsRing(r: Ring, chunk: Chunk, frames: nat)
    requires RingOk(r) && r.queued < |r.slots|
    ensures RingOk(Fill(r, chunk, frames))
  {
    NextSlot(r.next, |r.slots|);
    var f, n := Fill(r, chunk, frames), |r.slots|;
    FillShape(r, chunk, frames);
    hide Fill;
    forall j | 0 <= j < f.queued
      ensures f.source[j] == f.slots[Wrap(f.next + n - f.queued + j, n)]
    {
      if j < r.queued {
        assert Wrap(f.next + n - f.queued + j, n) == Wrap(r.next + n - r.queued + j, n);
      }
    }
  }

  lemma FillShape(r: Ring, chunk: Chunk, frames: nat)
    requires r.next < |r.slots|
    ensures var f := Fill(r, chunk, frames);
      && f.slots == r.slots && f.source == r.source + [r.slots[r.next]] && f.queued == r.queued + 1
      && f.next == if r.next + 1 == |r.slots| then 0 else r.next + 1
  {
  }

  lemma NextSlot(i: nat, n: nat)
    requires i < n
    ensures (i + 1) % n == if i + 1 == n then 0 else i + 1
  {
  }

  lemma FillKeepsAudio(r: Ring, chunk: Chunk, frames: nat)
    requires RingOk(r) && AudioOk(r) && r.queued < |r.slots|
    ensures AudioOk(Fill(r, chunk, frames))
  {
  }

  lemma TurnKeeps(r: Ring, t: Turn)
    requires RingOk(r) && AudioOk(r) && Possible(r, t)
    ensures RingOk(Apply(r, t)) && AudioOk(Apply(r, t))
  {
    hide RingOk, AudioOk, Restart, Unqueue, Fill;
    RingShape(r);
    RestartKeeps(r, t.format, t.names);
    var s := if t.format != r.format then Restart(r, t.format, t.names) else r;
    RestartShape(r, t.format, t.names);
    RingShape(s);
    UnqueueKeeps(s, t.processed);
    UnqueueShape(s, t.processed);
    if s.queued != |s.slots| || t.processed != 0 {
      FillKeepsRing(Unqueue(s, t.processed), t.chunk, t.frames);
      FillKeepsAudio(Unqueue(s, t.processed), t.chunk, t.frames);
    }
  }

  lemma TurnDoes(r: Ring, t: Turn)
    requires RingOk(r) && AudioOk(r) && Possible(r, t)
    ensures TurnDone(r, t, Apply(r, t))
  {
    EmptyIsUnit(r.given);
    EmptyIsUnit(r.played);
  }

  lemma RestartShape(r: Ring, format: nat, names: seq<nat>)
    ensures var s := Restart(r, format, names); s.queued == 0 && s.source == [] && s.slots == names && s.next == 0
  {
  }

  lemma UnqueueShape(r: Ring, k: nat)
    requires k <= |r.source| && k <= r.queued
    ensures Unqueue(r, k).queued == r.queued - k && Unqueue(r, k).slots == r.slots && Unqueue(r, k).next == r.next
  {
  }

  // ---- Runs ----

  ghost predicate CanRun(r: Ring, turns: seq<Turn>)
    decreases |turns|
  {
    turns != [] ==>
      Shaped(r) && Possible(r, turns[0]) && CanRun(Apply(r, turns[0]), turns[1..])
  }

  ghost predicate Shaped(r: Ring) { r.next < |r.slots| && |r.source| == r.queued }

  ghost function Run(r: Ring, turns: seq<Turn>): Ring
    requires CanRun(r, turns)
    decreases |turns|
  {
    if turns == [] then r else Run(Apply(r, turns[0]), turns[1..])
  }

  /**
   * At every turn of the loop, changes of format included: the source holds the queued slots
   * ending before next_buffer, in order and never more than there are; and the audio given to
   * OpenAL is, in order, what it has played and what waits in its buffers.
   */
  lemma {:induction false} RingAlwaysOk(r: Ring, turns: seq<Turn>)
    requires RingOk(r) && AudioOk(r) && CanRun(r, turns)
    ensures RingOk(Run(r, turns)) && AudioOk(Run(r, turns))
    decreases |turns|
  {
    hide RingOk, AudioOk, Apply, Possible;
    if turns == [] {
    } else {
      TurnKeeps(r, turns[0]);
      RunKeepsGoing(r, turns);
      RingAlwaysOk(Apply(r, turns[0]), turns[1..]);
    }
  }

  /** The chunks a run of turns mixes while the format stays as it is, the ring starting with this many buffers queued. */
  function ChunksMixed(queued: nat, slots: nat, turns: seq<Turn>): seq<Chunk>
    decreases |turns|
  {
    if turns == [] then []
    else
      var t := turns[0];
      var mixed := if Mixes(queued, slots, t) then [t.chunk] else [];
      mixed + ChunksMixed(QueuedAfter(queued, slots, t), slots, turns[1..])
  }

  function FramesMixed(queued: nat, slots: nat, turns: seq<Turn>): nat
    decreases |turns|
  {
    if turns == [] then 0
    else
      var t := turns[0];
      (if Mixes(queued, slots, t) then t.frames else 0) + FramesMixed(QueuedAfter(queued, slots, t), slots, turns[1..])
  }

  /** The buffers queued after a turn: less those taken back, and one more if it mixes. */
  function QueuedAfter(queued: nat, slots: nat, t: Turn): nat {
    var left := queued - if t.streaming then t.processed else 0;
    (if left < 0 then 0 else left) + if Mixes(queued, slots, t) then 1 else 0
  }

  /**
   * While the format stays the same, what OpenAL is given is the mixer's chunks, one for each turn
   * that finds a buffer free or played, in the order of the turns; m_total_buffered counts their frames.
   */
  lemma {:induction false} EveryChunkGiven(r: Ring, turns: seq<Turn>)
    requires RingOk(r) && AudioOk(r) && CanRun(r, turns)
    requires forall i :: 0 <= i < |turns| ==> turns[i].format == r.format
    ensures Run(r, turns).given == r.given + ChunksMixed(r.queued, |r.slots|, turns)
    ensures Run(r, turns).total == r.total + FramesMixed(r.queued, |r.slots|, turns)
    decreases |turns|
  {
    hide RingOk, AudioOk, Apply, Possible, Mixes;
    if turns == [] {
      EmptyIsUnit(r.given);
    } else {
      RunKeepsGoing(r, turns);
      RingShape(r);
      var t, s := turns[0], Apply(r, turns[0]);
      TurnKeeps(r, t);
      TurnDoes(r, t);
      EveryChunkGiven(s, turns[1..]);
      ConcatAssociates(r.given, if Mixes(r.queued, |r.slots|, t) then [t.chunk] else [], ChunksMixed(s.queued, |r.slots|, turns[1..]));
    }
  }

  lemma RunKeepsGoing(r: Ring, turns: seq<Turn>)
    requires CanRun(r, turns) && turns != []
    ensures Shaped(r) && Possible(r, turns[0]) && CanRun(Apply(r, turns[0]), turns[1..])
  {
  }
}
