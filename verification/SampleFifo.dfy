/**
 * CMixer: the byte queue between the renderer, which pushes whole frames, and the
 * sound thread, which pops as many as it wants to play.
 */
module SampleFifo {
  import opened Sequences
  import opened Words

  type Byte = bv8

  /** Bytes of one frame; the multiplication comes first. */
  function FrameBytes(channels: nat, bits: nat): nat { channels * bits / 8 }

  /** A sample's bytes short of a torn frame at its end. */
  function Whole(data: seq<Byte>, frame: nat): seq<Byte>
    requires frame > 0
  {
    data[..|data| - |data| % frame]
  }

  function WholeAll(waves: seq<seq<Byte>>, frame: nat): seq<Byte>
    requires frame > 0
  {
    if waves == [] then [] else Whole(waves[0], frame) + WholeAll(waves[1..], frame)
  }

  /** vector::resize: cut, or filled up with zeros. */
  function Resized(xs: seq<Byte>, n: nat): (r: seq<Byte>)
    ensures |r| == n && forall i :: 0 <= i < n ==> r[i] == if i < |xs| then xs[i] else 0
  {
    seq(n, i requires 0 <= i < n => if i < |xs| then xs[i] else 0)
  }

  /** How many of the waves arriving one by one are taken until the queue holds n bytes. */
  function Needed(queue: seq<Byte>, waves: seq<seq<Byte>>, frame: nat, n: nat): (k: nat)
    requires frame > 0
    ensures k <= |waves|
    decreases |waves|
  {
    if |queue| >= n || waves == [] then 0 else 1 + Needed(queue + Whole(waves[0], frame), waves[1..], frame, n)
  }

  /** The queue when Mix begins to pop. */
  function Filled(queue: seq<Byte>, waves: seq<seq<Byte>>, frame: nat, n: nat): seq<Byte>
    requires frame > 0
  {
    queue + WholeAll(waves[..Needed(queue, waves, frame, n)], frame)
  }

  function Concat(chunks: seq<seq<Byte>>): seq<Byte> { if chunks == [] then [] else chunks[0] + Concat(chunks[1..]) }

  function First(late: seq<seq<Byte>>): seq<Byte> { if late == [] then [] else late[0] }

  function Later(late: seq<seq<Byte>>): seq<seq<Byte>> { if late == [] then [] else late[1..] }

  /**
   * One pop for each byte of the buffer, oldest first: what they leave in the buffer, and the
   * queue. The other thread pushes late[0] before the first pop, late[1] before the second, and
   * so on; a pop that finds nothing leaves its byte as it was.
   */
  function Pops(queue: seq<Byte>, late: seq<seq<Byte>>, buffer: seq<Byte>): (r: (seq<Byte>, seq<Byte>))
    ensures |r.0| == |buffer|
    decreases |buffer|
  {
    if buffer == [] then ([], queue + Concat(late))
    else
      var q := queue + First(late);
      var (out, rest) := Pops(if q == [] then [] else q[1..], Later(late), buffer[1..]);
      ([if q == [] then buffer[0] else q[0]] + out, rest)
  }

  /** No pop of n finds the queue empty. */
  predicate NeverEmpty(queue: seq<Byte>, late: seq<seq<Byte>>, n: nat)
    decreases n
  {
    n > 0 ==>
      var q := queue + First(late);
      q != [] && NeverEmpty(q[1..], Later(late), n - 1)
  }

  class CMixer {
    var m_sample_queue: seq<Byte>
    var m_nChannels: nat
    var m_nBitsPerSample: nat
    var m_samples_ready: bool
    var m_request_samples: bool

    ghost predicate Valid()
      reads this
    {
      m_nChannels > 0 && FrameBytes(m_nChannels, m_nBitsPerSample) > 0
    }

    constructor (channels: nat, bits: nat)
      ensures m_nChannels == channels && m_nBitsPerSample == bits && m_sample_queue == []
    {
      m_sample_queue, m_nChannels, m_nBitsPerSample := [], channels, bits;
      m_samples_ready, m_request_samples := false, false;
    }

    /** Pushes a sample's whole frames, a byte at a time. */
    method CopyWaveform(pWave: seq<Byte>)
      requires Valid()
      modifies this`m_sample_queue, this`m_samples_ready, this`m_request_samples
      ensures m_sample_queue == old(m_sample_queue) + Whole(pWave, FrameBytes(m_nChannels, m_nBitsPerSample))
      ensures m_samples_ready && !m_request_samples
    {
      var frame := m_nChannels * m_nBitsPerSample / 8;
      var nBytes := |pWave| - |pWave| % frame;
      var i := 0;
      while i < nBytes
        invariant 0 <= i <= nBytes && m_sample_queue == old(m_sample_queue) + pWave[..i]
      {
        m_sample_queue := m_sample_queue + [pWave[i]];
        i := i + 1;
      }
      m_samples_ready, m_request_samples := true, false;
    }

    method TryPop(value: Byte) returns (ok: bool, r: Byte)
      modifies this`m_sample_queue
      ensures ok == (old(m_sample_queue) != [])
      ensures ok ==> old(m_sample_queue) == [r] + m_sample_queue
      ensures !ok ==> r == value && m_sample_queue == old(m_sample_queue)
    {
      ok, r := m_sample_queue != [], value;
      if ok {
        r, m_sample_queue := m_sample_queue[0], m_sample_queue[1..];
      }
    }

    /** Waits until n bytes are queued; a wait beyond the arrivals fails, as when streaming stops. */
    method AwaitBytes(n: nat, arrivals: seq<seq<Byte>>)
      requires Valid()
      modifies this`m_sample_queue, this`m_samples_ready, this`m_request_samples
      ensures m_sample_queue == Filled(old(m_sample_queue), arrivals, FrameBytes(m_nChannels, m_nBitsPerSample), n)
    {
      ghost var frame := FrameBytes(m_nChannels, m_nBitsPerSample);
      var k := 0;
      assert arrivals[0..] == arrivals;
      while |m_sample_queue| < n
        invariant Valid() && 0 <= k <= |arrivals| && frame == FrameBytes(m_nChannels, m_nBitsPerSample)
        invariant Filled(m_sample_queue, arrivals[k..], frame, n) == Filled(old(m_sample_queue), arrivals, frame, n)
        decreases |arrivals| - k
      {
        m_request_samples := true;
        if k == |arrivals| {
          FilledEnough(m_sample_queue, arrivals[k..], frame, n);
          return;
        }
        FilledOne(m_sample_queue, arrivals[k..], frame, n);
        CopyWaveform(arrivals[k]);
        m_samples_ready := false;
        assert arrivals[k..][1..] == arrivals[k + 1..];
        k := k + 1;
      }
      FilledEnough(m_sample_queue, arrivals[k..], frame, n);
    }

    /** The other thread's pushes, while this one pops. */
    method Arrive(bytes: seq<Byte>)
      modifies this`m_sample_queue
      ensures m_sample_queue == old(m_sample_queue) + bytes
    {
      m_sample_queue := m_sample_queue + bytes;
    }

    /** Always reports num_frames frames, whether or not the queue had them. */
    method Mix(samples: seq<Byte>, num_frames: nat, num_bytes_per_sample: nat, arrivals: seq<seq<Byte>>, late: seq<seq<Byte>>)
      returns (mixed: seq<Byte>, frames: nat)
      requires Valid() && num_bytes_per_sample > 0
      modifies this`m_sample_queue, this`m_samples_ready, this`m_request_samples
      ensures var desired := num_frames * m_nChannels * num_bytes_per_sample;
        var full := Filled(old(m_sample_queue), arrivals, FrameBytes(m_nChannels, m_nBitsPerSample), desired);
        (mixed, m_sample_queue) == Pops(full, late, Resized(samples, desired))
      ensures frames == num_frames
    {
      hide Filled, Pops;
      FramesBack(num_frames, m_nChannels, num_bytes_per_sample);
      var desired: nat := num_frames * m_nChannels * num_bytes_per_sample;
      AwaitBytes(desired, arrivals);
      mixed := PopAll(Resized(samples, desired), late);
      frames := desired / num_bytes_per_sample / m_nChannels;
    }

    /** One pop for each byte of the buffer. */
    method PopAll(buffer: seq<Byte>, late: seq<seq<Byte>>) returns (mixed: seq<Byte>)
      modifies this`m_sample_queue
      ensures (mixed, m_sample_queue) == Pops(old(m_sample_queue), late, buffer)
    {
      mixed := [];
      var i, coming := 0, late;
      assert buffer[0..] == buffer;
      EmptyIsUnit(Pops(m_sample_queue, late, buffer).0);
      while i < |buffer|
        invariant 0 <= i <= |buffer|
        invariant var (out, rest) := Pops(m_sample_queue, coming, buffer[i..]);
          Pops(old(m_sample_queue), late, buffer) == (mixed + out, rest)
      {
        assert buffer[i..][0] == buffer[i] && buffer[i..][1..] == buffer[i + 1..];
        ghost var q := m_sample_queue + First(coming);
        ghost var done := mixed;
        Arrive(First(coming));
        coming := Later(coming);
        var ok, value := TryPop(buffer[i]);
        mixed := mixed + [value];
        ConcatAssociates(done, [value], Pops(m_sample_queue, coming, buffer[i + 1..]).0);
        i := i + 1;
      }
      assert buffer[i..] == [];
      EmptyIsUnit(mixed);
      while coming != []
        invariant m_sample_queue + Concat(coming) == Pops(old(m_sample_queue), late, buffer).1
        decreases |coming|
      {
        ConcatAssociates(m_sample_queue, coming[0], Concat(coming[1..]));
        Arrive(coming[0]);
        coming := coming[1..];
      }
      EmptyIsUnit(m_sample_queue);
    }
  }

  lemma FilledEnough(queue: seq<Byte>, waves: seq<seq<Byte>>, frame: nat, n: nat)
    requires frame > 0 && (|queue| >= n || waves == [])
    ensures Filled(queue, waves, frame, n) == queue
  {
  }

  lemma FilledOne(queue: seq<Byte>, waves: seq<seq<Byte>>, frame: nat, n: nat)
    requires frame > 0 && |queue| < n && waves != []
    ensures Filled(queue, waves, frame, n) == Filled(queue + Whole(waves[0], frame), waves[1..], frame, n)
  {
    var k := Needed(queue + Whole(waves[0], frame), waves[1..], frame, n);
    assert waves[..k + 1][1..] == waves[1..][..k];
    assert queue + (Whole(waves[0], frame) + WholeAll(waves[1..][..k], frame)) ==
           queue + Whole(waves[0], frame) + WholeAll(waves[1..][..k], frame);
  }

  lemma FramesBack(frames: nat, channels: nat, bytes: nat)
    requires channels > 0 && bytes > 0
    ensures 0 <= frames * channels * bytes
    ensures frames * channels * bytes / bytes / channels == frames
  {
    DivUnique(frames * channels * bytes, bytes, frames * channels, 0);
    DivUnique(frames * channels, channels, frames, 0);
  }

  // ---- Popping against pushing ----

  /** Pushes go to the other end: when the queue has enough, they might as well come after the pops. */
  lemma {:induction false} PopsWhenEnough(queue: seq<Byte>, late: seq<seq<Byte>>, buffer: seq<Byte>)
    requires |queue| >= |buffer|
    ensures NeverEmpty(queue, late, |buffer|)
    ensures Pops(queue, late, buffer) == (queue[..|buffer|], queue[|buffer|..] + Concat(late))
    decreases |buffer|
  {
    if buffer == [] {
      assert queue[0..] == queue;
    } else {
      var q := queue + First(late);
      PopsWhenEnough(q[1..], Later(late), buffer[1..]);
      var n := |buffer|;
      assert q[1..][..n - 1] == queue[1..n] && [queue[0]] + queue[1..n] == queue[..n];
      assert q[1..][n - 1..] == queue[n..] + First(late);
      FirstAndLater(queue[n..], late);
    }
  }

  lemma FirstAndLater(a: seq<Byte>, late: seq<seq<Byte>>)
    ensures (a + First(late)) + Concat(Later(late)) == a + Concat(late)
  {
    if late != [] {
      ConcatAssociates(a, late[0], Concat(late[1..]));
    }
  }

  /** What comes out, and is left, is what was there and what came, byte for byte, exactly when no pop found nothing; otherwise it is more. */
  lemma {:induction false} PopsConserve(queue: seq<Byte>, late: seq<seq<Byte>>, buffer: seq<Byte>)
    ensures var (out, rest) := Pops(queue, late, buffer);
      && |out| + |rest| >= |queue| + |Concat(late)|
      && (if NeverEmpty(queue, late, |buffer|) then out + rest == queue + Concat(late)
          else |out| + |rest| > |queue| + |Concat(late)|)
    decreases |buffer|
  {
    if buffer == [] {
    } else {
      var q := queue + First(late);
      var q' := if q == [] then [] else q[1..];
      PopsConserve(q', Later(late), buffer[1..]);
      FirstAndLater(queue, late);
      var (out, rest) := Pops(q', Later(late), buffer[1..]);
      if q != [] {
        ConcatAssociates([q[0]], out, rest);
        ConcatAssociates([q[0]], q[1..], Concat(Later(late)));
        assert [q[0]] + q[1..] == q;
      }
    }
  }

  /** What n pops leave in a buffer, and of the queue, when nothing is pushed meanwhile. */
  function Quiet(queue: seq<Byte>, buffer: seq<Byte>): (seq<Byte>, seq<Byte>) {
    if |queue| >= |buffer| then (queue[..|buffer|], queue[|buffer|..]) else (queue + buffer[|queue|..], [])
  }

  lemma QuietStep(queue: seq<Byte>, buffer: seq<Byte>)
    requires buffer != []
    ensures var (out, rest) := Quiet(if queue == [] then [] else queue[1..], buffer[1..]);
      Quiet(queue, buffer) == ([if queue == [] then buffer[0] else queue[0]] + out, rest)
  {
    if queue == [] {
      EmptyStep(buffer);
    } else if |queue| < |buffer| {
      ShortStep(queue, buffer);
    } else {
      LongStep(queue, |buffer|);
    }
  }

  lemma EmptyStep(buffer: seq<Byte>)
    requires buffer != []
    ensures Quiet([], buffer) == (buffer, []) && [buffer[0]] + Quiet([], buffer[1..]).0 == buffer && Quiet([], buffer[1..]).1 == []
  {
    assert [] + buffer[0..] == buffer;
    assert Quiet([], buffer[1..]).0 == buffer[1..];
  }

  lemma ShortStep(queue: seq<Byte>, buffer: seq<Byte>)
    requires 0 < |queue| < |buffer|
    ensures [queue[0]] + (queue[1..] + buffer[1..][|queue| - 1..]) == queue + buffer[|queue|..]
  {
    assert buffer[1..][|queue| - 1..] == buffer[|queue|..];
    ConcatAssociates([queue[0]], queue[1..], buffer[|queue|..]);
  }

  lemma LongStep(queue: seq<Byte>, n: nat)
    requires 0 < n <= |queue|
    ensures [queue[0]] + queue[1..][..n - 1] == queue[..n] && queue[1..][n - 1..] == queue[n..]
  {
  }

  /** With nothing pushed meanwhile, all the queue had comes out and the buffer shows through after it. */
  lemma {:induction false} PopsQuiet(queue: seq<Byte>, buffer: seq<Byte>)
    ensures Pops(queue, [], buffer) == Quiet(queue, buffer)
    decreases |buffer|
  {
    EmptyIsUnit(queue);
    if buffer == [] {
    } else {
      hide Quiet;
      QuietStep(queue, buffer);
      PopsQuiet(if queue == [] then [] else queue[1..], buffer[1..]);
    }
  }

  // ---- Runs in one format ----

  datatype Step = Push(wave: seq<Byte>) | Take(frames: nat, arrivals: seq<seq<Byte>>, late: seq<seq<Byte>>, before: seq<Byte>)

  /** The queue, and everything handed to the sound thread. */
  datatype Fifo = Fifo(queue: seq<Byte>, out: seq<Byte>)

  /** The queue a Take begins to pop. */
  function Ready(f: Fifo, step: Step, frame: nat): seq<Byte>
    requires frame > 0 && step.Take?
  {
    Filled(f.queue, step.arrivals, frame, step.frames * frame)
  }

  /** A Take of n frames of `frame` bytes into a buffer that held `before`. */
  function Apply(f: Fifo, step: Step, frame: nat): Fifo
    requires frame > 0
  {
    match step
    case Push(wave) => f.(queue := f.queue + Whole(wave, frame))
    case Take(frames, _, late, before) =>
      var (out, rest) := Pops(Ready(f, step, frame), late, Resized(before, frames * frame));
      Fifo(rest, f.out + out)
  }

  /** The bytes a step brings in. */
  function Brought(f: Fifo, step: Step, frame: nat): seq<Byte>
    requires frame > 0
  {
    match step
    case Push(wave) => Whole(wave, frame)
    case Take(frames, arrivals, late, _) =>
      WholeAll(arrivals[..Needed(f.queue, arrivals, frame, frames * frame)], frame) + Concat(late)
  }

  /** A Take whose every pop found a byte. */
  predicate Supplied(f: Fifo, step: Step, frame: nat)
    requires frame > 0
  {
    step.Take? ==> NeverEmpty(Ready(f, step, frame), step.late, step.frames * frame)
  }

  /** A Take whose waiting did not fail. */
  predicate Successful(f: Fifo, step: Step, frame: nat)
    requires frame > 0
  {
    step.Take? ==> |Ready(f, step, frame)| >= step.frames * frame
  }

  /** A wait that succeeds supplies every pop, whatever is pushed meanwhile; one that fails is made good only by pushes that come in time. */
  lemma {:induction false} WaitSupplies(f: Fifo, step: Step, frame: nat)
    requires frame > 0
    ensures Successful(f, step, frame) ==> Supplied(f, step, frame)
    ensures step.Take? && step.late == [] && Supplied(f, step, frame) ==> Successful(f, step, frame)
  {
    hide Filled, Pops, NeverEmpty;
    if step.Take? {
      var full, buffer := Ready(f, step, frame), Resized(step.before, step.frames * frame);
      if |full| >= |buffer| {
        PopsWhenEnough(full, step.late, buffer);
      } else if step.late == [] {
        PopsConserve(full, [], buffer);
        PopsQuiet(full, buffer);
        assert Concat([]) == [];
      }
    }
  }

  function Run(f: Fifo, steps: seq<Step>, frame: nat): Fifo
    requires frame > 0
    decreases |steps|
  {
    if steps == [] then f else Run(Apply(f, steps[0], frame), steps[1..], frame)
  }

  function AllBrought(f: Fifo, steps: seq<Step>, frame: nat): seq<Byte>
    requires frame > 0
    decreases |steps|
  {
    if steps == [] then []
    else Brought(f, steps[0], frame) + AllBrought(Apply(f, steps[0], frame), steps[1..], frame)
  }

  predicate AllSupplied(f: Fifo, steps: seq<Step>, frame: nat)
    requires frame > 0
    decreases |steps|
  {
    steps != [] ==> Supplied(f, steps[0], frame) && AllSupplied(Apply(f, steps[0], frame), steps[1..], frame)
  }

  lemma StepConserves(f: Fifo, step: Step, frame: nat)
    requires frame > 0
    ensures var r := Apply(f, step, frame);
      && (Supplied(f, step, frame) ==> r.out + r.queue == f.out + f.queue + Brought(f, step, frame))
      && |r.out| + |r.queue| >= |f.out| + |f.queue| + |Brought(f, step, frame)|
      && (!Supplied(f, step, frame) ==> |r.out| + |r.queue| > |f.out| + |f.queue| + |Brought(f, step, frame)|)
  {
    hide Pops, NeverEmpty, WholeAll, Needed, Whole;
    match step
    case Push(wave) => ConcatAssociates(f.out, f.queue, Whole(wave, frame));
    case Take(frames, arrivals, late, before) =>
      var full, buffer := Ready(f, step, frame), Resized(before, frames * frame);
      var came := WholeAll(arrivals[..Needed(f.queue, arrivals, frame, frames * frame)], frame);
      PopsConserve(full, late, buffer);
      var (out, rest) := Pops(full, late, buffer);
      ConcatAssociates(f.out, out, rest);
      ConcatAssociates(f.out, full, Concat(late));
      ConcatAssociates(f.out, f.queue, came);
      ConcatAssociates(f.out + f.queue, came, Concat(late));
  }

  /**
   * In one format, what was handed out followed by what is queued is everything pushed, byte for
   * byte, in order, exactly when no pop found the queue empty: such a pop hands out the byte its
   * buffer already held.
   */
  lemma {:induction false} FifoConserves(f: Fifo, steps: seq<Step>, frame: nat)
    requires frame > 0
    ensures var r := Run(f, steps, frame);
      r.out + r.queue == f.out + f.queue + AllBrought(f, steps, frame) <==> AllSupplied(f, steps, frame)
    decreases |steps|
  {
    hide Apply, Brought, Supplied;
    if AllSupplied(f, steps, frame) {
      SuccessConserves(f, steps, frame);
    }
    FailureAdds(f, steps, frame);
  }

  lemma {:induction false} SuccessConserves(f: Fifo, steps: seq<Step>, frame: nat)
    requires frame > 0 && AllSupplied(f, steps, frame)
    ensures var r := Run(f, steps, frame); r.out + r.queue == f.out + f.queue + AllBrought(f, steps, frame)
    decreases |steps|
  {
    hide Apply, Brought, Supplied;
    if steps == [] {
      assert f.out + f.queue + [] == f.out + f.queue;
    } else {
      var g := Apply(f, steps[0], frame);
      StepConserves(f, steps[0], frame);
      SuccessConserves(g, steps[1..], frame);
      ConcatAssociates(f.out + f.queue, Brought(f, steps[0], frame), AllBrought(g, steps[1..], frame));
    }
  }

  lemma {:induction false} FailureAdds(f: Fifo, steps: seq<Step>, frame: nat)
    requires frame > 0
    ensures var r := Run(f, steps, frame);
      && |r.out| + |r.queue| >= |f.out| + |f.queue| + |AllBrought(f, steps, frame)|
      && (!AllSupplied(f, steps, frame) ==> |r.out| + |r.queue| > |f.out| + |f.queue| + |AllBrought(f, steps, frame)|)
    decreases |steps|
  {
    hide Apply, Brought, Supplied;
    if steps == [] {
    } else {
      StepConserves(f, steps[0], frame);
      FailureAdds(Apply(f, steps[0], frame), steps[1..], frame);
    }
  }

  /**
   * Whether a Take conserves, whatever is pushed while it pops, is decided by its wait: it does
   * exactly when the wait did not fail.
   */
  lemma {:induction false} TakeConservesIff(f: Fifo, frames: nat, arrivals: seq<seq<Byte>>, before: seq<Byte>, frame: nat)
    requires frame > 0
    ensures (forall late :: Conserves(f, Take(frames, arrivals, late, before), frame)) <==>
            Successful(f, Take(frames, arrivals, [], before), frame)
  {
    hide Apply, Brought, Ready, NeverEmpty;
    forall late
      ensures Conserves(f, Take(frames, arrivals, late, before), frame) <==> Supplied(f, Take(frames, arrivals, late, before), frame)
      ensures Successful(f, Take(frames, arrivals, [], before), frame) ==> Supplied(f, Take(frames, arrivals, late, before), frame)
    {
      StepConserves(f, Take(frames, arrivals, late, before), frame);
      WaitSupplies(f, Take(frames, arrivals, late, before), frame);
      ReadyWhateverLate(f, frames, arrivals, late, before, frame);
    }
    WaitSupplies(f, Take(frames, arrivals, [], before), frame);
  }

  /** What is handed out and left is what was there and what came in. */
  predicate Conserves(f: Fifo, step: Step, frame: nat)
    requires frame > 0
  {
    Apply(f, step, frame).out + Apply(f, step, frame).queue == f.out + f.queue + Brought(f, step, frame)
  }

  lemma ReadyWhateverLate(f: Fifo, frames: nat, arrivals: seq<seq<Byte>>, late: seq<seq<Byte>>, before: seq<Byte>, frame: nat)
    requires frame > 0
    ensures Ready(f, Take(frames, arrivals, late, before), frame) == Ready(f, Take(frames, arrivals, [], before), frame)
  {
  }

  /** A Take from an empty queue to which nothing comes hands out a byte nobody pushed. */
  lemma {:induction false} FailedWaitPlaysStaleByte()
    ensures var f, step := Fifo([], []), Take(1, [], [], [7]);
      && !Successful(f, step, 1) && Brought(f, step, 1) == []
      && Apply(f, step, 1) == Fifo([], [7])
  {
    var f, step := Fifo([], []), Take(1, [], [], [7]);
    assert Ready(f, step, 1) == [];
    assert Resized([7], 1) == [7];
    PopsQuiet([], [7]);
  }

  /** The class's Mix is a Take when it is asked for samples of the width the mixer receives. */
  lemma MixIsTake(f: Fifo, frames: nat, channels: nat, bytes: nat, arrivals: seq<seq<Byte>>, late: seq<seq<Byte>>, samples: seq<Byte>)
    requires channels > 0 && bytes > 0 && FrameBytes(channels, 8 * bytes) > 0
    ensures var desired := frames * channels * bytes;
      var full := Filled(f.queue, arrivals, FrameBytes(channels, 8 * bytes), desired);
      var (mixed, rest) := Pops(full, late, Resized(samples, desired));
      Apply(f, Take(frames, arrivals, late, samples), FrameBytes(channels, 8 * bytes)) == Fifo(rest, f.out + mixed)
  {
    hide Filled, Needed, Pops;
    FrameIs(channels, bytes);
    assert frames * channels * bytes == frames * (channels * bytes);
  }

  lemma FrameIs(channels: nat, bytes: nat)
    ensures FrameBytes(channels, 8 * bytes) == channels * bytes
  {
  }

  predicate Framed(xs: seq<Byte>, frame: nat)
    requires frame > 0
  {
    |xs| % frame == 0
  }

  lemma FramedSum(m: nat, n: nat, frame: nat)
    requires frame > 0 && m % frame == 0 && n % frame == 0
    ensures (m + n) % frame == 0 && (m - n) % frame == 0
  {
    DivModDefinition(m, frame);
    DivModDefinition(n, frame);
    var p, q := m / frame, n / frame;
    assert (p + q) * frame == p * frame + q * frame && (p - q) * frame == p * frame - q * frame;
    DivUnique(m + n, frame, p + q, 0);
    DivUnique(m - n, frame, p - q, 0);
  }

  lemma WholeFramed(data: seq<Byte>, frame: nat)
    requires frame > 0
    ensures Framed(Whole(data, frame), frame)
  {
    DivModDefinition(|data|, frame);
    DivUnique(|data| - |data| % frame, frame, |data| / frame, 0);
  }

  lemma {:induction false} WholeAllFramed(waves: seq<seq<Byte>>, frame: nat)
    requires frame > 0
    ensures Framed(WholeAll(waves, frame), frame)
    decreases |waves|
  {
    hide Whole;
    if waves == [] {
    } else {
      WholeFramed(waves[0], frame);
      WholeAllFramed(waves[1..], frame);
      FramedSum(|Whole(waves[0], frame)|, |WholeAll(waves[1..], frame)|, frame);
    }
  }

  /** How many of n pops find a byte. */
  function Found(queue: seq<Byte>, late: seq<seq<Byte>>, n: nat): (k: nat)
    ensures k <= n
    decreases n
  {
    if n == 0 then 0
    else
      var q := queue + First(late);
      if q == [] then Found([], Later(late), n - 1) else 1 + Found(q[1..], Later(late), n - 1)
  }

  lemma {:induction false} PopsCount(queue: seq<Byte>, late: seq<seq<Byte>>, buffer: seq<Byte>)
    ensures |Pops(queue, late, buffer).1| == |queue| + |Concat(late)| - Found(queue, late, |buffer|)
    decreases |buffer|
  {
    if buffer == [] {
    } else {
      var q := queue + First(late);
      PopsCount(if q == [] then [] else q[1..], Later(late), buffer[1..]);
      FirstAndLater(queue, late);
    }
  }

  /** The pops of a step find whole frames, if any. */
  predicate FindsWhole(f: Fifo, step: Step, frame: nat)
    requires frame > 0
  {
    step.Take? ==> Found(Ready(f, step, frame), step.late, step.frames * frame) % frame == 0
  }

  /** They do when the wait succeeded, and when nothing was pushed meanwhile. */
  lemma {:induction false} WhenFindsWhole(f: Fifo, step: Step, frame: nat)
    requires frame > 0 && step.Take? && Framed(f.queue, frame)
    requires Successful(f, step, frame) || step.late == []
    ensures FindsWhole(f, step, frame)
  {
    hide Pops, Found, Ready;
    var full, n := Ready(f, step, frame), step.frames * frame;
    var buffer := Resized([], n);
    ReadyFramed(f, step, frame);
    DivUnique(n, frame, step.frames, 0);
    PopsCount(full, step.late, buffer);
    if |full| >= n {
      PopsWhenEnough(full, step.late, buffer);
    } else {
      PopsQuiet(full, buffer);
      assert Concat([]) == [];
    }
  }

  /** Nothing until the last of n pops, and then one wave. */
  function LastMoment(n: nat, wave: seq<Byte>): seq<seq<Byte>>
    requires n > 0
  {
    if n == 1 then [wave] else [[]] + LastMoment(n - 1, wave)
  }

  lemma {:induction false} LastMomentIs(n: nat, wave: seq<Byte>)
    requires n > 0
    ensures Concat(LastMoment(n, wave)) == wave
    decreases n
  {
    EmptyIsUnit(wave);
    if n == 1 {
      assert [wave][1..] == [] && Concat([]) == [];
    } else {
      LastMomentIs(n - 1, wave);
      assert LastMoment(n, wave)[1..] == LastMoment(n - 1, wave);
    }
  }

  /** To a queue left short, the last pop then brings one byte of that wave, and no other does. */
  lemma {:induction false} LastMomentFound(queue: seq<Byte>, n: nat, wave: seq<Byte>)
    requires |queue| < n && wave != []
    ensures Found(queue, LastMoment(n, wave), n) == |queue| + 1
    decreases n
  {
    var late := LastMoment(n, wave);
    EmptyIsUnit(queue);
    if n == 1 {
      EmptyIsUnit(wave);
      assert Found(wave[1..], Later(late), 0) == 0;
    } else {
      assert Later(late) == LastMoment(n - 1, wave);
      LastMomentFound(if queue == [] then [] else queue[1..], n - 1, wave);
    }
  }

  /** By the end of the step the other thread has pushed whole frames. */
  predicate WholeLate(step: Step, frame: nat)
    requires frame > 0
  {
    step.Take? ==> Framed(Concat(step.late), frame)
  }

  lemma StepFramed(f: Fifo, step: Step, frame: nat)
    requires frame > 0 && Framed(f.queue, frame) && WholeLate(step, frame)
    ensures Framed(Apply(f, step, frame).queue, frame) <==> FindsWhole(f, step, frame)
    ensures Framed(f.out, frame) ==> Framed(Apply(f, step, frame).out, frame)
  {
    hide Whole, Pops, Concat, Ready, Found;
    if step.Push? {
      WholeFramed(step.wave, frame);
      FramedSum(|f.queue|, |Whole(step.wave, frame)|, frame);
    } else {
      var n := step.frames * frame;
      var full, buffer := Ready(f, step, frame), Resized(step.before, n);
      ReadyFramed(f, step, frame);
      DivUnique(n, frame, step.frames, 0);
      if Framed(f.out, frame) {
        FramedSum(|f.out|, n, frame);
      }
      PopsCount(full, step.late, buffer);
      FramedSum(|full|, |Concat(step.late)|, frame);
      DifferenceFramed(|full| + |Concat(step.late)|, Found(full, step.late, n), frame);
    }
  }

  lemma DifferenceFramed(m: nat, k: nat, frame: nat)
    requires frame > 0 && m % frame == 0 && k <= m
    ensures (m - k) % frame == 0 <==> k % frame == 0
  {
    if k % frame == 0 {
      FramedSum(m, k, frame);
    }
    if (m - k) % frame == 0 {
      FramedSum(m, m - k, frame);
    }
  }

  lemma ReadyFramed(f: Fifo, step: Step, frame: nat)
    requires frame > 0 && step.Take? && Framed(f.queue, frame)
    ensures Framed(Ready(f, step, frame), frame)
  {
    hide WholeAll, Needed;
    var waves := step.arrivals[..Needed(f.queue, step.arrivals, frame, step.frames * frame)];
    WholeAllFramed(waves, frame);
    FramedSum(|f.queue|, |WholeAll(waves, frame)|, frame);
  }

  /** The queue holds whole frames after every step of a run. */
  predicate AlwaysFramed(f: Fifo, steps: seq<Step>, frame: nat)
    requires frame > 0
    decreases |steps|
  {
    Framed(f.queue, frame) && (steps != [] ==> AlwaysFramed(Apply(f, steps[0], frame), steps[1..], frame))
  }

  function Zeros(n: nat): (xs: seq<Byte>)
    ensures |xs| == n
  {
    seq(n, i requires 0 <= i < n => 0)
  }

  /** One frame pushed at the last moment of a Take whose wait failed. */
  function Disturbed(step: Step, frame: nat): Step
    requires step.Take? && step.frames * frame > 0
  {
    step.(late := LastMoment(step.frames * frame, Zeros(frame)))
  }

  /** A Take whose wait failed is torn by one frame that comes at the last moment, if a frame has more than one byte. */
  lemma {:induction false} DisturbedTears(f: Fifo, step: Step, frame: nat)
    requires frame > 1 && step.Take? && Framed(f.queue, frame) && !Successful(f, step, frame)
    ensures step.frames * frame > 0
    ensures WholeLate(Disturbed(step, frame), frame)
    ensures !Framed(Apply(f, Disturbed(step, frame), frame).queue, frame)
  {
    hide Apply, Found, LastMoment;
    var n := step.frames * frame;
    assert n > |Ready(f, step, frame)|;
    var torn := Disturbed(step, frame);
    ReadyWhateverLate(f, step.frames, step.arrivals, step.late, step.before, frame);
    ReadyWhateverLate(f, step.frames, step.arrivals, torn.late, step.before, frame);
    var full := Ready(f, torn, frame);
    LastMomentIs(n, Zeros(frame));
    DivUnique(frame, frame, 1, 0);
    LastMomentFound(full, n, Zeros(frame));
    ReadyFramed(f, torn, frame);
    StepFramed(f, torn, frame);
    OneMore(|full|, frame);
  }

  lemma OneMore(m: nat, frame: nat)
    requires frame > 1 && m % frame == 0
    ensures (m + 1) % frame != 0
  {
    DivModDefinition(m, frame);
    DivUnique(m + 1, frame, m / frame, 1);
  }

  lemma FramesOfOne(xs: seq<Byte>)
    ensures Framed(xs, 1)
  {
  }

  /**
   * Whether a Take leaves whole frames, whatever whole frames are pushed while it pops, is decided
   * by its wait: it does exactly when the wait did not fail, or a frame is one byte.
   */
  lemma {:induction false} TakeKeepsFramesIff(f: Fifo, frames: nat, arrivals: seq<seq<Byte>>, before: seq<Byte>, frame: nat)
    requires frame > 0 && Framed(f.queue, frame)
    ensures (forall late :: Framed(Concat(late), frame) ==> Framed(Apply(f, Take(frames, arrivals, late, before), frame).queue, frame)) <==>
            Successful(f, Take(frames, arrivals, [], before), frame) || frame == 1
  {
    hide Apply, Found, Ready, FindsWhole, Framed;
    var quiet := Take(frames, arrivals, [], before);
    if frame == 1 {
      forall late
        ensures Framed(Apply(f, Take(frames, arrivals, late, before), frame).queue, frame)
      {
        FramesOfOne(Apply(f, Take(frames, arrivals, late, before), frame).queue);
      }
    } else if Successful(f, quiet, frame) {
      forall late | Framed(Concat(late), frame)
        ensures Framed(Apply(f, Take(frames, arrivals, late, before), frame).queue, frame)
      {
        ReadyWhateverLate(f, frames, arrivals, late, before, frame);
        WhenFindsWhole(f, Take(frames, arrivals, late, before), frame);
        StepFramed(f, Take(frames, arrivals, late, before), frame);
      }
    } else {
      DisturbedTears(f, quiet, frame);
      var torn := Disturbed(quiet, frame);
      assert torn == Take(frames, arrivals, torn.late, before);
    }
  }

  // ---- Runs, whatever is pushed while they pop ----

  /** The same requests, but for what is pushed while they pop. */
  predicate SameRequests(a: Step, b: Step) {
    if a.Take? then b.Take? && a.(late := []) == b.(late := []) else a == b
  }

  /** Such runs, in which what is pushed is whole frames. */
  ghost predicate Variant(steps: seq<Step>, other: seq<Step>, frame: nat)
    requires frame > 0
  {
    && |steps| == |other|
    && forall i :: 0 <= i < |steps| ==> SameRequests(steps[i], other[i]) && WholeLate(other[i], frame)
  }

  predicate AllSuccessful(f: Fifo, steps: seq<Step>, frame: nat)
    requires frame > 0
    decreases |steps|
  {
    steps != [] ==> Successful(f, steps[0], frame) && AllSuccessful(Apply(f, steps[0], frame), steps[1..], frame)
  }

  lemma {:induction false} SuccessKeepsFrames(f: Fifo, steps: seq<Step>, frame: nat)
    requires frame > 0 && Framed(f.queue, frame)
    requires forall i :: 0 <= i < |steps| ==> WholeLate(steps[i], frame)
    requires AllSuccessful(f, steps, frame) || frame == 1
    ensures AlwaysFramed(f, steps, frame)
    decreases |steps|
  {
    hide Apply, FindsWhole, WholeLate, Successful;
    if steps == [] {
    } else {
      var g := Apply(f, steps[0], frame);
      if frame == 1 {
        FramesOfOne(g.queue);
      } else {
        SuccessFindsWhole(f, steps[0], frame);
        StepFramed(f, steps[0], frame);
      }
      SuccessKeepsFrames(g, steps[1..], frame);
    }
  }

  lemma SuccessFindsWhole(f: Fifo, step: Step, frame: nat)
    requires frame > 0 && Framed(f.queue, frame) && Successful(f, step, frame)
    ensures FindsWhole(f, step, frame)
  {
    if step.Take? {
      WhenFindsWhole(f, step, frame);
    }
  }

  /** From a run in which a wait fails, one with the same requests in which a frame is torn. */
  lemma {:induction false} Tear(f: Fifo, steps: seq<Step>, frame: nat) returns (torn: seq<Step>)
    requires frame > 1 && Framed(f.queue, frame) && !AllSuccessful(f, steps, frame)
    requires forall i :: 0 <= i < |steps| ==> WholeLate(steps[i], frame)
    ensures Variant(steps, torn, frame) && !AlwaysFramed(f, torn, frame)
    decreases |steps|
  {
    hide Apply, WholeLate, Successful, Framed, Disturbed;
    var step := steps[0];
    if !Successful(f, step, frame) {
      PushSucceeds(f, step, frame);
      DisturbedTears(f, step, frame);
      DisturbedSame(step, frame);
      torn := [Disturbed(step, frame)] + steps[1..];
      assert torn[1..] == steps[1..];
      assert forall i :: 1 <= i < |torn| ==> torn[i] == steps[i];
    } else {
      SuccessFindsWhole(f, step, frame);
      hide FindsWhole;
      StepFramed(f, step, frame);
      var rest := Tear(Apply(f, step, frame), steps[1..], frame);
      torn := [step] + rest;
      assert torn[1..] == rest;
      assert forall i :: 1 <= i < |torn| ==> torn[i] == rest[i - 1] && steps[i] == steps[1..][i - 1];
    }
  }

  lemma PushSucceeds(f: Fifo, step: Step, frame: nat)
    requires frame > 0 && !Successful(f, step, frame)
    ensures step.Take?
  {
  }

  lemma DisturbedSame(step: Step, frame: nat)
    requires step.Take? && step.frames * frame > 0
    ensures SameRequests(step, Disturbed(step, frame))
  {
  }

  /**
   * The queue holds whole frames throughout every run of these requests, whatever whole frames are
   * pushed while they pop, exactly when in none of those runs a wait fails, or a frame is one byte.
   */
  lemma {:induction false} FramesStayWhole(f: Fifo, steps: seq<Step>, frame: nat)
    requires frame > 0 && Framed(f.queue, frame)
    ensures (forall other :: Variant(steps, other, frame) ==> AlwaysFramed(f, other, frame)) <==>
            frame == 1 || forall other :: Variant(steps, other, frame) ==> AllSuccessful(f, other, frame)
  {
    hide AlwaysFramed, AllSuccessful, Framed, WholeLate;
    if frame == 1 || forall other :: Variant(steps, other, frame) ==> AllSuccessful(f, other, frame) {
      forall other | Variant(steps, other, frame)
        ensures AlwaysFramed(f, other, frame)
      {
        SuccessKeepsFrames(f, other, frame);
      }
    } else {
      var other :| Variant(steps, other, frame) && !AllSuccessful(f, other, frame);
      var torn := Tear(f, other, frame);
      VariantOf(steps, other, torn, frame);
    }
  }

  lemma VariantOf(a: seq<Step>, b: seq<Step>, c: seq<Step>, frame: nat)
    requires frame > 0 && Variant(a, b, frame) && Variant(b, c, frame)
    ensures Variant(a, c, frame)
  {
    forall i | 0 <= i < |a|
      ensures SameRequests(a[i], c[i])
    {
      assert SameRequests(a[i], b[i]) && SameRequests(b[i], c[i]);
    }
  }

  lemma {:induction false} SuccessSupplies(f: Fifo, steps: seq<Step>, frame: nat)
    requires frame > 0 && AllSuccessful(f, steps, frame)
    ensures AllSupplied(f, steps, frame)
    decreases |steps|
  {
    hide Apply, Successful, Supplied;
    if steps == [] {
    } else {
      WaitSupplies(f, steps[0], frame);
      SuccessSupplies(Apply(f, steps[0], frame), steps[1..], frame);
    }
  }

  /** From a run in which a wait fails, one with the same requests in which a pop finds nothing. */
  lemma {:induction false} Starve(f: Fifo, steps: seq<Step>, frame: nat) returns (starved: seq<Step>)
    requires frame > 0 && !AllSuccessful(f, steps, frame)
    requires forall i :: 0 <= i < |steps| ==> WholeLate(steps[i], frame)
    ensures Variant(steps, starved, frame) && !AllSupplied(f, starved, frame)
    decreases |steps|
  {
    hide Apply, WholeLate, Successful, Supplied;
    var step := steps[0];
    if !Successful(f, step, frame) {
      StarvedStep(f, step, frame);
      starved := [step.(late := [])] + steps[1..];
      assert starved[1..] == steps[1..];
      assert forall i :: 1 <= i < |starved| ==> starved[i] == steps[i];
    } else {
      var rest := Starve(Apply(f, step, frame), steps[1..], frame);
      starved := [step] + rest;
      assert starved[1..] == rest;
      assert forall i :: 1 <= i < |starved| ==> starved[i] == rest[i - 1] && steps[i] == steps[1..][i - 1];
    }
  }

  lemma StarvedStep(f: Fifo, step: Step, frame: nat)
    requires frame > 0 && !Successful(f, step, frame)
    ensures step.Take? && WholeLate(step.(late := []), frame) && !Supplied(f, step.(late := []), frame)
  {
    hide NeverEmpty, Ready;
    WaitSupplies(f, step.(late := []), frame);
    ReadyWhateverLate(f, step.frames, step.arrivals, step.late, step.before, frame);
    assert Concat([]) == [];
    DivUnique(0, frame, 0, 0);
  }

  /** A run hands out, and leaves queued, exactly what was there and what came in. */
  predicate RunConserves(f: Fifo, steps: seq<Step>, frame: nat)
    requires frame > 0
  {
    Run(f, steps, frame).out + Run(f, steps, frame).queue == f.out + f.queue + AllBrought(f, steps, frame)
  }

  /** Every run of these requests conserves, whatever whole frames are pushed while they pop, exactly when in none of those runs a wait fails. */
  lemma {:induction false} ConservesWhateverLate(f: Fifo, steps: seq<Step>, frame: nat)
    requires frame > 0
    ensures (forall other :: Variant(steps, other, frame) ==> RunConserves(f, other, frame)) <==>
            forall other :: Variant(steps, other, frame) ==> AllSuccessful(f, other, frame)
  {
    hide AllSuccessful, AllSupplied, WholeLate, Run, AllBrought;
    if forall other :: Variant(steps, other, frame) ==> AllSuccessful(f, other, frame) {
      forall other | Variant(steps, other, frame)
        ensures RunConserves(f, other, frame)
      {
        SuccessSupplies(f, other, frame);
        FifoConserves(f, other, frame);
      }
    } else {
      var other :| Variant(steps, other, frame) && !AllSuccessful(f, other, frame);
      var starved := Starve(f, other, frame);
      VariantOf(steps, other, starved, frame);
      FifoConserves(f, starved, frame);
    }
  }

  /** A frame pushed between the pops of a failed Take is torn: half of it is handed out mid-buffer, half stays. */
  lemma {:induction false} LatePushTearsFrame()
    ensures var f, step := Fifo([], []), Take(1, [], [[], [1, 2]], [8, 9]);
      && Framed(Concat(step.late), 2) && !Successful(f, step, 2)
      && Apply(f, step, 2) == Fifo([2], [8, 1])
  {
    var late: seq<seq<Byte>>, buffer: seq<Byte> := [[], [1, 2]], [8, 9];
    assert Ready(Fifo([], []), Take(1, [], late, buffer), 2) == [];
    assert Resized(buffer, 2) == buffer;
    assert First(late) == [] && Later(late) == [[1, 2]] && Later([[1, 2]]) == [];
    assert buffer[1..] == [9] && [9][1..] == [];
    EmptyIsUnit<Byte>([2]);
    EmptyIsUnit<Byte>([1]);
    EmptyIsUnit<Byte>([1, 2]);
    EmptyIsUnit<Byte>([]);
    assert Pops([2], [], []) == ([], [2]);
    assert Pops([], [[1, 2]], [9]) == ([1], [2]);
    assert [8] + [1] == [8, 1];
    PopNothing(late, buffer);
  }

  lemma PopNothing(late: seq<seq<Byte>>, buffer: seq<Byte>)
    requires buffer != [] && First(late) == []
    ensures var (out, rest) := Pops([], Later(late), buffer[1..]); Pops([], late, buffer) == ([buffer[0]] + out, rest)
  {
    EmptyIsUnit<Byte>([]);
  }
}
