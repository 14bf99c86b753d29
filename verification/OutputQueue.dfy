/**
 * The COutputQueue object: its fields, its batch array and its loops. Each method
 * is one region under the lock (or one synchronous call in direct mode), proved
 * against the functions of OutputQueueTypes and OutputQueueDirect.
 */
module OutputQueue {
  import opened OutputQueueTypes
  import opened OutputQueueProtocol
  import opened OutputQueueWakeups
  import opened OutputQueueDirect

  predicate IsSpecialSample(i: Item) { IsControl(i) }

  class COutputQueue {
    const c: Config
    const pin: Pin
    const ppSamples: array<Sample>
    var list: seq<Item>
    var nBatched: nat
    var waiting: nat
    var sem: nat
    var flushing: bool
    var flushed: bool
    var terminate: bool
    var evFlush: bool
    var hr: int
    ghost var released: multiset<Sample>
    ghost var calls: seq<Call>
    var nCalls: nat
    ghost var epoch: nat

    ghost predicate Valid()
      reads this, ppSamples
    {
      && GoodConfig(c) && ppSamples.Length == c.batchSize && nBatched < c.batchSize
      && WellPaired(list) && nCalls == |calls|
    }

    ghost function State(): QState
      reads this, ppSamples
      requires nBatched <= ppSamples.Length
    {
      QState(list, ppSamples[..nBatched], waiting, sem, flushing, flushed, terminate, evFlush, hr, released, calls)
    }

    constructor (c: Config, pin: Pin)
      requires GoodConfig(c)
      ensures Valid() && fresh(ppSamples) && State() == INITIAL_STATE
    {
      this.c, this.pin := c, pin;
      ppSamples := new Sample[c.batchSize];
      list, nBatched, waiting, sem := [], 0, 0, 0;
      flushing, flushed, terminate, evFlush, hr := false, true, false, false, S_OK;
      released, calls, nCalls, epoch := multiset{}, [], 0, 0;
    }

    // ---- Queued mode ----

    method QueueSample(i: Item)
      modifies this`list
      ensures list == old(list) + [i]
    {
      list := list + [i];
    }

    method NotifyThread()
      requires nBatched <= ppSamples.Length
      modifies this`sem, this`waiting
      ensures State() == Notify(old(State()))
    {
      if waiting != 0 {
        sem := sem + waiting;
        waiting := 0;
      }
    }

    /** Empties the list, NEW_SEGMENT packets with their parameters, and then the batch. */
    method FreeSamples()
      requires Valid()
      modifies this`list, this`nBatched, this`released
      ensures Valid() && State() == FreeAll(old(State()))
    {
      hide WellPaired, SamplesIn;
      FreeList();
      EmptyIsNone();
      ClearBatch();
    }

    method FreeList()
      requires WellPaired(list)
      modifies this`list, this`released
      ensures list == [] && released == old(released) + SamplesIn(old(list))
    {
      hide WellPaired, SamplesIn;
      EmptyIsNone();
      while list != []
        invariant WellPaired(list)
        invariant released + SamplesIn(list) == old(released) + SamplesIn(old(list))
        decreases |list|
      {
        ListHead(list);
        TailPaired(list);
        var pSample := list[0];
        list := list[1..];
        if !IsSpecialSample(pSample) {
          released := released + multiset{pSample.x};
        } else if pSample.NewSegmentPacket? {
          list := list[1..];
        }
      }
    }

    method Discard(xs: seq<Sample>)
      modifies this`released
      ensures released == old(released) + multiset(xs)
    {
      assert xs[..0] == [];
      for i := 0 to |xs|
        invariant released == old(released) + multiset(xs[..i])
      {
        assert xs[..i + 1] == xs[..i] + [xs[i]];
        released := released + multiset{xs[i]};
      }
      assert xs[..|xs|] == xs;
    }

    /** Releases the first n slots of the batch array. */
    method ReleaseBatch(n: nat)
      requires n <= ppSamples.Length
      modifies this`released
      ensures released == old(released) + multiset(ppSamples[..n])
    {
      assert ppSamples[..0] == [];
      for i := 0 to n
        invariant released == old(released) + multiset(ppSamples[..i])
      {
        assert ppSamples[..i + 1] == ppSamples[..i] + [ppSamples[i]];
        released := released + multiset{ppSamples[i]};
      }
    }

    method QueueSamples(xs: seq<Sample>)
      modifies this`list
      ensures list == old(list) + Wrap(xs)
    {
      var i := 0;
      while i < |xs|
        invariant 0 <= i <= |xs| && list == old(list) + Wrap(xs)[..i]
      {
        QueueSample(Media(xs[i]));
        i := i + 1;
      }
      assert Wrap(xs)[..|xs|] == Wrap(xs);
    }

    /** ReceiveMultiple when there is a thread. */
    method ReceiveQueued(xs: seq<Sample>)
      requires Valid()
      modifies this`list, this`waiting, this`sem, this`flushed, this`released
      ensures Valid() && State() == ReceiveRegion(c, old(State()), xs)
    {
      hide WellPaired, Wrap;
      ReceivePairs(c, State(), xs);
      if hr != S_OK {
        Discard(xs);
      } else {
        Append(xs);
      }
    }

    method Append(xs: seq<Sample>)
      requires Valid() && hr == S_OK
      modifies this`list, this`waiting, this`sem, this`flushed
      ensures State() == ReceiveRegion(c, old(State()), xs)
    {
      hide WellPaired, Wrap;
      flushed := false;
      QueueSamples(xs);
      if !c.exact || nBatched + |list| >= c.batchSize {
        NotifyThread();
      }
    }

    /** The queued halves of SendAnyway, EOS, NewSegment (after its test) and Reset. */
    method Post(i: Item)
      requires Valid() && IsControl(i) && !i.NewSegmentPacket?
      modifies this`list, this`waiting, this`sem
      ensures Valid() && State() == Enqueue(old(State()), [i])
    {
      hide WellPaired;
      OnePaired(list, i);
      QueueSample(i);
      NotifyThread();
    }

    method SendAnyway()
      requires Valid()
      modifies this`list, this`waiting, this`sem
      ensures Valid() && State() == SendAnywayRegion(old(State()))
    {
      Post(SendPacket);
    }

    method EOS()
      requires Valid()
      modifies this`list, this`waiting, this`sem, this`flushed
      ensures Valid() && State() == EosRegion(old(State()))
    {
      if hr == S_OK {
        flushed := false;
        Post(EosPacket);
      }
    }

    method NewSegmentQueued(seg: Segment)
      requires Valid()
      modifies this`list, this`waiting, this`sem
      ensures Valid() && State() == NewSegmentRegion(old(State()), seg)
    {
      hide WellPaired;
      SegmentPaired(list, seg);
      QueueSample(NewSegmentPacket);
      QueueSample(Payload(seg));
      assert list == old(list) + [NewSegmentPacket, Payload(seg)];
      NotifyThread();
    }

    method ResetQueued()
      requires Valid()
      modifies this`list, this`waiting, this`sem
      ensures Valid() && State() == ResetRegion(old(State()))
    {
      Post(ResetPacket);
    }

    method BeginFlush()
      requires Valid()
      modifies this`flushing, this`hr, this`evFlush, this`waiting, this`sem
      ensures Valid() && State() == BeginFlushRegion(c, old(State()))
    {
      hide WellPaired;
      flushing := true;
      if hr == S_OK {
        hr := S_FALSE;
      }
      if flushed && c.flushingOpt {
        return;
      }
      evFlush := false;
      NotifyThread();
    }

    method RequestTermination()
      requires Valid()
      modifies this`terminate, this`hr, this`waiting, this`sem
      ensures Valid() && State() == TerminateRegion(old(State()))
    {
      hide WellPaired;
      terminate := true;
      hr := S_FALSE;
      NotifyThread();
    }

    /** A regular sample joins the batch; a full batch ends the scan. */
    method TakeSample() returns (stop: bool, o: Outcome, n: nat)
      requires Valid() && list != [] && list[0].Media?
      modifies this`list, this`nBatched, ppSamples
      ensures Valid() && |list| < |old(list)|
      ensures TakeHead(c, old(State())) == if stop then Stop(State(), o) else Continue(State())
      ensures stop && o.Send? ==> n <= ppSamples.Length && o.batch == ppSamples[..n]
    {
      TailPaired(list);
      ppSamples[nBatched] := list[0].x;
      nBatched := nBatched + 1;
      list := list[1..];
      assert ppSamples[..nBatched] == old(ppSamples[..nBatched]) + [old(list)[0].x];
      stop, o, n := false, Wait, 0;
      if nBatched == c.batchSize {
        stop, o, n := true, Send(ppSamples[..nBatched], NoControl), nBatched;
        nBatched := 0;
        assert ppSamples[..0] == [];
      }
    }

    /** A control packet, or an empty list: wait, skip it, or hand the batch over with it. */
    method TakeControl() returns (stop: bool, o: Outcome, n: nat)
      requires Valid() && (list == [] || !list[0].Media?)
      modifies this`list, this`nBatched, this`waiting
      ensures Valid() && (!stop ==> |list| < |old(list)|)
      ensures TakeHead(c, old(State())) == if stop then Stop(State(), o) else Continue(State())
      ensures stop && o.Send? ==> n <= ppSamples.Length && o.batch == ppSamples[..n]
    {
      if list == [] && (c.exact || nBatched == 0) {
        waiting := waiting + 1;
        return true, Wait, 0;
      }
      var k := NoControl;
      if list != [] {
        NoPayloadFirst(list);
        TailPaired(list);
        var pSample := list[0];
        list := list[1..];
        if pSample.SendPacket? && nBatched == 0 {
          return false, Wait, 0;
        }
        match pSample
        case SendPacket => k := Sent;
        case EosPacket => k := Eos;
        case ResetPacket => k := Reset;
        case NewSegmentPacket =>
          k := NewSegment(list[0].seg);
          list := list[1..];
      }
      stop, o, n := true, Send(ppSamples[..nBatched], k), nBatched;
      nBatched := 0;
      assert ppSamples[..0] == [];
    }

    /** One turn of ThreadProc's inner loop. */
    method ThreadOnce() returns (stop: bool, o: Outcome, n: nat)
      requires Valid()
      modifies this, ppSamples
      ensures Valid()
      ensures ScanOnce(c, old(State())) == if stop then Stop(State(), o) else Continue(State())
      ensures !stop ==> |list| < |old(list)|
      ensures stop && o.Send? ==> n <= ppSamples.Length && o.batch == ppSamples[..n]
    {
      hide WellPaired;
      if terminate {
        FreeSamples();
        return true, Exit, 0;
      }
      if flushing {
        FreeSamples();
        evFlush := true;
      }
      if list != [] && list[0].Media? {
        stop, o, n := TakeSample();
      } else {
        stop, o, n := TakeControl();
      }
    }

    /** The locked region of ThreadProc; on Send, the first n slots of the array are the batch to send. */
    method ThreadLocked() returns (o: Outcome, n: nat)
      requires Valid()
      modifies this, ppSamples
      ensures Valid() && (State(), o) == Scan(c, old(State()))
      ensures o.Send? ==> n <= ppSamples.Length && o.batch == ppSamples[..n]
    {
      hide WellPaired;
      o, n := Exit, 0;
      while true
        invariant Valid() && Scan(c, State()) == Scan(c, old(State()))
        decreases |list|
      {
        var stop;
        stop, o, n := ThreadOnce();
        if stop {
          return;
        }
      }
    }

    // ---- The thread outside the lock ----

    /** Calls downstream with the first n slots; false when a sticky error means they are only released. */
    method ThreadCall(n: nat, k: Control) returns (called: bool)
      requires Valid() && 0 < n <= ppSamples.Length
      modifies this`calls, this`nCalls, this`released
      ensures Valid() && called == (hr == S_OK)
      ensures State() == if called then old(State()).(calls := old(calls) + [Deliver(ppSamples[..n], epoch, !k.NoControl?)])
                         else Release(old(State()), ppSamples[..n])
    {
      called := hr == S_OK;
      if called {
        calls, nCalls := calls + [Deliver(ppSamples[..n], epoch, !k.NoControl?)], nCalls + 1;
      } else {
        ReleaseBatch(n);
      }
    }

    /** Downstream has answered: an error sticks, but does not replace one already there. */
    method ThreadReturn(n: nat, reply: int)
      requires Valid() && n <= ppSamples.Length
      modifies this`hr, this`released
      ensures Valid()
      ensures State() == Release(old(State()).(hr := if old(hr) == S_OK then reply else old(hr)), ppSamples[..n])
    {
      if hr == S_OK {
        hr := reply;
      }
      ReleaseBatch(n);
    }

    /** The control packet, once its batch has gone. */
    method ThreadAct(k: Control)
      requires Valid()
      modifies this`calls, this`nCalls, this`hr, this`evFlush
      ensures Valid() && State() == ControlEffect(old(State()), k)
    {
      if k.Eos? && hr == S_OK {
        calls, nCalls := calls + [DeliverEos], nCalls + 1;
      }
      if k.Reset? {
        hr, evFlush := S_OK, true;
      }
      if k.NewSegment? {
        calls, nCalls := calls + [DeliverSegment(k.seg)], nCalls + 1;
      }
    }

    // ---- Direct mode ----

    ghost predicate Room()
      reads this, ppSamples
    {
      GoodConfig(c) && ppSamples.Length == c.batchSize && nBatched <= c.batchSize && WellPaired(list) && nCalls == |calls|
    }

    /** The body of ReceiveMultiple's loop once the batch is to go: send it unless an error is sticky, and release it. */
    method SendBatched(ghost forced: bool) returns (lost: int)
      requires Room()
      modifies this`nBatched, this`hr, this`calls, this`nCalls, this`released
      ensures Valid() && nBatched == 0
      ensures State() == SendBatch(old(State()), epoch, pin, forced) && lost == Lost(old(State()), pin)
    {
      hide WellPaired;
      var nDone := CallDirect(forced);
      lost := nBatched - nDone;
      ClearBatch();
    }

    method CallDirect(ghost forced: bool) returns (nDone: nat)
      requires Room()
      modifies this`hr, this`calls, this`nCalls
      ensures nCalls == |calls|
      ensures nDone == if old(hr) == S_OK then pin(old(nCalls)).1 else 0
      ensures hr == if old(hr) == S_OK then pin(old(nCalls)).0 else old(hr)
      ensures calls == if old(hr) != S_OK then old(calls)
                       else old(calls) + [Deliver(ppSamples[..nBatched], epoch, forced)]
    {
      nDone := 0;
      if hr == S_OK {
        var reply := pin(nCalls);
        calls, nCalls := calls + [Deliver(ppSamples[..nBatched], epoch, forced)], nCalls + 1;
        hr, nDone := reply.0, reply.1;
      }
    }

    method ClearBatch()
      requires nBatched <= ppSamples.Length
      modifies this`nBatched, this`released
      ensures nBatched == 0 && released == old(released) + multiset(old(ppSamples[..nBatched]))
    {
      ReleaseBatch(nBatched);
      nBatched := 0;
    }

    method AddToBatch(x: Sample)
      requires Valid()
      modifies this`nBatched, ppSamples
      ensures Room() && nBatched == old(nBatched) + 1
      ensures State() == old(State()).(batch := old(State()).batch + [x])
    {
      hide WellPaired;
      ppSamples[nBatched] := x;
      nBatched := nBatched + 1;
      assert ppSamples[..nBatched] == old(ppSamples[..nBatched]) + [x];
    }

    /** ReceiveMultiple without a thread, samples in hand. */
    method ReceiveDirect(xs: seq<Sample>) returns (nSamplesProcessed: nat)
      requires Valid()
      modifies this`nBatched, this`hr, this`calls, this`nCalls, this`released, this`flushed, ppSamples
      ensures Valid() && (State(), nSamplesProcessed) == DirectReceive(c, old(State()), xs, epoch, pin)
    {
      if hr != S_OK {
        Discard(xs);
        return 0;
      }
      flushed := false;
      var iLost := FeedBatches(xs);
      nSamplesProcessed := if iLost > |xs| then 0 else |xs| - iLost;
    }

    method FeedBatches(xs: seq<Sample>) returns (iLost: int)
      requires Valid()
      modifies this`nBatched, this`hr, this`calls, this`nCalls, this`released, ppSamples
      ensures Valid() && (State(), iLost) == Feed(c, old(State()), xs, epoch, pin)
    {
      hide WellPaired, SendBatch, Lost;
      iLost := 0;
      var iDone: nat := 0;
      assert xs[0..] == xs;
      while iDone < |xs|
        invariant Valid() && iDone <= |xs|
        invariant var (r, lost) := Feed(c, State(), xs[iDone..], epoch, pin);
          (r, lost + iLost) == Feed(c, old(State()), xs, epoch, pin)
      {
        assert xs[iDone..][0] == xs[iDone] && xs[iDone..][1..] == xs[iDone + 1..];
        AddToBatch(xs[iDone]);
        iDone := iDone + 1;
        if nBatched == c.batchSize {
          var lost := SendBatched(false);
          iLost := iLost + lost;
        }
      }
    }

    /** ReceiveMultiple(NULL, 0) with m_bSendAnyway set. */
    method SendAnywayDirect()
      requires Valid()
      modifies this`nBatched, this`hr, this`calls, this`nCalls, this`released, this`flushed
      ensures Valid() && State() == DirectSendAnyway(c, old(State()), epoch, pin)
    {
      hide WellPaired, SendBatch, Lost;
      if hr != S_OK {
        return;
      }
      flushed := false;
      while nBatched != 0
        invariant Valid()
        invariant nBatched == 0 || State() == old(State()).(flushed := false)
        invariant nBatched == 0 ==> State() == DirectSendAnyway(c, old(State()), epoch, pin)
        decreases nBatched
      {
        var _ := SendBatched(true);
      }
    }

    method EosDirect()
      requires Valid()
      modifies this`nBatched, this`hr, this`calls, this`nCalls, this`released, this`flushed
      ensures Valid() && State() == DirectEos(c, old(State()), epoch, pin)
    {
      hide WellPaired, DirectSendAnyway;
      if c.exact {
        SendAnywayDirect();
      }
      if hr == S_OK {
        flushed := false;
        calls, nCalls := calls + [DeliverEos], nCalls + 1;
      }
    }

    method NewSegmentDirect(seg: Segment)
      requires Valid()
      modifies this`nBatched, this`hr, this`calls, this`nCalls, this`released, this`flushed
      ensures Valid() && State() == DirectNewSegment(c, old(State()), seg, epoch, pin)
    {
      hide WellPaired, DirectSendAnyway;
      if hr == S_OK {
        if c.exact {
          SendAnywayDirect();
        }
        calls, nCalls := calls + [DeliverSegment(seg)], nCalls + 1;
      }
    }

    /** BeginFlush without a thread, once the downstream pin has been told. */
    method BeginFlushDirect()
      requires Valid()
      modifies this`flushing, this`hr
      ensures Valid() && State() == DirectBeginFlush(old(State()))
    {
      hide WellPaired;
      flushing := true;
      if hr == S_OK {
        hr := S_FALSE;
      }
    }

    /** Reset without a thread. */
    method ResetDirect()
      requires Valid()
      modifies this`hr
      ensures Valid() && State() == old(State()).(hr := S_OK)
    {
      hr := S_OK;
    }

    /** EndFlush without a thread: what was batched is released, and new data is welcome. */
    method EndFlushDirect()
      requires Valid()
      modifies this`list, this`nBatched, this`released, this`flushing, this`flushed, this`hr
      ensures Valid() && State() == DirectEndFlush(old(State()))
    {
      hide WellPaired, SamplesIn;
      FreeSamples();
      flushing, flushed, hr := false, true, S_OK;
    }
  }

  lemma OnePaired(list: seq<Item>, i: Item)
    requires WellPaired(list) && IsControl(i) && !i.NewSegmentPacket?
    ensures WellPaired(list + [i])
  {
    WellPairedAppend(list, [i]);
  }

  lemma SegmentPaired(list: seq<Item>, seg: Segment)
    requires WellPaired(list)
    ensures WellPaired(list + [NewSegmentPacket, Payload(seg)])
  {
    var more := [NewSegmentPacket, Payload(seg)];
    assert more[2..] == [];
    WellPairedAppend(list, more);
  }

  lemma TailPaired(list: seq<Item>)
    requires WellPaired(list) && list != []
    ensures if list[0].NewSegmentPacket? then |list| >= 2 && WellPaired(list[1..][1..]) && list[1..][1..] == list[2..]
            else WellPaired(list[1..])
  {
  }

  lemma EmptyIsNone()
    ensures SamplesIn([]) == multiset{} && WellPaired([])
  {
  }
}
