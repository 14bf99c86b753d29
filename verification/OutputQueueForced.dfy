/**
 * What SendAnyway promises: whatever was handed in before it does not stay batched or
 * listed, although the batch is not full.
 */
module OutputQueueForced {
  import opened OutputQueueTypes
  import opened OutputQueueProtocol
  import opened OutputQueueWakeups
  import opened OutputQueueFlush
  import opened OutputQueueOrder

  /** The queue still has a SEND packet before it, or holds at most these samples; what it holds behind the packet is among them. */
  ghost predicate Passing(q: QState, since: multiset<Sample>) {
    Behind(q.list, since) || SamplesIn(q.list) + multiset(q.batch) <= since
  }

  ghost predicate Behind(list: seq<Item>, since: multiset<Sample>) {
    exists k :: 0 <= k < |list| && list[k] == SendPacket && SamplesIn(list[k + 1..]) <= since
  }

  /** With its first n items taken off, the list has the packet still, if that was not among them. */
  lemma BehindRest(list: seq<Item>, since: multiset<Sample>, n: nat)
    requires Behind(list, since) && n <= |list| && forall i :: 0 <= i < n ==> list[i] != SendPacket
    ensures Behind(list[n..], since)
  {
    hide SamplesIn;
    var k :| 0 <= k < |list| && list[k] == SendPacket && SamplesIn(list[k + 1..]) <= since;
    BehindAt(list[n..], k - n, since) by {
      assert list[n..][k - n] == SendPacket && list[n..][k - n + 1..] == list[k + 1..];
    }
  }

  /** Or the packet was the first item, and what is left is what is behind it. */
  lemma BehindHead(list: seq<Item>, since: multiset<Sample>)
    requires Behind(list, since) && list[0] == SendPacket
    ensures Behind(list[1..], since) || SamplesIn(list[1..]) <= since
  {
    var k :| 0 <= k < |list| && list[k] == SendPacket && SamplesIn(list[k + 1..]) <= since;
    if k > 0 {
      BehindAt(list[1..], k - 1, since) by {
        assert list[1..][k - 1] == SendPacket && list[1..][k - 1 + 1..] == list[k + 1..];
      }
    }
  }

  lemma TakeHeadPasses(c: Config, q: QState, since: multiset<Sample>)
    requires WellPaired(q.list) && Passing(q, since)
    ensures Passing(TakeHead(c, q).q, since)
  {
    hide TakeHead, SamplesIn, Behind, WellPaired;
    TakeHeadShape(c, q);
    if q.list != [] {
      HeadSamples(q.list);
      if Behind(q.list, since) {
        if q.list[0] == SendPacket {
          BehindHead(q.list, since);
        } else {
          BehindRest(q.list, since, Taken(q.list));
        }
      }
    }
  }

  /** How many items the worker takes off a list at a time. */
  function Taken(list: seq<Item>): nat { if list == [] then 0 else if list[0].NewSegmentPacket? then 2 else 1 }

  lemma TakeHeadShape(c: Config, q: QState)
    requires WellPaired(q.list)
    ensures var r := TakeHead(c, q).q;
      && Taken(q.list) <= |q.list| && r.list == q.list[Taken(q.list)..]
      && (r.batch == [] || (q.list == [] && r.batch == q.batch)
          || (q.list != [] && q.list[0].Media? && r.batch == q.batch + [q.list[0].x]))
      && (q.list != [] && !q.list[0].Media? ==> r.batch == [])
  {
    hide WellPaired, SamplesIn;
    if q.list == [] {
      assert q.list[0..] == q.list;
    } else {
      HeadSamples(q.list);
      match q.list[0]
      case Media(x) => assert Taken(q.list) == 1;
      case SendPacket => assert Taken(q.list) == 1;
      case NewSegmentPacket => assert TakeHead(c, q) == Hand(q, q.list[2..], NewSegment(q.list[1].seg));
      case EosPacket => assert Taken(q.list) == 1;
      case ResetPacket => assert Taken(q.list) == 1;
      case Payload(_) => assert false;
    }
  }

  /** What the head of the list holds of its samples. */
  lemma HeadSamples(list: seq<Item>)
    requires list != [] && WellPaired(list)
    ensures !list[0].Payload?
    ensures list[0].NewSegmentPacket? ==> |list| >= 2 && list[1].Payload? && SamplesIn(list[2..]) <= SamplesIn(list)
    ensures SamplesIn(list) == SamplesIn(list[1..]) + if list[0].Media? then multiset{list[0].x} else multiset{}
  {
  }

  lemma {:induction false} ScanPasses(c: Config, q: QState, since: multiset<Sample>)
    requires WellPaired(q.list) && Passing(q, since)
    ensures Passing(Scan(c, q).0, since)
    decreases |q.list|
  {
    hide TakeHead, WellPaired, SamplesIn, Behind;
    ScanOnceShrinks(c, q);
    var f := FreeAll(q).(evFlush := true);
    FreedPasses(q, since);
    TakeHeadPasses(c, if !q.terminate && q.flushing then f else q, since);
    if ScanOnce(c, q).Stop? {
    } else {
      ScanPasses(c, ScanOnce(c, q).q, since);
    }
  }

  lemma FreedPasses(q: QState, since: multiset<Sample>)
    ensures Passing(FreeAll(q), since) && Passing(FreeAll(q).(evFlush := true), since)
    ensures WellPaired(FreeAll(q).list)
  {
    assert SamplesIn([]) == multiset{};
  }

  // ---- Over runs ----

  /** Of the samples handed in, those since `base`: the queue holds no others, or has a SEND packet before them. */
  ghost predicate PassingSince(s: Sys, base: multiset<Sample>) { base <= s.handed && Passing(s.q, s.handed - base) }

  lemma BehindMore(list: seq<Item>, since: multiset<Sample>, more: seq<Item>)
    requires Behind(list, since)
    ensures Behind(list + more, since + SamplesIn(more))
  {
    hide SamplesIn;
    var k :| 0 <= k < |list| && list[k] == SendPacket && SamplesIn(list[k + 1..]) <= since;
    var tail := list[k + 1..];
    SamplesInAppend(tail, more);
    BehindAt(list + more, k, since + SamplesIn(more)) by {
      assert (list + more)[k] == SendPacket && (list + more)[k + 1..] == tail + more;
    }
  }

  lemma BehindAt(list: seq<Item>, k: nat, since: multiset<Sample>)
    requires k < |list| && list[k] == SendPacket && SamplesIn(list[k + 1..]) <= since
    ensures Behind(list, since)
  {
  }

  lemma MorePasses(q: QState, r: QState, since: multiset<Sample>, more: seq<Item>)
    requires Passing(q, since) && r.list == q.list + more && r.batch == q.batch
    ensures Passing(r, since + SamplesIn(more))
  {
    hide Behind, SamplesIn;
    if Behind(q.list, since) {
      BehindMore(q.list, since, more);
    } else {
      SamplesInAppend(q.list, more);
    }
  }

  lemma SamePasses(q: QState, r: QState, since: multiset<Sample>, more: multiset<Sample>)
    requires Passing(q, since) && r.list == q.list && r.batch == q.batch
    ensures Passing(r, since + more)
  {
    hide SamplesIn;
    if Behind(q.list, since) {
      var k :| 0 <= k < |q.list| && q.list[k] == SendPacket && SamplesIn(q.list[k + 1..]) <= since;
      BehindAt(r.list, k, since + more);
    }
  }

  lemma StepPasses(c: Config, s: Sys, step: Step, base: multiset<Sample>)
    requires WellPaired(s.q.list) && PassingSince(s, base) && Enabled(c, s, step)
    ensures PassingSince(Apply(c, s, step), base)
  {
    hide Passing, ReceiveRegion, TerminateRegion, ApplyControl, ApplyFlush, ApplyWorker, Queued, Frames, WellPaired;
    var r, since := Apply(c, s, step), s.handed - base;
    assert since + multiset{} == since;
    match step
    case Receive(xs) =>
      assert r.handed - base == since + multiset(xs);
      ReceivePasses(c, s.q, since, xs);
    case Ask(a) =>
      ControlAppends(s, a);
      QueuedMeans(s.q, a);
      MorePasses(s.q, r.q, since, Queued(s.q, a));
    case Flushing(f) =>
      FlushLeavesQueue(c, s, f);
      SamePasses(s.q, r.q, since, multiset{});
    case Terminate =>
      TerminateLeavesQueue(s.q);
      SamePasses(s.q, r.q, since, multiset{});
    case Work(w) =>
      WorkLeavesQueue(c, s, w);
      if w.WorkerScan? {
        ScanPasses(c, s.q, since);
      } else {
        SamePasses(s.q, r.q, since, multiset{});
      }
  }

  lemma ReceivePasses(c: Config, q: QState, since: multiset<Sample>, xs: seq<Sample>)
    requires Passing(q, since)
    ensures Passing(ReceiveRegion(c, q, xs), since + multiset(xs))
  {
    hide Passing, Wrap;
    if q.hr == S_OK {
      WrapMeans(xs);
      MorePasses(q, ReceiveRegion(c, q, xs), since, Wrap(xs));
    } else {
      SamePasses(q, ReceiveRegion(c, q, xs), since, multiset(xs));
    }
  }

  lemma FlushLeavesQueue(c: Config, s: Sys, f: FlushStep)
    ensures var r := ApplyFlush(c, s, f); r.q.list == s.q.list && r.q.batch == s.q.batch && r.handed == s.handed
  {
  }

  lemma TerminateLeavesQueue(q: QState)
    ensures TerminateRegion(q).list == q.list && TerminateRegion(q).batch == q.batch
  {
  }

  lemma WorkLeavesQueue(c: Config, s: Sys, w: WorkerStep)
    requires WorkerEnabled(s, w)
    ensures var r := ApplyWorker(c, s, w);
      && r.handed == s.handed
      && if w.WorkerScan? then r.q == Scan(c, s.q).0 else r.q.list == s.q.list && r.q.batch == s.q.batch
  {
    hide Scan, SendEffect, Release, ControlEffect;
    match w
    case WorkerSend => SentLeavesQueue(s);
    case WorkerReturn(hr) => ReleaseKeeps(s.q.(hr := if s.q.hr == S_OK then hr else s.q.hr), s.pc.batch);
    case WorkerAfter => ActionLeaves(s.q, s.pc.control);
    case _ =>
  }

  lemma SentLeavesQueue(s: Sys)
    requires s.pc.Sending?
    ensures var r := SendEffect(s); r.q.list == s.q.list && r.q.batch == s.q.batch && r.handed == s.handed
  {
  }

  lemma {:induction false} RunPasses(c: Config, s: Sys, steps: seq<Step>, base: multiset<Sample>)
    requires GoodConfig(c) && AllOk(c, s) && PassingSince(s, base) && Possible(c, s, steps)
    ensures PassingSince(Exec(c, s, steps), base) && AllOk(c, Exec(c, s, steps))
    decreases |steps|
  {
    hide PassingSince, Apply, Enabled, Conserved, FlushOk, WakeupsOk, WellPaired;
    if steps == [] {
    } else {
      AllOkStep(c, s, steps[0]);
      StepPasses(c, s, steps[0], base);
      RunPasses(c, Apply(c, s, steps[0]), steps[1..], base);
    }
  }

  /**
   * SendAnyway, on any run that follows: once no control packet is listed, and so whenever the
   * worker sleeps, the queue holds only samples handed in since, however few they leave in the batch.
   */
  lemma {:induction false} SendAnywayForces(c: Config, s: Sys, steps: seq<Step>)
    requires GoodConfig(c) && Reachable(c, s) && Enabled(c, s, Ask(SendAnyway))
    requires Possible(c, Apply(c, s, Ask(SendAnyway)), steps)
    ensures var e := Exec(c, Apply(c, s, Ask(SendAnyway)), steps);
      && (SendPacket !in e.q.list ==> s.handed <= e.handed && SamplesIn(e.q.list) + multiset(e.q.batch) <= e.handed - s.handed)
      && (e.pc.Blocked? && e.q.sem == 0 ==> SendPacket !in e.q.list)
  {
    hide Reachable, Conserved, FlushOk, CallsOk, WellPaired, SamplesIn, Exec, Possible;
    ReachableOk(c, s);
    AllOkStep(c, s, Ask(SendAnyway));
    var e0 := Apply(c, s, Ask(SendAnyway));
    PacketLast(s.q.list);
    assert e0.handed - s.handed == multiset{};
    RunPasses(c, e0, steps, s.handed);
    var e := Exec(c, e0, steps);
    NoPacketNotBehind(e.q.list, e.handed - s.handed);
  }

  lemma PacketLast(list: seq<Item>)
    ensures Behind(list + [SendPacket], multiset{})
  {
    var all, k := list + [SendPacket], |list|;
    assert all[k] == SendPacket && all[k + 1..] == [] && SamplesIn([]) == multiset{};
  }

  lemma NoPacketNotBehind(list: seq<Item>, since: multiset<Sample>)
    ensures SendPacket !in list ==> !Behind(list, since)
  {
  }
}
