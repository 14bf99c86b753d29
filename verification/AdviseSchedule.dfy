/**
 * CAMSchedule: the sentinel-terminated linked list of advise packets with its
 * recycling cache, kept on the heap as the source keeps it. Every method is
 * proved against the list operations of AdviseList.
 */
module AdviseSchedule {
  import opened Wrappers
  import opened RefTime
  import opened Sequences
  import opened AdviseList

  const CACHE_MAX: nat := 5

  class CAdvisePacket {
    var next: CAdvisePacket?
    var cookie: nat
    var eventTime: int
    var period: int
    var notify: int
    var periodic: bool

    constructor ()
      ensures next == null
    {
      next, cookie, eventTime := null, 0, 0;
      period, notify, periodic := 0, 0, false;
    }

    ghost function View(): Packet
      reads this
    {
      Packet(cookie, eventTime, period, notify, periodic)
    }

    method InsertAfter(p: CAdvisePacket)
      requires p != this
      modifies this`next, p`next
      ensures next == p && p.next == old(next)
    {
      p.next := next;
      next := p;
    }

    method RemoveNext() returns (removed: CAdvisePacket)
      requires next != null && next != this
      modifies this`next
      ensures removed == old(next) && next == old(next.next)
    {
      removed := next;
      next := removed.next;
    }
  }

  /** The nodes run from the first to the last without a cycle, and the last has no successor. */
  ghost predicate Linked(nodes: seq<CAdvisePacket>)
    reads nodes
  {
    && Distinct(nodes)
    && (forall i {:trigger nodes[i].next} :: 0 <= i < |nodes| ==>
          nodes[i].next == if i + 1 < |nodes| then nodes[i + 1] else null)
  }

  /** A possibly empty linked list with its first node. */
  ghost predicate Chain(first: CAdvisePacket?, nodes: seq<CAdvisePacket>)
    reads nodes
  {
    Linked(nodes) && first == if nodes == [] then null else nodes[0]
  }

  /** The nodes between the two sentinels hold these packets. */
  ghost predicate Shows(nodes: seq<CAdvisePacket>, list: seq<Packet>)
    reads nodes
  {
    && |nodes| == |list| + 2
    && (forall i :: 0 <= i < |list| ==> nodes[i + 1].View() == list[i])
  }

  ghost predicate Spine(nodes: seq<CAdvisePacket>, list: seq<Packet>, head: CAdvisePacket, z: CAdvisePacket)
    reads nodes
  {
    && Linked(nodes) && Shows(nodes, list)
    && nodes[0] == head && nodes[|nodes| - 1] == z && head in nodes && z in nodes
  }

  /** What holds of the live packets: time order, and distinct cookies up to the last one issued. */
  ghost predicate ListOk(list: seq<Packet>, nextCookie: nat) {
    Sorted(list) && DistinctCookies(list) && InRange(list, nextCookie)
  }

  predicate PacketOk(p: Packet, nextCookie: nat) {
    0 < p.cookie <= nextCookie && p.time < MAX_TIME
  }

  ghost predicate InRange(list: seq<Packet>, nextCookie: nat) {
    forall i :: 0 <= i < |list| ==> PacketOk(list[i], nextCookie)
  }

  class CAMSchedule {
    const head: CAdvisePacket
    const z: CAdvisePacket
    var nextCookie: nat
    var adviseCount: nat
    var cache: CAdvisePacket?
    var cacheCount: nat

    ghost var spine: seq<CAdvisePacket>   // head, the live packets in list order, z
    ghost var cached: seq<CAdvisePacket>  // the packets on the cache list
    ghost var List: seq<Packet>           // the live packets as values
    ghost var log: seq<Firing>            // every SetEvent and ReleaseSemaphore made so far
    ghost var triggers: nat               // how often the clock's own event was set

    ghost predicate Apart()
      reads this
    {
      forall p :: p in cached ==> p !in spine
    }

    ghost predicate Valid()
      reads this, spine, cached, z
    {
      && Spine(spine, List, head, z) && Apart()
      && Chain(cache, cached) && cacheCount == |cached| <= CACHE_MAX
      && z.eventTime == MAX_TIME
      && ListOk(List, nextCookie)
      && adviseCount == |List|
    }

    constructor ()
      ensures Valid() && fresh(spine) && cached == []
      ensures List == [] && log == [] && triggers == 0 && nextCookie == 0
    {
      var h := new CAdvisePacket();
      var t := new CAdvisePacket();
      h.next := t;
      t.eventTime := MAX_TIME;
      head, z := h, t;
      nextCookie, adviseCount, cache, cacheCount := 0, 0, null, 0;
      spine, cached, List, log, triggers := [h, t], [], [], [], 0;
    }

    /** The first packet's time, or the sentinel's. */
    method GetNextAdviseTime() returns (t: int)
      requires Valid()
      ensures t == if List == [] then MAX_TIME else List[0].time
    {
      assert spine[0].next == spine[1];
      assert List != [] ==> spine[1].View() == List[0];
      t := head.next.eventTime;
    }

    /** Takes a packet from the cache, or makes one. */
    method TakePacket() returns (p: CAdvisePacket)
      requires Valid()
      modifies this`cache, this`cacheCount, this`cached
      ensures Valid()
      ensures p !in spine && p !in cached
      ensures if old(cached) == [] then cached == [] && fresh(p) else cached == old(cached)[1..] && p == old(cached)[0]
    {
      if cache != null {
        p := cache;
        assert cached[0].next == if 1 < |cached| then cached[1] else null;
        cache := p.next;
        cacheCount := cacheCount - 1;
        cached := cached[1..];
        assert forall i :: 0 <= i < |cached| ==> cached[i] == old(cached)[i + 1];
      } else {
        p := new CAdvisePacket();
      }
    }

    // ---- Links ----

    method LinkAfter(prev: CAdvisePacket, p: CAdvisePacket, ghost k: nat)
      requires Spine(spine, List, head, z) && k <= |List| && prev == spine[k]
      requires p !in spine
      modifies this`spine, this`List, prev`next, p`next
      ensures Spine(spine, List, head, z)
      ensures List == Splice(old(List), old(p.View()), k)
      ensures forall q :: q in spine <==> q in old(spine) || q == p
    {
      hide Splice;
      assert spine[k].next == spine[k + 1];
      prev.InsertAfter(p);
      SpliceFacts(spine, p, k + 1);
      SpliceFacts(List, p.View(), k);
      spine := Splice(spine, p, k + 1);
      List := Splice(List, p.View(), k);
      forall i {:trigger spine[i].next} | 0 <= i < |spine|
        ensures spine[i].next == if i + 1 < |spine| then spine[i + 1] else null
      {
        if i < k {
          assert old(spine)[i].next == old(spine)[i + 1];
        } else if i > k + 1 {
          assert old(spine)[i - 1].next == if i < |old(spine)| then old(spine)[i] else null;
        }
      }
    }

    method UnlinkAfter(prev: CAdvisePacket, ghost k: nat) returns (removed: CAdvisePacket)
      requires Spine(spine, List, head, z) && k < |List| && prev == spine[k]
      modifies this`spine, this`List, prev`next
      ensures Spine(spine, List, head, z)
      ensures List == Cut(old(List), k)
      ensures forall i :: 0 <= i < |spine| ==> spine[i] == old(spine)[if i <= k then i else i + 1]
      ensures removed == old(spine)[k + 1] && removed in old(spine) && removed != z
      ensures forall q :: q in spine <==> q in old(spine) && q != removed
    {
      hide Cut;
      assert spine[k].next == spine[k + 1];
      assert spine[k + 1].next == spine[k + 2];
      removed := prev.RemoveNext();
      CutFacts(spine, k + 1);
      CutFacts(List, k);
      spine := Cut(spine, k + 1);
      List := Cut(List, k);
      forall i {:trigger spine[i].next} | 0 <= i < |spine|
        ensures spine[i].next == if i + 1 < |spine| then spine[i + 1] else null
      {
        if i < k {
          assert old(spine)[i].next == old(spine)[i + 1];
        } else if i > k {
          assert old(spine)[i + 1].next == if i + 2 < |old(spine)| then old(spine)[i + 2] else null;
        }
      }
    }

    // ---- Adding ----

    /** The node after which a packet with this time belongs. */
    method FindInsertion(time: int) returns (prev: CAdvisePacket, ghost k: nat)
      requires Valid() && time < MAX_TIME
      ensures k <= |List| && prev == spine[k] && prev in spine && (prev == head <==> k == 0)
      ensures forall i :: 0 <= i < k ==> List[i].time < time
      ensures k < |List| ==> List[k].time >= time
      ensures k > 0 ==> List[0].cookie <= nextCookie
    {
      assert spine[0].next == spine[1];
      prev, k := head, 0;
      var n := prev.next;
      while n.eventTime < time
        invariant k <= |List| && prev == spine[k] && n == spine[k + 1]
        invariant forall i :: 0 <= i < k ==> List[i].time < time
        decreases |List| - k
      {
        assert spine[k + 1].View() == List[k];
        assert spine[k + 1].next == spine[k + 2];
        prev := n;
        n := prev.next;
        k := k + 1;
      }
      assert k < |List| ==> spine[k + 1].View() == List[k];
    }
  
    method InsertPacket(p: CAdvisePacket) returns (cookie: nat)
      requires Valid()
      requires p !in spine && p !in cached
      requires 0 <= p.eventTime < MAX_TIME
      modifies this, spine, p
      ensures Valid() && cached == old(cached)
      ensures forall q :: q in spine ==> q in old(spine) || q == p
      ensures cookie == nextCookie == old(nextCookie) + 1
      ensures List == InsertNew(old(List), old(p.View()).(cookie := cookie))
      ensures triggers == old(triggers) + if List[0].cookie == cookie then 1 else 0
      ensures log == old(log)
    {
      hide ListOk, Spine, Chain, InsertNew, Splice;
      var prev, k := FindInsertion(p.eventTime);
      nextCookie := nextCookie + 1;
      cookie := nextCookie;
      p.cookie := cookie;
      InsertNewOk(List, p.View(), k, cookie - 1);
      assert prev !in cached;
      LinkAfter(prev, p, k);
      assert Chain(cache, cached);
      adviseCount := adviseCount + 1;
      if prev == head {
        triggers := triggers + 1;
      }
    }

    /** Schedules an advise; the cookie identifies it until it fires or is cancelled. */
    method AddAdvisePacket(time1: int, time2: int, h: int, periodic: bool) returns (cookie: nat)
      requires Valid()
      requires 0 <= time1 < MAX_TIME
      modifies this, spine, cached
      ensures Valid()
      ensures forall q :: q in spine ==> q in old(spine) || q in old(cached) || fresh(q)
      ensures forall q :: q in cached ==> q in old(cached)
      ensures cookie == nextCookie == old(nextCookie) + 1
      ensures List == InsertNew(old(List), Packet(cookie, time1, time2, h, periodic))
      ensures triggers == old(triggers) + if List[0].cookie == cookie then 1 else 0
      ensures log == old(log)
    {
      hide ListOk, Linked, Shows, InsertNew;
      var p := TakePacket();
      assert p != z;
      p.eventTime, p.period, p.notify, p.periodic := time1, time2, h, periodic;
      cookie := InsertPacket(p);
    }

    // ---- Removing ----

    /** "Deletes" an unlinked packet: it joins the cache unless that is full. */
    method Delete(p: CAdvisePacket)
      requires Chain(cache, cached) && cacheCount == |cached| <= CACHE_MAX
      requires p !in cached
      modifies this`cache, this`cacheCount, this`cached, p`next
      ensures Chain(cache, cached) && cacheCount == |cached| <= CACHE_MAX
      ensures cached == if |old(cached)| >= CACHE_MAX then old(cached) else [p] + old(cached)
    {
      if cacheCount < CACHE_MAX {
        p.next := cache;
        cache := p;
        cacheCount := cacheCount + 1;
        cached := [p] + cached;
        assert forall i :: 1 <= i < |cached| ==> cached[i] == old(cached)[i - 1];
      }
    }

    /** Unlinks the packet after prev, drops it and counts it off. */
    method DropAfter(prev: CAdvisePacket, ghost k: nat)
      requires Valid() && k < |List| && prev == spine[k] && prev in spine
      modifies this, spine
      ensures Valid()
      ensures forall q :: q in spine ==> q in old(spine)
      ensures forall q :: q in cached ==> q in old(cached) || q in old(spine)
      ensures List == Cut(old(List), k)
      ensures nextCookie == old(nextCookie) && log == old(log) && triggers == old(triggers)
    {
      hide ListOk, Spine, Chain, Cut;
      assert prev !in cached;
      RemoveOk(List, k, nextCookie);
      var removed := UnlinkAfter(prev, k);
      assert Chain(cache, cached);
      Delete(removed);
      adviseCount := adviseCount - 1;
    }

    /** The node before the one with this cookie, or before z; Next() hides z from the search. */
    method FindCookie(cookie: nat) returns (prev: CAdvisePacket, found: bool, ghost k: nat)
      requires Valid()
      ensures k <= |List| && prev == spine[k] && prev in spine
      ensures forall i :: 0 <= i < k ==> List[i].cookie != cookie
      ensures found == (k < |List|) && (found ==> List[k].cookie == cookie)
    {
      hide ListOk, Chain;
      assert spine[0].next == spine[1];
      prev, found, k := head, false, 0;
      var n := prev.next;
      assert n.next == null <==> k == |List| by {
        assert n.next == if 2 < |spine| then spine[2] else null;
      }
      while n.next != null
        invariant k <= |List| && prev == spine[k] && n == spine[k + 1]
        invariant n.next == null <==> k == |List|
        invariant forall i :: 0 <= i < k ==> List[i].cookie != cookie
        decreases |List| - k
      {
        assert spine[k + 1].View() == List[k];
        if n.cookie == cookie {
          found := true;
          return;
        }
        assert spine[k + 1].next == spine[k + 2];
        assert spine[k + 2].next == if k + 3 < |spine| then spine[k + 3] else null;
        prev := n;
        n := prev.next;
        k := k + 1;
      }
    }

    /** Cancels the advise with this cookie, if there is one. */
    method Unadvise(cookie: nat) returns (found: bool)
      requires Valid()
      modifies this, spine
      ensures Valid()
      ensures found == Get(old(List), cookie).Some?
      ensures List == RemoveCookie(old(List), cookie)
      ensures forall q :: q in spine ==> q in old(spine)
      ensures forall q :: q in cached ==> q in old(cached) || q in old(spine)
      ensures nextCookie == old(nextCookie) && log == old(log) && triggers == old(triggers)
    {
      hide ListOk, Spine, Chain;
      var prev;
      ghost var k;
      prev, found, k := FindCookie(cookie);
      RemoveCookieAt(List, cookie, k);
      GetIffPresent(List, cookie, k);
      if found {
        DropAfter(prev, k);
      }
    }

    // ---- Dispatching ----

    /** The last node due no later than the first packet. */
    method FindShunt() returns (prev: CAdvisePacket, ghost k: nat)
      requires Spine(spine, List, head, z) && List != []
      requires List[0].time < z.eventTime
      ensures 1 <= k <= |List| && prev == spine[k] && prev in spine && head.next == spine[1] && (prev == spine[1] <==> k == 1)
      ensures forall i :: 0 <= i < k ==> List[i].time <= List[0].time
      ensures k < |List| ==> List[k].time > List[0].time
    {
      assert spine[0].next == spine[1];
      var packet := head.next;
      assert spine[1].View() == List[0];
      prev, k := head, 0;
      var n := prev.next;
      while n.eventTime <= packet.eventTime
        invariant k <= |List| && prev == spine[k] && n == spine[k + 1]
        invariant forall i :: 0 <= i < k ==> List[i].time <= List[0].time
        decreases |List| - k
      {
        assert spine[k + 1].View() == List[k];
        assert spine[k + 1].next == spine[k + 2];
        prev := n;
        n := prev.next;
        k := k + 1;
      }
      assert k < |List| ==> spine[k + 1].View() == List[k];
    }

    /** Repositions the first packet, whose time has just been moved on. */
    method ShuntHead()
      requires Spine(spine, List, head, z) && List != []
      requires List[0].time < z.eventTime
      modifies this`spine, this`List, spine
      ensures Spine(spine, List, head, z)
      ensures List == InsertShunted(old(List)[1..], old(List)[0])
      ensures forall q :: q in spine <==> q in old(spine)
      ensures forall q :: q in spine ==> q.eventTime == old(q.eventTime)
    {
      hide Linked, Splice, Cut, InsertShunted;
      var prev, k := FindShunt();
      ShuntIsMove(List, k);
      var first := head.next;
      if prev != first {
        first := UnlinkAfter(head, 0);
        LinkAfter(prev, first, k - 1);
      }
    }

    method Postpone(p: CAdvisePacket)
      requires Spine(spine, List, head, z) && List != [] && p == spine[1]
      modifies p`eventTime, this`List
      ensures Spine(spine, List, head, z) && z.eventTime == old(z.eventTime)
      ensures List == [Later(old(List)[0])] + old(List)[1..]
    {
      assert p.View() == List[0];
      p.eventTime := p.eventTime + p.period;
      List := [Later(List[0])] + List[1..];
    }

    /** Moves the first packet's time on by its period and puts it where it now belongs. */
    method FirePeriodic(p: CAdvisePacket)
      requires Valid() && List != [] && p == spine[1] && p in spine
      requires List[0].periodic && Later(List[0]).time < MAX_TIME
      modifies this`spine, this`List, this`log, spine
      ensures Valid()
      ensures List == FireHead(old(List)) && log == old(log) + [FiringOf(old(List)[0])]
      ensures forall q :: q in spine <==> q in old(spine)
    {
      hide ListOk, Linked, Chain, FireHead, InsertShunted;
      FireHeadOk(List, nextCookie);
      assert p.View() == List[0];
      assert p !in cached;
      log := log + [Firing(p.cookie, p.eventTime, p.notify, true)];
      Postpone(p);
      assert Chain(cache, cached);
      assert forall i, j :: 0 <= i < |spine| && 0 <= j < |cached| ==> cached[j] != spine[i] by {
        assert forall j :: 0 <= j < |cached| ==> cached[j] in cached;
      }
      ShuntHead();
      assert Chain(cache, cached);
    }

    /** Signals the first packet: a periodic one is shunted, a one-shot is dropped. */
    method FireFirst()
      requires Valid() && List != []
      requires List[0].periodic ==> Later(List[0]).time < MAX_TIME
      modifies this, spine
      ensures Valid() && nextCookie == old(nextCookie) && triggers == old(triggers)
      ensures List == FireHead(old(List)) && log == old(log) + [FiringOf(old(List)[0])]
      ensures forall i :: 0 <= i < |spine| ==> spine[i] in old(spine)
      ensures forall q :: q in cached ==> q in old(cached) || q in old(spine)
    {
      assert spine[0].next == spine[1];
      assert spine[1].View() == List[0];
      FireHeadOk(List, nextCookie);
      var pAdvise := head.next;
      if pAdvise.periodic {
        FirePeriodic(pAdvise);
      } else {
        log := log + [Firing(pAdvise.cookie, pAdvise.eventTime, pAdvise.notify, false)];
        DropAfter(head, 0);
      }
    }

    /** The first packet's time, or the sentinel's, and whether it is the sentinel. */
    method Peek() returns (rtNextTime: int, isZ: bool)
      requires Valid()
      ensures rtNextTime == if List == [] then MAX_TIME else List[0].time
      ensures isZ <==> List == []
    {
      rtNextTime := GetNextAdviseTime();
      assert spine[0].next == spine[1];
      assert spine[1].next == if 2 < |spine| then spine[2] else null;
      isZ := head.next.next == null;
    }

    /** Whether moving the first packet on would take it to the sentinel's time or past it. */
    method Overruns() returns (yes: bool)
      requires Valid() && List != []
      ensures yes <==> List[0].periodic && Later(List[0]).time >= MAX_TIME
    {
      assert spine[0].next == spine[1];
      assert spine[1].View() == List[0];
      yes := head.next.periodic && head.next.eventTime + head.next.period >= MAX_TIME;
    }

    /**
     * Dispatches everything due by rtTime and returns the time of the next event. A fault is
     * where the code goes wrong: a packet moved to the sentinel's time, so that ShuntHead runs
     * off the list, or past it, where the 64-bit sum overflows. The model stops there.
     */
    method Advise(rtTime: int) returns (rtNextTime: int, fault: bool)
      requires Valid() && AllSteady(List, rtTime)
      modifies this, spine
      ensures Valid() && nextCookie == old(nextCookie) && triggers == old(triggers)
      ensures forall q :: q in spine ==> q in old(spine)
      ensures forall q :: q in cached ==> q in old(cached) || q in old(spine)
      ensures fault <==> !NextTimesFit(old(List), rtTime)
      ensures fault ==> HeadDue(List, rtTime) && List[0].periodic && Later(List[0]).time >= MAX_TIME
      ensures !fault ==> List == Run(old(List), rtTime).1 && log == old(log) + Run(old(List), rtTime).0
      ensures rtNextTime == if List == [] then MAX_TIME else List[0].time
      ensures !fault && rtTime < MAX_TIME ==> rtNextTime > rtTime
    {
      hide Spine, Chain, Apart, ListOk, Dispatched, FireHead, Run, NextTimesFit;
      ghost var before := List;
      ghost var fired := [];
      DispatchedNone(List, rtTime);
      fault := false;
      var isZ;
      rtNextTime, isZ := Peek();
      while rtTime >= rtNextTime && !isZ
        invariant Valid() && nextCookie == old(nextCookie) && triggers == old(triggers)
        invariant forall i :: 0 <= i < |spine| ==> spine[i] in old(spine)
        invariant forall q :: q in cached ==> q in old(cached) || q in old(spine)
        invariant rtNextTime == if List == [] then MAX_TIME else List[0].time
        invariant isZ <==> List == []
        invariant log == old(log) + fired
        invariant AllSteady(List, rtTime) && Dispatched(before, fired, List, rtTime)
        decreases Pending(List, rtTime)
      {
        DispatchedOne(before, fired, List, rtTime);
        fault := Overruns();
        if fault {
          return;
        }
        fired := fired + [FiringOf(List[0])];
        FireFirst();
        rtNextTime, isZ := Peek();
      }
      DispatchedAll(before, fired, List, rtTime, nextCookie);
    }
  }

  /** Dispatching from `before` has made these firings, is at `now`, and is as safe to go on with as it was to begin. */
  ghost predicate Dispatched(before: seq<Packet>, fired: seq<Firing>, now: seq<Packet>, T: int) {
    && AllSteady(before, T) && AllSteady(now, T)
    && (NextTimesFit(now, T) <==> NextTimesFit(before, T))
    && Run(before, T) == (fired + Run(now, T).0, Run(now, T).1)
  }

  lemma DispatchedNone(list: seq<Packet>, T: int)
    requires AllSteady(list, T)
    ensures Dispatched(list, [], list, T)
  {
    assert [] + Run(list, T).0 == Run(list, T).0;
  }

  lemma DispatchedOne(before: seq<Packet>, fired: seq<Firing>, now: seq<Packet>, T: int)
    requires Dispatched(before, fired, now, T) && HeadDue(now, T)
    ensures AllSteady(now, T) && AllSteady(FireHead(now), T) && Pending(FireHead(now), T) < Pending(now, T)
    ensures if now[0].periodic && Later(now[0]).time >= MAX_TIME then !NextTimesFit(before, T)
            else Dispatched(before, fired + [FiringOf(now[0])], FireHead(now), T)
  {
    hide NextTimesFit;
    FireHeadKeepsSteady(now, T);
    FireHeadFits(now, T);
    assert fired + Run(now, T).0 == fired + [FiringOf(now[0])] + Run(FireHead(now), T).0;
  }

  lemma DispatchedAll(before: seq<Packet>, fired: seq<Firing>, now: seq<Packet>, T: int, last: nat)
    requires ListOk(now, last) && Dispatched(before, fired, now, T) && !HeadDue(now, T)
    ensures AllSteady(before, T) && Run(before, T) == (fired, now) && NextTimesFit(before, T)
  {
    assert fired + [] == fired;
    assert forall i :: 0 <= i < |now| ==> now[0].time <= now[i].time;
  }

  lemma FireHeadOk(list: seq<Packet>, last: nat)
    requires ListOk(list, last) && list != []
    requires list[0].periodic ==> Later(list[0]).time < MAX_TIME
    ensures ListOk(FireHead(list), last)
    ensures list[0].periodic ==> |FireHead(list)| == |list|
    ensures list[0].periodic ==> FireHead(list) == InsertShunted(list[1..], Later(list[0]))
    ensures !list[0].periodic ==> FireHead(list) == Cut(list, 0)
  {
    FireHeadKeepsOrder(list);
    if list[0].periodic {
      var k := ShuntPosition(list[1..], Later(list[0]));
      assert list[1..][..k] + list[1..][k..] == list[1..];
      assert PacketOk(list[0], last);
      InsertKeepsRange(list[1..][..k], Later(list[0]), list[1..][k..], last);
    }
  }

  lemma GetIffPresent(list: seq<Packet>, cookie: nat, k: nat)
    requires k <= |list|
    requires forall i :: 0 <= i < k ==> list[i].cookie != cookie
    requires k < |list| ==> list[k].cookie == cookie
    ensures Get(list, cookie) == if k < |list| then Some(list[k]) else None
  {
    if k == 0 {
    } else {
      GetIffPresent(list[1..], cookie, k - 1);
    }
  }

  lemma RemoveOk(list: seq<Packet>, k: nat, last: nat)
    requires ListOk(list, last) && k < |list|
    ensures ListOk(Cut(list, k), last) && |Cut(list, k)| == |list| - 1
  {
  }

  /** A packet with a new cookie, put where its time belongs, keeps the list in order. */
  lemma InsertOk(a: seq<Packet>, p: Packet, b: seq<Packet>, last: nat)
    requires ListOk(a + b, last) && PacketOk(p, last + 1) && p.cookie == last + 1
    requires forall i :: 0 <= i < |a| ==> a[i].time <= p.time
    requires b != [] ==> p.time <= b[0].time
    ensures ListOk(a + [p] + b, last + 1)
  {
    InsertKeepsSorted(a, p, b);
    forall i | 0 <= i < |a + b|
      ensures (a + b)[i].cookie != p.cookie && PacketOk((a + b)[i], last + 1)
    {
      assert PacketOk((a + b)[i], last);
    }
    InsertKeepsDistinct(a, p, b);
    InsertKeepsRange(a, p, b, last + 1);
  }

  lemma InsertNewOk(list: seq<Packet>, p: Packet, k: nat, last: nat)
    requires ListOk(list, last) && PacketOk(p, last + 1) && p.cookie == last + 1
    requires k <= |list|
    requires forall i :: 0 <= i < k ==> list[i].time < p.time
    requires k < |list| ==> list[k].time >= p.time
    ensures Splice(list, p, k) == InsertNew(list, p)
    ensures ListOk(InsertNew(list, p), last + 1) && |InsertNew(list, p)| == |list| + 1
    ensures InsertNew(list, p)[0].cookie == if k == 0 then p.cookie else list[0].cookie
  {
    hide ListOk, InsertNew;
    assert list[..k] + list[k..] == list;
    InsertOk(list[..k], p, list[k..], last);
    InsertNewAt(list, p, k);
  }

  lemma InsertKeepsRange(a: seq<Packet>, p: Packet, b: seq<Packet>, last: nat)
    requires InRange(a + b, last) && InRange([p], last)
    ensures InRange(a + [p] + b, last)
  {
    var s := a + [p] + b;
    forall i | 0 <= i < |s|
      ensures PacketOk(s[i], last)
    {
      if i < |a| {
        assert s[i] == (a + b)[i];
      } else if i == |a| {
        assert s[i] == [p][0];
      } else {
        assert s[i] == (a + b)[i - 1];
      }
    }
  }

  /** Taking the head out and linking it back further down is the shunt. */
  lemma ShuntIsMove(list: seq<Packet>, k: nat)
    requires 1 <= k <= |list|
    requires forall i :: 0 <= i < k ==> list[i].time <= list[0].time
    requires k < |list| ==> list[k].time > list[0].time
    ensures |Cut(list, 0)| == |list| - 1
    ensures InsertShunted(list[1..], list[0]) == Splice(Cut(list, 0), list[0], k - 1)
    ensures k == 1 ==> InsertShunted(list[1..], list[0]) == list
  {
    hide InsertShunted;
    assert Cut(list, 0) == list[1..];
    InsertShuntedAt(list[1..], list[0], k - 1);
    assert Splice(list[1..], list[0], 0) == list;
  }
}
