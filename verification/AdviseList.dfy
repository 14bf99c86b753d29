/**
 * What CAMSchedule computes, on values: a time-ordered list of advise packets,
 * where firing the head either drops it (one-shot) or moves it on by its period.
 */
module AdviseList {
  import opened Wrappers
  import opened RefTime
  import opened Sequences

  datatype Packet = Packet(cookie: nat, time: int, period: int, handle: int, periodic: bool)

  /** One SetEvent (one-shot) or ReleaseSemaphore (periodic) call. */
  datatype Firing = Firing(cookie: nat, time: int, handle: int, periodic: bool)

  ghost predicate Sorted(s: seq<Packet>) {
    forall i, j :: 0 <= i < j < |s| ==> s[i].time <= s[j].time
  }

  ghost predicate DistinctCookies(s: seq<Packet>) {
    forall i, j :: 0 <= i < j < |s| ==> s[i].cookie != s[j].cookie
  }

  /** If it is periodic and due by T, it moves on. */
  predicate Steady(p: Packet, T: int) { p.periodic && p.time <= T ==> p.period > 0 }

  ghost predicate AllSteady(s: seq<Packet>, T: int) {
    forall i :: 0 <= i < |s| ==> Steady(s[i], T)
  }

  function Get(s: seq<Packet>, c: nat): Option<Packet> {
    if s == [] then None else if s[0].cookie == c then Some(s[0]) else Get(s[1..], c)
  }

  // ---- List operations ----

  function Splice<T>(s: seq<T>, p: T, k: nat): seq<T>
    requires k <= |s|
  {
    s[..k] + [p] + s[k..]
  }

  function Cut<T>(s: seq<T>, k: nat): seq<T>
    requires k < |s|
  {
    s[..k] + s[k + 1..]
  }

  lemma SpliceFacts<T>(s: seq<T>, p: T, k: nat)
    requires k <= |s|
    ensures |Splice(s, p, k)| == |s| + 1
    ensures forall i {:trigger Splice(s, p, k)[i]} :: 0 <= i <= |s| ==>
              Splice(s, p, k)[i] == if i < k then s[i] else if i == k then p else s[i - 1]
    ensures forall q :: q in Splice(s, p, k) <==> q in s || q == p
    ensures Distinct(s) && p !in s ==> Distinct(Splice(s, p, k))
  {
  }

  lemma CutFacts<T>(s: seq<T>, k: nat)
    requires k < |s|
    ensures |Cut(s, k)| == |s| - 1
    ensures forall i {:trigger Cut(s, k)[i]} :: 0 <= i < |s| - 1 ==> Cut(s, k)[i] == if i < k then s[i] else s[i + 1]
    ensures Distinct(s) ==> Distinct(Cut(s, k)) && forall q :: q in Cut(s, k) <==> q in s && q != s[k]
  {
  }

  /** A new packet goes before the first packet that is due no earlier. */
  function InsertNew(s: seq<Packet>, p: Packet): seq<Packet> {
    if s == [] || s[0].time >= p.time then [p] + s else [s[0]] + InsertNew(s[1..], p)
  }

  /** A shunted packet goes before the first packet that is due later. */
  function InsertShunted(s: seq<Packet>, p: Packet): seq<Packet> {
    if s == [] || s[0].time > p.time then [p] + s else [s[0]] + InsertShunted(s[1..], p)
  }

  function RemoveCookie(s: seq<Packet>, c: nat): seq<Packet> {
    if s == [] then [] else if s[0].cookie == c then s[1..] else [s[0]] + RemoveCookie(s[1..], c)
  }

  lemma SpliceStep<T>(s: seq<T>, p: T, k: nat)
    requires k <= |s|
    ensures Splice(s, p, k) == if k == 0 then [p] + s else [s[0]] + Splice(s[1..], p, k - 1)
  {
  }

  lemma InsertNewAt(s: seq<Packet>, p: Packet, k: nat)
    requires k <= |s|
    requires forall i :: 0 <= i < k ==> s[i].time < p.time
    requires k < |s| ==> s[k].time >= p.time
    ensures InsertNew(s, p) == Splice(s, p, k)
  {
    hide Splice;
    SpliceStep(s, p, k);
    if k == 0 {
    } else {
      InsertNewAt(s[1..], p, k - 1);
    }
  }

  lemma InsertShuntedAt(s: seq<Packet>, p: Packet, k: nat)
    requires k <= |s|
    requires forall i :: 0 <= i < k ==> s[i].time <= p.time
    requires k < |s| ==> s[k].time > p.time
    ensures InsertShunted(s, p) == Splice(s, p, k)
  {
    hide Splice;
    SpliceStep(s, p, k);
    if k == 0 {
    } else {
      InsertShuntedAt(s[1..], p, k - 1);
    }
  }

  lemma RemoveCookieAt(s: seq<Packet>, c: nat, k: nat)
    requires k <= |s|
    requires forall i :: 0 <= i < k ==> s[i].cookie != c
    requires k < |s| ==> s[k].cookie == c
    ensures RemoveCookie(s, c) == if k < |s| then Cut(s, k) else s
  {
    hide Cut;
    CutStep(s, k);
    if k == 0 {
    } else {
      RemoveCookieAt(s[1..], c, k - 1);
    }
  }

  lemma CutStep<T>(s: seq<T>, k: nat)
    requires k <= |s|
    ensures s != [] ==> s == [s[0]] + s[1..]
    ensures k < |s| ==> Cut(s, k) == if k == 0 then s[1..] else [s[0]] + Cut(s[1..], k - 1)
  {
  }

  /** The position an insertion takes. */
  lemma ShuntPosition(s: seq<Packet>, p: Packet) returns (k: nat)
    ensures k <= |s| && InsertShunted(s, p) == s[..k] + [p] + s[k..]
    ensures forall i :: 0 <= i < k ==> s[i].time <= p.time
    ensures k < |s| ==> s[k].time > p.time
  {
    k := 0;
    while k < |s| && s[k].time <= p.time
      invariant k <= |s| && forall i :: 0 <= i < k ==> s[i].time <= p.time
    {
      k := k + 1;
    }
    InsertShuntedAt(s, p, k);
  }

  lemma GetAfterInsert(a: seq<Packet>, p: Packet, b: seq<Packet>, c: nat)
    requires p.cookie != c
    ensures Get(a + [p] + b, c) == Get(a + b, c)
  {
    if a == [] {
      assert a + [p] + b == [p] + b && ([p] + b)[1..] == b && a + b == b;
    } else {
      GetAfterInsert(a[1..], p, b, c);
      assert (a + [p] + b)[1..] == a[1..] + [p] + b && (a + b)[1..] == a[1..] + b;
    }
  }

  lemma GetInserted(a: seq<Packet>, p: Packet, b: seq<Packet>)
    requires forall i :: 0 <= i < |a| ==> a[i].cookie != p.cookie
    ensures Get(a + [p] + b, p.cookie) == Some(p)
  {
    if a == [] {
    } else {
      GetInserted(a[1..], p, b);
      assert (a + [p] + b)[1..] == a[1..] + [p] + b;
    }
  }

  lemma GetNone(s: seq<Packet>, c: nat)
    requires forall i :: 0 <= i < |s| ==> s[i].cookie != c
    ensures Get(s, c) == None
  {
  }

  /** Adding makes exactly the new cookie findable and disturbs no other packet. */
  lemma {:induction false} GetAfterAdd(s: seq<Packet>, p: Packet, c: nat)
    requires Get(s, p.cookie) == None
    ensures Get(InsertNew(s, p), c) == if c == p.cookie then Some(p) else Get(s, c)
  {
    if s == [] || p.time <= s[0].time {
    } else {
      GetAfterAdd(s[1..], p, c);
    }
  }

  /** Cancelling takes exactly that packet off, or changes nothing when there is none. */
  lemma {:induction false} GetAfterRemove(s: seq<Packet>, cookie: nat, c: nat)
    requires DistinctCookies(s)
    ensures Get(RemoveCookie(s, cookie), c) == if c == cookie then None else Get(s, c)
    ensures Get(s, cookie) == None ==> RemoveCookie(s, cookie) == s
  {
    if s == [] {
    } else {
      if s[0].cookie == cookie {
        GetNone(s[1..], cookie);
      } else {
        GetAfterRemove(s[1..], cookie, c);
      }
    }
  }

  // ---- One packet on its own ----

  function Later(p: Packet): Packet { p.(time := p.time + p.period) }

  function FiringOf(p: Packet): Firing { Firing(p.cookie, p.time, p.handle, p.periodic) }

  /** The firings of a packet when everything due by T is dispatched. */
  function Firings(p: Packet, T: int): seq<Firing>
    requires Steady(p, T)
    decreases T - p.time
  {
    if p.time > T then []
    else if p.periodic then [FiringOf(p)] + Firings(Later(p), T)
    else [FiringOf(p)]
  }

  /** What is left of a packet then: nothing, or the packet at its first time after T. */
  function Settle(p: Packet, T: int): Option<Packet>
    requires Steady(p, T)
    decreases T - p.time
  {
    if p.time > T then Some(p)
    else if p.periodic then Settle(Later(p), T)
    else None
  }

  /** The closed form: floor((T - t) / P) + 1 firings at t, t + P, ..., and the next time is the first one after T. */
  lemma {:induction false} FiringsClosedForm(p: Packet, T: int)
    requires p.periodic && p.period > 0
    ensures |Firings(p, T)| == if p.time > T then 0 else (T - p.time) / p.period + 1
    ensures forall i :: 0 <= i < |Firings(p, T)| ==>
              Firings(p, T)[i] == Firing(p.cookie, p.time + i * p.period, p.handle, true)
    ensures Settle(p, T) == Some(p.(time := p.time + |Firings(p, T)| * p.period))
    ensures Settle(p, T).value.time > T
  {
    FiringsCounted(p, T);
    FiringsTimed(p, T);
    SettlesAfter(p, T);
  }

  lemma {:induction false} FiringsCounted(p: Packet, T: int)
    requires p.periodic && p.period > 0
    ensures |Firings(p, T)| == if p.time > T then 0 else (T - p.time) / p.period + 1
    decreases T - p.time
  {
    if p.time > T {
    } else {
      FiringsCounted(Later(p), T);
      DivStep(T - p.time, p.period);
    }
  }

  lemma {:induction false} FiringsTimed(p: Packet, T: int)
    requires p.periodic && p.period > 0
    ensures forall i :: 0 <= i < |Firings(p, T)| ==>
              Firings(p, T)[i] == Firing(p.cookie, p.time + i * p.period, p.handle, true)
    decreases T - p.time
  {
    if p.time > T {
    } else {
      FiringsTimed(Later(p), T);
      FirstThenRest(p, Firings(Later(p), T));
    }
  }

  lemma {:induction false} SettlesAfter(p: Packet, T: int)
    requires p.periodic && p.period > 0
    ensures Settle(p, T) == Some(p.(time := p.time + |Firings(p, T)| * p.period))
    ensures Settle(p, T).value.time > T
    decreases T - p.time
  {
    if p.time > T {
    } else {
      SettlesAfter(Later(p), T);
      var n := |Firings(Later(p), T)|;
      assert (n + 1) * p.period == n * p.period + p.period;
    }
  }

  lemma FirstThenRest(p: Packet, rest: seq<Firing>)
    requires p.periodic
    requires forall i :: 0 <= i < |rest| ==>
               rest[i] == Firing(p.cookie, Later(p).time + i * p.period, p.handle, true)
    ensures var all := [FiringOf(p)] + rest;
      forall i :: 0 <= i < |all| ==> all[i] == Firing(p.cookie, p.time + i * p.period, p.handle, true)
  {
    var all := [FiringOf(p)] + rest;
    forall i | 0 < i < |all|
      ensures all[i] == Firing(p.cookie, p.time + i * p.period, p.handle, true)
    {
      assert all[i] == rest[i - 1];
      assert i * p.period == (i - 1) * p.period + p.period;
    }
  }

  lemma DivStep(x: int, c: int)
    requires x >= 0 && c > 0
    ensures x / c + 1 == if x < c then 1 else (x - c) / c + 2
  {
    if x >= c {
      assert x == (x / c) * c + x % c;
      assert x - c == ((x - c) / c) * c + (x - c) % c;
    }
  }

  // ---- Dispatching ----

  predicate HeadDue(s: seq<Packet>, T: int) { s != [] && s[0].time <= T }

  /** The list after the head has been signalled. */
  function FireHead(s: seq<Packet>): seq<Packet>
    requires s != []
  {
    if s[0].periodic then InsertShunted(s[1..], Later(s[0])) else s[1..]
  }

  /** The number of firings still to come: the termination measure of the dispatch loop. */
  ghost function Pending(s: seq<Packet>, T: int): nat
    requires AllSteady(s, T)
  {
    if s == [] then 0 else |Firings(s[0], T)| + Pending(s[1..], T)
  }

  lemma PendingInsert(a: seq<Packet>, p: Packet, b: seq<Packet>, T: int)
    requires AllSteady(a, T) && Steady(p, T) && AllSteady(b, T)
    ensures AllSteady(a + [p] + b, T) && AllSteady(a + b, T)
    ensures Pending(a + [p] + b, T) == Pending(a + b, T) + |Firings(p, T)|
  {
    if a == [] {
      assert a + [p] + b == [p] + b && ([p] + b)[1..] == b && a + b == b;
    } else {
      PendingInsert(a[1..], p, b, T);
      assert (a + [p] + b)[1..] == a[1..] + [p] + b && (a + b)[1..] == a[1..] + b;
    }
  }

  lemma FireHeadKeepsSteady(s: seq<Packet>, T: int)
    requires s != [] && AllSteady(s, T) && HeadDue(s, T)
    ensures AllSteady(FireHead(s), T) && Pending(FireHead(s), T) == Pending(s, T) - 1
  {
    if s[0].periodic {
      var k := ShuntPosition(s[1..], Later(s[0]));
      PendingInsert(s[1..][..k], Later(s[0]), s[1..][k..], T);
      assert s[1..][..k] + s[1..][k..] == s[1..];
    }
  }

  /** Dispatching everything due by T: the firings in order, and the list left behind. */
  ghost function Run(s: seq<Packet>, T: int): (r: (seq<Firing>, seq<Packet>))
    requires AllSteady(s, T)
    ensures AllSteady(r.1, T) && !HeadDue(r.1, T)
    decreases Pending(s, T)
  {
    if HeadDue(s, T) then
      FireHeadKeepsSteady(s, T);
      var rest := Run(FireHead(s), T);
      ([FiringOf(s[0])] + rest.0, rest.1)
    else
      ([], s)
  }

  lemma InsertKeepsSorted(a: seq<Packet>, p: Packet, b: seq<Packet>)
    requires Sorted(a + b)
    requires forall i :: 0 <= i < |a| ==> a[i].time <= p.time
    requires b != [] ==> p.time <= b[0].time
    ensures Sorted(a + [p] + b)
  {
    forall i | 0 <= i < |b|
      ensures p.time <= b[i].time
    {
      assert (a + b)[|a|] == b[0] && (a + b)[|a| + i] == b[i];
    }
    var s := a + [p] + b;
    forall i, j | 0 <= i < j < |s|
      ensures s[i].time <= s[j].time
    {
      if i != |a| && j != |a| {
        var i', j' := if i < |a| then i else i - 1, if j < |a| then j else j - 1;
        assert (a + b)[i'] == s[i] && (a + b)[j'] == s[j];
      }
    }
  }

  lemma InsertKeepsDistinct(a: seq<Packet>, p: Packet, b: seq<Packet>)
    requires DistinctCookies(a + b)
    requires forall i :: 0 <= i < |a + b| ==> (a + b)[i].cookie != p.cookie
    ensures DistinctCookies(a + [p] + b)
  {
    var s := a + [p] + b;
    forall i, j | 0 <= i < j < |s|
      ensures s[i].cookie != s[j].cookie
    {
      var i', j' := if i < |a| then i else i - 1, if j < |a| then j else j - 1;
      assert i != |a| ==> (a + b)[i'] == s[i];
      assert j != |a| ==> (a + b)[j'] == s[j];
    }
  }

  lemma FireHeadKeepsOrder(s: seq<Packet>)
    requires s != [] && Sorted(s) && DistinctCookies(s)
    ensures Sorted(FireHead(s)) && DistinctCookies(FireHead(s))
    ensures FireHead(s) != [] && (s[0].periodic ==> s[0].period > 0) ==> FireHead(s)[0].time >= s[0].time
  {
    if s[0].periodic {
      var k := ShuntPosition(s[1..], Later(s[0]));
      var a, b := s[1..][..k], s[1..][k..];
      assert a + b == s[1..];
      InsertKeepsSorted(a, Later(s[0]), b);
      InsertKeepsDistinct(a, Later(s[0]), b);
    }
  }

  lemma FireHeadGet(s: seq<Packet>, c: nat)
    requires s != [] && DistinctCookies(s)
    ensures Get(FireHead(s), c) ==
            if c != s[0].cookie then Get(s, c) else if s[0].periodic then Some(Later(s[0])) else None
  {
    var t := s[1..];
    if s[0].periodic {
      var k := ShuntPosition(t, Later(s[0]));
      assert t[..k] + t[k..] == t;
      if c == s[0].cookie {
        GetInserted(t[..k], Later(s[0]), t[k..]);
      } else {
        GetAfterInsert(t[..k], Later(s[0]), t[k..], c);
      }
    } else if c == s[0].cookie {
      GetNone(t, c);
    }
  }

  /** Event times do not go backwards, and lie between t and T. */
  ghost predicate InTimeOrder(log: seq<Firing>, t: int, T: int) {
    && (forall i :: 0 <= i < |log| ==> t <= log[i].time <= T)
    && (forall i, j :: 0 <= i < j < |log| ==> log[i].time <= log[j].time)
  }

  lemma EarlierFirst(f: Firing, log: seq<Firing>, t: int, T: int)
    requires InTimeOrder(log, t, T) && f.time <= t && f.time <= T
    ensures InTimeOrder([f] + log, f.time, T)
  {
  }

  lemma NothingLogged(t: int, T: int)
    ensures InTimeOrder([], t, T)
  {
  }

  /** Dispatching keeps the list ordered and the cookies distinct, and fires in order of event time. */
  lemma {:induction false} RunInOrder(s: seq<Packet>, T: int)
    requires Sorted(s) && DistinctCookies(s) && AllSteady(s, T)
    ensures var (log, rest) := Run(s, T);
      Sorted(rest) && DistinctCookies(rest) && (s != [] ==> InTimeOrder(log, s[0].time, T)) && (s == [] ==> log == [])
    decreases Pending(s, T)
  {
    hide Sorted, DistinctCookies, AllSteady, FireHead, InTimeOrder;
    if HeadDue(s, T) {
      HeadSteady(s, T);
      FireHeadKeepsSteady(s, T);
      FireHeadKeepsOrder(s);
      RunInOrder(FireHead(s), T);
      NothingLogged(s[0].time, T);
      EarlierFirst(FiringOf(s[0]), Run(FireHead(s), T).0, if FireHead(s) == [] then s[0].time else FireHead(s)[0].time, T);
    } else if s != [] {
      NothingLogged(s[0].time, T);
    }
  }

  lemma HeadSteady(s: seq<Packet>, T: int)
    requires AllSteady(s, T) && HeadDue(s, T)
    ensures Steady(s[0], T)
  {
  }

  /** The firings of one cookie in a log. */
  function FiringsIn(log: seq<Firing>, c: nat): seq<Firing> {
    if log == [] then []
    else (if log[0].cookie == c then [log[0]] else []) + FiringsIn(log[1..], c)
  }

  /**
   * Each packet fires at exactly its own due times, whatever else is on the list, and what is
   * left of it depends on nothing else either: a fired one-shot is gone, a periodic packet
   * stands at its first time after T, everything not due is untouched, and nothing is added.
   */
  lemma {:induction false} RunPerPacket(s: seq<Packet>, T: int, c: nat)
    requires Sorted(s) && DistinctCookies(s) && AllSteady(s, T)
    ensures var (log, rest) := Run(s, T);
      match Get(s, c)
      case None => FiringsIn(log, c) == [] && Get(rest, c) == None
      case Some(p) => Steady(p, T) && FiringsIn(log, c) == Firings(p, T) && Get(rest, c) == Settle(p, T)
    decreases Pending(s, T)
  {
    GetSteady(s, c, T);
    if HeadDue(s, T) {
      FireHeadKeepsSteady(s, T);
      FireHeadKeepsOrder(s);
      FireHeadGet(s, c);
      RunPerPacket(FireHead(s), T, c);
      var log, rest := Run(s, T).0, Run(s, T).1;
      assert log[1..] == Run(FireHead(s), T).0;
    } else {
      GetNotDue(s, T, c);
    }
  }

  lemma GetSteady(s: seq<Packet>, c: nat, T: int)
    requires AllSteady(s, T)
    ensures Get(s, c).Some? ==> Steady(Get(s, c).value, T) && Get(s, c).value.cookie == c
  {
  }

  lemma GetNotDue(s: seq<Packet>, T: int, c: nat)
    requires Sorted(s) && !HeadDue(s, T)
    ensures Get(s, c).Some? ==> Get(s, c).value.time > T
  {
  }

  /** Every signal made is one some listed packet asked for: on its own handle, and of its own kind. */
  lemma {:induction false} RunSignalsAsAsked(s: seq<Packet>, T: int, i: nat)
    requires DistinctCookies(s) && Sorted(s) && AllSteady(s, T) && i < |Run(s, T).0|
    ensures var f := Run(s, T).0[i];
      match Get(s, f.cookie)
      case None => false
      case Some(p) => f.handle == p.handle && f.periodic == p.periodic && p.time <= f.time <= T
    decreases Pending(s, T)
  {
    hide Sorted, DistinctCookies, AllSteady, FireHead, Get;
    HeadSteady(s, T);
    FireHeadKeepsSteady(s, T);
    FireHeadKeepsOrder(s);
    GetHead(s);
    if i == 0 {
    } else {
      RunSignalsAsAsked(FireHead(s), T, i - 1);
      FireHeadGet(s, Run(s, T).0[i].cookie);
    }
  }

  lemma GetHead(s: seq<Packet>)
    requires s != []
    ensures Get(s, s[0].cookie) == Some(s[0])
  {
  }

  /**
   * A one-shot event added to a list is signalled once, on the handle it was asked for with, by
   * the first dispatch to its time or later, and is then gone; by earlier ones not at all.
   */
  lemma {:induction false} OneShotSignalled(s: seq<Packet>, cookie: nat, t: int, handle: int, T: int)
    requires Sorted(s) && DistinctCookies(s) && Get(s, cookie) == None
    requires AllSteady(InsertNew(s, Packet(cookie, t, 0, handle, false)), T)
    ensures var p := Packet(cookie, t, 0, handle, false);
      var (log, rest) := Run(InsertNew(s, p), T);
      && FiringsIn(log, cookie) == (if t <= T then [Firing(cookie, t, handle, false)] else [])
      && Get(rest, cookie) == if t <= T then None else Some(p)
  {
    hide Sorted, DistinctCookies, AllSteady, Get, Run, FiringsIn;
    var p := Packet(cookie, t, 0, handle, false);
    GetAfterAdd(s, p, cookie);
    AddKeepsOrder(s, p);
    RunPerPacket(InsertNew(s, p), T, cookie);
  }

  /** A repeating event added to a list is signalled at each of its times up to T, on its semaphore. */
  lemma {:induction false} PeriodicSignalled(s: seq<Packet>, cookie: nat, t: int, period: int, handle: int, T: int)
    requires Sorted(s) && DistinctCookies(s) && Get(s, cookie) == None && period > 0
    requires AllSteady(InsertNew(s, Packet(cookie, t, period, handle, true)), T)
    ensures var p := Packet(cookie, t, period, handle, true);
      var (log, rest) := Run(InsertNew(s, p), T);
      var own := FiringsIn(log, cookie);
      && |own| == (if t > T then 0 else (T - t) / period + 1)
      && (forall i :: 0 <= i < |own| ==> own[i] == Firing(cookie, t + i * period, handle, true))
      && Get(rest, cookie) == Some(p.(time := t + |own| * period)) && t + |own| * period > T
  {
    hide Sorted, DistinctCookies, AllSteady, Get, Run, FiringsIn;
    var p := Packet(cookie, t, period, handle, true);
    GetAfterAdd(s, p, cookie);
    AddKeepsOrder(s, p);
    RunPerPacket(InsertNew(s, p), T, cookie);
    FiringsClosedForm(p, T);
  }

  lemma AddKeepsOrder(s: seq<Packet>, p: Packet)
    requires Sorted(s) && DistinctCookies(s) && Get(s, p.cookie) == None
    ensures Sorted(InsertNew(s, p)) && DistinctCookies(InsertNew(s, p))
  {
    var k := 0;
    while k < |s| && s[k].time < p.time
      invariant k <= |s| && forall i :: 0 <= i < k ==> s[i].time < p.time
    {
      k := k + 1;
    }
    InsertNewAt(s, p, k);
    assert s[..k] + s[k..] == s;
    InsertKeepsSorted(s[..k], p, s[k..]);
    GetAbsent(s, p.cookie);
    InsertKeepsDistinct(s[..k], p, s[k..]);
  }

  lemma {:induction false} GetAbsent(s: seq<Packet>, c: nat)
    requires Get(s, c) == None
    ensures forall i :: 0 <= i < |s| ==> s[i].cookie != c
  {
    if s == [] {
    } else {
      GetAbsent(s[1..], c);
    }
  }

  /** Late or split wake-ups lose and duplicate nothing: dispatching to t1 and then to t2 is dispatching to t2. */
  lemma {:induction false} RunSplits(s: seq<Packet>, t1: int, t2: int)
    requires AllSteady(s, t2) && t1 <= t2
    ensures AllSteady(s, t1) && AllSteady(Run(s, t1).1, t2)
    ensures var (log1, mid) := Run(s, t1); Run(s, t2) == (log1 + Run(mid, t2).0, Run(mid, t2).1)
    decreases Pending(s, t2)
  {
    hide AllSteady, FireHead;
    SteadySooner(s, t1, t2);
    if HeadDue(s, t1) {
      FireHeadKeepsSteady(s, t1);
      FireHeadKeepsSteady(s, t2);
      RunSplits(FireHead(s), t1, t2);
      ConcatAssociates([FiringOf(s[0])], Run(FireHead(s), t1).0, Run(Run(s, t1).1, t2).0);
    } else {
      EmptyIsUnit(Run(s, t2).0);
    }
  }

  lemma SteadySooner(s: seq<Packet>, t1: int, t2: int)
    requires AllSteady(s, t2) && t1 <= t2
    ensures AllSteady(s, t1)
  {
  }

  // ---- When dispatching ends ----

  /** The dispatch loop is done after at most n firings. */
  predicate EndsWithin(s: seq<Packet>, T: int, n: nat)
    decreases n
  {
    HeadDue(s, T) ==> n > 0 && EndsWithin(FireHead(s), T, n - 1)
  }

  ghost predicate Ends(s: seq<Packet>, T: int) { exists n: nat :: EndsWithin(s, T, n) }

  /** The loop ends, and within the firings pending, exactly when every periodic packet due has a positive period. */
  lemma {:induction false} EndsIffSteady(s: seq<Packet>, T: int)
    requires Sorted(s) && DistinctCookies(s)
    ensures Ends(s, T) <==> AllSteady(s, T)
    ensures AllSteady(s, T) ==> EndsWithin(s, T, Pending(s, T))
  {
    if AllSteady(s, T) {
      SteadyEnds(s, T);
    } else if Ends(s, T) {
      var n: nat :| EndsWithin(s, T, n);
      UnsteadyGoesOn(s, T, n);
    }
  }

  /** A periodic packet of period zero, due at once, fires for ever. */
  lemma {:induction false} ZeroPeriodFiresForever(T: int)
    requires T >= 1
    ensures var p := Packet(1, 1, 0, 0, true); FireHead([p]) == [p] && !Ends([p], T)
  {
    hide Ends, FireHead, AllSteady;
    var p := Packet(1, 1, 0, 0, true);
    OnePacketStays(p, T);
    EndsIffSteady([p], T);
  }

  lemma OnePacketStays(p: Packet, T: int)
    requires p.periodic && p.period == 0 && p.time <= T
    ensures FireHead([p]) == [p] && !AllSteady([p], T)
  {
    assert !Steady([p][0], T);
  }

  lemma {:induction false} SteadyEnds(s: seq<Packet>, T: int)
    requires AllSteady(s, T)
    ensures EndsWithin(s, T, Pending(s, T))
    decreases Pending(s, T)
  {
    if !HeadDue(s, T) {
    } else {
      FireHeadKeepsSteady(s, T);
      SteadyEnds(FireHead(s), T);
    }
  }

  lemma {:induction false} UnsteadyGoesOn(s: seq<Packet>, T: int, n: nat)
    requires Sorted(s) && DistinctCookies(s) && !AllSteady(s, T)
    ensures !EndsWithin(s, T, n)
    decreases n
  {
    var i :| 0 <= i < |s| && !Steady(s[i], T);
    assert s[0].time <= s[i].time;
    if n == 0 {
    } else {
      FireHeadKeepsOrder(s);
      StaysUnsteady(s, T, i);
      UnsteadyGoesOn(FireHead(s), T, n - 1);
    }
  }

  /** A packet that never moves on stays on the list, and due. */
  lemma StaysUnsteady(s: seq<Packet>, T: int, i: nat)
    requires i < |s| && !Steady(s[i], T)
    ensures !AllSteady(FireHead(s), T)
  {
    var t := s[1..];
    if s[0].periodic {
      var k := ShuntPosition(t, Later(s[0]));
      var u := FireHead(s);
      if i == 0 {
        assert !Steady(u[k], T);
      } else {
        assert t[i - 1] == u[if i - 1 < k then i - 1 else i];
      }
    } else {
      assert t[i - 1] == s[i];
    }
  }

  // ---- When dispatching stays below the sentinel time ----

  /** Every packet the dispatch moves lands before MAX_TIME, as ShuntHead demands. */
  ghost predicate NeverReachesSentinel(s: seq<Packet>, T: int)
    requires AllSteady(s, T)
    decreases Pending(s, T)
  {
    if HeadDue(s, T) then
      FireHeadKeepsSteady(s, T);
      (s[0].periodic ==> Later(s[0]).time < MAX_TIME) && NeverReachesSentinel(FireHead(s), T)
    else
      true
  }

  /** The same for one packet on its own: if it is periodic and due by T, its first time after T is below MAX_TIME. */
  predicate NextTimeFits(p: Packet, T: int) {
    p.periodic && p.period > 0 && p.time <= T ==>
      p.time + ((T - p.time) / p.period + 1) * p.period < MAX_TIME
  }

  ghost predicate NextTimesFit(s: seq<Packet>, T: int) {
    forall i :: 0 <= i < |s| ==> NextTimeFits(s[i], T)
  }

  lemma NextTimeIsSettle(p: Packet, T: int)
    requires p.periodic && p.period > 0 && p.time <= T
    ensures Settle(p, T).Some?
    ensures Settle(p, T).value.time == p.time + ((T - p.time) / p.period + 1) * p.period
    ensures Settle(p, T).value.time >= Later(p).time
    decreases T - p.time
  {
    FiringsClosedForm(p, T);
    if Later(p).time > T {
    } else {
      NextTimeIsSettle(Later(p), T);
    }
  }

  lemma NextTimeFitsLater(p: Packet, T: int)
    requires p.periodic && p.period > 0 && p.time <= T
    ensures NextTimeFits(p, T) <==> Later(p).time < MAX_TIME && NextTimeFits(Later(p), T)
  {
    NextTimeIsSettle(p, T);
    if Later(p).time <= T {
      NextTimeIsSettle(Later(p), T);
    }
  }

  lemma FitsInsert(t: seq<Packet>, p: Packet, k: nat, T: int)
    requires k <= |t|
    ensures NextTimesFit(t[..k] + [p] + t[k..], T) <==> NextTimesFit(t, T) && NextTimeFits(p, T)
  {
    hide NextTimeFits;
    var u := t[..k] + [p] + t[k..];
    assert u[k] == p;
    assert forall i :: 0 <= i < |t| ==> t[i] == u[if i < k then i else i + 1];
  }

  lemma FireHeadFits(s: seq<Packet>, T: int)
    requires s != [] && AllSteady(s, T) && HeadDue(s, T)
    ensures NextTimesFit(s, T) <==>
            (s[0].periodic ==> Later(s[0]).time < MAX_TIME) && NextTimesFit(FireHead(s), T)
  {
    var t := s[1..];
    assert Steady(s[0], T);
    assert [] + [s[0]] + t == s && t[..0] == [] && t[0..] == t;
    FitsInsert(t, s[0], 0, T);
    if s[0].periodic {
      NextTimeFitsLater(s[0], T);
      hide NextTimeFits, NextTimesFit, AllSteady;
      var k := ShuntPosition(t, Later(s[0]));
      FitsInsert(t, Later(s[0]), k, T);
    }
  }

  /**
   * A packet AdvisePeriodic accepts whose first dispatch would give it the sentinel's own time:
   * ShuntHead, looking for a later node, walks past the last one.
   */
  lemma {:induction false} LongPeriodReachesSentinel()
    ensures var p := Packet(1, 1, MAX_TIME - 1, 0, true);
      && 0 < p.time < MAX_TIME && p.period > 0 && AllSteady([p], 1)
      && Later(p).time == MAX_TIME && !NextTimesFit([p], 1) && !NeverReachesSentinel([p], 1)
  {
    var p := Packet(1, 1, MAX_TIME - 1, 0, true);
    assert [p][0] == p;
    SafeIffNextTimesFit([p], 1);
    assert (1 - p.time) / p.period == 0;
  }

  /**
   * Dispatching is safe exactly when the next times fit, which the caller can tell from the
   * packets before the call.
   */
  lemma {:induction false} SafeIffNextTimesFit(s: seq<Packet>, T: int)
    requires Sorted(s) && DistinctCookies(s) && AllSteady(s, T)
    ensures NeverReachesSentinel(s, T) <==> NextTimesFit(s, T)
    decreases Pending(s, T)
  {
    if !HeadDue(s, T) {
    } else {
      FireHeadKeepsSteady(s, T);
      FireHeadKeepsOrder(s);
      FireHeadFits(s, T);
      SafeIffNextTimesFit(FireHead(s), T);
    }
  }
}
