/**
 * The parts of CBaseReferenceClock that drive CAMSchedule: the checks on a
 * request, and how long the advise thread sleeps after a wake-up.
 */
module ReferenceClock {
  import opened Words
  import opened RefTime
  import opened AdviseList
  import opened AdviseSchedule

  const UINT_MAX: int := 0xFFFF_FFFF

  datatype AdviseResult = Accepted(cookie: nat) | InvalidArgument

  /** Every periodic packet moves on when it fires, so dispatching to any time ends. */
  ghost predicate AlwaysSteady(list: seq<Packet>) { forall p :: p in list && p.periodic ==> p.period > 0 }

  lemma SteadyAtAnyTime(list: seq<Packet>, T: int)
    requires AlwaysSteady(list)
    ensures AllSteady(list, T)
  {
    assert forall i :: 0 <= i < |list| ==> list[i] in list;
  }

  lemma {:induction false} InsertKeepsSteady(list: seq<Packet>, p: Packet)
    requires AlwaysSteady(list) && (p.periodic ==> p.period > 0)
    ensures AlwaysSteady(InsertNew(list, p))
  {
    if list == [] || p.time <= list[0].time {
    } else {
      InsertKeepsSteady(list[1..], p);
    }
  }

  /** A refused request leaves everything as it was. */
  twostate predicate Unchanged(schedule: CAMSchedule)
    reads schedule
  {
    && schedule.List == old(schedule.List) && schedule.nextCookie == old(schedule.nextCookie)
    && schedule.log == old(schedule.log) && schedule.triggers == old(schedule.triggers)
    && schedule.spine == old(schedule.spine) && schedule.cached == old(schedule.cached)
  }

  /** An accepted one is listed under a new cookie, wakes the advise thread if it comes first, and fires nothing. */
  twostate predicate Listed(schedule: CAMSchedule, time: int, period: int, handle: int, periodic: bool)
    reads schedule
  {
    && schedule.nextCookie == old(schedule.nextCookie) + 1
    && schedule.List == InsertNew(old(schedule.List), Packet(schedule.nextCookie, time, period, handle, periodic))
    && schedule.log == old(schedule.log)
    && schedule.List != []
    && schedule.triggers == old(schedule.triggers) + if schedule.List[0].cookie == schedule.nextCookie then 1 else 0
  }

  /** A single event at baseTime + streamTime; the sum wraps as a 64-bit value. */
  method AdviseTime(schedule: CAMSchedule, baseTime: int64, streamTime: int64, hEvent: int) returns (r: AdviseResult)
    requires schedule.Valid()
    modifies schedule, schedule.spine, schedule.cached
    ensures schedule.Valid() && (AlwaysSteady(old(schedule.List)) ==> AlwaysSteady(schedule.List))
    ensures var t := ToS64(baseTime + streamTime);
      if 0 < t < MAX_TIME then r == Accepted(schedule.nextCookie) && Listed(schedule, t, 0, hEvent, false)
      else r == InvalidArgument && Unchanged(schedule)
  {
    var lRefTime := ToS64(baseTime + streamTime);
    if lRefTime <= 0 || lRefTime == MAX_TIME {
      r := InvalidArgument;
    } else {
      InsertKeepsSteadyNext(schedule.List, Packet(schedule.nextCookie + 1, lRefTime, 0, hEvent, false));
      var cookie := schedule.AddAdvisePacket(lRefTime, 0, hEvent, false);
      r := Accepted(cookie);
    }
  }

  lemma InsertKeepsSteadyNext(list: seq<Packet>, p: Packet)
    requires p.periodic ==> p.period > 0
    ensures AlwaysSteady(list) ==> AlwaysSteady(InsertNew(list, p))
    ensures InsertNew(list, p) != []
  {
    if AlwaysSteady(list) {
      InsertKeepsSteady(list, p);
    }
  }

  /** A repeating event; only positive periods get through. */
  method AdvisePeriodic(schedule: CAMSchedule, startTime: int64, periodTime: int64, hSemaphore: int)
    returns (r: AdviseResult)
    requires schedule.Valid()
    modifies schedule, schedule.spine, schedule.cached
    ensures schedule.Valid() && (AlwaysSteady(old(schedule.List)) ==> AlwaysSteady(schedule.List))
    ensures
      if 0 < startTime < MAX_TIME && periodTime > 0 then
        r == Accepted(schedule.nextCookie) && Listed(schedule, startTime, periodTime, hSemaphore, true)
      else
        r == InvalidArgument && Unchanged(schedule)
  {
    if startTime > 0 && periodTime > 0 && startTime != MAX_TIME {
      InsertKeepsSteadyNext(schedule.List, Packet(schedule.nextCookie + 1, startTime, periodTime, hSemaphore, true));
      var cookie := schedule.AddAdvisePacket(startTime, periodTime, hSemaphore, true);
      r := Accepted(cookie);
    } else {
      r := InvalidArgument;
    }
  }

  lemma {:induction false} DispatchKeepsSteady(list: seq<Packet>, T: int)
    requires AlwaysSteady(list)
    ensures AllSteady(list, T) && AlwaysSteady(Run(list, T).1)
    decreases if AllSteady(list, T) then Pending(list, T) else 0
  {
    SteadyAtAnyTime(list, T);
    if !HeadDue(list, T) {
    } else {
      FireHeadKeepsSteady(list, T);
      FireHeadAlwaysSteady(list);
      DispatchKeepsSteady(FireHead(list), T);
    }
  }

  lemma FireHeadAlwaysSteady(list: seq<Packet>)
    requires AlwaysSteady(list) && list != []
    ensures AlwaysSteady(FireHead(list))
  {
    if list[0].periodic {
      var k := ShuntPosition(list[1..], Later(list[0]));
      assert list[0] in list;
      assert forall p :: p in list[1..] ==> p in list;
    }
  }

  /** The time of the next event, or the sentinel's. */
  function NextEvent(list: seq<Packet>): int { if list == [] then MAX_TIME else list[0].time }

  /**
   * One wake-up of the advise thread at time rtNow: everything due within the next millisecond
   * is dispatched, unless that faults. Short of the ends of the 64-bit range the wait that
   * follows is never zero, so the thread cannot spin, and never runs past the next event.
   */
  method AdviseThreadWake(schedule: CAMSchedule, rtNow: int64) returns (dwWait: uint32, fault: bool)
    requires schedule.Valid() && AllSteady(schedule.List, ToS64(MILLISECOND + rtNow))
    modifies schedule, schedule.spine
    ensures schedule.Valid()
    ensures fault <==> !NextTimesFit(old(schedule.List), ToS64(MILLISECOND + rtNow))
    ensures !fault ==> schedule.List == Run(old(schedule.List), ToS64(MILLISECOND + rtNow)).1
    ensures !fault && AlwaysSteady(old(schedule.List)) ==> AlwaysSteady(schedule.List)
    ensures !fault ==> schedule.log == old(schedule.log) + Run(old(schedule.List), ToS64(MILLISECOND + rtNow)).0
    ensures !fault && MILLISECOND + rtNow < MAX_TIME && NextEvent(schedule.List) - rtNow <= MAX64 ==>
              && 1 <= dwWait
              && rtNow + dwWait * MILLISECOND <= NextEvent(schedule.List)
              && (dwWait < UINT_MAX ==> NextEvent(schedule.List) < rtNow + (dwWait + 1) * MILLISECOND)
  {
    hide Run, NextTimesFit;
    var due := ToS64(MILLISECOND + rtNow);
    assert MILLISECOND + rtNow < MAX_TIME ==> due == MILLISECOND + rtNow by {
      if MILLISECOND + rtNow < MAX_TIME {
        SignedFits(MILLISECOND + rtNow);
      }
    }
    assert due <= MAX_TIME;
    if AlwaysSteady(schedule.List) {
      DispatchKeepsSteady(schedule.List, due);
    }
    var rtNextAdvise;
    rtNextAdvise, fault := schedule.Advise(due);
    dwWait := 0;
    if !fault {
      dwWait := WaitFor(rtNextAdvise, rtNow);
    }
  }

  /** The wait in milliseconds until a time more than a millisecond ahead, cut off at UINT_MAX. */
  method WaitFor(rtNextAdvise: int, rtNow: int64) returns (dwWait: uint32)
    ensures MILLISECOND < rtNextAdvise - rtNow <= MAX64 ==>
              && 1 <= dwWait
              && rtNow + dwWait * MILLISECOND <= rtNextAdvise
              && (dwWait < UINT_MAX ==> rtNextAdvise < rtNow + (dwWait + 1) * MILLISECOND)
  {
    var llWait := ToS64(rtNextAdvise - rtNow);
    llWait := TruncDiv(llWait, MILLISECOND);
    dwWait := if llWait > UINT_MAX then UINT_MAX else ToU32(llWait);
  }
}
