/**
 * CBaseReferenceClock's own time: milliseconds from a 32-bit system timer, extended
 * to 64 bits, adjusted by deltas, and never reported to go backwards.
 */
module ClockTime {
  import opened Wrappers
  import opened Sequences
  import opened Words
  import opened RefTime

  datatype Clock = Clock(
    privateTime: int,       // m_rtPrivateTime
    prevSystem: uint32,     // m_dwPrevSystemTime
    lastGot: int            // m_rtLastGotTime
  )

  /** Int32x32To64 multiplies its arguments as signed 32-bit values, so the elapsed time is read as one. */
  function Advanced(c: Clock, dwTime: uint32): Clock {
    c.(privateTime := c.privateTime + MILLISECOND * ToS32(ToU32(dwTime - c.prevSystem)), prevSystem := dwTime)
  }

  function Shifted(c: Clock, delta: int): Clock { c.(privateTime := c.privateTime + delta) }

  function Restarted(c: Clock, minTime: int): Clock { c.(lastGot := minTime) }

  function Got(c: Clock): Clock { c.(lastGot := if c.privateTime > c.lastGot then c.privateTime else c.lastGot) }

  class CBaseReferenceClock {
    var m_rtPrivateTime: int
    var m_dwPrevSystemTime: uint32
    var m_rtLastGotTime: int

    function State(): Clock
      reads this
    {
      Clock(m_rtPrivateTime, m_dwPrevSystemTime, m_rtLastGotTime)
    }

    constructor (dwTime: uint32)
      ensures State() == Clock(MILLISECOND * dwTime, dwTime, 0)
    {
      m_rtPrivateTime, m_dwPrevSystemTime, m_rtLastGotTime := MILLISECOND * dwTime, dwTime, 0;
    }

    method GetPrivateTime(dwTime: uint32) returns (rt: int)
      modifies this
      ensures State() == Advanced(old(State()), dwTime) && rt == m_rtPrivateTime
    {
      m_rtPrivateTime := m_rtPrivateTime + MILLISECOND * ToS32(ToU32(dwTime - m_dwPrevSystemTime));
      m_dwPrevSystemTime := dwTime;
      rt := m_rtPrivateTime;
    }

    method SetTimeDelta(timeDelta: int)
      modifies this
      ensures State() == Shifted(old(State()), timeDelta)
    {
      m_rtPrivateTime := m_rtPrivateTime + timeDelta;
    }

    /** Sets the least time to be reported from here on. */
    method Restart(rtMinTime: int)
      modifies this
      ensures State() == Restarted(old(State()), rtMinTime)
    {
      m_rtLastGotTime := rtMinTime;
    }

    /** The time, and whether it has moved on since it was last asked for (S_OK rather than S_FALSE). */
    method GetTime(dwTime: uint32) returns (rt: int, moved: bool)
      modifies this
      ensures State() == Got(Advanced(old(State()), dwTime)) && rt == m_rtLastGotTime >= old(m_rtLastGotTime)
      ensures moved == (rt > old(m_rtLastGotTime))
    {
      var rtNow := GetPrivateTime(dwTime);
      moved := rtNow > m_rtLastGotTime;
      if moved {
        m_rtLastGotTime := rtNow;
      }
      rt := m_rtLastGotTime;
    }
  }

  // ---- Runs ----

  /** What is asked of the clock, with the true time in milliseconds at which a reading is taken. */
  datatype Ask = Private(ms: nat) | Time(ms: nat) | Delta(delta: int) | Restart(minTime: int)

  /** Whether it reads the timer. */
  predicate Reads(a: Ask) { a.Private? || a.Time? }

  function Apply(c: Clock, a: Ask): Clock {
    match a
    case Private(ms) => Advanced(c, ToU32(ms))
    case Time(ms) => Got(Advanced(c, ToU32(ms)))
    case Delta(delta) => Shifted(c, delta)
    case Restart(minTime) => Restarted(c, minTime)
  }

  function Run(c: Clock, asks: seq<Ask>): Clock
    decreases |asks|
  {
    if asks == [] then c else Run(Apply(c, asks[0]), asks[1..])
  }

  /** The true time of the last reading. */
  function Now(start: nat, asks: seq<Ask>): nat
    decreases |asks|
  {
    if asks == [] then start else Now(if Reads(asks[0]) then asks[0].ms else start, asks[1..])
  }

  /** Readings are taken in order of true time. */
  predicate Forward(start: nat, asks: seq<Ask>)
    decreases |asks|
  {
    asks == [] ||
    if Reads(asks[0]) then start <= asks[0].ms && Forward(asks[0].ms, asks[1..]) else Forward(start, asks[1..])
  }

  /** No two successive readings are 2^31 milliseconds (about 24.8 days) or more apart. */
  predicate Close(start: nat, asks: seq<Ask>)
    decreases |asks|
  {
    asks == [] ||
    if Reads(asks[0]) then asks[0].ms - start < 0x8000_0000 && Close(asks[0].ms, asks[1..]) else Close(start, asks[1..])
  }

  function Deltas(asks: seq<Ask>): int {
    if asks == [] then 0 else (if asks[0].Delta? then asks[0].delta else 0) + Deltas(asks[1..])
  }

  /** A step's share of the elapsed time: all of it below 2^31 milliseconds, and less beyond. */
  lemma ElapsedRead(start: nat, ms: nat)
    requires start <= ms
    ensures var read := ToS32(ToU32(ToU32(ms) - ToU32(start)));
      read <= ms - start && (read == ms - start <==> ms - start < 0x8000_0000)
  {
  }

  /**
   * Over any run the clock stands at its start plus the true time elapsed and the deltas applied,
   * the timer's wrap every 49.7 days notwithstanding, exactly when no two successive readings were
   * 2^31 milliseconds or more apart; otherwise it has fallen behind.
   */
  lemma {:induction false} PrivateTimeExact(c: Clock, start: nat, asks: seq<Ask>)
    requires c.prevSystem == ToU32(start) && Forward(start, asks)
    ensures var exact := c.privateTime + MILLISECOND * (Now(start, asks) - start) + Deltas(asks);
      && Run(c, asks).privateTime <= exact
      && (Run(c, asks).privateTime == exact <==> Close(start, asks))
      && Run(c, asks).prevSystem == ToU32(Now(start, asks))
    decreases |asks|
  {
    hide ToS32, ToU32;
    if asks == [] {
    } else {
      if Reads(asks[0]) {
        ElapsedRead(start, asks[0].ms);
        PrivateTimeExact(Apply(c, asks[0]), asks[0].ms, asks[1..]);
      } else {
        PrivateTimeExact(Apply(c, asks[0]), start, asks[1..]);
      }
    }
  }

  /** The times GetTime returns in a run. */
  function Reports(c: Clock, asks: seq<Ask>): seq<int>
    decreases |asks|
  {
    if asks == [] then []
    else
      var r := Apply(c, asks[0]);
      (if asks[0].Time? then [r.lastGot] else []) + Reports(r, asks[1..])
  }

  ghost predicate NonDecreasing(xs: seq<int>) { forall i, j :: 0 <= i < j < |xs| ==> xs[i] <= xs[j] }

  lemma NonDecreasingCons(x: int, y: int, rest: seq<int>)
    ensures NonDecreasing([x] + ([y] + rest)) <==> x <= y && NonDecreasing([y] + rest)
  {
    var ys := [y] + rest;
    var xs := [x] + ys;
    assert forall i :: 0 <= i < |ys| ==> ys[i] == xs[i + 1];
    if x <= y && NonDecreasing(ys) {
      assert forall i :: 0 < i < |ys| ==> ys[0] <= ys[i];
    }
    if NonDecreasing(xs) {
      assert xs[0] <= xs[1];
    }
  }

  /** What the clock itself stands at when GetTime is next asked, unless a Restart comes first. */
  function NextReading(c: Clock, asks: seq<Ask>): Option<int>
    decreases |asks|
  {
    if asks == [] || asks[0].Restart? then None
    else if asks[0].Time? then Some(Apply(c, asks[0]).privateTime)
    else NextReading(Apply(c, asks[0]), asks[1..])
  }

  /** Neither the least time to be reported nor the clock as it is next read is short of t. */
  predicate Reaches(c: Clock, t: int, asks: seq<Ask>) {
    c.lastGot >= t || NextReading(c, asks).None? || NextReading(c, asks).value >= t
  }

  /** At each Restart, its own time or the clock as it is next read reaches what was reported last. */
  predicate RestartsReach(c: Clock, last: int, asks: seq<Ask>)
    decreases |asks|
  {
    asks != [] ==>
      var r := Apply(c, asks[0]);
      && (asks[0].Restart? ==> Reaches(r, last, asks[1..]))
      && RestartsReach(r, if asks[0].Time? then r.lastGot else last, asks[1..])
  }

  /**
   * Over any run, whatever deltas are applied and however the timer wraps, the times reported
   * after `last` never go back exactly when every Restart reaches what was reported before it.
   */
  lemma {:induction false} ReportedTimeMonotonic(c: Clock, last: int, asks: seq<Ask>)
    requires c.lastGot == last
    ensures NonDecreasing([last] + Reports(c, asks)) <==> RestartsReach(c, last, asks)
    ensures (forall a :: a in asks ==> !a.Restart?) ==> NonDecreasing([last] + Reports(c, asks))
  {
    ReportsFrom(c, last, asks);
    if forall a :: a in asks ==> !a.Restart? {
      NoRestarts(c, last, asks);
    }
  }

  lemma {:induction false} NoRestarts(c: Clock, last: int, asks: seq<Ask>)
    requires forall a :: a in asks ==> !a.Restart?
    ensures RestartsReach(c, last, asks)
    decreases |asks|
  {
    hide Apply;
    if asks == [] {
    } else {
      assert asks[0] in asks && forall a :: a in asks[1..] ==> a in asks;
      var r := Apply(c, asks[0]);
      NoRestarts(r, if asks[0].Time? then r.lastGot else last, asks[1..]);
    }
  }

  /** The same with a Restart behind it, which the next reading has yet to face. */
  lemma {:induction false} ReportsFrom(c: Clock, last: int, asks: seq<Ask>)
    ensures NonDecreasing([last] + Reports(c, asks)) <==> Reaches(c, last, asks) && RestartsReach(c, last, asks)
    decreases |asks|
  {
    hide ToS32, ToU32, NonDecreasing;
    if asks == [] {
      OneIsOrdered(last);
    } else {
      var r := Apply(c, asks[0]);
      var rest := Reports(r, asks[1..]);
      EmptyIsUnit(rest);
      if asks[0].Time? {
        ReportsFrom(r, r.lastGot, asks[1..]);
        NonDecreasingCons(last, r.lastGot, rest);
      } else {
        ReportsFrom(r, last, asks[1..]);
      }
    }
  }

  lemma OneIsOrdered(x: int)
    ensures NonDecreasing([x] + [])
  {
  }

  /** A Restart lets a later reading be earlier than the last one exactly when it asks for less: some delta may then take the clock below it. */
  lemma {:induction false} RestartMayGoBackIff(c: Clock, minTime: int)
    ensures (exists delta, ms: nat :: GoesBack(c, minTime, delta, ms)) <==> minTime < c.lastGot
  {
    hide ToS32, ToU32;
    if minTime < c.lastGot {
      var p := Run(c, [Private(0)]).privateTime;
      var delta := minTime - p;
      DeltaShifts(c, minTime, delta, 0);
      assert GoesBack(c, minTime, delta, 0);
    } else {
      forall delta, ms: nat
        ensures !GoesBack(c, minTime, delta, ms)
      {
        DeltaShifts(c, minTime, delta, ms);
      }
    }
  }

  /** The reading after this Restart and this delta is earlier than the last one. */
  predicate GoesBack(c: Clock, minTime: int, delta: int, ms: nat) {
    Run(c, [Restart(minTime), Delta(delta), Time(ms)]).lastGot < c.lastGot
  }

  lemma DeltaShifts(c: Clock, minTime: int, delta: int, ms: nat)
    ensures var p := Run(c, [Private(ms)]).privateTime + delta;
      Run(c, [Restart(minTime), Delta(delta), Time(ms)]).lastGot == if p > minTime then p else minTime
  {
    hide ToS32, ToU32;
    var asks := [Restart(minTime), Delta(delta), Time(ms)];
    assert asks[1..] == [Delta(delta), Time(ms)] && asks[1..][1..] == [Time(ms)] && asks[1..][1..][1..] == [];
    assert [Private(ms)][1..] == [];
    assert Run(c, [Private(ms)]) == Run(Apply(c, Private(ms)), []);
    var r := Apply(Apply(c, asks[0]), asks[1]);
    assert Run(c, asks) == Run(Apply(c, asks[0]), asks[1..]) == Run(r, [Time(ms)]) == Run(Apply(r, Time(ms)), []);
  }

  /** After a Restart the next reading is earlier than the last exactly when both its argument and the clock itself are. */
  lemma {:induction false} RestartGoesBackIff(c: Clock, minTime: int, ms: nat)
    ensures Run(c, [Restart(minTime), Time(ms)]).lastGot < c.lastGot <==>
            minTime < c.lastGot && Run(c, [Private(ms)]).privateTime < c.lastGot
  {
    hide ToS32, ToU32;
    var asks := [Restart(minTime), Time(ms)];
    assert asks[1..] == [Time(ms)] && [Time(ms)][1..] == [] && [Private(ms)][1..] == [];
    assert Run(c, [Private(ms)]) == Run(Apply(c, Private(ms)), []);
    assert Run(c, asks) == Run(Apply(c, asks[0]), [Time(ms)]) == Run(Apply(Apply(c, asks[0]), Time(ms)), []);
  }

  /** Readings 2^31 milliseconds apart take the clock back by as much as it should have gone forward. */
  lemma {:induction false} LongGapGoesBack()
    ensures Run(Clock(0, 0, 0), [Private(0x8000_0000)]).privateTime == -MILLISECOND * 0x8000_0000
  {
  }
}
