/**
 * CBaseVideoRenderer's frame statistics: the running sums RecordFrameLateness keeps,
 * and the figures the quality property page reads from them.
 */
module FrameStats {
  import opened Words
  import opened Products
  import opened FrameStatistics
  import opened IntegerSqrt
  import opened ExtendedArithmetic

  /** How late a frame was and how long since the one before, in units of 100ns. */
  datatype Frame = Frame(trLate: int32, trFrame: int32)

  /** Lateness in milliseconds, at most a second either way. */
  function Lateness(f: Frame): int {
    var t := TruncDiv(f.trLate, 10000);
    if t > 1000 then 1000 else if t < -1000 then -1000 else t
  }

  function FrameTime(f: Frame): int {
    var t := TruncDiv(f.trFrame, 10000);
    if t > 1000 || t < 0 then 1000 else t
  }

  /** The observations a history of frames gives: lateness from the third frame on. */
  function LateObs(frames: seq<Frame>): seq<int>
  {
    if |frames| <= 2 then [] else LateObs(frames[..|frames| - 1]) + [Lateness(frames[|frames| - 1])]
  }

  /** Inter-frame times from the fourth frame on. */
  function TimeObs(frames: seq<Frame>): seq<int>
  {
    if |frames| <= 3 then [] else TimeObs(frames[..|frames| - 1]) + [FrameTime(frames[|frames| - 1])]
  }

  lemma {:induction false} LateObsWithin(frames: seq<Frame>)
    ensures Within(LateObs(frames), 1000) && |LateObs(frames)| == if |frames| <= 2 then 0 else |frames| - 2
    decreases |frames|
  {
    if |frames| <= 2 {
    } else {
      LateObsWithin(frames[..|frames| - 1]);
    }
  }

  lemma {:induction false} TimeObsWithin(frames: seq<Frame>)
    ensures Within(TimeObs(frames), 1000) && |TimeObs(frames)| == if |frames| <= 3 then 0 else |frames| - 3
    decreases |frames|
  {
    if |frames| <= 3 {
    } else {
      TimeObsWithin(frames[..|frames| - 1]);
    }
  }

  /** The value in a range that is nearest to t. */
  ghost predicate Nearest(v: int, t: int, low: int, high: int) {
    low <= v <= high && forall u :: low <= u <= high ==> Apart(t, v) <= Apart(t, u)
  }

  function Apart(t: int, u: int): nat { Abs(t - u) }

  lemma ClampedIsNearest(f: Frame)
    ensures Nearest(Lateness(f), TruncDiv(f.trLate, 10000), -1000, 1000)
    ensures var t := TruncDiv(f.trFrame, 10000);
      (0 <= t ==> Nearest(FrameTime(f), t, 0, 1000)) && (t < 0 ==> FrameTime(f) == 1000)
  {
    hide TruncDiv;
  }

  /**
   * The observations made of a history: the i-th lateness is that of frame i + 2 in milliseconds,
   * brought within a second of zero; the i-th inter-frame time is that of frame i + 3, or a second
   * when it is negative or longer.
   */
  lemma {:induction false} ObservationsAre(frames: seq<Frame>, i: nat)
    requires i + 2 < |frames|
    ensures i < |LateObs(frames)| && Nearest(LateObs(frames)[i], TruncDiv(frames[i + 2].trLate, 10000), -1000, 1000)
    ensures i + 3 < |frames| ==>
              && i < |TimeObs(frames)| && var t := TruncDiv(frames[i + 3].trFrame, 10000);
              && (0 <= t ==> Nearest(TimeObs(frames)[i], t, 0, 1000)) && (t < 0 ==> TimeObs(frames)[i] == 1000)
    decreases |frames|
  {
    hide TruncDiv, Nearest, Lateness, FrameTime, Within;
    var rest := frames[..|frames| - 1];
    LateObsWithin(rest);
    TimeObsWithin(rest);
    ClampedIsNearest(frames[|frames| - 1]);
    if i + 3 == |frames| {
    } else {
      ObservationsAre(rest, i);
    }
  }

  lemma LastSum(xs: seq<int>, x: int)
    ensures Sum(xs + [x]) == Sum(xs) + x && SumSq(xs + [x]) == SumSq(xs) + Square(x)
  {
  }

  /** What the deviation reported for some observations must be: 0 for none, else near the root of their variance. */
  ghost predicate Reports(result: int, xs: seq<int>) {
    if xs == [] then result == 0 else NearRoot(result, Variance(xs))
  }

  class CBaseVideoRenderer {
    var m_cFramesDrawn: int32
    var m_iTotAcc: int64
    var m_iSumSqAcc: int64
    var m_iSumSqFrameTime: int64
    var m_iSumFrameTime: int64
    var hasClock: bool
    ghost var frames: seq<Frame>

    ghost predicate Valid()
      reads this
    {
      && m_cFramesDrawn == |frames|
      && m_iTotAcc == Sum(LateObs(frames)) && m_iSumSqAcc == SumSq(LateObs(frames))
      && m_iSumFrameTime == Sum(TimeObs(frames)) && m_iSumSqFrameTime == SumSq(TimeObs(frames))
    }

    constructor ()
      ensures Valid() && frames == []
    {
      m_cFramesDrawn, m_iTotAcc, m_iSumSqAcc, m_iSumSqFrameTime, m_iSumFrameTime := 0, 0, 0, 0, 0;
      hasClock, frames := false, [];
    }

    method ResetStreamingTimes()
      modifies this
      ensures Valid() && frames == []
    {
      m_cFramesDrawn, m_iTotAcc, m_iSumSqAcc, m_iSumSqFrameTime, m_iSumFrameTime := 0, 0, 0, 0, 0;
      frames := [];
    }

    /** One more frame; no sum overflows while the count of frames fits its int. */
    method RecordFrameLateness(trLate: int32, trFrame: int32)
      requires Valid() && m_cFramesDrawn < 0x7FFF_FFFF
      modifies this
      ensures Valid() && frames == old(frames) + [Frame(trLate, trFrame)]
    {
      hide Square, Sum, SumSq, Within, TruncDiv;
      ghost var f := Frame(trLate, trFrame);
      assert (frames + [f])[..|frames|] == frames;
      var tLate := TruncDiv(trLate, 10000);
      if tLate > 1000 || tLate < -1000 {
        if m_cFramesDrawn <= 1 {
          tLate := 0;
        } else if tLate > 0 {
          tLate := 1000;
        } else {
          tLate := -1000;
        }
      }
      if m_cFramesDrawn > 1 {
        LateObsWithin(frames);
        AddObservation(LateObs(frames), tLate);
        m_iTotAcc := m_iTotAcc + tLate;
        m_iSumSqAcc := m_iSumSqAcc + Square(tLate);
      }
      if m_cFramesDrawn > 2 {
        var tFrame := TruncDiv(trFrame, 10000);
        if tFrame > 1000 || tFrame < 0 {
          tFrame := 1000;
        }
        TimeObsWithin(frames);
        AddObservation(TimeObs(frames), tFrame);
        m_iSumSqFrameTime := m_iSumSqFrameTime + Square(tFrame);
        m_iSumFrameTime := m_iSumFrameTime + tFrame;
      }
      m_cFramesDrawn := m_cFramesDrawn + 1;
      frames := frames + [f];
    }

    /** The standard deviation of the observations, given their sums and one more than their number. */
    method GetStdDev(nSamples: int32, llSumSq: int64, iTot: int64, ghost xs: seq<int>) returns (piResult: int32)
      requires Within(xs, 1000) && iTot == Sum(xs) && llSumSq == SumSq(xs)
      requires nSamples == |xs| + 1 || (nSamples <= 1 && xs == [])
      ensures if hasClock then Reports(piResult, xs) else piResult == 0
    {
      hide Mul, Square, Sum, SumSq, Within, Variance, Div, MulDiv, NearRoot;
      if !hasClock {
        return 0;
      }
      if nSamples <= 1 {
        return 0;
      }
      VarianceBounds(xs);
      var q := LlMulDiv(iTot, iTot, nSamples, 0);
      SquareOverCount(iTot, nSamples, q);
      var x: int64 := llSumSq - q;
      DeviationIs(xs, Div(x, nSamples - 1));
      x := Div(x, nSamples - 1);
      IsqrtIsNear(x);
      var root := Isqrt(x);
      piResult := root.value;
    }

    method get_DevSyncOffset() returns (piDev: int32)
      requires Valid()
      ensures if hasClock then Reports(piDev, LateObs(frames)) else piDev == 0
    {
      hide Reports, Sum, SumSq, Within;
      LateObsWithin(frames);
      NoLateObs(frames);
      piDev := GetStdDev(m_cFramesDrawn - 1, m_iSumSqAcc, m_iTotAcc, LateObs(frames));
    }

    method get_Jitter() returns (piJitter: int32)
      requires Valid()
      ensures if hasClock then Reports(piJitter, TimeObs(frames)) else piJitter == 0
    {
      hide Reports, Sum, SumSq, Within;
      TimeObsWithin(frames);
      piJitter := GetStdDev(m_cFramesDrawn - 2, m_iSumSqFrameTime, m_iSumFrameTime, TimeObs(frames));
    }

    /** The mean lateness with a zero counted in front; it is within a second. */
    method get_AvgSyncOffset() returns (piAvg: int32)
      requires Valid()
      ensures piAvg == if !hasClock || |frames| <= 1 then 0 else TruncDiv(Sum(LateObs(frames)), |frames| - 1)
      ensures -1000 <= piAvg <= 1000
    {
      hide Sum, Within, SumSq;
      if !hasClock || m_cFramesDrawn <= 1 {
        return 0;
      }
      LateObsWithin(frames);
      SumsBounded(LateObs(frames));
      MeanWithin(m_iTotAcc, m_cFramesDrawn - 1);
      piAvg := TruncDiv(m_iTotAcc, m_cFramesDrawn - 1);
    }
  }

  lemma NoLateObs(frames: seq<Frame>)
    ensures |frames| <= 2 ==> LateObs(frames) == []
  {
  }

  lemma MeanWithin(t: int, n: int)
    requires n > 0 && -1000 * n <= t <= 1000 * n
    ensures -1000 <= TruncDiv(t, n) <= 1000
  {
    assert Abs(t) / n == Div(Abs(t), n);
    DivAtMost(Abs(t), n, 1000);
    DivAtLeastZero(Abs(t), n);
  }

  lemma AddObservation(xs: seq<int>, x: int)
    requires Within(xs, 1000) && -1000 <= x <= 1000 && |xs| < 0x7FFF_FFFF
    ensures Sum(xs + [x]) == Sum(xs) + x && SumSq(xs + [x]) == SumSq(xs) + Square(x)
    ensures MIN64 <= Sum(xs) + x <= MAX64 && SumSq(xs) + Square(x) <= MAX64 && Square(x) <= 1000000
  {
    LastSum(xs, x);
    SumsBounded(xs);
    SquareAtMost(x, 1000);
    assert Square(1000) == 1000000;
  }

  /** llMulDiv(T, T, N, 0) is exact here although T * T may need more than 64 bits. */
  lemma SquareOverCount(t: int64, n: int32, q: int64)
    requires n >= 1 && q == MulDiv(t, t, n, 0)
    requires 0 <= Div(Square(t), n) <= MAX64
    ensures q == Div(Square(t), n)
  {
    hide Quotient64;
    assert TruncDiv(t * t + 0, n) == Div(Square(t), n);
    MulDivExactIffFits(t, t, n, 0);
  }

  lemma DeviationIs(xs: seq<int>, x: int)
    requires xs != [] && x == Div(SumSq(xs) - Div(Square(Sum(xs)), |xs| + 1), |xs|)
    ensures x == Variance(xs)
  {
  }
}
