/**
 * CPullPin: reading a range in aligned, pipelined pieces. The alignment masks, the
 * loops of Process with whatever the allocator, reader and downstream filter answer,
 * and what the delivered samples cover.
 */
module PullPin {
  import opened Words
  import opened RefTime

  // ---- Alignment ----

  /** x & ~m for non-negative x and m, bit by bit. */
  function AndNot(x: nat, m: nat): (r: nat)
    decreases x
  {
    if x == 0 then 0 else (if x % 2 == 1 && m % 2 == 0 then 1 else 0) + 2 * AndNot(x / 2, m / 2)
  }

  function AlignDown(ll: nat, lAlign: nat): nat
    requires lAlign >= 1
  {
    AndNot(ll, lAlign - 1)
  }

  function AlignUp(ll: nat, lAlign: nat): nat
    requires lAlign >= 1
  {
    AndNot(ll + (lAlign - 1), lAlign - 1)
  }

  lemma {:induction false} MaskIsRemainder(x: nat, k: nat)
    ensures AndNot(x, Pow2(k) - 1) == x - x % Pow2(k)
    decreases k
  {
    hide AndNot;
    if k == 0 {
      MaskNothing(x);
    } else {
      var p := Pow2(k - 1);
      MaskIsRemainder(x / 2, k - 1);
      HalfRemainder(x, p);
      LastBitMasked(x, p);
    }
  }

  /** A mask of the low bits takes the last bit off, and the rest of them off the half. */
  lemma LastBitMasked(x: nat, p: nat)
    requires p >= 1
    ensures AndNot(x, 2 * p - 1) == 2 * AndNot(x / 2, p - 1)
  {
    assert (2 * p - 1) / 2 == p - 1 && (2 * p - 1) % 2 == 1;
  }

  lemma {:induction false} MaskNothing(x: nat)
    ensures AndNot(x, 0) == x
    decreases x
  {
    if x == 0 {
    } else {
      MaskNothing(x / 2);
    }
  }

  lemma HalfRemainder(x: nat, p: nat)
    requires p >= 1
    ensures x - x % (2 * p) == 2 * (x / 2 - x / 2 % p)
  {
    DivModDefinition(x / 2, p);
    var q, r := x / 2 / p, x / 2 % p;
    assert q * (2 * p) == 2 * (q * p);
    DivUnique(x, 2 * p, q, 2 * r + x % 2);
  }

  ghost predicate Multiple(t: int, a: int)
    requires a > 0
  {
    t % a == 0
  }

  /** With an alignment that is a power of two, the masks give the nearest multiple not above, and not below. */
  lemma {:induction false} MasksAlign(ll: nat, k: nat)
    ensures var a := Pow2(k);
      && Multiple(AlignDown(ll, a), a) && AlignDown(ll, a) <= ll < AlignDown(ll, a) + a
      && Multiple(AlignUp(ll, a), a) && AlignUp(ll, a) - a < ll <= AlignUp(ll, a)
  {
    hide AndNot, Multiple;
    MaskRoundsDown(ll, k);
    MaskRoundsDown(ll + (Pow2(k) - 1), k);
  }

  lemma MaskRoundsDown(x: nat, k: nat)
    ensures var y := AndNot(x, Pow2(k) - 1); Multiple(y, Pow2(k)) && y <= x < y + Pow2(k)
  {
    hide AndNot;
    MaskIsRemainder(x, k);
    RemainderOff(x, Pow2(k));
  }

  lemma RemainderOff(x: nat, a: nat)
    requires a >= 1
    ensures (x - x % a) % a == 0 && 0 <= x % a < a
  {
    DivModDefinition(x, a);
    DivUnique(x - x % a, a, x / a, 0);
  }

  lemma MultipleSum(x: int, y: int, a: int)
    requires a > 0 && Multiple(x, a) && Multiple(y, a)
    ensures Multiple(x + y, a) && Multiple(x - y, a)
  {
    DivModDefinition(x, a);
    DivModDefinition(y, a);
    assert (x / a + y / a) * a == x / a * a + y / a * a;
    assert (x / a - y / a) * a == x / a * a - y / a * a;
    DivUnique(x + y, a, x / a + y / a, 0);
    DivUnique(x - y, a, x / a - y / a, 0);
  }

  /** Two different multiples are at least one alignment apart. */
  lemma MultiplesApart(x: int, y: int, a: int)
    requires a > 0 && Multiple(x, a) && Multiple(y, a) && x < y
    ensures x + a <= y
  {
    MultipleSum(y, x, a);
    DivModDefinition(y - x, a);
    MulAtLeast((y - x) / a, a) by {
      if (y - x) / a < 1 {
        NotPositive((y - x) / a, a);
      }
    }
  }

  lemma NotPositive(q: int, a: int)
    requires q <= 0 && a > 0
    ensures q * a <= 0
  {
  }

  lemma MultipleScaled(x: int, a: int, u: int)
    requires a > 0 && u > 0 && Multiple(x, a)
    ensures a * u > 0 && Multiple(x * u, a * u)
  {
    DivModDefinition(x, a);
    assert x * u == x / a * (a * u);
    DivUnique(x * u, a * u, x / a, 0);
  }

  // ---- Samples ----

  datatype Span = Span(t1: int, t2: int)

  /** A media sample with its times, and the size of its buffer. */
  datatype Sample = Sample(span: Span, discontinuity: bool, size: nat)

  /** One piece after another, each with something in it, starting at a. */
  ghost predicate Chain(xs: seq<Span>, a: int) {
    && (xs != [] ==> xs[0].t1 == a)
    && (forall i :: 0 <= i < |xs| ==> xs[i].t1 < xs[i].t2)
    && (forall i {:trigger xs[i].t2} :: 0 <= i < |xs| - 1 ==> xs[i].t2 == xs[i + 1].t1)
  }

  function End(xs: seq<Span>, a: int): int { if xs == [] then a else xs[|xs| - 1].t2 }

  /** Pieces of a chain come in order. */
  lemma {:induction false} ChainSorted(xs: seq<Span>, a: int, i: nat, j: nat)
    requires Chain(xs, a) && i < j < |xs|
    ensures xs[i].t2 <= xs[j].t1
    decreases j
  {
    assert xs[j - 1].t2 == xs[j - 1 + 1].t1;
    if i == j - 1 {
    } else {
      ChainSorted(xs, a, i, j - 1);
    }
  }

  lemma {:induction false} PieceAt(xs: seq<Span>, a: int, t: int, n: nat) returns (i: nat)
    requires Chain(xs, a) && 0 < n <= |xs| && a <= t < xs[n - 1].t2
    ensures i < n && xs[i].t1 <= t < xs[i].t2
    decreases n
  {
    if t >= xs[n - 1].t1 {
      return n - 1;
    }
    assert n > 1 && xs[n - 2].t2 == xs[n - 2 + 1].t1;
    i := PieceAt(xs, a, t, n - 1);
  }

  /** A chain covers its range with no gap and no overlap: every moment is in one piece, and in no other. */
  lemma {:induction false} ChainCovers(xs: seq<Span>, a: int, t: int) returns (i: nat)
    requires Chain(xs, a) && a <= t < End(xs, a)
    ensures i < |xs| && xs[i].t1 <= t < xs[i].t2
    ensures forall j :: 0 <= j < |xs| && j != i ==> !(xs[j].t1 <= t < xs[j].t2)
  {
    i := PieceAt(xs, a, t, |xs|);
    forall j | 0 <= j < |xs| && j != i
      ensures !(xs[j].t1 <= t < xs[j].t2)
    {
      if j < i {
        ChainSorted(xs, a, j, i);
      } else {
        ChainSorted(xs, a, i, j);
      }
    }
  }

  /** DeliverSample's times: cut at the real stop, and relative to the aligned start. */
  function Fixed(x: Span, tStart: int, tStop: int): Span {
    Span(x.t1 - tStart, (if x.t2 > tStop then tStop else x.t2) - tStart)
  }

  function FixedAll(xs: seq<Span>, tStart: int, tStop: int): (r: seq<Span>)
    ensures |r| == |xs| && forall i :: 0 <= i < |xs| ==> r[i] == Fixed(xs[i], tStart, tStop)
  {
    if xs == [] then [] else FixedAll(xs[..|xs| - 1], tStart, tStop) + [Fixed(xs[|xs| - 1], tStart, tStop)]
  }

  // ---- The range read ----

  function AlignedStart(m_tStart: nat, cbAlign: nat): int
    requires cbAlign >= 1
  {
    AlignDown(m_tStart / UNITS, cbAlign) * UNITS
  }

  function AlignedStop(tStop: nat, cbAlign: nat): int
    requires cbAlign >= 1
  {
    AlignUp(tStop / UNITS, cbAlign) * UNITS
  }

  /** Where the aligned range lies about the range asked for. */
  lemma AlignedRange(x: nat, k: nat)
    ensures var a := Pow2(k);
      var A := a * UNITS;
      && A > 0 && Multiple(AlignedStart(x, a), A) && Multiple(AlignedStop(x, a), A)
      && AlignedStart(x, a) <= x < AlignedStart(x, a) + A
      && x - UNITS < AlignedStop(x, a) < x + A && UNITS <= A
      && (AlignedStop(x, a) >= x <==> x % UNITS == 0 || x / UNITS % a != 0)
  {
    hide AlignDown, AlignUp, Multiple, Pow2;
    var a, b := Pow2(k), x / UNITS;
    MasksAlign(b, k);
    MultipleScaled(AlignDown(b, a), a, UNITS);
    MultipleScaled(AlignUp(b, a), a, UNITS);
    RoundedUp(b, AlignUp(b, a), a);
  }

  /** A value rounded up is itself exactly when it is a multiple already. */
  lemma RoundedUp(b: int, up: int, a: int)
    requires a > 0 && Multiple(up, a) && up - a < b <= up
    ensures up == b <==> b % a == 0
  {
    if b % a == 0 && b < up {
      MultiplesApart(b, up, a);
    }
  }

  /** The pieces requested, as Process must have left them when it reports the end of the stream. */
  ghost predicate Complete(reqs: seq<Span>, start: int, stop: int, A: int)
    requires A > 0
  {
    && Chain(reqs, start)
    && (forall i :: 0 <= i < |reqs| ==> Multiple(reqs[i].t1, A) && reqs[i].t2 <= stop)
    && End(reqs, start) == if start < stop then stop else start
  }

  /**
   * When the end of the stream is reported, the times delivered run from 0 to tStop - tStart with
   * no gap or overlap, exactly when the stop is a whole number of bytes or falls inside an
   * aligned block. Otherwise the fraction of a byte past the last block is not delivered.
   */
  lemma {:induction false} DeliveredTimesTile(m_tStart: nat, tStop: nat, k: nat, reqs: seq<Span>)
    requires AlignedStart(m_tStart, Pow2(k)) < tStop
    requires Pow2(k) * UNITS > 0
    requires Complete(reqs, AlignedStart(m_tStart, Pow2(k)), AlignedStop(tStop, Pow2(k)), Pow2(k) * UNITS)
    ensures var start := AlignedStart(m_tStart, Pow2(k));
      var d := FixedAll(reqs, start, tStop);
      && Chain(d, 0)
      && (End(d, 0) == tStop - start <==> tStop % UNITS == 0 || tStop / UNITS % Pow2(k) != 0)
  {
    var a := Pow2(k);
    var A := a * UNITS;
    var start, stop := AlignedStart(m_tStart, a), AlignedStop(tStop, a);
    AlignedRange(m_tStart, k);
    AlignedRange(tStop, k);
    hide AlignedStart, AlignedStop, Pow2, Multiple;
    if stop < start {
      MultiplesApart(stop, start, A);
    }
    FixedChain(reqs, start, stop, tStop, A);
  }

  lemma FixedChain(reqs: seq<Span>, start: int, stop: int, tStop: int, A: int)
    requires A > 0 && Complete(reqs, start, stop, A) && Multiple(stop, A)
    requires start < tStop && start <= stop < tStop + A
    ensures var d := FixedAll(reqs, start, tStop);
      Chain(d, 0) && (End(d, 0) == tStop - start <==> stop >= tStop)
  {
    hide Multiple, FixedAll;
    StartsBeforeStop(reqs, start, stop, tStop, A);
    FixedKeepsChain(reqs, start, tStop);
  }

  /** Cutting a chain at a stop inside its last piece, or past it, leaves a chain. */
  lemma FixedKeepsChain(xs: seq<Span>, start: int, tStop: int)
    requires Chain(xs, start)
    requires forall i :: 0 <= i < |xs| ==> xs[i].t1 < tStop && (i < |xs| - 1 ==> xs[i].t2 < tStop)
    ensures Chain(FixedAll(xs, start, tStop), 0)
  {
    hide FixedAll;
    var d := FixedAll(xs, start, tStop);
    forall i {:trigger d[i].t2} | 0 <= i < |d| - 1
      ensures d[i].t2 == d[i + 1].t1
    {
      assert xs[i].t2 == xs[i + 1].t1;
    }
  }

  /** Every piece begins before the real stop, so only the last can reach past it. */
  lemma StartsBeforeStop(reqs: seq<Span>, start: int, stop: int, tStop: int, A: int)
    requires A > 0 && Complete(reqs, start, stop, A) && Multiple(stop, A) && stop < tStop + A
    ensures forall i :: 0 <= i < |reqs| ==> reqs[i].t1 < tStop && (i < |reqs| - 1 ==> reqs[i].t2 < tStop)
  {
    hide Multiple;
    forall i | 0 <= i < |reqs|
      ensures reqs[i].t1 < tStop && (i < |reqs| - 1 ==> reqs[i].t2 < tStop)
    {
      MultiplesApart(reqs[i].t1, stop, A);
      if i < |reqs| - 1 {
        assert reqs[i].t2 == reqs[i + 1].t1;
        MultiplesApart(reqs[i + 1].t1, stop, A);
      }
    }
  }

  /**
   * Byte alignment, and a stop one unit past a byte: the aligned range ends a unit short of the
   * stop, so no complete run delivers that last fraction.
   */
  lemma {:induction false} FractionNotDelivered(reqs: seq<Span>)
    requires Complete(reqs, 0, UNITS, UNITS)
    ensures AlignedStart(0, 1) == 0 && AlignedStop(UNITS + 1, 1) == UNITS
    ensures End(FixedAll(reqs, 0, UNITS + 1), 0) == UNITS < UNITS + 1
  {
    ByteAlignment();
    hide AlignedStart, AlignedStop, Chain, Multiple;
    assert reqs != [];
  }

  lemma ByteAlignment()
    ensures AlignedStart(0, 1) == 0 && AlignedStop(UNITS + 1, 1) == UNITS
  {
    hide AndNot;
    MaskNothing(0);
    MaskNothing(1);
  }

  /** There is such a run: one request for the one byte. */
  lemma {:induction false} FractionRunExists()
    ensures Complete([Span(0, UNITS)], AlignedStart(0, 1), AlignedStop(UNITS + 1, 1), UNITS)
  {
    ByteAlignment();
    hide AlignedStart, AlignedStop;
  }

  // ---- The pin ----

  datatype Reply = S_OK | S_FALSE | E_FAIL

  /** The answers of everything outside the pin, call by call. */
  datatype World = World(
    size: nat -> nat,        // the buffer GetBuffer returns
    ok: nat -> bool,         // whether GetBuffer, Request, WaitForNext or SyncReadAligned succeeds
    receive: nat -> Reply,   // downstream
    asked: nat -> bool,      // CheckRequest
    done: nat -> bool        // whether WaitForNext has a completed request to give back
  )

  /** xs without some of its first elements. */
  ghost predicate Suffix<T(!new)>(xs: seq<T>, ys: seq<T>) { |xs| <= |ys| && xs == ys[|ys| - |xs|..] }

  /** Buffers hold a positive whole number of aligned blocks. */
  ghost predicate GoodBuffers(w: World, cbAlign: nat)
    requires cbAlign >= 1
  {
    forall n :: w.size(n) > 0 && w.size(n) % cbAlign == 0
  }

  ghost predicate NothingWrong(w: World) {
    && (forall n :: w.ok(n)) && (forall n :: w.receive(n) == S_OK) && (forall n :: !w.asked(n))
  }

  lemma BufferGood(w: World, cbAlign: nat, n: nat)
    requires cbAlign >= 1 && GoodBuffers(w, cbAlign)
    ensures w.size(n) > 0 && w.size(n) % cbAlign == 0
  {
  }

  /** Some media inside the range, no more than a buffer of this size carries, and less only where the range ends. */
  predicate CanCarry(s: Span, stop: int, size: nat) {
    && s.t1 < s.t2 <= stop && s.t2 - s.t1 <= size * UNITS
    && (s.t2 < stop ==> s.t2 - s.t1 == size * UNITS)
  }

  /** The piece from tCurrent that fits a buffer, cut at the aligned stop. */
  function Piece(tCurrent: int, tAlignStop: int, size: nat): (s: Span)
    requires size > 0 && tCurrent < tAlignStop
    ensures s.t1 == tCurrent && CanCarry(s, tAlignStop, size)
  {
    Span(tCurrent, if tCurrent + size * UNITS > tAlignStop then tAlignStop else tCurrent + size * UNITS)
  }

  /** A sample with the times of the piece its buffer can carry. */
  function Fill(tCurrent: int, tAlignStop: int, size: nat, bDiscontinuity: bool): Sample
    requires size > 0 && tCurrent < tAlignStop
  {
    Sample(Piece(tCurrent, tAlignStop, size), bDiscontinuity, size)
  }

  class CPullPin {
    const w: World
    const m_tStart: nat
    const m_tStop: nat
    const m_tDuration: nat
    const m_bSync: bool
    const cbAlign: nat
    const cBuffers: nat
    var calls: nat
    var pending: seq<Sample>       // requested and not collected
    var endOfStream: bool
    ghost var requests: seq<Sample>
    ghost var delivered: seq<Span>
    ghost var peak: nat            // most requests outstanding at once

    constructor (w: World, tStart: nat, tStop: nat, tDuration: nat, sync: bool, align: nat, buffers: nat)
      ensures this.w == w && m_tStart == tStart && m_tStop == tStop && m_tDuration == tDuration
      ensures m_bSync == sync && cbAlign == align && cBuffers == buffers
      ensures pending == [] && requests == [] && delivered == [] && peak == 0 && !endOfStream
    {
      this.w, m_tStart, m_tStop, m_tDuration := w, tStart, tStop, tDuration;
      m_bSync, cbAlign, cBuffers := sync, align, buffers;
      calls, pending, endOfStream, requests, delivered, peak := 0, [], false, [], [], 0;
    }

    method Ask() returns (n: nat)
      modifies this`calls
      ensures n == old(calls)
    {
      n := calls;
      calls := calls + 1;
    }

    /** Releases what the reader gives back without waiting: what it has completed, and all of it while it is flushing. */
    method CleanupCancelled(flushing: bool)
      modifies this`calls, this`pending
      ensures Suffix(pending, old(pending)) && (flushing ==> pending == [])
    {
      var more := true;
      while more && pending != []
        invariant Suffix(pending, old(pending)) && (flushing ==> more)
        decreases |pending|, more
      {
        var n := Ask();
        more := flushing || w.done(n);
        if more {
          pending := pending[1..];
        }
      }
    }

    /** Between calls: a chain of pieces requested up to tCurrent, the last k of them still with the reader. */
    ghost predicate Between(r: Range, tCurrent: int, k: nat)
      reads this
    {
      && Requested(requests, r, tCurrent) && Collected(requests, pending, delivered, r)
      && |pending| == k && peak <= 2 && peak <= cBuffers && !endOfStream
    }

    /** However a run ends: nothing requested out of place or twice, and what was delivered is the first of it, in order. */
    ghost predicate Safe(r: Range)
      reads this
    {
      && Requested(requests, r, End(Spans(requests), r.start)) && Prefix(requests, delivered, r)
      && peak <= 2 && peak <= cBuffers
    }

    method QueueSample(tCurrent: int, tAlignStop: int, bDiscontinuity: bool, ghost r: Range, ghost k: nat)
      returns (ok: bool, tNext: int)
      requires Good(r) && tCurrent < tAlignStop == r.stop && r.block == cbAlign * UNITS
      requires cbAlign >= 1 && GoodBuffers(w, cbAlign)
      requires Between(r, tCurrent, k) && k + 1 <= 2 && k + 1 <= cBuffers && (bDiscontinuity <==> requests == [])
      modifies this`calls, this`pending, this`requests, this`peak
      ensures ok ==> Between(r, tNext, k + 1) && tCurrent < tNext <= tAlignStop
      ensures ok ==> requests == old(requests) + [Fill(tCurrent, tAlignStop, w.size(old(calls)), bDiscontinuity)]
      ensures ok ==> peak == Max(old(peak), k + 1)
      ensures !ok ==> requests == old(requests) && peak == old(peak) && Suffix(pending, old(pending))
      ensures Safe(r) && (NothingWrong(w) ==> ok)
    {
      hide Requested, Multiple, Collected, Prefix, GoodBuffers, Spans, End, Piece;
      SafeNow(requests, pending, delivered, r, tCurrent);
      BufferGood(w, cbAlign, calls);
      var n := Ask();
      if !w.ok(n) {
        return false, tCurrent;
      }
      PieceAligned(r, tCurrent, w.size(n), cbAlign, requests);
      var s := Fill(tCurrent, tAlignStop, w.size(n), bDiscontinuity);
      n := Ask();
      if !w.ok(n) {
        CleanupCancelled(false);
        return false, tCurrent;
      }
      Accept(s, r, tCurrent, k);
      ok, tNext := true, s.span.t2;
    }

    /** The reader has taken the request. */
    method Accept(s: Sample, ghost r: Range, ghost tCurrent: int, ghost k: nat)
      requires Between(r, tCurrent, k) && k + 1 <= 2 && k + 1 <= cBuffers
      requires s.span.t1 == tCurrent && CanCarry(s.span, r.stop, s.size)
      requires r.block > 0 && Multiple(s.span.t2, r.block) && (s.discontinuity <==> requests == [])
      modifies this`pending, this`requests, this`peak
      ensures Between(r, s.span.t2, k + 1) && Safe(r)
      ensures requests == old(requests) + [s] && peak == Max(old(peak), k + 1)
    {
      hide Requested, Multiple, Collected, Prefix, Spans, End, CanCarry;
      RequestMore(requests, s, r, tCurrent);
      CollectLater(requests, pending, delivered, s, r);
      pending := pending + [s];
      requests := requests + [s];
      peak := if |pending| > peak then |pending| else peak;
      SafeNow(requests, pending, delivered, r, s.span.t2);
    }

    method DeliverSample(s: Sample, tStart: int, tStop: int) returns (reply: Reply)
      modifies this`calls, this`delivered
      ensures delivered == old(delivered) + [Fixed(s.span, tStart, tStop)]
      ensures NothingWrong(w) ==> reply == S_OK
    {
      var n := Ask();
      delivered := delivered + [Fixed(s.span, tStart, tStop)];
      reply := w.receive(n);
    }

    /** Takes the oldest request from the reader and passes it on. */
    method CollectAndDeliver(tStart: int, tStop: int, ghost r: Range, ghost tCurrent: int, ghost k: nat) returns (reply: Reply)
      requires tStart == r.start && tStop == r.tStop && Between(r, tCurrent, k) && k > 0
      modifies this`calls, this`pending, this`delivered
      ensures reply != E_FAIL ==> Between(r, tCurrent, k - 1)
      ensures reply != E_FAIL ==> delivered == old(delivered) + [Fixed(old(pending)[0].span, tStart, tStop)]
      ensures reply == E_FAIL ==> Suffix(pending, old(pending))
      ensures Safe(r) && (NothingWrong(w) ==> reply == S_OK)
    {
      hide Requested, Collected, Prefix, Spans, End, Chain, FixedAll, Complete, Good, Multiple;
      SafeNow(requests, pending, delivered, r, tCurrent);
      CollectOne(requests, pending, delivered, r);
      var n := Ask();
      if !w.ok(n) {
        if w.done(n) {
          pending := pending[1..];
        }
        reply := E_FAIL;
      } else {
        var pSample := pending[0];
        pending := pending[1..];
        reply := DeliverSample(pSample, tStart, tStop);
      }
      if reply == E_FAIL {
        CleanupCancelled(false);
      }
    }

    /** The overlapped loop. One request is kept outstanding between turns when there is a second buffer for it. */
    method ProcessAsync(tStart: int, tStop: int, tAlignStop: int, ghost r: Range) returns (finished: bool)
      requires Good(r) && r.block == cbAlign * UNITS && cBuffers >= 1
      requires cbAlign >= 1 && GoodBuffers(w, cbAlign)
      requires tStart == r.start && tStop == r.tStop && tAlignStop == r.stop
      requires Between(r, tStart, 0) && requests == []
      modifies this`calls, this`pending, this`requests, this`peak, this`delivered
      ensures Safe(r) && (finished ==> Finished(r)) && (NothingWrong(w) ==> finished)
      ensures cBuffers > 1 && |requests| > 1 ==> peak == 2
    {
      hide Requested, Multiple, Collected, Prefix, GoodBuffers, Fill, Good, Complete, FixedAll, Spans, End;
      var bDiscontinuity := true;
      var tCurrent := tStart;
      SafeNow(requests, pending, delivered, r, tCurrent);
      ghost var spare: nat := if cBuffers > 1 then 1 else 0;
      while tCurrent < tAlignStop
        invariant Between(r, tCurrent, 0) && Safe(r) && tCurrent <= Max(tStart, tAlignStop)
        invariant bDiscontinuity <==> requests == []
        invariant requests == [] <==> tCurrent == tStart
        invariant cBuffers > 1 && |requests| > 1 ==> peak == 2
        invariant tCurrent < tAlignStop ==> requests == []
        decreases tAlignStop - tCurrent
      {
        var n := Ask();
        if w.asked(n) {
          return false;
        }
        if cBuffers > 1 {
          var ok;
          ok, tCurrent := QueueSample(tCurrent, tAlignStop, true, r, 0);
          bDiscontinuity := false;
          if !ok {
            return false;
          }
        }
        while tCurrent < tAlignStop
          invariant Between(r, tCurrent, spare) && Safe(r) && tStart <= tCurrent <= tAlignStop
          invariant bDiscontinuity <==> requests == []
          invariant cBuffers > 1 || tCurrent > tStart ==> requests != []
          invariant cBuffers > 1 && |requests| > 1 ==> peak == 2
          decreases tAlignStop - tCurrent
        {
          var ok;
          ok, tCurrent := QueueSample(tCurrent, tAlignStop, bDiscontinuity, r, spare);
          bDiscontinuity := false;
          if !ok {
            return false;
          }
          var hr := CollectAndDeliver(tStart, tStop, r, tCurrent, spare + 1);
          if hr != S_OK {
            return false;
          }
        }
        if cBuffers > 1 {
          var hr := CollectAndDeliver(tStart, tStop, r, tCurrent, 1);
          if hr == E_FAIL {
            return false;
          }
        }
      }
      finished := true;
      FinishedNow(requests, pending, delivered, r, tCurrent);
    }

    /** A synchronous read: the piece is read, and with its times adjusted passed on. Nothing is ever left with the reader. */
    method ReadAndDeliver(tCurrent: int, tAlignStop: int, bDiscontinuity: bool, tStart: int, tStop: int, ghost r: Range)
      returns (reply: Reply, tNext: int)
      requires Good(r) && tCurrent < tAlignStop == r.stop && r.block == cbAlign * UNITS
      requires cbAlign >= 1 && GoodBuffers(w, cbAlign)
      requires Between(r, tCurrent, 0) && tStart == r.start && tStop == r.tStop && (bDiscontinuity <==> requests == [])
      modifies this`calls, this`requests, this`delivered
      ensures requests != old(requests) ==>
                Between(r, tNext, 0) && tCurrent < tNext <= tAlignStop &&
                requests == old(requests) + [Fill(tCurrent, tAlignStop, w.size(old(calls)), bDiscontinuity)]
      ensures requests == old(requests) ==> reply == E_FAIL && delivered == old(delivered)
      ensures Safe(r) && (NothingWrong(w) ==> reply == S_OK)
    {
      hide Requested, Multiple, Collected, Prefix, GoodBuffers, Spans, End, Piece;
      SafeNow(requests, pending, delivered, r, tCurrent);
      BufferGood(w, cbAlign, calls);
      var n := Ask();
      if !w.ok(n) {
        return E_FAIL, tCurrent;
      }
      PieceAligned(r, tCurrent, w.size(n), cbAlign, requests);
      var s := Fill(tCurrent, tAlignStop, w.size(n), bDiscontinuity);
      tNext := s.span.t2;
      n := Ask();
      if !w.ok(n) {
        return E_FAIL, tNext;
      }
      RequestMore(requests, s, r, tCurrent);
      CollectLater(requests, [], delivered, s, r);
      CollectOne(requests + [s], [s], delivered, r);
      requests := requests + [s];
      reply := DeliverSample(s, tStart, tStop);
      SafeNow(requests, [], delivered, r, tNext);
    }

    /** One read at a time, each complete before the next. */
    method ProcessSync(tStart: int, tStop: int, tAlignStop: int, ghost r: Range) returns (finished: bool)
      requires Good(r) && r.block == cbAlign * UNITS && cBuffers >= 1
      requires cbAlign >= 1 && GoodBuffers(w, cbAlign)
      requires tStart == r.start && tStop == r.tStop && tAlignStop == r.stop
      requires Between(r, tStart, 0) && requests == []
      modifies this`calls, this`requests, this`delivered
      ensures Safe(r) && (finished ==> Finished(r)) && (NothingWrong(w) ==> finished)
    {
      hide Requested, Multiple, Collected, Prefix, GoodBuffers, Fill, Good, Complete, FixedAll, Spans, End;
      var bDiscontinuity := true;
      var tCurrent := tStart;
      SafeNow(requests, pending, delivered, r, tCurrent);
      while tCurrent < tAlignStop
        invariant Between(r, tCurrent, 0) && Safe(r) && tCurrent <= Max(tStart, tAlignStop)
        invariant bDiscontinuity <==> requests == []
        decreases tAlignStop - tCurrent
      {
        var n := Ask();
        if w.asked(n) {
          return false;
        }
        var hr;
        hr, tCurrent := ReadAndDeliver(tCurrent, tAlignStop, bDiscontinuity, tStart, tStop, r);
        bDiscontinuity := false;
        if hr != S_OK {
          return false;
        }
      }
      finished := true;
      FinishedNow(requests, pending, delivered, r, tCurrent);
    }

    /** At the end of the stream everything requested has been collected and passed on, and it covers the aligned range. */
    ghost predicate Finished(r: Range)
      reads this
      requires r.block > 0
    {
      && pending == [] && delivered == FixedAll(Spans(requests), r.start, r.tStop)
      && Complete(Spans(requests), r.start, r.stop, r.block)
    }

    method Process(ghost k: nat)
      requires cbAlign == Pow2(k) && cBuffers >= 1 && GoodBuffers(w, cbAlign)
      requires pending == [] && requests == [] && delivered == [] && peak == 0 && !endOfStream
      modifies this
      ensures m_tStop <= m_tStart ==> endOfStream && requests == [] && delivered == []
      ensures m_tStop > m_tStart ==> Safe(TheRange()) && (endOfStream ==> Finished(TheRange()))
      ensures !m_bSync && cBuffers > 1 && |requests| > 1 ==> peak == 2
      ensures m_bSync ==> peak == 0
      ensures NothingWrong(w) ==> endOfStream
    {
      hide Requested, Collected, Prefix, AlignDown, AlignUp, Pow2, Multiple, Complete, GoodBuffers, Good, FixedAll, Spans, End, AndNot, NothingWrong;
      if m_tStop <= m_tStart {
        endOfStream := true;
        return;
      }
      var tStart := AlignDown(m_tStart / UNITS, cbAlign) * UNITS;
      var tStop := if m_tStop > m_tDuration then m_tDuration else m_tStop;
      var tAlignStop := AlignUp(tStop / UNITS, cbAlign) * UNITS;
      ghost var r := TheRange();
      RangeGood(m_tStart, tStop, k);
      var finished: bool;
      if !m_bSync {
        finished := ProcessAsync(tStart, tStop, tAlignStop, r);
      } else {
        finished := ProcessSync(tStart, tStop, tAlignStop, r);
      }
      endOfStream := finished;
    }

    /** What the worker does when told to start: a run, and then, with the reader flushing, every request still out is taken back. */
    method RunAndClean(ghost k: nat)
      requires cbAlign == Pow2(k) && cBuffers >= 1 && GoodBuffers(w, cbAlign)
      requires pending == [] && requests == [] && delivered == [] && peak == 0 && !endOfStream
      modifies this
      ensures pending == []
      ensures m_tStop > m_tStart ==> Safe(TheRange()) && (endOfStream ==> Finished(TheRange()))
    {
      hide Requested, Collected, Prefix, Pow2, Complete, GoodBuffers, FixedAll, Spans, End, NothingWrong, AlignedStart, AlignedStop;
      Process(k);
      CleanupCancelled(true);
    }

    /** The range read: from the block the start lies in to past the last whole byte before the stop, or the end of the media. */
    lemma RangeMeaning(k: nat)
      requires cbAlign == Pow2(k)
      ensures var r := TheRange();
        && r.tStop <= m_tStop && r.tStop <= m_tDuration && (r.tStop == m_tStop || r.tStop == m_tDuration)
        && r.block == cbAlign * UNITS > 0 && Multiple(r.start, r.block) && Multiple(r.stop, r.block)
        && r.start <= m_tStart < r.start + r.block
        && r.tStop - UNITS < r.stop < r.tStop + r.block
    {
      hide AlignedStart, AlignedStop, Pow2, Multiple;
      AlignedRange(m_tStart, k);
      AlignedRange(if m_tStop > m_tDuration then m_tDuration else m_tStop, k);
    }

    ghost function TheRange(): Range
      requires cbAlign >= 1
    {
      var tStop := if m_tStop > m_tDuration then m_tDuration else m_tStop;
      Range(AlignedStart(m_tStart, cbAlign), AlignedStop(tStop, cbAlign), tStop, cbAlign * UNITS)
    }
  }

  /** The aligned range, the real stop, and the size of an aligned block in media time. */
  datatype Range = Range(start: int, stop: int, tStop: int, block: int)

  ghost predicate Good(r: Range) { r.block > 0 && Multiple(r.start, r.block) && Multiple(r.stop, r.block) }

  function Max(x: int, y: int): int { if x > y then x else y }

  function Spans(xs: seq<Sample>): (r: seq<Span>)
    ensures |r| == |xs| && forall i :: 0 <= i < |xs| ==> r[i] == xs[i].span
  {
    if xs == [] then [] else Spans(xs[..|xs| - 1]) + [xs[|xs| - 1].span]
  }

  /** Everything requested so far: a chain of aligned pieces up to tCurrent, the first alone marked as a discontinuity. */
  ghost predicate Requested(reqs: seq<Sample>, r: Range, tCurrent: int) {
    && Good(r)
    && Chain(Spans(reqs), r.start) && tCurrent == End(Spans(reqs), r.start)
    && Multiple(tCurrent, r.block)
    && (forall i :: 0 <= i < |reqs| ==> Multiple(reqs[i].span.t1, r.block) && reqs[i].span.t2 <= r.stop)
    && (forall i :: 0 <= i < |reqs| ==> (reqs[i].discontinuity <==> i == 0))
    && (forall i :: 0 <= i < |reqs| ==> Carried(reqs[i], r.stop))
  }

  /** A piece is what its own buffer can carry. */
  predicate Carried(s: Sample, stop: int) {
    CanCarry(s.span, stop, s.size)
  }

  /** What was delivered is the first of what was requested, times adjusted. */
  ghost predicate Prefix(reqs: seq<Sample>, delivered: seq<Span>, r: Range) {
    && |delivered| <= |reqs|
    && forall i :: 0 <= i < |delivered| ==> delivered[i] == Fixed(reqs[i].span, r.start, r.tStop)
  }

  /** Requests leave the reader in the order they were made: those not pending have been delivered. */
  ghost predicate Collected(reqs: seq<Sample>, pending: seq<Sample>, delivered: seq<Span>, r: Range) {
    Prefix(reqs, delivered, r) && pending == reqs[|delivered|..]
  }

  lemma SafeNow(reqs: seq<Sample>, pending: seq<Sample>, delivered: seq<Span>, r: Range, tCurrent: int)
    requires Requested(reqs, r, tCurrent) && Collected(reqs, pending, delivered, r)
    ensures Requested(reqs, r, End(Spans(reqs), r.start)) && Prefix(reqs, delivered, r)
  {
  }

  lemma NothingRequested(r: Range)
    requires Good(r)
    ensures Requested([], r, r.start) && Collected([], [], [], r)
  {
  }

  lemma RangeGood(m_tStart: nat, tStop: nat, k: nat)
    ensures var r := Range(AlignedStart(m_tStart, Pow2(k)), AlignedStop(tStop, Pow2(k)), tStop, Pow2(k) * UNITS);
      Good(r) && r.block > 0 && r.start == End(Spans([]), r.start) && Requested([], r, r.start) && Collected([], [], [], r)
  {
    AlignedRange(m_tStart, k);
    AlignedRange(tStop, k);
    hide AlignedStart, AlignedStop, Pow2, Multiple, Requested, Collected;
    NothingRequested(Range(AlignedStart(m_tStart, Pow2(k)), AlignedStop(tStop, Pow2(k)), tStop, Pow2(k) * UNITS));
  }

  lemma PieceAligned(r: Range, tCurrent: int, size: nat, cbAlign: int, reqs: seq<Sample>)
    requires Requested(reqs, r, tCurrent) && cbAlign > 0 && r.block == cbAlign * UNITS && size % cbAlign == 0
    requires size > 0 && tCurrent < r.stop
    ensures Multiple(Piece(tCurrent, r.stop, size).t2, r.block)
  {
    assert Multiple(size, cbAlign);
    hide Multiple, Spans, Chain, Carried, Piece;
    MultipleScaled(size, cbAlign, UNITS);
    MultipleSum(tCurrent, size * UNITS, r.block);
    PieceEnds(tCurrent, r.stop, size);
  }

  lemma PieceEnds(tCurrent: int, tStop: int, size: nat)
    requires tCurrent < tStop && size > 0
    ensures var t2 := Piece(tCurrent, tStop, size).t2; t2 == tStop || t2 == tCurrent + size * UNITS
  {
  }

  lemma ChainMore(xs: seq<Span>, a: int, t2: int)
    requires Chain(xs, a) && End(xs, a) < t2
    ensures Chain(xs + [Span(End(xs, a), t2)], a)
  {
  }

  lemma RequestMore(reqs: seq<Sample>, s: Sample, r: Range, tCurrent: int)
    requires Requested(reqs, r, tCurrent) && s.span.t1 == tCurrent && CanCarry(s.span, r.stop, s.size)
    requires Multiple(s.span.t2, r.block) && (s.discontinuity <==> reqs == [])
    ensures Requested(reqs + [s], r, s.span.t2)
  {
    hide Multiple, Chain;
    assert Spans(reqs + [s]) == Spans(reqs) + [s.span];
    ChainMore(Spans(reqs), r.start, s.span.t2);
  }

  lemma CollectLater(reqs: seq<Sample>, pending: seq<Sample>, delivered: seq<Span>, s: Sample, r: Range)
    requires Collected(reqs, pending, delivered, r)
    ensures Collected(reqs + [s], pending + [s], delivered, r)
  {
  }

  lemma CollectOne(reqs: seq<Sample>, pending: seq<Sample>, delivered: seq<Span>, r: Range)
    requires Collected(reqs, pending, delivered, r) && pending != []
    ensures Collected(reqs, pending[1..], delivered + [Fixed(pending[0].span, r.start, r.tStop)], r)
    ensures Prefix(reqs, delivered + [Fixed(pending[0].span, r.start, r.tStop)], r)
  {
  }

  lemma FinishedNow(reqs: seq<Sample>, pending: seq<Sample>, delivered: seq<Span>, r: Range, tCurrent: int)
    requires Requested(reqs, r, tCurrent) && Collected(reqs, pending, delivered, r) && pending == []
    requires tCurrent == Max(r.start, r.stop)
    ensures delivered == FixedAll(Spans(reqs), r.start, r.tStop)
    ensures Complete(Spans(reqs), r.start, r.stop, r.block)
  {
    hide Multiple, Carried, Chain;
    assert |delivered| == |reqs|;
  }
}
