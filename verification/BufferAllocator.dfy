/**
 * CBaseAllocator and CMemAllocator: the free list with its lazily signalled
 * semaphore, asynchronous decommit, and the allocator's reference on itself.
 *
 * Each method of the class is one region executed under the allocator's lock,
 * proved against a function on AllocatorState. AllocatorProtocol lets any number
 * of threads run those regions in any order.
 */
module BufferAllocator {
  import opened Sequences
  import opened Words
  import opened AllocatorLayout
  import opened SampleList

  type Sample = nat
  type Thread = nat

  datatype HResult = NoError | NotCommitted | Timeout | SizeNotSet | NoMemory
                   | BadAlign | AlreadyCommitted | BuffersOutstanding

  datatype AllocatorState = AllocatorState(
    free: seq<Sample>,      // m_lFree, head first
    waiting: nat,           // m_lWaiting
    sem: nat,               // the count of m_hSem
    total: nat,         // m_lAllocated
    count: int32, size: int32, alignment: int32, prefix: int32,
    changed: bool,
    committed: bool,
    decommitting: bool,     // m_bDecommitInProgress
    hasBlock: bool,         // m_pBuffer != NULL
    nextId: nat,            // identities for CMediaSample objects
    allocs: nat,            // successful Commits that had to call Alloc
    frees: nat              // calls to Free
  )

  const INITIAL: AllocatorState :=
    AllocatorState([], 0, 0, 0, 0, 0, 0, 0, false, false, false, false, 0, 0, 0)

  // ---- The lock regions as functions ----

  function Notify(a: AllocatorState): AllocatorState {
    if a.waiting != 0 then a.(sem := a.sem + a.waiting, waiting := 0) else a
  }

  datatype GetResult = Refused | Got(sample: Sample) | MustWait

  /** GetBuffer: fail, take a sample, or announce a wait. */
  function GetRegion(a: AllocatorState): (AllocatorState, GetResult) {
    if !a.committed then (a, Refused)
    else if a.free != [] then (a.(free := a.free[1..]), Got(a.free[0]))
    else (a.(waiting := a.waiting + 1), MustWait)
  }

  /** ReleaseBuffer: returns whether a pending decommit completed, so Release() must follow. */
  function ReleaseRegion(a: AllocatorState, x: Sample): (AllocatorState, bool) {
    var b := Notify(a.(free := [x] + a.free));
    if b.decommitting && |b.free| == b.total then
      (b.(frees := b.frees + 1, decommitting := false), true)
    else
      (b, false)
  }

  /** The samples of a new block, in the order repeated Add leaves them on the list. */
  function NewSamples(first: nat, n: nat): (s: seq<Sample>)
    ensures |s| == n
    ensures forall i :: 0 <= i < n ==> s[i] == first + n - 1 - i
  {
    if n == 0 then [] else [first + n - 1] + NewSamples(first, n - 1)
  }

  /** CMemAllocator::Alloc; memoryOk is VirtualAlloc's answer. */
  function AllocRegion(a: AllocatorState, memoryOk: bool): (AllocatorState, HResult) {
    if a.count <= 0 || a.size <= 0 || a.alignment <= 0 then (a, SizeNotSet)
    else if !a.changed then (a, NoError)
    else
      var b := if a.hasBlock then a.(free := [], total := 0, hasBlock := false) else a;
      if ComputeLayout(a.size, a.prefix, a.alignment, a.count) == OutOfMemory || !memoryOk then (b, NoMemory)
      else
        (b.(free := NewSamples(b.nextId, b.count) + b.free, total := b.count,
            nextId := b.nextId + b.count, changed := false, hasBlock := true), NoError)
  }

  /** Alloc's outcome when it gets its memory, from the state b with the old block gone. */
  lemma AllocDone(a: AllocatorState, b: AllocatorState, memoryOk: bool)
    requires a.count > 0 && a.size > 0 && a.alignment > 0 && a.changed && memoryOk
    requires b == if a.hasBlock then a.(free := [], total := 0, hasBlock := false) else a
    requires ComputeLayout(a.size, a.prefix, a.alignment, a.count) != OutOfMemory && b.free == []
    ensures AllocRegion(a, memoryOk) ==
      (b.(free := NewSamples(b.nextId, b.count), total := b.count,
          nextId := b.nextId + b.count, changed := false, hasBlock := true), NoError)
  {
    hide NewSamples;
    EmptyIsUnit(NewSamples(b.nextId, b.count));
  }

  /** Commit: returns the result and whether AddRef was called. */
  function CommitRegion(a: AllocatorState, memoryOk: bool): (AllocatorState, HResult, bool) {
    if a.committed then (a, NoError, false)
    else if a.decommitting then (a.(committed := true, decommitting := false), NoError, false)
    else
      var (b, hr) := AllocRegion(a.(committed := true), memoryOk);
      if hr != NoError then (b.(committed := false), hr, false)
      else (b.(allocs := b.allocs + 1), NoError, true)
  }

  /** Decommit: returns whether it completed at once, so Release() must follow. */
  function DecommitRegion(a: AllocatorState): (AllocatorState, bool) {
    if !a.committed && !a.decommitting then (a, false)
    else if |a.free| < a.total then (Notify(a.(committed := false, decommitting := true)), false)
    else (Notify(a.(committed := false, decommitting := false, frees := a.frees + 1)), true)
  }

  /** CMemAllocator::SetProperties on a system with this allocation granularity. */
  function SetPropertiesRegion(a: AllocatorState, cbBuffer: int32, cBuffers: int32, cbAlign: int32, cbPrefix: int32,
                               granularity: uint32): (AllocatorState, HResult)
  {
    if !AlignOk(granularity, cbAlign) then (a, BadAlign)
    else if a.committed then (a, AlreadyCommitted)
    else if |a.free| < a.total then (a, BuffersOutstanding)
    else
      (a.(size := RoundRequest(cbBuffer, cbPrefix, cbAlign), count := cBuffers, alignment := cbAlign,
          prefix := cbPrefix, changed := true), NoError)
  }

  /**
   * Commit fails exactly when there is nothing agreed to allocate, the block's true size does not
   * fit a LONG, or there is no memory for it, and then leaves no buffers; the allocator is committed afterwards exactly when
   * it has not failed, and takes a reference on itself exactly when it had to allocate.
   */
  lemma {:induction false} CommitSucceedsIff(a: AllocatorState, memoryOk: bool)
    ensures var (b, hr, addRef) := CommitRegion(a, memoryOk);
      var live := a.committed || a.decommitting;
      var agreed := a.count > 0 && a.size > 0 && a.alignment > 0;
      && (hr == NoError <==> live || (agreed && (a.changed ==> memoryOk && BlockFits(a))))
      && (hr == SizeNotSet <==> !live && !agreed) && (hr == NoError || hr == SizeNotSet || hr == NoMemory)
      && (b.committed <==> hr == NoError) && (addRef <==> hr == NoError && !live)
      && (hr == NoMemory && (!a.hasBlock ==> a.free == [] && a.total == 0) ==> b.free == [] && b.total == 0 && !b.hasBlock)
  {
    hide NewSamples, ComputeLayout;
    if a.count > 0 && a.size > 0 && a.alignment > 0 {
      if a.prefix >= 0 {
        LayoutExact(a.size, a.prefix, a.alignment, a.count);
      } else {
        NoLayout(a.size, a.prefix, a.alignment, a.count);
      }
    }
  }

  /** The buffers agreed, aligned and with their prefixes, make a block whose size is a LONG. */
  predicate BlockFits(a: AllocatorState)
    requires a.count > 0 && a.size > 0 && a.alignment > 0
  {
    a.prefix >= 0 && a.count * RoundUp(a.size + a.prefix, a.alignment) <= MAXLONG
  }

  lemma NoLayout(size: int32, prefix: int32, align: int32, count: int32)
    requires size > 0 && align > 0 && count > 0 && prefix < 0
    ensures ComputeLayout(size, prefix, align, count) == OutOfMemory
  {
  }

  /**
   * SetProperties refuses exactly a bad alignment, a committed allocator and one with buffers out,
   * and then changes nothing; otherwise it records the count, alignment and prefix as asked for, and
   * for any agreeable request a length that with the prefix is the request rounded up.
   */
  lemma {:induction false} SetPropertiesAgrees(a: AllocatorState, cbBuffer: int32, cBuffers: int32, cbAlign: int32,
                                               cbPrefix: int32, granularity: uint32)
    ensures var (b, hr) := SetPropertiesRegion(a, cbBuffer, cBuffers, cbAlign, cbPrefix, granularity);
      && (hr == NoError <==> AlignOk(granularity, cbAlign) && !a.committed && |a.free| >= a.total)
      && (hr != NoError ==> b == a)
      && (hr == NoError ==>
            && b == a.(size := b.size, count := cBuffers, alignment := cbAlign, prefix := cbPrefix, changed := true)
            && (cbBuffer > 0 && cbPrefix >= 0 && cbAlign > 0 && Agreeable(cbBuffer, cbPrefix, cbAlign) ==>
                  b.size + b.prefix == RoundUp(cbBuffer + cbPrefix, cbAlign) && b.size >= cbBuffer))
  {
    hide AlignOk, RoundRequest, RoundUp, Agreeable;
    if cbBuffer > 0 && cbPrefix >= 0 && cbAlign > 0 {
      RoundRequestExact(cbBuffer, cbPrefix, cbAlign);
    }
  }

  /**
   * Agreeing on properties and then committing: for any agreeable request it succeeds exactly when
   * there are to be buffers, they fit and there is memory, and there are then that many, all free
   * and new; each has room for what was asked for.
   */
  lemma {:induction false} AgreedThenCommitted(a: AllocatorState, cbBuffer: int32, cBuffers: int32, cbAlign: int32,
                                               cbPrefix: int32, granularity: uint32, memoryOk: bool)
    requires cbBuffer > 0 && cbPrefix >= 0 && cbAlign > 0 && Agreeable(cbBuffer, cbPrefix, cbAlign)
    requires !a.decommitting && (!a.hasBlock ==> a.free == [])
    requires SetPropertiesRegion(a, cbBuffer, cBuffers, cbAlign, cbPrefix, granularity).1 == NoError
    ensures var b := SetPropertiesRegion(a, cbBuffer, cBuffers, cbAlign, cbPrefix, granularity).0;
      var (c, hr, _) := CommitRegion(b, memoryOk);
      && (hr == NoError <==> cBuffers > 0 && cBuffers * RoundUp(cbBuffer + cbPrefix, cbAlign) <= MAXLONG && memoryOk)
      && (hr == NoError ==> c.total == cBuffers == |c.free| && c.size >= cbBuffer
                            && forall i :: 0 <= i < cBuffers ==> c.free[i] == a.nextId + cBuffers - 1 - i)
  {
    hide AlignOk, RoundRequest, RoundUp, Agreeable, ComputeLayout;
    var b := SetPropertiesRegion(a, cbBuffer, cBuffers, cbAlign, cbPrefix, granularity).0;
    SetPropertiesAgrees(a, cbBuffer, cBuffers, cbAlign, cbPrefix, granularity);
    CommitSucceedsIff(b, memoryOk);
    NoFurtherPadding(cbBuffer, cbPrefix, cbAlign);
    RoundUpMeaning(cbBuffer + cbPrefix, cbAlign);
    RoundUpIsSelf(RoundUp(cbBuffer + cbPrefix, cbAlign), cbAlign);
  }

  // ---- The object ----

  /** What the block in use was laid out for. */
  datatype Block = Block(first: nat, size: int32, prefix: int32, align: int32, count: int32, stride: int32)

  ghost predicate LaidOut(b: Block) {
    && b.size > 0 && b.align > 0 && b.count > 0 && b.prefix >= 0
    && ComputeLayout(b.size, b.prefix, b.align, b.count) == Layout(b.stride)
  }

  /** The first n samples of a block, each at its own address. */
  ghost predicate Made(samples: seq<CMediaSample>, b: Block, n: nat) {
    && |samples| == n
    && forall i :: 0 <= i < n ==> samples[i].id == b.first + i && samples[i].pointer == i * b.stride + b.prefix
  }

  function Ids(samples: seq<CMediaSample>): (ids: seq<Sample>)
    ensures |ids| == |samples| && forall i :: 0 <= i < |ids| ==> ids[i] == samples[i].id
  {
    seq(|samples|, i requires 0 <= i < |samples| => samples[i].id)
  }

  /** The buffers of a block's samples are aligned, prefix and all, lie inside the block, and do not overlap. */
  lemma {:induction false} SampleBuffersDisjoint(samples: seq<CMediaSample>, b: Block, i: nat, j: nat)
    requires LaidOut(b) && Made(samples, b, |samples|) && |samples| <= b.count
    requires i < |samples| && j < |samples|
    ensures (samples[i].pointer - b.prefix) % b.align == 0
    ensures 0 <= samples[i].pointer - b.prefix && samples[i].pointer + b.size <= b.count * b.stride
    ensures i < j ==> samples[i].pointer + b.size <= samples[j].pointer - b.prefix
  {
    BuffersDisjoint(b.size, b.prefix, b.align, b.count, i, j);
  }

  class CMemAllocator {
    const m_lFree: CSampleList
    var waiting: nat
    var sem: nat
    var total: nat
    var count: int32
    var size: int32
    var alignment: int32
    var prefix: int32
    var changed: bool
    var committed: bool
    var decommitting: bool
    var hasBlock: bool
    var nextId: nat
    ghost var block: Block
    ghost var samples: seq<CMediaSample>   // those of the block, in address order
    ghost var allocs: nat
    ghost var frees: nat

    /** The free samples are of the block in use, whose samples are laid out as computed. */
    ghost predicate Valid()
      reads this, m_lFree, m_lFree.spine
    {
      && m_lFree.Valid() && (forall p :: p in m_lFree.spine ==> p in samples)
      && Made(samples, block, total) && block.first + total <= nextId
      && (hasBlock ==> LaidOut(block) && total == block.count) && (!hasBlock ==> total == 0)
    }

    ghost function State(): AllocatorState
      reads this, m_lFree
    {
      AllocatorState(Ids(m_lFree.spine), waiting, sem, total, count, size, alignment, prefix,
                     changed, committed, decommitting, hasBlock, nextId, allocs, frees)
    }

    constructor ()
      ensures Valid() && fresh(m_lFree) && State() == INITIAL
    {
      m_lFree := new CSampleList();
      waiting, sem, total := 0, 0, 0;
      count, size, alignment, prefix := 0, 0, 0, 0;
      changed, committed, decommitting, hasBlock := false, false, false, false;
      nextId, allocs, frees := 0, 0, 0;
      block, samples := Block(0, 0, 0, 0, 0, 0), [];
    }

    method NotifySample()
      modifies this`sem, this`waiting
      ensures State() == Notify(old(State()))
    {
      if waiting != 0 {
        sem := sem + waiting;
        waiting := 0;
      }
    }

    method SetWaiting()
      modifies this`waiting
      ensures State() == old(State()).(waiting := old(waiting) + 1)
    {
      waiting := waiting + 1;
    }

    /** One pass under the lock, with the sample it takes. */
    method GetBuffer() returns (r: GetResult, p: CMediaSample?)
      requires Valid()
      modifies this`waiting, m_lFree
      ensures Valid() && (State(), r) == GetRegion(old(State()))
      ensures if r.Got? then p == old(m_lFree.spine)[0] && p.id == r.sample && p in samples && p !in m_lFree.spine else p == null
    {
      hide Made, LaidOut;
      if !committed {
        return Refused, null;
      }
      ghost var was := m_lFree.spine;
      p := m_lFree.RemoveHead();
      if p != null {
        r := Got(p.id);
        assert Ids(was)[1..] == Ids(m_lFree.spine);
        assert forall i :: 1 <= i < |was| ==> was[i] != was[0];
      } else {
        SetWaiting();
        r := MustWait;
      }
    }

    /** A sample of the block comes back. */
    method ReleaseBuffer(p: CMediaSample) returns (bRelease: bool)
      requires Valid() && p in samples && p !in m_lFree.spine
      modifies this`sem, this`waiting, this`frees, this`decommitting, m_lFree, p
      ensures Valid() && (State(), bRelease) == ReleaseRegion(old(State()), p.id)
    {
      hide Made, LaidOut, Linked;
      bRelease := false;
      m_lFree.Add(p);
      assert Ids(m_lFree.spine) == [p.id] + Ids(old(m_lFree.spine));
      if waiting != 0 {
        NotifySample();
      }
      if decommitting && m_lFree.GetCount() == total {
        Free();
        decommitting := false;
        bRelease := true;
      }
    }

    /** CMemAllocator keeps its memory until it is destroyed or re-allocates; Free only marks the moment. */
    method Free()
      modifies this`frees
      ensures State() == old(State()).(frees := old(frees) + 1)
    {
      frees := frees + 1;
    }

    /** Takes every sample off the list and deletes it, and then the block. */
    method ReallyFree()
      requires Valid()
      modifies this`total, this`hasBlock, this`samples, m_lFree
      ensures Valid() && State() == old(State()).(free := [], total := 0, hasBlock := false)
    {
      var p := m_lFree.RemoveHead();
      while p != null
        invariant m_lFree.Valid() && (p == null ==> m_lFree.spine == [])
        decreases |m_lFree.spine|, p
      {
        p := m_lFree.RemoveHead();
      }
      total, samples := 0, [];
      hasBlock := false;
    }

    method Alloc(memoryOk: bool) returns (hr: HResult)
      requires Valid()
      modifies this, m_lFree
      ensures Valid() && (State(), hr) == AllocRegion(old(State()), memoryOk)
    {
      hide ComputeLayout, Made, LaidOut, Linked, Ids, NewSamples;
      if count <= 0 || size <= 0 || alignment <= 0 {
        return SizeNotSet;
      }
      if !changed {
        return NoError;
      }
      if hasBlock {
        ReallyFree();
      }
      NoSamples();
      ghost var b := State();
      var layout := ComputeLayout(size, prefix, alignment, count);
      if layout == OutOfMemory || !memoryOk {
        return NoMemory;
      }
      LayoutNeedsPrefix(size, prefix, alignment, count);
      hasBlock := true;
      LayoutFound(Block(nextId, size, prefix, alignment, count, layout.stride));
      CreateSamples(layout.stride);
      changed := false;
      AllocDone(old(State()), b, memoryOk);
      hr := NoError;
    }

    lemma NoSamples()
      requires Valid() && total == 0
      ensures m_lFree.spine == [] && Ids(m_lFree.spine) == []
    {
      if m_lFree.spine != [] {
        HasElement(m_lFree.spine);
      }
    }

    /** The loop of Alloc that makes the samples, each at its address in the block, and puts them on the free list. */
    method CreateSamples(lAlignedSize: int32)
      requires total == 0 && m_lFree.Valid() && m_lFree.spine == []
      requires LaidOut(Block(nextId, size, prefix, alignment, count, lAlignedSize)) && hasBlock
      modifies this`nextId, this`total, this`samples, this`block, m_lFree
      ensures Valid() && block == Block(old(nextId), size, prefix, alignment, count, lAlignedSize)
      ensures State() == old(State()).(free := NewSamples(old(nextId), count), total := count,
                                       nextId := old(nextId) + count)
    {
      hide LaidOut, Linked, Made;
      ghost var first := nextId;
      block, samples := Block(nextId, size, prefix, alignment, count, lAlignedSize), [];
      var pNext := 0;
      Counted(block);
      NothingMade(block);
      while total < count
        invariant total <= count && nextId == first + total && pNext == total * lAlignedSize
        invariant Underway(block) && Ids(m_lFree.spine) == NewSamples(first, total)
        invariant forall p :: p in m_lFree.spine ==> fresh(p)
        invariant block == Block(first, size, prefix, alignment, count, lAlignedSize)
        decreases count - total
      {
        NextAddress(total, lAlignedSize);
        CreateOne(pNext);
        pNext := pNext + lAlignedSize;
      }
    }

    /** Part of the block has its samples, all of them on the list. */
    ghost predicate Underway(b: Block)
      reads this, m_lFree, m_lFree.spine
    {
      m_lFree.Valid() && Made(samples, b, total) && forall p :: p in m_lFree.spine ==> p in samples
    }

    method CreateOne(pNext: int)
      requires Underway(block) && nextId == block.first + total && pNext == total * block.stride && prefix == block.prefix
      modifies this`nextId, this`total, this`samples, m_lFree
      ensures Underway(block) && total == old(total) + 1 && nextId == old(nextId) + 1
      ensures Ids(m_lFree.spine) == [old(nextId)] + Ids(old(m_lFree.spine))
      ensures forall p :: p in m_lFree.spine ==> p in old(m_lFree.spine) || fresh(p)
    {
      hide Linked, Made;
      var pSample := new CMediaSample(nextId, pNext + prefix);
      ghost var was := m_lFree.spine;
      m_lFree.Add(pSample);
      assert Ids(m_lFree.spine) == [nextId] + Ids(was);
      OneMade(samples, pSample, block, total);
      samples := samples + [pSample];
      nextId, total := nextId + 1, total + 1;
    }

    method Commit(memoryOk: bool) returns (hr: HResult, addRef: bool)
      requires Valid()
      modifies this, m_lFree
      ensures Valid() && (State(), hr, addRef) == CommitRegion(old(State()), memoryOk)
    {
      hide ComputeLayout, LaidOut, Made, Linked, Ids, AllocRegion;
      addRef := false;
      if committed {
        return NoError, false;
      }
      committed := true;
      if decommitting {
        decommitting := false;
        return NoError, false;
      }
      hr := Alloc(memoryOk);
      if hr != NoError {
        committed := false;
        return;
      }
      allocs := allocs + 1;
      addRef := true;
    }

    method Decommit() returns (bRelease: bool)
      requires Valid()
      modifies this`committed, this`decommitting, this`frees, this`sem, this`waiting
      ensures Valid() && (State(), bRelease) == DecommitRegion(old(State()))
    {
      hide Made, LaidOut, Linked, Ids;
      bRelease := false;
      if !committed {
        if !decommitting {
          return;
        }
      }
      committed := false;
      if m_lFree.GetCount() < total {
        decommitting := true;
      } else {
        decommitting := false;
        Free();
        bRelease := true;
      }
      NotifySample();
    }

    method SetProperties(cbBuffer: int32, cBuffers: int32, cbAlign: int32, cbPrefix: int32, granularity: uint32)
      returns (hr: HResult)
      requires Valid()
      modifies this`size, this`count, this`alignment, this`prefix, this`changed
      ensures Valid() && (State(), hr) == SetPropertiesRegion(old(State()), cbBuffer, cBuffers, cbAlign, cbPrefix, granularity)
    {
      hide Made, LaidOut, Linked, Ids, AlignOk, RoundRequest;
      if !AlignOk(granularity, cbAlign) {
        return BadAlign;
      }
      if committed {
        return AlreadyCommitted;
      }
      if m_lFree.GetCount() < total {
        return BuffersOutstanding;
      }
      size := RoundRequest(cbBuffer, cbPrefix, cbAlign);
      count, alignment, prefix := cBuffers, cbAlign, cbPrefix;
      changed := true;
      hr := NoError;
    }
  }

  lemma LayoutFound(b: Block)
    requires b.size > 0 && b.align > 0 && b.count > 0 && b.prefix >= 0
    requires ComputeLayout(b.size, b.prefix, b.align, b.count) == Layout(b.stride)
    ensures LaidOut(b)
  {
  }

  lemma NothingMade(b: Block)
    ensures Made([], b, 0) && Ids([]) == []
  {
  }

  lemma OneMade(samples: seq<CMediaSample>, p: CMediaSample, b: Block, n: nat)
    requires Made(samples, b, n) && p.id == b.first + n && p.pointer == n * b.stride + b.prefix
    ensures Made(samples + [p], b, n + 1)
  {
  }

  lemma HasElement<T>(s: seq<T>)
    requires s != []
    ensures exists x :: x in s
  {
    assert s[0] in s;
  }

  lemma Counted(b: Block)
    requires LaidOut(b)
    ensures b.count > 0
  {
  }

  lemma NextAddress(i: int, stride: int)
    ensures (i + 1) * stride == i * stride + stride
  {
  }

  lemma LayoutNeedsPrefix(size: int32, prefix: int32, align: int32, count: int32)
    requires size > 0 && align > 0 && count > 0
    ensures ComputeLayout(size, prefix, align, count).Layout? ==> prefix >= 0
  {
  }
}
