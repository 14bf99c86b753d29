/**
 * Any number of threads using one allocator: the lock regions of BufferAllocator
 * interleaved with waits on the semaphore and with the Release() calls made
 * after the lock is left. Every run keeps the invariants the header states.
 */
module AllocatorProtocol {
  import opened Words
  import opened AllocatorLayout
  import opened BufferAllocator

  datatype System = System(
    a: AllocatorState,
    refs: map<Sample, nat>,    // the reference counts of the samples handed out
    waiters: set<Thread>,      // threads about to wait or waiting on the semaphore
    misses: nat,               // GetBuffer calls that announced a wait and gave up (AM_GBF_NOWAIT)
    selfRefs: int,             // the allocator's references on itself
    pendingReleases: nat       // threads that left the lock owing a Release()
  )

  const START := System(INITIAL, map[], {}, 0, 0, 0)

  datatype Step =
    | Get(t: Thread, noWait: bool)
    | Wake(t: Thread)
    | AddRef(x: Sample)
    | Release(x: Sample)
    | DropReference
    | Commit(memoryOk: bool)
    | Decommit
    | SetProperties(cbBuffer: int32, cBuffers: int32, cbAlign: int32, cbPrefix: int32, granularity: uint32)

  predicate Enabled(s: System, step: Step) {
    match step
    case Get(t, _) => t !in s.waiters
    case Wake(t) => t in s.waiters && s.a.sem > 0
    case AddRef(x) => x in s.refs
    case Release(x) => x in s.refs
    case DropReference => s.pendingReleases > 0
    case _ => true
  }

  function Apply(s: System, step: Step): System
    requires Enabled(s, step)
  {
    match step
    case Get(t, noWait) =>
      var (b, r) := GetRegion(s.a);
      (match r
       case Refused => s.(a := b)
       case Got(x) => s.(a := b, refs := s.refs[x := 1])
       case MustWait => if noWait then s.(a := b, misses := s.misses + 1) else s.(a := b, waiters := s.waiters + {t}))
    case Wake(t) => s.(a := s.a.(sem := s.a.sem - 1), waiters := s.waiters - {t})
    case AddRef(x) => s.(refs := s.refs[x := s.refs[x] + 1])
    case Release(x) =>
      if s.refs[x] > 1 then s.(refs := s.refs[x := s.refs[x] - 1])
      else
        var (b, owes) := ReleaseRegion(s.a, x);
        Owe(s.(a := b, refs := s.refs - {x}), owes)
    case DropReference => s.(selfRefs := s.selfRefs - 1, pendingReleases := s.pendingReleases - 1)
    case Commit(memoryOk) =>
      var (b, _, addRef) := CommitRegion(s.a, memoryOk);
      s.(a := b, selfRefs := s.selfRefs + if addRef then 1 else 0)
    case Decommit =>
      var (b, owes) := DecommitRegion(s.a);
      Owe(s.(a := b), owes)
    case SetProperties(cbBuffer, cBuffers, cbAlign, cbPrefix, granularity) =>
      s.(a := SetPropertiesRegion(s.a, cbBuffer, cBuffers, cbAlign, cbPrefix, granularity).0)
  }

  function Owe(s: System, owes: bool): System {
    if owes then s.(pendingReleases := s.pendingReleases + 1) else s
  }

  // ---- The invariants ----

  predicate Live(a: AllocatorState) { a.committed || a.decommitting }

  /** The header's (1), its counterpart for a decommitted allocator, and the exact form of its (2). */
  ghost predicate WaitingOk(s: System) {
    && (s.a.free != [] ==> s.a.waiting == 0)
    && (!s.a.committed ==> s.a.waiting == 0)
    && s.a.waiting + s.a.sem == |s.waiters| + s.misses
  }

  /** Every sample is either free or outstanding, once. */
  ghost predicate SamplesOk(s: System) {
    && (forall i, j :: 0 <= i < j < |s.a.free| ==> s.a.free[i] != s.a.free[j])
    && (forall x :: x in s.a.free ==> x !in s.refs && x < s.a.nextId)
    && (forall x :: x in s.refs ==> x < s.a.nextId && s.refs[x] > 0)
    && |s.a.free| + |s.refs| == s.a.total
    && (!s.a.hasBlock ==> s.a.total == 0)
  }

  /** Decommit completes exactly when the last buffer is back; the allocator keeps itself alive until then. */
  ghost predicate LifecycleOk(s: System) {
    && !(s.a.committed && s.a.decommitting)
    && (s.a.decommitting ==> s.refs != map[])
    && (s.refs != map[] ==> Live(s.a))
    && s.selfRefs == (if Live(s.a) then 1 else 0) + s.pendingReleases
    && s.a.allocs == s.a.frees + if Live(s.a) then 1 else 0
  }

  /** A committed allocator owns exactly the number of buffers last agreed. */
  ghost predicate AgreedOk(a: AllocatorState) {
    Live(a) || (!a.changed && a.count > 0 && a.size > 0 && a.alignment > 0) ==>
      a.hasBlock && !a.changed && a.total == a.count
  }

  ghost predicate Inv(s: System) {
    WaitingOk(s) && SamplesOk(s) && LifecycleOk(s) && AgreedOk(s.a)
  }

  lemma GetKeepsInv(s: System, t: Thread, noWait: bool)
    requires Inv(s) && Enabled(s, Get(t, noWait))
    ensures Inv(Apply(s, Get(t, noWait)))
  {
    if s.a.committed && s.a.free != [] {
      var x := s.a.free[0];
      assert x in s.a.free;
      var s' := Apply(s, Get(t, noWait));
      assert forall y :: y in s'.a.free ==> y in s.a.free && y != x;
    }
  }

  lemma RemoveOne<T>(m: map<T, nat>, x: T)
    requires x in m
    ensures |m - {x}| == |m| - 1
  {
  }

  lemma ReleaseKeepsInv(s: System, x: Sample)
    requires Inv(s) && Enabled(s, Release(x))
    ensures Inv(Apply(s, Release(x)))
  {
    if s.refs[x] > 1 {
      return;
    }
    var s' := Apply(s, Release(x));
    RemoveOne(s.refs, x);
    assert s'.a.free == [x] + s.a.free;
    assert |s'.refs| == |s.refs| - 1;
    assert s'.refs == map[] <==> |s'.a.free| == s.a.total;
  }

  lemma CommitKeepsInv(s: System, memoryOk: bool)
    requires Inv(s)
    ensures Inv(Apply(s, Commit(memoryOk)))
  {
    if !Live(s.a) {
      assert s.refs == map[];
      var s' := Apply(s, Commit(memoryOk));
      NewSamplesFresh(s.a.nextId, s'.a.total);
    }
  }

  lemma NewSamplesFresh(first: nat, n: nat)
    ensures forall x :: x in NewSamples(first, n) ==> first <= x < first + n
  {
  }

  lemma WakeKeepsInv(s: System, t: Thread)
    requires Inv(s) && Enabled(s, Wake(t))
    ensures Inv(Apply(s, Wake(t)))
  {
  }

  lemma AddRefKeepsInv(s: System, x: Sample)
    requires Inv(s) && Enabled(s, AddRef(x))
    ensures Inv(Apply(s, AddRef(x)))
  {
  }

  lemma DecommitKeepsInv(s: System)
    requires Inv(s)
    ensures Inv(Apply(s, Decommit))
  {
  }

  lemma SetPropertiesKeepsInv(s: System, step: Step)
    requires Inv(s) && step.SetProperties?
    ensures Inv(Apply(s, step))
  {
  }

  lemma DropReferenceKeepsInv(s: System)
    requires Inv(s) && Enabled(s, DropReference)
    ensures Inv(Apply(s, DropReference))
  {
  }

  lemma StepKeepsInv(s: System, step: Step)
    requires Inv(s) && Enabled(s, step)
    ensures Inv(Apply(s, step))
  {
    hide Inv, Apply;
    match step
    case Get(t, noWait) => GetKeepsInv(s, t, noWait);
    case Wake(t) => WakeKeepsInv(s, t);
    case AddRef(x) => AddRefKeepsInv(s, x);
    case Release(x) => ReleaseKeepsInv(s, x);
    case DropReference => DropReferenceKeepsInv(s);
    case Commit(memoryOk) => CommitKeepsInv(s, memoryOk);
    case Decommit => DecommitKeepsInv(s);
    case SetProperties(_, _, _, _, _) => SetPropertiesKeepsInv(s, step);
  }

  // ---- Runs ----

  ghost predicate Possible(s: System, steps: seq<Step>)
    decreases |steps|
  {
    steps != [] ==> Enabled(s, steps[0]) && Possible(Apply(s, steps[0]), steps[1..])
  }

  ghost function Exec(s: System, steps: seq<Step>): System
    requires Possible(s, steps)
    decreases |steps|
  {
    if steps == [] then s else Exec(Apply(s, steps[0]), steps[1..])
  }

  ghost predicate Reachable(s: System) {
    exists steps :: Possible(START, steps) && Exec(START, steps) == s
  }

  lemma {:induction false} RunKeepsInv(s: System, steps: seq<Step>)
    requires Inv(s) && Possible(s, steps)
    ensures Inv(Exec(s, steps))
    decreases |steps|
  {
    if steps == [] {
    } else {
      StepKeepsInv(s, steps[0]);
      RunKeepsInv(Apply(s, steps[0]), steps[1..]);
    }
  }

  /** In every reachable state outside the lock, the invariants hold. */
  lemma {:induction false} ReachableInv(s: System)
    requires Reachable(s)
    ensures Inv(s)
  {
    var steps :| Possible(START, steps) && Exec(START, steps) == s;
    RunKeepsInv(START, steps);
  }

  // ---- A sample's references ----

  /** The references on a sample after these steps, from n on it now; once there are none there is nothing to count. */
  function References(n: nat, x: Sample, steps: seq<Step>): nat
    decreases |steps|
  {
    if n == 0 || steps == [] then n
    else if steps[0] == AddRef(x) then References(n + 1, x, steps[1..])
    else if steps[0] == Release(x) then References(n - 1, x, steps[1..])
    else References(n, x, steps[1..])
  }

  lemma OneStepCounts(s: System, x: Sample, step: Step)
    requires Inv(s) && Enabled(s, step) && x in s.refs
    ensures var n, r := References(s.refs[x], x, [step]), Apply(s, step);
      if n == 0 then x !in r.refs && x in r.a.free else x in r.refs && r.refs[x] == n
  {
    hide AgreedOk, LifecycleOk, WaitingOk, CommitRegion, DecommitRegion, SetPropertiesRegion;
    assert [step][1..] == [];
    match step
    case Get(t, noWait) => assert s.a.free != [] ==> s.a.free[0] in s.a.free;
    case Release(y) => ReleaseLists(s, y);
    case _ =>
  }

  lemma ReleaseLists(s: System, x: Sample)
    requires Enabled(s, Release(x))
    ensures var r := Apply(s, Release(x));
      && r.refs == (if s.refs[x] > 1 then s.refs[x := s.refs[x] - 1] else s.refs - {x})
      && r.a.free == if s.refs[x] > 1 then s.a.free else [x] + s.a.free
  {
  }

  /** A sample stays out, with that many references on it, as long as one is left. */
  lemma {:induction false} OutWhileReferenced(s: System, x: Sample, steps: seq<Step>)
    requires Inv(s) && Possible(s, steps) && x in s.refs
    requires References(s.refs[x], x, steps) > 0
    ensures x in Exec(s, steps).refs && Exec(s, steps).refs[x] == References(s.refs[x], x, steps)
    decreases |steps|
  {
    hide Inv, Apply, Enabled;
    if steps == [] {
    } else {
      OneStepCounts(s, x, steps[0]);
      assert [steps[0]][1..] == [];
      StepKeepsInv(s, steps[0]);
      OutWhileReferenced(Apply(s, steps[0]), x, steps[1..]);
    }
  }

  /** GetBuffer hands out the free sample with one reference on it, and the Release that takes the last puts it back on the list. */
  lemma {:induction false} OutAndBack(s: System, t: Thread, noWait: bool, steps: seq<Step>)
    requires Inv(s) && Enabled(s, Get(t, noWait)) && s.a.committed && s.a.free != []
    requires Possible(Apply(s, Get(t, noWait)), steps)
    ensures var x, e := s.a.free[0], Exec(Apply(s, Get(t, noWait)), steps);
      var n := References(1, x, steps);
      n > 0 ==> x in e.refs && e.refs[x] == n && (x in Apply(e, Release(x)).a.free <==> n == 1)
  {
    var x, r := s.a.free[0], Apply(s, Get(t, noWait));
    assert x in r.refs && r.refs[x] == 1;
    hide Inv, Apply, Enabled;
    StepKeepsInv(s, Get(t, noWait));
    if References(1, x, steps) > 0 {
      OutWhileReferenced(r, x, steps);
      RunKeepsInv(r, steps);
      ReleaseReturns(Exec(r, steps), x);
    }
  }

  lemma ReleaseReturns(s: System, x: Sample)
    requires Inv(s) && x in s.refs
    ensures Enabled(s, Release(x)) && (x in Apply(s, Release(x)).a.free <==> s.refs[x] == 1)
  {
    hide AgreedOk, LifecycleOk, WaitingOk;
  }

  /**
   * The deadlock the header rules out: while a buffer is free, or once the allocator is
   * decommitted, the semaphore has a count for every thread that waits.
   */
  lemma {:induction false} NoThreadStaysBlocked(s: System)
    requires Reachable(s)
    requires s.a.free != [] || !s.a.committed
    ensures s.a.sem >= |s.waiters|
    ensures forall t :: t in s.waiters ==> Enabled(s, Wake(t))
  {
    ReachableInv(s);
    forall t | t in s.waiters
      ensures s.a.sem > 0
    {
      assert |s.waiters - {t}| == |s.waiters| - 1;
    }
  }

  /** What the header's equality (2) becomes: it is short by the no-wait calls that gave up. */
  lemma {:induction false} WaitingAccount(s: System)
    requires Reachable(s)
    ensures s.a.waiting + s.a.sem >= |s.waiters|
    ensures s.a.waiting + s.a.sem == |s.waiters| <==> s.misses == 0
  {
    ReachableInv(s);
  }

  lemma {:induction false} NoMissesWithoutNoWait(s: System, steps: seq<Step>)
    requires Possible(s, steps)
    requires forall i :: 0 <= i < |steps| && steps[i].Get? ==> !steps[i].noWait
    ensures Exec(s, steps).misses == s.misses
    decreases |steps|
  {
    if steps == [] {
    } else {
      NoMissesWithoutNoWait(Apply(s, steps[0]), steps[1..]);
    }
  }

  /** So on runs without AM_GBF_NOWAIT the header's equality holds as stated. */
  lemma {:induction false} HeaderEqualityWithoutNoWait(steps: seq<Step>)
    requires Possible(START, steps)
    requires forall i :: 0 <= i < |steps| && steps[i].Get? ==> !steps[i].noWait
    ensures var s := Exec(START, steps); s.a.waiting + s.a.sem == |s.waiters|
  {
    RunKeepsInv(START, steps);
    NoMissesWithoutNoWait(START, steps);
  }

  /** Exec one step at a time from the front. */
  lemma ExecCons(s: System, step: Step, steps: seq<Step>)
    requires Enabled(s, step) && Possible(Apply(s, step), steps)
    ensures Possible(s, [step] + steps) && Exec(s, [step] + steps) == Exec(Apply(s, step), steps)
  {
  }

  /**
   * With it, it does not: one buffer, taken, then a no-wait request leaves m_lWaiting at 1
   * with nobody waiting.
   */
  lemma {:induction false} HeaderEqualityFails()
    ensures exists s :: Reachable(s) && s.a.waiting + s.a.sem != |s.waiters|
  {
    hide SetPropertiesRegion, CommitRegion, AlignOk;
    var setup, commit, take, miss := SetProperties(4, 1, 1, 0, 0x1_0000), Commit(true), Get(1, false), Get(2, true);
    OneBufferCommitted();
    var s1 := Apply(START, setup);
    var s2 := Apply(s1, commit);
    var s3 := Apply(s2, take);
    var s4 := Apply(s3, miss);
    ExecCons(s3, miss, []);
    ExecCons(s2, take, [miss]);
    ExecCons(s1, commit, [take] + [miss]);
    ExecCons(START, setup, [commit] + ([take] + [miss]));
    assert Reachable(s4);
  }

  lemma OneBufferCommitted()
    ensures var s := Apply(Apply(START, SetProperties(4, 1, 1, 0, 0x1_0000)), Commit(true));
      s.a.free == [0] && s.a.committed && s.a.waiting == 0 && s.a.sem == 0 && s.waiters == {}
  {
    AnyAlignmentPasses(1);
    hide AlignOk;
    assert NewSamples(0, 1) == [0];
    assert RoundRequest(4, 0, 1) == 4;
    assert ComputeLayout(4, 0, 1, 1) == Layout(4);
  }

  /** Free is called only as a decommit completes: with every buffer back, and at most once for each allocation. */
  lemma {:induction false} FreeOncePerDecommit(s: System, step: Step)
    requires Reachable(s) && Enabled(s, step)
    ensures var s' := Apply(s, step);
      && s.a.frees <= s'.a.frees <= s.a.frees + 1
      && (s'.a.frees > s.a.frees ==> s'.refs == map[] && Live(s.a) && !Live(s'.a))
      && (Live(s.a) && !Live(s'.a) ==> s'.a.frees == s.a.frees + 1)
      && s'.a.allocs == s'.a.frees + if Live(s'.a) then 1 else 0
  {
    ReachableInv(s);
    StepKeepsInv(s, step);
    if step.Release? {
      ReleaseFreesLast(s, step.x);
    } else {
      hide WaitingOk, SamplesOk, AgreedOk, NewSamples;
      if step.Decommit? {
        DecommitFreesIdle(s);
      }
    }
  }

  lemma ReleaseFreesLast(s: System, x: Sample)
    requires Inv(s) && Enabled(s, Release(x))
    ensures var s' := Apply(s, Release(x));
      if s'.a.frees == s.a.frees then Live(s'.a) == Live(s.a)
      else s'.a.frees == s.a.frees + 1 && s'.refs == map[] && Live(s.a) && !Live(s'.a)
  {
    hide WaitingOk, AgreedOk;
    RemoveOne(s.refs, x);
  }

  lemma DecommitFreesIdle(s: System)
    requires Inv(s)
    ensures Apply(s, Decommit).a.frees > s.a.frees ==> s.refs == map[]
  {
  }

  /** No outstanding sample outlives the allocator: it holds a reference on itself as long as one is out. */
  lemma {:induction false} SamplesKeepAllocatorAlive(s: System)
    requires Reachable(s)
    ensures s.refs != map[] ==> s.selfRefs >= 1
    ensures s.a.decommitting ==> !s.a.committed && s.refs != map[]
    ensures s.selfRefs == (if s.a.committed || s.a.decommitting then 1 else 0) + s.pendingReleases
    ensures |s.a.free| + |s.refs| == s.a.total
  {
    ReachableInv(s);
  }
}
