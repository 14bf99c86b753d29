/**
 * CBaseAllocator's free list: CSampleList, a singly linked list of the samples
 * themselves with a count beside it.
 */
module SampleList {
  import opened Sequences

  class CMediaSample {
    const id: nat               // tells samples apart
    const pointer: int          // m_pBuffer, as an offset into the allocator's block
    var next: CMediaSample?     // m_pNext

    constructor (id: nat, pointer: int)
      ensures this.id == id && this.pointer == pointer && next == null
    {
      this.id, this.pointer, next := id, pointer, null;
    }
  }

  /** The samples link up from the first to the last without a cycle. */
  ghost predicate Linked(nodes: seq<CMediaSample>)
    reads nodes
  {
    && Distinct(nodes)
    && (forall i {:trigger nodes[i].next} :: 0 <= i < |nodes| ==>
          nodes[i].next == if i + 1 < |nodes| then nodes[i + 1] else null)
  }

  function Without<T(==)>(s: seq<T>, x: T): seq<T> {
    if s == [] then [] else if s[0] == x then s[1..] else [s[0]] + Without(s[1..], x)
  }

  lemma {:induction false} WithoutAt<T>(s: seq<T>, x: T, k: nat)
    requires k <= |s| && (k < |s| ==> s[k] == x)
    requires forall i :: 0 <= i < k ==> s[i] != x
    ensures Without(s, x) == if k < |s| then s[..k] + s[k + 1..] else s
  {
    if k == 0 {
      assert |s| > 0 ==> s[..0] + s[1..] == s[1..];
    } else {
      WithoutAt(s[1..], x, k - 1);
      assert s == [s[0]] + s[1..];
      if k < |s| {
        assert s[..k] == [s[0]] + s[1..][..k - 1] && s[k + 1..] == s[1..][k..];
      }
    }
  }

  class CSampleList {
    var m_List: CMediaSample?
    var m_nOnList: nat
    ghost var spine: seq<CMediaSample>

    ghost predicate Valid()
      reads this, spine
    {
      && Linked(spine) && m_List == (if spine == [] then null else spine[0]) && m_nOnList == |spine|
    }

    constructor ()
      ensures Valid() && spine == []
    {
      m_List, m_nOnList, spine := null, 0, [];
    }

    function GetCount(): nat
      reads this
    {
      m_nOnList
    }

    /** Puts a sample that is not on the list at its head. */
    method Add(p: CMediaSample)
      requires Valid() && p !in spine
      modifies this, p`next
      ensures Valid() && spine == [p] + old(spine)
    {
      p.next := m_List;
      m_List := p;
      m_nOnList := m_nOnList + 1;
      spine := [p] + spine;
      assert forall i {:trigger spine[i].next} :: 1 <= i < |spine| ==> spine[i] == old(spine)[i - 1];
    }

    /** Takes the head off, if there is one. */
    method RemoveHead() returns (p: CMediaSample?)
      requires Valid()
      modifies this
      ensures Valid()
      ensures if old(spine) == [] then p == null && spine == []
              else p == old(spine)[0] && spine == old(spine)[1..]
    {
      p := m_List;
      if p != null {
        assert spine[0].next == if 1 < |spine| then spine[1] else null;
        m_List := p.next;
        m_nOnList := m_nOnList - 1;
        spine := spine[1..];
        assert forall i {:trigger spine[i].next} :: 0 <= i < |spine| ==> spine[i] == old(spine)[i + 1];
      }
    }

    /** Takes a sample off wherever it is; false if it is not on the list. The source walks the links themselves; here prev owns the link. */
    method Remove(p: CMediaSample) returns (found: bool)
      requires Valid()
      modifies this, spine
      ensures Valid()
      ensures found == (p in old(spine)) && spine == Without(old(spine), p)
      ensures found ==> p.next == null
    {
      var prev: CMediaSample? := null;
      var search := m_List;
      ghost var k := 0;
      while search != null && search != p
        invariant k <= |spine| && search == (if k < |spine| then spine[k] else null)
        invariant prev == if k == 0 then null else spine[k - 1]
        invariant forall i :: 0 <= i < k ==> spine[i] != p
        decreases |spine| - k
      {
        assert spine[k].next == if k + 1 < |spine| then spine[k + 1] else null;
        prev, search, k := search, search.next, k + 1;
      }
      WithoutAt(spine, p, k);
      found := search != null;
      if found {
        Unlink(prev, p, k);
      }
    }

    method Unlink(prev: CMediaSample?, p: CMediaSample, ghost k: nat)
      requires Valid() && k < |spine| && spine[k] == p && prev == if k == 0 then null else spine[k - 1]
      modifies this, spine
      ensures Valid() && p.next == null && spine == old(spine[..k] + spine[k + 1..])
    {
      assert spine[k].next == if k + 1 < |spine| then spine[k + 1] else null;
      if prev == null {
        m_List := p.next;
      } else {
        prev.next := p.next;
      }
      p.next := null;
      m_nOnList := m_nOnList - 1;
      ghost var was := spine;
      spine := spine[..k] + spine[k + 1..];
      forall i {:trigger spine[i].next} | 0 <= i < |spine|
        ensures spine[i].next == if i + 1 < |spine| then spine[i + 1] else null
      {
        var j := if i < k then i else i + 1;
        assert spine[i] == was[j];
        assert old(was[j].next) == if j + 1 < |was| then was[j + 1] else null;
      }
    }
  }
}
