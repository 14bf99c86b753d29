/**
 * The buffer arithmetic of CMemAllocator: how Alloc lays the samples out in one
 * block, in 32-bit arithmetic with the overflow checks the source makes.
 */
module AllocatorLayout {
  import opened Words

  const MAXLONG: int := 0x7FFF_FFFF

  datatype Layout = OutOfMemory | Layout(stride: int32)

  /** The distance from one buffer to the next, or the overflow the code detects. */
  function AlignedSize(size: int32, prefix: int32, align: int32): Layout
    requires size > 0 && align > 0
  {
    if prefix < 0 then OutOfMemory else
    var sum := ToS32(size + prefix);
    if sum < size then OutOfMemory else
    var rem := if align > 1 then TruncMod(sum, align) else 0;
    var stride := if rem != 0 then ToS32(ToS32(sum + align) - rem) else sum;
    if stride < sum then OutOfMemory else Layout(stride)
  }

  function ComputeLayout(size: int32, prefix: int32, align: int32, count: int32): Layout
    requires size > 0 && align > 0 && count > 0
  {
    match AlignedSize(size, prefix, align)
    case OutOfMemory => OutOfMemory
    case Layout(stride) => if count * stride > MAXLONG then OutOfMemory else Layout(stride)
  }

  function RoundUp(n: nat, align: nat): nat
    requires align > 0
  {
    if n % align == 0 then n else n - n % align + align
  }

  /** RoundUp is the least multiple of the alignment that is not smaller. */
  lemma {:induction false} RoundUpMeaning(n: nat, align: nat)
    requires align > 0
    ensures RoundUp(n, align) % align == 0 && n <= RoundUp(n, align) < n + align
  {
    DivModDefinition(n, align);
    var q := n / align;
    assert q * align + align == (q + 1) * align;
    DivUnique(if n % align == 0 then n else n - n % align + align, align, if n % align == 0 then q else q + 1, 0);
  }

  lemma WrapDetected(x: int32, y: int32)
    requires x >= 0 && y >= 0
    ensures ToS32(x + y) == x + y <==> x + y <= MAXLONG
    ensures x + y > MAXLONG ==> ToS32(x + y) == x + y - 0x1_0000_0000 < x
  {
  }

  lemma WrapTwice(x: int, y: int32)
    ensures ToS32(ToS32(x) - y) == ToS32(x - y)
  {
  }

  lemma StrideExact(size: int32, prefix: int32, align: int32)
    requires size > 0 && align > 0 && prefix >= 0
    ensures AlignedSize(size, prefix, align) ==
            if RoundUp(size + prefix, align) > MAXLONG then OutOfMemory
            else Layout(RoundUp(size + prefix, align))
  {
    hide ToS32, TruncMod, RoundUp;
    var n := size + prefix;
    WrapDetected(size, prefix);
    RoundUpMeaning(n, align);
    if n <= MAXLONG {
      Remainder(n, align);
      var rem := n % align;
      WrapTwice(n + align, rem);
      if rem != 0 {
        WrapDetected(n, align - rem);
      }
    }
  }

  /**
   * The overflow checks are exact: Alloc gives up for lack of address space precisely when the
   * true size of the block, computed without wrap-around, does not fit a LONG.
   */
  lemma {:induction false} LayoutExact(size: int32, prefix: int32, align: int32, count: int32)
    requires size > 0 && align > 0 && count > 0 && prefix >= 0
    ensures ComputeLayout(size, prefix, align, count) ==
            if count * RoundUp(size + prefix, align) > MAXLONG then OutOfMemory
            else Layout(RoundUp(size + prefix, align))
  {
    StrideExact(size, prefix, align);
    var exact := RoundUp(size + prefix, align);
    assert count * exact == exact + (count - 1) * exact;
    RoundUpMeaning(size + prefix, align);
    if count > 1 {
      MulAtLeast(count - 1, exact);
    }
  }

  lemma MultipleOfStride(stride: nat, align: nat, i: nat)
    requires align > 0 && stride % align == 0
    ensures (i * stride) % align == 0
  {
    DivModDefinition(stride, align);
    var q := stride / align;
    assert i * stride == (i * q) * align by {
      assert stride == q * align;
      assert i * (q * align) == (i * q) * align;
    }
    DivUnique(i * stride, align, i * q, 0);
  }

  lemma SlotsApart(stride: nat, i: nat, j: nat)
    requires stride > 0 && i < j
    ensures i * stride + stride <= j * stride
  {
    MulAtLeast(j - i, stride);
    assert j * stride - i * stride == (j - i) * stride;
  }

  /** Buffers of a successful layout are aligned and lie inside the block, and no two overlap. */
  lemma {:induction false} BuffersDisjoint(size: int32, prefix: int32, align: int32, count: int32, i: nat, j: nat)
    requires size > 0 && align > 0 && count > 0 && prefix >= 0
    requires ComputeLayout(size, prefix, align, count).Layout?
    requires i < count && j < count
    ensures var stride := ComputeLayout(size, prefix, align, count).stride;
      && stride >= 0
      && (i * stride) % align == 0
      && 0 <= i * stride && i * stride + prefix + size <= count * stride <= MAXLONG
      && (i < j ==> i * stride + prefix + size <= j * stride)
  {
    hide ComputeLayout, RoundUp;
    LayoutExact(size, prefix, align, count);
    RoundUpMeaning(size + prefix, align);
    var stride := RoundUp(size + prefix, align);
    MultipleOfStride(stride, align, i);
    SlotsApart(stride, i, count);
    if i < j {
      SlotsApart(stride, i, j);
    }
    NotNegative(i, stride);
  }

  lemma NotNegative(x: int, y: int)
    requires x >= 0 && y >= 0
    ensures x * y >= 0
  {
  }

  // ---- SetProperties ----

  /** The source's test of an alignment: no bit of cbAlign - 1 is set in the system's allocation granularity. */
  predicate AlignOk(granularity: uint32, cbAlign: int32): (ok: bool)
    ensures ok ==> cbAlign != 0
  {
    cbAlign != 0 && BitAnd(granularity, ToU32(cbAlign - 1)) == 0
  }

  /** With a granularity of 2^g this is a test of one bit. */
  lemma {:induction false} AlignOkIff(g: nat, cbAlign: int32)
    requires g < 32 && Pow2(g) < B32 && cbAlign > 0
    ensures AlignOk(Pow2(g), cbAlign) <==> (cbAlign - 1) / Pow2(g) % 2 == 0
  {
    DivUnique(cbAlign - 1, B32, 0, cbAlign - 1);
    OneBit(g, cbAlign - 1);
  }

  lemma {:induction false} OneBit(g: nat, y: nat)
    ensures BitAnd(Pow2(g), y) == if y / Pow2(g) % 2 == 0 then 0 else Pow2(g)
    decreases g
  {
    if g == 0 {
      assert BitAnd(1, y) == (if y % 2 == 1 then 1 else 0) + 2 * BitAnd(0, y / 2);
      assert BitAnd(0, y / 2) == 0;
    } else {
      var p := Pow2(g - 1);
      assert 2 * p / 2 == p && 2 * p % 2 == 0;
      OneBit(g - 1, y / 2);
      DivTwice(y, p);
    }
  }

  lemma DivTwice(y: nat, p: nat)
    requires p > 0
    ensures y / (2 * p) == y / 2 / p
  {
    DivModDefinition(y / 2, p);
    var q, r := y / 2 / p, y / 2 % p;
    assert q * (2 * p) == 2 * (q * p);
    DivUnique(y, 2 * p, q, 2 * r + y % 2);
  }

  /** So with the usual 64K every alignment up to it passes, a power of two or not. */
  lemma {:induction false} AnyAlignmentPasses(cbAlign: int32)
    requires 1 <= cbAlign <= 0x1_0000
    ensures AlignOk(0x1_0000, cbAlign)
  {
    assert Pow2(15) == 0x8000;
    assert Pow2(16) == 0x1_0000;
    hide AlignOk;
    AlignOkIff(16, cbAlign);
    DivUnique(cbAlign - 1, 0x1_0000, 0, cbAlign - 1);
  }

  /** SetProperties rounds the requested length, prefix included, up to the alignment. */
  function RoundRequest(cbBuffer: int32, cbPrefix: int32, cbAlign: int32): int32
    requires cbAlign != 0
  {
    var size := ToS32(cbBuffer + cbPrefix);
    var rem := TruncMod(size, cbAlign);
    var rounded := if rem != 0 then ToS32(ToS32(size - rem) + cbAlign) else size;
    ToS32(rounded - cbPrefix)
  }

  /** A request whose agreed length comes out right: nothing wraps, or everything wraps back. */
  predicate Agreeable(cbBuffer: int32, cbPrefix: int32, cbAlign: int32)
    requires cbBuffer > 0 && cbPrefix >= 0 && cbAlign > 0
  {
    var n := cbBuffer + cbPrefix;
    if n <= MAXLONG then RoundUp(n, cbAlign) - cbPrefix <= MAXLONG
    else n % cbAlign == 0 && (B32 - n) % cbAlign == 0
  }

  /** The agreed length plus the prefix is the request rounded up exactly when the request is agreeable; it is then at least what was asked for. */
  lemma {:induction false} RoundRequestExact(cbBuffer: int32, cbPrefix: int32, cbAlign: int32)
    requires cbBuffer > 0 && cbPrefix >= 0 && cbAlign > 0
    ensures RoundRequest(cbBuffer, cbPrefix, cbAlign) == RoundUp(cbBuffer + cbPrefix, cbAlign) - cbPrefix <==>
            Agreeable(cbBuffer, cbPrefix, cbAlign)
    ensures Agreeable(cbBuffer, cbPrefix, cbAlign) ==> RoundRequest(cbBuffer, cbPrefix, cbAlign) >= cbBuffer
  {
    RoundUpMeaning(cbBuffer + cbPrefix, cbAlign);
    if cbBuffer + cbPrefix <= MAXLONG {
      RoundsWithoutWrap(cbBuffer, cbPrefix, cbAlign);
    } else {
      RoundsWrapped(cbBuffer, cbPrefix, cbAlign);
    }
  }

  /** The wraps of a chain of additions can be taken all at once. */
  lemma WrapChain(x: int, y: int)
    ensures ToS32(ToS32(x) + y) == ToS32(x + y)
  {
    DivModDefinition(x, B32);
    DivModDefinition(x + y, B32);
    var q := (ToS32(x) - x) / B32;
    SameResidue(ToS32(x) + y, x + y, if x % B32 < 0x8000_0000 then -(x / B32) else -(x / B32) - 1);
  }

  lemma SameResidue(a: int, b: int, k: int)
    requires a == b + k * B32
    ensures ToS32(a) == ToS32(b)
  {
    DivModDefinition(b, B32);
    assert a == (b / B32 + k) * B32 + b % B32;
    DivUnique(a, B32, b / B32 + k, b % B32);
  }

  /** A value just past the range is not its own wrap. */
  lemma FitsIff(x: int)
    requires -0x8000_0000 <= x < B32
    ensures ToS32(x) == x <==> x <= MAXLONG
  {
  }

  lemma RoundsWithoutWrap(cbBuffer: int32, cbPrefix: int32, cbAlign: int32)
    requires cbBuffer > 0 && cbPrefix >= 0 && cbAlign > 0 && cbBuffer + cbPrefix <= MAXLONG
    ensures RoundRequest(cbBuffer, cbPrefix, cbAlign) == ToS32(RoundUp(cbBuffer + cbPrefix, cbAlign) - cbPrefix)
    ensures RoundRequest(cbBuffer, cbPrefix, cbAlign) == RoundUp(cbBuffer + cbPrefix, cbAlign) - cbPrefix <==>
            RoundUp(cbBuffer + cbPrefix, cbAlign) - cbPrefix <= MAXLONG
  {
    hide ToS32, TruncMod, RoundUp;
    var n := cbBuffer + cbPrefix;
    FitsIff(n);
    Remainder(n, cbAlign);
    RoundUpMeaning(n, cbAlign);
    WrapChain(n - n % cbAlign, cbAlign);
    WrapChain(n - n % cbAlign + cbAlign, -1 * cbPrefix);
    FitsIff(RoundUp(n, cbAlign) - cbPrefix);
  }

  lemma Remainder(n: int32, align: int32)
    requires align > 0
    ensures n >= 0 ==> TruncMod(n, align) == n % align && 0 <= n % align < align
    ensures n >= 0 ==> RoundUp(n, align) == if n % align == 0 then n else n - n % align + align
    ensures n < 0 ==> TruncMod(n, align) == -1 * (Abs(n) % align) && 0 <= Abs(n) % align < align
  {
  }

  lemma RoundsWrapped(cbBuffer: int32, cbPrefix: int32, cbAlign: int32)
    requires cbBuffer > 0 && cbPrefix >= 0 && cbAlign > 0 && cbBuffer + cbPrefix > MAXLONG
    ensures var n := cbBuffer + cbPrefix;
      && (RoundRequest(cbBuffer, cbPrefix, cbAlign) == RoundUp(n, cbAlign) - cbPrefix <==>
          n % cbAlign == 0 && (B32 - n) % cbAlign == 0)
      && (n % cbAlign == 0 && (B32 - n) % cbAlign == 0 ==> RoundRequest(cbBuffer, cbPrefix, cbAlign) == cbBuffer)
  {
    hide ToS32, TruncMod, RoundUp;
    var n := cbBuffer + cbPrefix;
    var m := (B32 - n) % cbAlign;
    Wraps(n);
    Remainder(n - B32, cbAlign);
    RoundUpMeaning(n, cbAlign);
    RoundUpIsSelf(n, cbAlign);
    var up := RoundUp(n, cbAlign) - cbPrefix;
    if m == 0 {
      FitsIff(cbBuffer);
      SameResidue(n - B32 - cbPrefix, cbBuffer, -1);
    } else {
      WrapChain(n - B32 + m, cbAlign);
      WrapChain(n - B32 + m + cbAlign, -1 * cbPrefix);
      Overshoots(cbBuffer, m + cbAlign, up - cbBuffer);
    }
  }

  lemma Wraps(n: int)
    requires MAXLONG < n < B32
    ensures ToS32(n) == n - B32
  {
  }

  lemma RoundUpIsSelf(n: nat, align: nat)
    requires align > 0
    ensures RoundUp(n, align) == n <==> n % align == 0
  {
  }

  /** Rounding a negative sum goes the other way, and a whole block too far. */
  lemma Overshoots(x: int, e: int, d: int)
    requires d < e < d + B32
    ensures ToS32(x + e - B32) != x + d
  {
    DivModDefinition(x + e - B32, B32);
    if ToS32(x + e - B32) == x + d {
      var k := (x + e - B32) / B32;
      var u := (x + e - B32) % B32;
      assert x + d == u || x + d == u - B32;
      BetweenMultiples(e - d, if x + d == u then k + 1 else k + 2);
    }
  }

  lemma BetweenMultiples(y: int, k: int)
    requires 0 < y < B32
    ensures y != k * B32
  {
  }

  /** After SetProperties has agreed, Alloc adds no padding of its own; it gives up only if the rounded size does not fit. */
  lemma {:induction false} NoFurtherPadding(cbBuffer: int32, cbPrefix: int32, cbAlign: int32)
    requires cbBuffer > 0 && cbPrefix >= 0 && cbAlign > 0 && Agreeable(cbBuffer, cbPrefix, cbAlign)
    ensures var size, up := RoundRequest(cbBuffer, cbPrefix, cbAlign), RoundUp(cbBuffer + cbPrefix, cbAlign);
      size > 0 && AlignedSize(size, cbPrefix, cbAlign) == if up > MAXLONG then OutOfMemory else Layout(up)
  {
    hide AlignedSize, RoundRequest, RoundUp, Agreeable;
    var up := RoundUp(cbBuffer + cbPrefix, cbAlign);
    RoundRequestExact(cbBuffer, cbPrefix, cbAlign);
    RoundUpMeaning(cbBuffer + cbPrefix, cbAlign);
    RoundUpIsSelf(up, cbAlign);
    StrideExact(RoundRequest(cbBuffer, cbPrefix, cbAlign), cbPrefix, cbAlign);
  }

  /** A request that wraps the wrong way: the length agreed is negative. */
  lemma {:induction false} WrappedRequestAgreesNonsense()
    ensures RoundRequest(0x7FFF_FFFF, 2, 0x1_0000) == -0x7FFE_0002
    ensures !Agreeable(0x7FFF_FFFF, 2, 0x1_0000)
  {
    assert ToS32(0x8000_0001) == -0x7FFF_FFFF;
    assert TruncMod(-0x7FFF_FFFF, 0x1_0000) == -0xFFFF;
  }
}
