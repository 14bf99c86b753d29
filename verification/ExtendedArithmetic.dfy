/**
 * llMulDiv and Int64x32Div32: (a * b + d) / c through a 128-bit (or 96-bit)
 * intermediate held in machine words. Every word operation wraps explicitly;
 * the proofs show which of them never do.
 */
module ExtendedArithmetic {
  import opened Words

  // ---- The mathematical specification ----

  /** The sign the code ends with. A zero numerator keeps the sign of the factors. */
  predicate NegativeResult(a: int64, b: int64, c: int64, d: int64) {
    var n := a * b + d;
    (if n == 0 then (a < 0) != (b < 0) else n < 0) != (c < 0)
  }

  predicate TooLarge(n: int, c: int) {
    c == 0 || Abs(n) / Abs(c) >= B64
  }

  /** n / c as a 64-bit result; `negative` is consulted only when the result saturates. */
  function Quotient64(n: int, c: int, negative: bool): int64 {
    if TooLarge(n, c) then
      if negative then MIN64 else MAX64
    else
      ToS64(TruncDiv(n, c))
  }

  function MulDiv(a: int64, b: int64, c: int64, d: int64): int64 {
    Quotient64(a * b + d, c, NegativeResult(a, b, c, d))
  }

  /** The result is the quotient truncated toward zero exactly when that quotient is a 64-bit value. */
  lemma {:induction false} MulDivExactIffFits(a: int64, b: int64, c: int64, d: int64)
    requires c != 0
    ensures MulDiv(a, b, c, d) == TruncDiv(a * b + d, c) <==> MIN64 <= TruncDiv(a * b + d, c) <= MAX64
  {
  }

  /** Saturation is by magnitude: the divisor is zero or the quotient needs more than 64 unsigned bits. */
  lemma {:induction false} TooLargeIff(n: int, c: int)
    ensures TooLarge(n, c) <==> Abs(n) >= Abs(c) * B64
  {
    if c != 0 {
      QuotientBelow(Abs(n), Abs(c), B64);
    }
  }

  /** Short of saturation the result is always the quotient modulo 2^64. */
  lemma {:induction false} MulDivCongruent(a: int64, b: int64, c: int64, d: int64)
    requires !TooLarge(a * b + d, c)
    ensures (MulDiv(a, b, c, d) - TruncDiv(a * b + d, c)) % B64 == 0
  {
  }

  /**
   * A saturated result is the 64-bit end nearer to the quotient. Without a divisor it has the
   * sign of the numerator, and for a numerator of zero that of the factors.
   */
  lemma {:induction false} SaturatesTowardsQuotient(a: int64, b: int64, c: int64, d: int64)
    requires TooLarge(a * b + d, c)
    ensures c != 0 ==> var q := TruncDiv(a * b + d, c);
              if q < 0 then q < MIN64 && MulDiv(a, b, c, d) == MIN64 else q > MAX64 && MulDiv(a, b, c, d) == MAX64
    ensures c == 0 && a * b + d != 0 ==> MulDiv(a, b, c, d) == if a * b + d < 0 then MIN64 else MAX64
    ensures c == 0 && a * b + d == 0 ==> MulDiv(a, b, c, d) == if (a < 0) != (b < 0) then MIN64 else MAX64
  {
    SaturationSign(a * b + d, c);
  }

  lemma SaturationSign(n: int, c: int)
    requires c != 0 ==> TooLarge(n, c)
    ensures c != 0 ==> n != 0 && (if (n < 0) != (c < 0) then TruncDiv(n, c) < MIN64 else TruncDiv(n, c) > MAX64)
  {
  }

  /**
   * The source says its one test catches overflow. It does not catch quotients from 2^63 up to
   * 2^64: here 2^62 * 2 / 1 comes back negative, neither exact nor saturated.
   */
  lemma {:induction false} OverflowNotCaught()
    ensures MulDiv(0x4000_0000_0000_0000, 2, 1, 0) == MIN64
    ensures TruncDiv(0x4000_0000_0000_0000 * 2 + 0, 1) == MAX64 + 1
    ensures !TooLarge(0x4000_0000_0000_0000 * 2 + 0, 1)
  {
  }

  /** What truncation toward zero means: the remainder is smaller than the divisor and has the dividend's sign. */
  lemma {:induction false} TruncDivMeaning(n: int, c: int)
    requires c != 0
    ensures var r := n - TruncDiv(n, c) * c; Abs(r) < Abs(c) && (r == 0 || (r < 0) == (n < 0))
  {
  }

  // ---- Long multiplication ----

  lemma MulMono(x: nat, xMax: nat, y: nat, yMax: nat)
    requires x <= xMax && y <= yMax
    ensures 0 <= x * y <= xMax * yMax
  {
  }

  /** Schoolbook multiplication of two two-digit numbers in base B. */
  lemma ProductOfHalves(B: nat, al: nat, ah: nat, bl: nat, bh: nat)
    ensures (ah * B + al) * (bh * B + bl) == ah * bh * B * B + (al * bh + ah * bl) * B + al * bl
  {
  }

  /**
   * The bound claimed in the source's comment: with both factors at most 2^63 the sum of the
   * cross products and the carry fits a 64-bit word, and so does the top word.
   */
  lemma PartialsFit(al: uint32, ah: uint32, bl: uint32, bh: uint32)
    requires ah <= 0x8000_0000 && bh <= 0x8000_0000
    ensures 0 <= al * bl < B64 && 0 <= al * bh && 0 <= ah * bl
    ensures al * bh + ah * bl + al * bl / B32 < B64
    ensures 0 <= ah * bh <= 0x4000_0000_0000_0000
  {
    MulMono(al, 0xFFFF_FFFF, bh, 0x8000_0000);
    MulMono(ah, 0x8000_0000, bl, 0xFFFF_FFFF);
    MulMono(ah, 0x8000_0000, bh, 0x8000_0000);
    MulMono(al, 0xFFFF_FFFF, bl, 0xFFFF_FFFF);
  }

  method UInt32x32To64(x: uint32, y: uint32) returns (r: uint64)
    ensures r == x * y
  {
    MulMono(x, 0xFFFF_FFFF, y, 0xFFFF_FFFF);
    r := x * y;
  }

  lemma MultiplyWords(ua: uint64, ub: uint64, ll: int, lh: int, hl: int, hh: int)
    requires ua <= 0x8000_0000_0000_0000 && ub <= 0x8000_0000_0000_0000
    requires ll == Low(ua) * Low(ub) && lh == Low(ua) * High(ub)
    requires hl == High(ua) * Low(ub) && hh == High(ua) * High(ub)
    ensures ua * ub == hh * B64 + (lh + hl) * B32 + ll
    ensures 0 <= ll < B64 && 0 <= lh && 0 <= hl && 0 <= hh <= 0x4000_0000_0000_0000
    ensures lh + hl + High(ll) < B64
  {
    var al, ah, bl, bh := Low(ua), High(ua), Low(ub), High(ub);
    PartialsFit(al, ah, bl, bh);
    ProductOfHalves(B32, al, ah, bl, bh);
    assert (ah * B32 + al) * (bh * B32 + bl) == ua * ub;
    assert ah * bh * B32 * B32 == hh * B64;
  }

  /** Adds the four partial products with their carries; under the bounds no word sum wraps. */
  method AddPartials(ll: uint64, lh: uint64, hl: uint64, hh: uint64) returns (p0: uint64, p1: uint64)
    requires lh + hl + High(ll) < B64 && hh <= 0x4000_0000_0000_0000
    ensures p1 * B64 + p0 == hh * B64 + (lh + hl) * B32 + ll
  {
    p0 := ll;
    var x := ToU64(lh + hl + High(p0));
    p0 := Quad(Low(x), Low(p0));
    p1 := ToU64(hh + High(x));
  }

  method LongMultiply(ua: uint64, ub: uint64) returns (p0: uint64, p1: uint64)
    requires ua <= 0x8000_0000_0000_0000 && ub <= 0x8000_0000_0000_0000
    ensures p1 * B64 + p0 == ua * ub
  {
    var ll := UInt32x32To64(Low(ua), Low(ub));
    var lh := UInt32x32To64(Low(ua), High(ub));
    var hl := UInt32x32To64(High(ua), Low(ub));
    var hh := UInt32x32To64(High(ua), High(ub));
    MultiplyWords(ua, ub, ll, lh, hl, hh);
    p0, p1 := AddPartials(ll, lh, hl, hh);
  }

  // ---- Adding d in two's complement ----

  const B128: nat := 0x1_0000_0000_0000_0000_0000_0000_0000_0000

  method AddWords(carry: uint64, x: uint32, y: uint32) returns (total: uint64)
    requires carry <= 1
    ensures total == carry + x + y
  {
    total := ToU64(carry + x + y);
  }

  /** Adds the low quadwords one doubleword at a time; the carry out goes to the top. */
  method AddLowWords(p0: uint64, ud0: uint64) returns (q0: uint64, carry: uint64)
    ensures carry <= 1 && carry * B64 + q0 == p0 + ud0
  {
    q0 := p0;
    var total := AddWords(0, Low(ud0), Low(q0));
    HalvesOfQuad(High(q0), Low(total));
    q0 := Quad(High(q0), Low(total));
    total := Quad(0, High(total));
    total := AddWords(total, High(ud0), High(q0));
    q0 := Quad(Low(total), Low(q0));
    carry := Quad(0, High(total));
  }

  method AddHighWords(p1: uint64, ud1: uint64, carry: uint64) returns (q1: uint64)
    requires carry <= 1
    ensures q1 == p1 + ud1 + carry || q1 == p1 + ud1 + carry - B64
  {
    q1 := ToU64(p1 + ud1 + carry);
  }

  method Negate128(p0: uint64, p1: uint64) returns (q0: uint64, q1: uint64)
    requires p1 != 0
    ensures q1 * B64 + q0 == B128 - (p1 * B64 + p0)
  {
    q0 := B64 - 1 - p0;
    q1 := B64 - 1 - p1;
    q0 := ToU64(q0 + 1);
    q1 := ToU64(q1 + (if q0 == 0 then 1 else 0));
  }

  /** A signed 64-bit value, negated when asked, as a two's complement pair of quadwords. */
  method SignExtend(d: int64, negate: bool) returns (ud0: uint64, ud1: uint64)
    ensures var v := Signed(negate, d);
            if v < 0 then ud0 == v + B64 && ud1 == B64 - 1 else ud0 == v && ud1 == 0
  {
    if negate {
      ud0 := ToU64(Signed(true, d));
      ud1 := if d > 0 then ToU64(-1) else 0;
    } else {
      ud0 := ToU64(d);
      ud1 := if d < 0 then ToU64(-1) else 0;
    }
  }

  /**
   * Adds d (with the sign of the product folded in) to the 128-bit magnitude p and takes the
   * magnitude of the sum. "No carry expected" out of the top word holds because p <= 2^126.
   */
  method AddSigned(p0: uint64, p1: uint64, d: int64, bSign: bool) returns (q0: uint64, q1: uint64, s: bool)
    requires p1 <= 0x4000_0000_0000_0000
    ensures var m := p1 * B64 + p0 + Signed(bSign, d);
            q1 * B64 + q0 == Abs(m) && s == (bSign != (m < 0))
  {
    q0, q1, s := p0, p1, bSign;
    if d != 0 {
      var ud0, ud1 := SignExtend(d, bSign);
      var carry;
      q0, carry := AddLowWords(q0, ud0);
      q1 := AddHighWords(q1, ud1, carry);
      TopBitIsSign(q1);
      if High(q1) >= 0x8000_0000 {
        s := !s;
        q0, q1 := Negate128(q0, q1);
      }
    }
  }

  lemma TopBitIsSign(q: uint64)
    ensures High(q) >= 0x8000_0000 <==> q >= 0x8000_0000_0000_0000
  {
  }

  // ---- Division ----

  /** The two-step division by a 32-bit divisor. */
  method DivideByWord(p0: uint64, p1: uint64, uc: uint32) returns (q: uint64)
    requires p1 < uc
    ensures q == (p1 * B64 + p0) / uc
  {
    assert Low(p1) == p1;
    var high, rem := DivideQuad(Quad(Low(p1), High(p0)), uc);
    var low, rest := DivideQuad(Quad(rem, Low(p0)), uc);
    TwoStepDivision(p0, p1, uc, high, rem, low, rest);
    q := JoinQuotients(high, low);
  }

  method JoinQuotients(high: uint64, low: uint64) returns (q: uint64)
    requires high < B32 && low < B32
    ensures q == high * B32 + low
  {
    q := ToU64(low + Quad(ToU32(high), 0));
  }

  /** The compiler's 64-bit division and remainder by a doubleword. */
  method DivideQuad(n: uint64, c: uint32) returns (q: uint64, r: uint32)
    requires c > 0
    ensures n == q * c + r && r < c
    ensures q == n / c
  {
    DivModDefinition(n, c);
    QuotientAtMost(n, c);
    q, r := n / c, n % c;
  }

  lemma QuotientAtMost(n: nat, c: nat)
    requires c > 0
    ensures 0 <= n / c <= n
  {
    QuotientBelow(n, c, n + 1);
    MulMono(1, c, n + 1, n + 1);
  }

  /** Dividing the top two words, then the remainder with the last word, divides the whole. */
  lemma TwoStepDivision(p0: uint64, p1: uint64, uc: uint32, high: uint64, rem: uint32, low: uint64, rest: uint32)
    requires p1 < uc
    requires p1 * B32 + High(p0) == high * uc + rem && rem < uc
    requires rem * B32 + Low(p0) == low * uc + rest && rest < uc
    ensures high < B32 && low < B32
    ensures (p1 * B64 + p0) / uc == high * B32 + low
  {
    DivUnique(p1 * B32 + High(p0), uc, high, rem);
    DivUnique(rem * B32 + Low(p0), uc, low, rest);
    QuotientBelow(p1 * B32 + High(p0), uc, B32);
    QuotientBelow(rem * B32 + Low(p0), uc, B32);
    assert (high * B32 + low) * uc == high * uc * B32 + low * uc;
    DivUnique(p1 * B64 + p0, uc, high * B32 + low, rest);
  }

  lemma QuotientBelow(n: nat, c: nat, bound: nat)
    requires c > 0
    ensures n < bound * c <==> n / c < bound
  {
    DivModDefinition(n, c);
    var q := n / c;
    if q < bound {
      assert (bound - q) * c == bound * c - q * c;
      MulAtLeast(bound - q, c);
    } else if q > bound {
      assert (q - bound) * c == q * c - bound * c;
      MulAtLeast(q - bound, c);
    }
  }

  /** One iteration: the scaled equation dividend = quotient * divisor + remainder is doubled. */
  method DivisionStep(p0: uint64, p1: uint64, q: uint64, uc: uint64)
    returns (p0': uint64, p1': uint64, q': uint64)
    requires p1 < uc <= 0x8000_0000_0000_0000 && q < 0x8000_0000_0000_0000
    ensures p1' < uc && 2 * q <= q' <= 2 * q + 1
    ensures p1' * B64 + p0' == 2 * (p1 * B64 + p0) - if q' == 2 * q then 0 else uc * B64
  {
    q' := ToU64(2 * q);
    p0', p1' := ShiftLeft(p0, p1);
    if uc <= p1' {
      p1' := p1' - uc;
      q' := ToU64(q' + 1);
    }
  }

  lemma ScaledEquation(m: int, pow: int, uc: int, q: int, rem: int, low: int, q': int, rem': int, low': int)
    requires (q * uc + rem) * B64 + low == m * pow
    requires 2 * q <= q' <= 2 * q + 1
    requires rem' * B64 + low' == 2 * (rem * B64 + low) - if q' == 2 * q then 0 else uc * B64
    ensures (q' * uc + rem') * B64 + low' == m * (2 * pow)
  {
  }

  /** The 64-step shift and subtract division. */
  method LongDivision(lo: uint64, hi: uint64, uc: uint64) returns (ullResult: uint64)
    requires hi < uc <= 0x8000_0000_0000_0000
    ensures ullResult == (hi * B64 + lo) / uc
  {
    ghost var m := hi * B64 + lo;
    var p0: uint64, p1: uint64 := lo, hi;
    ullResult := 0;
    for i := 0 to 64
      invariant p1 < uc
      invariant ullResult < Pow2(i)
      invariant (ullResult * uc + p1) * B64 + p0 == m * Pow2(i)
    {
      ghost var q, rem, low := ullResult, p1, p0;
      Pow2Below64(i);
      p0, p1, ullResult := DivisionStep(p0, p1, ullResult, uc);
      ScaledEquation(m, Pow2(i), uc, q, rem, low, ullResult, p1, p0);
    }
    Pow2Of64();
    DivUnique(m, uc, ullResult, p1);
  }

  lemma Pow2Plus8(n: nat)
    ensures Pow2(n + 8) == 0x100 * Pow2(n)
  {
    assert Pow2(n + 4) == 0x10 * Pow2(n) by {
      assert Pow2(n + 2) == 4 * Pow2(n);
    }
    assert Pow2(n + 6) == 4 * Pow2(n + 4);
  }

  lemma Pow2Plus16(n: nat)
    ensures Pow2(n + 16) == 0x1_0000 * Pow2(n)
  {
    Pow2Plus8(n);
    Pow2Plus8(n + 8);
  }

  lemma Pow2Of64()
    ensures Pow2(64) == B64
  {
    Pow2Plus16(0);
    Pow2Plus16(16);
    Pow2Plus16(32);
    Pow2Plus16(48);
  }

  lemma Pow2Below64(i: nat)
    requires i < 64
    ensures Pow2(i) <= 0x8000_0000_0000_0000
  {
    Pow2Of64();
    Pow2Monotonic(i + 1, 64);
  }

  /** Shifts the pair left by one; the bit carried into the upper word lands on a zero. */
  method ShiftLeft(p0: uint64, p1: uint64) returns (q0: uint64, q1: uint64)
    requires p1 < 0x8000_0000_0000_0000
    ensures q1 * B64 + q0 == 2 * (p1 * B64 + p0)
  {
    q1 := ToU64(2 * p1);
    if High(p0) >= 0x8000_0000 {
      q1 := Quad(High(q1), ToU32(Low(q1) + 1));
    }
    q0 := ToU64(2 * p0);
  }

  /** The three division paths: one word, two steps, or the 64-step loop. */
  method Divide128(p0: uint64, p1: uint64, uc: uint64) returns (q: uint64)
    requires p1 < uc <= 0x8000_0000_0000_0000
    ensures q == (p1 * B64 + p0) / uc
  {
    if p1 == 0 {
      QuotientAtMost(p0, uc);
      q := p0 / uc;
    } else if High(uc) == 0 {
      assert Low(uc) == uc;
      q := DivideByWord(p0, p1, Low(uc));
    } else {
      q := LongDivision(p0, p1, uc);
    }
  }

  // ---- The two entry points ----

  method Magnitude(x: int64) returns (u: uint64)
    ensures u == Abs(x)
  {
    u := ToU64(if x >= 0 then x else Signed(true, x));
  }

  lemma ProductSign(a: int64, b: int64, d: int64)
    ensures 0 <= Abs(a) * Abs(b) <= 0x4000_0000_0000_0000 * B64
    ensures a * b == Signed((a < 0) != (b < 0), Abs(a) * Abs(b))
    ensures a * b + d == Signed((a < 0) != (b < 0), Abs(a) * Abs(b) + Signed((a < 0) != (b < 0), d))
  {
  }

  /** The sign is put back on the quotient by a wrapping negation. */
  method ApplySign(q: uint64, bSign: bool) returns (r: int64)
    ensures r == ToS64(Signed(bSign, q))
  {
    r := if bSign then ToS64(Signed(true, ToS64(q))) else ToS64(q);
  }

  /** The magnitude comparison in the code decides saturation, and the signed quotient is the result. */
  lemma ResultFromMagnitude(n: int, c: int, m: nat, bSign: bool)
    requires m == Abs(n)
    requires n != 0 ==> bSign == ((n < 0) != (c < 0))
    ensures Abs(c) <= m / B64 <==> TooLarge(n, c)
    ensures !TooLarge(n, c) ==> Quotient64(n, c, bSign) == ToS64(Signed(bSign, m / Abs(c)))
  {
    TooLargeIff(n, c);
    if n == 0 && c != 0 {
      DivUnique(0, Abs(c), 0, 0);
    }
  }

  /** llMulDiv: (a * b + d) / c for all 64-bit operands. */
  method LlMulDiv(a: int64, b: int64, c: int64, d: int64) returns (r: int64)
    ensures r == MulDiv(a, b, c, d)
  {
    var ua := Magnitude(a);
    var ub := Magnitude(b);
    var uc := Magnitude(c);
    var bSign := (a < 0) != (b < 0);
    var p0, p1 := LongMultiply(ua, ub);
    ProductSign(a, b, d);
    p0, p1, bSign := AddSigned(p0, p1, d, bSign);
    ghost var m := p1 * B64 + p0;
    if c < 0 {
      bSign := !bSign;
    }
    ResultFromMagnitude(a * b + d, c, m, bSign);
    if uc <= p1 {
      return if bSign then MIN64 else MAX64;
    }
    var q := Divide128(p0, p1, uc);
    r := ApplySign(q, bSign);
  }

  // ---- The 96-bit form ----

  method CastWords(x: uint64, y: uint64) returns (x': uint32, y': uint32)
    ensures x < B32 ==> x' == x
    ensures y < B32 ==> y' == y
  {
    x', y' := ToU32(x), ToU32(y);
  }

  /** The portable EnlargedUnsignedDivide: both results are cast to 32 bits. */
  method EnlargedUnsignedDivide(dividend: uint64, divisor: uint32) returns (q: uint32, remainder: uint32)
    requires divisor > 0
    ensures dividend < divisor * B32 ==> dividend == q * divisor + remainder
    ensures remainder < divisor
  {
    QuotientBelow(dividend, divisor, B32);
    var quotient, rest := DivideQuad(dividend, divisor);
    q, remainder := CastWords(quotient, rest);
  }

  method Magnitude32(x: int32) returns (u: uint32)
    ensures u == Abs(x)
  {
    u := ToU32(if x >= 0 then x else Signed(true, x));
  }

  lemma ProductWithWord(ua: uint64, ub: uint32)
    requires ua <= 0x8000_0000_0000_0000 && ub <= 0x8000_0000
    ensures ua * ub == High(ua) * ub * B32 + Low(ua) * ub
    ensures 0 <= High(ua) * ub <= 0x4000_0000_0000_0000
    ensures 0 <= Low(ua) * ub < B64
  {
    MulMono(High(ua), 0x8000_0000, ub, 0x8000_0000);
    MulMono(Low(ua), 0xFFFF_FFFF, ub, 0x8000_0000);
    var h: int, l: int := High(ua), Low(ua);
    assert (h * B32 + l) * ub == h * ub * B32 + l * ub;
  }

  method AddPartials96(ll: uint64, hl: uint64) returns (p0: uint64, p1: uint32)
    requires hl <= 0x4000_0000_0000_0000
    ensures p1 * B64 + p0 == hl * B32 + ll
  {
    p0 := ll;
    var x := ToU64(hl + High(p0));
    p0 := Quad(Low(x), Low(p0));
    p1 := High(x);
  }

  method Multiply64x32(ua: uint64, ub: uint32) returns (p0: uint64, p1: uint32)
    requires ua <= 0x8000_0000_0000_0000 && ub <= 0x8000_0000
    ensures p1 * B64 + p0 == ua * ub
  {
    ProductWithWord(ua, ub);
    p0 := UInt32x32To64(Low(ua), ub);
    if High(ua) != 0 {
      var hl := UInt32x32To64(High(ua), ub);
      p0, p1 := AddPartials96(p0, hl);
    } else {
      p1 := 0;
    }
  }

  method Negate96(p0: uint64, p1: uint32) returns (q0: uint64, q1: uint32)
    requires p1 != 0
    ensures q1 * B64 + q0 == B32 * B64 - (p1 * B64 + p0)
  {
    q0 := B64 - 1 - p0;
    q1 := B32 - 1 - p1;
    q0 := ToU64(q0 + 1);
    q1 := ToU32(q1 + (if q0 == 0 then 1 else 0));
  }

  method AddTopWord(p1: uint32, ud1: uint32, carry: uint64) returns (q1: uint32)
    requires carry <= 1
    ensures q1 == p1 + ud1 + carry || q1 == p1 + ud1 + carry - B32
  {
    q1 := ToU32(p1 + ToU32(ud1 + carry));
  }

  method AddSigned96(p0: uint64, p1: uint32, d: int32, bSign: bool) returns (q0: uint64, q1: uint32, s: bool)
    requires p1 <= 0x4000_0000
    ensures var m := p1 * B64 + p0 + Signed(bSign, d);
            q1 * B64 + q0 == Abs(m) && s == (bSign != (m < 0))
  {
    q0, q1, s := p0, p1, bSign;
    if d != 0 {
      var ud0, top := SignExtend(d, bSign);
      var ud1: uint32 := if top == 0 then 0 else ToU32(-1);
      var carry;
      q0, carry := AddLowWords(q0, ud0);
      q1 := AddTopWord(q1, ud1, carry);
      if q1 >= 0x8000_0000 {
        s := !s;
        q0, q1 := Negate96(q0, q1);
      }
    }
  }

  /** The two EnlargedUnsignedDivide calls, the first skipped when its quotient would be zero. */
  method DivideEnlarged(p0: uint64, p1: uint32, uc: uint32) returns (q: uint64)
    requires p1 < uc
    ensures q == (p1 * B64 + p0) / uc
  {
    var dividend := Quad(p1, High(p0));
    var high, rem := 0, High(p0);
    if dividend >= uc {
      high, rem := EnlargedUnsignedDivide(dividend, uc);
    }
    HalvesOfQuad(rem, Low(p0));
    var low, rest := EnlargedUnsignedDivide(Quad(rem, Low(p0)), uc);
    TwoStepDivision(p0, p1, uc, high, rem, low, rest);
    q := Quad(high, low);
  }

  /** Int64x32Div32: the 96-bit fast form meets the specification of the 128-bit one. */
  method Int64x32Div32(a: int64, b: int32, c: int32, d: int32) returns (r: int64)
    ensures r == MulDiv(a, b, c, d)
  {
    var ua := Magnitude(a);
    var ub := Magnitude32(b);
    var uc := Magnitude32(c);
    var bSign := (a < 0) != (b < 0);
    var p0, p1 := Multiply64x32(ua, ub);
    ProductSign(a, b, d);
    MulMono(ua, 0x8000_0000_0000_0000, ub, 0x8000_0000);
    p0, p1, bSign := AddSigned96(p0, p1, d, bSign);
    if c < 0 {
      bSign := !bSign;
    }
    ResultFromMagnitude(a * b + d, c, p1 * B64 + p0, bSign);
    if uc <= p1 {
      return if bSign then MIN64 else MAX64;
    }
    var q := DivideEnlarged(p0, p1, uc);
    r := ApplySign(q, bSign);
  }

  /** The fast form and the general form agree on every input the fast form accepts. */
  method FastFormRefinesGeneral(a: int64, b: int32, c: int32, d: int32) returns (fast: int64, general: int64)
    ensures fast == general
  {
    fast := Int64x32Div32(a, b, c, d);
    general := LlMulDiv(a, b, c, d);
  }
}
