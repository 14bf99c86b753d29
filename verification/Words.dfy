/** Fixed-width integers and their wrap-around, as the C++ sources use them. */
module Words {

  const B32: nat := 0x1_0000_0000
  const B64: nat := 0x1_0000_0000_0000_0000
  const MIN64: int := -0x8000_0000_0000_0000
  const MAX64: int := 0x7FFF_FFFF_FFFF_FFFF

  type uint32 = x: int | 0 <= x < 0x1_0000_0000
  type uint64 = x: int | 0 <= x < 0x1_0000_0000_0000_0000
  type int32 = x: int | -0x8000_0000 <= x < 0x8000_0000
  type int64 = x: int | -0x8000_0000_0000_0000 <= x < 0x8000_0000_0000_0000

  /** Unsigned wrap-around; also the cast of a signed value to an unsigned type of that width. */
  function ToU32(x: int): uint32 { x % B32 }
  function ToU64(x: int): uint64 { x % B64 }

  /** Two's complement reading of a bit pattern, and the wrap-around of signed arithmetic. */
  function ToS32(x: int): int32 {
    var u := ToU32(x);
    if u < 0x8000_0000 then u else u - B32
  }

  function ToS64(x: int): int64 {
    var u := ToU64(x);
    if u < 0x8000_0000_0000_0000 then u else u - B64
  }

  /** The halves of a ULARGE_INTEGER. */
  function Low(x: uint64): uint32 { x % B32 }
  function High(x: uint64): uint32 { x / B32 }
  function Quad(high: uint32, low: uint32): uint64 { high * B32 + low }

  function Abs(x: int): nat { if x < 0 then -x else x }

  function Signed(negate: bool, x: int): int { if negate then -x else x }

  /** C's integer division: truncation toward zero. */
  function TruncDiv(n: int, c: int): int
    requires c != 0
  {
    if (n < 0) == (c < 0) then Abs(n) / Abs(c) else -(Abs(n) / Abs(c))
  }

  /** C's remainder: it has the sign of the dividend. */
  function TruncMod(n: int, c: int): int
    requires c != 0
  {
    if n < 0 then -(Abs(n) % Abs(c)) else n % Abs(c)
  }

  /** x & y, bit by bit. */
  function BitAnd(x: nat, y: nat): nat
    decreases x
  {
    if x == 0 then 0 else (if x % 2 == 1 && y % 2 == 1 then 1 else 0) + 2 * BitAnd(x / 2, y / 2)
  }

  /** Splitting and joining the halves of a word are inverse. */
  lemma HalvesOfQuad(high: uint32, low: uint32)
    ensures Low(Quad(high, low)) == low && High(Quad(high, low)) == high
  {
  }

  lemma SignedFits(x: int)
    requires MIN64 <= x <= MAX64
    ensures ToS64(x) == x
  {
  }

  lemma MulAtLeast(k: int, c: int)
    requires k >= 1 && c > 0
    ensures k * c >= c
  {
  }

  /** Division with remainder has one answer. */
  lemma QuotientUnique(c: int, q1: int, r1: int, q2: int, r2: int)
    requires 0 <= r1 < c && 0 <= r2 < c
    requires q1 * c + r1 == q2 * c + r2
    ensures q1 == q2 && r1 == r2
  {
    assert (q1 - q2) * c == q1 * c - q2 * c;
    if q1 > q2 {
      MulAtLeast(q1 - q2, c);
    } else if q1 < q2 {
      MulAtLeast(q2 - q1, c);
    }
  }

  lemma DivModDefinition(n: int, c: int)
    requires c > 0
    ensures n == (n / c) * c + n % c && 0 <= n % c < c
  {
  }

  /** The quotient is the one number whose product brackets the dividend. */
  lemma DivUnique(n: int, c: int, q: int, r: int)
    requires c > 0 && n == q * c + r && 0 <= r < c
    ensures n / c == q && n % c == r
  {
    DivModDefinition(n, c);
    QuotientUnique(c, n / c, n % c, q, r);
  }

  function Pow2(n: nat): (p: nat)
    ensures p >= 1
  {
    if n == 0 then 1 else 2 * Pow2(n - 1)
  }

  lemma Pow2Monotonic(i: nat, j: nat)
    requires i <= j
    ensures Pow2(i) <= Pow2(j)
    decreases j - i
  {
  }
}
