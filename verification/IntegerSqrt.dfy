/**
 * isqrt on machine integers: a doubling guess and three Newton steps, with every
 * operation that could overflow or divide by zero accounted for.
 */
module IntegerSqrt {
  import opened Wrappers
  import opened Words
  import opened Products

  // ---- The code, step by step ----

  predicate FitsInt(x: int) { -0x8000_0000 <= x < 0x8000_0000 }

  /** while (s * s < x) s = 2 * s; no value if a product overflows. */
  function FirstGuess(x: int32, s: int32): Option<int32>
    requires s >= 1
    decreases if s < x then x - s else 0
  {
    SquareAtLeast(s);
    if !FitsInt(Square(s)) then None
    else if Square(s) >= x then Some(s)
    else if FitsInt(2 * s) then FirstGuess(x, 2 * s) else None
  }

  /** s = (s * s + x) / (2 * s); no value if that overflows or divides by zero. */
  function Newton(x: int32, s: int32): Option<int32> {
    if !FitsInt(Square(s)) || !FitsInt(Square(s) + x) || !FitsInt(2 * s) || s == 0 then None
    else if FitsInt(TruncDiv(Square(s) + x, 2 * s)) then Some(TruncDiv(Square(s) + x, 2 * s))
    else None
  }

  /** The second and third steps are skipped for a negative s. */
  function NewtonUnlessNegative(x: int32, s: Option<int32>): Option<int32> {
    if s.Some? && s.value >= 0 then Newton(x, s.value) else s
  }

  /** What isqrt returns, if it returns. */
  function IsqrtOf(x: int32): Option<int32> {
    if x > 0x4000_0000 then Some(0x8000)
    else
      var guess := FirstGuess(x, 1);
      if guess.None? then None
      else if x == 0 then Some(0)
      else NewtonUnlessNegative(x, NewtonUnlessNegative(x, Newton(x, guess.value)))
  }

  predicate IsqrtFaults(x: int32) { IsqrtOf(x).None? }

  method Isqrt(x: int32) returns (r: Option<int32>)
    ensures r == IsqrtOf(x)
  {
    hide Square, Newton;
    if x > 0x4000_0000 {
      return Some(0x8000);
    }
    var s: int32 := 1;
    while FitsInt(Square(s)) && Square(s) < x
      invariant s >= 1 && FirstGuess(x, s) == FirstGuess(x, 1)
      decreases if s < x then x - s else 0
    {
      SquareAtLeast(s);
      if !FitsInt(2 * s) {
        return None;
      }
      s := 2 * s;
    }
    if !FitsInt(Square(s)) {
      return None;
    }
    if x == 0 {
      return Some(0);
    }
    r := Newton(x, s);
    if r.Some? && r.value >= 0 {
      r := Newton(x, r.value);
    }
    if r.Some? && r.value >= 0 {
      r := Newton(x, r.value);
    }
  }

  // ---- When it faults ----

  /** isqrt(-1): the first step gives 0, and the second divides by it. */
  lemma {:induction false} FaultsAtMinusOne()
    ensures FirstGuess(-1, 1) == Some(1) && Newton(-1, 1) == Some(0) && Newton(-1, 0) == None
    ensures IsqrtFaults(-1)
  {
  }

  /** isqrt(-2): truncation gives 0 again. */
  lemma {:induction false} FaultsAtMinusTwo()
    ensures FirstGuess(-2, 1) == Some(1) && Newton(-2, 1) == Some(0) && Newton(-2, 0) == None
    ensures IsqrtFaults(-2)
  {
  }

  /** isqrt(0x40000000): the guess is exact, and its square plus x overflows. */
  lemma {:induction false} FaultsAtTwoToThe30()
    ensures FirstGuess(0x4000_0000, 1) == Some(0x8000) && Square(0x8000) + 0x4000_0000 == 0x8000_0000
    ensures IsqrtFaults(0x4000_0000)
  {
    assert Square(0x8000) == 0x4000_0000;
    GuessIs(0x4000_0000, 0);
    var s := FirstGuess(0x4000_0000, 1).value;
    if s < 0x8000 {
      SquareStrict(s, 0x8000);
    }
  }

  /** Below -2 the first step is already negative, and the others are skipped. */
  lemma NegativeSkips(x: int32)
    requires x <= -3
    ensures IsqrtOf(x) == Some(TruncDiv(1 + x, 2)) && TruncDiv(1 + x, 2) < 0
  {
    assert Square(1) == 1;
  }

  /** Over all ints isqrt faults at exactly three. */
  lemma {:induction false} IsqrtFaultsIff(x: int32)
    ensures IsqrtFaults(x) <==> x == -2 || x == -1 || x == 0x4000_0000
  {
    hide FirstGuess, Newton, Square;
    FaultsAtMinusOne();
    FaultsAtMinusTwo();
    FaultsAtTwoToThe30();
    if x <= -3 {
      NegativeSkips(x);
    } else if x == 0 {
      GuessOfZero();
    } else if 1 <= x < 0x4000_0000 {
      var r := RootExists(x);
      PositiveIsNear(x, r);
    }
  }

  lemma GuessOfZero()
    ensures FirstGuess(0, 1) == Some(1)
  {
  }

  // ---- How good it is ----

  predicate IsRoot(r: nat, x: int) { Square(r) <= x < Square(r + 1) }

  /** s is the square root of x rounded down, or one more. */
  ghost predicate NearRoot(s: int, x: int) { exists r: nat :: IsRoot(r, x) && r <= s <= r + 1 }

  /** Up to ten million the result is the square root rounded down, or one more; for zero it is zero. */
  lemma {:induction false} IsqrtIsNear(x: int32)
    requires 0 <= x <= 10_000_000
    ensures IsqrtOf(x).Some? && NearRoot(IsqrtOf(x).value, x) && (x == 0 ==> IsqrtOf(x).value == 0)
  {
    hide FirstGuess, Newton;
    var r := RootExists(x);
    if x == 0 {
      GuessOfZero();
      assert IsRoot(0, 0);
    } else {
      hide Square;
      PositiveIsNear(x, r);
      RootSmall(x, r);
    }
  }

  lemma RootExists(x: nat) returns (r: nat)
    ensures IsRoot(r, x)
  {
    r := 0;
    while Square(r + 1) <= x
      invariant Square(r) <= x
      decreases x - r
    {
      SquareAtLeast(r + 1);
      r := r + 1;
    }
  }

  /** A guess the loop may stop at, and how many doublings led to it. */
  ghost predicate GoodGuess(x: int, s: int) {
    && s >= 1 && Square(s) >= x && (s == 1 || (s % 2 == 0 && Square(s / 2) < x))
    && (s <= 0x4000 || s == 0x8000) && exists j: nat :: j <= 15 && s == Pow2(j)
  }

  /** The loop ends within fifteen doublings, at a power of two whose half was too small. */
  lemma {:induction false} GuessIs(x: int32, k: nat)
    requires 1 <= x <= 0x4000_0000 && k <= 15 && Pow2(k) <= 0x8000
    requires k > 0 ==> Square(Pow2(k - 1)) < x
    ensures FirstGuess(x, Pow2(k)).Some? && GoodGuess(x, FirstGuess(x, Pow2(k)).value)
    decreases 15 - k
  {
    hide Square, GoodGuess;
    var s := Pow2(k);
    SmallPowers(k);
    if Square(s) < x {
      GuessIs(x, k + 1);
    } else {
      StopsWell(x, k);
    }
  }

  lemma SmallPowers(k: nat)
    requires k <= 15
    ensures Pow2(k) <= 0x8000 && Square(Pow2(k)) <= 0x4000_0000
    ensures if k == 15 then Pow2(k) == 0x8000 && Square(Pow2(k)) == 0x4000_0000 else Pow2(k) <= 0x4000
  {
    assert Pow2(15) == 0x8000 && Pow2(14) == 0x4000;
    assert Square(0x8000) == 0x4000_0000;
    Pow2Monotonic(k, 15);
    SquareAtMost(Pow2(k), 0x8000);
    if k < 15 {
      Pow2Monotonic(k, 14);
    }
  }

  lemma StopsWell(x: int32, k: nat)
    requires 1 <= x && k <= 15 && Square(Pow2(k)) >= x
    requires k > 0 ==> Square(Pow2(k - 1)) < x
    ensures GoodGuess(x, Pow2(k))
  {
    hide Square;
    SmallPowers(k);
    if k > 0 {
      assert Pow2(k) == 2 * Pow2(k - 1);
    }
  }

  /** From such a guess, no operation overflows short of 0x40000000, and the three steps end at the root or just above it. */
  lemma {:induction false} PositiveIsNear(x: int32, r: nat)
    requires 1 <= x < 0x4000_0000 && IsRoot(r, x)
    ensures IsqrtOf(x).Some? && IsqrtOf(x).value >= r
    ensures r <= 3200 ==> IsqrtOf(x).value <= r + 1
  {
    assert Pow2(0) == 1;
    assert Square(0x8000) == 0x4000_0000;
    RootPositive(x, r);
    hide FirstGuess, Newton, Mul, Square;
    GuessIs(x, 0);
    var s0 := FirstGuess(x, 1).value;
    GuessWithinTwice(x, r, s0, s0 / 2);
    NewtonRaphson(x, s0, r);
    var s1 := Newton(x, s0).value;
    NewtonRaphson(x, s1, r);
    var s2 := Newton(x, s1).value;
    NewtonRaphson(x, s2, r);
    FirstStep(r, s0 - r, s1 - r);
    SecondStep(r, s1 - r, s2 - r);
    if r <= 3200 {
      ThirdStep(r, s2 - r, Newton(x, s2).value - r);
    }
  }

  /** One step; neither its square nor its sum overflows. */
  lemma NewtonRaphson(x: int32, s: int32, r: nat)
    requires 1 <= x < 0x4000_0000 && IsRoot(r, x) && 1 <= r <= s <= 0x8000
    ensures Newton(x, s).Some?
    ensures var s' := Newton(x, s).value;
      && r <= s' <= s + 1 && (x < Square(s) ==> s' < s)
      && 2 * Mul(s, s' - r) <= Square(s - r) + 2 * r
  {
    SquareAtMost(s, 0x8000);
    SquareAtMost(r, s);
    NextSquare(r);
    assert Square(0x8000) == 0x4000_0000;
    hide Mul, Square;
    var n := Square(s) + x;
    TruncIsDiv(n, 2 * s);
    NewtonStep(x, r, s, Div(n, 2 * s));
    StepAtMost(x, s, Div(n, 2 * s));
  }

  lemma TruncIsDiv(n: int, c: int)
    requires n >= 0 && c > 0
    ensures TruncDiv(n, c) == Div(n, c)
  {
  }

  lemma SquareAtLeast(x: int)
    ensures Square(x) >= x
  {
  }

  lemma NextSquare(r: int)
    ensures Square(r + 1) == Square(r) + 2 * r + 1
  {
  }

  /** A Newton step from s, as a bound on the distance of its result from the root. */
  lemma NewtonStep(x: int, r: int, s: int, s': int)
    requires Square(r) <= x < Square(r + 1) && s >= r >= 1
    requires s' == Div(Square(s) + x, 2 * s)
    ensures s' >= r && 2 * Mul(s, s' - r) <= Square(s - r) + 2 * r
  {
    hide Mul, Square, Div;
    DivBrackets(Square(s) + x, 2 * s);
    NextSquare(r);
    SquareSum(s, r);
    MulSum(s, s', r);
    MulSum(s, s', s');
    Doubled(s, s');
    MulSum(r, s, s);
    if s' < r {
      MulOrder(s, s' + 1, r);
      MulSum(s, s', 1);
      MulSucc(0, s);
    }
  }

  lemma Doubled(s: int, y: int)
    ensures Mul(2 * s, y) == 2 * Mul(s, y) && Mul(s, 1) == s && Mul(1, s) == s && Mul(s, 2) == 2 * s
  {
  }

  /** The products the three steps compare, as linear facts. */
  lemma StepProducts(r: int, t: int, t': int, k: int, c: int)
    ensures Mul(r + t, k * t' - (r + c)) == k * Mul(r + t, t') - (Square(r) + c * r + Mul(t, r) + c * t)
  {
  }

  lemma GapProducts(r: int, t: int)
    ensures Mul(t, r + 1 - t) == Mul(t, r) + t - Square(t)
    ensures Mul(r, r + 1 - t) == Square(r) + r - Mul(t, r)
    ensures Mul(t, r + 4 - 4 * t) == Mul(t, r) + 4 * t - 4 * Square(t)
    ensures Mul(r, r + 4 - 4 * t) == Square(r) + 4 * r - 4 * Mul(t, r)
  {
  }

  /** From a guess at most twice too large, the first step comes within (r + 4) / 4. */
  lemma FirstStep(r: int, t: int, t': int)
    requires r >= 1 && 0 <= t <= r + 1 && t' >= 0
    requires 2 * Mul(r + t, t') <= Square(t) + 2 * r
    ensures 4 * t' <= r + 4
  {
    hide Mul, Square;
    if 4 * t' >= r + 5 {
      MulSign(r + t, 4 * t' - (r + 5));
      StepProducts(r, t, t', 4, 5);
      MulSign(t, r + 1 - t);
      MulSign(r, r + 1 - t);
      GapProducts(r, t);
      MulSum(r, t, 0);
      MulSucc(0, r);
    }
  }

  /** The second step comes within (r + 40) / 40. */
  lemma SecondStep(r: int, t: int, t': int)
    requires r >= 1 && 0 <= t && 4 * t <= r + 4 && t' >= 0
    requires 2 * Mul(r + t, t') <= Square(t) + 2 * r
    ensures 40 * t' <= r + 40
  {
    hide Mul, Square;
    if 40 * t' >= r + 41 {
      MulSign(r + t, 40 * t' - (r + 41));
      StepProducts(r, t, t', 40, 41);
      MulSign(t, r + 4 - 4 * t);
      MulSign(r, r + 4 - 4 * t);
      GapProducts(r, t);
      assert 7 * t <= r;
      MulSign(r, r - 7 * t);
      SevenTimes(r, t);
      SquareIsMul(r);
      MulPositive(r, r);
    }
  }

  lemma SevenTimes(r: int, t: int)
    ensures Mul(r, r - 7 * t) == Square(r) - 7 * Mul(t, r)
  {
  }

  /** The third comes within one. */
  lemma ThirdStep(r: int, t: int, t': int)
    requires 1 <= r <= 3200 && 0 <= t && 40 * t <= r + 40 && t' >= 0
    requires 2 * Mul(r + t, t') <= Square(t) + 2 * r
    ensures t' <= 1
  {
    hide Mul, Square;
    if t' >= 2 {
      MulSign(r + t, t' - 2);
      MulSum(r + t, t', 2);
      Doubled(r + t, 1);
      SmallSquare(t);
    }
  }

  lemma SmallSquare(t: int)
    requires 0 <= t <= 81
    ensures t >= 1 ==> Square(t) <= 82 * t - 81
    ensures Square(0) == 0
  {
  }

  /** The loop's first guess is at most twice too large. */
  lemma GuessWithinTwice(x: int, r: nat, s: int, h: int)
    requires IsRoot(r, x) && r >= 1
    requires Square(s) >= x && s >= 1 && (s == 1 || (s == 2 * h && h >= 0 && Square(h) < x))
    ensures r <= s <= 2 * r + 1
  {
    hide Square;
    if s < r {
      SquareStrict(s, r);
    }
    if s > 1 && h > r {
      SquareAtMost(r + 1, h);
    }
  }

  lemma SquareStrict(x: int, y: int)
    requires 0 <= x < y
    ensures Square(x) < Square(y)
  {
  }

  lemma StepAtMost(x: int, s: int, s': int)
    requires s >= 1 && s' == Div(Square(s) + x, 2 * s)
    ensures x < Square(s) ==> s' < s
    ensures x <= Square(s) + 2 * s ==> s' <= s + 1
  {
    hide Mul, Square, Div;
    DivBrackets(Square(s) + x, 2 * s);
    Doubled(s, s');
    Doubled(s, s);
    SquareIsMul(s);
    MulOrder(s, s, s');
    MulOrder(s, s + 2, s');
    MulSum(s, s, 2);
    MulSum(s, 1, 1);
  }

  lemma RootSmall(x: int, r: nat)
    requires IsRoot(r, x) && x <= 10_000_000
    ensures r <= 3200
  {
  }

  lemma RootPositive(x: int, r: nat)
    requires IsRoot(r, x) && x >= 1
    ensures r >= 1
  {
  }
}
