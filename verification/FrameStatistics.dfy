/**
 * The video renderer's timing statistics: what the running sums stand for, and why
 * the variance they give is never negative.
 */
module FrameStatistics {
  import opened Products

  // ---- Sums over observations ----

  function Sum(xs: seq<int>): int { if xs == [] then 0 else Sum(xs[..|xs| - 1]) + xs[|xs| - 1] }

  function SumSq(xs: seq<int>): nat { if xs == [] then 0 else SumSq(xs[..|xs| - 1]) + Square(xs[|xs| - 1]) }

  /** The squared distances from a to each observation. */
  function Distances(xs: seq<int>, a: int): nat {
    if xs == [] then 0 else Distances(xs[..|xs| - 1], a) + Square(xs[|xs| - 1] - a)
  }

  /** The squared distances between each two observations. */
  function Pairs(xs: seq<int>): nat {
    if xs == [] then 0 else Pairs(xs[..|xs| - 1]) + Distances(xs[..|xs| - 1], xs[|xs| - 1])
  }

  lemma {:induction false} DistancesExpand(xs: seq<int>, a: int)
    ensures Distances(xs, a) == SumSq(xs) - 2 * Mul(a, Sum(xs)) + Mul(|xs|, Square(a))
    decreases |xs|
  {
    hide Mul, Square;
    MulSucc(|xs| - 1, Square(a));
    if xs == [] {
      MulSum(a, 0, 0);
    } else {
      var rest, x := xs[..|xs| - 1], xs[|xs| - 1];
      DistancesExpand(rest, a);
      SquareSum(x, a);
      MulSum(a, Sum(rest), x);
    }
  }

  /** Lagrange's identity: N times the sum of squares, less the square of the sum, is the spread between pairs; so it is never negative. */
  lemma {:induction false} PairsIdentity(xs: seq<int>)
    ensures Mul(|xs|, SumSq(xs)) - Square(Sum(xs)) == Pairs(xs)
    decreases |xs|
  {
    SquareIsMul(0);
    hide Mul, Square;
    MulSucc(|xs| - 1, SumSq(xs));
    MulSucc(0, 0);
    if xs == [] {
    } else {
      var rest, x := xs[..|xs| - 1], xs[|xs| - 1];
      PairsIdentity(rest);
      DistancesExpand(rest, x);
      MulSum(|rest|, SumSq(rest), Square(x));
      SquareSum(Sum(rest), x);
    }
  }

  ghost predicate Within(xs: seq<int>, limit: int) { forall i :: 0 <= i < |xs| ==> -limit <= xs[i] <= limit }

  lemma {:induction false} SumsBounded(xs: seq<int>)
    requires Within(xs, 1000)
    ensures -1000 * |xs| <= Sum(xs) <= 1000 * |xs| && SumSq(xs) <= 1000000 * |xs|
    decreases |xs|
  {
    hide Square;
    if xs == [] {
    } else {
      SumsBounded(xs[..|xs| - 1]);
      SquareAtMost(xs[|xs| - 1], 1000);
      assert Square(1000) == 1000000 by { SquareIsMul(1000); }
    }
  }

  // ---- The variance the code computes ----

  /**
   * (S - T * T / N) / (N - 1), where N is one more than the number of observations: the variance
   * of the observations with a zero put in front of them.
   */
  function Variance(xs: seq<int>): int
    requires xs != []
  {
    Div(SumSq(xs) - Div(Square(Sum(xs)), |xs| + 1), |xs|)
  }

  lemma {:induction false} ZeroInFront(xs: seq<int>)
    ensures Sum([0] + xs) == Sum(xs) && SumSq([0] + xs) == SumSq(xs)
    decreases |xs|
  {
    SquareIsMul(0);
    MulSucc(0, 0);
    hide Square;
    if xs == [] {
      assert [0] + xs == [0] && [0][..0] == [];
    } else {
      assert ([0] + xs)[..|xs|] == [0] + xs[..|xs| - 1];
      ZeroInFront(xs[..|xs| - 1]);
    }
  }

  /** The square of the sum over N leaves the sum of squares less the spread over N, rounded up. */
  lemma {:induction false} VarianceNumerator(xs: seq<int>)
    ensures var N := |xs| + 1;
      var d := SumSq(xs) - Div(Square(Sum(xs)), N);
      Pairs([0] + xs) <= Mul(N, d) < Pairs([0] + xs) + N
  {
    hide Mul, Square, Div, Sum, SumSq, Pairs;
    var N := |xs| + 1;
    PairsIdentity([0] + xs);
    ZeroInFront(xs);
    DivBrackets(Square(Sum(xs)), N);
    MulSum(N, SumSq(xs), Div(Square(Sum(xs)), N));
  }

  /** The variance is between 0 and 1000000, whatever was observed: the assertion in GetStdDev holds and its cast loses nothing. */
  lemma {:induction false} VarianceBounds(xs: seq<int>)
    requires xs != [] && Within(xs, 1000)
    ensures 0 <= Variance(xs) <= 1000000
    ensures 0 <= Div(Square(Sum(xs)), |xs| + 1) <= SumSq(xs) <= 1000000 * |xs|
  {
    hide Mul, Square, Div, Sum, SumSq, Pairs, Within;
    var n := |xs|;
    var d := SumSq(xs) - Div(Square(Sum(xs)), n + 1);
    SumsBounded(xs);
    VarianceNumerator(xs);
    MulSucc(n + 1, 0);
    NonNegative(n + 1, d);
    DivAtLeastZero(Square(Sum(xs)), n + 1);
    DivAtLeastZero(d, n);
    DivAtMost(d, n, 1000000);
  }

  lemma NonNegative(c: int, d: int)
    requires c > 0 && Mul(c, d) >= 0
    ensures d >= 0
  {
  }

  lemma DivAtLeastZero(n: int, c: int)
    requires c > 0 && n >= 0
    ensures Div(n, c) >= 0
  {
  }

  lemma DivAtMost(n: int, c: int, limit: int)
    requires c > 0 && n <= limit * c
    ensures Div(n, c) <= limit
  {
  }

  /** What the variance is: the spread between pairs over N (N - 1), out by less than one. */
  lemma {:induction false} VarianceMeaning(xs: seq<int>)
    requires xs != []
    ensures var n := |xs|;
      var p := Pairs([0] + xs);
      && Mul(n + 1, Mul(n, Variance(xs))) < p + (n + 1)
      && p < Mul(n + 1, Mul(n, Variance(xs)) + n)
  {
    hide Mul, Square, Div, Sum, SumSq, Pairs;
    var n := |xs|;
    var d := SumSq(xs) - Div(Square(Sum(xs)), n + 1);
    var v := Mul(n, Variance(xs));
    VarianceNumerator(xs);
    DivBrackets(d, n);
    MulOrder(n + 1, v, d);
    MulOrder(n + 1, d, v + n);
  }

  /** The variance comes out as zero exactly when the spread between pairs, the added zero included, is small enough. */
  lemma {:induction false} VarianceZeroIff(xs: seq<int>)
    requires xs != []
    ensures Variance(xs) == 0 <==> Pairs([0] + xs) <= Mul(|xs| + 1, |xs| - 1)
  {
    hide Mul, Square, Div, Sum, SumSq, Pairs;
    var n := |xs|;
    var d := SumSq(xs) - Div(Square(Sum(xs)), n + 1);
    VarianceNumerator(xs);
    NonNegative(n + 1, d);
    DivZeroIff(d, n);
    MulOrder(n + 1, d, n - 1);
    MulOrder(n + 1, d, n);
    MulSum(n + 1, n - 1, 1);
    MulOne(n + 1);
  }

  lemma DivZeroIff(n: int, c: int)
    requires c > 0 && n >= 0
    ensures Div(n, c) == 0 <==> n < c
  {
  }

  lemma MulOne(x: int)
    ensures Mul(x, 1) == x
  {
  }

  ghost predicate AllEqual(xs: seq<int>, x: int) { forall i :: 0 <= i < |xs| ==> xs[i] == x }

  lemma {:induction false} SumsOfEqual(xs: seq<int>, x: int)
    requires AllEqual(xs, x)
    ensures Sum(xs) == Mul(|xs|, x) && SumSq(xs) == Mul(|xs|, Square(x))
    decreases |xs|
  {
    hide Mul, Square;
    if xs == [] {
      MulSucc(0, x);
      MulSucc(0, Square(x));
    } else {
      SumsOfEqual(xs[..|xs| - 1], x);
      MulSucc(|xs| - 1, x);
      MulSucc(|xs| - 1, Square(x));
    }
  }

  /** Equal observations do not deviate, yet they are given a variance of zero only when their square is less than their number. */
  lemma {:induction false} EqualObservationsVaryIff(xs: seq<int>, x: int)
    requires xs != [] && AllEqual(xs, x)
    ensures Pairs(xs) == 0
    ensures Variance(xs) == 0 <==> Square(x) < |xs|
  {
    hide Mul, Square, Sum, SumSq, Pairs, Variance;
    var n := |xs|;
    SumsOfEqual(xs, x);
    ZeroInFront(xs);
    PairsIdentity(xs);
    PairsIdentity([0] + xs);
    VarianceZeroIff(xs);
    SquareOfProduct(n, x);
    MulSucc(n, Mul(n, Square(x)));
    CompareProducts(n, Square(x));
  }

  lemma SquareOfProduct(n: int, x: int)
    ensures Square(Mul(n, x)) == Mul(n, Mul(n, Square(x)))
  {
  }

  lemma CompareProducts(n: int, y: int)
    requires n > 0
    ensures Mul(n, y) <= Mul(n + 1, n - 1) <==> y < n
  {
    assert Mul(n + 1, n - 1) == Mul(n, n) - 1;
    assert Mul(n, n - 1) == Mul(n, n) - n;
    hide Mul;
    MulOrder(n, y, n - 1);
    MulOrder(n, y, n);
  }

  /** One observation of 100 milliseconds has no deviation, but a variance of 5000 is computed for it. */
  lemma {:induction false} LoneObservationVaries()
    ensures Variance([100]) == 5000 && Pairs([100]) == 0 && Pairs([0, 100]) == 10000
  {
    var xs := [100];
    assert xs[..0] == [] && [0, 100][..1] == [0] && [0][..0] == [];
    assert Sum(xs) == 100 && SumSq(xs) == 10000;
    assert Distances([0], 100) == 10000;
    assert Pairs([0]) == 0;
  }
}
