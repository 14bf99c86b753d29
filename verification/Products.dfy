/** Products, squares and quotients under names, so that proofs can treat them as unknowns. */
module Products {

  function Mul(x: int, y: int): int { x * y }

  function Square(x: int): nat { x * x }

  function Div(n: int, c: int): int
    requires c > 0
  {
    n / c
  }

  lemma MulSum(x: int, y: int, z: int)
    ensures Mul(x, y + z) == Mul(x, y) + Mul(x, z) && Mul(y + z, x) == Mul(y, x) + Mul(z, x)
    ensures Mul(x, y - z) == Mul(x, y) - Mul(x, z) && Mul(x, y) == Mul(y, x)
  {
  }

  lemma MulSucc(n: int, y: int)
    ensures Mul(n + 1, y) == Mul(n, y) + y && Mul(0, y) == 0
  {
  }

  lemma MulSign(x: int, y: int)
    requires x >= 0 && y >= 0
    ensures Mul(x, y) >= 0
  {
  }

  lemma SquareSum(x: int, y: int)
    ensures Square(x + y) == Square(x) + 2 * Mul(y, x) + Square(y)
    ensures Square(x - y) == Square(x) - 2 * Mul(y, x) + Square(y)
  {
  }

  lemma SquareIsMul(x: int)
    ensures Square(x) == Mul(x, x)
  {
  }

  lemma DivBrackets(n: int, c: int)
    requires c > 0
    ensures Mul(c, Div(n, c)) <= n < Mul(c, Div(n, c)) + c
  {
  }

  /** A product by a positive number orders as its other factor does. */
  lemma MulOrder(c: int, x: int, y: int)
    requires c > 0
    ensures Mul(c, x) <= Mul(c, y) <==> x <= y
    ensures Mul(c, x) < Mul(c, y) <==> x < y
  {
  }

  lemma MulPositive(x: int, y: int)
    requires x > 0 && y > 0
    ensures Mul(x, y) > 0
  {
  }

  lemma SquareAtMost(x: int, limit: int)
    requires -limit <= x <= limit
    ensures Square(x) <= Square(limit)
  {
  }
}
