/** The Newton integer square root, and the rounding of the pool's price and seed liquidity. */
module Liquidity {
  import opened Arithmetic

  /** Big-integer division drops the fraction, toward zero. */
  function Quotient(a: int, b: int): int
    requires b > 0
  {
    if a >= 0 then a / b else -((-a) / b)
  }

  ghost predicate IsRoot(r: int, n: int) { r >= 0 && r * r <= n < (r + 1) * (r + 1) }

  /** One Newton step never lands below the root. */
  lemma StepStaysAbove(x: int, n: int)
    requires x > 0 && n >= 0
    ensures var y := (x + n / x) / 2; n < (y + 1) * (y + 1)
  {
    var q := n / x;
    DivisionBounds(n, x);
    MeanAbove(x, q + 1);
    TwiceSquared(x + (q + 1), (x + q) / 2);
  }

  lemma TwiceSquared(z: int, y: int)
    requires 0 <= z <= 2 * (y + 1)
    ensures z * z <= 4 * ((y + 1) * (y + 1))
  {
    SquareMonotone(z, 2 * (y + 1));
    assert (2 * (y + 1)) * (2 * (y + 1)) == 4 * ((y + 1) * (y + 1));
  }

  lemma MeanAbove(a: int, b: int)
    ensures 4 * (b * a) <= (a + b) * (a + b)
  {
    assert (a + b) * (a + b) - 4 * (b * a) == (a - b) * (a - b);
  }

  lemma SquareMonotone(a: int, b: int)
    requires 0 <= a <= b
    ensures a * a <= b * b
  {
  }

  /** When a step no longer goes down, the root is reached. */
  lemma StepStopsAtRoot(x: int, n: int)
    requires x > 0 && n >= 0 && (x + n / x) / 2 >= x
    ensures x * x <= n
  {
    DivisionBounds(n, x);
    assert n / x >= x;
    Scale(x, n / x, x);
  }

  lemma RootIsUnique(r: int, s: int, n: int)
    requires IsRoot(r, n) && IsRoot(s, n)
    ensures r == s
  {
    if r < s { SquareMonotone(r + 1, s); }
    if s < r { SquareMonotone(s + 1, r); }
  }

  /** Terminates for every integer: the exact root from zero up, the argument itself below zero. */
  method Isqrt(n: int) returns (x: int)
    ensures n >= 0 ==> IsRoot(x, n)
    ensures n < 0 ==> x == n
  {
    hide Above, Newton, Quotient, IsRoot;
    x := n;
    var y := Quotient(x + 1, 2);
    FirstStep(n);
    while y < x
      invariant n <= 0 ==> x == n && y >= x
      invariant n > 0 ==> x > 0 && y == Newton(x, n) && Above(x, n)
      decreases x
    {
      NewtonStep(x, n);
      x := y;
      NewtonStep(x, n);
      y := Quotient(x + Quotient(n, x), 2);
    }
    Stopped(x, y, n);
  }

  function Newton(x: int, n: int): int
    requires x > 0
  {
    (x + n / x) / 2
  }

  predicate Above(x: int, n: int) { n < (x + 1) * (x + 1) }

  lemma FirstStep(n: int)
    ensures n <= 0 ==> Quotient(n + 1, 2) >= n
    ensures n > 0 ==> Quotient(n + 1, 2) == Newton(n, n) && Above(n, n)
  {
    if n > 0 {
      Scale(1, n, n);
      assert n / n == 1;
    }
  }

  lemma NewtonStep(x: int, n: int)
    requires x > 0 && n > 0
    ensures Quotient(x + Quotient(n, x), 2) == Newton(x, n)
    ensures Newton(x, n) > 0 && Above(Newton(x, n), n)
  {
    StepStaysAbove(x, n);
    NotBelowZero(n, x);
    Positive(Newton(x, n), n);
  }

  lemma Positive(y: int, n: int)
    requires n > 0 && Above(y, n) && y >= 0
    ensures y > 0
  {
  }

  lemma Stopped(x: int, y: int, n: int)
    requires n > 0 ==> x > 0 && y == Newton(x, n) && Above(x, n) && y >= x
    requires n <= 0 ==> x == n
    ensures n >= 0 ==> IsRoot(x, n)
    ensures n < 0 ==> x == n
  {
    if n > 0 { StepStopsAtRoot(x, n); }
  }

  // ----- the pool's starting price

  const Q96: int := 0x1_0000_0000_0000_0000_0000_0000
  const WAD: int := 1000000000000000000

  /** The initial square-root price is the greatest whose square does not exceed the price. */
  method InitialSqrtPrice(price: int) returns (sqrtPriceX96: int)
    requires price >= 0
    ensures sqrtPriceX96 >= 0 && sqrtPriceX96 * sqrtPriceX96 * WAD <= price * Q96 * Q96
    ensures price * Q96 * Q96 < (sqrtPriceX96 + 1) * (sqrtPriceX96 + 1) * WAD
  {
    var scaled := price * Q96 * Q96;
    assert scaled >= 0;
    sqrtPriceX96 := Isqrt(Quotient(scaled, WAD));
    FloorBelow(sqrtPriceX96 * sqrtPriceX96, scaled, WAD);
    FloorAbove((sqrtPriceX96 + 1) * (sqrtPriceX96 + 1), scaled, WAD);
  }

  lemma FloorBelow(a: int, n: int, d: int)
    requires d > 0 && a <= n / d
    ensures a * d <= n
  {
    DivisionBounds(n, d);
    Scale(a, n / d, d);
  }

  lemma FloorAbove(a: int, n: int, d: int)
    requires d > 0 && n / d < a
    ensures n < a * d
  {
    DivisionBounds(n, d);
    Scale(n / d + 1, a, d);
  }

  // ----- seeding the pool

  datatype Seed = Seed(liquidity: int, amount0: int, amount1: int)

  function Max(x: int): int
    requires x >= 0
  {
    x * 101 / 100
  }

  /** The USDST side of a seed. */
  function UsdstAmount(seed: Seed, stratoIs0: bool): int { if stratoIs0 then seed.amount1 else seed.amount0 }

  /** Flooring by m / d and back by d / m loses less than d / m + 1. */
  lemma FloorTwice(a: int, m: int, d: int)
    requires a >= 0 && m > 0 && d > 0
    ensures a * m >= 0 && a * m / d >= 0 && a * m / d * d >= 0
    ensures var back := a * m / d * d / m; 0 <= back <= a && (a - back) * m < d + m
  {
    hide *;
    Floored(a, m, d);
    var there := a * m / d;
    Floored(there, d, m);
    var back := there * d / m;
    Distribute(there, 1, d);
    Distribute(back, 1, m);
    Distribute(a - back, back, m);
    CancelFactor(back, a, m);
  }

  lemma CancelFactor(a: int, b: int, m: int)
    requires m > 0 && a * m <= b * m
    ensures a <= b
  {
    if b < a { Scale(b + 1, a, m); }
  }

  lemma Floored(a: int, m: int, d: int)
    requires a >= 0 && m > 0 && d > 0
    ensures a * m >= 0 && a * m / d >= 0
    ensures a * m / d * d <= a * m < (a * m / d + 1) * d
  {
    Scale(0, a, m);
    NotBelowZero(a * m, d);
    DivisionBounds(a * m, d);
  }

  lemma NotBelowZero(n: int, d: int)
    requires n >= 0 && d > 0
    ensures n / d >= 0
  {
  }

  /**
   * In either token order the computed USDST never exceeds the budget, and falls short by less than
   * sqrtP / 2^96 + 1 when STRATO is token0, or 2^96 / sqrtP + 1 when it is token1 (both multiplied
   * out); each amount is the liquidity's, rounded down, and each maximum is its amount and
   * one percent, rounded down.
   */
  method SeedPool(budget: int, sqrtP: int, stratoIs0: bool) returns (seed: Seed, max0: int, max1: int)
    requires budget >= 0 && sqrtP > 0
    ensures UsdstAmount(seed, stratoIs0) <= budget
    ensures stratoIs0 ==> (budget - seed.amount1) * Q96 < sqrtP + Q96
    ensures !stratoIs0 ==> (budget - seed.amount0) * sqrtP < Q96 + sqrtP
    ensures seed.amount0 * sqrtP <= seed.liquidity * Q96 < (seed.amount0 + 1) * sqrtP
    ensures seed.amount1 * Q96 <= seed.liquidity * sqrtP < (seed.amount1 + 1) * Q96
    ensures 0 <= seed.amount0 <= max0 && seed.amount0 * 101 - 100 < max0 * 100 <= seed.amount0 * 101
    ensures 0 <= seed.amount1 <= max1 && seed.amount1 * 101 - 100 < max1 * 100 <= seed.amount1 * 101
  {
    FloorTwice(budget, Q96, sqrtP);
    FloorTwice(budget, sqrtP, Q96);
    var liquidity := if stratoIs0 then budget * Q96 / sqrtP else budget * sqrtP / Q96;
    Floored(liquidity, Q96, sqrtP);
    Floored(liquidity, sqrtP, Q96);
    var amount0 := liquidity * Q96 / sqrtP;
    var amount1 := liquidity * sqrtP / Q96;
    seed := Seed(liquidity, amount0, amount1);
    max0, max1 := Max(amount0), Max(amount1);
  }
}
