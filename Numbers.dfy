/** Exact-arithmetic stand-ins for the JavaScript `Math` functions the game uses. */
module Numbers {

  /** `Math.pow(base, n)` for a natural exponent. */
  function Pow(base: real, n: nat): real
  {
    if n == 0 then 1.0 else base * Pow(base, n - 1)
  }

  /** Integer powers, used where a power is known to be a whole number. */
  function PowNat(base: nat, n: nat): nat
  {
    if n == 0 then 1 else base * PowNat(base, n - 1)
  }

  function Min(a: int, b: int): int
  {
    if a <= b then a else b
  }

  function Max(a: int, b: int): int
  {
    if a >= b then a else b
  }

  /** `Math.round`: the nearest integer, halves rounded up. */
  function Round(x: real): (r: int)
    ensures x - 0.5 < r as real <= x + 0.5
  {
    (x + 0.5).Floor
  }

  lemma {:induction false} PowPositive(base: real, n: nat)
    requires base > 0.0
    ensures Pow(base, n) > 0.0
  {
    if n > 0 {
      PowPositive(base, n - 1);
    }
  }

  lemma {:induction false} PowAtLeastOne(base: real, n: nat)
    requires base >= 1.0
    ensures Pow(base, n) >= 1.0
  {
    if n > 0 {
      PowAtLeastOne(base, n - 1);
    }
  }

  lemma {:induction false} PowOfOne(n: nat)
    ensures Pow(1.0, n) == 1.0
  {
    if n > 0 {
      PowOfOne(n - 1);
    }
  }

  lemma {:induction false} PowMonotone(base: real, m: nat, n: nat)
    requires base >= 1.0 && m <= n
    ensures Pow(base, m) <= Pow(base, n)
  {
    if m < n {
      PowMonotone(base, m, n - 1);
      PowAtLeastOne(base, n - 1);
      assert Pow(base, n) == base * Pow(base, n - 1);
    }
  }

  lemma {:induction false} PowStrictlyIncreasing(base: real, m: nat, n: nat)
    requires base > 1.0 && m < n
    ensures Pow(base, m) < Pow(base, n)
  {
    PowAtLeastOne(base, n - 1);
    assert Pow(base, n) == base * Pow(base, n - 1);
    if m < n - 1 {
      PowStrictlyIncreasing(base, m, n - 1);
    }
  }

  /** A power of a natural number computed over the reals is that natural number. */
  lemma {:induction false} PowOfNat(base: nat, n: nat)
    ensures Pow(base as real, n) == PowNat(base, n) as real
  {
    if n > 0 {
      PowOfNat(base, n - 1);
    }
  }

  lemma {:induction false} PowNatPositive(base: nat, n: nat)
    requires base > 0
    ensures PowNat(base, n) > 0
  {
    if n > 0 {
      PowNatPositive(base, n - 1);
    }
  }

  /** Rounding never moves a value past an integer bound on either side. */
  lemma RoundBetween(x: real, lo: int, hi: int)
    requires lo as real <= x <= hi as real
    ensures lo <= Round(x) <= hi
  {
  }

  lemma RoundOfInt(k: int)
    ensures Round(k as real) == k
  {
  }

  /**
   * `x * y` written as a call. Folds multiply through `Times`, so that two products
   * of equal factors are equal by congruence, which the solver sees at once; on a
   * bare `*` it has to rediscover it by nonlinear reasoning.
   */
  function Times(x: real, y: real): real
  {
    x * y
  }

  lemma TimesAssociates(x: real, y: real, z: real)
    ensures Times(Times(x, y), z) == Times(x, Times(y, z))
  {
  }

  lemma ScaleMonotone(c: real, x: real, y: real)
    requires c >= 0.0 && x <= y
    ensures c * x <= c * y
  {
  }

  /** A fraction of a non-negative amount lies between nothing and the whole. */
  lemma ScaleBetween(c: real, p: real)
    requires c >= 0.0 && 0.0 <= p <= 1.0
    ensures 0.0 <= c * p <= c
  {
    ScaleMonotone(c, p, 1.0);
    ScaleMonotone(c, 0.0, p);
  }

  /** A product of non-negative factors is non-negative, and positive when both are. */
  lemma ProductSign(x: real, y: real)
    requires x >= 0.0 && y >= 0.0
    ensures Times(x, y) >= 0.0
    ensures x > 0.0 && y > 0.0 ==> Times(x, y) > 0.0
  {
    ScaleMonotone(x, 0.0, y);
  }

  /** Scaling by a factor of at least one never shrinks a non-negative amount. */
  lemma AtLeastOneTimes(x: real, m: real)
    requires x >= 0.0 && m >= 1.0
    ensures Times(x, m) >= x
  {
    ScaleMonotone(x, 1.0, m);
  }

  /** `base * a / m` strictly increases in `a` for positive `base` and `m`. */
  lemma ScaledQuotientMonotone(base: real, a: real, b: real, m: real)
    requires base > 0.0 && a < b && m > 0.0
    ensures base * a / m < base * b / m
  {
    assert base * a < base * b;
  }

  lemma FloorMonotone(x: real, y: real)
    requires x <= y
    ensures x.Floor <= y.Floor
  {
  }
}
