/** Sums over lists, powers of two, and the real arithmetic that the calculators share. */
module Arithmetic {
  import opened GoBasics

  // ----- sums

  function SumInt<T>(f: T -> int, xs: seq<T>): int {
    if xs == [] then 0 else SumInt(f, xs[..|xs| - 1]) + f(xs[|xs| - 1])
  }

  function SumReal<T>(f: T -> real, xs: seq<T>): real {
    if xs == [] then 0.0 else SumReal(f, xs[..|xs| - 1]) + f(xs[|xs| - 1])
  }

  lemma SumIntSnoc<T>(f: T -> int, xs: seq<T>, x: T)
    ensures SumInt(f, xs + [x]) == SumInt(f, xs) + f(x)
  {
    assert (xs + [x])[..|xs + [x]| - 1] == xs;
  }

  lemma SumRealSnoc<T>(f: T -> real, xs: seq<T>, x: T)
    ensures SumReal(f, xs + [x]) == SumReal(f, xs) + f(x)
  {
    assert (xs + [x])[..|xs + [x]| - 1] == xs;
  }

  // ----- powers of two

  function Pow2(n: nat): (m: nat)
    ensures m > 0
  {
    if n == 0 then 1 else 2 * Pow2(n - 1)
  }

  lemma {:induction false} Pow2Adds(m: nat, n: nat)
    ensures Pow2(m + n) == Pow2(m) * Pow2(n)
  {
    if m == 0 {
    } else {
      Pow2Adds(m - 1, n);
      assert 2 * (Pow2(m - 1) * Pow2(n)) == (2 * Pow2(m - 1)) * Pow2(n);
    }
  }

  lemma {:induction false} Pow2Grows(m: nat, n: nat)
    requires m <= n
    ensures 0 < Pow2(m) <= Pow2(n)
  {
    if n == 0 {
    } else if m < n {
      Pow2Grows(m, n - 1);
    } else {
      Pow2Grows(m - 1, n - 1);
    }
  }

  // ----- products and quotients

  /** A proper fraction of a positive amount. */
  lemma Part(d: real, k: real) returns (x: real)
    requires 0.0 <= d < 1.0 && k > 0.0
    ensures x == d * k && 0.0 <= x < k
  {
    x := d * k;
    assert (1.0 - d) * k > 0.0;
  }

  lemma Divide(x: real, k: real)
    requires x > 0.0 && k > 0.0
    ensures x / k > 0.0 && x / k * k == x
  {
  }

  predicate IsProduct(z: real, x: real, y: real) {
    x * y == z
  }

  /** n units are all that the amount buys at the price. */
  predicate BuysWhole(n: real, price: real, amount: real) {
    n * price <= amount < (n + 1.0) * price
  }

  /** Whole units at a price cover an amount up to less than one unit. */
  lemma WholePart(ideal: real, price: real, amount: real, n: real)
    requires price > 0.0 && n <= ideal < n + 1.0 && IsProduct(amount, ideal, price)
    ensures BuysWhole(n, price, amount)
  {
    var x := Part(ideal - n, price);
    assert amount - n * price == x;
  }

  /** Dividing by more never yields more. */
  lemma LargerDivisor(x: real, t: real, t': real)
    requires x >= 0.0 && 0.0 < t <= t'
    ensures 0.0 <= SafeDivide(x, t') <= SafeDivide(x, t)
  {
    if x > 0.0 {
      Divide(x, t);
      Divide(x, t');
      if x / t' > x / t {
        Bigger(x / t, x / t', t, t');
        assert false;
      }
    }
  }

  lemma Bigger(q: real, r: real, t: real, t': real)
    requires 0.0 <= q < r && 0.0 < t <= t'
    ensures q * t < r * t'
  {
    assert q * t <= q * t';
  }
}
