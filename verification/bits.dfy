/**
  JavaScript's integer bit operators (`>>`, `<<`, `&`, `|`) on non-negative values
  that fit in 31 bits, where ToInt32 changes nothing, defined bit by bit and related
  to ordinary arithmetic.
 */
module Bits {

  function Pow2(n: nat): (p: nat)
    ensures p >= 1
  {
    if n == 0 then 1 else 2 * Pow2(n - 1)
  }

  /** `x >> n`: drop the n low bits. */
  function ShiftRight(x: nat, n: nat): nat {
    if n == 0 then x else ShiftRight(x / 2, n - 1)
  }

  /** `x << n`: append n zero bits. */
  function ShiftLeft(x: nat, n: nat): nat {
    if n == 0 then x else 2 * ShiftLeft(x, n - 1)
  }

  /** `a & b`, lowest bit first. */
  function BitAnd(a: nat, b: nat): nat
    decreases a
  {
    if a == 0 || b == 0 then 0
    else 2 * BitAnd(a / 2, b / 2) + (if a % 2 == 1 && b % 2 == 1 then 1 else 0)
  }

  /** `a | b`, lowest bit first. */
  function BitOr(a: nat, b: nat): nat
    decreases a
  {
    if a == 0 then b
    else if b == 0 then a
    else 2 * BitOr(a / 2, b / 2) + (if a % 2 == 1 || b % 2 == 1 then 1 else 0)
  }

  /** Quotient and remainder are the unique pair that rebuilds `x`. */
  lemma DivModUnique(x: nat, d: nat, q: nat, r: nat)
    requires d > 0 && r < d && x == d * q + r
    ensures x / d == q && x % d == r
  {
    var q0, r0 := x / d, x % d;
    if q0 < q {
      MulStep(d, q0, q);
      assert false;
    } else if q < q0 {
      MulStep(d, q, q0);
      assert false;
    }
  }

  lemma {:induction false} MulStep(d: nat, a: nat, b: nat)
    requires a < b
    ensures d * a + d <= d * b
    decreases b - a
  {
    if b > a + 1 {
      MulStep(d, a, b - 1);
    }
    assert d * b == d * (b - 1) + d;
  }

  /** Halving splits a remainder modulo an even number into its bits. */
  lemma ModDouble(x: nat, m: nat)
    requires m > 0
    ensures x % (2 * m) == 2 * ((x / 2) % m) + x % 2
    ensures x / (2 * m) == (x / 2) / m
  {
    var q := (x / 2) / m;
    var r := (x / 2) % m;
    assert x / 2 == m * q + r;
    assert x == (2 * m) * q + (2 * r + x % 2);
    DivModUnique(x, 2 * m, q, 2 * r + x % 2);
  }

  lemma {:induction false} ShiftRightIsDiv(x: nat, n: nat)
    ensures ShiftRight(x, n) == x / Pow2(n)
    decreases n
  {
    if n > 0 {
      ShiftRightIsDiv(x / 2, n - 1);
      ModDouble(x, Pow2(n - 1));
    }
  }

  lemma {:induction false} ShiftLeftIsMul(x: nat, n: nat)
    ensures ShiftLeft(x, n) == x * Pow2(n)
    decreases n
  {
    if n > 0 {
      ShiftLeftIsMul(x, n - 1);
    }
  }

  /** Masking with n one-bits keeps the remainder modulo 2^n. */
  lemma {:induction false} BitAndLowMask(x: nat, n: nat)
    ensures BitAnd(x, Pow2(n) - 1) == x % Pow2(n)
    decreases n
  {
    if n == 0 {
      assert Pow2(n) == 1;
    } else if x == 0 {
      DivModUnique(0, Pow2(n), 0, 0);
    } else {
      var m := Pow2(n - 1);
      var mask := Pow2(n) - 1;
      assert Pow2(n) == 2 * m;
      DivModUnique(mask, 2, m - 1, 1);
      BitAndOdd(x, mask);
      BitAndLowMask(x / 2, n - 1);
      assert BitAnd(x / 2, mask / 2) == (x / 2) % m;
      ModDouble(x, m);
      assert BitAnd(x, mask) == x % (2 * m);
    }
  }

  /** One step of `&` against an odd mask keeps the low bit of `x`. */
  lemma BitAndOdd(x: nat, mask: nat)
    requires x > 0 && mask % 2 == 1
    ensures BitAnd(x, mask) == 2 * BitAnd(x / 2, mask / 2) + x % 2
  {
  }

  /** Or-ing a value into zero low bits is addition. */
  lemma {:induction false} BitOrDisjoint(hi: nat, lo: nat, n: nat)
    requires lo < Pow2(n)
    ensures BitOr(hi * Pow2(n), lo) == hi * Pow2(n) + lo
    decreases n
  {
    if n > 0 && hi * Pow2(n) != 0 && lo != 0 {
      var a := hi * Pow2(n);
      assert a == 2 * (hi * Pow2(n - 1));
      assert a / 2 == hi * Pow2(n - 1) && a % 2 == 0;
      BitOrDisjoint(hi, lo / 2, n - 1);
    }
  }
}
