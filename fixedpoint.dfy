/**
 * The C integer operators the compensation formulas use, on unbounded
 * integers.  `x >> k` on a signed value is an arithmetic shift, which rounds
 * toward minus infinity; the formulas write it `x / 2^k` with the power as a
 * literal, since Dafny's division by a positive divisor rounds the same way.
 * `x << k` is written `x * 2^k`.  C's `/` truncates toward zero instead and
 * is TruncDiv.
 */
module FixedPoint {

  function Abs(x: int): nat {
    if x < 0 then -x else x
  }

  /**
   * C's `a / b`: the quotient rounded toward zero, so that the remainder
   * is smaller than the divisor and has the sign of the dividend.
   */
  function TruncDiv(a: int, b: int): (q: int)
    requires b != 0
    ensures Abs(a - q * b) < Abs(b)
    ensures a - q * b == 0 || (a - q * b < 0 <==> a < 0)
  {
    var q := Abs(a) / Abs(b);
    assert Abs(a) - q * Abs(b) < Abs(b);
    if (a < 0) == (b < 0) then q else -q
  }

  /** Division by a positive divisor, hence an arithmetic shift, keeps the order of its arguments. */
  lemma {:induction false} FloorDivMonotone(x: int, y: int, d: int)
    requires x <= y && d > 0
    ensures x / d <= y / d
  {
    var u, v := x / d, y / d;
    assert d * u <= x && y < d * v + d;
    if u > v {
      MulNonneg(d, u - v - 1);
    }
  }

  lemma MulNonneg(a: int, b: int)
    requires a >= 0 && b >= 0
    ensures a * b >= 0
  {
  }

  /** A non-zero multiple of b is at least as large as b in magnitude. */
  lemma {:induction false} AbsMulAtLeast(m: int, b: int)
    requires m != 0
    ensures Abs(m * b) >= Abs(b)
  {
    var n := Abs(m);
    MulNonneg(n - 1, Abs(b));
    assert Abs(m * b) == n * Abs(b) by {
      if m < 0 && b < 0 { assert m * b == (-m) * (-b); }
      else if m < 0 { assert -(m * b) == (-m) * b; }
      else if b < 0 { assert -(m * b) == m * (-b); }
    }
    assert n * Abs(b) - Abs(b) == (n - 1) * Abs(b);
  }

  /**
   * The two properties in TruncDiv's contract single out one quotient, so
   * they are a complete description of C division.
   */
  lemma {:induction false} TruncDivUnique(a: int, b: int, q: int)
    requires b != 0
    requires Abs(a - q * b) < Abs(b)
    requires a - q * b == 0 || (a - q * b < 0 <==> a < 0)
    ensures q == TruncDiv(a, b)
  {
    var t := TruncDiv(a, b);
    var r, s := a - q * b, a - t * b;
    if q != t {
      assert r - s == (t - q) * b;
      AbsMulAtLeast(t - q, b);
      assert false;
    }
  }

  /**
   * C division differs from the floor exactly when the quotient is negative
   * and inexact; for a non-negative dividend and a positive divisor the two agree.
   */
  lemma {:induction false} TruncDivAgainstFloor(a: int, b: int)
    requires b > 0
    ensures a >= 0 ==> TruncDiv(a, b) == a / b
    ensures a < 0 && a % b != 0 ==> TruncDiv(a, b) == a / b + 1
    ensures a < 0 && a % b == 0 ==> TruncDiv(a, b) == a / b
  {
    if a < 0 {
      var q := TruncDiv(a, b);
      if a % b != 0 {
        TruncDivUnique(a, b, a / b + 1);
      } else {
        TruncDivUnique(a, b, a / b);
      }
    }
  }
}
