/** Facts about integer multiplication and division that the solver does
    not find on its own. Dafny's `/` on `int` rounds towards minus
    infinity for positive divisors, as Python's `//` does. */
module Arithmetic {

  /** Dividing twice by positive numbers is dividing once by their product
      (Python's `//` and Dafny's `/` agree for positive divisors). */
  lemma DivDiv(n: int, a: int, b: int)
    requires a > 0 && b > 0
    ensures n / a / b == n / (a * b)
  {
    var q, r := n / a, n % a;
    var q2, r2 := q / b, q % b;
    var rest := a * r2 + r;
    assert a * q == a * (b * q2 + r2) == (a * b) * q2 + a * r2 by {
      MulDistributes(a, b * q2, r2);
      MulAssociates(a, b, q2);
    }
    assert 0 <= a * r2 <= a * (b - 1) by {
      MulMonotone(a, r2, b - 1);
    }
    assert a * (b - 1) == a * b - a by {
      MulDistributes(a, b, -1);
    }
    DivUnique(n, a * b, q2, rest);
  }

  lemma MulDistributes(a: int, x: int, y: int)
    ensures a * (x + y) == a * x + a * y
  {
  }

  lemma MulAssociates(a: int, b: int, c: int)
    ensures a * (b * c) == (a * b) * c
  {
  }

  lemma MulMonotone(a: int, x: int, y: int)
    requires a >= 0 && 0 <= x <= y
    ensures 0 <= a * x <= a * y
  {
  }

  lemma DivUnique(n: int, d: int, q: int, r: int)
    requires d > 0 && 0 <= r < d && n == d * q + r
    ensures n / d == q
  {
    var q0, r0 := n / d, n % d;
    assert d * q0 + r0 == d * q + r;
    assert d * (q0 - q) == r - r0 by {
      MulDistributes(d, q0, -q);
    }
    if q0 > q {
      MulMonotone(d, 1, q0 - q);
    } else if q0 < q {
      MulMonotone(d, 1, q - q0);
      MulDistributes(d, q - q0, q0 - q);
    }
  }

  /** Division by a positive number preserves order. */
  lemma DivMonotone(a: int, b: int, d: int)
    requires a <= b && d > 0
    ensures a / d <= b / d
  {
    var qa, qb := a / d, b / d;
    assert d * qa <= a;
    assert b < d * qb + d;
    MulDistributes(d, qb, 1);
    MulCancelLess(d, qa, qb + 1);
  }

  lemma MulCancelLess(d: int, x: int, y: int)
    requires d > 0 && d * x < d * y
    ensures x < y
  {
    if y <= x {
      MulLe(d, y, x);
    }
  }

  lemma MulLe(d: int, x: int, y: int)
    requires d >= 0 && x <= y
    ensures d * x <= d * y
  {
    MulDistributes(d, y - x, x);
    MulMonotone(d, 0, y - x);
  }
}
