// Facts about division and remainder that several modules need.

module Arithmetic {

  // A nonzero multiple is at least as large as what it is a multiple of.
  lemma MultipleSize(m: int, d: int)
    requires m > 0
    ensures d >= 1 ==> m * d >= m
    ensures d <= -1 ==> m * d <= -m
  {
    if d >= 1 {
      assert m * d == m + m * (d - 1);
    } else if d <= -1 {
      assert m * d == -m + m * (d + 1);
    }
  }

  // Quotient and remainder are unique.
  lemma DivModIs(x: int, m: int, q: int, r: int)
    requires m > 0 && 0 <= r < m && x == m * q + r
    ensures x / m == q && x % m == r
  {
    var d := q - x / m;
    assert m * d == x % m - r by {
      assert m * d == m * q - m * (x / m);
    }
    MultipleSize(m, d);
  }

  // Counting up around a ring.
  lemma NextIndex(k: int, m: int)
    requires m > 0
    ensures (k + 1) % m == (k % m + 1) % m
  {
    var q, r := k / m, k % m;
    assert k == m * q + r;
    if r + 1 < m {
      DivModIs(k + 1, m, q, r + 1);
      DivModIs(r + 1, m, 0, r + 1);
    } else {
      assert m * (q + 1) == m * q + m;
      DivModIs(k + 1, m, q + 1, 0);
      DivModIs(r + 1, m, 1, 0);
    }
  }

  // A floored quotient reaches c exactly when the product does not exceed the dividend.
  lemma QuotientAtLeast(a: int, b: int, c: int)
    requires b > 0
    ensures a / b >= c <==> a >= b * c
  {
    var q := a / b;
    assert a == b * q + a % b;
    if q >= c {
      assert b * q >= b * c by { MultipleOrder(b, c, q); }
    } else {
      assert b * c >= b * (q + 1) by { MultipleOrder(b, q + 1, c); }
      assert b * (q + 1) == b * q + b;
    }
  }

  lemma MultipleOrder(b: int, c: int, d: int)
    requires b > 0 && c <= d
    ensures b * c <= b * d
  {
    assert b * d == b * c + b * (d - c);
    if d > c { MultipleSize(b, d - c); }
  }

  // Multiples of u up to x are the multiples of u up to x floored to u.
  lemma FlooredMultiples(x: int, u: int, d: int)
    requires u > 0 && d % u == 0
    ensures d <= x / u * u <==> d <= x
    ensures (x / u * u) % u == 0 && x / u * u <= x
  {
    var q, k := x / u, d / u;
    assert x == u * q + x % u && d == u * k;
    DivModIs(q * u, u, q, 0);
    if k <= q {
      MultipleOrder(u, k, q);
    } else {
      MultipleOrder(u, q + 1, k);
      assert u * (q + 1) == u * q + u;
    }
  }

  lemma ScaleOrder(a: nat, b: nat, n: nat)
    requires a <= b
    ensures a * n <= b * n
  {
    if n > 0 { MultipleOrder(n, a, b); }
  }

  // What a multiple divides, its divisor divides.
  lemma DividesThrough(x: nat, d: nat, u: nat)
    requires u > 0 && d > 0 && d % u == 0 && x % d == 0
    ensures x % u == 0
  {
    var k, q := d / u, x / d;
    assert d == u * k && x == d * q;
    assert x == u * (k * q);
    DivModIs(x, u, k * q, 0);
  }
}
