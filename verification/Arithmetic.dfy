/** Facts of non-linear arithmetic. */
module Arithmetic {
  lemma MulGrows(a: nat, b: nat, m: nat)
    requires a <= b
    ensures a * m <= b * m
  {
  }

  lemma MulGrowsStrictly(a: nat, b: nat, m: nat)
    requires a < b && m > 0
    ensures a * m < b * m
  {
  }

  // Quotient and remainder are determined by what they add up to.
  lemma DivModUnique(v: nat, q: nat, m: nat, r: nat)
    requires v == q * m + r && r < m
    ensures v / m == q && v % m == r
  {
    var k, s := v / m, v % m;
    assert v == k * m + s;
    assert (k - q) * m == r - s && (q - k) * m == s - r;
    if k > q {
      MulGrows(1, k - q, m);
    } else if k < q {
      MulGrows(1, q - k, m);
    }
  }

  lemma DivAtMost(x: nat, m: nat)
    requires m > 0
    ensures x / m <= x
  {
    if x / m > x {
      MulGrowsStrictly(x, x / m, m);
      MulGrows(1, m, x);
    }
  }

  function Quotient(x: nat, m: nat): (q: nat)
    requires m > 0
    ensures q <= x
  {
    DivAtMost(x, m);
    x / m
  }

  lemma DivGrows(a: nat, b: nat, m: nat)
    requires a <= b && m > 0
    ensures a / m <= b / m
  {
    var p, q := a / m, b / m;
    assert a == p * m + a % m && b == q * m + b % m;
    if p > q {
      MulGrows(q + 1, p, m);
    }
  }

  lemma DivTwice(x: nat, m: nat, n: nat)
    requires m > 0 && n > 0
    ensures m * n > 0 && x / (m * n) == (x / m) / n && x % (m * n) == x % m + m * ((x / m) % n)
  {
    var y, a := x / m, x % m;
    var q, r := y / n, y % n;
    TwoDigits(x, m, n, y, a, q, r);
    DivModUnique(x, q, m * n, m * r + a);
  }

  lemma TwoDigits(x: nat, m: nat, n: nat, y: nat, a: nat, q: nat, r: nat)
    requires x == y * m + a && a < m && y == q * n + r && r < n
    ensures 0 <= m * r && x == q * (m * n) + (m * r + a) && m * r + a < m * n
  {
    MulGrows(r + 1, n, m);
    assert y * m == (q * n + r) * m == q * (m * n) + m * r;
  }
}
