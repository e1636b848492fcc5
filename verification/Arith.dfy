/** Powers of two, as used by the bit-level modules. */
module Arith {
  function Min(a: nat, b: nat): nat { if a < b then a else b }

  function Pow2(n: nat): (p: nat)
    ensures p >= 1
  {
    if n == 0 then 1 else 2 * Pow2(n - 1)
  }

  lemma {:induction false} Pow2Add(a: nat, b: nat)
    ensures Pow2(a + b) == Pow2(a) * Pow2(b)
  {
    if a != 0 {
      Pow2Add(a - 1, b);
      assert Pow2(a + b) == 2 * (Pow2(a - 1) * Pow2(b)) == (2 * Pow2(a - 1)) * Pow2(b);
    }
  }

  lemma Pow2Mono(a: nat, b: nat)
    requires a <= b
    ensures Pow2(a) <= Pow2(b)
  {
    if a < b {
      Pow2Mono(a, b - 1);
    }
  }

  lemma MulLess(a: int, b: int, d: int)
    requires a < b && d > 0
    ensures a * d + d <= b * d
  {
    assert b * d == a * d + d + (b - a - 1) * d;
  }

  lemma DivUnique(x: int, d: int, q: int, r: int)
    requires d > 0 && x == q * d + r && 0 <= r < d
    ensures x / d == q && x % d == r
  {
    assert x == (x / d) * d + x % d;
    if x / d < q {
      MulLess(x / d, q, d);
    } else if q < x / d {
      MulLess(q, x / d, d);
    }
  }

  lemma DivAtLeast(x: nat, d: nat, q: nat)
    requires d > 0 && x >= q * d
    ensures x / d >= q
  {
    assert x == (x / d) * d + x % d;
    if x / d < q {
      MulLess(x / d, q, d);
    }
  }

  lemma DivLess(x: nat, d: nat, q: nat)
    requires d > 0 && x < q * d
    ensures x / d < q
  {
    assert x == (x / d) * d + x % d;
    if q < x / d {
      MulLess(q, x / d, d);
    }
  }

  lemma AddMultiple(v: int, d: int, k: int)
    requires d > 0
    ensures (v + k * d) / d == v / d + k
  {
    assert v + k * d == (v / d + k) * d + v % d;
    DivUnique(v + k * d, d, v / d + k, v % d);
  }

  lemma MulAssoc(a: int, b: int, c: int)
    ensures (a * b) * c == a * (b * c)
  {
  }

  lemma MulMono(a: nat, b: nat, c: nat, d: nat)
    requires a <= c && b <= d
    ensures a * b <= c * d
  {
    assert c * d == a * b + (c - a) * b + c * (d - b);
  }

  lemma MulTwice(a: int, b: int)
    ensures a * (2 * b) == 2 * (a * b)
  {
  }

  lemma AddEvenMultiple(v: int, d: int, k: int, h: int)
    requires d > 0
    ensures ((v + k * ((2 * h) * d)) / d) % 2 == (v / d) % 2
  {
    MulAssoc(k, 2 * h, d);
    MulAssoc(2, k, h);
    AddMultiple(v, d, k * (2 * h));
    assert k * (2 * h) == 2 * (k * h);
  }

  lemma Distribute(a: int, b: int, c: int)
    ensures a * (b + c) == a * b + a * c
  {
  }

  lemma DivParts(x: nat, a: nat, b: nat, y: nat, rest: nat, q: nat, r: nat)
    requires x == a * y + rest && rest < a && y == b * q + r && r < b
    ensures x == q * (a * b) + (a * r + rest) && a * r + rest < a * b
  {
    Distribute(a, b * q, r);
    MulAssoc(a, b, q);
    MulMono(a, r, a, b - 1);
    Distribute(a, b - 1, 1);
  }

  lemma DivDiv(x: nat, a: nat, b: nat)
    requires a > 0 && b > 0
    ensures a * b > 0 && (x / a) / b == x / (a * b)
  {
    var y, rest := x / a, x % a;
    var q, r := y / b, y % b;
    DivParts(x, a, b, y, rest, q, r);
    DivUnique(x, a * b, q, a * r + rest);
  }

  // The remainder by 2^(n+1) is the remainder by 2^n plus bit n.
  lemma ModStep(v: nat, n: nat)
    ensures v % Pow2(n + 1) == v % Pow2(n) + ((v / Pow2(n)) % 2) * Pow2(n)
  {
    var p := Pow2(n);
    var q := v / p;
    assert v == p * q + v % p;
    assert q == 2 * (q / 2) + q % 2;
    assert p * q == p * (2 * (q / 2)) + p * (q % 2);
    assert p * (2 * (q / 2)) == (q / 2) * (2 * p);
    assert (q % 2) * p <= p;
    DivUnique(v, 2 * p, q / 2, v % p + (q % 2) * p);
  }
}
