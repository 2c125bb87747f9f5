/** Small facts about multiplication and floor division used by the proofs. */
module Arith {

  lemma MulLe(x: int, y: int, d: nat)
    requires x <= y
    ensures x * d <= y * d
  {
    assert y * d - x * d == (y - x) * d;
  }

  function Square(x: int): nat
  {
    x * x
  }

  lemma SquareMono(a: nat, b: nat)
    requires a <= b
    ensures Square(a) <= Square(b)
  {
    MulLe(a, b, a);
    MulLe(a, b, b);
  }

  lemma SquareStep(c: nat)
    ensures Square(c) < Square(c + 1)
  {
    assert (c + 1) * (c + 1) == c * c + 2 * c + 1;
  }

  lemma SquareDouble(h: int)
    ensures Square(2 * h) == 4 * Square(h)
  {
    assert (2 * h) * (2 * h) == 4 * (h * h);
  }

  lemma AmGm(a: int, b: int)
    ensures 4 * (a * b) <= Square(a + b)
  {
    assert (a + b) * (a + b) == a * a + 2 * (a * b) + b * b;
    assert (a - b) * (a - b) == a * a - 2 * (a * b) + b * b;
    assert (a - b) * (a - b) >= 0;
  }

  /** Floor division by a positive divisor is monotone (also for negative dividends). */
  lemma DivMono(a: int, b: int, d: int)
    requires a <= b && d > 0
    ensures a / d <= b / d
  {
    var qa, qb := a / d, b / d;
    assert a == qa * d + a % d;
    assert b == qb * d + b % d;
    if qa > qb {
      MulLe(qb + 1, qa, d);
    }
  }

  lemma DivUnique(n: int, d: int, q: int, r: int)
    requires d > 0 && n == q * d + r && 0 <= r < d
    ensures n / d == q
  {
    var q' := n / d;
    assert n == q' * d + n % d;
    if q' > q {
      MulLe(q + 1, q', d);
    } else if q' < q {
      MulLe(q' + 1, q, d);
    }
  }

  lemma DivBracket(n: int, d: int)
    requires d > 0
    ensures d * (n / d) <= n < d * (n / d + 1)
  {
    assert n == (n / d) * d + n % d;
    assert d * (n / d + 1) == d * (n / d) + d;
  }

  lemma DivAtMost(n: nat, d: nat)
    requires d >= 1
    ensures n / d <= n
  {
    var q := n / d;
    DivBracket(n, d);
    MulLe(1, d, q);
    assert q <= d * q;
  }

  lemma DivBelow(a: nat, d: nat, c: nat)
    requires d > 0 && a <= d * c
    ensures a / d <= c
  {
    DivMono(a, c * d, d);
    DivUnique(c * d, d, c, 0);
  }

  lemma MulDivCancel(a: nat, b: nat)
    requires b > 0
    ensures (a * b) / b == a
  {
    DivUnique(a * b, b, a, 0);
  }

  lemma DivDivCancel(a: nat, c: nat, p: nat)
    requires c > 0 && p > 0
    ensures (a * c) / (c * p) == a / p
  {
    var q := a / p;
    var r := a % p;
    assert a == q * p + r;
    assert a * c == q * (c * p) + r * c;
    MulLe(r, p - 1, c);
    DivUnique(a * c, c * p, q, r * c);
  }
}
