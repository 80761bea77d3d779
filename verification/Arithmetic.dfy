/** Arithmetic on products and remainders, with every nonlinear step spelt out. */
module Arithmetic {

  function Min(a: nat, b: nat): nat {
    if a < b then a else b
  }

  lemma AtLeast(d: int, c: int)
    requires d >= 1 && c >= 0
    ensures d * c >= c
  {
  }

  lemma Distance(a: int, b: int, c: int)
    ensures (a - b) * c == a * c - b * c
  {
  }

  lemma Remainder(a: int, q: int, rest: int, c: int)
    requires c > 0 && a == q * c + rest && 0 <= rest < c
    ensures a % c == rest
  {
    var q', rest' := a / c, a % c;
    assert a == q' * c + rest';
    Distance(q, q', c);
    Distance(q', q, c);
    if q > q' {
      AtLeast(q - q', c);
    } else if q < q' {
      AtLeast(q' - q, c);
    }
  }

  lemma Multiple(x: int, c: nat)
    requires c > 0
    ensures (x * c) % c == 0
  {
    Remainder(x * c, x, 0, c);
  }

  lemma AlignedSum(a: nat, b: nat, c: nat)
    requires c > 0 && a % c == 0 && b % c == 0
    ensures (a + b) % c == 0
    ensures a >= b ==> (a - b) % c == 0
  {
    var x, y := a / c, b / c;
    assert a == x * c && b == y * c;
    assert a + b == (x + y) * c;
    Multiple(x + y, c);
    if a >= b {
      Distance(x, y, c);
      Multiple(x - y, c);
    }
  }

  lemma Monotone(a: int, b: int, c: nat)
    requires a <= b
    ensures a * c <= b * c
  {
    Distance(b, a, c);
  }
}
