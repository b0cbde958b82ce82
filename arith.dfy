/** Facts about multiplication and Euclidean division that the padding and the solvers need spelled out. */
module Arith {

  /** Multiplying by a positive factor keeps strict order, in both directions. */
  lemma ScaleStrict(base: nat, b: int, c: int)
    requires base > 0
    ensures base * b < base * c <==> b < c
  {
    assert base * c - base * b == base * (c - b);
  }

  /** Division by `base` recovers the quotient and remainder of `base * q + r`. */
  lemma DivModOfSum(q: int, base: nat, r: nat)
    requires 0 <= r < base
    ensures (base * q + r) / base == q
    ensures (base * q + r) % base == r
  {
    var m := base * q + r;
    var d, e := m / base, m % base;
    assert m == base * d + e && 0 <= e < base;
    ScaleStrict(base, q, d + 1);
    ScaleStrict(base, d, q + 1);
    assert base * (d + 1) == base * d + base;
    assert base * (q + 1) == base * q + base;
    assert d == q;
  }

  /** `|x|`. */
  function Abs(x: int): nat
  {
    if x < 0 then -x else x
  }

  /** Euclidean remainders depend only on the magnitude of the divisor: `m % -base == m % base`. */
  lemma ModOfNegatedBase(m: int, base: nat)
    requires base > 0
    ensures m % (0 - base) == m % base
  {
    var nb: int := 0 - base;
    var q, r := m / nb, m % nb;
    assert m == nb * q + r && 0 <= r < base;
    assert m == base * (-q) + r;
    DivModOfSum(-q, base, r);
  }

  /** Below a multiple `m` of `base`, the nearest multiple is `m - base`: none lies strictly between. */
  lemma MultiplesApart(m: int, base: nat, d: int)
    requires base > 0 && m % base == 0 && 0 < d <= base
    ensures (m - d) % base == 0 <==> d == base
  {
    var q := m / base;
    assert m == base * q;
    assert m - d == base * (q - 1) + (base - d);
    if d < base {
      DivModOfSum(q - 1, base, base - d);
    } else {
      DivModOfSum(q - 1, base, 0);
    }
  }
}
