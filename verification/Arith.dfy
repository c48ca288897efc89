/** Facts about products and remainders that the solver does not find by itself. */
module Arith {

  const W31: int := 0x8000_0000
  const W32: int := 0x1_0000_0000

  lemma Grows(q: nat, y: nat)
    requires y > 0
    ensures q * y >= q
  {
  }

  lemma MulLess(a: nat, b: nat, c: nat)
    requires a < b && c >= 1
    ensures a * c + c <= b * c
  {
    assert b * c == a * c + (b - a) * c;
    assert (b - a) * c >= c by { Grows(c, b - a); }
  }

  lemma MulLeq(a: nat, b: nat, c: nat)
    requires a <= b
    ensures a * c <= b * c
  {
  }

  lemma DivUnique(d: nat, v: nat, q: nat, r: nat)
    requires v >= 1 && v * q + r == d && r < v
    ensures q == d / v && r == d % v
  {
    var q', r' := d / v, d % v;
    assert d == v * q' + r' && 0 <= r' < v;
    if q < q' { MulLess(q, q', v); }
    if q' < q { MulLess(q', q, v); }
  }

  lemma ModSucc(n: nat, d: nat)
    requires d >= 1
    ensures (n + 1) % d == if n % d + 1 == d then 0 else n % d + 1
  {
    var q, r := n / d, n % d;
    assert n == d * q + r;
    if r + 1 == d {
      assert d * (q + 1) == d * q + d;
      DivUnique(n + 1, d, q + 1, 0);
    } else {
      DivUnique(n + 1, d, q, r + 1);
    }
  }

  lemma ModApart(k: nat, n: nat, d: nat)
    requires k < n < k + d
    ensures k % d != n % d
  {
    var p, q := k / d, n / d;
    assert k == d * p + k % d && n == d * q + n % d;
    if p < q { MulLess(p, q, d); }
    if q < p { MulLess(q, p, d); }
    if p == q { assert d * p == d * q; }
  }

  lemma ModTwice(n: nat, d: nat)
    requires d >= 1
    ensures n % (2 * d) % d == n % d
  {
    var m := 2 * d;
    var q, r := n / m, n % m;
    assert n == m * q + r;
    var b := if r >= d then 1 else 0;
    assert d * (2 * q + b) == m * q + b * d;
    DivUnique(n, d, 2 * q + b, r - b * d);
    DivUnique(r, d, b, r - b * d);
  }

  lemma WrapsOnce(a: nat, b: nat, m: nat, q: nat, x: nat, p: nat, y: nat)
    requires a == m * q + x && b == m * p + y && x < m && y < m && b <= a < b + m
    ensures a - b == if x >= y then x - y else x + m - y
  {
    if q < p { MulLess(q, p, m); }
    if p + 1 < q {
      MulLess(p + 1, q, m);
    }
    assert m * (p + 1) == m * p + m;
  }

  /** The difference of two counters survives their wrap-around. */
  lemma ModDiff(a: nat, b: nat, m: nat)
    requires b <= a < b + m
    ensures a - b == if a % m >= b % m then a % m - b % m else a % m + m - b % m
  {
    WrapsOnce(a, b, m, a / m, a % m, b / m, b % m);
  }

  function Pow2(n: nat): (r: nat)
    ensures r >= 1
  {
    if n == 0 then 1 else 2 * Pow2(n - 1)
  }

  lemma {:induction false} PowSum(m: nat, n: nat)
    ensures Pow2(m) * Pow2(n) == Pow2(m + n)
  {
    if m > 0 {
      PowSum(m - 1, n);
      assert Pow2(m) * Pow2(n) == 2 * (Pow2(m - 1) * Pow2(n));
    }
  }

  lemma Pow31()
    ensures Pow2(31) == W31
  {
    PowSum(8, 8);
    PowSum(16, 15);
    assert Pow2(8) == 256 && Pow2(7) == 128;
    PowSum(8, 7);
  }
}
