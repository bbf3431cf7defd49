/** Division with remainder, and powers of 2 and of 256. */
module Arithmetic {

  function Two(k: nat): (p: nat)
    ensures p >= 1
  {
    if k == 0 then 1 else 2 * Two(k - 1)
  }

  function Radix(n: nat): (p: nat)
    ensures p >= 1
  {
    if n == 0 then 1 else 256 * Radix(n - 1)
  }

  lemma Scaled(b: int, d: int)
    requires b >= 0
    ensures d >= 1 ==> b * d >= b
    ensures d <= -1 ==> b * d <= -b
  {
  }

  lemma DivisionUnique(x: nat, b: nat, q: nat, r: nat)
    requires b > 0 && r < b && x == b * q + r
    ensures x / b == q && x % b == r
  {
    var d := x / b - q;
    assert b * d == r - x % b;
    Scaled(b, d);
  }

  /** Dividing by `a` and then by `b`, with the remainders `s` and `r`. */
  lemma Split(x: nat, a: nat, b: nat, q: nat, r: nat, s: nat)
    requires r < b && s < a && x == a * (b * q + r) + s
    ensures a * b > 0 && x / (a * b) == q && x % (a * b) == a * r + s
  {
    assert a * (b * q + r) == (a * b) * q + a * r;
    Below(a, b, r, s);
    DivisionUnique(x, a * b, q, a * r + s);
  }

  lemma Below(a: nat, b: nat, r: nat, s: nat)
    requires r < b && s < a
    ensures a * r + s < a * b
  {
    assert a * (r + 1) <= a * b;
  }

  lemma DivideTwice(x: nat, a: nat, b: nat)
    requires a >= 1 && b >= 1
    ensures x / a / b == x / (a * b)
  {
    var y := x / a;
    Split(x, a, b, y / b, y % b, x % a);
  }

  /** Taking one more bit into account. */
  lemma NextBit(r: nat, d: nat)
    requires d >= 1
    ensures r % (2 * d) == r % d + if r / d % 2 == 1 then d else 0
  {
    var q := r / d;
    Split(r, d, 2, q / 2, q % 2, r % d);
  }

  lemma ModTwice(x: nat, m: nat, n: nat)
    requires n > 0
    ensures (x % n + m) % n == (x + m) % n
  {
    var y := x % n + m;
    Distribute(n, x / n, y / n);
    DivisionUnique(x + m, n, x / n + y / n, y % n);
  }

  lemma Distribute(n: nat, a: nat, b: nat)
    ensures n * (a + b) == n * a + n * b
  {
  }
}
