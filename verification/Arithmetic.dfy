/** Facts about remainders that the circular arrays and the per-thread serial numbers rest on. */
module Arithmetic {

  lemma Multiple(n: int, d: int)
    requires 0 < n
    ensures d >= 1 ==> n * d >= n
    ensures d <= -1 ==> n * d <= -n
  {
  }

  /** Quotient and remainder are unique. */
  lemma Unique(n: int, a: int, r: int, b: int, q: int)
    requires 0 < n && 0 <= r < n && 0 <= q < n && n * a + r == n * b + q
    ensures a == b && r == q
  {
    var d := a - b;
    assert n * d == q - r;
    Multiple(n, d);
  }

  lemma ModStep(i: int, n: int)
    requires 0 < n
    ensures i % n == (i - n) % n
  {
    var a, b := i / n, (i - n) / n;
    assert i == n * a + i % n && i - n == n * b + (i - n) % n;
    assert n * (b + 1) == n * b + n;
    Unique(n, a, i % n, b + 1, (i - n) % n);
  }

  lemma AddModulus(x: int, n: int)
    requires 0 < n
    ensures (x + n) % n == x % n
  {
    ModStep(x + n, n);
  }

  lemma SmallMod(t: int, n: int)
    requires 0 <= t < n
    ensures t % n == t
  {
  }
}
