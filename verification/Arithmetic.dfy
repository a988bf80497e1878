/** The few facts about products and rounded-down quotients the proofs need. */
module Arithmetic {

  /** Integer division rounding toward zero, whatever the signs. */
  function Quot(a: int, b: int): int
    requires b != 0
  {
    if a >= 0 then a / b else -((-a) / b)
  }

  /** A nonnegative dividend takes the sign of the divisor. */
  lemma QuotSign(a: int, b: int)
    requires a >= 0 && b < 0
    ensures Quot(a, b) <= 0
  {
    var q := a / b;
    assert a == q * b + a % b && 0 <= a % b < -b;
    if q > 0 { MulMono(1, q, -b); }
  }

  lemma QuotAtLeast(a: int, k: nat, b: int)
    requires b > 0 && a >= k * b
    ensures Quot(a, b) >= k
  {
    MulMono(0, k, b);
    FloorAtLeast(a, k, b);
  }

  lemma MulMono(x: int, y: int, c: int)
    requires x <= y && c >= 0
    ensures x * c <= y * c
  {
    assert y * c == x * c + (y - x) * c;
  }

  lemma DivMod(x: int, r: int)
    requires r >= 1
    ensures x == x / r * r + x % r && 0 <= x % r < r
  {
  }

  lemma FloorAtLeast(z: int, k: int, r: int)
    requires r >= 1 && z >= k * r
    ensures z / r >= k
  {
    DivMod(z, r);
    var q := z / r;
    assert (q + 1) * r == q * r + r;
    if q < k { MulMono(q + 1, k, r); }
  }

  lemma FloorMonotone(x: int, y: int, r: int)
    requires r >= 1 && x <= y
    ensures x / r <= y / r
  {
    DivMod(x, r);
    FloorAtLeast(y, x / r, r);
  }

  lemma FloorSum(x: int, y: int, r: int)
    requires r >= 1
    ensures x / r + y / r <= (x + y) / r
  {
    DivMod(x, r);
    DivMod(y, r);
    assert (x / r + y / r) * r == x / r * r + y / r * r;
    FloorAtLeast(x + y, x / r + y / r, r);
  }

  /** Less than one interval beyond `x` adds at most one to the quotient. */
  lemma FloorWithin(z: int, x: int, r: int)
    requires r >= 1 && z < x + r
    ensures z / r <= x / r + 1
  {
    var k := z / r;
    DivMod(z, r);
    assert (k - 1) * r == k * r - r;
    FloorAtLeast(x, k - 1, r);
  }

  lemma DivUnique(x: int, q: int, m: int, r: int)
    requires x == q * r + m && 0 <= m < r
    ensures x / r == q && x % r == m
  {
    FloorAtLeast(x, q, r);
    DivMod(x, r);
    assert (q + 1) * r == q * r + r;
    if x / r > q { MulMono(q + 1, x / r, r); }
  }

  /** Adding less than `n` to `s` wraps the remainder at most once. */
  lemma ModShift(s: int, i: int, n: int)
    requires n >= 1 && 0 <= i < n
    ensures (s + i) % n == if s % n + i < n then s % n + i else s % n + i - n
  {
    DivMod(s, n);
    var q, t := s / n, s % n;
    if t + i < n {
      DivUnique(s + i, q, t + i, n);
    } else {
      assert (q + 1) * n == q * n + n;
      DivUnique(s + i, q + 1, t + i - n, n);
    }
  }
}
