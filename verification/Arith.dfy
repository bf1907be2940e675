/** Division facts shared by the gather accumulators and the byte codecs. */
module Arith {

  function Min(a: int, b: int): int { if a <= b then a else b }

  function Max(a: int, b: int): int { if a >= b then a else b }

  lemma MulAtLeast(k: int, d: int)
    requires k >= 1 && d >= 0
    ensures k * d >= d
  {
    assert k * d == (k - 1) * d + d;
    assert (k - 1) * d >= 0;
  }

  /** Two splits `q * d + r` of one number by `d` are the same split. */
  lemma SplitUnique(d: int, q: int, r: int, q': int, r': int)
    requires 0 <= r < d && 0 <= r' < d
    requires q * d + r == q' * d + r'
    ensures q == q' && r == r'
  {
    assert (q - q') * d == r' - r;
    if q > q' {
      MulAtLeast(q - q', d);
    } else if q < q' {
      assert (q' - q) * d == r - r';
      MulAtLeast(q' - q, d);
    }
  }

  lemma DivModUnique(x: int, d: int, q: int, r: int)
    requires 0 <= r < d && x == q * d + r
    ensures x / d == q && x % d == r
  {
    var q', r' := x / d, x % d;
    assert x == q' * d + r';
    SplitUnique(d, q, r, q', r');
  }

  /** Adding `q` whole multiples of `d` moves the quotient by `q` and nothing else. */
  lemma DivModShift(x: int, d: int, q: int)
    requires d > 0
    ensures (x + q * d) / d == x / d + q
    ensures (x + q * d) % d == x % d
  {
    assert x == (x / d) * d + x % d;
    assert x + q * d == (x / d + q) * d + x % d;
    DivModUnique(x + q * d, d, x / d + q, x % d);
  }

  lemma DivMonotone(x: int, y: int, d: int)
    requires d > 0 && x <= y
    ensures x / d <= y / d
  {
    var q, q' := x / d, y / d;
    if q' < q {
      assert x == q * d + x % d && y == q' * d + y % d;
      assert (q - q') * d == q * d - q' * d;
      MulAtLeast(q - q', d);
    }
  }

  /** Scaling by a nonnegative factor, with the product terms spelled out. */
  lemma MulOrder(x: int, y: int, k: int)
    requires x <= y && 0 <= k
    ensures x * k <= y * k
  {
    assert y * k == (y - x) * k + x * k;
    assert (y - x) * k >= 0;
  }

  lemma DivBelow(x: int, d: int, n: int)
    requires d > 0 && 0 <= x < n * d
    ensures 0 <= x / d < n
  {
    var q := x / d;
    assert x == q * d + x % d;
    if q >= n { MulOrder(n, q, d); }
  }

  lemma DivAbove(x: int, d: int)
    requires 0 < d <= x
    ensures x / d >= 1
  {
    var q := x / d;
    assert x == q * d + x % d;
    if q <= 0 { MulOrder(q, 0, d); }
  }

  /** The least count `f` with `f * d >= x`. */
  function CeilDiv(x: int, d: int): int
    requires d > 0
  {
    -((-x) / d)
  }

  lemma CeilDivBounds(x: int, d: int)
    requires d > 0
    ensures CeilDiv(x, d) * d >= x
    ensures (CeilDiv(x, d) - 1) * d < x
  {
    var q := (-x) / d;
    assert -x == q * d + (-x) % d;
    assert (-q) * d == -(q * d);
    assert (-q - 1) * d == -(q * d) - d;
  }
}
