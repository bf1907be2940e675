/**
 The engine's integer gather accumulator, which both planners run: income is kept in
 fractions of a resource and only whole resources reach the stock.
 */
module Accumulator {
  import opened Arith

  /** One resource's accumulator run for `n` frames at a fixed income. */
  function Accrue(period: int, inc: int, n: int, stock: int, left: int): (int, int)
    requires period > 0
  {
    if inc <= 0 then (stock, left)
    else (stock + (inc * n + left) / period, (inc * n + left) % period)
  }

  lemma AccrueSplit(period: int, inc: int, a: int, b: int, stock: int, left: int)
    requires period > 0
    ensures var (s1, l1) := Accrue(period, inc, a, stock, left);
            Accrue(period, inc, b, s1, l1) == Accrue(period, inc, a + b, stock, left)
  {
    if inc > 0 {
      var t1 := inc * a + left;
      var q, l1 := t1 / period, t1 % period;
      assert t1 == q * period + l1;
      assert inc * (a + b) + left == inc * b + l1 + q * period;
      DivModShift(inc * b + l1, period, q);
    }
  }

  /** The wait for one short resource at a fixed positive income. */
  function FramesFor(period: int, inc: int, need: int, left: int): int
    requires inc > 0
  {
    Max(0, CeilDiv(need * period - left, inc))
  }

  lemma QuotientReaches(x: int, d: int, n: int)
    requires d > 0
    ensures x / d >= n <==> x >= n * d
  {
    var q := x / d;
    assert x == q * d + x % d;
    if q >= n {
      MulOrder(n, q, d);
    } else {
      MulOrder(q + 1, n, d);
      assert (q + 1) * d == q * d + d;
    }
  }

  lemma CeilReaches(x: int, d: int, m: int)
    requires d > 0
    ensures m * d >= x <==> m >= CeilDiv(x, d)
  {
    hide CeilDiv;
    var f := CeilDiv(x, d);
    CeilDivBounds(x, d);
    if m >= f {
      MulOrder(f, m, d);
    } else {
      MulOrder(m, f - 1, d);
    }
  }

  /** The accumulator covers `cost` after `m` frames exactly when `m` reaches the wait. */
  lemma AccrueReaches(period: int, inc: int, m: nat, stock: int, left: int, cost: int)
    requires period > 0 && inc > 0
    ensures Accrue(period, inc, m, stock, left).0 >= cost
       <==> m >= FramesFor(period, inc, cost - stock, left)
  {
    hide CeilDiv;
    var need := cost - stock;
    QuotientReaches(inc * m + left, period, need);
    CeilReaches(need * period - left, inc, m);
    assert m * inc == inc * m;
  }

  /** More income never credits less. */
  lemma AccrueMonotone(period: int, inc: int, inc': int, m: nat, stock: int, left: int)
    requires period > 0 && 0 <= inc <= inc' && 0 <= left < period
    ensures Accrue(period, inc, m, stock, left).0 <= Accrue(period, inc', m, stock, left).0
  {
    MulOrder(inc, inc', m);
    MulOrder(0, inc, m);
    DivMonotone(inc * m + left, inc' * m + left, period);
    DivMonotone(0, inc' * m + left, period);
    if inc == 0 { DivModUnique(left, period, 0, left); }
  }
}
