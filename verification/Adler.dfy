/** Adler-32 as section 8.2 of RFC 1950 updates it, and as section 2.2 defines it. */
module Adler {
  import opened Arith
  import opened SaveCodec

  const BASE := 65521

  type Word = v: int | 0 <= v < 0x1_0000_0000

  function Low(v: Word): nat { v % 65536 }

  function High(v: Word): nat { v / 65536 }

  /** Take in one byte. */
  function Step(v: Word, b: Byte): Word {
    var a := (Low(v) + b) % BASE;
    (High(v) + a) % BASE * 65536 + a
  }

  /** The running value `v` after `s`. */
  function Adler32(s: seq<Byte>, v: Word): Word {
    if s == [] then v else Adler32(s[1..], Step(v, s[0]))
  }

  /** Continuing a checksum is checksumming the concatenation. */
  lemma {:induction false} AdlerConcat(s: seq<Byte>, t: seq<Byte>, v: Word)
    ensures Adler32(s + t, v) == Adler32(t, Adler32(s, v))
    decreases |s|
  {
    if s == [] {
      assert s + t == t;
    } else {
      assert (s + t)[1..] == s[1..] + t;
      AdlerConcat(s[1..], t, Step(v, s[0]));
    }
  }

  function Sum(s: seq<Byte>): nat { if s == [] then 0 else s[0] + Sum(s[1..]) }

  /** Every byte as often as it enters the second sum. */
  function Weighted(s: seq<Byte>): nat { if s == [] then 0 else |s| * s[0] + Weighted(s[1..]) }

  lemma StepParts(v: Word, b: Byte)
    ensures Low(Step(v, b)) == (Low(v) + b) % BASE
    ensures High(Step(v, b)) == (High(v) + (Low(v) + b) % BASE) % BASE
  {
    var a := (Low(v) + b) % BASE;
    DivModUnique(Step(v, b), 65536, (High(v) + a) % BASE, a);
  }

  /** The two halves in closed form, from any start that is itself reduced. */
  lemma {:induction false} AdlerSums(s: seq<Byte>, v: Word)
    requires Low(v) < BASE && High(v) < BASE
    ensures Low(Adler32(s, v)) == (Low(v) + Sum(s)) % BASE
    ensures High(Adler32(s, v)) == (High(v) + |s| * Low(v) + Weighted(s)) % BASE
    decreases |s|
  {
    hide Step, Low, High, Adler32;
    if s == [] {
      Untouched(v);
    } else {
      hide Sum, Weighted;
      var w := Step(v, s[0]);
      StepParts(v, s[0]);
      AdlerSums(s[1..], w);
      Unfolded(s, v);
      SumsStep(Low(v), High(v), s[0], |s| - 1, Sum(s[1..]), Weighted(s[1..]));
    }
  }

  lemma Untouched(v: Word)
    requires Low(v) < BASE && High(v) < BASE
    ensures Adler32([], v) == v
    ensures Low(v) == (Low(v) + Sum([])) % BASE && High(v) == (High(v) + 0 * Low(v) + Weighted([])) % BASE
  {
  }

  lemma SumsStep(lo: int, hi: int, b: int, n: int, sum: int, weighted: int)
    ensures ((lo + b) % BASE + sum) % BASE == (lo + (b + sum)) % BASE
    ensures ((hi + (lo + b) % BASE) % BASE + n * ((lo + b) % BASE) + weighted) % BASE
         == (hi + (n + 1) * lo + ((n + 1) * b + weighted)) % BASE
  {
    ShiftLow(lo + b, sum);
    ShiftHigh(hi, lo + b, n, weighted);
    assert (n + 1) * (lo + b) == (n + 1) * lo + (n + 1) * b;
  }

  lemma Unfolded(s: seq<Byte>, v: Word)
    requires s != []
    ensures Adler32(s, v) == Adler32(s[1..], Step(v, s[0]))
    ensures Sum(s) == s[0] + Sum(s[1..])
    ensures Weighted(s) == |s| * s[0] + Weighted(s[1..])
  {
  }

  lemma ShiftLow(x: int, y: int)
    ensures (x % BASE + y) % BASE == (x + y) % BASE
  {
    DivModShift(x % BASE + y, BASE, x / BASE);
  }

  lemma ShiftHigh(h: int, x: int, n: int, y: int)
    ensures ((h + x % BASE) % BASE + n * (x % BASE) + y) % BASE == (h + (n + 1) * x + y) % BASE
  {
    var a, q := x % BASE, x / BASE;
    var b, p := (h + a) % BASE, (h + a) / BASE;
    assert x == q * BASE + a && h + a == p * BASE + b;
    assert n * x == n * (q * BASE) + n * a;
    assert n * (q * BASE) == (n * q) * BASE;
    assert (n + 1) * x == n * x + x;
    assert h + (n + 1) * x + y == b + n * a + y + (p + q + n * q) * BASE;
    DivModShift(b + n * a + y, BASE, p + q + n * q);
  }

  /** The checksum of a whole message is the pair of sums of section 2.2. */
  lemma AdlerIsDefined(s: seq<Byte>)
    ensures Adler32(s, 1) == (|s| + Weighted(s)) % BASE * 65536 + (1 + Sum(s)) % BASE
  {
    hide Adler32, Sum, Weighted;
    AdlerSums(s, 1);
    assert |s| * 1 == |s|;
  }
}
