/** The emitted structure-of-arrays block: rows are cleared and copied plane by plane. */
module ColumnBlock {
  import opened Arith
  import opened Costs
  import opened ColumnLayout

  // ---- one pool as a value ----

  /** Clear `row` in every plane of a pool. */
  function ZeroRow<T>(s: seq<T>, cap: nat, row: nat, zero: T): seq<T>
    requires row < cap
  {
    seq(|s|, i requires 0 <= i < |s| => if i % cap == row then zero else s[i])
  }

  /** Copy row `src` over row `dst` in every plane of a pool. */
  function CopyRow<T>(s: seq<T>, cap: nat, dst: nat, src: nat): seq<T>
    requires dst < cap && src < cap && |s| % cap == 0
  {
    seq(|s|, i requires 0 <= i < |s| => if i % cap == dst then SourceOf(s, cap, dst, src, i) else s[i])
  }

  function SourceOf<T>(s: seq<T>, cap: nat, dst: nat, src: nat, i: nat): T
    requires dst < cap && src < cap && |s| % cap == 0 && i < |s| && i % cap == dst
  {
    SourceInside(|s|, cap, dst, src, i);
    s[i - dst + src]
  }

  lemma SourceInside(n: nat, cap: nat, dst: nat, src: nat, i: nat)
    requires dst < cap && src < cap && n % cap == 0 && i < n && i % cap == dst
    ensures 0 <= i - dst + src < n
  {
    var q, m := i / cap, n / cap;
    assert i == q * cap + dst && n == m * cap;
    if q >= m { MulOrder(m, q, cap); }
    MulOrder(q + 1, m, cap);
    assert (q + 1) * cap == q * cap + cap;
  }

  /** The populated part of plane `p`. */
  function Plane<T>(s: seq<T>, cap: nat, len: nat, p: nat): seq<T>
    requires len <= cap && p * cap + len <= |s|
  {
    s[p * cap..p * cap + len]
  }

  lemma InPlane(cap: nat, p: nat, i: nat)
    requires i < cap
    ensures (p * cap + i) % cap == i && p * cap + i < (p + 1) * cap
  {
    DivModUnique(p * cap + i, cap, p, i);
    assert (p + 1) * cap == p * cap + cap;
  }

  /** On planes, clearing a row clears that entry and no other. */
  lemma ZeroRowOnPlane<T>(s: seq<T>, cap: nat, len: nat, row: nat, zero: T, p: nat)
    requires row < cap && len <= cap && (p + 1) * cap <= |s|
    ensures p * cap + len <= |s|
    ensures Plane(ZeroRow(s, cap, row, zero), cap, len, p)
         == if row < len then Plane(s, cap, len, p)[row := zero] else Plane(s, cap, len, p)
  {
    var base := p * cap;
    assert (p + 1) * cap == base + cap;
    var now, was := ZeroRow(s, cap, row, zero)[base..base + len], s[base..base + len];
    forall i | 0 <= i < len ensures now[i] == if i == row then zero else was[i] {
      InPlane(cap, p, i);
    }
  }

  /** On planes, copying a row copies that entry and changes no other. */
  lemma CopyRowOnPlane<T>(s: seq<T>, cap: nat, len: nat, dst: nat, src: nat, p: nat)
    requires dst < len && src < len && len <= cap && (p + 1) * cap <= |s| && |s| % cap == 0
    ensures p * cap + len <= |s|
    ensures Plane(CopyRow(s, cap, dst, src), cap, len, p)
         == Plane(s, cap, len, p)[dst := Plane(s, cap, len, p)[src]]
  {
    var base := p * cap;
    assert (p + 1) * cap == base + cap;
    var now, was := CopyRow(s, cap, dst, src)[base..base + len], s[base..base + len];
    forall i | 0 <= i < len ensures now[i] == if i == dst then was[src] else was[i] {
      InPlane(cap, p, i);
    }
  }

  /** A pushed row is a zero at the end of every plane. */
  lemma PushOnPlane<T>(s: seq<T>, cap: nat, len: nat, zero: T, p: nat)
    requires len < cap && (p + 1) * cap <= |s|
    ensures p * cap + len + 1 <= |s|
    ensures Plane(ZeroRow(s, cap, len, zero), cap, len + 1, p) == Plane(s, cap, len, p) + [zero]
  {
    hide ZeroRow, Plane;
    assert (p + 1) * cap == p * cap + cap;
    ZeroRowOnPlane(s, cap, len + 1, len, zero, p);
    PlanePrefix(s, cap, len + 1, len, p);
  }

  lemma PlanePrefix<T>(s: seq<T>, cap: nat, len: nat, m: nat, p: nat)
    requires m <= len <= cap && p * cap + len <= |s|
    ensures |Plane(s, cap, len, p)| == len && Plane(s, cap, m, p) == Plane(s, cap, len, p)[..m]
  {
    var base := p * cap;
    assert s[base..base + m] == s[base..base + len][..m];
  }

  function SwapRemove<T>(s: seq<T>, i: nat): seq<T>
    requires i < |s|
  {
    s[i := s[|s| - 1]][..|s| - 1]
  }

  /** Copying the last row over `dst` and dropping it is a swap-remove on every plane. */
  lemma RemoveOnPlane<T>(s: seq<T>, cap: nat, len: nat, dst: nat, p: nat)
    requires dst < len <= cap && (p + 1) * cap <= |s| && |s| % cap == 0
    ensures p * cap + len <= |s|
    ensures Plane(CopyRow(s, cap, dst, len - 1), cap, len - 1, p) == SwapRemove(Plane(s, cap, len, p), dst)
  {
    hide CopyRow, Plane;
    assert (p + 1) * cap == p * cap + cap;
    CopyRowOnPlane(s, cap, len, dst, len - 1, p);
    CopyLength(s, cap, dst, len - 1);
    PlanePrefix(s, cap, len, len, p);
    PlanePrefix(CopyRow(s, cap, dst, len - 1), cap, len, len - 1, p);
  }

  lemma CopyLength<T>(s: seq<T>, cap: nat, dst: nat, src: nat)
    requires dst < cap && src < cap && |s| % cap == 0
    ensures |CopyRow(s, cap, dst, src)| == |s|
  {
  }

  // ---- array fields ----

  /** Element `k` of row `r`, as the accessors read it. */
  function Read(s: seq<int>, cap: nat, plane: nat, count: nat, r: nat, k: nat): int
    requires (plane + count) * cap <= |s| && r < cap && k < count
  {
    CellBounds(cap, plane, count, r, k);
    s[Cell(cap, plane, count, r, k)]
  }

  /** In this pool, clearing `row` clears the field's elements of that row and no others. */
  ghost predicate Cleared(s: seq<int>, cap: nat, plane: nat, count: nat, row: nat)
    requires row < cap && (plane + count) * cap <= |s|
  {
    var t := ZeroRow(s, cap, row, 0);
    forall r: nat, k: nat | r < cap && k < count ::
      Read(t, cap, plane, count, r, k) == if r == row then 0 else Read(s, cap, plane, count, r, k)
  }

  ghost predicate ClearsField(cap: nat, plane: nat, count: nat, row: nat)
    requires row < cap
  {
    forall s: seq<int> | (plane + count) * cap <= |s| :: Cleared(s, cap, plane, count, row)
  }

  /** `zero_row` does what the accessors expect exactly for fields of one element and for
      blocks of one row: planes are cleared column by column, array elements are read row
      by row. */
  lemma ClearsFieldExactly(cap: nat, plane: nat, count: nat, row: nat)
    requires row < cap
    ensures ClearsField(cap, plane, count, row) <==> count <= 1 || cap == 1
  {
    hide Cleared;
    if count <= 1 || cap == 1 {
      forall s: seq<int> | (plane + count) * cap <= |s| ensures Cleared(s, cap, plane, count, row) {
        ClearedWhen(s, cap, plane, count, row);
      }
    } else {
      NotCleared(cap, plane, count, row);
    }
  }

  lemma ClearedWhen(s: seq<int>, cap: nat, plane: nat, count: nat, row: nat)
    requires row < cap && (plane + count) * cap <= |s| && (count <= 1 || cap == 1)
    ensures Cleared(s, cap, plane, count, row)
  {
    hide Cell;
    var t := ZeroRow(s, cap, row, 0);
    forall r: nat, k: nat | r < cap && k < count
      ensures Read(t, cap, plane, count, r, k) == if r == row then 0 else Read(s, cap, plane, count, r, k)
    {
      CellBounds(cap, plane, count, r, k);
      CellRow(cap, plane, count, r, k);
    }
  }

  /** In a pool of ones, some element of the cleared row is still one. */
  lemma NotCleared(cap: nat, plane: nat, count: nat, row: nat)
    requires row < cap && count > 1 && cap > 1
    ensures !Cleared(seq((plane + count) * cap, _ => 1), cap, plane, count, row)
  {
    hide Cell;
    var ones := seq((plane + count) * cap, _ => 1);
    var k := MissedElement(cap, plane, count, row);
    CellBounds(cap, plane, count, row, k);
    assert Read(ZeroRow(ones, cap, row, 0), cap, plane, count, row, k) == 1;
  }

  /** With one element, or one row, a cell's row is its place in the plane. */
  lemma CellRow(cap: nat, plane: nat, count: nat, r: nat, k: nat)
    requires r < cap && k < count && (count <= 1 || cap == 1)
    ensures Cell(cap, plane, count, r, k) % cap == r
  {
    if cap > 1 { InPlane(cap, plane, r); }
  }

  /** Otherwise some element of the row itself lies at another place. */
  lemma MissedElement(cap: nat, plane: nat, count: nat, row: nat) returns (k: nat)
    requires row < cap && count > 1 && cap > 1
    ensures k < count && Cell(cap, plane, count, row, k) % cap != row
  {
    var a := Cell(cap, plane, count, row, 0);
    k := if a % cap != row then 0 else 1;
    if a % cap == row && (a + 1) % cap == row {
      assert a == (a / cap) * cap + row && a + 1 == ((a + 1) / cap) * cap + row;
      assert ((a + 1) / cap - a / cap) * cap == 1;
      assert false by { NoFactor((a + 1) / cap - a / cap, cap); }
    }
  }

  lemma NoFactor(q: int, d: int)
    requires d > 1
    ensures q * d != 1
  {
    if q >= 1 { MulAtLeast(q, d); } else { MulOrder(q, 0, d); }
  }

  /** And then an element of some other row is cleared with it. */
  lemma WipesAnother(cap: nat, plane: nat, count: nat, row: nat) returns (r: nat, k: nat)
    requires row < cap && count > 1 && cap > 1
    ensures r < cap && k < count && r != row && Cell(cap, plane, count, r, k) % cap == row
  {
    if row == 0 {
      r, k := LastWiped(cap, plane, count);
    } else {
      r, k := row / count, row % count;
      assert row == r * count + k;
      InPlane(cap, plane, row);
      if r >= row {
        MulOrder(row, r, count);
        MulOrder(2, count, row);
      }
    }
  }

  /** Row 0 of the last plane is an element of a later row. */
  lemma LastWiped(cap: nat, plane: nat, count: nat) returns (r: nat, k: nat)
    requires count > 1 && cap > 1
    ensures 0 < r < cap && k < count && Cell(cap, plane, count, r, k) % cap == 0
  {
    hide Cell;
    r, k := LastIndex(cap, count);
    assert Cell(cap, plane, count, r, k) == (plane + count - 1) * cap + 0 by {
      CellIs(cap, plane, count, r, k);
      assert (plane + count - 1) * cap == plane * cap + (count - 1) * cap;
    }
    InPlane(cap, plane + count - 1, 0);
  }

  lemma CellIs(cap: nat, plane: nat, count: nat, r: nat, k: nat)
    ensures Cell(cap, plane, count, r, k) == plane * cap + (r * count + k)
  {
  }

  lemma LastIndex(cap: nat, count: nat) returns (r: nat, k: nat)
    requires count > 1 && cap > 1
    ensures 0 < r < cap && k < count && r * count + k == (count - 1) * cap
  {
    var o := (count - 1) * cap;
    LastOffset(cap, count, o);
    r, k := o / count, o % count;
    DivAbove(o, count);
    DivBelow(o, count, cap);
  }

  lemma LastOffset(cap: nat, count: nat, o: int)
    requires count > 1 && cap > 1 && o == (count - 1) * cap
    ensures count <= o < cap * count
  {
    MulOrder(2, cap, count - 1);
    assert cap * count == (count - 1) * cap + cap;
  }

  /** In this pool, copying rows gives the field's elements of `src` to `dst` and changes
      no others. */
  ghost predicate Copied(s: seq<int>, cap: nat, plane: nat, count: nat, dst: nat, src: nat)
    requires dst < cap && src < cap && |s| % cap == 0 && (plane + count) * cap <= |s|
  {
    var t := CopyRow(s, cap, dst, src);
    forall r: nat, k: nat | r < cap && k < count ::
      Read(t, cap, plane, count, r, k) == Read(s, cap, plane, count, if r == dst then src else r, k)
  }

  ghost predicate CopiesField(cap: nat, plane: nat, count: nat, dst: nat, src: nat)
    requires dst < cap && src < cap
  {
    forall s: seq<int> | |s| % cap == 0 && (plane + count) * cap <= |s| :: Copied(s, cap, plane, count, dst, src)
  }

  /** `copy_row` between two rows does what the accessors expect exactly for fields of at
      most one element. */
  lemma CopiesFieldExactly(cap: nat, plane: nat, count: nat, dst: nat, src: nat)
    requires dst < cap && src < cap
    ensures CopiesField(cap, plane, count, dst, src) <==> dst == src || count <= 1
  {
    if dst == src || count <= 1 {
      forall s: seq<int> | |s| % cap == 0 && (plane + count) * cap <= |s|
        ensures Copied(s, cap, plane, count, dst, src)
      {
        CopiedWhen(s, cap, plane, count, dst, src);
      }
    } else {
      var n := (plane + count) * cap;
      DivModUnique(n, cap, plane + count, 0);
      var own := seq(n, i => i);
      var k := MissedElement(cap, plane, count, dst);
      CellBounds(cap, plane, count, dst, k);
      CellBounds(cap, plane, count, src, k);
      CellsOfOne(cap, plane, count, dst, k, src, k);
      assert Read(CopyRow(own, cap, dst, src), cap, plane, count, dst, k) == Cell(cap, plane, count, dst, k);
      assert Read(own, cap, plane, count, src, k) == Cell(cap, plane, count, src, k);
      assert !Copied(own, cap, plane, count, dst, src);
    }
  }

  lemma CopiedWhen(s: seq<int>, cap: nat, plane: nat, count: nat, dst: nat, src: nat)
    requires dst < cap && src < cap && |s| % cap == 0 && (plane + count) * cap <= |s|
    requires dst == src || count <= 1
    ensures Copied(s, cap, plane, count, dst, src)
  {
    var t := CopyRow(s, cap, dst, src);
    if dst == src { assert t == s; }
    forall r: nat, k: nat | r < cap && k < count
      ensures Read(t, cap, plane, count, r, k) == Read(s, cap, plane, count, if r == dst then src else r, k)
    {
      CellBounds(cap, plane, count, r, k);
      if dst != src { CellRow(cap, plane, count, r, k); }
    }
  }

  // ---- the block ----

  /** Write `zero` at `row` of every plane. */
  method ZeroPlanes<T>(a: array<T>, planes: nat, cap: nat, row: nat, zero: T)
    requires row < cap && a.Length == planes * cap
    modifies a
    ensures a[..] == ZeroRow(old(a[..]), cap, row, zero)
  {
    for p := 0 to planes
      invariant forall i | 0 <= i < a.Length :: a[i] == if i < p * cap && i % cap == row then zero else old(a[i])
    {
      PlaneInside(planes, cap, p, row);
      a[p * cap + row] := zero;
      forall i | 0 <= i < a.Length
        ensures i < (p + 1) * cap && i % cap == row <==> (i < p * cap && i % cap == row) || i == p * cap + row
      {
        NextPlane(cap, p, row, i);
      }
    }
  }

  method CopyPlanes<T>(a: array<T>, planes: nat, cap: nat, dst: nat, src: nat)
    requires dst < cap && src < cap && dst != src && a.Length == planes * cap && a.Length % cap == 0
    modifies a
    ensures a[..] == CopyRow(old(a[..]), cap, dst, src)
  {
    ghost var s := a[..];
    for p := 0 to planes
      invariant forall i | 0 <= i < a.Length ::
                  a[i] == if i < p * cap && i % cap == dst then SourceOf(s, cap, dst, src, i) else s[i]
    {
      PlaneInside(planes, cap, p, dst);
      PlaneInside(planes, cap, p, src);
      InPlane(cap, p, dst);
      InPlane(cap, p, src);
      a[p * cap + dst] := a[p * cap + src];
      forall i | 0 <= i < a.Length
        ensures i < (p + 1) * cap && i % cap == dst <==> (i < p * cap && i % cap == dst) || i == p * cap + dst
      {
        NextPlane(cap, p, dst, i);
      }
    }
  }

  lemma PlaneInside(planes: nat, cap: nat, p: nat, row: nat)
    requires p < planes && row < cap
    ensures 0 <= p * cap + row < planes * cap
  {
    MulOrder(p + 1, planes, cap);
    assert (p + 1) * cap == p * cap + cap;
  }

  lemma NextPlane(cap: nat, p: nat, row: nat, i: nat)
    requires row < cap
    ensures i < (p + 1) * cap && i % cap == row <==> (i < p * cap && i % cap == row) || i == p * cap + row
  {
    InPlane(cap, p, row);
    assert i == (i / cap) * cap + i % cap;
    if i % cap == row && i < (p + 1) * cap && i >= p * cap {
      SplitUnique(cap, p, i - p * cap, i / cap, row) by { assert (p + 1) * cap == p * cap + cap; }
    }
  }

  /** Plane counts of the four width pools. */
  datatype Planes = Planes(w4: nat, w2: nat, w1: nat, wf: nat)

  class Columns {
    const planes: Planes
    const cap: nat
    var len: nat
    const w4: array<int>
    const w2: array<int>
    const w1: array<int>
    const wf: array<real>

    ghost predicate Valid()
      reads this
    {
      && len <= cap
      && w4.Length == planes.w4 * cap && w2.Length == planes.w2 * cap
      && w1.Length == planes.w1 * cap && wf.Length == planes.wf * cap
      && w4 != w2 && w4 != w1 && w2 != w1
    }

    /** The whole block as a value. */
    ghost function View(): (nat, seq<int>, seq<int>, seq<int>, seq<real>)
      reads this, w4, w2, w1, wf
    {
      (len, w4[..], w2[..], w1[..], wf[..])
    }

    constructor (planes: Planes, cap: nat)
      ensures Valid() && this.planes == planes && this.cap == cap && fresh(w4) && fresh(w2) && fresh(w1) && fresh(wf)
      ensures View() == (0, seq(planes.w4 * cap, _ => 0), seq(planes.w2 * cap, _ => 0),
                         seq(planes.w1 * cap, _ => 0), seq(planes.wf * cap, _ => 0.0))
    {
      this.planes, this.cap, len := planes, cap, 0;
      var a4 := new int[planes.w4 * cap](_ => 0);
      var a2 := new int[planes.w2 * cap](_ => 0);
      var a1 := new int[planes.w1 * cap](_ => 0);
      var af := new real[planes.wf * cap](_ => 0.0);
      w4, w2, w1, wf := a4, a2, a1, af;
      new;
      assert w4[..] == seq(planes.w4 * cap, _ => 0) && w2[..] == seq(planes.w2 * cap, _ => 0);
      assert w1[..] == seq(planes.w1 * cap, _ => 0) && wf[..] == seq(planes.wf * cap, _ => 0.0);
    }

    method ZeroRow(row: nat)
      requires Valid() && row < cap
      modifies w4, w2, w1, wf
      ensures Valid() && View() == ZeroedBlock(old(View()), cap, row)
    {
      ZeroPlanes(w4, planes.w4, cap, row, 0);
      ZeroPlanes(w2, planes.w2, cap, row, 0);
      ZeroPlanes(w1, planes.w1, cap, row, 0);
      ZeroPlanes(wf, planes.wf, cap, row, 0.0);
    }

    method CopyRow(dst: nat, src: nat)
      requires Valid() && dst < cap && src < cap
      modifies w4, w2, w1, wf
      ensures Valid() && Whole(View(), cap) && Whole(old(View()), cap)
      ensures View() == CopiedBlock(old(View()), cap, dst, src)
    {
      WholePlanes(planes.w4, cap);
      WholePlanes(planes.w2, cap);
      WholePlanes(planes.w1, cap);
      WholePlanes(planes.wf, cap);
      if dst == src {
        SameRow(View(), cap, dst);
        return;
      }
      CopyPlanes(w4, planes.w4, cap, dst, src);
      CopyPlanes(w2, planes.w2, cap, dst, src);
      CopyPlanes(w1, planes.w1, cap, dst, src);
      CopyPlanes(wf, planes.wf, cap, dst, src);
    }

    /** Append a cleared row unless the block is full. */
    method PushZeroed() returns (r: Option<nat>)
      requires Valid()
      modifies this`len, w4, w2, w1, wf
      ensures Valid()
      ensures r.None? <==> old(len) == cap
      ensures r.None? ==> View() == old(View())
      ensures r.Some? ==> r.value == old(len) && View() == ZeroedBlock(old(View()), cap, old(len)).(0 := old(len) + 1)
    {
      if len >= cap {
        return None;
      }
      var row := len;
      len := len + 1;
      ZeroRow(row);
      return Some(row);
    }

    method Pop()
      requires Valid()
      modifies this`len
      ensures Valid() && len == if old(len) > 0 then old(len) - 1 else 0
    {
      if len > 0 {
        len := len - 1;
      }
    }

    method Truncate(n: nat)
      requires Valid()
      modifies this`len
      ensures Valid() && len == Min(old(len), n)
    {
      if n < len {
        len := n;
      }
    }
  }

  type Block = (nat, seq<int>, seq<int>, seq<int>, seq<real>)

  ghost function ZeroedBlock(v: Block, cap: nat, row: nat): Block
    requires row < cap
  {
    (v.0, ZeroRow(v.1, cap, row, 0), ZeroRow(v.2, cap, row, 0), ZeroRow(v.3, cap, row, 0), ZeroRow(v.4, cap, row, 0.0))
  }

  /** Every pool holds whole planes. */
  ghost predicate Whole(v: Block, cap: nat)
    requires cap > 0
  {
    |v.1| % cap == 0 && |v.2| % cap == 0 && |v.3| % cap == 0 && |v.4| % cap == 0
  }

  ghost function CopiedBlock(v: Block, cap: nat, dst: nat, src: nat): Block
    requires dst < cap && src < cap && Whole(v, cap)
  {
    (v.0, CopyRow(v.1, cap, dst, src), CopyRow(v.2, cap, dst, src), CopyRow(v.3, cap, dst, src), CopyRow(v.4, cap, dst, src))
  }

  lemma SameRow(v: Block, cap: nat, row: nat)
    requires row < cap && Whole(v, cap)
    ensures CopiedBlock(v, cap, row, row) == v
  {
    assert CopyRow(v.1, cap, row, row) == v.1 && CopyRow(v.2, cap, row, row) == v.2;
    assert CopyRow(v.3, cap, row, row) == v.3 && CopyRow(v.4, cap, row, row) == v.4;
  }

  lemma WholePlanes(n: nat, cap: nat)
    requires cap > 0
    ensures n * cap % cap == 0
  {
    DivModUnique(n * cap, cap, n, 0);
  }
}
