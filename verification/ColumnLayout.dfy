/** Plane allocation: which columns of which width pool hold a field. */
module ColumnLayout {
  import opened Arith
  import opened Costs
  import opened ColumnCover

  /** The longest array that gets planes. */
  const MAX_ARRAY_ELEMS := 384

  datatype Repr = I32 | U32 | I16 | U16 | I8 | U8 | F32

  datatype Pool = W4 | W2 | W1 | WF

  function PoolOf(rep: Repr): Pool {
    match rep
    case I32 | U32 => W4
    case I16 | U16 => W2
    case I8 | U8 => W1
    case F32 => WF
  }

  /** A debugger field with its classified C type: `rep` is absent for an aggregate. */
  datatype Field = Field(name: string, off: int, size: int, bitfield: bool, rep: Option<Repr>, count: nat)

  datatype Form = Bitfield | Aggregate | Deferred | Stored(rep: Repr)

  function FormOf(f: Field): Form {
    if f.bitfield then Bitfield
    else if f.rep.None? then Aggregate
    else if f.count > MAX_ARRAY_ELEMS then Deferred
    else Stored(f.rep.value)
  }

  datatype Entry = Entry(field: Field, form: Form, walked: Option<bool>, plane: nat, aliasOf: Option<string>)

  /** An entry with planes of its own. */
  predicate Owner(e: Entry) { e.form.Stored? && e.aliasOf.None? }

  predicate OwnerIn(e: Entry, pool: Pool) { Owner(e) && PoolOf(e.form.rep) == pool }

  /** Planes that the owners in `es` take from `pool`. */
  ghost function Used(es: seq<Entry>, pool: Pool): nat {
    if es == [] then 0
    else Used(es[..|es| - 1], pool) + if OwnerIn(es[|es| - 1], pool) then es[|es| - 1].field.count else 0
  }

  /** `j` is the first owner before `i` at the offset of entry `i`. */
  ghost predicate Canon(es: seq<Entry>, i: nat, j: nat)
    requires i < |es|
  {
    && j < i && OwnerAt(es[j], es[i].field.off)
    && forall k | 0 <= k < j :: !OwnerAt(es[k], es[i].field.off)
  }

  predicate OwnerAt(e: Entry, off: int) { Owner(e) && e.field.off == off }

  predicate SameShape(e: Entry, f: Entry) { e.form == f.form && e.field.count == f.field.count }

  /** A stored entry shares the planes of the first owner at its offset when their shapes
      agree, and otherwise takes the next free planes of its pool. */
  ghost predicate Placed(es: seq<Entry>, i: nat)
    requires i < |es|
  {
    var e := es[i];
    if !e.form.Stored? then e.plane == 0 && e.aliasOf.None?
    else if e.aliasOf.Some? then
      exists j: nat :: Canon(es, i, j) && SameShape(e, es[j]) && e.plane == es[j].plane && e.aliasOf == Some(es[j].field.name)
    else
      e.plane == Used(es[..i], PoolOf(e.form.rep)) && forall j: nat | Canon(es, i, j) :: !SameShape(e, es[j])
  }

  ghost predicate Described(f: Field, ranges: Option<seq<Range>>, e: Entry) {
    e.field == f && e.form == FormOf(f) && Walked(ranges, f.off, f.size, e.walked)
  }

  ghost predicate Laid(es: seq<Entry>, planes: map<Pool, nat>) {
    && (forall i | 0 <= i < |es| :: Placed(es, i))
    && forall pool :: pool in planes && planes[pool] == Used(es, pool)
  }

  /** The first owner at every offset that has one. */
  ghost predicate Indexed(es: seq<Entry>, byOffset: map<int, nat>) {
    && (forall off | off in byOffset ::
          byOffset[off] < |es| && OwnerAt(es[byOffset[off]], off) && forall k | 0 <= k < byOffset[off] :: !OwnerAt(es[k], off))
    && forall k | 0 <= k < |es| && Owner(es[k]) :: es[k].field.off in byOffset
  }

  method BuildClass(fields: seq<Field>, ranges: Option<seq<Range>>) returns (es: seq<Entry>, planes: map<Pool, nat>)
    ensures |es| == |fields| && forall i | 0 <= i < |es| :: Described(fields[i], ranges, es[i])
    ensures Laid(es, planes)
  {
    hide Walked, Placed, Used, Indexed, Laid;
    es := [];
    planes := map[W4 := 0, W2 := 0, W1 := 0, WF := 0];
    var byOffset: map<int, nat> := map[];
    NoneYet();
    for i := 0 to |fields|
      invariant |es| == i && forall k | 0 <= k < i :: Described(fields[k], ranges, es[k])
      invariant Laid(es, planes) && Indexed(es, byOffset)
    {
      var f := fields[i];
      var walked := Covers(ranges, f.off, f.size);
      var e := Entry(f, FormOf(f), walked, 0, None);
      ghost var was := es;
      if !e.form.Stored? {
        es := es + [e];
        PutPlain(was, planes, byOffset, e);
      } else if f.off in byOffset && Matches(es, byOffset, e) {
        var canon := es[byOffset[f.off]];
        e := e.(plane := canon.plane, aliasOf := Some(canon.field.name));
        es := es + [e];
        PutAlias(was, planes, byOffset, e);
      } else {
        var pool := PoolOf(e.form.rep);
        HasPools(es, planes);
        e := e.(plane := planes[pool]);
        ghost var before, index := planes, byOffset;
        planes := planes[pool := planes[pool] + f.count];
        if f.off !in byOffset {
          byOffset := byOffset[f.off := |es|];
        }
        es := es + [e];
        PutOwner(was, before, index, e);
      }
    }
  }

  /** Storage really is the same shape. */
  predicate Matches(es: seq<Entry>, byOffset: map<int, nat>, e: Entry)
    requires e.field.off in byOffset
  {
    byOffset[e.field.off] < |es| && SameShape(e, es[byOffset[e.field.off]])
  }

  lemma HasPools(es: seq<Entry>, planes: map<Pool, nat>)
    requires Laid(es, planes)
    ensures forall pool :: pool in planes
  {
  }

  // ---- one entry more ----

  lemma NoneYet()
    ensures Laid([], map[W4 := 0, W2 := 0, W1 := 0, WF := 0]) && Indexed([], map[])
  {
    var planes := map[W4 := 0, W2 := 0, W1 := 0, WF := 0];
    forall pool ensures pool in planes && planes[pool] == Used([], pool) {
      match pool case W4 => case W2 => case W1 => case WF =>
    }
  }

  lemma UsedStep(es: seq<Entry>, e: Entry, pool: Pool)
    ensures Used(es + [e], pool) == Used(es, pool) + if OwnerIn(e, pool) then e.field.count else 0
  {
    assert (es + [e])[..|es|] == es;
  }

  lemma PlacedStays(es: seq<Entry>, e: Entry, i: nat)
    requires i < |es| && Placed(es, i)
    ensures Placed(es + [e], i)
  {
    hide Used;
    var fs := es + [e];
    assert fs[..i] == es[..i] && fs[i] == es[i];
    forall j: nat ensures Canon(fs, i, j) <==> Canon(es, i, j) { assert forall k | 0 <= k < |es| :: fs[k] == es[k]; }
    if es[i].form.Stored? && es[i].aliasOf.Some? {
      var j: nat :| Canon(es, i, j) && SameShape(es[i], es[j]) && es[i].plane == es[j].plane
               && es[i].aliasOf == Some(es[j].field.name);
      assert Canon(fs, i, j) && fs[j] == es[j];
    }
  }

  lemma PlacedAll(es: seq<Entry>, e: Entry)
    requires forall i | 0 <= i < |es| :: Placed(es, i)
    requires Placed(es + [e], |es|)
    ensures forall i | 0 <= i < |es + [e]| :: Placed(es + [e], i)
  {
    hide Placed;
    forall i | 0 <= i < |es| ensures Placed(es + [e], i) { PlacedStays(es, e, i); }
  }

  lemma CanonIs(es: seq<Entry>, byOffset: map<int, nat>, e: Entry)
    requires Indexed(es, byOffset)
    ensures e.field.off !in byOffset ==> forall j: nat :: !Canon(es + [e], |es|, j)
    ensures e.field.off in byOffset ==> forall j: nat :: Canon(es + [e], |es|, j) <==> j == byOffset[e.field.off]
  {
    var fs := es + [e];
    assert forall k | 0 <= k < |es| :: fs[k] == es[k];
  }

  lemma IndexedStays(es: seq<Entry>, byOffset: map<int, nat>, e: Entry)
    requires Indexed(es, byOffset) && (Owner(e) ==> e.field.off in byOffset)
    ensures Indexed(es + [e], byOffset)
  {
    var fs := es + [e];
    assert forall k | 0 <= k < |es| :: fs[k] == es[k];
  }

  lemma PutPlain(es: seq<Entry>, planes: map<Pool, nat>, byOffset: map<int, nat>, e: Entry)
    requires Laid(es, planes) && Indexed(es, byOffset)
    requires !e.form.Stored? && e.plane == 0 && e.aliasOf.None?
    ensures Laid(es + [e], planes) && Indexed(es + [e], byOffset)
  {
    hide Used, Indexed;
    forall pool ensures Used(es + [e], pool) == Used(es, pool) { UsedStep(es, e, pool); }
    PlacedAll(es, e);
    IndexedStays(es, byOffset, e);
  }

  lemma PutAlias(es: seq<Entry>, planes: map<Pool, nat>, byOffset: map<int, nat>, e: Entry)
    requires Laid(es, planes) && Indexed(es, byOffset) && e.form.Stored? && e.field.off in byOffset
    requires byOffset[e.field.off] < |es| && SameShape(e, es[byOffset[e.field.off]])
    requires e.plane == es[byOffset[e.field.off]].plane
    requires e.aliasOf == Some(es[byOffset[e.field.off]].field.name)
    ensures Laid(es + [e], planes) && Indexed(es + [e], byOffset)
  {
    hide Used, Indexed;
    forall pool ensures Used(es + [e], pool) == Used(es, pool) { UsedStep(es, e, pool); }
    CanonIs(es, byOffset, e);
    var j := byOffset[e.field.off];
    assert Canon(es + [e], |es|, j) && (es + [e])[j] == es[j];
    PlacedAll(es, e);
    IndexedStays(es, byOffset, e);
  }

  lemma PutOwner(es: seq<Entry>, planes: map<Pool, nat>, byOffset: map<int, nat>, e: Entry)
    requires Laid(es, planes) && Indexed(es, byOffset) && Owner(e)
    requires PoolOf(e.form.rep) in planes && e.plane == planes[PoolOf(e.form.rep)]
    requires e.field.off in byOffset ==> !Matches(es, byOffset, e)
    ensures Laid(es + [e], planes[PoolOf(e.form.rep) := e.plane + e.field.count])
    ensures Indexed(es + [e], if e.field.off in byOffset then byOffset else byOffset[e.field.off := |es|])
  {
    hide Used;
    forall pool ensures Used(es + [e], pool) == Used(es, pool) + if OwnerIn(e, pool) then e.field.count else 0 {
      UsedStep(es, e, pool);
    }
    var fs := es + [e];
    CanonIs(es, byOffset, e);
    assert fs[..|es|] == es && forall k | 0 <= k < |es| :: fs[k] == es[k];
    PlacedAll(es, e);
    if e.field.off in byOffset { IndexedStays(es, byOffset, e); }
  }

  // ---- the pools are tiled ----

  lemma {:induction false} UsedGrows(es: seq<Entry>, n: nat, m: nat, pool: Pool)
    requires n <= m <= |es|
    ensures Used(es[..n], pool) <= Used(es[..m], pool)
    decreases m - n
  {
    hide Used;
    if n < m {
      UsedGrows(es, n, m - 1, pool);
      assert es[..m] == es[..m - 1] + [es[m - 1]];
      UsedStep(es[..m - 1], es[m - 1], pool);
    }
  }

  lemma OwnerTakes(es: seq<Entry>, planes: map<Pool, nat>, i: nat)
    requires Laid(es, planes) && i < |es| && Owner(es[i])
    ensures var pool := PoolOf(es[i].form.rep);
            es[i].plane == Used(es[..i], pool) && es[i].plane + es[i].field.count == Used(es[..i + 1], pool)
  {
    assert Placed(es, i);
    assert es[..i + 1] == es[..i] + [es[i]];
    UsedStep(es[..i], es[i], PoolOf(es[i].form.rep));
  }

  /** Owners' intervals follow one another inside the pool. */
  lemma OwnersDisjoint(es: seq<Entry>, planes: map<Pool, nat>, i: nat, j: nat)
    requires Laid(es, planes) && i < j < |es| && Owner(es[i]) && Owner(es[j])
    requires PoolOf(es[i].form.rep) == PoolOf(es[j].form.rep)
    ensures es[i].plane + es[i].field.count <= es[j].plane
    ensures es[j].plane + es[j].field.count <= planes[PoolOf(es[j].form.rep)]
  {
    hide Used, Placed;
    var pool := PoolOf(es[i].form.rep);
    OwnerTakes(es, planes, i);
    OwnerTakes(es, planes, j);
    UsedGrows(es, i + 1, j, pool);
    UsedGrows(es, j + 1, |es|, pool);
    assert es[..|es|] == es;
  }

  /** Every plane of a pool belongs to an owner. */
  lemma {:induction false} PlaneOwned(es: seq<Entry>, planes: map<Pool, nat>, pool: Pool, n: nat, p: nat) returns (i: nat)
    requires Laid(es, planes) && n <= |es| && p < Used(es[..n], pool)
    ensures i < n && OwnerIn(es[i], pool) && es[i].plane <= p < es[i].plane + es[i].field.count
    decreases n
  {
    hide Placed;
    assert n > 0;
    assert es[..n] == es[..n - 1] + [es[n - 1]];
    UsedStep(es[..n - 1], es[n - 1], pool);
    if p < Used(es[..n - 1], pool) {
      i := PlaneOwned(es, planes, pool, n - 1, p);
    } else {
      i := n - 1;
      OwnerTakes(es, planes, i);
    }
  }

  /** Two stored fields of one pool share their planes or have none in common. */
  lemma SharedOrDisjoint(es: seq<Entry>, planes: map<Pool, nat>, i: nat, j: nat)
    requires Laid(es, planes) && i < |es| && j < |es| && es[i].form.Stored? && es[j].form.Stored?
    requires PoolOf(es[i].form.rep) == PoolOf(es[j].form.rep)
    ensures || (es[i].plane == es[j].plane && es[i].field.count == es[j].field.count)
            || es[i].plane + es[i].field.count <= es[j].plane
            || es[j].plane + es[j].field.count <= es[i].plane
    ensures es[i].plane + es[i].field.count <= planes[PoolOf(es[i].form.rep)]
  {
    hide Placed, Used, Laid;
    var a := HolderOf(es, planes, i);
    var b := HolderOf(es, planes, j);
    if a < b { OwnersDisjoint(es, planes, a, b); }
    else if b < a { OwnersDisjoint(es, planes, b, a); }
    InPool(es, planes, a);
  }

  /** The owner of a stored entry's planes: itself, or the owner it aliases. */
  lemma HolderOf(es: seq<Entry>, planes: map<Pool, nat>, i: nat) returns (j: nat)
    requires Laid(es, planes) && i < |es| && es[i].form.Stored?
    ensures j <= i && Owner(es[j]) && SameShape(es[i], es[j]) && es[i].plane == es[j].plane
    ensures es[i].aliasOf.Some? ==> j < i && es[j].field.off == es[i].field.off
  {
    hide Used;
    assert Placed(es, i);
    if es[i].aliasOf.Some? {
      j :| Canon(es, i, j) && SameShape(es[i], es[j]) && es[i].plane == es[j].plane
           && es[i].aliasOf == Some(es[j].field.name);
    } else {
      j := i;
    }
  }

  lemma InPool(es: seq<Entry>, planes: map<Pool, nat>, i: nat)
    requires Laid(es, planes) && i < |es| && Owner(es[i])
    ensures es[i].plane + es[i].field.count <= planes[PoolOf(es[i].form.rep)]
  {
    hide Used, Placed;
    OwnerTakes(es, planes, i);
    UsedGrows(es, i + 1, |es|, PoolOf(es[i].form.rep));
    assert es[..|es|] == es;
  }

  // ---- cells ----

  /** Where element `k` of row `row` of a field lies in its pool, as the accessors read it. */
  function Cell(cap: nat, plane: nat, count: nat, row: nat, k: nat): nat { plane * cap + row * count + k }

  /** A field's cells fill exactly the stretch of its planes. */
  lemma CellBounds(cap: nat, plane: nat, count: nat, row: nat, k: nat)
    requires row < cap && k < count
    ensures plane * cap <= Cell(cap, plane, count, row, k) < (plane + count) * cap
  {
    MulOrder(row + 1, cap, count);
    assert (row + 1) * count == row * count + count;
    assert (plane + count) * cap == plane * cap + cap * count;
  }

  /** The cells of the owners in a pool are in bounds, and no two coincide. */
  lemma CellsDistinct(es: seq<Entry>, planes: map<Pool, nat>, cap: nat, i: nat, j: nat, r: nat, r': nat, k: nat, k': nat)
    requires Laid(es, planes) && i < |es| && j < |es| && Owner(es[i]) && Owner(es[j])
    requires PoolOf(es[i].form.rep) == PoolOf(es[j].form.rep)
    requires r < cap && r' < cap && k < es[i].field.count && k' < es[j].field.count
    ensures Cell(cap, es[i].plane, es[i].field.count, r, k) < planes[PoolOf(es[i].form.rep)] * cap
    ensures Cell(cap, es[i].plane, es[i].field.count, r, k) == Cell(cap, es[j].plane, es[j].field.count, r', k')
            <==> i == j && r == r' && k == k'
  {
    HasPools(es, planes);
    hide Laid, Cell;
    var (p, n, p', n') := (es[i].plane, es[i].field.count, es[j].plane, es[j].field.count);
    InPool(es, planes, i);
    CellBounds(cap, p, n, r, k);
    MulOrder(p + n, planes[PoolOf(es[i].form.rep)], cap);
    if i < j {
      OwnersDisjoint(es, planes, i, j);
      CellsApart(cap, p, n, r, k, p', n', r', k');
    } else if j < i {
      OwnersDisjoint(es, planes, j, i);
      CellsApart(cap, p', n', r', k', p, n, r, k);
    } else {
      CellsOfOne(cap, p, n, r, k, r', k');
    }
  }

  lemma CellsApart(cap: nat, p: nat, n: nat, r: nat, k: nat, p': nat, n': nat, r': nat, k': nat)
    requires r < cap && r' < cap && k < n && k' < n' && p + n <= p'
    ensures Cell(cap, p, n, r, k) < Cell(cap, p', n', r', k')
  {
    hide Cell;
    CellBounds(cap, p, n, r, k);
    CellBounds(cap, p', n', r', k');
    MulOrder(p + n, p', cap);
  }

  lemma CellsOfOne(cap: nat, p: nat, n: nat, r: nat, k: nat, r': nat, k': nat)
    requires k < n && k' < n
    ensures Cell(cap, p, n, r, k) == Cell(cap, p, n, r', k') <==> r == r' && k == k'
  {
    if Cell(cap, p, n, r, k) == Cell(cap, p, n, r', k') { SplitUnique(n, r, k, r', k'); }
  }

  /** Every slot of a pool is a cell of some owner. */
  lemma SlotIsCell(es: seq<Entry>, planes: map<Pool, nat>, cap: nat, pool: Pool, a: nat) returns (i: nat, r: nat, k: nat)
    requires Laid(es, planes) && pool in planes && a < planes[pool] * cap
    ensures i < |es| && OwnerIn(es[i], pool) && r < cap && k < es[i].field.count
    ensures a == Cell(cap, es[i].plane, es[i].field.count, r, k)
  {
    HasPools(es, planes);
    var p := a / cap;
    assert a == p * cap + a % cap;
    if planes[pool] <= p { MulOrder(planes[pool], p, cap); }
    assert es[..|es|] == es;
    i := PlaneOwned(es, planes, pool, |es|, p);
    var q, n := es[i].plane, es[i].field.count;
    CellAt(cap, q, n, p, a % cap);
    r, k := (a - q * cap) / n, (a - q * cap) % n;
  }

  lemma CellAt(cap: nat, q: nat, n: nat, p: nat, m: nat)
    requires q <= p < q + n && m < cap
    ensures var o := p * cap + m - q * cap; o >= 0 && 0 <= o / n < cap && p * cap + m == q * cap + (o / n) * n + o % n
  {
    var o := p * cap + m - q * cap;
    MulOrder(q, p, cap);
    MulOrder(p, q + n - 1, cap);
    assert (q + n - 1) * cap == q * cap + n * cap - cap;
    assert o < n * cap;
    assert o == (o / n) * n + o % n;
    if o / n >= cap { MulOrder(cap, o / n, n); }
  }
}
