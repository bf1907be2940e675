/** The type walk of the RULES checksum channel and the images it depends on. */
module RulesWalk {
  import opened Arith
  import opened Costs
  import opened SaveCodec
  import opened Adler

  const TYPE_SLOTS := 806

  datatype Kind = Unit | Build | Tech | Object | Spell | Type | Good

  datatype Span = Span(begin: nat, end: nat)

  const BASE_SPANS := [Span(4, 94)]
  const OBJECT_SPANS := BASE_SPANS + [Span(484, 636)]

  function WalkedRanges(kind: Kind): seq<Span> {
    match kind
    case Unit => OBJECT_SPANS + [Span(692, 716), Span(724, 732), Span(732, 736), Span(736, 1492)]
    case Build => OBJECT_SPANS + [Span(692, 741)]
    case Tech => BASE_SPANS + [Span(456, 483)]
    case Object => OBJECT_SPANS
    case Spell => BASE_SPANS + [Span(456, 504)]
    case Type => BASE_SPANS
    case Good => OBJECT_SPANS + [Span(692, 760)]
  }

  /** Bytes a normalised image of the kind has. */
  function Minimum(kind: Kind): nat {
    match kind
    case Unit => 1492
    case Build => 741
    case Tech => 483
    case Object => 636
    case Spell => 504
    case Type => 94
    case Good => 760
  }

  /** The walker kind of a slot. */
  function KindOf(slot: nat): Kind
    requires slot < TYPE_SLOTS
  {
    if slot < 50 then Good
    else if slot < 414 then Unit
    else if slot < 543 then Build
    else if slot < 544 then Object
    else if slot < 629 then Tech
    else if slot < 684 then Spell
    else Type
  }

  /** A slice that stops at the end of the data. */
  function Slice(s: seq<Byte>, span: Span): seq<Byte> {
    if span.begin <= Min(span.end, |s|) then s[span.begin..Min(span.end, |s|)] else []
  }

  function Slices(s: seq<Byte>, spans: seq<Span>): seq<Byte> {
    if spans == [] then [] else Slice(s, spans[0]) + Slices(s, spans[1..])
  }

  datatype U16Array = U16Array(capacity: int, grow: int, flags: int, elements: seq<int>) {
    predicate Packs() {
      && Fits(I32, |elements|) && Fits(I32, capacity) && Fits(U16, grow) && Fits(U8, flags)
      && forall e | e in elements :: Fits(U16, e)
    }
  }

  /** Flags with the 0x40 bit cleared. */
  function Cleared40(flags: int): int { if flags / 64 % 2 == 1 then flags - 64 else flags }

  function Words(es: seq<int>): seq<Byte> {
    if es == [] then [] else EncInt(U16, es[0]) + Words(es[1..])
  }

  function ArrayBytes(a: U16Array): seq<Byte> {
    EncInt(I32, |a.elements|)
    + if a.elements == [] then []
      else EncInt(I32, a.capacity) + EncInt(U16, a.grow) + EncInt(U8, Cleared40(a.flags)) + Words(a.elements)
  }

  type Pair = (U16Array, U16Array)

  datatype TypeInput = TypeInput(slot: nat, kind: Kind, image: seq<Byte>)

  /** The bytes visited of one type: its ranges in order, with the object arrays straight
      after the second. */
  function TypeBytes(ty: TypeInput, pair: Option<Pair>): seq<Byte> {
    var spans := WalkedRanges(ty.kind);
    if |spans| < 2 then Slices(ty.image, spans)
    else
      Slices(ty.image, spans[..2])
      + (if pair.Some? then ArrayBytes(pair.value.0) + ArrayBytes(pair.value.1) else [])
      + Slices(ty.image, spans[2..])
  }

  /** The bytes of the whole walk; the shorter list decides where it stops. */
  function Visited(types: seq<TypeInput>, arrays: seq<Option<Pair>>): seq<Byte> {
    if types == [] || arrays == [] then []
    else TypeBytes(types[0], arrays[0]) + Visited(types[1..], arrays[1..])
  }

  // ---- the walk as it runs ----

  class Walk {
    var adler: Word
    var walked: nat

    /** The running value is that of everything visited so far. */
    ghost predicate Saw(s: seq<Byte>)
      reads this
    {
      adler == Adler32(s, 1) && walked == |s|
    }

    constructor ()
      ensures Saw([])
    {
      adler, walked := 1, 0;
    }

    method Update(payload: seq<Byte>, ghost s: seq<Byte>)
      requires Saw(s)
      modifies this
      ensures Saw(s + payload)
    {
      AdlerConcat(s, payload, 1);
      adler, walked := Adler32(payload, adler), walked + |payload|;
    }

    method UpdateArray(a: U16Array, ghost s: seq<Byte>)
      requires Saw(s) && a.Packs()
      modifies this
      ensures Saw(s + ArrayBytes(a))
    {
      hide Saw, EncInt, Words;
      var count := EncInt(I32, |a.elements|);
      Update(count, s);
      if a.elements != [] {
        var history := EncInt(I32, a.capacity) + EncInt(U16, a.grow) + EncInt(U8, Cleared40(a.flags));
        Update(history, s + count);
        Update(Words(a.elements), s + count + history);
        assert s + count + history + Words(a.elements) == s + ArrayBytes(a);
      } else {
        assert s + count == s + ArrayBytes(a);
      }
    }

    method UpdateType(ty: TypeInput, pair: Option<Pair>, ghost s: seq<Byte>)
      requires Saw(s) && (pair.Some? ==> pair.value.0.Packs() && pair.value.1.Packs())
      modifies this
      ensures Saw(s + TypeBytes(ty, pair))
    {
      hide Saw, ArrayBytes, Slices, WalkedRanges, Slice, U16Array.Packs;
      var spans := WalkedRanges(ty.kind);
      ghost var seen: seq<Byte> := [];
      SoFarBegins(ty, pair);
      assert s + seen == s;
      for index := 0 to |spans|
        invariant seen == SoFar(ty, pair, index) && Saw(s + seen)
      {
        ghost var slice := Slice(ty.image, spans[index]);
        Update(Slice(ty.image, spans[index]), s + seen);
        ghost var arrays: seq<Byte> := [];
        assert s + seen + slice == s + (seen + slice);
        if index == 1 && pair.Some? {
          UpdateArray(pair.value.0, s + (seen + slice));
          UpdateArray(pair.value.1, s + (seen + slice) + ArrayBytes(pair.value.0));
          arrays := ArrayBytes(pair.value.0) + ArrayBytes(pair.value.1);
          assert s + (seen + slice) + ArrayBytes(pair.value.0) + ArrayBytes(pair.value.1) == s + (seen + slice + arrays);
        } else {
          assert s + (seen + slice) == s + (seen + slice + arrays);
        }
        SoFarNext(ty, pair, index);
        seen := seen + slice + arrays;
      }
      SoFarEnds(ty, pair);
    }
  }

  /** What the first `n` ranges and the arrays among them give. */
  ghost function SoFar(ty: TypeInput, pair: Option<Pair>, n: nat): seq<Byte>
    requires n <= |WalkedRanges(ty.kind)|
  {
    var spans := WalkedRanges(ty.kind);
    if n < 2 then Slices(ty.image, spans[..n])
    else
      Slices(ty.image, spans[..2])
      + (if pair.Some? then ArrayBytes(pair.value.0) + ArrayBytes(pair.value.1) else [])
      + Slices(ty.image, spans[2..n])
  }

  lemma {:induction false} SlicesJoin(s: seq<Byte>, a: seq<Span>, b: seq<Span>)
    ensures Slices(s, a + b) == Slices(s, a) + Slices(s, b)
    decreases |a|
  {
    if a == [] {
      assert a + b == b;
    } else {
      assert (a + b)[1..] == a[1..] + b;
      SlicesJoin(s, a[1..], b);
    }
  }

  lemma SlicesOne(s: seq<Byte>, span: Span)
    ensures Slices(s, [span]) == Slice(s, span)
  {
    assert [span][1..] == [];
  }

  lemma SoFarBegins(ty: TypeInput, pair: Option<Pair>)
    ensures SoFar(ty, pair, 0) == []
  {
  }

  lemma SoFarNext(ty: TypeInput, pair: Option<Pair>, n: nat)
    requires n < |WalkedRanges(ty.kind)|
    ensures SoFar(ty, pair, n + 1)
         == SoFar(ty, pair, n) + Slice(ty.image, WalkedRanges(ty.kind)[n])
            + if n == 1 && pair.Some? then ArrayBytes(pair.value.0) + ArrayBytes(pair.value.1) else []
  {
    hide Slice, ArrayBytes, WalkedRanges, Slices;
    var spans := WalkedRanges(ty.kind);
    SlicesOne(ty.image, spans[n]);
    if n < 2 {
      assert spans[..n + 1] == spans[..n] + [spans[n]];
      SlicesJoin(ty.image, spans[..n], [spans[n]]);
      SlicesNone(ty.image);
      if n == 1 { assert spans[2..2] == []; }
    } else {
      assert spans[2..n + 1] == spans[2..n] + [spans[n]];
      SlicesJoin(ty.image, spans[2..n], [spans[n]]);
    }
  }

  lemma SlicesNone(s: seq<Byte>)
    ensures Slices(s, []) == []
  {
  }

  lemma SoFarEnds(ty: TypeInput, pair: Option<Pair>)
    ensures SoFar(ty, pair, |WalkedRanges(ty.kind)|) == TypeBytes(ty, pair)
  {
    hide Slice, ArrayBytes, WalkedRanges, Slices;
    var spans := WalkedRanges(ty.kind);
    assert spans[..|spans|] == spans;
  }

  lemma {:induction false} VisitedNext(types: seq<TypeInput>, arrays: seq<Option<Pair>>, n: nat)
    requires n < |types| && n < |arrays|
    ensures Visited(types[..n + 1], arrays[..n + 1]) == Visited(types[..n], arrays[..n]) + TypeBytes(types[n], arrays[n])
    decreases n
  {
    hide TypeBytes;
    if n == 0 {
      assert types[..1][1..] == [] && arrays[..1][1..] == [];
    } else {
      var (ts, as') := (types[1..], arrays[1..]);
      VisitedNext(ts, as', n - 1);
      assert types[..n + 1][1..] == ts[..n] && arrays[..n + 1][1..] == as'[..n];
      assert types[..n][1..] == ts[..n - 1] && arrays[..n][1..] == as'[..n - 1];
    }
  }

  lemma {:induction false} VisitedStops(types: seq<TypeInput>, arrays: seq<Option<Pair>>)
    ensures var n := Min(|types|, |arrays|); Visited(types[..n], arrays[..n]) == Visited(types, arrays)
    decreases |types|
  {
    hide TypeBytes;
    if types != [] && arrays != [] {
      var n := Min(|types|, |arrays|);
      VisitedStops(types[1..], arrays[1..]);
      assert types[..n][1..] == types[1..][..n - 1] && arrays[..n][1..] == arrays[1..][..n - 1];
    } else {
      assert types[..0] == [] && arrays[..0] == [];
    }
  }

  ghost predicate AllPack(arrays: seq<Option<Pair>>) {
    forall i | 0 <= i < |arrays| && arrays[i].Some? :: arrays[i].value.0.Packs() && arrays[i].value.1.Packs()
  }

  /** The type walk is one Adler-32 over the bytes it visits, in order. */
  method WalkTypes(types: seq<TypeInput>, arrays: seq<Option<Pair>>) returns (adler: Word, walked: nat)
    requires AllPack(arrays)
    ensures adler == Adler32(Visited(types, arrays), 1) && walked == |Visited(types, arrays)|
  {
    hide TypeBytes, Visited, U16Array.Packs;
    var walk := new Walk();
    assert types[..0] == [] && arrays[..0] == [];
    assert Visited([], []) == [] by { VisitedNone(); }
    for i := 0 to Min(|types|, |arrays|)
      invariant walk.Saw(Visited(types[..i], arrays[..i]))
    {
      walk.UpdateType(types[i], arrays[i], Visited(types[..i], arrays[..i]));
      VisitedNext(types, arrays, i);
    }
    VisitedStops(types, arrays);
    return walk.adler, walk.walked;
  }

  lemma VisitedNone()
    ensures Visited([], []) == []
  {
  }
}
