/** Normalised images: the checksum sees the visited bytes and nothing else. */
module RulesImages {
  import opened Arith
  import opened Costs
  import opened SaveCodec
  import opened Adler
  import opened RulesWalk

  ghost predicate InSpans(spans: seq<Span>, i: int) {
    exists span :: span in spans && span.begin <= i < span.end
  }

  /** `image` holds the bytes of `raw` inside the spans and zero elsewhere. */
  ghost predicate Masked(image: seq<Byte>, raw: seq<Byte>, spans: seq<Span>, size: nat) {
    && |image| == size <= |raw|
    && forall i | 0 <= i < size :: image[i] == if InSpans(spans, i) then raw[i] else 0
  }

  ghost predicate Fit(spans: seq<Span>, size: nat) {
    forall span | span in spans :: span.begin <= span.end <= size
  }

  /** Put the slice of `raw` in the place of the span, as far as either goes. */
  function Splice(image: seq<Byte>, raw: seq<Byte>, span: Span): seq<Byte>
    requires span.begin <= span.end
  {
    image[..Min(span.begin, |image|)] + Slice(raw, span) + image[Min(span.end, |image|)..]
  }

  /** A zero image with the spans put in, one after the other. From too few bytes it comes out
      too short. */
  method Mask(raw: seq<Byte>, spans: seq<Span>, size: nat) returns (image: seq<Byte>)
    requires Fit(spans, size)
    ensures size <= |raw| ==> Masked(image, raw, spans, size)
    ensures |raw| < size && spans != [] && spans[|spans| - 1].begin < spans[|spans| - 1].end == size ==> |image| < size
  {
    image := seq(size, _ => 0);
    for n := 0 to |spans|
      invariant size <= |raw| ==> Masked(image, raw, spans[..n], size)
      invariant |raw| < size && 0 < n && spans[n - 1].begin < spans[n - 1].end == size ==> |image| < size
      invariant |image| <= size
    {
      var span := spans[n];
      assert span in spans;
      if size <= |raw| { SpliceMasks(image, raw, spans, n, size); }
      image := Splice(image, raw, span);
    }
    assert spans[..|spans|] == spans;
  }

  lemma SpliceMasks(image: seq<Byte>, raw: seq<Byte>, spans: seq<Span>, n: nat, size: nat)
    requires n < |spans| && spans[n].begin <= spans[n].end <= size && Masked(image, raw, spans[..n], size)
    ensures Masked(Splice(image, raw, spans[n]), raw, spans[..n + 1], size)
  {
    forall i ensures InSpans(spans[..n + 1], i) <==> InSpans(spans[..n], i) || spans[n].begin <= i < spans[n].end {
      InSpansNext(spans, n, i);
    }
  }

  lemma InSpansNext(spans: seq<Span>, n: nat, i: int)
    requires n < |spans|
    ensures InSpans(spans[..n + 1], i) <==> InSpans(spans[..n], i) || spans[n].begin <= i < spans[n].end
  {
    assert spans[..n + 1] == spans[..n] + [spans[n]];
    if InSpans(spans[..n], i) {
      var span :| span in spans[..n] && span.begin <= i < span.end;
      assert span in spans[..n + 1];
    }
    assert spans[n] in spans[..n + 1];
  }

  lemma {:induction false} MaskedSlices(image: seq<Byte>, raw: seq<Byte>, spans: seq<Span>, size: nat, some: seq<Span>)
    requires Masked(image, raw, spans, size) && Fit(spans, size) && forall span | span in some :: span in spans
    ensures Slices(image, some) == Slices(raw, some)
    decreases |some|
  {
    if some != [] {
      var span := some[0];
      assert span in spans;
      hide Slice, InSpans, Masked, Fit;
      MaskedSlices(image, raw, spans, size, some[1..]);
      MaskedSlice(image, raw, spans, size, span);
    }
  }

  lemma MaskedSlice(image: seq<Byte>, raw: seq<Byte>, spans: seq<Span>, size: nat, span: Span)
    requires Masked(image, raw, spans, size) && Fit(spans, size) && span in spans
    ensures Slice(image, span) == Slice(raw, span)
  {
    assert image[span.begin..span.end] == raw[span.begin..span.end];
  }

  // ---- types ----

  lemma RangesFit(kind: Kind)
    ensures var spans := WalkedRanges(kind);
            Fit(spans, Minimum(kind)) && spans != [] && spans[|spans| - 1].begin < spans[|spans| - 1].end == Minimum(kind)
  {
  }

  /** The image has the size of its kind exactly when what was loaded has that many bytes. */
  method NormalizedImage(ty: TypeInput) returns (image: seq<Byte>)
    requires ty.slot < TYPE_SLOTS && ty.kind == KindOf(ty.slot)
    ensures Minimum(ty.kind) <= |ty.image| ==> Masked(image, ty.image, WalkedRanges(ty.kind), Minimum(ty.kind))
    ensures |image| == Minimum(ty.kind) <==> Minimum(ty.kind) <= |ty.image|
  {
    RangesFit(ty.kind);
    image := Mask(ty.image, WalkedRanges(ty.kind), Minimum(KindOf(ty.slot)));
  }

  ghost predicate Normalised(types: seq<TypeInput>, raw: seq<TypeInput>) {
    && |types| == |raw|
    && forall i | 0 <= i < |raw| ::
         && types[i].slot == raw[i].slot && types[i].kind == raw[i].kind
         && Masked(types[i].image, raw[i].image, WalkedRanges(raw[i].kind), Minimum(raw[i].kind))
  }

  /** Walking the normalised images visits the same bytes, and so gives the same checksum. */
  lemma {:induction false} NormalisedWalk(types: seq<TypeInput>, raw: seq<TypeInput>, arrays: seq<Option<Pair>>)
    requires Normalised(types, raw)
    ensures Visited(types, arrays) == Visited(raw, arrays)
    ensures Adler32(Visited(types, arrays), 1) == Adler32(Visited(raw, arrays), 1)
    decreases |raw|
  {
    hide TypeBytes, Masked, WalkedRanges;
    if raw != [] && arrays != [] {
      NormalisedType(types[0], raw[0], arrays[0]);
      NormalisedWalk(types[1..], raw[1..], arrays[1..]);
    }
  }

  lemma NormalisedType(ty: TypeInput, raw: TypeInput, pair: Option<Pair>)
    requires ty.kind == raw.kind && Masked(ty.image, raw.image, WalkedRanges(raw.kind), Minimum(raw.kind))
    ensures TypeBytes(ty, pair) == TypeBytes(raw, pair)
  {
    RangesFit(raw.kind);
    hide Masked, WalkedRanges, Slices, ArrayBytes, Fit;
    var (spans, size) := (WalkedRanges(raw.kind), Minimum(raw.kind));
    MaskedSlices(ty.image, raw.image, spans, size, spans);
    if |spans| >= 2 {
      MaskedSlices(ty.image, raw.image, spans, size, spans[..2]);
      MaskedSlices(ty.image, raw.image, spans, size, spans[2..]);
    }
  }

  /** A byte outside the walked ranges changes no normalised image: images that agree on
      the ranges normalise to the same bytes. */
  lemma MaskIgnores(a: seq<Byte>, b: seq<Byte>, image: seq<Byte>, image': seq<Byte>, spans: seq<Span>, size: nat)
    requires Masked(image, a, spans, size) && Masked(image', b, spans, size)
    ensures image == image' <==> forall i | 0 <= i < size && InSpans(spans, i) :: a[i] == b[i]
  {
    if image == image' {
      forall i | 0 <= i < size && InSpans(spans, i) ensures a[i] == b[i] { assert image[i] == image'[i]; }
    }
  }

  // ---- tribes ----

  const TRIBE_COUNT := 24
  const TRIBE_SIZE := 0x5F0
  const TRIBE_CAPTURE_BYTES := TRIBE_COUNT * TRIBE_SIZE
  const TRIBE_RANGES := [Span(0x54, 0x6C), Span(0x70, 0x5F0)]
  const TRIBE_RECORD_WALKED := 0x18 + 0x580
  const TRIBE_WALKED_BYTES := TRIBE_COUNT * TRIBE_RECORD_WALKED

  /** Record `i` of a capture. */
  function Record(payload: seq<Byte>, i: nat): seq<Byte>
    requires i < TRIBE_COUNT && |payload| == TRIBE_CAPTURE_BYTES
  {
    payload[i * TRIBE_SIZE..(i + 1) * TRIBE_SIZE]
  }

  method NormalizeTribeRecords(payload: seq<Byte>) returns (r: Option<seq<seq<Byte>>>)
    ensures r.None? <==> |payload| != TRIBE_CAPTURE_BYTES
    ensures r.Some? ==> |r.value| == TRIBE_COUNT
    ensures r.Some? ==> forall i | 0 <= i < TRIBE_COUNT :: Masked(r.value[i], Record(payload, i), TRIBE_RANGES, TRIBE_SIZE)
  {
    if |payload| != TRIBE_CAPTURE_BYTES {
      return None;
    }
    var records: seq<seq<Byte>> := [];
    for i := 0 to TRIBE_COUNT
      invariant |records| == i && forall k | 0 <= k < i :: Masked(records[k], Record(payload, k), TRIBE_RANGES, TRIBE_SIZE)
    {
      var image := Mask(Record(payload, i), TRIBE_RANGES, TRIBE_SIZE);
      records := records + [image];
    }
    return Some(records);
  }

  predicate TribeSet(records: seq<seq<Byte>>) {
    |records| == TRIBE_COUNT && forall image | image in records :: |image| == TRIBE_SIZE
  }

  /** The visited bytes of a list of records. */
  function TribeBytes(records: seq<seq<Byte>>): seq<Byte> {
    if records == [] then [] else Slices(records[0], TRIBE_RANGES) + TribeBytes(records[1..])
  }

  /** The payload of a complete set of records, which always has the declared size. */
  function TribeWalkedPayload(records: seq<seq<Byte>>): (r: Option<seq<Byte>>)
    ensures r.Some? <==> TribeSet(records)
    ensures r.Some? ==> |r.value| == TRIBE_WALKED_BYTES
  {
    if !TribeSet(records) then None
    else
      TribeBytesLength(records);
      Some(TribeBytes(records))
  }

  /** Normalising the records of a capture leaves the walked payload as it was. */
  lemma {:induction false} NormalisedTribes(records: seq<seq<Byte>>, raw: seq<seq<Byte>>)
    requires |records| == |raw|
    requires forall i | 0 <= i < |raw| :: Masked(records[i], raw[i], TRIBE_RANGES, TRIBE_SIZE)
    ensures TribeBytes(records) == TribeBytes(raw)
    decreases |raw|
  {
    hide Masked, Slices;
    if raw != [] {
      MaskedSlices(records[0], raw[0], TRIBE_RANGES, TRIBE_SIZE, TRIBE_RANGES);
      NormalisedTribes(records[1..], raw[1..]);
    }
  }

  lemma {:induction false} TribeBytesLength(records: seq<seq<Byte>>)
    requires forall image | image in records :: |image| == TRIBE_SIZE
    ensures |TribeBytes(records)| == |records| * TRIBE_RECORD_WALKED
    decreases |records|
  {
    if records != [] {
      var image := records[0];
      assert image in records;
      assert TRIBE_RANGES == [Span(0x54, 0x6C)] + [Span(0x70, 0x5F0)];
      SlicesJoin(image, [Span(0x54, 0x6C)], [Span(0x70, 0x5F0)]);
      SlicesOne(image, Span(0x54, 0x6C));
      SlicesOne(image, Span(0x70, 0x5F0));
      TribeBytesLength(records[1..]);
    }
  }

  lemma {:induction false} TribeBytesNext(records: seq<seq<Byte>>, n: nat)
    requires n < |records|
    ensures TribeBytes(records[..n + 1]) == TribeBytes(records[..n]) + Slices(records[n], TRIBE_RANGES)
    decreases n
  {
    hide Slices;
    if n == 0 {
      assert records[..1][1..] == [];
    } else {
      TribeBytesNext(records[1..], n - 1);
      assert records[..n + 1][1..] == records[1..][..n] && records[..n][1..] == records[1..][..n - 1];
    }
  }

  // ---- the static channel ----

  const TYPE_WALKED_BYTES := 473984
  const RULES_BLOCK_BYTES := 0xD40
  const RULES_DUPLICATE_OFFSET := 0x804
  const BALANCE_BYTES := 493 * 493 * 2
  const CONSTANTS_WALKED_BYTES := RULES_BLOCK_BYTES + 4
  const RULES_WALKED_BYTES := TYPE_WALKED_BYTES + CONSTANTS_WALKED_BYTES + BALANCE_BYTES + TRIBE_WALKED_BYTES

  datatype Prefix = Prefix(afterConstants: Word, afterBalance: Word, bytesWalked: nat)

  /** The constants block, one duplicated word of it, then the balance table. */
  function PrefixBytes(constants: seq<Byte>, balance: seq<Byte>): seq<Byte>
    requires |constants| == RULES_BLOCK_BYTES
  {
    ConstantBytes(constants) + balance
  }

  function ConstantBytes(constants: seq<Byte>): seq<Byte>
    requires |constants| == RULES_BLOCK_BYTES
  {
    constants + constants[RULES_DUPLICATE_OFFSET..RULES_DUPLICATE_OFFSET + 4]
  }

  method WalkStaticPrefix(afterTypes: Word, constants: seq<Byte>, balance: seq<Byte>) returns (r: Option<Prefix>)
    ensures r.None? <==> |constants| != RULES_BLOCK_BYTES || |balance| != BALANCE_BYTES
    ensures r.Some? ==> r.value.afterConstants == Adler32(ConstantBytes(constants), afterTypes)
    ensures r.Some? ==> r.value.afterBalance == Adler32(PrefixBytes(constants, balance), afterTypes)
    ensures r.Some? ==> r.value.bytesWalked == TYPE_WALKED_BYTES + |PrefixBytes(constants, balance)|
  {
    if |constants| != RULES_BLOCK_BYTES || |balance| != BALANCE_BYTES {
      return None;
    }
    hide Adler32;
    var again := constants[RULES_DUPLICATE_OFFSET..RULES_DUPLICATE_OFFSET + 4];
    var adler := Adler32(constants, afterTypes);
    adler := Adler32(again, adler);
    AdlerConcat(constants, again, afterTypes);
    var afterConstants := adler;
    adler := Adler32(balance, adler);
    AdlerConcat(ConstantBytes(constants), balance, afterTypes);
    return Some(Prefix(afterConstants, adler, TYPE_WALKED_BYTES + CONSTANTS_WALKED_BYTES + BALANCE_BYTES));
  }

  datatype Checkpoints = Checkpoints(afterConstants: Word, afterBalance: Word, afterTribes: Word, bytesWalked: nat)

  /** The whole channel is one Adler-32, continued from the types, over the constants, the
      balance table and the visited tribe bytes; and its byte count is theirs. */
  method WalkStaticRules(afterTypes: Word, constants: seq<Byte>, balance: seq<Byte>, tribes: seq<seq<Byte>>)
    returns (r: Option<Checkpoints>)
    ensures r.None? <==> !TribeSet(tribes) || |constants| != RULES_BLOCK_BYTES || |balance| != BALANCE_BYTES
    ensures r.Some? ==> r.value.afterBalance == Adler32(PrefixBytes(constants, balance), afterTypes)
    ensures r.Some? ==> r.value.afterTribes == Adler32(PrefixBytes(constants, balance) + TribeBytes(tribes), afterTypes)
    ensures r.Some? ==>
              r.value.bytesWalked == TYPE_WALKED_BYTES + |PrefixBytes(constants, balance) + TribeBytes(tribes)|
  {
    if !TribeSet(tribes) {
      return None;
    }
    hide Adler32, TribeBytes, PrefixBytes;
    var prefix := WalkStaticPrefix(afterTypes, constants, balance);
    if prefix.None? {
      return None;
    }
    var adler := WalkTribes(tribes, prefix.value.afterBalance);
    AdlerConcat(PrefixBytes(constants, balance), TribeBytes(tribes), afterTypes);
    TribeBytesLength(tribes);
    PrefixLength(constants, balance);
    return Some(Checkpoints(prefix.value.afterConstants, prefix.value.afterBalance, adler, RULES_WALKED_BYTES));
  }

  lemma PrefixLength(constants: seq<Byte>, balance: seq<Byte>)
    requires |constants| == RULES_BLOCK_BYTES && |balance| == BALANCE_BYTES
    ensures |PrefixBytes(constants, balance)| == CONSTANTS_WALKED_BYTES + BALANCE_BYTES
  {
  }

  method WalkTribes(tribes: seq<seq<Byte>>, start: Word) returns (adler: Word)
    ensures adler == Adler32(TribeBytes(tribes), start)
  {
    hide Adler32, Slices, TribeBytes;
    adler := start;
    assert tribes[..0] == [];
    NoTribes(start);
    for i := 0 to |tribes|
      invariant adler == Adler32(TribeBytes(tribes[..i]), start)
    {
      adler := WalkTribe(tribes[i], adler);
      AdlerConcat(TribeBytes(tribes[..i]), Slices(tribes[i], TRIBE_RANGES), start);
      TribeBytesNext(tribes, i);
    }
    assert tribes[..|tribes|] == tribes;
  }

  lemma NoTribes(v: Word)
    ensures Adler32(TribeBytes([]), v) == v
  {
  }

  method WalkTribe(image: seq<Byte>, start: Word) returns (adler: Word)
    ensures adler == Adler32(Slices(image, TRIBE_RANGES), start)
  {
    hide Adler32, Slices, Slice;
    adler := start;
    SlicesMore(image, TRIBE_RANGES, 0, start);
    for k := 0 to |TRIBE_RANGES|
      invariant adler == Adler32(Slices(image, TRIBE_RANGES[..k]), start)
    {
      SlicesMore(image, TRIBE_RANGES, k, start);
      adler := Adler32(Slice(image, TRIBE_RANGES[k]), adler);
    }
    assert TRIBE_RANGES[..|TRIBE_RANGES|] == TRIBE_RANGES;
  }

  /** One more range of a record. */
  lemma SlicesMore(s: seq<Byte>, spans: seq<Span>, k: nat, v: Word)
    requires k < |spans|
    ensures Adler32(Slices(s, spans[..0]), v) == v
    ensures Adler32(Slices(s, spans[..k + 1]), v) == Adler32(Slice(s, spans[k]), Adler32(Slices(s, spans[..k]), v))
  {
    hide Slice;
    assert spans[..k + 1] == spans[..k] + [spans[k]];
    SlicesJoin(s, spans[..k], [spans[k]]);
    SlicesOne(s, spans[k]);
    AdlerConcat(Slices(s, spans[..k]), Slice(s, spans[k]), v);
  }
}
