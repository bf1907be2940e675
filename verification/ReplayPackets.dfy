/**
 Command packages of a recorded game: packet lengths, the pad generator, the payload XOR,
 and the two loops that take a package apart.
 */
module ReplayPackets {
  import opened Costs

  type Octet = bv8

  function Unsigned16(s: seq<Octet>, i: nat): (v: nat)
    requires i + 2 <= |s|
    ensures v < 0x1_0000
  {
    s[i] as nat + 256 * (s[i + 1] as nat)
  }

  /** Signed little-endian 32-bit value. */
  function S32(s: seq<Octet>, i: nat): int
    requires i + 4 <= |s|
  {
    var u := Unsigned16(s, i) + 0x1_0000 * Unsigned16(s, i + 2);
    if u < 0x8000_0000 then u else u - 0x1_0000_0000
  }

  // ---- packet lengths ----

  /** Fixed sizes by opcode, sixteen to a row, zero where the length is variable. */
  const COMMAND_SIZES: seq<seq<nat>> := [
    [0, 1, 5, 13, 17, 13, 17, 22, 26, 10, 10, 25, 1, 1, 5, 9],
    [13, 21, 9, 9, 13, 5, 17, 21, 9, 25, 17, 1, 25, 1, 13, 13],
    [9, 9, 25, 1, 1, 13, 13, 9, 9, 9, 9, 17, 17, 17, 13, 13],
    [15, 11, 9, 0, 5, 1, 1, 1, 5, 65, 6, 5, 5, 5, 1, 1],
    [1, 5, 5, 17, 0, 9, 5, 7, 10, 33, 11, 53, 2, 2, 521, 9],
    [3, 2]
  ]

  function FixedSize(op: nat): Option<nat> {
    if op < 82 && SizeAt(op / 16, op % 16) != 0 then Some(SizeAt(op / 16, op % 16)) else None
  }

  function SizeAt(row: nat, col: nat): nat {
    if row < 6 && col < |COMMAND_SIZES[row]| then COMMAND_SIZES[row][col] else 0
  }

  /** Length of the packet at the head of `s`; none when it is truncated or unknown. */
  function WireLen(s: seq<Octet>): (r: Option<nat>)
    ensures r.Some? ==> r.value >= 1
  {
    if s == [] then None
    else if s[0] == 0x00 then
      if |s| < 2 then None else Some(3 + 2 * (s[1] as nat))
    else if s[0] == 0x33 then
      if |s| < 6 then None else Some(6 + 8 * Unsigned16(s, 4))
    else if s[0] == 0x44 then
      if |s| < 17 then None
      else
        var ln := S32(s, 13);
        if 0 <= ln <= 512 then Some(19 + 2 * ln) else None
    else FixedSize(s[0] as nat)
  }

  // ---- the pad generator ----

  const LCG_A := 0x0019660D
  const LCG_C := 0x3C6EF35F
  const TWO16 := 0x1_0000
  const TWO32 := 0x1_0000_0000

  function NextSeed(seed: nat): nat { (seed * LCG_A + LCG_C) % TWO32 }

  /** The draw made in the state `seed`: zero or one byte of padding. */
  function Draw(seed: nat): (p: nat)
    ensures p <= 1
  {
    seed % TWO16 * 2 / TWO16
  }

  class PadRandom {
    var seed: nat

    constructor (s: nat)
      ensures seed == s % TWO32
    {
      seed := s % TWO32;
    }

    method NextPad() returns (p: nat)
      modifies this
      ensures seed == NextSeed(old(seed))
      ensures p == Draw(seed) && p <= 1
    {
      seed := (seed * LCG_A + LCG_C) % TWO32;
      p := seed % TWO16 * 2 / TWO16;
    }
  }

  // ---- packages ----

  datatype Packet = Packet(op: Octet, body: seq<Octet>)

  function Bytes(p: Packet): seq<Octet> { [p.op] + p.body }

  predicate WellFormed(p: Packet) {
    WireLen(Bytes(p)) == Some(|Bytes(p)|)
  }

  /** Pad generator state between packets: absent in a single-player recording. */
  type Pads = Option<nat>

  function Begin(seed: Pads): Pads {
    match seed case None => None case Some(s) => Some(s % TWO32)
  }

  function Advance(pads: Pads): Pads {
    match pads case None => None case Some(s) => Some(NextSeed(s))
  }

  function PadOf(pads: Pads): (n: nat)
    ensures n <= 1
  {
    match pads case None => 0 case Some(s) => Draw(NextSeed(s))
  }

  /** The packets of a plain package, or none if it does not come apart exactly. */
  function DecodeFrom(s: seq<Octet>, pads: Pads): Option<seq<Packet>>
    decreases |s|
  {
    if s == [] then Some([])
    else match WireLen(s)
      case None => None
      case Some(ln) =>
        var skip := ln + PadOf(pads);
        if skip > |s| then None
        else Prepend([Packet(s[0], s[1..ln])], DecodeFrom(s[skip..], Advance(pads)))
  }

  function Decode(plain: seq<Octet>, seed: Pads): Option<seq<Packet>> { DecodeFrom(plain, Begin(seed)) }

  /** The writer's side: each packet followed by its padding, whose bytes are arbitrary. */
  function EncodeFrom(ps: seq<Packet>, pads: Pads, fill: seq<Octet>): seq<Octet>
    requires |fill| == |ps|
  {
    if ps == [] then []
    else Bytes(ps[0]) + fill[..PadOf(pads)] + EncodeFrom(ps[1..], Advance(pads), fill[1..])
  }

  function Encode(ps: seq<Packet>, seed: Pads, fill: seq<Octet>): seq<Octet>
    requires |fill| == |ps|
  {
    EncodeFrom(ps, Begin(seed), fill)
  }

  // ---- the two directions ----

  /** Only the head of a buffer decides the length of its first packet. */
  lemma WireLenPrefix(s: seq<Octet>, rest: seq<Octet>)
    requires WireLen(s).Some?
    ensures WireLen(s + rest) == WireLen(s)
  {
    var t := s + rest;
    assert forall i | 0 <= i < |s| :: t[i] == s[i];
  }

  lemma WireLenTake(s: seq<Octet>, n: nat)
    requires WireLen(s) == Some(n) && n <= |s|
    ensures WireLen(s[..n]) == Some(n)
  {
    assert forall i | 0 <= i < n :: s[..n][i] == s[i];
  }

  /** `DecodeFrom` one packet at a time. */
  lemma DecodeStep(s: seq<Octet>, pads: Pads)
    requires s != []
    ensures WireLen(s).None? ==> DecodeFrom(s, pads).None?
    ensures WireLen(s).Some? ==>
              var ln, skip := WireLen(s).value, WireLen(s).value + PadOf(pads);
              && ln >= 1
              && (skip > |s| ==> DecodeFrom(s, pads).None?)
              && (skip <= |s| ==>
                    DecodeFrom(s, pads) == Prepend([Packet(s[0], s[1..ln])], DecodeFrom(s[skip..], Advance(pads))))
  {
    hide PadOf, Advance;
  }

  lemma DecodeNothing(pads: Pads)
    ensures DecodeFrom([], pads) == Some([])
  {
  }

  /** Whatever the padding holds, a package decodes to the packets it was made from. */
  lemma {:induction false} DecodeEncode(ps: seq<Packet>, pads: Pads, fill: seq<Octet>)
    requires |fill| == |ps| && forall p | p in ps :: WellFormed(p)
    ensures DecodeFrom(EncodeFrom(ps, pads, fill), pads) == Some(ps)
    decreases |ps|
  {
    hide WireLen, PadOf, Advance, DecodeFrom;
    if ps == [] {
      DecodeNothing(pads);
    } else {
      var b, pad := Bytes(ps[0]), fill[..PadOf(pads)];
      var rest := EncodeFrom(ps[1..], Advance(pads), fill[1..]);
      var s := b + pad + rest;
      assert ps[0] in ps;
      assert s == b + (pad + rest);
      WireLenPrefix(b, pad + rest);
      assert s[|b| + |pad|..] == rest;
      assert s[1..|b|] == ps[0].body;
      DecodeStep(s, pads);
      DecodeEncode(ps[1..], Advance(pads), fill[1..]);
      assert ps == [ps[0]] + ps[1..];
    }
  }

  lemma EncodeCons(p: Packet, ps: seq<Packet>, pads: Pads, c: Octet, fill: seq<Octet>)
    requires |fill| == |ps|
    ensures EncodeFrom([p] + ps, pads, [c] + fill)
         == Bytes(p) + [c][..PadOf(pads)] + EncodeFrom(ps, Advance(pads), fill)
  {
    hide PadOf, Advance;
    assert ([p] + ps)[1..] == ps && ([c] + fill)[1..] == fill;
    assert ([c] + fill)[..PadOf(pads)] == [c][..PadOf(pads)];
  }

  /** Every package that decodes is such an image: well-formed packets, each followed by
      exactly its padding. */
  lemma {:induction false} EncodeDecode(s: seq<Octet>, pads: Pads) returns (fill: seq<Octet>)
    requires DecodeFrom(s, pads).Some?
    ensures forall p | p in DecodeFrom(s, pads).value :: WellFormed(p)
    ensures |fill| == |DecodeFrom(s, pads).value|
    ensures EncodeFrom(DecodeFrom(s, pads).value, pads, fill) == s
    decreases |s|
  {
    hide WireLen, PadOf, Advance, EncodeFrom, DecodeFrom, WellFormed;
    if s == [] {
      fill := [];
      DecodeNothing(pads);
      EncodeNothing(pads);
    } else {
      DecodeStep(s, pads);
      var ln, n := WireLen(s).value, PadOf(pads);
      var tail, pads' := s[ln + n..], Advance(pads);
      var p := Packet(s[0], s[1..ln]);
      var more := EncodeDecode(tail, pads');
      var c := if n == 1 then s[ln] else 0;
      fill := [c] + more;
      HeadPacket(s, ln);
      EncodeCons(p, DecodeFrom(tail, pads').value, pads, c, more);
      assert [c][..n] == s[ln..ln + n];
      assert s == s[..ln] + s[ln..ln + n] + tail;
    }
  }

  lemma EncodeNothing(pads: Pads)
    ensures EncodeFrom([], pads, []) == []
  {
  }

  lemma HeadPacket(s: seq<Octet>, ln: nat)
    requires WireLen(s) == Some(ln) && ln <= |s|
    ensures s != [] && Bytes(Packet(s[0], s[1..ln])) == s[..ln] && WellFormed(Packet(s[0], s[1..ln]))
  {
    hide WireLen;
    WireLenTake(s, ln);
    assert s != [] && ln >= 1 by { WireLenPositive(s); }
    assert Bytes(Packet(s[0], s[1..ln])) == s[..ln];
  }

  lemma WireLenPositive(s: seq<Octet>)
    requires WireLen(s).Some?
    ensures s != [] && WireLen(s).value >= 1
  {
  }

  // ---- the loops ----

  /** Take one package apart; a package that does not decode emits nothing. */
  method Commands(plain: seq<Octet>, seed: Pads) returns (out: Option<seq<Packet>>)
    ensures out == Decode(plain, seed)
  {
    hide WireLen, Draw, NextSeed, DecodeFrom;
    var rng: PadRandom? := null;
    if seed.Some? {
      rng := new PadRandom(seed.value);
    }
    var i, n := 0, |plain|;
    var found: seq<Packet> := [];
    assert plain[0..] == plain;
    PrependNothing(DecodeFrom(plain, Begin(seed)));
    while i < n
      invariant (rng == null) == seed.None? && (rng != null ==> fresh(rng))
      invariant 0 <= i
      invariant i > n ==> Decode(plain, seed).None?
      invariant i <= n ==> Decode(plain, seed) == Prepend(found, DecodeFrom(plain[i..], State(rng)))
      decreases n - i
    {
      var ln := WireLen(plain[i..]);
      DecodeStep(plain[i..], State(rng));
      if ln.None? || i + ln.value > n {
        return None;
      }
      var p := Packet(plain[i], plain[i + 1..i + ln.value]);
      ghost var skip := ln.value + PadOf(State(rng));
      assert plain[i..][1..ln.value] == plain[i + 1..i + ln.value];
      if i + skip <= n {
        assert plain[i..][skip..] == plain[i + skip..];
        PrependStep(found, p, DecodeFrom(plain[i + skip..], Advance(State(rng))));
      }
      found := found + [p];
      i := i + ln.value;
      if rng != null {
        var pad := rng.NextPad();
        i := i + pad;
      }
    }
    if i != n {
      return None;
    }
    assert plain[n..] == [];
    DecodeNothing(State(rng));
    assert found + [] == found;
    return Some(found);
  }

  /** The quick acceptance test used while searching for the seed. */
  method Decodes(plain: seq<Octet>, seed: Pads) returns (ok: bool)
    ensures ok == Decode(plain, seed).Some?
  {
    hide WireLen, Draw, NextSeed, DecodeFrom;
    var rng: PadRandom? := null;
    if seed.Some? {
      rng := new PadRandom(seed.value);
    }
    var i, n := 0, |plain|;
    assert plain[0..] == plain;
    while i < n
      invariant (rng == null) == seed.None? && (rng != null ==> fresh(rng))
      invariant 0 <= i
      invariant i > n ==> Decode(plain, seed).None?
      invariant i <= n ==> Decode(plain, seed).Some? == DecodeFrom(plain[i..], State(rng)).Some?
      decreases n - i
    {
      var ln := WireLen(plain[i..]);
      DecodeStep(plain[i..], State(rng));
      if ln.None? || i + ln.value > n {
        return false;
      }
      ghost var skip := ln.value + PadOf(State(rng));
      if i + skip <= n {
        assert plain[i..][skip..] == plain[i + skip..];
      }
      i := i + ln.value;
      if rng != null {
        var pad := rng.NextPad();
        i := i + pad;
      }
    }
    if i == n {
      assert plain[i..] == [];
      DecodeNothing(State(rng));
    }
    return i == n;
  }

  ghost function State(rng: PadRandom?): Pads
    reads rng
  {
    if rng == null then None else Some(rng.seed)
  }

  function Prepend(ps: seq<Packet>, rest: Option<seq<Packet>>): Option<seq<Packet>> {
    match rest case None => None case Some(qs) => Some(ps + qs)
  }

  lemma PrependNothing(rest: Option<seq<Packet>>)
    ensures Prepend([], rest) == rest
  {
    if rest.Some? { assert [] + rest.value == rest.value; }
  }

  lemma PrependStep(ps: seq<Packet>, p: Packet, rest: Option<seq<Packet>>)
    ensures Prepend(ps + [p], rest) == Prepend(ps, Prepend([p], rest))
  {
    if rest.Some? { assert ps + [p] + rest.value == ps + ([p] + rest.value); }
  }

  // ---- the payload XOR ----

  function Lo(w: bv16): Octet { (w & 0xFF) as bv8 }
  function Hi(w: bv16): Octet { (w >> 8) as bv8 }

  function Flip(b: Octet, k: Octet): Octet { b ^ k }

  /** XOR every whole little-endian word with `key`; a trailing odd byte stays. */
  function Xor(b: seq<Octet>, key: bv16): (r: seq<Octet>)
    ensures |r| == |b|
  {
    seq(|b|, i requires 0 <= i < |b| =>
      if i >= |b| / 2 * 2 then b[i] else if i % 2 == 0 then Flip(b[i], Lo(key)) else Flip(b[i], Hi(key)))
  }

  method XorPayload(b: array<Octet>, key: bv16)
    modifies b
    ensures b[..] == Xor(old(b[..]), key)
  {
    hide Lo, Hi, Flip;
    var n := b.Length / 2;
    ghost var b0 := b[..];
    for k := 0 to n
      invariant forall i | 0 <= i < 2 * k :: b[i] == Xor(b0, key)[i]
      invariant forall i | 2 * k <= i < b.Length :: b[i] == b0[i]
    {
      var w := Word(b[2 * k], b[2 * k + 1]);
      var x := w ^ key;
      WordXor(b[2 * k], b[2 * k + 1], key);
      b[2 * k] := Lo(x);
      b[2 * k + 1] := Hi(x);
    }
    assert b[..] == Xor(b0, key);
  }

  function Word(lo: Octet, hi: Octet): bv16 { (lo as bv16) | ((hi as bv16) << 8) }

  lemma WordXor(lo: Octet, hi: Octet, key: bv16)
    ensures Lo(Word(lo, hi) ^ key) == Flip(lo, Lo(key))
    ensures Hi(Word(lo, hi) ^ key) == Flip(hi, Hi(key))
  {
  }

  lemma FlipTwice(b: Octet, k: Octet)
    ensures Flip(Flip(b, k), k) == b
  {
  }

  lemma XorTwice(b: seq<Octet>, key: bv16)
    ensures Xor(Xor(b, key), key) == b
  {
    hide Lo, Hi, Flip;
    forall i | 0 <= i < |b| ensures Xor(Xor(b, key), key)[i] == b[i] {
      FlipTwice(b[i], Lo(key));
      FlipTwice(b[i], Hi(key));
    }
  }

  /** For every list of well-formed packets, key, pad seed and choice of pad bytes, the
      padded and XORed package decodes to exactly that list. */
  lemma RoundTrip(ps: seq<Packet>, key: bv16, seed: Pads, fill: seq<Octet>)
    requires |fill| == |ps| && forall p | p in ps :: WellFormed(p)
    ensures Decode(Xor(Xor(Encode(ps, seed, fill), key), key), seed) == Some(ps)
  {
    XorTwice(Encode(ps, seed, fill), key);
    DecodeEncode(ps, Begin(seed), fill);
  }

  /** Conversely a recorded payload decodes only if it is such an image. */
  lemma OnlyImagesDecode(raw: seq<Octet>, key: bv16, seed: Pads) returns (fill: seq<Octet>)
    requires Decode(Xor(raw, key), seed).Some?
    ensures var ps := Decode(Xor(raw, key), seed).value;
            && (forall p | p in ps :: WellFormed(p))
            && |fill| == |ps| && raw == Xor(Encode(ps, seed, fill), key)
  {
    fill := EncodeDecode(Xor(raw, key), Begin(seed));
    XorTwice(raw, key);
  }
}
