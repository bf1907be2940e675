/**
 Recovering the key and pad seed of a recording: why 256 candidates per key are enough,
 and what the search guarantees about what it returns.
 */
module ReplayRecover {
  import opened Arith
  import opened Costs
  import opened ReplayPackets

  // ---- only sixteen bits of a seed matter ----

  lemma ModMod(x: nat, k: nat)
    requires k == TWO16
    ensures x % TWO32 % k == x % k
  {
    var q := x / TWO32;
    assert x == q * TWO32 + x % TWO32;
    assert x == x % TWO32 + (q * TWO16) * k;
    DivModShift(x % TWO32, k, q * TWO16);
  }

  lemma NextSeedLow(s: nat, t: nat)
    requires s % TWO16 == t % TWO16
    ensures NextSeed(s) % TWO16 == NextSeed(t) % TWO16
  {
    NextSeedMod(s);
    NextSeedMod(t);
  }

  /** The low half of the next state is a function of the low half of this one. */
  lemma NextSeedMod(s: nat)
    ensures NextSeed(s) % TWO16 == (s % TWO16 * LCG_A + LCG_C) % TWO16
  {
    ModMod(s * LCG_A + LCG_C, TWO16);
    var q, r := s / TWO16, s % TWO16;
    assert s * LCG_A + LCG_C == (r * LCG_A + LCG_C) + (q * LCG_A) * TWO16;
    DivModShift(r * LCG_A + LCG_C, TWO16, q * LCG_A);
  }

  ghost predicate SameLow(a: Pads, b: Pads) {
    match (a, b)
    case (None, None) => true
    case (Some(s), Some(t)) => s % TWO16 == t % TWO16
    case _ => false
  }

  lemma SameLowAdvance(a: Pads, b: Pads)
    requires SameLow(a, b)
    ensures SameLow(Advance(a), Advance(b)) && PadOf(a) == PadOf(b)
  {
    hide NextSeed;
    if a.Some? { NextSeedLow(a.value, b.value); }
  }

  /** Seeds that agree modulo 2^16 decode every package alike, to the last packet. */
  lemma {:induction false} SameLowDecode(s: seq<Octet>, a: Pads, b: Pads)
    requires SameLow(a, b)
    ensures DecodeFrom(s, a) == DecodeFrom(s, b)
    decreases |s|
  {
    hide WireLen, PadOf, Advance, SameLow, DecodeFrom;
    SameLowAdvance(a, b);
    if s == [] {
      DecodeNothing(a);
      DecodeNothing(b);
    } else {
      DecodeStep(s, a);
      DecodeStep(s, b);
      if WireLen(s).Some? && WireLen(s).value + PadOf(a) <= |s| {
        SameLowDecode(s[WireLen(s).value + PadOf(a)..], Advance(a), Advance(b));
      }
    }
  }

  /** The payload key a generator state `G` implies. */
  function KeyOf(G: nat): (k: nat)
    ensures k < TWO16
  {
    G / 256 % TWO16
  }

  function Candidate(key: nat, lo: nat): nat { key % 256 * 256 + lo }

  /** Among the 256 candidates of the key of `G` there is one that decodes every payload
      exactly as `G` does. */
  lemma CandidateDecodes(G: nat, plain: seq<Octet>)
    ensures Decode(plain, Some(Candidate(KeyOf(G), G % 256))) == Decode(plain, Some(G))
  {
    hide DecodeFrom;
    var c := Candidate(KeyOf(G), G % 256);
    CandidateLow(G);
    ModMod(c, TWO16);
    ModMod(G, TWO16);
    SameLowDecode(plain, Begin(Some(c)), Begin(Some(G)));
  }

  lemma CandidateLow(G: nat)
    ensures Candidate(KeyOf(G), G % 256) % TWO16 == G % TWO16
  {
    var q, r := G / 256, G % 256;
    assert G == q * 256 + r;
    assert q % TWO16 % 256 == q % 256;
    var h, m := q / 256, q % 256;
    assert G == (m * 256 + r) + h * TWO16;
    DivModShift(m * 256 + r, TWO16, h);
  }

  // ---- the search ----

  /** How many of the first `n` packages decode. */
  function Score(plains: seq<seq<Octet>>, seed: Pads, n: nat): nat
    requires n <= |plains|
  {
    if n == 0 then 0 else Score(plains, seed, n - 1) + (if Decode(plains[n - 1], seed).Some? then 1 else 0)
  }

  lemma ScoreBounds(plains: seq<seq<Octet>>, seed: Pads, m: nat, n: nat)
    requires m <= n <= |plains|
    ensures Score(plains, seed, m) <= Score(plains, seed, n) <= Score(plains, seed, m) + (n - m)
  {
    hide Decode;
    if m < n { ScoreBounds(plains, seed, m, n - 1); }
  }

  lemma ScoreAtMost(plains: seq<seq<Octet>>, seed: Pads, n: nat)
    requires n <= |plains|
    ensures Score(plains, seed, n) <= n
  {
    ScoreBounds(plains, seed, 0, n);
  }

  lemma ScoreFull(plains: seq<seq<Octet>>, seed: Pads, n: nat)
    requires n <= |plains|
    ensures Score(plains, seed, n) == n <==> forall i | 0 <= i < n :: Decode(plains[i], seed).Some?
  {
    hide Decode;
    if n > 0 {
      ScoreFull(plains, seed, n - 1);
      ScoreBounds(plains, seed, 0, n - 1);
    }
  }

  function Plains(raw: seq<seq<Octet>>, key: nat): seq<seq<Octet>>
    requires key < TWO16
  {
    seq(|raw|, i requires 0 <= i < |raw| => Xor(raw[i], key as bv16))
  }

  method CountDecodes(plains: seq<seq<Octet>>, seed: Pads, limit: nat) returns (k: nat)
    requires limit <= |plains|
    ensures k == Score(plains, seed, limit)
  {
    hide Decode;
    k := 0;
    for i := 0 to limit
      invariant k == Score(plains, seed, i)
    {
      var ok := Decodes(plains[i], seed);
      if ok { k := k + 1; }
    }
  }

  const PROBE := 48

  /** A seed tried for `key`: no padding, or one of the 256 candidates. */
  ghost predicate Tried(key: nat, seed: Pads) {
    seed.None? || exists lo :: 0 <= lo < 256 && seed == Some(Candidate(key, lo))
  }

  /** The seeds that score best on the first packages. Whatever decodes all of the probe
      stays on the list. */
  method Shortlist(plains: seq<seq<Octet>>, key: nat) returns (list: seq<Pads>, probe: nat)
    ensures probe == Min(PROBE, |plains|)
    ensures forall c | c in list :: Tried(key, c)
    ensures Scores(plains, list, probe)
    ensures forall c | Tried(key, c) && probe > 0 && Score(plains, c, probe) == probe :: c in list
  {
    hide Score;
    probe := Min(PROBE, |plains|);
    list := [None];
    var best := CountDecodes(plains, None, probe);
    ScoreAtMost(plains, None, probe);
    for lo := 0 to 256
      invariant forall c | c in list :: Tried(key, c)
      invariant Scores(plains, list, probe)
      invariant forall c | c in list :: Score(plains, c, probe) == best
      invariant best >= Score(plains, None, probe)
      invariant forall k | 0 <= k < lo :: Score(plains, Some(Candidate(key, k)), probe) <= best
      invariant best > 0 && best == Score(plains, None, probe) ==> None in list
      invariant forall k | 0 <= k < lo && best > 0 && Score(plains, Some(Candidate(key, k)), probe) == best ::
                  Some(Candidate(key, k)) in list
      invariant best <= probe
    {
      var s := Candidate(key, lo);
      var k := CountDecodes(plains, Some(s), probe);
      assert Tried(key, Some(s));
      ScoreAtMost(plains, Some(s), probe);
      if k > best {
        best, list := k, [Some(s)];
        assert Some(s) in list;
      } else if k == best && k > 0 {
        list := list + [Some(s)];
      }
    }
    forall c | Tried(key, c) && probe > 0 && Score(plains, c, probe) == probe
      ensures c in list
    {
      ScoreAtMost(plains, c, probe);
    }
  }

  /** The best seed of the list over all packages, with its count. */
  method Winner(plains: seq<seq<Octet>>, list: seq<Pads>) returns (winner: Pads, best: nat)
    requires Scores(plains, list, |plains|)
    ensures best == Score(plains, winner, |plains|)
    ensures forall c | c in list :: Score(plains, c, |plains|) <= best
    ensures winner == None || winner in list
  {
    hide Score;
    winner, best := None, 0;
    for i := 0 to |list|
      invariant forall c | c in list[..i] :: Score(plains, c, |plains|) <= best
      invariant best > 0 ==> best == Score(plains, winner, |plains|)
      invariant best == 0 ==> winner == None
      invariant winner == None || winner in list
    {
      var k := CountDecodes(plains, list[i], |plains|);
      assert list[..i + 1] == list[..i] + [list[i]];
      if k > best {
        best, winner := k, list[i];
      }
    }
    assert list[..|list|] == list;
  }

  datatype Recovery = Recovery(key: nat, seed: Pads, plains: seq<seq<Octet>>, decoded: nat)

  /** The payloads are all images under the key and seed of one generator state. */
  ghost predicate Explains(raw: seq<seq<Octet>>, G: nat) {
    forall i | 0 <= i < |raw| :: Decode(Xor(raw[i], KeyOf(G) as bv16), Some(G)).Some?
  }

  lemma ExplainedScores(raw: seq<seq<Octet>>, G: nat, n: nat)
    requires Explains(raw, G) && n <= |raw|
    ensures Score(Plains(raw, KeyOf(G)), Some(Candidate(KeyOf(G), G % 256)), n) == n
  {
    hide Decode, Xor;
    var plains, c := Plains(raw, KeyOf(G)), Candidate(KeyOf(G), G % 256);
    forall i | 0 <= i < n ensures Decode(plains[i], Some(c)).Some? {
      CandidateDecodes(G, plains[i]);
    }
    ScoreFull(plains, Some(c), n);
  }

  ghost predicate Scores(plains: seq<seq<Octet>>, list: seq<Pads>, n: nat)
    requires n <= |plains|
  {
    None in list || exists c :: c in list && Score(plains, c, n) > 0
  }

  lemma ScoresGrow(plains: seq<seq<Octet>>, list: seq<Pads>, n: nat)
    requires n <= |plains| && Scores(plains, list, n)
    ensures Scores(plains, list, |plains|)
  {
    hide Score;
    if None !in list {
      var c :| c in list && Score(plains, c, n) > 0;
      ScoreBounds(plains, c, n, |plains|);
    }
  }

  /** The key of an explaining state leads to a seed under which everything decodes. */
  lemma KeyRecovers(raw: seq<seq<Octet>>, G: nat, list: seq<Pads>, probe: nat, best: nat)
    requires Explains(raw, G) && probe == Min(PROBE, |raw|)
    requires var plains := Plains(raw, KeyOf(G));
             && (forall c | Tried(KeyOf(G), c) && probe > 0 && Score(plains, c, probe) == probe :: c in list)
             && (forall c | c in list :: Score(plains, c, |raw|) <= best) && best <= |raw|
    ensures best == |raw|
  {
    hide Score, Explains, Plains;
    assert |Plains(raw, KeyOf(G))| == |raw| by { PlainsLength(raw, KeyOf(G)); }
    ExplainedScores(raw, G, probe);
    ExplainedScores(raw, G, |raw|);
    assert Tried(KeyOf(G), Some(Candidate(KeyOf(G), G % 256)));
  }

  lemma PlainsLength(raw: seq<seq<Octet>>, key: nat)
    requires key < TWO16
    ensures |Plains(raw, key)| == |raw|
  {
  }

  /** Try the ranked keys in order. The count returned is the number of packages that
      decode under the key and seed returned; and if the ranking contains the key of a
      state that explains the whole recording, everything decodes. The result is absent
      only for an empty ranking. */
  method Recover(raw: seq<seq<Octet>>, ranked: seq<nat>) returns (best: Option<Recovery>)
    requires forall k | k in ranked :: k < TWO16
    ensures best.None? <==> ranked == []
    ensures best.Some? ==>
              && best.value.key in ranked && best.value.plains == Plains(raw, best.value.key)
              && Tried(best.value.key, best.value.seed)
              && best.value.decoded == Score(best.value.plains, best.value.seed, |raw|)
    ensures best.Some? && (exists G: nat :: KeyOf(G) in ranked && Explains(raw, G)) ==>
              best.value.decoded == |raw|
  {
    hide Score, Explains;
    best := None;
    for i := 0 to |ranked|
      invariant best.None? <==> i == 0
      invariant best.Some? ==>
                  && best.value.key in ranked && best.value.plains == Plains(raw, best.value.key)
                  && Tried(best.value.key, best.value.seed)
                  && best.value.decoded == Score(best.value.plains, best.value.seed, |raw|)
      invariant forall G: nat | KeyOf(G) in ranked[..i] && Explains(raw, G) ::
                  best.Some? && best.value.decoded == |raw|
    {
      var key := ranked[i];
      assert key in ranked;
      var plains := Plains(raw, key);
      var list, probe := Shortlist(plains, key);
      ScoresGrow(plains, list, probe);
      var winner, bestN := Winner(plains, list);
      ScoreAtMost(plains, winner, |plains|);
      forall G: nat | KeyOf(G) == key && Explains(raw, G)
        ensures bestN == |raw|
      {
        KeyRecovers(raw, G, list, probe, bestN);
      }
      assert ranked[..i + 1] == ranked[..i] + [key];
      if best.Some? { ScoreAtMost(best.value.plains, best.value.seed, |raw|); }
      if best.None? || bestN > best.value.decoded {
        best := Some(Recovery(key, winner, plains, bestN));
      }
      if bestN == |plains| {
        break;
      }
    }
    assert ranked[..|ranked|] == ranked;
  }
}
