/** Where the record stream of a recorded game starts, and reading it. */
module ReplayStream {
  import opened Costs
  import opened ReplayPackets

  const REC_HDR := 18

  function U32(s: seq<Octet>, i: nat): nat
    requires i + 4 <= |s|
  {
    Unsigned16(s, i) + TWO16 * Unsigned16(s, i + 2)
  }

  function RecordLen(buf: seq<Octet>, o: nat): nat
    requires o + REC_HDR <= |buf|
  {
    Unsigned16(buf, o + 16)
  }

  /** A record can start at `o`: its player is in range and its payload fits. */
  predicate Candidate(buf: seq<Octet>, o: nat) {
    && o + REC_HDR <= |buf|
    && buf[o + 4] < 8 && buf[o + 5] == 0 && buf[o + 6] == 0 && buf[o + 7] == 0
    && RecordLen(buf, o) <= 4000
    && o + REC_HDR + RecordLen(buf, o) <= |buf|
  }

  function Next(buf: seq<Octet>, o: nat): nat
    requires o + REC_HDR <= |buf|
  {
    o + REC_HDR + RecordLen(buf, o)
  }

  /** Stamps of neighbouring records do not go back and move at most 200 frames. */
  predicate StampStep(buf: seq<Octet>, o: nat, o': nat)
    requires o + 4 <= |buf| && o' + 4 <= |buf|
  {
    0 <= U32(buf, o') - U32(buf, o) <= 200
  }

  /** Records that tile the buffer from the first offset to its last byte. */
  ghost predicate IsChain(buf: seq<Octet>, offs: seq<nat>) {
    && offs != []
    && (forall k | 0 <= k < |offs| :: Candidate(buf, offs[k]))
    && (forall k | 0 <= k < |offs| - 1 :: offs[k + 1] == Next(buf, offs[k]) && StampStep(buf, offs[k], offs[k + 1]))
    && Next(buf, offs[|offs| - 1]) == |buf|
  }

  /** Number of records of the chain from `o`, zero if there is none. */
  function ChainLength(buf: seq<Octet>, o: nat): nat
    decreases |buf| - o
  {
    if !Candidate(buf, o) then 0
    else
      var nxt := Next(buf, o);
      if nxt == |buf| then 1
      else
        var c := ChainLength(buf, nxt);
        if c == 0 || !Candidate(buf, nxt) || !StampStep(buf, o, nxt) then 0 else c + 1
  }

  lemma ChainTail(buf: seq<Octet>, offs: seq<nat>)
    requires IsChain(buf, offs) && |offs| > 1
    ensures IsChain(buf, offs[1..])
    ensures Candidate(buf, offs[0]) && Candidate(buf, offs[1])
    ensures offs[1] == Next(buf, offs[0]) && StampStep(buf, offs[0], offs[1])
  {
    var rest := offs[1..];
    forall k | 0 <= k < |rest| - 1
      ensures rest[k + 1] == Next(buf, rest[k]) && StampStep(buf, rest[k], rest[k + 1])
    {
      assert offs[k + 2] == Next(buf, offs[k + 1]);
    }
  }

  /** The chain from an offset is unique, and `ChainLength` counts it. */
  lemma {:induction false} ChainHasLength(buf: seq<Octet>, offs: seq<nat>)
    requires IsChain(buf, offs)
    ensures ChainLength(buf, offs[0]) == |offs|
    decreases |offs|
  {
    if |offs| > 1 {
      ChainTail(buf, offs);
      ChainHasLength(buf, offs[1..]);
    }
  }

  lemma {:induction false} LengthHasChain(buf: seq<Octet>, o: nat) returns (offs: seq<nat>)
    requires ChainLength(buf, o) > 0
    ensures IsChain(buf, offs) && offs[0] == o && |offs| == ChainLength(buf, o)
    decreases |buf| - o
  {
    var nxt := Next(buf, o);
    if nxt == |buf| {
      offs := [o];
    } else {
      var rest := LengthHasChain(buf, nxt);
      offs := [o] + rest;
      forall k | 0 <= k < |offs| - 1
        ensures offs[k + 1] == Next(buf, offs[k]) && StampStep(buf, offs[k], offs[k + 1])
      {
        if k > 0 { assert rest[k] == Next(buf, rest[k - 1]); }
      }
    }
  }

  /** `start` begins a chain of `count` records, no chain is longer, and among the longest
      none starts later. */
  ghost predicate BestChain(buf: seq<Octet>, start: nat, count: nat) {
    && (exists offs :: IsChain(buf, offs) && offs[0] == start && |offs| == count)
    && (forall offs | IsChain(buf, offs) :: |offs| < count || (|offs| == count && offs[0] <= start))
  }

  /** Backward search over every offset, one dictionary entry per chain start. */
  method FindStream(buf: seq<Octet>) returns (r: Option<(nat, nat)>)
    ensures r.None? ==> forall offs :: !IsChain(buf, offs)
    ensures r.Some? ==> BestChain(buf, r.value.0, r.value.1)
  {
    hide Candidate, ChainLength, IsChain;
    var n := |buf|;
    if n < REC_HDR {
      forall offs ensures !IsChain(buf, offs) {
        if IsChain(buf, offs) { ChainFits(buf, offs); }
      }
      return None;
    }
    var count: map<nat, nat> := map[];
    var bestC, bestO := 0, -1;
    var o := n - REC_HDR + 1;
    LengthStep(buf, o);
    while o > 0
      invariant 0 <= o <= n - REC_HDR + 1
      invariant forall k | k in count :: o <= k && count[k] == ChainLength(buf, k) > 0
      invariant forall k: nat | o <= k && ChainLength(buf, k) > 0 :: k in count
      invariant forall k | k in count :: count[k] < bestC || (count[k] == bestC && k <= bestO)
      invariant bestC > 0 ==> bestO >= 0 && bestO in count && count[bestO] == bestC
      invariant bestC == 0 ==> bestO == -1
      invariant bestC >= 0
      decreases o
    {
      o := o - 1;
      LengthStep(buf, o);
      if Candidate(buf, o) {
        var nxt := Next(buf, o);
        var c := 0;
        if nxt == n {
          c := 1;
        } else if nxt in count && StampAt(buf, o, nxt) {
          c := count[nxt] + 1;
        }
        if c > 0 {
          count := count[o := c];
          if c > bestC {
            bestC, bestO := c, o;
          }
        }
      }
    }
    if bestO < 0 {
      forall offs ensures !IsChain(buf, offs) {
        if IsChain(buf, offs) { ChainStarts(buf, offs); }
      }
      return None;
    }
    ghost var chain := LengthHasChain(buf, bestO);
    forall offs | IsChain(buf, offs)
      ensures |offs| < bestC || (|offs| == bestC && offs[0] <= bestO)
    {
      ChainStarts(buf, offs);
    }
    return Some((bestO, bestC));
  }

  predicate StampAt(buf: seq<Octet>, o: nat, o': nat) {
    o + 4 <= |buf| && o' + 4 <= |buf| && StampStep(buf, o, o')
  }

  lemma ChainFits(buf: seq<Octet>, offs: seq<nat>)
    requires IsChain(buf, offs)
    ensures offs != [] && offs[0] + REC_HDR <= |buf|
  {
  }

  lemma ChainStarts(buf: seq<Octet>, offs: seq<nat>)
    requires IsChain(buf, offs)
    ensures offs != [] && offs[0] + REC_HDR <= |buf| && ChainLength(buf, offs[0]) == |offs| > 0
  {
    ChainHasLength(buf, offs);
  }

  /** `ChainLength` one record at a time; past the last offset it is zero. */
  lemma LengthStep(buf: seq<Octet>, o: nat)
    ensures Candidate(buf, o) ==> o + REC_HDR <= |buf| && Next(buf, o) > o
    ensures !Candidate(buf, o) ==> ChainLength(buf, o) == 0
    ensures Candidate(buf, o) && Next(buf, o) == |buf| ==> ChainLength(buf, o) == 1
    ensures Candidate(buf, o) && Next(buf, o) != |buf| ==>
              var nxt := Next(buf, o);
              ChainLength(buf, o) == if ChainLength(buf, nxt) > 0 && StampAt(buf, o, nxt)
                                     then ChainLength(buf, nxt) + 1 else 0
    ensures forall k: nat | k + REC_HDR > |buf| :: ChainLength(buf, k) == 0
  {
    hide StampStep, RecordLen;
  }

  // ---- reading ----

  datatype Package = Package(off: nat, frame: nat, play: nat, valid: nat, stamp: nat, payload: seq<Octet>)

  function PackageAt(buf: seq<Octet>, p: nat): Package
    requires p + REC_HDR <= |buf| && Next(buf, p) <= |buf|
  {
    Package(p, U32(buf, p), U32(buf, p + 4), U32(buf, p + 8), U32(buf, p + 12),
            buf[p + REC_HDR..Next(buf, p)])
  }

  /** Records from `p` until one no longer fits. */
  function Records(buf: seq<Octet>, p: nat): seq<Package>
    decreases |buf| - p
  {
    if p + REC_HDR > |buf| || Next(buf, p) > |buf| then []
    else [PackageAt(buf, p)] + Records(buf, Next(buf, p))
  }

  method ReadRecords(buf: seq<Octet>, start: nat) returns (out: seq<Package>)
    ensures out == Records(buf, start)
  {
    hide U32, Unsigned16, PackageAt;
    out := [];
    var p, n := start, |buf|;
    assert [] + Records(buf, start) == Records(buf, start);
    while p + REC_HDR <= n
      invariant Records(buf, start) == out + Records(buf, p)
      decreases n - p
    {
      var size := RecordLen(buf, p);
      if p + REC_HDR + size > n {
        break;
      }
      assert out + ([PackageAt(buf, p)] + Records(buf, Next(buf, p)))
          == out + [PackageAt(buf, p)] + Records(buf, Next(buf, p));
      out := out + [PackageAt(buf, p)];
      p := p + REC_HDR + size;
    }
    assert out + [] == out;
  }

  /** Reading from the start of a chain yields exactly its records and stops at the last
      byte: the bytes of the records are the whole rest of the buffer. */
  lemma {:induction false} RecordsOfChain(buf: seq<Octet>, offs: seq<nat>)
    requires IsChain(buf, offs)
    ensures |Records(buf, offs[0])| == |offs|
    ensures forall k | 0 <= k < |offs| :: Records(buf, offs[0])[k] == PackageAt(buf, offs[k])
    ensures Next(buf, offs[|offs| - 1]) == |buf|
    decreases |offs|
  {
    hide PackageAt, StampStep, RecordLen;
    assert Candidate(buf, offs[0]);
    if |offs| > 1 {
      ChainTail(buf, offs);
      RecordsOfChain(buf, offs[1..]);
    } else {
      assert Records(buf, |buf|) == [];
    }
  }

  /** Opening a recording: the stream found is read to its end, record for record. */
  lemma StreamIsRead(buf: seq<Octet>, start: nat, count: nat)
    requires BestChain(buf, start, count)
    ensures |Records(buf, start)| == count > 0
    ensures var last := Records(buf, start)[count - 1]; last.off + REC_HDR + |last.payload| == |buf|
  {
    hide Records;
    var offs :| IsChain(buf, offs) && offs[0] == start && |offs| == count;
    RecordsOfChain(buf, offs);
    ChainFits(buf, offs);
  }
}
