/** Which fields a checksum walk covers. */
module ColumnCover {
  import opened Costs

  datatype Range = Range(begin: int, end: int)

  ghost predicate InSome(ranges: seq<Range>, k: int) {
    exists r :: r in ranges && r.begin <= k < r.end
  }

  ghost predicate Nonempty(ranges: seq<Range>) { forall r | r in ranges :: r.begin < r.end }

  /** The parts of `remaining` that the range [b, e) leaves. A field without bytes stays
      whole or goes whole. */
  method CutAll(remaining: seq<Range>, b: int, e: int) returns (next: seq<Range>)
    ensures Nonempty(remaining) ==> Nonempty(next)
    ensures Nonempty(remaining) ==> forall k :: InSome(next, k) <==> InSome(remaining, k) && !(b <= k < e)
    ensures |remaining| == 1 && remaining[0].end <= remaining[0].begin ==>
              next == if b < remaining[0].end && remaining[0].begin < e then [] else remaining
  {
    next := [];
    for i := 0 to |remaining|
      invariant i == 0 ==> next == []
      invariant Nonempty(remaining) ==> Nonempty(next)
      invariant Nonempty(remaining) ==> forall k :: InSome(next, k) <==> InSome(remaining[..i], k) && !(b <= k < e)
      invariant i == 1 && remaining[0].end <= remaining[0].begin ==>
                  next == if b < remaining[0].end && remaining[0].begin < e then [] else remaining[..1]
    {
      var r := remaining[i];
      ghost var was := next;
      var pieces: seq<Range> := [];
      if e <= r.begin || b >= r.end {
        pieces := [r];
      } else {
        if b > r.begin {
          pieces := pieces + [Range(r.begin, b)];
        }
        if e < r.end {
          pieces := pieces + [Range(e, r.end)];
        }
      }
      next := next + pieces;
      if Nonempty(remaining) { CutOne(remaining, i, was, pieces, b, e); }
    }
    assert remaining[..|remaining|] == remaining;
  }

  lemma CutOne(remaining: seq<Range>, i: nat, was: seq<Range>, pieces: seq<Range>, b: int, e: int)
    requires i < |remaining| && Nonempty(remaining) && Pieces(pieces, remaining[i], b, e) && Nonempty(was)
    requires forall k :: InSome(was, k) <==> InSome(remaining[..i], k) && !(b <= k < e)
    ensures Nonempty(was + pieces)
    ensures forall k :: InSome(was + pieces, k) <==> InSome(remaining[..i + 1], k) && !(b <= k < e)
  {
    var r := remaining[i];
    PiecesLeft(pieces, r, b, e);
    forall k ensures InSome(was + pieces, k) <==> InSome(remaining[..i + 1], k) && !(b <= k < e) {
      InSomeJoin(was, pieces, k);
      assert remaining[..i + 1] == remaining[..i] + [r];
      InSomeJoin(remaining[..i], [r], k);
      InSomeOne(r, k);
    }
  }

  lemma InSomeJoin(a: seq<Range>, b: seq<Range>, k: int)
    ensures InSome(a + b, k) <==> InSome(a, k) || InSome(b, k)
  {
    if InSome(a, k) { var r :| r in a && r.begin <= k < r.end; assert r in a + b; }
    if InSome(b, k) { var r :| r in b && r.begin <= k < r.end; assert r in a + b; }
  }

  lemma InSomeOne(r: Range, k: int)
    ensures InSome([r], k) <==> r.begin <= k < r.end
  {
    assert r in [r];
  }

  ghost predicate Pieces(pieces: seq<Range>, r: Range, b: int, e: int) {
    pieces == if e <= r.begin || b >= r.end then [r]
              else (if b > r.begin then [Range(r.begin, b)] else []) + (if e < r.end then [Range(e, r.end)] else [])
  }

  /** What is left of one interval is what the range does not hold, also when the range is
      empty or reversed. */
  lemma PiecesLeft(pieces: seq<Range>, r: Range, b: int, e: int)
    requires r.begin < r.end && Pieces(pieces, r, b, e)
    ensures forall p | p in pieces :: p.begin < p.end
    ensures forall k :: InSome(pieces, k) <==> r.begin <= k < r.end && !(b <= k < e)
  {
    forall k ensures InSome(pieces, k) <==> r.begin <= k < r.end && !(b <= k < e) {
      if e <= r.begin || b >= r.end {
        InSomeOne(r, k);
      } else {
        var left := if b > r.begin then [Range(r.begin, b)] else [];
        var right := if e < r.end then [Range(e, r.end)] else [];
        InSomeJoin(left, right, k);
        InSomeOne(Range(r.begin, b), k);
        InSomeOne(Range(e, r.end), k);
      }
    }
  }

  /** Some range starts before the field ends and ends after it starts. */
  ghost predicate Straddled(ranges: seq<Range>, off: int, size: int) {
    exists r :: r in ranges && r.begin < off + size && off < r.end
  }

  /** A field with bytes is covered exactly when every byte lies in some range, whatever
      the number, order and overlap of the ranges. A field without bytes is covered
      exactly when one range straddles it. A class that is not walked has no answer. */
  ghost predicate Walked(ranges: Option<seq<Range>>, off: int, size: int, r: Option<bool>) {
    match ranges
    case None => r == None
    case Some(rs) => r.Some? && r.value == if size > 0 then forall k | off <= k < off + size :: InSome(rs, k)
                                           else Straddled(rs, off, size)
  }

  /** What the loop has established after the first `i` ranges. */
  ghost predicate Left(rs: seq<Range>, off: int, size: int, remaining: seq<Range>) {
    if size > 0 then
      && Nonempty(remaining)
      && forall k :: InSome(remaining, k) <==> off <= k < off + size && !InSome(rs, k)
    else
      remaining == if Straddled(rs, off, size) then [] else [Range(off, off + size)]
  }

  method Covers(ranges: Option<seq<Range>>, off: int, size: int) returns (r: Option<bool>)
    ensures Walked(ranges, off, size, r)
  {
    if ranges.None? {
      return None;
    }
    var rs := ranges.value;
    var remaining := [Range(off, off + size)];
    LeftAtFirst(off, size);
    for i := 0 to |rs|
      invariant remaining != [] && Left(rs[..i], off, size, remaining)
    {
      var next := CutAll(remaining, rs[i].begin, rs[i].end);
      LeftNext(rs, i, off, size, remaining, next);
      remaining := next;
      if remaining == [] {
        NothingLeft(rs, i + 1, off, size);
        return Some(true);
      }
    }
    assert rs[..|rs|] == rs;
    assert remaining[0] in remaining;
    assert size > 0 ==> InSome(remaining, remaining[0].begin);
    return Some(false);
  }

  lemma LeftAtFirst(off: int, size: int)
    ensures Left([], off, size, [Range(off, off + size)])
  {
    var whole := Range(off, off + size);
    forall k ensures InSome([whole], k) <==> off <= k < off + size {
      InSomeOne(whole, k);
    }
  }

  lemma LeftNext(rs: seq<Range>, i: nat, off: int, size: int, remaining: seq<Range>, next: seq<Range>)
    requires i < |rs| && remaining != [] && Left(rs[..i], off, size, remaining)
    requires Nonempty(remaining) ==> Nonempty(next)
    requires Nonempty(remaining) ==>
               forall k :: InSome(next, k) <==> InSome(remaining, k) && !(rs[i].begin <= k < rs[i].end)
    requires |remaining| == 1 && remaining[0].end <= remaining[0].begin ==>
               next == if rs[i].begin < remaining[0].end && remaining[0].begin < rs[i].end then [] else remaining
    ensures Left(rs[..i + 1], off, size, next)
  {
    assert rs[..i + 1] == rs[..i] + [rs[i]];
    if size > 0 {
      forall k ensures InSome(next, k) <==> off <= k < off + size && !InSome(rs[..i + 1], k) {
        InSomeJoin(rs[..i], [rs[i]], k);
        InSomeOne(rs[i], k);
      }
    } else if Straddled(rs[..i + 1], off, size) {
      var r :| r in rs[..i + 1] && r.begin < off + size && off < r.end;
      assert r in rs[..i] || r == rs[i];
    } else {
      assert rs[i] in rs[..i + 1];
    }
  }

  lemma NothingLeft(rs: seq<Range>, n: nat, off: int, size: int)
    requires n <= |rs| && Left(rs[..n], off, size, [])
    ensures Walked(Some(rs), off, size, Some(true))
  {
    assert rs == rs[..n] + rs[n..];
    forall k | size > 0 && off <= k < off + size ensures InSome(rs, k) {
      assert !InSome([], k);
      InSomeJoin(rs[..n], rs[n..], k);
    }
  }
}
