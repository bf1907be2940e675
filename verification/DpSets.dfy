/**
 What trimming keeps of the states at one lattice node, said without an order of arrival:
 of each mark the first state by sort key, as long as fewer than `keep` marks come before.
 */
module DpSets {
  import opened Arith
  import opened Costs

  /** The purchases a search may make, by name index, and what it reads of a state. */
  datatype System<!S> = System(
    legal: (S, nat) -> bool,
    apply: (S, nat) -> Option<S>,
    horizon: S -> int,
    food: S -> int,
    timber: S -> int)

  /** The sort key: early first, then rich in food and timber. */
  predicate Before<S>(m: System<S>, x: S, y: S) {
    || m.horizon(x) < m.horizon(y)
    || (m.horizon(x) == m.horizon(y) && m.food(x) + m.timber(x) > m.food(y) + m.timber(y))
  }

  type Mark = (int, int, int)

  function MarkOf<S>(m: System<S>, x: S): Mark { (m.horizon(x) / 25, m.food(x) / 40, m.timber(x) / 40) }

  ghost predicate TieFree<S(!new)>(m: System<S>, a: set<S>) {
    forall x, y | x in a && y in a && x != y :: Before(m, x, y) || Before(m, y, x)
  }

  ghost function MarksBelow<S(!new)>(m: System<S>, a: set<S>, x: S): set<Mark> {
    set y | y in a && Before(m, y, x) :: MarkOf(m, y)
  }

  ghost predicate First<S(!new)>(m: System<S>, a: set<S>, x: S) {
    forall y | y in a && MarkOf(m, y) == MarkOf(m, x) :: !Before(m, y, x)
  }

  ghost predicate Kept<S(!new)>(m: System<S>, a: set<S>, keep: nat, x: S) {
    x in a && First(m, a, x) && |MarksBelow(m, a, x)| < keep
  }

  ghost function KeptSet<S(!new)>(m: System<S>, a: set<S>, keep: nat): set<S> {
    set x | x in a && Kept(m, a, keep, x)
  }

  /** The states below a bound. */
  ghost predicate Good<S>(m: System<S>, bound: Option<int>, x: S) { bound.None? || m.horizon(x) < bound.value }

  ghost predicate SameGood<S(!new)>(m: System<S>, bound: Option<int>, a: set<S>, b: set<S>) {
    forall x | Good(m, bound, x) :: x in a <==> x in b
  }

  /** States at or above the bound never change which better states are kept. */
  lemma GoodKept<S(!new)>(m: System<S>, bound: Option<int>, a: set<S>, b: set<S>, keep: nat)
    requires SameGood(m, bound, a, b)
    ensures SameGood(m, bound, KeptSet(m, a, keep), KeptSet(m, b, keep))
  {
    forall x | Good(m, bound, x) ensures x in KeptSet(m, a, keep) <==> x in KeptSet(m, b, keep) {
      assert forall y | Before(m, y, x) :: Good(m, bound, y);
      assert MarksBelow(m, a, x) == MarksBelow(m, b, x);
    }
  }

  // ---- trimming twice ----

  lemma {:induction false} Minimal<S(!new)>(m: System<S>, a: set<S>) returns (x: S)
    requires a != {}
    ensures x in a && forall y | y in a :: !Before(m, y, x)
    decreases |a|
  {
    x :| x in a;
    var rest := a - {x};
    if rest != {} {
      var z := Minimal(m, rest);
      var was := x;
      if Before(m, z, x) { x := z; }
      forall y | y in a ensures !Before(m, y, x) {
        if y != was { assert y in rest && !Before(m, y, z); }
      }
    }
  }

  lemma Smaller<T>(a: set<T>, b: set<T>)
    requires a <= b
    ensures |a| <= |b| && (|a| == |b| ==> a == b)
  {
    assert b == a + (b - a);
    if |a| == |b| { assert |b - a| == 0; }
  }

  lemma KeptInside<S(!new)>(m: System<S>, a: set<S>, keep: nat)
    ensures KeptSet(m, a, keep) <= a && forall x :: x in KeptSet(m, a, keep) <==> Kept(m, a, keep, x)
  {
  }

  // ---- the trimmed list ----

  function Insert<S>(m: System<S>, x: S, l: seq<S>): seq<S> {
    if l == [] || !Before(m, l[0], x) then [x] + l else [l[0]] + Insert(m, x, l[1..])
  }

  /** Stable sort by key. */
  function Sort<S>(m: System<S>, l: seq<S>): seq<S> {
    if l == [] then [] else Insert(m, l[0], Sort(m, l[1..]))
  }

  ghost predicate Sorted<S(!new)>(m: System<S>, l: seq<S>) {
    forall i, j | 0 <= i < j < |l| :: !Before(m, l[j], l[i])
  }

  /** One state of each mark, at most `room` of them. */
  function TrimFrom<S>(m: System<S>, l: seq<S>, marks: set<Mark>, room: nat): seq<S> {
    if l == [] || room == 0 then []
    else if MarkOf(m, l[0]) in marks then TrimFrom(m, l[1..], marks, room)
    else [l[0]] + TrimFrom(m, l[1..], marks + {MarkOf(m, l[0])}, room - 1)
  }

  /** The loop appends before it looks at `keep`, so at least one state stays. */
  function Trim<S>(m: System<S>, l: seq<S>, keep: nat): seq<S> { TrimFrom(m, Sort(m, l), {}, Max(1, keep)) }

  ghost function Elements<S>(l: seq<S>): set<S> { set x | x in l }

  lemma {:induction false} InsertIs<S(!new)>(m: System<S>, x: S, l: seq<S>)
    requires Sorted(m, l)
    ensures Sorted(m, Insert(m, x, l)) && forall y :: y in Insert(m, x, l) <==> y == x || y in l
    decreases |l|
  {
    if l == [] || !Before(m, l[0], x) {
      var r := [x] + l;
      forall i, j | 0 <= i < j < |r| ensures !Before(m, r[j], r[i]) {
        if i == 0 && j > 1 { assert !Before(m, l[j - 1], l[0]); }
      }
    } else {
      var tail := Insert(m, x, l[1..]);
      assert Sorted(m, l[1..]);
      InsertIs(m, x, l[1..]);
      var r := [l[0]] + tail;
      forall i, j | 0 <= i < j < |r| ensures !Before(m, r[j], r[i]) {
        if i == 0 {
          assert tail[j - 1] == x || tail[j - 1] in l[1..];
          if tail[j - 1] != x { var k :| 0 <= k < |l[1..]| && l[1..][k] == tail[j - 1]; assert l[k + 1] == tail[j - 1]; }
        } else {
          assert !Before(m, tail[j - 1], tail[i - 1]);
        }
      }
      assert l == [l[0]] + l[1..];
    }
  }

  lemma {:induction false} SortIs<S(!new)>(m: System<S>, l: seq<S>)
    ensures Sorted(m, Sort(m, l)) && forall y :: y in Sort(m, l) <==> y in l
    decreases |l|
  {
    if l != [] {
      SortIs(m, l[1..]);
      InsertIs(m, l[0], Sort(m, l[1..]));
      assert l == [l[0]] + l[1..];
    }
  }

  ghost function Marks<S>(m: System<S>, l: seq<S>): set<Mark> { set x | x in l :: MarkOf(m, x) }

  /** Trimming the rest `q` of a sorted list after `p` adds what is kept of the whole. */
  lemma {:induction false} TrimFromIs<S(!new)>(m: System<S>, p: seq<S>, q: seq<S>, room: nat, keep: nat, x: S)
    requires Sorted(m, p + q) && TieFree(m, Elements(p + q)) && |Marks(m, p)| + room == keep
    ensures x in TrimFrom(m, q, Marks(m, p), room) <==> x in q && x !in p && Kept(m, Elements(p + q), keep, x)
    decreases |q|
  {
    hide Kept, Sorted, TieFree, Elements, Marks, MarkOf, TrimFrom;
    if q == [] || room == 0 {
      TrimStops(m, q, Marks(m, p), room);
      if x in q && x !in p { TooMany(m, p, q, keep, x); }
    } else {
      var (p', q') := (p + [q[0]], q[1..]);
      assert p' + q' == p + q && q == [q[0]] + q';
      MarksNext(m, p, q[0]);
      TrimGoesOn(m, q, Marks(m, p), room);
      if MarkOf(m, q[0]) in Marks(m, p) {
        assert Marks(m, p') == Marks(m, p);
        TrimFromIs(m, p', q', room, keep, x);
        if q[0] !in p { NotFirst(m, p, q, keep); }
      } else {
        TrimFromIs(m, p', q', room - 1, keep, x);
        FirstHere(m, p, q, keep);
      }
    }
  }

  lemma TrimStops<S>(m: System<S>, l: seq<S>, marks: set<Mark>, room: nat)
    requires l == [] || room == 0
    ensures TrimFrom(m, l, marks, room) == []
  {
  }

  lemma TrimGoesOn<S>(m: System<S>, l: seq<S>, marks: set<Mark>, room: nat)
    requires l != [] && room > 0
    ensures TrimFrom(m, l, marks, room)
         == if MarkOf(m, l[0]) in marks then TrimFrom(m, l[1..], marks, room)
            else [l[0]] + TrimFrom(m, l[1..], marks + {MarkOf(m, l[0])}, room - 1)
  {
  }

  lemma MarksNext<S(!new)>(m: System<S>, p: seq<S>, x: S)
    ensures Marks(m, p + [x]) == Marks(m, p) + {MarkOf(m, x)}
  {
  }

  lemma EarlierBefore<S(!new)>(m: System<S>, p: seq<S>, q: seq<S>, x: S)
    requires Sorted(m, p + q) && TieFree(m, Elements(p + q)) && x in q && x !in p
    ensures forall y | y in p :: Before(m, y, x)
  {
    var l := p + q;
    forall y | y in p ensures Before(m, y, x) {
      var i :| 0 <= i < |p| && p[i] == y;
      var j :| 0 <= j < |q| && q[j] == x;
      assert l[i] == y && l[|p| + j] == x;
      assert !Before(m, l[|p| + j], l[i]);
      assert y in Elements(l) && x in Elements(l);
    }
  }

  lemma TooMany<S(!new)>(m: System<S>, p: seq<S>, q: seq<S>, keep: nat, x: S)
    requires Sorted(m, p + q) && TieFree(m, Elements(p + q)) && |Marks(m, p)| == keep && x in q && x !in p
    ensures !Kept(m, Elements(p + q), keep, x)
  {
    EarlierBefore(m, p, q, x);
    assert Marks(m, p) <= MarksBelow(m, Elements(p + q), x);
    Smaller(Marks(m, p), MarksBelow(m, Elements(p + q), x));
  }

  lemma NotFirst<S(!new)>(m: System<S>, p: seq<S>, q: seq<S>, keep: nat)
    requires Sorted(m, p + q) && TieFree(m, Elements(p + q)) && q != [] && q[0] !in p && MarkOf(m, q[0]) in Marks(m, p)
    ensures !Kept(m, Elements(p + q), keep, q[0])
  {
    EarlierBefore(m, p, q, q[0]);
    var y :| y in p && MarkOf(m, y) == MarkOf(m, q[0]);
    assert y in Elements(p + q);
  }

  lemma FirstHere<S(!new)>(m: System<S>, p: seq<S>, q: seq<S>, keep: nat)
    requires Sorted(m, p + q) && TieFree(m, Elements(p + q)) && q != [] && MarkOf(m, q[0]) !in Marks(m, p)
    requires |Marks(m, p)| < keep
    ensures q[0] !in p && Kept(m, Elements(p + q), keep, q[0])
  {
    var (l, a) := (p + q, Elements(p + q));
    assert q[0] !in p && l[|p|] == q[0];
    EarlierBefore(m, p, q, q[0]);
    assert forall j | |p| < j < |l| :: !Before(m, l[j], l[|p|]);
    forall y | y in a && Before(m, y, q[0]) ensures y in p {
      var j :| 0 <= j < |l| && l[j] == y;
    }
    assert MarksBelow(m, a, q[0]) == Marks(m, p);
  }

  /** The trimmed list holds exactly what is kept of the states put in. */
  lemma TrimIs<S(!new)>(m: System<S>, l: seq<S>, keep: nat)
    requires TieFree(m, Elements(l))
    ensures Elements(Trim(m, l, keep)) == KeptSet(m, Elements(l), Max(1, keep))
  {
    SortIs(m, l);
    var s := Sort(m, l);
    assert [] + s == s && Elements(s) == Elements(l) && Marks<S>(m, []) == {};
    forall x ensures x in Trim(m, l, keep) <==> Kept(m, Elements(l), Max(1, keep), x) {
      TrimFromIs(m, [], s, Max(1, keep), Max(1, keep), x);
    }
  }

  // ---- below a bound ----

  ghost function Below<S(!new)>(m: System<S>, bound: Option<int>, a: set<S>): set<S> {
    set x | x in a && Good(m, bound, x)
  }

  lemma {:induction false} TrimInside<S(!new)>(m: System<S>, l: seq<S>, marks: set<Mark>, room: nat)
    ensures forall x | x in TrimFrom(m, l, marks, room) :: x in l
    decreases |l|
  {
    hide TrimFrom, MarkOf;
    if l == [] || room == 0 {
      TrimStops(m, l, marks, room);
    } else {
      TrimGoesOn(m, l, marks, room);
      if MarkOf(m, l[0]) in marks {
        TrimInside(m, l[1..], marks, room);
      } else {
        TrimInside(m, l[1..], marks + {MarkOf(m, l[0])}, room - 1);
      }
      assert l == [l[0]] + l[1..];
    }
  }
}
