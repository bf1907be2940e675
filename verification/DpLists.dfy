/**
 What trimming does to the list of arrivals itself, ties included: trimming in between
 changes nothing, and below a bound only the arrivals below the bound, in their order,
 matter.
 */
module DpLists {
  import opened Arith
  import opened Costs
  import opened DpSets

  /** Two sorted lists as one; of states that tie, those of `x` come first. */
  function Merge<S>(m: System<S>, x: seq<S>, y: seq<S>): seq<S>
    decreases |x| + |y|
  {
    if x == [] then y
    else if y == [] then x
    else if Before(m, y[0], x[0]) then [y[0]] + Merge(m, x, y[1..])
    else [x[0]] + Merge(m, x[1..], y)
  }

  lemma {:induction false} InsertMerge<S>(m: System<S>, z: S, x: seq<S>, y: seq<S>)
    ensures Insert(m, z, Merge(m, x, y)) == Merge(m, Insert(m, z, x), y)
    decreases |x| + |y|
  {
    if x == [] {
      if y != [] && Before(m, y[0], z) { InsertMerge(m, z, x, y[1..]); }
    } else if y == [] {
    } else if Before(m, y[0], x[0]) {
      if Before(m, y[0], z) { InsertMerge(m, z, x, y[1..]); }
    } else {
      if Before(m, x[0], z) { InsertMerge(m, z, x[1..], y); }
    }
  }

  lemma {:induction false} SortMerge<S>(m: System<S>, a: seq<S>, b: seq<S>)
    ensures Sort(m, a + b) == Merge(m, Sort(m, a), Sort(m, b))
    decreases |a|
  {
    if a == [] {
      assert a + b == b;
    } else {
      assert (a + b)[1..] == a[1..] + b && (a + b)[0] == a[0];
      SortMerge(m, a[1..], b);
      InsertMerge(m, a[0], Sort(m, a[1..]), Sort(m, b));
    }
  }

  lemma {:induction false} SortSorted<S(!new)>(m: System<S>, l: seq<S>)
    requires Sorted(m, l)
    ensures Sort(m, l) == l
    decreases |l|
  {
    if l != [] {
      assert Sorted(m, l[1..]);
      SortSorted(m, l[1..]);
      if |l| > 1 { assert !Before(m, l[1], l[0]); }
    }
  }

  lemma {:induction false} TrimStaysSorted<S(!new)>(m: System<S>, l: seq<S>, marks: set<Mark>, room: nat)
    requires Sorted(m, l)
    ensures Sorted(m, TrimFrom(m, l, marks, room))
    decreases |l|
  {
    hide MarkOf, TrimFrom;
    if l == [] || room == 0 {
      TrimStops(m, l, marks, room);
    } else {
      assert Sorted(m, l[1..]);
      TrimGoesOn(m, l, marks, room);
      if MarkOf(m, l[0]) in marks {
        TrimStaysSorted(m, l[1..], marks, room);
      } else {
        var more := marks + {MarkOf(m, l[0])};
        TrimStaysSorted(m, l[1..], more, room - 1);
        TrimInside(m, l[1..], more, room - 1);
        var tail := TrimFrom(m, l[1..], more, room - 1);
        forall j | 0 <= j < |tail| ensures !Before(m, tail[j], l[0]) {
          assert tail[j] in l[1..];
          var k :| 0 <= k < |l[1..]| && l[1..][k] == tail[j];
          assert !Before(m, l[k + 1], l[0]);
        }
      }
    }
  }

  lemma MergeHead<S(!new)>(m: System<S>, x: seq<S>, g: seq<S>, y: seq<S>)
    requires Sorted(m, x) && x != [] && y != [] && Before(m, y[0], x[0]) && forall s | s in g :: s in x
    ensures Merge(m, g, y) == [y[0]] + Merge(m, g, y[1..])
  {
    if g != [] {
      assert g[0] in x;
      var k :| 0 <= k < |x| && x[k] == g[0];
      assert k > 0 ==> !Before(m, x[k], x[0]);
    }
  }

  /** Trimming one side before merging changes nothing, as long as what was seen on that
      side has been seen and it was left as much room. */
  lemma {:induction false} TrimMerge<S(!new)>(
    m: System<S>, x: seq<S>, y: seq<S>, side: set<Mark>, space: nat, marks: set<Mark>, room: nat)
    requires Sorted(m, x) && side <= marks && |marks - side| + room <= space
    ensures TrimFrom(m, Merge(m, TrimFrom(m, x, side, space), y), marks, room) == TrimFrom(m, Merge(m, x, y), marks, room)
    decreases |x| + |y|, 1
  {
    hide TrimFrom, MarkOf, Merge, Sorted, Before;
    if room == 0 {
      TrimStops(m, Merge(m, TrimFrom(m, x, side, space), y), marks, room);
      TrimStops(m, Merge(m, x, y), marks, room);
    } else if x == [] {
      TrimStops(m, x, side, space);
    } else if y != [] && Before(m, y[0], x[0]) {
      TrimMergeRight(m, x, y, side, space, marks, room);
    } else {
      TrimMergeLeft(m, x, y, side, space, marks, room);
    }
  }

  lemma {:induction false} TrimMergeRight<S(!new)>(
    m: System<S>, x: seq<S>, y: seq<S>, side: set<Mark>, space: nat, marks: set<Mark>, room: nat)
    requires Sorted(m, x) && side <= marks && |marks - side| + room <= space
    requires room > 0 && x != [] && y != [] && Before(m, y[0], x[0])
    ensures TrimFrom(m, Merge(m, TrimFrom(m, x, side, space), y), marks, room) == TrimFrom(m, Merge(m, x, y), marks, room)
    decreases |x| + |y|, 0
  {
    hide TrimFrom, MarkOf, Merge, Sorted, Before;
    var (g, k) := (TrimFrom(m, x, side, space), MarkOf(m, y[0]));
    TrimInside(m, x, side, space);
    MergeHead(m, x, x, y);
    MergeHead(m, x, g, y);
    TrimHead(m, y[0], Merge(m, g, y[1..]), marks, room);
    TrimHead(m, y[0], Merge(m, x, y[1..]), marks, room);
    if k in marks {
      TrimMerge(m, x, y[1..], side, space, marks, room);
    } else {
      assert marks + {k} - side == marks - side + {k};
      TrimMerge(m, x, y[1..], side, space, marks + {k}, room - 1);
    }
  }

  lemma {:induction false} TrimMergeLeft<S(!new)>(
    m: System<S>, x: seq<S>, y: seq<S>, side: set<Mark>, space: nat, marks: set<Mark>, room: nat)
    requires Sorted(m, x) && side <= marks && |marks - side| + room <= space
    requires room > 0 && x != [] && (y == [] || !Before(m, y[0], x[0]))
    ensures TrimFrom(m, Merge(m, TrimFrom(m, x, side, space), y), marks, room) == TrimFrom(m, Merge(m, x, y), marks, room)
    decreases |x| + |y|, 0
  {
    hide TrimFrom, MarkOf, Merge, Sorted, Before;
    var (g, k) := (TrimFrom(m, x, side, space), MarkOf(m, x[0]));
    TailSorted(m, x);
    MergeFirst(m, x, y);
    TrimGoesOn(m, x, side, space);
    TrimHead(m, x[0], Merge(m, x[1..], y), marks, room);
    if k in side {
      TrimMerge(m, x[1..], y, side, space, marks, room);
    } else {
      var g' := TrimFrom(m, x[1..], side + {k}, space - 1);
      assert g == [x[0]] + g' && g[1..] == g';
      MergeFirst(m, g, y);
      TrimHead(m, x[0], Merge(m, g', y), marks, room);
      if k in marks {
        assert marks - (side + {k}) == marks - side - {k};
        TrimMerge(m, x[1..], y, side + {k}, space - 1, marks, room);
      } else {
        assert marks + {k} - (side + {k}) == marks - side;
        TrimMerge(m, x[1..], y, side + {k}, space - 1, marks + {k}, room - 1);
      }
    }
  }

  lemma TailSorted<S(!new)>(m: System<S>, l: seq<S>)
    requires Sorted(m, l) && l != []
    ensures Sorted(m, l[1..])
  {
  }

  lemma MergeFirst<S>(m: System<S>, x: seq<S>, y: seq<S>)
    requires x != [] && (y == [] || !Before(m, y[0], x[0]))
    ensures Merge(m, x, y) == [x[0]] + Merge(m, x[1..], y)
  {
    if y == [] { assert x == [x[0]] + x[1..]; }
  }

  lemma TrimHead<S>(m: System<S>, z: S, l: seq<S>, marks: set<Mark>, room: nat)
    requires room > 0
    ensures TrimFrom(m, [z] + l, marks, room)
         == if MarkOf(m, z) in marks then TrimFrom(m, l, marks, room)
            else [z] + TrimFrom(m, l, marks + {MarkOf(m, z)}, room - 1)
  {
    assert ([z] + l)[1..] == l;
  }

  /** Trimming arrivals in between changes nothing, whatever ties among them. */
  lemma TrimAbsorb<S(!new)>(m: System<S>, a: seq<S>, b: seq<S>, keep: nat)
    ensures Trim(m, Trim(m, a, keep) + b, keep) == Trim(m, a + b, keep)
  {
    hide Sort, TrimFrom, Merge, Sorted;
    var k := Max(1, keep);
    SortIs(m, a);
    TrimStaysSorted(m, Sort(m, a), {}, k);
    SortSorted(m, Trim(m, a, keep));
    SortMerge(m, Trim(m, a, keep), b);
    SortMerge(m, a, b);
    var none: set<Mark> := {};
    assert none - none == {};
    TrimMerge(m, Sort(m, a), Sort(m, b), none, k, none, k);
  }

  // ---- below a bound ----

  function GoodOf<S>(m: System<S>, bound: Option<int>, l: seq<S>): seq<S> {
    if l == [] then []
    else (if bound.None? || m.horizon(l[0]) < bound.value then [l[0]] else []) + GoodOf(m, bound, l[1..])
  }

  lemma {:induction false} GoodSplit<S>(m: System<S>, bound: Option<int>, a: seq<S>, b: seq<S>)
    ensures GoodOf(m, bound, a + b) == GoodOf(m, bound, a) + GoodOf(m, bound, b)
    decreases |a|
  {
    if a == [] {
      assert a + b == b;
    } else {
      assert (a + b)[1..] == a[1..] + b && (a + b)[0] == a[0];
      GoodSplit(m, bound, a[1..], b);
    }
  }

  lemma {:induction false} GoodMembers<S(!new)>(m: System<S>, bound: Option<int>, l: seq<S>)
    ensures forall x :: x in GoodOf(m, bound, l) <==> x in l && Good(m, bound, x)
    decreases |l|
  {
    if l != [] {
      GoodMembers(m, bound, l[1..]);
      assert l == [l[0]] + l[1..];
    }
  }

  lemma {:induction false} GoodNone<S(!new)>(m: System<S>, bound: Option<int>, l: seq<S>)
    requires forall x | x in l :: !Good(m, bound, x)
    ensures GoodOf(m, bound, l) == []
    decreases |l|
  {
    if l != [] {
      assert l[0] in l && forall x | x in l[1..] :: x in l;
      GoodNone(m, bound, l[1..]);
    }
  }

  lemma {:induction false} GoodInsert<S(!new)>(m: System<S>, bound: Option<int>, z: S, l: seq<S>)
    requires Sorted(m, l)
    ensures GoodOf(m, bound, Insert(m, z, l)) == if Good(m, bound, z) then Insert(m, z, GoodOf(m, bound, l)) else GoodOf(m, bound, l)
    decreases |l|
  {
    hide Sorted;
    if l == [] || !Before(m, l[0], z) {
      assert ([z] + l)[1..] == l;
      var g := GoodOf(m, bound, l);
      GoodMembers(m, bound, l);
      if g != [] { assert g[0] in l; NotBeforeAny(m, l, z, g[0]); }
    } else {
      TailSorted(m, l);
      GoodInsert(m, bound, z, l[1..]);
      var r := Insert(m, z, l[1..]);
      assert Insert(m, z, l) == [l[0]] + r && ([l[0]] + r)[1..] == r;
      if Good(m, bound, z) {
        var g := GoodOf(m, bound, l[1..]);
        assert GoodOf(m, bound, l) == [l[0]] + g && ([l[0]] + g)[1..] == g;
      }
    }
  }

  lemma NotBeforeAny<S(!new)>(m: System<S>, l: seq<S>, z: S, s: S)
    requires Sorted(m, l) && l != [] && !Before(m, l[0], z) && s in l
    ensures !Before(m, s, z)
  {
    var k :| 0 <= k < |l| && l[k] == s;
    assert k > 0 ==> !Before(m, l[k], l[0]);
  }

  lemma {:induction false} GoodSort<S(!new)>(m: System<S>, bound: Option<int>, l: seq<S>)
    ensures GoodOf(m, bound, Sort(m, l)) == Sort(m, GoodOf(m, bound, l))
    decreases |l|
  {
    hide Insert;
    if l != [] {
      GoodSort(m, bound, l[1..]);
      SortIs(m, l[1..]);
      GoodInsert(m, bound, l[0], Sort(m, l[1..]));
      var g := GoodOf(m, bound, l[1..]);
      assert ([l[0]] + g)[1..] == g;
      assert Sort(m, [l[0]] + g) == Insert(m, l[0], Sort(m, g));
      assert GoodOf(m, bound, l) == if Good(m, bound, l[0]) then [l[0]] + g else g;
    }
  }

  lemma {:induction false} GoodTrimFrom<S(!new)>(m: System<S>, bound: Option<int>, l: seq<S>, marks: set<Mark>, room: nat)
    requires Sorted(m, l)
    ensures GoodOf(m, bound, TrimFrom(m, l, marks, room)) == TrimFrom(m, GoodOf(m, bound, l), marks, room)
    decreases |l|
  {
    hide TrimFrom, MarkOf, Sorted;
    if l == [] || room == 0 {
      TrimStops(m, l, marks, room);
      TrimStops(m, GoodOf(m, bound, l), marks, room);
    } else if !Good(m, bound, l[0]) {
      forall x | x in l ensures !Good(m, bound, x) { NotBeforeAny(m, l, l[0], x); }
      TrimInside(m, l, marks, room);
      GoodNone(m, bound, l);
      GoodNone(m, bound, TrimFrom(m, l, marks, room));
      TrimStops<S>(m, [], marks, room);
    } else {
      TailSorted(m, l);
      TrimGoesOn(m, l, marks, room);
      var g := GoodOf(m, bound, l[1..]);
      assert GoodOf(m, bound, l) == [l[0]] + g;
      TrimHead(m, l[0], g, marks, room);
      if MarkOf(m, l[0]) in marks {
        GoodTrimFrom(m, bound, l[1..], marks, room);
      } else {
        var more := marks + {MarkOf(m, l[0])};
        GoodTrimFrom(m, bound, l[1..], more, room - 1);
        var tail := TrimFrom(m, l[1..], more, room - 1);
        assert ([l[0]] + tail)[1..] == tail;
      }
    }
  }

  /** Below a bound, the trimmed list is what the arrivals below the bound give. */
  lemma GoodTrim<S(!new)>(m: System<S>, bound: Option<int>, l: seq<S>, keep: nat)
    ensures GoodOf(m, bound, Trim(m, l, keep)) == Trim(m, GoodOf(m, bound, l), keep)
  {
    hide Sort, TrimFrom, Sorted;
    SortIs(m, l);
    GoodTrimFrom(m, bound, Sort(m, l), {}, Max(1, keep));
    GoodSort(m, bound, l);
  }

  // ---- without ties the order of arrival does not matter ----

  /** As far as good states go, ties among the others do not matter for the trimmed list. */
  lemma TrimGood<S(!new)>(m: System<S>, bound: Option<int>, l: seq<S>, keep: nat)
    requires TieFree(m, Below(m, bound, Elements(l)))
    ensures SameGood(m, bound, Elements(Trim(m, l, keep)), KeptSet(m, Elements(l), Max(1, keep)))
  {
    hide Trim, GoodOf, KeptSet, Good;
    var good := GoodOf(m, bound, l);
    GoodTrim(m, bound, l, keep);
    GoodMembers(m, bound, l);
    GoodMembers(m, bound, Trim(m, l, keep));
    assert Elements(good) == Below(m, bound, Elements(l));
    TrimIs(m, good, keep);
    GoodKept(m, bound, Elements(l), Elements(good), Max(1, keep));
    assert forall x :: x in Trim(m, good, keep) <==> x in Elements(Trim(m, good, keep));
  }

  lemma {:induction false} TrimDistinct<S(!new)>(m: System<S>, l: seq<S>, marks: set<Mark>, room: nat)
    ensures var r := TrimFrom(m, l, marks, room);
            && (forall i | 0 <= i < |r| :: MarkOf(m, r[i]) !in marks)
            && forall i, j | 0 <= i < j < |r| :: MarkOf(m, r[i]) != MarkOf(m, r[j])
    decreases |l|
  {
    hide TrimFrom, MarkOf;
    if l == [] || room == 0 {
      TrimStops(m, l, marks, room);
    } else {
      TrimGoesOn(m, l, marks, room);
      if MarkOf(m, l[0]) in marks {
        TrimDistinct(m, l[1..], marks, room);
      } else {
        TrimDistinct(m, l[1..], marks + {MarkOf(m, l[0])}, room - 1);
      }
    }
  }

  ghost predicate Strict<S(!new)>(m: System<S>, l: seq<S>) {
    forall i, j | 0 <= i < j < |l| :: Before(m, l[i], l[j])
  }

  lemma HeadIn<S(!new)>(l: seq<S>)
    ensures l != [] ==> l[0] in l
  {
  }

  /** Strictly sorted lists with the same members are the same list. */
  lemma {:induction false} StrictSame<S(!new)>(m: System<S>, a: seq<S>, b: seq<S>)
    requires Strict(m, a) && Strict(m, b) && forall x :: x in a <==> x in b
    ensures a == b
    decreases |a|
  {
    HeadIn(b);
    if a != [] {
      assert a[0] in a && a[0] in b;
      assert b[0] in b && b[0] in a;
      assert forall k | 0 < k < |a| :: Before(m, a[0], a[k]);
      assert forall k | 0 < k < |b| :: Before(m, b[0], b[k]);
      var i :| 0 <= i < |a| && a[i] == b[0];
      var j :| 0 <= j < |b| && b[j] == a[0];
      assert a[0] == b[0];
      forall x ensures x in a[1..] <==> x in b[1..] {
        if x in a[1..] { var k :| 0 <= k < |a[1..]| && a[1..][k] == x; assert Before(m, a[0], a[k + 1]); assert x in a && x in b; }
        if x in b[1..] { var k :| 0 <= k < |b[1..]| && b[1..][k] == x; assert Before(m, b[0], b[k + 1]); assert x in b && x in a; }
        assert a == [a[0]] + a[1..] && b == [b[0]] + b[1..];
      }
      StrictSame(m, a[1..], b[1..]);
    }
  }

  lemma TrimStrict<S(!new)>(m: System<S>, l: seq<S>, keep: nat)
    requires TieFree(m, Elements(l))
    ensures Strict(m, Trim(m, l, keep))
  {
    hide TrimFrom, Sort;
    var (s, k) := (Sort(m, l), Max(1, keep));
    SortIs(m, l);
    TrimStaysSorted(m, s, {}, k);
    TrimDistinct(m, s, {}, k);
    TrimInside(m, s, {}, k);
    var r := Trim(m, l, keep);
    forall i, j | 0 <= i < j < |r| ensures Before(m, r[i], r[j]) {
      assert r[i] in Elements(l) && r[j] in Elements(l) && MarkOf(m, r[i]) != MarkOf(m, r[j]);
    }
  }

  /** Without ties, lists with the same members trim to the same list. */
  lemma TrimSame<S(!new)>(m: System<S>, a: seq<S>, b: seq<S>, keep: nat)
    requires TieFree(m, Elements(a)) && forall x :: x in a <==> x in b
    ensures Trim(m, a, keep) == Trim(m, b, keep)
  {
    hide Trim, KeptSet, TieFree, Strict;
    assert Elements(a) == Elements(b);
    TrimIs(m, a, keep);
    TrimIs(m, b, keep);
    TrimStrict(m, a, keep);
    TrimStrict(m, b, keep);
    var (x, y) := (Trim(m, a, keep), Trim(m, b, keep));
    forall s ensures s in x <==> s in y { assert s in x <==> s in Elements(x); assert s in y <==> s in Elements(y); }
    StrictSame(m, x, y);
  }
}
