/** A search that is over has the best horizon of the reference, which has no queue. */
module DpSearch {
  import opened Arith
  import opened Costs
  import opened DpSets
  import opened DpLists
  import opened DpModel
  import opened DpRun

  /** Purchases never bring the horizon forward, and no two states below `lim` tie. */
  ghost predicate Apt<S(!new)>(t: Task<S>, lim: Option<int>) { t.Ok() && Monotone(t) && TiesApart(t, lim) }

  function Cut(a: Option<int>, b: Option<int>): Option<int> {
    if a.None? then b else if b.None? then a else Some(Min(a.value, b.value))
  }

  // ---- the reference ----

  /** `s` comes from a state kept one purchase of `i` earlier. */
  ghost predicate Via<S(!new)>(t: Task<S>, w: Node, i: nat, s: S) {
    i < |w| && w[i] > 0 && s in Edge(t, Keep(t, Down(w, i)), i)
  }

  lemma {:induction false} CandsFromIs<S(!new)>(t: Task<S>, w: Node, k: nat, s: S)
    requires k <= |w|
    ensures s in CandsFrom(t, w, k) <==> exists i: nat :: k <= i && Via(t, w, i, s)
    decreases |w| - k
  {
    hide Edge, Keep;
    if k < |w| {
      CandsFromIs(t, w, k + 1, s);
      if w[k] > 0 { assert Via(t, w, k, s) <==> s in Edge(t, Keep(t, Down(w, k)), k); }
    }
  }

  lemma CandsIs<S(!new)>(t: Task<S>, w: Node, s: S)
    ensures s in Cands(t, w) <==> exists i: nat :: Via(t, w, i, s)
  {
    hide CandsFrom, Via;
    CandsFromIs(t, w, 0, s);
    if exists i: nat :: Via(t, w, i, s) { var i: nat :| Via(t, w, i, s); assert 0 <= i; }
  }

  /** What is kept is something the purchases lead to. */
  lemma {:induction false} KeepInAll<S(!new)>(t: Task<S>, w: Node)
    ensures Keep(t, w) <= All(t, w)
    decreases Level(w)
  {
    hide AllFrom, Cands, Edge, KeptSet;
    if Level(w) > 0 {
      KeptInside(t.m, Cands(t, w), Max(1, t.keep));
      forall s | s in Cands(t, w) ensures s in All(t, w) {
        CandsIs(t, w, s);
        var i: nat :| Via(t, w, i, s);
        LevelDown(w, i);
        KeepInAll(t, Down(w, i));
        EdgeInAll(t, w, i, Keep(t, Down(w, i)));
      }
    }
  }

  /** A purchase that stays below the bound starts below it. */
  lemma GoodFrom<S(!new)>(t: Task<S>, bound: Option<int>, p: Node, a: set<S>, i: nat, c: S) returns (s: S)
    requires Monotone(t) && InBox(t, p) && a <= All(t, p) && c in Edge(t, a, i) && Good(t.m, bound, c)
    ensures s in a && Good(t.m, bound, s) && t.m.legal(s, i) && t.m.apply(s, i) == Some(c)
  {
    hide All;
    s :| s in a && t.m.legal(s, i) && t.m.apply(s, i).Some? && t.m.apply(s, i).value == c;
  }

  lemma EdgeHas<S(!new)>(t: Task<S>, a: set<S>, i: nat, s: S)
    requires s in a && t.m.legal(s, i) && t.m.apply(s, i).Some?
    ensures t.m.apply(s, i).value in Edge(t, a, i)
  {
  }

  // ---- pools of finished levels are those of the reference, below the best ----

  ghost predicate Behind<S(!new)>(t: Task<S>, st: St<S>, level: nat) {
    st.qi <= |st.order| && forall p | p in st.order && Level(p) < level :: p in st.order[..st.qi]
  }

  lemma BehindHead<S(!new)>(t: Task<S>, st: St<S>)
    requires Shape(t, st) && st.qi < |st.order|
    ensures Behind(t, st, Level(st.order[st.qi]))
  {
    hide Level;
    forall p | p in st.order && Level(p) < Level(st.order[st.qi]) ensures p in st.order[..st.qi] {
      var k :| 0 <= k < |st.order| && st.order[k] == p;
    }
  }

  lemma BehindLess<S(!new)>(t: Task<S>, st: St<S>, w: Node, i: nat)
    requires Behind(t, st, Level(w)) && i < |w| && w[i] > 0
    ensures Behind(t, st, Level(Down(w, i)))
  {
    LevelDown(w, i);
  }

  /** A node behind the queue with a state below the best horizon was expanded. */
  lemma NotSkipped<S(!new)>(t: Task<S>, st: St<S>, p: Node, s: S, level: nat)
    requires Shape(t, st) && Skipped(t, st) && Behind(t, st, level) && Level(p) < level
    requires s in Pool(st, p) && Good(t.m, st.best, s)
    ensures p in st.expanded
  {
    hide Level, Good;
    assert p in Elements(st.order);
  }

  lemma ArrivedIsCand<S(!new)>(t: Task<S>, bound: Option<int>, st: St<S>, p: Node, i: nat, x: S)
    requires Monotone(t) && Inside(t, st) && InBox(t, p) && i < |p|
    requires x in Gots(t, Pool(st, p), i) && Good(t.m, bound, x) && SameGood(t.m, bound, Elements(Pool(st, p)), Keep(t, p))
    ensures x in Cands(t, Up(p, i))
  {
    hide Gots, Cands, Keep, All, Monotone, Edge;
    GotsIs(t, Pool(st, p), i);
    assert x in Elements(Gots(t, Pool(st, p), i));
    var s := GoodFrom(t, bound, p, Elements(Pool(st, p)), i, x);
    EdgeHas(t, Keep(t, p), i, s);
    LevelUp(p, i);
    assert Via(t, Up(p, i), i, x);
    CandsIs(t, Up(p, i), x);
  }

  lemma CandArrives<S(!new)>(t: Task<S>, bound: Option<int>, st: St<S>, w: Node, i: nat, x: S)
    requires Monotone(t) && Shape(t, st) && Skipped(t, st) && InBox(t, w) && i < |w| && w[i] > 0
    requires Behind(t, st, Level(w)) && x in Edge(t, Keep(t, Down(w, i)), i)
    requires Good(t.m, bound, x) && forall s | Good(t.m, bound, s) :: Good(t.m, st.best, s)
    requires SameGood(t.m, bound, Elements(Pool(st, Down(w, i))), Keep(t, Down(w, i)))
    ensures x in Arrived(t, st, [], 0, w)
  {
    hide Gots, All, Monotone, Edge, Keep, Shape, Skipped, Arrivals, NameFrom, Good;
    var p := Down(w, i);
    ParentBox(t, w, i);
    KeepInAll(t, p);
    var s := GoodFrom(t, bound, p, Keep(t, p), i, x);
    assert s in Elements(Pool(st, p));
    NotSkipped(t, st, p, s, Level(w));
    EdgeHas(t, Elements(Pool(st, p)), i, s);
    GotsIs(t, Pool(st, p), i);
    assert x in Elements(Gots(t, Pool(st, p), i));
    NameDown(w, i);
    assert x in Block(t, st, [], 0, p, w);
    assert p in st.order by { ExpandedListed(t, st, p); }
    var k :| 0 <= k < |st.order| && st.order[k] == p;
    ArrivalHas(t, st, [], 0, |st.order|, k, w);
  }

  lemma ExpandedListed<S(!new)>(t: Task<S>, st: St<S>, p: Node)
    requires Shape(t, st) && p in st.expanded
    ensures p in st.order
  {
  }

  lemma {:induction false} GoodPools<S(!new)>(t: Task<S>, lim: Option<int>, st: St<S>, w: Node)
    requires Apt(t, lim) && Inv(t, st) && InBox(t, w) && Behind(t, st, Level(w))
    ensures SameGood(t.m, Cut(st.best, lim), Elements(Pool(st, w)), Keep(t, w))
    decreases Level(w)
  {
    hide Arrivals, Cands, KeptSet, All, Monotone, TiesApart, SameGood, Gots, NameFrom, Trim, Shape, Skipped, Inside, Heard, Edge;
    var bound := Cut(st.best, lim);
    if Level(w) > 0 {
      var (got, cands, keep) := (Arrived(t, st, [], 0, w), Cands(t, w), Max(1, t.keep));
      forall x | Good(t.m, bound, x) ensures x in Elements(got) <==> x in cands {
        if x in got {
          var p, i := ArrivalCases(t, st, [], 0, |st.order|, w, x);
          NameBack(p, w);
          ParentBox(t, w, i);
          BehindLess(t, st, w, i);
          GoodPools(t, lim, st, p);
          ArrivedIsCand(t, bound, st, p, i, x);
        }
        if x in cands {
          CandsIs(t, w, x);
          var i: nat :| Via(t, w, i, x);
          ParentBox(t, w, i);
          BehindLess(t, st, w, i);
          GoodPools(t, lim, st, Down(w, i));
          CandArrives(t, bound, st, w, i, x);
        }
      }
      SameGoodBy(t, bound, Elements(got), cands);
      GoodKept(t.m, bound, Elements(got), cands, keep);
      PoolKept(t, lim, st, w);
      SameGoodChain(t.m, lim, bound, Elements(Pool(st, w)), KeptSet(t.m, Elements(got), keep), KeptSet(t.m, cands, keep));
    } else {
      ZeroLevel(w);
      assert w == Root(t);
      SameGoodBy(t, bound, Elements(Pool(st, w)), Keep(t, w));
    }
  }

  lemma {:induction false} ZeroLevel(w: Node)
    requires Level(w) == 0
    ensures forall i | 0 <= i < |w| :: w[i] == 0
    decreases |w|
  {
    if w != [] { ZeroLevel(w[1..]); assert w == [w[0]] + w[1..]; }
  }

  lemma PoolKept<S(!new)>(t: Task<S>, lim: Option<int>, st: St<S>, w: Node)
    requires TiesApart(t, lim) && Inside(t, st) && Lists(t, st, [], 0) && InBox(t, w) && Level(w) > 0
    ensures SameGood(t.m, lim, Elements(Pool(st, w)), KeptSet(t.m, Elements(Arrived(t, st, [], 0, w)), Max(1, t.keep)))
  {
    hide Arrived, All, KeptSet, Trim, SameGood, Inside, Level;
    var got := Arrived(t, st, [], 0, w);
    ArrivedInAll(t, st, [], 0, w);
    assert TieFree(t.m, Below(t.m, lim, Elements(got))) by { assert TieFree(t.m, Below(t.m, lim, All(t, w))); }
    TrimGood(t.m, lim, got, t.keep);
  }

  lemma SameGoodChain<S(!new)>(m: System<S>, lim: Option<int>, bound: Option<int>, a: set<S>, b: set<S>, c: set<S>)
    requires SameGood(m, lim, a, b) && SameGood(m, bound, b, c) && forall x | Good(m, bound, x) :: Good(m, lim, x)
    ensures SameGood(m, bound, a, c)
  {
  }

  lemma SameGoodBy<S(!new)>(t: Task<S>, bound: Option<int>, a: set<S>, b: set<S>)
    requires forall x | Good(t.m, bound, x) :: x in a <==> x in b
    ensures SameGood(t.m, bound, a, b)
  {
  }

  // ---- the best horizon ----

  /** Over, every completion of the reference below the limit has been offered. */
  lemma AllOffered<S(!new)>(t: Task<S>, lim: Option<int>, st: St<S>, w: Node, c: S)
    requires Apt(t, lim) && Inv(t, st) && st.qi == |st.order| && Completes(t, w, c) && Good(t.m, lim, c)
    ensures st.best.Some? && st.best.value <= t.m.horizon(c)
  {
    hide Lists, Inside, Skipped, Shape, Arrived, Cands, Keep, Edge, Monotone, TiesApart, Level;
    if Good(t.m, st.best, c) {
      CandsIs(t, w, c);
      var i: nat :| Via(t, w, i, c);
      ParentBox(t, w, i);
      assert st.order[..st.qi] == st.order;
      GoodPools(t, lim, st, Down(w, i));
      CandArrives(t, Cut(st.best, lim), st, w, i, c);
    }
  }

  /** A state that improved the best is a candidate of the reference. */
  lemma BetterIsCand<S(!new)>(t: Task<S>, lim: Option<int>, st: St<S>, i: nat, c: S)
    requires Apt(t, lim) && Inv(t, st) && st.qi < |st.order|
    requires Improves(t, st, st.order[st.qi], i, c) && Good(t.m, lim, c)
    ensures Completes(t, Up(st.order[st.qi], i), c)
  {
    hide Lists, Inside, Skipped, Heard, Monotone, TiesApart, Gots, Cands, Keep, Level;
    var v := st.order[st.qi];
    BehindHead(t, st);
    GoodPools(t, lim, st, v);
    ArrivedIsCand(t, Cut(st.best, lim), st, v, i, c);
    LevelUp(v, i);
    UpInBox(t, v, i);
  }

  /** A search that is over has found the best of the reference, unless states at or below
      that best tie. */
  lemma OverIsBest<S(!new)>(t: Task<S>, best: Option<int>, prune: bool, k: nat)
    requires t.Ok() && IsBest(t, best) && Apt(t, UpTo(best))
    requires Steps(t, prune, k).qi == |Steps(t, prune, k).order|
    ensures Steps(t, prune, k).best == best
  {
    hide Inv, Monotone, TiesApart, Completes, Steps, Improves;
    var st := Steps(t, prune, k);
    StepsInv(t, prune, k);
    if best.Some? {
      var w, c :| Completes(t, w, c) && t.m.horizon(c) == best.value;
      AllOffered(t, UpTo(best), st, w, c);
    }
    if st.best.Some? {
      var j, i, c := Cause(t, prune, k);
      StepsInv(t, prune, j);
      BetterIsCand(t, UpTo(best), Steps(t, prune, j), i, c) by { InvShape(t, Steps(t, prune, j)); }
    }
  }
}
