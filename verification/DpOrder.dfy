/** Two searches of one task that differ in whether they prune: what the order of the queue
    can do to ties, and where it cannot. */
module DpOrder {
  import opened Costs
  import opened DpSets
  import opened DpLists
  import opened DpModel
  import opened DpRun
  import opened DpSearch

  // ---- lists of nodes ----

  ghost predicate Precedes(l: seq<Node>, u: Node, v: Node) {
    exists i, j :: 0 <= i < j < |l| && l[i] == u && l[j] == v
  }

  ghost predicate Distinct(l: seq<Node>) { forall i, j | 0 <= i < j < |l| :: l[i] != l[j] }

  ghost function Concat<S>(l: seq<Node>, f: Node -> seq<S>): seq<S> {
    if l == [] then [] else Concat(l[..|l| - 1], f) + f(l[|l| - 1])
  }

  lemma {:induction false} ConcatHas<S(!new)>(l: seq<Node>, f: Node -> seq<S>, s: S)
    ensures s in Concat(l, f) <==> exists p :: p in l && s in f(p)
    decreases |l|
  {
    if l != [] {
      var (front, last) := (l[..|l| - 1], l[|l| - 1]);
      ConcatHas(front, f, s);
      assert l == front + [last];
    }
  }

  lemma {:induction false} ConcatNone<S>(l: seq<Node>, f: Node -> seq<S>)
    requires forall p | p in l :: f(p) == []
    ensures Concat(l, f) == []
    decreases |l|
  {
    if l != [] { ConcatNone(l[..|l| - 1], f); }
  }

  lemma FrontOf(l: seq<Node>)
    requires l != [] && Distinct(l)
    ensures var front := l[..|l| - 1]; var last := l[|l| - 1];
            && Distinct(front) && last in l && last !in front && l == front + [last]
            && (forall u | u != last :: u in l <==> u in front)
            && (forall u :: !Precedes(l, last, u))
            && (forall u, v | v != last :: Precedes(l, u, v) <==> Precedes(front, u, v))
            && (forall u | u in front :: Precedes(l, u, last))
            && (forall u, v | Precedes(front, u, v) :: v in front)
  {
    var (front, last) := (l[..|l| - 1], l[|l| - 1]);
    forall u, v | v != last && Precedes(l, u, v) ensures Precedes(front, u, v) {
      var i, j :| 0 <= i < j < |l| && l[i] == u && l[j] == v;
      assert front[i] == u && front[j] == v;
    }
    forall u, v | Precedes(front, u, v) ensures Precedes(l, u, v) {
      var i, j :| 0 <= i < j < |front| && front[i] == u && front[j] == v;
      assert l[i] == u && l[j] == v;
    }
    forall u | u in front ensures Precedes(l, u, last) {
      var i :| 0 <= i < |front| && front[i] == u;
      assert l[i] == u && l[|l| - 1] == last;
    }
  }

  /** Only the relative order of those who contribute matters. */
  lemma {:induction false} ConcatSame<S(!new)>(x: seq<Node>, y: seq<Node>, f: Node -> seq<S>)
    requires Distinct(x) && Distinct(y) && forall u | f(u) != [] :: u in x <==> u in y
    requires forall u, v | f(u) != [] && f(v) != [] && Precedes(x, u, v) :: Precedes(y, u, v)
    ensures Concat(x, f) == Concat(y, f)
    decreases |x| + |y|
  {
    hide Precedes, Distinct;
    if x == [] {
      ConcatNone(y, f);
    } else if f(x[|x| - 1]) == [] {
      FrontOf(x);
      ConcatSame(x[..|x| - 1], y, f);
    } else {
      assert x[|x| - 1] in y;
      FrontOf(x);
      FrontOf(y);
      if f(y[|y| - 1]) == [] {
        ConcatSame(x, y[..|y| - 1], f);
      } else {
        LastSame(x, y, f);
        var front := x[..|x| - 1];
        assert forall u, v | Precedes(front, u, v) :: v != x[|x| - 1];
        ConcatSame(front, y[..|y| - 1], f);
      }
    }
  }

  lemma LastSame<S(!new)>(x: seq<Node>, y: seq<Node>, f: Node -> seq<S>)
    requires Distinct(x) && Distinct(y) && x != [] && y != [] && f(x[|x| - 1]) != [] && f(y[|y| - 1]) != []
    requires forall u | f(u) != [] :: u in x <==> u in y
    requires forall u, v | f(u) != [] && f(v) != [] && Precedes(x, u, v) :: Precedes(y, u, v)
    ensures x[|x| - 1] == y[|y| - 1]
  {
    hide Precedes, Distinct;
    FrontOf(x);
    FrontOf(y);
    var (u, v) := (x[|x| - 1], y[|y| - 1]);
    assert v in x && (u != v ==> Precedes(x, v, u));
  }

  lemma QueueDistinct<S(!new)>(t: Task<S>, st: St<S>)
    requires Inv(t, st)
    ensures Distinct(st.order) && forall p | Pool(st, p) != [] :: p in st.order
  {
    forall p | Pool(st, p) != [] ensures p in st.order { assert p in Elements(st.order); }
  }

  // ---- what arrives below a bound ----

  ghost predicate Tighter<S(!new)>(m: System<S>, bound: Option<int>, best: Option<int>) {
    forall s | Good(m, bound, s) :: Good(m, best, s)
  }

  /** What `p` has to contribute to `w` below the bound. */
  ghost function Share<S(!new)>(t: Task<S>, bound: Option<int>, st: St<S>, p: Node, w: Node): seq<S> {
    match NameFrom(p, w)
    case None => []
    case Some(i) => GoodOf(t.m, bound, Gots(t, GoodOf(t.m, bound, Pool(st, p)), i))
  }

  /** States at or above the bound buy nothing below it. */
  lemma {:induction false} GotsGood<S(!new)>(t: Task<S>, bound: Option<int>, p: Node, pool: seq<S>, i: nat)
    requires Monotone(t) && InBox(t, p) && forall s | s in pool :: s in All(t, p)
    ensures GoodOf(t.m, bound, Gots(t, pool, i)) == GoodOf(t.m, bound, Gots(t, GoodOf(t.m, bound, pool), i))
    decreases |pool|
  {
    hide All, GoodOf, Gots;
    if pool == [] {
      GoodNone(t.m, bound, pool);
    } else {
      var (s, rest) := (pool[0], pool[1..]);
      assert pool == [s] + rest;
      GotsGood(t, bound, p, rest, i);
      GotsSplit(t, [s], rest, i);
      GoodSplit(t.m, bound, [s], rest);
      GoodSplit(t.m, bound, Gots(t, [s], i), Gots(t, rest, i));
      if Good(t.m, bound, s) {
        GoodAll(t.m, bound, s);
        GotsSplit(t, [s], GoodOf(t.m, bound, rest), i);
        GoodSplit(t.m, bound, Gots(t, [s], i), Gots(t, GoodOf(t.m, bound, rest), i));
      } else {
        GoodNone(t.m, bound, [s]);
        GotsOne(t, s, i);
        assert forall c | c in Gots(t, [s], i) :: !Good(t.m, bound, c) by { assert s in pool; }
        GoodNone(t.m, bound, Gots(t, [s], i));
        assert [] + GoodOf(t.m, bound, rest) == GoodOf(t.m, bound, rest);
      }
    }
  }

  lemma GoodAll<S>(m: System<S>, bound: Option<int>, s: S)
    requires Good(m, bound, s)
    ensures GoodOf(m, bound, [s]) == [s]
  {
    assert GoodOf(m, bound, [s][1..]) == [];
  }

  lemma GotsOne<S(!new)>(t: Task<S>, s: S, i: nat)
    ensures forall c | c in Gots(t, [s], i) :: t.m.legal(s, i) && t.m.apply(s, i) == Some(c)
  {
    assert Gots(t, [s][1..], i) == [];
  }

  lemma {:induction false} GotsSplit<S(!new)>(t: Task<S>, a: seq<S>, b: seq<S>, i: nat)
    ensures Gots(t, a + b, i) == Gots(t, a, i) + Gots(t, b, i)
    decreases |a|
  {
    if a == [] {
      assert a + b == b;
    } else {
      assert (a + b)[0] == a[0] && (a + b)[1..] == a[1..] + b;
      GotsSplit(t, a[1..], b, i);
    }
  }

  /** A node passed over has nothing to contribute below the best horizon, so what arrived
      is what there was to contribute. */
  lemma BlockGood<S(!new)>(t: Task<S>, bound: Option<int>, st: St<S>, p: Node, w: Node)
    requires Monotone(t) && Inv(t, st) && Tighter(t.m, bound, st.best) && InBox(t, w) && Behind(t, st, Level(w)) && p in st.order
    ensures GoodOf(t.m, bound, Block(t, st, [], 0, p, w)) == Share(t, bound, st, p, w)
  {
    hide All, GoodOf, Gots, NameFrom, Level, Lists, Heard, Monotone, Shape, Good;
    GoodNone<S>(t.m, bound, []);
    if NameFrom(p, w).Some? {
      var i := NameFrom(p, w).value;
      NameBack(p, w);
      ParentBox(t, w, i);
      if EdgeDone(st, [], 0, p, i) {
        GotsGood(t, bound, p, Pool(st, p), i);
      } else {
        assert p in st.order[..st.qi];
        GoodNone(t.m, bound, Pool(st, p));
        GotsEmpty(t, i);
      }
    }
  }

  lemma GotsEmpty<S(!new)>(t: Task<S>, i: nat)
    ensures Gots(t, [], i) == []
  {
  }

  lemma {:induction false} GoodArrived<S(!new)>(t: Task<S>, bound: Option<int>, st: St<S>, w: Node, n: nat, f: Node -> seq<S>)
    requires Monotone(t) && Inv(t, st) && Tighter(t.m, bound, st.best) && InBox(t, w) && Behind(t, st, Level(w))
    requires n <= |st.order| && forall p | p in st.order :: f(p) == Share(t, bound, st, p, w)
    ensures GoodOf(t.m, bound, Arrivals(t, st, [], 0, n, w)) == Concat(st.order[..n], f)
    decreases n
  {
    hide Inv, Monotone, Tighter, Behind, Level, GoodOf, Block, Share;
    if n == 0 {
      GoodNone<S>(t.m, bound, []);
    } else {
      GoodArrived(t, bound, st, w, n - 1, f);
      var p := st.order[n - 1];
      BlockGood(t, bound, st, p, w);
      GoodSplit(t.m, bound, Arrivals(t, st, [], 0, n - 1, w), Block(t, st, [], 0, p, w));
      assert st.order[..n][..n - 1] == st.order[..n - 1] && st.order[..n][n - 1] == p;
    }
  }

  /** Below the bound, a pool is what its parents have to contribute, in queue order, trimmed. */
  lemma PoolShares<S(!new)>(t: Task<S>, bound: Option<int>, st: St<S>, w: Node, f: Node -> seq<S>)
    requires Monotone(t) && Inv(t, st) && Tighter(t.m, bound, st.best) && InBox(t, w) && Level(w) > 0 && Behind(t, st, Level(w))
    requires forall p | p in st.order :: f(p) == Share(t, bound, st, p, w)
    ensures GoodOf(t.m, bound, Pool(st, w)) == Trim(t.m, Concat(st.order, f), t.keep)
    ensures forall s | s in Concat(st.order, f) :: s in All(t, w) && Good(t.m, bound, s)
  {
    hide Shape, Heard, Skipped, Monotone, Tighter, Behind, Level, GoodOf, Arrivals, Share, Trim, All, Inside;
    var got := Arrivals(t, st, [], 0, |st.order|, w);
    GoodArrived(t, bound, st, w, |st.order|, f);
    assert st.order[..|st.order|] == st.order;
    GoodTrim(t.m, bound, got, t.keep);
    GoodMembers(t.m, bound, got);
    ArrivedInAll(t, st, [], 0, w);
    assert Arrived(t, st, [], 0, w) == got;
  }

  /** Two parents contribute, one before the other. */
  lemma TwoParents<S(!new)>(t: Task<S>, bound: Option<int>, st: St<S>, w: Node, i: nat, j: nat)
    requires Monotone(t) && Inv(t, st) && Tighter(t.m, bound, st.best) && InBox(t, w) && Level(w) > 0 && Behind(t, st, Level(w))
    requires i < |w| && j < |w| && i != j && w[i] > 0 && w[j] > 0
    requires forall n: nat | n < |w| && w[n] > 0 && n != i && n != j :: Share(t, bound, st, Down(w, n), w) == []
    requires Share(t, bound, st, Down(w, i), w) != [] && Share(t, bound, st, Down(w, j), w) != []
             ==> Precedes(st.order, Down(w, i), Down(w, j))
    ensures GoodOf(t.m, bound, Pool(st, w))
         == Trim(t.m, Share(t, bound, st, Down(w, i), w) + Share(t, bound, st, Down(w, j), w), t.keep)
  {
    hide Inv, Monotone, Tighter, Behind, Level, GoodOf, Share, Trim, Concat, Distinct, Precedes;
    var (f, u, v) := (p => Share(t, bound, st, p, w), Down(w, i), Down(w, j));
    assert u != v by { assert u[i] != v[i]; }
    PoolShares(t, bound, st, w, f);
    QueueDistinct(t, st);
    forall p | f(p) != [] ensures p in st.order && (p == u || p == v) { Contributes(t, bound, st, p, w); }
    ConcatTwo(st.order, f, u, v);
  }

  /** One parent contributes. */
  lemma OneParent<S(!new)>(t: Task<S>, bound: Option<int>, st: St<S>, w: Node, i: nat)
    requires Monotone(t) && Inv(t, st) && Tighter(t.m, bound, st.best) && InBox(t, w) && Level(w) > 0 && Behind(t, st, Level(w))
    requires i < |w| && w[i] > 0
    requires forall n: nat | n < |w| && w[n] > 0 && n != i :: Share(t, bound, st, Down(w, n), w) == []
    ensures GoodOf(t.m, bound, Pool(st, w)) == Trim(t.m, Share(t, bound, st, Down(w, i), w), t.keep)
  {
    hide Inv, Monotone, Tighter, Behind, Level, GoodOf, Share, Trim, Concat;
    var (f, u) := (p => Share(t, bound, st, p, w), Down(w, i));
    PoolShares(t, bound, st, w, f);
    QueueDistinct(t, st);
    forall p | f(p) != [] ensures p in st.order && p == u { Contributes(t, bound, st, p, w); }
    ConcatSame(st.order, [u], f);
    ConcatUnit(f, u);
  }

  lemma ConcatUnit<S>(f: Node -> seq<S>, u: Node)
    ensures Concat([u], f) == f(u)
  {
    assert [u][..0] == [];
  }

  lemma ConcatTwo<S(!new)>(l: seq<Node>, f: Node -> seq<S>, u: Node, v: Node)
    requires Distinct(l) && u != v && forall p | f(p) != [] :: p in l && (p == u || p == v)
    requires f(u) != [] && f(v) != [] ==> Precedes(l, u, v)
    ensures Concat(l, f) == f(u) + f(v)
  {
    hide Concat;
    assert [u, v][0] == u && [u, v][1] == v;
    assert Precedes([u, v], u, v);
    ConcatSame(l, [u, v], f);
    ConcatPair(f, u, v);
  }

  lemma ConcatPair<S>(f: Node -> seq<S>, u: Node, v: Node)
    ensures Concat([u, v], f) == f(u) + f(v)
  {
    assert [u, v][..1] == [u];
    ConcatUnit(f, u);
  }

  // ---- where two queues may differ ----

  /** Those of the parents of `w` that both queues hold come in the same order. */
  ghost predicate SameWay(x: seq<Node>, y: seq<Node>, w: Node) {
    forall i: nat, j: nat | i < |w| && j < |w| && w[i] > 0 && w[j] > 0 ::
      Precedes(x, Down(w, i), Down(w, j)) && Down(w, i) in y && Down(w, j) in y ==> Precedes(y, Down(w, i), Down(w, j))
  }

  /** The queues agree on the parents of `w`, or no two of its states tie below the limit. */
  ghost predicate NodeOk<S(!new)>(t: Task<S>, lim: Option<int>, x: seq<Node>, y: seq<Node>, w: Node) {
    SameWay(x, y, w) || TieFree(t.m, Below(t.m, lim, All(t, w)))
  }

  ghost predicate AllOk<S(!new)>(t: Task<S>, lim: Option<int>, x: seq<Node>, y: seq<Node>)
    requires t.Ok()
  {
    forall w | InBox(t, w) && !Done(t, w) :: NodeOk(t, lim, x, y, w)
  }

  /** Both searches are at or past `w`, and the bound is below what they have found. */
  ghost predicate Comparable<S(!new)>(t: Task<S>, bound: Option<int>, a: St<S>, b: St<S>, w: Node) {
    && Inv(t, a) && Inv(t, b) && Tighter(t.m, bound, a.best) && Tighter(t.m, bound, b.best)
    && InBox(t, w) && Behind(t, a, Level(w)) && Behind(t, b, Level(w))
  }

  lemma {:induction false} SamePools<S(!new)>(t: Task<S>, bound: Option<int>, a: St<S>, b: St<S>, w: Node)
    requires Monotone(t) && Comparable(t, bound, a, b, w) && AllOk(t, bound, a.order, b.order)
    ensures GoodOf(t.m, bound, Pool(a, w)) == GoodOf(t.m, bound, Pool(b, w))
    decreases Level(w)
  {
    hide Monotone, NodeOk, GoodOf, Pool, Inv, Done;
    if Level(w) == 0 {
      AtRoot(t, a, w);
      AtRoot(t, b, w);
    } else if IsDone(t, a, w) {
      DonePool(t, bound, a, w);
      DonePool(t, bound, b, w);
    } else {
      forall p | NameFrom(p, w).Some? ensures GoodOf(t.m, bound, Pool(a, p)) == GoodOf(t.m, bound, Pool(b, p)) {
        NameBack(p, w);
        ParentBox(t, w, NameFrom(p, w).value);
        SamePools(t, bound, a, b, p);
      }
      SameHere(t, bound, a, b, w);
    }
  }

  ghost predicate IsDone<S(!new)>(t: Task<S>, st: St<S>, w: Node)
    requires Inv(t, st) && InBox(t, w)
  {
    Done(t, w)
  }

  lemma AtRoot<S(!new)>(t: Task<S>, st: St<S>, w: Node)
    requires Inv(t, st) && InBox(t, w) && Level(w) == 0
    ensures Pool(st, w) == [t.start]
  {
    ZeroLevel(w);
    assert w == Root(t);
  }

  /** States that completed are not below the best horizon. */
  lemma DonePool<S(!new)>(t: Task<S>, bound: Option<int>, st: St<S>, w: Node)
    requires Inv(t, st) && Tighter(t.m, bound, st.best) && InBox(t, w) && Level(w) > 0 && Done(t, w)
    ensures GoodOf(t.m, bound, Pool(st, w)) == []
  {
    hide Shape, Skipped, Inside, Arrived, Trim, GoodOf, Level;
    var got := Arrived(t, st, [], 0, w);
    GoodNone(t.m, bound, got);
    GoodTrim(t.m, bound, got, t.keep);
    TrimNothing(t.m, t.keep);
  }

  lemma SameHere<S(!new)>(t: Task<S>, bound: Option<int>, a: St<S>, b: St<S>, w: Node)
    requires Monotone(t) && Comparable(t, bound, a, b, w) && Level(w) > 0 && NodeOk(t, bound, a.order, b.order, w)
    requires forall p | NameFrom(p, w).Some? :: GoodOf(t.m, bound, Pool(a, p)) == GoodOf(t.m, bound, Pool(b, p))
    ensures GoodOf(t.m, bound, Pool(a, w)) == GoodOf(t.m, bound, Pool(b, w))
  {
    hide Monotone, GoodOf, Pool, Inv, Tighter, Behind, Level, All, Gots, Concat, Trim, TieFree, SameWay, NameFrom;
    var f := p => Share(t, bound, a, p, w);
    PoolShares(t, bound, a, w, f);
    PoolShares(t, bound, b, w, f);
    if SameWay(a.order, b.order, w) {
      QueueDistinct(t, a);
      QueueDistinct(t, b);
      SharesSameWay(t, bound, a, b, w, f);
    } else {
      SharesTieFree(t, bound, a, b, w, f);
    }
  }

  lemma Contributes<S(!new)>(t: Task<S>, bound: Option<int>, st: St<S>, p: Node, w: Node)
    requires Inv(t, st) && Share(t, bound, st, p, w) != []
    ensures p in st.order && exists i: nat :: i < |w| && w[i] > 0 && p == Down(w, i)
  {
    hide Inv, NameFrom;
    QueueDistinct(t, st);
    NameBack(p, w);
    if Pool(st, p) == [] { NoShare(t, bound, st, p, w); }
  }

  lemma NoShare<S(!new)>(t: Task<S>, bound: Option<int>, st: St<S>, p: Node, w: Node)
    requires Pool(st, p) == []
    ensures Share(t, bound, st, p, w) == []
  {
    hide NameFrom, GoodOf, Gots;
    GoodNone<S>(t.m, bound, []);
    if NameFrom(p, w).Some? { GotsEmpty(t, NameFrom(p, w).value); }
  }

  lemma SharesSameWay<S(!new)>(t: Task<S>, bound: Option<int>, a: St<S>, b: St<S>, w: Node, f: Node -> seq<S>)
    requires Inv(t, a) && Inv(t, b) && SameWay(a.order, b.order, w) && Distinct(a.order) && Distinct(b.order)
    requires forall p :: f(p) == Share(t, bound, a, p, w) && f(p) == Share(t, bound, b, p, w)
    ensures Concat(a.order, f) == Concat(b.order, f)
  {
    hide Inv, Share, Precedes, Distinct, Concat;
    forall u | f(u) != [] ensures u in a.order && u in b.order && exists i: nat :: i < |w| && w[i] > 0 && u == Down(w, i) {
      Contributes(t, bound, a, u, w);
      Contributes(t, bound, b, u, w);
    }
    forall u, v | f(u) != [] && f(v) != [] && Precedes(a.order, u, v) ensures Precedes(b.order, u, v) {
      var i: nat :| i < |w| && w[i] > 0 && u == Down(w, i);
      var j: nat :| j < |w| && w[j] > 0 && v == Down(w, j);
    }
    ConcatSame(a.order, b.order, f);
  }

  lemma SharesTieFree<S(!new)>(t: Task<S>, bound: Option<int>, a: St<S>, b: St<S>, w: Node, f: Node -> seq<S>)
    requires Inv(t, a) && Inv(t, b) && TieFree(t.m, Below(t.m, bound, All(t, w)))
    requires forall p :: f(p) == Share(t, bound, a, p, w) && f(p) == Share(t, bound, b, p, w)
    requires forall s | s in Concat(a.order, f) :: s in All(t, w) && Good(t.m, bound, s)
    ensures Trim(t.m, Concat(a.order, f), t.keep) == Trim(t.m, Concat(b.order, f), t.keep)
  {
    hide Inv, Share, Concat, All, Trim, Good, Before;
    forall s ensures s in Concat(a.order, f) <==> s in Concat(b.order, f) {
      ConcatHas(a.order, f, s);
      ConcatHas(b.order, f, s);
      forall p | s in f(p) ensures p in a.order && p in b.order {
        Contributes(t, bound, a, p, w);
        Contributes(t, bound, b, p, w);
      }
    }
    assert TieFree(t.m, Elements(Concat(a.order, f)));
    TrimSame(t.m, Concat(a.order, f), Concat(b.order, f), t.keep);
  }

  // ---- the best horizon ----

  /** What one search found, the other, over, has found as well or better. */
  lemma NotWorse<S(!new)>(t: Task<S>, prune: bool, j: nat, b: St<S>)
    requires t.Ok() && Monotone(t) && Inv(t, b) && b.qi == |b.order| && Steps(t, prune, j).best.Some?
    requires AllOk(t, UpTo(Steps(t, prune, j).best), Steps(t, prune, j).order, b.order)
    ensures b.best.Some? && b.best.value <= Steps(t, prune, j).best.value
  {
    hide Inv, Monotone, AllOk, Steps, Improves, Tighter;
    var best := Steps(t, prune, j).best;
    var k, i, c := Cause(t, prune, j);
    var a := Steps(t, prune, k);
    StepsInv(t, prune, k);
    StepsInv(t, prune, j);
    OrderGrows(t, prune, k, j);
    if b.best.None? || b.best.value > best.value {
      TighterBy(t, best.value, a, b, i, c);
      AllOkPrefix(t, UpTo(best), a.order, Steps(t, prune, j).order, b.order);
      ImprovesBoth(t, UpTo(best), a, b, i, c);
    }
  }

  lemma TighterBy<S(!new)>(t: Task<S>, h: int, a: St<S>, b: St<S>, i: nat, c: S)
    requires t.Ok() && !Over(t, a) && Improves(t, a, a.order[a.qi], i, c) && t.m.horizon(c) == h && (b.best.None? || b.best.value > h)
    ensures Tighter(t.m, Some(h + 1), a.best) && Tighter(t.m, Some(h + 1), b.best)
  {
  }

  lemma AllOkPrefix<S(!new)>(t: Task<S>, lim: Option<int>, x: seq<Node>, longer: seq<Node>, y: seq<Node>)
    requires t.Ok() && x <= longer && AllOk(t, lim, longer, y)
    ensures AllOk(t, lim, x, y)
  {
    hide TieFree, All;
    forall u, v | Precedes(x, u, v) ensures Precedes(longer, u, v) {
      var i, j :| 0 <= i < j < |x| && x[i] == u && x[j] == v;
      assert longer[i] == u && longer[j] == v;
    }
    forall w | InBox(t, w) && !Done(t, w) ensures NodeOk(t, lim, x, y, w) {
      hide Precedes;
      assert NodeOk(t, lim, longer, y, w);
    }
  }

  /** A state that improved one search's best has been offered to the other too. */
  lemma ImprovesBoth<S(!new)>(t: Task<S>, bound: Option<int>, a: St<S>, b: St<S>, i: nat, c: S)
    requires Monotone(t) && Inv(t, a) && Inv(t, b) && !Over(t, a) && b.qi == |b.order|
    requires Tighter(t.m, bound, a.best) && AllOk(t, bound, a.order, b.order)
    requires Improves(t, a, a.order[a.qi], i, c) && Good(t.m, bound, c)
    ensures !Tighter(t.m, bound, b.best)
  {
    hide Lists, Inside, Skipped, Heard, Monotone, AllOk, Tighter, Gots, GoodOf, Arrived, Done, Level, Good;
    if Tighter(t.m, bound, b.best) {
      var v := a.order[a.qi];
      BehindHead(t, a);
      assert b.order[..b.qi] == b.order;
      SamePools(t, bound, a, b, v);
      LevelUp(v, i);
      UpInBox(t, v, i);
      BothBuy(t, bound, a, b, v, i, c);
      TighterAt(t.m, bound, b.best, c);
      HeardAll(t, b, Up(v, i), c);
    }
  }

  lemma TighterAt<S(!new)>(m: System<S>, bound: Option<int>, best: Option<int>, c: S)
    requires Tighter(m, bound, best) && Good(m, bound, c)
    ensures Good(m, best, c)
  {
  }

  lemma HeardAll<S(!new)>(t: Task<S>, st: St<S>, w: Node, c: S)
    requires Inv(t, st) && InBox(t, w) && Level(w) > 0 && Done(t, w) && c in Arrived(t, st, [], 0, w)
    ensures !Good(t.m, st.best, c)
  {
  }

  lemma BothBuy<S(!new)>(t: Task<S>, bound: Option<int>, a: St<S>, b: St<S>, v: Node, i: nat, c: S)
    requires Monotone(t) && Inv(t, a) && Inv(t, b) && Tighter(t.m, bound, b.best) && b.qi == |b.order|
    requires InBox(t, v) && i < |v| && InBox(t, Up(v, i)) && c in Gots(t, Pool(a, v), i) && Good(t.m, bound, c)
    requires GoodOf(t.m, bound, Pool(a, v)) == GoodOf(t.m, bound, Pool(b, v))
    ensures c in Arrived(t, b, [], 0, Up(v, i))
  {
    hide Lists, Shape, Skipped, Heard, Monotone, Tighter, Gots, GoodOf, Arrivals, NameFrom, Good, Level, All, Edge, Block;
    var w := Up(v, i);
    var s := BoughtFrom(t, bound, a, v, i, c);
    GoodMembers(t.m, bound, Pool(a, v));
    GoodMembers(t.m, bound, Pool(b, v));
    assert s in Elements(Pool(b, v));
    EdgeHas(t, Elements(Pool(b, v)), i, s);
    GotsIs(t, Pool(b, v), i);
    assert c in Elements(Gots(t, Pool(b, v), i));
    assert Good(t.m, b.best, s) by { TighterAt(t.m, bound, b.best, s); }
    assert b.order[..b.qi] == b.order;
    LevelUp(v, i);
    NotSkipped(t, b, v, s, Level(w));
    ExpandedListed(t, b, v);
    NameIs(v, i);
    assert c in Block(t, b, [], 0, v, w) by { BlockIs(t, b, v, i); }
    var k :| 0 <= k < |b.order| && b.order[k] == v;
    ArrivalHas(t, b, [], 0, |b.order|, k, w);
  }

  lemma BlockIs<S(!new)>(t: Task<S>, st: St<S>, v: Node, i: nat)
    requires i < |v| && v in st.expanded
    ensures Block(t, st, [], 0, v, Up(v, i)) == Gots(t, Pool(st, v), i)
  {
    NameIs(v, i);
  }

  lemma BoughtFrom<S(!new)>(t: Task<S>, bound: Option<int>, st: St<S>, v: Node, i: nat, c: S) returns (s: S)
    requires Monotone(t) && Inside(t, st) && InBox(t, v) && c in Gots(t, Pool(st, v), i) && Good(t.m, bound, c)
    ensures s in Pool(st, v) && Good(t.m, bound, s) && t.m.legal(s, i) && t.m.apply(s, i) == Some(c)
  {
    hide Monotone, Gots, All, Good, Edge;
    GotsIs(t, Pool(st, v), i);
    assert c in Elements(Gots(t, Pool(st, v), i));
    s := GoodFrom(t, bound, v, Elements(Pool(st, v)), i, c);
  }

  lemma SameWayFlip(x: seq<Node>, y: seq<Node>, w: Node)
    requires SameWay(x, y, w) && Distinct(x) && Distinct(y)
    ensures SameWay(y, x, w)
  {
    forall i: nat, j: nat | i < |w| && j < |w| && w[i] > 0 && w[j] > 0 && Precedes(y, Down(w, i), Down(w, j)) && Down(w, i) in x && Down(w, j) in x
      ensures Precedes(x, Down(w, i), Down(w, j))
    {
      var (u, v) := (Down(w, i), Down(w, j));
      var m, n :| 0 <= m < n < |y| && y[m] == u && y[n] == v;
      var k :| 0 <= k < |x| && x[k] == u;
      var l :| 0 <= l < |x| && x[l] == v;
      assert l < k ==> Precedes(x, v, u);
    }
  }

  lemma AllOkFlip<S(!new)>(t: Task<S>, lim: Option<int>, x: seq<Node>, y: seq<Node>)
    requires t.Ok() && AllOk(t, lim, x, y) && Distinct(x) && Distinct(y)
    ensures AllOk(t, lim, y, x)
  {
    hide Distinct, SameWay, TieFree, All;
    forall w | InBox(t, w) && !Done(t, w) ensures NodeOk(t, lim, y, x, w) {
      assert NodeOk(t, lim, x, y, w);
      if SameWay(x, y, w) { SameWayFlip(x, y, w); }
    }
  }

  /** Two searches that are over have the same best horizon, whether or not they pruned, as
      long as at every node where something required is missing no two states tie at or
      below that horizon or the queues hold its parents in the same order. */
  lemma SameBest<S(!new)>(t: Task<S>, p: bool, j: nat, q: bool, k: nat)
    requires t.Ok() && Monotone(t)
    requires Steps(t, p, j).qi == |Steps(t, p, j).order| && Steps(t, q, k).qi == |Steps(t, q, k).order|
    requires AllOk(t, UpTo(Cut(Steps(t, p, j).best, Steps(t, q, k).best)), Steps(t, p, j).order, Steps(t, q, k).order)
    ensures Steps(t, p, j).best == Steps(t, q, k).best
  {
    hide Inv, Monotone, AllOk, Steps;
    var (a, b) := (Steps(t, p, j), Steps(t, q, k));
    StepsInv(t, p, j);
    StepsInv(t, q, k);
    QueueDistinct(t, a);
    QueueDistinct(t, b);
    AllOkFlip(t, UpTo(Cut(a.best, b.best)), a.order, b.order);
    if a.best.Some? && (b.best.None? || a.best.value <= b.best.value) {
      NotWorse(t, p, j, b);
    } else if b.best.Some? {
      NotWorse(t, q, k, a);
    }
  }
}
