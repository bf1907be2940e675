/** What every run of the search keeps, pruned or not and whatever ties: each pool is its
    arrivals, in the order of the queue, trimmed once. */
module DpRun {
  import opened Arith
  import opened Costs
  import opened DpSets
  import opened DpLists
  import opened DpModel

  /** The queue: nodes in the box, each once, by level, at most one level past the next. */
  ghost predicate Shape<S(!new)>(t: Task<S>, st: St<S>) {
    && st.qi <= |st.order| && st.nodes.Keys == Elements(st.order) && st.order != [] && st.order[0] == Root(t)
    && (forall k | 0 <= k < |st.order| :: InBox(t, st.order[k]))
    && (forall j, k | 0 <= j < k < |st.order| :: st.order[j] != st.order[k] && Level(st.order[j]) <= Level(st.order[k]))
    && (forall p | p in st.expanded :: p in st.order[..st.qi])
    && (st.qi < |st.order| ==> forall k | 0 <= k < |st.order| :: Level(st.order[k]) <= Level(st.order[st.qi]) + 1)
  }

  // ---- arrivals ----

  /** The name whose purchase leads from `p` to `w`. */
  ghost function NameFrom(p: Node, w: Node): Option<nat> {
    if exists i: nat :: i < |p| && w == Up(p, i) then var i: nat :| i < |p| && w == Up(p, i); Some(i) else None
  }

  lemma NameIs(p: Node, i: nat)
    requires i < |p|
    ensures NameFrom(p, Up(p, i)) == Some(i)
  {
    forall j: nat | j < |p| && Up(p, i) == Up(p, j) ensures j == i { assert Up(p, i)[i] == p[i] + 1; }
  }

  lemma NameBack(p: Node, w: Node)
    requires NameFrom(p, w).Some?
    ensures var i := NameFrom(p, w).value; i < |p| && w == Up(p, i) && i < |w| && w[i] > 0 && Down(w, i) == p
  {
    var i := NameFrom(p, w).value;
    assert Down(Up(p, i), i) == p;
  }

  lemma NameDown(w: Node, i: nat)
    requires i < |w| && w[i] > 0
    ensures NameFrom(Down(w, i), w) == Some(i)
  {
    assert Up(Down(w, i), i) == w;
    NameIs(Down(w, i), i);
  }

  /** The purchases already made: all from an expanded node, the first `upto` from `v`. */
  ghost predicate EdgeDone<S(!new)>(st: St<S>, v: Node, upto: nat, p: Node, i: nat) {
    p in st.expanded || (p == v && i < upto)
  }

  /** What `p` has contributed to `w`. */
  ghost function Block<S(!new)>(t: Task<S>, st: St<S>, v: Node, upto: nat, p: Node, w: Node): seq<S> {
    match NameFrom(p, w)
    case None => []
    case Some(i) => if EdgeDone(st, v, upto, p, i) then Gots(t, Pool(st, p), i) else []
  }

  /** What the first `n` nodes of the queue have contributed to `w`, in turn. */
  ghost function Arrivals<S(!new)>(t: Task<S>, st: St<S>, v: Node, upto: nat, n: nat, w: Node): seq<S>
    requires n <= |st.order|
  {
    if n == 0 then [] else Arrivals(t, st, v, upto, n - 1, w) + Block(t, st, v, upto, st.order[n - 1], w)
  }

  ghost function Arrived<S(!new)>(t: Task<S>, st: St<S>, v: Node, upto: nat, w: Node): seq<S> {
    Arrivals(t, st, v, upto, |st.order|, w)
  }

  /** Every pool is its arrivals, trimmed once. */
  ghost predicate Lists<S(!new)>(t: Task<S>, st: St<S>, v: Node, upto: nat) {
    && Pool(st, Root(t)) == [t.start]
    && forall w | InBox(t, w) && Level(w) > 0 :: Pool(st, w) == Trim(t.m, Arrived(t, st, v, upto, w), t.keep)
  }

  ghost predicate Inside<S(!new)>(t: Task<S>, st: St<S>) {
    forall w, s | InBox(t, w) && s in Pool(st, w) :: s in All(t, w)
  }

  /** A node passed over has no state below the best horizon. */
  ghost predicate Skipped<S(!new)>(t: Task<S>, st: St<S>) {
    && st.qi <= |st.order|
    && forall p, s | p in st.order[..st.qi] && p !in st.expanded && s in Pool(st, p) :: !Good(t.m, st.best, s)
  }

  /** No state that completed is below the best horizon. */
  ghost predicate Heard<S(!new)>(t: Task<S>, st: St<S>, v: Node, upto: nat)
    requires t.Ok()
  {
    forall w, c | InBox(t, w) && Level(w) > 0 && Done(t, w) && c in Arrived(t, st, v, upto, w) :: !Good(t.m, st.best, c)
  }

  /** Node `v` is being visited. */
  ghost predicate Here<S(!new)>(t: Task<S>, st: St<S>, v: Node) {
    t.Ok() && Shape(t, st) && st.qi < |st.order| && st.order[st.qi] == v && InBox(t, v)
  }

  /** Between two purchases from `v`, the first `upto` made. */
  ghost predicate Mid<S(!new)>(t: Task<S>, st: St<S>, v: Node, upto: nat) {
    Here(t, st, v) && Lists(t, st, v, upto) && Inside(t, st) && Skipped(t, st) && Heard(t, st, v, upto)
  }

  /** Between two visits. */
  ghost predicate Inv<S(!new)>(t: Task<S>, st: St<S>) {
    t.Ok() && Shape(t, st) && Lists(t, st, [], 0) && Inside(t, st) && Skipped(t, st) && Heard(t, st, [], 0)
  }

  // ---- states of a node ----

  lemma {:induction false} GotsIs<S(!new)>(t: Task<S>, pool: seq<S>, i: nat)
    ensures Elements(Gots(t, pool, i)) == Edge(t, Elements(pool), i)
    decreases |pool|
  {
    if pool != [] {
      var (s, rest) := (pool[0], pool[1..]);
      GotsIs(t, rest, i);
      assert pool == [s] + rest;
      var head := if t.m.legal(s, i) && t.m.apply(s, i).Some? then [t.m.apply(s, i).value] else [];
      assert Gots(t, pool, i) == head + Gots(t, rest, i);
      assert Elements(Gots(t, pool, i)) == Elements(head) + Elements(Gots(t, rest, i));
      assert Elements(pool) == {s} + Elements(rest);
    }
  }

  lemma {:induction false} AllFromHas<S(!new)>(t: Task<S>, w: Node, k: nat, i: nat)
    requires k <= i < |w| && w[i] > 0
    ensures Edge(t, All(t, Down(w, i)), i) <= AllFrom(t, w, k)
    decreases i - k
  {
    hide Edge, All;
    if k < i { AllFromHas(t, w, k + 1, i); }
  }

  lemma EdgeGrows<S(!new)>(t: Task<S>, a: set<S>, b: set<S>, i: nat)
    requires a <= b
    ensures Edge(t, a, i) <= Edge(t, b, i)
  {
  }

  lemma EdgeInAll<S(!new)>(t: Task<S>, w: Node, i: nat, a: set<S>)
    requires i < |w| && w[i] > 0 && a <= All(t, Down(w, i))
    ensures Edge(t, a, i) <= All(t, w)
  {
    hide Edge, AllFrom;
    LevelDown(w, i);
    AllFromHas(t, w, 0, i);
    EdgeGrows(t, a, All(t, Down(w, i)), i);
  }

  lemma {:induction false} AllFromCases<S(!new)>(t: Task<S>, w: Node, k: nat, s: S) returns (i: nat, from: S)
    requires k <= |w| && s in AllFrom(t, w, k)
    ensures k <= i < |w| && w[i] > 0 && from in All(t, Down(w, i))
    ensures t.m.legal(from, i) && t.m.apply(from, i) == Some(s)
    decreases |w| - k
  {
    hide All;
    if w[k] > 0 && s in Edge(t, All(t, Down(w, k)), k) {
      i := k;
      from :| from in All(t, Down(w, k)) && t.m.legal(from, k) && t.m.apply(from, k).Some? && t.m.apply(from, k).value == s;
    } else {
      i, from := AllFromCases(t, w, k + 1, s);
    }
  }

  /** A state with purchases was bought from one with one purchase less. */
  lemma AllCases<S(!new)>(t: Task<S>, w: Node, s: S) returns (i: nat, from: S)
    requires Level(w) > 0 && s in All(t, w)
    ensures i < |w| && w[i] > 0 && from in All(t, Down(w, i)) && Level(Down(w, i)) == Level(w) - 1
    ensures t.m.legal(from, i) && t.m.apply(from, i) == Some(s)
  {
    i, from := AllFromCases(t, w, 0, s);
    LevelDown(w, i);
  }

  lemma ParentBox<S(!new)>(t: Task<S>, w: Node, i: nat)
    requires InBox(t, w) && i < |w| && w[i] > 0
    ensures InBox(t, Down(w, i)) && Level(Down(w, i)) == Level(w) - 1
  {
    LevelDown(w, i);
  }

  /** Where an arrival came from. */
  lemma {:induction false} ArrivalCases<S(!new)>(t: Task<S>, st: St<S>, v: Node, upto: nat, n: nat, w: Node, c: S) returns (p: Node, i: nat)
    requires n <= |st.order| && c in Arrivals(t, st, v, upto, n, w)
    ensures p in st.order[..n] && NameFrom(p, w) == Some(i) && EdgeDone(st, v, upto, p, i) && c in Gots(t, Pool(st, p), i)
    decreases n
  {
    hide NameFrom, Gots, EdgeDone;
    assert st.order[..n] == st.order[..n - 1] + [st.order[n - 1]];
    if c in Arrivals(t, st, v, upto, n - 1, w) {
      p, i := ArrivalCases(t, st, v, upto, n - 1, w, c);
    } else {
      p := st.order[n - 1];
      i := NameFrom(p, w).value;
    }
  }

  lemma {:induction false} ArrivalHas<S(!new)>(t: Task<S>, st: St<S>, v: Node, upto: nat, n: nat, k: nat, w: Node)
    requires k < n <= |st.order|
    ensures forall c | c in Block(t, st, v, upto, st.order[k], w) :: c in Arrivals(t, st, v, upto, n, w)
    decreases n
  {
    hide Block;
    if k < n - 1 { ArrivalHas(t, st, v, upto, n - 1, k, w); }
  }

  lemma ArrivedInAll<S(!new)>(t: Task<S>, st: St<S>, v: Node, upto: nat, w: Node)
    requires Inside(t, st) && InBox(t, w)
    ensures forall c | c in Arrived(t, st, v, upto, w) :: c in All(t, w)
  {
    hide All, Gots, NameFrom, Edge, Arrivals;
    forall c | c in Arrived(t, st, v, upto, w) ensures c in All(t, w) {
      var p, i := ArrivalCases(t, st, v, upto, |st.order|, w, c);
      NameBack(p, w);
      ParentBox(t, w, i);
      GotsIs(t, Pool(st, p), i);
      assert c in Elements(Gots(t, Pool(st, p), i));
      EdgeInAll(t, w, i, Elements(Pool(st, p)));
    }
  }

  // ---- one purchase ----

  /** A child is later in the queue than everything visited. */
  lemma LateChild<S(!new)>(t: Task<S>, st: St<S>, v: Node, i: nat)
    requires Here(t, st, v) && i < |v|
    ensures Up(v, i) !in st.order[..st.qi] && Up(v, i) !in st.expanded && Up(v, i) != v && v !in st.expanded
    ensures Level(Up(v, i)) == Level(v) + 1 && forall k | 0 <= k < |st.order| :: Level(st.order[k]) <= Level(Up(v, i))
  {
    hide Level;
    LevelUp(v, i);
  }

  lemma ChildShape<S(!new)>(t: Task<S>, st: St<S>, v: Node, i: nat)
    requires Here(t, st, v) && i < |v| && v[i] < t.cap[i]
    ensures Shape(t, st.(order := if Up(v, i) in st.order then st.order else st.order + [Up(v, i)],
                         nodes := st.nodes[Up(v, i) := []]))
  {
    hide Level, InBox, Up;
    var child := Up(v, i);
    LateChild(t, st, v, i);
    UpInBox(t, v, i);
    if child !in st.order {
      var order := st.order + [child];
      assert forall k | 0 <= k < |st.order| :: order[k] == st.order[k];
      assert order[..st.qi] == st.order[..st.qi];
      assert Elements(order) == Elements(st.order) + {child};
    } else {
      assert child in Elements(st.order);
    }
  }

  lemma UpInBox<S(!new)>(t: Task<S>, v: Node, i: nat)
    requires InBox(t, v) && i < |v| && v[i] < t.cap[i]
    ensures InBox(t, Up(v, i))
  {
  }

  lemma ChildFrame<S(!new)>(t: Task<S>, st: St<S>, v: Node, i: nat)
    requires Here(t, st, v) && i < |v|
    ensures var next := Child(t, st, v, i);
            && Here(t, next, v) && next.qi == st.qi && next.expanded == st.expanded
            && st.order <= next.order && next.order[..st.qi] == st.order[..st.qi]
            && (next.order == st.order || next.order == st.order + [Up(v, i)])
            && (forall p | p != Up(v, i) :: Pool(next, p) == Pool(st, p))
  {
    hide Gots, Trim, Offer, Level, Shape;
    if v[i] < t.cap[i] && Gots(t, Pool(st, v), i) != [] {
      ChildShape(t, st, v, i);
      ShapeReads(t, st.(order := if Up(v, i) in st.order then st.order else st.order + [Up(v, i)],
                        nodes := st.nodes[Up(v, i) := []]), Child(t, st, v, i));
    }
  }

  /** The shape does not depend on what the pools hold. */
  lemma ShapeReads<S(!new)>(t: Task<S>, a: St<S>, b: St<S>)
    requires Shape(t, a) && b.nodes.Keys == a.nodes.Keys && b.order == a.order && b.qi == a.qi && b.expanded == a.expanded
    ensures Shape(t, b)
  {
    hide Level, InBox;
  }

  lemma BlockSame<S(!new)>(t: Task<S>, st: St<S>, v: Node, i: nat, p: Node, w: Node)
    requires Here(t, st, v) && i < |v| && (w != Up(v, i) || p != v)
    ensures Block(t, Child(t, st, v, i), v, i + 1, p, w) == Block(t, st, v, i, p, w)
  {
    hide Shape, Child, Gots, Pool, NameFrom;
    ChildFrame(t, st, v, i);
    LateChild(t, st, v, i);
    if NameFrom(p, w).Some? { NameBack(p, w); }
  }

  lemma {:induction false} ArrivalsSame<S(!new)>(
    t: Task<S>, a: St<S>, v: Node, m: nat, b: St<S>, u: Node, n: nat, k: nat, w: Node)
    requires k <= |a.order| && k <= |b.order| && a.order[..k] == b.order[..k]
    requires forall j | 0 <= j < k :: Block(t, a, v, m, a.order[j], w) == Block(t, b, u, n, a.order[j], w)
    ensures Arrivals(t, a, v, m, k, w) == Arrivals(t, b, u, n, k, w)
    decreases k
  {
    hide Block;
    if k > 0 {
      assert a.order[..k - 1] == a.order[..k][..k - 1] == b.order[..k][..k - 1] == b.order[..k - 1];
      assert a.order[k - 1] == a.order[..k][k - 1] == b.order[..k][k - 1] == b.order[k - 1];
      ArrivalsSame(t, a, v, m, b, u, n, k - 1, w);
    }
  }

  /** Nodes behind the visited one in the queue have contributed nothing yet. */
  lemma {:induction false} NothingAfter<S(!new)>(t: Task<S>, st: St<S>, v: Node, upto: nat, n: nat, w: Node)
    requires Here(t, st, v) && st.qi < n <= |st.order|
    ensures Arrivals(t, st, v, upto, n, w) == Arrivals(t, st, v, upto, st.qi + 1, w)
    decreases n
  {
    hide Gots, NameFrom, Shape;
    if n > st.qi + 1 {
      NothingAfter(t, st, v, upto, n - 1, w);
      NotYet(t, st, v, n - 1);
    }
  }

  lemma NotYet<S(!new)>(t: Task<S>, st: St<S>, v: Node, k: nat)
    requires Here(t, st, v) && st.qi < k < |st.order|
    ensures st.order[k] !in st.expanded && st.order[k] != v
  {
    hide Level, InBox;
  }

  lemma ArrivedOther<S(!new)>(t: Task<S>, st: St<S>, v: Node, i: nat, w: Node)
    requires Here(t, st, v) && i < |v| && w != Up(v, i)
    ensures Arrived(t, Child(t, st, v, i), v, i + 1, w) == Arrived(t, st, v, i, w)
  {
    hide Shape, Child, Block, Arrivals;
    var next := Child(t, st, v, i);
    ChildFrame(t, st, v, i);
    forall j | 0 <= j < |st.order| ensures Block(t, next, v, i + 1, st.order[j], w) == Block(t, st, v, i, st.order[j], w) {
      BlockSame(t, st, v, i, st.order[j], w);
    }
    ArrivalsSame(t, st, v, i, next, v, i + 1, |st.order|, w);
    NothingAfter(t, next, v, i + 1, |next.order|, w);
    NothingAfter(t, next, v, i + 1, |st.order|, w);
  }

  lemma ArrivedChild<S(!new)>(t: Task<S>, st: St<S>, v: Node, i: nat)
    requires Here(t, st, v) && i < |v|
    ensures Arrived(t, Child(t, st, v, i), v, i + 1, Up(v, i)) == Arrived(t, st, v, i, Up(v, i)) + Gots(t, Pool(st, v), i)
  {
    hide Shape, Child, Gots, Pool, NameFrom;
    var (next, w) := (Child(t, st, v, i), Up(v, i));
    ChildFrame(t, st, v, i);
    LateChild(t, st, v, i);
    NameIs(v, i);
    forall j | 0 <= j < st.qi ensures Block(t, next, v, i + 1, st.order[j], w) == Block(t, st, v, i, st.order[j], w) {
      DistinctAt(t, st, v, j);
      BlockSame(t, st, v, i, st.order[j], w);
    }
    ArrivalsSame(t, st, v, i, next, v, i + 1, st.qi, w);
    NothingAfter(t, next, v, i + 1, |next.order|, w);
    NothingAfter(t, st, v, i, |st.order|, w);
    assert Block(t, next, v, i + 1, v, w) == Gots(t, Pool(st, v), i) && Block(t, st, v, i, v, w) == [];
    assert next.order[st.qi] == v;
    assert Arrivals(t, st, v, i, st.qi, w) + [] == Arrivals(t, st, v, i, st.qi, w);
  }

  lemma DistinctAt<S(!new)>(t: Task<S>, st: St<S>, v: Node, j: nat)
    requires Here(t, st, v) && j < st.qi
    ensures st.order[j] != v
  {
  }

  lemma ListsChild<S(!new)>(t: Task<S>, st: St<S>, v: Node, i: nat)
    requires Here(t, st, v) && i < |v| && Lists(t, st, v, i)
    ensures Lists(t, Child(t, st, v, i), v, i + 1)
  {
    hide Shape, Arrived, Trim, Gots, Offer, Level;
    var next := Child(t, st, v, i);
    ChildFrame(t, st, v, i);
    LateChild(t, st, v, i);
    assert Pool(next, Root(t)) == Pool(st, Root(t)) by { RootZero(t); }
    forall w | InBox(t, w) && Level(w) > 0 ensures Pool(next, w) == Trim(t.m, Arrived(t, next, v, i + 1, w), t.keep) {
      if w == Up(v, i) {
        ArrivedChild(t, st, v, i);
        var (was, got) := (Arrived(t, st, v, i, w), Gots(t, Pool(st, v), i));
        TrimAbsorb(t.m, was, got, t.keep);
        if got == [] { assert was + got == was; }
      } else {
        ArrivedOther(t, st, v, i, w);
      }
    }
  }

  lemma RootZero<S(!new)>(t: Task<S>)
    ensures Level(Root(t)) == 0
  {
    RootLevel(|t.cap|);
  }

  lemma {:induction false} RootLevel(n: nat)
    ensures Level(Zeros(n)) == 0
  {
    if n > 0 {
      RootLevel(n - 1);
      assert Zeros(n)[1..] == Zeros(n - 1) && Zeros(n)[0] == 0;
    } else {
      assert Zeros(n) == [];
    }
  }

  lemma InsideChild<S(!new)>(t: Task<S>, st: St<S>, v: Node, i: nat)
    requires Here(t, st, v) && i < |v| && Lists(t, st, v, i) && Inside(t, st)
    ensures Inside(t, Child(t, st, v, i))
  {
    hide Shape, Arrived, Trim, Gots, Offer, Level, All;
    var (next, w) := (Child(t, st, v, i), Up(v, i));
    ChildFrame(t, st, v, i);
    LateChild(t, st, v, i);
    forall u, s | InBox(t, u) && s in Pool(next, u) ensures s in All(t, u) {
      if u == w {
        assert Pool(next, w) == Pool(st, w) || Pool(next, w) == Trim(t.m, Pool(st, w) + Gots(t, Pool(st, v), i), t.keep);
        TrimMembers(t.m, Pool(st, w) + Gots(t, Pool(st, v), i), t.keep);
        BoughtInside(t, st, v, i);
      }
    }
  }

  lemma TrimMembers<S(!new)>(m: System<S>, l: seq<S>, keep: nat)
    ensures forall s | s in Trim(m, l, keep) :: s in l
  {
    SortIs(m, l);
    TrimInside(m, Sort(m, l), {}, Max(1, keep));
  }

  lemma BoughtInside<S(!new)>(t: Task<S>, st: St<S>, v: Node, i: nat)
    requires InBox(t, v) && i < |v| && Inside(t, st)
    ensures forall s | s in Gots(t, Pool(st, v), i) :: s in All(t, Up(v, i))
  {
    hide Gots, All, Edge;
    LevelUp(v, i);
    GotsIs(t, Pool(st, v), i);
    EdgeInAll(t, Up(v, i), i, Elements(Pool(st, v)));
    forall s | s in Gots(t, Pool(st, v), i) ensures s in All(t, Up(v, i)) { assert s in Elements(Gots(t, Pool(st, v), i)); }
  }

  /** The new best is the old one or the horizon of a better state, and bounds all offered. */
  lemma {:induction false} OfferIs<S(!new)>(t: Task<S>, best: Option<int>, got: seq<S>)
    ensures var r := Offer(t, best, got);
            && (forall c | !Good(t.m, best, c) :: !Good(t.m, r, c))
            && (forall c | c in got :: !Good(t.m, r, c))
            && (r == best || exists c :: c in got && Good(t.m, best, c) && r == Some(t.m.horizon(c)))
    decreases |got|
  {
    if got != [] {
      var h := t.m.horizon(got[0]);
      var b := if best.None? || h < best.value then Some(h) else best;
      OfferIs(t, b, got[1..]);
      assert got == [got[0]] + got[1..];
      assert forall c | Good(t.m, b, c) :: Good(t.m, best, c);
      if b != best && Offer(t, b, got[1..]) == b { assert got[0] in got && Good(t.m, best, got[0]); }
    }
  }

  lemma SkippedChild<S(!new)>(t: Task<S>, st: St<S>, v: Node, i: nat)
    requires Here(t, st, v) && i < |v| && Skipped(t, st)
    ensures Skipped(t, Child(t, st, v, i))
  {
    hide Gots, Trim, Offer, Level, Shape;
    var next := Child(t, st, v, i);
    ChildFrame(t, st, v, i);
    LateChild(t, st, v, i);
    OfferIs(t, st.best, Gots(t, Pool(st, v), i));
    forall p, s | p in next.order[..st.qi] && p !in next.expanded && s in Pool(next, p)
      ensures !Good(t.m, next.best, s)
    {
      assert Pool(next, p) == Pool(st, p);
    }
  }

  lemma HeardChild<S(!new)>(t: Task<S>, st: St<S>, v: Node, i: nat)
    requires Here(t, st, v) && i < |v| && Heard(t, st, v, i)
    ensures Heard(t, Child(t, st, v, i), v, i + 1)
  {
    hide Gots, Trim, Offer, Level, Shape, Arrived, Good;
    var (next, got) := (Child(t, st, v, i), Gots(t, Pool(st, v), i));
    ChildFrame(t, st, v, i);
    OfferIs(t, st.best, got);
    forall u, c | InBox(t, u) && Level(u) > 0 && Done(t, u) && c in Arrived(t, next, v, i + 1, u)
      ensures !Good(t.m, next.best, c)
    {
      if u == Up(v, i) {
        ArrivedChild(t, st, v, i);
        assert c in Arrived(t, st, v, i, u) || c in got;
      } else {
        ArrivedOther(t, st, v, i, u);
      }
    }
  }

  lemma ChildMid<S(!new)>(t: Task<S>, st: St<S>, v: Node, i: nat)
    requires i < |v| && Mid(t, st, v, i)
    ensures Mid(t, Child(t, st, v, i), v, i + 1)
    ensures Child(t, st, v, i).qi == st.qi && Child(t, st, v, i).expanded == st.expanded && st.order <= Child(t, st, v, i).order
  {
    hide Shape, Lists, Inside, Skipped, Heard, Child;
    ChildFrame(t, st, v, i);
    ListsChild(t, st, v, i);
    InsideChild(t, st, v, i);
    SkippedChild(t, st, v, i);
    HeardChild(t, st, v, i);
  }

  lemma KidsNone<S(!new)>(t: Task<S>, st: St<S>, v: Node)
    requires t.Ok() && |v| == |t.cap|
    ensures Kids(t, st, v, 0) == st
  {
  }

  lemma KidsNext<S(!new)>(t: Task<S>, st: St<S>, v: Node, i: nat)
    requires t.Ok() && |v| == |t.cap| && i < |v|
    ensures Kids(t, st, v, i + 1) == Child(t, Kids(t, st, v, i), v, i)
  {
  }

  lemma {:induction false} KidsMid<S(!new)>(t: Task<S>, st: St<S>, v: Node, n: nat)
    requires n <= |v| && Mid(t, st, v, 0)
    ensures |v| == |t.cap| && Mid(t, Kids(t, st, v, n), v, n)
    ensures Kids(t, st, v, n).qi == st.qi && Kids(t, st, v, n).expanded == st.expanded && st.order <= Kids(t, st, v, n).order
    decreases n
  {
    hide Shape, Lists, Inside, Skipped, Heard, Child;
    if n > 0 {
      KidsMid(t, st, v, n - 1);
      ChildMid(t, Kids(t, st, v, n - 1), v, n - 1);
    }
  }

  // ---- one visit ----

  /** Where the same purchases are done, the same has arrived. */
  lemma Carried<S(!new)>(t: Task<S>, a: St<S>, v: Node, m: nat, b: St<S>, u: Node, n: nat)
    requires t.Ok() && a.nodes == b.nodes && a.best == b.best && a.order == b.order
    requires Lists(t, a, v, m) && Heard(t, a, v, m)
    requires forall p: Node, i: nat | i < |p| && p in a.order :: EdgeDone(a, v, m, p, i) == EdgeDone(b, u, n, p, i)
    ensures Lists(t, b, u, n) && Heard(t, b, u, n)
  {
    hide Trim, Gots, NameFrom, Level;
    forall w ensures Arrived(t, a, v, m, w) == Arrived(t, b, u, n, w) {
      hide EdgeDone, Arrivals;
      forall j | 0 <= j < |a.order| ensures Block(t, a, v, m, a.order[j], w) == Block(t, b, u, n, a.order[j], w) {
        if NameFrom(a.order[j], w).Some? { NameBack(a.order[j], w); }
      }
      ArrivalsSame(t, a, v, m, b, u, n, |a.order|, w);
    }
  }

  lemma Enter<S(!new)>(t: Task<S>, st: St<S>)
    requires Inv(t, st) && st.qi < |st.order|
    ensures Mid(t, st, st.order[st.qi], 0) && |st.order[st.qi]| == |t.cap|
  {
    hide Lists, Heard, Skipped, Inside;
    Carried(t, st, [], 0, st, st.order[st.qi], 0);
  }

  lemma Turn<S(!new)>(t: Task<S>, st: St<S>, more: set<Node>)
    requires Shape(t, st) && st.qi < |st.order| && more <= {st.order[st.qi]}
    ensures Shape(t, st.(qi := st.qi + 1, expanded := st.expanded + more))
  {
    hide Level, InBox;
    var next := st.(qi := st.qi + 1, expanded := st.expanded + more);
    assert next.order[..next.qi] == st.order[..st.qi] + [st.order[st.qi]];
  }

  lemma Leave<S(!new)>(t: Task<S>, st: St<S>, v: Node)
    requires Mid(t, st, v, |v|)
    ensures Inv(t, st.(qi := st.qi + 1, expanded := st.expanded + {v}))
  {
    hide Lists, Heard, Shape;
    var next := st.(qi := st.qi + 1, expanded := st.expanded + {v});
    Turn(t, st, {v});
    Carried(t, st, v, |v|, next, [], 0);
    assert next.order[..next.qi] == st.order[..st.qi] + [v];
    assert forall p :: Pool(next, p) == Pool(st, p);
  }

  lemma Pass<S(!new)>(t: Task<S>, st: St<S>)
    requires Inv(t, st) && st.qi < |st.order|
    requires Pool(st, st.order[st.qi]) == [] || Hopeless(t, st.best, Pool(st, st.order[st.qi]))
    ensures Inv(t, st.(qi := st.qi + 1))
  {
    hide Lists, Heard, Shape;
    var (next, v) := (st.(qi := st.qi + 1), st.order[st.qi]);
    Turn(t, st, {});
    assert st.expanded + {} == st.expanded;
    Carried(t, st, [], 0, next, [], 0);
    assert next.order[..next.qi] == st.order[..st.qi] + [v];
    assert forall p :: Pool(next, p) == Pool(st, p);
    forall p, s | p in next.order[..next.qi] && p !in next.expanded && s in Pool(next, p)
      ensures !Good(t.m, next.best, s)
    {
      if p == v { var k :| 0 <= k < |Pool(st, v)| && Pool(st, v)[k] == s; }
    }
  }

  /** Every visit, expanded or passed over, keeps the invariant. */
  lemma VisitInv<S(!new)>(t: Task<S>, prune: bool, st: St<S>)
    requires Inv(t, st) && st.qi < |st.order|
    ensures |st.order[st.qi]| == |t.cap| && Inv(t, Visit(t, prune, st)) && st.order <= Visit(t, prune, st).order
  {
    hide Lists, Heard, Skipped, Inside, Shape, Pool, Kids;
    var v := st.order[st.qi];
    Enter(t, st);
    if Pool(st, v) == [] || (prune && Hopeless(t, st.best, Pool(st, v))) {
      Pass(t, st);
    } else {
      KidsMid(t, st, v, |v|);
      Leave(t, Kids(t, st, v, |v|), v);
    }
  }

  lemma InitInv<S(!new)>(t: Task<S>)
    requires t.Ok()
    ensures Inv(t, Init(t))
  {
    hide All, Trim, NameFrom, Gots;
    var st := Init(t);
    assert Elements(st.order) == {Root(t)};
    RootZero(t);
    TrimNothing(t.m, t.keep);
    forall w ensures Arrived(t, st, [], 0, w) == [] {
      assert Arrivals(t, st, [], 0, 0, w) == [];
      assert Block(t, st, [], 0, Root(t), w) == [];
    }
    forall w, s | InBox(t, w) && s in Pool(st, w) ensures s in All(t, w) { RootAll(t); }
  }

  lemma RootAll<S(!new)>(t: Task<S>)
    ensures All(t, Root(t)) == {t.start}
  {
    RootZero(t);
  }

  lemma TrimNothing<S(!new)>(m: System<S>, keep: nat)
    ensures Trim<S>(m, [], keep) == []
  {
  }

  lemma StepsStart<S(!new)>(t: Task<S>, prune: bool)
    requires t.Ok()
    ensures Steps(t, prune, 0) == Init(t)
  {
  }

  lemma StepIs<S(!new)>(t: Task<S>, prune: bool, k: nat)
    requires t.Ok() && k > 0
    ensures var st := Steps(t, prune, k - 1); Steps(t, prune, k) == if Over(t, st) then st else Visit(t, prune, st)
  {
  }

  lemma {:induction false} StepsInv<S(!new)>(t: Task<S>, prune: bool, k: nat)
    requires t.Ok()
    ensures Inv(t, Steps(t, prune, k))
  {
    hide Shape, Lists, Inside, Skipped, Heard, Visit, Init;
    if k == 0 {
      InitInv(t);
    } else {
      StepsInv(t, prune, k - 1);
      if !Over(t, Steps(t, prune, k - 1)) { VisitInv(t, prune, Steps(t, prune, k - 1)); }
    }
  }

  /** The queue only grows. */
  lemma {:induction false} OrderGrows<S(!new)>(t: Task<S>, prune: bool, j: nat, k: nat)
    requires t.Ok() && j <= k
    ensures Steps(t, prune, j).order <= Steps(t, prune, k).order
    decreases k - j
  {
    hide Visit, Inv;
    if j < k {
      OrderGrows(t, prune, j, k - 1);
      StepsInv(t, prune, k - 1);
      if !Over(t, Steps(t, prune, k - 1)) { VisitInv(t, prune, Steps(t, prune, k - 1)); }
    }
  }

  // ---- where the best horizon came from ----

  /** `c` completes, bought from `v`, and is below the best horizon at that time. */
  ghost predicate Improves<S(!new)>(t: Task<S>, st: St<S>, v: Node, i: nat, c: S)
    requires t.Ok()
  {
    && i < |v| && |v| == |t.cap| && v[i] < t.cap[i] && Done(t, Up(v, i))
    && c in Gots(t, Pool(st, v), i) && Good(t.m, st.best, c)
  }

  lemma {:induction false} KidsBest<S(!new)>(t: Task<S>, st: St<S>, v: Node, n: nat)
    requires n <= |v| && Mid(t, st, v, 0)
    ensures |v| == |t.cap| && Pool(Kids(t, st, v, n), v) == Pool(st, v)
    ensures Kids(t, st, v, n).best == st.best
         || exists i: nat, c :: Improves(t, st, v, i, c) && Kids(t, st, v, n).best == Some(t.m.horizon(c))
    ensures forall c | Good(t.m, Kids(t, st, v, n).best, c) :: Good(t.m, st.best, c)
    decreases n
  {
    hide Lists, Inside, Skipped, Heard, Shape, Gots, Trim, Offer;
    if n > 0 {
      var was := Kids(t, st, v, n - 1);
      KidsBest(t, st, v, n - 1);
      KidsMid(t, st, v, n - 1);
      ChildFrame(t, was, v, n - 1);
      LateChild(t, was, v, n - 1);
      var got := Gots(t, Pool(st, v), n - 1);
      OfferIs(t, was.best, got);
      var next := Kids(t, st, v, n);
      if next.best != was.best {
        var c :| c in got && Good(t.m, was.best, c) && next.best == Some(t.m.horizon(c));
        assert Improves(t, st, v, n - 1, c);
      }
    }
  }

  /** The best horizon is that of a state bought in some visit, better than the best then. */
  lemma {:induction false} Cause<S(!new)>(t: Task<S>, prune: bool, k: nat) returns (j: nat, i: nat, c: S)
    requires t.Ok() && Steps(t, prune, k).best.Some?
    ensures j < k && !Over(t, Steps(t, prune, j))
    ensures var st := Steps(t, prune, j); Improves(t, st, st.order[st.qi], i, c)
    ensures Steps(t, prune, k).best == Some(t.m.horizon(c))
    decreases k
  {
    hide Inv, Mid, Improves, Steps, Kids;
    StepsStart(t, prune);
    var st := Steps(t, prune, k - 1);
    StepIs(t, prune, k);
    if Steps(t, prune, k).best == st.best {
      j, i, c := Cause(t, prune, k - 1);
    } else {
      StepsInv(t, prune, k - 1);
      j := k - 1;
      i, c := VisitBest(t, prune, st);
    }
  }

  lemma VisitBest<S(!new)>(t: Task<S>, prune: bool, st: St<S>) returns (i: nat, c: S)
    requires Inv(t, st) && !Over(t, st) && Visit(t, prune, st).best != st.best
    ensures Improves(t, st, st.order[st.qi], i, c) && Visit(t, prune, st).best == Some(t.m.horizon(c))
  {
    hide Inv, Mid, Improves, Kids;
    var v := st.order[st.qi];
    Enter(t, st);
    InvOk(t, st);
    KidsBest(t, st, v, |v|);
    i, c :| Improves(t, st, v, i, c) && Kids(t, st, v, |v|).best == Some(t.m.horizon(c));
  }

  lemma InvOk<S(!new)>(t: Task<S>, st: St<S>)
    requires Inv(t, st)
    ensures t.Ok()
  {
  }

  lemma InvShape<S(!new)>(t: Task<S>, st: St<S>)
    requires Inv(t, st)
    ensures st.qi <= |st.order|
  {
  }
}
