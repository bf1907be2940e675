/** How pruning can change the best horizon: a node passed over reorders the queue, and of
    two orders of the same three purchases that tie the worse one is kept. */
module DpTies {
  import opened Costs
  import opened DpSets
  import opened DpLists
  import opened DpModel
  import opened DpRun
  import opened DpSearch
  import opened DpOrder
  import opened DpQueue
  import opened DpLoop

  const N0: Node := [0, 0, 0, 0]
  const NX: Node := [1, 0, 0, 0]
  const NE: Node := [0, 1, 0, 0]
  const NA: Node := [0, 0, 1, 0]
  const NB: Node := [0, 0, 0, 1]
  const NEA: Node := [0, 1, 1, 0]
  const NEB: Node := [0, 1, 0, 1]
  const NAB: Node := [0, 0, 1, 1]
  const NEAB: Node := [0, 1, 1, 1]

  /** The states that name 1, 2 and 3 lead to, by the order bought: `be` is 3, then 1. */
  datatype Plot<S> = Plot(e: S, eb: S, a: S, b: S, ab: S, ba: S, ae: S, be: S, abe: S, bea: S)

  ghost predicate Leads<S(!new)>(t: Task<S>, s: S, i: nat, v: S) { t.m.legal(s, i) && t.m.apply(s, i) == Some(v) }

  /** Name 0 bought in `s` completes at `h`. */
  ghost predicate AimAt<S(!new)>(t: Task<S>, s: S, h: int) {
    t.m.legal(s, 0) && t.m.apply(s, 0).Some? && t.m.horizon(t.m.apply(s, 0).value) == h
  }

  ghost predicate Purchases<S(!new)>(t: Task<S>, p: Plot<S>) {
    && Leads(t, t.start, 1, p.e) && Leads(t, t.start, 2, p.a) && Leads(t, t.start, 3, p.b)
    && Leads(t, p.e, 3, p.eb) && Leads(t, p.a, 1, p.ae) && Leads(t, p.a, 3, p.ab)
    && Leads(t, p.b, 1, p.be) && Leads(t, p.b, 2, p.ba) && Leads(t, p.ab, 1, p.abe) && Leads(t, p.be, 2, p.bea)
  }

  /** Name 0 is required and completes at `late`, or one earlier when 3, 1 and 2 are bought
      first, in that order. Name 1 alone, or after 2 alone, is no better than `late`. Of 3, 1,
      2 and 2, 3, 1 neither is before the other. */
  ghost predicate Story<S(!new)>(t: Task<S>, p: Plot<S>, late: int) {
    && t.cap == [1, 1, 1, 1] && t.need == [1, 0, 0, 0] && t.keep == 1 && Monotone(t) && Purchases(t, p)
    && AimAt(t, t.start, late) && AimAt(t, p.a, late) && AimAt(t, p.b, late) && AimAt(t, p.ab, late)
    && AimAt(t, p.be, late) && AimAt(t, p.abe, late) && AimAt(t, p.bea, late - 1)
    && t.m.horizon(p.e) >= late && t.m.horizon(p.ae) >= late
    && t.m.horizon(t.start) < late - 1 && t.m.horizon(p.a) < late - 1 && t.m.horizon(p.b) < late - 1 && t.m.horizon(p.ab) < late - 1
    && t.m.horizon(p.be) < late - 1 && t.m.horizon(p.abe) < late - 1 && t.m.horizon(p.bea) < late - 1
    && !Before(t.m, p.ba, p.ab) && !Before(t.m, p.abe, p.bea) && !Before(t.m, p.bea, p.abe)
  }

  // ---- what is kept below a bound ----

  ghost predicate Ready<S(!new)>(t: Task<S>, p: Plot<S>, late: int, b: int, st: St<S>, level: nat) {
    && Story(t, p, late) && late - 1 <= b <= late && Inv(t, st) && Tighter(t.m, Some(b), st.best)
    && Behind(t, st, level) && Ranked(st.order)
  }

  ghost predicate Keeps<S(!new)>(t: Task<S>, b: int, st: St<S>, w: Node, pool: seq<S>) {
    GoodOf(t.m, Some(b), Pool(st, w)) == pool
  }

  ghost function Early<S(!new)>(t: Task<S>, b: int, v: S): seq<S> { if t.m.horizon(v) < b then [v] else [] }

  lemma GoodOne<S(!new)>(t: Task<S>, b: int, v: S)
    ensures GoodOf(t.m, Some(b), [v]) == Early(t, b, v)
  {
    assert [v][1..] == [];
    assert GoodOf(t.m, Some(b), []) == [];
  }

  lemma GotsLead<S(!new)>(t: Task<S>, s: S, i: nat, v: S)
    requires Leads(t, s, i, v)
    ensures Gots(t, [s], i) == [v]
  {
    assert [s][1..] == [];
    assert Gots(t, [], i) == [];
  }

  /** What a parent that keeps one state contributes. */
  lemma ShareLead<S(!new)>(t: Task<S>, b: int, st: St<S>, p: Node, i: nat, s: S, v: S)
    requires i < |p| && Leads(t, s, i, v) && Keeps(t, b, st, p, [s])
    ensures Share(t, Some(b), st, p, Up(p, i)) == Early(t, b, v)
  {
    hide Gots, GoodOf, NameFrom, Leads;
    NameIs(p, i);
    GotsLead(t, s, i, v);
    GoodOne(t, b, v);
  }

  lemma ShareNone<S(!new)>(t: Task<S>, b: int, st: St<S>, p: Node, w: Node)
    requires Keeps(t, b, st, p, [])
    ensures Share(t, Some(b), st, p, w) == []
  {
    hide NameFrom;
  }

  lemma TrimOne<S(!new)>(m: System<S>, x: S)
    ensures Trim(m, [x], 1) == [x] && Trim<S>(m, [], 1) == []
  {
    assert [x][1..] == [];
    assert Sort<S>(m, []) == [] && Sort(m, [x]) == [x];
    assert TrimFrom(m, [x], {}, 1) == [x] + TrimFrom(m, [], {MarkOf(m, x)}, 0);
  }

  /** Of two states that tie the first is kept. */
  lemma TrimTie<S(!new)>(m: System<S>, x: S, y: S)
    requires !Before(m, y, x)
    ensures Trim(m, [x, y], 1) == [x]
  {
    assert [x, y][1..] == [y] && [y][1..] == [];
    assert Sort<S>(m, []) == [] && Sort(m, [y]) == [y];
    assert Sort(m, [x, y]) == [x, y];
    assert TrimFrom(m, [x, y], {}, 1) == [x] + TrimFrom(m, [y], {MarkOf(m, x)}, 0);
  }

  lemma Levels4()
    ensures Level(N0) == 0 && Level(NX) == Level(NE) == Level(NA) == Level(NB) == 1
    ensures Level(NEA) == Level(NEB) == Level(NAB) == 2 && Level(NEAB) == 3
  {
    hide Level;
    AllZero(N0);
    LevelUp(N0, 0);
    LevelUp(N0, 1);
    LevelUp(N0, 2);
    LevelUp(N0, 3);
    LevelUp(NA, 1);
    LevelUp(NB, 1);
    LevelUp(NA, 3);
    LevelUp(NAB, 1);
    assert Up(N0, 0) == NX && Up(N0, 1) == NE && Up(N0, 2) == NA && Up(N0, 3) == NB;
    assert Up(NA, 1) == NEA && Up(NB, 1) == NEB && Up(NA, 3) == NAB && Up(NAB, 1) == NEAB;
  }

  lemma ReadyLess<S(!new)>(t: Task<S>, p: Plot<S>, late: int, b: int, st: St<S>, level: nat, less: nat)
    requires Ready(t, p, late, b, st, level) && less <= level
    ensures Ready(t, p, late, b, st, less)
  {
    hide Level, Inv, Tighter, Story, Ranked;
  }

  lemma PoolN0<S(!new)>(t: Task<S>, p: Plot<S>, late: int, b: int, st: St<S>)
    requires Ready(t, p, late, b, st, 0)
    ensures Keeps(t, b, st, N0, [t.start])
  {
    hide Inv, Tighter, Ranked, GoodOf, Pool, Behind, Level, Before, Purchases;
    Levels4();
    AtRoot(t, st, N0);
    GoodOne(t, b, t.start);
  }

  lemma PoolN1<S(!new)>(t: Task<S>, p: Plot<S>, late: int, b: int, st: St<S>, i: nat, v: S)
    requires Ready(t, p, late, b, st, 1) && i < 4 && Leads(t, t.start, i, v)
    ensures Keeps(t, b, st, Up(N0, i), Early(t, b, v))
  {
    hide Inv, Tighter, Ranked, GoodOf, Pool, Behind, Level, Before, Purchases, Share, Trim, Leads, Monotone;
    Levels4();
    ReadyLess(t, p, late, b, st, 1, 0);
    PoolN0(t, p, late, b, st);
    LevelUp(N0, i);
    ShareLead(t, b, st, N0, i, t.start, v);
    OneParent(t, Some(b), st, Up(N0, i), i);
    TrimOne(t.m, v);
  }

  lemma PoolsOne<S(!new)>(t: Task<S>, p: Plot<S>, late: int, b: int, st: St<S>)
    requires Ready(t, p, late, b, st, 1)
    ensures Keeps(t, b, st, NE, []) && Keeps(t, b, st, NA, [p.a]) && Keeps(t, b, st, NB, [p.b])
  {
    hide Inv, Tighter, Ranked, Behind, Level, Before, Leads, Keeps, Monotone;
    PoolN1(t, p, late, b, st, 1, p.e);
    PoolN1(t, p, late, b, st, 2, p.a);
    PoolN1(t, p, late, b, st, 3, p.b);
    assert Up(N0, 1) == NE && Up(N0, 2) == NA && Up(N0, 3) == NB;
  }

  /** What a name adds to a node that keeps one state. */
  lemma ShareAt<S(!new)>(t: Task<S>, b: int, st: St<S>, from: Node, i: nat, s: S, v: S, w: Node)
    requires i < |from| && Leads(t, s, i, v) && Keeps(t, b, st, from, [s]) && w == Up(from, i)
    ensures i < |w| && w[i] > 0 && Down(w, i) == from && Share(t, Some(b), st, Down(w, i), w) == Early(t, b, v)
  {
    hide Share, Leads, Keeps, Level;
    ShareLead(t, b, st, from, i, s, v);
    LevelUp(from, i);
  }

  lemma NoneAt<S(!new)>(t: Task<S>, b: int, st: St<S>, from: Node, i: nat, w: Node)
    requires i < |from| && Keeps(t, b, st, from, []) && w == Up(from, i)
    ensures i < |w| && w[i] > 0 && Down(w, i) == from && Share(t, Some(b), st, Down(w, i), w) == []
  {
    hide Share, Keeps, Level;
    ShareNone(t, b, st, from, w);
    LevelUp(from, i);
  }

  lemma PoolNEA<S(!new)>(t: Task<S>, p: Plot<S>, late: int, b: int, st: St<S>)
    requires Ready(t, p, late, b, st, 2)
    ensures Keeps(t, b, st, NEA, [])
  {
    hide Inv, Tighter, Ranked, GoodOf, Pool, Behind, Level, Before, Share, Trim, Leads, Monotone;
    Levels4();
    ReadyLess(t, p, late, b, st, 2, 1);
    PoolsOne(t, p, late, b, st);
    ShareAt(t, b, st, NA, 1, p.a, p.ae, NEA);
    NoneAt(t, b, st, NE, 2, NEA);
    OneParent(t, Some(b), st, NEA, 1);
    TrimOne(t.m, p.ae);
  }

  lemma PoolNEB<S(!new)>(t: Task<S>, p: Plot<S>, late: int, b: int, st: St<S>)
    requires Ready(t, p, late, b, st, 2)
    ensures Keeps(t, b, st, NEB, [p.be])
  {
    hide Inv, Tighter, Ranked, GoodOf, Pool, Behind, Level, Before, Share, Trim, Leads, Monotone;
    Levels4();
    ReadyLess(t, p, late, b, st, 2, 1);
    PoolsOne(t, p, late, b, st);
    ShareAt(t, b, st, NB, 1, p.b, p.be, NEB);
    NoneAt(t, b, st, NE, 3, NEB);
    OneParent(t, Some(b), st, NEB, 1);
    TrimOne(t.m, p.be);
  }

  lemma PoolNAB<S(!new)>(t: Task<S>, p: Plot<S>, late: int, b: int, st: St<S>)
    requires Ready(t, p, late, b, st, 2)
    ensures Keeps(t, b, st, NAB, [p.ab])
  {
    hide Inv, Tighter, Ranked, GoodOf, Pool, Behind, Level, Before, Share, Trim, Leads, Monotone, Precedes;
    Levels4();
    ReadyLess(t, p, late, b, st, 2, 1);
    PoolsOne(t, p, late, b, st);
    ShareAt(t, b, st, NA, 3, p.a, p.ab, NAB);
    ShareAt(t, b, st, NB, 2, p.b, p.ba, NAB);
    if Share(t, Some(b), st, NB, NAB) != [] {
      Contributes(t, Some(b), st, NA, NAB);
      Contributes(t, Some(b), st, NB, NAB);
      RankedFirst(st.order, NA, NB, 2, 3);
    }
    TwoParents(t, Some(b), st, NAB, 3, 2);
    TrimOne(t.m, p.ab);
    TrimTie(t.m, p.ab, p.ba);
    assert [p.ab] + [p.ba] == [p.ab, p.ba] && [p.ab] + [] == [p.ab];
  }

  /** The node whose two orders tie keeps the one that arrives first. */
  lemma PoolNEAB<S(!new)>(t: Task<S>, p: Plot<S>, late: int, b: int, st: St<S>, pruned: bool)
    requires Ready(t, p, late, b, st, 3) && Swapped(st, pruned)
    ensures Keeps(t, b, st, NEAB, [if pruned then p.abe else p.bea])
  {
    hide Inv, Tighter, Ranked, GoodOf, Pool, Behind, Level, Before, Share, Trim, Leads, Monotone, Precedes;
    Levels4();
    ReadyLess(t, p, late, b, st, 3, 2);
    PoolNEA(t, p, late, b, st);
    PoolNEB(t, p, late, b, st);
    PoolNAB(t, p, late, b, st);
    ShareAt(t, b, st, NAB, 1, p.ab, p.abe, NEAB);
    ShareAt(t, b, st, NEB, 2, p.be, p.bea, NEAB);
    NoneAt(t, b, st, NEA, 3, NEAB);
    Contributes(t, Some(b), st, NAB, NEAB);
    Contributes(t, Some(b), st, NEB, NEAB);
    if pruned {
      TwoParents(t, Some(b), st, NEAB, 1, 2);
      TrimTie(t.m, p.abe, p.bea);
      assert [p.abe] + [p.bea] == [p.abe, p.bea];
    } else {
      TwoParents(t, Some(b), st, NEAB, 2, 1);
      TrimTie(t.m, p.bea, p.abe);
      assert [p.bea] + [p.abe] == [p.bea, p.abe];
    }
  }

  /** Pruning puts 2, 3 before 1, 3 in the queue. */
  ghost predicate Swapped<S(!new)>(st: St<S>, pruned: bool) {
    if pruned then NEB in st.order ==> Precedes(st.order, NAB, NEB) else NAB in st.order ==> Precedes(st.order, NEB, NAB)
  }

  // ---- the first visits ----

  /** A first state found at a new node. */
  lemma ChildAdds<S(!new)>(t: Task<S>, st: St<S>, v: Node, i: nat, c: S)
    requires t.Ok() && |v| == |t.cap| && i < |v| && v[i] < t.cap[i] && t.keep == 1
    requires Gots(t, Pool(st, v), i) == [c] && Up(v, i) !in st.order && Up(v, i) !in st.nodes
    ensures Child(t, st, v, i)
         == st.(best := if Done(t, Up(v, i)) then Offer(t, st.best, [c]) else st.best,
                nodes := st.nodes[Up(v, i) := [c]], order := st.order + [Up(v, i)])
  {
    hide Gots, Trim, Offer;
    TrimOne(t.m, c);
    assert [] + [c] == [c];
  }

  lemma OfferFirst<S(!new)>(t: Task<S>, c: S)
    ensures Offer(t, None, [c]) == Some(t.m.horizon(c))
  {
    assert [c][1..] == [];
    assert Offer(t, Some(t.m.horizon(c)), []) == Some(t.m.horizon(c));
  }

  /** After the root: one node for each name, and the best horizon is `late`. */
  function AfterRoot<S(!new)>(t: Task<S>, p: Plot<S>, x: S): St<S> {
    St(map[N0 := [t.start], NX := [x], NE := [p.e], NA := [p.a], NB := [p.b]], [N0, NX, NE, NA, NB], 1,
       Some(t.m.horizon(x)), {N0})
  }

  lemma FirstVisit<S(!new)>(t: Task<S>, p: Plot<S>, late: int, prune: bool) returns (x: S)
    requires Story(t, p, late)
    ensures t.m.horizon(x) == late && Steps(t, prune, 1) == AfterRoot(t, p, x)
  {
    hide Kids, Child, Steps, Before, Monotone, Gots, Offer, Pool;
    x := t.m.apply(t.start, 0).value;
    StepsStart(t, prune);
    StepIs(t, prune, 1);
    RootPool(t);
    RootKids(t, p, late, x);
  }

  lemma RootPool<S(!new)>(t: Task<S>)
    requires t.cap == [1, 1, 1, 1]
    ensures Init(t) == St(map[N0 := [t.start]], [N0], 0, None, {}) && Pool(Init(t), N0) == [t.start]
  {
    assert Root(t) == N0;
  }

  /** After the first two names. */
  function AfterTwo<S(!new)>(t: Task<S>, p: Plot<S>, x: S): St<S> {
    St(map[N0 := [t.start], NX := [x], NE := [p.e]], [N0, NX, NE], 0, Some(t.m.horizon(x)), {})
  }

  lemma FirstKids<S(!new)>(t: Task<S>, p: Plot<S>, late: int, x: S)
    requires Story(t, p, late) && t.m.apply(t.start, 0) == Some(x)
    ensures Kids(t, Init(t), N0, 2) == AfterTwo(t, p, x)
  {
    hide Kids, Child, Before, Monotone, Gots, Offer;
    RootPool(t);
    var s0 := Init(t);
    GotsLead(t, t.start, 0, x);
    GotsLead(t, t.start, 1, p.e);
    assert Up(N0, 0) == NX && Up(N0, 1) == NE && NX[0] == 1 && NE[0] == 0;
    KidsNone(t, s0, N0);
    KidsNext(t, s0, N0, 0);
    KidsNext(t, s0, N0, 1);
    OfferFirst(t, x);
    ChildAdds(t, s0, N0, 0, x);
    ChildAdds(t, Child(t, s0, N0, 0), N0, 1, p.e);
  }

  lemma RootKids<S(!new)>(t: Task<S>, p: Plot<S>, late: int, x: S)
    requires Story(t, p, late) && t.m.apply(t.start, 0) == Some(x)
    ensures var k := Kids(t, Init(t), N0, 4); k.(qi := 1, expanded := k.expanded + {N0}) == AfterRoot(t, p, x)
  {
    hide Kids, Child, Before, Monotone, Gots, Offer, Init;
    var s0, s2 := Init(t), AfterTwo(t, p, x);
    FirstKids(t, p, late, x);
    GotsLead(t, t.start, 2, p.a);
    GotsLead(t, t.start, 3, p.b);
    assert Up(N0, 2) == NA && Up(N0, 3) == NB;
    assert NX[0] == 1 && NA[0] == NB[0] == 0 && NE[1] == 1 && NA[1] == NB[1] == 0 && NA[2] == 1 && NB[2] == 0;
    KidsNext(t, s0, N0, 2);
    KidsNext(t, s0, N0, 3);
    ChildAdds(t, s2, N0, 2, p.a);
    ChildAdds(t, Child(t, s2, N0, 2), N0, 3, p.b);
  }

  /** Pools of the level being visited stay. */
  lemma {:induction false} KidsPools<S(!new)>(t: Task<S>, st: St<S>, v: Node, n: nat)
    requires n <= |v| && Mid(t, st, v, 0)
    ensures |v| == |t.cap| && forall u | Level(u) <= Level(v) :: Pool(Kids(t, st, v, n), u) == Pool(st, u)
    decreases n
  {
    hide Lists, Inside, Skipped, Heard, Shape, Child, Level, Pool;
    if n > 0 {
      KidsPools(t, st, v, n - 1);
      KidsMid(t, st, v, n - 1);
      ChildFrame(t, Kids(t, st, v, n - 1), v, n - 1);
      LevelUp(v, n - 1);
    }
  }

  /** A visit that expands. */
  lemma Expand<S(!new)>(t: Task<S>, prune: bool, k: nat, v: Node)
    requires t.Ok() && var st := Steps(t, prune, k); !Over(t, st) && st.order[st.qi] == v && Pool(st, v) != []
    requires var st := Steps(t, prune, k); !prune || !Hopeless(t, st.best, Pool(st, v))
    ensures var (st, next) := (Steps(t, prune, k), Steps(t, prune, k + 1));
            && next.qi == st.qi + 1 && next.expanded == st.expanded + {v} && st.order <= next.order
            && forall u | Level(u) <= Level(v) :: Pool(next, u) == Pool(st, u)
  {
    hide Inv, Mid, Kids, Level, Steps, Pool;
    var st := Steps(t, prune, k);
    StepsInv(t, prune, k);
    StepIs(t, prune, k + 1);
    Enter(t, st);
    KidsMid(t, st, v, |v|);
    KidsPools(t, st, v, |v|);
    SamePool(Kids(t, st, v, |v|), st.qi + 1, st.expanded + {v});
  }

  lemma SamePool<S(!new)>(st: St<S>, qi: nat, expanded: set<Node>)
    ensures forall u :: Pool(st.(qi := qi, expanded := expanded), u) == Pool(st, u)
  {
  }

  /** What an expanded node sells is in the queue. */
  lemma Sold<S(!new)>(t: Task<S>, st: St<S>, v: Node, i: nat)
    requires Inv(t, st) && v in st.expanded && i < |v| && InBox(t, Up(v, i)) && Gots(t, Pool(st, v), i) != []
    ensures Up(v, i) in st.order
  {
    hide Skipped, Inside, Heard, Gots, Arrivals, Block, NameFrom, Trim, Level;
    var w := Up(v, i);
    LevelUp(v, i);
    ExpandedListed(t, st, v);
    var k :| 0 <= k < |st.order| && st.order[k] == v;
    ArrivalHas(t, st, [], 0, |st.order|, k, w);
    BlockIs(t, st, v, i);
    var c := Gots(t, Pool(st, v), i)[0];
    assert c in Arrived(t, st, [], 0, w);
    TrimSome(t.m, Arrived(t, st, [], 0, w), t.keep);
    QueueDistinct(t, st);
  }

  lemma TrimSome<S(!new)>(m: System<S>, l: seq<S>, keep: nat)
    requires l != []
    ensures Trim(m, l, keep) != []
  {
    SortIs(m, l);
    assert l[0] in Sort(m, l);
  }

  /** With pruning the first node bought from is that of name 2. */
  lemma PrunedQueue<S(!new)>(t: Task<S>, p: Plot<S>, late: int)
    requires Story(t, p, late)
    ensures NAB in Steps(t, true, 4).order && NEB !in Steps(t, true, 4).order
  {
    hide Inv, Steps, Before, Monotone, Gots, Level, Queued, Visit;
    var x := FirstVisit(t, p, late, true);
    Passed(t, 1, NX, [x]);
    Passed(t, 2, NE, [p.e]);
    NotHopeless(t, late, p.a);
    Expand(t, true, 3, NA);
    var st := Steps(t, true, 4);
    StepsInv(t, true, 4);
    StepsQueued(t, true, 4);
    GotsLead(t, p.a, 3, p.ab);
    assert Up(NA, 3) == NAB;
    Sold(t, st, NA, 3);
    forall v: Node, i: nat | v in st.expanded && i < |v| ensures NEB != Up(v, i) { FarOff(v, i); }
    Unfound(t, st, NEB);
  }

  lemma Passed<S(!new)>(t: Task<S>, k: nat, v: Node, pool: seq<S>)
    requires t.Ok() && var st := Steps(t, true, k); !Over(t, st) && st.order[st.qi] == v && Pool(st, v) == pool && Hopeless(t, st.best, pool)
    ensures Steps(t, true, k + 1) == Steps(t, true, k).(qi := Steps(t, true, k).qi + 1)
  {
    hide Steps, Kids;
    StepIs(t, true, k + 1);
  }

  lemma NotHopeless<S(!new)>(t: Task<S>, best: int, s: S)
    requires t.m.horizon(s) < best
    ensures !Hopeless(t, Some(best), [s])
  {
    assert [s][0] == s;
  }

  /** Nothing is in the queue that no expanded node leads to. */
  lemma Unfound<S(!new)>(t: Task<S>, st: St<S>, w: Node)
    requires Queued(t, st) && t.cap == [1, 1, 1, 1] && w != N0
    requires forall v: Node, i: nat | v in st.expanded && i < |v| :: w != Up(v, i)
    ensures w !in st.order
  {
    hide Ranked;
    RootPool(t);
    if w in st.order { FoundAt(t, st, [], 0, w); }
  }

  lemma FarOff(v: Node, i: nat)
    requires i < 4
    ensures (v == N0 || v == NA) ==> NEB != Up(v, i)
    ensures (v == N0 || v == NX || v == NE) ==> NAB != Up(v, i)
  {
    assert NEB[1] == 1 && NEB[2] == 0 && NEB[3] == 1 && NAB[0] == NAB[1] == 0 && NAB[2] == NAB[3] == 1;
    if v == N0 {
      assert Up(v, i)[if i == 3 then 2 else 3] == 0;
      assert Up(v, i)[if i == 3 then 1 else 3] == 0;
    } else if v == NA {
      assert Up(v, i)[2] >= 1;
    } else if v == NX {
      assert Up(v, i)[0] >= 1;
    } else if v == NE {
      assert Up(v, i)[1] >= 1;
    }
  }

  /** Without it, that of name 1 comes before. */
  lemma PlainQueue<S(!new)>(t: Task<S>, p: Plot<S>, late: int)
    requires Story(t, p, late)
    ensures NEB in Steps(t, false, 3).order && NAB !in Steps(t, false, 3).order
  {
    hide Inv, Steps, Before, Monotone, Gots, Level, Queued, Visit;
    var x := FirstVisit(t, p, late, false);
    Levels4();
    Expand(t, false, 1, NX);
    Expand(t, false, 2, NE);
    var st := Steps(t, false, 3);
    StepsInv(t, false, 3);
    StepsQueued(t, false, 3);
    GotsLead(t, p.e, 3, p.eb);
    assert Up(NE, 3) == NEB;
    Sold(t, st, NE, 3);
    forall v: Node, i: nat | v in st.expanded && i < |v| ensures NAB != Up(v, i) { FarOff(v, i); }
    Unfound(t, st, NAB);
  }

  /** So throughout the search. */
  lemma AlwaysSwapped<S(!new)>(t: Task<S>, p: Plot<S>, late: int, prune: bool, k: nat)
    requires Story(t, p, late)
    ensures Swapped(Steps(t, prune, k), prune)
  {
    hide Inv, Steps, Story;
    var (n, u, v) := if prune then (4, NAB, NEB) else (3, NEB, NAB);
    assert t.Ok() by { StoryOk(t, p, late); }
    if prune { PrunedQueue(t, p, late); } else { PlainQueue(t, p, late); }
    if k <= n {
      OrderGrows(t, prune, k, n);
    } else {
      OrderGrows(t, prune, n, k);
      if v in Steps(t, prune, k).order { Later(Steps(t, prune, n).order, Steps(t, prune, k).order, u, v); }
    }
  }

  lemma StoryOk<S(!new)>(t: Task<S>, p: Plot<S>, late: int)
    requires Story(t, p, late)
    ensures t.Ok() && Monotone(t)
  {
  }

  lemma Later(x: seq<Node>, longer: seq<Node>, u: Node, v: Node)
    requires x <= longer && u in x && v !in x && v in longer
    ensures Precedes(longer, u, v)
  {
    var i :| 0 <= i < |x| && x[i] == u;
    var j :| 0 <= j < |longer| && longer[j] == v;
    assert longer[i] == u;
  }

  // ---- the best horizon ----

  /** The states from which name 0 is bought below the bound. */
  lemma Sources<S(!new)>(t: Task<S>, p: Plot<S>, late: int, b: int, st: St<S>, pruned: bool, v: Node, s: S)
    requires Story(t, p, late) && InBox(t, v) && v[0] == 0 && Ready(t, p, late, b, st, Level(v)) && Swapped(st, pruned)
    requires s in GoodOf(t.m, Some(b), Pool(st, v))
    ensures AimAt(t, s, late) || (!pruned && AimAt(t, s, late - 1))
  {
    hide Ready, Swapped, GoodOf, Pool, Level, Before, Monotone, Purchases, AimAt;
    Levels4();
    Corners(t, v);
    if v == N0 { PoolN0(t, p, late, b, st); }
    else if v == NE || v == NA || v == NB { PoolsOne(t, p, late, b, st); }
    else if v == NEA { PoolNEA(t, p, late, b, st); }
    else if v == NEB { PoolNEB(t, p, late, b, st); }
    else if v == NAB { PoolNAB(t, p, late, b, st); }
    else { PoolNEAB(t, p, late, b, st, pruned); }
  }

  lemma Corners<S(!new)>(t: Task<S>, v: Node)
    requires t.cap == [1, 1, 1, 1] && InBox(t, v) && v[0] == 0
    ensures v == N0 || v == NE || v == NA || v == NB || v == NEA || v == NEB || v == NAB || v == NEAB
  {
    assert v == [v[0], v[1], v[2], v[3]];
  }

  /** No state improves on `late` in a pruned search, or on one less in any. */
  lemma {:induction false} NotBelow<S(!new)>(t: Task<S>, p: Plot<S>, late: int, prune: bool, k: nat)
    requires Story(t, p, late)
    ensures var best := Steps(t, prune, k).best; best.None? || best.value >= if prune then late else late - 1
    decreases k
  {
    hide Inv, Steps, Improves, Story, Swapped, Ready, GoodOf, Pool, AimAt;
    var b := if prune then late else late - 1;
    StoryOk(t, p, late);
    var best := Steps(t, prune, k).best;
    if best.Some? && best.value < b {
      var j, i, c := Cause(t, prune, k);
      var st := Steps(t, prune, j);
      NotBelow(t, p, late, prune, j);
      StepsInv(t, prune, j);
      StepsQueued(t, prune, j);
      AlwaysSwapped(t, p, late, prune, j);
      NoImprovement(t, p, late, b, st, prune, i, c);
    }
  }

  lemma NoImprovement<S(!new)>(t: Task<S>, p: Plot<S>, late: int, b: int, st: St<S>, pruned: bool, i: nat, c: S)
    requires Story(t, p, late) && b == (if pruned then late else late - 1) && Inv(t, st) && Queued(t, st) && Swapped(st, pruned)
    requires (st.best.None? || st.best.value >= b) && !Over(t, st) && Improves(t, st, st.order[st.qi], i, c)
    ensures t.m.horizon(c) >= b
  {
    hide Lists, Skipped, Heard, Found, Ranked, Swapped, GoodOf, Pool, AimAt, Before, Purchases, Gots, Monotone, Level;
    var v := st.order[st.qi];
    assert InBox(t, v);
    BehindHead(t, st);
    if t.m.horizon(c) < b {
      var s := BoughtFrom(t, Some(b), st, v, i, c);
      GoodMembers(t.m, Some(b), Pool(st, v));
      if v[0] == 0 {
        assert i == 0 by { assert Up(v, i)[0] >= 1; }
        Sources(t, p, late, b, st, pruned, v, s);
        AimsHit(t, s, late, c);
        AimsHit(t, s, late - 1, c);
      } else {
        assert Done(t, v) && Level(v) > 0 by { LevelDown(v, 0); }
        DonePool(t, Some(b), st, v);
      }
    }
  }

  lemma AimsHit<S(!new)>(t: Task<S>, s: S, h: int, c: S)
    requires t.m.apply(s, 0) == Some(c)
    ensures AimAt(t, s, h) ==> t.m.horizon(c) == h
  {
  }

  /** Over, what a kept state completes has been offered. */
  lemma Completed<S(!new)>(t: Task<S>, st: St<S>, v: Node, i: nat, s: S, c: S)
    requires Monotone(t) && Inv(t, st) && st.qi == |st.order| && InBox(t, v) && i < |v| && v[i] < t.cap[i] && Done(t, Up(v, i))
    requires s in Pool(st, v) && Leads(t, s, i, c)
    ensures !Good(t.m, st.best, c)
  {
    hide Lists, Shape, Skipped, Monotone, Gots, Level, Heard, Inside;
    if Good(t.m, st.best, c) {
      LevelUp(v, i);
      UpInBox(t, v, i);
      EdgeHas(t, Elements(Pool(st, v)), i, s);
      GotsIs(t, Pool(st, v), i);
      assert c in Elements(Gots(t, Pool(st, v), i));
      TighterSelf(t.m, st.best);
      BothBuy(t, st.best, st, st, v, i, c);
      HeardAll(t, st, Up(v, i), c);
    }
  }

  lemma TighterSelf<S(!new)>(m: System<S>, best: Option<int>)
    ensures Tighter(m, best, best)
  {
  }

  /** A search that is over has found `late` if it pruned, and one less if not. */
  lemma BestOf<S(!new)>(t: Task<S>, p: Plot<S>, late: int, prune: bool, k: nat)
    requires Story(t, p, late) && Steps(t, prune, k).qi == |Steps(t, prune, k).order|
    ensures Steps(t, prune, k).best == Some(if prune then late else late - 1)
  {
    hide Inv, Steps, Swapped, GoodOf, Pool, Before, Purchases, Monotone, Ranked, Found, Level, Leads;
    var (st, b) := (Steps(t, prune, k), if prune then late else late - 1);
    NotBelow(t, p, late, prune, k);
    StepsInv(t, prune, k);
    StepsQueued(t, prune, k);
    AlwaysSwapped(t, p, late, prune, k);
    if st.best.None? || st.best.value > b {
      assert st.order[..st.qi] == st.order;
      if prune {
        RootPool(t);
        Levels4();
        AtRoot(t, st, N0);
        Finishes(t, st, N0, t.start, late);
      } else {
        assert Ready(t, p, late, late, st, 3);
        PoolNEAB(t, p, late, late, st, prune);
        GoodMembers(t.m, Some(late), Pool(st, NEAB));
        assert p.bea in GoodOf(t.m, Some(late), Pool(st, NEAB));
        Finishes(t, st, NEAB, p.bea, late - 1);
      }
    }
  }

  lemma Finishes<S(!new)>(t: Task<S>, st: St<S>, v: Node, s: S, h: int)
    requires Monotone(t) && Inv(t, st) && st.qi == |st.order| && t.cap == [1, 1, 1, 1] && t.need == [1, 0, 0, 0]
    requires InBox(t, v) && v[0] == 0 && s in Pool(st, v) && AimAt(t, s, h)
    ensures st.best.Some? && st.best.value <= h
  {
    hide Inv, Monotone, Pool;
    Completed(t, st, v, 0, s, t.m.apply(s, 0).value);
  }

  /** Both searches end, and pruning has changed what they find. */
  lemma StoryDiffers<S(!new)>(t: Task<S>, p: Plot<S>, late: int) returns (j: nat, k: nat)
    requires Story(t, p, late)
    ensures t.Ok() && Steps(t, true, j).qi == |Steps(t, true, j).order| && Steps(t, false, k).qi == |Steps(t, false, k).order|
    ensures Steps(t, true, j).best == Some(late) && Steps(t, false, k).best == Some(late - 1)
  {
    hide Story, Visit;
    StoryOk(t, p, late);
    j := Ends(t, true, 0);
    k := Ends(t, false, 0);
    BestOf(t, p, late, true, j);
    BestOf(t, p, late, false, k);
  }
}
