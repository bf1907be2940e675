/** Where pruning cannot change the order of the queue, and with it the best horizon: at
    nodes of at most two names, and at nodes of no more purchases than are required. */
module DpQueue {
  import opened Arith
  import opened Costs
  import opened DpSets
  import opened DpModel
  import opened DpRun
  import opened DpSearch
  import opened DpOrder

  // ---- at most two names ----

  /** Nothing but names `i` and `j` has been bought. */
  ghost predicate OnTwo(w: Node, i: nat, j: nat) {
    i <= j < |w| && forall n | 0 <= n < |w| && n != i && n != j :: w[n] == 0
  }

  lemma {:induction false} LevelTwo(w: Node, i: nat, j: nat)
    requires OnTwo(w, i, j)
    ensures Level(w) == if i == j then w[i] else w[i] + w[j]
    decreases |w|
  {
    var rest := w[1..];
    if i > 0 {
      assert OnTwo(rest, i - 1, j - 1);
      LevelTwo(rest, i - 1, j - 1);
    } else if j > 0 {
      assert OnTwo(rest, j - 1, j - 1);
      LevelTwo(rest, j - 1, j - 1);
    } else {
      AllZero(rest);
    }
  }

  lemma {:induction false} AllZero(w: Node)
    requires forall n | 0 <= n < |w| :: w[n] == 0
    ensures Level(w) == 0
    decreases |w|
  {
    if w != [] { AllZero(w[1..]); }
  }

  lemma SameOnTwo(u: Node, v: Node, i: nat, j: nat)
    requires |u| == |v| && OnTwo(u, i, j) && OnTwo(v, i, j) && Level(u) == Level(v) && u[i] == v[i]
    ensures u == v
  {
    LevelTwo(u, i, j);
    LevelTwo(v, i, j);
  }

  /** Of two nodes of one level and two names, the queue has first the one with more of the
      first name. */
  ghost predicate Ranked(order: seq<Node>) {
    forall x, y, i: nat, j: nat | 0 <= x < |order| && 0 <= y < |order| && RankAbove(order[x], order[y], i, j) :: x < y
  }

  ghost predicate RankAbove(u: Node, v: Node, i: nat, j: nat) {
    OnTwo(u, i, j) && OnTwo(v, i, j) && Level(u) == Level(v) && u[i] > v[i]
  }

  /** `u` was reached by buying `n` from `p`, which was expanded, or is now. */
  ghost predicate Finder<S(!new)>(t: Task<S>, st: St<S>, v: Node, upto: nat, u: Node, p: Node, n: nat) {
    n < |p| && u == Up(p, n) && (p in st.expanded || (p == v && n < upto)) && Gots(t, Pool(st, p), n) != []
  }

  ghost predicate Found<S(!new)>(t: Task<S>, st: St<S>, v: Node, upto: nat) {
    forall u | u in st.order && u != Root(t) :: exists p: Node, n: nat :: Finder(t, st, v, upto, u, p, n)
  }

  /** No node ranked below a new child is in the queue yet. */
  lemma NoneBelow<S(!new)>(t: Task<S>, st: St<S>, v: Node, n: nat, u: Node, i: nat, j: nat)
    requires Here(t, st, v) && n < |v| && Found(t, st, v, n) && Ranked(st.order) && u in st.order
    ensures !RankAbove(Up(v, n), u, i, j)
  {
    hide Level, Shape, Ranked, Found;
    var child := Up(v, n);
    LateChild(t, st, v, n);
    assert |u| == |v| && v !in st.order[..st.qi] by { Listed(t, st, u); NotVisited(t, st, v); }
    if RankAbove(child, u, i, j) {
      RootZero(t);
      assert exists p: Node, m: nat :: Finder(t, st, v, n, u, p, m) by { FoundAt(t, st, v, n, u); }
      var p: Node, m: nat :| Finder(t, st, v, n, u, p, m);
      assert p in st.order[..st.qi] || (p == v && m < n) by { ExpandedBehind(t, st, p); }
      LevelUp(p, m);
      OnTwoDown(v, n, i, j);
      OnTwoDown(p, m, i, j);
      if p[i] < v[i] { RankedAt(st, v, p, i, j); } else { SameOnTwo(p, v, i, j); }
    }
  }

  lemma FoundAt<S(!new)>(t: Task<S>, st: St<S>, v: Node, upto: nat, u: Node)
    requires Found(t, st, v, upto) && u in st.order && u != Root(t)
    ensures exists p: Node, n: nat :: Finder(t, st, v, upto, u, p, n)
  {
  }

  lemma Listed<S(!new)>(t: Task<S>, st: St<S>, u: Node)
    requires Shape(t, st) && u in st.order
    ensures InBox(t, u)
  {
  }

  lemma NotVisited<S(!new)>(t: Task<S>, st: St<S>, v: Node)
    requires Here(t, st, v)
    ensures v !in st.order[..st.qi]
  {
  }

  lemma ExpandedBehind<S(!new)>(t: Task<S>, st: St<S>, p: Node)
    requires Shape(t, st)
    ensures p in st.expanded ==> p in st.order[..st.qi]
  {
  }

  lemma OnTwoDown(v: Node, n: nat, i: nat, j: nat)
    requires n < |v| && OnTwo(Up(v, n), i, j)
    ensures OnTwo(v, i, j) && (n == i || n == j)
  {
    assert forall k | 0 <= k < |v| && k != n :: Up(v, n)[k] == v[k];
    assert Up(v, n)[n] == v[n] + 1;
  }

  /** A node ranked below the one being visited has not been visited. */
  lemma RankedAt<S(!new)>(st: St<S>, v: Node, p: Node, i: nat, j: nat)
    requires Ranked(st.order) && st.qi < |st.order| && st.order[st.qi] == v && RankAbove(v, p, i, j)
    ensures p !in st.order[..st.qi + 1]
  {
  }

  lemma RankedChild<S(!new)>(t: Task<S>, st: St<S>, v: Node, n: nat)
    requires Here(t, st, v) && n < |v| && Found(t, st, v, n) && Ranked(st.order)
    ensures Found(t, Child(t, st, v, n), v, n + 1) && Ranked(Child(t, st, v, n).order)
  {
    hide Child, Level, Shape, RankAbove, Gots, Pool;
    var (next, child, upto) := (Child(t, st, v, n), Up(v, n), n + 1);
    ChildFrame(t, st, v, n);
    LateChild(t, st, v, n);
    if next.order != st.order { NewSells(t, st, v, n); }
    forall u | u in next.order && u != Root(t) ensures exists p: Node, m: nat :: Finder(t, next, v, upto, u, p, m) {
      if u in st.order {
        var p: Node, m: nat :| Finder(t, st, v, n, u, p, m);
        assert Finder(t, next, v, upto, u, p, m);
      } else {
        assert Finder(t, next, v, upto, u, v, n);
      }
    }
    if next.order != st.order {
      forall u, i: nat, j: nat | u in st.order ensures !RankAbove(child, u, i, j) { NoneBelow(t, st, v, n, u, i, j); }
      RankedMore(st.order, child);
    }
  }

  lemma NewSells<S(!new)>(t: Task<S>, st: St<S>, v: Node, n: nat)
    requires t.Ok() && |v| == |t.cap| && n < |v| && Child(t, st, v, n).order != st.order
    ensures Gots(t, Pool(st, v), n) != []
  {
    hide Gots, Offer, Trim;
  }

  lemma RankedMore(order: seq<Node>, child: Node)
    requires Ranked(order) && forall u, i: nat, j: nat | u in order :: !RankAbove(child, u, i, j)
    ensures Ranked(order + [child])
  {
    hide Level, OnTwo;
    var longer := order + [child];
    forall x, y, i: nat, j: nat | 0 <= x < |longer| && 0 <= y < |longer| && RankAbove(longer[x], longer[y], i, j) ensures x < y {
      if x < |order| && y < |order| {
        assert RankAbove(order[x], order[y], i, j);
      }
    }
  }

  /** Between two visits. */
  ghost predicate Queued<S(!new)>(t: Task<S>, st: St<S>) { Found(t, st, [], 0) && Ranked(st.order) }

  lemma {:induction false} KidsQueued<S(!new)>(t: Task<S>, st: St<S>, v: Node, n: nat)
    requires n <= |v| && Mid(t, st, v, 0) && Queued(t, st)
    ensures |v| == |t.cap| && Found(t, Kids(t, st, v, n), v, n) && Ranked(Kids(t, st, v, n).order)
    decreases n
  {
    hide Lists, Inside, Skipped, Heard, Shape, Child, Ranked;
    if n == 0 {
      forall u | u in st.order && u != Root(t) ensures exists p: Node, m: nat :: Finder(t, st, v, 0, u, p, m) {
        var p: Node, m: nat :| Finder(t, st, [], 0, u, p, m);
        assert Finder(t, st, v, 0, u, p, m);
      }
    } else {
      KidsQueued(t, st, v, n - 1);
      KidsMid(t, st, v, n - 1);
      RankedChild(t, Kids(t, st, v, n - 1), v, n - 1);
    }
  }

  lemma VisitQueued<S(!new)>(t: Task<S>, prune: bool, st: St<S>)
    requires Inv(t, st) && !Over(t, st) && Queued(t, st)
    ensures Queued(t, Visit(t, prune, st))
  {
    hide Lists, Inside, Skipped, Heard, Shape, Kids, Ranked, Gots;
    var v := st.order[st.qi];
    Enter(t, st);
    KidsQueued(t, st, v, |v|);
    KidsMid(t, st, v, |v|);
    var (after, next) := (Kids(t, st, v, |v|), Visit(t, prune, st));
    forall u | u in next.order && u != Root(t) ensures exists p: Node, m: nat :: Finder(t, next, [], 0, u, p, m) {
      if next.order == st.order && next == st.(qi := st.qi + 1) {
        var p: Node, m: nat :| Finder(t, st, [], 0, u, p, m);
        assert Finder(t, next, [], 0, u, p, m);
      } else {
        var p: Node, m: nat :| Finder(t, after, v, |v|, u, p, m);
        assert Finder(t, next, [], 0, u, p, m);
      }
    }
  }

  lemma {:induction false} StepsQueued<S(!new)>(t: Task<S>, prune: bool, k: nat)
    requires t.Ok()
    ensures Queued(t, Steps(t, prune, k))
  {
    hide Visit, Inv, RankAbove;
    if k > 0 {
      StepsQueued(t, prune, k - 1);
      StepsInv(t, prune, k - 1);
      if !Over(t, Steps(t, prune, k - 1)) { VisitQueued(t, prune, Steps(t, prune, k - 1)); }
    } else {
      RootAlone(t);
    }
  }

  lemma RootAlone<S(!new)>(t: Task<S>)
    ensures Queued(t, Init(t))
  {
    hide Level, OnTwo;
  }

  /** Queues never differ on the parents of a node of at most two names. */
  lemma SameWayTwo(x: seq<Node>, y: seq<Node>, w: Node, i: nat, j: nat)
    requires Ranked(x) && Ranked(y) && Distinct(x) && OnTwo(w, i, j)
    ensures SameWay(x, y, w)
  {
    hide Level, Ranked;
    forall m: nat, n: nat | m < |w| && n < |w| && w[m] > 0 && w[n] > 0
      && Precedes(x, Down(w, m), Down(w, n)) && Down(w, m) in y && Down(w, n) in y
      ensures Precedes(y, Down(w, m), Down(w, n))
    {
      var (u, v) := (Down(w, m), Down(w, n));
      LevelDown(w, m);
      LevelDown(w, n);
      RankedOnce(x, u, v, i, j);
      assert m != n by { PrecedesOther(x, u, v); }
      assert RankAbove(u, v, i, j) || RankAbove(v, u, i, j);
      RankedFirst(y, u, v, i, j);
    }
  }

  lemma PrecedesOther(l: seq<Node>, u: Node, v: Node)
    requires Distinct(l) && Precedes(l, u, v)
    ensures u != v
  {
  }

  lemma RankedOnce(l: seq<Node>, u: Node, v: Node, i: nat, j: nat)
    requires Ranked(l) && Distinct(l) && Precedes(l, u, v)
    ensures !RankAbove(v, u, i, j)
  {
    hide RankAbove;
    var x, y :| 0 <= x < y < |l| && l[x] == u && l[y] == v;
    assert RankAbove(l[y], l[x], i, j) ==> y < x;
  }

  lemma RankedFirst(l: seq<Node>, u: Node, v: Node, i: nat, j: nat)
    requires Ranked(l) && u in l && v in l && RankAbove(u, v, i, j)
    ensures Precedes(l, u, v)
  {
    hide RankAbove;
    var x :| 0 <= x < |l| && l[x] == u;
    var y :| 0 <= y < |l| && l[y] == v;
    assert RankAbove(l[x], l[y], i, j);
  }

  // ---- no more purchases than are required ----

  lemma {:induction false} LevelGrows(u: Node, v: Node)
    requires |u| == |v| && forall i | 0 <= i < |u| :: u[i] <= v[i]
    ensures Level(u) <= Level(v)
    decreases |u|
  {
    if u != [] { LevelGrows(u[1..], v[1..]); }
  }

  /** The search is over or at the last level at which nothing completes, or past it. */
  ghost predicate Late<S(!new)>(t: Task<S>, st: St<S>) { Over(t, st) || Level(st.order[st.qi]) + 1 >= Level(t.need) }

  /** Below the level of what is required nothing completes, so nothing is pruned. */
  lemma VisitEarly<S(!new)>(t: Task<S>, st: St<S>)
    requires Inv(t, st) && !Late(t, st) && st.best.None?
    ensures Visit(t, true, st) == Visit(t, false, st) && Visit(t, true, st).best.None?
  {
    hide Level, Inv, Mid, Kids, Gots, Good;
    var v := st.order[st.qi];
    EnterIn(t, st);
    KidsBest(t, st, v, |v|);
    forall i: nat | i < |v| && Done(t, Up(v, i)) ensures Level(v) + 1 >= Level(t.need) {
      LevelUp(v, i);
      LevelGrows(t.need, Up(v, i));
    }
  }

  lemma EnterIn<S(!new)>(t: Task<S>, st: St<S>)
    requires Inv(t, st) && !Over(t, st)
    ensures Mid(t, st, st.order[st.qi], 0) && |t.cap| == |t.need|
  {
    hide Lists, Heard, Skipped, Inside;
    Enter(t, st);
  }

  /** Searches of one task go together until they are late. */
  lemma {:induction false} Part<S(!new)>(t: Task<S>, k: nat) returns (j: nat)
    requires t.Ok()
    ensures j <= k && Steps(t, true, j) == Steps(t, false, j)
    ensures j == k || (Late(t, Steps(t, true, j)) && !Over(t, Steps(t, true, j)))
    ensures Steps(t, true, j).best.None? || Late(t, Steps(t, true, j))
  {
    hide Inv, Steps, Visit, Late;
    if k == 0 {
      j := 0;
      StepsStart(t, true);
      StepsStart(t, false);
    } else {
      j := Part(t, k - 1);
      if j == k - 1 {
        var st := Steps(t, true, k - 1);
        StepIs(t, true, k);
        StepIs(t, false, k);
        StepsInv(t, true, k - 1);
        if !Late(t, st) { VisitEarly(t, st); LateIs(t, st); }
        if !Late(t, st) || Over(t, st) { j := k; }
      }
    }
  }

  lemma LateIs<S(!new)>(t: Task<S>, st: St<S>)
    requires !Late(t, st)
    ensures !Over(t, st)
  {
  }

  /** What a visit adds to the queue is one level up. */
  lemma {:induction false} KidsLevel<S(!new)>(t: Task<S>, st: St<S>, v: Node, n: nat)
    requires n <= |v| && Mid(t, st, v, 0)
    ensures |v| == |t.cap| && st.order <= Kids(t, st, v, n).order
    ensures forall u | u in Kids(t, st, v, n).order && u !in st.order :: Level(u) > Level(v)
    decreases n
  {
    hide Lists, Inside, Skipped, Heard, Shape, Child, Level;
    if n > 0 {
      KidsLevel(t, st, v, n - 1);
      KidsMid(t, st, v, n - 1);
      ChildFrame(t, Kids(t, st, v, n - 1), v, n - 1);
      LevelUp(v, n - 1);
    }
  }

  lemma VisitLevel<S(!new)>(t: Task<S>, prune: bool, st: St<S>)
    requires Inv(t, st) && !Over(t, st)
    ensures st.order <= Visit(t, prune, st).order && Visit(t, prune, st).qi == st.qi + 1
    ensures forall u | u in Visit(t, prune, st).order && u !in st.order :: Level(u) > Level(st.order[st.qi])
  {
    hide Inv, Mid, Kids, Level;
    Enter(t, st);
    KidsLevel(t, st, st.order[st.qi], |st.order[st.qi]|);
    KidsMid(t, st, st.order[st.qi], |st.order[st.qi]|);
  }

  /** From a visit on, the queue grows above the level visited only. */
  lemma {:induction false} Above<S(!new)>(t: Task<S>, prune: bool, j: nat, k: nat)
    requires t.Ok() && j <= k && !Over(t, Steps(t, prune, j))
    ensures Steps(t, prune, j).order <= Steps(t, prune, k).order && Steps(t, prune, j).qi <= Steps(t, prune, k).qi
    ensures var st := Steps(t, prune, j);
            forall u | u in Steps(t, prune, k).order && u !in st.order :: Level(u) > Level(st.order[st.qi])
    decreases k - j
  {
    hide Inv, Steps, Visit, Level;
    if j < k {
      Above(t, prune, j, k - 1);
      var (st, was) := (Steps(t, prune, j), Steps(t, prune, k - 1));
      StepIs(t, prune, k);
      if !Over(t, was) {
        StepsInv(t, prune, k - 1);
        VisitLevel(t, prune, was);
        HeadHighest(t, was, st.qi);
      }
    }
  }

  lemma HeadHighest<S(!new)>(t: Task<S>, st: St<S>, k: nat)
    requires Inv(t, st) && k <= st.qi < |st.order|
    ensures Level(st.order[k]) <= Level(st.order[st.qi])
  {
    hide Level, InBox, Lists, Inside, Skipped, Heard;
  }

  lemma {:induction false} Stays<S(!new)>(t: Task<S>, prune: bool, j: nat, k: nat)
    requires t.Ok() && j <= k && Over(t, Steps(t, prune, j))
    ensures Steps(t, prune, k) == Steps(t, prune, j)
    decreases k - j
  {
    hide Visit, Over;
    if j < k { Stays(t, prune, j, k - 1); }
  }

  /** Queues that grew from one queue, above a level, agree up to that level. */
  lemma PrefixWay(z: seq<Node>, x: seq<Node>, y: seq<Node>, w: Node, level: nat)
    requires z <= x && z <= y && Distinct(x) && Level(w) <= level + 1
    requires forall u | u in x && u !in z :: Level(u) > level
    requires forall u | u in y && u !in z :: Level(u) > level
    ensures SameWay(x, y, w)
  {
    hide Level;
    forall m: nat, n: nat | m < |w| && n < |w| && w[m] > 0 && w[n] > 0
      && Precedes(x, Down(w, m), Down(w, n)) && Down(w, m) in y && Down(w, n) in y
      ensures Precedes(y, Down(w, m), Down(w, n))
    {
      var (u, v) := (Down(w, m), Down(w, n));
      LevelDown(w, m);
      LevelDown(w, n);
      var i, j :| 0 <= i < j < |x| && x[i] == u && x[j] == v;
      var k :| 0 <= k < |z| && z[k] == v;
      assert x[k] == v && j == k;
      assert y[i] == u && y[j] == v;
    }
  }

  /** Finished queues, with pruning and without, agree on the parents of every node of no
      more purchases than are required. */
  lemma SameWayEarly<S(!new)>(t: Task<S>, j: nat, k: nat, w: Node)
    requires t.Ok() && Over(t, Steps(t, true, j)) && Over(t, Steps(t, false, k)) && Level(w) <= Level(t.need)
    ensures SameWay(Steps(t, true, j).order, Steps(t, false, k).order, w)
  {
    hide Inv, Steps, SameWay, Level, Over;
    var n := Max(j, k);
    Stays(t, true, j, n);
    Stays(t, false, k, n);
    var (a, b) := (Steps(t, true, n), Steps(t, false, n));
    StepsInv(t, true, n);
    QueueDistinct(t, a);
    var i := Part(t, n);
    if i == n {
      SameWaySelf(a.order, w);
    } else {
      var st := Steps(t, true, i);
      Above(t, true, i, n);
      Above(t, false, i, n);
      LateLevel(t, st);
      PrefixWay(st.order, a.order, b.order, w, Level(st.order[st.qi]));
    }
  }

  lemma LateLevel<S(!new)>(t: Task<S>, st: St<S>)
    requires Late(t, st) && !Over(t, st)
    ensures st.qi < |st.order| && Level(t.need) <= Level(st.order[st.qi]) + 1
  {
  }

  lemma SameWaySelf(x: seq<Node>, w: Node)
    ensures SameWay(x, x, w)
  {
  }

  // ---- what is left ----

  /** At least three names and more purchases than are required, and yet something required
      is missing. */
  ghost predicate Exposed<S(!new)>(t: Task<S>, w: Node)
    requires t.Ok()
  {
    InBox(t, w) && !Done(t, w) && Level(w) > Level(t.need) && forall i: nat, j: nat :: !OnTwo(w, i, j)
  }

  /** Pruning does not change the best horizon, whatever ties elsewhere, as long as no two
      states of an exposed node tie at or below it. */
  lemma PruningKeepsBest<S(!new)>(t: Task<S>, j: nat, k: nat)
    requires t.Ok() && Monotone(t)
    requires Steps(t, true, j).qi == |Steps(t, true, j).order| && Steps(t, false, k).qi == |Steps(t, false, k).order|
    requires var best := Cut(Steps(t, true, j).best, Steps(t, false, k).best);
             forall w | Exposed(t, w) :: TieFree(t.m, Below(t.m, UpTo(best), All(t, w)))
    ensures Steps(t, true, j).best == Steps(t, false, k).best
  {
    hide Inv, Monotone, Steps, TieFree, Level, Ranked, SameWay, Distinct, OnTwo, All;
    var (a, b) := (Steps(t, true, j), Steps(t, false, k));
    StepsInv(t, true, j);
    QueueDistinct(t, a);
    StepsQueued(t, true, j);
    StepsQueued(t, false, k);
    forall w | InBox(t, w) && !Done(t, w) ensures NodeOk(t, UpTo(Cut(a.best, b.best)), a.order, b.order, w) {
      if Level(w) <= Level(t.need) {
        SameWayEarly(t, j, k, w);
      } else if i: nat, m: nat :| OnTwo(w, i, m) {
        SameWayTwo(a.order, b.order, w, i, m);
      } else {
        assert Exposed(t, w);
      }
    }
    SameBest(t, true, j, false, k);
  }

  /** Two names never tie harmfully. */
  lemma TwoNamesPrune<S(!new)>(t: Task<S>, j: nat, k: nat)
    requires t.Ok() && Monotone(t) && |t.cap| <= 2
    requires Steps(t, true, j).qi == |Steps(t, true, j).order| && Steps(t, false, k).qi == |Steps(t, false, k).order|
    ensures Steps(t, true, j).best == Steps(t, false, k).best
  {
    hide Monotone, Steps, TieFree, All;
    forall w | InBox(t, w) ensures !Exposed(t, w) {
      if |w| > 0 { assert OnTwo(w, 0, |w| - 1); } else { assert w == t.need; }
    }
    PruningKeepsBest(t, j, k);
  }

  /** With at most one purchase to spare, pruning never changes the best horizon. */
  lemma OneExtraPrune<S(!new)>(t: Task<S>, j: nat, k: nat)
    requires t.Ok() && Monotone(t) && Level(t.cap) <= Level(t.need) + 1 && forall i | 0 <= i < |t.cap| :: t.need[i] <= t.cap[i]
    requires Steps(t, true, j).qi == |Steps(t, true, j).order| && Steps(t, false, k).qi == |Steps(t, false, k).order|
    ensures Steps(t, true, j).best == Steps(t, false, k).best
  {
    hide Monotone, Steps, TieFree, All, OnTwo;
    forall w | InBox(t, w) ensures !Exposed(t, w) {
      LevelGrows(w, t.cap);
      if Level(w) == Level(t.cap) { LevelFull(w, t.cap); }
    }
    PruningKeepsBest(t, j, k);
  }

  lemma {:induction false} LevelFull(u: Node, v: Node)
    requires |u| == |v| && Level(u) == Level(v) && forall i | 0 <= i < |u| :: u[i] <= v[i]
    ensures u == v
    decreases |u|
  {
    if u != [] {
      LevelGrows(u[1..], v[1..]);
      LevelFull(u[1..], v[1..]);
      assert u == [u[0]] + u[1..] && v == [v[0]] + v[1..];
    }
  }
}
