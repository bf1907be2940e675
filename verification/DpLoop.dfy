/** The search loop: a growing queue, a dictionary of pools and a running best. */
module DpLoop {
  import opened Arith
  import opened Costs
  import opened DpSets
  import opened DpModel
  import opened DpRun
  import opened DpSearch
  import opened DpQueue

  method CollectGot<S>(t: Task<S>, pool: seq<S>, i: nat) returns (got: seq<S>)
    ensures got == Gots(t, pool, i)
  {
    hide Gots;
    got := [];
    assert pool[0..] == pool;
    for k := 0 to |pool|
      invariant Gots(t, pool, i) == got + Gots(t, pool[k..], i)
    {
      var s := pool[k];
      assert pool[k..][1..] == pool[k + 1..];
      GotsNext(t, pool[k..], i);
      if t.m.legal(s, i) {
        var next := t.m.apply(s, i);
        if next.Some? {
          got := got + [next.value];
        }
      }
    }
    GotsNone(t, i);
  }

  lemma GotsNext<S>(t: Task<S>, pool: seq<S>, i: nat)
    requires pool != []
    ensures Gots(t, pool, i)
         == (if t.m.legal(pool[0], i) && t.m.apply(pool[0], i).Some? then [t.m.apply(pool[0], i).value] else [])
            + Gots(t, pool[1..], i)
  {
  }

  lemma GotsNone<S>(t: Task<S>, i: nat)
    ensures Gots(t, [], i) == []
  {
  }

  /** A horizon and the settled state it belongs to. */
  type Answer<S> = Option<(int, S)>

  function HorizonOf<S>(best: Answer<S>): Option<int> { if best.None? then None else Some(best.value.0) }

  /** `best` belongs to a state that some order of the purchases leads to, with everything
      bought that must be. */
  ghost predicate Settled<S(!new)>(t: Task<S>, settle: S -> S, best: Answer<S>)
    requires t.Ok()
  {
    best.Some? ==> exists v, c :: InBox(t, v) && Done(t, v) && c in All(t, v) && best.value == (t.m.horizon(c), settle(c))
  }

  method OfferAll<S(!new)>(t: Task<S>, settle: S -> S, start: Answer<S>, got: seq<S>, ghost child: Node)
    returns (best: Answer<S>)
    requires t.Ok() && Settled(t, settle, start) && InBox(t, child) && Done(t, child) && forall c | c in got :: c in All(t, child)
    ensures HorizonOf(best) == Offer(t, HorizonOf(start), got) && Settled(t, settle, best)
  {
    best := start;
    for k := 0 to |got|
      invariant Offer(t, HorizonOf(start), got) == Offer(t, HorizonOf(best), got[k..]) && Settled(t, settle, best)
    {
      assert got[k..][1..] == got[k + 1..];
      var settled := settle(got[k]);
      var h := t.m.horizon(got[k]);
      if best.None? || h < best.value.0 {
        best := Some((h, settled));
      }
    }
  }

  method TrimSorted<S>(m: System<S>, l: seq<S>, keep: nat) returns (trimmed: seq<S>)
    ensures trimmed == TrimFrom(m, l, {}, Max(1, keep))
  {
    trimmed := [];
    var marks: set<Mark> := {};
    for k := 0 to |l|
      invariant |trimmed| < Max(1, keep)
      invariant TrimFrom(m, l, {}, Max(1, keep)) == trimmed + TrimFrom(m, l[k..], marks, Max(1, keep) - |trimmed|)
    {
      var x := l[k];
      assert l[k..][1..] == l[k + 1..];
      var mark := MarkOf(m, x);
      if mark in marks {
        continue;
      }
      marks := marks + {mark};
      trimmed := trimmed + [x];
      if |trimmed| >= keep {
        break;
      }
    }
  }

  // ---- the queue is finite ----

  ghost function BoxSet(cap: seq<nat>): set<Node> {
    if cap == [] then {[]} else set x, rest | 0 <= x <= cap[0] && rest in BoxSet(cap[1..]) :: [x] + rest
  }

  lemma {:induction false} InBoxSet(cap: seq<nat>, v: Node)
    requires |v| == |cap| && forall i | 0 <= i < |v| :: v[i] <= cap[i]
    ensures v in BoxSet(cap)
    decreases |cap|
  {
    if cap != [] {
      InBoxSet(cap[1..], v[1..]);
      assert v == [v[0]] + v[1..];
    } else {
      assert v == [];
    }
  }

  /** Visiting takes a node out of those not yet visited. */
  lemma FewerLeft<S(!new)>(t: Task<S>, order: seq<Node>, longer: seq<Node>, qi: nat)
    requires qi < |order| && order <= longer && InBox(t, order[qi])
    requires forall j, k | 0 <= j < k < |order| :: order[j] != order[k]
    ensures BoxSet(t.cap) - Elements(longer[..qi + 1]) < BoxSet(t.cap) - Elements(order[..qi])
  {
    hide BoxSet;
    InBoxSet(t.cap, order[qi]);
    assert longer[..qi + 1] == order[..qi] + [order[qi]];
    var (was, now) := (BoxSet(t.cap) - Elements(order[..qi]), BoxSet(t.cap) - Elements(longer[..qi + 1]));
    assert order[qi] !in order[..qi];
    assert order[qi] in was && order[qi] !in now && now <= was;
  }

  /** Buy one more of name `i` from every state of `node`. */
  method BuyOne<S(!new)>(t: Task<S>, settle: S -> S, nodes: map<Node, seq<S>>, order: seq<Node>, seen: set<Node>,
                         best: Answer<S>, node: Node, i: nat, ghost qi: nat, ghost expanded: set<Node>)
    returns (nodes': map<Node, seq<S>>, order': seq<Node>, seen': set<Node>, best': Answer<S>)
    requires t.Ok() && InBox(t, node) && i < |node| && node in nodes && seen == Elements(order)
    requires Settled(t, settle, best) && forall s | s in nodes[node] :: s in All(t, node)
    ensures St(nodes', order', qi, HorizonOf(best'), expanded) == Child(t, St(nodes, order, qi, HorizonOf(best), expanded), node, i)
    ensures seen' == Elements(order') && order <= order' && node in nodes' && nodes'[node] == nodes[node]
    ensures Settled(t, settle, best')
  {
    hide Gots, Offer, Sort, TrimFrom, All, Settled;
    nodes', order', seen', best' := nodes, order, seen, best;
    if node[i] >= t.cap[i] {
      return;
    }
    var child := node[i := node[i] + 1];
    assert child[i] != node[i];
    var got := CollectGot(t, nodes[node], i);
    if got == [] {
      return;
    }
    if Done(t, child) {
      BoughtInAll(t, node, nodes[node], i);
      best' := OfferAll(t, settle, best, got, child);
    }
    var cur := if child in nodes then nodes[child] else [];
    cur := Sort(t.m, cur + got);
    var trimmed := TrimSorted(t.m, cur, t.keep);
    nodes' := nodes[child := trimmed];
    if child !in seen {
      seen' := seen + {child};
      order' := order + [child];
    }
  }

  /** The reference has a best horizon, or nothing completes; and only one. */
  lemma BestExists<S(!new)>(t: Task<S>) returns (best: Option<int>)
    requires t.Ok()
    ensures IsBest(t, best) && forall other | IsBest(t, other) :: other == best
  {
    hide Cands, BoxSet;
    var ends := set v, c | v in BoxSet(t.cap) && c in Cands(t, v) && Completes(t, v, c) :: c;
    forall v, c | Completes(t, v, c) ensures c in ends {
      InBoxSet(t.cap, v);
      assert v in BoxSet(t.cap) && c in Cands(t, v);
    }
    if ends == {} {
      best := None;
    } else {
      var c := Minimal(t.m, ends);
      var v :| v in BoxSet(t.cap) && c in Cands(t, v) && Completes(t, v, c);
      best := Some(t.m.horizon(c));
    }
  }

  lemma BoughtInAll<S(!new)>(t: Task<S>, v: Node, pool: seq<S>, i: nat)
    requires InBox(t, v) && i < |v| && v[i] < t.cap[i] && forall s | s in pool :: s in All(t, v)
    ensures InBox(t, Up(v, i)) && forall c | c in Gots(t, pool, i) :: c in All(t, Up(v, i))
  {
    hide Gots, All, Edge;
    UpInBox(t, v, i);
    LevelUp(v, i);
    GotsIs(t, pool, i);
    EdgeInAll(t, Up(v, i), i, Elements(pool));
    forall c | c in Gots(t, pool, i) ensures c in All(t, Up(v, i)) { assert c in Elements(Gots(t, pool, i)); }
  }

  /** With pruning or without it, the search gives the best horizon of the reference, as
      long as purchases never bring the horizon forward and no two states with the same
      purchases tie at or below that horizon. In any case it stops, after the visits that
      `Steps` describes, and what it gives is a settled state that buys everything required
      and the horizon of that state. */
  method Search<S(!new)>(t: Task<S>, settle: S -> S, prune: bool, ghost goal: Option<int>) returns (best: Answer<S>)
    requires t.Ok()
    ensures IsBest(t, goal) && Apt(t, UpTo(goal)) ==> HorizonOf(best) == goal
    ensures exists k: nat :: Steps(t, prune, k).qi == |Steps(t, prune, k).order| && HorizonOf(best) == Steps(t, prune, k).best
    ensures Settled(t, settle, best)
  {
    hide Lists, Inside, Heard, Skipped, Apt, IsBest, Trim, Gots, Offer, Shape, Kids, Child, BoxSet, Steps, Settled;
    var nodes: map<Node, seq<S>> := map[Root(t) := [t.start]];
    var order: seq<Node> := [Root(t)];
    var seen := {Root(t)};
    var qi: nat := 0;
    best := None;
    ghost var expanded: set<Node> := {};
    ghost var visits: nat := 0;
    InitInv(t);
    StepsStart(t, prune);
    NothingSettled(t, settle);
    while qi < |order|
      invariant qi <= |order| && seen == Elements(order) && Settled(t, settle, best)
      invariant Inv(t, St(nodes, order, qi, HorizonOf(best), expanded))
      invariant St(nodes, order, qi, HorizonOf(best), expanded) == Steps(t, prune, visits)
      decreases BoxSet(t.cap) - Elements(order[..qi])
    {
      ghost var st := St(nodes, order, qi, HorizonOf(best), expanded);
      VisitInv(t, prune, st);
      StepIs(t, prune, visits + 1);
      var node := order[qi];
      qi, visits := qi + 1, visits + 1;
      Listed(t, st);
      var pool := nodes[node];
      if pool == [] || (prune && Hopeless(t, HorizonOf(best), pool)) {
        FewerLeft(t, st.order, order, st.qi);
        continue;
      }
      Enter(t, st);
      KidsNone(t, st, node);
      InsideAt(t, st, node);
      for i := 0 to |t.cap|
        invariant seen == Elements(order) && st.order <= order && Settled(t, settle, best)
        invariant St(nodes, order, st.qi, HorizonOf(best), expanded) == Kids(t, st, node, i)
        invariant node in nodes && nodes[node] == pool
      {
        KidsNext(t, st, node, i);
        nodes, order, seen, best := BuyOne(t, settle, nodes, order, seen, best, node, i, st.qi, expanded);
      }
      expanded := expanded + {node};
      FewerLeft(t, st.order, order, st.qi);
    }
    if IsBest(t, goal) && Apt(t, UpTo(goal)) { OverIsBest(t, goal, prune, visits); }
  }

  lemma NothingSettled<S(!new)>(t: Task<S>, settle: S -> S)
    requires t.Ok()
    ensures Settled(t, settle, None)
  {
  }

  lemma InsideAt<S(!new)>(t: Task<S>, st: St<S>, v: Node)
    requires Inside(t, st) && InBox(t, v)
    ensures forall s | s in Pool(st, v) :: s in All(t, v)
  {
  }

  lemma Listed<S(!new)>(t: Task<S>, st: St<S>)
    requires Shape(t, st) && st.qi < |st.order|
    ensures st.order[st.qi] in st.nodes && InBox(t, st.order[st.qi])
    ensures forall j, k | 0 <= j < k < |st.order| :: st.order[j] != st.order[k]
  {
    assert st.order[st.qi] in Elements(st.order);
  }

  /** Every search comes to an end. */
  lemma {:induction false} Ends<S(!new)>(t: Task<S>, prune: bool, from: nat) returns (k: nat)
    requires t.Ok() && Steps(t, prune, from).qi <= |Steps(t, prune, from).order|
    ensures Steps(t, prune, k).qi == |Steps(t, prune, k).order|
    decreases BoxSet(t.cap) - Elements(Steps(t, prune, from).order[..Steps(t, prune, from).qi])
  {
    hide Lists, Inside, Skipped, Heard, Visit, BoxSet, Steps, Shape;
    var st := Steps(t, prune, from);
    StepsInv(t, prune, from);
    k := from;
    if st.qi < |st.order| {
      VisitInv(t, prune, st);
      VisitLevel(t, prune, st);
      StepIs(t, prune, from + 1);
      Listed(t, st);
      FewerLeft(t, st.order, Steps(t, prune, from + 1).order, st.qi);
      ShapeEnd(t, Steps(t, prune, from + 1));
      k := Ends(t, prune, from + 1);
    }
  }

  lemma ShapeEnd<S(!new)>(t: Task<S>, st: St<S>)
    requires Shape(t, st)
    ensures st.qi <= |st.order|
  {
  }
}
