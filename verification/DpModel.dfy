/** The search over orderings of a purchase multiset: a queue of lattice nodes and a pool
    of states at each. */
module DpModel {
  import opened Arith
  import opened Costs
  import opened DpSets

  /** How many of each name have been bought. */
  type Node = seq<nat>

  /** What must and may be bought, and how many states a node keeps. */
  datatype Task<!S> = Task(m: System<S>, cap: seq<nat>, need: seq<nat>, keep: nat, start: S) {
    predicate Ok() { |cap| == |need| }
  }

  function Zeros(n: nat): Node { seq(n, _ => 0) }

  function Root<S>(t: Task<S>): Node { Zeros(|t.cap|) }

  predicate InBox<S>(t: Task<S>, v: Node) { |v| == |t.cap| && forall i | 0 <= i < |v| :: v[i] <= t.cap[i] }

  function Up(v: Node, i: nat): Node
    requires i < |v|
  {
    v[i := v[i] + 1]
  }

  function Down(v: Node, i: nat): Node
    requires i < |v| && v[i] > 0
  {
    v[i := v[i] - 1]
  }

  /** Everything that must be bought has been. */
  predicate Done<S>(t: Task<S>, v: Node)
    requires t.Ok() && |v| == |t.cap|
  {
    forall j | 0 <= j < |v| :: v[j] >= t.need[j]
  }

  /** The states one purchase leads to. */
  function Gots<S>(t: Task<S>, pool: seq<S>, i: nat): seq<S> {
    if pool == [] then []
    else (if t.m.legal(pool[0], i) && t.m.apply(pool[0], i).Some? then [t.m.apply(pool[0], i).value] else [])
         + Gots(t, pool[1..], i)
  }

  /** The best horizon after seeing `got`. */
  function Offer<S>(t: Task<S>, best: Option<int>, got: seq<S>): Option<int>
    decreases |got|
  {
    if got == [] then best
    else
      var h := t.m.horizon(got[0]);
      Offer(t, if best.None? || h < best.value then Some(h) else best, got[1..])
  }

  /** `expanded` records the nodes whose children were generated. */
  datatype St<!S> = St(nodes: map<Node, seq<S>>, order: seq<Node>, qi: nat, best: Option<int>, expanded: set<Node>)

  function Init<S>(t: Task<S>): St<S> { St(map[Root(t) := [t.start]], [Root(t)], 0, None, {}) }

  function Pool<S>(st: St<S>, v: Node): seq<S> { if v in st.nodes then st.nodes[v] else [] }

  /** Buy one more of name `i` from every state of `v`. */
  function Child<S>(t: Task<S>, st: St<S>, v: Node, i: nat): St<S>
    requires t.Ok() && |v| == |t.cap| && i < |v|
  {
    var got := Gots(t, Pool(st, v), i);
    var child := Up(v, i);
    if v[i] >= t.cap[i] || got == [] then st
    else
      st.(best := if Done(t, child) then Offer(t, st.best, got) else st.best,
          nodes := st.nodes[child := Trim(t.m, Pool(st, child) + got, t.keep)],
          order := if child in st.order then st.order else st.order + [child])
  }

  /** The first `n` names, in turn. */
  function Kids<S>(t: Task<S>, st: St<S>, v: Node, n: nat): St<S>
    requires t.Ok() && |v| == |t.cap| && n <= |v|
  {
    if n == 0 then st else Child(t, Kids(t, st, v, n - 1), v, n - 1)
  }

  /** Every state of the pool is at or above the best horizon found. */
  predicate Hopeless<S>(t: Task<S>, best: Option<int>, pool: seq<S>) {
    best.Some? && forall i | 0 <= i < |pool| :: t.m.horizon(pool[i]) >= best.value
  }

  /** Take the next node off the queue. */
  function Visit<S>(t: Task<S>, prune: bool, st: St<S>): St<S>
    requires t.Ok() && st.qi < |st.order| && |st.order[st.qi]| == |t.cap|
  {
    var v := st.order[st.qi];
    if Pool(st, v) == [] || (prune && Hopeless(t, st.best, Pool(st, v))) then st.(qi := st.qi + 1)
    else
      var after := Kids(t, st, v, |v|);
      after.(qi := st.qi + 1, expanded := after.expanded + {v})
  }

  /** The state after `k` visits; a search that is over stays as it is. */
  function Steps<S>(t: Task<S>, prune: bool, k: nat): St<S>
    requires t.Ok()
  {
    if k == 0 then Init(t)
    else
      var st := Steps(t, prune, k - 1);
      if Over(t, st) then st else Visit(t, prune, st)
  }

  predicate Over<S>(t: Task<S>, st: St<S>) { st.qi >= |st.order| || |st.order[st.qi]| != |t.cap| }

  // ---- what the search should find, without a queue ----

  function Level(v: Node): nat { if v == [] then 0 else v[0] + Level(v[1..]) }

  /** One purchase of `i` from a set of states. */
  ghost function Edge<S(!new)>(t: Task<S>, a: set<S>, i: nat): set<S> {
    set s | s in a && t.m.legal(s, i) && t.m.apply(s, i).Some? :: t.m.apply(s, i).value
  }

  lemma LevelDown(v: Node, i: nat)
    requires i < |v| && v[i] > 0
    ensures Level(Down(v, i)) == Level(v) - 1
    decreases |v|
  {
    if i > 0 {
      LevelDown(v[1..], i - 1);
      assert Down(v, i)[1..] == Down(v[1..], i - 1);
    } else {
      assert Down(v, i)[1..] == v[1..];
    }
  }

  lemma LevelUp(v: Node, i: nat)
    requires i < |v|
    ensures Level(Up(v, i)) == Level(v) + 1 && Down(Up(v, i), i) == v
  {
    assert Down(Up(v, i), i) == v;
    LevelDown(Up(v, i), i);
  }

  /** Every state that some order of the purchases in `v` leads to. */
  ghost function All<S(!new)>(t: Task<S>, v: Node): set<S>
    decreases Level(v), 1, 0
  {
    if Level(v) == 0 then {t.start} else AllFrom(t, v, 0)
  }

  /** Those of them whose last purchase was of a name from `k` on. */
  ghost function AllFrom<S(!new)>(t: Task<S>, v: Node, k: nat): set<S>
    requires k <= |v|
    decreases Level(v), 0, |v| - k
  {
    if k == |v| then {}
    else (if v[k] == 0 then {} else LevelDown(v, k); Edge(t, All(t, Down(v, k)), k)) + AllFrom(t, v, k + 1)
  }

  /** The states that reach `v` from what its parents keep. */
  ghost function Cands<S(!new)>(t: Task<S>, v: Node): set<S>
    decreases Level(v), 1, 0
  {
    CandsFrom(t, v, 0)
  }

  ghost function CandsFrom<S(!new)>(t: Task<S>, v: Node, k: nat): set<S>
    requires k <= |v|
    decreases Level(v), 0, |v| - k
  {
    if k == |v| then {}
    else (if v[k] == 0 then {} else LevelDown(v, k); Edge(t, Keep(t, Down(v, k)), k)) + CandsFrom(t, v, k + 1)
  }

  /** The states `v` keeps. */
  ghost function Keep<S(!new)>(t: Task<S>, v: Node): set<S>
    decreases Level(v), 2, 0
  {
    if Level(v) == 0 then {t.start} else KeptSet(t.m, Cands(t, v), Max(1, t.keep))
  }

  /** No purchase brings the horizon forward. */
  ghost predicate Monotone<S(!new)>(t: Task<S>) {
    forall v, s, i | InBox(t, v) && s in All(t, v) && t.m.legal(s, i) && t.m.apply(s, i).Some? ::
      t.m.horizon(t.m.apply(s, i).value) >= t.m.horizon(s)
  }

  /** No two states below `lim` with the same purchases have the same sort key. */
  ghost predicate TiesApart<S(!new)>(t: Task<S>, lim: Option<int>) {
    forall v | InBox(t, v) :: TieFree(t.m, Below(t.m, lim, All(t, v)))
  }

  /** The bound that takes in the best horizon itself; none when there is none. */
  function UpTo(best: Option<int>): Option<int> { if best.None? then None else Some(best.value + 1) }

  /** `c` reaches a node where everything that must be bought has been. */
  ghost predicate Completes<S(!new)>(t: Task<S>, v: Node, c: S)
    requires t.Ok()
  {
    InBox(t, v) && Level(v) > 0 && Done(t, v) && c in Cands(t, v)
  }

  /** `best` is the least horizon of any state that completes what must be bought. */
  ghost predicate IsBest<S(!new)>(t: Task<S>, best: Option<int>)
    requires t.Ok()
  {
    && (forall v, c | Completes(t, v, c) :: best.Some? && best.value <= t.m.horizon(c))
    && (best.Some? ==> Attained(t, best.value))
  }

  ghost predicate Attained<S(!new)>(t: Task<S>, h: int)
    requires t.Ok()
  {
    exists v, c :: Completes(t, v, c) && t.m.horizon(c) == h
  }
}
