/** Searches over a few told histories, in which states are what was bought, in order. One
    history completes early on; of two that tie, the one kept decides how the search ends, and
    pruning turns their order round. */
module DpTales {
  import opened Costs
  import opened DpSets
  import opened DpModel
  import opened DpRun
  import opened DpSearch
  import opened DpOrder
  import opened DpQueue
  import DpLoop
  import DpTies

  type History = seq<nat>

  /** How many of each of `n` names a history buys. */
  function Tally(n: nat, s: History): (v: Node)
    ensures |v| == n
  {
    if s == [] then Zeros(n)
    else
      var (v, i) := (Tally(n, s[..|s| - 1]), s[|s| - 1]);
      if i < n then Up(v, i) else v
  }

  function Front(s: History): History
    requires s != []
  {
    s[..|s| - 1]
  }

  function Last(s: History): nat
    requires s != []
  {
    s[|s| - 1]
  }

  /** `s` and `s'` have the same length and `s` has the smaller name where they first differ. */
  ghost predicate LexLess(s: History, s': History) {
    |s| == |s'| && exists d :: 0 <= d < |s| && s[..d] == s'[..d] && s[d] < s'[d]
  }

  /** `aim` completes what is required. `dead` takes as long and leads where `right` leads.
      `left` and `right` lead, with one purchase more each, to one node where they tie, and
      completing from there with `rest` is quicker after `right`. */
  datatype Tale = Tale(aim: History, dead: History, left: History, a: nat, right: History, b: nat, rest: History)
  {
    function Slow(): History { left + [a] + rest }
    function Quick(): History { right + [b] + rest }

    predicate Told(s: History) { s <= aim || s <= dead || s <= Slow() || s <= Quick() }

    function When(s: History): int {
      if s == Quick() then 1
      else if s == aim || s == Slow() || (dead != [] && Front(dead) <= s) then 2
      else 0
    }
  }

  function Sells(p: Tale): System<History> {
    System((s: History, i: nat) => p.Told(s + [i]), (s: History, i: nat) => Some(s + [i]),
           (s: History) => p.When(s), (s: History) => 0, (s: History) => 0)
  }

  function Shaped(p: Tale, cap: seq<nat>, need: seq<nat>): Task<History> { Task(Sells(p), cap, need, 1, []) }

  /** Two told histories with the same purchases. */
  ghost predicate Pair(p: Tale, s: History, s': History) {
    (s == p.dead && s' == p.right) || (p.left + [p.a] <= s && p.right + [p.b] <= s')
  }

  ghost predicate Fits(cap: seq<nat>, s: History) {
    (forall i | 0 <= i < |s| :: s[i] < |cap|) && forall i | 0 <= i < |cap| :: Tally(|cap|, s)[i] <= cap[i]
  }

  ghost predicate Alike(p: Tale, n: nat) {
    forall s, s' | p.Told(s) && p.Told(s') && s != s' && Tally(n, s) == Tally(n, s') :: Pair(p, s, s') || Pair(p, s', s)
  }

  /** What is told fits; only `dead` and `right`, and what follows `left` and `right`, have the
      same purchases; and only the aim and the two ends complete. */
  ghost predicate Sound(p: Tale, cap: seq<nat>, need: seq<nat>) {
    && |cap| == |need| && p.aim != [] && |p.left| == |p.right| == |p.dead| >= 2 && p.rest != []
    && |p.aim| <= |p.dead| && p.aim != p.dead
    && Tally(|cap|, p.left + [p.a]) == Tally(|cap|, p.right + [p.b]) && Tally(|cap|, p.dead) == Tally(|cap|, p.right)
    && AllFit(p, cap) && Alike(p, |cap|) && CompletesOnly(p, need) && NoFurther(p)
  }

  ghost predicate AllFit(p: Tale, cap: seq<nat>) { forall s | p.Told(s) :: Fits(cap, s) }

  ghost predicate CompletesOnly(p: Tale, need: seq<nat>) {
    forall s | p.Told(s) :: Meets(need, Tally(|need|, s)) <==> s == p.aim || s == p.Slow() || s == p.Quick()
  }

  ghost predicate NoFurther(p: Tale) {
    && p.dead != [] && (forall s | p.Told(s) && p.aim <= s :: s == p.aim)
    && (forall s | p.Told(s) && Front(p.dead) <= s :: s == Front(p.dead) || s == p.dead)
  }

  ghost predicate Meets(need: seq<nat>, v: Node) { |v| == |need| && forall i | 0 <= i < |v| :: v[i] >= need[i] }

  /** The order in which a queue meets them: the aim before the dead end, which without pruning
      is before `left`, and `left` before `right`. */
  ghost predicate InTurn(p: Tale)
    requires p.aim != [] && p.dead != [] && p.right != []
  {
    && LexLess(p.dead, p.left) && LexLess(p.left, p.right) && LexLess(Front(p.dead), Front(p.right))
    && (|p.aim| == |p.dead| ==> LexLess(Front(p.aim), Front(p.dead)))
  }

  ghost predicate Valid(p: Tale, cap: seq<nat>, need: seq<nat>) { Sound(p, cap, need) && InTurn(p) }

  // ---- histories ----

  lemma TallyNext(n: nat, s: History, i: nat)
    requires i < n
    ensures Tally(n, s + [i]) == Up(Tally(n, s), i)
  {
    assert (s + [i])[..|s|] == s;
  }

  lemma {:induction false} TallyLevel(n: nat, s: History)
    requires forall i | 0 <= i < |s| :: s[i] < n
    ensures Level(Tally(n, s)) == |s|
    decreases |s|
  {
    if s == [] {
      RootLevel(n);
    } else {
      TallyLevel(n, Front(s));
      LevelUp(Tally(n, Front(s)), Last(s));
    }
  }

  lemma Split(s: History)
    requires s != []
    ensures s == Front(s) + [Last(s)] && |Front(s)| == |s| - 1
  {
  }

  lemma PrefixTold(p: Tale, s: History, s': History)
    requires p.Told(s') && s <= s'
    ensures p.Told(s)
  {
  }

  /** Told histories of the same purchases have the same length. */
  lemma ToldLevel(p: Tale, cap: seq<nat>, need: seq<nat>, s: History)
    requires Sound(p, cap, need) && p.Told(s)
    ensures Level(Tally(|cap|, s)) == |s| && InBox(Shaped(p, cap, need), Tally(|cap|, s))
  {
    hide Alike, CompletesOnly, NoFurther, Tally, Level, Tale.Told;
    assert Fits(cap, s);
    TallyLevel(|cap|, s);
  }

  lemma ToldNext(p: Tale, cap: seq<nat>, need: seq<nat>, s: History, i: nat)
    requires Sound(p, cap, need) && p.Told(s + [i])
    ensures p.Told(s) && i < |cap| && Tally(|cap|, s + [i]) == Up(Tally(|cap|, s), i)
  {
    hide Alike, CompletesOnly, NoFurther, Tally, Level, Tale.Told;
    assert Fits(cap, s + [i]) && (s + [i])[|s|] == i;
    PrefixTold(p, s, s + [i]);
    TallyNext(|cap|, s, i);
  }

  /** Before the tie, purchases determine the history. */
  lemma Sole(p: Tale, cap: seq<nat>, need: seq<nat>, s: History, s': History)
    requires Sound(p, cap, need) && p.Told(s) && p.Told(s') && Tally(|cap|, s) == Tally(|cap|, s')
    ensures |s| == |s'|
    ensures |s| < |p.left| ==> s == s'
    ensures |s| == |p.left| && s != s' ==> (s == p.dead && s' == p.right) || (s == p.right && s' == p.dead)
  {
    hide AllFit, CompletesOnly, NoFurther, Tally, Level, Tale.Told;
    ToldLevel(p, cap, need, s);
    ToldLevel(p, cap, need, s');
    if s != s' {
      assert Pair(p, s, s') || Pair(p, s', s);
      hide Alike, Pair;
      PairLength(p, s, s');
      PairLength(p, s', s);
    }
  }

  lemma PairLength(p: Tale, s: History, s': History)
    ensures Pair(p, s, s') ==> (s == p.dead && s' == p.right) || |s| > |p.left|
  {
  }

  lemma LexFront(x: History, y: History)
    requires LexLess(x, y)
    ensures x != [] && y != []
    ensures LexLess(Front(x), Front(y)) || (Front(x) == Front(y) && Last(x) < Last(y))
  {
    var d :| 0 <= d < |x| && x[..d] == y[..d] && x[d] < y[d];
    if d < |x| - 1 {
      assert Front(x)[..d] == x[..d] && Front(y)[..d] == y[..d] && Front(x)[d] < Front(y)[d];
    }
  }

  lemma LexApart(x: History, y: History)
    requires LexLess(x, y)
    ensures x != y
  {
  }

  // ---- pools ----

  lemma WhenGrows(p: Tale, s: History, i: nat)
    requires NoFurther(p) && |p.left| == |p.right| && |p.aim| <= |p.dead| <= |p.left| && p.dead != [] && p.Told(s + [i])
    ensures p.When(s + [i]) >= p.When(s)
  {
    hide NoFurther, Tale.Told;
    var c := s + [i];
    assert s <= c && c != s;
    TooLong(p, c);
    NoFurtherAt(p, c);
    assert Front(p.dead) <= s ==> Front(p.dead) <= c;
    assert p.aim <= s ==> p.aim <= c;
  }

  lemma NoFurtherAt(p: Tale, c: History)
    requires NoFurther(p) && p.Told(c) && p.dead != []
    ensures p.aim <= c ==> c == p.aim
    ensures Front(p.dead) <= c ==> c == Front(p.dead) || c == p.dead
  {
    hide Tale.Told;
  }

  lemma TooLong(p: Tale, c: History)
    requires |p.left| == |p.right| && |p.aim| <= |p.dead| <= |p.left| && p.Told(c)
    ensures |c| <= |p.Slow()| == |p.Quick()|
  {
  }

  lemma TaleMonotone(p: Tale, cap: seq<nat>, need: seq<nat>)
    requires Sound(p, cap, need)
    ensures Monotone(Shaped(p, cap, need))
  {
    hide All, AllFit, Alike, CompletesOnly, Tally, Tale.Told, Tale.When, NoFurther;
    forall s: History, i: nat | p.Told(s + [i]) ensures p.When(s + [i]) >= p.When(s) { WhenGrows(p, s, i); }
  }

  lemma {:induction false} AllTold(p: Tale, cap: seq<nat>, need: seq<nat>, v: Node, s: History)
    requires Sound(p, cap, need) && InBox(Shaped(p, cap, need), v) && s in All(Shaped(p, cap, need), v)
    ensures p.Told(s) && Tally(|cap|, s) == v
    decreases Level(v)
  {
    hide Sound, Tale.Told, AllFrom;
    var t := Shaped(p, cap, need);
    if Level(v) == 0 {
      ZeroLevel(v);
      assert v == Zeros(|cap|);
      Untold(p);
    } else {
      var i, from := AllCases(t, v, s);
      ParentBox(t, v, i);
      AllTold(p, cap, need, Down(v, i), from);
      ToldNext(p, cap, need, from, i);
      NameDown(v, i);
      assert Up(Down(v, i), i) == v;
    }
  }

  lemma Untold(p: Tale)
    ensures p.Told([])
  {
  }

  /** A search between two visits, or between two purchases from `v`. */
  ghost predicate At<S(!new)>(t: Task<S>, st: St<S>, v: Node, upto: nat) {
    && t.Ok() && Shape(t, st) && Lists(t, st, v, upto) && Inside(t, st) && Found(t, st, v, upto) && (upto > 0 ==> v in st.order)
  }

  lemma {:induction false} TrimRoom<S(!new)>(m: System<S>, l: seq<S>, marks: set<Mark>, room: nat)
    ensures |TrimFrom(m, l, marks, room)| <= room
    decreases |l|
  {
    if l != [] && room > 0 {
      if MarkOf(m, l[0]) in marks { TrimRoom(m, l[1..], marks, room); }
      else { TrimRoom(m, l[1..], marks + {MarkOf(m, l[0])}, room - 1); }
    }
  }

  /** What was sold is in the queue, and what is in the queue was sold. */
  lemma SoldAt<S(!new)>(t: Task<S>, st: St<S>, v: Node, upto: nat, f: Node, i: nat)
    requires At(t, st, v, upto) && EdgeDone(st, v, upto, f, i) && i < |f| && InBox(t, Up(f, i)) && Gots(t, Pool(st, f), i) != []
    ensures Pool(st, Up(f, i)) != [] && Up(f, i) in st.order
  {
    hide Inside, Gots, Arrivals, NameFrom, Trim, Level, Found;
    var w := Up(f, i);
    LevelUp(f, i);
    assert f in st.order by { if f in st.expanded { ExpandedListed(t, st, f); } }
    var k :| 0 <= k < |st.order| && st.order[k] == f;
    NameIs(f, i);
    ArrivalHas(t, st, v, upto, |st.order|, k, w);
    var c := Gots(t, Pool(st, f), i)[0];
    assert c in Block(t, st, v, upto, f, w);
    assert c in Arrived(t, st, v, upto, w);
    DpTies.TrimSome(t.m, Arrived(t, st, v, upto, w), t.keep);
    assert w in Elements(st.order);
  }

  lemma QueuedPool<S(!new)>(t: Task<S>, st: St<S>, v: Node, upto: nat, u: Node)
    requires At(t, st, v, upto) && u in st.order && t.keep == 1
    ensures |Pool(st, u)| == 1
  {
    hide Inside, Gots, Arrived, NameFrom, Level, Sort, TrimFrom;
    Listed(t, st, u);
    if u != Root(t) {
      FoundAt(t, st, v, upto, u);
      var f: Node, n: nat :| Finder(t, st, v, upto, u, f, n);
      SoldAt(t, st, v, upto, f, n);
      LevelUp(f, n);
      TrimRoom(t.m, Sort(t.m, Arrived(t, st, v, upto, u)), {}, 1);
    }
  }

  /** Every pool holds one told history. */
  lemma PoolTold(p: Tale, cap: seq<nat>, need: seq<nat>, st: St<History>, v: Node, upto: nat, u: Node) returns (s: History)
    requires Sound(p, cap, need) && At(Shaped(p, cap, need), st, v, upto) && u in st.order
    ensures Pool(st, u) == [s] && p.Told(s) && Tally(|cap|, s) == u
  {
    hide Sound, Lists, Found, Tale.Told, All, Tally;
    var t := Shaped(p, cap, need);
    QueuedPool(t, st, v, upto, u);
    Listed(t, st, u);
    s := Pool(st, u)[0];
    AllTold(p, cap, need, u, s);
  }

  lemma PoolSole(p: Tale, cap: seq<nat>, need: seq<nat>, st: St<History>, v: Node, upto: nat, x: History)
    requires Sound(p, cap, need) && At(Shaped(p, cap, need), st, v, upto) && p.Told(x) && |x| < |p.left| && Tally(|cap|, x) in st.order
    ensures Pool(st, Tally(|cap|, x)) == [x]
  {
    hide Sound, At, Tale.Told, Tally;
    var s := PoolTold(p, cap, need, st, v, upto, Tally(|cap|, x));
    Sole(p, cap, need, x, s);
  }

  lemma SellsNext(p: Tale, cap: seq<nat>, need: seq<nat>, x: History, i: nat)
    requires p.Told(x + [i])
    ensures Gots(Shaped(p, cap, need), [x], i) == [x + [i]]
  {
    hide Tale.Told;
    DpTies.GotsLead(Shaped(p, cap, need), x, i, x + [i]);
  }

  /** A node that holds `x` and has been expanded leads to every told continuation. */
  lemma LeadsOn(p: Tale, cap: seq<nat>, need: seq<nat>, st: St<History>, v: Node, upto: nat, x: History, i: nat)
    requires Sound(p, cap, need) && At(Shaped(p, cap, need), st, v, upto) && p.Told(x + [i]) && Pool(st, Tally(|cap|, x)) == [x]
    requires EdgeDone(st, v, upto, Tally(|cap|, x), i)
    ensures i < |cap| && Tally(|cap|, x + [i]) == Up(Tally(|cap|, x), i) && Tally(|cap|, x + [i]) in st.order
  {
    hide Sound, At, Tale.Told, Tally, Gots;
    ToldNext(p, cap, need, x, i);
    ToldLevel(p, cap, need, x + [i]);
    SellsNext(p, cap, need, x, i);
    SoldAt(Shaped(p, cap, need), st, v, upto, Tally(|cap|, x), i);
  }

  // ---- the order of the queue ----

  /** The histories that first lead to their nodes. */
  ghost predicate Alive(p: Tale, prune: bool, s: History) {
    p.Told(s) && |s| <= |p.left| && s != if prune then p.dead else p.right
  }

  ghost predicate Lexed(p: Tale, n: nat, prune: bool, order: seq<Node>) {
    forall x, y | Alive(p, prune, x) && Alive(p, prune, y) && LexLess(x, y) && Tally(n, y) in order ::
      Precedes(order, Tally(n, x), Tally(n, y))
  }

  /** Nodes visited, other than the dead end when pruning, were expanded if they lead on. */
  ghost predicate Tried(p: Tale, n: nat, prune: bool, visited: seq<Node>, expanded: set<Node>) {
    p.dead != [] && forall x: History, i: nat | p.Told(x + [i]) && |x| < |p.left| && (prune ==> x != Front(p.dead)) && Tally(n, x) in visited ::
      Tally(n, x) in expanded
  }

  lemma AliveSole(p: Tale, cap: seq<nat>, need: seq<nat>, prune: bool, s: History, s': History)
    requires Sound(p, cap, need) && Alive(p, prune, s) && p.Told(s') && Tally(|cap|, s) == Tally(|cap|, s')
    ensures s == s' || (prune && s == p.right && s' == p.dead) || (!prune && s == p.dead && s' == p.right)
  {
    hide Sound, Tale.Told, Tally;
    Sole(p, cap, need, s, s');
  }

  lemma PrecedesIn(l: seq<Node>, u: Node, v: Node)
    requires Precedes(l, u, v)
    ensures u in l && v in l
  {
  }

  /** What precedes the node being visited has been visited. */
  lemma PrecedesHead<S(!new)>(t: Task<S>, st: St<S>, v: Node, u: Node)
    requires Here(t, st, v) && Precedes(st.order, u, v)
    ensures u in st.order[..st.qi]
  {
    hide Level, InBox;
  }

  lemma LexedAt(p: Tale, n: nat, prune: bool, order: seq<Node>, x: History, y: History)
    requires Lexed(p, n, prune, order) && Alive(p, prune, x) && Alive(p, prune, y) && LexLess(x, y) && Tally(n, y) in order
    ensures Precedes(order, Tally(n, x), Tally(n, y)) && Tally(n, x) in order
  {
    hide Alive, LexLess, Tally, Precedes;
    PrecedesIn(order, Tally(n, x), Tally(n, y));
  }

  lemma TriedAt(p: Tale, n: nat, prune: bool, visited: seq<Node>, expanded: set<Node>, x: History, i: nat)
    requires NoFurther(p) && Tried(p, n, prune, visited, expanded) && p.Told(x + [i]) && |x| < |p.left| && Tally(n, x) in visited
    requires prune ==> x + [i] != p.dead
    ensures Tally(n, x) in expanded
  {
    hide Tale.Told, Tally, NoFurther;
    NoFurtherAt(p, x + [i]);
    assert x <= x + [i] && x + [i] != x;
  }

  /** The search is at `v`, and its queue and what it expanded are as they should be. */
  ghost predicate Along(p: Tale, cap: seq<nat>, need: seq<nat>, prune: bool, st: St<History>, v: Node, upto: nat) {
    && Sound(p, cap, need) && Here(Shaped(p, cap, need), st, v) && At(Shaped(p, cap, need), st, v, upto)
    && Lexed(p, |cap|, prune, st.order) && Tried(p, |cap|, prune, st.order[..st.qi], st.expanded)
  }

  /** A history whose first part comes before the one held here has led to its node already. */
  lemma FoundFar(p: Tale, cap: seq<nat>, need: seq<nat>, prune: bool, st: St<History>, v: Node, upto: nat, s: History, x: History, j: nat)
    requires Along(p, cap, need, prune, st, v, upto) && v == Tally(|cap|, s) && p.Told(s) && |s| < |p.left|
    requires Alive(p, prune, x + [j]) && LexLess(x, s)
    ensures Tally(|cap|, x + [j]) in st.order
  {
    hide Sound, At, Tale.Told, Tally, Shape, LexLess, Precedes, Lexed, Tried;
    var u := Tally(|cap|, x);
    PrefixTold(p, x, x + [j]);
    Shorter(p, cap, need, prune, x);
    Shorter(p, cap, need, prune, s);
    LexedAt(p, |cap|, prune, st.order, x, s);
    PrecedesHead(Shaped(p, cap, need), st, v, u);
    PoolSole(p, cap, need, st, v, upto, x);
    assert NoFurther(p) by { SoundEnds(p, cap, need); }
    TriedAt(p, |cap|, prune, st.order[..st.qi], st.expanded, x, j);
    LeadsOn(p, cap, need, st, v, upto, x, j);
  }

  lemma SoundEnds(p: Tale, cap: seq<nat>, need: seq<nat>)
    requires Sound(p, cap, need)
    ensures NoFurther(p) && |p.left| == |p.right| == |p.dead| >= 2 && |cap| == |need| && p.aim != []
  {
  }

  lemma Shorter(p: Tale, cap: seq<nat>, need: seq<nat>, prune: bool, s: History)
    requires Sound(p, cap, need) && p.Told(s) && |s| < |p.left|
    ensures Alive(p, prune, s)
  {
  }

  /** A history before the one just found has led to its node already. */
  lemma FoundBefore(p: Tale, cap: seq<nat>, need: seq<nat>, prune: bool, st: St<History>, v: Node, i: nat, s: History, x: History)
    requires Along(p, cap, need, prune, st, v, i) && Pool(st, v) == [s] && v == Tally(|cap|, s) && |s| < |p.left| && p.Told(s + [i])
    requires Alive(p, prune, x) && LexLess(x, s + [i])
    ensures Tally(|cap|, x) in st.order
  {
    hide Sound, At, Tale.Told, Tally, Shape, LexLess, Lexed, Tried, Here;
    LexFront(x, s + [i]);
    assert Front(s + [i]) == s && Last(s + [i]) == i;
    Split(x);
    PrefixTold(p, s, s + [i]);
    if LexLess(Front(x), s) {
      FoundFar(p, cap, need, prune, st, v, i, s, Front(x), Last(x));
    } else {
      LeadsOn(p, cap, need, st, v, i, s, Last(x));
    }
  }

  /** Which history a new node was found by. */
  lemma NewIsAlive(p: Tale, cap: seq<nat>, need: seq<nat>, prune: bool, st: St<History>, v: Node, i: nat, s: History, y: History)
    requires Along(p, cap, need, prune, st, v, i) && InTurn(p) && v == Tally(|cap|, s) && p.Told(s + [i])
    requires Tally(|cap|, s + [i]) !in st.order && (prune ==> s != Front(p.dead))
    requires Alive(p, prune, y) && Tally(|cap|, y) == Tally(|cap|, s + [i])
    ensures y == s + [i]
  {
    hide Sound, At, Tale.Told, Tally, Shape, LexLess, Lexed, Tried, Here;
    AliveSole(p, cap, need, prune, y, s + [i]);
    SoundEnds(p, cap, need);
    assert Front(s + [i]) == s;
    if !prune && y == p.dead && s + [i] == p.right {
      Split(p.dead);
      PrefixTold(p, s, s + [i]);
      FoundFar(p, cap, need, prune, st, v, i, s, Front(p.dead), Last(p.dead));
    }
  }

  lemma ChildLexed(p: Tale, cap: seq<nat>, need: seq<nat>, prune: bool, st: St<History>, v: Node, i: nat, s: History)
    requires Along(p, cap, need, prune, st, v, i) && InTurn(p) && i < |v| && Pool(st, v) == [s] && v == Tally(|cap|, s)
    requires prune ==> s != Front(p.dead)
    ensures Lexed(p, |cap|, prune, Child(Shaped(p, cap, need), st, v, i).order)
  {
    hide Sound, At, Tale.Told, Tally, Shape, LexLess, Tried, Child, Alive, Gots;
    var t := Shaped(p, cap, need);
    var (next, child) := (Child(t, st, v, i), Up(v, i));
    ChildFrame(t, st, v, i);
    if next.order != st.order {
      NewSells(t, st, v, i);
      NewTold(p, cap, need, s, i);
      ToldNext(p, cap, need, s, i);
      assert child !in st.order by { NewIsNew(t, st, v, i); }
      forall x, y | Alive(p, prune, x) && Alive(p, prune, y) && LexLess(x, y) && Tally(|cap|, y) in next.order
        ensures Precedes(next.order, Tally(|cap|, x), Tally(|cap|, y))
      {
        if Tally(|cap|, y) in st.order {
          PrecedesMore(st.order, child, Tally(|cap|, x), Tally(|cap|, y));
        } else {
          NewIsAlive(p, cap, need, prune, st, v, i, s, y);
          AliveLength(p, prune, y);
          FoundBefore(p, cap, need, prune, st, v, i, s, x);
          PrecedesLast(st.order, child, Tally(|cap|, x));
        }
      }
    }
  }

  lemma AliveLength(p: Tale, prune: bool, y: History)
    requires Alive(p, prune, y)
    ensures |y| <= |p.left|
  {
  }

  lemma NewTold(p: Tale, cap: seq<nat>, need: seq<nat>, s: History, i: nat)
    requires Gots(Shaped(p, cap, need), [s], i) != []
    ensures p.Told(s + [i])
  {
    hide Tale.Told;
    assert [s][1..] == [] && Gots(Shaped(p, cap, need), [], i) == [];
  }

  lemma NewIsNew<S(!new)>(t: Task<S>, st: St<S>, v: Node, i: nat)
    requires t.Ok() && |v| == |t.cap| && i < |v| && Child(t, st, v, i).order != st.order
    ensures Up(v, i) !in st.order
  {
    hide Gots, Offer, Trim;
  }

  lemma PrecedesMore(l: seq<Node>, w: Node, u: Node, v: Node)
    requires Precedes(l, u, v)
    ensures Precedes(l + [w], u, v)
  {
    var i, j :| 0 <= i < j < |l| && l[i] == u && l[j] == v;
    assert (l + [w])[i] == u && (l + [w])[j] == v;
  }

  lemma PrecedesLast(l: seq<Node>, w: Node, u: Node)
    requires u in l
    ensures Precedes(l + [w], u, w)
  {
    var i :| 0 <= i < |l| && l[i] == u;
    assert (l + [w])[i] == u && (l + [w])[|l|] == w;
  }

  // ---- every run ----

  lemma {:induction false} KidsLexed(p: Tale, cap: seq<nat>, need: seq<nat>, prune: bool, st: St<History>, v: Node, n: nat, s: History)
    requires Valid(p, cap, need) && n <= |v| && Mid(Shaped(p, cap, need), st, v, 0) && Queued(Shaped(p, cap, need), st)
    requires Lexed(p, |cap|, prune, st.order) && Tried(p, |cap|, prune, st.order[..st.qi], st.expanded)
    requires Pool(st, v) == [s] && v == Tally(|cap|, s) && (prune ==> s != Front(p.dead))
    ensures |v| == |cap| && Lexed(p, |cap|, prune, Kids(Shaped(p, cap, need), st, v, n).order)
    decreases n
  {
    hide Sound, InTurn, Tale.Told, Tally, Lexed, Tried, Child, Inside, Lists, Skipped, Heard, Shape, Found, Ranked, Pool;
    var t := Shaped(p, cap, need);
    if n > 0 {
      var was := Kids(t, st, v, n - 1);
      KidsLexed(p, cap, need, prune, st, v, n - 1, s);
      KidsMid(t, st, v, n - 1);
      KidsQueued(t, st, v, n - 1);
      KidsBest(t, st, v, n - 1);
      assert was.order[..st.qi] == st.order[..st.qi];
      assert v in was.order by { HeadIn(t, was, v); }
      ChildLexed(p, cap, need, prune, was, v, n - 1, s);
    }
  }

  lemma HeadIn<S(!new)>(t: Task<S>, st: St<S>, v: Node)
    requires Here(t, st, v)
    ensures v in st.order
  {
  }

  lemma EndsLate(p: Tale, cap: seq<nat>, need: seq<nat>, c: History)
    requires Sound(p, cap, need) && p.Told(c) && Done(Shaped(p, cap, need), Tally(|cap|, c))
    ensures c == p.aim || c == p.Slow() || c == p.Quick()
  {
    hide AllFit, Alike, NoFurther, Tally, Tale.Told;
    assert Meets(need, Tally(|need|, c));
  }

  ghost predicate Positive(best: Option<int>) { best.None? || best.value >= 1 }

  /** What improves the best is one of the three ends. */
  lemma ImprovesEnds(p: Tale, cap: seq<nat>, need: seq<nat>, st: St<History>, i: nat, c: History)
    requires Sound(p, cap, need) && Inv(Shaped(p, cap, need), st) && !Over(Shaped(p, cap, need), st)
    requires Improves(Shaped(p, cap, need), st, st.order[st.qi], i, c)
    ensures p.Told(c) && Tally(|cap|, c) == Up(st.order[st.qi], i) && (c == p.aim || c == p.Slow() || c == p.Quick())
  {
    hide Sound, Tale.Told, Tally, Lists, Skipped, Heard, All, Gots, Level;
    var (t, v) := (Shaped(p, cap, need), st.order[st.qi]);
    assert InBox(t, v);
    UpInBox(t, v, i);
    BoughtInside(t, st, v, i);
    AllTold(p, cap, need, Up(v, i), c);
    EndsLate(p, cap, need, c);
  }

  lemma BestPositive(p: Tale, cap: seq<nat>, need: seq<nat>, prune: bool, k: nat)
    requires Sound(p, cap, need)
    ensures |cap| == |need| && Positive(Steps(Shaped(p, cap, need), prune, k).best)
  {
    hide Sound, Tale.Told, Tally, Inv, Steps, Improves;
    var t := Shaped(p, cap, need);
    SoundEnds(p, cap, need);
    if Steps(t, prune, k).best.Some? {
      var j, i, c := Cause(t, prune, k);
      StepsInv(t, prune, j);
      ImprovesEnds(p, cap, need, Steps(t, prune, j), i, c);
    }
  }

  /** Without pruning every node that holds something is expanded. */
  ghost predicate AllTried<S(!new)>(st: St<S>) {
    st.qi <= |st.order| && forall u | u in st.order[..st.qi] && Pool(st, u) != [] :: u in st.expanded
  }

  lemma VisitTried<S(!new)>(t: Task<S>, st: St<S>)
    requires Inv(t, st) && !Over(t, st) && AllTried(st)
    ensures AllTried(Visit(t, false, st))
  {
    hide Inv, Mid, Kids, Level, Pool;
    var v := st.order[st.qi];
    InvOk(t, st);
    Enter(t, st);
    KidsMid(t, st, v, |v|);
    DpTies.KidsPools(t, st, v, |v|);
    var (after, next) := (Kids(t, st, v, |v|), Visit(t, false, st));
    DpTies.SamePool(after, st.qi + 1, after.expanded + {v});
    DpTies.SamePool(st, st.qi + 1, st.expanded);
    assert next.order[..next.qi] == st.order[..st.qi] + [v];
    forall u | u in st.order[..st.qi] + [v] ensures Level(u) <= Level(v) {
      var k :| 0 <= k <= st.qi && st.order[k] == u;
      HeadHighest(t, st, k);
    }
  }

  lemma {:induction false} StepsTried<S(!new)>(t: Task<S>, k: nat)
    requires t.Ok()
    ensures AllTried(Steps(t, false, k))
  {
    hide Visit, Inv, Steps;
    if k == 0 {
      StepsStart(t, false);
    } else {
      StepsTried(t, k - 1);
      StepsInv(t, false, k - 1);
      StepIs(t, false, k);
      if !Over(t, Steps(t, false, k - 1)) { VisitTried(t, Steps(t, false, k - 1)); }
    }
  }

  /** A told history that goes on, other than the dead end, is early. */
  lemma WhenZero(p: Tale, cap: seq<nat>, need: seq<nat>, x: History, i: nat)
    requires Sound(p, cap, need) && p.Told(x + [i]) && x != Front(p.dead)
    ensures p.When(x) == 0
  {
    hide Alike, AllFit, CompletesOnly, NoFurther, Tale.Told, Tally;
    var c := x + [i];
    assert x <= c && c != x && Front(c) == x;
    assert Front(p.dead) <= x ==> Front(p.dead) <= c;
    assert p.aim <= x ==> p.aim <= c;
    NoFurtherAt(p, c);
    TooLong(p, c);
  }

  /** Between two visits, at any time. */
  ghost predicate Running(p: Tale, cap: seq<nat>, need: seq<nat>, prune: bool, st: St<History>) {
    && Valid(p, cap, need) && Inv(Shaped(p, cap, need), st) && Queued(Shaped(p, cap, need), st)
    && Positive(st.best) && (!prune ==> AllTried(st))
  }

  lemma RunningAt(p: Tale, cap: seq<nat>, need: seq<nat>, prune: bool, st: St<History>)
    requires Running(p, cap, need, prune, st)
    ensures Sound(p, cap, need) && InTurn(p) && At(Shaped(p, cap, need), st, [], 0)
  {
    hide Sound, InTurn, Shape, Lists, Inside, Found, Heard, Skipped;
  }

  /** A visited node with an early history, or any without pruning, was expanded. */
  lemma WasExpanded(p: Tale, cap: seq<nat>, need: seq<nat>, prune: bool, st: St<History>, u: Node, x: History)
    requires Running(p, cap, need, prune, st) && u in st.order[..st.qi] && Pool(st, u) == [x] && (!prune || p.When(x) == 0)
    ensures u in st.expanded
  {
    hide Valid, Shape, Lists, Inside, Heard, Queued, Tale.When;
    assert x in Pool(st, u);
    if prune { assert Good(Shaped(p, cap, need).m, st.best, x); }
  }

  lemma TriedHere(p: Tale, cap: seq<nat>, need: seq<nat>, prune: bool, st: St<History>)
    requires Running(p, cap, need, prune, st)
    ensures st.qi <= |st.order| && Tried(p, |cap|, prune, st.order[..st.qi], st.expanded)
  {
    hide Tally, Tale.Told, Tale.When, Sound, At, Inv, Queued, InTurn, AllTried;
    RunningAt(p, cap, need, prune, st);
    SoundEnds(p, cap, need);
    InvShape(Shaped(p, cap, need), st);
    forall x: History, i: nat | p.Told(x + [i]) && |x| < |p.left| && (prune ==> x != Front(p.dead)) && Tally(|cap|, x) in st.order[..st.qi]
      ensures Tally(|cap|, x) in st.expanded
    {
      PrefixTold(p, x, x + [i]);
      PoolSole(p, cap, need, st, [], 0, x);
      if prune { WhenZero(p, cap, need, x, i); }
      WasExpanded(p, cap, need, prune, st, Tally(|cap|, x), x);
    }
  }

  /** Below the level being visited, every history that avoids the dead end has been followed. */
  lemma {:induction false} ChainIn(p: Tale, cap: seq<nat>, need: seq<nat>, prune: bool, st: St<History>, level: nat, x: History)
    requires Running(p, cap, need, prune, st) && Behind(Shaped(p, cap, need), st, level)
    requires p.Told(x) && |x| <= level && |x| < |p.left|
    ensures Tally(|cap|, x) in st.order
    decreases |x|
  {
    hide Tally, Tale.Told, Sound, At, Inv, Queued, InTurn, AllTried, Level, Valid;
    var t := Shaped(p, cap, need);
    RunningAt(p, cap, need, prune, st);
    if x == [] {
      RootIn(p, cap, need, st);
    } else {
      var (y, i) := (Front(x), Last(x));
      Split(x);
      PrefixTold(p, y, x);
      ChainIn(p, cap, need, prune, st, level, y);
      ToldLevel(p, cap, need, y);
      TriedHere(p, cap, need, prune, st);
      SoundEnds(p, cap, need);
      TriedAt(p, |cap|, prune, st.order[..st.qi], st.expanded, y, i);
      PoolSole(p, cap, need, st, [], 0, y);
      LeadsOn(p, cap, need, st, [], 0, y, i);
    }
  }

  lemma RootIn(p: Tale, cap: seq<nat>, need: seq<nat>, st: St<History>)
    requires Inv(Shaped(p, cap, need), st)
    ensures Tally(|cap|, []) in st.order
  {
    hide Lists, Inside, Skipped, Heard;
  }

  /** When the dead end is visited the aim has been found. */
  lemma AimFound(p: Tale, cap: seq<nat>, need: seq<nat>, prune: bool, st: St<History>)
    requires Running(p, cap, need, prune, st) && Lexed(p, |cap|, prune, st.order) && p.dead != []
    requires st.qi < |st.order| && st.order[st.qi] == Tally(|cap|, Front(p.dead))
    ensures st.best.Some? && st.best.value <= 2
  {
    hide Tally, Tale.Told, At, Queued, AllTried, Level, Lexed, LexLess, Lists, Inside, Skipped, Heard, Precedes, AllFit, Alike, CompletesOnly, NoFurther;
    var (t, v, x) := (Shaped(p, cap, need), Tally(|cap|, Front(p.dead)), Front(p.aim));
    RunningAt(p, cap, need, prune, st);
    SoundEnds(p, cap, need);
    AimsTold(p);
    Split(p.aim);
    PrefixTold(p, x, p.aim);
    ToldLevel(p, cap, need, Front(p.dead));
    BehindHead(t, st);
    var u := Tally(|cap|, x);
    if |p.aim| == |p.dead| {
      Shorter(p, cap, need, prune, x);
      Shorter(p, cap, need, prune, Front(p.dead));
      LexedAt(p, |cap|, prune, st.order, x, Front(p.dead));
      PrecedesHead(t, st, v, u);
    } else {
      ChainIn(p, cap, need, prune, st, |p.dead| - 1, x);
      ToldLevel(p, cap, need, x);
    }
    TriedHere(p, cap, need, prune, st);
    TriedAt(p, |cap|, prune, st.order[..st.qi], st.expanded, x, Last(p.aim));
    PoolSole(p, cap, need, st, [], 0, x);
    AimHeard(p, cap, need, st);
  }

  lemma AimsTold(p: Tale)
    ensures p.Told(p.aim) && p.Told(p.dead) && p.Told(p.Slow()) && p.Told(p.Quick()) && p.Told(p.left) && p.Told(p.right)
    ensures p.dead != [] ==> p.Told(Front(p.dead))
  {
    assert p.left <= p.Slow() && p.right <= p.Quick();
  }

  /** What completes from an expanded node has been offered. */
  lemma EndHeard(p: Tale, cap: seq<nat>, need: seq<nat>, st: St<History>, x: History, i: nat)
    requires Sound(p, cap, need) && Inv(Shaped(p, cap, need), st) && Queued(Shaped(p, cap, need), st)
    requires p.Told(x + [i]) && (x + [i] == p.aim || x + [i] == p.Slow() || x + [i] == p.Quick())
    requires Tally(|cap|, x) in st.expanded && Pool(st, Tally(|cap|, x)) == [x]
    ensures st.best.Some? && st.best.value <= p.When(x + [i])
  {
    hide Tally, Tale.Told, Level, Lists, Inside, Skipped, AllFit, Alike, NoFurther, Gots, NameFrom, Arrivals, Tale.When;
    var (t, u, c) := (Shaped(p, cap, need), Tally(|cap|, x), x + [i]);
    ToldNext(p, cap, need, x, i);
    ToldLevel(p, cap, need, c);
    SellsNext(p, cap, need, x, i);
    assert Done(t, Tally(|cap|, c)) by { assert Meets(need, Tally(|need|, c)); }
    ExpandedListed(t, st, u);
    var k :| 0 <= k < |st.order| && st.order[k] == u;
    ArrivalHas(t, st, [], 0, |st.order|, k, Up(u, i));
    BlockIs(t, st, u, i);
    assert c in Arrived(t, st, [], 0, Up(u, i));
    HeardAll(t, st, Up(u, i), c);
  }

  lemma AimHeard(p: Tale, cap: seq<nat>, need: seq<nat>, st: St<History>)
    requires Sound(p, cap, need) && Inv(Shaped(p, cap, need), st) && Queued(Shaped(p, cap, need), st)
    requires Tally(|cap|, Front(p.aim)) in st.expanded && Pool(st, Tally(|cap|, Front(p.aim))) == [Front(p.aim)]
    ensures st.best.Some? && st.best.value <= 2
  {
    hide Tally, Tale.Told, Inv, Queued, AllFit, Alike, CompletesOnly, NoFurther;
    AimsTold(p);
    Split(p.aim);
    EndHeard(p, cap, need, st, Front(p.aim), Last(p.aim));
  }

  // ---- so the order of the queue is that of the histories ----

  lemma VisitLexed(p: Tale, cap: seq<nat>, need: seq<nat>, prune: bool, st: St<History>)
    requires Running(p, cap, need, prune, st) && !Over(Shaped(p, cap, need), st) && Lexed(p, |cap|, prune, st.order) && p.dead != []
    requires prune ==> Tally(|cap|, Front(p.dead)) !in st.expanded
    ensures |cap| == |need| && Lexed(p, |cap|, prune, Visit(Shaped(p, cap, need), prune, st).order)
    ensures prune ==> Tally(|cap|, Front(p.dead)) !in Visit(Shaped(p, cap, need), prune, st).expanded
  {
    hide Tally, Tale.Told, At, Lexed, Sound, InTurn, Kids, Inv, Queued, AllTried, Pool;
    var (t, v) := (Shaped(p, cap, need), st.order[st.qi]);
    RunningAt(p, cap, need, prune, st);
    SoundEnds(p, cap, need);
    TriedHere(p, cap, need, prune, st);
    assert v in st.order;
    var s := PoolTold(p, cap, need, st, [], 0, v);
    Enter(t, st);
    KidsMid(t, st, v, |v|);
    if prune && v == Tally(|cap|, Front(p.dead)) {
      AimsTold(p);
      AimFound(p, cap, need, prune, st);
      PoolSole(p, cap, need, st, [], 0, Front(p.dead));
      assert p.When(Front(p.dead)) >= 1;
      DeadHopeless(p, cap, need, st.best);
    } else {
      KidsLexed(p, cap, need, prune, st, v, |v|, s);
    }
  }

  lemma DeadHopeless(p: Tale, cap: seq<nat>, need: seq<nat>, best: Option<int>)
    requires Sound(p, cap, need) && best.Some? && best.value <= 2
    ensures Hopeless(Shaped(p, cap, need), best, [Front(p.dead)])
  {
    hide AllFit, Alike, CompletesOnly, NoFurther, Tally;
    assert Front(p.dead) != p.Quick();
  }

  lemma {:induction false} StepsLexed(p: Tale, cap: seq<nat>, need: seq<nat>, prune: bool, k: nat)
    requires Valid(p, cap, need)
    ensures |cap| == |need| && p.dead != []
    ensures var st := Steps(Shaped(p, cap, need), prune, k);
            && Running(p, cap, need, prune, st) && Lexed(p, |cap|, prune, st.order)
            && (prune ==> Tally(|cap|, Front(p.dead)) !in st.expanded)
    decreases k
  {
    hide Tally, Tale.Told, Lexed, Sound, InTurn, Visit, Inv, Queued, AllTried, Steps;
    var t := Shaped(p, cap, need);
    SoundEnds(p, cap, need);
    StepsInv(t, prune, k);
    StepsQueued(t, prune, k);
    BestPositive(p, cap, need, prune, k);
    if !prune { StepsTried(t, k); }
    if k == 0 {
      StepsStart(t, prune);
      StartLexed(p, cap, need, prune);
    } else {
      StepsLexed(p, cap, need, prune, k - 1);
      StepIs(t, prune, k);
      if !Over(t, Steps(t, prune, k - 1)) { VisitLexed(p, cap, need, prune, Steps(t, prune, k - 1)); }
    }
  }

  lemma StartLexed(p: Tale, cap: seq<nat>, need: seq<nat>, prune: bool)
    requires Sound(p, cap, need)
    ensures Lexed(p, |cap|, prune, Init(Shaped(p, cap, need)).order)
  {
    hide Sound, Tale.Told, Tally;
    forall x, y | Alive(p, prune, x) && Alive(p, prune, y) && LexLess(x, y) ensures Tally(|cap|, y) != Zeros(|cap|) {
      ToldLevel(p, cap, need, y);
      RootLevel(|cap|);
    }
  }

  // ---- the tie ----

  /** The first of a list is all that is kept of it. */
  lemma TrimBest<S(!new)>(m: System<S>, l: seq<S>, x: S)
    requires x in l && forall y | y in l && y != x :: Before(m, x, y)
    ensures Trim(m, l, 1) == [x]
  {
    var r := Sort(m, l);
    SortIs(m, l);
    var k :| 0 <= k < |r| && r[k] == x;
    assert r[0] in l;
    assert k > 0 ==> !Before(m, r[k], r[0]);
    assert TrimFrom(m, r, {}, 1) == [x] + TrimFrom(m, r[1..], {MarkOf(m, x)}, 0);
  }

  ghost predicate Settled(p: Tale, cap: seq<nat>, need: seq<nat>, prune: bool, st: St<History>, level: nat) {
    Running(p, cap, need, prune, st) && Lexed(p, |cap|, prune, st.order) && Behind(Shaped(p, cap, need), st, level)
  }

  lemma TaleEnds(p: Tale)
    requires p.aim != [] && p.dead != [] && p.right != [] && InTurn(p)
    ensures p.left != p.dead && p.right != p.dead && p.left != p.right && p.left + [p.a] != p.right + [p.b]
  {
    hide LexLess;
    LexApart(p.dead, p.left);
    LexApart(p.left, p.right);
    LexApart(Front(p.dead), Front(p.right));
    assert (p.left + [p.a])[..|p.left|] == p.left && (p.right + [p.b])[..|p.right|] == p.right;
  }

  /** A history that goes on has been followed to its node. */
  lemma Followed(p: Tale, cap: seq<nat>, need: seq<nat>, prune: bool, st: St<History>, x: History, i: nat)
    requires Settled(p, cap, need, prune, st, |x| + 1) && p.Told(x + [i]) && |x| < |p.left| && x + [i] != p.dead
    ensures Tally(|cap|, x + [i]) in st.order && x + [i] in Arrived(Shaped(p, cap, need), st, [], 0, Tally(|cap|, x + [i]))
  {
    hide Tally, Tale.Told, Sound, At, Queued, InTurn, AllTried, Level, Lexed, Valid, Gots, NameFrom, Arrivals, Lists, Inside, Heard, Skipped;
    var (t, u) := (Shaped(p, cap, need), Tally(|cap|, x));
    RunningAt(p, cap, need, prune, st);
    SoundEnds(p, cap, need);
    PrefixTold(p, x, x + [i]);
    ChainIn(p, cap, need, prune, st, |x| + 1, x);
    ToldLevel(p, cap, need, x);
    TriedHere(p, cap, need, prune, st);
    TriedAt(p, |cap|, prune, st.order[..st.qi], st.expanded, x, i);
    PoolSole(p, cap, need, st, [], 0, x);
    LeadsOn(p, cap, need, st, [], 0, x, i);
    ToArrived(p, cap, need, st, x, i);
  }

  lemma ToArrived(p: Tale, cap: seq<nat>, need: seq<nat>, st: St<History>, x: History, i: nat)
    requires Sound(p, cap, need) && Inv(Shaped(p, cap, need), st) && p.Told(x + [i])
    requires Tally(|cap|, x) in st.expanded && Pool(st, Tally(|cap|, x)) == [x]
    ensures i < |cap| && Tally(|cap|, x + [i]) == Up(Tally(|cap|, x), i)
    ensures x + [i] in Arrived(Shaped(p, cap, need), st, [], 0, Tally(|cap|, x + [i]))
  {
    hide Tally, Tale.Told, Sound, Gots, NameFrom, Arrivals, Lists, Inside, Heard, Skipped, Level;
    var (t, u) := (Shaped(p, cap, need), Tally(|cap|, x));
    ToldNext(p, cap, need, x, i);
    SellsNext(p, cap, need, x, i);
    ExpandedListed(t, st, u);
    var k :| 0 <= k < |st.order| && st.order[k] == u;
    ArrivalHas(t, st, [], 0, |st.order|, k, Up(u, i));
    BlockIs(t, st, u, i);
  }

  lemma LeftPool(p: Tale, cap: seq<nat>, need: seq<nat>, prune: bool, st: St<History>)
    requires Settled(p, cap, need, prune, st, |p.left|)
    ensures Tally(|cap|, p.left) in st.order && Pool(st, Tally(|cap|, p.left)) == [p.left]
  {
    hide Tally, Tale.Told, Sound, At, Queued, InTurn, AllTried, Lexed, Inv, Arrived, Behind;
    RunningAt(p, cap, need, prune, st);
    SoundEnds(p, cap, need);
    AimsTold(p);
    TaleEnds(p);
    Split(p.left);
    Followed(p, cap, need, prune, st, Front(p.left), Last(p.left));
    var s := PoolTold(p, cap, need, st, [], 0, Tally(|cap|, p.left));
    Sole(p, cap, need, p.left, s);
  }

  lemma RightPool(p: Tale, cap: seq<nat>, need: seq<nat>, prune: bool, st: St<History>)
    requires Settled(p, cap, need, prune, st, |p.right|)
    ensures Tally(|cap|, p.right) in st.order && Pool(st, Tally(|cap|, p.right)) == [p.right]
  {
    hide Tally, Tale.Told, Sound, At, Queued, InTurn, AllTried, Lexed, Arrived, Behind, Trim, Skipped, Heard, Shape, All, Tale.When;
    var (t, w) := (Shaped(p, cap, need), Tally(|cap|, p.right));
    RunningAt(p, cap, need, prune, st);
    SoundEnds(p, cap, need);
    AimsTold(p);
    TaleEnds(p);
    Split(p.right);
    Followed(p, cap, need, prune, st, Front(p.right), Last(p.right));
    ToldLevel(p, cap, need, p.right);
    ArrivedInAll(t, st, [], 0, w);
    RightEarly(p, cap, need);
    forall y | y in Arrived(t, st, [], 0, w) && y != p.right ensures Before(t.m, p.right, y) {
      AllTold(p, cap, need, w, y);
      Sole(p, cap, need, p.right, y);
    }
    TrimBest(t.m, Arrived(t, st, [], 0, w), p.right);
  }

  lemma RightEarly(p: Tale, cap: seq<nat>, need: seq<nat>)
    requires Sound(p, cap, need)
    ensures p.When(p.right) == 0 && p.When(p.left) == 0 && p.When(p.dead) == 2
    ensures p.When(p.left + [p.a]) == 0 && p.When(p.right + [p.b]) == 0
  {
    hide AllFit, Alike, CompletesOnly, NoFurther, Tally, Tale.Told, Tale.When;
    AimsTold(p);
    var (x, y) := (p.left + [p.a], p.right + [p.b]);
    assert x <= p.Slow() && y <= p.Quick() && x + [p.rest[0]] <= p.Slow() && y + [p.rest[0]] <= p.Quick();
    PrefixTold(p, x, p.Slow());
    PrefixTold(p, y, p.Quick());
    PrefixTold(p, x + [p.rest[0]], p.Slow());
    PrefixTold(p, y + [p.rest[0]], p.Quick());
    WhenZero(p, cap, need, p.right, p.b);
    WhenZero(p, cap, need, p.left, p.a);
    WhenZero(p, cap, need, x, p.rest[0]);
    WhenZero(p, cap, need, y, p.rest[0]);
    DeadLate(p);
  }

  lemma DeadLate(p: Tale)
    requires |p.left| == |p.right| == |p.dead| >= 2
    ensures p.When(p.dead) == 2
  {
    assert Front(p.dead) <= p.dead;
    assert |p.Quick()| > |p.dead|;
  }

  /** What has arrived at a node is what each node of the queue contributed, in turn. */
  lemma {:induction false} ArrivedConcat<S(!new)>(t: Task<S>, st: St<S>, w: Node, n: nat, f: Node -> seq<S>)
    requires n <= |st.order| && forall u :: f(u) == Block(t, st, [], 0, u, w)
    ensures Arrivals(t, st, [], 0, n, w) == Concat(st.order[..n], f)
    decreases n
  {
    hide Block;
    if n > 0 {
      ArrivedConcat(t, st, w, n - 1, f);
      assert st.order[..n][..n - 1] == st.order[..n - 1] && st.order[..n][n - 1] == st.order[n - 1];
    }
  }

  /** Where a told arrival came from. */
  lemma CameFrom(p: Tale, cap: seq<nat>, need: seq<nat>, st: St<History>, u: Node, w: Node, c: History)
    requires Sound(p, cap, need) && Inv(Shaped(p, cap, need), st) && u in st.order && InBox(Shaped(p, cap, need), w)
    requires c in Block(Shaped(p, cap, need), st, [], 0, u, w)
    ensures p.Told(c) && Tally(|cap|, c) == w && c != [] && Front(c) in Pool(st, u) && Tally(|cap|, Front(c)) == u
  {
    hide Sound, Tale.Told, Tally, Lists, Heard, Skipped, Level, All, NameFrom, Edge;
    var t := Shaped(p, cap, need);
    NameBack(u, w);
    var i := NameFrom(u, w).value;
    Listed(t, st, u);
    BoughtInside(t, st, u, i);
    AllTold(p, cap, need, w, c);
    GotsIs(t, Pool(st, u), i);
    assert c in Elements(Gots(t, Pool(st, u), i));
    EdgeFrom(t, Elements(Pool(st, u)), i, c);
    var s :| s in Elements(Pool(st, u)) && t.m.legal(s, i) && t.m.apply(s, i).Some? && t.m.apply(s, i).value == c;
    assert Front(c) == s;
    AllTold(p, cap, need, u, s);
  }

  lemma EdgeFrom<S(!new)>(t: Task<S>, a: set<S>, i: nat, c: S)
    requires c in Edge(t, a, i)
    ensures exists s :: s in a && t.m.legal(s, i) && t.m.apply(s, i).Some? && t.m.apply(s, i).value == c
  {
  }

  /** Past the tie two histories have the same purchases, one after each side. */
  lemma TieSole(p: Tale, cap: seq<nat>, need: seq<nat>, k: nat, c: History)
    requires Valid(p, cap, need) && k <= |p.rest| && p.Told(c) && Tally(|cap|, c) == Tally(|cap|, p.left + [p.a] + p.rest[..k])
    ensures c == p.left + [p.a] + p.rest[..k] || c == p.right + [p.b] + p.rest[..k]
  {
    hide AllFit, CompletesOnly, NoFurther, Tally, LexLess, InTurn, Tale.Told;
    var (x, l, r) := (p.left + [p.a] + p.rest[..k], p.left + [p.a], p.right + [p.b]);
    TaleEnds(p);
    SlowPart(p, k);
    ToldLevel(p, cap, need, c);
    ToldLevel(p, cap, need, x);
    if c != x {
      assert Pair(p, c, x) || Pair(p, x, c);
      assert l <= x && x[..|l|] == l;
      OnQuick(p, c);
    }
  }

  lemma SlowPart(p: Tale, k: nat)
    requires k <= |p.rest|
    ensures p.Told(p.left + [p.a] + p.rest[..k]) && p.Told(p.right + [p.b] + p.rest[..k])
    ensures k < |p.rest| ==> p.Told(p.left + [p.a] + p.rest[..k] + [p.rest[k]]) && p.Told(p.right + [p.b] + p.rest[..k] + [p.rest[k]])
  {
    var (l, r) := (p.left + [p.a], p.right + [p.b]);
    assert l + p.rest[..k] <= p.Slow() && r + p.rest[..k] <= p.Quick();
    if k < |p.rest| {
      assert p.rest[..k] + [p.rest[k]] == p.rest[..k + 1];
      assert l + p.rest[..k] + [p.rest[k]] == l + p.rest[..k + 1] <= p.Slow();
      assert r + p.rest[..k] + [p.rest[k]] == r + p.rest[..k + 1] <= p.Quick();
    }
  }

  lemma PrefixPart(x: History, y: History, n: nat)
    requires n <= |x|
    ensures x <= y ==> x[..n] == y[..n]
  {
  }

  lemma OnQuick(p: Tale, c: History)
    requires p.Told(c) && p.right + [p.b] <= c && |p.left| == |p.right| == |p.dead| && |p.aim| <= |p.dead|
    requires p.left + [p.a] != p.right + [p.b]
    ensures c <= p.Quick() && c == p.right + [p.b] + p.rest[..|c| - |p.right| - 1]
  {
    var (l, r) := (p.left + [p.a], p.right + [p.b]);
    assert c[..|r|] == r;
    assert p.Slow()[..|l|] == l;
    PrefixPart(c, p.Slow(), |l|);
    assert p.Quick()[..|c|] == r + p.rest[..|c| - |r|];
  }

  ghost function Held(p: Tale, prune: bool, k: nat): History
    requires k <= |p.rest|
  {
    (if prune then p.left + [p.a] else p.right + [p.b]) + p.rest[..k]
  }

  lemma BlockSells(p: Tale, cap: seq<nat>, need: seq<nat>, st: St<History>, x: History, i: nat)
    requires Sound(p, cap, need) && p.Told(x + [i]) && Tally(|cap|, x) in st.expanded && Pool(st, Tally(|cap|, x)) == [x]
    ensures i < |cap| && Block(Shaped(p, cap, need), st, [], 0, Tally(|cap|, x), Tally(|cap|, x + [i])) == [x + [i]]
  {
    hide Sound, Tale.Told, Tally, Gots, Block;
    ToldNext(p, cap, need, x, i);
    SellsNext(p, cap, need, x, i);
    BlockIs(Shaped(p, cap, need), st, Tally(|cap|, x), i);
  }

  /** Both sides have been followed, and in which order. */
  lemma BothSides(p: Tale, cap: seq<nat>, need: seq<nat>, prune: bool, st: St<History>)
    requires Settled(p, cap, need, prune, st, |p.left| + 1)
    ensures var (l, r) := (Tally(|cap|, p.left), Tally(|cap|, p.right));
            && Pool(st, l) == [p.left] && Pool(st, r) == [p.right] && l in st.expanded && r in st.expanded && l != r
            && if prune then Precedes(st.order, l, r) else Precedes(st.order, r, l)
  {
    hide Tally, Tale.Told, Sound, At, Queued, InTurn, AllTried, Lexed, Inv, Level, Precedes, Tale.When;
    RunningAt(p, cap, need, prune, st);
    SoundEnds(p, cap, need);
    AimsTold(p);
    TaleEnds(p);
    LeftPool(p, cap, need, prune, st);
    RightPool(p, cap, need, prune, st);
    ToldLevel(p, cap, need, p.left);
    ToldLevel(p, cap, need, p.right);
    RightEarly(p, cap, need);
    WasExpanded(p, cap, need, prune, st, Tally(|cap|, p.left), p.left);
    WasExpanded(p, cap, need, prune, st, Tally(|cap|, p.right), p.right);
    Turns(p, cap, need);
    if prune { LexedAt(p, |cap|, prune, st.order, p.left, p.right); } else { LexedAt(p, |cap|, prune, st.order, p.dead, p.left); }
  }

  lemma Turns(p: Tale, cap: seq<nat>, need: seq<nat>)
    requires Valid(p, cap, need)
    ensures LexLess(p.left, p.right) && LexLess(p.dead, p.left) && Tally(|cap|, p.dead) == Tally(|cap|, p.right)
    ensures Alive(p, true, p.left) && Alive(p, true, p.right) && Alive(p, false, p.dead) && Alive(p, false, p.left)
  {
    hide AllFit, Alike, CompletesOnly, NoFurther, LexLess, Tale.Told, Tally;
    AimsTold(p);
    TaleEnds(p);
  }

  /** At the tie both sides arrive, in the order of the queue. */
  lemma TieArrived(p: Tale, cap: seq<nat>, need: seq<nat>, prune: bool, st: St<History>)
    requires Settled(p, cap, need, prune, st, |p.left| + 1)
    ensures var (x, y) := (p.left + [p.a], p.right + [p.b]);
            Arrived(Shaped(p, cap, need), st, [], 0, Tally(|cap|, x)) == if prune then [x, y] else [y, x]
  {
    hide Tally, Tale.Told, Sound, At, Queued, InTurn, AllTried, Lexed, Precedes, Block, Concat, Inv, Behind;
    var (t, l, r) := (Shaped(p, cap, need), Tally(|cap|, p.left), Tally(|cap|, p.right));
    var (x, y, w) := (p.left + [p.a], p.right + [p.b], Tally(|cap|, p.left + [p.a]));
    RunningAt(p, cap, need, prune, st);
    SlowPart(p, 0);
    assert x + p.rest[..0] == x && y + p.rest[..0] == y;
    TieNode(p, cap, need);
    BothSides(p, cap, need, prune, st);
    BlockSells(p, cap, need, st, p.left, p.a);
    BlockSells(p, cap, need, st, p.right, p.b);
    var f := u => Block(t, st, [], 0, u, w);
    OnlySides(p, cap, need, prune, st, f);
    QueueDistinct(t, st);
    ArrivedConcat(t, st, w, |st.order|, f);
    assert st.order[..|st.order|] == st.order;
    if prune { ConcatTwo(st.order, f, l, r); } else { ConcatTwo(st.order, f, r, l); }
    assert [x] + [y] == [x, y] && [y] + [x] == [y, x];
  }

  /** The one that comes first is kept. */
  lemma TiePool(p: Tale, cap: seq<nat>, need: seq<nat>, prune: bool, st: St<History>)
    requires Settled(p, cap, need, prune, st, |p.left| + 1)
    ensures var w := Tally(|cap|, Held(p, prune, 0)); w in st.order && Pool(st, w) == [Held(p, prune, 0)]
  {
    hide Tally, Tale.Told, Sound, At, Queued, InTurn, AllTried, Lexed, Level, Precedes, Tale.When, Arrived, Trim, Shape, Inside, Heard, Skipped, Behind;
    var (t, x, y) := (Shaped(p, cap, need), p.left + [p.a], p.right + [p.b]);
    RunningAt(p, cap, need, prune, st);
    SlowPart(p, 0);
    assert x + p.rest[..0] == x && y + p.rest[..0] == y;
    TieNode(p, cap, need);
    BothSides(p, cap, need, prune, st);
    LeadsOn(p, cap, need, st, [], 0, p.left, p.a);
    ToldLevel(p, cap, need, x);
    TieArrived(p, cap, need, prune, st);
    RightEarly(p, cap, need);
    if prune { DpTies.TrimTie(t.m, x, y); } else { DpTies.TrimTie(t.m, y, x); }
  }

  lemma TieNode(p: Tale, cap: seq<nat>, need: seq<nat>)
    requires Sound(p, cap, need)
    ensures Tally(|cap|, p.left + [p.a]) == Tally(|cap|, p.right + [p.b])
  {
  }

  lemma OnlySides(p: Tale, cap: seq<nat>, need: seq<nat>, prune: bool, st: St<History>, f: Node -> seq<History>)
    requires Running(p, cap, need, prune, st)
    requires forall u :: f(u) == Block(Shaped(p, cap, need), st, [], 0, u, Tally(|cap|, p.left + [p.a]))
    ensures forall u | f(u) != [] :: u in st.order && (u == Tally(|cap|, p.left) || u == Tally(|cap|, p.right))
  {
    hide Tally, Tale.Told, Sound, InTurn, Queued, AllTried, Inv, Block, At;
    var (t, w) := (Shaped(p, cap, need), Tally(|cap|, p.left + [p.a]));
    RunningAt(p, cap, need, prune, st);
    SlowPart(p, 0);
    assert p.left + [p.a] + p.rest[..0] == p.left + [p.a] && p.right + [p.b] + p.rest[..0] == p.right + [p.b];
    ToldLevel(p, cap, need, p.left + [p.a]);
    forall u | f(u) != [] ensures u in st.order && (u == Tally(|cap|, p.left) || u == Tally(|cap|, p.right)) {
      BlockListed(t, st, u, w);
      var c := f(u)[0];
      CameFrom(p, cap, need, st, u, w, c);
      TieSole(p, cap, need, 0, c);
      assert Front(p.left + [p.a]) == p.left && Front(p.right + [p.b]) == p.right;
    }
  }

  lemma BlockListed<S(!new)>(t: Task<S>, st: St<S>, u: Node, w: Node)
    requires Inv(t, st) && Block(t, st, [], 0, u, w) != []
    ensures u in st.order
  {
    hide NameFrom, Gots, Lists, Inside, Skipped, Heard, Shape;
    NameBack(u, w);
    ExpandedListed(t, st, u);
  }

  // ---- after the tie ----

  lemma {:induction false} TallySame(n: nat, x: History, y: History, z: History)
    requires Tally(n, x) == Tally(n, y)
    ensures Tally(n, x + z) == Tally(n, y + z)
    decreases |z|
  {
    if z == [] {
      assert x + z == x && y + z == y;
    } else {
      TallySame(n, x, y, Front(z));
      assert Front(x + z) == x + Front(z) && Front(y + z) == y + Front(z);
      assert Last(x + z) == Last(z) == Last(y + z);
    }
  }

  lemma HeldTally(p: Tale, cap: seq<nat>, need: seq<nat>, prune: bool, k: nat)
    requires Sound(p, cap, need) && k <= |p.rest|
    ensures Tally(|cap|, Held(p, prune, k)) == Tally(|cap|, p.left + [p.a] + p.rest[..k])
    ensures p.Told(Held(p, prune, k)) && |Held(p, prune, k)| == |p.left| + 1 + k
    ensures k < |p.rest| ==> p.Told(Held(p, prune, k) + [p.rest[k]]) && Held(p, prune, k + 1) == Held(p, prune, k) + [p.rest[k]]
  {
    hide AllFit, Alike, CompletesOnly, NoFurther, Tally, Tale.Told;
    SlowPart(p, k);
    TallySame(|cap|, p.left + [p.a], p.right + [p.b], p.rest[..k]);
    if k < |p.rest| { assert p.rest[..k + 1] == p.rest[..k] + [p.rest[k]]; }
  }

  /** From the tie on, each node holds what follows the side that was kept. */
  lemma {:induction false} HeldPool(p: Tale, cap: seq<nat>, need: seq<nat>, prune: bool, st: St<History>, k: nat)
    requires k < |p.rest| && Settled(p, cap, need, prune, st, |p.left| + 1 + k)
    ensures var w := Tally(|cap|, Held(p, prune, k)); w in st.order && Pool(st, w) == [Held(p, prune, k)]
    decreases k
  {
    hide Tally, Tale.Told, Sound, At, Queued, InTurn, AllTried, Lexed, Inv, Level, Held;
    if k == 0 {
      TiePool(p, cap, need, prune, st);
    } else {
      var (x, i) := (Held(p, prune, k - 1), p.rest[k - 1]);
      HeldPool(p, cap, need, prune, st, k - 1);
      RunningAt(p, cap, need, prune, st);
      HeldTally(p, cap, need, prune, k - 1);
      HeldTally(p, cap, need, prune, k);
      HeldExpanded(p, cap, need, prune, st, k - 1);
      LeadsOn(p, cap, need, st, [], 0, x, i);
      var s := PoolTold(p, cap, need, st, [], 0, Tally(|cap|, Held(p, prune, k)));
      HeldOnly(p, cap, need, prune, st, k, s);
    }
  }

  lemma HeldExpanded(p: Tale, cap: seq<nat>, need: seq<nat>, prune: bool, st: St<History>, k: nat)
    requires k < |p.rest| && Running(p, cap, need, prune, st) && Behind(Shaped(p, cap, need), st, |p.left| + 2 + k)
    requires var w := Tally(|cap|, Held(p, prune, k)); w in st.order && Pool(st, w) == [Held(p, prune, k)]
    ensures Tally(|cap|, Held(p, prune, k)) in st.expanded
  {
    hide Tally, Tale.Told, Sound, At, Queued, InTurn, AllTried, Inv, Level, Held, Tale.When;
    RunningAt(p, cap, need, prune, st);
    SoundEnds(p, cap, need);
    HeldTally(p, cap, need, prune, k);
    ToldLevel(p, cap, need, Held(p, prune, k));
    WhenZero(p, cap, need, Held(p, prune, k), p.rest[k]);
    WasExpanded(p, cap, need, prune, st, Tally(|cap|, Held(p, prune, k)), Held(p, prune, k));
  }

  lemma HeldOnly(p: Tale, cap: seq<nat>, need: seq<nat>, prune: bool, st: St<History>, k: nat, s: History)
    requires 0 < k < |p.rest| && Running(p, cap, need, prune, st)
    requires Pool(st, Tally(|cap|, Held(p, prune, k - 1))) == [Held(p, prune, k - 1)]
    requires s in Pool(st, Tally(|cap|, Held(p, prune, k)))
    ensures s == Held(p, prune, k)
  {
    hide Tally, Tale.Told, Sound, At, Queued, InTurn, AllTried, Level, Shape, Inside, Heard, Skipped, Arrivals, Trim;
    var (t, w) := (Shaped(p, cap, need), Tally(|cap|, Held(p, prune, k)));
    RunningAt(p, cap, need, prune, st);
    HeldTally(p, cap, need, prune, k);
    HeldTally(p, cap, need, prune, k - 1);
    ToldLevel(p, cap, need, Held(p, prune, k));
    TrimMembers(t.m, Arrived(t, st, [], 0, w), 1);
    var u, i := ArrivalCases(t, st, [], 0, |st.order|, w, s);
    assert u in st.order;
    CameFrom(p, cap, need, st, u, w, s);
    TieSole(p, cap, need, k, s);
    SlowPart(p, k - 1);
    SidesFront(p, k, s);
    TallySame(|cap|, p.left + [p.a], p.right + [p.b], p.rest[..k - 1]) by { TieNode(p, cap, need); }
  }

  lemma SidesFront(p: Tale, k: nat, s: History)
    requires 0 < k <= |p.rest|
    ensures s == p.left + [p.a] + p.rest[..k] ==> Front(s) == p.left + [p.a] + p.rest[..k - 1] && Last(s) == p.rest[k - 1]
    ensures s == p.right + [p.b] + p.rest[..k] ==> Front(s) == p.right + [p.b] + p.rest[..k - 1] && Last(s) == p.rest[k - 1]
  {
    assert Front(p.rest[..k]) == p.rest[..k - 1];
  }

  // ---- how the searches end ----

  /** A finished search has heard the end it holds. */
  lemma EndReached(p: Tale, cap: seq<nat>, need: seq<nat>, prune: bool, st: St<History>)
    requires Running(p, cap, need, prune, st) && Lexed(p, |cap|, prune, st.order) && st.qi == |st.order|
    ensures st.best.Some? && st.best.value <= if prune then 2 else 1
  {
    hide Tally, Tale.Told, Sound, At, Queued, InTurn, AllTried, Lexed, Inv, Level, Held;
    var k := |p.rest| - 1;
    assert st.order[..st.qi] == st.order;
    RunningAt(p, cap, need, prune, st);
    RestSome(p, cap, need);
    HeldPool(p, cap, need, prune, st, k);
    HeldExpanded(p, cap, need, prune, st, k);
    HeldTally(p, cap, need, prune, k);
    HeldEnd(p, prune);
    EndHeard(p, cap, need, st, Held(p, prune, k), p.rest[k]);
  }

  lemma RestSome(p: Tale, cap: seq<nat>, need: seq<nat>)
    requires Sound(p, cap, need)
    ensures p.rest != []
  {
  }

  lemma HeldEnd(p: Tale, prune: bool)
    ensures Held(p, prune, |p.rest|) == (if prune then p.Slow() else p.Quick()) && p.When(p.Quick()) == 1 && p.When(p.Slow()) <= 2
  {
    assert p.rest[..|p.rest|] == p.rest;
  }

  /** A pruned search never holds the quick side. */
  lemma NeverQuick(p: Tale, cap: seq<nat>, need: seq<nat>, k: nat)
    requires Valid(p, cap, need)
    ensures |cap| == |need| && var best := Steps(Shaped(p, cap, need), true, k).best; best.None? || best.value >= 2
  {
    hide Tally, Tale.Told, Sound, At, Queued, InTurn, AllTried, Lexed, Inv, Level, Held, Steps, Improves, Running, Valid;
    var t := Shaped(p, cap, need);
    StepsLexed(p, cap, need, true, k);
    if Steps(t, true, k).best.Some? {
      var j, i, c := Cause(t, true, k);
      StepsInv(t, true, j);
      StepsLexed(p, cap, need, true, j);
      NotQuick(p, cap, need, Steps(t, true, j), i, c);
    }
  }

  lemma NotQuick(p: Tale, cap: seq<nat>, need: seq<nat>, st: St<History>, i: nat, c: History)
    requires Running(p, cap, need, true, st) && Lexed(p, |cap|, true, st.order) && !Over(Shaped(p, cap, need), st)
    requires |cap| == |need| && Improves(Shaped(p, cap, need), st, st.order[st.qi], i, c)
    ensures p.When(c) >= 2
  {
    hide Tally, Tale.Told, AllFit, Alike, CompletesOnly, NoFurther, At, Queued, InTurn, AllTried, Lexed, Lists, Inside, Heard, Skipped, Level, Held, Gots;
    var (t, v, k) := (Shaped(p, cap, need), st.order[st.qi], |p.rest| - 1);
    ImprovesEnds(p, cap, need, st, i, c);
    if c == p.Quick() {
      SidesFront(p, |p.rest|, c);
      assert p.rest[..|p.rest|] == p.rest;
      GotsFrom(p, cap, need, st, v, i, c);
      HeldTally(p, cap, need, true, k);
      HeldTally(p, cap, need, false, k);
      ToldLevel(p, cap, need, Held(p, true, k));
      BehindHead(t, st);
      QuickFront(p);
      HeldPool(p, cap, need, true, st, k);
      HeldApart(p, k);
    }
  }

  lemma QuickFront(p: Tale)
    requires p.rest != []
    ensures Front(p.Quick()) == Held(p, false, |p.rest| - 1)
  {
  }

  lemma HeldApart(p: Tale, k: nat)
    requires p.aim != [] && p.dead != [] && p.right != [] && InTurn(p) && k <= |p.rest| && |p.left| == |p.right|
    ensures Held(p, true, k) != Held(p, false, k)
  {
    hide InTurn;
    TaleEnds(p);
    var n := |p.left| + 1;
    assert Held(p, true, k)[..n] == p.left + [p.a] && Held(p, false, k)[..n] == p.right + [p.b];
  }

  lemma GotsFrom(p: Tale, cap: seq<nat>, need: seq<nat>, st: St<History>, v: Node, i: nat, c: History)
    requires Sound(p, cap, need) && Inv(Shaped(p, cap, need), st) && v in st.order && c in Gots(Shaped(p, cap, need), Pool(st, v), i)
    ensures c != [] && Front(c) in Pool(st, v) && Tally(|cap|, Front(c)) == v
  {
    hide Sound, Tale.Told, Tally, Lists, Heard, Skipped, Level, All, Edge;
    var t := Shaped(p, cap, need);
    Listed(t, st, v);
    GotsIs(t, Pool(st, v), i);
    assert c in Elements(Gots(t, Pool(st, v), i));
    EdgeFrom(t, Elements(Pool(st, v)), i, c);
    var s :| s in Elements(Pool(st, v)) && t.m.legal(s, i) && t.m.apply(s, i).Some? && t.m.apply(s, i).value == c;
    assert Front(c) == s;
    AllTold(p, cap, need, v, s);
  }

  /** Told such a tale, a search with pruning ends later than one without. */
  lemma TaleDiffers(p: Tale, cap: seq<nat>, need: seq<nat>) returns (j: nat, k: nat)
    requires Valid(p, cap, need)
    ensures var t := Shaped(p, cap, need);
            && t.Ok() && Monotone(t)
            && Steps(t, true, j).qi == |Steps(t, true, j).order| && Steps(t, true, j).best == Some(2)
            && Steps(t, false, k).qi == |Steps(t, false, k).order| && Steps(t, false, k).best == Some(1)
  {
    hide Tally, Sound, InTurn, Lexed, Inv, Queued, AllTried, Monotone, Visit;
    var t := Shaped(p, cap, need);
    SoundEnds(p, cap, need);
    TaleMonotone(p, cap, need);
    j := DpLoop.Ends(t, true, 0);
    k := DpLoop.Ends(t, false, 0);
    hide Steps;
    StepsLexed(p, cap, need, true, j);
    StepsLexed(p, cap, need, false, k);
    EndReached(p, cap, need, true, Steps(t, true, j));
    EndReached(p, cap, need, false, Steps(t, false, k));
    NeverQuick(p, cap, need, j);
  }
}
