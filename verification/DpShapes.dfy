/** For which amounts required and allowed pruning is harmless, whatever is for sale. */
module DpShapes {
  import opened Arith
  import opened Costs
  import opened DpSets
  import opened DpModel
  import opened DpSearch
  import opened DpQueue
  import opened DpTales

  // ---- histories of given purchases ----

  lemma {:induction false} TallyIs(n: nat, s: History, i: nat)
    requires i < n
    ensures Tally(n, s)[i] == multiset(s)[i]
    decreases |s|
  {
    if s != [] {
      TallyIs(n, Front(s), i);
      Split(s);
      assert multiset(s) == multiset(Front(s)) + multiset{Last(s)};
    }
  }

  /** `s` buys exactly `v`. */
  ghost predicate Lists(s: History, v: Node) {
    (forall i | 0 <= i < |s| :: s[i] < |v|) && forall i: nat | i < |v| :: multiset(s)[i] == v[i]
  }

  lemma ListsTally(s: History, v: Node)
    requires Lists(s, v)
    ensures Tally(|v|, s) == v
  {
    forall i: nat | i < |v| ensures Tally(|v|, s)[i] == v[i] { TallyIs(|v|, s, i); }
  }

  lemma {:induction false} Listing(v: Node) returns (s: History)
    ensures Lists(s, v)
    decreases Level(v)
  {
    if Level(v) == 0 {
      s := [];
      ZeroLevel(v);
    } else {
      var i := SomeName(v);
      LevelDown(v, i);
      var rest := Listing(Down(v, i));
      s := rest + [i];
      assert multiset(s) == multiset(rest) + multiset{i};
    }
  }

  lemma {:induction false} SomeName(v: Node) returns (i: nat)
    requires Level(v) > 0
    ensures i < |v| && v[i] > 0
    decreases |v|
  {
    if v[0] > 0 { i := 0; } else { i := SomeName(v[1..]); i := i + 1; }
  }

  // ---- the plan of a tale ----

  /** Buy `stem`, which is `trunk` and more, and then two or three names; or leave the stem at
      the trunk for name 0 and go for the aim. */
  datatype Plan = Plan(trunk: History, stem: History, aim: History, rest: History,
                       d1: nat, d2: nat, l1: nat, l2: nat, a: nat, r1: nat, r2: nat, b: nat)
  {
    function Told(): Tale {
      Tale(aim, stem + [d1, d2], stem + [l1, l2], a, stem + [r1, r2], b, rest)
    }
  }

  /** What the plan buys: at the tie `w`, on the way to the aim what is required, and in the end
      both. */
  ghost predicate Buys(p: Plan, cap: seq<nat>, need: seq<nat>, w: Node) {
    && |cap| == |need| == |w| && 0 < |w| && w[0] < need[0] && (forall i | 0 <= i < |w| :: w[i] <= cap[i] && need[i] <= cap[i])
    && Lists(p.aim, need) && Lists(p.stem + [p.l1, p.l2, p.a], w) && Lists(p.stem + [p.r1, p.r2, p.b], w)
    && Lists(p.stem + [p.l1, p.l2, p.a] + p.rest, Join(w, need))
    && p.rest != [] && Last(p.rest) == 0
  }

  function Join(v: Node, w: Node): (j: Node)
    requires |v| == |w|
    ensures |j| == |v|
  {
    seq(|v|, i requires 0 <= i < |v| => Max(v[i], w[i]))
  }

  /** How the histories part. */
  ghost predicate Parts(p: Plan) {
    && p.trunk <= p.stem && p.trunk < p.aim && p.aim[|p.trunk|] == 0 && |p.aim| <= |p.stem| + 2
    && multiset(p.stem)[0] == multiset(p.trunk)[0] && 0 < p.d1 && 0 < p.l1 && 0 < p.r1 && 0 < p.d2 && 0 < p.r2
    && multiset{p.d1, p.d2} == multiset{p.r1, p.r2}
    && p.d1 < p.l1 <= p.r1 && p.d1 < p.r1 && (p.l1 == p.r1 ==> p.l2 < p.r2)
    && multiset{p.d1, p.d2} != multiset{p.l1, p.l2}
  }

  // ---- what has the same purchases ----

  lemma SameBuys(n: nat, s: History, s': History)
    requires Tally(n, s) == Tally(n, s') && (forall i | 0 <= i < |s| :: s[i] < n) && (forall i | 0 <= i < |s'| :: s'[i] < n)
    ensures multiset(s) == multiset(s') && |s| == |s'|
  {
    forall i: nat ensures multiset(s)[i] == multiset(s')[i] {
      if i < n {
        TallyIs(n, s, i);
        TallyIs(n, s', i);
      } else {
        Missing(s, i);
        Missing(s', i);
      }
    }
    assert multiset(s) == multiset(s');
    assert |multiset(s)| == |s| && |multiset(s')| == |s'|;
  }

  lemma Missing(s: History, i: nat)
    requires forall k | 0 <= k < |s| :: s[k] != i
    ensures multiset(s)[i] == 0
  {
    assert i in multiset(s) <==> i in s;
  }

  lemma FewerZeros(s: History, s': History)
    requires s <= s'
    ensures multiset(s)[0] <= multiset(s')[0] && forall i: nat :: multiset(s)[i] <= multiset(s')[i]
  {
    assert s' == s + s'[|s|..];
    assert multiset(s') == multiset(s) + multiset(s'[|s|..]);
  }

  lemma SamePrefix(s: History, s': History, h: History)
    requires s <= h && s' <= h && |s| == |s'|
    ensures s == s'
  {
  }

  lemma ZerosOn(p: Plan, s: History)
    requires Parts(p) && s <= p.aim && |s| > |p.trunk|
    ensures multiset(s)[0] > multiset(p.stem)[0]
  {
    var t := p.trunk + [0];
    assert t <= s;
    FewerZeros(t, s);
    assert multiset(t) == multiset(p.trunk) + multiset{0};
  }

  lemma ZerosOff(stem: History, x1: nat, x2: nat, tail: History, s: History)
    requires s <= stem + [x1, x2] + tail && |s| <= |stem| + 1 && 0 < x1
    ensures multiset(s)[0] <= multiset(stem)[0]
  {
    if |s| <= |stem| {
      assert s <= stem;
      FewerZeros(s, stem);
    } else {
      assert s == stem + [x1];
      assert multiset(s) == multiset(stem) + multiset{x1};
    }
  }

  lemma SharesTrunk(trunk: History, stem: History, x1: nat, x2: nat, tail: History, aim: History, s: History, s': History)
    requires trunk <= stem && trunk <= aim && s <= aim && s' <= stem + [x1, x2] + tail && |s| == |s'| <= |trunk|
    ensures s == s'
  {
    assert s == trunk[..|s|] && s' == trunk[..|s|];
  }

  /** The way to the aim shares its purchases with no other history, once it has left the stem. */
  lemma ApartAim(p: Plan, s: History, s': History, x1: nat, x2: nat, tail: History)
    requires Parts(p) && s <= p.aim && s' <= p.stem + [x1, x2] + tail && multiset(s) == multiset(s') && |s| == |s'|
    requires 0 < x1 && multiset(p.stem + [x1, x2])[0] < multiset(p.aim)[0]
    ensures s == s'
  {
    if |s| <= |p.trunk| {
      SharesTrunk(p.trunk, p.stem, x1, x2, tail, p.aim, s, s');
    } else if |s| <= |p.stem| + 1 {
      ZerosOn(p, s);
      ZerosOff(p.stem, x1, x2, tail, s');
    } else {
      LastTwo(p.aim, p.stem, x1, x2, tail, s, s');
    }
  }

  lemma LastTwo(aim: History, stem: History, x1: nat, x2: nat, tail: History, s: History, s': History)
    requires s <= aim && s' <= stem + [x1, x2] + tail && |s| == |s'| >= |stem| + 2 >= |aim|
    ensures s == aim && s' == stem + [x1, x2]
  {
  }

  /** Two ways off the stem share their purchases only if they are the same so far or have
      bought the same two. */
  lemma ApartSides(stem: History, x1: nat, x2: nat, t1: History, y1: nat, y2: nat, t2: History, s: History, s': History)
    requires s <= stem + [x1, x2] + t1 && s' <= stem + [y1, y2] + t2 && multiset(s) == multiset(s') && |s| == |s'|
    ensures |s| <= |stem| + 1 ==> s == s'
    ensures |s| == |stem| + 2 ==> s == stem + [x1, x2] && s' == stem + [y1, y2] && multiset{x1, x2} == multiset{y1, y2}
  {
    var n := |stem|;
    if |s| <= n {
      assert s == stem[..|s|] && s' == stem[..|s|];
    } else if |s| == n + 1 {
      assert s == stem + [x1] && s' == stem + [y1];
      assert multiset(s) == multiset(stem) + multiset{x1} && multiset(s') == multiset(stem) + multiset{y1};
      assert multiset(s)[x1] == multiset(s')[x1];
    } else if |s| == n + 2 {
      assert s == stem + [x1, x2] && s' == stem + [y1, y2];
      assert multiset(s) == multiset(stem) + multiset{x1, x2} && multiset(s') == multiset(stem) + multiset{y1, y2};
      SameRest(multiset(stem), multiset{x1, x2}, multiset{y1, y2});
    }
  }

  lemma SameRest(m: multiset<nat>, a: multiset<nat>, b: multiset<nat>)
    requires m + a == m + b
    ensures a == b
  {
    forall i: nat ensures a[i] == b[i] { assert (m + a)[i] == (m + b)[i]; }
  }

  /** The three ways off the stem. */
  ghost predicate OffStem(p: Plan, s: History, x1: nat, x2: nat, tail: History) {
    && s <= p.stem + [x1, x2] + tail
    && ((x1, x2, tail) == (p.d1, p.d2, []) || (x1, x2, tail) == (p.l1, p.l2, [p.a] + p.rest) || (x1, x2, tail) == (p.r1, p.r2, [p.b] + p.rest))
  }

  lemma WayOff(p: Plan, s: History) returns (x1: nat, x2: nat, tail: History)
    requires p.Told().Told(s) && !(s <= p.aim)
    ensures OffStem(p, s, x1, x2, tail)
  {
    var t := p.Told();
    assert t.Slow() == p.stem + [p.l1, p.l2] + ([p.a] + p.rest) && t.Quick() == p.stem + [p.r1, p.r2] + ([p.b] + p.rest);
    if s <= t.dead {
      x1, x2, tail := p.d1, p.d2, [];
      assert p.stem + [x1, x2] + tail == t.dead;
    } else if s <= t.Slow() {
      x1, x2, tail := p.l1, p.l2, [p.a] + p.rest;
    } else {
      x1, x2, tail := p.r1, p.r2, [p.b] + p.rest;
    }
  }

  lemma TwoMore(stem: History, x: nat, y: nat)
    ensures multiset(stem + [x, y]) == multiset(stem) + multiset{x, y}
  {
  }

  lemma FewZeros(p: Plan, cap: seq<nat>, need: seq<nat>, w: Node, x1: nat, x2: nat, tail: History, s: History)
    requires Buys(p, cap, need, w) && Parts(p) && OffStem(p, s, x1, x2, tail)
    ensures 0 < x1 && multiset(p.stem + [x1, x2])[0] <= w[0] < need[0] == multiset(p.aim)[0]
  {
    TwoMore(p.stem, p.d1, p.d2);
    TwoMore(p.stem, p.r1, p.r2);
    UpToTie(p.stem, p.l1, p.l2, p.a, w);
    UpToTie(p.stem, p.r1, p.r2, p.b, w);
  }

  lemma UpToTie(stem: History, x: nat, y: nat, z: nat, w: Node)
    requires Lists(stem + [x, y, z], w)
    ensures forall i: nat | i < |w| :: multiset(stem + [x, y])[i] <= w[i]
  {
    assert stem + [x, y] <= stem + [x, y, z];
    FewerZeros(stem + [x, y], stem + [x, y, z]);
  }

  lemma OffPair(p: Plan, s: History, x1: nat, x2: nat, tail: History, s': History, y1: nat, y2: nat, tail': History)
    requires Parts(p) && OffStem(p, s, x1, x2, tail) && OffStem(p, s', y1, y2, tail') && multiset(s) == multiset(s') && |s| == |s'| && s != s'
    ensures Pair(p.Told(), s, s') || Pair(p.Told(), s', s)
  {
    var (t, n) := (p.Told(), |p.stem|);
    ApartSides(p.stem, x1, x2, tail, y1, y2, tail', s, s');
    if (x1, x2, tail) == (y1, y2, tail') { SamePrefix(s, s', p.stem + [x1, x2] + tail); }
    if |s| > n + 2 {
      assert tail != [] && tail' != [];
      OffThird(p, s, x1, x2, tail);
      OffThird(p, s', y1, y2, tail');
    }
  }

  lemma OffThird(p: Plan, s: History, x1: nat, x2: nat, tail: History)
    requires OffStem(p, s, x1, x2, tail) && |s| > |p.stem| + 2 && tail != []
    ensures p.stem + [x1, x2] + [tail[0]] <= s
  {
    var h := p.stem + [x1, x2] + tail;
    assert s[..|p.stem| + 3] == h[..|p.stem| + 3] == p.stem + [x1, x2] + [tail[0]];
  }

  lemma PlanAlike(p: Plan, cap: seq<nat>, need: seq<nat>, w: Node)
    requires Buys(p, cap, need, w) && Parts(p) && AllFit(p.Told(), cap)
    ensures Alike(p.Told(), |cap|)
  {
    hide Buys, Parts, OffStem, Pair, Tally, Tale.Told, AllFit;
    var t := p.Told();
    forall s, s' | t.Told(s) && t.Told(s') && s != s' && Tally(|cap|, s) == Tally(|cap|, s') ensures Pair(t, s, s') || Pair(t, s', s) {
      FitsAt(t, cap, s);
      FitsAt(t, cap, s');
      SameBuys(|cap|, s, s');
      if s <= p.aim && s' <= p.aim {
        SamePrefix(s, s', p.aim);
      } else if s <= p.aim {
        NotAimed(p, cap, need, w, s, s');
      } else if s' <= p.aim {
        NotAimed(p, cap, need, w, s', s);
      } else {
        var x1, x2, tail := WayOff(p, s);
        var y1, y2, tail' := WayOff(p, s');
        OffPair(p, s, x1, x2, tail, s', y1, y2, tail');
      }
    }
  }

  lemma NotAimed(p: Plan, cap: seq<nat>, need: seq<nat>, w: Node, s: History, s': History)
    requires Buys(p, cap, need, w) && Parts(p) && s <= p.aim && p.Told().Told(s') && !(s' <= p.aim) && multiset(s) == multiset(s') && |s| == |s'|
    ensures s == s'
  {
    hide Buys, Tale.Told;
    var x1, x2, tail := WayOff(p, s');
    FewZeros(p, cap, need, w, x1, x2, tail, s');
    ApartAim(p, s, s', x1, x2, tail);
  }

  lemma FitsAt(t: Tale, cap: seq<nat>, s: History)
    requires AllFit(t, cap) && t.Told(s)
    ensures Fits(cap, s)
  {
  }

  // ---- the plan is a tale ----

  lemma FitsBy(cap: seq<nat>, s: History, h: History)
    requires s <= h && (forall i | 0 <= i < |h| :: h[i] < |cap|) && forall i: nat | i < |cap| :: multiset(h)[i] <= cap[i]
    ensures Fits(cap, s)
  {
    FewerZeros(s, h);
    forall i: nat | i < |cap| ensures Tally(|cap|, s)[i] <= cap[i] { TallyIs(|cap|, s, i); }
  }

  lemma ListsSwap(x: History, y: History, z: History, w: Node, v: Node)
    requires Lists(x, w) && Lists(y, w) && Lists(x + z, v) && |v| == |w|
    ensures Lists(y + z, v)
  {
    assert multiset(x + z) == multiset(x) + multiset(z) && multiset(y + z) == multiset(y) + multiset(z);
    forall i | 0 <= i < |y + z| ensures (y + z)[i] < |v| {
      if i >= |y| { assert (x + z)[i - |y| + |x|] == (y + z)[i]; }
    }
  }

  lemma ThreeMore(stem: History, x: nat, y: nat, z: nat)
    ensures stem + [x, y] + [z] == stem + [x, y, z]
  {
  }

  /** Both ends buy what is required and what was bought at the tie. */
  lemma EndsList(p: Plan, cap: seq<nat>, need: seq<nat>, w: Node)
    requires Buys(p, cap, need, w)
    ensures Lists(p.Told().Slow(), Join(w, need)) && Lists(p.Told().Quick(), Join(w, need))
    ensures Lists(p.Told().left + [p.a], w) && Lists(p.Told().right + [p.b], w)
  {
    hide Lists;
    ThreeMore(p.stem, p.l1, p.l2, p.a);
    ThreeMore(p.stem, p.r1, p.r2, p.b);
    ListsSwap(p.stem + [p.l1, p.l2, p.a], p.stem + [p.r1, p.r2, p.b], p.rest, w, Join(w, need));
  }

  lemma Amounts(p: Plan, cap: seq<nat>, need: seq<nat>, w: Node)
    requires Buys(p, cap, need, w)
    ensures |cap| == |need| == |w| && 0 < |w| && w[0] < need[0] && Lists(p.aim, need) && p.rest != [] && Last(p.rest) == 0
    ensures forall i | 0 <= i < |w| :: w[i] <= cap[i] && need[i] <= cap[i] && Join(w, need)[i] <= cap[i]
    ensures Join(w, need)[0] == need[0] && forall i | 0 <= i < |w| :: Join(w, need)[i] >= need[i]
  {
    hide Lists;
  }

  /** The four histories of a tale and what they buy. */
  ghost predicate Amounting(t: Tale, cap: seq<nat>, need: seq<nat>, w: Node) {
    && |cap| == |need| == |w| && 0 < |w| && w[0] < need[0] && (forall i | 0 <= i < |w| :: w[i] <= cap[i] && need[i] <= cap[i])
    && Lists(t.aim, need) && Lists(t.Slow(), Join(w, need)) && Lists(t.Quick(), Join(w, need))
    && t.Slow() != [] && t.Quick() != [] && Last(t.Slow()) == 0 && Last(t.Quick()) == 0
    && (forall i | 0 <= i < |t.dead| :: t.dead[i] < |cap|) && forall i: nat | i < |cap| :: multiset(t.dead)[i] <= w[i]
  }

  lemma PlanAmounts(p: Plan, cap: seq<nat>, need: seq<nat>, w: Node)
    requires Buys(p, cap, need, w) && Parts(p)
    ensures Amounting(p.Told(), cap, need, w)
  {
    hide Parts, Buys, Lists, Join;
    Amounts(p, cap, need, w);
    EndsList(p, cap, need, w);
    DeadLists(p, cap, need, w);
  }

  lemma TaleFits(t: Tale, cap: seq<nat>, need: seq<nat>, w: Node)
    requires Amounting(t, cap, need, w)
    ensures AllFit(t, cap)
  {
    hide Lists, Tale.Told, Fits, Tale.Slow, Tale.Quick;
    var j := Join(w, need);
    assert forall i | 0 <= i < |j| :: j[i] <= cap[i];
    hide Join;
    forall s | t.Told(s) ensures Fits(cap, s) {
      if s <= t.aim { ListsFit(cap, s, t.aim, need); }
      else if s <= t.dead { FitsBy(cap, s, t.dead); }
      else if s <= t.Slow() { ListsFit(cap, s, t.Slow(), j); }
      else { ToldOther(t, s); ListsFit(cap, s, t.Quick(), j); }
    }
  }

  lemma ToldOther(t: Tale, s: History)
    requires t.Told(s) && !(s <= t.aim) && !(s <= t.dead) && !(s <= t.Slow())
    ensures s <= t.Quick()
  {
  }

  lemma ListsFit(cap: seq<nat>, s: History, h: History, v: Node)
    requires s <= h && Lists(h, v) && |v| == |cap| && forall i | 0 <= i < |v| :: v[i] <= cap[i]
    ensures Fits(cap, s)
  {
    FitsBy(cap, s, h);
  }

  lemma DeadSame(p: Plan)
    requires Parts(p)
    ensures multiset(p.stem + [p.d1, p.d2]) == multiset(p.stem + [p.r1, p.r2])
    ensures (p.d1 == p.r1 || p.d1 == p.r2) && (p.d2 == p.r1 || p.d2 == p.r2)
  {
    TwoMore(p.stem, p.d1, p.d2);
    TwoMore(p.stem, p.r1, p.r2);
    assert p.d1 in multiset{p.d1, p.d2} && p.d2 in multiset{p.d1, p.d2};
  }

  lemma DeadLists(p: Plan, cap: seq<nat>, need: seq<nat>, w: Node)
    requires Buys(p, cap, need, w) && Parts(p)
    ensures multiset(p.stem + [p.d1, p.d2]) == multiset(p.stem + [p.r1, p.r2])
    ensures var dead := p.stem + [p.d1, p.d2];
            && (forall i | 0 <= i < |dead| :: dead[i] < |cap|)
            && (forall i: nat | i < |cap| :: multiset(dead)[i] <= w[i])
  {
    hide Parts;
    DeadSame(p);
    UpToTie(p.stem, p.r1, p.r2, p.b, w);
    NamesIn(p.stem, p.r1, p.r2, p.b, w, p.d1, p.d2);
  }

  lemma NamesIn(stem: History, x: nat, y: nat, z: nat, w: Node, d1: nat, d2: nat)
    requires Lists(stem + [x, y, z], w) && (d1 == x || d1 == y) && (d2 == x || d2 == y)
    ensures forall i | 0 <= i < |stem + [d1, d2]| :: (stem + [d1, d2])[i] < |w|
  {
    var full := stem + [x, y, z];
    assert full[|stem|] == x && full[|stem| + 1] == y;
    assert forall i | 0 <= i < |stem| :: full[i] == stem[i];
  }

  lemma MeetsIs(need: seq<nat>, s: History)
    requires forall i: nat | i < |need| :: multiset(s)[i] >= need[i]
    ensures Meets(need, Tally(|need|, s))
  {
    forall i: nat | i < |need| ensures Tally(|need|, s)[i] >= need[i] { TallyIs(|need|, s, i); }
  }

  lemma ListsMeet(need: seq<nat>, s: History, v: Node)
    requires Lists(s, v) && |v| == |need| && forall i | 0 <= i < |v| :: v[i] >= need[i]
    ensures Meets(need, Tally(|need|, s))
  {
    hide Tally;
    MeetsIs(need, s);
  }

  lemma MissesZero(need: seq<nat>, s: History)
    requires 0 < |need| && multiset(s)[0] < need[0]
    ensures !Meets(need, Tally(|need|, s))
  {
    TallyIs(|need|, s, 0);
  }

  /** A part of the way to the aim is not enough. */
  lemma AimNeedsAll(need: seq<nat>, aim: History, s: History)
    requires Lists(aim, need) && s <= aim && s != aim
    ensures !Meets(need, Tally(|need|, s))
  {
    ListsTally(aim, need);
    TallyLevel(|need|, aim);
    assert forall i | 0 <= i < |s| :: s[i] == aim[i];
    TallyLevel(|need|, s);
    if Meets(need, Tally(|need|, s)) { LevelGrows(need, Tally(|need|, s)); }
  }

  /** A part of the way to an end lacks name 0. */
  lemma EndNeedsAll(need: seq<nat>, h: History, v: Node, s: History)
    requires Lists(h, v) && 0 < |v| == |need| && v[0] == need[0] && h != [] && Last(h) == 0 && s <= h && s != h
    ensures multiset(s)[0] < need[0]
  {
    Split(h);
    assert s <= Front(h);
    FewerZeros(s, Front(h));
    assert multiset(h) == multiset(Front(h)) + multiset{0};
  }

  lemma TaleCompletes(t: Tale, cap: seq<nat>, need: seq<nat>, w: Node)
    requires Amounting(t, cap, need, w)
    ensures CompletesOnly(t, need)
  {
    hide Tally, Lists, Tale.Told, Meets, Tale.Slow, Tale.Quick;
    var j := Join(w, need);
    assert j[0] == need[0] && forall i | 0 <= i < |j| :: j[i] >= need[i];
    hide Join;
    ListsMeet(need, t.aim, need);
    ListsMeet(need, t.Slow(), j);
    ListsMeet(need, t.Quick(), j);
    forall s | t.Told(s) && s != t.aim && s != t.Slow() && s != t.Quick() ensures !Meets(need, Tally(|need|, s)) {
      if s <= t.aim { AimNeedsAll(need, t.aim, s); }
      else if s <= t.dead { FewerZeros(s, t.dead); MissesZero(need, s); }
      else if s <= t.Slow() { EndNeedsAll(need, t.Slow(), j, s); MissesZero(need, s); }
      else { ToldOther(t, s); EndNeedsAll(need, t.Quick(), j, s); MissesZero(need, s); }
    }
  }

  lemma AimEnds(p: Plan, cap: seq<nat>, need: seq<nat>, w: Node, s: History)
    requires Buys(p, cap, need, w) && Parts(p) && p.Told().Told(s)
    ensures p.aim <= s ==> s == p.aim
  {
    hide Buys, Tale.Told;
    if p.aim <= s && s != p.aim {
      var x1, x2, tail := WayOff(p, s);
      FewZeros(p, cap, need, w, x1, x2, tail, s);
      Within(p.aim, p.stem, x1, x2, tail, s);
      FewerZeros(p.aim, p.stem + [x1, x2]);
    }
  }

  lemma Within(aim: History, stem: History, x1: nat, x2: nat, tail: History, s: History)
    requires aim <= s <= stem + [x1, x2] + tail && |aim| <= |stem| + 2
    ensures aim <= stem + [x1, x2]
  {
    var h := stem + [x1, x2] + tail;
    assert aim == h[..|aim|];
  }

  lemma DeadEnds(p: Plan, s: History)
    requires Parts(p) && p.Told().Told(s)
    ensures Front(p.Told().dead) == p.stem + [p.d1]
    ensures p.stem + [p.d1] <= s ==> s == p.stem + [p.d1] || s == p.stem + [p.d1, p.d2]
  {
    hide Tale.Told;
    var d := p.stem + [p.d1];
    if d <= s {
      if s <= p.aim {
        assert multiset(d) == multiset(p.stem) + multiset{p.d1};
        ZerosOn(p, d);
      } else {
        var x1, x2, tail := WayOff(p, s);
        FirstOff(p.stem, p.d1, x1, x2, tail, s);
      }
    }
  }

  lemma FirstOff(stem: History, d: nat, x1: nat, x2: nat, tail: History, s: History)
    requires stem + [d] <= s <= stem + [x1, x2] + tail
    ensures d == x1 && (tail == [] ==> s == stem + [x1] || s == stem + [x1, x2])
  {
    assert (stem + [d])[|stem|] == s[|stem|] == (stem + [x1, x2] + tail)[|stem|];
    if |s| == |stem| + 1 { assert s == stem + [x1]; }
  }

  lemma PlanTurns(p: Plan)
    requires Parts(p)
    ensures p.aim != [] && p.Told().dead != [] && p.Told().right != [] && InTurn(p.Told())
  {
    var (t, n, m) := (p.Told(), |p.stem|, |p.trunk|);
    assert t.dead[..n] == p.stem && t.left[..n] == p.stem && t.right[..n] == p.stem;
    assert t.dead[n] == p.d1 && t.left[n] == p.l1 && t.right[n] == p.r1;
    assert LexLess(t.dead, t.left);
    if p.l1 == p.r1 { assert t.left[..n + 1] == t.right[..n + 1] && t.left[n + 1] < t.right[n + 1]; }
    assert LexLess(t.left, t.right);
    assert Front(t.dead) == p.stem + [p.d1] && Front(t.right) == p.stem + [p.r1];
    assert Front(t.dead)[..n] == Front(t.right)[..n] && Front(t.dead)[n] < Front(t.right)[n];
    assert LexLess(Front(t.dead), Front(t.right));
    if |p.aim| == n + 2 { AimFirst(p); }
  }

  lemma AimFirst(p: Plan)
    requires Parts(p) && |p.aim| == |p.stem| + 2
    ensures LexLess(Front(p.aim), p.stem + [p.d1])
  {
    var (m, d) := (|p.trunk|, p.stem + [p.d1]);
    assert Front(p.aim)[..m] == p.trunk == d[..m] && Front(p.aim)[m] == 0;
    if m < |p.stem| { PastTrunk(p); }
  }

  lemma PastTrunk(p: Plan)
    requires Parts(p) && |p.trunk| < |p.stem|
    ensures p.stem[|p.trunk|] != 0
  {
    var z := p.trunk + [p.stem[|p.trunk|]];
    assert z <= p.stem;
    FewerZeros(z, p.stem);
    assert multiset(z) == multiset(p.trunk) + multiset{p.stem[|p.trunk|]};
  }

  /** Such a plan is a tale that can be told in this shape. */
  lemma PlanValid(p: Plan, cap: seq<nat>, need: seq<nat>, w: Node)
    requires Buys(p, cap, need, w) && Parts(p)
    ensures Valid(p.Told(), cap, need)
  {
    hide InTurn, Tally, Alike, AllFit, CompletesOnly, Tale.Told, Buys, Lists, Parts, Amounting;
    var t := p.Told();
    Amounts(p, cap, need, w);
    Sizes(p);
    PlanTurns(p);
    PlanAmounts(p, cap, need, w);
    TaleFits(t, cap, need, w);
    TaleCompletes(t, cap, need, w);
    PlanAlike(p, cap, need, w);
    forall s | t.Told(s) ensures (t.aim <= s ==> s == t.aim) && (Front(t.dead) <= s ==> s == Front(t.dead) || s == t.dead) {
      AimEnds(p, cap, need, w, s);
      DeadEnds(p, s);
    }
    EndsList(p, cap, need, w);
    ListsTally(t.left + [t.a], w);
    ListsTally(t.right + [t.b], w);
    DeadLists(p, cap, need, w);
    SameTally(|cap|, t.dead, t.right);
    assert multiset(t.aim)[0] == need[0] by { ListsZero(t.aim, need); }
  }

  lemma Sizes(p: Plan)
    requires Parts(p)
    ensures |p.aim| <= |p.Told().dead| == |p.Told().left| == |p.Told().right| == |p.stem| + 2
  {
  }

  lemma ListsZero(s: History, v: Node)
    requires Lists(s, v) && 0 < |v|
    ensures multiset(s)[0] == v[0]
  {
  }

  lemma SameTally(n: nat, s: History, s': History)
    requires multiset(s) == multiset(s')
    ensures Tally(n, s) == Tally(n, s')
  {
    forall i: nat | i < n ensures Tally(n, s)[i] == Tally(n, s')[i] {
      TallyIs(n, s, i);
      TallyIs(n, s', i);
    }
  }

  // ---- a plan for every shape ----

  function Less(v: Node, u: Node): Node
    requires |u| == |v| && forall i | 0 <= i < |v| :: u[i] <= v[i]
  {
    seq(|v|, i requires 0 <= i < |v| => v[i] - u[i])
  }

  function One(n: nat, k: nat): Node { seq(n, i => if i == k then 1 else 0) }

  lemma ListsMore(s: History, u: Node, s': History, v: Node, w: Node)
    requires Lists(s, u) && Lists(s', v) && |u| == |v| == |w| && forall i | 0 <= i < |w| :: w[i] == u[i] + v[i]
    ensures Lists(s + s', w)
  {
    assert multiset(s + s') == multiset(s) + multiset(s');
  }

  lemma ListsOne(n: nat, k: nat)
    requires k < n
    ensures Lists([k], One(n, k))
  {
  }

  /** What is left of `w` without three of its names. */
  function Without(w: Node, x: nat, y: nat, z: nat): Node
    requires x < |w| && y < |w| && z < |w| && x != y && y != z && x != z && w[x] > 0 && w[y] > 0 && w[z] > 0
  {
    Down(Down(Down(w, x), y), z)
  }

  lemma ListsUp(s: History, w: Node, i: nat)
    requires i < |w| && w[i] > 0 && Lists(s, Down(w, i))
    ensures Lists(s + [i], w)
  {
    assert multiset(s + [i]) == multiset(s) + multiset{i};
  }

  lemma WithoutSame(w: Node, x: nat, y: nat, z: nat)
    requires x < |w| && y < |w| && z < |w| && x != y && y != z && x != z && w[x] > 0 && w[y] > 0 && w[z] > 0
    ensures Without(w, x, y, z) == Without(w, y, z, x) == Without(w, z, x, y)
    ensures Without(w, x, y, z) == Without(w, z, y, x) == Without(w, y, x, z) == Without(w, x, z, y)
  {
  }

  lemma ListsThree(stem: History, w: Node, x: nat, y: nat, z: nat)
    requires x < |w| && y < |w| && z < |w| && x != y && y != z && x != z && w[x] > 0 && w[y] > 0 && w[z] > 0
    requires Lists(stem, Without(w, x, y, z))
    ensures Lists(stem + [z, y, x], w)
  {
    hide Lists;
    var (u, v) := (Down(w, x), Down(Down(w, x), y));
    ListsUp(stem, v, z);
    ListsUp(stem + [z], u, y);
    ListsUp(stem + [z] + [y], w, x);
    assert stem + [z] + [y] + [x] == stem + [z, y, x];
  }

  /** The stem without three names, the way to the aim off it, and the rest to be bought. */
  lemma MakePlan(cap: seq<nat>, need: seq<nat>, w: Node, base: Node) returns (trunk: History, stem: History, aim: History, rest: History)
    requires |cap| == |need| == |w| == |base| && 0 < |w| && w[0] < need[0] && forall i | 0 <= i < |w| :: base[i] <= w[i]
    ensures trunk <= stem && trunk < aim && aim[|trunk|] == 0 && multiset(stem)[0] == multiset(trunk)[0]
    ensures Lists(stem, base) && Lists(aim, need) && rest != [] && Last(rest) == 0 && Lists(rest, Less(Join(w, need), w))
  {
    hide Lists;
    var n := |w|;
    var m := seq(n, i requires 0 <= i < n => Min(need[i], base[i]));
    var (e, j) := (One(n, 0), Join(w, need));
    trunk := Listing(m);
    var more := Listing(Less(base, m));
    stem := trunk + more;
    ListsMore(trunk, m, more, Less(base, m), base);
    ListsOne(n, 0);
    var left := Less(need, m);
    var tail := Listing(Less(left, e));
    ListsMore([0], e, tail, Less(left, e), left);
    ListsMore(trunk, m, [0] + tail, left, need);
    aim := trunk + ([0] + tail);
    assert aim[|trunk|] == 0;
    var gap := Less(j, w);
    var some := Listing(Less(gap, e));
    rest := some + [0];
    ListsMore(some, Less(gap, e), [0], e, gap);
    ListsZero(stem, base);
    ListsZero(trunk, m);
  }

  lemma ListsLength(s: History, v: Node)
    requires Lists(s, v)
    ensures |s| == Level(v)
  {
    ListsTally(s, v);
    TallyLevel(|v|, s);
  }

  /** A shape in which name 0 is short at a node of three names above the level required. */
  ghost predicate Short(cap: seq<nat>, need: seq<nat>, w: Node, x: nat, y: nat, z: nat) {
    && |cap| == |need| == |w| && 0 < |w| && w[0] < need[0] && (forall i | 0 <= i < |w| :: w[i] <= cap[i] && need[i] <= cap[i])
    && x < y < z < |w| && w[x] > 0 && w[y] > 0 && w[z] > 0 && (x > 0 ==> w[0] == 0) && Level(w) > Level(need)
  }

  lemma PlanFor(cap: seq<nat>, need: seq<nat>, w: Node, x: nat, y: nat, z: nat) returns (p: Plan)
    requires Short(cap, need, w, x, y, z)
    ensures Buys(p, cap, need, w) && Parts(p)
  {
    hide Lists, Level, Buys, Parts, Without;
    var base := Without(w, x, y, z);
    WithoutSame(w, x, y, z);
    WithoutLess(w, x, y, z);
    var trunk, stem, aim, rest := MakePlan(cap, need, w, base);
    if x > 0 {
      p := Plan(trunk, stem, aim, rest, x, z, y, z, x, z, x, y);
      ListsThree(stem, w, x, z, y);
      ListsThree(stem, w, y, x, z);
    } else {
      p := Plan(trunk, stem, aim, rest, y, z, z, 0, y, z, y, 0);
      ListsThree(stem, w, y, 0, z);
      ListsThree(stem, w, 0, y, z);
    }
    PlanBuys(p, cap, need, w);
    PlanParts(p, cap, need, w, x, y, z);
  }

  lemma WithoutLess(w: Node, x: nat, y: nat, z: nat)
    requires x < |w| && y < |w| && z < |w| && x != y && y != z && x != z && w[x] > 0 && w[y] > 0 && w[z] > 0
    ensures |Without(w, x, y, z)| == |w| && forall i | 0 <= i < |w| :: Without(w, x, y, z)[i] <= w[i]
  {
  }

  lemma PlanBuys(p: Plan, cap: seq<nat>, need: seq<nat>, w: Node)
    requires |cap| == |need| == |w| && 0 < |w| && w[0] < need[0] && forall i | 0 <= i < |w| :: w[i] <= cap[i] && need[i] <= cap[i]
    requires Lists(p.aim, need) && p.rest != [] && Last(p.rest) == 0 && Lists(p.rest, Less(Join(w, need), w))
    requires Lists(p.stem + [p.l1, p.l2, p.a], w) && Lists(p.stem + [p.r1, p.r2, p.b], w)
    ensures Buys(p, cap, need, w)
  {
    hide Lists;
    ListsMore(p.stem + [p.l1, p.l2, p.a], w, p.rest, Less(Join(w, need), w), Join(w, need));
  }

  lemma PlanParts(p: Plan, cap: seq<nat>, need: seq<nat>, w: Node, x: nat, y: nat, z: nat)
    requires Short(cap, need, w, x, y, z) && Lists(p.aim, need) && Lists(p.stem + [p.l1, p.l2, p.a], w)
    requires p.trunk <= p.stem && p.trunk < p.aim && p.aim[|p.trunk|] == 0 && multiset(p.stem)[0] == multiset(p.trunk)[0]
    requires (p.d1, p.d2, p.l1, p.l2, p.a, p.r1, p.r2, p.b) == if x > 0 then (x, z, y, z, x, z, x, y) else (y, z, z, 0, y, z, y, 0)
    ensures Parts(p)
  {
    hide Lists, Level;
    ListsLength(p.aim, need);
    ListsLength(p.stem + [p.l1, p.l2, p.a], w);
    if x > 0 {
      assert multiset{x, z} == multiset{z, x};
      assert x in multiset{x, z} && x !in multiset{y, z};
    } else {
      assert multiset{y, z} == multiset{z, y};
      assert 0 in multiset{z, 0} && 0 !in multiset{y, z};
    }
  }

  /** For such a shape there are purchases for which pruning changes the best horizon. */
  lemma ShortFails(cap: seq<nat>, need: seq<nat>, w: Node, x: nat, y: nat, z: nat) returns (t: Task<History>, j: nat, k: nat)
    requires Short(cap, need, w, x, y, z)
    ensures t.Ok() && t.cap == cap && t.need == need && Monotone(t)
    ensures Steps(t, true, j).qi == |Steps(t, true, j).order| && Steps(t, false, k).qi == |Steps(t, false, k).order|
    ensures Steps(t, true, j).best != Steps(t, false, k).best
  {
    hide Buys, Parts, Valid, Monotone, Steps;
    var p := PlanFor(cap, need, w, x, y, z);
    PlanValid(p, cap, need, w);
    t := Shaped(p.Told(), cap, need);
    j, k := TaleDiffers(p.Told(), cap, need);
  }

  // ---- shapes, whatever the order of the names ----

  /** At least three names, more purchases than are required, and yet something missing. */
  ghost predicate ExposedAt(cap: seq<nat>, need: seq<nat>, w: Node) {
    && |w| == |cap| && (forall i | 0 <= i < |w| :: w[i] <= cap[i]) && !Meets(need, w) && Level(w) > Level(need)
    && forall i: nat, j: nat :: !OnTwo(w, i, j)
  }

  /** The vector with entry `y` put first. */
  function Fore(v: seq<nat>, y: nat): seq<nat>
    requires y < |v|
  {
    [v[y]] + v[..y] + v[y + 1..]
  }

  function Aft(v: seq<nat>, y: nat): seq<nat>
    requires y < |v|
  {
    v[1..y + 1] + [v[0]] + v[y + 1..]
  }

  lemma ForeAft(v: seq<nat>, y: nat)
    requires y < |v|
    ensures |Aft(v, y)| == |v| && Fore(Aft(v, y), y) == v
  {
    var u := Aft(v, y);
    assert u[y] == v[0] && u[..y] == v[1..y + 1] && u[y + 1..] == v[y + 1..];
  }

  /** Where entry `i` goes, and where the entry at `i` came from. */
  function To(y: nat, i: nat): nat { if i == y then 0 else if i < y then i + 1 else i }

  function From(y: nat, i: nat): nat { if i == 0 then y else if i <= y then i - 1 else i }

  lemma ForeAt(v: seq<nat>, y: nat)
    requires y < |v|
    ensures |Fore(v, y)| == |v|
    ensures forall i: nat | i < |v| :: To(y, i) < |v| && Fore(v, y)[To(y, i)] == v[i] && From(y, To(y, i)) == i
    ensures forall i: nat | i < |v| :: From(y, i) < |v| && Fore(v, y)[i] == v[From(y, i)] && To(y, From(y, i)) == i
  {
  }

  lemma {:induction false} LevelJoin(u: Node, v: Node)
    ensures Level(u + v) == Level(u) + Level(v)
    decreases |u|
  {
    if u == [] {
      assert u + v == v;
    } else {
      assert (u + v)[0] == u[0] && (u + v)[1..] == u[1..] + v;
      LevelJoin(u[1..], v);
    }
  }

  lemma LevelFore(v: Node, y: nat)
    requires y < |v|
    ensures Level(Fore(v, y)) == Level(v)
  {
    hide Level;
    assert v == v[..y] + [v[y]] + v[y + 1..];
    LevelJoin(v[..y] + [v[y]], v[y + 1..]);
    LevelJoin(v[..y], [v[y]]);
    LevelJoin([v[y]] + v[..y], v[y + 1..]);
    LevelJoin([v[y]], v[..y]);
  }

  ghost predicate Three(w: Node, x: nat, y: nat, z: nat) {
    x < |w| && y < |w| && z < |w| && x != y && y != z && x != z && w[x] > 0 && w[y] > 0 && w[z] > 0
  }

  lemma ThreeNames(w: Node) returns (x: nat, y: nat, z: nat)
    requires Level(w) > 0 && forall i: nat, j: nat :: !OnTwo(w, i, j)
    ensures Three(w, x, y, z)
  {
    hide Level;
    x := SomeName(w);
    assert !OnTwo(w, x, x);
    y :| y < |w| && y != x && w[y] != 0;
    assert !OnTwo(w, Min(x, y), Max(x, y));
    z :| z < |w| && z != Min(x, y) && z != Max(x, y) && w[z] != 0;
  }

  lemma NotOnTwo(w: Node, x: nat, y: nat, z: nat)
    requires Three(w, x, y, z)
    ensures forall i: nat, j: nat :: !OnTwo(w, i, j)
  {
  }

  /** Exposure does not depend on the order of the names. */
  lemma ExposedFore(cap: seq<nat>, need: seq<nat>, w: Node, y: nat)
    requires |cap| == |need| == |w| && y < |cap|
    ensures ExposedAt(cap, need, w) <==> ExposedAt(Fore(cap, y), Fore(need, y), Fore(w, y))
  {
    hide Level, OnTwo, Fore;
    ForeAt(cap, y);
    ForeAt(need, y);
    ForeAt(w, y);
    LevelFore(w, y);
    LevelFore(need, y);
    var v := Fore(w, y);
    if ExposedAt(cap, need, w) {
      var i, j, k := ThreeNames(w);
      NotOnTwo(v, To(y, i), To(y, j), To(y, k));
      MeetsFore(need, w, y);
    }
    if ExposedAt(Fore(cap, y), Fore(need, y), v) {
      var i, j, k := ThreeNames(v);
      NotOnTwo(w, From(y, i), From(y, j), From(y, k));
      MeetsFore(need, w, y);
      assert forall i: nat | i < |w| :: v[To(y, i)] <= Fore(cap, y)[To(y, i)];
    }
  }

  lemma MeetsFore(need: seq<nat>, w: Node, y: nat)
    requires |need| == |w| && y < |w|
    ensures Meets(need, w) <==> Meets(Fore(need, y), Fore(w, y))
  {
    hide Fore;
    ForeAt(need, y);
    ForeAt(w, y);
    if Meets(Fore(need, y), Fore(w, y)) {
      forall i: nat | i < |w| ensures w[i] >= need[i] { assert Fore(w, y)[To(y, i)] >= Fore(need, y)[To(y, i)]; }
    }
  }

  /** Every task of this shape ends at the same best horizon with pruning and without it. */
  ghost predicate Harmless(cap: seq<nat>, need: seq<nat>) {
    forall t: Task<History>, j: nat, k: nat | t.Ok() && t.cap == cap && t.need == need && Monotone(t) && BothOver(t, j, k) ::
      Steps(t, true, j).best == Steps(t, false, k).best
  }

  ghost predicate BothOver(t: Task<History>, j: nat, k: nat)
    requires t.Ok()
  {
    Steps(t, true, j).qi == |Steps(t, true, j).order| && Steps(t, false, k).qi == |Steps(t, false, k).order|
  }

  lemma UnexposedHarmless(cap: seq<nat>, need: seq<nat>)
    requires |cap| == |need| && forall w :: !ExposedAt(cap, need, w)
    ensures Harmless(cap, need)
  {
    hide Steps, Monotone, TieFree, All, Level, OnTwo;
    forall t: Task<History>, j: nat, k: nat | t.Ok() && t.cap == cap && t.need == need && Monotone(t) && BothOver(t, j, k)
      ensures Steps(t, true, j).best == Steps(t, false, k).best
    {
      forall w ensures !Exposed(t, w) { assert Exposed(t, w) ==> ExposedAt(cap, need, w); }
      PruningKeepsBest(t, j, k);
    }
  }

  /** Three names in order, the first of them 0 if it is among them. */
  lemma InNameOrder(w: Node, i: nat, j: nat, k: nat) returns (x: nat, y: nat, z: nat)
    requires Three(w, i, j, k)
    ensures x < y < z < |w| && w[x] > 0 && w[y] > 0 && w[z] > 0 && (x > 0 ==> w[0] == 0)
  {
    if i < j < k { x, y, z := i, j, k; }
    else if i < k < j { x, y, z := i, k, j; }
    else if j < i < k { x, y, z := j, i, k; }
    else if j < k < i { x, y, z := j, k, i; }
    else if k < i < j { x, y, z := k, i, j; }
    else { x, y, z := k, j, i; }
    if w[0] > 0 { x := 0; }
  }

  lemma ExposedFails(cap: seq<nat>, need: seq<nat>, w: Node)
    requires |cap| == |need| && (forall i | 0 <= i < |need| :: need[i] <= cap[i]) && ExposedAt(cap, need, w)
    ensures exists y: nat :: y < |cap| && !Harmless(Fore(cap, y), Fore(need, y))
  {
    hide Level, OnTwo, Fore, Harmless, Short;
    var y: nat :| y < |w| && w[y] < need[y];
    var (c, n, v) := (Fore(cap, y), Fore(need, y), Fore(w, y));
    ExposedFore(cap, need, w, y);
    ForeAt(cap, y);
    ForeAt(need, y);
    ForeAt(w, y);
    assert From(y, 0) == y;
    var i, j, k := ThreeNames(v);
    var x0, x1, x2 := InNameOrder(v, i, j, k);
    assert Short(c, n, v, x0, x1, x2) by { IsShort(c, n, v, x0, x1, x2); }
    ShortHarms(c, n, v, x0, x1, x2);
  }

  lemma IsShort(cap: seq<nat>, need: seq<nat>, w: Node, x: nat, y: nat, z: nat)
    requires |cap| == |need| == |w| && 0 < |w| && w[0] < need[0] && forall i | 0 <= i < |w| :: w[i] <= cap[i] && need[i] <= cap[i]
    requires x < y < z < |w| && w[x] > 0 && w[y] > 0 && w[z] > 0 && (x > 0 ==> w[0] == 0) && Level(w) > Level(need)
    ensures Short(cap, need, w, x, y, z)
  {
  }

  lemma ShortHarms(cap: seq<nat>, need: seq<nat>, w: Node, x: nat, y: nat, z: nat)
    requires Short(cap, need, w, x, y, z)
    ensures !Harmless(cap, need)
  {
    hide Short, Monotone, Steps;
    var t, j, k := ShortFails(cap, need, w, x, y, z);
    assert BothOver(t, j, k);
  }

  /** Pruning is harmless for amounts required and allowed, whatever is for sale and whichever
      name comes first, exactly when they have no exposed node. */
  lemma HarmlessShapes(cap: seq<nat>, need: seq<nat>)
    requires |cap| == |need| && forall i | 0 <= i < |need| :: need[i] <= cap[i]
    ensures (forall y: nat | y < |cap| :: Harmless(Fore(cap, y), Fore(need, y))) <==> forall w :: !ExposedAt(cap, need, w)
  {
    hide Harmless, ExposedAt, Fore, Aft;
    if forall w :: !ExposedAt(cap, need, w) {
      forall y: nat | y < |cap| ensures Harmless(Fore(cap, y), Fore(need, y)) {
        ForeAt(cap, y);
        ForeAt(need, y);
        forall v ensures !ExposedAt(Fore(cap, y), Fore(need, y), v) {
          if |v| == |cap| {
            ForeAft(v, y);
            ExposedFore(cap, need, Aft(v, y), y);
          } else {
            WrongLength(Fore(cap, y), Fore(need, y), v);
          }
        }
        UnexposedHarmless(Fore(cap, y), Fore(need, y));
      }
    } else {
      var w :| ExposedAt(cap, need, w);
      ExposedFails(cap, need, w);
    }
  }

  lemma WrongLength(cap: seq<nat>, need: seq<nat>, v: Node)
    requires |v| != |cap|
    ensures !ExposedAt(cap, need, v)
  {
  }
}
