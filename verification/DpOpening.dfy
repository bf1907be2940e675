/** The search on opening states, which it tells apart only by what a purchase can read: not by
    their log, and not by the order in which pending jobs were queued. */
module DpOpening {
  import opened Arith
  import opened Costs
  import opened OpeningRules
  import opened OpeningWorld
  import opened OpeningTime
  import opened OpeningSeating
  import opened OpeningRuns
  import opened OpeningClaims
  import opened OpeningPend
  import DpSets
  import DpModel
  import DpRun
  import DpSearch
  import DpQueue
  import DpLoop
  import DpImage

  // ---- the task ----

  /** Purchases of `names` on states as they are recorded. */
  function Records(g: Rules, names: seq<Item>): DpSets.System<World>
    requires g.Ok()
  {
    DpSets.System((w: World, i: nat) => i < |names| && Known(g, names[i]) && Legal(g, w, names[i]),
                  (w: World, i: nat) => if i < |names| && Known(g, names[i]) then Apply(g, w, names[i]) else None,
                  (w: World) => Horizon(w), (w: World) => w.stock[FOOD], (w: World) => w.stock[TIMBER])
  }

  /** The same purchases on states without log and with the queue in one agreed order. */
  ghost function Buys(g: Rules, names: seq<Item>): DpSets.System<World>
    requires g.Ok()
  {
    DpSets.System((w: World, i: nat) => i < |names| && Known(g, names[i]) && Legal(g, w, names[i]),
                  (w: World, i: nat) => if i < |names| && Known(g, names[i]) then Bought(g, w, names[i]) else None,
                  (w: World) => Horizon(w), (w: World) => w.stock[FOOD], (w: World) => w.stock[TIMBER])
  }

  ghost function Bought(g: Rules, w: World, item: Item): Option<World>
    requires g.Ok() && Known(g, item)
  {
    match Apply(g, w, item) case None => None case Some(v) => Some(Strip(v))
  }

  ghost predicate IsOpening(g: Rules, raw: DpModel.Task<World>, names: seq<Item>) {
    g.Ok() && raw.Ok() && raw.m == Records(g, names)
  }

  /** The task `raw` on states without log and queue order. */
  ghost function Stripped(g: Rules, raw: DpModel.Task<World>, names: seq<Item>): DpModel.Task<World>
    requires g.Ok()
  {
    raw.(m := Buys(g, names), start := Strip(raw.start))
  }

  lemma StripLooks(g: Rules, w: World)
    requires g.Ok()
    ensures Horizon(Strip(w)) == Horizon(w) && Strip(w).stock == w.stock
  {
    hide Rules.Ok, Legal, Horizon, Strip, Twins;
    StripTwins(w, w);
    TwinLegal(g, w, Strip(w), Citizen);
  }

  lemma StripSells(g: Rules, w: World, item: Item)
    requires g.Ok() && Known(g, item)
    ensures Legal(g, Strip(w), item) == Legal(g, w, item) && Bought(g, Strip(w), item) == Bought(g, w, item)
  {
    hide Rules.Ok, Legal, Horizon, Strip, Twins, Apply;
    StripTwins(w, w);
    TwinApply(g, w, Strip(w), item);
    if Apply(g, w, item).Some? { StripTwins(Apply(g, w, item).value, Apply(g, Strip(w), item).value); }
  }

  /** Stripping is respected by every purchase. */
  lemma StripRespects(g: Rules, names: seq<Item>)
    requires g.Ok()
    ensures DpImage.Respects(Records(g, names), Buys(g, names), (w: World) => Strip(w))
  {
    hide Rules.Ok, Legal, Horizon, Strip, Apply;
    forall s: World ensures Horizon(Strip(s)) == Horizon(s) && Strip(s).stock == s.stock { StripLooks(g, s); }
    forall s: World, i: nat | i < |names| && Known(g, names[i])
      ensures Legal(g, Strip(s), names[i]) == Legal(g, s, names[i]) && Bought(g, Strip(s), names[i]) == Bought(g, s, names[i])
    {
      StripSells(g, s, names[i]);
    }
  }

  /** The search keeps log and queue order and does not see them: it goes visit by visit with
      the search without them, and its pools are the states of the other. */
  lemma SearchStrips(g: Rules, raw: DpModel.Task<World>, names: seq<Item>, prune: bool, k: nat)
    requires IsOpening(g, raw, names)
    ensures Stripped(g, raw, names).Ok()
    ensures DpModel.Steps(Stripped(g, raw, names), prune, k)
         == DpImage.Image((w: World) => Strip(w), DpModel.Steps(raw, prune, k))
  {
    hide Rules.Ok, Strip, DpImage.Respects, DpModel.Steps, DpImage.Image;
    StripRespects(g, names);
    DpImage.StepsImage(raw, Stripped(g, raw, names), (w: World) => Strip(w), prune, k);
  }

  /** No purchase in the opening brings the horizon forward. */
  lemma OpeningMonotone(g: Rules, raw: DpModel.Task<World>, names: seq<Item>)
    requires IsOpening(g, raw, names)
    ensures DpModel.Monotone(raw) && DpModel.Monotone(Stripped(g, raw, names))
  {
    hide Legal, Rules.Ok, DpModel.All, Apply, Horizon, Strip;
    forall w: World, item | Known(g, item) && Apply(g, w, item).Some?
      ensures Horizon(Apply(g, w, item).value) >= Horizon(w) && Horizon(Strip(Apply(g, w, item).value)) >= Horizon(w)
    {
      HorizonGrows(g, w, item);
      StripLooks(g, Apply(g, w, item).value);
    }
  }

  /** An opening search that is over has the best horizon of the reference, pruned or not,
      unless two orders of the same purchases tie at or below it. */
  lemma OpeningBest(g: Rules, raw: DpModel.Task<World>, names: seq<Item>, best: Option<int>, prune: bool, k: nat)
    requires IsOpening(g, raw, names)
    requires DpModel.IsBest(Stripped(g, raw, names), best) && DpModel.TiesApart(Stripped(g, raw, names), DpModel.UpTo(best))
    requires var s := DpModel.Steps(raw, prune, k); s.qi == |s.order|
    ensures DpModel.Steps(raw, prune, k).best == best
  {
    hide DpModel.Steps, DpModel.TiesApart, DpModel.Monotone, DpModel.IsBest, Buys, Records, Rules.Ok;
    OpeningMonotone(g, raw, names);
    SearchStrips(g, raw, names, prune, k);
    DpSearch.OverIsBest(Stripped(g, raw, names), best, prune, k);
  }

  /** Of the states of node `v` no two that a purchase can tell apart tie below `lim`. */
  ghost predicate Apart(g: Rules, raw: DpModel.Task<World>, names: seq<Item>, lim: Option<int>, v: DpModel.Node)
    requires g.Ok()
  {
    var t := Stripped(g, raw, names);
    DpSets.TieFree(t.m, DpSets.Below(t.m, lim, DpModel.All(t, v)))
  }

  /** The opening search finds the same best horizon with and without pruning, unless two
      orders of the same purchases tie at or below it at an exposed node: one of at least
      three names, with more purchases than are required and yet something missing. */
  lemma OpeningPruning(g: Rules, raw: DpModel.Task<World>, names: seq<Item>, j: nat, k: nat)
    requires IsOpening(g, raw, names)
    requires var s := DpModel.Steps(raw, true, j); s.qi == |s.order|
    requires var s := DpModel.Steps(raw, false, k); s.qi == |s.order|
    requires var best := DpSearch.Cut(DpModel.Steps(raw, true, j).best, DpModel.Steps(raw, false, k).best);
             forall v | DpQueue.Exposed(raw, v) :: Apart(g, raw, names, DpModel.UpTo(best), v)
    ensures DpModel.Steps(raw, true, j).best == DpModel.Steps(raw, false, k).best
  {
    hide DpModel.Steps, DpModel.Monotone, DpModel.All, DpSets.TieFree, Buys, Records, Rules.Ok;
    var t := Stripped(g, raw, names);
    OpeningMonotone(g, raw, names);
    SearchStrips(g, raw, names, true, j);
    SearchStrips(g, raw, names, false, k);
    forall v | DpQueue.Exposed(t, v) ensures DpQueue.Exposed(raw, v) {
      hide DpQueue.OnTwo, DpModel.Level;
    }
    DpQueue.PruningKeepsBest(t, j, k);
  }

  /** The state an opening search answers with has nothing pending and stands at the horizon
      reported. */
  lemma AnswerSettled(g: Rules, raw: DpModel.Task<World>, names: seq<Item>, settle: World -> World, best: DpLoop.Answer<World>)
    requires IsOpening(g, raw, names) && forall w :: settle(w) == Settle(g, w)
    requires DpLoop.Settled(raw, settle, best) && best.Some?
    ensures best.value.1.pend == [] && best.value.1.frame == best.value.0
  {
    hide Legal, Apply, Rules.Ok, Settle, Horizon, DpModel.All;
    var v, c :| DpModel.InBox(raw, v) && DpModel.Done(raw, v) && c in DpModel.All(raw, v)
             && best.value == (raw.m.horizon(c), settle(c));
    SettleEmpties(g, c);
  }

  // ---- purchases that commute are no tie ----

  /** A purchase with its server free and the money there happens at once. */
  lemma AtOnce(g: Rules, w: World, item: Item)
    requires g.Ok() && Seated(g, w) && Settled(w) && Known(g, item)
    requires FreeAt(w, ServerOf(item)) <= w.frame && Covers(w, ActionCost(g, w, item))
    ensures Apply(g, w, item) == Some(Place(g, w, item, ActionCost(g, w, item), ActionTime(g, w, item)))
  {
    hide Place, Seat, ActionCost, ActionTime, Rules.Ok, Steps;
    SeatedClone(g, w);
    FlushOfSettled(g, w);
    AdvanceZero(g, w);
    assert Max(w.frame, FreeAt(w, ServerOf(item))) - w.frame == 0;
    hide Advance, Clone;
    assert AtServer(g, w, item) == w;
    assert WaitFrom(g, w, ActionCost(g, w, item), 0, WAIT_LIMIT) == Some(0);
  }

  /** Both can be bought at once, and neither changes how long the other takes. */
  ghost predicate Independent(g: Rules, w: World, c: Item, d: Item)
    requires g.Ok()
  {
    && Known(g, c) && Known(g, d) && ServerOf(c) != ServerOf(d)
    && FreeAt(w, ServerOf(c)) <= w.frame && FreeAt(w, ServerOf(d)) <= w.frame
    && (forall r | 0 <= r < 6 :: ActionCost(g, w, c)[r] >= 0 && ActionCost(g, w, d)[r] >= 0)
    && (forall r | 0 <= r < 6 :: ActionCost(g, w, c)[r] + ActionCost(g, w, d)[r] <= w.stock[r])
    && ActionTime(g, w, c) > 0 && ActionTime(g, w, d) > 0
    && ActionTime(g, Place(g, w, d, ActionCost(g, w, d), ActionTime(g, w, d)), c) == ActionTime(g, w, c)
    && ActionTime(g, Place(g, w, c, ActionCost(g, w, c), ActionTime(g, w, c)), d) == ActionTime(g, w, d)
  }

  lemma OneThenOther(g: Rules, w: World, c: Item, d: Item)
    requires g.Ok() && Seated(g, w) && Settled(w) && Independent(g, w, c, d)
    ensures var p := Place(g, w, c, ActionCost(g, w, c), ActionTime(g, w, c));
            && Apply(g, w, c) == Some(p) && Seated(g, p) && Settled(p)
            && Apply(g, p, d) == Some(Place(g, p, d, ActionCost(g, w, d), ActionTime(g, w, d)))
  {
    hide Seat, Rules.Ok, Apply, Place, ActionTime, Built;
    var (cost, dur) := (ActionCost(g, w, c), ActionTime(g, w, c));
    var p := Place(g, w, c, cost, dur);
    PlaceIs(g, w, c, cost, dur);
    AtOnce(g, w, c);
    PriceStays(g, w, p, c, d);
    assert Owned(p, Citizen) >= 0 && Owned(p, Farm) >= 0 && Owned(p, WoodcutterCamp) >= 0;
    hide ActionCost;
    AtOnce(g, p, d);
  }

  lemma PriceStays(g: Rules, w: World, p: World, c: Item, d: Item)
    requires g.Ok() && Known(g, d) && c != d && p.own == if c.Tech? then w.own else w.own[c := Owned(w, c) + 1]
    ensures ActionCost(g, p, d) == ActionCost(g, w, d)
  {
    hide CostOf;
    assert Owned(p, d) == Owned(w, d);
  }

  /** Two independent purchases lead to states that differ as recorded, in the order of the
      log, and yet are one state of the search. */
  lemma Commute(g: Rules, w: World, c: Item, d: Item)
    requires g.Ok() && Seated(g, w) && Settled(w) && Independent(g, w, c, d) && Independent(g, w, d, c)
    ensures Apply(g, w, c).Some? && Apply(g, Apply(g, w, c).value, d).Some?
    ensures Apply(g, w, d).Some? && Apply(g, Apply(g, w, d).value, c).Some?
    ensures Apply(g, Apply(g, w, c).value, d).value != Apply(g, Apply(g, w, d).value, c).value
    ensures Twins(Apply(g, Apply(g, w, c).value, d).value, Apply(g, Apply(g, w, d).value, c).value)
  {
    hide Seat, Rules.Ok, Apply, Place, ActionTime, ActionCost, Built, Seated, Settled;
    OneThenOther(g, w, c, d);
    OneThenOther(g, w, d, c);
    BothPlaced(g, w, c, d, ActionCost(g, w, c), ActionCost(g, w, d), ActionTime(g, w, c), ActionTime(g, w, d));
  }

  lemma BothPlaced(g: Rules, w: World, c: Item, d: Item, k: Vec, l: Vec, m: int, n: int)
    requires g.Ok() && ServerOf(c) != ServerOf(d)
    ensures var (x, y) := (Place(g, Place(g, w, c, k, m), d, l, n), Place(g, Place(g, w, d, l, n), c, k, m));
            x != y && Twins(x, y)
  {
    hide Seat, Rules.Ok, Place, Built;
    var (x, y) := (Place(g, Place(g, w, c, k, m), d, l, n), Place(g, Place(g, w, d, l, n), c, k, m));
    var (i, j) := (Job(w.frame + m, c), Job(w.frame + n, d));
    PlacedTwice(g, w, c, d, k, l, m, n);
    PlacedTwice(g, w, d, c, l, k, n, m);
    assert x.stock == y.stock;
    assert multiset(w.pend + [i] + [j]) == multiset(w.pend) + multiset{i} + multiset{j};
    assert multiset(w.pend + [j] + [i]) == multiset(w.pend) + multiset{i} + multiset{j};
    assert x.pend[|w.pend|] == i && y.pend[|w.pend|] == j;
    TallySwap(w.own, c, d);
    assert x.techs == y.techs;
    SeatSame(g, x, y);
  }

  function Tally(own: map<Item, int>, item: Item): map<Item, int> {
    if item.Tech? then own else own[item := (if item in own then own[item] else 0) + 1]
  }

  lemma TallySwap(own: map<Item, int>, c: Item, d: Item)
    requires c != d
    ensures Tally(Tally(own, c), d) == Tally(Tally(own, d), c)
  {
  }

  lemma PlacedTwice(g: Rules, w: World, c: Item, d: Item, k: Vec, l: Vec, m: int, n: int)
    requires g.Ok() && ServerOf(c) != ServerOf(d)
    ensures var x := Place(g, Place(g, w, c, k, m), d, l, n);
            && (forall r | 0 <= r < 6 :: x.stock[r] == w.stock[r] - k[r] - l[r])
            && x.pend == w.pend + [Job(w.frame + m, c)] + [Job(w.frame + n, d)] && x.on == Seat(g, x)
            && x.own == Tally(Tally(w.own, c), d)
            && x.techs == w.techs + (if c.Tech? then {c.name} else {}) + (if d.Tech? then {d.name} else {})
            && x.builders == (if ServerOf(c) == Crew || ServerOf(d) == Crew
                              then Min(g.a.maxBuilders, Max(0, Built(w, Citizen) - 1)) else w.builders)
            && (forall s: Server :: FreeAt(x, s) == if s == ServerOf(c) then w.frame + m
                                                    else if s == ServerOf(d) then w.frame + n else FreeAt(w, s))
            && x == w.(stock := x.stock, pend := x.pend, on := x.on, own := x.own, techs := x.techs, builders := x.builders,
                       tFree := FreeAt(x, Trainer), bFree := FreeAt(x, Crew), lFree := FreeAt(x, Server.Research), log := x.log)
  {
    hide Seat, Rules.Ok, Place, Built;
    var p := Place(g, w, c, k, m);
    PlaceIs(g, w, c, k, m);
    PlaceIs(g, p, d, l, n);
    BuiltStays(w, p, c, Job(w.frame + m, c));
  }

  /** Queueing a citizen does not add to the built ones. */
  lemma BuiltStays(w: World, p: World, item: Item, job: Job)
    requires p.pend == w.pend + [job] && job.item == item
    requires p.own == if item.Tech? then w.own else w.own[item := Owned(w, item) + 1]
    ensures Built(p, Citizen) == Built(w, Citizen)
  {
    CountJobsAppend(w.pend, job, Citizen);
  }

  /** In the search, buying one and then the other is buying the other and then the one. */
  lemma BoughtEither(g: Rules, w: World, c: Item, d: Item)
    requires g.Ok() && Seated(g, w) && Settled(w) && Independent(g, w, c, d) && Independent(g, w, d, c)
    ensures Bought(g, w, c).Some? && Bought(g, w, d).Some?
    ensures Bought(g, Bought(g, w, c).value, d) == Bought(g, Bought(g, w, d).value, c)
  {
    hide Seat, Rules.Ok, Apply, Place, ActionTime, ActionCost, Built, Seated, Settled, Strip, Twins, Legal, Horizon;
    Commute(g, w, c, d);
    var (p, q) := (Apply(g, w, c).value, Apply(g, w, d).value);
    var (x, y) := (Apply(g, p, d).value, Apply(g, q, c).value);
    StripTwins(p, p);
    StripTwins(q, q);
    TwinApply(g, p, Strip(p), d);
    TwinApply(g, q, Strip(q), c);
    StripTwins(x, Apply(g, Strip(p), d).value);
    StripTwins(y, Apply(g, Strip(q), c).value);
    StripTwins(x, y);
  }

  /** Two purchases that commute, each once. */
  ghost predicate Pair(g: Rules, t: DpModel.Task<World>, names: seq<Item>) {
    && g.Ok() && t.Ok() && |names| == 2 && t.m == Buys(g, names) && t.cap == [1, 1] && Seated(g, t.start) && Settled(t.start)
    && Independent(g, t.start, names[0], names[1]) && Independent(g, t.start, names[1], names[0])
  }

  lemma PairFirst(g: Rules, t: DpModel.Task<World>, names: seq<Item>, v: DpModel.Node, x: World) returns (i: nat)
    requires Pair(g, t, names) && DpModel.InBox(t, v) && DpModel.Level(v) == 1 && x in DpModel.All(t, v)
    ensures i < 2 && v == [0, 0][i := 1] && Known(g, names[i]) && Bought(g, t.start, names[i]) == Some(x)
  {
    hide Rules.Ok, Independent, Seated, Settled, Bought, Legal;
    var from;
    i, from := DpRun.AllCases(t, v, x);
    DpModel.LevelDown(v, i);
    DpSearch.ZeroLevel(DpModel.Down(v, i));
    assert v == [v[0], v[1]];
  }

  lemma PairOne(g: Rules, t: DpModel.Task<World>, names: seq<Item>, v: DpModel.Node, x: World)
    requires Pair(g, t, names) && DpModel.InBox(t, v) && x in DpModel.All(t, v)
    ensures DpModel.Level(v) == 0 ==> x == t.start
    ensures Known(g, names[0]) && Known(g, names[1]) && Bought(g, t.start, names[0]).Some?
    ensures DpModel.Level(v) == 1 ==> Some(x) == Bought(g, t.start, names[if v[0] == 1 then 0 else 1])
    ensures DpModel.Level(v) > 1 ==> Some(x) == Bought(g, Bought(g, t.start, names[0]).value, names[1])
  {
    hide Rules.Ok, Independent, Seated, Settled, Bought, Legal, DpModel.Level, DpModel.AllFrom;
    PairKnown(g, t, names);
    BoughtEither(g, t.start, names[0], names[1]);
    if DpModel.Level(v) == 1 {
      var i := PairFirst(g, t, names, v, x);
    } else if DpModel.Level(v) > 1 {
      var i, from := DpRun.AllCases(t, v, x);
      var p := DpModel.Down(v, i);
      PairLevel(v);
      var j := PairFirst(g, t, names, p, from);
      assert v[j] == p[j] + (if i == j then 1 else 0);
      assert i == 1 - j;
    }
  }

  lemma PairKnown(g: Rules, t: DpModel.Task<World>, names: seq<Item>)
    requires Pair(g, t, names)
    ensures g.Ok() && |names| == 2 && Seated(g, t.start) && Settled(t.start) && Known(g, names[0]) && Known(g, names[1])
    ensures Independent(g, t.start, names[0], names[1]) && Independent(g, t.start, names[1], names[0])
  {
  }

  lemma PairLevel(v: DpModel.Node)
    requires |v| == 2 && v[0] <= 1 && v[1] <= 1
    ensures DpModel.Level(v) == v[0] + v[1]
  {
    assert v[1..][1..] == [] && v[1..][0] == v[1];
    assert DpModel.Level([]) == 0 && DpModel.Level(v[1..]) == v[1];
  }

  /** Purchases that commute never tie: the search has one state for both orders. */
  lemma PairApart(g: Rules, t: DpModel.Task<World>, names: seq<Item>)
    requires Pair(g, t, names)
    ensures DpModel.TiesApart(t, None)
  {
    hide Pair, DpModel.All, Bought, DpModel.Level;
    forall v, x, y | DpModel.InBox(t, v) && x in DpModel.All(t, v) && y in DpModel.All(t, v) ensures x == y {
      PairOne(g, t, names, v, x);
      PairOne(g, t, names, v, y);
    }
  }
}
