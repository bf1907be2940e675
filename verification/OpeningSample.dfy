/** A small rule table and the states it leads to: no workers, one city, and an income of
    two wealth, one knowledge and one metal a frame. A market adds one wealth, a university
    one knowledge and a second city one metal. */
module OpeningSample {
  import opened Arith
  import opened Accumulator
  import opened Costs
  import opened OpeningRules
  import opened OpeningWorld
  import opened OpeningTime
  import opened OpeningSeating
  import opened OpeningPend

  const FREE := Record(NONE, [-1, -1], [0, 0], 1, [])
  const CHARTER := TechRow("Charter", 1, CIVIC, false, Record(NONE, [-1, -1], [0, 0], 0, []))
  const AIM := TechRow("Aim", 2, MILITARY, false, Record([0, 0, 22, 11, 0, 0], [-1, -1], [0, 0], 0, []))

  const AIM_COST: Vec := [0, 0, 22, 11, 0, 0]
  const MARKET_COST: Vec := [0, 0, 0, 0, 10, 0]

  function Table(): Rules {
    Rules(
      1, 256, 0,
      [0, 0, 0, 0, 1, 0], [0, 0, 2, 1, 0, 0], NONE,
      [99, 99, 99, 99, 99, 99, 99, 99], [9, 9, 9, 9, 9, 9, 9, 9], 5,
      50, 0,
      1, 1, [0],
      1, 1, 1, 0,
      FREE,
      map[Farm := FREE, WoodcutterCamp := FREE, Mine := FREE, Market := FREE.(cost := MARKET_COST), Library := FREE,
          University := FREE, Granary := FREE, Barracks := FREE, SmallCity := FREE],
      [CHARTER, AIM],
      Assume(2, 0, 0, 1, false, 0, 0, 0, 0, 0, 0, 0))
  }

  lemma TableOk()
    ensures Table().Ok()
  {
  }

  lemma Techs()
    ensures FindTech(Table().techs, "Charter") == Some(CHARTER) && FindTech(Table().techs, "Aim") == Some(AIM)
  {
    var rows := Table().techs;
    assert rows[0].name == "Charter" && rows[1..] == [AIM];
    assert "Charter" != "Aim" by { assert "Charter"[0] == 'C' && "Aim"[0] == 'A'; }
  }

  // ---- the states ----

  /** What has been bought, when it is `job` that is being built. */
  datatype Scene = Scene(frame: int, wealth: int, knowledge: int, metal: int,
                         market: bool, university: bool, city: bool, job: Option<Job>, free: int)
  {
    /** The one job is for something bought and lands at the next frame. */
    ghost predicate Ok() {
      job.Some? ==>
        && job.value.done == frame + 1
        && (job.value.item == Market || job.value.item == University || job.value.item == SmallCity)
        && Has(job.value.item)
    }

    predicate Has(item: Item) {
      match item case Market => market case University => university case SmallCity => city case _ => false
    }

    /** One more of `item` earns: bought and not being built. */
    function Earns(item: Item): nat {
      if Has(item) && !(job.Some? && job.value.item == item) then 1 else 0
    }

    function Stock(): Vec { [0, 0, wealth, knowledge, metal, 0] }

    function Counts(): map<Item, int> {
      var own := map[Citizen := 0, Farm := 0, WoodcutterCamp := 0, Library := 1, SmallCity := if city then 2 else 1];
      var own' := if market then own[Market := 1] else own;
      if university then own'[University := 1] else own'
    }

    function At(): World {
      World(frame, Stock(), NONE, Counts(), 0, NONE, [0, 1, 0, 0], 0, {"Charter"}, 0, free, 0, 0,
            if job.Some? then [job.value] else [], [])
    }

    /** A frame later. */
    function Next(): Scene {
      Scene(frame + 1, wealth + 2 + Earns(Market), knowledge + 1 + Earns(University), metal + 1 + Earns(SmallCity),
            market, university, city, None, free)
    }

    /** `n` frames later, with nothing being built. */
    function Rest(n: nat): Scene
      requires job.None?
    {
      this.(frame := frame + n, wealth := wealth + n + n + (if market then n else 0),
            knowledge := knowledge + n + (if university then n else 0), metal := metal + n + (if city then n else 0))
    }

    /** `n` frames later. */
    function In(n: nat): Scene {
      if job.None? then Rest(n) else if n == 0 then this else Next().Rest(n - 1)
    }

    /** `item` just paid for. */
    function Buying(item: Item): Scene {
      var s := this.(job := Some(Job(frame + 1, item)), free := frame + 1);
      match item
      case Market => s.(market := true, metal := metal - 10)
      case University => s.(university := true)
      case _ => s.(city := true)
    }
  }

  lemma Tallies(s: Scene)
    requires s.Ok()
    ensures var w := s.At();
            && Built(w, Market) == s.Earns(Market) && Built(w, University) == s.Earns(University)
            && Built(w, SmallCity) == 1 + s.Earns(SmallCity)
            && Built(w, Citizen) == Built(w, Farm) == Built(w, WoodcutterCamp) == Built(w, Mine) == 0
  {
    hide CountJobs;
    NoJobs();
    if s.job.Some? { OneCount(s.job.value); }
  }

  lemma NoJobs()
    ensures forall item :: CountJobs([], item) == 0
  {
  }

  lemma OneCount(j: Job)
    ensures forall item :: CountJobs([j], item) == if j.item == item then 1 else 0
  {
    assert [j][1..] == [];
  }

  lemma {:induction false} NobodyUseful(sl: Vec, useful: Vec, n: nat)
    requires n <= 4
    ensures UsefulPass(sl, useful, 0, n) == (NONE, 0)
  {
    if n > 0 {
      NobodyUseful(sl, useful, n - 1);
      assert NONE[USEFUL_ORDER[n - 1] := 0] == NONE;
    }
  }

  lemma {:induction false} NobodyStands(sl: Vec, n: nat)
    requires n <= 3 && forall r | 0 <= r < 6 :: sl[r] >= 0
    ensures RoomPass(sl, (NONE, 0), n) == (NONE, 0)
  {
    if n > 0 {
      NobodyStands(sl, n - 1);
      assert NONE[ROOM_ORDER[n - 1] := 0] == NONE;
    }
  }

  /** Without citizens nobody is seated. */
  lemma NobodySeated(g: Rules, w: World)
    requires g.Ok() && Built(w, Citizen) == w.builders && forall r | 0 <= r < 6 :: Slots(g, w)[r] >= 0
    ensures Seat(g, w) == NONE
  {
    hide Rules.Ok, UsefulPass, RoomPass, UsefulVec, Built;
    NobodyUseful(Slots(g, w), UsefulVec(g, w), 4);
    NobodyStands(Slots(g, w), 3);
  }

  lemma Unseated(s: Scene)
    requires s.Ok() && Table().Ok()
    ensures Seat(Table(), s.At()) == NONE && Seated(Table(), s.At())
  {
    hide Rules.Ok, Seat, CountJobs;
    Tallies(s);
    NobodySeated(Table(), s.At());
  }

  lemma Incomes(s: Scene, r: int)
    requires s.Ok() && Table().Ok() && 0 <= r < 6
    ensures IncomeOn(Table(), s.At(), r) == 16 * [0, 0, 2 + s.Earns(Market), 1 + s.Earns(University), 1 + s.Earns(SmallCity), 0][r]
  {
    hide Rules.Ok, CountJobs, Built;
    Tallies(s);
  }

  lemma Sixteenths()
    ensures Table().Period() == 16
  {
  }

  lemma Whole(stock: int, n: int)
    ensures Accrue(16, 16 * n, 1, stock, 0) == if n <= 0 then (stock, 0) else (stock + n, 0)
  {
    if n > 0 { DivModUnique(16 * n, 16, n, 0); }
  }

  lemma Ticked(s: Scene)
    requires s.Ok() && Table().Ok()
    ensures Tick(Table(), s.At(), 1) == s.Next().At().(pend := s.At().pend)
  {
    hide Rules.Ok, IncomeOn, Accrue, Table, Scene.Earns;
    var (g, w) := (Table(), s.At());
    var v := Tick(g, w, 1);
    assert g.Period() == 16 by { Sixteenths(); }
    var gain := [0, 0, 2 + s.Earns(Market), 1 + s.Earns(University), 1 + s.Earns(SmallCity), 0];
    forall r | 0 <= r < 6 ensures v.stock[r] == w.stock[r] + gain[r] && v.leftover[r] == 0 {
      Incomes(s, r);
      Whole(w.stock[r], gain[r]);
    }
    assert v.stock == s.Next().Stock();
    assert v.leftover == NONE;
  }

  /** One frame: income, and what was being built is there. */
  lemma Stepped(s: Scene)
    requires s.Ok() && Table().Ok()
    ensures Step(Table(), s.At()) == s.Next().At() && s.Next().Ok()
  {
    hide Rules.Ok, Tick, Seat;
    var (g, v) := (Table(), s.Next().At().(pend := s.At().pend));
    Ticked(s);
    Unseated(s.Next());
    if s.job.Some? {
      var j := s.job.value;
      assert v.pend == [j] && v.pend[1..] == [];
      LaterEmpty(v.pend, v.frame);
      assert Due(v.pend, v.frame) == [j] by { assert Due([], v.frame) == []; }
      assert Ages(g, [j]) == 0 && Raise(g, v.epoch, [j]) == v.epoch by { assert [j][1..] == []; }
      SeatIgnores(g, s.Next().At(), v.(pend := []));
      assert !Settled(v) by { assert j in v.pend; }
    }
  }

  lemma {:induction false} RanRest(s: Scene, n: nat)
    requires s.job.None? && Table().Ok()
    ensures Steps(Table(), s.At(), n) == s.Rest(n).At()
    decreases n
  {
    hide Rules.Ok, Step, Scene.At;
    if n > 0 {
      Stepped(s);
      RanRest(s.Next(), n - 1);
      RestNext(s, n);
    } else {
      assert s.Rest(0) == s;
    }
  }

  lemma RestNext(s: Scene, n: nat)
    requires s.job.None? && n > 0
    ensures s.Next().Rest(n - 1) == s.Rest(n)
  {
  }

  /** Time passes. */
  lemma Ran(s: Scene, n: nat)
    requires s.Ok() && Table().Ok()
    ensures Advance(Table(), s.At(), n) == s.In(n).At()
  {
    hide Rules.Ok, Step, Flush;
    assert Settled(s.At());
    FlushOfSettled(Table(), s.At());
    if s.job.None? {
      RanRest(s, n);
    } else if n > 0 {
      Stepped(s);
      RanRest(s.Next(), n - 1);
    }
  }

  // ---- purchases ----

  /** A purchase starts in the first state with its server free and its cost covered. */
  lemma ApplyAt(g: Rules, w: World, item: Item, n: nat)
    requires g.Ok() && Seated(g, w) && Known(g, item) && n <= WAIT_LIMIT && w.frame + n >= FreeAt(w, ServerOf(item))
    requires Covers(Advance(g, w, n), ActionCost(g, w, item))
    requires forall m: nat | m < n && w.frame + m >= FreeAt(w, ServerOf(item)) :: !Covers(Advance(g, w, m), ActionCost(g, w, item))
    ensures Apply(g, w, item) == Some(Place(g, Advance(g, w, n), item, ActionCost(g, w, item), ActionTime(g, w, item)))
  {
    hide Rules.Ok, Advance, Seated, Clone, AtServer, ActionCost, ActionTime, Place, Covers, Settled;
    AtServerSeated(g, w, item);
    var k := Max(w.frame, FreeAt(w, ServerOf(item))) - w.frame;
    AdvanceRan(g, w, k);
    var v := AtServer(g, w, item);
    forall m: nat ensures Advance(g, v, m) == Advance(g, w, k + m) { AdvanceAdd(g, w, k, m); }
    var got := WaitFrom(g, v, ActionCost(g, v, item), 0, WAIT_LIMIT);
    assert Advance(g, v, n - k) == Advance(g, w, n);
    assert got.Some? && got.value <= n - k;
    assert Advance(g, v, got.value) == Advance(g, w, k + got.value);
    ApplyIs(g, w, item);
  }

  predicate IsWork(item: Item) { item == Market || item == University || item == SmallCity }

  function PriceOf(item: Item): Vec { if item == Market then MARKET_COST else NONE }

  lemma Priced(s: Scene, item: Item)
    requires IsWork(item) && Table().Ok() && !s.Has(item)
    ensures ActionCost(Table(), s.At(), item) == PriceOf(item) && ActionTime(Table(), s.At(), item) == 1
    ensures Known(Table(), item) && Legal(Table(), s.At(), item)
  {
    hide Rules.Ok;
    var rec := Table().buildings[item];
    assert Scaled(rec.cost, 1) == rec.cost;
    assert Preqs(Table(), item) == {};
  }

  lemma PricedAim(s: Scene)
    requires Table().Ok()
    ensures Known(Table(), Tech("Aim")) && Legal(Table(), s.At(), Tech("Aim"))
    ensures ActionCost(Table(), s.At(), Tech("Aim")) == AIM_COST && ActionTime(Table(), s.At(), Tech("Aim")) == 0
  {
    hide Rules.Ok;
    Techs();
    assert Scaled(AIM.rec.cost, 1) == AIM_COST;
    assert Preqs(Table(), Tech("Aim")) == {};
    assert "Charter" != "Aim" by { assert "Charter"[0] == 'C' && "Aim"[0] == 'A'; }
  }

  lemma Placed(s: Scene, item: Item)
    requires IsWork(item) && Table().Ok() && !s.Has(item) && s.job.None?
    ensures Strip(Place(Table(), s.At(), item, PriceOf(item), 1)) == s.Buying(item).At() && s.Buying(item).Ok()
  {
    hide Rules.Ok, Place, Seat, Line, Built, Scene.Counts, Scene.Earns, Owned;
    var (g, w, t) := (Table(), s.At(), s.Buying(item));
    var p := Place(g, w, item, PriceOf(item), 1);
    PlaceIs(g, w, item, PriceOf(item), 1);
    Tallies(s);
    Unseated(t);
    CountsMore(s, item);
    assert p.stock == t.Stock();
    assert p.pend == [Job(s.frame + 1, item)];
    SeatIgnores(g, t.At(), p);
    OneJob(Job(s.frame + 1, item));
  }

  lemma CountsMore(s: Scene, item: Item)
    requires IsWork(item) && !s.Has(item)
    ensures s.Counts()[item := Owned(s.At(), item) + 1] == s.Buying(item).Counts()
  {
  }

  lemma OneJob(j: Job)
    ensures Line(multiset([j])) == [j]
  {
    var l := Line(multiset([j]));
    assert |multiset(l)| == |l| && multiset(l) == multiset{j};
    assert l[0] in multiset(l);
  }

  /** A building is bought when the crew is free and there is metal for a market. */
  lemma Buys(s: Scene, item: Item, n: nat)
    requires s.Ok() && Table().Ok() && IsWork(item) && !s.Has(item) && n <= 99
    requires s.frame + n >= s.free && s.In(n).job.None? && (item == Market ==> s.In(n).metal >= 10)
    requires s.wealth >= 0 && s.knowledge >= 0 && s.metal >= 0
    requires n == 0 || s.frame + n - 1 < s.free || (item == Market && s.In(n - 1).metal < 10)
    ensures Apply(Table(), s.At(), item).Some? && Strip(Apply(Table(), s.At(), item).value) == s.In(n).Buying(item).At()
    ensures s.In(n).Buying(item).Ok()
  {
    hide Rules.Ok, Advance, ActionCost, ActionTime, Apply, Seated, Place, Strip, Table, Scene.Counts, Scene.Earns, Scene.Buying, Legal;
    var (g, w) := (Table(), s.At());
    Unseated(s);
    Priced(s, item);
    forall m: nat | m <= n ensures Advance(g, w, m) == s.In(m).At() { Ran(s, m); }
    Grows(s, 0, n);
    assert Covers(s.In(n).At(), PriceOf(item));
    forall m: nat | m < n && w.frame + m >= FreeAt(w, ServerOf(item)) ensures !Covers(Advance(g, w, m), PriceOf(item)) {
      Grows(s, m, n - 1);
      assert s.In(m).At().stock[METAL] < MARKET_COST[METAL];
    }
    ApplyAt(g, w, item, n);
    assert s.In(n).Has(item) == s.Has(item);
    Placed(s.In(n), item);
  }

  lemma Grows(s: Scene, m: nat, n: nat)
    requires m <= n
    ensures s.In(0) == s && s.In(n).frame == s.frame + n
    ensures s.In(m).wealth <= s.In(n).wealth && s.In(m).knowledge <= s.In(n).knowledge && s.In(m).metal <= s.In(n).metal
  {
  }

  /** The aim is bought when there is wealth and knowledge for it, and completes at once. */
  lemma BuysAim(s: Scene, n: nat)
    requires s.Ok() && Table().Ok() && 0 <= s.frame && s.frame + n >= s.free && n <= 99 && s.In(n).job.None?
    requires s.metal >= 0 && s.In(n).wealth >= 22 && s.In(n).knowledge >= 11
    requires n == 0 || s.In(n - 1).wealth < 22 || s.In(n - 1).knowledge < 11
    ensures var v := Apply(Table(), s.At(), Tech("Aim"));
            v.Some? && Horizon(v.value) == s.frame + n && Horizon(Strip(v.value)) == s.frame + n
  {
    hide Rules.Ok, Advance, ActionCost, ActionTime, Apply, Seated, Place, Strip, Legal, Seat, Table, Scene.Counts, Scene.Earns, Horizon;
    var (g, w, aim) := (Table(), s.At(), Tech("Aim"));
    Unseated(s);
    PricedAim(s);
    forall m: nat | m <= n ensures Advance(g, w, m) == s.In(m).At() { Ran(s, m); }
    Grows(s, 0, n);
    assert Covers(s.In(n).At(), AIM_COST);
    forall m: nat | m < n ensures !Covers(Advance(g, w, m), AIM_COST) {
      Grows(s, m, n - 1);
      var stock := s.In(m).At().stock;
      assert stock[WEALTH] < AIM_COST[WEALTH] || stock[KNOWLEDGE] < AIM_COST[KNOWLEDGE];
    }
    ApplyAt(g, w, aim, n);
    AimPlaced(s.In(n)) by { InFree(s, n); }
  }

  lemma InFree(s: Scene, n: nat)
    ensures s.In(n).free == s.free && s.In(n).frame == s.frame + n
  {
  }

  lemma AimPlaced(s: Scene)
    requires Table().Ok() && s.job.None? && 0 <= s.frame && s.free <= s.frame
    ensures var v := Place(Table(), s.At(), Tech("Aim"), AIM_COST, 0);
            Horizon(v) == s.frame && Horizon(Strip(v)) == s.frame
  {
    hide Rules.Ok, Place, Strip, Twins, Seat, Table, Legal, Scene.Counts;
    var (g, aim, j) := (Table(), Tech("Aim"), Job(s.frame, Tech("Aim")));
    var v := Place(g, s.At(), aim, AIM_COST, 0);
    PlaceIs(g, s.At(), aim, AIM_COST, 0);
    assert v.pend == [j] && [j][1..] == [];
    assert forall from :: LastDone([j], from) == Max(from, j.done) by { assert forall from :: LastDone([], from) == from; }
    StripTwins(v, v);
    PricedAim(s);
    TwinLegal(g, v, Strip(v), aim);
  }
}
