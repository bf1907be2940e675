/** Openings that show what the claims exclude: a queued granary that feeds, a citizen trained
    before its prerequisite, two purchases that commute, and the start of the search in which
    pruning changes the result. */
module OpeningCases {
  import opened Costs
  import opened OpeningRules
  import opened OpeningWorld
  import opened OpeningTime
  import opened OpeningSeating
  import opened OpeningRuns
  import opened OpeningClaims
  import opened OpeningPend
  import opened OpeningOrder
  import opened OpeningGranary
  import opened OpeningSample
  import OpeningTies
  import DpOpening
  import DpModel

  /** The start, field by field. */
  lemma StartIs(g: Rules)
    requires g.Ok()
    ensures var w := Start(g);
            && w.frame == 0 && w.stock == g.startingGoods && w.leftover == NONE && w.epoch == [0, 0, 0, 0] && w.techs == {}
            && w.tFree == w.bFree == w.lFree == w.builders == w.lumbermills == w.age == 0 && w.pend == [] && w.log == []
            && w.own == map[Citizen := g.a.startCitizens, Farm := g.a.startFarms, WoodcutterCamp := g.a.startWoodcamps,
                            Library := 1, SmallCity := 1]
            && w.on == Seat(g, w) && Seated(g, w) && Settled(w)
            && forall item :: Built(w, item) == Owned(w, item)
  {
    hide Rules.Ok, Seat;
    var w := Start(g);
    assert g.a.startCitizens >= 0 && g.a.startFarms >= 0 && g.a.startWoodcamps >= 0 by { StartCounts(g); }
    SeatIgnores(g, w.(on := NONE), w);
    NoJobs();
  }

  lemma StartCounts(g: Rules)
    requires g.Ok()
    ensures g.a.startCitizens >= 0 && g.a.startFarms >= 0 && g.a.startWoodcamps >= 0
  {
  }

  /** A purchase that costs nothing, its server idle, happens at once. */
  lemma FreeNow(g: Rules, item: Item)
    requires g.Ok() && Known(g, item) && Legal(g, Start(g), item) && ActionCost(g, Start(g), item) == NONE && g.startingGoods == NONE
    ensures CanBuy(g, Start(g), item)
    ensures Apply(g, Start(g), item) == Some(Place(g, Start(g), item, NONE, ActionTime(g, Start(g), item)))
  {
    hide Rules.Ok, Legal, ActionCost, ActionTime, Place, Seat, Apply, Start;
    StartIs(g);
    DpOpening.AtOnce(g, Start(g), item);
  }

  lemma FreeBuilding(g: Rules, w: World, item: Item)
    requires g.Ok() && IsBuilding(item) && ChecksPreqs(item) && g.buildings[item] == FREE
    requires g.buildFactor == 1 && !g.a.buildLinear && g.a.walkFrames == 0
    ensures Known(g, item) && Legal(g, w, item) && ActionCost(g, w, item) == NONE && ActionTime(g, w, item) == 1
  {
    hide Rules.Ok;
    assert Scaled(FREE.cost, 1) == NONE;
    assert Preqs(g, item) == {};
  }

  // ---- a queued granary feeds ----

  /** Two citizens and one farm at the start, a granary and its bonus of one half for free. */
  ghost predicate FarmTable(g: Rules) {
    && g.Ok() && g.startingGoods == NONE && g.buildings[Granary] == FREE && g.buildFactor == 1 && g.granaryBonus == 50
    && g.peasantRate == 256 && g.cityGather[FOOD] == g.basicGather[FOOD] == 0 && g.commerceCap[0] == 99
    && g.a.startCitizens == 2 && g.a.startFarms == 1 && g.a.startWoodcamps == 0 && g.a.slotsFarm == 2
    && g.a.maxBuilders == 1 && !g.a.buildLinear && g.a.walkFrames == 0
  }

  function Farmers(): Rules { Table().(a := Table().a.(startCitizens := 2, startFarms := 1)) }

  lemma StillOk(g: Rules, citizen: Record, citizens: nat, farms: nat)
    requires g.Ok() && citizen.Ok()
    ensures g.(citizen := citizen).Ok() && g.(a := g.a.(startCitizens := citizens, startFarms := farms)).Ok()
  {
  }

  lemma FarmersFarm()
    ensures FarmTable(Farmers())
  {
    hide Rules.Ok;
    TableOk();
    StillOk(Table(), FREE, 2, 1);
  }

  /** In `w`, reached from the start, a granary that is only queued adds to the food income. */
  ghost predicate FedEarly(g: Rules, w: World) {
    && g.Ok() && Reachable(g, w) && Owned(w, Granary) == 1 && Built(w, Granary) == 0
    && IncomeOn(g, w, FOOD) == 24 && BuiltIncomeOn(g, w, FOOD) == 16
  }

  /** One worker on a farm earns half as much again while the granary is being built. */
  lemma GranaryFeeds() returns (w: World)
    ensures FedEarly(Farmers(), w)
  {
    hide FarmTable, Farmers, FedEarly;
    FarmersFarm();
    w := QueuedGranary(Farmers());
  }

  lemma QueuedGranary(g: Rules) returns (w: World)
    requires FarmTable(g)
    ensures FedEarly(g, w)
  {
    hide Rules.Ok, Legal, ActionCost, ActionTime, Seat, Apply, Start, Run, Place, IncomeOn, BuiltIncomeOn, Built, Seated;
    var s := Start(g);
    StartIs(g);
    FreeBuilding(g, s, Granary);
    FreeNow(g, Granary);
    w := Place(g, s, Granary, NONE, 1);
    StartReached(g);
    Buyable(g, s, Granary);
    ReachNext(g, s, Buy(Granary));
    PlaceIs(g, s, Granary, NONE, 1);
    BuiltNow(s, w, 1);
    FarmIncome(g, w);
  }

  lemma BuiltNow(s: World, w: World, done: int)
    requires s.pend == [] && w.pend == s.pend + [Job(done, Granary)] && w.own == s.own[Granary := Owned(s, Granary) + 1]
    ensures forall item | item != Granary :: Built(w, item) == Built(s, item)
    ensures Built(w, Granary) == Owned(s, Granary)
  {
    hide CountJobs;
    NoJobs();
    assert w.pend == [Job(done, Granary)];
    OneCount(w.pend[0]);
  }

  lemma FarmIncome(g: Rules, w: World)
    requires FarmTable(g) && Reachable(g, w) && w.builders == 1 && Owned(w, Granary) == 1 && Built(w, Granary) == 0
    requires Built(w, Citizen) == 2 && Built(w, Farm) == 1 && Built(w, WoodcutterCamp) == Built(w, University) == Built(w, Mine) == 0
    requires w.epoch == [0, 0, 0, 0]
    ensures IncomeOn(g, w, FOOD) == 24 && BuiltIncomeOn(g, w, FOOD) == 16
  {
    hide Rules.Ok, Reachable, Built;
    WorkersFit(g, w);
    assert w.on[FOOD] == 1;
  }

  // ---- a citizen trained before its prerequisite ----

  /** The sample table in which citizens ask for the charter. */
  function Chartered(): Rules { Table().(citizen := FREE.(preq := [1])) }

  ghost predicate CharterTable(g: Rules) {
    && g.Ok() && g.startingGoods == NONE && g.citizen == FREE.(preq := [1]) && g.unitFactor == 1 && g.techs == [CHARTER, AIM]
    && g.a.startCitizens == 0 && g.popCap[0] > 0
  }

  lemma CharteredTable()
    ensures CharterTable(Chartered())
  {
    hide Rules.Ok;
    TableOk();
    StillOk(Table(), FREE.(preq := [1]), 0, 0);
  }

  lemma CharterStart(g: Rules)
    requires CharterTable(g)
    ensures Legal(g, Start(g), Citizen) && ActionCost(g, Start(g), Citizen) == NONE && "Charter" in Preqs(g, Citizen)
  {
    hide Rules.Ok, Seat, Start;
    StartIs(g);
    assert Scaled(FREE.cost, 1) == NONE;
    assert g.techs[0].name == "Charter" && 1 in g.citizen.preq && TechAtSlot(g.techs, 1) == Some("Charter");
  }

  /** A citizen can be trained at the start although what it asks for is not researched. */
  ghost predicate TrainsEarly(g: Rules) {
    g.Ok() && CanBuy(g, Start(g), Citizen) && Preqs(g, Citizen) != {} && !AlwaysOrdered(g)
  }

  lemma CitizenEarly()
    ensures TrainsEarly(Chartered())
  {
    hide Rules.Ok, Legal, ActionCost, ActionTime, Seat, Apply, Start, Run, Place, Chartered, Preqs, AlwaysOrdered;
    CharteredTable();
    CharterStart(Chartered());
    FreeNow(Chartered(), Citizen);
    UntestedPrerequisites(Chartered(), Citizen);
  }

  // ---- two purchases that commute ----

  /** A citizen and a university, each once. */
  function Both(): DpModel.Task<World>
    requires Table().Ok()
  {
    DpModel.Task(DpOpening.Records(Table(), [Citizen, University]), [1, 1], [1, 1], 6, OpeningTies.EMPTY.At())
  }

  lemma Prices(g: Rules, w: World)
    requires g == Table() && g.Ok()
    ensures ActionCost(g, w, Citizen) == NONE && ActionTime(g, w, Citizen) == 1
    ensures ActionCost(g, w, University) == NONE && ActionTime(g, w, University) == 1
  {
    hide Rules.Ok;
    assert Scaled(FREE.cost, 1) == NONE;
  }

  lemma Free(w: World)
    requires Table().Ok() && w == OpeningTies.EMPTY.At()
    ensures DpOpening.Independent(Table(), w, Citizen, University) && DpOpening.Independent(Table(), w, University, Citizen)
  {
    hide Rules.Ok, Table, ActionCost, ActionTime, Place;
    var g := Table();
    Prices(g, w);
    Prices(g, Place(g, w, Citizen, NONE, 1));
    Prices(g, Place(g, w, University, NONE, 1));
  }

  /** The two orders are recorded as different states and are one state of the search, so the
      task has no tie at all. */
  ghost predicate Commutes(g: Rules, t: DpModel.Task<World>, w: World, c: Item, d: Item) {
    && DpOpening.IsOpening(g, t, [c, d]) && t.start == w && Known(g, c) && Known(g, d)
    && DpModel.TiesApart(DpOpening.Stripped(g, t, [c, d]), None)
    && Apply(g, w, c).Some? && Apply(g, Apply(g, w, c).value, d).Some?
    && Apply(g, w, d).Some? && Apply(g, Apply(g, w, d).value, c).Some?
    && Apply(g, Apply(g, w, c).value, d).value != Apply(g, Apply(g, w, d).value, c).value
  }

  lemma BothCommute()
    ensures Table().Ok() && Commutes(Table(), Both(), OpeningTies.EMPTY.At(), Citizen, University)
  {
    hide Rules.Ok, Table, Apply, DpModel.TiesApart, DpOpening.Independent, DpOpening.Buys, DpOpening.Records;
    hide Seated, Settled, Scene.At, Strip;
    TableOk();
    OpeningTies.StripEmpty();
    var (g, w, names) := (Table(), OpeningTies.EMPTY.At(), [Citizen, University]);
    Free(w);
    Unseated(OpeningTies.EMPTY);
    assert Settled(w) by { Calm(); }
    DpOpening.Commute(g, w, Citizen, University);
    DpOpening.PairApart(g, DpOpening.Stripped(g, Both(), names), names);
  }

  lemma Calm()
    ensures Settled(OpeningTies.EMPTY.At())
  {
  }

  // ---- where the search begins ----

  const DAWN := Scene(0, 0, 0, 0, false, false, false, None, 0)

  lemma CharterPrice(w: World)
    requires Table().Ok() && w.techs == {}
    ensures var (g, charter) := (Table(), Tech("Charter"));
            Known(g, charter) && Legal(g, w, charter) && ActionCost(g, w, charter) == NONE && ActionTime(g, w, charter) == 0
  {
    hide Rules.Ok;
    Techs();
    assert Scaled(CHARTER.rec.cost, 1) == NONE;
    assert Preqs(Table(), Tech("Charter")) == {};
  }

  /** The charter lands and allows a second city. */
  lemma CharterLands(p: World)
    requires Table().Ok() && p.frame == 0 && p.pend == [Job(0, Tech("Charter"))] && p.builders == 0
    requires p == DAWN.At().(epoch := [0, 0, 0, 0], on := p.on, pend := p.pend, log := p.log)
    ensures Flush(Table(), p) == DAWN.At().(log := p.log)
  {
    hide Rules.Ok, Seat, Flush, Table;
    var (g, j) := (Table(), Job(0, Tech("Charter")));
    assert !Settled(p) by { assert j in p.pend; }
    FlushIs(g, p);
    assert p.pend == [j] && [j][1..] == [];
    assert Due([j], 0) == [j] by { assert Due([], 0) == []; }
    LaterEmpty([j], 0);
    CharterRaises(g, j);
    Unseated(DAWN);
    SeatIgnores(g, DAWN.At(), Flush(g, p));
  }

  lemma CharterRaises(g: Rules, j: Job)
    requires g == Table() && g.Ok() && j.item == Tech("Charter")
    ensures Ages(g, [j]) == 0 && Raise(g, [0, 0, 0, 0], [j]) == [0, 1, 0, 0]
  {
    hide Rules.Ok;
    Techs();
    assert [j][1..] == [];
    assert Ages(g, []) == 0;
    assert forall e: Levels :: Raise(g, e, []) == e;
  }

  /** A run leads to the state the search begins in. */
  ghost predicate Begins(g: Rules, w: World) { g.Ok() && Reachable(g, w) && Strip(w) == OpeningTies.EMPTY.At() }

  lemma SearchStart() returns (w: World)
    ensures Begins(Table(), w)
  {
    hide Rules.Ok, Table, Legal, ActionCost, ActionTime, Seat, Apply, Start, Run, Place, Flush, Reachable, OpeningWorld.Steps, Strip, Twins;
    TableOk();
    var (g, charter) := (Table(), Tech("Charter"));
    var s := Start(g);
    StartIs(g);
    SampleStart();
    CharterPrice(s);
    FreeNow(g, charter);
    var p := Place(g, s, charter, NONE, 0);
    PlaceIs(g, s, charter, NONE, 0);
    StartReached(g);
    Buyable(g, s, charter);
    ReachNext(g, s, Buy(charter));
    assert p.stock == NONE;
    assert {} + {"Charter"} == {"Charter"};
    CharterLands(p);
    w := Advance(g, p, 3);
    assert After(g, p, Idle(3)) == Some(w);
    ReachNext(g, p, Idle(3));
    DawnRuns(g, p, w);
  }

  lemma SampleStart()
    ensures var g := Table(); g.startingGoods == NONE && g.a.startCitizens == g.a.startFarms == g.a.startWoodcamps == 0
  {
  }

  lemma DawnRuns(g: Rules, p: World, w: World)
    requires g == Table() && g.Ok() && Flush(g, p) == DAWN.At().(log := p.log) && w == Advance(g, p, 3)
    ensures Strip(w) == OpeningTies.EMPTY.At()
  {
    hide Rules.Ok, Table, Flush, OpeningWorld.Steps;
    var d := DAWN.At();
    TwinSteps(g, Flush(g, p), d, 3);
    RanRest(DAWN, 3);
    assert DAWN.Rest(3) == OpeningTies.EMPTY;
    StripTwins(w, OpeningTies.EMPTY.At());
    OpeningTies.StripEmpty();
  }

  /** Pruning changes the best horizon of an opening search, on states as recorded and from a
      state that a run reaches: it is 10 without pruning and 11 with it. */
  lemma PruningChangesBest() returns (w: World, j: nat, k: nat)
    ensures Table().Ok() && Begins(Table(), w) && OpeningTies.Differ(Table(), OpeningTies.Task(w), w, j, k)
  {
    hide Rules.Ok, Table, Begins, OpeningTies.Differ, OpeningTies.Task;
    TableOk();
    w := SearchStart();
    BeginsStripped(w);
    j, k := OpeningTies.SearchesDiffer(w);
  }

  lemma BeginsStripped(w: World)
    requires Begins(Table(), w)
    ensures Strip(w) == OpeningTies.EMPTY.At()
  {
  }
}
