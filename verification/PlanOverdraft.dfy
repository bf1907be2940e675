/**
 A plan on which `step` pays metal it does not have. One citizen, on a building site; the
 copy that `step` works on sends the same citizen to the mine as well, the wait is
 computed from that income, and the next completion takes it away again.
 */
module PlanOverdraft {
  import opened Accumulator
  import opened Costs
  import opened PlanModel
  import opened PlanSafety
  import opened PlanStep

  const SITE := Record([0, 0, 0, 0, 0, 0], [-1, -1], [0, 0], 1000, [])
  const STUDY := Record([0, 0, 0, 0, 0, 0], [-1, -1], [0, 0], 50, [])
  const PRICED := Record([0, 0, 0, 0, 10, 0], [-1, -1], [0, 0], 50, [])

  /** The tables of the example, as far as the three actions read them. */
  ghost predicate Example(t: Tables) {
    && t.Ok() && t.gatherRate == 450 && t.peasantRate == 2560
    && t.cityGather == NONE && t.basicGather == NONE && t.marketTaxes == 0 && t.universityLiteracy == 0
    && t.commerceCap[0] == t.commerceCap[1] == 1000 && t.popCap[0] == 100 && t.farmsPerCity == 5
    && t.unitFactor == t.buildFactor == t.techFactor == 1 && t.workerRamp == t.rampPct == 0
    && t.citizen == PRICED && t.buildings[Farm] == SITE && t.techs["Barter"] == STUDY
    && t.capScale == 16 && t.slotsFarm == 1 && t.slotsWood == 5 && t.slotsMine == 4
    && t.buildLinear && t.maxBuilders == 4 && t.walkFrames == 0
    && t.granaryBonus == t.lumbermillBonus == t.smelterBonus == 0 && t.oilRate == 8960
  }

  const TOWN := Econ(0, NONE, NONE, map[Citizen := 1, Mine := 1, City := 1], 0, 0, NONE, 1, 0, 0, 0, 0, {})

  /** The queue of the two earlier actions, and the order a drain puts it in. */
  const QUEUE := [Completion(50, Learn("Barter")), Completion(1000, Release(1)), Completion(1000, Finish(Farm))]
  const PENDING := [Completion(50, Learn("Barter")), Completion(1000, Finish(Farm)), Completion(1000, Release(1))]

  const PLAN := Plan(TOWN, 0, 1000, 50, QUEUE)

  /** The copy, with the builder also at the mine. */
  const COPY := TOWN.(on := [0, 0, 0, 0, 1, 0])

  /** Frame 50, just before the research lands. */
  const AT50 := COPY.(frame := 50, stock := [0, 0, 0, 0, 1, 0], acc := [0, 0, 0, 0, 800, 0])

  /** Frame 450, after it landed and emptied the mine. */
  const AT450 := AT50.(frame := 450, on := NONE, com := 1, techs := {"Barter"})

  lemma MineIncome(t: Tables)
    requires Example(t)
    ensures Income(t, COPY, METAL) == 160
    ensures forall r | 0 <= r < 6 && r != METAL :: Income(t, COPY, r) == 0
  {
    hide Tables.Ok;
  }

  lemma NoIncome(t: Tables, s: Econ)
    requires Example(t) && s == AT50.(on := NONE, com := 1, techs := {"Barter"})
    ensures forall r | 0 <= r < 6 :: Income(t, s, r) == 0
  {
    hide Tables.Ok;
  }

  /** One citizen, one mine of four slots. */
  lemma Holdings(t: Tables, s: Econ)
    requires t.slotsMine == 4 && s.own == TOWN.own
    ensures Slots(t, s) == [0, 0, 0, 0, 4, 0] && Owned(s, Citizen) == 1
  {
  }

  lemma CopyIs(t: Tables)
    requires Example(t)
    ensures Clone(t, TOWN) == COPY
  {
    hide Tables.Ok, Slots, Owned;
    Holdings(t, TOWN);
  }

  /** With the one citizen on a site, the mine is left. */
  lemma CrewLeavesMine(t: Tables, s: Econ)
    requires Example(t) && s.own == TOWN.own && s.builders == 1 && s.on == [0, 0, 0, 0, 1, 0]
    ensures Reseat(t, s) == s.(on := NONE)
  {
    hide Tables.Ok, Slots, Owned;
    Holdings(t, s);
    assert Clip(s.on, Slots(t, s)) == s.on;
    assert Trim(s.on, 1) == NONE;
    assert Fill(Slots(t, s), NONE, 0) == NONE;
  }

  lemma SortedQueue()
    ensures Sort(QUEUE) == PENDING && Sort(PENDING) == PENDING
  {
    var a, b, c := QUEUE[0], QUEUE[1], QUEUE[2];
    SortTwo(a, b);
    SortTwo(c, b);
    SortTwo(a, c);
    assert QUEUE[..2] == [a, b] && PENDING[..2] == [a, c];
    assert Insert(c, [b]) == [c, b];
    assert [a, b][1..] == [b] && Insert(c, [a, b]) == [a] + Insert(c, [b]);
    assert [c][1..] == [] && Insert(b, [c]) == [c] + Insert(b, []);
    assert [a, c][1..] == [c] && Insert(b, [a, c]) == [a] + Insert(b, [c]);
  }

  lemma SortTwo(a: Completion, b: Completion)
    requires !Before(b, a)
    ensures Sort([a, b]) == [a, b]
  {
    assert [a, b][..1] == [a] && [a][..0] == [];
    assert Sort([a]) == Insert(a, []) == [a];
    assert [a][1..] == [] && Insert(b, [a]) == [a] + Insert(b, []);
  }

  lemma ReachFifty(t: Tables)
    requires Example(t)
    ensures ElapseTo(t, COPY, 50) == AT50
  {
    hide Income;
    MineIncome(t);
    var s := ElapseTo(t, COPY, 50);
    assert s.stock == AT50.stock;
    assert s.acc == AT50.acc;
  }

  lemma ResearchEmptiesMine(t: Tables)
    requires Example(t)
    ensures Land(t, AT50, Learn("Barter")) == AT50.(on := NONE, com := 1, techs := {"Barter"})
  {
    hide Tables.Ok, Slots, Owned, Reseat;
    var s := Settle(t, AT50, Learn("Barter"));
    assert s.techs == {"Barter"} && s.com == 1;
    CrewLeavesMine(t, s);
  }

  lemma Waiting(t: Tables)
    requires Example(t)
    ensures DrainSorted(t, COPY, PENDING, 450) == (AT450, PENDING[1..])
  {
    hide Income, Land, Tables.Ok;
    ReachFifty(t);
    ResearchEmptiesMine(t);
    var s := Land(t, AT50, Learn("Barter"));
    NoIncome(t, s);
    var s' := ElapseTo(t, s, 450);
    forall r | 0 <= r < 6 ensures s'.stock[r] == AT450.stock[r] && s'.acc[r] == AT450.acc[r] {
      assert Income(t, s, r) == 0;
    }
    assert s'.stock == AT450.stock && s'.acc == AT450.acc;
    assert s' == AT450;
    assert DrainSorted(t, s, PENDING[1..], 450) == (AT450, PENDING[1..]);
  }

  lemma Price(t: Tables, p: Plan)
    requires Example(t) && p.s.own == TOWN.own && p.s.mil == 0
    requires Queued(p.pending, Citizen) == 0
    ensures ActionSpec(t, p, Train(Nowhere)) == Some(Quote(Trainer, [0, 0, 0, 0, 10, 0], 50, 0))
  {
    assert Scaled(PRICED.cost, 1) == [0, 0, 0, 0, 10, 0];
  }

  lemma FirstWaitIs(t: Tables)
    requires Example(t)
    ensures WaitFor(t, COPY, [0, 0, 0, 0, 10, 0]) == Some(450)
  {
    hide Income, Tables.Ok;
    var cost := [0, 0, 0, 0, 10, 0];
    MineIncome(t);
    assert LongestWait(t, COPY, cost, 4) == Some(0) by { LongestWaitShort(t, COPY, cost, 4); }
    assert FramesFor(7200, 160, 10, 0) == 450;
    assert LongestWait(t, COPY, cost, 5) == Some(450);
    assert LongestWait(t, COPY, cost, 6) == Some(450);
  }

  lemma SecondWaitIs(t: Tables)
    requires Example(t)
    ensures WaitFor(t, AT450, [0, 0, 0, 0, 10, 0]).None?
  {
    hide Tables.Ok;
    var cost := [0, 0, 0, 0, 10, 0];
    assert Income(t, AT450, METAL) == 0;
    assert LongestWait(t, AT450, cost, 4) == Some(0) by { LongestWaitShort(t, AT450, cost, 4); }
    assert LongestWait(t, AT450, cost, 5).None?;
    assert LongestWait(t, AT450, cost, 6).None?;
  }

  const QUOTE := Quote(Trainer, [0, 0, 0, 0, 10, 0], 50, 0)

  lemma PricedIs(t: Tables)
    requires Example(t)
    ensures Priced(t, PLAN, Train(Nowhere)) == Some((PLAN.(s := COPY), QUOTE))
    ensures AtServer(t, PLAN.(s := COPY), QUOTE) == PLAN.(s := COPY, pending := PENDING)
  {
    hide Income, Land, DrainSorted, Sort, ActionSpec, Clone, Tables.Ok;
    CopyIs(t);
    SortedQueue();
    NothingDue(t);
    assert QUEUE[1..][1..] == [QUEUE[2]] && Queued([QUEUE[2]], Citizen) == 0;
    assert Queued(QUEUE[1..], Citizen) == 0 && Queued(QUEUE, Citizen) == 0;
    Price(t, PLAN.(s := COPY));
  }

  lemma WaitIs(t: Tables)
    requires Example(t)
    ensures var q1 := PLAN.(s := AT450, pending := PENDING[1..]);
            Wait(t, PLAN.(s := COPY, pending := PENDING), QUOTE, Train(Nowhere)) == Recheck(q1, QUOTE)
            && SecondWait(t, q1, QUOTE) == q1
  {
    hide Income, Land, DrainSorted, Sort, ActionSpec, WaitFor, Tables.Ok;
    SortedQueue();
    FirstWaitIs(t);
    Waiting(t);
    assert PENDING[1..][1..] == [PENDING[2]] && Queued([PENDING[2]], Citizen) == 0;
    Price(t, PLAN.(s := AT450, pending := PENDING[1..]));
    SecondWaitIs(t);
  }

  lemma PlanFine(t: Tables)
    requires Example(t)
    ensures PlanOk(t, PLAN) && Normal(t, PLAN.s)
  {
    SlotsNonNegative(t, TOWN);
  }

  /** `step` pays ten metal with one in stock. */
  lemma Overdraws(t: Tables)
    requires Example(t)
    ensures PlanOk(t, PLAN) && Normal(t, PLAN.s)
    ensures GivesUp(t, PLAN, Train(Nowhere))
    ensures var p := Step(t, PLAN, Train(Nowhere), 40500);
            p.Some? && p.value.s.stock[METAL] == -9
  {
    hide Tables.Ok, PlanOk, Normal, Priced, AtServer, Wait, SecondWait, WaitFor;
    PlanFine(t);
    PricedIs(t);
    WaitIs(t);
    SecondWaitIs(t);
    assert AtPayment(t, PLAN, Train(Nowhere), 40500)
        == Some((PLAN.(s := AT450, pending := PENDING[1..]), QUOTE));
  }

  lemma NothingDue(t: Tables)
    requires Example(t)
    ensures DrainSorted(t, COPY, PENDING, 0) == (COPY, PENDING)
  {
  }

  // ---- the plan is reached by two actions ----

  /** The citizen works the mine and nothing is queued. */
  const FRESH := Plan(TOWN.(on := [0, 0, 0, 0, 1, 0], builders := 0), 0, 0, 0, [])
  const STUDYING := FRESH.(libraryFree := 50, pending := [Completion(50, Learn("Barter"))])

  /** A free action on a free server happens at once. */
  lemma FreeAction(t: Tables, p: Plan, act: Act, spec: Quote)
    requires Example(t) && Known(act) && ClonePlan(t, p) == p && ActionSpec(t, p, act) == Some(spec)
    requires p.s.frame == 0 && FreeAt(p, spec.server) == 0 && spec.cost == NONE && p.s.stock == NONE
    requires Sort(p.pending) == p.pending && (p.pending == [] || p.pending[0].frame > 0)
    ensures Step(t, p, act, 40500) == Some(Enqueue(t, p, spec, act))
  {
    hide ActionSpec, Tables.Ok, Clone, Enqueue, Income;
    assert AtServer(t, p, spec) == p;
    LongestWaitShort(t, p.s, NONE, 6);
  }

  lemma StudyQuote(t: Tables)
    requires Example(t)
    ensures ActionSpec(t, FRESH, Act.Research("Barter")) == Some(Quote(Server.Research, NONE, 50, 0))
  {
    hide Tables.Ok;
    assert Scaled(STUDY.cost, 1) == NONE;
  }

  lemma FirstAction(t: Tables)
    requires Example(t)
    ensures Step(t, FRESH, Act.Research("Barter"), 40500) == Some(STUDYING)
  {
    hide Tables.Ok, ActionSpec, Slots, Owned, Step;
    var spec := Quote(Server.Research, NONE, 50, 0);
    StudyQuote(t);
    Holdings(t, FRESH.s);
    assert ClonePlan(t, FRESH) == FRESH;
    FreeAction(t, FRESH, Act.Research("Barter"), spec);
    assert Pay(FRESH.s, NONE).stock == NONE;
    assert Enqueue(t, FRESH, spec, Act.Research("Barter")).pending == STUDYING.pending;
  }

  lemma QueuedOne(c: Completion, k: Kind)
    ensures Queued([c], k) == if Counts(c.effect, k) then 1 else 0
  {
    assert [c][1..] == [];
  }

  lemma SiteQueued()
    ensures Queued(STUDYING.pending, Farm) == 0 && Queued(STUDYING.pending, City) == 0
  {
    hide Queued;
    QueuedOne(Completion(50, Learn("Barter")), Farm);
    QueuedOne(Completion(50, Learn("Barter")), City);
  }

  lemma SiteFarms()
    ensures Holds(STUDYING, Farm) == 0
  {
    hide Queued;
    SiteQueued();
  }

  lemma SiteCities()
    ensures Holds(STUDYING, City) == 1
  {
    hide Queued;
    SiteQueued();
  }

  lemma SiteCost()
    ensures SITE.Ok() && CostOf(SITE, 0, 1, 0) == NONE
  {
    assert Scaled(SITE.cost, 1) == NONE;
  }

  lemma SiteQuote(t: Tables)
    requires Example(t)
    ensures ActionSpec(t, STUDYING, Build(Farm)) == Some(Quote(Crew, NONE, 1000, 1))
  {
    hide Tables.Ok, Holds, CostOf, Owned;
    SiteFarms();
    SiteCities();
    SiteCost();
    Holdings(t, STUDYING.s);
    assert CrewSize(t, STUDYING) == 1;
    assert BuildAllowed(t, STUDYING, Farm);
  }

  lemma SecondAction(t: Tables)
    requires Example(t)
    ensures Step(t, STUDYING, Build(Farm), 40500) == Some(PLAN)
  {
    hide Tables.Ok, ActionSpec, Enqueue, Slots, Owned, Step;
    SiteQuote(t);
    Holdings(t, STUDYING.s);
    assert ClonePlan(t, STUDYING) == STUDYING;
    assert Sort(STUDYING.pending) == STUDYING.pending by {
      assert STUDYING.pending[..0] == [];
      assert Sort([]) == [] && Insert(STUDYING.pending[0], []) == STUDYING.pending;
    }
    FreeAction(t, STUDYING, Build(Farm), Quote(Crew, NONE, 1000, 1));
    EnqueueSite(t);
  }

  lemma EnqueueSite(t: Tables)
    requires Example(t)
    ensures Enqueue(t, STUDYING, Quote(Crew, NONE, 1000, 1), Build(Farm)) == PLAN
  {
    hide Tables.Ok, Reseat;
    var s := Pay(STUDYING.s, NONE);
    assert s.stock == NONE;
    CrewLeavesMine(t, s.(builders := 1));
    assert Reseat(t, s.(builders := 1)) == TOWN;
    assert Enqueue(t, STUDYING, Quote(Crew, NONE, 1000, 1), Build(Farm)).pending == QUEUE;
  }

  lemma FreshFine(t: Tables)
    requires Example(t)
    ensures PlanOk(t, FRESH)
  {
    hide Tables.Ok;
  }

  /** Three actions of an ordinary plan: study, build, train; the third overdraws. */
  lemma OverdrawsFromFresh(t: Tables)
    requires Example(t)
    ensures PlanOk(t, FRESH)
    ensures Step(t, FRESH, Act.Research("Barter"), 40500) == Some(STUDYING)
    ensures Step(t, STUDYING, Build(Farm), 40500) == Some(PLAN)
    ensures var p := Step(t, PLAN, Train(Nowhere), 40500);
            p.Some? && p.value.s.stock[METAL] == -9
  {
    hide Step, Tables.Ok;
    FreshFine(t);
    Overdraws(t);
    FirstAction(t);
    SecondAction(t);
  }

  const EIGHT := [1000, 1000, 1000, 1000, 1000, 1000, 1000, 1000]
  const HUNDRED := [100, 100, 100, 100, 100, 100, 100, 100]

  const TABLES := Tables(
    450, 2560, 8960, NONE, NONE, EIGHT, HUNDRED, 5,
    0, 0, 0, 0, 0, 1, 1, 1, 0,
    PRICED,
    map[Farm := SITE, Wood := SITE, Mine := SITE, Market := SITE, University := SITE, Granary := SITE, City := SITE],
    map["Classical Age" := STUDY, "Medieval Age" := STUDY, "Written Word" := STUDY, "Mathematics" := STUDY,
        "City State" := STUDY, "Empire" := STUDY, "Barter" := STUDY, "Coinage" := STUDY, "The Art of War" := STUDY],
    16, 1, 5, 4, true, 4, 0, 0)

  lemma ExampleExists()
    ensures Example(TABLES)
  {
    hide Tables.Ok;
    TablesFine();
  }

  lemma TablesFine()
    ensures TABLES.Ok()
  {
    hide TechColumn;
    assert SITE.Ok() && STUDY.Ok() && PRICED.Ok();
    StudyTable();
  }

  lemma StudyTable()
    ensures forall n | TechColumn(n).Some? :: n in TABLES.techs
    ensures forall n | n in TABLES.techs :: TABLES.techs[n] == STUDY
  {
  }
}
