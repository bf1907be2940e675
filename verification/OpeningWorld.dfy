/**
 The opening economy as a frame machine: what a state is, what it earns, and what one
 frame does to it. `Steps` is the simple machine that gathers for one frame, then lands
 every job that is due; the scheduler's event-driven code is proved against it.
 */
module OpeningWorld {
  import opened Arith
  import opened Accumulator
  import opened Costs
  import opened OpeningRules

  /** A queued item and the frame it completes. */
  datatype Job = Job(done: int, item: Item)

  datatype Entry = Entry(start: int, done: int, item: Item)

  datatype World = World(
    frame: int,
    stock: Vec,
    leftover: Vec,
    own: map<Item, int>,      // owned + queued, by name
    lumbermills: int,
    on: Vec,                  // citizens by gathered resource
    epoch: Levels,
    age: int,
    techs: set<string>,       // researched + queued
    tFree: int, bFree: int, lFree: int,
    builders: int,
    pend: seq<Job>,
    log: seq<Entry>)

  function FreeAt(w: World, s: Server): int {
    match s
    case Trainer => w.tFree
    case Crew => w.bFree
    case Research => w.lFree
  }

  // ---- capacities ----

  function Owned(w: World, item: Item): int {
    if item in w.own then w.own[item] else 0
  }

  function CountJobs(pend: seq<Job>, item: Item): nat {
    if pend == [] then 0
    else (if pend[0].item == item then 1 else 0) + CountJobs(pend[1..], item)
  }

  function Built(w: World, item: Item): int {
    Owned(w, item) - CountJobs(w.pend, item)
  }

  function Slots(g: Rules, w: World): Vec {
    [Built(w, Farm) * g.a.slotsFarm, Built(w, WoodcutterCamp) * g.a.slotsWood, 0,
     Built(w, University), Built(w, Mine) * g.a.slotsMine, 0]
  }

  function PopCap(g: Rules, w: World): int
    requires |g.popCap| == 8
  {
    g.popCap[Min(w.epoch[MILITARY], 7)]
  }

  function CityLimit(w: World): int { w.epoch[CIVIC] + 1 }

  function Cap16(g: Rules, w: World, r: int): int
    requires |g.commerceCap| == 8
  {
    if r == KNOWLEDGE then KNOWLEDGE_CAP_RAW * 16
    else g.commerceCap[Min(w.epoch[COMMERCE], 7)] * 16
  }

  /** Income that costs no worker. */
  function FreeIncome16(g: Rules, w: World, r: int): int
    requires 0 <= r < 6 && g.a.government < |g.territoryTaxes|
  {
    g.basicGather[r] * 16 + g.cityGather[r] * 16 * Built(w, SmallCity)
    + (if r == WEALTH then
         g.marketTaxes * 16 * Built(w, Market)
         + (if g.a.government != 0 then g.a.territory * g.territoryTaxes[g.a.government] * 16 / 100 else 0)
       else 0)
    + (if r == KNOWLEDGE then g.universityLiteracy * 16 * Built(w, University) else 0)
  }

  /** How many workers on `r` still produce something under the commerce cap. */
  function UsefulSlots(g: Rules, w: World, r: int): int
    requires g.Ok() && 0 <= r < 6
  {
    var base, cap := FreeIncome16(g, w, r), Cap16(g, w, r);
    if base >= cap then 0 else (cap - base + g.Slot16() - 1) / g.Slot16()
  }

  // ---- seating ----

  const USEFUL_ORDER := [FOOD, TIMBER, KNOWLEDGE, METAL]
  const ROOM_ORDER := [FOOD, TIMBER, METAL]

  /** The first `n` resources of the greedy pass: as many as fit, exist and still earn.
      The second component is who is left over. */
  function UsefulPass(sl: Vec, useful: Vec, free: int, n: nat): (Vec, int)
    requires n <= 4
  {
    if n == 0 then (NONE, free)
    else
      var (on, left) := UsefulPass(sl, useful, free, n - 1);
      var r := USEFUL_ORDER[n - 1];
      var take := Max(0, Min(sl[r], Min(left, useful[r])));
      (on[r := take], left - take)
  }

  /** The idle then stand wherever food, timber or metal has room. */
  function RoomPass(sl: Vec, seated: (Vec, int), n: nat): (Vec, int)
    requires n <= 3
  {
    if n == 0 then seated
    else
      var (on, left) := RoomPass(sl, seated, n - 1);
      var r := ROOM_ORDER[n - 1];
      var take := Min(sl[r] - on[r], left);
      (on[r := on[r] + take], left - take)
  }

  function UsefulVec(g: Rules, w: World): Vec
    requires g.Ok()
  {
    seq(6, r requires 0 <= r < 6 => UsefulSlots(g, w, r))
  }

  /** The seating `reseat` computes; it never looks at the present seating. */
  function Seat(g: Rules, w: World): Vec
    requires g.Ok()
  {
    var sl := Slots(g, w);
    RoomPass(sl, UsefulPass(sl, UsefulVec(g, w), Built(w, Citizen) - w.builders, 4), 3).0
  }

  function Reseat(g: Rules, w: World): World
    requires g.Ok()
  {
    w.(on := Seat(g, w))
  }

  /** Copying a state goes through the constructor, which fills unset counters and
      seats a state whose seating sums to zero. */
  function Clone(g: Rules, w: World): World
    requires g.Ok()
  {
    var own0 := if Owned(w, Citizen) < 0 then w.own[Citizen := g.a.startCitizens] else w.own;
    var own1 := if Owned(w, Farm) < 0 then own0[Farm := g.a.startFarms] else own0;
    var own2 := if Owned(w, WoodcutterCamp) < 0 then own1[WoodcutterCamp := g.a.startWoodcamps] else own1;
    var w1 := w.(own := own2);
    if Sum(w1.on) == 0 then Reseat(g, w1) else w1
  }

  /** The field defaults of a new state: -1 asks the constructor for the start counts. */
  function Blank(g: Rules): World {
    World(0, g.startingGoods, NONE,
          map[Citizen := -1, Farm := -1, WoodcutterCamp := -1, Library := 1, SmallCity := 1],
          0, NONE, [0, 0, 0, 0], 0, {}, 0, 0, 0, 0, [], [])
  }

  /** The state `W(a)` builds. */
  function Start(g: Rules): World
    requires g.Ok()
  {
    Clone(g, Blank(g))
  }

  // ---- income ----

  function Bonus(g: Rules, w: World, r: int): int {
    if r == FOOD && Owned(w, Granary) != 0 then g.granaryBonus
    else if r == TIMBER && w.lumbermills != 0 then g.lumbermillBonus
    else 0
  }

  /** Income on `r` in sixteenths per gather period, after both clamps. */
  function IncomeOn(g: Rules, w: World, r: int): int
    requires g.Ok() && 0 <= r < 6
  {
    var rate := if r == OIL then g.oilRate else g.peasantRate;
    var v := 16 * w.on[r] * rate / 256;
    var v1 := v * (100 + Bonus(g, w, r)) / 100;
    var out := Max(v1, 0) + FreeIncome16(g, w, r);
    Min(Min(out, Cap16(g, w, r)), GLOBAL_CEILING)
  }

  function Income(g: Rules, w: World): Vec
    requires g.Ok()
  {
    seq(6, r requires 0 <= r < 6 => IncomeOn(g, w, r))
  }

  // ---- time ----

  /** Gather for `n` frames at the present income, landing nothing. */
  function Tick(g: Rules, w: World, n: int): World
    requires g.Ok()
  {
    w.(frame := w.frame + n,
       stock := seq(6, r requires 0 <= r < 6 =>
         Accrue(g.Period(), IncomeOn(g, w, r), n, w.stock[r], w.leftover[r]).0),
       leftover := seq(6, r requires 0 <= r < 6 =>
         Accrue(g.Period(), IncomeOn(g, w, r), n, w.stock[r], w.leftover[r]).1))
  }

  function Due(pend: seq<Job>, frame: int): seq<Job> {
    if pend == [] then []
    else (if pend[0].done <= frame then [pend[0]] else []) + Due(pend[1..], frame)
  }

  function Later(pend: seq<Job>, frame: int): seq<Job> {
    if pend == [] then []
    else (if pend[0].done > frame then [pend[0]] else []) + Later(pend[1..], frame)
  }

  /** Ages gained by a batch of landed jobs. */
  function Ages(g: Rules, landed: seq<Job>): nat {
    if landed == [] then 0
    else
      var it := landed[0].item;
      var row := if it.Tech? then FindTech(g.techs, it.name) else None;
      (if row.Some? && row.value.isAge then 1 else 0) + Ages(g, landed[1..])
  }

  /** Library levels after a batch of landed jobs. */
  function Raise(g: Rules, epoch: Levels, landed: seq<Job>): Levels
    requires g.Ok()
    decreases |landed|
  {
    if landed == [] then epoch
    else
      var it := landed[0].item;
      var row := if it.Tech? then FindTech(g.techs, it.name) else None;
      var e1 := if row.Some? && !row.value.isAge
                then epoch[row.value.cat := epoch[row.value.cat] + 1] else epoch;
      Raise(g, e1, landed[1..])
  }

  /** Nothing is waiting to land: every job is in the future and so is the crew's release. */
  predicate Settled(w: World) {
    && (forall j | j in w.pend :: j.done > w.frame)
    && !(w.builders != 0 && w.bFree <= w.frame)
  }

  /** Land every due job, release a finished crew, and seat again if either happened. */
  function Flush(g: Rules, w: World): World
    requires g.Ok()
  {
    if Settled(w) then w
    else
      var landed := Due(w.pend, w.frame);
      Reseat(g, w.(age := w.age + Ages(g, landed),
                   epoch := Raise(g, w.epoch, landed),
                   pend := Later(w.pend, w.frame),
                   builders := if w.builders != 0 && w.bFree <= w.frame then 0 else w.builders))
  }

  /** One frame of the simple machine. */
  function Step(g: Rules, w: World): World
    requires g.Ok()
  {
    Flush(g, Tick(g, w, 1))
  }

  function Steps(g: Rules, w: World, n: nat): World
    requires g.Ok()
    decreases n
  {
    if n == 0 then w else Steps(g, Step(g, w), n - 1)
  }

  /** What `advance` promises: land what is due, then run frame by frame. */
  function Advance(g: Rules, w: World, frames: int): World
    requires g.Ok()
  {
    Steps(g, Flush(g, w), Max(0, frames))
  }

  predicate Covers(w: World, cost: Vec) {
    forall r | 0 <= r < 6 :: w.stock[r] >= cost[r]
  }

  // ---- purchases ----

  function ActionCost(g: Rules, w: World, item: Item): Vec
    requires g.Ok() && Known(g, item)
  {
    match item
    case Citizen => CostOf(g.citizen, Owned(w, Citizen), g.unitFactor, g.workerRamp)
    case Tech(name) => CostOf(FindTech(g.techs, name).value.rec, 0, g.techFactor, 0)
    case _ => CostOf(g.buildings[item], Owned(w, item), g.buildFactor, g.a.buildingRampPct)
  }

  function ActionTime(g: Rules, w: World, item: Item): (t: int)
    requires g.Ok() && Known(g, item)
    ensures t >= 0
  {
    match item
    case Citizen => g.citizen.jobTime
    case Tech(name) => FindTech(g.techs, name).value.rec.jobTime
    case _ =>
      var k := Min(g.a.maxBuilders, Max(1, Owned(w, Citizen) - w.builders));
      var jt := g.buildings[item].jobTime;
      DivMonotone(0, jt, k);
      (if g.a.buildLinear then jt / k else jt) + g.a.walkFrames
  }

  function Preqs(g: Rules, item: Item): set<string>
    requires g.Ok() && Known(g, item)
  {
    match item
    case Citizen => PreqNames(g.techs, g.citizen.preq)
    case Tech(name) => PreqNames(g.techs, FindTech(g.techs, name).value.rec.preq)
    case _ => PreqNames(g.techs, g.buildings[item].preq)
  }

  /** Items whose prerequisites `legal` tests at all. */
  predicate ChecksPreqs(item: Item) {
    item != Citizen && item != Farm && item != SmallCity
  }

  predicate Legal(g: Rules, w: World, item: Item)
    requires g.Ok()
  {
    match item
    case Citizen => Owned(w, Citizen) < PopCap(g, w)
    case SmallCity => Owned(w, SmallCity) < CityLimit(w)
    case Farm => Owned(w, Farm) < g.farmsPerCity * Owned(w, SmallCity)
    case Tech(name) => Known(g, item) && name !in w.techs && Preqs(g, item) <= w.techs
    case _ => forall n | n in Preqs(g, item) :: n in w.techs && CountJobs(w.pend, Tech(n)) == 0
  }

  /** The least count up to `limit`, from `n` on, that makes the cost affordable. */
  function WaitFrom(g: Rules, w: World, cost: Vec, n: nat, limit: int): (r: Option<nat>)
    requires g.Ok()
    ensures r.Some? ==> n <= r.value <= limit && Covers(Advance(g, w, r.value), cost)
    ensures r.Some? ==> forall m: nat | n <= m < r.value :: !Covers(Advance(g, w, m), cost)
    ensures r.None? ==> forall m: nat | n <= m <= limit :: !Covers(Advance(g, w, m), cost)
    decreases limit - n
  {
    if n > limit then None
    else if Covers(Advance(g, w, n), cost) then Some(n)
    else WaitFrom(g, w, cost, n + 1, limit)
  }

  const WAIT_LIMIT := 60000

  /** The server works on `item` until `done`; a building also takes a crew off the fields. */
  function Occupy(g: Rules, w: World, item: Item, done: int): World {
    match ServerOf(item)
    case Trainer => w.(tFree := done)
    case Crew => w.(bFree := done, builders := Min(g.a.maxBuilders, Max(0, Built(w, Citizen) - 1)))
    case Research => w.(lFree := done)
  }

  /** A purchase counts at once and works from `done` on. */
  function Queue(g: Rules, w: World, item: Item, done: int): World
    requires g.Ok()
  {
    var w1 := if item.Tech? then w.(techs := w.techs + {item.name})
              else w.(own := w.own[item := Owned(w, item) + 1]);
    Reseat(g, w1.(pend := w1.pend + [Job(done, item)]))
  }

  /** Pay, occupy the server and queue the job. */
  function Place(g: Rules, w: World, item: Item, cost: Vec, dur: int): World
    requires g.Ok()
  {
    var done := w.frame + dur;
    var paid := w.(stock := seq(6, r requires 0 <= r < 6 => w.stock[r] - cost[r]));
    var busy := Occupy(g, paid, item, done);
    Queue(g, busy.(log := busy.log + [Entry(busy.frame, done, item)]), item, done)
  }

  /** The state in which the purchase waits for money: its server is free. */
  function AtServer(g: Rules, w: World, item: Item): World
    requires g.Ok()
  {
    var s := Clone(g, w);
    Advance(g, s, Max(s.frame, FreeAt(s, ServerOf(item))) - s.frame)
  }

  /** A purchase: the first affordable state from the free server on, paid for at the price seen there. */
  function Apply(g: Rules, w: World, item: Item): Option<World>
    requires g.Ok() && Known(g, item)
  {
    var s := AtServer(g, w, item);
    var cost := ActionCost(g, s, item);
    match WaitFrom(g, s, cost, 0, WAIT_LIMIT)
    case None => None
    case Some(n) => Some(Place(g, Advance(g, s, n), item, cost, ActionTime(g, w, item)))
  }

  // ---- objective ----

  function LastDone(pend: seq<Job>, from: int): int {
    if pend == [] then from else LastDone(pend[1..], Max(from, pend[0].done))
  }

  /** When the last thing queued completes. */
  function Horizon(w: World): int {
    LastDone(w.pend, Max(Max(w.frame, w.tFree), Max(w.bFree, w.lFree)))
  }

  function Settle(g: Rules, w: World): World
    requires g.Ok()
  {
    var t := Clone(g, w);
    Advance(g, t, Horizon(t) - t.frame)
  }
}
