/**
 The earlier planner: an economy at a fixed income between completions, and a plan that
 prices an action, waits, drains completions, prices again and pays.
 */
module PlanModel {
  import opened Arith
  import opened Accumulator
  import opened Costs

  datatype Kind = Citizen | Farm | Wood | Mine | Market | University | Granary | City

  /** Where a new citizen is sent; `Nowhere` is any other word. */
  datatype Post = ToBuilder | ToFood | Nowhere | ToMetal | ToTimber

  datatype Act = Train(post: Post) | Build(kind: Kind) | Research(name: string)

  datatype Effect = Arrive(post: Post) | Finish(kind: Kind) | Release(n: int) | Learn(name: string)

  datatype Completion = Completion(frame: int, effect: Effect)

  datatype Column = AgeColumn | MilColumn | CivColumn | ComColumn | SciColumn

  /** The library column of a tech; other names are not techs of this planner. */
  function TechColumn(name: string): Option<Column> {
    if name == "Classical Age" || name == "Medieval Age" then Some(AgeColumn)
    else if name == "Written Word" || name == "Mathematics" then Some(SciColumn)
    else if name == "City State" || name == "Empire" then Some(CivColumn)
    else if name == "Barter" || name == "Coinage" then Some(ComColumn)
    else if name == "The Art of War" then Some(MilColumn)
    else None
  }

  function TechPreq(name: string): Option<string> {
    if name == "Mathematics" then Some("Written Word")
    else if name == "Empire" then Some("City State")
    else if name == "Coinage" then Some("Barter")
    else None
  }

  /** Rule tables and assumptions of the economy. */
  datatype Tables = Tables(
    gatherRate: int, peasantRate: int, oilRate: int,
    cityGather: Vec, basicGather: Vec, commerceCap: seq<int>, popCap: seq<int>, farmsPerCity: int,
    granaryBonus: int, lumbermillBonus: int, smelterBonus: int,
    marketTaxes: int, universityLiteracy: int,
    unitFactor: int, buildFactor: int, techFactor: int, workerRamp: int,
    citizen: Record, buildings: map<Kind, Record>, techs: map<string, Record>,
    capScale: int, slotsFarm: int, slotsWood: int, slotsMine: int,
    buildLinear: bool, maxBuilders: int, rampPct: int, walkFrames: int)
  {
    function Period(): int { gatherRate * 16 }

    ghost predicate Ok() {
      && gatherRate > 0 && peasantRate >= 0 && oilRate >= 0
      && (forall r | 0 <= r < 6 :: cityGather[r] >= 0 && basicGather[r] >= 0)
      && |commerceCap| == 8 && |popCap| == 8
      && (forall i | 0 <= i < 8 :: commerceCap[i] >= 0)
      && (forall i, j | 0 <= i <= j < 8 :: commerceCap[i] <= commerceCap[j] && popCap[i] <= popCap[j])
      && granaryBonus >= 0 && lumbermillBonus >= 0 && smelterBonus >= 0
      && marketTaxes >= 0 && universityLiteracy >= 0
      && citizen.Ok()
      && (forall k: Kind | k != Citizen :: k in buildings && buildings[k].Ok())
      && (forall n | TechColumn(n).Some? :: n in techs && techs[n].Ok())
      && capScale >= 0 && slotsFarm >= 0 && slotsWood >= 0 && slotsMine >= 0
    }
  }

  datatype Econ = Econ(
    frame: int, stock: Vec, acc: Vec,
    own: map<Kind, nat>, lumbermills: int, smelters: int,
    on: Vec, builders: int,
    mil: nat, civ: nat, com: nat, sci: nat, techs: set<string>)

  datatype Plan = Plan(s: Econ, cityFree: int, crewFree: int, libraryFree: int, pending: seq<Completion>)

  function Owned(s: Econ, k: Kind): nat { if k in s.own then s.own[k] else 0 }

  function Slots(t: Tables, s: Econ): Vec {
    [Owned(s, Farm) * t.slotsFarm, Owned(s, Wood) * t.slotsWood, 0, 0, Owned(s, Mine) * t.slotsMine, 0]
  }

  // ---- seating ----

  /** Put up to `room` citizens on `r`; the second component is the room that remains. */
  function SeatOn(sl: Vec, on: Vec, r: int, room: int): (Vec, int)
    requires 0 <= r < 6
  {
    var take := Max(0, Min(room, sl[r] - on[r]));
    (on[r := on[r] + take], room - take)
  }

  function Fill(sl: Vec, on: Vec, room: int): Vec {
    var (on1, room1) := SeatOn(sl, on, FOOD, room);
    var (on2, room2) := SeatOn(sl, on1, TIMBER, room1);
    SeatOn(sl, on2, METAL, room2).0
  }

  function TakeOff(on: Vec, r: int, excess: int): (Vec, int)
    requires 0 <= r < 6
  {
    var take := Max(0, Min(excess, on[r]));
    (on[r := on[r] - take], excess - take)
  }

  /** Take citizens off metal, then timber, then food until the crew is manned. */
  function Trim(on: Vec, excess: int): Vec {
    var (on1, ex1) := TakeOff(on, METAL, excess);
    var (on2, ex2) := TakeOff(on1, TIMBER, ex1);
    TakeOff(on2, FOOD, ex2).0
  }

  function Clip(on: Vec, sl: Vec): Vec {
    seq(6, r requires 0 <= r < 6 => Min(on[r], sl[r]))
  }

  /** Reconcile the assignment with the slots and the crew. */
  function Reseat(t: Tables, s: Econ): Econ {
    var sl := Slots(t, s);
    var on1 := Clip(s.on, sl);
    var on2 := Trim(on1, Sum(on1) + s.builders - Owned(s, Citizen));
    s.(on := Fill(sl, on2, Owned(s, Citizen) - Sum(on2) - s.builders))
  }

  /** Copying goes through the constructor, which seats everyone it counts as unseated;
      it does not subtract the crew. */
  function Clone(t: Tables, s: Econ): Econ {
    s.(on := Fill(Slots(t, s), s.on, Owned(s, Citizen) - Sum(s.on)))
  }

  // ---- income and time ----

  function Bonus(t: Tables, s: Econ, r: int): int {
    if r == FOOD && Owned(s, Granary) != 0 then t.granaryBonus
    else if r == TIMBER && s.lumbermills != 0 then t.lumbermillBonus
    else if r == METAL && s.smelters != 0 then t.smelterBonus
    else 0
  }

  function Worked(t: Tables, s: Econ, r: int): int
    requires 0 <= r < 6
  {
    var rate := if r == OIL then t.oilRate else t.peasantRate;
    Max(16 * s.on[r] * rate / 256 * (100 + Bonus(t, s, r)) / 100, 0)
  }

  function Gross(t: Tables, s: Econ, r: int): int
    requires 0 <= r < 6
  {
    Worked(t, s, r) + t.cityGather[r] * 16 * Owned(s, City) + t.basicGather[r] * 16
    + (if r == WEALTH then t.marketTaxes * 16 * Owned(s, Market) else 0)
    + (if r == KNOWLEDGE then t.universityLiteracy * 16 * Owned(s, University) else 0)
  }

  function Income(t: Tables, s: Econ, r: int): int
    requires t.Ok() && 0 <= r < 6
  {
    Min(Min(Gross(t, s, r), t.commerceCap[Min(s.com, 7)] * t.capScale), GLOBAL_CEILING)
  }

  /** Run the accumulator at the present income. */
  function Elapse(t: Tables, s: Econ, n: int): Econ
    requires t.Ok()
  {
    if n <= 0 then s
    else s.(frame := s.frame + n,
            stock := seq(6, r requires 0 <= r < 6 =>
              Accrue(t.Period(), Income(t, s, r), n, s.stock[r], s.acc[r]).0),
            acc := seq(6, r requires 0 <= r < 6 =>
              Accrue(t.Period(), Income(t, s, r), n, s.stock[r], s.acc[r]).1))
  }

  predicate Affords(s: Econ, cost: Vec) {
    forall r | 0 <= r < 6 :: s.stock[r] >= cost[r]
  }

  const WAIT_LIMIT := 60 * 60 * 15

  /** Longest wait over the short resources among the first `n`; none when one earns nothing. */
  function LongestWait(t: Tables, s: Econ, cost: Vec, n: nat): (w: Option<nat>)
    requires t.Ok() && n <= 6
  {
    if n == 0 then Some(0)
    else match LongestWait(t, s, cost, n - 1)
      case None => None
      case Some(f) =>
        var r := n - 1;
        if cost[r] <= s.stock[r] then Some(f)
        else if Income(t, s, r) <= 0 then None
        else Some(Max(f, FramesFor(t.Period(), Income(t, s, r), cost[r] - s.stock[r], s.acc[r])))
  }

  /** The longest of the waits, unless one of them is endless or too long. */
  function WaitFor(t: Tables, s: Econ, cost: Vec): Option<nat>
    requires t.Ok()
  {
    match LongestWait(t, s, cost, 6)
    case None => None
    case Some(f) => if f <= WAIT_LIMIT then Some(f) else None
  }

  // ---- completions ----

  function PostResource(p: Post): int {
    match p
    case ToFood => FOOD
    case ToTimber => TIMBER
    case ToMetal => METAL
    case _ => -1
  }

  function Bump(s: Econ, k: Kind): Econ { s.(own := s.own[k := Owned(s, k) + 1]) }

  function RaiseLevel(s: Econ, name: string): Econ {
    match TechColumn(name)
    case Some(MilColumn) => s.(mil := s.mil + 1)
    case Some(CivColumn) => s.(civ := s.civ + 1)
    case Some(ComColumn) => s.(com := s.com + 1)
    case Some(SciColumn) => s.(sci := s.sci + 1)
    case _ => s
  }

  function Settle(t: Tables, s: Econ, e: Effect): Econ {
    match e
    case Arrive(p) =>
      var s1 := Bump(s, Citizen);
      var r := PostResource(p);
      if r >= 0 && Sum(s1.on) + s1.builders < Owned(s1, Citizen) && s1.on[r] < Slots(t, s1)[r]
      then s1.(on := s1.on[r := s1.on[r] + 1])
      else if p == ToBuilder then s1.(builders := s1.builders + 1)
      else s1
    case Finish(k) => Bump(s, k)
    case Release(n) => s.(builders := s.builders - n)
    case Learn(name) => RaiseLevel(s.(techs := s.techs + {name}), name)
  }

  /** What one completion does: its effect, then everyone is seated again. */
  function Land(t: Tables, s: Econ, e: Effect): Econ { Reseat(t, Settle(t, s, e)) }

  function ElapseTo(t: Tables, s: Econ, f: int): Econ
    requires t.Ok()
  {
    Elapse(t, s, f - s.frame)
  }

  /** Land what is due from the front of a sorted queue, each at its frame, then run on to `until`. */
  function DrainSorted(t: Tables, s: Econ, pending: seq<Completion>, until: int): (Econ, seq<Completion>)
    requires t.Ok()
    decreases |pending|
  {
    if pending == [] || pending[0].frame > until then (ElapseTo(t, s, until), pending)
    else DrainSorted(t, Land(t, ElapseTo(t, s, pending[0].frame), pending[0].effect), pending[1..], until)
  }

  function Rank(e: Effect): nat {
    match e
    case Arrive(_) => 0
    case Finish(Citizen) => 0
    case Finish(City) => 1
    case Finish(Farm) => 2
    case Finish(Granary) => 3
    case Finish(Market) => 4
    case Finish(Mine) => 5
    case Release(_) => 6
    case Learn(_) => 7
    case Finish(University) => 8
    case Finish(Wood) => 9
  }

  function PostRank(p: Post): nat {
    match p
    case ToBuilder => 0 case ToFood => 1 case Nowhere => 2 case ToMetal => 3 case ToTimber => 4
  }

  predicate TextLess(a: string, b: string) {
    if b == "" then false
    else if a == "" then true
    else if a[0] != b[0] then a[0] < b[0]
    else TextLess(a[1..], b[1..])
  }

  predicate EffectLess(a: Effect, b: Effect) {
    if Rank(a) != Rank(b) then Rank(a) < Rank(b)
    else match (a, b)
      case (Arrive(p), Arrive(q)) => PostRank(p) < PostRank(q)
      case (Release(m), Release(n)) => m < n
      case (Learn(m), Learn(n)) => TextLess(m, n)
      case _ => false
  }

  /** Tuple order: frame, then kind by name, then argument. */
  predicate Before(a: Completion, b: Completion) {
    a.frame < b.frame || (a.frame == b.frame && EffectLess(a.effect, b.effect))
  }

  function Insert(c: Completion, sorted: seq<Completion>): seq<Completion> {
    if sorted == [] || Before(c, sorted[0]) then [c] + sorted
    else [sorted[0]] + Insert(c, sorted[1..])
  }

  function Sort(cs: seq<Completion>): seq<Completion> {
    if cs == [] then [] else Insert(cs[|cs| - 1], Sort(cs[..|cs| - 1]))
  }

  function Drain(t: Tables, p: Plan, until: int): Plan
    requires t.Ok()
  {
    var (s, rest) := DrainSorted(t, p.s, Sort(p.pending), until);
    p.(s := s, pending := rest)
  }

  // ---- actions ----

  predicate Counts(e: Effect, k: Kind) {
    e == Finish(k) || (k == Citizen && e.Arrive?)
  }

  /** Paid for but not finished. */
  function Queued(pending: seq<Completion>, k: Kind): nat {
    if pending == [] then 0
    else (if Counts(pending[0].effect, k) then 1 else 0) + Queued(pending[1..], k)
  }

  function Holds(p: Plan, k: Kind): nat { Owned(p.s, k) + Queued(p.pending, k) }

  predicate Known(act: Act) {
    match act
    case Research(name) => TechColumn(name).Some?
    case Build(k) => k != Citizen
    case Train(_) => true
  }

  datatype Quote = Quote(server: Server, cost: Vec, dur: int, crew: int)

  predicate BuildAllowed(t: Tables, p: Plan, k: Kind) {
    var have, ncity := Holds(p, k), Holds(p, City);
    && (k == Farm ==> have < t.farmsPerCity * ncity)
    && (k == City ==> have < p.s.civ + 1)
    && (k in {Market, University, Granary} ==> have < ncity)
    && (k in {Mine, University} ==> "Classical Age" in p.s.techs)
    && (k == Market ==> "Barter" in p.s.techs)
    && (k == Granary ==> "Mathematics" in p.s.techs && "Classical Age" in p.s.techs)
  }

  function CrewSize(t: Tables, p: Plan): (n: int)
    ensures n >= 1
  {
    Max(1, Min(t.maxBuilders, Owned(p.s, Citizen) - 1))
  }

  /** Price and legality of an action right now. */
  function ActionSpec(t: Tables, p: Plan, act: Act): Option<Quote>
    requires t.Ok() && Known(act)
  {
    match act
    case Train(_) =>
      var n := Holds(p, Citizen);
      if n >= t.popCap[Min(p.s.mil, 7)] then None
      else Some(Quote(Trainer, CostOf(t.citizen, n, t.unitFactor, t.workerRamp), t.citizen.jobTime, 0))
    case Build(k) =>
      if !BuildAllowed(t, p, k) then None
      else
        var nb, jt := CrewSize(t, p), t.buildings[k].jobTime;
        Some(Quote(Crew, CostOf(t.buildings[k], Holds(p, k), t.buildFactor, t.rampPct),
                   (if t.buildLinear then jt / nb else jt) + t.walkFrames, nb))
    case Research(name) =>
      if name in p.s.techs || (TechPreq(name).Some? && TechPreq(name).value !in p.s.techs) then None
      else Some(Quote(Server.Research, Scaled(t.techs[name].cost, t.techFactor), t.techs[name].jobTime, 0))
  }

  function FreeAt(p: Plan, s: Server): int {
    match s
    case Trainer => p.cityFree
    case Crew => p.crewFree
    case Research => p.libraryFree
  }

  function LastFrame(pending: seq<Completion>, base: int): int {
    if pending == [] then base else LastFrame(pending[1..], Max(base, pending[0].frame))
  }

  function ClonePlan(t: Tables, p: Plan): Plan { p.(s := Clone(t, p.s)) }

  // ---- step, in the stages of the code ----

  /** Price the action on a copy; if it is not legal, drain every completion and retry. */
  function Priced(t: Tables, p: Plan, act: Act): Option<(Plan, Quote)>
    requires t.Ok() && Known(act)
  {
    var q := ClonePlan(t, p);
    match ActionSpec(t, q, act)
    case Some(spec) => Some((q, spec))
    case None =>
      if q.pending == [] then None
      else
        var q1 := Drain(t, q, LastFrame(q.pending[1..], q.pending[0].frame));
        match ActionSpec(t, q1, act)
        case None => None
        case Some(spec) => Some((q1, spec))
  }

  /** Drain until the server is free. */
  function AtServer(t: Tables, q: Plan, spec: Quote): Plan
    requires t.Ok()
  {
    Drain(t, q, Max(q.s.frame, FreeAt(q, spec.server)))
  }

  datatype Waited = Refused | Ready(q: Plan, spec: Quote) | Recheck(q: Plan, spec: Quote)

  /** Wait at the income of that moment. `Ready` needed no wait; `Recheck` waited and was
      priced again. */
  function Wait(t: Tables, q: Plan, spec: Quote, act: Act): Waited
    requires t.Ok() && Known(act)
  {
    match WaitFor(t, q.s, spec.cost)
    case None => Refused
    case Some(w) =>
      if w == 0 then Ready(q, spec)
      else
        var q1 := Drain(t, q, q.s.frame + w);
        match ActionSpec(t, q1, act)
        case None => Refused
        case Some(spec2) => Recheck(q1, spec2)
  }

  /** The second wait. No answer from the solver is taken for "nothing to wait for". */
  function SecondWait(t: Tables, q: Plan, spec: Quote): Plan
    requires t.Ok()
  {
    match WaitFor(t, q.s, spec.cost)
    case None => q
    case Some(w) => if w == 0 then q else Drain(t, q, q.s.frame + w)
  }

  /** From the first price on: the state in which `step` pays, and what it pays. */
  function Waits(t: Tables, q: Plan, spec: Quote, act: Act, horizon: int): Option<(Plan, Quote)>
    requires t.Ok() && Known(act)
  {
    match Wait(t, AtServer(t, q, spec), spec, act)
    case Refused => None
    case Ready(q1, spec1) => if q1.s.frame > horizon then None else Some((q1, spec1))
    case Recheck(q1, spec1) =>
      var q2 := SecondWait(t, q1, spec1);
      if q2.s.frame > horizon then None else Some((q2, spec1))
  }

  /** The state in which `step` pays, and what it pays. */
  function AtPayment(t: Tables, p: Plan, act: Act, horizon: int): Option<(Plan, Quote)>
    requires t.Ok() && Known(act)
  {
    match Priced(t, p, act)
    case None => None
    case Some((q, spec)) => Waits(t, q, spec, act, horizon)
  }

  function SetFree(p: Plan, s: Server, f: int): Plan {
    match s
    case Trainer => p.(cityFree := f)
    case Crew => p.(crewFree := f)
    case Research => p.(libraryFree := f)
  }

  function Effects(act: Act, crew: int): seq<Effect> {
    match act
    case Train(p) => [Arrive(p)]
    case Build(k) => [Release(crew), Finish(k)]
    case Research(name) => [Learn(name)]
  }

  function Pay(s: Econ, cost: Vec): Econ {
    s.(stock := seq(6, r requires 0 <= r < 6 => s.stock[r] - cost[r]))
  }

  /** Pay, occupy the server and enqueue the completions. */
  function Enqueue(t: Tables, q: Plan, spec: Quote, act: Act): Plan {
    var s1 := Pay(q.s, spec.cost);
    var s2 := if spec.server == Crew then Reseat(t, s1.(builders := s1.builders + spec.crew)) else s1;
    var done := s2.frame + spec.dur;
    var es := Effects(act, spec.crew);
    var q1 := SetFree(q.(s := s2), spec.server, done);
    q1.(pending := q1.pending + seq(|es|, i requires 0 <= i < |es| => Completion(done, es[i])))
  }

  function Step(t: Tables, p: Plan, act: Act, horizon: int): Option<Plan>
    requires t.Ok() && Known(act)
  {
    match AtPayment(t, p, act, horizon)
    case None => None
    case Some((q, spec)) => Some(Enqueue(t, q, spec, act))
  }
}
