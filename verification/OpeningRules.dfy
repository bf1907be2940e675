/**
 The rule tables the opening scheduler reads, its modelling assumptions, and the
 price of a purchase. The tables are loaded from data files, so they are parameters
 here; `Rules.Ok` says what the scheduler needs of them.
 */
module OpeningRules {
  import opened Costs

  const MILITARY := 0
  const CIVIC := 1
  const COMMERCE := 2

  const KNOWLEDGE_CAP_RAW := 999

  /** One level per library column. */
  type Levels = v: seq<nat> | |v| == 4 witness [0, 0, 0, 0]

  /** Everything that can be queued. */
  datatype Item =
    | Citizen
    | Farm | WoodcutterCamp | Mine | Market | Library | University | Granary | Barracks | SmallCity
    | Tech(name: string)

  function ServerOf(item: Item): Server {
    match item
    case Citizen => Trainer
    case Tech(_) => Research
    case _ => Crew
  }

  predicate IsBuilding(item: Item) { ServerOf(item) == Crew }

  datatype TechRow = TechRow(name: string, slot: int, cat: int, isAge: bool, rec: Record)

  /** Quantities the binary does not give. */
  datatype Assume = Assume(
    slotsFarm: int, slotsWood: int, slotsMine: int,
    maxBuilders: int, buildLinear: bool, buildingRampPct: int, walkFrames: int,
    startCitizens: int, startFarms: int, startWoodcamps: int,
    government: nat, territory: int)

  datatype Rules = Rules(
    gatherRate: int, peasantRate: int, oilRate: int,
    cityGather: Vec, basicGather: Vec, startingGoods: Vec,
    commerceCap: seq<int>, popCap: seq<int>, farmsPerCity: int,
    granaryBonus: int, lumbermillBonus: int,
    marketTaxes: int, universityLiteracy: int, territoryTaxes: seq<int>,
    unitFactor: int, buildFactor: int, techFactor: int, workerRamp: int,
    citizen: Record, buildings: map<Item, Record>, techs: seq<TechRow>,
    a: Assume)
  {
    /** Accumulator units per resource: sixteenths over one gather period. */
    function Period(): int { gatherRate * 16 }

    /** Income units of one worked slot. */
    function Slot16(): int { 16 * peasantRate / 256 }

    ghost predicate Ok() {
      && gatherRate > 0 && peasantRate >= 16 && oilRate >= 0
      && (forall r | 0 <= r < 6 :: cityGather[r] >= 0 && basicGather[r] >= 0 && startingGoods[r] >= 0)
      && |commerceCap| == 8 && |popCap| == 8
      && (forall i | 0 <= i < 8 :: commerceCap[i] >= 0)
      && granaryBonus >= 0 && lumbermillBonus >= 0
      && marketTaxes >= 0 && universityLiteracy >= 0
      && citizen.Ok()
      && (forall b: Item | IsBuilding(b) :: b in buildings && buildings[b].Ok())
      && (forall i | 0 <= i < |techs| :: 0 <= techs[i].cat < 4 && techs[i].rec.Ok())
      && a.slotsFarm >= 0 && a.slotsWood >= 0 && a.slotsMine >= 0
      && a.maxBuilders >= 1 && a.walkFrames >= 0
      && a.startCitizens >= 0 && a.startFarms >= 0 && a.startWoodcamps >= 0
      && a.territory >= 0 && a.government < |territoryTaxes|
      && (forall i | 0 <= i < |territoryTaxes| :: territoryTaxes[i] >= 0)
    }
  }

  /** The row of a tech name, when the table has one. */
  function FindTech(rows: seq<TechRow>, name: string): (r: Option<TechRow>)
    ensures r.Some? ==> r.value in rows && r.value.name == name
    ensures r.None? ==> forall i | 0 <= i < |rows| :: rows[i].name != name
  {
    if rows == [] then None
    else if rows[0].name == name then Some(rows[0])
    else FindTech(rows[1..], name)
  }

  /** The first tech name a prerequisite slot id resolves to. */
  function TechAtSlot(rows: seq<TechRow>, slot: int): (r: Option<string>)
    ensures r.Some? ==> exists i :: 0 <= i < |rows| && rows[i].slot == slot && rows[i].name == r.value
    ensures r.None? ==> forall i | 0 <= i < |rows| :: rows[i].slot != slot
  {
    if rows == [] then None
    else if rows[0].slot == slot then Some(rows[0].name)
    else
      var r := TechAtSlot(rows[1..], slot);
      assert r.Some? ==> forall i | 0 <= i < |rows| - 1 :: rows[1..][i] == rows[i + 1];
      r
  }

  /** The names `legal` tests for a list of prerequisite slot ids: unresolved and
      non-positive ids drop out. */
  function PreqNames(rows: seq<TechRow>, preq: seq<int>): set<string> {
    set p, n | p in preq && p > 0 && TechAtSlot(rows, p) == Some(n) && n in NamesOf(rows) :: n
  }

  function NamesOf(rows: seq<TechRow>): set<string> {
    set i | 0 <= i < |rows| :: rows[i].name
  }

  /** Names the tables can price: `action_cost` raises a KeyError for any other. */
  predicate Known(g: Rules, item: Item) {
    item.Tech? ==> FindTech(g.techs, item.name).Some?
  }

}
