/** Resources, servers and prices, which both planners share. */
module Costs {

  datatype Option<+T> = None | Some(value: T)

  const FOOD := 0
  const TIMBER := 1
  const WEALTH := 2
  const KNOWLEDGE := 3
  const METAL := 4
  const OIL := 5

  const GLOBAL_CEILING := 16000

  /** One value per resource. */
  type Vec = v: seq<int> | |v| == 6 witness [0, 0, 0, 0, 0, 0]

  const NONE: Vec := [0, 0, 0, 0, 0, 0]

  function Sum(v: Vec): int { v[0] + v[1] + v[2] + v[3] + v[4] + v[5] }

  datatype Server = Trainer | Crew | Research

  /** A row of the unit, building or tech table. A negative `support` entry is unused. */
  datatype Record = Record(cost: Vec, support: seq<int>, supportCost: seq<int>, jobTime: int, preq: seq<int>)
  {
    ghost predicate Ok() {
      && |support| == 2 && |supportCost| == 2
      && support[0] < 6 && support[1] < 6
      && jobTime >= 0
    }
  }

  // ---- prices ----

  function Scaled(cost: Vec, factor: int): Vec {
    seq(6, r requires 0 <= r < 6 => cost[r] * factor)
  }

  /** One support term: `count` copies of the support value, held under a ceiling that
      is a percentage of the price so far; a zero ceiling is no ceiling. */
  function AddSupport(c: Vec, r: int, value: int, rampPct: int): Vec
    requires r < 6
  {
    if r < 0 then c
    else
      var lim := c[r] * rampPct / 100;
      var v := if rampPct != 0 && lim != 0 && lim < value then lim else value;
      c[r := c[r] + v]
  }

  function CostOf(rec: Record, count: int, factor: int, rampPct: int): Vec
    requires rec.Ok()
  {
    var c := Scaled(rec.cost, factor);
    var c1 := AddSupport(c, rec.support[0], rec.supportCost[0] * count, rampPct);
    AddSupport(c1, rec.support[1], rec.supportCost[1] * count, rampPct)
  }
}
