/** The granary bonus counts granaries that are only queued. What that changes, and when. */
module OpeningGranary {
  import opened Arith
  import opened Costs
  import opened OpeningRules
  import opened OpeningWorld
  import opened OpeningRuns
  import opened OpeningClaims

  /** Income with the bonus of granaries that are built. */
  function BuiltIncomeOn(g: Rules, w: World, r: int): int
    requires g.Ok() && 0 <= r < 6
  {
    var rate := if r == OIL then g.oilRate else g.peasantRate;
    var v := 16 * w.on[r] * rate / 256;
    var bonus := if r == FOOD then (if Built(w, Granary) != 0 then g.granaryBonus else 0) else Bonus(g, w, r);
    var out := Max(v * (100 + bonus) / 100, 0) + FreeIncome16(g, w, r);
    Min(Min(out, Cap16(g, w, r)), GLOBAL_CEILING)
  }

  /** What the food workers earn before any bonus. */
  function FoodWork(g: Rules, w: World): int { 16 * w.on[FOOD] * g.peasantRate / 256 }

  lemma Percent(v: int, b: int)
    requires v >= 0 && b >= 0
    ensures v * (100 + b) / 100 == v + v * b / 100 && v * b / 100 >= 0
    ensures v * b / 100 > 0 <==> v * b >= 100
  {
    MulOrder(0, v, b);
    assert v * (100 + b) == v * b + v * 100;
    DivModShift(v * b, 100, v);
  }

  lemma WorkNonNegative(g: Rules, w: World)
    requires g.Ok() && w.on[FOOD] >= 0
    ensures FoodWork(g, w) >= 0
  {
    hide Rules.Ok;
    assert g.peasantRate >= 0 by { RatePositive(g); }
    MulOrder(0, 16 * w.on[FOOD], g.peasantRate);
  }

  lemma RatePositive(g: Rules)
    requires g.Ok()
    ensures g.peasantRate >= 0 && g.granaryBonus >= 0
  {
  }

  /** In every reachable state income differs from what built granaries give exactly on food
      with granaries queued and none built, when the bonus is worth a unit after rounding and
      no clamp bites without it; and then it is too high. */
  lemma GranaryEarly(g: Rules, w: World, r: int)
    requires g.Ok() && Reachable(g, w) && 0 <= r < 6
    ensures IncomeOn(g, w, r) >= BuiltIncomeOn(g, w, r)
    ensures IncomeOn(g, w, r) != BuiltIncomeOn(g, w, r) <==>
              && r == FOOD && Owned(w, Granary) != 0 && Built(w, Granary) == 0
              && FoodWork(g, w) * g.granaryBonus >= 100
              && FoodWork(g, w) + FreeIncome16(g, w, FOOD) < Min(Cap16(g, w, FOOD), GLOBAL_CEILING)
  {
    hide Rules.Ok, Reachable, FreeIncome16, Cap16, Built, Owned, FoodWork;
    RatePositive(g);
    OwnedFirst(g, w);
    WorkersFit(g, w);
    WorkNonNegative(g, w);
    if r == FOOD {
      FoodIncome(g, w);
      Percent(FoodWork(g, w), g.granaryBonus);
    }
  }

  lemma OwnedFirst(g: Rules, w: World)
    requires g.Ok() && Reachable(g, w)
    ensures 0 <= Built(w, Granary) <= Owned(w, Granary)
  {
    hide Rules.Ok, Reachable, MoneyOk, TechsOk, ServersOk, LogOk, PreqsOk;
    ReachableInv(g, w);
  }

  lemma FoodIncome(g: Rules, w: World)
    requires g.Ok()
    ensures IncomeOn(g, w, FOOD) == Clamped(g, w, if Owned(w, Granary) != 0 then g.granaryBonus else 0)
    ensures BuiltIncomeOn(g, w, FOOD) == Clamped(g, w, if Built(w, Granary) != 0 then g.granaryBonus else 0)
  {
    hide FreeIncome16, Cap16;
  }

  function Clamped(g: Rules, w: World, bonus: int): int
    requires g.Ok()
  {
    Min(Min(Max(FoodWork(g, w) * (100 + bonus) / 100, 0) + FreeIncome16(g, w, FOOD), Cap16(g, w, FOOD)), GLOBAL_CEILING)
  }
}
