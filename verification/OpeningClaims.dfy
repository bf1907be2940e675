/** What the run invariant means for a reader: the claims about every reachable state. */
module OpeningClaims {
  import opened Arith
  import opened Costs
  import opened OpeningRules
  import opened OpeningWorld
  import opened OpeningTime
  import opened OpeningSeating
  import opened OpeningRuns

  /** Some sequence of legal purchases and idle time leads here from the start. */
  ghost predicate Reachable(g: Rules, w: World)
    requires g.Ok()
  {
    exists moves :: Run(g, Start(g), moves) == Some(w)
  }

  lemma ReachableInv(g: Rules, w: World)
    requires g.Ok() && Reachable(g, w)
    ensures Inv(g, w)
  {
    hide Rules.Ok, Inv, Run, Start;
    var moves :| Run(g, Start(g), moves) == Some(w);
    StartInv(g);
    RunInv(g, Start(g), moves);
  }

  lemma AtMostOne(pend: seq<Job>, i: nat, j: nat)
    requires i < j < |pend| && ServerOf(pend[i].item) == ServerOf(pend[j].item)
    ensures CountServer(pend, ServerOf(pend[i].item)) >= 2
  {
    if i > 0 {
      AtMostOne(pend[1..], i - 1, j - 1);
    } else {
      HasOne(pend[1..], j - 1);
    }
  }

  lemma HasOne(pend: seq<Job>, i: nat)
    requires i < |pend|
    ensures CountServer(pend, ServerOf(pend[i].item)) >= 1
  {
    if i > 0 {
      HasOne(pend[1..], i - 1);
    }
  }

  /** Each server works on one job at a time: at most three jobs are pending, on three
      different servers, each due when its server is free; and two logged jobs of one
      server never overlap. */
  lemma OneJobPerServer(g: Rules, w: World)
    requires g.Ok() && Reachable(g, w)
    ensures |w.pend| <= 3
    ensures forall i | 0 <= i < |w.pend| :: w.pend[i].done == FreeAt(w, ServerOf(w.pend[i].item))
    ensures forall i, j | 0 <= i < j < |w.pend| :: ServerOf(w.pend[i].item) != ServerOf(w.pend[j].item)
    ensures forall i, j | 0 <= i < j < |w.log| && ServerOf(w.log[i].item) == ServerOf(w.log[j].item) ::
              w.log[i].start <= w.log[i].done <= w.log[j].start <= w.log[j].done
  {
    hide Rules.Ok, Reachable, Seated, MoneyOk, CountersOk, TechsOk, PreqsOk;
    ReachableInv(g, w);
    CountServerTotal(w.pend);
    forall i, j | 0 <= i < j < |w.pend|
      ensures ServerOf(w.pend[i].item) != ServerOf(w.pend[j].item)
    {
      if ServerOf(w.pend[i].item) == ServerOf(w.pend[j].item) {
        AtMostOne(w.pend, i, j);
      }
    }
  }

  /** No item whose prerequisites are tested starts before each of them is complete, even
      though a tech is accepted while its prerequisite is only queued. */
  lemma PrerequisitesFirst(g: Rules, w: World, i: nat, n: string)
    requires g.Ok() && Reachable(g, w) && i < |w.log|
    requires Known(g, w.log[i].item) && ChecksPreqs(w.log[i].item) && n in Preqs(g, w.log[i].item)
    ensures exists j :: 0 <= j < i && w.log[j].item == Tech(n) && w.log[j].done <= w.log[i].start
  {
    hide Rules.Ok, Reachable, Preqs, Seated, MoneyOk, CountersOk, TechsOk, ServersOk;
    ReachableInv(g, w);
    assert Logged(w.log[..i], n, w.log[i].start);
  }

  /** Workers on each resource fit its built slots, workers and builders together fit the
      built citizens, and nobody idles beside an open food, timber or metal slot. */
  lemma WorkersFit(g: Rules, w: World)
    requires g.Ok() && Reachable(g, w)
    ensures forall r | 0 <= r < 6 :: 0 <= w.on[r] <= Slots(g, w)[r]
    ensures Sum(w.on) + w.builders <= Built(w, Citizen)
    ensures Sum(w.on) + w.builders < Built(w, Citizen) ==>
              forall r | r in {FOOD, TIMBER, METAL} :: w.on[r] == Slots(g, w)[r]
  {
    hide Reachable, Built, Seat, MoneyOk, TechsOk, ServersOk, LogOk, PreqsOk;
    ReachableInv(g, w);
    SlotsNonNegative(g, w);
    SeatFair(g, w);
  }

  lemma SlotsNonNegative(g: Rules, w: World)
    requires g.Ok() && CountersOk(w)
    ensures NonNegative(Slots(g, w))
  {
    hide Built;
    MulOrder(0, Built(w, Farm), g.a.slotsFarm);
    MulOrder(0, Built(w, WoodcutterCamp), g.a.slotsWood);
    MulOrder(0, Built(w, Mine), g.a.slotsMine);
  }

  /** Copying a reachable state is the identity although the copy may be seated again. */
  lemma CopyUnchanged(g: Rules, w: World)
    requires g.Ok() && Reachable(g, w)
    ensures Clone(g, w) == w
  {
    hide Rules.Ok, Reachable, Clone, Seated;
    ReachableInv(g, w);
    SeatedClone(g, w);
  }

  /** Nothing is ever overdrawn, and a whole resource never sits in the accumulator. */
  lemma NeverOverdrawn(g: Rules, w: World, r: int)
    requires g.Ok() && Reachable(g, w) && 0 <= r < 6
    ensures w.stock[r] >= 0 && 0 <= w.leftover[r] < g.Period()
  {
    hide Rules.Ok, Reachable, Seated, CountersOk, TechsOk, ServersOk, LogOk, PreqsOk;
    ReachableInv(g, w);
  }

  // ---- conservation over a run ----

  /** Income credited during one move, frame by frame. */
  function MoveEarned(g: Rules, w: World, v: World, r: int): int
    requires g.Ok() && 0 <= r < 6
  {
    Earned(g, Flush(g, w), Max(0, v.frame - w.frame), r)
  }

  function RunEarned(g: Rules, w: World, moves: seq<Move>, r: int): int
    requires g.Ok() && 0 <= r < 6
    decreases |moves|
  {
    if moves == [] then 0
    else match After(g, w, moves[0])
      case None => 0
      case Some(v) => MoveEarned(g, w, v, r) + RunEarned(g, v, moves[1..], r)
  }

  /** What the purchases of a run cost, each at the price quoted when it was chosen. */
  function RunSpent(g: Rules, w: World, moves: seq<Move>, r: int): int
    requires g.Ok() && 0 <= r < 6
    decreases |moves|
  {
    if moves == [] then 0
    else match After(g, w, moves[0])
      case None => 0
      case Some(v) =>
        (if moves[0].Buy? then ActionCost(g, w, moves[0].item)[r] else 0) + RunSpent(g, v, moves[1..], r)
  }

  lemma AdvanceConserves(g: Rules, w: World, n: nat, r: int)
    requires g.Ok() && 0 <= r < 6
    ensures Purse(g, Advance(g, w, n), r) == Purse(g, w, r) + Earned(g, Flush(g, w), n, r)
  {
    hide Rules.Ok, Flush, Steps, Earned;
    FlushKeeps(g, w);
    StepsConserve(g, Flush(g, w), n, r);
  }

  lemma MoveConserves(g: Rules, w: World, m: Move, r: int)
    requires g.Ok() && 0 <= r < 6 && Seated(g, w) && After(g, w, m).Some?
    ensures var v := After(g, w, m).value;
            Purse(g, v, r) + g.Period() * (if m.Buy? then ActionCost(g, w, m.item)[r] else 0)
            == Purse(g, w, r) + MoveEarned(g, w, v, r)
  {
    hide Rules.Ok, Advance, Place, ActionCost, ActionTime, Seated, Legal, Apply, Earned, Flush, Purse, Settled, Covers;
    match m {
      case Idle(n) =>
        AdvanceRan(g, w, n);
        AdvanceConserves(g, w, n, r);
      case Buy(item) =>
        var n := ApplyShape(g, w, item);
        var cost := ActionCost(g, w, item);
        AdvanceConserves(g, w, n, r);
        PlaceShape(g, Advance(g, w, n), item, cost, ActionTime(g, w, item));
        PaidPurse(g, Advance(g, w, n), Place(g, Advance(g, w, n), item, cost, ActionTime(g, w, item)), cost, r);
    }
  }

  lemma PaidPurse(g: Rules, v: World, p: World, cost: Vec, r: int)
    requires 0 <= r < 6 && p.stock[r] == v.stock[r] - cost[r] && p.leftover == v.leftover
    ensures Purse(g, p, r) + g.Period() * cost[r] == Purse(g, v, r)
  {
    assert (v.stock[r] - cost[r]) * g.Period() == v.stock[r] * g.Period() - cost[r] * g.Period();
  }

  /** Over any run, stock and leftover plus everything spent equal the start value plus the
      income of every elapsed frame. */
  lemma {:induction false} RunConserves(g: Rules, w: World, moves: seq<Move>, r: int)
    requires g.Ok() && 0 <= r < 6 && Inv(g, w) && Run(g, w, moves).Some?
    ensures Purse(g, Run(g, w, moves).value, r) + g.Period() * RunSpent(g, w, moves, r)
         == Purse(g, w, r) + RunEarned(g, w, moves, r)
    decreases |moves|
  {
    hide Rules.Ok, Purse, MoveEarned, Inv, ActionCost, Advance, Apply, Legal;
    if moves != [] {
      var v := After(g, w, moves[0]).value;
      assert Seated(g, w) by { InvSeated(g, w); }
      MoveConserves(g, w, moves[0], r);
      match moves[0] {
        case Idle(n) => AdvanceInv(g, w, n);
        case Buy(item) => ApplyInv(g, w, item);
      }
      RunConserves(g, v, moves[1..], r);
      Distribute(g.Period(), if moves[0].Buy? then ActionCost(g, w, moves[0].item)[r] else 0,
                 RunSpent(g, v, moves[1..], r));
    }
  }

  lemma InvSeated(g: Rules, w: World)
    requires g.Ok() && Inv(g, w)
    ensures Seated(g, w)
  {
  }

  lemma Distribute(p: int, a: int, b: int)
    ensures p * (a + b) == p * a + p * b
  {
  }

  // ---- the horizon ----

  lemma {:induction false} LastDoneIsMax(pend: seq<Job>, base: int)
    ensures LastDone(pend, base) >= base
    ensures forall j | j in pend :: j.done <= LastDone(pend, base)
    ensures LastDone(pend, base) == base || exists j :: j in pend && j.done == LastDone(pend, base)
    decreases |pend|
  {
    if pend != [] {
      LastDoneIsMax(pend[1..], Max(base, pend[0].done));
      assert pend == [pend[0]] + pend[1..];
    }
  }

  /** `apply` never lowers the horizon. */
  lemma HorizonGrows(g: Rules, w: World, item: Item)
    requires g.Ok() && Known(g, item) && Apply(g, w, item).Some?
    ensures Horizon(Apply(g, w, item).value) >= Horizon(w)
  {
    hide Rules.Ok, Advance, Place, ActionCost, ActionTime, Clone, Apply, Settled, Covers;
    var c := Clone(g, w);
    CloneTimes(g, w);
    var n := ApplyFrom(g, w, item);
    var v, cost, dur := Advance(g, c, n), ActionCost(g, c, item), ActionTime(g, w, item);
    var p := Place(g, v, item, cost, dur);
    PlaceShape(g, v, item, cost, dur);
    LaterMembers(w.pend, v.frame);
    var from, to := Max(Max(w.frame, w.tFree), Max(w.bFree, w.lFree)), Max(Max(p.frame, p.tFree), Max(p.bFree, p.lFree));
    assert FreeAt(p, Trainer) >= FreeAt(w, Trainer) && FreeAt(p, Crew) >= FreeAt(w, Crew)
        && FreeAt(p, Research) >= FreeAt(w, Research);
    LastDoneIsMax(w.pend, from);
    LastDoneIsMax(p.pend, to);
    if LastDone(w.pend, from) != from {
      var j :| j in w.pend && j.done == LastDone(w.pend, from);
      if j.done > v.frame { assert j in p.pend; }
    }
  }

  /** Settling runs to the horizon and leaves nothing pending. */
  lemma SettleEmpties(g: Rules, w: World)
    requires g.Ok()
    ensures Settle(g, w).pend == [] && Settle(g, w).frame == Horizon(w)
  {
    hide Rules.Ok, Advance, Clone;
    CloneTimes(g, w);
    var h := Horizon(w);
    LastDoneIsMax(w.pend, Max(Max(w.frame, w.tFree), Max(w.bFree, w.lFree)));
    AdvanceRan(g, Clone(g, w), h - w.frame);
    LaterEmpty(w.pend, h);
  }
}
