/** When prerequisites come first for everything in the log, the items `legal` does not test
    included. */
module OpeningOrder {
  import opened Costs
  import opened OpeningRules
  import opened OpeningWorld
  import opened OpeningTime
  import opened OpeningSeating
  import opened OpeningRuns
  import opened OpeningClaims

  /** Each logged item starts no earlier than the completion of each of its prerequisites. */
  ghost predicate Ordered(g: Rules, log: seq<Entry>)
    requires g.Ok()
  {
    forall i | 0 <= i < |log| ::
      Known(g, log[i].item) && forall n | n in Preqs(g, log[i].item) :: Logged(log[..i], n, log[i].start)
  }

  ghost predicate CanBuy(g: Rules, w: World, item: Item)
    requires g.Ok()
  {
    Known(g, item) && Legal(g, w, item) && Apply(g, w, item).Some?
  }

  /** The frame at which the purchase starts. */
  function StartOf(g: Rules, w: World, item: Item): int
    requires g.Ok() && Known(g, item) && Apply(g, w, item).Some?
  {
    var v := Apply(g, w, item).value;
    if v.log == [] then v.frame else v.log[|v.log| - 1].start
  }

  /** The prerequisites of `item` are complete when its purchase starts. */
  ghost predicate OnTime(g: Rules, w: World, item: Item)
    requires g.Ok() && CanBuy(g, w, item)
  {
    forall n | n in Preqs(g, item) :: Logged(w.log, n, StartOf(g, w, item))
  }

  lemma BuyLog(g: Rules, w: World, item: Item) returns (e: Entry)
    requires g.Ok() && Seated(g, w) && CanBuy(g, w, item)
    ensures Apply(g, w, item).value.log == w.log + [e] && e.item == item && e.start == StartOf(g, w, item)
    ensures e.start >= w.frame && e.start >= FreeAt(w, ServerOf(item))
  {
    hide Rules.Ok, Advance, Place, ActionCost, ActionTime, Apply, Legal, Settled, Seated, Covers;
    var n := ApplyShape(g, w, item);
    var (v, cost, dur) := (Advance(g, w, n), ActionCost(g, w, item), ActionTime(g, w, item));
    PlaceShape(g, v, item, cost, dur);
    e := Entry(v.frame, v.frame + dur, item);
  }

  lemma OrderedAppend(g: Rules, log: seq<Entry>, e: Entry)
    requires g.Ok() && Known(g, e.item)
    ensures Ordered(g, log + [e]) <==> Ordered(g, log) && forall n | n in Preqs(g, e.item) :: Logged(log, n, e.start)
  {
    hide Rules.Ok, Preqs, Logged;
    var all := log + [e];
    assert all[..|log|] == log && all[|log|] == e;
    assert forall i | 0 <= i < |log| :: all[..i] == log[..i] && all[i] == log[i];
  }

  /** A purchase keeps the order of the log exactly when its own prerequisites are complete
      as it starts, and for the items `legal` tests they always are. */
  lemma BuyOrdered(g: Rules, w: World, item: Item)
    requires g.Ok() && Inv(g, w) && CanBuy(g, w, item)
    ensures Ordered(g, Apply(g, w, item).value.log) <==> Ordered(g, w.log) && OnTime(g, w, item)
    ensures ChecksPreqs(item) ==> OnTime(g, w, item)
  {
    hide Rules.Ok, Apply, Legal, Preqs, Logged, Ordered, Seated, MoneyOk, CountersOk, ServersOk, LogOk, TechsOk, PreqsOk;
    var e := BuyLog(g, w, item);
    OrderedAppend(g, w.log, e);
    forall n | ChecksPreqs(item) && n in Preqs(g, item) ensures Logged(w.log, n, e.start) {
      PreqsDone(g, w, item, e.start, n);
    }
  }

  lemma {:induction false} RunSplit(g: Rules, w: World, moves: seq<Move>, m: Move)
    requires g.Ok() && Run(g, w, moves).Some?
    ensures Run(g, w, moves + [m]) == After(g, Run(g, w, moves).value, m)
    decreases |moves|
  {
    hide Rules.Ok, After;
    var all := moves + [m];
    if moves == [] {
      assert all == [m] && [m][1..] == [];
    } else {
      assert all[0] == moves[0] && all[1..] == moves[1..] + [m];
      RunSplit(g, After(g, w, moves[0]).value, moves[1..], m);
    }
  }

  lemma ReachNext(g: Rules, w: World, m: Move)
    requires g.Ok() && Reachable(g, w) && After(g, w, m).Some?
    ensures Reachable(g, After(g, w, m).value)
  {
    hide Rules.Ok, After, Run, Start;
    var moves :| Run(g, Start(g), moves) == Some(w);
    RunSplit(g, Start(g), moves, m);
  }

  lemma StartReached(g: Rules)
    requires g.Ok()
    ensures Reachable(g, Start(g))
  {
    hide Rules.Ok, Start;
    assert Run(g, Start(g), []) == Some(Start(g));
  }

  /** Every run leaves an ordered log. */
  ghost predicate AlwaysOrdered(g: Rules)
    requires g.Ok()
  {
    forall w | Reachable(g, w) :: Ordered(g, w.log)
  }

  /** No citizen, farm or city can be bought in any run before its prerequisites. */
  ghost predicate NoneEarly(g: Rules)
    requires g.Ok()
  {
    forall w, item | Reachable(g, w) && !ChecksPreqs(item) && CanBuy(g, w, item) :: OnTime(g, w, item)
  }

  lemma {:induction false} RunOrdered(g: Rules, w: World, moves: seq<Move>)
    requires g.Ok() && NoneEarly(g) && Reachable(g, w) && Ordered(g, w.log) && Run(g, w, moves).Some?
    ensures Ordered(g, Run(g, w, moves).value.log)
    decreases |moves|
  {
    hide Rules.Ok, Reachable, Ordered, OnTime, Apply, Legal, Inv, Advance;
    if moves != [] {
      var v := After(g, w, moves[0]).value;
      ReachNext(g, w, moves[0]);
      match moves[0] {
        case Idle(n) => AdvanceRan(g, w, n);
        case Buy(item) =>
          ReachableInv(g, w);
          BuyOrdered(g, w, item);
      }
      RunOrdered(g, v, moves[1..]);
    }
  }

  /** Prerequisites come first for everything in every run exactly when no untested item can
      be bought before its own. */
  lemma OrderedRuns(g: Rules)
    requires g.Ok()
    ensures AlwaysOrdered(g) <==> NoneEarly(g)
  {
    hide Rules.Ok, Ordered, OnTime, CanBuy, Run, Start, Inv, Apply;
    if NoneEarly(g) {
      forall w | Reachable(g, w) ensures Ordered(g, w.log) {
        var moves :| Run(g, Start(g), moves) == Some(w);
        StartReached(g);
        StartOrdered(g);
        RunOrdered(g, Start(g), moves);
      }
    }
    if AlwaysOrdered(g) {
      forall w, item | Reachable(g, w) && !ChecksPreqs(item) && CanBuy(g, w, item) ensures OnTime(g, w, item) {
        ReachableInv(g, w);
        assert After(g, w, Buy(item)) == Apply(g, w, item) && Apply(g, w, item).Some? by { Buyable(g, w, item); }
        ReachNext(g, w, Buy(item));
        BuyOrdered(g, w, item);
      }
    }
  }

  lemma Buyable(g: Rules, w: World, item: Item)
    requires g.Ok() && CanBuy(g, w, item)
    ensures Known(g, item) && Apply(g, w, item).Some? && After(g, w, Buy(item)) == Apply(g, w, item)
  {
    hide Rules.Ok, Apply, Legal;
  }

  lemma StartOrdered(g: Rules)
    requires g.Ok()
    ensures Start(g).log == [] && Ordered(g, [])
  {
    hide Rules.Ok, Seat;
  }

  /** Tables in which no untested item has a prerequisite are safe. */
  lemma NoUntestedPreqs(g: Rules)
    requires g.Ok() && Preqs(g, Citizen) == Preqs(g, Farm) == Preqs(g, SmallCity) == {}
    ensures AlwaysOrdered(g)
  {
    hide Rules.Ok, Ordered, Reachable, Apply, Legal, Preqs, Logged;
    OrderedRuns(g);
  }

  /** Tables in which an untested item with a prerequisite can be bought at the start are not. */
  lemma UntestedPrerequisites(g: Rules, item: Item)
    requires g.Ok() && !ChecksPreqs(item) && CanBuy(g, Start(g), item) && Preqs(g, item) != {}
    ensures !AlwaysOrdered(g)
  {
    hide Rules.Ok, Ordered, Reachable, Apply, Legal, Preqs, CanBuy, Start;
    OrderedRuns(g);
    StartReached(g);
    StartOrdered(g);
    Buyable(g, Start(g), item);
    var n :| n in Preqs(g, item);
    assert !Logged([], n, StartOf(g, Start(g), item));
  }
}
