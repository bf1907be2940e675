/**
 Whole runs of the opening scheduler: legal purchases and idle time in any order, from
 the start state. Every claim here holds in every state such a run reaches.
 */
module OpeningRuns {
  import opened Arith
  import opened Costs
  import opened OpeningRules
  import opened OpeningWorld
  import opened OpeningTime
  import opened OpeningSeating

  datatype Move = Buy(item: Item) | Idle(frames: nat)

  /** A purchase is refused when it is not legal or can never be afforded. */
  function After(g: Rules, w: World, m: Move): Option<World>
    requires g.Ok()
  {
    match m
    case Idle(n) => Some(Advance(g, w, n))
    case Buy(item) => if Known(g, item) && Legal(g, w, item) then Apply(g, w, item) else None
  }

  function Run(g: Rules, w: World, moves: seq<Move>): Option<World>
    requires g.Ok()
    decreases |moves|
  {
    if moves == [] then Some(w)
    else match After(g, w, moves[0])
      case None => None
      case Some(v) => Run(g, v, moves[1..])
  }

  // ---- what one purchase does ----

  /** Whatever the state, a purchase is a wait of its copy and then the payment. */
  lemma ApplyFrom(g: Rules, w: World, item: Item) returns (n: nat)
    requires g.Ok() && Known(g, item) && Apply(g, w, item).Some?
    ensures var c := Clone(g, w);
            var v, cost := Advance(g, c, n), ActionCost(g, c, item);
            && Apply(g, w, item) == Some(Place(g, v, item, cost, ActionTime(g, w, item)))
            && Covers(v, cost) && Settled(v) && RanTo(c, v)
            && v.frame == c.frame + n && v.frame >= FreeAt(c, ServerOf(item))
  {
    hide Rules.Ok, Advance, Clone, ActionCost, ActionTime, Place, Covers, Settled;
    var c := Clone(g, w);
    var k := Max(c.frame, FreeAt(c, ServerOf(item))) - c.frame;
    AdvanceRan(g, c, k);
    var v := AtServer(g, w, item);
    var m := WaitFrom(g, v, ActionCost(g, v, item), 0, WAIT_LIMIT).value;
    n := k + m;
    AdvanceAdd(g, c, k, m);
    AdvanceRan(g, c, n);
  }

  /** A purchase is a wait, in which no price moves, ending in the first affordable state
      with the server free, and then the payment at the price quoted before the wait. */
  lemma ApplyShape(g: Rules, w: World, item: Item) returns (n: nat)
    requires g.Ok() && Seated(g, w) && Known(g, item) && Apply(g, w, item).Some?
    ensures var v, cost := Advance(g, w, n), ActionCost(g, w, item);
            && Apply(g, w, item) == Some(Place(g, v, item, cost, ActionTime(g, w, item)))
            && Covers(v, cost) && Settled(v) && Seated(g, v) && RanTo(w, v)
            && v.frame == w.frame + n && v.frame >= FreeAt(w, ServerOf(item))
  {
    hide Rules.Ok, Advance, Seated, Clone, Apply, ActionCost, ActionTime, Place, Covers, Settled;
    SeatedClone(g, w);
    n := ApplyFrom(g, w, item);
    AdvanceSeated(g, w, n);
  }

  // ---- servers and the log ----

  function CountServer(pend: seq<Job>, s: Server): nat {
    if pend == [] then 0
    else (if ServerOf(pend[0].item) == s then 1 else 0) + CountServer(pend[1..], s)
  }

  lemma CountServerTotal(pend: seq<Job>)
    ensures |pend| == CountServer(pend, Trainer) + CountServer(pend, Crew) + CountServer(pend, Research)
  {
  }

  lemma CountServerAppend(pend: seq<Job>, j: Job, s: Server)
    ensures CountServer(pend + [j], s) == CountServer(pend, s) + (if ServerOf(j.item) == s then 1 else 0)
  {
    if pend != [] {
      assert (pend + [j])[1..] == pend[1..] + [j];
    }
  }

  lemma CountServerNone(pend: seq<Job>, s: Server)
    requires forall j | j in pend :: ServerOf(j.item) != s
    ensures CountServer(pend, s) == 0
  {
    if pend != [] {
      assert forall j | j in pend[1..] :: j in pend;
    }
  }

  lemma CountServerLater(pend: seq<Job>, f: int, s: Server)
    ensures CountServer(Later(pend, f), s) <= CountServer(pend, s)
  {
    if pend != [] {
      CountServerLater(pend[1..], f, s);
      if pend[0].done > f {
        assert Later(pend, f)[1..] == Later(pend[1..], f);
      } else {
        assert Later(pend, f) == Later(pend[1..], f);
      }
    }
  }

  /** Each server has at most one pending job, and it finishes when the server is free. */
  ghost predicate ServersOk(w: World) {
    && (forall j | j in w.pend :: j.done == FreeAt(w, ServerOf(j.item)))
    && (forall s: Server :: CountServer(w.pend, s) <= 1)
  }

  /** Jobs on one server follow each other, and none outlasts its server's free frame. */
  ghost predicate LogOk(w: World) {
    && (forall e | e in w.log :: e.start <= e.done <= FreeAt(w, ServerOf(e.item)))
    && (forall i, j | 0 <= i < j < |w.log| && ServerOf(w.log[i].item) == ServerOf(w.log[j].item) ::
          w.log[i].done <= w.log[j].start)
  }

  ghost predicate Logged(log: seq<Entry>, n: string, limit: int) {
    exists e :: e in log && e.item == Tech(n) && e.done <= limit
  }

  /** Every tech counted as owned was logged, and its job is either over or still pending. */
  ghost predicate TechsOk(w: World) {
    && (forall n | n in w.techs :: exists e :: e in w.log && e.item == Tech(n))
    && (forall e | e in w.log && e.item.Tech? :: e.done <= w.frame || Job(e.done, e.item) in w.pend)
  }

  /** Each logged item starts no earlier than the completion of each of its techs. */
  ghost predicate PreqsOk(g: Rules, log: seq<Entry>)
    requires g.Ok()
  {
    forall i | 0 <= i < |log| ::
      && Known(g, log[i].item)
      && (ChecksPreqs(log[i].item) ==>
            forall n | n in Preqs(g, log[i].item) :: Logged(log[..i], n, log[i].start))
  }

  // ---- counters ----

  lemma CountJobsAppend(pend: seq<Job>, j: Job, item: Item)
    ensures CountJobs(pend + [j], item) == CountJobs(pend, item) + (if j.item == item then 1 else 0)
  {
    if pend != [] {
      assert (pend + [j])[1..] == pend[1..] + [j];
    }
  }

  lemma CountJobsLater(pend: seq<Job>, f: int, item: Item)
    ensures CountJobs(Later(pend, f), item) <= CountJobs(pend, item)
  {
    if pend != [] {
      CountJobsLater(pend[1..], f, item);
      if pend[0].done > f {
        assert Later(pend, f)[1..] == Later(pend[1..], f);
      } else {
        assert Later(pend, f) == Later(pend[1..], f);
      }
    }
  }

  lemma CountJobsMember(pend: seq<Job>, j: Job)
    requires j in pend
    ensures CountJobs(pend, j.item) > 0
  {
    if pend[0] != j {
      CountJobsMember(pend[1..], j);
    }
  }

  /** Nothing is pending that was not counted, and the crew is drawn from built citizens. */
  ghost predicate CountersOk(w: World) {
    && (forall item: Item | !item.Tech? :: Built(w, item) >= 0)
    && 0 <= w.builders <= Built(w, Citizen)
  }

  ghost predicate MoneyOk(g: Rules, w: World) {
    LeftoverOk(g, w) && forall r | 0 <= r < 6 :: w.stock[r] >= 0
  }

  ghost predicate Inv(g: Rules, w: World)
    requires g.Ok()
  {
    && MoneyOk(g, w) && Seated(g, w) && CountersOk(w)
    && ServersOk(w) && LogOk(w) && TechsOk(w) && PreqsOk(g, w.log)
  }

  // ---- time keeps everything ----

  lemma RanServers(w: World, v: World)
    requires RanTo(w, v) && ServersOk(w)
    ensures ServersOk(v)
  {
    LaterMembers(w.pend, v.frame);
    forall s: Server ensures CountServer(v.pend, s) <= 1 {
      CountServerLater(w.pend, v.frame, s);
    }
  }

  lemma RanTechs(w: World, v: World)
    requires RanTo(w, v) && TechsOk(w)
    ensures TechsOk(v)
  {
    LaterMembers(w.pend, v.frame);
  }

  lemma RanCounters(w: World, v: World)
    requires RanTo(w, v) && CountersOk(w)
    ensures CountersOk(v)
    ensures forall item: Item :: Built(v, item) >= Built(w, item)
  {
    forall item: Item ensures Built(v, item) >= Built(w, item) {
      CountJobsLater(w.pend, v.frame, item);
    }
  }

  lemma AdvanceInv(g: Rules, w: World, n: int)
    requires g.Ok() && Inv(g, w)
    ensures Inv(g, Advance(g, w, n))
  {
    hide Rules.Ok, Advance, Seated, Settled, ServersOk, TechsOk, CountersOk, RanTo;
    var v := Advance(g, w, n);
    AdvanceRan(g, w, n);
    AdvanceLeftover(g, w, n);
    AdvanceSeated(g, w, n);
    RanServers(w, v);
    RanTechs(w, v);
    RanCounters(w, v);
    assert SameOrders(w, v) by { RanSame(w, v); }
  }

  lemma RanSame(w: World, v: World)
    requires RanTo(w, v)
    ensures SameOrders(w, v) && w.frame <= v.frame
  {
  }

  // ---- a purchase keeps everything ----

  /** What `Place` leaves: every field of the new state. */
  lemma PlaceShape(g: Rules, v: World, item: Item, cost: Vec, dur: int)
    requires g.Ok()
    ensures var p := Place(g, v, item, cost, dur);
            var done := v.frame + dur;
            && p.frame == v.frame && p.leftover == v.leftover && p.epoch == v.epoch
            && (forall r | 0 <= r < 6 :: p.stock[r] == v.stock[r] - cost[r])
            && p.pend == v.pend + [Job(done, item)]
            && p.log == v.log + [Entry(v.frame, done, item)]
            && FreeAt(p, ServerOf(item)) == done
            && (forall s | s != ServerOf(item) :: FreeAt(p, s) == FreeAt(v, s))
            && p.techs == (if item.Tech? then v.techs + {item.name} else v.techs)
            && (forall k: Item :: Owned(p, k) == Owned(v, k) + (if k == item && !item.Tech? then 1 else 0))
            && p.builders == (if ServerOf(item) == Crew
                              then Min(g.a.maxBuilders, Max(0, Built(v, Citizen) - 1)) else v.builders)
            && p.on == Seat(g, p)
  {
    hide Rules.Ok, Seat;
    var p := Place(g, v, item, cost, dur);
    SeatIgnores(g, p.(on := v.on), p);
  }

  lemma PlaceServers(v: World, p: World, item: Item, done: int)
    requires ServersOk(v) && Settled(v) && FreeAt(v, ServerOf(item)) <= v.frame
    requires p.pend == v.pend + [Job(done, item)]
    requires FreeAt(p, ServerOf(item)) == done
    requires forall s | s != ServerOf(item) :: FreeAt(p, s) == FreeAt(v, s)
    ensures ServersOk(p)
  {
    CountServerNone(v.pend, ServerOf(item));
    forall s: Server ensures CountServer(p.pend, s) <= 1 {
      CountServerAppend(v.pend, Job(done, item), s);
    }
  }

  lemma PlaceLog(v: World, p: World, e: Entry)
    requires LogOk(v) && p.log == v.log + [e]
    requires FreeAt(v, ServerOf(e.item)) <= e.start <= e.done == FreeAt(p, ServerOf(e.item))
    requires forall s | s != ServerOf(e.item) :: FreeAt(p, s) == FreeAt(v, s)
    ensures LogOk(p)
  {
  }

  lemma PlaceTechs(v: World, p: World, e: Entry)
    requires TechsOk(v) && p.log == v.log + [e] && p.pend == v.pend + [Job(e.done, e.item)]
    requires p.frame == v.frame
    requires p.techs == (if e.item.Tech? then v.techs + {e.item.name} else v.techs)
    ensures TechsOk(p)
  {
    assert e in p.log;
    forall n | n in p.techs
      ensures exists d :: d in p.log && d.item == Tech(n)
    {
      if n in v.techs {
        var d :| d in v.log && d.item == Tech(n);
        assert d in p.log;
      }
    }
  }

  lemma PlaceCounters(g: Rules, v: World, p: World, item: Item, done: int)
    requires g.Ok() && CountersOk(v) && p.pend == v.pend + [Job(done, item)]
    requires forall k: Item :: Owned(p, k) == Owned(v, k) + (if k == item && !item.Tech? then 1 else 0)
    requires p.builders == v.builders || p.builders == Min(g.a.maxBuilders, Max(0, Built(v, Citizen) - 1))
    ensures CountersOk(p)
  {
    forall k: Item | !k.Tech? ensures Built(p, k) == Built(v, k) {
      CountJobsAppend(v.pend, Job(done, item), k);
    }
  }

  /** The prerequisites `legal` saw are all complete when the purchase starts: a building
      asks for completed techs, and a tech waits for the one library that its queued
      prerequisite occupies. */
  lemma PreqsDone(g: Rules, w: World, item: Item, start: int, n: string)
    requires g.Ok() && LogOk(w) && TechsOk(w) && Known(g, item) && Legal(g, w, item) && ChecksPreqs(item)
    requires start >= w.frame && start >= FreeAt(w, ServerOf(item))
    requires n in Preqs(g, item)
    ensures Logged(w.log, n, start)
  {
    hide Rules.Ok, PreqNames;
    assert n in w.techs;
    var e :| e in w.log && e.item == Tech(n);
    if !item.Tech? && e.done > w.frame {
      CountJobsMember(w.pend, Job(e.done, e.item));
      assert false;
    }
  }

  lemma PlacePreqs(g: Rules, log: seq<Entry>, e: Entry)
    requires g.Ok() && PreqsOk(g, log) && Known(g, e.item)
    requires ChecksPreqs(e.item) ==> forall n | n in Preqs(g, e.item) :: Logged(log, n, e.start)
    ensures PreqsOk(g, log + [e])
  {
    hide Rules.Ok, Preqs;
    var all := log + [e];
    forall i | 0 <= i < |all|
      ensures && Known(g, all[i].item)
              && (ChecksPreqs(all[i].item) ==>
                    forall n | n in Preqs(g, all[i].item) :: Logged(all[..i], n, all[i].start))
    {
      if i < |log| {
        assert all[..i] == log[..i] && all[i] == log[i];
      } else {
        assert all[..i] == log;
      }
    }
  }

  lemma ApplyInv(g: Rules, w: World, item: Item)
    requires g.Ok() && Inv(g, w) && Known(g, item) && Legal(g, w, item) && Apply(g, w, item).Some?
    ensures Inv(g, Apply(g, w, item).value)
  {
    hide Rules.Ok, Advance, Place, ActionCost, ActionTime, Apply, Legal, Preqs, Settled, Seat;
    hide ServersOk, LogOk, TechsOk, PreqsOk, CountersOk;
    var n := ApplyShape(g, w, item);
    var v, cost, dur := Advance(g, w, n), ActionCost(g, w, item), ActionTime(g, w, item);
    var p := Place(g, v, item, cost, dur);
    var e := Entry(v.frame, v.frame + dur, item);
    AdvanceInv(g, w, n);
    PlaceShape(g, v, item, cost, dur);
    PlaceServers(v, p, item, e.done);
    PlaceLog(v, p, e);
    PlaceTechs(v, p, e);
    PlaceCounters(g, v, p, item, e.done);
    forall m | ChecksPreqs(item) && m in Preqs(g, item) ensures Logged(v.log, m, e.start) {
      PreqsDone(g, w, item, e.start, m);
    }
    PlacePreqs(g, v.log, e);
  }

  lemma StartInv(g: Rules)
    requires g.Ok()
    ensures Inv(g, Start(g))
  {
    hide Seat, Preqs, PreqNames;
    var b := Start(g);
    SeatIgnores(g, b.(on := NONE), b);
    forall s: Server ensures CountServer(b.pend, s) <= 1 { }
  }

  /** Every run from a state that satisfies the invariant ends in one. */
  lemma {:induction false} RunInv(g: Rules, w: World, moves: seq<Move>)
    requires g.Ok() && Inv(g, w) && Run(g, w, moves).Some?
    ensures Inv(g, Run(g, w, moves).value)
    decreases |moves|
  {
    hide Rules.Ok, Inv, Advance, Apply, Legal;
    if moves != [] {
      var v := After(g, w, moves[0]).value;
      match moves[0] {
        case Idle(n) => AdvanceInv(g, w, n);
        case Buy(item) => ApplyInv(g, w, item);
      }
      RunInv(g, v, moves[1..]);
    }
  }
}
