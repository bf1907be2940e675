/** Nothing reads the order in which jobs were queued, or the purchase log. */
module OpeningPend {
  import opened Arith
  import opened Accumulator
  import opened Costs
  import opened OpeningRules
  import opened OpeningWorld
  import opened OpeningSeating
  import opened OpeningClaims

  // ---- sums over a queue ----

  ghost function SumBy(f: Job -> int, s: seq<Job>): int {
    if s == [] then 0 else f(s[0]) + SumBy(f, s[1..])
  }

  lemma {:induction false} SumSplit(f: Job -> int, a: seq<Job>, b: seq<Job>)
    ensures SumBy(f, a + b) == SumBy(f, a) + SumBy(f, b)
    decreases |a|
  {
    if a == [] {
      assert a + b == b;
    } else {
      assert (a + b)[1..] == a[1..] + b;
      SumSplit(f, a[1..], b);
    }
  }

  /** A sum does not depend on the order. */
  lemma {:induction false} SumSame(f: Job -> int, a: seq<Job>, b: seq<Job>)
    requires multiset(a) == multiset(b)
    ensures SumBy(f, a) == SumBy(f, b)
    decreases |a|
  {
    hide SumBy;
    if a == [] {
      assert |multiset(b)| == |b|;
      assert a == b;
    } else {
      var rest := HeadOut(a);
      var pre, post := TakeOut(b, a[0]);
      SumSame(f, rest, pre + post);
      SumWithout(f, pre, a[0], post);
      SumWithout(f, [], a[0], rest);
    }
  }

  lemma TakeOut(b: seq<Job>, j: Job) returns (pre: seq<Job>, post: seq<Job>)
    requires j in multiset(b)
    ensures b == pre + [j] + post && multiset(pre + post) == multiset(b) - multiset{j}
  {
    var i :| 0 <= i < |b| && b[i] == j;
    pre, post := b[..i], b[i + 1..];
    assert b == pre + [j] + post;
    WithoutOne(pre, j, post);
  }

  lemma HeadOut(a: seq<Job>) returns (rest: seq<Job>)
    requires a != []
    ensures a == [] + [a[0]] + rest && [] + rest == rest && multiset(rest) == multiset(a) - multiset{a[0]}
    ensures |rest| < |a| && a[0] in multiset(a)
  {
    rest := a[1..];
    assert a == [] + [a[0]] + rest && [] + rest == rest;
    WithoutOne([], a[0], rest);
  }

  lemma WithoutOne(a: seq<Job>, j: Job, b: seq<Job>)
    ensures multiset(a + b) == multiset(a + [j] + b) - multiset{j}
  {
    assert multiset(a + [j] + b) == multiset(a) + multiset{j} + multiset(b);
    assert multiset(a + b) == multiset(a) + multiset(b);
  }

  lemma SumWithout(f: Job -> int, a: seq<Job>, j: Job, b: seq<Job>)
    ensures SumBy(f, a + [j] + b) == SumBy(f, a + b) + f(j)
  {
    SumSplit(f, a + [j], b);
    SumSplit(f, a, [j]);
    SumSplit(f, a, b);
    assert [j][1..] == [];
  }

  // ---- what reads the queue ----

  lemma {:induction false} CountIsSum(pend: seq<Job>, item: Item)
    ensures CountJobs(pend, item) == SumBy((j: Job) => if j.item == item then 1 else 0, pend)
    decreases |pend|
  {
    if pend != [] { CountIsSum(pend[1..], item); }
  }

  lemma CountSame(a: seq<Job>, b: seq<Job>)
    requires multiset(a) == multiset(b)
    ensures forall item :: CountJobs(a, item) == CountJobs(b, item)
  {
    forall item ensures CountJobs(a, item) == CountJobs(b, item) {
      CountIsSum(a, item);
      CountIsSum(b, item);
      SumSame((j: Job) => if j.item == item then 1 else 0, a, b);
    }
  }

  function AgeOf(g: Rules, j: Job): int {
    var row := if j.item.Tech? then FindTech(g.techs, j.item.name) else None;
    if row.Some? && row.value.isAge then 1 else 0
  }

  lemma {:induction false} AgesIsSum(g: Rules, landed: seq<Job>)
    ensures Ages(g, landed) == SumBy((j: Job) => AgeOf(g, j), landed)
    decreases |landed|
  {
    if landed != [] { AgesIsSum(g, landed[1..]); }
  }

  function LevelOf(g: Rules, c: int, j: Job): int {
    var row := if j.item.Tech? then FindTech(g.techs, j.item.name) else None;
    if row.Some? && !row.value.isAge && row.value.cat == c then 1 else 0
  }

  lemma {:induction false} RaiseIsSum(g: Rules, epoch: Levels, landed: seq<Job>, c: int)
    requires g.Ok() && 0 <= c < 4
    ensures Raise(g, epoch, landed)[c] == epoch[c] + SumBy((j: Job) => LevelOf(g, c, j), landed)
    decreases |landed|
  {
    if landed != [] {
      var it := landed[0].item;
      var row := if it.Tech? then FindTech(g.techs, it.name) else None;
      var e1 := if row.Some? && !row.value.isAge then epoch[row.value.cat := epoch[row.value.cat] + 1] else epoch;
      RaiseIsSum(g, e1, landed[1..], c);
    }
  }

  lemma LandSame(g: Rules, epoch: Levels, a: seq<Job>, b: seq<Job>)
    requires g.Ok() && multiset(a) == multiset(b)
    ensures Ages(g, a) == Ages(g, b) && Raise(g, epoch, a) == Raise(g, epoch, b)
  {
    hide Ages, Raise;
    AgesIsSum(g, a);
    AgesIsSum(g, b);
    SumSame((j: Job) => AgeOf(g, j), a, b);
    forall c | 0 <= c < 4 ensures Raise(g, epoch, a)[c] == Raise(g, epoch, b)[c] {
      RaiseIsSum(g, epoch, a, c);
      RaiseIsSum(g, epoch, b, c);
      SumSame((j: Job) => LevelOf(g, c, j), a, b);
    }
  }

  lemma {:induction false} DueLaterCount(pend: seq<Job>, f: int)
    ensures forall j :: multiset(Due(pend, f))[j] == if j.done <= f then multiset(pend)[j] else 0
    ensures forall j :: multiset(Later(pend, f))[j] == if j.done > f then multiset(pend)[j] else 0
    decreases |pend|
  {
    if pend != [] {
      DueLaterCount(pend[1..], f);
      assert pend == [pend[0]] + pend[1..];
    }
  }

  lemma DueLaterSame(a: seq<Job>, b: seq<Job>, f: int)
    requires multiset(a) == multiset(b)
    ensures multiset(Due(a, f)) == multiset(Due(b, f)) && multiset(Later(a, f)) == multiset(Later(b, f))
  {
    hide Due, Later;
    DueLaterCount(a, f);
    DueLaterCount(b, f);
    var (d, e, l, m) := (multiset(Due(a, f)), multiset(Due(b, f)), multiset(Later(a, f)), multiset(Later(b, f)));
    forall j ensures d[j] == e[j] && l[j] == m[j] { }
  }

  lemma MembersSame(a: seq<Job>, b: seq<Job>)
    requires multiset(a) == multiset(b)
    ensures forall j :: j in a <==> j in b
  {
    forall j ensures j in a <==> j in b { assert j in a <==> j in multiset(a); assert j in b <==> j in multiset(b); }
  }

  lemma LastDoneSame(a: seq<Job>, b: seq<Job>, from: int)
    requires multiset(a) == multiset(b)
    ensures LastDone(a, from) == LastDone(b, from)
  {
    MembersSame(a, b);
    LastDoneIsMax(a, from);
    LastDoneIsMax(b, from);
  }

  // ---- states that differ in the log and the order of the queue ----

  ghost predicate Twins(w: World, v: World) {
    v == w.(log := v.log, pend := v.pend) && multiset(w.pend) == multiset(v.pend)
  }

  /** One queue for every multiset of jobs. */
  ghost function Line(jobs: multiset<Job>): (s: seq<Job>)
    ensures multiset(s) == jobs
    decreases |jobs|
  {
    if jobs == multiset{} then [] else
      var j :| j in jobs;
      var rest := Line(jobs - multiset{j});
      assert multiset([j] + rest) == multiset{j} + multiset(rest);
      [j] + rest
  }

  /** A state without its log, its queue in one agreed order. */
  ghost function Strip(w: World): World { w.(log := [], pend := Line(multiset(w.pend))) }

  lemma StripTwins(w: World, v: World)
    ensures Twins(w, Strip(w))
    ensures Twins(w, v) <==> Strip(w) == Strip(v)
  {
    if Strip(w) == Strip(v) {
      assert multiset(Line(multiset(w.pend))) == multiset(Line(multiset(v.pend)));
      assert w.(log := [], pend := []) == Strip(w).(pend := []) == Strip(v).(pend := []) == v.(log := [], pend := []);
    }
  }

  lemma TwinBuilt(w: World, v: World)
    requires Twins(w, v)
    ensures forall item :: Built(w, item) == Built(v, item) && Owned(w, item) == Owned(v, item)
  {
    hide CountJobs;
    CountSame(w.pend, v.pend);
  }

  lemma SeatSame(g: Rules, w: World, v: World)
    requires g.Ok() && multiset(w.pend) == multiset(v.pend)
    requires v.own == w.own && v.builders == w.builders && v.epoch == w.epoch
    ensures Seat(g, w) == Seat(g, v)
  {
    hide CountJobs, UsefulPass, RoomPass, Rules.Ok;
    CountSame(w.pend, v.pend);
    assert forall item :: Built(w, item) == Built(v, item);
    assert Slots(g, w) == Slots(g, v);
    assert UsefulVec(g, w) == UsefulVec(g, v) by { UsefulSame(g, w, v); }
  }

  lemma UsefulSame(g: Rules, w: World, v: World)
    requires g.Ok() && v.epoch == w.epoch && forall item :: Built(w, item) == Built(v, item)
    ensures UsefulVec(g, w) == UsefulVec(g, v)
    ensures forall r | 0 <= r < 6 :: FreeIncome16(g, w, r) == FreeIncome16(g, v, r) && Cap16(g, w, r) == Cap16(g, v, r)
  {
    hide Built;
  }

  lemma TwinSeat(g: Rules, w: World, v: World)
    requires g.Ok() && Twins(w, v)
    ensures Seat(g, w) == Seat(g, v) && Twins(Clone(g, w), Clone(g, v)) && (Seated(g, w) <==> Seated(g, v))
  {
    hide Seat, Rules.Ok;
    SeatSame(g, w, v);
    var (a, b) := (Clone(g, w), Clone(g, v));
    assert Owned(w, Citizen) == Owned(v, Citizen) && Owned(w, Farm) == Owned(v, Farm)
        && Owned(w, WoodcutterCamp) == Owned(v, WoodcutterCamp);
    SeatIgnores(g, w.(own := a.own), a);
    SeatIgnores(g, v.(own := b.own), b);
    SeatSame(g, a, b);
  }

  lemma TwinIncome(g: Rules, w: World, v: World, r: int)
    requires g.Ok() && Twins(w, v) && 0 <= r < 6
    ensures IncomeOn(g, w, r) == IncomeOn(g, v, r)
  {
    hide Built, FreeIncome16, Cap16, Rules.Ok;
    TwinBuilt(w, v);
    UsefulSame(g, w, v);
  }

  lemma TwinTick(g: Rules, w: World, v: World, n: int)
    requires g.Ok() && Twins(w, v)
    ensures Twins(Tick(g, w, n), Tick(g, v, n))
  {
    hide IncomeOn, Accrue, Rules.Ok;
    forall r | 0 <= r < 6 ensures IncomeOn(g, w, r) == IncomeOn(g, v, r) { TwinIncome(g, w, v, r); }
    var (a, b) := (Tick(g, w, n), Tick(g, v, n));
    assert a.stock == b.stock && a.leftover == b.leftover;
  }

  lemma TwinFlush(g: Rules, w: World, v: World)
    requires g.Ok() && Twins(w, v)
    ensures Twins(Flush(g, w), Flush(g, v))
  {
    hide Seat, Due, Later, Ages, Raise, Rules.Ok;
    MembersSame(w.pend, v.pend);
    DueLaterSame(w.pend, v.pend, w.frame);
    LandSame(g, w.epoch, Due(w.pend, w.frame), Due(v.pend, w.frame));
    if !Settled(w) {
      var (a, b) := (Flush(g, w), Flush(g, v));
      FlushIs(g, w);
      FlushIs(g, v);
      SeatSame(g, a, b);
    }
  }

  /** What a flush that does something leaves. */
  lemma FlushIs(g: Rules, w: World)
    requires g.Ok() && !Settled(w)
    ensures var a := Flush(g, w);
            && a.pend == Later(w.pend, w.frame) && a.age == w.age + Ages(g, Due(w.pend, w.frame))
            && a.epoch == Raise(g, w.epoch, Due(w.pend, w.frame)) && a.on == Seat(g, a)
            && a.builders == (if w.builders != 0 && w.bFree <= w.frame then 0 else w.builders)
            && a == w.(pend := a.pend, age := a.age, epoch := a.epoch, on := a.on, builders := a.builders)
  {
    hide Seat, Due, Later, Ages, Raise, Rules.Ok;
    var a := Flush(g, w);
    SeatIgnores(g, a.(on := w.on), a);
  }

  lemma {:induction false} TwinSteps(g: Rules, w: World, v: World, n: nat)
    requires g.Ok() && Twins(w, v)
    ensures Twins(Steps(g, w, n), Steps(g, v, n))
    decreases n
  {
    hide Tick, Flush, Twins, Rules.Ok;
    if n > 0 {
      TwinTick(g, w, v, 1);
      TwinFlush(g, Tick(g, w, 1), Tick(g, v, 1));
      TwinSteps(g, Step(g, w), Step(g, v), n - 1);
    }
  }

  lemma TwinAdvance(g: Rules, w: World, v: World, n: int)
    requires g.Ok() && Twins(w, v)
    ensures Twins(Advance(g, w, n), Advance(g, v, n))
  {
    hide Flush, Steps, Twins, Rules.Ok;
    TwinFlush(g, w, v);
    TwinSteps(g, Flush(g, w), Flush(g, v), Max(0, n));
  }

  lemma {:induction false} TwinWait(g: Rules, w: World, v: World, cost: Vec, n: nat, limit: int)
    requires g.Ok() && Twins(w, v)
    ensures WaitFrom(g, w, cost, n, limit) == WaitFrom(g, v, cost, n, limit)
    decreases limit - n
  {
    hide Advance, Rules.Ok;
    TwinAdvance(g, w, v, n);
    if n <= limit && !Covers(Advance(g, w, n), cost) { TwinWait(g, w, v, cost, n + 1, limit); }
  }

  /** What a placement leaves, field by field. */
  lemma PlaceIs(g: Rules, w: World, item: Item, cost: Vec, dur: int)
    requires g.Ok()
    ensures var p := Place(g, w, item, cost, dur);
            && (forall r | 0 <= r < 6 :: p.stock[r] == w.stock[r] - cost[r])
            && p.pend == w.pend + [Job(w.frame + dur, item)] && p.on == Seat(g, p)
            && p.own == (if item.Tech? then w.own else w.own[item := Owned(w, item) + 1])
            && p.techs == (if item.Tech? then w.techs + {item.name} else w.techs)
            && p.builders == (if ServerOf(item) == Crew then Min(g.a.maxBuilders, Max(0, Built(w, Citizen) - 1)) else w.builders)
            && p.tFree == (if ServerOf(item) == Trainer then w.frame + dur else w.tFree)
            && p.bFree == (if ServerOf(item) == Crew then w.frame + dur else w.bFree)
            && p.lFree == (if ServerOf(item) == Server.Research then w.frame + dur else w.lFree)
            && p == w.(stock := p.stock, pend := p.pend, on := p.on, own := p.own, techs := p.techs, builders := p.builders,
                       tFree := p.tFree, bFree := p.bFree, lFree := p.lFree, log := p.log)
  {
    hide Seat, Rules.Ok, CountJobs;
    var p := Place(g, w, item, cost, dur);
    SeatIgnores(g, p.(on := w.on), p);
  }

  lemma TwinPlace(g: Rules, w: World, v: World, item: Item, cost: Vec, dur: int)
    requires g.Ok() && Twins(w, v)
    ensures Twins(Place(g, w, item, cost, dur), Place(g, v, item, cost, dur))
  {
    hide Seat, Rules.Ok, Place, Built;
    TwinBuilt(w, v);
    var (p, q, job) := (Place(g, w, item, cost, dur), Place(g, v, item, cost, dur), Job(w.frame + dur, item));
    PlaceIs(g, w, item, cost, dur);
    PlaceIs(g, v, item, cost, dur);
    assert p.stock == q.stock;
    assert multiset(w.pend + [job]) == multiset(w.pend) + multiset{job};
    assert multiset(v.pend + [job]) == multiset(v.pend) + multiset{job};
    SeatSame(g, p, q);
  }

  lemma TwinReads(g: Rules, w: World, v: World, item: Item)
    requires g.Ok() && Twins(w, v) && Known(g, item)
    ensures w.frame == v.frame && FreeAt(w, ServerOf(item)) == FreeAt(v, ServerOf(item))
    ensures ActionCost(g, w, item) == ActionCost(g, v, item) && ActionTime(g, w, item) == ActionTime(g, v, item)
  {
    hide CostOf;
    assert Owned(w, item) == Owned(v, item) && Owned(w, Citizen) == Owned(v, Citizen);
  }

  lemma TwinLegal(g: Rules, w: World, v: World, item: Item)
    requires g.Ok() && Twins(w, v) && Known(g, item)
    ensures Legal(g, w, item) == Legal(g, v, item) && Horizon(w) == Horizon(v) && w.stock == v.stock
  {
    hide Preqs, CountJobs, LastDone, Rules.Ok;
    CountSame(w.pend, v.pend);
    LastDoneSame(w.pend, v.pend, Max(Max(w.frame, w.tFree), Max(w.bFree, w.lFree)));
    assert Owned(w, item) == Owned(v, item) && Owned(w, SmallCity) == Owned(v, SmallCity);
  }

  lemma TwinAtServer(g: Rules, w: World, v: World, item: Item)
    requires g.Ok() && Twins(w, v) && Known(g, item)
    ensures Twins(AtServer(g, w, item), AtServer(g, v, item))
  {
    hide Advance, Twins, Clone, Rules.Ok, Seat, ActionCost, ActionTime;
    TwinSeat(g, w, v);
    var (a, b) := (Clone(g, w), Clone(g, v));
    TwinReads(g, a, b, item);
    TwinAdvance(g, a, b, Max(a.frame, FreeAt(a, ServerOf(item))) - a.frame);
  }

  lemma ApplyIs(g: Rules, w: World, item: Item)
    requires g.Ok() && Known(g, item)
    ensures var c := AtServer(g, w, item);
            var n := WaitFrom(g, c, ActionCost(g, c, item), 0, WAIT_LIMIT);
            var dur := ActionTime(g, w, item);
            && (n.None? ==> Apply(g, w, item) == None)
            && (n.Some? ==> Apply(g, w, item) == Some(Place(g, Advance(g, c, n.value), item, ActionCost(g, c, item), dur)))
  {
    hide Advance, Place, WaitFrom, ActionCost, ActionTime, AtServer, Rules.Ok;
  }

  /** Buying goes the same whatever the log and in whatever order jobs were queued. */
  lemma TwinApply(g: Rules, w: World, v: World, item: Item)
    requires g.Ok() && Twins(w, v) && Known(g, item)
    ensures Legal(g, w, item) == Legal(g, v, item) && Horizon(w) == Horizon(v) && w.stock == v.stock
    ensures Apply(g, w, item).Some? == Apply(g, v, item).Some?
    ensures Apply(g, w, item).Some? ==> Twins(Apply(g, w, item).value, Apply(g, v, item).value)
  {
    TwinLegal(g, w, v, item);
    hide Advance, Place, Twins, Legal, Horizon, WaitFrom, ActionCost, ActionTime, AtServer, Rules.Ok, Apply;
    ApplyIs(g, w, item);
    ApplyIs(g, v, item);
    var (c, d) := (AtServer(g, w, item), AtServer(g, v, item));
    TwinAtServer(g, w, v, item);
    TwinReads(g, w, v, item);
    TwinReads(g, c, d, item);
    TwinWait(g, c, d, ActionCost(g, c, item), 0, WAIT_LIMIT);
    var n := WaitFrom(g, c, ActionCost(g, c, item), 0, WAIT_LIMIT);
    if n.Some? {
      TwinAdvance(g, c, d, n.value);
      TwinPlace(g, Advance(g, c, n.value), Advance(g, d, n.value), item, ActionCost(g, c, item), ActionTime(g, w, item));
    }
  }
}
