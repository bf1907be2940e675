/**
 What draining completions keeps, and when the payment at the end of `step` is covered.
 */
module PlanSafety {
  import opened Arith
  import opened Accumulator
  import opened Costs
  import opened PlanModel

  // ---- the queue ----

  lemma InsertKeeps(c: Completion, cs: seq<Completion>, k: Kind)
    ensures Queued(Insert(c, cs), k) == Queued([c] + cs, k)
    ensures forall d :: d in Insert(c, cs) <==> d == c || d in cs
  {
    if cs != [] && !Before(c, cs[0]) {
      InsertKeeps(c, cs[1..], k);
      assert Insert(c, cs)[1..] == Insert(c, cs[1..]);
      assert cs == [cs[0]] + cs[1..];
      assert ([c] + cs)[1..] == cs && ([c] + cs[1..])[1..] == cs[1..];
    }
  }

  lemma QueuedAppend(cs: seq<Completion>, c: Completion, k: Kind)
    ensures Queued(cs + [c], k) == Queued(cs, k) + (if Counts(c.effect, k) then 1 else 0)
  {
    if cs != [] {
      assert (cs + [c])[1..] == cs[1..] + [c];
    }
  }

  /** Sorting the queue neither loses nor invents a completion. */
  lemma {:induction false} SortKeeps(cs: seq<Completion>, k: Kind)
    ensures Queued(Sort(cs), k) == Queued(cs, k)
    ensures forall d :: d in Sort(cs) <==> d in cs
    decreases |cs|
  {
    if cs != [] {
      var init, c := cs[..|cs| - 1], cs[|cs| - 1];
      assert cs == init + [c];
      SortKeeps(init, k);
      InsertKeeps(c, Sort(init), k);
      QueuedAppend(init, c, k);
      assert ([c] + Sort(init))[1..] == Sort(init);
    }
  }

  ghost predicate InOrder(cs: seq<Completion>) {
    forall i, j | 0 <= i < j < |cs| :: cs[i].frame <= cs[j].frame
  }

  lemma InsertOrder(c: Completion, cs: seq<Completion>)
    requires InOrder(cs)
    ensures InOrder(Insert(c, cs))
  {
    if cs != [] && !Before(c, cs[0]) {
      var rest := Insert(c, cs[1..]);
      InsertOrder(c, cs[1..]);
      InsertKeeps(c, cs[1..], Citizen);
      forall j | 0 <= j < |rest| ensures cs[0].frame <= rest[j].frame {
        assert rest[j] in rest;
      }
    }
  }

  lemma {:induction false} SortOrder(cs: seq<Completion>)
    ensures InOrder(Sort(cs))
    decreases |cs|
  {
    if cs != [] {
      SortOrder(cs[..|cs| - 1]);
      InsertOrder(cs[|cs| - 1], Sort(cs[..|cs| - 1]));
    }
  }

  // ---- what a completion keeps ----

  lemma LandOwned(t: Tables, s: Econ, e: Effect, k: Kind)
    ensures Owned(Land(t, s, e), k) == Owned(s, k) + (if Counts(e, k) then 1 else 0)
  {
    hide Slots, Trim, Fill;
  }

  /** Levels and techs only grow, and the only new tech is the one learned. */
  ghost predicate Grown(s: Econ, s': Econ) {
    s.techs <= s'.techs && s.mil <= s'.mil && s.civ <= s'.civ && s.com <= s'.com
  }

  lemma LandGrows(t: Tables, s: Econ, e: Effect)
    ensures Grown(s, Land(t, s, e))
    ensures forall n | n in Land(t, s, e).techs :: n in s.techs || e == Learn(n)
    ensures Land(t, s, e).lumbermills == s.lumbermills && Land(t, s, e).smelters == s.smelters
    ensures var l := Land(t, s, e); l.frame == s.frame && l.stock == s.stock && l.acc == s.acc
  {
    hide Slots, Trim, Fill;
  }

  /** Draining moves items from queued to owned and changes no total. */
  lemma {:induction false} DrainSortedKeeps(t: Tables, s: Econ, cs: seq<Completion>, until: int, k: Kind)
    requires t.Ok()
    ensures var (s', rest) := DrainSorted(t, s, cs, until);
            && Owned(s', k) + Queued(rest, k) == Owned(s, k) + Queued(cs, k)
            && Grown(s, s')
            && (forall d | d in rest :: d in cs) && (forall d | d in cs && d.frame > until :: d in rest)
            && (forall n | n in s'.techs :: n in s.techs || exists d :: d in cs && d.effect == Learn(n))
    decreases |cs|
  {
    hide Tables.Ok, Income, Land;
    if cs != [] && cs[0].frame <= until {
      var s1 := ElapseTo(t, s, cs[0].frame);
      var s2 := Land(t, s1, cs[0].effect);
      LandOwned(t, s1, cs[0].effect, k);
      LandGrows(t, s1, cs[0].effect);
      assert cs == [cs[0]] + cs[1..];
      DrainSortedKeeps(t, s2, cs[1..], until, k);
      assert cs[0] in cs;
    }
  }

  /** What a drain leaves is not yet due, in the order in which it will be. */
  lemma {:induction false} DrainSortedRest(t: Tables, s: Econ, cs: seq<Completion>, until: int)
    requires t.Ok() && InOrder(cs)
    ensures var rest := DrainSorted(t, s, cs, until).1;
            InOrder(rest) && forall d | d in rest :: d.frame > until
    decreases |cs|
  {
    hide Tables.Ok, Income, Land, ElapseTo;
    if cs != [] && cs[0].frame <= until {
      DrainSortedRest(t, Land(t, ElapseTo(t, s, cs[0].frame), cs[0].effect), cs[1..], until);
    }
  }

  /** `owned + queued` of every kind survives a drain, levels and techs only grow, the servers
      are untouched, and exactly what is due is gone from the queue, which is in order. */
  lemma DrainKeeps(t: Tables, p: Plan, until: int)
    requires t.Ok()
    ensures var q := Drain(t, p, until);
            && (forall k: Kind :: Holds(q, k) == Holds(p, k))
            && Grown(p.s, q.s)
            && (forall s: Server :: FreeAt(q, s) == FreeAt(p, s))
            && (forall n | n in q.s.techs :: n in p.s.techs || exists d :: d in p.pending && d.effect == Learn(n))
            && (forall d | d in q.pending :: d in p.pending && d.frame > until)
            && (forall d | d in p.pending && d.frame > until :: d in q.pending)
            && InOrder(q.pending)
  {
    hide Tables.Ok, DrainSorted, Sort;
    SortOrder(p.pending);
    DrainSortedRest(t, p.s, Sort(p.pending), until);
    forall k: Kind ensures Holds(Drain(t, p, until), k) == Holds(p, k) {
      SortKeeps(p.pending, k);
      DrainSortedKeeps(t, p.s, Sort(p.pending), until, k);
    }
    SortKeeps(p.pending, Citizen);
    DrainSortedKeeps(t, p.s, Sort(p.pending), until, Citizen);
  }

  ghost predicate NotPending(p: Plan, act: Act) {
    act.Research? ==> forall d | d in p.pending :: d.effect != Learn(act.name)
  }

  /** A legal action stays legal across a drain, at the same price and on the same server. */
  lemma QuoteStays(t: Tables, p: Plan, act: Act, until: int)
    requires t.Ok() && Known(act) && NotPending(p, act) && ActionSpec(t, p, act).Some?
    ensures var q := Drain(t, p, until);
            && ActionSpec(t, q, act).Some? && NotPending(q, act)
            && ActionSpec(t, q, act).value.cost == ActionSpec(t, p, act).value.cost
            && ActionSpec(t, q, act).value.server == ActionSpec(t, p, act).value.server
  {
    hide Drain, CostOf, Holds;
    DrainKeeps(t, p, until);
    var q := Drain(t, p, until);
    assert t.popCap[Min(p.s.mil, 7)] <= t.popCap[Min(q.s.mil, 7)];
  }

  // ---- seating ----

  ghost predicate SeatsOk(t: Tables, s: Econ) {
    forall r | 0 <= r < 6 :: 0 <= s.on[r] <= Slots(t, s)[r]
  }

  /** The crew is off the fields: workers and builders fit the citizens, or nobody works. */
  ghost predicate Normal(t: Tables, s: Econ) {
    && SeatsOk(t, s)
    && (Sum(s.on) + s.builders <= Owned(s, Citizen) || Sum(s.on) == 0)
  }

  ghost predicate Manned(s: Econ) { forall r | 0 <= r < 6 :: s.on[r] >= 0 }

  lemma SlotsNonNegative(t: Tables, s: Econ)
    requires t.Ok()
    ensures forall r | 0 <= r < 6 :: Slots(t, s)[r] >= 0
  {
    MulOrder(0, Owned(s, Farm), t.slotsFarm);
    MulOrder(0, Owned(s, Wood), t.slotsWood);
    MulOrder(0, Owned(s, Mine), t.slotsMine);
  }

  lemma ReseatNormal(t: Tables, s: Econ)
    requires t.Ok() && Manned(s)
    ensures Normal(t, Reseat(t, s))
  {
    hide Slots, Trim, Fill, Tables.Ok;
    SlotsNonNegative(t, s);
    SlotsOthers(t, s);
    var sl := Slots(t, s);
    var on1 := Clip(s.on, sl);
    var on2 := Trim(on1, Sum(on1) + s.builders - Owned(s, Citizen));
    var on3 := Fill(sl, on2, Owned(s, Citizen) - Sum(on2) - s.builders);
    TrimOk(sl, on1, Sum(on1) + s.builders - Owned(s, Citizen));
    FillOk(sl, on2, Owned(s, Citizen) - Sum(on2) - s.builders);
    SlotsSame(t, s, Reseat(t, s));
  }

  lemma SlotsSame(t: Tables, s: Econ, s': Econ)
    requires s'.own == s.own
    ensures Slots(t, s') == Slots(t, s)
  {
  }

  lemma TrimOk(sl: Vec, on: Vec, excess: int)
    requires forall r | 0 <= r < 6 :: 0 <= on[r] <= sl[r]
    requires on[WEALTH] == on[KNOWLEDGE] == on[OIL] == 0
    ensures var out := Trim(on, excess);
            && (forall r | 0 <= r < 6 :: 0 <= out[r] <= sl[r])
            && (excess <= 0 ==> out == on)
            && (excess > 0 ==> Sum(out) == Sum(on) - excess || Sum(out) == 0)
            && (Sum(on) == 0 ==> out == on)
  {
  }

  lemma FillOk(sl: Vec, on: Vec, room: int)
    requires forall r | 0 <= r < 6 :: 0 <= on[r] <= sl[r]
    ensures var out := Fill(sl, on, room);
            && (forall r | 0 <= r < 6 :: on[r] <= out[r] <= sl[r])
            && Sum(out) <= Sum(on) + Max(0, room)
            && (room <= 0 ==> out == on)
  {
  }

  /** In a normal state nobody loses a seat. */
  lemma ReseatRaises(t: Tables, s: Econ)
    requires t.Ok() && Normal(t, s)
    ensures forall r | 0 <= r < 6 :: Reseat(t, s).on[r] >= s.on[r]
  {
    hide Slots, Trim, Fill;
    var sl := Slots(t, s);
    assert Clip(s.on, sl) == s.on;
    assert sl[WEALTH] == sl[KNOWLEDGE] == sl[OIL] == 0 by { SlotsOthers(t, s); }
    TrimOk(sl, s.on, Sum(s.on) + s.builders - Owned(s, Citizen));
    FillOk(sl, s.on, Owned(s, Citizen) - Sum(s.on) - s.builders);
  }

  lemma SlotsOthers(t: Tables, s: Econ)
    ensures Slots(t, s)[WEALTH] == Slots(t, s)[KNOWLEDGE] == Slots(t, s)[OIL] == 0
  {
  }

  lemma SettleNormal(t: Tables, s: Econ, e: Effect)
    requires t.Ok() && Normal(t, s) && (e.Release? ==> e.n >= 0)
    ensures Normal(t, Settle(t, s, e))
    ensures forall r | 0 <= r < 6 :: Settle(t, s, e).on[r] >= s.on[r]
  {
    hide Slots;
    var s' := Settle(t, s, e);
    SlotsGrow(t, s, s');
    if e.Arrive? { SlotsSame(t, Bump(s, Citizen), s'); }
  }

  lemma SlotsGrow(t: Tables, s: Econ, s': Econ)
    requires t.Ok() && forall k: Kind :: Owned(s', k) >= Owned(s, k)
    ensures forall r | 0 <= r < 6 :: Slots(t, s')[r] >= Slots(t, s)[r]
  {
    MulOrder(Owned(s, Farm), Owned(s', Farm), t.slotsFarm);
    MulOrder(Owned(s, Wood), Owned(s', Wood), t.slotsWood);
    MulOrder(Owned(s, Mine), Owned(s', Mine), t.slotsMine);
  }

  // ---- income ----

  lemma WorkedGrows(t: Tables, s: Econ, s': Econ, r: int)
    requires t.Ok() && 0 <= r < 6 && 0 <= s.on[r] <= s'.on[r]
    requires 0 <= Bonus(t, s, r) <= Bonus(t, s', r)
    ensures 0 <= Worked(t, s, r) <= Worked(t, s', r)
  {
    hide Bonus;
    var rate := if r == OIL then t.oilRate else t.peasantRate;
    var b, b' := 100 + Bonus(t, s, r), 100 + Bonus(t, s', r);
    MulOrder(16 * s.on[r], 16 * s'.on[r], rate);
    MulOrder(0, 16 * s.on[r], rate);
    DivMonotone(16 * s.on[r] * rate, 16 * s'.on[r] * rate, 256);
    DivMonotone(0, 16 * s.on[r] * rate, 256);
    var v, v' := 16 * s.on[r] * rate / 256, 16 * s'.on[r] * rate / 256;
    MulOrder(v, v', b);
    MulOrder(b, b', v');
    assert v' * b == b * v' && v' * b' == b' * v';
    DivMonotone(v * b, v' * b', 100);
  }

  lemma IncomeGrows(t: Tables, s: Econ, s': Econ, r: int)
    requires t.Ok() && 0 <= r < 6 && 0 <= s.on[r] <= s'.on[r]
    requires s.com <= s'.com && s'.lumbermills == s.lumbermills && s'.smelters == s.smelters
    requires forall k: Kind :: Owned(s', k) >= Owned(s, k)
    ensures 0 <= Income(t, s, r) <= Income(t, s', r)
  {
    hide Worked;
    WorkedGrows(t, s, s', r);
    MulOrder(Owned(s, City), Owned(s', City), t.cityGather[r] * 16);
    MulOrder(0, Owned(s, City), t.cityGather[r] * 16);
    MulOrder(Owned(s, Market), Owned(s', Market), t.marketTaxes * 16);
    MulOrder(0, Owned(s, Market), t.marketTaxes * 16);
    MulOrder(Owned(s, University), Owned(s', University), t.universityLiteracy * 16);
    MulOrder(0, Owned(s, University), t.universityLiteracy * 16);
    CapGrows(t, s.com, s'.com);
    GrossGrows(t, s, s', r);
  }

  lemma GrossGrows(t: Tables, s: Econ, s': Econ, r: int)
    requires t.Ok() && 0 <= r < 6
    requires 0 <= Worked(t, s, r) <= Worked(t, s', r)
    requires 0 <= Owned(s, City) * (t.cityGather[r] * 16) <= Owned(s', City) * (t.cityGather[r] * 16)
    requires 0 <= Owned(s, Market) * (t.marketTaxes * 16) <= Owned(s', Market) * (t.marketTaxes * 16)
    requires 0 <= Owned(s, University) * (t.universityLiteracy * 16) <= Owned(s', University) * (t.universityLiteracy * 16)
    ensures 0 <= Gross(t, s, r) <= Gross(t, s', r)
  {
    hide Worked;
  }

  lemma CapGrows(t: Tables, a: nat, b: nat)
    requires t.Ok() && a <= b
    ensures 0 <= t.commerceCap[Min(a, 7)] * t.capScale <= t.commerceCap[Min(b, 7)] * t.capScale
  {
    MulOrder(t.commerceCap[Min(a, 7)], t.commerceCap[Min(b, 7)], t.capScale);
    MulOrder(0, t.commerceCap[Min(a, 7)], t.capScale);
  }

  /** Income never falls across a completion, provided the crew is off the fields. */
  lemma LandRaisesIncome(t: Tables, s: Econ, e: Effect, r: int)
    requires t.Ok() && 0 <= r < 6 && Normal(t, s) && (e.Release? ==> e.n >= 0)
    ensures Normal(t, Land(t, s, e))
    ensures 0 <= Income(t, s, r) <= Income(t, Land(t, s, e), r)
  {
    hide Income, Tables.Ok, Slots;
    SettleNormal(t, s, e);
    ReseatRaises(t, Settle(t, s, e));
    ReseatNormal(t, Settle(t, s, e));
    LandGrows(t, s, e);
    forall k: Kind ensures Owned(Land(t, s, e), k) >= Owned(s, k) { LandOwned(t, s, e, k); }
    IncomeGrows(t, s, Land(t, s, e), r);
  }

  // ---- coverage ----

  ghost predicate AccOk(t: Tables, s: Econ) {
    forall r | 0 <= r < 6 :: 0 <= s.acc[r] < t.Period()
  }

  /** `k` frames at the present income are enough for `cost`. */
  ghost predicate CoversIn(t: Tables, s: Econ, cost: Vec, k: nat)
    requires t.Ok()
  {
    forall r | 0 <= r < 6 :: Accrue(t.Period(), Income(t, s, r), k, s.stock[r], s.acc[r]).0 >= cost[r]
  }

  lemma {:induction false} LongestWaitEnough(t: Tables, s: Econ, cost: Vec, n: nat, r: nat)
    requires t.Ok() && n <= 6 && r < n && LongestWait(t, s, cost, n).Some?
    requires s.stock[r] < cost[r]
    ensures Income(t, s, r) > 0
    ensures FramesFor(t.Period(), Income(t, s, r), cost[r] - s.stock[r], s.acc[r]) <= LongestWait(t, s, cost, n).value
    decreases n
  {
    hide Income, FramesFor, Tables.Ok;
    if r < n - 1 { LongestWaitEnough(t, s, cost, n - 1, r); }
  }

  /** The wait the solver returns is enough at the present income. */
  lemma WaitEnough(t: Tables, s: Econ, cost: Vec)
    requires t.Ok() && AccOk(t, s) && WaitFor(t, s, cost).Some?
    ensures CoversIn(t, s, cost, WaitFor(t, s, cost).value)
  {
    hide Income, FramesFor, LongestWait;
    var w := WaitFor(t, s, cost).value;
    forall r | 0 <= r < 6
      ensures Accrue(t.Period(), Income(t, s, r), w, s.stock[r], s.acc[r]).0 >= cost[r]
    {
      var inc := Income(t, s, r);
      if s.stock[r] < cost[r] {
        LongestWaitEnough(t, s, cost, 6, r);
        AccrueReaches(t.Period(), inc, w, s.stock[r], s.acc[r], cost[r]);
      } else if inc > 0 {
        MulOrder(0, inc, w);
        assert inc * w == w * inc && 0 * w == 0;
        DivMonotone(0, inc * w + s.acc[r], t.Period());
      }
    }
  }

  /** The solver has no answer only when something is still short. */
  lemma {:induction false} LongestWaitShort(t: Tables, s: Econ, cost: Vec, n: nat)
    requires t.Ok() && n <= 6
    requires forall r | 0 <= r < n :: s.stock[r] >= cost[r]
    ensures LongestWait(t, s, cost, n) == Some(0)
  {
    hide Income;
    if n > 0 { LongestWaitShort(t, s, cost, n - 1); }
  }

  lemma ElapseAcc(t: Tables, s: Econ, n: int)
    requires t.Ok() && AccOk(t, s)
    ensures AccOk(t, Elapse(t, s, n))
  {
    hide Income;
  }

  /** Running the clock uses up exactly that much of the wait. */
  lemma ElapseCovers(t: Tables, s: Econ, cost: Vec, d: nat, k: nat)
    requires t.Ok() && d <= k && CoversIn(t, s, cost, k)
    ensures CoversIn(t, Elapse(t, s, d), cost, k - d)
  {
    hide Accrue;
    if d > 0 {
      forall r | 0 <= r < 6
        ensures Accrue(t.Period(), Income(t, Elapse(t, s, d), r), k - d,
                       Elapse(t, s, d).stock[r], Elapse(t, s, d).acc[r]).0 >= cost[r]
      {
        IncomeIgnores(t, s, Elapse(t, s, d), r);
        AccrueSplit(t.Period(), Income(t, s, r), d, k - d, s.stock[r], s.acc[r]);
      }
    }
  }

  lemma IncomeIgnores(t: Tables, s: Econ, s': Econ, r: int)
    requires t.Ok() && 0 <= r < 6
    requires s'.own == s.own && s'.on == s.on && s'.com == s.com
    requires s'.lumbermills == s.lumbermills && s'.smelters == s.smelters
    ensures Income(t, s', r) == Income(t, s, r)
  {
  }

  lemma LandCovers(t: Tables, s: Econ, e: Effect, cost: Vec, k: nat)
    requires t.Ok() && Normal(t, s) && AccOk(t, s) && (e.Release? ==> e.n >= 0)
    requires CoversIn(t, s, cost, k)
    ensures Normal(t, Land(t, s, e)) && AccOk(t, Land(t, s, e)) && CoversIn(t, Land(t, s, e), cost, k)
  {
    hide Income, Accrue, Normal, Land;
    LandGrows(t, s, e);
    LandRaisesIncome(t, s, e, 0);
    forall r | 0 <= r < 6
      ensures Accrue(t.Period(), Income(t, Land(t, s, e), r), k, s.stock[r], s.acc[r]).0 >= cost[r]
    {
      LandRaisesIncome(t, s, e, r);
      AccrueMonotone(t.Period(), Income(t, s, r), Income(t, Land(t, s, e), r), k, s.stock[r], s.acc[r]);
    }
  }

  ghost predicate ReleasesOk(cs: seq<Completion>) {
    forall d | d in cs :: d.effect.Release? ==> d.effect.n >= 0
  }

  lemma ElapseNormal(t: Tables, s: Econ, n: int)
    requires t.Ok()
    ensures Normal(t, Elapse(t, s, n)) == Normal(t, s)
  {
    hide Income;
    SlotsSame(t, s, Elapse(t, s, n));
  }

  /** From a normal state, a wait that is enough at the present income is enough with
      completions on the way. */
  lemma {:induction false} DrainCovers(t: Tables, s: Econ, cs: seq<Completion>, until: int, cost: Vec)
    requires t.Ok() && Normal(t, s) && AccOk(t, s) && ReleasesOk(cs) && until >= s.frame
    requires CoversIn(t, s, cost, until - s.frame)
    ensures Affords(DrainSorted(t, s, cs, until).0, cost)
    ensures Normal(t, DrainSorted(t, s, cs, until).0) && AccOk(t, DrainSorted(t, s, cs, until).0)
    decreases |cs|
  {
    hide Income, Accrue, Normal, Land, AccOk, Tables.Ok, CoversIn;
    if cs == [] || cs[0].frame > until {
      ElapseCovers(t, s, cost, until - s.frame, until - s.frame);
      ElapseNormal(t, s, until - s.frame);
      ElapseAcc(t, s, until - s.frame);
      CoversNow(t, Elapse(t, s, until - s.frame), cost);
    } else {
      var d := Max(0, cs[0].frame - s.frame);
      var s1 := ElapseTo(t, s, cs[0].frame);
      assert s1 == Elapse(t, s, d) && s1.frame == s.frame + d;
      ElapseCovers(t, s, cost, d, until - s.frame);
      ElapseNormal(t, s, d);
      ElapseAcc(t, s, d);
      assert cs[0] in cs;
      LandGrows(t, s1, cs[0].effect);
      LandCovers(t, s1, cs[0].effect, cost, until - s1.frame);
      DrainCovers(t, Land(t, s1, cs[0].effect), cs[1..], until, cost);
    }
  }

  lemma CoversNow(t: Tables, s: Econ, cost: Vec)
    requires t.Ok() && AccOk(t, s) && CoversIn(t, s, cost, 0)
    ensures Affords(s, cost)
  {
    hide Income;
    forall r | 0 <= r < 6 ensures s.stock[r] >= cost[r] {
      DivModUnique(s.acc[r], t.Period(), 0, s.acc[r]);
      assert Income(t, s, r) * 0 == 0;
    }
  }

  ghost predicate Due(cs: seq<Completion>, until: int) {
    cs != [] && cs[0].frame <= until
  }

  /** One completion is enough to bring the crew off the fields. */
  lemma {:induction false} DrainNormalises(t: Tables, s: Econ, cs: seq<Completion>, until: int)
    requires t.Ok() && Manned(s) && AccOk(t, s) && ReleasesOk(cs)
    requires Due(cs, until) || Normal(t, s)
    ensures Normal(t, DrainSorted(t, s, cs, until).0)
    ensures AccOk(t, DrainSorted(t, s, cs, until).0)
    decreases |cs|
  {
    hide Income, Normal, Land, AccOk, Tables.Ok;
    if !Due(cs, until) {
      ElapseNormal(t, s, until - s.frame);
      ElapseAcc(t, s, until - s.frame);
    } else {
      var s1 := ElapseTo(t, s, cs[0].frame);
      var s2 := Land(t, s1, cs[0].effect);
      ElapseAcc(t, s, cs[0].frame - s.frame);
      LandNormal(t, s1, cs[0].effect);
      DrainNormalises(t, s2, cs[1..], until);
    }
  }

  lemma LandNormal(t: Tables, s: Econ, e: Effect)
    requires t.Ok() && Manned(s) && AccOk(t, s)
    ensures Normal(t, Land(t, s, e)) && Manned(Land(t, s, e)) && AccOk(t, Land(t, s, e))
  {
    hide Tables.Ok, Slots, Reseat;
    ReseatNormal(t, Settle(t, s, e));
    assert Land(t, s, e).acc == s.acc by { LandGrows(t, s, e); }
  }
}
