/** When the payment at the end of `step` is covered: exactly, with a case where it is not. */
module PlanStep {
  import opened Arith
  import opened Costs
  import opened PlanModel
  import opened PlanSafety

  ghost predicate PlanOk(t: Tables, p: Plan) {
    Manned(p.s) && AccOk(t, p.s) && ReleasesOk(p.pending)
  }

  lemma CloneOk(t: Tables, p: Plan)
    requires t.Ok() && PlanOk(t, p)
    ensures PlanOk(t, ClonePlan(t, p))
    ensures Normal(t, p.s) && p.s.builders == 0 ==> Normal(t, Clone(t, p.s))
  {
    hide Slots;
    SlotsSame(t, p.s, Clone(t, p.s));
    if Normal(t, p.s) { FillOk(Slots(t, p.s), p.s.on, Owned(p.s, Citizen) - Sum(p.s.on)); }
  }

  lemma ReleasesSorted(cs: seq<Completion>)
    ensures ReleasesOk(Sort(cs)) == ReleasesOk(cs)
  {
    SortKeeps(cs, Citizen);
  }

  lemma DrainOk(t: Tables, p: Plan, until: int)
    requires t.Ok() && PlanOk(t, p)
    ensures PlanOk(t, Drain(t, p, until))
    ensures Due(Sort(p.pending), until) || Normal(t, p.s) ==> Normal(t, Drain(t, p, until).s)
  {
    hide Tables.Ok, Sort, Slots, Income, Land;
    ReleasesSorted(p.pending);
    DrainKeeps(t, p, until);
    if Due(Sort(p.pending), until) || Normal(t, p.s) {
      DrainNormalises(t, p.s, Sort(p.pending), until);
    } else {
      ElapseAcc(t, p.s, until - p.s.frame);
    }
  }

  /** Two quotes for the same action at the same owned + queued counts agree. */
  lemma SameQuote(t: Tables, p: Plan, q: Plan, act: Act)
    requires t.Ok() && Known(act) && ActionSpec(t, p, act).Some? && ActionSpec(t, q, act).Some?
    requires forall k: Kind :: Holds(q, k) == Holds(p, k)
    ensures ActionSpec(t, q, act).value.cost == ActionSpec(t, p, act).value.cost
  {
    hide Tables.Ok, CostOf, Holds;
  }

  /** The wait was followed by a second look that found no answer. */
  predicate GivesUp(t: Tables, p: Plan, act: Act)
    requires t.Ok() && Known(act)
  {
    match Priced(t, p, act)
    case None => false
    case Some((q, spec)) =>
      match Wait(t, AtServer(t, q, spec), spec, act)
      case Recheck(q1, spec1) => WaitFor(t, q1.s, spec1.cost).None?
      case _ => false
  }

  lemma PricedOk(t: Tables, p: Plan, act: Act)
    requires t.Ok() && Known(act) && PlanOk(t, p) && Priced(t, p, act).Some?
    ensures var (q, spec) := Priced(t, p, act).value;
            && PlanOk(t, q) && PlanOk(t, AtServer(t, q, spec))
            && ActionSpec(t, q, act) == Some(spec)
            && (forall k: Kind :: Holds(AtServer(t, q, spec), k) == Holds(q, k))
            && (Normal(t, Clone(t, p.s)) ==> Normal(t, AtServer(t, q, spec).s))
  {
    hide Tables.Ok, Drain, ActionSpec, Clone, PlanOk, Normal, LastFrame;
    var q0 := ClonePlan(t, p);
    CloneOk(t, p);
    if q0.pending != [] { DrainOk(t, q0, LastFrame(q0.pending[1..], q0.pending[0].frame)); }
    var (q, spec) := Priced(t, p, act).value;
    DrainOk(t, q, Max(q.s.frame, FreeAt(q, spec.server)));
    DrainKeeps(t, q, Max(q.s.frame, FreeAt(q, spec.server)));
  }

  lemma AffordsWait(t: Tables, s: Econ, cost: Vec)
    requires t.Ok()
    ensures Affords(s, cost) ==> WaitFor(t, s, cost) == Some(0)
    ensures AccOk(t, s) && WaitFor(t, s, cost) == Some(0) ==> Affords(s, cost)
  {
    hide Income, Tables.Ok, LongestWait, CoversIn;
    if Affords(s, cost) { LongestWaitShort(t, s, cost, 6); }
    if AccOk(t, s) && WaitFor(t, s, cost) == Some(0) {
      WaitEnough(t, s, cost);
      CoversNow(t, s, cost);
    }
  }

  /** After the first wait either the cost is covered or a completion brought the crew off
      the fields; in the second case the next wait, if there is one, is enough. */
  lemma FirstWait(t: Tables, q: Plan, cost: Vec, w: nat)
    requires t.Ok() && PlanOk(t, q) && WaitFor(t, q.s, cost) == Some(w)
    ensures var q1 := Drain(t, q, q.s.frame + w);
            PlanOk(t, q1) && (Affords(q1.s, cost) || Normal(t, q1.s))
    ensures Normal(t, q.s) ==> Affords(Drain(t, q, q.s.frame + w).s, cost)
  {
    hide Tables.Ok, Sort, Income, CoversIn, Land, Normal, WaitFor, AccOk;
    var until := q.s.frame + w;
    DrainOk(t, q, until);
    WaitEnough(t, q.s, cost);
    if Normal(t, q.s) {
      ReleasesSorted(q.pending);
      DrainCovers(t, q.s, Sort(q.pending), until, cost);
    } else if !Due(Sort(q.pending), until) {
      ElapseCovers(t, q.s, cost, w, w);
      ElapseAcc(t, q.s, w);
      CoversNow(t, Elapse(t, q.s, w), cost);
    }
  }

  lemma NextWait(t: Tables, q: Plan, spec: Quote)
    requires t.Ok() && PlanOk(t, q) && (Affords(q.s, spec.cost) || Normal(t, q.s))
    ensures Affords(SecondWait(t, q, spec).s, spec.cost) <==> WaitFor(t, q.s, spec.cost).Some?
  {
    hide Tables.Ok, Drain, WaitFor, Normal, AccOk;
    AffordsWait(t, q.s, spec.cost);
    match WaitFor(t, q.s, spec.cost) {
      case None =>
      case Some(w) => if w != 0 { FirstWait(t, q, spec.cost, w); }
    }
  }

  /** `step` pays money it has exactly when its second look does not come back empty. */
  lemma PaymentCovered(t: Tables, p: Plan, act: Act, horizon: int)
    requires t.Ok() && Known(act) && PlanOk(t, p) && AtPayment(t, p, act, horizon).Some?
    ensures var (q, spec) := AtPayment(t, p, act, horizon).value;
            Affords(q.s, spec.cost) <==> !GivesUp(t, p, act)
  {
    hide Tables.Ok, Drain, WaitFor, Normal, AccOk, ActionSpec, PlanOk, Priced, AtServer, SecondWait, Affords;
    var (q0, spec) := Priced(t, p, act).value;
    var q := AtServer(t, q0, spec);
    PricedOk(t, p, act);
    var w := WaitFor(t, q.s, spec.cost).value;
    if w == 0 {
      assert AccOk(t, q.s) by { PlanAcc(t, q); }
      AffordsWait(t, q.s, spec.cost);
    } else {
      var q1 := Drain(t, q, q.s.frame + w);
      DrainKeeps(t, q, q.s.frame + w);
      SameQuote(t, q0, q1, act);
      FirstWait(t, q, spec.cost, w);
      NextWait(t, q1, ActionSpec(t, q1, act).value);
    }
  }

  lemma PlanAcc(t: Tables, q: Plan)
    requires PlanOk(t, q)
    ensures AccOk(t, q.s)
  {
  }

  /** If copying does not put the crew back on the fields, the payment is always covered;
      with no crew out that is every normal state. */
  lemma CoveredWithoutCrew(t: Tables, p: Plan, act: Act, horizon: int)
    requires t.Ok() && Known(act) && PlanOk(t, p) && AtPayment(t, p, act, horizon).Some?
    requires Normal(t, Clone(t, p.s))
    ensures var (q, spec) := AtPayment(t, p, act, horizon).value; Affords(q.s, spec.cost)
  {
    hide Tables.Ok, Drain, WaitFor, Normal, AccOk, ActionSpec, PlanOk, Priced, AtServer, SecondWait, Affords;
    PaymentCovered(t, p, act, horizon);
    if GivesUp(t, p, act) {
      var (q0, spec) := Priced(t, p, act).value;
      var q := AtServer(t, q0, spec);
      PricedOk(t, p, act);
      var w := WaitFor(t, q.s, spec.cost).value;
      var q1 := Drain(t, q, q.s.frame + w);
      DrainKeeps(t, q, q.s.frame + w);
      SameQuote(t, q0, q1, act);
      FirstWait(t, q, spec.cost, w);
      AffordsWait(t, q1.s, spec.cost);
    }
  }

  /** While it waits, `step` sees one price, and a legal action is never refused by the
      second pricing unless it is a tech that was already on its way. */
  lemma OnePrice(t: Tables, p: Plan, act: Act)
    requires t.Ok() && Known(act) && PlanOk(t, p) && Priced(t, p, act).Some?
    ensures var (q, spec) := Priced(t, p, act).value;
            var v := Wait(t, AtServer(t, q, spec), spec, act);
            && (v.Ready? || v.Recheck? ==> v.spec.cost == spec.cost)
            && (NotPending(p, act) && WaitFor(t, AtServer(t, q, spec).s, spec.cost).Some? ==> !v.Refused?)
  {
    hide Tables.Ok, Drain, WaitFor, ActionSpec, PlanOk, Normal;
    PricedOk(t, p, act);
    var (q0, spec) := Priced(t, p, act).value;
    var start := Max(q0.s.frame, FreeAt(q0, spec.server));
    var q := AtServer(t, q0, spec);
    if NotPending(p, act) {
      PricedNotPending(t, p, act);
      QuoteStays(t, q0, act, start);
    }
    if WaitFor(t, q.s, spec.cost).Some? {
      var until := q.s.frame + WaitFor(t, q.s, spec.cost).value;
      DrainKeeps(t, q, until);
      if NotPending(p, act) { QuoteStays(t, q, act, until); }
      if ActionSpec(t, Drain(t, q, until), act).Some? { SameQuote(t, q0, Drain(t, q, until), act); }
    }
  }

  lemma PricedNotPending(t: Tables, p: Plan, act: Act)
    requires t.Ok() && Known(act) && NotPending(p, act) && Priced(t, p, act).Some?
    ensures NotPending(Priced(t, p, act).value.0, act)
  {
    hide Tables.Ok, Drain, ActionSpec, LastFrame;
    var q0 := ClonePlan(t, p);
    if q0.pending != [] { DrainKeeps(t, q0, LastFrame(q0.pending[1..], q0.pending[0].frame)); }
  }
}
