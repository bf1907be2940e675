/** Whole plans: what every action keeps, and when nothing is ever overdrawn. */
module PlanRuns {
  import opened Costs
  import opened PlanModel
  import opened PlanSafety
  import opened PlanStep

  // ---- one action ----

  lemma QuoteCrew(t: Tables, p: Plan, act: Act)
    requires t.Ok() && Known(act) && ActionSpec(t, p, act).Some?
    ensures ActionSpec(t, p, act).value.crew >= 0
  {
    hide Tables.Ok, CostOf, BuildAllowed, Holds;
  }

  lemma PaymentOk(t: Tables, p: Plan, act: Act, horizon: int)
    requires t.Ok() && Known(act) && PlanOk(t, p) && AtPayment(t, p, act, horizon).Some?
    ensures var (q, spec) := AtPayment(t, p, act, horizon).value; PlanOk(t, q) && spec.crew >= 0
  {
    hide Tables.Ok, Drain, WaitFor, ActionSpec, PlanOk, Priced, AtServer;
    var (q0, spec) := Priced(t, p, act).value;
    PricedOk(t, p, act);
    QuoteCrew(t, q0, act);
    var q := AtServer(t, q0, spec);
    if WaitFor(t, q.s, spec.cost) != Some(0) {
      var q1 := Drain(t, q, q.s.frame + WaitFor(t, q.s, spec.cost).value);
      DrainOk(t, q, q.s.frame + WaitFor(t, q.s, spec.cost).value);
      QuoteCrew(t, q1, act);
      var again := WaitFor(t, q1.s, ActionSpec(t, q1, act).value.cost);
      if again.Some? { DrainOk(t, q1, q1.s.frame + again.value); }
    }
  }

  lemma EnqueueOk(t: Tables, q: Plan, spec: Quote, act: Act)
    requires t.Ok() && PlanOk(t, q) && spec.crew >= 0
    ensures PlanOk(t, Enqueue(t, q, spec, act)) && Enqueue(t, q, spec, act).s.stock == Pay(q.s, spec.cost).stock
  {
    hide Tables.Ok, Slots, Trim, Fill, Reseat;
    var s := Pay(q.s, spec.cost);
    if spec.server == Crew {
      ReseatNormal(t, s.(builders := s.builders + spec.crew));
      ReseatKeeps(t, s.(builders := s.builders + spec.crew));
    }
    var (es, p) := (Effects(act, spec.crew), Enqueue(t, q, spec, act));
    forall d | d in p.pending && d.effect.Release? ensures d.effect.n >= 0 {
      if d !in q.pending { assert d.effect in es; }
    }
  }

  lemma ReseatKeeps(t: Tables, s: Econ)
    ensures Reseat(t, s) == s.(on := Reseat(t, s).on)
  {
    hide Slots, Trim, Fill;
  }

  /** Every action leads from a sound plan to a sound plan. */
  lemma StepOk(t: Tables, p: Plan, act: Act, horizon: int)
    requires t.Ok() && Known(act) && PlanOk(t, p) && Step(t, p, act, horizon).Some?
    ensures PlanOk(t, Step(t, p, act, horizon).value)
  {
    hide Tables.Ok, AtPayment, PlanOk, Enqueue;
    var (q, spec) := AtPayment(t, p, act, horizon).value;
    PaymentOk(t, p, act, horizon);
    EnqueueOk(t, q, spec, act);
  }

  // ---- runs ----

  /** The actions one after the other; none is a plan cut short by a refusal. */
  function RunPlan(t: Tables, p: Plan, acts: seq<Act>, horizon: int): Option<Plan>
    requires t.Ok() && forall a | a in acts :: Known(a)
    decreases |acts|
  {
    if acts == [] then Some(p)
    else match Step(t, p, acts[0], horizon)
      case None => None
      case Some(q) => RunPlan(t, q, acts[1..], horizon)
  }

  /** Every payment of the run has the money. */
  ghost predicate AllCovered(t: Tables, p: Plan, acts: seq<Act>, horizon: int)
    requires t.Ok() && forall a | a in acts :: Known(a)
    decreases |acts|
  {
    acts == [] || match AtPayment(t, p, acts[0], horizon)
      case None => true
      case Some((q, spec)) => Affords(q.s, spec.cost) && AllCovered(t, Enqueue(t, q, spec, acts[0]), acts[1..], horizon)
  }

  /** No payment of the run follows a second wait without an answer. */
  ghost predicate NeverGivesUp(t: Tables, p: Plan, acts: seq<Act>, horizon: int)
    requires t.Ok() && forall a | a in acts :: Known(a)
    decreases |acts|
  {
    acts == [] || match Step(t, p, acts[0], horizon)
      case None => true
      case Some(q) => !GivesUp(t, p, acts[0]) && NeverGivesUp(t, q, acts[1..], horizon)
  }

  /** From a sound plan, the payments of a run are all covered exactly when no second wait
      stays without an answer. */
  lemma {:induction false} RunCovered(t: Tables, p: Plan, acts: seq<Act>, horizon: int)
    requires t.Ok() && PlanOk(t, p) && forall a | a in acts :: Known(a)
    ensures AllCovered(t, p, acts, horizon) <==> NeverGivesUp(t, p, acts, horizon)
    decreases |acts|
  {
    hide Tables.Ok, AtPayment, Enqueue, GivesUp, PlanOk, Affords;
    if acts != [] && AtPayment(t, p, acts[0], horizon).Some? {
      PaymentCovered(t, p, acts[0], horizon);
      StepOk(t, p, acts[0], horizon);
      RunCovered(t, Step(t, p, acts[0], horizon).value, acts[1..], horizon);
    }
  }

  /** Then a plan that starts out of debt stays out of debt, and sound. */
  lemma {:induction false} RunSolvent(t: Tables, p: Plan, acts: seq<Act>, horizon: int)
    requires t.Ok() && PlanOk(t, p) && forall a | a in acts :: Known(a)
    requires RunPlan(t, p, acts, horizon).Some?
    ensures var q := RunPlan(t, p, acts, horizon).value;
            && PlanOk(t, q)
            && (NeverGivesUp(t, p, acts, horizon) && (forall r | 0 <= r < 6 :: p.s.stock[r] >= 0) ==>
                  forall r | 0 <= r < 6 :: q.s.stock[r] >= 0)
    decreases |acts|
  {
    hide Tables.Ok, AtPayment, Enqueue, GivesUp, PlanOk;
    if acts != [] {
      var (q, spec) := AtPayment(t, p, acts[0], horizon).value;
      var next := Step(t, p, acts[0], horizon).value;
      PaymentCovered(t, p, acts[0], horizon);
      PaymentOk(t, p, acts[0], horizon);
      EnqueueOk(t, q, spec, acts[0]);
      RunSolvent(t, next, acts[1..], horizon);
    }
  }
}
