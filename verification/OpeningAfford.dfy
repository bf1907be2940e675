/** When a price is first covered, at a fixed income and across income changes. */
module OpeningAfford {
  import opened Arith
  import opened Accumulator
  import opened Costs
  import opened OpeningRules
  import opened OpeningWorld
  import opened OpeningTime

  /** Stock after a stretch with no completion strictly inside. */
  lemma QuietStock(g: Rules, w: World, m: nat, r: int)
    requires g.Ok() && Settled(w) && 0 <= r < 6 && LeftoverOk(g, w)
    requires Quiet(w, w.frame, w.frame + m)
    ensures Steps(g, w, m).stock[r]
         == Accrue(g.Period(), IncomeOn(g, w, r), m, w.stock[r], w.leftover[r]).0
  {
    hide IncomeOn, Seat;
    if m == 0 {
      DivModUnique(w.leftover[r], g.Period(), 0, w.leftover[r]);
    } else {
      QuietRun(g, w, m);
      FlushKeeps(g, Tick(g, w, m));
    }
  }

  /** What the wait solver computes in one settled state: the longest wait over the short
      resources, or none when a short resource earns nothing. */
  ghost predicate IsWorst(g: Rules, w: World, cost: Vec, worst: Option<nat>)
    requires g.Ok()
  {
    match worst
    case None => exists r :: 0 <= r < 6 && w.stock[r] < cost[r] && IncomeOn(g, w, r) <= 0
    case Some(f) =>
      && (forall r | 0 <= r < 6 && w.stock[r] < cost[r] ::
            IncomeOn(g, w, r) > 0
            && FramesFor(g.Period(), IncomeOn(g, w, r), cost[r] - w.stock[r], w.leftover[r]) <= f)
      && (f > 0 ==>
            exists r ::
              && 0 <= r < 6 && w.stock[r] < cost[r]
              && FramesFor(g.Period(), IncomeOn(g, w, r), cost[r] - w.stock[r], w.leftover[r]) == f)
  }

  /** Until the next completion nothing before `worst` is enough. */
  lemma TooEarly(g: Rules, w: World, cost: Vec, worst: Option<nat>, m: nat)
    requires g.Ok() && Settled(w) && LeftoverOk(g, w) && IsWorst(g, w, cost, worst)
    requires worst.Some? ==> m < worst.value
    requires Quiet(w, w.frame, w.frame + m)
    ensures !Covers(Steps(g, w, m), cost)
  {
    hide IncomeOn, Seat, CeilDiv, Steps;
    var r :| 0 <= r < 6 && w.stock[r] < cost[r]
             && (worst.None? ==> IncomeOn(g, w, r) <= 0)
             && (worst.Some? ==> IncomeOn(g, w, r) > 0 && FramesFor(g.Period(), IncomeOn(g, w, r),
                                           cost[r] - w.stock[r], w.leftover[r]) == worst.value);
    QuietStock(g, w, m, r);
    if worst.Some? {
      AccrueReaches(g.Period(), IncomeOn(g, w, r), m, w.stock[r], w.leftover[r], cost[r]);
    }
  }

  /** With no completion up to `worst`, the wait is enough. */
  lemma LongEnough(g: Rules, w: World, cost: Vec, f: nat)
    requires g.Ok() && Settled(w) && LeftoverOk(g, w) && IsWorst(g, w, cost, Some(f))
    requires Quiet(w, w.frame, w.frame + f)
    ensures Covers(Steps(g, w, f), cost)
  {
    hide IncomeOn, Seat, Accrue, CeilDiv, Steps;
    StepsLeftover(g, w, f);
    forall r | 0 <= r < 6
      ensures Steps(g, w, f).stock[r] >= cost[r]
    {
      if w.stock[r] < cost[r] {
        QuietStock(g, w, f, r);
        AccrueReaches(g.Period(), IncomeOn(g, w, r), f, w.stock[r], w.leftover[r], cost[r]);
      }
    }
  }

  /** The same, counted from the start of the wait: `v` is `step` frames into it. */
  lemma SegmentTooEarly(g: Rules, w: World, step: nat, v: World, cost: Vec, worst: Option<nat>, k: nat)
    requires g.Ok() && v == Advance(g, w, step) && Settled(v) && LeftoverOk(g, v)
    requires IsWorst(g, v, cost, worst)
    requires Quiet(v, v.frame, v.frame + k) && (worst.Some? ==> k <= worst.value)
    ensures forall m: nat | step <= m < step + k :: !Covers(Advance(g, w, m), cost)
  {
    hide Flush, Steps, IsWorst;
    forall m: nat | step <= m < step + k
      ensures !Covers(Advance(g, w, m), cost)
    {
      TooEarly(g, v, cost, worst, m - step);
      StepsAdd(g, Flush(g, w), step, m - step);
    }
  }

  // ---- how many completions can interrupt a wait ----

  /** Completions still ahead: each pending job, and the crew's release. */
  function Ahead(w: World): nat {
    |w.pend| + if w.builders != 0 then 1 else 0
  }

  /** A job lands or the crew is released at frame `e`. */
  ghost predicate IsEvent(w: World, e: int) {
    || (exists j :: j in w.pend && j.done == e)
    || (w.builders != 0 && w.bFree == e)
  }

  /** Reaching an event uses up at least one of them. */
  lemma EventConsumes(w: World, v: World, e: int)
    requires RanTo(w, v) && v.frame == e
    requires IsEvent(w, e)
    ensures Ahead(v) < Ahead(w)
  {
    LaterMembers(w.pend, e);
  }

  lemma FlushAhead(g: Rules, w: World)
    requires g.Ok()
    ensures Ahead(Flush(g, w)) <= Ahead(w)
  {
    hide Flush;
    FlushKeeps(g, w);
    LaterMembers(w.pend, w.frame);
  }

  /** `n` is the first count of frames after which the cost is covered. */
  ghost predicate FirstCovered(g: Rules, w: World, cost: Vec, n: nat)
    requires g.Ok()
  {
    && Covers(Advance(g, w, n), cost)
    && forall m: nat | m < n :: !Covers(Advance(g, w, m), cost)
  }

  ghost predicate NeverCovered(g: Rules, w: World, cost: Vec, limit: int)
    requires g.Ok()
  {
    forall n: nat | n <= limit :: !Covers(Advance(g, w, n), cost)
  }

  /** Such a count is what `WaitFrom` finds, so the solver and the specification agree. */
  lemma WaitIsFirst(g: Rules, w: World, cost: Vec, limit: int, r: Option<nat>)
    requires g.Ok()
    requires r.Some? ==> r.value <= limit && FirstCovered(g, w, cost, r.value)
    requires r.None? ==> NeverCovered(g, w, cost, limit)
    ensures WaitFrom(g, w, cost, 0, limit) == r
  {
    var s := WaitFrom(g, w, cost, 0, limit);
    if s.Some? && r.Some? {
      assert s.value <= r.value <= s.value;
    }
  }
}
