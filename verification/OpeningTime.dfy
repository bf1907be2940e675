/**
 Time in the opening economy: gathering splits at any frame, landing is idempotent, and
 a stretch without completions collapses into one accumulation.
 */
module OpeningTime {
  import opened Arith
  import opened Accumulator
  import opened OpeningRules
  import opened OpeningWorld

  // ---- the accumulator ----

  lemma IncomeFixed(g: Rules, w: World, n: int, r: int)
    requires g.Ok() && 0 <= r < 6
    ensures IncomeOn(g, Tick(g, w, n), r) == IncomeOn(g, w, r)
  {
  }

  /** Gathering for `a` then `b` frames with nothing landing is gathering for `a + b`. */
  lemma TickSplit(g: Rules, w: World, a: int, b: int)
    requires g.Ok()
    ensures Tick(g, Tick(g, w, a), b) == Tick(g, w, a + b)
  {
    hide IncomeOn;
    var t, u := Tick(g, Tick(g, w, a), b), Tick(g, w, a + b);
    forall r | 0 <= r < 6
      ensures t.stock[r] == u.stock[r] && t.leftover[r] == u.leftover[r]
    {
      IncomeFixed(g, w, a, r);
      AccrueSplit(g.Period(), IncomeOn(g, w, r), a, b, w.stock[r], w.leftover[r]);
    }
    assert t.stock == u.stock && t.leftover == u.leftover;
  }

  // ---- the queue ----

  lemma LaterMembers(pend: seq<Job>, f: int)
    ensures forall j :: j in Later(pend, f) <==> j in pend && j.done > f
    ensures |Later(pend, f)| <= |pend|
    ensures (exists j :: j in pend && j.done <= f) ==> |Later(pend, f)| < |pend|
  {
    if pend != [] {
      LaterMembers(pend[1..], f);
      assert pend == [pend[0]] + pend[1..];
    }
  }

  lemma LaterIdentity(pend: seq<Job>, f: int)
    requires forall j | j in pend :: j.done > f
    ensures Later(pend, f) == pend
  {
    if pend != [] {
      assert forall j | j in pend[1..] :: j in pend;
      LaterIdentity(pend[1..], f);
    }
  }

  lemma LaterEmpty(pend: seq<Job>, f: int)
    requires forall j | j in pend :: j.done <= f
    ensures Later(pend, f) == []
  {
    if pend != [] {
      assert forall j | j in pend[1..] :: j in pend;
      LaterEmpty(pend[1..], f);
    }
  }

  lemma LaterTwice(pend: seq<Job>, f: int, f': int)
    requires f <= f'
    ensures Later(Later(pend, f), f') == Later(pend, f')
  {
    if pend != [] {
      LaterTwice(pend[1..], f, f');
      if pend[0].done > f {
        assert Later(pend, f) == [pend[0]] + Later(pend[1..], f);
        assert Later(pend, f)[1..] == Later(pend[1..], f);
      } else {
        assert Later(pend, f) == Later(pend[1..], f);
      }
    }
  }

  lemma FlushSettles(g: Rules, w: World)
    requires g.Ok()
    ensures Settled(Flush(g, w))
  {
    hide IncomeOn, Seat;
    LaterMembers(w.pend, w.frame);
  }

  lemma FlushOfSettled(g: Rules, w: World)
    requires g.Ok() && Settled(w)
    ensures Flush(g, w) == w
  {
    hide IncomeOn, Seat;
  }

  lemma FlushIdempotent(g: Rules, w: World)
    requires g.Ok()
    ensures Flush(g, Flush(g, w)) == Flush(g, w)
  {
    FlushSettles(g, w);
  }

  // ---- running ----

  lemma StepsSettled(g: Rules, w: World, n: nat)
    requires g.Ok() && Settled(w)
    ensures Settled(Steps(g, w, n))
    decreases n
  {
    hide IncomeOn, Seat;
    if n > 0 {
      FlushSettles(g, Tick(g, w, 1));
      StepsSettled(g, Step(g, w), n - 1);
    }
  }

  lemma {:induction false} StepsAdd(g: Rules, w: World, a: nat, b: nat)
    requires g.Ok()
    ensures Steps(g, Steps(g, w, a), b) == Steps(g, w, a + b)
    decreases a
  {
    hide Flush, Tick;
    if a > 0 {
      StepsAdd(g, Step(g, w), a - 1, b);
    }
  }

  /** `advance(a)` then `advance(b)` is `advance(a + b)`, from any state whatever. */
  lemma AdvanceAdd(g: Rules, w: World, a: nat, b: nat)
    requires g.Ok()
    ensures Advance(g, Advance(g, w, a), b) == Advance(g, w, a + b)
  {
    hide IncomeOn, Seat;
    FlushSettles(g, w);
    StepsSettled(g, Flush(g, w), a);
    StepsAdd(g, Flush(g, w), a, b);
  }

  lemma AdvanceZero(g: Rules, w: World)
    requires g.Ok()
    ensures Advance(g, w, 0) == Flush(g, w)
  {
  }

  lemma AdvanceClamps(g: Rules, w: World, n: int)
    requires g.Ok()
    ensures Advance(g, w, n) == Advance(g, w, Max(0, n))
  {
  }

  /** Income cannot change strictly between `lo` and `hi`. */
  predicate Quiet(w: World, lo: int, hi: int) {
    && (forall j | j in w.pend :: !(lo < j.done < hi))
    && !(w.builders != 0 && lo < w.bFree < hi)
  }

  /** A stretch with no completion strictly inside it is one accumulation and one landing. */
  lemma {:induction false} QuietRun(g: Rules, w: World, k: nat)
    requires g.Ok() && Settled(w) && k >= 1
    requires Quiet(w, w.frame, w.frame + k)
    ensures Steps(g, w, k) == Flush(g, Tick(g, w, k))
    decreases k
  {
    hide IncomeOn, Seat;
    var w1 := Tick(g, w, 1);
    if k > 1 {
      assert Settled(w1);
      QuietRun(g, w1, k - 1);
      TickSplit(g, w, 1, k - 1);
    } else {
      assert Steps(g, Step(g, w), 0) == Step(g, w);
    }
  }

  // ---- what running keeps ----

  /** Counters, techs, servers and the log only change when something is bought. */
  predicate SameOrders(w: World, v: World) {
    && v.own == w.own && v.lumbermills == w.lumbermills && v.techs == w.techs
    && v.tFree == w.tFree && v.bFree == w.bFree && v.lFree == w.lFree && v.log == w.log
  }

  /** `v` is `w` some frames later, with exactly the jobs due by then landed. */
  predicate RanTo(w: World, v: World) {
    && SameOrders(w, v)
    && w.frame <= v.frame
    && v.pend == Later(w.pend, v.frame)
    && v.builders == (if w.builders != 0 && w.bFree <= v.frame then 0 else w.builders)
  }

  lemma RanToCompose(u: World, v: World, w: World)
    requires RanTo(u, v) && RanTo(v, w)
    ensures RanTo(u, w)
  {
    LaterTwice(u.pend, v.frame, w.frame);
  }

  lemma FlushKeeps(g: Rules, w: World)
    requires g.Ok()
    ensures var v := Flush(g, w);
            RanTo(w, v) && v.frame == w.frame && v.stock == w.stock && v.leftover == w.leftover
  {
    hide IncomeOn, Seat;
    if Settled(w) { LaterIdentity(w.pend, w.frame); }
  }

  lemma StepRan(g: Rules, w: World)
    requires g.Ok()
    ensures RanTo(w, Step(g, w)) && Step(g, w).frame == w.frame + 1
  {
    hide IncomeOn, Seat;
    FlushKeeps(g, Tick(g, w, 1));
  }

  lemma {:induction false} StepsRan(g: Rules, w: World, n: nat)
    requires g.Ok() && Settled(w)
    ensures RanTo(w, Steps(g, w, n)) && Steps(g, w, n).frame == w.frame + n
    decreases n
  {
    hide IncomeOn, Seat;
    if n == 0 {
      LaterIdentity(w.pend, w.frame);
    } else {
      var w1 := Step(g, w);
      StepRan(g, w);
      FlushSettles(g, Tick(g, w, 1));
      StepsRan(g, w1, n - 1);
      RanToCompose(w, w1, Steps(g, w1, n - 1));
    }
  }

  /** One jump of the event loop, from a state the frame machine reached, lands on a state
      the frame machine reaches. */
  lemma JumpRefines(g: Rules, w: World, v: World, e: int)
    requires g.Ok() && w.frame <= v.frame < e && v == Advance(g, w, v.frame - w.frame)
    requires Settled(v) && Quiet(v, v.frame, e)
    ensures var u := Flush(g, Tick(g, v, e - v.frame));
            Settled(u) && u.frame == e && u == Advance(g, w, e - w.frame)
  {
    hide Flush, Steps, IncomeOn, Rules.Ok;
    QuietRun(g, v, e - v.frame);
    StepsAdd(g, Flush(g, w), v.frame - w.frame, e - v.frame);
    FlushSettles(g, Tick(g, v, e - v.frame));
    FlushKeeps(g, Tick(g, v, e - v.frame));
  }

  /** `advance` moves the clock, lands what is due and leaves every order in place; in
      particular no price moves while it runs. */
  lemma AdvanceRan(g: Rules, w: World, n: int)
    requires g.Ok()
    ensures var v := Advance(g, w, n);
            Settled(v) && RanTo(w, v) && v.frame == w.frame + Max(0, n)
    ensures forall item | Known(g, item) :: ActionCost(g, Advance(g, w, n), item) == ActionCost(g, w, item)
  {
    hide Flush, Steps;
    var w1, k := Flush(g, w), Max(0, n);
    FlushKeeps(g, w);
    FlushSettles(g, w);
    StepsRan(g, w1, k);
    StepsSettled(g, w1, k);
    RanToCompose(w, w1, Steps(g, w1, k));
  }

  // ---- money over time ----

  predicate LeftoverOk(g: Rules, w: World) {
    forall r | 0 <= r < 6 :: 0 <= w.leftover[r] < g.Period()
  }

  /** Income credited over `n` frames: the sum of what each frame earns. */
  function Earned(g: Rules, w: World, n: nat, r: int): int
    requires g.Ok() && 0 <= r < 6
    decreases n
  {
    if n == 0 then 0 else Max(0, IncomeOn(g, w, r)) + Earned(g, Step(g, w), n - 1, r)
  }

  function Purse(g: Rules, w: World, r: int): int
    requires 0 <= r < 6
  {
    w.stock[r] * g.Period() + w.leftover[r]
  }

  lemma TickPurse(g: Rules, w: World, r: int)
    requires g.Ok() && 0 <= r < 6
    ensures Purse(g, Tick(g, w, 1), r) == Purse(g, w, r) + Max(0, IncomeOn(g, w, r))
  {
    hide IncomeOn;
    var inc, p := IncomeOn(g, w, r), g.Period();
    if inc > 0 {
      var t := inc * 1 + w.leftover[r];
      assert t == t / p * p + t % p;
      assert (w.stock[r] + t / p) * p == w.stock[r] * p + t / p * p;
    }
  }

  /** Nothing is lost to the integer accumulator: stock and leftover together hold the
      start value plus every frame's income. */
  lemma {:induction false} StepsConserve(g: Rules, w: World, n: nat, r: int)
    requires g.Ok() && 0 <= r < 6
    ensures Purse(g, Steps(g, w, n), r) == Purse(g, w, r) + Earned(g, w, n, r)
    decreases n
  {
    hide IncomeOn, Seat;
    if n > 0 {
      TickPurse(g, w, r);
      FlushKeeps(g, Tick(g, w, 1));
      StepsConserve(g, Step(g, w), n - 1, r);
    }
  }

  lemma {:induction false} StepsLeftover(g: Rules, w: World, n: nat)
    requires g.Ok() && LeftoverOk(g, w)
    ensures LeftoverOk(g, Steps(g, w, n))
    ensures forall r | 0 <= r < 6 :: Steps(g, w, n).stock[r] >= w.stock[r]
    decreases n
  {
    hide IncomeOn, Seat;
    if n > 0 {
      var t := Tick(g, w, 1);
      FlushKeeps(g, t);
      forall r | 0 <= r < 6
        ensures t.stock[r] >= w.stock[r] && 0 <= t.leftover[r] < g.Period()
      {
        if IncomeOn(g, w, r) > 0 {
          DivMonotone(0, IncomeOn(g, w, r) * 1 + w.leftover[r], g.Period());
        }
      }
      StepsLeftover(g, Step(g, w), n - 1);
    }
  }

  lemma AdvanceLeftover(g: Rules, w: World, n: int)
    requires g.Ok() && LeftoverOk(g, w)
    ensures LeftoverOk(g, Advance(g, w, n))
    ensures forall r | 0 <= r < 6 :: Advance(g, w, n).stock[r] >= w.stock[r]
  {
    hide Flush, Steps, Rules.Ok;
    FlushKeeps(g, w);
    StepsLeftover(g, Flush(g, w), Max(0, n));
  }
}
