/** The planner's mutable plan and its code, proved against `PlanModel`. */
module PlanState {
  import opened Arith
  import opened Accumulator
  import opened Costs
  import Model = PlanModel
  import opened PlanSafety

  type Tables = Model.Tables
  type Econ = Model.Econ
  type Completion = Model.Completion

  class Planner {
    const t: Tables
    var s: Econ
    var cityFree: int
    var crewFree: int
    var libraryFree: int
    var pending: seq<Completion>

    function View(): Model.Plan
      reads this
    {
      Model.Plan(s, cityFree, crewFree, libraryFree, pending)
    }

    /** Copying a plan seats everyone the new state counts as unseated. */
    constructor (t: Tables, p: Model.Plan)
      requires t.Ok()
      ensures this.t == t && View() == Model.ClonePlan(t, p)
    {
      this.t := t;
      s, cityFree, crewFree, libraryFree, pending := p.s, p.cityFree, p.crewFree, p.libraryFree, p.pending;
      new;
      var sl := Model.Slots(t, s);
      FillOne(sl, FOOD, 0);
      FillOne(sl, TIMBER, 0);
      FillOne(sl, METAL, 0);
    }

    /** Seat citizens on `r` one by one while anyone outside the crew is unseated. */
    method FillOne(sl: Vec, r: int, crew: int)
      requires 0 <= r < 6
      modifies this`s
      ensures s == old(s).(on := Model.SeatOn(sl, old(s).on, r, Model.Owned(old(s), Model.Citizen) - Sum(old(s).on) - crew).0)
      ensures Model.Owned(s, Model.Citizen) - Sum(s.on) - crew
           == Model.SeatOn(sl, old(s).on, r, Model.Owned(old(s), Model.Citizen) - Sum(old(s).on) - crew).1
    {
      ghost var s0 := s;
      ghost var goal := Model.SeatOn(sl, s.on, r, Model.Owned(s, Model.Citizen) - Sum(s.on) - crew);
      while Model.Owned(s, Model.Citizen) - Sum(s.on) - crew > 0 && s.on[r] < sl[r]
        invariant s == s0.(on := s.on)
        invariant Model.SeatOn(sl, s.on, r, Model.Owned(s, Model.Citizen) - Sum(s.on) - crew) == goal
        decreases sl[r] - s.on[r]
      {
        SeatStep(sl, s.on, r, Model.Owned(s, Model.Citizen) - Sum(s.on) - crew);
        s := s.(on := s.on[r := s.on[r] + 1]);
      }
    }

    method ClipSeats(sl: Vec)
      modifies this`s
      ensures s == old(s).(on := Model.Clip(old(s).on, sl))
    {
      ghost var s0 := s;
      for r := 0 to 6
        invariant s == s0.(on := s.on)
        invariant forall k | 0 <= k < r :: s.on[k] == Min(s0.on[k], sl[k])
        invariant forall k | r <= k < 6 :: s.on[k] == s0.on[k]
      {
        s := s.(on := s.on[r := Min(s.on[r], sl[r])]);
      }
      assert s.on == Model.Clip(s0.on, sl);
    }

    /** Take citizens off one by one until the crew is manned or nobody works. */
    method TrimSeats()
      modifies this`s
      ensures s == old(s).(on := Model.Trim(old(s).on,
                                            Sum(old(s).on) + old(s).builders - Model.Owned(old(s), Model.Citizen)))
    {
      hide Model.Owned, Model.Trim;
      ghost var s0 := s;
      ghost var trimmed := Model.Trim(s.on, Sum(s.on) + s.builders - Model.Owned(s, Model.Citizen));
      while Sum(s.on) + s.builders > Model.Owned(s, Model.Citizen)
        invariant s == s0.(on := s.on) && Model.Owned(s, Model.Citizen) == Model.Owned(s0, Model.Citizen)
        invariant Model.Trim(s.on, Sum(s.on) + s.builders - Model.Owned(s, Model.Citizen)) == trimmed
        decreases Sum(s.on) + s.builders - Model.Owned(s, Model.Citizen)
      {
        TrimStep(s.on, Sum(s.on) + s.builders - Model.Owned(s, Model.Citizen));
        OwnedIgnores(s);
        if s.on[METAL] > 0 {
          s := s.(on := s.on[METAL := s.on[METAL] - 1]);
        } else if s.on[TIMBER] > 0 {
          s := s.(on := s.on[TIMBER := s.on[TIMBER] - 1]);
        } else if s.on[FOOD] > 0 {
          s := s.(on := s.on[FOOD := s.on[FOOD] - 1]);
        } else {
          break;
        }
      }
      TrimNone(s.on, Sum(s.on) + s.builders - Model.Owned(s, Model.Citizen));
    }

    /** Reconcile the assignment with the slots and the crew. */
    method Reseat()
      modifies this`s
      ensures s == Model.Reseat(t, old(s))
    {
      hide Model.Slots, Model.Trim, Model.SeatOn, Model.Clip;
      var sl := Model.Slots(t, s);
      ClipSeats(sl);
      TrimSeats();
      FillOne(sl, FOOD, s.builders);
      FillOne(sl, TIMBER, s.builders);
      FillOne(sl, METAL, s.builders);
    }

    method Bump(k: Model.Kind)
      modifies this`s
      ensures s == Model.Bump(old(s), k)
    {
      s := s.(own := s.own[k := Model.Owned(s, k) + 1]);
    }

    method Apply(e: Model.Effect)
      modifies this`s
      ensures s == Model.Land(t, old(s), e)
    {
      hide Model.Slots, Model.Reseat;
      match e {
        case Arrive(post) =>
          Bump(Model.Citizen);
          var r := Model.PostResource(post);
          if r >= 0 {
            if Sum(s.on) + s.builders < Model.Owned(s, Model.Citizen) && s.on[r] < Model.Slots(t, s)[r] {
              s := s.(on := s.on[r := s.on[r] + 1]);
            }
          } else if post == Model.ToBuilder {
            s := s.(builders := s.builders + 1);
          }
        case Finish(k) => Bump(k);
        case Release(n) => s := s.(builders := s.builders - n);
        case Learn(name) =>
          s := s.(techs := s.techs + {name});
          s := Model.RaiseLevel(s, name);
      }
      Reseat();
    }

    /** Run the accumulator at the present income. */
    method Elapse(frames: int)
      requires t.Ok()
      modifies this`s
      ensures s == Model.Elapse(t, old(s), frames)
    {
      hide Model.Income;
      if frames <= 0 { return; }
      ghost var s0 := s;
      ghost var s1 := Model.Elapse(t, s0, frames);
      for r := 0 to 6
        invariant s == s0.(stock := s.stock, acc := s.acc)
        invariant forall k | 0 <= k < r :: s.stock[k] == s1.stock[k] && s.acc[k] == s1.acc[k]
        invariant forall k | r <= k < 6 :: s.stock[k] == s0.stock[k] && s.acc[k] == s0.acc[k]
      {
        var inc := Model.Income(t, s, r);
        IncomeIgnores(t, s0, s, r);
        if inc > 0 {
          var total := inc * frames + s.acc[r];
          s := s.(stock := s.stock[r := s.stock[r] + total / t.Period()], acc := s.acc[r := total % t.Period()]);
        }
      }
      assert s.stock == s1.stock && s.acc == s1.acc;
      s := s.(frame := s.frame + frames);
    }

    /** Frames until `cost` is affordable at the present income. */
    method FramesUntilAffordable(cost: Vec) returns (w: Option<nat>)
      requires t.Ok()
      ensures w == Model.WaitFor(t, s, cost)
    {
      hide Model.Income, FramesFor;
      var worst: nat := 0;
      for r := 0 to 6
        invariant Model.LongestWait(t, s, cost, r) == Some(worst)
      {
        if cost[r] > s.stock[r] {
          var inc := Model.Income(t, s, r);
          if inc <= 0 {
            LongestNone(t, s, cost, r + 1);
            return None;
          }
          worst := Max(worst, FramesFor(t.Period(), inc, cost[r] - s.stock[r], s.acc[r]));
        }
      }
      return if worst <= Model.WAIT_LIMIT then Some(worst) else None;
    }

    method Pay(cost: Vec)
      modifies this`s
      ensures s == Model.Pay(old(s), cost)
    {
      ghost var s0 := s;
      for r := 0 to 6
        invariant s == s0.(stock := s.stock)
        invariant forall k | 0 <= k < r :: s.stock[k] == s0.stock[k] - cost[k]
        invariant forall k | r <= k < 6 :: s.stock[k] == s0.stock[k]
      {
        s := s.(stock := s.stock[r := s.stock[r] - cost[r]]);
      }
      assert s.stock == Model.Pay(s0, cost).stock;
    }

    /** Advance to `until`, applying every pending completion on the way. */
    method Drain(until: int)
      requires t.Ok()
      modifies this`s, this`pending
      ensures View() == Model.Drain(t, old(View()), until)
    {
      hide Model.Land, Model.Income, Model.Sort;
      pending := Model.Sort(pending);
      ghost var goal := Model.DrainSorted(t, s, pending, until);
      while pending != [] && pending[0].frame <= until
        invariant Model.DrainSorted(t, s, pending, until) == goal
        decreases |pending|
      {
        var c := pending[0];
        pending := pending[1..];
        if c.frame > s.frame {
          Elapse(c.frame - s.frame);
        }
        Apply(c.effect);
      }
      if until > s.frame {
        Elapse(until - s.frame);
      }
    }

    /** Pay, occupy the server and enqueue the completions. */
    method Enqueue(spec: Model.Quote, act: Model.Act)
      requires t.Ok()
      modifies this
      ensures View() == Model.Enqueue(t, old(View()), spec, act)
    {
      hide Model.Reseat;
      Pay(spec.cost);
      if spec.server == Crew {
        s := s.(builders := s.builders + spec.crew);
        Reseat();
      }
      var done := s.frame + spec.dur;
      match spec.server {
        case Trainer => cityFree := done;
        case Crew => crewFree := done;
        case Research => libraryFree := done;
      }
      var es := Model.Effects(act, spec.crew);
      pending := pending + seq(|es|, i requires 0 <= i < |es| => Model.Completion(done, es[i]));
    }

    /** Enqueue `act` on a copy; refused when it can never be afforded. */
    method Step(act: Model.Act, horizon: int) returns (ok: bool, q: Planner)
      requires t.Ok() && Model.Known(act)
      ensures fresh(q) && q.t == t
      ensures ok == Model.Step(t, View(), act, horizon).Some?
      ensures ok ==> q.View() == Model.Step(t, View(), act, horizon).value
    {
      hide Model.Drain, Model.ActionSpec, Model.WaitFor, Model.Clone, Model.Enqueue, Model.LastFrame, Tables.Ok;
      q := new Planner(t, View());
      var spec := Model.ActionSpec(t, q.View(), act);
      if spec.None? {
        if q.pending != [] {
          q.Drain(Model.LastFrame(q.pending[1..], q.pending[0].frame));
          spec := Model.ActionSpec(t, q.View(), act);
        }
        if spec.None? {
          return false, q;
        }
      }
      assert Model.Priced(t, View(), act) == Some((q.View(), spec.value));
      ok := q.Finish(spec.value, act, horizon);
    }

    /** The rest of `step`: wait for the server and the money, price again, wait again if
        told to, and pay. */
    method Finish(spec0: Model.Quote, act: Model.Act, horizon: int) returns (ok: bool)
      requires t.Ok() && Model.Known(act)
      modifies this
      ensures var paid := Model.Waits(t, old(View()), spec0, act, horizon);
              ok == paid.Some? && (ok ==> View() == Model.Enqueue(t, paid.value.0, paid.value.1, act))
    {
      hide Model.Drain, Model.ActionSpec, Model.WaitFor, Model.Enqueue, Tables.Ok;
      var spec := spec0;
      var start := Max(s.frame, Model.FreeAt(View(), spec.server));
      Drain(start);
      var wait := FramesUntilAffordable(spec.cost);
      if wait.None? {
        return false;
      }
      if wait.value != 0 {
        Drain(s.frame + wait.value);
        var again := Model.ActionSpec(t, View(), act);
        if again.None? {
          return false;
        }
        spec := again.value;
        var wait2 := FramesUntilAffordable(spec.cost);
        if wait2.Some? && wait2.value != 0 {
          Drain(s.frame + wait2.value);
        }
      }
      if s.frame > horizon {
        return false;
      }
      Enqueue(spec, act);
      return true;
    }
  }

  lemma SeatStep(sl: Vec, on: Vec, r: int, room: int)
    requires 0 <= r < 6 && room > 0 && on[r] < sl[r]
    ensures Model.SeatOn(sl, on[r := on[r] + 1], r, room - 1) == Model.SeatOn(sl, on, r, room)
  {
    var take := Max(0, Min(room, sl[r] - on[r]));
    assert on[r := on[r] + 1][r := on[r] + take] == on[r := on[r] + take];
  }

  lemma TrimStep(on: Vec, excess: int)
    requires excess > 0
    ensures on[METAL] > 0 ==> Model.Trim(on[METAL := on[METAL] - 1], excess - 1) == Model.Trim(on, excess)
    ensures on[METAL] <= 0 && on[TIMBER] > 0 ==>
              Model.Trim(on[TIMBER := on[TIMBER] - 1], excess - 1) == Model.Trim(on, excess)
    ensures on[METAL] <= 0 && on[TIMBER] <= 0 && on[FOOD] > 0 ==>
              Model.Trim(on[FOOD := on[FOOD] - 1], excess - 1) == Model.Trim(on, excess)
  {
    var i, f := on[TIMBER := on[TIMBER] - 1], on[FOOD := on[FOOD] - 1];
    assert i[METAL := i[METAL]] == i && on[METAL := on[METAL]] == on;
    assert f[METAL := f[METAL]] == f && f[TIMBER := f[TIMBER]] == f && on[TIMBER := on[TIMBER]] == on;
  }

  lemma TrimNone(on: Vec, excess: int)
    ensures excess <= 0 || (on[METAL] <= 0 && on[TIMBER] <= 0 && on[FOOD] <= 0) ==> Model.Trim(on, excess) == on
  {
    assert on[METAL := on[METAL]] == on && on[TIMBER := on[TIMBER]] == on && on[FOOD := on[FOOD]] == on;
  }

  lemma OwnedIgnores(s: Econ)
    ensures forall on: Vec :: Model.Owned(s.(on := on), Model.Citizen) == Model.Owned(s, Model.Citizen)
  {
  }

  lemma LongestNone(t: Tables, s: Econ, cost: Vec, n: nat)
    requires t.Ok() && n <= 6 && Model.LongestWait(t, s, cost, n).None?
    ensures Model.LongestWait(t, s, cost, 6).None?
    decreases 6 - n
  {
    hide Model.Income, FramesFor;
    if n < 6 { LongestNone(t, s, cost, n + 1); }
  }
}
