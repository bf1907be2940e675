/**
 The scheduler's mutable state and its event-driven code. Every method is proved against
 the frame machine of `OpeningWorld`.
 */
module OpeningState {
  import opened Arith
  import opened Accumulator
  import opened Costs
  import opened OpeningRules
  import Model = OpeningWorld
  import opened OpeningTime
  import opened OpeningAfford
  import opened OpeningSeating

  type World = Model.World
  type Job = Model.Job

  /** A round of the wait ends in an answer, or `step` frames into the wait. */
  datatype Round = Again(step: nat) | Answer(wait: Option<nat>)

  class W {
    const g: Rules
    var frame: int
    var stock: Vec
    var leftover: Vec
    var own: map<Item, int>
    var lumbermills: int
    var on: Vec
    var epoch: Levels
    var age: int
    var techs: set<string>
    var tFree: int
    var bFree: int
    var lFree: int
    var builders: int
    var pend: seq<Job>
    var log: seq<Model.Entry>

    function View(): World
      reads this
    {
      Model.World(frame, stock, leftover, own, lumbermills, on, epoch, age, techs,
                  tFree, bFree, lFree, builders, pend, log)
    }

    ghost predicate Valid()
      reads this
    {
      g.Ok() && LeftoverOk(g, View())
    }

    /** The dataclass constructor: take the fields, then fill in unset counters and seat a
        state nobody works in. */
    constructor (g: Rules, w: World)
      requires g.Ok() && LeftoverOk(g, w)
      ensures Valid() && this.g == g
      ensures View() == Model.Clone(g, w)
    {
      this.g := g;
      frame, stock, leftover := w.frame, w.stock, w.leftover;
      own := w.own;
      lumbermills, on, epoch, age, techs := w.lumbermills, w.on, w.epoch, w.age, w.techs;
      tFree, bFree, lFree, builders, pend, log := w.tFree, w.bFree, w.lFree, w.builders, w.pend, w.log;
      new;
      hide Rules.Ok, Model.Seat;
      if Model.Owned(View(), Citizen) < 0 {
        own := own[Citizen := g.a.startCitizens];
      }
      if Model.Owned(View(), Farm) < 0 {
        own := own[Farm := g.a.startFarms];
      }
      if Model.Owned(View(), WoodcutterCamp) < 0 {
        own := own[WoodcutterCamp := g.a.startWoodcamps];
      }
      if Sum(on) == 0 {
        Reseat();
      }
    }

    method Clone() returns (c: W)
      requires Valid()
      ensures fresh(c) && c.Valid() && c.g == g
      ensures c.View() == Model.Clone(g, View())
    {
      c := new W(g, View());
    }

    method Reseat()
      requires g.Ok()
      modifies this`on
      ensures View() == Model.Reseat(g, old(View()))
    {
      hide Rules.Ok, Model.Slots, Model.UsefulVec, Model.Built;
      ghost var w0 := View();
      var sl := Model.Slots(g, View());
      var useful := Model.UsefulVec(g, View());
      var free := Model.Built(View(), Citizen) - builders;
      ghost var free0 := free;
      on := NONE;
      for i := 0 to 4
        invariant (on, free) == Model.UsefulPass(sl, useful, free0, i)
        invariant View() == w0.(on := on)
      {
        var r := Model.USEFUL_ORDER[i];
        var take := Min(sl[r], Min(free, useful[r]));
        on := on[r := Max(0, take)];
        free := free - on[r];
      }
      ghost var seated := (on, free);
      for i := 0 to 3
        invariant (on, free) == Model.RoomPass(sl, seated, i)
        invariant View() == w0.(on := on)
      {
        var r := Model.ROOM_ORDER[i];
        var room := sl[r] - on[r];
        var take := Min(room, free);
        on := on[r := on[r] + take];
        free := free - take;
      }
    }

    method Tick(frames: int)
      requires g.Ok()
      modifies this`frame, this`stock, this`leftover
      ensures View() == Model.Tick(g, old(View()), frames)
    {
      hide Model.IncomeOn;
      ghost var w0 := View();
      ghost var w1 := Model.Tick(g, w0, frames);
      var inc := Model.Income(g, View());
      for r := 0 to 6
        invariant View() == w0.(stock := stock, leftover := leftover)
        invariant forall k | 0 <= k < r :: stock[k] == w1.stock[k] && leftover[k] == w1.leftover[k]
        invariant forall k | r <= k < 6 :: stock[k] == w0.stock[k] && leftover[k] == w0.leftover[k]
      {
        if inc[r] > 0 {
          var tot := inc[r] * frames + leftover[r];
          stock := stock[r := stock[r] + tot / g.Period()];
          leftover := leftover[r := tot % g.Period()];
        }
      }
      assert stock == w1.stock && leftover == w1.leftover;
      frame := frame + frames;
    }

    /** Raise the library level, or the age, of every landed tech. */
    method Land(landed: seq<Job>)
      requires g.Ok()
      modifies this`epoch, this`age
      ensures age == old(age) + Model.Ages(g, landed)
      ensures epoch == Model.Raise(g, old(epoch), landed)
    {
      for i := 0 to |landed|
        invariant age + Model.Ages(g, landed[i..]) == old(age) + Model.Ages(g, landed)
        invariant Model.Raise(g, epoch, landed[i..]) == Model.Raise(g, old(epoch), landed)
      {
        var it := landed[i].item;
        assert landed[i..][1..] == landed[i + 1..];
        if it.Tech? {
          var row := FindTech(g.techs, it.name);
          if row.Some? {
            if row.value.isAge {
              age := age + 1;
            } else {
              var c := row.value.cat;
              epoch := epoch[c := epoch[c] + 1];
            }
          }
        }
      }
    }

    method Flush()
      requires g.Ok()
      modifies this`on, this`epoch, this`age, this`pend, this`builders
      ensures View() == Model.Flush(g, old(View()))
    {
      hide Rules.Ok, Model.Seat, Model.Raise, Model.Ages, Model.Due, Model.Later;
      var landed := Model.Due(pend, frame);
      DueEmpty(pend, frame);
      if landed == [] && !(builders != 0 && bFree <= frame) {
        return;
      }
      Land(landed);
      pend := Model.Later(pend, frame);
      if builders != 0 && bFree <= frame {
        builders := 0;
      }
      Reseat();
    }

    /** Earliest frame strictly between now and `target` at which income changes. */
    method NextEvent(target: int) returns (best: Option<int>)
      ensures best.None? ==> Quiet(View(), frame, target)
      ensures best.Some? ==> frame < best.value < target && Quiet(View(), frame, best.value)
      ensures best.Some? ==> IsEvent(View(), best.value)
    {
      best := None;
      if builders != 0 && frame < bFree < target {
        best := Some(bFree);
      }
      for i := 0 to |pend|
        invariant best.None? ==> !(builders != 0 && frame < bFree < target)
        invariant best.None? ==> forall j | j in pend[..i] :: !(frame < j.done < target)
        invariant best.Some? ==> frame < best.value < target
        invariant best.Some? ==> !(builders != 0 && frame < bFree < best.value)
        invariant best.Some? ==> forall j | j in pend[..i] :: !(frame < j.done < best.value)
        invariant best.Some? ==> IsEvent(View(), best.value)
      {
        var done := pend[i].done;
        assert pend[..i + 1] == pend[..i] + [pend[i]];
        if frame < done < target && (best.None? || done < best.value) {
          best := Some(done);
        }
      }
      assert pend[..|pend|] == pend;
    }

    /** Run to the next event before `target`, or to `target` itself. */
    method Jump(target: int, ghost w0: World) returns (arrived: bool)
      requires g.Ok() && w0.frame <= frame < target && Model.Settled(View())
      requires View() == Model.Advance(g, w0, frame - w0.frame)
      modifies this`frame, this`stock, this`leftover, this`on, this`epoch, this`age, this`pend, this`builders
      ensures w0.frame <= old(frame) < frame <= target
      ensures arrived ==> frame == target && Model.Flush(g, View()) == Model.Advance(g, w0, target - w0.frame)
      ensures !arrived ==> Model.Settled(View()) && View() == Model.Advance(g, w0, frame - w0.frame)
    {
      hide Rules.Ok, Model.Flush, Model.Advance, Model.Settled, Quiet;
      ghost var v := View();
      var ev := NextEvent(target);
      var upTo := if ev.None? then target else ev.value;
      JumpRefines(g, w0, v, upTo);
      TickFrame(g, v, upTo - v.frame);
      hide Model.Tick;
      Tick(upTo - frame);
      if ev.None? {
        return true;
      }
      Flush();
      return false;
    }

    /** Jumping from event to event reaches exactly the state the frame machine reaches. */
    method Advance(frames: int)
      requires g.Ok()
      modifies this`frame, this`stock, this`leftover, this`on, this`epoch, this`age, this`pend, this`builders
      ensures View() == Model.Advance(g, old(View()), frames)
      ensures old(Valid()) ==> Valid()
    {
      hide Rules.Ok, Model.Flush, Model.Advance, Model.Settled, LeftoverOk;
      ghost var w0 := View();
      var target := frame + Max(0, frames);
      FlushSettles(g, w0);
      FlushKeeps(g, w0);
      AdvanceZero(g, w0);
      Flush();
      var arrived := false;
      while frame < target && !arrived
        invariant w0.frame <= frame <= target && (arrived ==> frame == target)
        invariant !arrived ==> Model.Settled(View()) && View() == Model.Advance(g, w0, frame - w0.frame)
        invariant arrived ==> Model.Flush(g, View()) == Model.Advance(g, w0, target - w0.frame)
        decreases target - frame
      {
        arrived := Jump(target, w0);
      }
      if !arrived { FlushOfSettled(g, View()); }
      Flush();
      if LeftoverOk(g, w0) { AdvanceLeftover(g, w0, target - w0.frame); }
      AdvanceClamps(g, w0, frames);
    }

    /** The longest wait over the resources still short, none if one of them earns nothing. */
    method LongestWait(cost: Vec) returns (worst: Option<nat>)
      requires Valid()
      ensures IsWorst(g, View(), cost, worst)
    {
      hide Model.IncomeOn, CeilDiv;
      var inc := Model.Income(g, View());
      var longest := 0;
      ghost var at := 0;
      for r := 0 to 6
        invariant 0 <= longest
        invariant forall k | 0 <= k < r && stock[k] < cost[k] ::
            inc[k] > 0 && FramesFor(g.Period(), inc[k], cost[k] - stock[k], leftover[k]) <= longest
        invariant longest > 0 ==>
            && 0 <= at < 6 && stock[at] < cost[at] && inc[at] > 0
            && FramesFor(g.Period(), inc[at], cost[at] - stock[at], leftover[at]) == longest
      {
        var need := Max(0, cost[r] - stock[r]);
        if need == 0 { continue; }
        if inc[r] <= 0 {
          return None;
        }
        var f := CeilDiv(need * g.Period() - leftover[r], inc[r]);
        if Max(0, f) > longest {
          longest, at := Max(0, f), r;
        }
      }
      return Some(longest);
    }

    /** One round of the wait, `step` frames into it: the answer, or a jump to the next event. */
    method WaitRound(cost: Vec, limit: nat, step: nat, ghost p0: World) returns (r: Round)
      requires Valid() && step <= limit && Model.Flush(g, View()) == Model.Advance(g, p0, step)
      requires forall m: nat | m < step :: !Model.Covers(Model.Advance(g, p0, m), cost)
      modifies this`frame, this`stock, this`leftover, this`on, this`epoch, this`age, this`pend, this`builders
      ensures Valid()
      ensures r.Again? ==>
                && r.step <= limit && Model.Flush(g, View()) == Model.Advance(g, p0, r.step)
                && (forall m: nat | m < r.step :: !Model.Covers(Model.Advance(g, p0, m), cost))
                && Ahead(View()) < Ahead(old(View()))
      ensures r.Answer? && r.wait.Some? ==> r.wait.value <= limit && FirstCovered(g, p0, cost, r.wait.value)
      ensures r.Answer? && r.wait.None? ==> NeverCovered(g, p0, cost, limit)
    {
      hide Rules.Ok, Model.Flush, Model.Steps, IsWorst, Model.Clone, LeftoverOk;
      FlushAhead(g, View());
      FlushSettles(g, View());
      FlushLeftover(g, View());
      Flush();
      ghost var v := View();
      if forall r | 0 <= r < 6 :: cost[r] <= stock[r] {
        return Answer(Some(step));
      }
      var worst := LongestWait(cost);
      var ev := NextEvent(frame + (if worst.Some? then worst.value else limit) + 1);
      if ev.Some? {
        var jump := ev.value - frame;
        SegmentTooEarly(g, p0, step, v, cost, worst, jump);
        AdvanceAdd(g, p0, step, jump);
        AdvanceRan(g, v, jump);
        EventConsumes(v, Model.Advance(g, v, jump), ev.value);
        FlushOfSettled(g, Model.Advance(g, v, jump));
        Advance(jump);
        return if step + jump > limit then Answer(None) else Again(step + jump);
      }
      if worst.None? {
        SegmentTooEarly(g, p0, step, v, cost, worst, limit + 1);
        return Answer(None);
      }
      SegmentTooEarly(g, p0, step, v, cost, worst, worst.value);
      LongEnough(g, v, cost, worst.value);
      StepsAdd(g, Model.Flush(g, p0), step, worst.value);
      return Answer(if step + worst.value <= limit then Some(step + worst.value) else None);
    }

    /** Frames until `cost` is affordable: the least count, across every income change on
        the way. No answer means no count up to the limit, as long as the queue is short
        enough for the 256 rounds to look past every completion. */
    method FramesToAfford(cost: Vec, limit: nat) returns (result: Option<nat>)
      requires Valid()
      ensures result.Some? ==> result.value <= limit && FirstCovered(g, Model.Clone(g, View()), cost, result.value)
      ensures result.None? && |pend| <= 254 ==> NeverCovered(g, Model.Clone(g, View()), cost, limit)
    {
      hide Rules.Ok, Model.Flush, Model.Advance, Model.Clone, FirstCovered, NeverCovered, LeftoverOk;
      var probe := Clone();
      ghost var p0 := probe.View();
      CloneQueue(g, View());
      AdvanceZero(g, p0);
      var step: nat := 0;
      for round := 0 to 256
        invariant fresh(probe) && probe.Valid() && probe.g == g && step <= limit
        invariant Model.Flush(g, probe.View()) == Model.Advance(g, p0, step)
        invariant forall m: nat | m < step :: !Model.Covers(Model.Advance(g, p0, m), cost)
        invariant Ahead(probe.View()) + round <= Ahead(p0)
      {
        var r := probe.WaitRound(cost, limit, step, p0);
        if r.Answer? {
          return r.wait;
        }
        step := r.step;
      }
      return None;
    }

    /** A purchase counts at once and works from `done` on. */
    method Queue(item: Item, done: int)
      requires g.Ok()
      modifies this`own, this`techs, this`pend, this`on
      ensures View() == Model.Queue(g, old(View()), item, done)
    {
      hide Model.Seat;
      if item.Tech? {
        techs := techs + {item.name};
      } else {
        own := own[item := Model.Owned(View(), item) + 1];
      }
      pend := pend + [Model.Job(done, item)];
      Reseat();
    }

    /** The server works on `item` until `done`; a building also takes a crew off the
        fields. */
    method Occupy(item: Item, done: int)
      modifies this`tFree, this`bFree, this`lFree, this`builders
      ensures View() == Model.Occupy(g, old(View()), item, done)
    {
      match ServerOf(item) {
        case Trainer => tFree := done;
        case Crew =>
          bFree := done;
          builders := Min(g.a.maxBuilders, Max(0, Model.Built(View(), Citizen) - 1));
        case Research => lFree := done;
      }
    }

    /** Pay, occupy the server and queue the job. */
    method Place(item: Item, cost: Vec, dur: int)
      requires Valid()
      modifies this`stock, this`tFree, this`bFree, this`lFree, this`builders, this`log
      modifies this`own, this`techs, this`pend, this`on
      ensures View() == Model.Place(g, old(View()), item, cost, dur) && Valid()
    {
      hide Model.Queue, Model.Built, Rules.Ok, Model.Occupy;
      Pay(cost);
      var done := frame + dur;
      Occupy(item, done);
      log := log + [Model.Entry(frame, done, item)];
      Queue(item, done);
    }

    /** A copy, at the frame from which the server of `item` is free. */
    method AtServer(item: Item) returns (s: W)
      requires Valid()
      ensures fresh(s) && s.Valid() && s.g == g && s.View() == Model.AtServer(g, View(), item)
    {
      hide Rules.Ok, Model.Advance, Model.Clone, LeftoverOk;
      s := Clone();
      var start := Max(s.frame, Model.FreeAt(s.View(), ServerOf(item)));
      s.Advance(start - s.frame);
    }

    /** Buy `item` on a copy, in the first affordable state from the free server on. Refusing means no such frame within the limit, as long as the queue is
        short enough for the 256 rounds of the wait. */
    method Apply(item: Item) returns (ok: bool, s: W)
      requires Valid() && Known(g, item)
      ensures fresh(s) && s.g == g
      ensures ok ==> s.Valid() && Model.Apply(g, View(), item) == Some(s.View())
      ensures !ok && |pend| <= 254 ==> Model.Apply(g, View(), item) == None
    {
      hide Rules.Ok, Model.Advance, Model.Clone, Model.WaitFrom, FirstCovered, NeverCovered, LeftoverOk;
      hide Model.ActionCost, Model.ActionTime, Model.Place, Model.AtServer;
      AtServerSteady(g, View(), item);
      var dur := Model.ActionTime(g, View(), item);
      s := AtServer(item);
      ghost var v := s.View();
      var cost := Model.ActionCost(g, s.View(), item);
      var wait := s.FramesToAfford(cost, Model.WAIT_LIMIT);
      if wait.Some? || |pend| <= 254 { WaitIsFirst(g, v, cost, Model.WAIT_LIMIT, wait); }
      if wait.None? {
        return false, s;
      }
      s.Advance(wait.value);
      s.Place(item, cost, dur);
      return true, s;
    }

    method Pay(cost: Vec)
      modifies this`stock
      ensures View() == old(View()).(stock := seq(6, r requires 0 <= r < 6 => old(stock)[r] - cost[r]))
    {
      ghost var w0 := View();
      for r := 0 to 6
        invariant View() == w0.(stock := stock)
        invariant forall k | 0 <= k < r :: stock[k] == w0.stock[k] - cost[k]
        invariant forall k | r <= k < 6 :: stock[k] == w0.stock[k]
      {
        stock := stock[r := stock[r] - cost[r]];
      }
      assert stock == seq(6, r requires 0 <= r < 6 => w0.stock[r] - cost[r]);
    }
  }

  lemma CloneQueue(g: Rules, w: World)
    requires g.Ok()
    ensures Model.Clone(g, w).pend == w.pend && LeftoverOk(g, Model.Clone(g, w)) == LeftoverOk(g, w)
  {
  }

  lemma TickFrame(g: Rules, w: World, n: int)
    requires g.Ok()
    ensures Model.Tick(g, w, n).frame == w.frame + n
  {
  }

  lemma FlushLeftover(g: Rules, w: World)
    requires g.Ok()
    ensures LeftoverOk(g, Model.Flush(g, w)) == LeftoverOk(g, w) && Model.Flush(g, w).frame == w.frame
  {
    hide Model.Flush;
    FlushKeeps(g, w);
  }

  lemma DueEmpty(pend: seq<Job>, frame: int)
    ensures Model.Due(pend, frame) == [] <==> forall j | j in pend :: j.done > frame
  {
    if pend != [] {
      DueEmpty(pend[1..], frame);
      assert pend == [pend[0]] + pend[1..];
    }
  }
}
