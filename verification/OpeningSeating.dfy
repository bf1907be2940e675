/**
 Seating: what the greedy passes guarantee, and why copying a reachable state changes
 nothing even though the copy is seated again.
 */
module OpeningSeating {
  import opened Arith
  import opened Costs
  import opened OpeningRules
  import opened OpeningWorld
  import opened OpeningTime

  /** The seating is the one the rest of the state determines. */
  ghost predicate Seated(g: Rules, w: World)
    requires g.Ok()
  {
    && w.on == Seat(g, w)
    && Owned(w, Citizen) >= 0 && Owned(w, Farm) >= 0 && Owned(w, WoodcutterCamp) >= 0
  }

  ghost predicate NonNegative(v: Vec) {
    forall r | 0 <= r < 6 :: v[r] >= 0
  }

  /** Everyone is on a slot or among the `left`, and nobody stands without a slot. */
  ghost predicate Balanced(sl: Vec, free: int, on: Vec, left: int) {
    && (forall r | 0 <= r < 6 :: 0 <= on[r] <= sl[r])
    && left >= 0 && Sum(on) + left == free
  }

  lemma {:induction false} UsefulPassBalanced(sl: Vec, useful: Vec, free: int, n: nat)
    requires NonNegative(sl) && free >= 0 && n <= 4
    ensures Balanced(sl, free, UsefulPass(sl, useful, free, n).0, UsefulPass(sl, useful, free, n).1)
    ensures forall k | n <= k < 4 :: UsefulPass(sl, useful, free, n).0[USEFUL_ORDER[k]] == 0
  {
    if n > 0 {
      UsefulPassBalanced(sl, useful, free, n - 1);
    }
  }

  lemma {:induction false} RoomPassFull(sl: Vec, free: int, seated: (Vec, int), n: nat)
    requires Balanced(sl, free, seated.0, seated.1) && n <= 3
    ensures Balanced(sl, free, RoomPass(sl, seated, n).0, RoomPass(sl, seated, n).1)
    ensures RoomPass(sl, seated, n).1 > 0 ==>
              forall k | 0 <= k < n :: RoomPass(sl, seated, n).0[ROOM_ORDER[k]] == sl[ROOM_ORDER[k]]
  {
    if n > 0 {
      RoomPassFull(sl, free, seated, n - 1);
    }
  }

  /** No slot holds more than its size, no more citizens work than are free to, and a
      citizen is idle only when the food, timber and metal slots are all taken. */
  lemma SeatFair(g: Rules, w: World)
    requires g.Ok() && NonNegative(Slots(g, w)) && Built(w, Citizen) >= w.builders
    ensures forall r | 0 <= r < 6 :: 0 <= Seat(g, w)[r] <= Slots(g, w)[r]
    ensures Sum(Seat(g, w)) + w.builders <= Built(w, Citizen)
    ensures Sum(Seat(g, w)) + w.builders < Built(w, Citizen) ==>
              forall r | r in {FOOD, TIMBER, METAL} :: Seat(g, w)[r] == Slots(g, w)[r]
  {
    hide Slots, UsefulVec, Built, Rules.Ok;
    var sl, free := Slots(g, w), Built(w, Citizen) - w.builders;
    var seated := UsefulPass(sl, UsefulVec(g, w), free, 4);
    UsefulPassBalanced(sl, UsefulVec(g, w), free, 4);
    RoomPassFull(sl, free, seated, 3);
    assert ROOM_ORDER[0] == FOOD && ROOM_ORDER[1] == TIMBER && ROOM_ORDER[2] == METAL;
  }

  /** The useful slots of a resource are the least number of workers that reach its cap. */
  lemma UsefulSlotsLeast(g: Rules, w: World, r: int)
    requires g.Ok() && 0 <= r < 6
    ensures var (n, base, cap) := (UsefulSlots(g, w, r), FreeIncome16(g, w, r), Cap16(g, w, r));
            n >= 0 && base + n * g.Slot16() >= cap && (n > 0 ==> base + (n - 1) * g.Slot16() < cap)
  {
    hide FreeIncome16, Cap16;
    var (base, cap, d) := (FreeIncome16(g, w, r), Cap16(g, w, r), g.Slot16());
    if base < cap {
      var x := cap - base + d - 1;
      var n := x / d;
      assert x == n * d + x % d && (n - 1) * d == n * d - d;
      DivAbove(x, d);
    }
  }

  /** What the first pass wants on `r`. */
  function Want(sl: Vec, useful: Vec, r: int): int
    requires 0 <= r < 6
  {
    Max(0, Min(sl[r], useful[r]))
  }

  lemma {:induction false} UsefulPassGreedy(sl: Vec, useful: Vec, free: int, n: nat)
    requires NonNegative(sl) && free >= 0 && n <= 4
    ensures var (on, left) := UsefulPass(sl, useful, free, n);
            && (left > 0 ==> forall k | 0 <= k < n :: on[USEFUL_ORDER[k]] == Want(sl, useful, USEFUL_ORDER[k]))
            && forall i, j | 0 <= i < j < n && on[USEFUL_ORDER[j]] > 0 ::
                 on[USEFUL_ORDER[i]] == Want(sl, useful, USEFUL_ORDER[i])
  {
    if n > 0 {
      UsefulPassGreedy(sl, useful, free, n - 1);
      UsefulPassBalanced(sl, useful, free, n - 1);
    }
  }

  /** Food first, then timber, knowledge and metal: nobody works on a later resource while
      an earlier one has a slot that still earns. */
  lemma SeatPriority(g: Rules, w: World, i: nat, j: nat)
    requires g.Ok() && NonNegative(Slots(g, w)) && Built(w, Citizen) >= w.builders
    requires i < j < 4 && Seat(g, w)[USEFUL_ORDER[j]] > 0
    ensures Seat(g, w)[USEFUL_ORDER[i]] >= Want(Slots(g, w), UsefulVec(g, w), USEFUL_ORDER[i])
  {
    hide Slots, UsefulVec, Built, Rules.Ok;
    var (sl, useful, free) := (Slots(g, w), UsefulVec(g, w), Built(w, Citizen) - w.builders);
    var seated := UsefulPass(sl, useful, free, 4);
    UsefulPassBalanced(sl, useful, free, 4);
    UsefulPassGreedy(sl, useful, free, 4);
    RoomPassAdds(sl, free, seated, 3);
  }

  /** The second pass takes nobody away, and moves nobody unless somebody is left. */
  lemma {:induction false} RoomPassAdds(sl: Vec, free: int, seated: (Vec, int), n: nat)
    requires Balanced(sl, free, seated.0, seated.1) && n <= 3
    ensures forall r | 0 <= r < 6 :: RoomPass(sl, seated, n).0[r] >= seated.0[r]
    ensures seated.1 == 0 ==> RoomPass(sl, seated, n) == seated
  {
    if n > 0 {
      RoomPassAdds(sl, free, seated, n - 1);
      RoomPassFull(sl, free, seated, n - 1);
      if seated.1 == 0 {
        var r := ROOM_ORDER[n - 1];
        assert seated.0[r := seated.0[r] + 0] == seated.0;
      }
    }
  }

  lemma SeatedClone(g: Rules, w: World)
    requires g.Ok() && Seated(g, w)
    ensures Clone(g, w) == w
  {
  }

  /** Copying is the identity exactly on states with set counters whose seating is either
      in use or already the computed one. */
  lemma CloneIdentity(g: Rules, w: World)
    requires g.Ok()
    ensures Clone(g, w) == w <==>
              && Owned(w, Citizen) >= 0 && Owned(w, Farm) >= 0 && Owned(w, WoodcutterCamp) >= 0
              && (Sum(w.on) != 0 || w.on == Seat(g, w))
  {
    hide Seat;
    if Clone(g, w) == w {
      assert Clone(g, w).own == w.own;
    }
  }

  lemma SeatIgnores(g: Rules, w: World, v: World)
    requires g.Ok()
    requires v.own == w.own && v.pend == w.pend && v.builders == w.builders && v.epoch == w.epoch
    ensures Seat(g, v) == Seat(g, w)
  {
    assert UsefulVec(g, v) == UsefulVec(g, w);
  }

  lemma FlushSeated(g: Rules, w: World)
    requires g.Ok() && Seated(g, w)
    ensures Seated(g, Flush(g, w))
  {
    hide Seat;
    var v := Flush(g, w);
    if !Settled(w) {
      var u := w.(age := v.age, epoch := v.epoch, pend := v.pend, builders := v.builders);
      SeatIgnores(g, u, v);
    }
  }

  lemma {:induction false} StepsSeated(g: Rules, w: World, n: nat)
    requires g.Ok() && Seated(g, w)
    ensures Seated(g, Steps(g, w, n))
    decreases n
  {
    hide Seat, IncomeOn, Flush;
    if n > 0 {
      SeatIgnores(g, w, Tick(g, w, 1));
      FlushSeated(g, Tick(g, w, 1));
      StepsSeated(g, Step(g, w), n - 1);
    }
  }

  lemma AdvanceSeated(g: Rules, w: World, n: int)
    requires g.Ok() && Seated(g, w)
    ensures Seated(g, Advance(g, w, n))
  {
    hide Seat, Flush, Steps;
    FlushSeated(g, w);
    StepsSeated(g, Flush(g, w), Max(0, n));
  }

  /** A seated state waits for its server in a seated state, so neither copy `apply` takes
      changes anything. */
  lemma AtServerSeated(g: Rules, w: World, item: Item)
    requires g.Ok() && Seated(g, w)
    ensures Clone(g, w) == w
    ensures var v := AtServer(g, w, item);
            && v == Advance(g, w, Max(w.frame, FreeAt(w, ServerOf(item))) - w.frame)
            && Seated(g, v) && Clone(g, v) == v && |v.pend| <= |w.pend|
  {
    hide Seat, Advance, Rules.Ok, Clone;
    var n := Max(w.frame, FreeAt(w, ServerOf(item))) - w.frame;
    SeatedClone(g, w);
    AdvanceRan(g, w, n);
    AdvanceSeated(g, w, n);
    LaterMembers(w.pend, w.frame + n);
    SeatedClone(g, Advance(g, w, n));
  }

  // ---- copies of any state ----

  /** A copy is its own copy, and stays so while time passes. */
  lemma CloneTwice(g: Rules, w: World)
    requires g.Ok()
    ensures Clone(g, Clone(g, w)) == Clone(g, w)
  {
    hide Seat;
    CloneIdentity(g, Clone(g, w));
    var v := Clone(g, w);
    SeatIgnores(g, v.(on := w.on), v);
  }

  lemma FlushSteady(g: Rules, w: World)
    requires g.Ok() && Clone(g, w) == w
    ensures Clone(g, Flush(g, w)) == Flush(g, w)
  {
    hide Seat, Clone, Rules.Ok;
    var v := Flush(g, w);
    CloneIdentity(g, w);
    CloneIdentity(g, v);
    if !Settled(w) {
      var u := w.(age := v.age, epoch := v.epoch, pend := v.pend, builders := v.builders);
      SeatIgnores(g, u, v);
    }
  }

  lemma {:induction false} StepsSteady(g: Rules, w: World, n: nat)
    requires g.Ok() && Clone(g, w) == w
    ensures Clone(g, Steps(g, w, n)) == Steps(g, w, n)
    decreases n
  {
    hide Seat, IncomeOn, Flush, Clone, Rules.Ok;
    if n > 0 {
      var v := Tick(g, w, 1);
      SeatIgnores(g, w, v);
      CloneIdentity(g, w);
      CloneIdentity(g, v);
      FlushSteady(g, v);
      StepsSteady(g, Step(g, w), n - 1);
    }
  }

  /** Whatever the state, waiting for the server leads to one that copying does not change. */
  lemma AtServerSteady(g: Rules, w: World, item: Item)
    requires g.Ok()
    ensures var v := AtServer(g, w, item);
            && v == Advance(g, Clone(g, w), Max(Clone(g, w).frame, FreeAt(Clone(g, w), ServerOf(item))) - Clone(g, w).frame)
            && Clone(g, v) == v && |v.pend| <= |w.pend|
  {
    hide Seat, Flush, Steps, Rules.Ok, Clone;
    var s := Clone(g, w);
    var n := Max(s.frame, FreeAt(s, ServerOf(item))) - s.frame;
    CloneTwice(g, w);
    CloneTimes(g, w);
    FlushSteady(g, s);
    StepsSteady(g, Flush(g, s), Max(0, n));
    AdvanceRan(g, s, n);
    LaterMembers(s.pend, Advance(g, s, n).frame);
  }

  /** A copy stands at the same frame with the same queue and servers. */
  lemma CloneTimes(g: Rules, w: World)
    requires g.Ok()
    ensures var c := Clone(g, w);
            c.frame == w.frame && c.pend == w.pend && c.tFree == w.tFree && c.bFree == w.bFree && c.lFree == w.lFree
  {
  }
}
