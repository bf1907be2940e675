/** Which types another type counts as: itself, its ancestors and the grafts among them. */
module TypeTree {
  import opened Costs
  import opened SaveCodec
  import opened RulesWalk

  const RECORD_SIZE := 1792

  const FROM_AT := 0x3C
  const GRAFT_AT := 0x25C
  const MASK_AT := 0x2B4

  /** The little-endian integer at `offset` of a record. */
  function IntAt(t: IntType, image: seq<Byte>, offset: nat): int
    requires offset + t.width <= |image|
  {
    DecInt(t, image[offset..]).value.0
  }

  type Types = ts: seq<seq<Byte>> | |ts| == TYPE_SLOTS && forall image | image in ts :: |image| == RECORD_SIZE
    ghost witness seq(TYPE_SLOTS, _ => seq(RECORD_SIZE, _ => 0))

  predicate Slot(i: int) { 0 <= i < TYPE_SLOTS }

  function From(types: Types, i: int): int
    requires Slot(i)
  {
    IntAt(I32, types[i], FROM_AT)
  }

  function Graft(types: Types, i: int): int
    requires Slot(i)
  {
    IntAt(I32, types[i], GRAFT_AT)
  }

  predicate UnitSlot(i: int) { 50 <= i <= 413 }

  /** Bit 24 of the mask word. */
  predicate Masked24(types: Types, i: int)
    requires Slot(i)
  {
    IntAt(U32, types[i], MASK_AT) / 0x0100_0000 % 2 == 1
  }

  /** The from-chain of `owner` as far as `cs` goes: in range and without repetition. */
  ghost predicate Path(types: Types, owner: int, cs: seq<int>) {
    && cs != [] && cs[0] == owner
    && (forall i | 0 <= i < |cs| :: Slot(cs[i]))
    && (forall i | 0 <= i < |cs| - 1 :: cs[i + 1] == From(types, cs[i]))
    && forall i, j | 0 <= i < j < |cs| :: cs[i] != cs[j]
  }

  predicate Hit(types: Types, i: int, target: int) { i == target || (Slot(i) && Graft(types, i) == target) }

  ghost predicate Hits(types: Types, cs: seq<int>, target: int) {
    exists i :: 0 <= i < |cs| && Hit(types, cs[i], target)
  }

  function Last(cs: seq<int>): int
    requires cs != []
  {
    cs[|cs| - 1]
  }

  /** The whole chain: its last type has no parent. */
  ghost predicate Chain(types: Types, owner: int, cs: seq<int>) {
    Path(types, owner, cs) && From(types, Last(cs)) < 0
  }

  /** The chain leaves the table or comes back to itself. */
  ghost predicate Broken(types: Types, owner: int, cs: seq<int>) {
    Path(types, owner, cs) && (From(types, Last(cs)) >= TYPE_SLOTS || From(types, Last(cs)) in cs)
  }

  ghost predicate StrictlySlow(types: Types, owner: int, target: int)
    requires Slot(owner)
  {
    owner == target || (UnitSlot(owner) && Graft(types, owner) == target && UnitSlot(target) && !Masked24(types, target))
  }

  /** Strictly: itself or its unmasked unit graft. Otherwise the from-chain decides: the
      target is on it, as a type or as a graft, before anything is wrong with it; or the
      chain ends without it; or the chain goes wrong first, which is an error. */
  method IsSlow(types: Types, owner: int, target: int, strict: bool) returns (r: Option<bool>)
    requires Slot(owner)
    ensures strict ==> r == Some(StrictlySlow(types, owner, target))
    ensures !strict && target < 0 ==> r == Some(false)
    ensures !strict && target >= 0 ==>
              && (r == Some(true) <==> exists cs :: Path(types, owner, cs) && Hits(types, cs, target))
              && (r == Some(false) <==> exists cs :: Chain(types, owner, cs) && !Hits(types, cs, target))
              && (r == None <==> exists cs :: Broken(types, owner, cs) && !Hits(types, cs, target))
  {
    hide From, Graft, IntAt, Masked24;
    ghost var cs := [owner];
    if owner == target {
      HitDecides(types, owner, cs, target);
      return Some(true);
    }
    if strict {
      if !UnitSlot(owner) {
        return Some(false);
      }
      return Some(Graft(types, owner) == target && UnitSlot(target) && !Masked24(types, target));
    }
    if target < 0 || Graft(types, owner) == target {
      if target >= 0 { HitDecides(types, owner, cs, target); }
      return Some(target >= 0);
    }
    var seen := {owner};
    var parent := From(types, owner);
    ghost var all := set i | 0 <= i < TYPE_SLOTS && Slot(i);
    while parent >= 0
      invariant Path(types, owner, cs) && !Hits(types, cs, target) && parent == From(types, Last(cs))
      invariant seen <= all && forall i :: i in seen <==> i in cs
      decreases all - seen
    {
      if parent >= TYPE_SLOTS || parent in seen {
        BreakDecides(types, owner, cs, target);
        return None;
      }
      ghost var was := cs;
      cs := cs + [parent];
      if parent == target || Graft(types, parent) == target {
        assert Hit(types, cs[|was|], target);
        HitDecides(types, owner, cs, target);
        return Some(true);
      }
      assert Slot(parent) && parent in all - seen;
      seen := seen + {parent};
      parent := From(types, parent);
    }
    EndDecides(types, owner, cs, target);
    return Some(false);
  }

  /** One owner has one chain: of two paths, the shorter begins the longer. */
  lemma {:induction false} OneChain(types: Types, owner: int, cs: seq<int>, ds: seq<int>, n: nat)
    requires Path(types, owner, cs) && Path(types, owner, ds) && n < |cs| && n < |ds|
    ensures cs[n] == ds[n]
    decreases n
  {
    if n > 0 { OneChain(types, owner, cs, ds, n - 1); }
  }

  lemma ShorterBegins(types: Types, owner: int, cs: seq<int>, ds: seq<int>)
    requires Path(types, owner, cs) && Path(types, owner, ds) && |cs| <= |ds|
    ensures cs == ds[..|cs|] && Last(cs) == ds[|cs| - 1]
    ensures forall target :: Hits(types, cs, target) ==> Hits(types, ds, target)
  {
    forall n | 0 <= n < |cs| ensures cs[n] == ds[n] { OneChain(types, owner, cs, ds, n); }
    forall target | Hits(types, cs, target) ensures Hits(types, ds, target) {
      var i :| 0 <= i < |cs| && Hit(types, cs[i], target);
      assert Hit(types, ds[i], target);
    }
  }

  /** Past the end of a chain, or past where it breaks, no path goes on. */
  lemma NoFurther(types: Types, owner: int, cs: seq<int>, ds: seq<int>)
    requires (Chain(types, owner, cs) || Broken(types, owner, cs)) && Path(types, owner, ds)
    ensures |ds| <= |cs|
  {
    if |ds| > |cs| { PathGoesOn(types, owner, cs, ds); }
  }

  lemma PathGoesOn(types: Types, owner: int, cs: seq<int>, ds: seq<int>)
    requires Path(types, owner, cs) && Path(types, owner, ds) && |ds| > |cs|
    ensures var next := From(types, Last(cs)); Slot(next) && next !in cs
  {
    hide From;
    ShorterBegins(types, owner, cs, ds);
    assert ds[|cs| - 1 + 1] == From(types, ds[|cs| - 1]);
    forall i | 0 <= i < |cs| ensures cs[i] != ds[|cs|] { assert cs[i] == ds[i]; }
  }

  lemma HitDecides(types: Types, owner: int, cs: seq<int>, target: int)
    requires Path(types, owner, cs) && Hit(types, Last(cs), target)
    ensures exists ds :: Path(types, owner, ds) && Hits(types, ds, target)
    ensures !exists ds :: Chain(types, owner, ds) && !Hits(types, ds, target)
    ensures !exists ds :: Broken(types, owner, ds) && !Hits(types, ds, target)
  {
    assert Hits(types, cs, target) by { assert Hit(types, cs[|cs| - 1], target); }
    forall ds | Chain(types, owner, ds) || Broken(types, owner, ds) ensures Hits(types, ds, target) {
      NoFurther(types, owner, ds, cs);
      ShorterBegins(types, owner, cs, ds);
    }
  }

  lemma MissDecides(types: Types, owner: int, cs: seq<int>, target: int)
    requires Chain(types, owner, cs) || Broken(types, owner, cs)
    requires !Hits(types, cs, target)
    ensures !exists ds :: Path(types, owner, ds) && Hits(types, ds, target)
  {
    forall ds | Path(types, owner, ds) ensures !Hits(types, ds, target) {
      NoFurther(types, owner, cs, ds);
      ShorterBegins(types, owner, ds, cs);
    }
  }

  lemma EndDecides(types: Types, owner: int, cs: seq<int>, target: int)
    requires Chain(types, owner, cs) && !Hits(types, cs, target)
    ensures !exists ds :: Path(types, owner, ds) && Hits(types, ds, target)
    ensures exists ds :: Chain(types, owner, ds) && !Hits(types, ds, target)
    ensures !exists ds :: Broken(types, owner, ds) && !Hits(types, ds, target)
  {
    MissDecides(types, owner, cs, target);
    forall ds | Broken(types, owner, ds) ensures false {
      NoFurther(types, owner, cs, ds);
      NoFurther(types, owner, ds, cs);
      ShorterBegins(types, owner, cs, ds);
    }
  }

  lemma BreakDecides(types: Types, owner: int, cs: seq<int>, target: int)
    requires Broken(types, owner, cs) && !Hits(types, cs, target)
    ensures !exists ds :: Path(types, owner, ds) && Hits(types, ds, target)
    ensures !exists ds :: Chain(types, owner, ds) && !Hits(types, ds, target)
    ensures exists ds :: Broken(types, owner, ds) && !Hits(types, ds, target)
  {
    MissDecides(types, owner, cs, target);
    forall ds | Chain(types, owner, ds) ensures false {
      NoFurther(types, owner, cs, ds);
      NoFurther(types, owner, ds, cs);
      ShorterBegins(types, owner, cs, ds);
    }
  }
}
