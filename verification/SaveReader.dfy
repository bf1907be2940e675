/** The cursor and its parse methods, each proved against its grammar. */
module SaveReader {
  import opened Costs
  import opened SaveCodec
  import opened SaveGrammar
  import opened SaveSections

  /** What reading `s` with `c` must give: the value and the bytes used, or nothing. */
  ghost predicate Got<V>(c: Codec<V>, s: seq<Byte>, r: Option<V>, used: int) {
    match r
    case None => c.dec(s).None?
    case Some(v) => 0 <= used <= |s| && c.dec(s) == Some((v, used))
  }

  // ---- lists, one element at a time ----

  ghost function Join<V>(vs: seq<V>, used: nat, tail: Option<(seq<V>, nat)>): Option<(seq<V>, nat)> {
    match tail case None => None case Some((ws, m)) => Some((vs + ws, used + m))
  }

  lemma EachBegin<V>(cs: seq<Codec<V>>, s: seq<Byte>)
    ensures Join([], 0, EachDec(cs[0..], s)) == EachDec(cs, s)
  {
    hide EachDec;
    assert cs[0..] == cs;
    if EachDec(cs, s).Some? { assert [] + EachDec(cs, s).value.0 == EachDec(cs, s).value.0; }
  }

  lemma EachNext<V>(cs: seq<Codec<V>>, i: nat, s: seq<Byte>, vs: seq<V>, used: nat, v: V, n: nat)
    requires i < |cs| && cs[i].dec(s) == Some((v, n)) && n <= |s|
    ensures Join(vs, used, EachDec(cs[i..], s)) == Join(vs + [v], used + n, EachDec(cs[i + 1..], s[n..]))
  {
    hide EachDec;
    assert cs[i..][1..] == cs[i + 1..] && cs[i..][0] == cs[i];
    EachDecStep(cs[i..], s, v, n);
    var tail := EachDec(cs[i + 1..], s[n..]);
    if tail.Some? { assert vs + ([v] + tail.value.0) == vs + [v] + tail.value.0; }
  }

  lemma EachStuck<V>(cs: seq<Codec<V>>, i: nat, s: seq<Byte>)
    requires i < |cs| && cs[i].dec(s).None?
    ensures EachDec(cs[i..], s).None?
    ensures forall vs: seq<V>, used: nat :: Join(vs, used, EachDec(cs[i..], s)).None?
  {
    assert cs[i..][0] == cs[i];
  }

  lemma EachEnd<V>(cs: seq<Codec<V>>, s: seq<Byte>, vs: seq<V>, used: nat)
    ensures Join(vs, used, EachDec(cs[|cs|..], s)) == Some((vs, used))
  {
    assert cs[|cs|..] == [] && vs + [] == vs;
  }

  /** The first `i` elements of a list have been read, `used` bytes in all. */
  ghost predicate Midway<V>(cs: seq<Codec<V>>, s0: seq<Byte>, i: nat, vs: seq<V>, used: int, rest: seq<Byte>) {
    && i <= |cs| && 0 <= used <= |s0| && rest == s0[used..]
    && EachDec(cs, s0) == Join(vs, used, EachDec(cs[i..], rest))
  }

  lemma MidwayStart<V>(cs: seq<Codec<V>>, s0: seq<Byte>)
    ensures Midway(cs, s0, 0, [], 0, s0)
  {
    hide EachDec, Join;
    EachBegin(cs, s0);
  }

  lemma MidwayNext<V>(cs: seq<Codec<V>>, s0: seq<Byte>, i: nat, vs: seq<V>, used: nat, rest: seq<Byte>, v: V, n: nat)
    requires Midway(cs, s0, i, vs, used, rest) && i < |cs| && cs[i].dec(rest) == Some((v, n)) && n <= |rest|
    ensures Midway(cs, s0, i + 1, vs + [v], used + n, rest[n..])
  {
    hide EachDec, Join;
    EachNext(cs, i, rest, vs, used, v, n);
    assert rest[n..] == s0[used + n..];
  }

  lemma MidwayStuck<V>(cs: seq<Codec<V>>, s0: seq<Byte>, i: nat, vs: seq<V>, used: nat, rest: seq<Byte>)
    requires Midway(cs, s0, i, vs, used, rest) && i < |cs| && cs[i].dec(rest).None?
    ensures EachDec(cs, s0).None?
  {
    hide EachDec, Join;
    EachStuck(cs, i, rest);
  }

  lemma MidwayEnd<V>(cs: seq<Codec<V>>, s0: seq<Byte>, vs: seq<V>, used: nat, rest: seq<Byte>)
    requires Midway(cs, s0, |cs|, vs, used, rest)
    ensures EachDec(cs, s0) == Some((vs, used)) && used <= |s0| && rest == s0[used..]
  {
    hide EachDec, Join;
    EachEnd(cs, rest, vs, used);
  }

  lemma EachGot<V>(cs: seq<Codec<V>>, s: seq<Byte>)
    ensures EachC(cs).dec(s) == EachDec(cs, s)
  {
  }

  lemma CopiesAt<V>(c: Codec<V>, n: nat)
    ensures |Copies(c, n)| == n && forall i | 0 <= i < n :: Copies(c, n)[i] == c
  {
  }

  lemma SlotCsAt<V>(c: Codec<V>, plane: seq<int>)
    ensures |SlotCs(c, plane)| == |plane|
    ensures forall i | 0 <= i < |plane| :: SlotCs(c, plane)[i] == OptC(c, plane[i] == 1)
  {
  }

  lemma PodCsAt()
    ensures |PodCs()| == |POD_LAYOUT| && forall i | 0 <= i < |POD_LAYOUT| :: PodCs()[i] == IntsC(POD_LAYOUT[i])
  {
  }

  lemma IntCsAt(ts: seq<IntType>)
    ensures |IntCs(ts)| == |ts| && forall i | 0 <= i < |ts| :: IntCs(ts)[i] == IntC(ts[i])
  {
  }

  class Reader {
    const data: seq<Byte>
    var pos: nat

    ghost predicate Valid()
      reads this
    {
      pos <= |data|
    }

    ghost function Rest(): seq<Byte>
      requires Valid()
      reads this
    {
      data[pos..]
    }

    constructor (data: seq<Byte>, offset: nat)
      requires offset <= |data|
      ensures Valid() && this.data == data && pos == offset
    {
      this.data, pos := data, offset;
    }

    method Take(size: nat) returns (r: Option<seq<Byte>>)
      requires Valid()
      modifies this`pos
      ensures Valid()
      ensures r.None? ==> size > |old(Rest())|
      ensures r.Some? ==> size <= |old(Rest())| && r.value == old(Rest())[..size] && pos == old(pos) + size
    {
      var end := pos + size;
      if end > |data| {
        return None;
      }
      r := Some(data[pos..end]);
      pos := end;
    }

    method Int(t: IntType) returns (r: Option<int>)
      requires Valid()
      modifies this`pos
      ensures Valid() && Got(IntC(t), old(Rest()), r, pos - old(pos))
      ensures r.Some? ==> pos >= old(pos) && Rest() == old(Rest())[pos - old(pos)..]
    {
      var raw := Take(t.width);
      if raw.None? {
        return None;
      }
      var u := DecLE(raw.value);
      return Some(if t.signed && 2 * u >= Pow256(t.width) then u - Pow256(t.width) else u);
    }

    method Ints(ts: seq<IntType>) returns (r: Option<seq<int>>)
      requires Valid()
      modifies this`pos
      ensures Valid() && Got(IntsC(ts), old(Rest()), r, pos - old(pos))
      ensures r.Some? ==> pos >= old(pos) && |r.value| == |ts| && Rest() == old(Rest())[pos - old(pos)..]
    {
      hide IntC, EachDec, IntCs, Midway;
      ghost var cs := IntCs(ts);
      IntCsAt(ts);
      ghost var s0, p0 := Rest(), pos;
      var vs: seq<int> := [];
      MidwayStart(cs, s0);
      for i := 0 to |ts|
        invariant Valid() && p0 <= pos && Midway(cs, s0, i, vs, pos - p0, Rest()) && |vs| == i
      {
        ghost var s, p := Rest(), pos;
        var v := Int(ts[i]);
        if v.None? {
          MidwayStuck(cs, s0, i, vs, p - p0, s);
          return None;
        }
        MidwayNext(cs, s0, i, vs, p - p0, s, v.value, pos - p);
        vs := vs + [v.value];
      }
      MidwayEnd(cs, s0, vs, pos - p0, Rest());
      return Some(vs);
    }

    method Count() returns (r: Option<int>)
      requires Valid()
      modifies this`pos
      ensures Valid() && Got(CountC(), old(Rest()), r, pos - old(pos))
      ensures r.Some? ==> 0 <= r.value <= MAX_ARRAY_LENGTH && pos >= old(pos) && Rest() == old(Rest())[pos - old(pos)..]
    {
      hide IntC;
      var n := Int(I32);
      if n.None? || n.value < 0 || n.value > MAX_ARRAY_LENGTH {
        return None;
      }
      return n;
    }

    method History(length: int) returns (r: Option<seq<int>>)
      requires Valid()
      modifies this`pos
      ensures Valid() && Got(HistoryC(length), old(Rest()), r, pos - old(pos))
      ensures r.Some? ==> |r.value| == 3 && pos >= old(pos) && Rest() == old(Rest())[pos - old(pos)..]
    {
      hide IntsC;
      var h := Ints([I32, I16, U8]);
      if h.None? || h.value[0] < length || h.value[0] > MAX_ARRAY_LENGTH || h.value[2] / 64 % 2 != 0 {
        return None;
      }
      return h;
    }

    /** Read a whole plane, then refuse it unless it is boolean. */
    method Plane(n: nat) returns (r: Option<seq<int>>)
      requires Valid()
      modifies this`pos
      ensures Valid() && Got(PlaneC(n), old(Rest()), r, pos - old(pos))
      ensures r.Some? ==> |r.value| == n && pos >= old(pos) && Rest() == old(Rest())[pos - old(pos)..]
    {
      hide IntsC, PlaneC;
      ghost var s0 := Rest();
      var p := Ints(Times(U8, n));
      PlaneIsBytes(n, s0);
      if p.None? || exists i :: 0 <= i < n && p.value[i] != 0 && p.value[i] != 1 {
        return None;
      }
      return p;
    }

    /** The two copies of capacity and increment must agree. */
    method Repeat(h: seq<int>) returns (r: Option<seq<int>>)
      requires Valid() && |h| == 3
      modifies this`pos
      ensures Valid() && Got(RepeatC(h), old(Rest()), r, pos - old(pos))
      ensures r.Some? ==> pos >= old(pos) && Rest() == old(Rest())[pos - old(pos)..]
    {
      hide IntsC;
      var again := Ints([I32, I16]);
      if again.None? || again.value != [h[0], h[1]] {
        return None;
      }
      return again;
    }
  }

  /** An exact reader that refuses an input refuses it for good reason. */
  lemma NothingThere<V(!new)>(c: Codec<V>, s: seq<Byte>)
    requires Exact(c) && c.dec(s).None?
    ensures forall v, t | c.wf(v) :: s != c.enc(v) + t
  {
  }

  /** Checking a plane after reading it accepts what checking each byte accepts. */
  lemma PlaneIsBytes(n: nat, s: seq<Byte>)
    ensures PlaneC(n).dec(s) == match IntsC(Times(U8, n)).dec(s)
                                case None => None
                                case Some((p, m)) =>
                                  if forall i | 0 <= i < |p| :: p[i] == 0 || p[i] == 1 then Some((p, m)) else None
  {
    hide EachDec;
    assert IntCs(Times(U8, n)) == Copies(IntC(U8), n);
    FlagsAreBytes(n, s);
  }

  lemma {:induction false} FlagsAreBytes(n: nat, s: seq<Byte>)
    ensures EachDec(Copies(FlagC(), n), s)
         == match EachDec(Copies(IntC(U8), n), s)
            case None => None
            case Some((p, m)) => if forall i | 0 <= i < |p| :: p[i] == 0 || p[i] == 1 then Some((p, m)) else None
    decreases n
  {
    hide EachDec;
    if n == 0 {
      EachDecNothing<int>(s);
    } else if s == [] {
      assert Copies(FlagC(), n)[0..] == Copies(FlagC(), n) && Copies(IntC(U8), n)[0..] == Copies(IntC(U8), n);
      EachStuck(Copies(FlagC(), n), 0, s);
      EachStuck(Copies(IntC(U8), n), 0, s);
    } else {
      var fs, bs := Copies(FlagC(), n), Copies(IntC(U8), n);
      assert fs[1..] == Copies(FlagC(), n - 1) && bs[1..] == Copies(IntC(U8), n - 1);
      assert s[..1] == [s[0]];
      assert IntC(U8).dec(s) == Some((s[0], 1)) by { OneByte(s); }
      EachDecStep(bs, s, s[0], 1);
      FlagsAreBytes(n - 1, s[1..]);
      var tail := EachDec(bs[1..], s[1..]);
      if tail.Some? {
        var all := [s[0]] + tail.value.0;
        assert all[0] == s[0] && forall i | 1 <= i < |all| :: all[i] == tail.value.0[i - 1];
        assert forall i | 0 <= i < |tail.value.0| :: tail.value.0[i] == all[i + 1];
      }
      if s[0] == 0 || s[0] == 1 {
        EachDecStep(fs, s, s[0], 1);
      } else {
        assert fs[0..] == fs;
        EachStuck(fs, 0, s);
      }
    }
  }

  lemma OneByte(s: seq<Byte>)
    requires s != []
    ensures IntC(U8).dec(s) == Some((s[0], 1))
  {
    assert s[..1] == [s[0]];
    assert [s[0]][1..] == [];
    assert DecLE([s[0]]) == s[0] + 256 * DecLE([]);
  }
}
