/** The GraphicEvents parser as it runs: a shared cursor, checks in stream order, loops. */
module GraphicEventsReader {
  import opened Costs
  import opened SaveCodec
  import opened SaveGrammar
  import opened SaveSections
  import opened SaveReader

  type Event = (int, seq<int>)

  method ParseEvent(reader: Reader) returns (r: Option<Event>)
    requires reader.Valid()
    modifies reader`pos
    ensures reader.Valid() && Got(EventC(), old(reader.Rest()), r, reader.pos - old(reader.pos))
    ensures r.Some? ==> reader.pos >= old(reader.pos) && reader.Rest() == old(reader.Rest())[reader.pos - old(reader.pos)..]
  {
    hide IntC, IntsC;
    var kind := reader.Int(I32);
    if kind.None? { return None; }
    var payload := reader.Ints(Times(U8, if kind.value == 8 then 19 else 28));
    if payload.None? { return None; }
    return Some((kind.value, payload.value));
  }

  method ParseEventSlots(reader: Reader, plane: seq<int>) returns (r: Option<seq<Option<Event>>>)
    requires reader.Valid()
    modifies reader`pos
    ensures reader.Valid() && Got(EachC(SlotCs(EventC(), plane)), old(reader.Rest()), r, reader.pos - old(reader.pos))
    ensures r.Some? ==> reader.pos >= old(reader.pos) && reader.Rest() == old(reader.Rest())[reader.pos - old(reader.pos)..]
  {
    hide EventC, SlotCs, EachDec, Midway;
    ghost var cs := SlotCs(EventC(), plane);
    SlotCsAt(EventC(), plane);
    ghost var s0, p0 := reader.Rest(), reader.pos;
    var slots: seq<Option<Event>> := [];
    MidwayStart(cs, s0);
    for i := 0 to |plane|
      invariant reader.Valid() && p0 <= reader.pos && Midway(cs, s0, i, slots, reader.pos - p0, reader.Rest())
    {
      ghost var s, p := reader.Rest(), reader.pos;
      var slot: Option<Event> := None;
      if plane[i] == 1 {
        slot := ParseEvent(reader);
        if slot.None? {
          MidwayStuck(cs, s0, i, slots, p - p0, s);
          return None;
        }
      }
      MidwayNext(cs, s0, i, slots, p - p0, s, slot, reader.pos - p);
      slots := slots + [slot];
    }
    MidwayEnd(cs, s0, slots, reader.pos - p0, reader.Rest());
    return Some(slots);
  }

  method ParseEventPointers(reader: Reader, h: seq<int>, n: nat) returns (r: Option<PtrBody<Event>>)
    requires reader.Valid() && |h| == 3
    modifies reader`pos
    ensures reader.Valid() && Got(PtrBodyC(EventC(), h, n), old(reader.Rest()), r, reader.pos - old(reader.pos))
    ensures r.Some? ==> reader.pos >= old(reader.pos) && reader.Rest() == old(reader.Rest())[reader.pos - old(reader.pos)..]
  {
    hide EventC, EachC, PlaneC, RepeatC, SlotCs, PtrBodyC;
    PtrBodySteps(EventC(), h, n, reader.Rest());
    var plane := reader.Plane(n);
    if plane.None? { return None; }
    var again := reader.Repeat(h);
    if again.None? { return None; }
    var slots := ParseEventSlots(reader, plane.value);
    if slots.None? { return None; }
    return Some((plane.value, (again.value, slots.value)));
  }

  method ParseEventArray(reader: Reader) returns (r: Option<Events>)
    requires reader.Valid()
    modifies reader`pos
    ensures reader.Valid() && Got(PtrArrC(EventC()), old(reader.Rest()), r, reader.pos - old(reader.pos))
    ensures r.Some? ==> reader.pos >= old(reader.pos) && reader.Rest() == old(reader.Rest())[reader.pos - old(reader.pos)..]
  {
    hide CountC, HistoryC, EventC, PtrArrC, PtrTailC, PtrBodyC;
    PtrSteps(EventC(), reader.Rest());
    var length := reader.Count();
    if length.None? { return None; }
    PtrTailSteps(EventC(), length.value, reader.Rest());
    if length.value == 0 {
      return Some(PtrArr([], []));
    }
    var history := reader.History(length.value);
    if history.None? { return None; }
    var body := ParseEventPointers(reader, history.value, length.value);
    if body.None? { return None; }
    return Some(PtrArr(history.value, body.value.1.1));
  }

  method ParseEventArrays(reader: Reader) returns (r: Option<seq<Events>>)
    requires reader.Valid()
    modifies reader`pos
    ensures reader.Valid() && Got(EachC(Copies(PtrArrC(EventC()), EVENT_KINDS)), old(reader.Rest()), r, reader.pos - old(reader.pos))
    ensures r.Some? ==> reader.pos >= old(reader.pos) && reader.Rest() == old(reader.Rest())[reader.pos - old(reader.pos)..]
  {
    hide EventC, PtrArrC, Copies, EachDec, Midway;
    ghost var cs := Copies(PtrArrC(EventC()), EVENT_KINDS);
    CopiesAt(PtrArrC(EventC()), EVENT_KINDS);
    ghost var s0, p0 := reader.Rest(), reader.pos;
    var arrays: seq<Events> := [];
    MidwayStart(cs, s0);
    for i := 0 to EVENT_KINDS
      invariant reader.Valid() && p0 <= reader.pos && Midway(cs, s0, i, arrays, reader.pos - p0, reader.Rest())
    {
      ghost var s, p := reader.Rest(), reader.pos;
      var events := ParseEventArray(reader);
      if events.None? {
        MidwayStuck(cs, s0, i, arrays, p - p0, s);
        return None;
      }
      MidwayNext(cs, s0, i, arrays, p - p0, s, events.value, reader.pos - p);
      arrays := arrays + [events.value];
    }
    MidwayEnd(cs, s0, arrays, reader.pos - p0, reader.Rest());
    return Some(arrays);
  }

  method ParseGroupFields(reader: Reader) returns (r: Option<Group>)
    requires reader.Valid()
    modifies reader`pos
    ensures reader.Valid() && Got(GroupC(), old(reader.Rest()), r, reader.pos - old(reader.pos))
    ensures r.Some? ==> reader.pos >= old(reader.pos) && reader.Rest() == old(reader.Rest())[reader.pos - old(reader.pos)..]
  {
    hide CivAgeC, EachC, PtrArrC, EventC;
    var arrays := ParseEventArrays(reader);
    if arrays.None? { return None; }
    var civAge := ParseCivAge(reader);
    if civAge.None? { return None; }
    return Some(Group(arrays.value, civAge.value.0, civAge.value.1));
  }

  method ParseCivAge(reader: Reader) returns (r: Option<(int, int)>)
    requires reader.Valid()
    modifies reader`pos
    ensures reader.Valid() && Got(CivAgeC(), old(reader.Rest()), r, reader.pos - old(reader.pos))
    ensures r.Some? ==> reader.pos >= old(reader.pos) && reader.Rest() == old(reader.Rest())[reader.pos - old(reader.pos)..]
  {
    hide IntC;
    var civ := reader.Int(I8);
    if civ.None? { return None; }
    var age := reader.Int(I8);
    if age.None? { return None; }
    return Some((civ.value, age.value));
  }

  /** A group and the byte that says whether another follows. */
  method ParseGroup(reader: Reader) returns (r: Option<(Group, int)>)
    requires reader.Valid()
    modifies reader`pos
    ensures reader.Valid() && Got(LinkedC(GroupC()), old(reader.Rest()), r, reader.pos - old(reader.pos))
    ensures r.Some? ==> reader.pos >= old(reader.pos) && reader.Rest() == old(reader.Rest())[reader.pos - old(reader.pos)..]
  {
    hide IntC, GroupC;
    var group := ParseGroupFields(reader);
    if group.None? { return None; }
    var next := reader.Int(U8);
    if next.None? || (next.value != 0 && next.value != 1) { return None; }
    return Some((group.value, next.value));
  }

  /** Follow next bytes until one is zero; a chain may not be too long. */
  method ParseChain(reader: Reader) returns (r: Option<seq<Group>>)
    requires reader.Valid()
    modifies reader`pos
    ensures reader.Valid() && Got(ChainC(GroupC()), old(reader.Rest()), r, reader.pos - old(reader.pos))
    ensures r.Some? ==> reader.pos >= old(reader.pos) && reader.Rest() == old(reader.Rest())[reader.pos - old(reader.pos)..]
  {
    hide GroupC, LinkedC, ChainDec, Join;
    ghost var c, s0, p0 := GroupC(), reader.Rest(), reader.pos;
    var groups: seq<Group>, next := [], 1;
    ChainBegin(c, s0, MAX_COUNT);
    while next != 0
      invariant reader.Valid() && p0 <= reader.pos && reader.Rest() == s0[reader.pos - p0..]
      invariant |groups| <= MAX_COUNT
      invariant next != 0 ==>
                  ChainDec(c, s0, MAX_COUNT) == Join(groups, reader.pos - p0, ChainDec(c, reader.Rest(), MAX_COUNT - |groups|))
      invariant next == 0 ==> ChainDec(c, s0, MAX_COUNT) == Some((groups, reader.pos - p0))
      decreases MAX_COUNT - |groups|, next
    {
      ghost var s, p := reader.Rest(), reader.pos;
      var group := ParseGroup(reader);
      if group.None? || |groups| + 1 > MAX_COUNT {
        ChainStuck(c, s, MAX_COUNT - |groups|, groups, p - p0);
        return None;
      }
      ChainNext(c, s, MAX_COUNT - |groups|, groups, p - p0, group.value, reader.pos - p);
      groups, next := groups + [group.value.0], group.value.1;
    }
    return Some(groups);
  }

  method ParseChains(reader: Reader, plane: seq<int>) returns (r: Option<seq<seq<Group>>>)
    requires reader.Valid()
    modifies reader`pos
    ensures reader.Valid() && Got(ChainsC(GroupC(), plane), old(reader.Rest()), r, reader.pos - old(reader.pos))
    ensures r.Some? ==> reader.pos >= old(reader.pos) && reader.Rest() == old(reader.Rest())[reader.pos - old(reader.pos)..]
  {
    hide GroupC, ChainC, ChainCs, EachDec, Midway;
    ghost var cs := ChainCs(GroupC(), plane);
    ChainCsAt(GroupC(), plane);
    ghost var s0, p0 := reader.Rest(), reader.pos;
    var slots: seq<seq<Group>> := [];
    MidwayStart(cs, s0);
    for i := 0 to |plane|
      invariant reader.Valid() && p0 <= reader.pos && Midway(cs, s0, i, slots, reader.pos - p0, reader.Rest())
    {
      ghost var s, p := reader.Rest(), reader.pos;
      var chain: seq<Group> := [];
      if plane[i] == 1 {
        var got := ParseChain(reader);
        if got.None? {
          MidwayStuck(cs, s0, i, slots, p - p0, s);
          return None;
        }
        chain := got.value;
      }
      MidwayNext(cs, s0, i, slots, p - p0, s, chain, reader.pos - p);
      slots := slots + [chain];
    }
    MidwayEnd(cs, s0, slots, reader.pos - p0, reader.Rest());
    return Some(slots);
  }

  method ParseElements(reader: Reader, size: nat, n: nat) returns (r: Option<seq<seq<int>>>)
    requires reader.Valid()
    modifies reader`pos
    ensures reader.Valid() && Got(EachC(Copies(IntsC(Times(U8, size)), n)), old(reader.Rest()), r, reader.pos - old(reader.pos))
    ensures r.Some? ==> reader.pos >= old(reader.pos) && reader.Rest() == old(reader.Rest())[reader.pos - old(reader.pos)..]
  {
    hide IntsC, Copies, EachDec, Midway;
    ghost var cs := Copies(IntsC(Times(U8, size)), n);
    CopiesAt(IntsC(Times(U8, size)), n);
    ghost var s0, p0 := reader.Rest(), reader.pos;
    var elems: seq<seq<int>> := [];
    MidwayStart(cs, s0);
    for i := 0 to n
      invariant reader.Valid() && p0 <= reader.pos && Midway(cs, s0, i, elems, reader.pos - p0, reader.Rest())
    {
      ghost var s, p := reader.Rest(), reader.pos;
      var elem := reader.Ints(Times(U8, size));
      if elem.None? {
        MidwayStuck(cs, s0, i, elems, p - p0, s);
        return None;
      }
      MidwayNext(cs, s0, i, elems, p - p0, s, elem.value, reader.pos - p);
      elems := elems + [elem.value];
    }
    MidwayEnd(cs, s0, elems, reader.pos - p0, reader.Rest());
    return Some(elems);
  }

  method ParseRawArray(reader: Reader, size: nat) returns (r: Option<Arr<seq<int>>>)
    requires reader.Valid()
    modifies reader`pos
    ensures reader.Valid() && Got(RawArrC(size), old(reader.Rest()), r, reader.pos - old(reader.pos))
    ensures r.Some? ==> reader.pos >= old(reader.pos) && reader.Rest() == old(reader.Rest())[reader.pos - old(reader.pos)..]
  {
    hide CountC, HistoryC, EachC, ArrC, ArrTailC, IntsC;
    ghost var c := IntsC(Times(U8, size));
    ArrSteps(c, reader.Rest());
    var length := reader.Count();
    if length.None? { return None; }
    ArrTailSteps(c, length.value, reader.Rest());
    if length.value == 0 {
      return Some(Arr([], []));
    }
    var history := reader.History(length.value);
    if history.None? { return None; }
    var elems := ParseElements(reader, size, length.value);
    if elems.None? { return None; }
    return Some(Arr(history.value, elems.value));
  }

  method ParseTrailer(reader: Reader) returns (r: Option<seq<Arr<seq<int>>>>)
    requires reader.Valid()
    modifies reader`pos
    ensures reader.Valid() && Got(TrailerC(), old(reader.Rest()), r, reader.pos - old(reader.pos))
    ensures r.Some? ==> reader.pos >= old(reader.pos) && reader.Rest() == old(reader.Rest())[reader.pos - old(reader.pos)..]
  {
    hide RawArrC, TrailerCs, EachDec, Midway;
    ghost var cs := TrailerCs();
    TrailerCsAt();
    ghost var s0, p0 := reader.Rest(), reader.pos;
    var arrays: seq<Arr<seq<int>>> := [];
    MidwayStart(cs, s0);
    for i := 0 to |TRAILER_SIZES|
      invariant reader.Valid() && p0 <= reader.pos && Midway(cs, s0, i, arrays, reader.pos - p0, reader.Rest())
    {
      ghost var s, p := reader.Rest(), reader.pos;
      var elems := ParseRawArray(reader, TRAILER_SIZES[i]);
      if elems.None? {
        MidwayStuck(cs, s0, i, arrays, p - p0, s);
        return None;
      }
      MidwayNext(cs, s0, i, arrays, p - p0, s, elems.value, reader.pos - p);
      arrays := arrays + [elems.value];
    }
    MidwayEnd(cs, s0, arrays, reader.pos - p0, reader.Rest());
    return Some(arrays);
  }

  method ParseSlotChains(reader: Reader, count: nat) returns (r: Option<seq<seq<Group>>>)
    requires reader.Valid()
    modifies reader`pos
    ensures reader.Valid() && Got(SlotsC(count), old(reader.Rest()), r, reader.pos - old(reader.pos))
    ensures r.Some? ==> reader.pos >= old(reader.pos) && reader.Rest() == old(reader.Rest())[reader.pos - old(reader.pos)..]
  {
    hide PlaneC, ChainsC, GroupC;
    var plane := reader.Plane(count);
    if plane.None? { return None; }
    r := ParseChains(reader, plane.value);
  }

  /** Parse one section at `offset` for the caller's slot count. An answer is exactly a
      well-formed section whose writing stands at `offset` and ends at `end`; no answer
      means the count is out of range or no such section stands there. */
  method ParseGraphicEventsSection(data: seq<Byte>, offset: int, slotCount: int, requireTag: bool)
    returns (r: Option<EventSection>, end: nat)
    ensures r.Some? ==>
              && 0 <= offset <= end <= |data| && 0 <= slotCount <= MAX_COUNT
              && GraphicEventsC(requireTag, slotCount).wf(r.value)
              && GraphicEventsC(requireTag, slotCount).enc(r.value) == data[offset..end]
    ensures r.None? && 0 <= offset <= |data| && 0 <= slotCount <= MAX_COUNT ==>
              forall v, t | GraphicEventsC(requireTag, slotCount).wf(v) ::
                data[offset..] != GraphicEventsC(requireTag, slotCount).enc(v) + t
  {
    hide GraphicEventsC, Exact;
    end := 0;
    if slotCount < 0 || slotCount > MAX_COUNT || offset < 0 || offset > |data| {
      return None, 0;
    }
    ghost var c := GraphicEventsC(requireTag, slotCount);
    GraphicEventsExact(requireTag, slotCount);
    var reader := new Reader(data, offset);
    ghost var s := reader.Rest();
    r := ParseEventSection(reader, slotCount, requireTag);
    if r.None? {
      NothingThere(c, s);
      return None, 0;
    }
    end := reader.pos;
    WroteThis(c, s);
    assert s[..end - offset] == data[offset..end];
  }

  method ParseEventSection(reader: Reader, count: nat, requireTag: bool) returns (r: Option<EventSection>)
    requires reader.Valid()
    modifies reader`pos
    ensures reader.Valid() && Got(GraphicEventsC(requireTag, count), old(reader.Rest()), r, reader.pos - old(reader.pos))
    ensures r.Some? ==> reader.pos >= old(reader.pos) && reader.Rest() == old(reader.Rest())[reader.pos - old(reader.pos)..]
  {
    hide IntC, SlotsTailC;
    var tag := reader.Int(U8);
    if tag.None? || (requireTag && tag.value != TAG) { return None; }
    var rest := ParseSlotsTail(reader, count);
    if rest.None? { return None; }
    return Some(EventSection(tag.value, rest.value.0, rest.value.1.0, rest.value.1.1));
  }

  method ParseSlotsTail(reader: Reader, count: nat) returns (r: Option<SlotsTail>)
    requires reader.Valid()
    modifies reader`pos
    ensures reader.Valid() && Got(SlotsTailC(count), old(reader.Rest()), r, reader.pos - old(reader.pos))
    ensures r.Some? ==> reader.pos >= old(reader.pos) && reader.Rest() == old(reader.Rest())[reader.pos - old(reader.pos)..]
  {
    hide SlotsC, TailC;
    var slots := ParseSlotChains(reader, count);
    if slots.None? { return None; }
    var tail := ParseTail(reader);
    if tail.None? { return None; }
    return Some((slots.value, tail.value));
  }

  method ParseTail(reader: Reader) returns (r: Option<(seq<Arr<seq<int>>>, seq<int>)>)
    requires reader.Valid()
    modifies reader`pos
    ensures reader.Valid() && Got(TailC(), old(reader.Rest()), r, reader.pos - old(reader.pos))
    ensures r.Some? ==> reader.pos >= old(reader.pos) && reader.Rest() == old(reader.Rest())[reader.pos - old(reader.pos)..]
  {
    hide IntsC, TrailerC;
    var arrays := ParseTrailer(reader);
    if arrays.None? { return None; }
    var missile := reader.Ints([I32, I32, I32]);
    if missile.None? { return None; }
    return Some((arrays.value, missile.value));
  }

  // ---- chains, one group at a time ----

  lemma ChainBegin(c: Codec<Group>, s: seq<Byte>, room: nat)
    ensures Join([], 0, ChainDec(c, s, room)) == ChainDec(c, s, room)
  {
    hide ChainDec;
    if ChainDec(c, s, room).Some? { assert [] + ChainDec(c, s, room).value.0 == ChainDec(c, s, room).value.0; }
  }

  lemma ChainStuck(c: Codec<Group>, s: seq<Byte>, room: nat, gs: seq<Group>, used: nat)
    requires LinkedC(c).dec(s).None? || room == 0
    ensures Join(gs, used, ChainDec(c, s, room)).None?
  {
    ChainDecHead(c, s, room);
  }

  lemma ChainNext(c: Codec<Group>, s: seq<Byte>, room: nat, gs: seq<Group>, used: nat, link: (Group, int), n: nat)
    requires room > 0 && LinkedC(c).dec(s) == Some((link, n)) && n <= |s|
    ensures link.1 == 0 ==> Join(gs, used, ChainDec(c, s, room)) == Some((gs + [link.0], used + n))
    ensures link.1 != 0 ==>
              Join(gs, used, ChainDec(c, s, room)) == Join(gs + [link.0], used + n, ChainDec(c, s[n..], room - 1))
  {
    hide ChainDec, LinkedC;
    ChainDecStep(c, s, room, link.0, link.1, n);
    var tail := ChainDec(c, s[n..], room - 1);
    if tail.Some? { assert gs + ([link.0] + tail.value.0) == gs + [link.0] + tail.value.0; }
  }

  lemma ChainCsAt(c: Codec<Group>, plane: seq<int>)
    ensures |ChainCs(c, plane)| == |plane|
    ensures forall i | 0 <= i < |plane| :: ChainCs(c, plane)[i] == SlotC(c, plane[i] == 1)
  {
  }

  lemma TrailerCsAt()
    ensures |TrailerCs()| == |TRAILER_SIZES|
    ensures forall i | 0 <= i < |TRAILER_SIZES| :: TrailerCs()[i] == RawArrC(TRAILER_SIZES[i])
  {
  }
}
