/** The Cities parser as it runs: a shared cursor, checks in stream order, loops. */
module CitiesReader {
  import opened Arith
  import opened Costs
  import opened SaveCodec
  import opened SaveGrammar
  import opened SaveSections
  import opened SaveReader

  method ParseString(reader: Reader) returns (r: Option<seq<int>>)
    requires reader.Valid()
    modifies reader`pos
    ensures reader.Valid() && Got(StringC(), old(reader.Rest()), r, reader.pos - old(reader.pos))
    ensures r.Some? ==> reader.pos >= old(reader.pos) && reader.Rest() == old(reader.Rest())[reader.pos - old(reader.pos)..]
  {
    hide IntC, IntsC;
    var length := reader.Int(U32);
    if length.None? || length.value > MAX_STRING_CODE_UNITS {
      return None;
    }
    r := reader.Ints(Times(U16, Max(0, length.value)));
  }

  method ParseLink(reader: Reader) returns (r: Option<seq<int>>)
    requires reader.Valid()
    modifies reader`pos
    ensures reader.Valid() && Got(LinkC(), old(reader.Rest()), r, reader.pos - old(reader.pos))
    ensures r.Some? ==> reader.pos >= old(reader.pos) && reader.Rest() == old(reader.Rest())[reader.pos - old(reader.pos)..]
  {
    r := reader.Ints([I32, I32]);
  }

  method ParseLinks(reader: Reader, n: nat) returns (r: Option<seq<seq<int>>>)
    requires reader.Valid()
    modifies reader`pos
    ensures reader.Valid() && Got(EachC(Copies(LinkC(), n)), old(reader.Rest()), r, reader.pos - old(reader.pos))
    ensures r.Some? ==> reader.pos >= old(reader.pos) && reader.Rest() == old(reader.Rest())[reader.pos - old(reader.pos)..]
  {
    hide LinkC, EachDec, Midway, Copies;
    ghost var cs := Copies(LinkC(), n);
    CopiesAt(LinkC(), n);
    ghost var s0, p0 := reader.Rest(), reader.pos;
    var links: seq<seq<int>> := [];
    MidwayStart(cs, s0);
    for i := 0 to n
      invariant reader.Valid() && p0 <= reader.pos && Midway(cs, s0, i, links, reader.pos - p0, reader.Rest())
    {
      ghost var s, p := reader.Rest(), reader.pos;
      var link := ParseLink(reader);
      if link.None? {
        MidwayStuck(cs, s0, i, links, p - p0, s);
        return None;
      }
      MidwayNext(cs, s0, i, links, p - p0, s, link.value, reader.pos - p);
      links := links + [link.value];
    }
    MidwayEnd(cs, s0, links, reader.pos - p0, reader.Rest());
    return Some(links);
  }

  method ParseCaravans(reader: Reader) returns (r: Option<Arr<seq<int>>>)
    requires reader.Valid()
    modifies reader`pos
    ensures reader.Valid() && Got(ArrC(LinkC()), old(reader.Rest()), r, reader.pos - old(reader.pos))
    ensures r.Some? ==> reader.pos >= old(reader.pos) && reader.Rest() == old(reader.Rest())[reader.pos - old(reader.pos)..]
  {
    hide CountC, HistoryC, LinkC, EachC, ArrC, ArrTailC;
    ArrSteps(LinkC(), reader.Rest());
    var length := reader.Count();
    if length.None? {
      return None;
    }
    ArrTailSteps(LinkC(), length.value, reader.Rest());
    if length.value == 0 {
      return Some(Arr([], []));
    }
    var history := reader.History(length.value);
    if history.None? {
      return None;
    }
    var links := ParseLinks(reader, length.value);
    if links.None? {
      return None;
    }
    return Some(Arr(history.value, links.value));
  }

  method ParsePod(reader: Reader) returns (r: Option<seq<seq<int>>>)
    requires reader.Valid()
    modifies reader`pos
    ensures reader.Valid() && Got(PodC(), old(reader.Rest()), r, reader.pos - old(reader.pos))
    ensures r.Some? ==> reader.pos >= old(reader.pos) && reader.Rest() == old(reader.Rest())[reader.pos - old(reader.pos)..]
  {
    hide IntsC, EachDec, Midway, PodCs;
    ghost var cs := PodCs();
    PodCsAt();
    ghost var s0, p0 := reader.Rest(), reader.pos;
    var fields: seq<seq<int>> := [];
    MidwayStart(cs, s0);
    for i := 0 to |POD_LAYOUT|
      invariant reader.Valid() && p0 <= reader.pos && Midway(cs, s0, i, fields, reader.pos - p0, reader.Rest())
    {
      ghost var s, p := reader.Rest(), reader.pos;
      var field := reader.Ints(POD_LAYOUT[i]);
      if field.None? {
        MidwayStuck(cs, s0, i, fields, p - p0, s);
        return None;
      }
      MidwayNext(cs, s0, i, fields, p - p0, s, field.value, reader.pos - p);
      fields := fields + [field.value];
    }
    MidwayEnd(cs, s0, fields, reader.pos - p0, reader.Rest());
    return Some(fields);
  }

  method ParseBody(reader: Reader) returns (r: Option<CityBody>)
    requires reader.Valid()
    modifies reader`pos
    ensures reader.Valid() && Got(BodyC(), old(reader.Rest()), r, reader.pos - old(reader.pos))
    ensures r.Some? ==> reader.pos >= old(reader.pos) && reader.Rest() == old(reader.Rest())[reader.pos - old(reader.pos)..]
  {
    hide PodC, NamesC;
    var pod := ParsePod(reader);
    if pod.None? { return None; }
    var names := ParseNames(reader);
    if names.None? { return None; }
    return Some(CityBody(pod.value, names.value.0, names.value.1.0, names.value.1.1));
  }

  method ParseNames(reader: Reader) returns (r: Option<Names>)
    requires reader.Valid()
    modifies reader`pos
    ensures reader.Valid() && Got(NamesC(), old(reader.Rest()), r, reader.pos - old(reader.pos))
    ensures r.Some? ==> reader.pos >= old(reader.pos) && reader.Rest() == old(reader.Rest())[reader.pos - old(reader.pos)..]
  {
    hide StringC, ArrC, LinkC;
    var name := ParseString(reader);
    if name.None? { return None; }
    var id := ParseString(reader);
    if id.None? { return None; }
    var vans := ParseCaravans(reader);
    if vans.None? { return None; }
    return Some((name.value, (id.value, vans.value)));
  }

  /** A present slot: an inactive city is its flags alone. */
  method ParseCity(reader: Reader) returns (r: Option<City>)
    requires reader.Valid()
    modifies reader`pos
    ensures reader.Valid() && Got(CityC(), old(reader.Rest()), r, reader.pos - old(reader.pos))
    ensures r.Some? ==> reader.pos >= old(reader.pos) && reader.Rest() == old(reader.Rest())[reader.pos - old(reader.pos)..]
  {
    hide IntC, BodyC;
    var flags := reader.Int(U16);
    if flags.None? { return None; }
    if flags.value % 2 == 0 {
      return Some(City(flags.value, None));
    }
    var body := ParseBody(reader);
    if body.None? { return None; }
    return Some(City(flags.value, Some(body.value)));
  }

  method ParseSlots(reader: Reader, plane: seq<int>) returns (r: Option<seq<Option<City>>>)
    requires reader.Valid()
    modifies reader`pos
    ensures reader.Valid() && Got(EachC(SlotCs(CityC(), plane)), old(reader.Rest()), r, reader.pos - old(reader.pos))
    ensures r.Some? ==> reader.pos >= old(reader.pos) && reader.Rest() == old(reader.Rest())[reader.pos - old(reader.pos)..]
  {
    hide CityC, EachDec, Midway, SlotCs;
    ghost var cs := SlotCs(CityC(), plane);
    SlotCsAt(CityC(), plane);
    ghost var s0, p0 := reader.Rest(), reader.pos;
    var slots: seq<Option<City>> := [];
    MidwayStart(cs, s0);
    for i := 0 to |plane|
      invariant reader.Valid() && p0 <= reader.pos && Midway(cs, s0, i, slots, reader.pos - p0, reader.Rest())
    {
      ghost var s, p := reader.Rest(), reader.pos;
      var slot: Option<City> := None;
      if plane[i] == 1 {
        slot := ParseCity(reader);
        if slot.None? {
          MidwayStuck(cs, s0, i, slots, p - p0, s);
          return None;
        }
      }
      MidwayNext(cs, s0, i, slots, p - p0, s, slot, reader.pos - p);
      slots := slots + [slot];
    }
    MidwayEnd(cs, s0, slots, reader.pos - p0, reader.Rest());
    return Some(slots);
  }

  /** The presence plane, the repeated history, then one city for every set pointer. */
  method ParsePointers(reader: Reader, h: seq<int>, n: nat) returns (r: Option<PtrBody<City>>)
    requires reader.Valid() && |h| == 3
    modifies reader`pos
    ensures reader.Valid() && Got(PtrBodyC(CityC(), h, n), old(reader.Rest()), r, reader.pos - old(reader.pos))
    ensures r.Some? ==> reader.pos >= old(reader.pos) && reader.Rest() == old(reader.Rest())[reader.pos - old(reader.pos)..]
  {
    hide CityC, EachC, PlaneC, RepeatC, SlotCs, PtrBodyC;
    PtrBodySteps(CityC(), h, n, reader.Rest());
    var plane := reader.Plane(n);
    if plane.None? { return None; }
    var again := reader.Repeat(h);
    if again.None? { return None; }
    var slots := ParseSlots(reader, plane.value);
    if slots.None? { return None; }
    return Some((plane.value, (again.value, slots.value)));
  }

  method ParseOwner(reader: Reader) returns (r: Option<Owner>)
    requires reader.Valid()
    modifies reader`pos
    ensures reader.Valid() && Got(PtrArrC(CityC()), old(reader.Rest()), r, reader.pos - old(reader.pos))
    ensures r.Some? ==> reader.pos >= old(reader.pos) && reader.Rest() == old(reader.Rest())[reader.pos - old(reader.pos)..]
  {
    hide CountC, HistoryC, CityC, PtrArrC, PtrTailC, PtrBodyC;
    PtrSteps(CityC(), reader.Rest());
    var length := reader.Count();
    if length.None? { return None; }
    PtrTailSteps(CityC(), length.value, reader.Rest());
    if length.value == 0 {
      return Some(PtrArr([], []));
    }
    var history := reader.History(length.value);
    if history.None? { return None; }
    var body := ParsePointers(reader, history.value, length.value);
    if body.None? { return None; }
    return Some(PtrArr(history.value, body.value.1.1));
  }

  method ParseOwners(reader: Reader) returns (r: Option<seq<Owner>>)
    requires reader.Valid()
    modifies reader`pos
    ensures reader.Valid() && Got(EachC(Copies(PtrArrC(CityC()), OWNER_COUNT)), old(reader.Rest()), r, reader.pos - old(reader.pos))
  {
    hide CityC, PtrArrC, EachDec, EachC, Copies, Midway;
    ghost var cs := Copies(PtrArrC(CityC()), OWNER_COUNT);
    CopiesAt(PtrArrC(CityC()), OWNER_COUNT);
    ghost var s0, p0 := reader.Rest(), reader.pos;
    var owners: seq<Owner> := [];
    EachGot(cs, s0);
    MidwayStart(cs, s0);
    for i := 0 to OWNER_COUNT
      invariant reader.Valid() && p0 <= reader.pos && Midway(cs, s0, i, owners, reader.pos - p0, reader.Rest())
    {
      ghost var s, p := reader.Rest(), reader.pos;
      var owner := ParseOwner(reader);
      if owner.None? {
        MidwayStuck(cs, s0, i, owners, p - p0, s);
        return None;
      }
      MidwayNext(cs, s0, i, owners, p - p0, s, owner.value, reader.pos - p);
      owners := owners + [owner.value];
    }
    MidwayEnd(cs, s0, owners, reader.pos - p0, reader.Rest());
    return Some(owners);
  }

  /** Parse one section at `offset`. An answer is exactly a well-formed section whose
      writing stands at `offset` and ends at `end`; no answer means none stands there. */
  method ParseCitiesSection(data: seq<Byte>, offset: int, requireTag: bool)
    returns (r: Option<(int, seq<Owner>)>, end: nat)
    ensures r.Some? ==>
              && 0 <= offset <= end <= |data| && CitiesC(requireTag).wf(r.value)
              && CitiesC(requireTag).enc(r.value) == data[offset..end]
    ensures r.None? && 0 <= offset <= |data| ==>
              forall v, t | CitiesC(requireTag).wf(v) :: data[offset..] != CitiesC(requireTag).enc(v) + t
  {
    hide IntC, CityC, PtrArrC, EachC, Exact;
    end := 0;
    if offset < 0 || offset > |data| {
      return None, 0;
    }
    ghost var c := CitiesC(requireTag);
    CitiesExact(requireTag);
    var reader := new Reader(data, offset);
    ghost var s := reader.Rest();
    var tag := reader.Int(U8);
    if tag.None? || (requireTag && tag.value != TAG) {
      NothingThere(c, s);
      return None, 0;
    }
    var owners := ParseOwners(reader);
    if owners.None? {
      NothingThere(c, s);
      return None, 0;
    }
    end := reader.pos;
    WroteThis(c, s);
    assert s[..end - offset] == data[offset..end];
    return Some((tag.value, owners.value)), end;
  }
}
