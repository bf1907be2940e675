/** The Cities and GraphicEvents sections, and the exactness of both. */
module SaveSections {
  import opened Arith
  import opened Costs
  import opened SaveCodec
  import opened SaveGrammar

  // ---- Cities ----

  const TAG := 0
  const OWNER_COUNT := 8

  function Times<T>(x: T, n: nat): seq<T> { seq(n, i => x) }

  /** The fields of a city after its flags: object ids, position, stamps, trade, terrain and
      economy bytes, in the order they are written. */
  const POD_LAYOUT: seq<seq<IntType>> :=
    Times([I16], 3) + Times([I32], 8) + [Times(I32, 8)] + Times([I16], 5)
    + Times([U8], 8) + Times([I8], 3) + Times([U8], 8) + [Times(U8, 3), Times(U8, 6)]

  function PodC(): Codec<seq<seq<int>>> { EachC(PodCs()) }

  function PodCs(): seq<Codec<seq<int>>> {
    seq(|POD_LAYOUT|, i requires 0 <= i < |POD_LAYOUT| => IntsC(POD_LAYOUT[i]))
  }

  /** A length-prefixed string of 16-bit code units. */
  function StringC(): Codec<seq<int>> {
    AsC(ThenC(OnlyC(IntC(U32), n => n <= MAX_STRING_CODE_UNITS), n => IntsC(Times(U16, Max(0, n)))),
        (x: (int, seq<int>)) => x.1, (us: seq<int>) => (|us|, us))
  }

  function LinkC(): Codec<seq<int>> { IntsC([I32, I32]) }

  datatype CityBody = CityBody(pod: seq<seq<int>>, name: seq<int>, id: seq<int>, vans: Arr<seq<int>>)

  /** A city slot: only an active city has a body. */
  datatype City = City(flags: int, body: Option<CityBody>)

  type Names = (seq<int>, (seq<int>, Arr<seq<int>>))

  function NamesC(): Codec<Names> { ThenC(StringC(), n => ThenC(StringC(), i => ArrC(LinkC()))) }

  type BodyTuple = (seq<seq<int>>, Names)

  function BodyTupleC(): Codec<BodyTuple> { ThenC(PodC(), p => NamesC()) }

  function BodyC(): Codec<CityBody> {
    AsC(BodyTupleC(), (x: BodyTuple) => CityBody(x.0, x.1.0, x.1.1.0, x.1.1.1),
        (b: CityBody) => (b.pod, (b.name, (b.id, b.vans))))
  }

  function CityC(): Codec<City> {
    AsC(ThenC(IntC(U16), f => OptC(BodyC(), f % 2 == 1)),
        (x: (int, Option<CityBody>)) => City(x.0, x.1), (c: City) => (c.flags, c.body))
  }

  type Owner = PtrArr<City>

  /** The whole section: a tag byte and the city lists of eight owners. */
  function CitiesC(requireTag: bool): Codec<(int, seq<Owner>)> {
    ThenC(OnlyC(IntC(U8), t => requireTag ==> t == TAG), t => EachC(Copies(PtrArrC(CityC()), OWNER_COUNT)))
  }

  lemma PodLayoutOk()
    ensures |POD_LAYOUT| == 38
    ensures forall f | f in POD_LAYOUT :: forall t | t in f :: t.width > 0
  {
    assert forall t | t in Times(I32, 8) :: t == I32;
    assert forall t | t in Times(U8, 3) :: t == U8;
    assert forall t | t in Times(U8, 6) :: t == U8;
    forall f | f in POD_LAYOUT
      ensures forall t | t in f :: t.width > 0
    {
      assert f in {[I16], [I32], Times(I32, 8), [U8], [I8], Times(U8, 3), Times(U8, 6)};
    }
  }

  lemma PodExact()
    ensures Exact(PodC())
  {
    hide Exact, IntsC;
    PodLayoutOk();
    var cs := PodCs();
    forall i | 0 <= i < |POD_LAYOUT| ensures Exact(cs[i]) {
      assert POD_LAYOUT[i] in POD_LAYOUT;
      IntsExact(POD_LAYOUT[i]);
    }
    EachExact(cs);
  }

  lemma IntsLength(ts: seq<IntType>)
    ensures forall vs | IntsC(ts).wf(vs) :: |vs| == |ts|
  {
  }

  lemma StringExact()
    ensures Exact(StringC())
  {
    hide Exact, IntsC;
    var lengthC := OnlyC(IntC(U32), n => n <= MAX_STRING_CODE_UNITS);
    IntExact(U32);
    OnlyExact(IntC(U32), n => n <= MAX_STRING_CODE_UNITS);
    assert forall n | lengthC.wf(n) :: n >= 0;
    forall n ensures Exact(IntsC(Times(U16, Max(0, n)))) && forall us | IntsC(Times(U16, Max(0, n))).wf(us) :: |us| == Max(0, n) {
      assert forall t | t in Times(U16, Max(0, n)) :: t == U16;
      IntsExact(Times(U16, Max(0, n)));
      IntsLength(Times(U16, Max(0, n)));
    }
    ThenExact(lengthC, n => IntsC(Times(U16, Max(0, n))));
    AsExact(ThenC(lengthC, n => IntsC(Times(U16, Max(0, n)))),
            (x: (int, seq<int>)) => x.1, (us: seq<int>) => (|us|, us));
  }

  lemma BodyExact()
    ensures Exact(BodyC())
  {
    hide Exact, PodC, StringC, ArrC, LinkC;
    PodExact();
    StringExact();
    LinkExact();
    ArrExact(LinkC());
    ThenExact(StringC(), i => ArrC(LinkC()));
    ThenExact(StringC(), n => ThenC(StringC(), i => ArrC(LinkC())));
    ThenExact(PodC(), p => NamesC());
    AsExact(BodyTupleC(), (x: BodyTuple) => CityBody(x.0, x.1.0, x.1.1.0, x.1.1.1),
            (b: CityBody) => (b.pod, (b.name, (b.id, b.vans))));
  }

  lemma LinkExact()
    ensures Exact(LinkC())
  {
    IntsExact([I32, I32]);
  }

  lemma CityExact()
    ensures Exact(CityC())
  {
    hide Exact, BodyC;
    BodyExact();
    IntExact(U16);
    forall f: int ensures Exact(OptC(BodyC(), f % 2 == 1)) { OptExact(BodyC(), f % 2 == 1); }
    ThenExact(IntC(U16), f => OptC(BodyC(), f % 2 == 1));
    AsExact(ThenC(IntC(U16), f => OptC(BodyC(), f % 2 == 1)),
            (x: (int, Option<CityBody>)) => City(x.0, x.1), (c: City) => (c.flags, c.body));
  }

  /** The Cities parser is exact both ways: a well-formed section followed by any bytes
      reads back as itself and ends at its last byte, and whatever is accepted is the
      writing of what was read. */
  lemma CitiesExact(requireTag: bool)
    ensures Exact(CitiesC(requireTag))
  {
    hide Exact, CityC, PtrArrC;
    CityExact();
    PtrArrExact(CityC());
    CopiesExact(PtrArrC(CityC()), OWNER_COUNT);
    IntExact(U8);
    OnlyExact(IntC(U8), t => requireTag ==> t == TAG);
    ThenExact(OnlyC(IntC(U8), t => requireTag ==> t == TAG),
              t => EachC(Copies(PtrArrC(CityC()), OWNER_COUNT)));
  }

  // ---- GraphicEvents ----

  const EVENT_KINDS := 38
  const MAX_COUNT := MAX_ARRAY_LENGTH

  /** An event: its type decides how much payload follows. */
  function EventC(): Codec<(int, seq<int>)> {
    ThenC(IntC(I32), t => IntsC(Times(U8, if t == 8 then 19 else 28)))
  }

  type Events = PtrArr<(int, seq<int>)>

  datatype Group = Group(arrays: seq<Events>, civ: int, age: int)

  function CivAgeC(): Codec<(int, int)> { ThenC(IntC(I8), c => IntC(I8)) }

  function GroupC(): Codec<Group> {
    AsC(ThenC(EachC(Copies(PtrArrC(EventC()), EVENT_KINDS)), a => CivAgeC()),
        (x: (seq<Events>, (int, int))) => Group(x.0, x.1.0, x.1.1),
        (g: Group) => (g.arrays, (g.civ, g.age)))
  }

  /** A group and its next byte. */
  function LinkedC(c: Codec<Group>): Codec<(Group, int)> { ThenC(c, g => FlagC()) }

  /** Groups linked through a next byte: every group but the last is followed by one. */
  function ChainEnc(c: Codec<Group>, gs: seq<Group>): seq<Byte> {
    if gs == [] then []
    else c.enc(gs[0]) + EncInt(U8, if |gs| > 1 then 1 else 0) + ChainEnc(c, gs[1..])
  }

  predicate ChainWf(c: Codec<Group>, gs: seq<Group>, room: nat) {
    0 < |gs| <= room && forall g | g in gs :: c.wf(g)
  }

  /** Read groups until a next byte is zero, at most `room` of them. */
  function ChainDec(c: Codec<Group>, s: seq<Byte>, room: nat): Option<(seq<Group>, nat)> {
    if room == 0 then None
    else match LinkedC(c).dec(s)
      case None => None
      case Some(((g, next), n)) =>
        if next == 0 then Some(([g], n))
        else if n > |s| then None
        else match ChainDec(c, s[n..], room - 1)
          case None => None
          case Some((gs, m)) => Some(([g] + gs, n + m))
  }

  function ChainC(c: Codec<Group>): Codec<seq<Group>> {
    Codec(gs => ChainWf(c, gs, MAX_COUNT), gs => ChainEnc(c, gs), s => ChainDec(c, s, MAX_COUNT))
  }

  /** An event slot: a chain when its pointer is set, nothing otherwise. */
  function SlotC(c: Codec<Group>, present: bool): Codec<seq<Group>> { if present then ChainC(c) else NoGroupsC() }

  function NoGroupsC(): Codec<seq<Group>> {
    Codec((gs: seq<Group>) => |gs| == 0, (gs: seq<Group>) => [], s => Some(([], 0)))
  }

  function ChainsC(c: Codec<Group>, plane: seq<int>): Codec<seq<seq<Group>>> {
    EachC(ChainCs(c, plane))
  }

  function ChainCs(c: Codec<Group>, plane: seq<int>): seq<Codec<seq<Group>>> {
    seq(|plane|, i requires 0 <= i < |plane| => SlotC(c, plane[i] == 1))
  }

  function ChainPlane(slots: seq<seq<Group>>): seq<int> {
    seq(|slots|, i requires 0 <= i < |slots| => if |slots[i]| > 0 then 1 else 0)
  }

  /** The slot-presence plane and the chains it announces. */
  function SlotsC(count: nat): Codec<seq<seq<Group>>> {
    AsC(ThenC(PlaneC(count), plane => ChainsC(GroupC(), plane)),
        (x: (seq<int>, seq<seq<Group>>)) => x.1, (slots: seq<seq<Group>>) => (ChainPlane(slots), slots))
  }

  /** Elements of a trailing array are kept as raw bytes. */
  function RawArrC(size: nat): Codec<Arr<seq<int>>> { ArrC(IntsC(Times(U8, size))) }

  /** Element sizes of the four trailing arrays. */
  const TRAILER_SIZES: seq<nat> := [2, 4, 4, 24]

  function TrailerCs(): seq<Codec<Arr<seq<int>>>> {
    seq(|TRAILER_SIZES|, i requires 0 <= i < |TRAILER_SIZES| => RawArrC(TRAILER_SIZES[i]))
  }

  function TrailerC(): Codec<seq<Arr<seq<int>>>> { EachC(TrailerCs()) }

  datatype EventSection = EventSection(
    tag: int, slots: seq<seq<Group>>, arrays: seq<Arr<seq<int>>>, missile: seq<int>)

  type EventTuple = (int, SlotsTail)

  function EventTupleC(requireTag: bool, count: nat): Codec<EventTuple> {
    ThenC(OnlyC(IntC(U8), t => requireTag ==> t == TAG),
          t => SlotsTailC(count))
  }

  type SlotsTail = (seq<seq<Group>>, (seq<Arr<seq<int>>>, seq<int>))

  function SlotsTailC(count: nat): Codec<SlotsTail> { ThenC(SlotsC(count), sl => TailC()) }

  /** The trailing arrays and the missile offset. */
  function TailC(): Codec<(seq<Arr<seq<int>>>, seq<int>)> { ThenC(TrailerC(), a => IntsC([I32, I32, I32])) }

  function GraphicEventsC(requireTag: bool, count: nat): Codec<EventSection> {
    AsC(EventTupleC(requireTag, count), (x: EventTuple) => EventSection(x.0, x.1.0, x.1.1.0, x.1.1.1),
        (e: EventSection) => (e.tag, (e.slots, (e.arrays, e.missile))))
  }

  lemma BytesExact(n: nat)
    ensures Exact(IntsC(Times(U8, n)))
  {
    assert forall t | t in Times(U8, n) :: t == U8;
    IntsExact(Times(U8, n));
  }

  lemma EventExact()
    ensures Exact(EventC())
  {
    hide Exact, IntsC;
    IntExact(I32);
    BytesExact(19);
    BytesExact(28);
    ThenExact(IntC(I32), t => IntsC(Times(U8, if t == 8 then 19 else 28)));
  }

  lemma GroupExact()
    ensures Exact(GroupC())
  {
    hide Exact, EventC, PtrArrC;
    EventExact();
    PtrArrExact(EventC());
    CopiesExact(PtrArrC(EventC()), EVENT_KINDS);
    IntExact(I8);
    ThenExact(IntC(I8), c => IntC(I8));
    ThenExact(EachC(Copies(PtrArrC(EventC()), EVENT_KINDS)), a => CivAgeC());
    AsExact(ThenC(EachC(Copies(PtrArrC(EventC()), EVENT_KINDS)), a => CivAgeC()),
            (x: (seq<Events>, (int, int))) => Group(x.0, x.1.0, x.1.1),
            (g: Group) => (g.arrays, (g.civ, g.age)));
  }

  lemma LinkedExact(c: Codec<Group>)
    requires Exact(c)
    ensures Exact(LinkedC(c))
  {
    IntExact(U8);
    OnlyExact(IntC(U8), f => f == 0 || f == 1);
    ThenExact(c, g => FlagC());
  }

  /** `ChainDec` one group at a time. */
  lemma ChainDecStep(c: Codec<Group>, s: seq<Byte>, room: nat, g: Group, next: int, n: nat)
    requires room > 0 && LinkedC(c).dec(s) == Some(((g, next), n)) && n <= |s|
    ensures next == 0 ==> ChainDec(c, s, room) == Some(([g], n))
    ensures next != 0 ==> ChainDec(c, s, room) == match ChainDec(c, s[n..], room - 1)
                                                  case None => None
                                                  case Some((gs, m)) => Some(([g] + gs, n + m))
  {
  }

  lemma {:induction false} ChainReadBack(c: Codec<Group>, gs: seq<Group>, room: nat, t: seq<Byte>)
    requires Exact(c) && ChainWf(c, gs, room)
    ensures ChainDec(c, ChainEnc(c, gs) + t, room) == Some((gs, |ChainEnc(c, gs)|))
    decreases |gs|
  {
    hide Exact, ChainDec, ChainEnc, LinkedC;
    var next := if |gs| > 1 then 1 else 0;
    var e, rest := LinkedC(c).enc((gs[0], next)), ChainEnc(c, gs[1..]);
    LinkedExact(c);
    assert gs[0] in gs && gs == [gs[0]] + gs[1..];
    LinkedWf(c, gs[0], next);
    ChainEncStep(c, gs[0], gs[1..]);
    assert e + rest + t == e + (rest + t);
    ReadBack(LinkedC(c), (gs[0], next), rest + t);
    assert (e + (rest + t))[|e|..] == rest + t;
    ChainDecStep(c, e + (rest + t), room, gs[0], next, |e|);
    if |gs| > 1 {
      assert forall g | g in gs[1..] :: g in gs;
      ChainReadBack(c, gs[1..], room - 1, t);
    } else {
      ChainEncNothing(c);
      assert gs[1..] == [] && e + rest == e && gs == [gs[0]];
    }
  }

  lemma FlagWf(f: int)
    requires f == 0 || f == 1
    ensures FlagC().wf(f) && FlagC().enc(f) == EncInt(U8, f)
  {
    assert Pow256(1) == 256;
  }

  lemma ChainDecHead(c: Codec<Group>, s: seq<Byte>, room: nat)
    requires LinkedC(c).dec(s).None? || room == 0
    ensures ChainDec(c, s, room).None?
  {
  }

  lemma ChainEncStep(c: Codec<Group>, g: Group, gs: seq<Group>)
    ensures ChainEnc(c, [g] + gs)
         == LinkedC(c).enc((g, if |gs| > 0 then 1 else 0)) + ChainEnc(c, gs)
  {
    hide ChainEnc;
    var next := if |gs| > 0 then 1 else 0;
    FlagWf(next);
    assert ([g] + gs)[1..] == gs;
    assert ChainEnc(c, [g] + gs) == c.enc(g) + EncInt(U8, next) + ChainEnc(c, gs) by { ChainEncUnfold(c, [g] + gs); }
  }

  lemma ChainEncUnfold(c: Codec<Group>, gs: seq<Group>)
    requires gs != []
    ensures ChainEnc(c, gs) == c.enc(gs[0]) + EncInt(U8, if |gs| > 1 then 1 else 0) + ChainEnc(c, gs[1..])
  {
  }

  lemma {:induction false} ChainWroteThis(c: Codec<Group>, s: seq<Byte>, room: nat)
    requires Exact(c) && ChainDec(c, s, room).Some?
    ensures var (gs, n) := ChainDec(c, s, room).value;
            ChainWf(c, gs, room) && n <= |s| && ChainEnc(c, gs) == s[..n]
    decreases room
  {
    hide Exact, ChainDec, ChainEnc, LinkedC;
    var pair := LinkedC(c);
    if pair.dec(s).None? || room == 0 { ChainDecHead(c, s, room); }
    LinkedExact(c);
    WroteThis(pair, s);
    var ((g, next), n) := pair.dec(s).value;
    LinkedWf(c, g, next);
    ChainDecStep(c, s, room, g, next, n);
    if next == 0 {
      ChainEncStep(c, g, []);
      assert [g] + [] == [g] && ChainEnc(c, []) == [] by { ChainEncNothing(c); }
    } else {
      ChainWroteThis(c, s[n..], room - 1);
      var (gs, m) := ChainDec(c, s[n..], room - 1).value;
      ChainEncStep(c, g, gs);
      assert s[..n + m] == s[..n] + s[n..][..m];
    }
  }

  lemma ChainEncNothing(c: Codec<Group>)
    ensures ChainEnc(c, []) == []
  {
  }

  lemma LinkedWf(c: Codec<Group>, g: Group, next: int)
    ensures LinkedC(c).wf((g, next)) <==> c.wf(g) && (next == 0 || next == 1)
  {
    if next == 0 || next == 1 { FlagWf(next); }
  }

  lemma SlotExact(c: Codec<Group>, present: bool)
    requires Exact(c)
    ensures Exact(SlotC(c, present))
    ensures forall gs: seq<Group> | SlotC(c, present).wf(gs) :: (|gs| > 0) == present
  {
    var d := SlotC(c, present);
    forall gs: seq<Group>, t: seq<Byte> | d.wf(gs) ensures d.dec(d.enc(gs) + t) == Some((gs, |d.enc(gs)|)) {
      if present { ChainReadBack(c, gs, MAX_COUNT, t); }
      else { assert gs == [] && d.enc(gs) + t == t; }
    }
    forall s: seq<Byte> | d.dec(s).Some? ensures Reads(d, s, d.dec(s).value.0, d.dec(s).value.1) {
      if present { ChainWroteThis(c, s, MAX_COUNT); }
    }
  }

  lemma ChainsExact(c: Codec<Group>, plane: seq<int>)
    requires Exact(c)
    ensures Exact(ChainsC(c, plane))
    ensures forall slots: seq<seq<Group>> | ChainsC(c, plane).wf(slots) ::
              |slots| == |plane| && forall i | 0 <= i < |plane| :: (|slots[i]| > 0) == (plane[i] == 1)
  {
    hide Exact, SlotC;
    var cs := ChainCs(c, plane);
    forall i | 0 <= i < |plane|
      ensures Exact(cs[i])
      ensures forall gs: seq<Group> | cs[i].wf(gs) :: (|gs| > 0) == (plane[i] == 1)
    {
      SlotExact(c, plane[i] == 1);
    }
    EachExact(cs);
  }

  lemma SlotsSectionExact(count: nat)
    ensures Exact(SlotsC(count))
  {
    hide Exact, PlaneC, ChainsC, GroupC;
    GroupExact();
    PlaneExact(count);
    forall plane: seq<int>
      ensures Exact(ChainsC(GroupC(), plane))
      ensures forall slots: seq<seq<Group>> | ChainsC(GroupC(), plane).wf(slots) ::
                |slots| == |plane| && forall i | 0 <= i < |plane| :: (|slots[i]| > 0) == (plane[i] == 1)
    {
      ChainsExact(GroupC(), plane);
    }
    var a := ThenC(PlaneC(count), plane => ChainsC(GroupC(), plane));
    ThenExact(PlaneC(count), plane => ChainsC(GroupC(), plane));
    forall x | a.wf(x) ensures ChainPlane(x.1) == x.0 {
      assert PlaneC(count).wf(x.0) && ChainsC(GroupC(), x.0).wf(x.1);
    }
    AsExact(a, (x: (seq<int>, seq<seq<Group>>)) => x.1, (slots: seq<seq<Group>>) => (ChainPlane(slots), slots));
  }

  lemma TrailerExact()
    ensures Exact(TrailerC())
  {
    hide Exact, RawArrC;
    forall i | 0 <= i < |TRAILER_SIZES| ensures Exact(TrailerCs()[i]) { RawArrExact(TRAILER_SIZES[i]); }
    EachExact(TrailerCs());
  }

  lemma RawArrExact(size: nat)
    ensures Exact(RawArrC(size))
  {
    BytesExact(size);
    ArrExact(IntsC(Times(U8, size)));
  }

  /** The GraphicEvents parser is exact both ways, for every slot count. */
  lemma GraphicEventsExact(requireTag: bool, count: nat)
    ensures Exact(GraphicEventsC(requireTag, count))
  {
    hide Exact, SlotsC, TrailerC, IntsC;
    SlotsSectionExact(count);
    TrailerExact();
    IntsExact([I32, I32, I32]);
    IntExact(U8);
    OnlyExact(IntC(U8), t => requireTag ==> t == TAG);
    ThenExact(TrailerC(), a => IntsC([I32, I32, I32]));
    ThenExact(SlotsC(count), sl => TailC());
    ThenExact(OnlyC(IntC(U8), t => requireTag ==> t == TAG),
              t => SlotsTailC(count));
    AsExact(EventTupleC(requireTag, count), (x: EventTuple) => EventSection(x.0, x.1.0, x.1.1.0, x.1.1.1),
            (e: EventSection) => (e.tag, (e.slots, (e.arrays, e.missile))));
  }
}
