/**
 The grammars of the Cities and GraphicEvents save sections, built from the containers
 the engine serialises: counted arrays, pointer arrays with a presence plane, wide
 strings, flag-gated bodies and next-linked chains.
 */
module SaveGrammar {
  import opened Arith
  import opened Costs
  import opened SaveCodec

  const MAX_ARRAY_LENGTH := 0x10_0000
  const MAX_STRING_CODE_UNITS := 0xFFFF

  function CountC(): Codec<int> { OnlyC(IntC(I32), n => 0 <= n <= MAX_ARRAY_LENGTH) }

  /** Capacity, increment and flags of a nonempty array; the writer clears flag 0x40. */
  function HistoryC(length: int): Codec<seq<int>> {
    OnlyC(IntsC([I32, I16, U8]), h => HistoryOk(h, length))
  }

  predicate HistoryOk(h: seq<int>, length: int) {
    |h| == 3 && length <= h[0] <= MAX_ARRAY_LENGTH && h[2] / 64 % 2 == 0
  }

  /** A reading that goes on after `k` bytes, its value completed by `f`. */
  ghost function Further<V, W>(k: nat, f: V -> W, o: Option<(V, nat)>): Option<(W, nat)> {
    match o case None => None case Some((v, m)) => Some((f(v), k + m))
  }

  // ---- Array<T> ----

  datatype Arr<T> = Arr(history: seq<int>, elems: seq<T>)

  function ArrTailC<T>(c: Codec<T>, n: int): Codec<(seq<int>, seq<T>)> {
    if n <= 0 then NothingC() else ThenC(HistoryC(n), h => EachC(Copies(c, n)))
  }

  function NothingC<A, B>(): Codec<(seq<A>, seq<B>)> {
    Codec((v: (seq<A>, seq<B>)) => |v.0| == 0 && |v.1| == 0, (v: (seq<A>, seq<B>)) => [], s => Some((([], []), 0)))
  }

  /** Length, and for a nonempty array its history and elements. */
  function ArrC<T>(c: Codec<T>): Codec<Arr<T>> {
    AsC(ThenC(CountC(), n => ArrTailC(c, n)),
        (x: (int, (seq<int>, seq<T>))) => Arr(x.1.0, x.1.1),
        (a: Arr<T>) => (|a.elems|, (a.history, a.elems)))
  }

  lemma NothingExact<A(!new), B(!new)>()
    ensures Exact(NothingC<A, B>())
  {
    var c := NothingC<A, B>();
    forall v, t: seq<Byte> | c.wf(v) ensures c.dec(c.enc(v) + t) == Some((v, |c.enc(v)|)) {
      assert v == ([], []) && c.enc(v) + t == t;
    }
  }

  lemma CountExact()
    ensures Exact(CountC())
  {
    IntExact(I32);
    OnlyExact(IntC(I32), n => 0 <= n <= MAX_ARRAY_LENGTH);
  }

  lemma HistoryExact(n: int)
    ensures Exact(HistoryC(n))
  {
    IntsExact([I32, I16, U8]);
    OnlyExact(IntsC([I32, I16, U8]), h => HistoryOk(h, n));
  }

  lemma ArrTailExact<T(!new)>(c: Codec<T>, n: int)
    requires Exact(c)
    ensures Exact(ArrTailC(c, n))
    ensures forall v | ArrTailC(c, n).wf(v) :: |v.1| == Max(0, n)
  {
    hide Exact;
    if n <= 0 {
      NothingExact<int, T>();
    } else {
      HistoryExact(n);
      CopiesExact(c, n);
      ThenExact(HistoryC(n), h => EachC(Copies(c, n)));
    }
  }

  lemma ArrExact<T(!new)>(c: Codec<T>)
    requires Exact(c)
    ensures Exact(ArrC(c))
  {
    hide Exact, ArrTailC;
    var a := ThenC(CountC(), n => ArrTailC(c, n));
    CountExact();
    forall n ensures Exact(ArrTailC(c, n)) && forall v | ArrTailC(c, n).wf(v) :: |v.1| == Max(0, n) {
      ArrTailExact(c, n);
    }
    ThenExact(CountC(), n => ArrTailC(c, n));
    AsExact(a, (x: (int, (seq<int>, seq<T>))) => Arr(x.1.0, x.1.1),
            (v: Arr<T>) => (|v.elems|, (v.history, v.elems)));
  }

  /** Reading an array, step by step. */
  lemma ArrSteps<T>(c: Codec<T>, s: seq<Byte>)
    ensures CountC().dec(s).None? ==> ArrC(c).dec(s).None?
    ensures forall n, k | CountC().dec(s) == Some((n, k)) && k <= |s| ::
              ArrC(c).dec(s) == Further(k, (x: (seq<int>, seq<T>)) => Arr(x.0, x.1), ArrTailC(c, n).dec(s[k..]))
  {
    hide CountC, ArrTailC;
  }

  lemma ArrTailSteps<T>(c: Codec<T>, n: int, s: seq<Byte>)
    ensures n <= 0 ==> ArrTailC(c, n).dec(s) == Some((([], []), 0))
    ensures n > 0 && HistoryC(n).dec(s).None? ==> ArrTailC(c, n).dec(s).None?
    ensures n > 0 ==> forall h, k | HistoryC(n).dec(s) == Some((h, k)) && k <= |s| ::
              ArrTailC(c, n).dec(s) == Further(k, (es: seq<T>) => (h, es), EachC(Copies(c, n)).dec(s[k..]))
  {
    hide HistoryC, EachC;
  }

  // ---- PtrArray<T> ----

  /** An element that is written only when its pointer is set. */
  function OptC<V>(c: Codec<V>, present: bool): Codec<Option<V>> {
    Codec((o: Option<V>) => o.Some? == present && (o.Some? ==> c.wf(o.value)),
          (o: Option<V>) => if o.Some? then c.enc(o.value) else [],
          s => if !present then Some((None, 0))
               else match c.dec(s) case None => None case Some((v, n)) => Some((Some(v), n)))
  }

  lemma OptExact<V(!new)>(c: Codec<V>, present: bool)
    requires Exact(c)
    ensures Exact(OptC(c, present))
  {
    var d := OptC(c, present);
    forall o, t: seq<Byte> | d.wf(o) ensures d.dec(d.enc(o) + t) == Some((o, |d.enc(o)|)) {
      if o.Some? { ReadBack(c, o.value, t); }
    }
    forall s: seq<Byte> | d.dec(s).Some? ensures Reads(d, s, d.dec(s).value.0, d.dec(s).value.1) {
      if present { WroteThis(c, s); }
    }
  }

  /** A plane of boolean bytes. */
  function PlaneC(n: nat): Codec<seq<int>> { EachC(Copies(FlagC(), n)) }

  function FlagC(): Codec<int> { OnlyC(IntC(U8), f => f == 0 || f == 1) }

  lemma PlaneExact(n: nat)
    ensures Exact(PlaneC(n))
    ensures forall p | PlaneC(n).wf(p) :: |p| == n && forall i | 0 <= i < n :: p[i] == 0 || p[i] == 1
  {
    IntExact(U8);
    OnlyExact(IntC(U8), f => f == 0 || f == 1);
    CopiesExact(FlagC(), n);
    forall p | PlaneC(n).wf(p)
      ensures |p| == n && forall i | 0 <= i < n :: p[i] == 0 || p[i] == 1
    {
      assert forall i | 0 <= i < n :: Copies(FlagC(), n)[i] == FlagC();
    }
  }

  function SlotCs<V>(c: Codec<V>, plane: seq<int>): seq<Codec<Option<V>>> {
    seq(|plane|, i requires 0 <= i < |plane| => OptC(c, plane[i] == 1))
  }

  function PlaneOf<V>(slots: seq<Option<V>>): seq<int> {
    seq(|slots|, i requires 0 <= i < |slots| => if slots[i].Some? then 1 else 0)
  }

  /** Capacity and increment, written a second time. */
  function RepeatC(h: seq<int>): Codec<seq<int>> { OnlyC(IntsC([I32, I16]), r => r == First2(h)) }

  function First2(h: seq<int>): seq<int> { if |h| >= 2 then h[..2] else [] }

  datatype PtrArr<T> = PtrArr(history: seq<int>, slots: seq<Option<T>>)

  type PtrBody<T> = (seq<int>, (seq<int>, seq<Option<T>>))

  type PtrTail<T> = (seq<int>, PtrBody<T>)

  function PtrBodyC<T>(c: Codec<T>, h: seq<int>, n: nat): Codec<PtrBody<T>> {
    ThenC(PlaneC(n), plane => ThenC(RepeatC(h), r => EachC(SlotCs(c, plane))))
  }

  function PtrTailC<T>(c: Codec<T>, n: int): Codec<PtrTail<T>> {
    if n <= 0 then NoPtrsC() else ThenC(HistoryC(n), h => PtrBodyC(c, h, n))
  }

  function NoPtrsC<T>(): Codec<PtrTail<T>> {
    Codec((v: PtrTail<T>) => |v.0| == 0 && |v.1.0| == 0 && |v.1.1.0| == 0 && |v.1.1.1| == 0,
          (v: PtrTail<T>) => [], s => Some((([], ([], ([], []))), 0)))
  }

  function ToPtr<T>(x: (int, PtrTail<T>)): PtrArr<T> { PtrArr(x.1.0, x.1.1.1.1) }

  function FromPtr<T>(a: PtrArr<T>): (int, PtrTail<T>) {
    (|a.slots|, (a.history, (PlaneOf(a.slots), (First2(a.history), a.slots))))
  }

  /** Length, and for a nonempty array its history, presence plane, the repeated history and
      the elements whose pointer is set. */
  function PtrArrC<T>(c: Codec<T>): Codec<PtrArr<T>> {
    AsC(ThenC(CountC(), n => PtrTailC(c, n)), (x: (int, PtrTail<T>)) => ToPtr(x), (a: PtrArr<T>) => FromPtr(a))
  }

  lemma SlotsExact<T(!new)>(c: Codec<T>, plane: seq<int>)
    requires Exact(c)
    ensures Exact(EachC(SlotCs(c, plane)))
    ensures forall slots: seq<Option<T>> | EachC(SlotCs(c, plane)).wf(slots) ::
              |slots| == |plane| && forall i | 0 <= i < |plane| :: slots[i].Some? == (plane[i] == 1)
  {
    hide Exact;
    var cs := SlotCs(c, plane);
    forall i | 0 <= i < |plane| ensures Exact(cs[i]) { OptExact(c, plane[i] == 1); }
    EachExact(cs);
    forall slots: seq<Option<T>> | EachC(cs).wf(slots)
      ensures |slots| == |plane| && forall i | 0 <= i < |plane| :: slots[i].Some? == (plane[i] == 1)
    {
      assert forall i | 0 <= i < |plane| :: cs[i] == OptC(c, plane[i] == 1) && cs[i].wf(slots[i]);
    }
  }

  /** What a well-formed tail determines: the plane and the repetition follow from the rest. */
  ghost predicate TailCanonical<T>(v: PtrTail<T>, n: int) {
    |v.1.1.1| == Max(0, n) && v.1.0 == PlaneOf(v.1.1.1) && v.1.1.0 == First2(v.0)
  }

  lemma PtrBodyExact<T(!new)>(c: Codec<T>, h: seq<int>, n: nat)
    requires Exact(c)
    ensures Exact(PtrBodyC(c, h, n))
    ensures forall v | PtrBodyC(c, h, n).wf(v) ::
              |v.1.1| == n && v.0 == PlaneOf(v.1.1) && v.1.0 == First2(h)
  {
    hide Exact, PlaneC, SlotCs;
    PlaneExact(n);
    IntsExact([I32, I16]);
    OnlyExact(IntsC([I32, I16]), r => r == First2(h));
    forall plane: seq<int>
      ensures Exact(ThenC(RepeatC(h), r => EachC(SlotCs(c, plane))))
      ensures forall slots: seq<Option<T>> | EachC(SlotCs(c, plane)).wf(slots) ::
                |slots| == |plane| && forall i | 0 <= i < |plane| :: slots[i].Some? == (plane[i] == 1)
    {
      SlotsExact(c, plane);
      ThenExact(RepeatC(h), r => EachC(SlotCs(c, plane)));
    }
    ThenExact(PlaneC(n), plane => ThenC(RepeatC(h), r => EachC(SlotCs(c, plane))));
    forall v | PtrBodyC(c, h, n).wf(v)
      ensures |v.1.1| == n && v.0 == PlaneOf(v.1.1) && v.1.0 == First2(h)
    {
      assert PlaneC(n).wf(v.0) && EachC(SlotCs(c, v.0)).wf(v.1.1);
      assert v.0 == PlaneOf(v.1.1);
    }
  }

  lemma PtrTailExact<T(!new)>(c: Codec<T>, n: int)
    requires Exact(c)
    ensures Exact(PtrTailC(c, n))
    ensures forall v | PtrTailC(c, n).wf(v) :: TailCanonical(v, n)
  {
    hide Exact, PtrBodyC;
    if n <= 0 {
      NoPtrsExact<T>();
    } else {
      HistoryExact(n);
      forall h: seq<int>
        ensures Exact(PtrBodyC(c, h, n))
        ensures forall v | PtrBodyC(c, h, n).wf(v) ::
                  |v.1.1| == n && v.0 == PlaneOf(v.1.1) && v.1.0 == First2(h)
      {
        PtrBodyExact(c, h, n);
      }
      ThenExact(HistoryC(n), h => PtrBodyC(c, h, n));
    }
  }

  lemma NoPtrsExact<T(!new)>()
    ensures Exact(NoPtrsC<T>())
    ensures forall v | NoPtrsC<T>().wf(v) :: TailCanonical(v, 0)
  {
    var c := NoPtrsC<T>();
    forall v: PtrTail<T>, t: seq<Byte> | c.wf(v) ensures c.dec(c.enc(v) + t) == Some((v, |c.enc(v)|)) {
      assert v == ([], ([], ([], []))) && c.enc(v) + t == t;
    }
  }

  lemma PtrArrExact<T(!new)>(c: Codec<T>)
    requires Exact(c)
    ensures Exact(PtrArrC(c))
  {
    hide Exact, PtrTailC;
    CountExact();
    forall n ensures Exact(PtrTailC(c, n)) && forall v | PtrTailC(c, n).wf(v) :: TailCanonical(v, n) {
      PtrTailExact(c, n);
    }
    ThenExact(CountC(), n => PtrTailC(c, n));
    AsExact(ThenC(CountC(), n => PtrTailC(c, n)), (x: (int, PtrTail<T>)) => ToPtr(x), (a: PtrArr<T>) => FromPtr(a));
  }

  /** Reading a pointer array, step by step. */
  lemma PtrSteps<T>(c: Codec<T>, s: seq<Byte>)
    ensures CountC().dec(s).None? ==> PtrArrC(c).dec(s).None?
    ensures forall n, k | CountC().dec(s) == Some((n, k)) && k <= |s| ::
              PtrArrC(c).dec(s) == Further(k, (x: PtrTail<T>) => PtrArr(x.0, x.1.1.1), PtrTailC(c, n).dec(s[k..]))
  {
    hide CountC, PtrTailC;
  }

  lemma PtrTailSteps<T>(c: Codec<T>, n: int, s: seq<Byte>)
    ensures n <= 0 ==> PtrTailC(c, n).dec(s) == Some((([], ([], ([], []))), 0))
    ensures n > 0 && HistoryC(n).dec(s).None? ==> PtrTailC(c, n).dec(s).None?
    ensures n > 0 ==> forall h, k | HistoryC(n).dec(s) == Some((h, k)) && k <= |s| ::
              PtrTailC(c, n).dec(s) == Further(k, (x: PtrBody<T>) => (h, x), PtrBodyC(c, h, n).dec(s[k..]))
  {
    hide HistoryC, PtrBodyC;
  }

  lemma PtrBodySteps<T>(c: Codec<T>, h: seq<int>, n: nat, s: seq<Byte>)
    ensures PlaneC(n).dec(s).None? ==> PtrBodyC(c, h, n).dec(s).None?
    ensures forall p, k | PlaneC(n).dec(s) == Some((p, k)) && k <= |s| :: PtrSlotSteps(c, h, n, s, p, k)
  {
    hide PlaneC, RepeatC, EachC, SlotCs;
  }

  ghost predicate PtrSlotSteps<T>(c: Codec<T>, h: seq<int>, n: nat, s: seq<Byte>, p: seq<int>, k: nat)
    requires k <= |s|
  {
    var s1 := s[k..];
    && (RepeatC(h).dec(s1).None? ==> PtrBodyC(c, h, n).dec(s).None?)
    && (forall q, m | RepeatC(h).dec(s1) == Some((q, m)) && m <= |s1| ::
          PtrBodyC(c, h, n).dec(s) == Further(k + m, (es: seq<Option<T>>) => (p, (q, es)), EachC(SlotCs(c, p)).dec(s1[m..])))
  }
}
