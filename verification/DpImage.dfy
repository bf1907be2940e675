/** Two searches whose states correspond: a map that purchases and sort keys respect carries
    one search to the other, visit by visit. */
module DpImage {
  import opened Arith
  import opened Costs
  import opened DpSets
  import opened DpModel
  import opened DpRun

  ghost function Seen<S, T>(h: S -> T, o: Option<S>): Option<T> { if o.None? then None else Some(h(o.value)) }

  ghost function Each<S, T>(h: S -> T, l: seq<S>): seq<T> { if l == [] then [] else [h(l[0])] + Each(h, l[1..]) }

  /** `h` carries the states of `a` to states of `b` that look and sell alike. */
  ghost predicate Respects<S(!new), T>(a: System<S>, b: System<T>, h: S -> T) {
    && (forall s, i: nat :: a.legal(s, i) == b.legal(h(s), i))
    && (forall s, i: nat :: Seen(h, a.apply(s, i)) == b.apply(h(s), i))
    && (forall s :: a.horizon(s) == b.horizon(h(s)) && a.food(s) == b.food(h(s)) && a.timber(s) == b.timber(h(s)))
  }

  ghost predicate Carries<S(!new), T>(a: Task<S>, b: Task<T>, h: S -> T) {
    a.cap == b.cap && a.need == b.need && a.keep == b.keep && b.start == h(a.start) && Respects(a.m, b.m, h)
  }

  /** The same queue and best, with every pool mapped. */
  ghost function Image<S, T>(h: S -> T, st: St<S>): St<T> {
    St(map v | v in st.nodes :: Each(h, st.nodes[v]), st.order, st.qi, st.best, st.expanded)
  }

  lemma {:induction false} EachAppend<S, T>(h: S -> T, x: seq<S>, y: seq<S>)
    ensures Each(h, x + y) == Each(h, x) + Each(h, y)
    decreases |x|
  {
    if x == [] {
      assert x + y == y;
    } else {
      assert (x + y)[0] == x[0] && (x + y)[1..] == x[1..] + y;
      EachAppend(h, x[1..], y);
    }
  }

  lemma {:induction false} EachAt<S, T>(h: S -> T, l: seq<S>)
    ensures |Each(h, l)| == |l| && forall i | 0 <= i < |l| :: Each(h, l)[i] == h(l[i])
    decreases |l|
  {
    if l != [] { EachAt(h, l[1..]); }
  }

  lemma EachNext<S, T>(h: S -> T, x: S, l: seq<S>)
    ensures Each(h, [x] + l) == [h(x)] + Each(h, l)
  {
    assert ([x] + l)[1..] == l;
  }

  lemma {:induction false} GotsImage<S(!new), T(!new)>(a: Task<S>, b: Task<T>, h: S -> T, pool: seq<S>, i: nat)
    requires Carries(a, b, h)
    ensures Gots(b, Each(h, pool), i) == Each(h, Gots(a, pool, i))
    decreases |pool|
  {
    if pool != [] {
      var s := pool[0];
      GotsImage(a, b, h, pool[1..], i);
      assert Each(h, pool)[0] == h(s) && Each(h, pool)[1..] == Each(h, pool[1..]);
      assert Seen(h, a.m.apply(s, i)) == b.m.apply(h(s), i);
      if a.m.legal(s, i) && a.m.apply(s, i).Some? {
        EachNext(h, a.m.apply(s, i).value, Gots(a, pool[1..], i));
      } else {
        assert [] + Gots(a, pool[1..], i) == Gots(a, pool[1..], i);
      }
    }
  }

  lemma {:induction false} OfferImage<S(!new), T(!new)>(a: Task<S>, b: Task<T>, h: S -> T, best: Option<int>, got: seq<S>)
    requires Carries(a, b, h)
    ensures Offer(b, best, Each(h, got)) == Offer(a, best, got)
    decreases |got|
  {
    if got != [] {
      var f := a.m.horizon(got[0]);
      assert Each(h, got)[0] == h(got[0]) && Each(h, got)[1..] == Each(h, got[1..]);
      OfferImage(a, b, h, if best.None? || f < best.value then Some(f) else best, got[1..]);
    }
  }

  lemma {:induction false} InsertImage<S(!new), T>(a: System<S>, b: System<T>, h: S -> T, x: S, l: seq<S>)
    requires Respects(a, b, h)
    ensures Insert(b, h(x), Each(h, l)) == Each(h, Insert(a, x, l))
    decreases |l|
  {
    if l == [] {
      EachNext(h, x, []);
    } else {
      assert Each(h, l)[0] == h(l[0]) && Each(h, l)[1..] == Each(h, l[1..]);
      assert Before(a, l[0], x) == Before(b, h(l[0]), h(x));
      InsertImage(a, b, h, x, l[1..]);
      EachNext(h, x, l);
      EachNext(h, l[0], Insert(a, x, l[1..]));
    }
  }

  lemma {:induction false} SortImage<S(!new), T>(a: System<S>, b: System<T>, h: S -> T, l: seq<S>)
    requires Respects(a, b, h)
    ensures Sort(b, Each(h, l)) == Each(h, Sort(a, l))
    decreases |l|
  {
    hide Insert;
    if l != [] {
      assert Each(h, l)[0] == h(l[0]) && Each(h, l)[1..] == Each(h, l[1..]);
      SortImage(a, b, h, l[1..]);
      InsertImage(a, b, h, l[0], Sort(a, l[1..]));
    }
  }

  lemma {:induction false} TrimFromImage<S(!new), T>(a: System<S>, b: System<T>, h: S -> T, l: seq<S>, marks: set<Mark>, room: nat)
    requires Respects(a, b, h)
    ensures TrimFrom(b, Each(h, l), marks, room) == Each(h, TrimFrom(a, l, marks, room))
    decreases |l|
  {
    if l != [] && room > 0 {
      assert Each(h, l)[0] == h(l[0]) && Each(h, l)[1..] == Each(h, l[1..]);
      assert MarkOf(a, l[0]) == MarkOf(b, h(l[0]));
      if MarkOf(a, l[0]) in marks {
        TrimFromImage(a, b, h, l[1..], marks, room);
      } else {
        TrimFromImage(a, b, h, l[1..], marks + {MarkOf(a, l[0])}, room - 1);
        EachNext(h, l[0], TrimFrom(a, l[1..], marks + {MarkOf(a, l[0])}, room - 1));
      }
    }
  }

  lemma TrimImage<S(!new), T>(a: System<S>, b: System<T>, h: S -> T, l: seq<S>, keep: nat)
    requires Respects(a, b, h)
    ensures Trim(b, Each(h, l), keep) == Each(h, Trim(a, l, keep))
  {
    hide Sort, TrimFrom, Each;
    SortImage(a, b, h, l);
    TrimFromImage(a, b, h, Sort(a, l), {}, Max(1, keep));
  }

  lemma PoolImage<S, T>(h: S -> T, st: St<S>, v: Node)
    ensures Pool(Image(h, st), v) == Each(h, Pool(st, v))
  {
  }

  lemma ChildImage<S(!new), T(!new)>(a: Task<S>, b: Task<T>, h: S -> T, st: St<S>, v: Node, i: nat)
    requires Carries(a, b, h) && a.Ok() && |v| == |a.cap| && i < |v|
    ensures Child(b, Image(h, st), v, i) == Image(h, Child(a, st, v, i))
  {
    hide Gots, Offer, Trim, Respects, Each, Pool;
    var (got, child) := (Gots(a, Pool(st, v), i), Up(v, i));
    PoolImage(h, st, v);
    PoolImage(h, st, child);
    GotsImage(a, b, h, Pool(st, v), i);
    OfferImage(a, b, h, st.best, got);
    EachAppend(h, Pool(st, child), got);
    TrimImage(a.m, b.m, h, Pool(st, child) + got, a.keep);
    EachAt(h, got);
    var (x, y) := (Child(b, Image(h, st), v, i), Image(h, Child(a, st, v, i)));
    assert x.nodes == y.nodes;
  }

  lemma {:induction false} KidsImage<S(!new), T(!new)>(a: Task<S>, b: Task<T>, h: S -> T, st: St<S>, v: Node, n: nat)
    requires Carries(a, b, h) && a.Ok() && |v| == |a.cap| && n <= |v|
    ensures Kids(b, Image(h, st), v, n) == Image(h, Kids(a, st, v, n))
    decreases n
  {
    hide Child, Image, Respects;
    if n > 0 {
      KidsImage(a, b, h, st, v, n - 1);
      ChildImage(a, b, h, Kids(a, st, v, n - 1), v, n - 1);
    }
  }

  lemma HopelessImage<S(!new), T(!new)>(a: Task<S>, b: Task<T>, h: S -> T, best: Option<int>, pool: seq<S>)
    requires Carries(a, b, h)
    ensures Hopeless(b, best, Each(h, pool)) == Hopeless(a, best, pool) && (Each(h, pool) == [] <==> pool == [])
  {
    hide Each;
    EachAt(h, pool);
    var l := Each(h, pool);
    assert forall i | 0 <= i < |pool| :: b.m.horizon(l[i]) == a.m.horizon(pool[i]);
  }

  lemma VisitImage<S(!new), T(!new)>(a: Task<S>, b: Task<T>, h: S -> T, prune: bool, st: St<S>)
    requires Carries(a, b, h) && a.Ok() && !Over(a, st)
    ensures !Over(b, Image(h, st)) && Visit(b, prune, Image(h, st)) == Image(h, Visit(a, prune, st))
  {
    hide Kids, Respects, Each, Pool, Hopeless;
    var v := st.order[st.qi];
    PoolImage(h, st, v);
    HopelessImage(a, b, h, st.best, Pool(st, v));
    KidsImage(a, b, h, st, v, |v|);
  }

  lemma InitImage<S(!new), T(!new)>(a: Task<S>, b: Task<T>, h: S -> T)
    requires Carries(a, b, h)
    ensures Init(b) == Image(h, Init(a))
  {
    hide Respects;
    assert [a.start][1..] == [] && Each(h, []) == [];
    assert Each(h, [a.start]) == [h(a.start)];
    assert Init(b).nodes == Image(h, Init(a)).nodes;
  }

  /** The searches go together: same queue, same position, same nodes expanded, same best, and
      every pool of the one is that of the other, mapped. */
  lemma {:induction false} StepsImage<S(!new), T(!new)>(a: Task<S>, b: Task<T>, h: S -> T, prune: bool, k: nat)
    requires Carries(a, b, h) && a.Ok()
    ensures b.Ok() && Steps(b, prune, k) == Image(h, Steps(a, prune, k))
    decreases k
  {
    hide Visit, Respects, Steps;
    if k == 0 {
      StepsStart(a, prune);
      StepsStart(b, prune);
      InitImage(a, b, h);
    } else {
      StepsImage(a, b, h, prune, k - 1);
      StepIs(a, prune, k);
      StepIs(b, prune, k);
      if !Over(a, Steps(a, prune, k - 1)) { VisitImage(a, b, h, prune, Steps(a, prune, k - 1)); }
    }
  }
}
