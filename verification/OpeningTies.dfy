/** An opening in which pruning changes the best horizon. The aim must be researched; a
    market, a university and a second city may be built. A market alone takes as long as the
    aim does, so its node is passed over. */
module OpeningTies {
  import opened Arith
  import opened Costs
  import opened OpeningRules
  import opened OpeningWorld
  import opened OpeningPend
  import opened OpeningSample
  import DpOpening
  import DpSets
  import DpModel
  import DpTies

  const EMPTY := Scene(3, 6, 3, 3, false, false, false, None, 0)
  const E := Scene(10, 20, 10, 0, true, false, false, Some(Job(11, Market)), 11)
  const EB := Scene(11, 22, 11, 1, true, false, true, Some(Job(12, SmallCity)), 12)
  const A := Scene(3, 6, 3, 3, false, true, false, Some(Job(4, University)), 4)
  const B := Scene(3, 6, 3, 3, false, false, true, Some(Job(4, SmallCity)), 4)
  const AB := Scene(4, 8, 4, 4, false, true, true, Some(Job(5, SmallCity)), 5)
  const BA := Scene(4, 8, 4, 4, false, true, true, Some(Job(5, University)), 5)
  const AE := Scene(10, 20, 16, 0, true, true, false, Some(Job(11, Market)), 11)
  const BE := Scene(7, 14, 7, 0, true, false, true, Some(Job(8, Market)), 8)
  const ABE := Scene(8, 16, 12, 1, true, true, true, Some(Job(9, Market)), 9)
  const BEA := Scene(8, 16, 8, 2, true, true, true, Some(Job(9, University)), 9)

  /** Buying `item` in `s` gives `v`. */
  ghost predicate Sells(s: Scene, item: Item, v: Scene)
    requires Table().Ok() && IsWork(item)
  {
    DpOpening.Bought(Table(), s.At(), item) == Some(v.At())
  }

  /** `v` is `s` after `n` frames, which is as soon as can be, with `item` just paid for. */
  ghost predicate Deal(s: Scene, item: Item, n: nat, v: Scene) {
    && s.Ok() && IsWork(item) && !s.Has(item) && n <= 99 && s.wealth >= 0 && s.knowledge >= 0 && s.metal >= 0
    && s.frame + n >= s.free && s.In(n).job.None? && (item == Market ==> s.In(n).metal >= 10)
    && (n == 0 || s.frame + n - 1 < s.free || (item == Market && s.In(n - 1).metal < 10))
    && s.In(n).Buying(item) == v
  }

  lemma Bought(s: Scene, item: Item, n: nat, v: Scene)
    requires Table().Ok() && Deal(s, item, n, v)
    ensures IsWork(item) && Sells(s, item, v)
  {
    hide Rules.Ok, Apply, Strip, Scene.In, Scene.Buying, Table, Scene.At;
    Buys(s, item, n);
  }

  lemma DealE() ensures Deal(EMPTY, Market, 7, E) { }

  lemma DealA() ensures Deal(EMPTY, University, 0, A) { }

  lemma DealB() ensures Deal(EMPTY, SmallCity, 0, B) { }

  lemma DealEB() ensures Deal(E, SmallCity, 1, EB) { }

  lemma DealAE() ensures Deal(A, Market, 7, AE) { }

  lemma DealAB() ensures Deal(A, SmallCity, 1, AB) { }

  lemma DealBE() ensures Deal(B, Market, 4, BE) { }

  lemma DealBA() ensures Deal(B, University, 1, BA) { }

  lemma DealABE() ensures Deal(AB, Market, 4, ABE) { }

  lemma DealBEA() ensures Deal(BE, University, 1, BEA) { }

  lemma Works()
    requires Table().Ok()
    ensures Sells(EMPTY, Market, E)
    ensures Sells(EMPTY, University, A)
    ensures Sells(EMPTY, SmallCity, B)
    ensures Sells(E, SmallCity, EB)
    ensures Sells(A, Market, AE)
    ensures Sells(A, SmallCity, AB)
    ensures Sells(B, Market, BE)
    ensures Sells(B, University, BA)
    ensures Sells(AB, Market, ABE)
    ensures Sells(BE, University, BEA)
  {
    hide Rules.Ok, Table, Sells, Deal;
    DealE();
    DealA();
    DealB();
    DealEB();
    DealAE();
    DealAB();
    DealBE();
    DealBA();
    DealABE();
    DealBEA();
    Bought(EMPTY, Market, 7, E);
    Bought(EMPTY, University, 0, A);
    Bought(EMPTY, SmallCity, 0, B);
    Bought(E, SmallCity, 1, EB);
    Bought(A, Market, 7, AE);
    Bought(A, SmallCity, 1, AB);
    Bought(B, Market, 4, BE);
    Bought(B, University, 1, BA);
    Bought(AB, Market, 4, ABE);
    Bought(BE, University, 1, BEA);
  }

  // ---- the aim ----

  /** The aim bought in `s` completes at frame `h`. */
  ghost predicate AimAt(s: Scene, h: int)
    requires Table().Ok()
  {
    var v := DpOpening.Bought(Table(), s.At(), Tech("Aim"));
    v.Some? && Horizon(v.value) == h
  }

  ghost predicate AimDeal(s: Scene, n: nat) {
    && s.Ok() && 0 <= s.frame && s.frame + n >= s.free && n <= 99 && s.In(n).job.None?
    && s.metal >= 0 && s.In(n).wealth >= 22 && s.In(n).knowledge >= 11
    && (n == 0 || s.In(n - 1).wealth < 22 || s.In(n - 1).knowledge < 11)
  }

  lemma Aimed(s: Scene, n: nat)
    requires Table().Ok() && AimDeal(s, n)
    ensures Known(Table(), Tech("Aim")) && AimAt(s, s.frame + n)
  {
    hide Rules.Ok, Apply, Strip, Scene.In, Table, Scene.At, Horizon;
    PricedAim(s);
    BuysAim(s, n);
  }

  lemma AimDealEmpty() ensures AimDeal(EMPTY, 8) { }

  lemma AimDealA() ensures AimDeal(A, 8) { }

  lemma AimDealB() ensures AimDeal(B, 8) { }

  lemma AimDealAB() ensures AimDeal(AB, 7) { }

  lemma AimDealBE() ensures AimDeal(BE, 4) { }

  lemma AimDealABE() ensures AimDeal(ABE, 3) { }

  lemma AimDealBEA() ensures AimDeal(BEA, 2) { }

  /** Only after the city, the market and then the university does the aim come early. */
  lemma AimWorks()
    requires Table().Ok()
    ensures Known(Table(), Tech("Aim"))
    ensures AimAt(EMPTY, 11) && AimAt(A, 11) && AimAt(B, 11) && AimAt(AB, 11) && AimAt(BE, 11) && AimAt(ABE, 11) && AimAt(BEA, 10)
  {
    hide Rules.Ok, Table, AimAt, AimDeal;
    AimDealEmpty();
    AimDealA();
    AimDealB();
    AimDealAB();
    AimDealBE();
    AimDealABE();
    AimDealBEA();
    Aimed(EMPTY, 8);
    Aimed(A, 8);
    Aimed(B, 8);
    Aimed(AB, 7);
    Aimed(BE, 4);
    Aimed(ABE, 3);
    Aimed(BEA, 2);
  }

  // ---- the task ----

  const NAMES := [Tech("Aim"), Market, University, SmallCity]

  /** The aim is required, the others may be bought once, and a node keeps one state. */
  function Task(start: World): DpModel.Task<World>
    requires Table().Ok()
  {
    DpModel.Task(DpOpening.Records(Table(), NAMES), [1, 1, 1, 1], [1, 0, 0, 0], 1, start)
  }

  ghost function Aims(): DpModel.Task<World>
    requires Table().Ok()
  {
    DpModel.Task(DpOpening.Buys(Table(), NAMES), [1, 1, 1, 1], [1, 0, 0, 0], 1, EMPTY.At())
  }

  function Completion(s: Scene): int {
    Max(Max(s.frame, s.free), if s.job.Some? then s.job.value.done else s.frame)
  }

  lemma Seen(s: Scene)
    requires Table().Ok() && s.Ok() && s.frame >= 0
    ensures var m := Aims().m; m.food(s.At()) == 0 && m.timber(s.At()) == 0 && m.horizon(s.At()) == Completion(s)
  {
    hide Rules.Ok, Table, Scene.Counts;
    var w := s.At();
    assert forall from :: LastDone([], from) == from;
    if s.job.Some? {
      var j := s.job.value;
      assert w.pend == [j] && [j][1..] == [];
      assert forall from :: LastDone([j], from) == Max(from, j.done);
    }
  }

  lemma SellsLeads(s: Scene, i: nat, v: Scene)
    requires Table().Ok() && 1 <= i < 4 && !s.Has(NAMES[i]) && Sells(s, NAMES[i], v)
    ensures DpTies.Leads(Aims(), s.At(), i, v.At())
  {
    hide Rules.Ok, Table, Scene.At, DpOpening.Bought, Legal;
    Priced(s, NAMES[i]);
  }

  lemma AimsAt(s: Scene, h: int)
    requires Table().Ok() && Known(Table(), Tech("Aim")) && AimAt(s, h)
    ensures DpTies.AimAt(Aims(), s.At(), h)
  {
    hide Rules.Ok, Table, Scene.At, DpOpening.Bought, Legal, Horizon;
    PricedAim(s);
  }

  ghost function Plot(): DpTies.Plot<World> {
    DpTies.Plot(E.At(), EB.At(), A.At(), B.At(), AB.At(), BA.At(), AE.At(), BE.At(), ABE.At(), BEA.At())
  }

  lemma AllPurchases()
    requires Table().Ok()
    ensures DpTies.Purchases(Aims(), Plot())
  {
    hide Rules.Ok, Table, Scene.At, Sells, DpOpening.Buys, DpTies.Leads;
    Works();
    SellsLeads(EMPTY, 1, E);
    SellsLeads(EMPTY, 2, A);
    SellsLeads(EMPTY, 3, B);
    SellsLeads(E, 3, EB);
    SellsLeads(A, 1, AE);
    SellsLeads(A, 3, AB);
    SellsLeads(B, 1, BE);
    SellsLeads(B, 2, BA);
    SellsLeads(AB, 1, ABE);
    SellsLeads(BE, 2, BEA);
  }

  lemma AllAims()
    requires Table().Ok()
    ensures var (t, p) := (Aims(), Plot());
            && DpTies.AimAt(t, t.start, 11) && DpTies.AimAt(t, p.a, 11) && DpTies.AimAt(t, p.b, 11) && DpTies.AimAt(t, p.ab, 11)
            && DpTies.AimAt(t, p.be, 11) && DpTies.AimAt(t, p.abe, 11) && DpTies.AimAt(t, p.bea, 10)
  {
    hide Rules.Ok, Table, Scene.At, AimAt, DpOpening.Buys, DpTies.AimAt;
    AimWorks();
    AimsAt(EMPTY, 11);
    AimsAt(A, 11);
    AimsAt(B, 11);
    AimsAt(AB, 11);
    AimsAt(BE, 11);
    AimsAt(ABE, 11);
    AimsAt(BEA, 10);
  }

  lemma AllSeen()
    requires Table().Ok()
    ensures var (m, p) := (Aims().m, Plot());
            && m.horizon(p.e) == 11 && m.horizon(p.ae) == 11 && m.horizon(EMPTY.At()) == 3 && m.horizon(p.a) == m.horizon(p.b) == 4
            && m.horizon(p.ab) == 5 && m.horizon(p.be) == 8 && m.horizon(p.abe) == m.horizon(p.bea) == 9
            && !DpSets.Before(m, p.ba, p.ab) && !DpSets.Before(m, p.abe, p.bea) && !DpSets.Before(m, p.bea, p.abe)
  {
    hide Rules.Ok, Table, Scene.At, DpOpening.Buys;
    Seen(EMPTY);
    Seen(E);
    Seen(A);
    Seen(B);
    Seen(AB);
    Seen(BA);
    Seen(AE);
    Seen(BE);
    Seen(ABE);
    Seen(BEA);
  }

  lemma StripEmpty()
    ensures Strip(EMPTY.At()) == EMPTY.At()
  {
    hide Scene.Counts;
    assert multiset(Line(multiset([]))) == multiset([]);
  }

  lemma Told()
    requires Table().Ok()
    ensures DpTies.Story(Aims(), Plot(), 11)
  {
    hide Rules.Ok, Table, Scene.At, DpOpening.Buys, DpOpening.Records, DpModel.Monotone, DpTies.Purchases, DpTies.AimAt, DpSets.Before, Strip;
    StripEmpty();
    DpOpening.OpeningMonotone(Table(), Task(EMPTY.At()), NAMES);
    AllPurchases();
    AllAims();
    AllSeen();
  }

  /** Two finished searches from `start`, with pruning and without it, have found 11 and 10. */
  ghost predicate Differ(g: Rules, t: DpModel.Task<World>, start: World, j: nat, k: nat) {
    && DpOpening.IsOpening(g, t, NAMES) && t.start == start
    && DpModel.Steps(t, true, j).qi == |DpModel.Steps(t, true, j).order| && DpModel.Steps(t, true, j).best == Some(11)
    && DpModel.Steps(t, false, k).qi == |DpModel.Steps(t, false, k).order| && DpModel.Steps(t, false, k).best == Some(10)
  }

  /** Whatever its log, the search from the empty opening depends on pruning. */
  lemma SearchesDiffer(start: World) returns (j: nat, k: nat)
    requires Table().Ok() && Strip(start) == EMPTY.At()
    ensures Differ(Table(), Task(start), start, j, k)
  {
    hide Rules.Ok, Table, Scene.At, DpOpening.Buys, DpOpening.Records, DpModel.Steps, DpTies.Story, Strip;
    Told();
    j, k := DpTies.StoryDiffers(Aims(), Plot(), 11);
    DpOpening.SearchStrips(Table(), Task(start), NAMES, true, j);
    DpOpening.SearchStrips(Table(), Task(start), NAMES, false, k);
  }
}
