/**
 Grammars as codecs: what a value must satisfy, the bytes it is written as, and the
 reader. A codec is exact when reading undoes writing in front of any bytes and every
 accepted input is the writing of what was read, up to where reading stopped.
 */
module SaveCodec {
  import opened Arith
  import opened Costs

  type Byte = b: int | 0 <= b < 256

  datatype Codec<!V> = Codec(wf: V -> bool, enc: V -> seq<Byte>, dec: seq<Byte> -> Option<(V, nat)>)

  ghost predicate Exact<V(!new)>(c: Codec<V>) {
    && (forall v, t: seq<Byte> :: c.wf(v) ==> c.dec(c.enc(v) + t) == Some((v, |c.enc(v)|)))
    && (forall s: seq<Byte> :: c.dec(s).Some? ==> Reads(c, s, c.dec(s).value.0, c.dec(s).value.1))
  }

  /** The first `n` bytes of `s` are the writing of the well-formed `v`. */
  ghost predicate Reads<V(!new)>(c: Codec<V>, s: seq<Byte>, v: V, n: nat) {
    c.wf(v) && n <= |s| && c.enc(v) == s[..n]
  }

  lemma ReadBack<V(!new)>(c: Codec<V>, v: V, t: seq<Byte>)
    requires Exact(c) && c.wf(v)
    ensures c.dec(c.enc(v) + t) == Some((v, |c.enc(v)|)) && (c.enc(v) + t)[|c.enc(v)|..] == t
  {
  }

  lemma WroteThis<V(!new)>(c: Codec<V>, s: seq<Byte>)
    requires Exact(c) && c.dec(s).Some?
    ensures Reads(c, s, c.dec(s).value.0, c.dec(s).value.1)
  {
  }

  // ---- integers ----

  function Pow256(k: nat): (p: nat)
    ensures p >= 1
  {
    if k == 0 then 1 else 256 * Pow256(k - 1)
  }

  function EncLE(v: nat, k: nat): (s: seq<Byte>)
    ensures |s| == k
  {
    if k == 0 then [] else [v % 256] + EncLE(v / 256, k - 1)
  }

  function DecLE(s: seq<Byte>): nat {
    if s == [] then 0 else s[0] + 256 * DecLE(s[1..])
  }

  lemma {:induction false} DecEncLE(v: nat, k: nat)
    requires v < Pow256(k)
    ensures DecLE(EncLE(v, k)) == v
  {
    if k > 0 {
      DecEncLE(v / 256, k - 1);
      assert EncLE(v, k)[1..] == EncLE(v / 256, k - 1);
    }
  }

  lemma LowByte(b: Byte, d: nat)
    ensures (b + 256 * d) % 256 == b && (b + 256 * d) / 256 == d
  {
    DivModUnique(b + 256 * d, 256, d, b);
  }

  lemma {:induction false} EncDecLE(s: seq<Byte>)
    ensures DecLE(s) < Pow256(|s|) && EncLE(DecLE(s), |s|) == s
    decreases |s|
  {
    if s != [] {
      EncDecLE(s[1..]);
      LowByte(s[0], DecLE(s[1..]));
      assert s == [s[0]] + s[1..];
    }
  }

  /** A little-endian integer of `width` bytes. */
  datatype IntType = IntType(width: nat, signed: bool)

  const U8 := IntType(1, false)
  const I8 := IntType(1, true)
  const U16 := IntType(2, false)
  const I16 := IntType(2, true)
  const U32 := IntType(4, false)
  const I32 := IntType(4, true)

  predicate Fits(t: IntType, v: int) {
    if t.signed then 0 <= 2 * v + Pow256(t.width) && 2 * v < Pow256(t.width) else 0 <= v < Pow256(t.width)
  }

  function EncInt(t: IntType, v: int): seq<Byte> {
    if !Fits(t, v) then []
    else if v >= 0 then EncLE(v, t.width)
    else assert t.signed; EncLE(v + Pow256(t.width), t.width)
  }

  function DecInt(t: IntType, s: seq<Byte>): Option<(int, nat)> {
    if |s| < t.width then None
    else
      var u := DecLE(s[..t.width]);
      Some((if t.signed && 2 * u >= Pow256(t.width) then u - Pow256(t.width) else u, t.width))
  }

  function IntC(t: IntType): Codec<int> {
    Codec(v => Fits(t, v), v => EncInt(t, v), s => DecInt(t, s))
  }

  lemma IntExact(t: IntType)
    requires t.width > 0
    ensures Exact(IntC(t))
  {
    var c := IntC(t);
    forall v, rest: seq<Byte> | c.wf(v)
      ensures c.dec(c.enc(v) + rest) == Some((v, |c.enc(v)|))
    {
      var u := if v < 0 then v + Pow256(t.width) else v;
      DecEncLE(u, t.width);
      assert (c.enc(v) + rest)[..t.width] == EncLE(u, t.width);
    }
    forall s: seq<Byte> | c.dec(s).Some?
      ensures Reads(c, s, c.dec(s).value.0, c.dec(s).value.1)
    {
      EncDecLE(s[..t.width]);
    }
  }

  // ---- composition ----

  /** A restriction to the values that satisfy `ok`. */
  function OnlyC<V>(c: Codec<V>, ok: V -> bool): Codec<V> {
    Codec(v => c.wf(v) && ok(v), c.enc,
          s => match c.dec(s)
               case None => None
               case Some((v, n)) => if ok(v) then Some((v, n)) else None)
  }

  lemma OnlyExact<V(!new)>(c: Codec<V>, ok: V -> bool)
    requires Exact(c)
    ensures Exact(OnlyC(c, ok))
  {
    var d := OnlyC(c, ok);
    forall v, t: seq<Byte> | d.wf(v) ensures d.dec(d.enc(v) + t) == Some((v, |d.enc(v)|)) {
      ReadBack(c, v, t);
    }
    forall s: seq<Byte> | d.dec(s).Some? ensures Reads(d, s, d.dec(s).value.0, d.dec(s).value.1) {
      WroteThis(c, s);
    }
  }

  /** One value after another, the second grammar depending on the first value. */
  function ThenC<A, B>(a: Codec<A>, f: A -> Codec<B>): Codec<(A, B)> {
    Codec((v: (A, B)) => a.wf(v.0) && f(v.0).wf(v.1),
          (v: (A, B)) => a.enc(v.0) + f(v.0).enc(v.1),
          s => ThenDec(a, f, s))
  }

  function ThenDec<A, B>(a: Codec<A>, f: A -> Codec<B>, s: seq<Byte>): Option<((A, B), nat)> {
    match a.dec(s)
    case None => None
    case Some((x, n)) =>
      if n > |s| then None
      else match f(x).dec(s[n..])
        case None => None
        case Some((y, m)) => Some(((x, y), n + m))
  }

  lemma ThenExact<A(!new), B(!new)>(a: Codec<A>, f: A -> Codec<B>)
    requires Exact(a) && forall x | a.wf(x) :: Exact(f(x))
    ensures Exact(ThenC(a, f))
  {
    var c := ThenC(a, f);
    forall v, t: seq<Byte> | c.wf(v) ensures c.dec(c.enc(v) + t) == Some((v, |c.enc(v)|)) {
      var (x, y) := v;
      var ex, ey := a.enc(x), f(x).enc(y);
      assert ex + ey + t == ex + (ey + t);
      ReadBack(a, x, ey + t);
      ReadBack(f(x), y, t);
    }
    forall s: seq<Byte> | c.dec(s).Some? ensures Reads(c, s, c.dec(s).value.0, c.dec(s).value.1) {
      WroteThis(a, s);
      var (x, n) := a.dec(s).value;
      WroteThis(f(x), s[n..]);
      var (y, m) := f(x).dec(s[n..]).value;
      assert s[..n + m] == s[..n] + s[n..][..m];
    }
  }

  /** The same grammar read as another type. */
  function AsC<A, B>(a: Codec<A>, to: A -> B, from: B -> A): Codec<B>
  {
    Codec(v => a.wf(from(v)), v => a.enc(from(v)),
          s => match a.dec(s)
               case None => None
               case Some((x, n)) => Some((to(x), n)))
  }

  lemma AsExact<A(!new), B(!new)>(a: Codec<A>, to: A -> B, from: B -> A)
    requires Exact(a)
    requires forall x | a.wf(x) :: from(to(x)) == x
    requires forall v | a.wf(from(v)) :: to(from(v)) == v
    ensures Exact(AsC(a, to, from))
  {
    var c := AsC(a, to, from);
    forall v, t: seq<Byte> | c.wf(v) ensures c.dec(c.enc(v) + t) == Some((v, |c.enc(v)|)) {
      ReadBack(a, from(v), t);
    }
    forall s: seq<Byte> | c.dec(s).Some? ensures Reads(c, s, c.dec(s).value.0, c.dec(s).value.1) {
      WroteThis(a, s);
    }
  }

  // ---- lists ----

  /** One value per grammar, in order. */
  function EachC<V>(cs: seq<Codec<V>>): Codec<seq<V>> {
    Codec(vs => EachWf(cs, vs), vs => EachEnc(cs, vs), s => EachDec(cs, s))
  }

  predicate EachWf<V>(cs: seq<Codec<V>>, vs: seq<V>) {
    |vs| == |cs| && forall i | 0 <= i < |cs| :: cs[i].wf(vs[i])
  }

  function EachEnc<V>(cs: seq<Codec<V>>, vs: seq<V>): seq<Byte> {
    if cs == [] || vs == [] then [] else cs[0].enc(vs[0]) + EachEnc(cs[1..], vs[1..])
  }

  function EachDec<V>(cs: seq<Codec<V>>, s: seq<Byte>): Option<(seq<V>, nat)> {
    if cs == [] then Some(([], 0))
    else match cs[0].dec(s)
      case None => None
      case Some((v, n)) =>
        if n > |s| then None
        else match EachDec(cs[1..], s[n..])
          case None => None
          case Some((vs, m)) => Some(([v] + vs, n + m))
  }

  lemma EachDecNothing<V>(s: seq<Byte>)
    ensures EachDec<V>([], s) == Some(([], 0))
  {
  }

  /** `EachDec` one element at a time. */
  lemma EachDecStep<V>(cs: seq<Codec<V>>, s: seq<Byte>, v: V, n: nat)
    requires cs != [] && cs[0].dec(s) == Some((v, n)) && n <= |s|
    ensures EachDec(cs, s) == match EachDec(cs[1..], s[n..])
                              case None => None
                              case Some((vs, m)) => Some(([v] + vs, n + m))
  {
  }

  lemma {:induction false} EachReadBack<V(!new)>(cs: seq<Codec<V>>, vs: seq<V>, t: seq<Byte>)
    requires (forall c | c in cs :: Exact(c)) && EachWf(cs, vs)
    ensures EachDec(cs, EachEnc(cs, vs) + t) == Some((vs, |EachEnc(cs, vs)|))
    decreases |cs|
  {
    hide Exact, EachDec;
    if cs == [] {
      EachDecNothing<V>(t);
      assert vs == [] && EachEnc(cs, vs) + t == t;
    } else {
      var e, es := cs[0].enc(vs[0]), EachEnc(cs[1..], vs[1..]);
      assert e + es + t == e + (es + t);
      assert cs[0] in cs;
      ReadBack(cs[0], vs[0], es + t);
      EachDecStep(cs, e + (es + t), vs[0], |e|);
      EachReadBack(cs[1..], vs[1..], t);
      assert vs == [vs[0]] + vs[1..];
    }
  }

  lemma {:induction false} EachWroteThis<V(!new)>(cs: seq<Codec<V>>, s: seq<Byte>)
    requires (forall c | c in cs :: Exact(c)) && EachDec(cs, s).Some?
    ensures var (vs, n) := EachDec(cs, s).value;
            EachWf(cs, vs) && n <= |s| && EachEnc(cs, vs) == s[..n]
    decreases |cs|
  {
    hide Exact;
    if cs != [] {
      assert cs[0] in cs;
      WroteThis(cs[0], s);
      var (v, n) := cs[0].dec(s).value;
      EachWroteThis(cs[1..], s[n..]);
      var (vs, m) := EachDec(cs[1..], s[n..]).value;
      assert ([v] + vs)[1..] == vs;
      assert s[..n + m] == s[..n] + s[n..][..m];
    }
  }

  lemma EachExact<V(!new)>(cs: seq<Codec<V>>)
    requires forall c | c in cs :: Exact(c)
    ensures Exact(EachC(cs))
  {
    var c := EachC(cs);
    forall vs, t: seq<Byte> | c.wf(vs) ensures c.dec(c.enc(vs) + t) == Some((vs, |c.enc(vs)|)) {
      EachReadBack(cs, vs, t);
    }
    forall s: seq<Byte> | c.dec(s).Some? ensures Reads(c, s, c.dec(s).value.0, c.dec(s).value.1) {
      EachWroteThis(cs, s);
    }
  }

  function Copies<V>(c: Codec<V>, n: nat): seq<Codec<V>> { seq(n, i => c) }

  /** Integers of the given types, one after another. */
  function IntsC(ts: seq<IntType>): Codec<seq<int>> { EachC(IntCs(ts)) }

  function IntCs(ts: seq<IntType>): seq<Codec<int>> {
    seq(|ts|, i requires 0 <= i < |ts| => IntC(ts[i]))
  }

  lemma IntsExact(ts: seq<IntType>)
    requires forall t | t in ts :: t.width > 0
    ensures Exact(IntsC(ts))
  {
    var cs := IntCs(ts);
    forall i | 0 <= i < |ts| ensures Exact(cs[i]) {
      IntExact(ts[i]);
    }
    EachExact(cs);
  }

  lemma CopiesExact<V(!new)>(c: Codec<V>, n: nat)
    requires Exact(c)
    ensures Exact(EachC(Copies(c, n)))
  {
    hide Exact;
    EachExact(Copies(c, n));
  }
}
