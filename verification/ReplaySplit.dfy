/**
 The second, independently written packet splitter, and exactly on which unpadded payloads
 the two agree: on all of up to 1044 bytes, and not on all beyond.
 */
module ReplaySplit {
  import opened Costs
  import opened ReplayPackets

  /** The other table of fixed sizes, opcode by opcode. */
  function FixedRow(op: nat): Option<nat> {
    if op in {0x01, 0x0c, 0x0d, 0x1b, 0x1d, 0x23, 0x24, 0x35, 0x36, 0x37, 0x3e, 0x3f, 0x40} then Some(1)
    else if op in {0x4c, 0x4d, 0x51} then Some(2)
    else if op in {0x50} then Some(3)
    else if op in {0x02, 0x0e, 0x15, 0x34, 0x38, 0x3b, 0x3c, 0x3d, 0x41, 0x42, 0x46} then Some(5)
    else if op in {0x3a} then Some(6)
    else if op in {0x47} then Some(7)
    else if op in {0x0f, 0x12, 0x13, 0x18, 0x20, 0x21, 0x27, 0x28, 0x29, 0x2a, 0x32, 0x45, 0x4f} then Some(9)
    else if op in {0x09, 0x0a, 0x48} then Some(10)
    else if op in {0x31, 0x4a} then Some(11)
    else if op in {0x03, 0x05, 0x10, 0x14, 0x1e, 0x1f, 0x25, 0x26, 0x2e, 0x2f} then Some(13)
    else if op in {0x30} then Some(15)
    else if op in {0x04, 0x06, 0x16, 0x1a, 0x2b, 0x2c, 0x2d, 0x43} then Some(17)
    else if op in {0x11, 0x17} then Some(21)
    else if op in {0x07} then Some(22)
    else if op in {0x0b, 0x19, 0x1c, 0x22} then Some(25)
    else if op in {0x08} then Some(26)
    else if op in {0x49} then Some(33)
    else if op in {0x4b} then Some(53)
    else if op in {0x39} then Some(65)
    else if op in {0x4e} then Some(521)
    else None
  }

  /** Size of the packet at the head of `s`, zero if undecodable. */
  function CmdSize(s: seq<Octet>): nat
    requires s != []
  {
    var op := s[0] as nat;
    if FixedRow(op).Some? then FixedRow(op).value
    else if op == 0x00 then
      if |s| < 2 then 0 else s[1] as nat * 2 + 3
    else if op == 0x33 then
      if |s| < 6 || Unsigned16(s, 4) > 4096 then 0 else Unsigned16(s, 4) * 8 + 6
    else if op == 0x44 then
      if |s| < 17 || S32(s, 13) < 0 || S32(s, 13) > 4096 then 0 else S32(s, 13) * 2 + 0x13
    else 0
  }

  datatype Cut = Cut(offset: nat, op: Octet, size: nat)

  /** Cuts from `offset` on, and whether the payload comes apart cleanly. */
  function SplitFrom(s: seq<Octet>, offset: nat): (seq<Cut>, bool)
    decreases |s|
  {
    if s == [] then ([], true)
    else
      var n := CmdSize(s);
      if n == 0 || n > |s| then ([], false)
      else
        var (rest, clean) := SplitFrom(s[n..], offset + n);
        ([Cut(offset, s[0], n)] + rest, clean)
  }

  lemma SplitStep(s: seq<Octet>, offset: nat)
    requires s != []
    ensures CmdSize(s) == 0 || CmdSize(s) > |s| ==> SplitFrom(s, offset) == ([], false)
    ensures 0 < CmdSize(s) <= |s| ==>
              var n := CmdSize(s);
              var (rest, clean) := SplitFrom(s[n..], offset + n);
              SplitFrom(s, offset) == ([Cut(offset, s[0], n)] + rest, clean)
  {
  }

  method SplitCommands(payload: seq<Octet>) returns (out: seq<Cut>, clean: bool)
    ensures (out, clean) == SplitFrom(payload, 0)
  {
    hide CmdSize, SplitFrom;
    out := [];
    var p := 0;
    assert payload[0..] == payload;
    assert [] + SplitFrom(payload, 0).0 == SplitFrom(payload, 0).0;
    while p < |payload|
      invariant 0 <= p <= |payload|
      invariant SplitFrom(payload, 0) == (out + SplitFrom(payload[p..], p).0, SplitFrom(payload[p..], p).1)
      decreases |payload| - p
    {
      var op := payload[p];
      var n := CmdSize(payload[p..]);
      SplitStep(payload[p..], p);
      if n <= 0 || p + n > |payload| {
        assert out + [] == out;
        return out, false;
      }
      assert payload[p..][n..] == payload[p + n..];
      assert out + ([Cut(p, op, n)] + SplitFrom(payload[p + n..], p + n).0)
          == out + [Cut(p, op, n)] + SplitFrom(payload[p + n..], p + n).0;
      out := out + [Cut(p, op, n)];
      p := p + n;
    }
    assert payload[p..] == [] && out + [] == out;
    SplitNothing(p);
    return out, true;
  }

  lemma SplitNothing(offset: nat)
    ensures SplitFrom([], offset) == ([], true)
  {
  }

  // ---- agreement ----

  lemma TablesAgree(op: nat)
    ensures FixedRow(op) == FixedSize(op)
  {
    hide FixedRow, FixedSize;
    var row, col := op / 16, op % 16;
    if op >= 82 { PastTheTables(op); }
    else if row == 0 { Row0(col); }
    else if row == 1 { Row1(col); }
    else if row == 2 { Row2(col); }
    else if row == 3 { Row3(col); }
    else if row == 4 { Row4(col); }
    else { Row5(col); }
  }

  lemma PastTheTables(op: nat)
    requires op >= 82
    ensures FixedRow(op).None? && FixedSize(op).None?
  {
  }

  lemma Row0(col: nat)
    requires col < 16
    ensures FixedRow(0 + col) == FixedSize(0 + col)
  {
    assert COMMAND_SIZES[0] == [0, 1, 5, 13, 17, 13, 17, 22, 26, 10, 10, 25, 1, 1, 5, 9];
  }

  lemma Row1(col: nat)
    requires col < 16
    ensures FixedRow(16 + col) == FixedSize(16 + col)
  {
    assert COMMAND_SIZES[1] == [13, 21, 9, 9, 13, 5, 17, 21, 9, 25, 17, 1, 25, 1, 13, 13];
  }

  lemma Row2(col: nat)
    requires col < 16
    ensures FixedRow(32 + col) == FixedSize(32 + col)
  {
    assert COMMAND_SIZES[2] == [9, 9, 25, 1, 1, 13, 13, 9, 9, 9, 9, 17, 17, 17, 13, 13];
  }

  lemma Row3(col: nat)
    requires col < 16
    ensures FixedRow(48 + col) == FixedSize(48 + col)
  {
    assert COMMAND_SIZES[3] == [15, 11, 9, 0, 5, 1, 1, 1, 5, 65, 6, 5, 5, 5, 1, 1];
  }

  lemma Row4(col: nat)
    requires col < 16
    ensures FixedRow(64 + col) == FixedSize(64 + col)
  {
    assert COMMAND_SIZES[4] == [1, 5, 5, 17, 0, 9, 5, 7, 10, 33, 11, 53, 2, 2, 521, 9];
  }

  lemma Row5(col: nat)
    requires col < 2
    ensures FixedRow(80 + col) == FixedSize(80 + col)
  {
    assert COMMAND_SIZES[5] == [3, 2];
  }

  /** A packet that fits and that only one table knows: a chat of 513 to 4096 code units, or
      a spline of more than 4096 points. */
  predicate Odd(s: seq<Octet>) {
    || (|s| >= 17 && s[0] == 0x44 && 512 < S32(s, 13) <= 4096 && 19 + 2 * S32(s, 13) <= |s|)
    || (|s| >= 6 && s[0] == 0x33 && Unsigned16(s, 4) > 4096 && 6 + 8 * Unsigned16(s, 4) <= |s|)
  }

  /** Both read the same first packet or both refuse it, exactly when it is not odd; an odd
      one is refused by one of them. */
  lemma SizesAgree(s: seq<Octet>)
    requires s != []
    ensures var (a, b) := (WireLen(s).Some? && WireLen(s).value <= |s|, 0 < CmdSize(s) <= |s|);
            && (a == b <==> !Odd(s))
            && (a && b ==> WireLen(s) == Some(CmdSize(s)))
  {
    hide FixedRow, FixedSize;
    TablesAgree(s[0] as nat);
    TablesAgree(0x00);
    TablesAgree(0x33);
    TablesAgree(0x44);
    VariableRows();
  }

  lemma VariableRows()
    ensures FixedSize(0x00).None? && FixedSize(0x33).None? && FixedSize(0x44).None?
  {
  }

  /** Reading on, as long as both read the same, one meets an odd packet. */
  predicate MeetsOdd(s: seq<Octet>)
    decreases |s|
  {
    s != [] && (Odd(s) || (0 < CmdSize(s) <= |s| && MeetsOdd(s[CmdSize(s)..])))
  }

  /** Packet boundaries of a decoded package. */
  function Cuts(ps: seq<Packet>, offset: nat): seq<Cut> {
    if ps == [] then []
    else [Cut(offset, ps[0].op, |Bytes(ps[0])|)] + Cuts(ps[1..], offset + |Bytes(ps[0])|)
  }

  /** The two splitters take or refuse the payload together, and cut it at the same places. */
  ghost predicate Agree(s: seq<Octet>, offset: nat) {
    && SplitFrom(s, offset).1 == DecodeFrom(s, None).Some?
    && (SplitFrom(s, offset).1 ==> SplitFrom(s, offset).0 == Cuts(DecodeFrom(s, None).value, offset))
  }

  /** The splitters agree on a payload exactly when it has no odd packet where both get to,
      or both refuse it anyway. */
  lemma {:induction false} SplittersAgree(s: seq<Octet>, offset: nat)
    ensures Agree(s, offset) <==> !MeetsOdd(s) || (!SplitFrom(s, offset).1 && DecodeFrom(s, None).None?)
    ensures MeetsOdd(s) ==> !(SplitFrom(s, offset).1 && DecodeFrom(s, None).Some?)
    decreases |s|
  {
    hide WireLen, CmdSize, SplitFrom, DecodeFrom, Odd;
    if s == [] {
      SplitNothing(offset);
      DecodeNothing(None);
    } else {
      SizesAgree(s);
      SplitStep(s, offset);
      DecodeStep(s, None);
      var n := CmdSize(s);
      if 0 < n <= |s| && !Odd(s) {
        SplittersAgree(s[n..], offset + n);
        var p := Packet(s[0], s[1..n]);
        if DecodeFrom(s[n..], None).Some? {
          assert DecodeFrom(s, None).value[1..] == DecodeFrom(s[n..], None).value;
        }
      }
    }
  }

  /** The largest payload on which the two splitters cannot differ. */
  const AGREED := 1044

  lemma {:induction false} ShortAgree(s: seq<Octet>, offset: nat)
    requires |s| <= AGREED
    ensures !MeetsOdd(s) && Agree(s, offset)
    decreases |s|
  {
    hide CmdSize, Agree;
    SplittersAgree(s, offset);
    if s != [] && 0 < CmdSize(s) <= |s| { ShortAgree(s[CmdSize(s)..], offset); }
  }

  /** A chat packet of 513 code units: one byte more and the splitters part. */
  const LONG_CHAT: seq<Octet> :=
    seq(1045, i => if i == 0 then 0x44 else if i == 13 then 0x01 else if i == 14 then 0x02 else 0x00)

  lemma SplittersDiffer()
    ensures |LONG_CHAT| == AGREED + 1
    ensures SplitFrom(LONG_CHAT, 0).1 && DecodeFrom(LONG_CHAT, None).None?
  {
    hide FixedRow, FixedSize, SplitFrom, DecodeFrom;
    TablesAgree(0x44);
    VariableRows();
    assert S32(LONG_CHAT, 13) == 513;
    SplitStep(LONG_CHAT, 0);
    DecodeStep(LONG_CHAT, None);
    assert LONG_CHAT[1045..] == [];
    SplitNothing(1045);
  }
}
