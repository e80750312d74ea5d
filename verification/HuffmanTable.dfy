/** The code lengths HPACK commits to are a complete canonical table. */
module HuffmanTable {
  import opened Huffman

  /** A code of length `l` takes this much of all the codes of length 30. */
  function Share(l: nat): nat { if l <= LONGEST then Pow2(LONGEST - l) else 0 }

  function Kraft(ls: seq<nat>): nat { if ls == [] then 0 else Kraft(ls[..|ls| - 1]) + Share(ls[|ls| - 1]) }

  function Taken(l: nat, len: nat): nat { if l <= len then Pow2(len - l) else 0 }

  lemma {:induction false} EndAppend(ls: seq<nat>, len: nat)
    requires ls != [] && 1 <= ls[|ls| - 1] && 1 <= len
    ensures EndCode(ls, len) == EndCode(ls[..|ls| - 1], len) + Taken(ls[|ls| - 1], len)
  {
    if len > 1 { EndAppend(ls, len - 1); }
  }

  lemma {:induction false} EndIsKraft(ls: seq<nat>, len: nat)
    requires len == LONGEST && forall s :: 0 <= s < |ls| ==> 1 <= ls[s]
    ensures EndCode(ls, len) == Kraft(ls)
  {
    if ls == [] {
      EndOfNone(len);
    } else {
      EndIsKraft(ls[..|ls| - 1], len);
      EndAppend(ls, len);
    }
  }

  lemma {:induction false} EndOfNone(len: nat)
    ensures EndCode([], len) == 0
  {
    if len > 1 { EndOfNone(len - 1); }
  }

  lemma {:induction false} KraftJoin(x: seq<nat>, y: seq<nat>)
    ensures Kraft(x + y) == Kraft(x) + Kraft(y)
  {
    if y == [] {
      assert x + y == x;
    } else {
      assert (x + y)[..|x + y| - 1] == x + y[..|y| - 1];
      KraftJoin(x, y[..|y| - 1]);
    }
  }

  lemma Row2(a: nat, b: nat)
    ensures Kraft([a, b]) == Share(a) + Share(b)
  {
    assert [a, b][..1] == [a] && [a][..0] == [];
    assert Kraft([a]) == Kraft([]) + Share(a);
  }

  lemma Row4(a: nat, b: nat, c: nat, d: nat)
    ensures Kraft([a, b, c, d]) == Share(a) + Share(b) + Share(c) + Share(d)
  {
    assert [a, b, c, d] == [a, b] + [c, d];
    KraftJoin([a, b], [c, d]);
    Row2(a, b);
    Row2(c, d);
  }

  lemma Row16(r: seq<nat>)
    requires |r| == 16
    ensures Kraft(r) == Share(r[0]) + Share(r[1]) + Share(r[2]) + Share(r[3]) + Share(r[4]) + Share(r[5])
                        + Share(r[6]) + Share(r[7]) + Share(r[8]) + Share(r[9]) + Share(r[10]) + Share(r[11])
                        + Share(r[12]) + Share(r[13]) + Share(r[14]) + Share(r[15])
  {
    var a, b := [r[0], r[1], r[2], r[3]], [r[4], r[5], r[6], r[7]];
    var c, d := [r[8], r[9], r[10], r[11]], [r[12], r[13], r[14], r[15]];
    assert r == a + b + (c + d);
    KraftJoin(a + b, c + d);
    KraftJoin(a, b);
    KraftJoin(c, d);
    Row4(r[0], r[1], r[2], r[3]);
    Row4(r[4], r[5], r[6], r[7]);
    Row4(r[8], r[9], r[10], r[11]);
    Row4(r[12], r[13], r[14], r[15]);
  }

  // ---- The committed lengths --------------------------------------------------------

  const ROW0: seq<nat> := [13, 23, 28, 28, 28, 28, 28, 28, 28, 24, 30, 28, 28, 30, 28, 28]
  const ROW1: seq<nat> := [28, 28, 28, 28, 28, 28, 30, 28, 28, 28, 28, 28, 28, 28, 28, 28]
  const ROW2: seq<nat> := [6, 10, 10, 12, 13, 6, 8, 11, 10, 10, 8, 11, 8, 6, 6, 6]
  const ROW3: seq<nat> := [5, 5, 5, 6, 6, 6, 6, 6, 6, 6, 7, 8, 15, 6, 12, 10]
  const ROW4: seq<nat> := [13, 6, 7, 7, 7, 7, 7, 7, 7, 7, 7, 7, 7, 7, 7, 7]
  const ROW5: seq<nat> := [7, 7, 7, 7, 7, 7, 7, 7, 8, 7, 8, 13, 19, 13, 14, 6]
  const ROW6: seq<nat> := [15, 5, 6, 5, 6, 5, 6, 6, 6, 5, 7, 7, 6, 6, 6, 5]
  const ROW7: seq<nat> := [6, 7, 6, 5, 5, 6, 7, 7, 7, 7, 7, 15, 11, 14, 13, 28]
  const ROW8: seq<nat> := [20, 22, 20, 20, 22, 22, 22, 23, 22, 23, 23, 23, 23, 23, 24, 23]
  const ROW9: seq<nat> := [24, 24, 22, 23, 24, 23, 23, 23, 23, 21, 22, 23, 22, 23, 23, 24]
  const ROW10: seq<nat> := [22, 21, 20, 22, 22, 23, 23, 21, 23, 22, 22, 24, 21, 22, 23, 23]
  const ROW11: seq<nat> := [21, 21, 22, 21, 23, 22, 23, 23, 20, 22, 22, 22, 23, 22, 22, 23]
  const ROW12: seq<nat> := [26, 26, 20, 19, 22, 23, 22, 25, 26, 26, 26, 27, 27, 26, 24, 25]
  const ROW13: seq<nat> := [19, 21, 26, 27, 27, 26, 27, 24, 21, 21, 26, 26, 28, 27, 27, 27]
  const ROW14: seq<nat> := [20, 24, 20, 21, 22, 21, 21, 23, 22, 22, 25, 25, 24, 24, 26, 23]
  const ROW15: seq<nat> := [26, 27, 26, 26, 27, 27, 27, 27, 27, 28, 27, 27, 27, 27, 27, 26]

  function Row(k: nat): (r: seq<nat>)
    requires k < 16
    ensures |r| == 16
  {
    if k == 0 then ROW0 else if k == 1 then ROW1 else if k == 2 then ROW2 else if k == 3 then ROW3
    else if k == 4 then ROW4 else if k == 5 then ROW5 else if k == 6 then ROW6 else if k == 7 then ROW7
    else if k == 8 then ROW8 else if k == 9 then ROW9 else if k == 10 then ROW10 else if k == 11 then ROW11
    else if k == 12 then ROW12 else if k == 13 then ROW13 else if k == 14 then ROW14 else ROW15
  }

  function Rows(k: nat): (ls: seq<nat>)
    requires k <= 16
    ensures |ls| == 16 * k
  {
    if k == 0 then [] else Rows(k - 1) + Row(k - 1)
  }

  /** Bytes 0 to 255 in rows of sixteen, and EOS. */
  const LENGTHS: seq<nat> := Rows(16) + [LONGEST]

  lemma Powers()
    ensures Pow2(5) == 32 && Pow2(10) == 1024 && Pow2(15) == 32768
    ensures Pow2(20) == 1048576 && Pow2(25) == 33554432 && Pow2(30) == 1073741824
  {
    assert Pow2(5) == 32;
    assert Pow2(7) == 4 * Pow2(5);
    assert Pow2(10) == 8 * Pow2(7);
    assert Pow2(12) == 4 * Pow2(10);
    assert Pow2(15) == 8 * Pow2(12);
    assert Pow2(17) == 4 * Pow2(15);
    assert Pow2(20) == 8 * Pow2(17);
    assert Pow2(22) == 4 * Pow2(20);
    assert Pow2(25) == 8 * Pow2(22);
    assert Pow2(27) == 4 * Pow2(25);
    assert Pow2(30) == 8 * Pow2(27);
  }

  lemma Shares()
    ensures Share(5) == 33554432
    ensures Share(6) == 16777216
    ensures Share(7) == 8388608
    ensures Share(8) == 4194304
    ensures Share(10) == 1048576
    ensures Share(11) == 524288
    ensures Share(12) == 262144
    ensures Share(13) == 131072
    ensures Share(14) == 65536
    ensures Share(15) == 32768
    ensures Share(19) == 2048
    ensures Share(20) == 1024
    ensures Share(21) == 512
    ensures Share(22) == 256
    ensures Share(23) == 128
    ensures Share(24) == 64
    ensures Share(25) == 32
    ensures Share(26) == 16
    ensures Share(27) == 8
    ensures Share(28) == 4
    ensures Share(30) == 1
  {
    Powers();
  }

  /** A row that takes the codes from `before` to `after`. */
  ghost predicate Adds(r: seq<nat>, before: nat, after: nat) { Kraft(r) == after - before && Bounded(r) }

  lemma Kraft0()
    ensures Adds(ROW0, 0, 131310)
  {
    Shares();
    Row16(ROW0);
  }

  lemma Kraft1()
    ensures Adds(ROW1, 131310, 131371)
  {
    Shares();
    Row16(ROW1);
  }

  lemma Kraft2()
    ensures Adds(ROW2, 131371, 102236459)
  {
    Shares();
    Row16(ROW2);
  }

  lemma Kraft3()
    ensures Adds(ROW3, 102236459, 351043883)
  {
    Shares();
    Row16(ROW3);
  }

  lemma Kraft4()
    ensures Adds(ROW4, 351043883, 485392683)
  {
    Shares();
    Row16(ROW4);
  }

  lemma Kraft5()
    ensures Adds(ROW5, 485392683, 586385707)
  {
    Shares();
    Row16(ROW5);
  }

  lemma Kraft6()
    ensures Adds(ROW6, 586385707, 905185579)
  {
    Shares();
    Row16(ROW6);
  }

  lemma Kraft7()
    ensures Adds(ROW7, 905185579, 1073711407)
  {
    Shares();
    Row16(ROW7);
  }

  lemma Kraft8()
    ensures Adds(ROW8, 1073711407, 1073716719)
  {
    Shares();
    Row16(ROW8);
  }

  lemma Kraft9()
    ensures Adds(ROW9, 1073716719, 1073719279)
  {
    Shares();
    Row16(ROW9);
  }

  lemma Kraft10()
    ensures Adds(ROW10, 1073719279, 1073724079)
  {
    Shares();
    Row16(ROW10);
  }

  lemma Kraft11()
    ensures Adds(ROW11, 1073724079, 1073729071)
  {
    Shares();
    Row16(ROW11);
  }

  lemma Kraft12()
    ensures Adds(ROW12, 1073729071, 1073733023)
  {
    Shares();
    Row16(ROW12);
  }

  lemma Kraft13()
    ensures Adds(ROW13, 1073733023, 1073736787)
  {
    Shares();
    Row16(ROW13);
  }

  lemma Kraft14()
    ensures Adds(ROW14, 1073736787, 1073741667)
  {
    Shares();
    Row16(ROW14);
  }

  lemma Kraft15()
    ensures Adds(ROW15, 1073741667, 1073741823)
  {
    Shares();
    Row16(ROW15);
  }

  predicate Bounded(r: seq<nat>) { forall s :: 0 <= s < |r| ==> SHORTEST <= r[s] <= LONGEST }

  const TOTALS: seq<nat> := [0, 131310, 131371, 102236459, 351043883, 485392683, 586385707, 905185579, 1073711407,
    1073716719, 1073719279, 1073724079, 1073729071, 1073733023, 1073736787, 1073741667, 1073741823]

  lemma KraftRow(k: nat)
    requires k < 16
    ensures Adds(Row(k), TOTALS[k], TOTALS[k + 1])
  {
    if k < 8 { KraftLow(k); } else { KraftHigh(k); }
  }

  lemma KraftLow(k: nat)
    requires k < 8
    ensures Adds(Row(k), TOTALS[k], TOTALS[k + 1])
  {
    if k == 0 { Kraft0(); } else if k == 1 { Kraft1(); } else if k == 2 { Kraft2(); } else if k == 3 { Kraft3(); }
    else if k == 4 { Kraft4(); } else if k == 5 { Kraft5(); } else if k == 6 { Kraft6(); } else { Kraft7(); }
  }

  lemma KraftHigh(k: nat)
    requires 8 <= k < 16
    ensures Adds(Row(k), TOTALS[k], TOTALS[k + 1])
  {
    if k == 8 { Kraft8(); } else if k == 9 { Kraft9(); } else if k == 10 { Kraft10(); } else if k == 11 { Kraft11(); }
    else if k == 12 { Kraft12(); } else if k == 13 { Kraft13(); } else if k == 14 { Kraft14(); } else { Kraft15(); }
  }

  lemma {:induction false} KraftRows(k: nat)
    requires k <= 16
    ensures Kraft(Rows(k)) == TOTALS[k] && Bounded(Rows(k))
  {
    if k > 0 {
      KraftRows(k - 1);
      KraftRow(k - 1);
      KraftJoin(Rows(k - 1), Row(k - 1));
      BoundedJoin(Rows(k - 1), Row(k - 1));
    }
  }

  lemma BoundedJoin(x: seq<nat>, y: seq<nat>)
    requires Bounded(x) && Bounded(y)
    ensures Bounded(x + y)
  {
  }

  /** Bounded lengths that leave room for exactly EOS. */
  lemma ProperFrom(rows: seq<nat>, ls: seq<nat>)
    requires |rows| == 256 && Bounded(rows) && ls == rows + [LONGEST]
    requires Kraft(rows) + Kraft([LONGEST]) == Pow2(ls[EOS])
    ensures Proper(ls)
  {
    KraftJoin(rows, [LONGEST]);
    EndIsKraft(ls, ls[EOS]);
  }

  /** The table HPACK commits to is one the decoder and encoder are proved for. */
  lemma LengthsAreProper()
    ensures Proper(LENGTHS)
  {
    KraftRows(16);
    LastShare();
    ProperFrom(Rows(16), LENGTHS);
  }

  lemma LastShare()
    ensures Kraft([LONGEST]) == 1 && Pow2(LONGEST) == 1073741824
  {
    Powers();
    assert [LONGEST][..0] == [];
    assert Kraft([LONGEST]) == Kraft([]) + Share(LONGEST);
  }
}
