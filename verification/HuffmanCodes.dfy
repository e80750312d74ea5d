/** The codes HPACK commits to are the canonical ones of the lengths it commits to. */
module HuffmanCodes {
  import opened Arith
  import opened Huffman
  import opened HuffmanTable
  import opened Wrappers

  // ---- The committed codes -----------------------------------------------------------

  const CODES0: seq<nat> := [0x1ff8, 0x7fffd8, 0xfffffe2, 0xfffffe3, 0xfffffe4, 0xfffffe5, 0xfffffe6, 0xfffffe7,
    0xfffffe8, 0xffffea, 0x3ffffffc, 0xfffffe9, 0xfffffea, 0x3ffffffd, 0xfffffeb, 0xfffffec]
  const CODES1: seq<nat> := [0xfffffed, 0xfffffee, 0xfffffef, 0xffffff0, 0xffffff1, 0xffffff2, 0x3ffffffe, 0xffffff3,
    0xffffff4, 0xffffff5, 0xffffff6, 0xffffff7, 0xffffff8, 0xffffff9, 0xffffffa, 0xffffffb]
  const CODES2: seq<nat> := [0x14, 0x3f8, 0x3f9, 0xffa, 0x1ff9, 0x15, 0xf8, 0x7fa, 0x3fa, 0x3fb, 0xf9, 0x7fb, 0xfa,
    0x16, 0x17, 0x18]
  const CODES3: seq<nat> := [0x0, 0x1, 0x2, 0x19, 0x1a, 0x1b, 0x1c, 0x1d, 0x1e, 0x1f, 0x5c, 0xfb, 0x7ffc, 0x20, 0xffb,
    0x3fc]
  const CODES4: seq<nat> := [0x1ffa, 0x21, 0x5d, 0x5e, 0x5f, 0x60, 0x61, 0x62, 0x63, 0x64, 0x65, 0x66, 0x67, 0x68,
    0x69, 0x6a]
  const CODES5: seq<nat> := [0x6b, 0x6c, 0x6d, 0x6e, 0x6f, 0x70, 0x71, 0x72, 0xfc, 0x73, 0xfd, 0x1ffb, 0x7fff0,
    0x1ffc, 0x3ffc, 0x22]
  const CODES6: seq<nat> := [0x7ffd, 0x3, 0x23, 0x4, 0x24, 0x5, 0x25, 0x26, 0x27, 0x6, 0x74, 0x75, 0x28, 0x29, 0x2a,
    0x7]
  const CODES7: seq<nat> := [0x2b, 0x76, 0x2c, 0x8, 0x9, 0x2d, 0x77, 0x78, 0x79, 0x7a, 0x7b, 0x7ffe, 0x7fc, 0x3ffd,
    0x1ffd, 0xffffffc]
  const CODES8: seq<nat> := [0xfffe6, 0x3fffd2, 0xfffe7, 0xfffe8, 0x3fffd3, 0x3fffd4, 0x3fffd5, 0x7fffd9, 0x3fffd6,
    0x7fffda, 0x7fffdb, 0x7fffdc, 0x7fffdd, 0x7fffde, 0xffffeb, 0x7fffdf]
  const CODES9: seq<nat> := [0xffffec, 0xffffed, 0x3fffd7, 0x7fffe0, 0xffffee, 0x7fffe1, 0x7fffe2, 0x7fffe3, 0x7fffe4,
    0x1fffdc, 0x3fffd8, 0x7fffe5, 0x3fffd9, 0x7fffe6, 0x7fffe7, 0xffffef]
  const CODES10: seq<nat> := [0x3fffda, 0x1fffdd, 0xfffe9, 0x3fffdb, 0x3fffdc, 0x7fffe8, 0x7fffe9, 0x1fffde, 0x7fffea,
    0x3fffdd, 0x3fffde, 0xfffff0, 0x1fffdf, 0x3fffdf, 0x7fffeb, 0x7fffec]
  const CODES11: seq<nat> := [0x1fffe0, 0x1fffe1, 0x3fffe0, 0x1fffe2, 0x7fffed, 0x3fffe1, 0x7fffee, 0x7fffef, 0xfffea,
    0x3fffe2, 0x3fffe3, 0x3fffe4, 0x7ffff0, 0x3fffe5, 0x3fffe6, 0x7ffff1]
  const CODES12: seq<nat> := [0x3ffffe0, 0x3ffffe1, 0xfffeb, 0x7fff1, 0x3fffe7, 0x7ffff2, 0x3fffe8, 0x1ffffec,
    0x3ffffe2, 0x3ffffe3, 0x3ffffe4, 0x7ffffde, 0x7ffffdf, 0x3ffffe5, 0xfffff1, 0x1ffffed]
  const CODES13: seq<nat> := [0x7fff2, 0x1fffe3, 0x3ffffe6, 0x7ffffe0, 0x7ffffe1, 0x3ffffe7, 0x7ffffe2, 0xfffff2,
    0x1fffe4, 0x1fffe5, 0x3ffffe8, 0x3ffffe9, 0xffffffd, 0x7ffffe3, 0x7ffffe4, 0x7ffffe5]
  const CODES14: seq<nat> := [0xfffec, 0xfffff3, 0xfffed, 0x1fffe6, 0x3fffe9, 0x1fffe7, 0x1fffe8, 0x7ffff3, 0x3fffea,
    0x3fffeb, 0x1ffffee, 0x1ffffef, 0xfffff4, 0xfffff5, 0x3ffffea, 0x7ffff4]
  const CODES15: seq<nat> := [0x3ffffeb, 0x7ffffe6, 0x3ffffec, 0x3ffffed, 0x7ffffe7, 0x7ffffe8, 0x7ffffe9, 0x7ffffea,
    0x7ffffeb, 0xffffffe, 0x7ffffec, 0x7ffffed, 0x7ffffee, 0x7ffffef, 0x7fffff0, 0x3ffffee]

  function CodeRow(k: nat): (r: seq<nat>)
    requires k < 16
    ensures |r| == 16
  {
    if k == 0 then CODES0 else if k == 1 then CODES1 else if k == 2 then CODES2 else if k == 3 then CODES3
    else if k == 4 then CODES4 else if k == 5 then CODES5 else if k == 6 then CODES6 else if k == 7 then CODES7
    else if k == 8 then CODES8 else if k == 9 then CODES9 else if k == 10 then CODES10 else if k == 11 then CODES11
    else if k == 12 then CODES12 else if k == 13 then CODES13 else if k == 14 then CODES14 else CODES15
  }

  function CodeRows(k: nat): (cs: seq<nat>)
    requires k <= 16
    ensures |cs| == 16 * k
  {
    if k == 0 then [] else CodeRows(k - 1) + CodeRow(k - 1)
  }

  const CODES: seq<nat> := CodeRows(16) + [0x3fff_ffff]

  // ---- The next code of each length, row by row ----------------------------------------

  const NEXT0: seq<nat> := [0, 0, 0, 0, 0, 0, 20, 92, 248, 508, 1016, 2042, 4090, 8184, 16380, 32764, 65534, 131068,
    262136, 524272, 1048550, 2097116, 4194258, 8388568, 16777194, 33554412, 67108832, 134217694, 268435426, 536870910,
    1073741820]
  const NEXT1: seq<nat> := [0, 0, 0, 0, 0, 0, 20, 92, 248, 508, 1016, 2042, 4090, 8185, 16380, 32764, 65534, 131068,
    262136, 524272, 1048550, 2097116, 4194258, 8388569, 16777195, 33554412, 67108832, 134217694, 268435437, 536870910,
    1073741822]
  const NEXT2: seq<nat> := [0, 0, 0, 0, 0, 0, 20, 92, 248, 508, 1016, 2042, 4090, 8185, 16380, 32764, 65534, 131068,
    262136, 524272, 1048550, 2097116, 4194258, 8388569, 16777195, 33554412, 67108832, 134217694, 268435452, 536870910,
    1073741823]
  const NEXT3: seq<nat> := [0, 0, 0, 0, 0, 0, 25, 92, 251, 508, 1020, 2044, 4091, 8186, 16380, 32764, 65534, 131068,
    262136, 524272, 1048550, 2097116, 4194258, 8388569, 16777195, 33554412, 67108832, 134217694, 268435452, 536870910,
    1073741823]
  const NEXT4: seq<nat> := [0, 0, 0, 0, 0, 3, 33, 93, 252, 508, 1021, 2044, 4092, 8186, 16380, 32765, 65534, 131068,
    262136, 524272, 1048550, 2097116, 4194258, 8388569, 16777195, 33554412, 67108832, 134217694, 268435452, 536870910,
    1073741823]
  const NEXT5: seq<nat> := [0, 0, 0, 0, 0, 3, 34, 107, 252, 508, 1021, 2044, 4092, 8187, 16380, 32765, 65534, 131068,
    262136, 524272, 1048550, 2097116, 4194258, 8388569, 16777195, 33554412, 67108832, 134217694, 268435452, 536870910,
    1073741823]
  const NEXT6: seq<nat> := [0, 0, 0, 0, 0, 3, 35, 116, 254, 508, 1021, 2044, 4092, 8189, 16381, 32765, 65534, 131068,
    262136, 524273, 1048550, 2097116, 4194258, 8388569, 16777195, 33554412, 67108832, 134217694, 268435452, 536870910,
    1073741823]
  const NEXT7: seq<nat> := [0, 0, 0, 0, 0, 8, 43, 118, 254, 508, 1021, 2044, 4092, 8189, 16381, 32766, 65534, 131068,
    262136, 524273, 1048550, 2097116, 4194258, 8388569, 16777195, 33554412, 67108832, 134217694, 268435452, 536870910,
    1073741823]
  const NEXT8: seq<nat> := [0, 0, 0, 0, 0, 10, 46, 124, 254, 508, 1021, 2045, 4092, 8190, 16382, 32767, 65534, 131068,
    262136, 524273, 1048550, 2097116, 4194258, 8388569, 16777195, 33554412, 67108832, 134217694, 268435453, 536870910,
    1073741823]
  const NEXT9: seq<nat> := [0, 0, 0, 0, 0, 10, 46, 124, 254, 508, 1021, 2045, 4092, 8190, 16382, 32767, 65534, 131068,
    262136, 524273, 1048553, 2097116, 4194263, 8388576, 16777196, 33554412, 67108832, 134217694, 268435453, 536870910,
    1073741823]
  const NEXT10: seq<nat> := [0, 0, 0, 0, 0, 10, 46, 124, 254, 508, 1021, 2045, 4092, 8190, 16382, 32767, 65534,
    131068, 262136, 524273, 1048553, 2097117, 4194266, 8388584, 16777200, 33554412, 67108832, 134217694, 268435453,
    536870910, 1073741823]
  const NEXT11: seq<nat> := [0, 0, 0, 0, 0, 10, 46, 124, 254, 508, 1021, 2045, 4092, 8190, 16382, 32767, 65534,
    131068, 262136, 524273, 1048554, 2097120, 4194272, 8388589, 16777201, 33554412, 67108832, 134217694, 268435453,
    536870910, 1073741823]
  const NEXT12: seq<nat> := [0, 0, 0, 0, 0, 10, 46, 124, 254, 508, 1021, 2045, 4092, 8190, 16382, 32767, 65534,
    131068, 262136, 524273, 1048555, 2097123, 4194279, 8388594, 16777201, 33554412, 67108832, 134217694, 268435453,
    536870910, 1073741823]
  const NEXT13: seq<nat> := [0, 0, 0, 0, 0, 10, 46, 124, 254, 508, 1021, 2045, 4092, 8190, 16382, 32767, 65534,
    131068, 262136, 524274, 1048556, 2097123, 4194281, 8388595, 16777202, 33554414, 67108838, 134217696, 268435453,
    536870910, 1073741823]
  const NEXT14: seq<nat> := [0, 0, 0, 0, 0, 10, 46, 124, 254, 508, 1021, 2045, 4092, 8190, 16382, 32767, 65534,
    131068, 262136, 524275, 1048556, 2097126, 4194281, 8388595, 16777203, 33554414, 67108842, 134217702, 268435454,
    536870910, 1073741823]
  const NEXT15: seq<nat> := [0, 0, 0, 0, 0, 10, 46, 124, 254, 508, 1021, 2045, 4092, 8190, 16382, 32767, 65534,
    131068, 262136, 524275, 1048558, 2097129, 4194284, 8388597, 16777206, 33554416, 67108843, 134217702, 268435454,
    536870910, 1073741823]
  const NEXT16: seq<nat> := [0, 0, 0, 0, 0, 10, 46, 124, 254, 508, 1021, 2045, 4092, 8190, 16382, 32767, 65534,
    131068, 262136, 524275, 1048558, 2097129, 4194284, 8388597, 16777206, 33554416, 67108847, 134217713, 268435455,
    536870910, 1073741823]

  function Next(k: nat): (r: seq<nat>)
    requires k <= 16
    ensures |r| == LONGEST + 1
  {
    if k == 0 then NEXT0 else if k == 1 then NEXT1 else if k == 2 then NEXT2 else if k == 3 then NEXT3
    else if k == 4 then NEXT4 else if k == 5 then NEXT5 else if k == 6 then NEXT6 else if k == 7 then NEXT7
    else if k == 8 then NEXT8 else if k == 9 then NEXT9 else if k == 10 then NEXT10 else if k == 11 then NEXT11
    else if k == 12 then NEXT12 else if k == 13 then NEXT13 else if k == 14 then NEXT14 else if k == 15 then NEXT15
    else NEXT16
  }

  function Hit(x: nat, len: nat): nat { if x == len then 1 else 0 }

  /** How many of the first `i` lengths of a row are `len`, written out. */
  function Before(r: seq<nat>, i: nat, len: nat): nat
    requires |r| == 16
  {
    (if 0 < i then Hit(r[0], len) else 0) + (if 1 < i then Hit(r[1], len) else 0)
    + (if 2 < i then Hit(r[2], len) else 0) + (if 3 < i then Hit(r[3], len) else 0)
    + (if 4 < i then Hit(r[4], len) else 0) + (if 5 < i then Hit(r[5], len) else 0)
    + (if 6 < i then Hit(r[6], len) else 0) + (if 7 < i then Hit(r[7], len) else 0)
    + (if 8 < i then Hit(r[8], len) else 0) + (if 9 < i then Hit(r[9], len) else 0)
    + (if 10 < i then Hit(r[10], len) else 0) + (if 11 < i then Hit(r[11], len) else 0)
    + (if 12 < i then Hit(r[12], len) else 0) + (if 13 < i then Hit(r[13], len) else 0)
    + (if 14 < i then Hit(r[14], len) else 0) + (if 15 < i then Hit(r[15], len) else 0)
  }

  /** Symbol `i` of a row has the next code of its length. */
  predicate Follows(r: seq<nat>, cs: seq<nat>, next: seq<nat>, i: nat)
    requires |r| == |cs| == 16 && |next| == LONGEST + 1 && i < 16
  {
    r[i] <= LONGEST && cs[i] == next[r[i]] + Before(r, i, r[i])
  }

  predicate MovesOn(r: seq<nat>, next: seq<nat>, after: seq<nat>, len: nat)
    requires |r| == 16 && |next| == |after| == LONGEST + 1 && len <= LONGEST
  {
    after[len] == next[len] + Before(r, 16, len)
  }

  lemma Codes0(i: nat)
    requires i < 16
    ensures Follows(ROW0, CODES0, NEXT0, i)
  {
  }

  lemma Moves0(len: nat)
    requires len <= LONGEST
    ensures MovesOn(ROW0, NEXT0, NEXT1, len)
  {
  }

  lemma Codes1(i: nat)
    requires i < 16
    ensures Follows(ROW1, CODES1, NEXT1, i)
  {
  }

  lemma Moves1(len: nat)
    requires len <= LONGEST
    ensures MovesOn(ROW1, NEXT1, NEXT2, len)
  {
  }

  lemma Codes2(i: nat)
    requires i < 16
    ensures Follows(ROW2, CODES2, NEXT2, i)
  {
  }

  lemma Moves2(len: nat)
    requires len <= LONGEST
    ensures MovesOn(ROW2, NEXT2, NEXT3, len)
  {
  }

  lemma Codes3(i: nat)
    requires i < 16
    ensures Follows(ROW3, CODES3, NEXT3, i)
  {
  }

  lemma Moves3(len: nat)
    requires len <= LONGEST
    ensures MovesOn(ROW3, NEXT3, NEXT4, len)
  {
  }

  lemma Codes4(i: nat)
    requires i < 16
    ensures Follows(ROW4, CODES4, NEXT4, i)
  {
  }

  lemma Moves4(len: nat)
    requires len <= LONGEST
    ensures MovesOn(ROW4, NEXT4, NEXT5, len)
  {
  }

  lemma Codes5(i: nat)
    requires i < 16
    ensures Follows(ROW5, CODES5, NEXT5, i)
  {
  }

  lemma Moves5(len: nat)
    requires len <= LONGEST
    ensures MovesOn(ROW5, NEXT5, NEXT6, len)
  {
  }

  lemma Codes6(i: nat)
    requires i < 16
    ensures Follows(ROW6, CODES6, NEXT6, i)
  {
  }

  lemma Moves6(len: nat)
    requires len <= LONGEST
    ensures MovesOn(ROW6, NEXT6, NEXT7, len)
  {
  }

  lemma Codes7(i: nat)
    requires i < 16
    ensures Follows(ROW7, CODES7, NEXT7, i)
  {
  }

  lemma Moves7(len: nat)
    requires len <= LONGEST
    ensures MovesOn(ROW7, NEXT7, NEXT8, len)
  {
  }

  lemma Codes8(i: nat)
    requires i < 16
    ensures Follows(ROW8, CODES8, NEXT8, i)
  {
  }

  lemma Moves8(len: nat)
    requires len <= LONGEST
    ensures MovesOn(ROW8, NEXT8, NEXT9, len)
  {
  }

  lemma Codes9(i: nat)
    requires i < 16
    ensures Follows(ROW9, CODES9, NEXT9, i)
  {
  }

  lemma Moves9(len: nat)
    requires len <= LONGEST
    ensures MovesOn(ROW9, NEXT9, NEXT10, len)
  {
  }

  lemma Codes10(i: nat)
    requires i < 16
    ensures Follows(ROW10, CODES10, NEXT10, i)
  {
  }

  lemma Moves10(len: nat)
    requires len <= LONGEST
    ensures MovesOn(ROW10, NEXT10, NEXT11, len)
  {
  }

  lemma Codes11(i: nat)
    requires i < 16
    ensures Follows(ROW11, CODES11, NEXT11, i)
  {
  }

  lemma Moves11(len: nat)
    requires len <= LONGEST
    ensures MovesOn(ROW11, NEXT11, NEXT12, len)
  {
  }

  lemma Codes12(i: nat)
    requires i < 16
    ensures Follows(ROW12, CODES12, NEXT12, i)
  {
  }

  lemma Moves12(len: nat)
    requires len <= LONGEST
    ensures MovesOn(ROW12, NEXT12, NEXT13, len)
  {
  }

  lemma Codes13(i: nat)
    requires i < 16
    ensures Follows(ROW13, CODES13, NEXT13, i)
  {
  }

  lemma Moves13(len: nat)
    requires len <= LONGEST
    ensures MovesOn(ROW13, NEXT13, NEXT14, len)
  {
  }

  lemma Codes14(i: nat)
    requires i < 16
    ensures Follows(ROW14, CODES14, NEXT14, i)
  {
  }

  lemma Moves14(len: nat)
    requires len <= LONGEST
    ensures MovesOn(ROW14, NEXT14, NEXT15, len)
  {
  }

  lemma Codes15(i: nat)
    requires i < 16
    ensures Follows(ROW15, CODES15, NEXT15, i)
  {
  }

  lemma Moves15(len: nat)
    requires len <= LONGEST
    ensures MovesOn(ROW15, NEXT15, NEXT16, len)
  {
  }

  lemma RowFollows(k: nat, i: nat)
    requires k < 16 && i < 16
    ensures Follows(Row(k), CodeRow(k), Next(k), i)
  {
    if k == 0 { Codes0(i); } else if k == 1 { Codes1(i); } else if k == 2 { Codes2(i); } else if k == 3 { Codes3(i); }
    else if k == 4 { Codes4(i); } else if k == 5 { Codes5(i); } else if k == 6 { Codes6(i); }
    else if k == 7 { Codes7(i); }
    else if k == 8 { Codes8(i); } else if k == 9 { Codes9(i); } else if k == 10 { Codes10(i); }
    else if k == 11 { Codes11(i); }
    else if k == 12 { Codes12(i); } else if k == 13 { Codes13(i); } else if k == 14 { Codes14(i); } else { Codes15(i); }
  }

  lemma RowMoves(k: nat, len: nat)
    requires k < 16 && len <= LONGEST
    ensures MovesOn(Row(k), Next(k), Next(k + 1), len)
  {
    if k == 0 { Moves0(len); } else if k == 1 { Moves1(len); } else if k == 2 { Moves2(len); }
    else if k == 3 { Moves3(len); }
    else if k == 4 { Moves4(len); } else if k == 5 { Moves5(len); } else if k == 6 { Moves6(len); }
    else if k == 7 { Moves7(len); }
    else if k == 8 { Moves8(len); } else if k == 9 { Moves9(len); } else if k == 10 { Moves10(len); }
    else if k == 11 { Moves11(len); }
    else if k == 12 { Moves12(len); } else if k == 13 { Moves13(len); } else if k == 14 { Moves14(len); }
    else { Moves15(len); }
  }

  // ---- Counting --------------------------------------------------------------------------

  lemma {:induction false} CountJoin(x: seq<nat>, y: seq<nat>, len: nat)
    ensures Count(x + y, len) == Count(x, len) + Count(y, len)
  {
    if y == [] {
      assert x + y == x;
    } else {
      assert (x + y)[..|x + y| - 1] == x + y[..|y| - 1];
      CountJoin(x, y[..|y| - 1], len);
    }
  }

  lemma {:induction false} CountRow(r: seq<nat>, i: nat, len: nat)
    requires |r| == 16 && i <= 16
    ensures Count(r[..i], len) == Before(r, i, len)
  {
    if i > 0 {
      CountRow(r, i - 1, len);
      assert r[..i][..i - 1] == r[..i - 1];
    }
  }

  /** The codes of a length that the first rows use up. */
  lemma {:induction false} CountRows(k: nat, len: nat)
    requires k <= 16 && len <= LONGEST
    ensures Next(k)[len] == Next(0)[len] + Count(Rows(k), len)
  {
    if k > 0 {
      CountRows(k - 1, len);
      RowMoves(k - 1, len);
      CountJoin(Rows(k - 1), Row(k - 1), len);
      CountRow(Row(k - 1), 16, len);
      assert Row(k - 1)[..16] == Row(k - 1);
    }
  }

  lemma {:induction false} Doubles(len: nat)
    requires 2 <= len <= LONGEST
    ensures NEXT0[len] == 2 * NEXT16[len - 1]
  {
  }

  /** Rows of one length start at the first code that long. */
  lemma {:induction false} FirstIs(len: nat)
    requires 1 <= len <= LONGEST
    ensures FirstCode(LENGTHS, len) == NEXT0[len]
  {
    if len > 1 {
      FirstIs(len - 1);
      CountRows(16, len - 1);
      CountJoin(Rows(16), [LONGEST], len - 1);
      assert [LONGEST][..0] == [];
      assert Count([LONGEST], len - 1) == Count([], len - 1) + 0;
      Doubles(len);
    }
  }

  // ---- The whole table ---------------------------------------------------------------------

  lemma Part<T>(x: seq<T>, y: seq<T>, n: nat, i: nat)
    requires |x| == n && i < |y|
    ensures (x + y)[n + i] == y[i] && (x + y)[..n + i] == x + y[..i]
  {
  }

  lemma Front<T>(x: seq<T>, y: seq<T>, n: nat)
    requires n < |x|
    ensures (x + y)[n] == x[n] && (x + y)[..n] == x[..n]
  {
  }

  lemma {:induction false} InRow(n: nat, k: nat, i: nat)
    requires k < n <= 16 && i < 16
    ensures Rows(n)[16 * k + i] == Row(k)[i] && CodeRows(n)[16 * k + i] == CodeRow(k)[i]
    ensures Rows(n)[..16 * k + i] == Rows(k) + Row(k)[..i]
    decreases n
  {
    if k < n - 1 {
      InRow(n - 1, k, i);
      Front(Rows(n - 1), Row(n - 1), 16 * k + i);
      Front(CodeRows(n - 1), CodeRow(n - 1), 16 * k + i);
    } else {
      Part(Rows(k), Row(k), 16 * k, i);
      Part(CodeRows(k), CodeRow(k), 16 * k, i);
    }
  }

  lemma {:induction false} RowCode(k: nat, i: nat)
    requires k < 16 && i < 16
    ensures CODES[16 * k + i] == Code(LENGTHS, 16 * k + i)
  {
    var s := 16 * k + i;
    InRow(16, k, i);
    var len := Row(k)[i];
    RowFollows(k, i);
    assert 1 <= len by { KraftRow(k); }
    assert LENGTHS[..s] == Rows(16)[..s];
    CountJoin(Rows(k), Row(k)[..i], len);
    CountRow(Row(k), i, len);
    CountRows(k, len);
    FirstIs(len);
  }

  lemma {:induction false} EosCode()
    ensures CODES[EOS] == Code(LENGTHS, EOS)
  {
    assert LENGTHS[..EOS] == Rows(16);
    CountRows(16, LONGEST);
    FirstIs(LONGEST);
  }

  /** Every committed code is the canonical one. */
  lemma {:induction false} CodesAreCanonical(s: nat)
    requires s <= EOS
    ensures CODES[s] == Code(LENGTHS, s)
  {
    if s == EOS {
      EosCode();
    } else {
      assert s == 16 * (s / 16) + s % 16;
      RowCode(s / 16, s % 16);
    }
  }

  /** So with HPACK's own tables, decoding succeeds with `s` exactly on the encoding of `s`. */
  lemma {:induction false} HpackDecodeInvertsEncode(x: seq<byte>, s: seq<byte>)
    ensures Decode(LENGTHS, x) == Some(s) <==> x == Encode(LENGTHS, s)
  {
    LengthsAreProper();
    DecodeInvertsEncode(LENGTHS, x, s);
  }
}
