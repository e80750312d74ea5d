/** The Huffman tables, decoder and encoder as loops over words. */
module HuffmanCodec {
  import opened Arith
  import opened Wrappers
  import opened Huffman
  import opened HuffmanTable
  import opened HuffmanCodes

  // ---- The decoding tables ------------------------------------------------------

  datatype Tables = Tables(symbols: seq<nat>, firstCode: seq<nat>, firstIndex: seq<nat>, count: seq<nat>)

  /** How many symbols have shorter codes. */
  function Shorter(ls: seq<nat>, len: nat): nat {
    if len <= 1 then 0 else Shorter(ls, len - 1) + Count(ls, len - 1)
  }

  ghost predicate AtLength(ls: seq<nat>, t: Tables, len: nat) {
    && len < |t.count| && len < |t.firstCode| && len < |t.firstIndex|
    && t.count[len] == Count(ls, len) && t.firstCode[len] == FirstCode(ls, len)
    && t.firstIndex[len] == Shorter(ls, len)
  }

  ghost predicate Placed(ls: seq<nat>, symbols: seq<nat>, s: nat)
    requires s < |ls|
  {
    Shorter(ls, ls[s]) + Rank(ls, s) < |symbols| && symbols[Shorter(ls, ls[s]) + Rank(ls, s)] == s
  }

  /** The tables say what the lengths do. */
  ghost predicate Derived(ls: seq<nat>, t: Tables) {
    && (forall len :: 1 <= len <= LONGEST ==> AtLength(ls, t, len))
    && (forall s :: 0 <= s < |ls| ==> Placed(ls, t.symbols, s))
  }

  lemma {:induction false} ShorterMonotone(ls: seq<nat>, a: nat, b: nat)
    requires 1 <= a < b
    ensures Shorter(ls, a) + Count(ls, a) <= Shorter(ls, b)
  {
    if a + 1 < b { ShorterMonotone(ls, a, b - 1); }
  }

  /** Symbols of all lengths up to the longest are all the symbols. */
  lemma {:induction false} ShorterAll(ls: seq<nat>, longest: nat)
    requires forall s :: 0 <= s < |ls| ==> 1 <= ls[s] <= longest
    ensures Shorter(ls, longest + 1) == |ls|
  {
    if ls == [] {
      ShorterNone(longest + 1);
    } else {
      ShorterAll(ls[..|ls| - 1], longest);
      ShorterOne(ls, longest + 1);
    }
  }

  lemma {:induction false} ShorterNone(len: nat)
    ensures Shorter([], len) == 0
  {
    if len > 1 { ShorterNone(len - 1); }
  }

  lemma {:induction false} ShorterOne(ls: seq<nat>, len: nat)
    requires ls != [] && 1 <= ls[|ls| - 1]
    ensures Shorter(ls, len) == Shorter(ls[..|ls| - 1], len) + (if ls[|ls| - 1] < len then 1 else 0)
  {
    if len > 1 { ShorterOne(ls, len - 1); }
  }

  /** Each symbol has a slot of its own. */
  lemma SlotsDiffer(ls: seq<nat>, s: nat, t: nat)
    requires s < t < |ls| && 1 <= ls[s] && 1 <= ls[t]
    ensures Shorter(ls, ls[s]) + Rank(ls, s) != Shorter(ls, ls[t]) + Rank(ls, t)
  {
    RankBelow(ls, s);
    RankBelow(ls, t);
    if ls[s] < ls[t] {
      ShorterMonotone(ls, ls[s], ls[t]);
    } else if ls[t] < ls[s] {
      ShorterMonotone(ls, ls[t], ls[s]);
    } else {
      RankBelow(ls[..t], s);
      assert ls[..t][..s] == ls[..s];
    }
  }

  method CountLengths(ls: seq<nat>) returns (count: seq<nat>)
    requires forall s :: 0 <= s < |ls| ==> ls[s] <= LONGEST
    ensures |count| == LONGEST + 1 && forall len :: 0 <= len <= LONGEST ==> count[len] == Count(ls, len)
  {
    count := seq(LONGEST + 1, _ => 0);
    var i := 0;
    while i < |ls|
      invariant 0 <= i <= |ls| && |count| == LONGEST + 1
      invariant forall len :: 0 <= len <= LONGEST ==> count[len] == Count(ls[..i], len)
    {
      assert ls[..i + 1][..i] == ls[..i];
      count := count[ls[i] := count[ls[i]] + 1];
      i := i + 1;
    }
    assert ls[..|ls|] == ls;
  }

  /** The first code and the first index of a length. */
  ghost predicate StartsAt(ls: seq<nat>, firstCode: seq<nat>, firstIndex: seq<nat>, len: nat)
    requires |firstCode| == |firstIndex| == LONGEST + 1 && len <= LONGEST
  {
    firstCode[len] == FirstCode(ls, len) && firstIndex[len] == Shorter(ls, len)
  }

  /** First codes and first indices, in 32-bit words. */
  method FirstOfLengths(ls: seq<nat>, count: seq<nat>) returns (firstCode: seq<nat>, firstIndex: seq<nat>)
    requires Proper(ls) && |count| == LONGEST + 1
    requires forall len :: 0 <= len <= LONGEST ==> count[len] == Count(ls, len)
    ensures |firstCode| == |firstIndex| == LONGEST + 1
    ensures forall len :: 1 <= len <= LONGEST ==> StartsAt(ls, firstCode, firstIndex, len)
  {
    firstCode, firstIndex := seq(LONGEST + 1, _ => 0), seq(LONGEST + 1, _ => 0);
    var code, index, len := 0, 0, 1;
    while len <= LONGEST
      invariant 1 <= len <= LONGEST + 1 && |firstCode| == |firstIndex| == LONGEST + 1
      invariant code == FirstCode(ls, len) && index == Shorter(ls, len)
      invariant forall k :: 1 <= k < len ==> StartsAt(ls, firstCode, firstIndex, k)
    {
      ghost var wasCode, wasIndex := firstCode, firstIndex;
      firstCode := firstCode[len := code];
      firstIndex := firstIndex[len := index];
      assert forall k :: 1 <= k < len ==> StartsAt(ls, wasCode, wasIndex, k) ==> StartsAt(ls, firstCode, firstIndex, k);
      index := index + count[len];
      NextCode(ls, len);
      code := (code + count[len]) % U32 * 2 % U32;
      len := len + 1;
    }
  }

  lemma {:induction false} PowSmall(n: nat)
    requires n <= 30
    ensures Pow2(n) <= 0x4000_0000
    decreases 30 - n
  {
    if n < 30 {
      PowSmall(n + 1);
    } else {
      assert Pow2(10) == 1024 by {
        assert Pow2(5) == 32;
        assert Pow2(10) == 2 * (2 * (2 * (2 * (2 * Pow2(5)))));
      }
      PowAdd(10, 10);
      PowAdd(20, 10);
    }
  }

  lemma {:induction false} PowAdd(a: nat, b: nat)
    ensures Pow2(a + b) == Pow2(a) * Pow2(b)
  {
    if b > 0 { PowAdd(a, b - 1); }
  }

  lemma EndSmall(ls: seq<nat>, len: nat)
    requires Proper(ls) && len <= LONGEST
    ensures 2 * EndCode(ls, len) <= 0x8000_0000
  {
    EndFits(ls, len);
    PowSmall(len);
  }

  lemma NextCode(ls: seq<nat>, len: nat)
    requires Proper(ls) && 1 <= len <= LONGEST
    ensures (FirstCode(ls, len) + Count(ls, len)) % U32 * 2 % U32 == FirstCode(ls, len + 1)
  {
    EndSmall(ls, len);
    DoubleFits(EndCode(ls, len));
  }

  lemma DoubleFits(x: nat)
    requires 2 * x <= 0x8000_0000
    ensures x % U32 * 2 % U32 == 2 * x
  {
  }

  /** Puts each symbol in the next free slot of its length. */
  method PlaceSymbols(ls: seq<nat>, firstIndex: seq<nat>) returns (symbols: seq<nat>)
    requires Proper(ls) && |firstIndex| == LONGEST + 1
    requires forall len :: 1 <= len <= LONGEST ==> firstIndex[len] == Shorter(ls, len)
    ensures forall s :: 0 <= s < |ls| ==> Placed(ls, symbols, s)
  {
    symbols := seq(|ls|, _ => 0);
    var cursor := firstIndex;
    var i := 0;
    assert Cursors(ls, cursor, 0);
    while i < |ls|
      invariant 0 <= i <= |ls| == |symbols| && |cursor| == LONGEST + 1
      invariant Cursors(ls, cursor, i)
      invariant forall s :: 0 <= s < i ==> Placed(ls, symbols, s)
    {
      var bucket := ls[i];
      SlotInside(ls, i);
      CursorMove(ls, cursor, i);
      PlaceOne(ls, symbols, i);
      symbols := symbols[cursor[bucket] := i];
      cursor := cursor[bucket := cursor[bucket] + 1];
      i := i + 1;
    }
  }

  /** Where the next symbol of each length goes. */
  ghost predicate Cursors(ls: seq<nat>, cursor: seq<nat>, i: nat) {
    && i <= |ls| && |cursor| == LONGEST + 1
    && forall len :: 1 <= len <= LONGEST ==> cursor[len] == Shorter(ls, len) + Count(ls[..i], len)
  }

  lemma CursorMove(ls: seq<nat>, cursor: seq<nat>, i: nat)
    requires Proper(ls) && i < |ls| && Cursors(ls, cursor, i)
    ensures cursor[ls[i]] == Shorter(ls, ls[i]) + Rank(ls, i)
    ensures Cursors(ls, cursor[ls[i] := cursor[ls[i]] + 1], i + 1)
  {
    assert ls[..i + 1][..i] == ls[..i];
  }

  lemma PlaceOne(ls: seq<nat>, symbols: seq<nat>, i: nat)
    requires Proper(ls) && i < |ls| == |symbols| && Shorter(ls, ls[i]) + Rank(ls, i) < |ls|
    requires forall s :: 0 <= s < i ==> Placed(ls, symbols, s)
    ensures var after := symbols[Shorter(ls, ls[i]) + Rank(ls, i) := i];
            forall s :: 0 <= s <= i ==> Placed(ls, after, s)
  {
    var after := symbols[Shorter(ls, ls[i]) + Rank(ls, i) := i];
    forall s | 0 <= s <= i ensures Placed(ls, after, s) {
      if s < i {
        assert Placed(ls, symbols, s);
        SlotsDiffer(ls, s, i);
      }
    }
  }

  lemma SlotInside(ls: seq<nat>, s: nat)
    requires Proper(ls) && s < |ls|
    ensures Shorter(ls, ls[s]) + Rank(ls, s) < |ls|
  {
    RankBelow(ls, s);
    ShorterMonotone(ls, ls[s], ls[EOS] + 1);
    ShorterAll(ls, ls[EOS]);
  }

  method BuildTables(ls: seq<nat>) returns (t: Tables)
    requires Proper(ls)
    ensures Derived(ls, t)
  {
    var count := CountLengths(ls);
    var firstCode, firstIndex := FirstOfLengths(ls, count);
    forall len | 1 <= len <= LONGEST
      ensures firstCode[len] == FirstCode(ls, len) && firstIndex[len] == Shorter(ls, len)
    {
      assert StartsAt(ls, firstCode, firstIndex, len);
    }
    var symbols := PlaceSymbols(ls, firstIndex);
    t := Tables(symbols, firstCode, firstIndex, count);
  }

  // ---- Decoding ------------------------------------------------------------------

  lemma {:induction false} BadStays(ls: seq<nat>, bits: seq<bit>)
    ensures Run(ls, Bad, bits) == Bad
  {
    if bits != [] { BadStays(ls, bits[..|bits| - 1]); }
  }

  lemma {:induction false} BitsJoin(x: seq<byte>, y: seq<byte>)
    ensures Bits(x + y) == Bits(x) + Bits(y)
  {
    if y == [] {
      assert x + y == x;
    } else {
      assert (x + y)[..|x + y| - 1] == x + y[..|y| - 1];
      BitsJoin(x, y[..|y| - 1]);
      Assoc(Bits(x), Bits(y[..|y| - 1]), BitsOf(y[|y| - 1], 8));
    }
  }

  /** Once some prefix of the bits is bad, so is the whole. */
  lemma BadPrefix(ls: seq<nat>, bits: seq<bit>, k: nat)
    requires k <= |bits| && Run(ls, Reading(0, 0, []), bits[..k]) == Bad
    ensures Run(ls, Reading(0, 0, []), bits) == Bad
  {
    assert bits == bits[..k] + bits[k..];
    RunJoin(ls, Reading(0, 0, []), bits[..k], bits[k..]);
    BadStays(ls, bits[k..]);
  }

  /** The bit of a byte that a shift and a mask take. */
  lemma {:induction false} BitAt(v: nat, n: nat, k: nat)
    requires k < n
    ensures BitsOf(v, n)[k] == v / Pow2(n - 1 - k) % 2
  {
    if k < n - 1 {
      BitAt(v / 2, n - 1, k);
      DivTwice(v, Pow2(n - 2 - k));
    }
  }

  lemma DivTwice(v: nat, p: nat)
    requires p > 0
    ensures v / 2 / p == v / (2 * p)
  {
    var q, r := v / 2 / p, v / 2 % p;
    assert v / 2 == p * q + r;
    assert v == (2 * p) * q + (2 * r + v % 2);
    ModUnique(v, 2 * p, q, 2 * r + v % 2);
  }

  /** A code below the first of its length wraps to a number past them all. */
  lemma Wraps(ls: seq<nat>, c: nat, l: nat)
    requires Proper(ls) && 1 <= l <= LONGEST && c < U32
    ensures (c - FirstCode(ls, l)) % U32 < Count(ls, l) <==> FirstCode(ls, l) <= c < EndCode(ls, l)
    ensures FirstCode(ls, l) <= c ==> (c - FirstCode(ls, l)) % U32 == c - FirstCode(ls, l)
  {
    EndSmall(ls, l);
    Subtracted(c, FirstCode(ls, l));
  }

  lemma Subtracted(c: nat, first: nat)
    requires c < U32 && first < U32
    ensures (c - first) % U32 == if first <= c then c - first else c - first + U32
  {
  }

  /** Finds the symbol of a code, the subtraction in 32-bit words. */
  method Lookup(ls: seq<nat>, t: Tables, c: nat, l: nat) returns (found: bool, symbol: nat)
    requires Proper(ls) && Derived(ls, t) && 1 <= l <= LONGEST && c < U32
    ensures found == (FirstCode(ls, l) <= c < EndCode(ls, l))
    ensures found ==> symbol == SymbolAt(ls, l, c - FirstCode(ls, l))
  {
    assert AtLength(ls, t, l);
    Wraps(ls, c, l);
    var n := t.count[l];
    if n == 0 { return false, 0; }
    var offset := (c - t.firstCode[l]) % U32;
    if offset >= n { return false, 0; }
    ghost var s := SymbolAt(ls, l, offset);
    assert Placed(ls, t.symbols, s);
    return true, t.symbols[t.firstIndex[l] + offset];
  }

  lemma CodeIsWord(ls: seq<nat>, code: nat, len: nat, b: bit)
    requires Pending(ls, code, len)
    ensures 2 * code + b < U32
  {
    PowSmall(len);
  }

  /** One bit, through the tables. */
  method TableStep(ls: seq<nat>, t: Tables, code: nat, len: nat, out: seq<byte>, b: bit) returns (st: State)
    requires Proper(ls) && Derived(ls, t) && Pending(ls, code, len)
    ensures st == Step(ls, Reading(code, len, out), b)
  {
    CodeIsWord(ls, code, len, b);
    var c, l := 2 * code + b, len + 1;
    if l > LONGEST { return Bad; }
    if l < SHORTEST { return Reading(c, l, out); }
    var found, symbol := Lookup(ls, t, c, l);
    if !found { return Reading(c, l, out); }
    if symbol > 255 { return Bad; }
    return Reading(0, 0, out + [symbol]);
  }

  /** One bit of the input. */
  method ReadBit(ls: seq<nat>, t: Tables, start: State, b: bit, ghost bits: seq<bit>, ghost k: nat) returns (st: State)
    requires Proper(ls) && Derived(ls, t) && start.Reading? && k < |bits| && bits[k] == b
    requires Run(ls, Reading(0, 0, []), bits[..k]) == start
    ensures Run(ls, Reading(0, 0, []), bits[..k + 1]) == st
  {
    NextBit(ls, bits, k, start);
    st := TableStep(ls, t, start.code, start.len, start.out, b);
  }

  lemma ByteBits(x: seq<byte>, i: nat, j: nat)
    requires i < |x| && j < 8
    ensures 8 * i + j < |Bits(x)| && Bits(x)[8 * i + j] == x[i] / Pow2(7 - j) % 2
  {
    assert x == x[..i + 1] + x[i + 1..];
    BitsJoin(x[..i + 1], x[i + 1..]);
    assert x[..i + 1][..i] == x[..i];
    assert Bits(x[..i + 1])[8 * i + j] == BitsOf(x[i], 8)[j];
    BitAt(x[i], 8, j);
  }

  /** One more bit of the input. */
  lemma RunMore(ls: seq<nat>, bits: seq<bit>, k: nat)
    requires k < |bits|
    ensures Run(ls, Reading(0, 0, []), bits[..k + 1]) == Step(ls, Run(ls, Reading(0, 0, []), bits[..k]), bits[k])
  {
    assert bits[..k + 1][..k] == bits[..k];
  }

  lemma NextBit(ls: seq<nat>, bits: seq<bit>, k: nat, st: State)
    requires Proper(ls) && k < |bits| && st.Reading? && Run(ls, Reading(0, 0, []), bits[..k]) == st
    ensures Pending(ls, st.code, st.len)
    ensures Run(ls, Reading(0, 0, []), bits[..k + 1]) == Step(ls, st, bits[k])
  {
    RunIsEncoded(ls, bits[..k]);
    RunMore(ls, bits, k);
  }

  method DecodeByte(ls: seq<nat>, t: Tables, x: seq<byte>, i: nat, start: State) returns (st: State)
    requires Proper(ls) && Derived(ls, t) && i < |x| && start.Reading?
    requires Run(ls, Reading(0, 0, []), Bits(x)[..8 * i]) == start
    ensures st.Reading? ==> Run(ls, Reading(0, 0, []), Bits(x)[..8 * i + 8]) == st
    ensures st.Bad? ==> Run(ls, Reading(0, 0, []), Bits(x)) == Bad
  {
    st := start;
    var j := 0;
    while j < 8
      invariant 0 <= j <= 8 && st.Reading?
      invariant Run(ls, Reading(0, 0, []), Bits(x)[..8 * i + j]) == st
    {
      st := DecodeBit(ls, t, x, i, j, st);
      if st.Bad? { return; }
      j := j + 1;
    }
  }

  /** One bit of one byte. */
  method DecodeBit(ls: seq<nat>, t: Tables, x: seq<byte>, i: nat, j: nat, start: State) returns (st: State)
    requires Proper(ls) && Derived(ls, t) && i < |x| && j < 8 && start.Reading?
    requires Run(ls, Reading(0, 0, []), Bits(x)[..8 * i + j]) == start
    ensures st.Reading? ==> Run(ls, Reading(0, 0, []), Bits(x)[..8 * i + j + 1]) == st
    ensures st.Bad? ==> Run(ls, Reading(0, 0, []), Bits(x)) == Bad
  {
    ByteBits(x, i, j);
    st := ReadBit(ls, t, start, x[i] / Pow2(7 - j) % 2, Bits(x), 8 * i + j);
    if st.Bad? { BadPrefix(ls, Bits(x), 8 * i + j + 1); }
  }

  method DecodeLoop(ls: seq<nat>, t: Tables, x: seq<byte>) returns (r: Option<seq<byte>>)
    requires Proper(ls) && Derived(ls, t)
    ensures r == Decode(ls, x)
  {
    var st := Reading(0, 0, []);
    var i := 0;
    assert Bits(x)[..0] == [];
    while i < |x|
      invariant 0 <= i <= |x| && st.Reading?
      invariant Run(ls, Reading(0, 0, []), Bits(x)[..8 * i]) == st
    {
      st := DecodeByte(ls, t, x, i, st);
      if st.Bad? { return None; }
      i := i + 1;
    }
    assert Bits(x)[..8 * i] == Bits(x);
    if st.len >= 8 { return None; }
    if st.len > 0 {
      var ones := Pow2(st.len) - 1;
      if st.code != ones { return None; }
    }
    return Some(st.out);
  }

  // ---- Encoding through a 64-bit accumulator ---------------------------------------

  lemma ModSplit(a: nat, p: nat, q: nat, hi: nat, lo: nat)
    requires p > 0 && q > 0 && a % (p * q) == hi * q + lo && lo < q && hi < p && p * q > 0
    ensures a / q % p == hi && a % q == lo
  {
    var k := a / (p * q);
    assert a == (p * q) * k + (hi * q + lo);
    assert a == q * (p * k + hi) + lo by { Distribute(p, q, k, hi); }
    MulNonneg(p, k);
    ModUnique(a, q, p * k + hi, lo);
    ModUnique(p * k + hi, p, k, hi);
  }

  lemma MulNonneg(a: nat, b: nat)
    ensures a * b >= 0
  {
  }

  lemma Distribute(p: nat, q: nat, k: nat, hi: nat)
    ensures (p * q) * k + hi * q == q * (p * k + hi)
  {
  }

  lemma {:induction false} ValueJoin(x: seq<bit>, y: seq<bit>)
    ensures Value(x + y) == Value(x) * Pow2(|y|) + Value(y)
  {
    if y == [] {
      assert x + y == x;
    } else {
      var init := y[..|y| - 1];
      assert (x + y)[..|x + y| - 1] == x + init;
      ValueJoin(x, init);
      assert Pow2(|y|) == 2 * Pow2(|init|);
      Doubled(Value(x), Pow2(|init|), Value(init));
    }
  }

  lemma Doubled(v: nat, p: nat, w: nat)
    ensures 2 * (v * p + w) == v * (2 * p) + 2 * w
  {
  }

  /** The low bits of the accumulator are the bits not written yet. */
  ghost predicate Holding(acc: nat, pending: seq<bit>) { acc % Pow2(|pending|) == Value(pending) }

  /** A remainder shifted up and added to, in a word the shift divides. */
  lemma ShiftMod(acc: nat, p: nat, v: nat, c: nat, q: nat)
    requires p > 0 && v > 0 && q > 0 && c < v && p * v > 0 && p * v * q > 0
    ensures (acc * v + c) % (p * v * q) % (p * v) == acc % p * v + c
  {
    var k, low := acc / p, acc % p;
    assert acc == p * k + low;
    Expand(p, k, low, v);
    assert acc * v + c == (p * v) * k + (low * v + c);
    assert low * v + c < p * v by { MulMonotone(v, low, p - 1); }
    MulNonneg(low, v);
    ModUnique(acc * v + c, p * v, k, low * v + c);
    ModMod(acc * v + c, p * v, q);
  }

  /** A 64-bit word shifted up by `n` bits, with `v` in the room made. */
  function ShiftIn(acc: nat, n: nat, v: nat): nat { (acc * Pow2(n) + v) % U64 }

  /** Shifting a code in, whatever is lost off the top of the word. */
  lemma Shifted(acc: nat, pending: seq<bit>, code: seq<bit>)
    requires Holding(acc, pending) && |pending| + |code| <= 64
    ensures Holding(ShiftIn(acc, |code|, Value(code)), pending + code)
  {
    var n, p, v := |pending| + |code|, Pow2(|pending|), Pow2(|code|);
    assert Pow2(n) == p * v by { PowAdd(|pending|, |code|); }
    assert U64 == p * v * Pow2(64 - n) by { PowDivides(n); }
    assert Value(code) < v by { BitsOfValue(code); }
    assert Value(pending + code) == Value(pending) * v + Value(code) by { ValueJoin(pending, code); }
    ShiftMod(acc, p, v, Value(code), Pow2(64 - n));
  }

  /** The top eight bits not written yet, and what is left. */
  lemma TopByte(acc: nat, pending: seq<bit>)
    requires Holding(acc, pending) && |pending| >= 8
    ensures var n := |pending| - 8;
            acc / Pow2(n) % 256 == Value(pending[..8]) && Holding(acc, pending[8..])
  {
    var n := |pending| - 8;
    var hi, lo := pending[..8], pending[8..];
    assert pending == hi + lo;
    ValueJoin(hi, lo);
    BitsOfValue(hi);
    BitsOfValue(lo);
    Eight();
    assert Pow2(|pending|) == 256 * Pow2(n) by { PowAdd(8, n); }
    ModSplit(acc, 256, Pow2(n), Value(hi), Value(lo));
  }

  lemma PackAppend(out: seq<byte>, bits: seq<bit>, b: byte)
    requires |bits| == 8 && Value(bits) == b
    ensures Bits(out + [b]) == Bits(out) + bits
  {
    assert (out + [b])[..|out|] == out;
    BitsOfValue(bits);
  }

  /** Writes out whole bytes until fewer than eight bits are left. */
  method Flush(acc: nat, bits: nat, out: seq<byte>, ghost pending: seq<bit>)
    returns (left: nat, more: seq<byte>, ghost rest: seq<bit>)
    requires Holding(acc, pending) && |pending| == bits
    ensures left < 8 && |rest| == left && Holding(acc, rest) && Bits(more) + rest == Bits(out) + pending
  {
    left, more, rest := bits, out, pending;
    while left >= 8
      invariant |rest| == left && Holding(acc, rest) && Bits(more) + rest == Bits(out) + pending
    {
      left := left - 8;
      TopByte(acc, rest);
      var b := acc / Pow2(left) % 256;
      PackAppend(more, rest[..8], b);
      assert Bits(more) + rest == Bits(more) + rest[..8] + rest[8..];
      more := more + [b];
      rest := rest[8..];
    }
  }

  /** The last byte, filled with ones. */
  lemma LastByte(acc: nat, rest: seq<bit>, pad: nat)
    requires 0 < |rest| < 8 && pad == 8 - |rest| && Holding(acc, rest)
    ensures ShiftIn(acc, pad, Pow2(pad) - 1) % 256 == Value(rest + Ones(pad))
  {
    OnesValue(pad);
    Shifted(acc, rest, Ones(pad));
    ByteHeld(ShiftIn(acc, pad, Value(Ones(pad))), rest + Ones(pad));
  }

  lemma ByteHeld(word: nat, whole: seq<bit>)
    requires Holding(word, whole) && |whole| == 8
    ensures word % 256 == Value(whole)
  {
    Eight();
  }

  method Finish(acc: nat, bits: nat, out: seq<byte>, ghost rest: seq<bit>) returns (whole: seq<byte>)
    requires bits == |rest| < 8 && Holding(acc, rest)
    ensures Bits(whole) == Bits(out) + rest + Ones(Pad(|Bits(out) + rest|))
  {
    PadUnique(|Bits(out) + rest|, (8 - bits) % 8, |out| + if bits > 0 then 1 else 0);
    whole := out;
    if bits > 0 {
      var pad := 8 - bits;
      LastByte(acc, rest, pad);
      var last := ShiftIn(acc, pad, Pow2(pad) - 1) % 256;
      PackAppend(out, rest + Ones(pad), last);
      Assoc(Bits(out), rest, Ones(pad));
      whole := out + [last];
    } else {
      assert Bits(out) + rest + [] == Bits(out);
    }
  }

  lemma EncodeMore(ls: seq<nat>, s: seq<byte>, i: nat, front: seq<bit>, rest: seq<bit>)
    requires |ls| == EOS + 1 && i < |s| && front + rest == EncodeBits(ls, s[..i])
    ensures front + (rest + CodeBits(ls, s[i])) == EncodeBits(ls, s[..i + 1])
  {
    AppendSymbol(ls, s[..i], s[i]);
    OneMore(s, i);
    Behind(front, rest, CodeBits(ls, s[i]), EncodeBits(ls, s[..i]), EncodeBits(ls, s[..i + 1]));
  }

  lemma OneMore<T>(s: seq<T>, i: nat)
    requires i < |s|
    ensures s[..i + 1] == s[..i] + [s[i]]
  {
  }

  lemma Behind<T>(front: seq<T>, rest: seq<T>, code: seq<T>, done: seq<T>, all: seq<T>)
    requires front + rest == done && all == done + code
    ensures front + (rest + code) == all
  {
    assert front + (rest + code) == front + rest + code;
  }

  method EncodeLoop(ls: seq<nat>, codes: seq<nat>, s: seq<byte>) returns (out: seq<byte>)
    requires Proper(ls) && |codes| == |ls| && forall k :: 0 <= k < |ls| ==> codes[k] == Code(ls, k)
    ensures out == Encode(ls, s)
  {
    out := [];
    var acc: nat, bits: nat, i := 0, 0, 0;
    ghost var rest: seq<bit> := [];
    while i < |s|
      invariant 0 <= i <= |s| && bits == |rest| < 8 && Holding(acc, rest)
      invariant Bits(out) + rest == EncodeBits(ls, s[..i])
    {
      var symbol := s[i];
      var len := ls[symbol];
      CodeFits(ls, symbol);
      Shifted(acc, rest, CodeBits(ls, symbol));
      EncodeMore(ls, s, i, Bits(out), rest);
      acc := ShiftIn(acc, len, codes[symbol]);
      bits, out, rest := Flush(acc, bits + len, out, rest + CodeBits(ls, symbol));
      i := i + 1;
    }
    assert s[..|s|] == s;
    out := Finish(acc, bits, out, rest);
    BitsInjective(out, Encode(ls, s));
  }

  /** The encoder as it runs, over the tables HPACK commits to. */
  method HpackEncode(s: seq<byte>) returns (out: seq<byte>)
    ensures out == Encode(LENGTHS, s)
  {
    LengthsAreProper();
    forall k | 0 <= k < |LENGTHS| ensures CODES[k] == Code(LENGTHS, k) { CodesAreCanonical(k); }
    out := EncodeLoop(LENGTHS, CODES, s);
  }

  lemma Expand(p: nat, k: nat, low: nat, v: nat)
    ensures (p * k + low) * v == (p * v) * k + low * v
  {
  }

  lemma {:induction false} PowDivides(n: nat)
    requires n <= 64
    ensures U64 == Pow2(n) * Pow2(64 - n) && U64 / Pow2(n) == Pow2(64 - n)
  {
    PowAdd(n, 64 - n);
    PowSixtyFour();
    ModUnique(U64, Pow2(n), Pow2(64 - n), 0);
  }

  lemma PowSixtyFour()
    ensures Pow2(64) == U64
  {
    assert Pow2(8) == 0x100 by { Eight(); }
    assert Pow2(16) == 0x1_0000 by { PowAdd(8, 8); }
    assert Pow2(32) == 0x1_0000_0000 by { PowAdd(16, 16); }
    PowAdd(32, 32);
  }

  lemma ModMod(a: nat, m: nat, q: nat)
    requires m > 0 && q > 0 && m * q > 0
    ensures a % (m * q) % m == a % m
  {
    var k, r := a / (m * q), a % (m * q);
    assert a == m * (q * k) + r by { assert (m * q) * k == m * (q * k); }
    MulNonneg(q, k);
    var s, t := r / m, r % m;
    assert a == m * (q * k + s) + t;
    ModUnique(a, m, q * k + s, t);
  }
}
