/** HPACK's Huffman code, for any complete canonical table of code lengths: what
    decoding accepts is exactly what encoding produces. */
module Huffman {
  import opened Arith
  import opened Wrappers

  type bit = b: int | 0 <= b < 2

  const EOS := 256
  const LONGEST := 30
  const SHORTEST := 5

  // ---- Bits --------------------------------------------------------------------

  function Pow2(n: nat): (p: nat)
    ensures p > 0
  {
    if n == 0 then 1 else 2 * Pow2(n - 1)
  }

  function Value(bits: seq<bit>): nat {
    if bits == [] then 0 else 2 * Value(bits[..|bits| - 1]) + bits[|bits| - 1]
  }

  function BitsOf(v: nat, n: nat): (bits: seq<bit>)
    ensures |bits| == n
  {
    if n == 0 then [] else BitsOf(v / 2, n - 1) + [v % 2]
  }

  lemma {:induction false} ValueOfBits(v: nat, n: nat)
    requires v < Pow2(n)
    ensures Value(BitsOf(v, n)) == v
  {
    if n > 0 {
      ValueOfBits(v / 2, n - 1);
      assert BitsOf(v, n)[..n - 1] == BitsOf(v / 2, n - 1);
    }
  }

  lemma {:induction false} BitsOfValue(bits: seq<bit>)
    ensures Value(bits) < Pow2(|bits|) && BitsOf(Value(bits), |bits|) == bits
  {
    if bits != [] {
      var init, last := bits[..|bits| - 1], bits[|bits| - 1];
      BitsOfValue(init);
      assert Value(bits) / 2 == Value(init) && Value(bits) % 2 == last;
      assert bits == init + [last];
    }
  }

  lemma ValueAppend(bits: seq<bit>, b: bit)
    ensures Value(bits + [b]) == 2 * Value(bits) + b
  {
    assert (bits + [b])[..|bits|] == bits;
  }

  // ---- The canonical code --------------------------------------------------------

  /** How many symbols have codes of this length. */
  function Count(ls: seq<nat>, len: nat): nat {
    if ls == [] then 0 else Count(ls[..|ls| - 1], len) + (if ls[|ls| - 1] == len then 1 else 0)
  }

  function FirstCode(ls: seq<nat>, len: nat): nat
    decreases len, 0
  {
    if len <= 1 then 0 else 2 * EndCode(ls, len - 1)
  }

  function EndCode(ls: seq<nat>, len: nat): nat
    decreases len, 1
  {
    FirstCode(ls, len) + Count(ls, len)
  }

  /** A length for every byte and one for EOS, the longest, with no code left over. */
  ghost predicate Proper(ls: seq<nat>) {
    && |ls| == EOS + 1 && ls[EOS] == LONGEST
    && (forall s :: 0 <= s < |ls| ==> SHORTEST <= ls[s] <= LONGEST)
    && EndCode(ls, ls[EOS]) == Pow2(ls[EOS])
  }

  /** A symbol's place among those with codes as long. */
  function Rank(ls: seq<nat>, s: nat): nat
    requires s < |ls|
  {
    Count(ls[..s], ls[s])
  }

  function Code(ls: seq<nat>, s: nat): nat
    requires s < |ls|
  {
    FirstCode(ls, ls[s]) + Rank(ls, s)
  }

  function CodeBits(ls: seq<nat>, s: nat): seq<bit>
    requires s < |ls|
  {
    BitsOf(Code(ls, s), ls[s])
  }

  /** The symbol of a given place among those with codes of a given length. */
  function SymbolAt(ls: seq<nat>, len: nat, r: nat): (s: nat)
    requires r < Count(ls, len)
    ensures s < |ls| && ls[s] == len && Rank(ls, s) == r
  {
    var n := |ls| - 1;
    if ls[n] == len && Count(ls[..n], len) == r then n
    else
      var s := SymbolAt(ls[..n], len, r);
      assert ls[..n][..s] == ls[..s];
      s
  }

  lemma {:induction false} RankBelow(ls: seq<nat>, s: nat)
    requires s < |ls|
    ensures Rank(ls, s) < Count(ls, ls[s])
  {
    if s < |ls| - 1 {
      RankBelow(ls[..|ls| - 1], s);
      assert ls[..|ls| - 1][..s] == ls[..s];
    }
  }

  lemma {:induction false} SymbolOfRank(ls: seq<nat>, s: nat)
    requires s < |ls|
    ensures Rank(ls, s) < Count(ls, ls[s]) && SymbolAt(ls, ls[s], Rank(ls, s)) == s
  {
    RankBelow(ls, s);
    var n := |ls| - 1;
    if s < n {
      assert ls[..n][..s] == ls[..s];
      SymbolOfRank(ls[..n], s);
      RankBelow(ls[..n], s);
    }
  }

  lemma {:induction false} CountNone(ls: seq<nat>, len: nat)
    requires forall s :: 0 <= s < |ls| ==> ls[s] != len
    ensures Count(ls, len) == 0
  {
    if ls != [] { CountNone(ls[..|ls| - 1], len); }
  }

  /** No code below five bits. */
  lemma {:induction false} ShortEmpty(ls: seq<nat>, len: nat)
    requires Proper(ls) && len < SHORTEST
    ensures EndCode(ls, len) == 0 && Count(ls, len) == 0
  {
    CountNone(ls, len);
    if len > 1 { ShortEmpty(ls, len - 1); }
  }

  /** Codes of every length fit in it. */
  lemma {:induction false} EndFits(ls: seq<nat>, len: nat)
    requires Proper(ls) && len <= ls[EOS]
    ensures EndCode(ls, len) <= Pow2(len)
    decreases ls[EOS] - len
  {
    if len < ls[EOS] {
      EndFits(ls, len + 1);
      if len == 0 { ShortEmpty(ls, 0); }
    }
  }

  lemma CodeFits(ls: seq<nat>, s: nat)
    requires Proper(ls) && s < |ls|
    ensures FirstCode(ls, ls[s]) <= Code(ls, s) < EndCode(ls, ls[s]) <= Pow2(ls[s])
    ensures Value(CodeBits(ls, s)) == Code(ls, s)
  {
    RankBelow(ls, s);
    EndFits(ls, ls[s]);
    ValueOfBits(Code(ls, s), ls[s]);
  }

  /** EOS is all ones. */
  lemma EosIsOnes(ls: seq<nat>)
    requires Proper(ls)
    ensures Code(ls, EOS) == Pow2(ls[EOS]) - 1
  {
    assert ls[..EOS + 1] == ls && ls[..|ls| - 1] == ls[..EOS];
  }

  // ---- Decoding, a bit at a time ----------------------------------------------

  datatype State = Reading(code: nat, len: nat, out: seq<byte>) | Bad

  function Step(ls: seq<nat>, st: State, b: bit): State {
    if st.Bad? then Bad
    else
      var code, len := 2 * st.code + b, st.len + 1;
      if len > LONGEST then Bad
      else if len < SHORTEST || code < FirstCode(ls, len) || code - FirstCode(ls, len) >= Count(ls, len)
      then Reading(code, len, st.out)
      else
        var symbol := SymbolAt(ls, len, code - FirstCode(ls, len));
        if symbol > 255 then Bad else Reading(0, 0, st.out + [symbol])
  }

  function Run(ls: seq<nat>, st: State, bits: seq<bit>): State {
    if bits == [] then st else Step(ls, Run(ls, st, bits[..|bits| - 1]), bits[|bits| - 1])
  }

  lemma {:induction false} RunJoin(ls: seq<nat>, st: State, x: seq<bit>, y: seq<bit>)
    ensures Run(ls, st, x + y) == Run(ls, Run(ls, st, x), y)
  {
    if y == [] {
      assert x + y == x;
    } else {
      assert (x + y)[..|x + y| - 1] == x + y[..|y| - 1];
      RunJoin(ls, st, x, y[..|y| - 1]);
    }
  }

  function EncodeBits(ls: seq<nat>, s: seq<byte>): seq<bit>
    requires |ls| == EOS + 1
  {
    if s == [] then [] else EncodeBits(ls, s[..|s| - 1]) + CodeBits(ls, s[|s| - 1])
  }

  // ---- Reading one code ---------------------------------------------------------

  /** What has been read of a code belongs to none that is shorter. */
  ghost predicate Pending(ls: seq<nat>, code: nat, len: nat) {
    len < LONGEST && EndCode(ls, len) <= code < Pow2(len)
  }

  /** Halving a code that is not below the first of its length leaves one beyond
      the last of the length before. */
  lemma Halved(ls: seq<nat>, code: nat, len: nat)
    requires len > 1 && FirstCode(ls, len) <= code
    ensures EndCode(ls, len - 1) <= code / 2
  {
  }

  lemma {:induction false} PrefixPending(ls: seq<nat>, bits: seq<bit>, k: nat)
    requires Proper(ls) && SHORTEST <= |bits| <= LONGEST && k < |bits|
    requires FirstCode(ls, |bits|) <= Value(bits)
    ensures Pending(ls, Value(bits[..k]), k)
    decreases |bits|
  {
    var init := bits[..|bits| - 1];
    assert Value(init) == Value(bits) / 2;
    Halved(ls, Value(bits), |bits|);
    BitsOfValue(init);
    if k < |init| {
      assert bits[..k] == init[..k];
      if |init| >= SHORTEST {
        PrefixPending(ls, init, k);
      } else {
        ShortEmpty(ls, k);
        BitsOfValue(bits[..k]);
      }
    }
  }

  /** Reading part of a code yields nothing yet. */
  lemma {:induction false} RunPart(ls: seq<nat>, bits: seq<bit>, out: seq<byte>, k: nat)
    requires Proper(ls) && SHORTEST <= |bits| <= LONGEST && k < |bits|
    requires FirstCode(ls, |bits|) <= Value(bits)
    ensures Run(ls, Reading(0, 0, out), bits[..k]) == Reading(Value(bits[..k]), k, out)
  {
    if k > 0 {
      RunPart(ls, bits, out, k - 1);
      assert bits[..k][..k - 1] == bits[..k - 1];
      PrefixPending(ls, bits, k);
    }
  }

  lemma LastBit(ls: seq<nat>, s: nat, v: nat, b: bit, out: seq<byte>)
    requires Proper(ls) && s <= EOS && 2 * v + b == Code(ls, s)
    ensures Step(ls, Reading(v, ls[s] - 1, out), b) == if s == EOS then Bad else Reading(0, 0, out + [s])
  {
    CodeFits(ls, s);
    SymbolOfRank(ls, s);
  }

  /** Reading a whole code yields its symbol. */
  lemma RunCode(ls: seq<nat>, s: nat, out: seq<byte>)
    requires Proper(ls) && s <= EOS
    ensures Run(ls, Reading(0, 0, out), CodeBits(ls, s)) == if s == EOS then Bad else Reading(0, 0, out + [s])
  {
    var bits := CodeBits(ls, s);
    var n := |bits| - 1;
    CodeFits(ls, s);
    RunPart(ls, bits, out, n);
    assert Value(bits) == 2 * Value(bits[..n]) + bits[n];
    LastBit(ls, s, Value(bits[..n]), bits[n], out);
  }

  lemma RunAnother(ls: seq<nat>, bits: seq<bit>, out: seq<byte>, symbol: byte)
    requires Proper(ls) && Run(ls, Reading(0, 0, []), bits) == Reading(0, 0, out)
    ensures Run(ls, Reading(0, 0, []), bits + CodeBits(ls, symbol)) == Reading(0, 0, out + [symbol])
  {
    RunJoin(ls, Reading(0, 0, []), bits, CodeBits(ls, symbol));
    RunCode(ls, symbol, out);
  }

  lemma {:induction false} RunEncoded(ls: seq<nat>, s: seq<byte>)
    requires Proper(ls)
    ensures Run(ls, Reading(0, 0, []), EncodeBits(ls, s)) == Reading(0, 0, s)
  {
    if s != [] {
      var init, last := s[..|s| - 1], s[|s| - 1];
      RunEncoded(ls, init);
      RunAnother(ls, EncodeBits(ls, init), init, last);
      assert s == init + [last];
    }
  }

  /** `bits` are the code of what has come out, and then the beginning of another. */
  ghost predicate Spelled(ls: seq<nat>, bits: seq<bit>, st: State)
    requires |ls| == EOS + 1 && st.Reading?
  {
    bits == EncodeBits(ls, st.out) + BitsOf(st.code, st.len) && Pending(ls, st.code, st.len)
  }

  lemma NothingSpelled(ls: seq<nat>)
    requires Proper(ls)
    ensures Spelled(ls, [], Reading(0, 0, []))
  {
    ShortEmpty(ls, 0);
    assert EncodeBits(ls, []) == [] && BitsOf(0, 0) == [];
  }

  lemma SpelledMore(ls: seq<nat>, bits: seq<bit>, st: State, b: bit)
    requires Proper(ls) && st.Reading? && Spelled(ls, bits, st)
    ensures var next := Step(ls, st, b); next.Reading? ==> Spelled(ls, bits + [b], next)
  {
    StepIsEncoded(ls, st, b);
  }

  /** Whatever has been read without fault was spelled by what came out of it. */
  lemma {:induction false} RunIsEncoded(ls: seq<nat>, bits: seq<bit>)
    requires Proper(ls)
    ensures var st := Run(ls, Reading(0, 0, []), bits); st.Reading? ==> Spelled(ls, bits, st)
  {
    if bits == [] {
      NothingSpelled(ls);
    } else {
      var init, b := bits[..|bits| - 1], bits[|bits| - 1];
      RunIsEncoded(ls, init);
      var st := Run(ls, Reading(0, 0, []), init);
      assert bits == init + [b];
      if st.Reading? { SpelledMore(ls, init, st, b); }
    }
  }

  /** A bit that completes no code leaves a longer beginning. */
  lemma StepOn(ls: seq<nat>, code: nat, len: nat, b: bit)
    requires Proper(ls) && Pending(ls, code, len)
    ensures FirstCode(ls, len + 1) <= 2 * code + b
    ensures 2 * code + b >= EndCode(ls, len + 1) ==> Pending(ls, 2 * code + b, len + 1)
    ensures BitsOf(2 * code + b, len + 1) == BitsOf(code, len) + [b]
    ensures len + 1 < SHORTEST ==> Pending(ls, 2 * code + b, len + 1)
  {
    if len + 1 < SHORTEST { ShortEmpty(ls, len + 1); }
    assert (2 * code + b) / 2 == code && (2 * code + b) % 2 == b;
  }

  lemma AppendSymbol(ls: seq<nat>, out: seq<byte>, symbol: byte)
    requires |ls| == EOS + 1
    ensures EncodeBits(ls, out + [symbol]) == EncodeBits(ls, out) + CodeBits(ls, symbol)
  {
    assert (out + [symbol])[..|out|] == out;
  }

  /** A code completed is the code of the symbol it yields. */
  lemma Completed(ls: seq<nat>, front: seq<bit>, code: nat, len: nat, b: bit, symbol: nat)
    requires Proper(ls) && symbol <= EOS && Pending(ls, code, len)
    requires ls[symbol] == len + 1 && Code(ls, symbol) == 2 * code + b
    ensures front + CodeBits(ls, symbol) == front + BitsOf(code, len) + [b]
  {
    StepOn(ls, code, len, b);
    Assoc(front, BitsOf(code, len), [b]);
  }

  /** A bit that completes a code. */
  lemma StepCompletes(ls: seq<nat>, st: State, b: bit, symbol: nat)
    requires Proper(ls) && st.Reading? && Pending(ls, st.code, st.len) && symbol < EOS
    requires ls[symbol] == st.len + 1 && Code(ls, symbol) == 2 * st.code + b
    ensures Spelled(ls, EncodeBits(ls, st.out) + BitsOf(st.code, st.len) + [b], Reading(0, 0, st.out + [symbol]))
  {
    var front := EncodeBits(ls, st.out);
    Completed(ls, front, st.code, st.len, b, symbol);
    AppendSymbol(ls, st.out, symbol);
    ShortEmpty(ls, 0);
    Assoc(front, CodeBits(ls, symbol), []);
  }

  /** A bit that completes none. */
  lemma StepContinues(ls: seq<nat>, st: State, b: bit)
    requires Proper(ls) && st.Reading? && Pending(ls, st.code, st.len)
    requires Pending(ls, 2 * st.code + b, st.len + 1)
    ensures Spelled(ls, EncodeBits(ls, st.out) + BitsOf(st.code, st.len) + [b],
                    Reading(2 * st.code + b, st.len + 1, st.out))
  {
    StepOn(ls, st.code, st.len, b);
    Assoc(EncodeBits(ls, st.out), BitsOf(st.code, st.len), [b]);
  }

  lemma StepEnds(ls: seq<nat>, st: State, b: bit)
    requires Proper(ls) && st.Reading? && Pending(ls, st.code, st.len)
    requires Step(ls, st, b).Reading? && Step(ls, st, b).len == 0
    ensures Spelled(ls, EncodeBits(ls, st.out) + BitsOf(st.code, st.len) + [b], Step(ls, st, b))
  {
    var code, len := 2 * st.code + b, st.len + 1;
    StepCompletes(ls, st, b, SymbolAt(ls, len, code - FirstCode(ls, len)));
  }

  lemma StepGoesOn(ls: seq<nat>, st: State, b: bit)
    requires Proper(ls) && st.Reading? && Pending(ls, st.code, st.len)
    requires Step(ls, st, b).Reading? && Step(ls, st, b).len != 0
    ensures Step(ls, st, b) == Reading(2 * st.code + b, st.len + 1, st.out)
    ensures Pending(ls, 2 * st.code + b, st.len + 1)
  {
    StepOn(ls, st.code, st.len, b);
  }

  lemma StepIsEncoded(ls: seq<nat>, st: State, b: bit)
    requires Proper(ls) && st.Reading? && Pending(ls, st.code, st.len)
    ensures var next := Step(ls, st, b);
            next.Reading? ==> Spelled(ls, EncodeBits(ls, st.out) + BitsOf(st.code, st.len) + [b], next)
  {
    var next := Step(ls, st, b);
    if next.Reading? {
      if next.len == 0 {
        StepEnds(ls, st, b);
      } else {
        StepGoesOn(ls, st, b);
        StepContinues(ls, st, b);
      }
    }
  }

  lemma Assoc<T>(a: seq<T>, b: seq<T>, c: seq<T>)
    ensures a + b + c == a + (b + c) && b + [] == b
  {
  }

  // ---- Bytes -------------------------------------------------------------------

  function Bits(s: seq<byte>): (bits: seq<bit>)
    ensures |bits| == 8 * |s|
  {
    if s == [] then [] else Bits(s[..|s| - 1]) + BitsOf(s[|s| - 1], 8)
  }

  function Ones(n: nat): (bits: seq<bit>)
    ensures |bits| == n
  {
    if n == 0 then [] else Ones(n - 1) + [1]
  }

  /** How many ones fill the last byte. */
  function Pad(n: nat): (k: nat)
    ensures k < 8 && (n + k) % 8 == 0
  {
    (8 - n % 8) % 8
  }

  lemma Eight()
    ensures Pow2(8) == 256
  {
    assert Pow2(4) == 2 * (2 * Pow2(2));
    assert Pow2(8) == 2 * (2 * (2 * (2 * Pow2(4))));
  }

  lemma Cut<T>(s: seq<T>, n: nat)
    requires n <= |s|
    ensures s == s[..n] + s[n..]
  {
  }

  lemma ButLast<T>(s: seq<T>, x: T)
    ensures (s + [x])[..|s|] == s
  {
  }

  function Pack(bits: seq<bit>): (s: seq<byte>)
    requires |bits| % 8 == 0
    ensures Bits(s) == bits
  {
    if bits == [] then []
    else
      var n := |bits| - 8;
      BitsOfValue(bits[n..]);
      Eight();
      var init := Pack(bits[..n]);
      Cut(bits, n);
      ButLast(init, Value(bits[n..]));
      init + [Value(bits[n..])]
  }

  lemma {:induction false} BitsInjective(x: seq<byte>, y: seq<byte>)
    requires Bits(x) == Bits(y)
    ensures x == y
  {
    if x != [] {
      var n := |x| - 1;
      assert |y| == |x|;
      assert Bits(x)[..8 * n] == Bits(x[..n]) && Bits(y)[..8 * n] == Bits(y[..n]);
      assert Bits(x)[8 * n..] == BitsOf(x[n], 8) && Bits(y)[8 * n..] == BitsOf(y[n], 8);
      BitsInjective(x[..n], y[..n]);
      Eight();
      ValueOfBits(x[n], 8);
      ValueOfBits(y[n], 8);
      assert x == x[..n] + [x[n]] && y == y[..n] + [y[n]];
    }
  }

  lemma {:induction false} OnesValue(n: nat)
    ensures Value(Ones(n)) == Pow2(n) - 1 && BitsOf(Pow2(n) - 1, n) == Ones(n)
  {
    if n > 0 {
      OnesValue(n - 1);
      ValueAppend(Ones(n - 1), 1);
      assert (Pow2(n) - 1) / 2 == Pow2(n - 1) - 1 && (Pow2(n) - 1) % 2 == 1;
    }
  }

  lemma {:induction false} OnesTake(n: nat, k: nat)
    requires k <= n
    ensures Ones(n)[..k] == Ones(k)
  {
    if k < n {
      OnesTake(n - 1, k);
      assert Ones(n)[..k] == Ones(n - 1)[..k];
    }
  }

  lemma EosBits(ls: seq<nat>, n: nat)
    requires Proper(ls) && n == ls[EOS]
    ensures CodeBits(ls, EOS) == Ones(n) && FirstCode(ls, n) <= Value(Ones(n))
  {
    EosIsOnes(ls);
    CodeFits(ls, EOS);
    OnesValue(n);
  }

  lemma RunSomeOnes(ls: seq<nat>, out: seq<byte>, n: nat, k: nat)
    requires Proper(ls) && SHORTEST <= n <= LONGEST && k < n && FirstCode(ls, n) <= Value(Ones(n))
    ensures Run(ls, Reading(0, 0, out), Ones(k)) == Reading(Pow2(k) - 1, k, out)
  {
    OnesTake(n, k);
    OnesValue(k);
    RunPart(ls, Ones(n), out, k);
  }

  /** Fewer ones than make EOS end no code. */
  lemma RunOnes(ls: seq<nat>, out: seq<byte>, k: nat)
    requires Proper(ls) && k < ls[EOS]
    ensures Run(ls, Reading(0, 0, out), Ones(k)) == Reading(Pow2(k) - 1, k, out)
  {
    EosBits(ls, ls[EOS]);
    RunSomeOnes(ls, out, ls[EOS], k);
  }

  // ---- Whole strings -----------------------------------------------------------

  function Encode(ls: seq<nat>, s: seq<byte>): seq<byte>
    requires |ls| == EOS + 1
  {
    Pack(Padded(EncodeBits(ls, s)))
  }

  function Padded(bits: seq<bit>): (r: seq<bit>)
    ensures |r| % 8 == 0
  {
    bits + Ones(Pad(|bits|))
  }

  function Decode(ls: seq<nat>, x: seq<byte>): Option<seq<byte>> {
    var st := Run(ls, Reading(0, 0, []), Bits(x));
    if st.Bad? || st.len >= 8 || (st.len > 0 && st.code != Pow2(st.len) - 1) then None else Some(st.out)
  }

  lemma EncodedDecodes(ls: seq<nat>, s: seq<byte>)
    requires Proper(ls)
    ensures Decode(ls, Encode(ls, s)) == Some(s)
  {
    var bits := EncodeBits(ls, s);
    var pad := Pad(|bits|);
    RunEncoded(ls, s);
    RunJoin(ls, Reading(0, 0, []), bits, Ones(pad));
    RunOnes(ls, s, pad);
  }

  lemma PadUnique(n: nat, k: nat, m: nat)
    requires n + k == 8 * m && k < 8
    ensures k == Pad(n)
  {
  }

  lemma AcceptedBits(ls: seq<nat>, bits: seq<bit>, s: seq<byte>, code: nat, k: nat)
    requires Proper(ls) && Run(ls, Reading(0, 0, []), bits) == Reading(code, k, s)
    requires k == 0 || code == Pow2(k) - 1
    ensures bits == EncodeBits(ls, s) + Ones(k)
  {
    RunIsEncoded(ls, bits);
    OnesValue(k);
  }

  lemma DecodedEncodes(ls: seq<nat>, x: seq<byte>, s: seq<byte>)
    requires Proper(ls) && Decode(ls, x) == Some(s)
    ensures x == Encode(ls, s)
  {
    var st := Run(ls, Reading(0, 0, []), Bits(x));
    AcceptedBits(ls, Bits(x), s, st.code, st.len);
    PadUnique(|EncodeBits(ls, s)|, st.len, |x|);
    BitsInjective(x, Encode(ls, s));
  }

  /** Decoding succeeds with `s` exactly on the encoding of `s`. */
  lemma DecodeInvertsEncode(ls: seq<nat>, x: seq<byte>, s: seq<byte>)
    requires Proper(ls)
    ensures Decode(ls, x) == Some(s) <==> x == Encode(ls, s)
  {
    EncodedDecodes(ls, s);
    if Decode(ls, x) == Some(s) { DecodedEncodes(ls, x, s); }
  }

  /** The length in bits, which the encoder's caller asks for first. */
  function EncodedBits(ls: seq<nat>, s: seq<byte>): nat
    requires |ls| == EOS + 1
  {
    if s == [] then 0 else EncodedBits(ls, s[..|s| - 1]) + ls[s[|s| - 1]]
  }

  lemma {:induction false} EncodedBitsIs(ls: seq<nat>, s: seq<byte>)
    requires |ls| == EOS + 1
    ensures |EncodeBits(ls, s)| == EncodedBits(ls, s)
  {
    if s != [] { EncodedBitsIs(ls, s[..|s| - 1]); }
  }

  method EncodedLength(ls: seq<nat>, s: seq<byte>) returns (n: nat)
    requires |ls| == EOS + 1
    ensures n == |Encode(ls, s)|
  {
    var bits, i := 0, 0;
    while i < |s|
      invariant 0 <= i <= |s| && bits == EncodedBits(ls, s[..i])
    {
      assert s[..i + 1][..i] == s[..i];
      bits := bits + ls[s[i]];
      i := i + 1;
    }
    assert s[..|s|] == s;
    EncodedBitsIs(ls, s);
    n := (bits + 7) / 8;
  }
}
