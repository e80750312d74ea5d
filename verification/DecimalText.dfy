/** Decimal digits written and read. */
module DecimalText {
  import opened Arith
  import opened Wrappers

  predicate IsDigit(b: byte) { 48 <= b <= 57 }

  predicate AllDigits(s: seq<byte>) { s == [] || (IsDigit(s[0]) && AllDigits(s[1..])) }

  function Decimal(v: nat): (s: seq<byte>)
    ensures |s| > 0
  {
    if v < 10 then [48 + v] else Decimal(v / 10) + [48 + v % 10]
  }

  function Zeros(n: int): seq<byte> { if n <= 0 then [] else [48] + Zeros(n - 1) }

  /** A number in at least `width` digits. */
  function Padded(v: nat, width: nat): seq<byte> { Zeros(width - |Decimal(v)|) + Decimal(v) }

  /** The number some digits continue. */
  function Fold(acc: nat, s: seq<byte>): nat
    requires AllDigits(s)
    decreases |s|
  {
    if s == [] then acc else Fold(acc * 10 + (s[0] - 48), s[1..])
  }

  datatype Num = Num(value: nat, rest: seq<byte>)

  /** Takes digits while there are some, at most `max`. */
  function Take(s: seq<byte>, max: nat, acc: nat): Num
    decreases max
  {
    if max == 0 || s == [] || !IsDigit(s[0]) then Num(acc, s) else Take(s[1..], max - 1, acc * 10 + (s[0] - 48))
  }

  /** At least `min` digits and at most `max`. */
  function Digits(s: seq<byte>, min: nat, max: nat): Option<Num> {
    var n := Take(s, max, 0);
    if |s| - |n.rest| >= min then Some(n) else None
  }

  /** The digit loop as it runs, with its cursor. */
  method DigitsLoop(bytes: seq<byte>, start: nat, min: nat, max: nat) returns (r: Option<nat>, i: nat)
    requires start <= |bytes|
    ensures start <= i <= |bytes|
    ensures Digits(bytes[start..], min, max) == if r.None? then None else Some(Num(r.value, bytes[i..]))
  {
    var value: nat, count: nat := 0, 0;
    i := start;
    while i < |bytes| && count < max && IsDigit(bytes[i])
      invariant start <= i <= |bytes| && count == i - start <= max
      invariant Take(bytes[start..], max, 0) == Take(bytes[i..], max - count, value)
    {
      assert bytes[i..][1..] == bytes[i + 1..];
      value := value * 10 + (bytes[i] - 48);
      i := i + 1;
      count := count + 1;
    }
    if count >= min { return Some(value), i; }
    return None, i;
  }

  // ---- Round trips ---------------------------------------------------------------

  lemma {:induction false} DigitsJoin(x: seq<byte>, y: seq<byte>)
    ensures AllDigits(x + y) <==> AllDigits(x) && AllDigits(y)
    ensures AllDigits(x) && AllDigits(y) ==> forall acc: nat :: Fold(acc, x + y) == Fold(Fold(acc, x), y)
  {
    if x == [] {
      assert x + y == y;
    } else {
      assert (x + y)[1..] == x[1..] + y;
      DigitsJoin(x[1..], y);
    }
  }

  lemma {:induction false} ZerosFold(n: int)
    ensures AllDigits(Zeros(n)) && Fold(0, Zeros(n)) == 0 && |Zeros(n)| == Max(n, 0)
  {
    if n > 0 {
      ZerosFold(n - 1);
      assert Zeros(n)[1..] == Zeros(n - 1);
    }
  }

  lemma {:induction false} DecimalFold(v: nat)
    ensures AllDigits(Decimal(v)) && Fold(0, Decimal(v)) == v
  {
    if v < 10 {
      assert [48 + v][1..] == [];
    } else {
      DecimalFold(v / 10);
      var d: byte := 48 + v % 10;
      assert [d][1..] == [] && AllDigits([d]);
      DigitsJoin(Decimal(v / 10), [d]);
      assert Fold(v / 10, [d]) == Fold(v / 10 * 10 + v % 10, []);
    }
  }

  lemma PaddedFold(v: nat, width: nat)
    ensures AllDigits(Padded(v, width)) && Fold(0, Padded(v, width)) == v &&
            |Padded(v, width)| == Max(width, |Decimal(v)|)
  {
    ZerosFold(width - |Decimal(v)|);
    DecimalFold(v);
    DigitsJoin(Zeros(width - |Decimal(v)|), Decimal(v));
  }

  /** Digits are taken up to the first byte that is none. */
  lemma {:induction false} TakeAll(text: seq<byte>, rest: seq<byte>, max: nat, acc: nat)
    requires AllDigits(text) && |text| <= max && (|text| == max || rest == [] || !IsDigit(rest[0]))
    ensures Take(text + rest, max, acc) == Num(Fold(acc, text), rest)
    decreases max
  {
    if text == [] {
      assert text + rest == rest;
    } else {
      assert (text + rest)[1..] == text[1..] + rest;
      TakeAll(text[1..], rest, max - 1, acc * 10 + (text[0] - 48));
    }
  }

  lemma {:induction false} TakeSome(text: seq<byte>, rest: seq<byte>, max: nat, acc: nat)
    requires AllDigits(text) && |text| > max
    ensures Take(text + rest, max, acc).rest == text[max..] + rest && IsDigit(text[max])
    decreases max
  {
    if max == 0 {
      assert text[0..] == text;
    } else {
      assert (text + rest)[1..] == text[1..] + rest;
      TakeSome(text[1..], rest, max - 1, acc * 10 + (text[0] - 48));
      assert text[1..][max - 1..] == text[max..];
    }
  }

  lemma {:induction false} DecimalLength(v: nat, n: nat)
    requires n > 0
    ensures |Decimal(v)| <= n <==> v < Power(10, n)
    decreases n
  {
    if n == 1 {
      assert Power(10, 1) == 10 * Power(10, 0);
    } else if v >= 10 {
      DecimalLength(v / 10, n - 1);
    } else {
      PowerPositive(10, n - 1);
    }
  }

  /** A padded number, read back with what follows it. */
  lemma PaddedRead(v: nat, width: nat, max: nat, rest: seq<byte>)
    requires 0 < width <= max && |Padded(v, width)| <= max
    requires |Padded(v, width)| == max || rest == [] || !IsDigit(rest[0])
    ensures Digits(Padded(v, width) + rest, width, max) == Some(Num(v, rest))
  {
    PaddedFold(v, width);
    TakeAll(Padded(v, width), rest, max, 0);
  }

  /** Two digits, whatever follows. */
  lemma TwoRead(v: nat, rest: seq<byte>)
    requires v < 100
    ensures Digits(Padded(v, 2) + rest, 2, 2) == Some(Num(v, rest)) && |Padded(v, 2)| == 2
  {
    assert Power(10, 2) == 10 * Power(10, 1) && Power(10, 1) == 10 * Power(10, 0);
    DecimalLength(v, 2);
    PaddedFold(v, 2);
    PaddedRead(v, 2, 2, rest);
  }
}
