/** Packet numbers travel truncated; the receiver picks the candidate nearest to
    what it expects next. */
module QuicNumber {
  import opened Arith
  import opened Wrappers

  const NUMBER_END: int := 0x4000_0000_0000_0000

  /** The width a sender chooses for a number, by how far it is ahead of the peer. */
  function Length(full: nat, acked: Option<nat>): (n: nat)
    ensures 1 <= n <= 4
  {
    var range := if acked.Some? then (full - acked.value) % U64 * 2 % U64 else (full + 1) * 2 % U64;
    if range < 0x100 then 1 else if range < 0x1_0000 then 2 else if range < 0x100_0000 then 3 else 4
  }

  function Window(bytes: nat): nat {
    if bytes == 1 then 0x100 else if bytes == 2 then 0x1_0000 else if bytes == 3 then 0x100_0000 else 0x1_0000_0000
  }

  function Truncate(full: nat, bytes: nat): nat { full % Window(bytes) }

  /** `largest` is -1 until a packet has been received. */
  function Decode(largest: int, truncated: nat, bytes: nat): int
    requires -1 <= largest
  {
    var expected, window := largest + 1, Window(bytes);
    var half := window / 2;
    var candidate := expected - expected % window + truncated;
    if candidate <= expected - half && candidate < NUMBER_END - window then candidate + window
    else if candidate > expected + half && candidate >= window then candidate - window
    else candidate
  }

  /** Within half a window of what is expected; or ahead of that within the first
      window; or behind it within the last. */
  predicate Decodable(largest: int, full: nat, bytes: nat) {
    var expected, window := largest + 1, Window(bytes);
    var half := window / 2;
    || expected - half < full <= expected + half
    || expected + half < full < window
    || (NUMBER_END - window <= full <= expected - half && expected < NUMBER_END)
  }

  /** Two multiples of a window are equal, neighbours, or further apart. */
  predicate Stepped(a: int, b: int, w: int) {
    a == b || a == b + w || a == b - w || a >= b + 2 * w || a <= b - 2 * w
  }

  lemma Multiples(w: nat, p: int, q: int)
    ensures Stepped(w * p, w * q, w)
  {
    assert w * p - w * q == w * (p - q);
    if p - q >= 2 { MulMonotone(w, 2, p - q); } else if p - q <= -2 { MulMonotone(w, p - q, -2); }
  }

  lemma Divided(x: nat, w: nat) returns (q: nat, r: nat)
    requires w > 0
    ensures x == w * q + r && r < w && r == x % w
  {
    q, r := x / w, x % w;
  }

  /** The choice depends only on how the two numbers lie in their windows, which
      start at `b` and `a`. */
  lemma DecodeBy(e: int, f: int, w: int, h: int, b: int, re: int, a: int, rf: int)
    requires w > 0 && w == 2 * h && e == b + re && 0 <= re < w && f == a + rf && 0 <= rf < w
    requires 0 <= f < NUMBER_END && 0 <= e <= NUMBER_END
    requires Stepped(a, b, w) && Stepped(b, 0, w) && Stepped(a, 0, w)
    requires Stepped(b, NUMBER_END, w) && Stepped(a, NUMBER_END, w)
    ensures var c := b + rf;
            var d := if c <= e - h && c < NUMBER_END - w then c + w else if c > e + h && c >= w then c - w else c;
            d == f <==> (e - h < f <= e + h || e + h < f < w || (NUMBER_END - w <= f <= e - h && e < NUMBER_END))
  {
  }

  /** Where a number's window starts, next to the first window and the end of the last. */
  lemma WindowStart(w: nat, q: nat, end: nat)
    ensures Stepped(w * q, 0, w) && Stepped(w * q, w * end, w)
  {
    Multiples(w, q, 0);
    Multiples(w, q, end);
  }

  lemma DecodeWith(e: nat, f: nat, w: nat, h: nat, re: nat, rf: nat)
    requires w > 0 && w == 2 * h && NUMBER_END % w == 0 && f < NUMBER_END && e <= NUMBER_END
    requires re == e % w && rf == f % w
    ensures var c := e - re + rf;
            var d := if c <= e - h && c < NUMBER_END - w then c + w else if c > e + h && c >= w then c - w else c;
            d == f <==> (e - h < f <= e + h || e + h < f < w || (NUMBER_END - w <= f <= e - h && e < NUMBER_END))
  {
    var qe, re' := Divided(e, w);
    var qf, rf' := Divided(f, w);
    var end, r := Divided(NUMBER_END, w);
    Multiples(w, qf, qe);
    WindowStart(w, qe, end);
    WindowStart(w, qf, end);
    DecodeBy(e, f, w, h, w * qe, re, w * qf, rf);
  }

  /** Decoding a truncated number gives the number back exactly when it lies where
      the receiver looks. */
  lemma DecodeExactly(largest: int, full: nat, bytes: nat)
    requires -1 <= largest < NUMBER_END && full < NUMBER_END && 1 <= bytes <= 4
    ensures Decode(largest, Truncate(full, bytes), bytes) == full <==> Decodable(largest, full, bytes)
  {
    var w := Window(bytes);
    DecodeWith(largest + 1, full, w, w / 2, (largest + 1) % w, full % w);
  }

  /** A sender that picks the length from what was acknowledged is always understood
      by a receiver that is not behind that, nor too far ahead of the packet. */
  lemma Unambiguous(full: nat, acked: Option<nat>, largest: int)
    requires full < NUMBER_END && -1 <= largest < NUMBER_END
    requires acked.Some? ==> acked.value < full && full - acked.value < 0x8000_0000 && acked.value <= largest
    requires acked.None? ==> full + 1 < 0x8000_0000
    requires largest - full < Window(Length(full, acked)) / 2 - 1
    ensures var n := Length(full, acked); Decode(largest, Truncate(full, n), n) == full
  {
    var n := Length(full, acked);
    var span := if acked.Some? then full - acked.value else full + 1;
    assert span % U64 * 2 % U64 == span * 2;
    assert span < Window(n) / 2;
    DecodeExactly(largest, full, n);
  }
}
