/** What the response writer frames in chunks, the decoder gives back. */
module ChunkedWriter {
  import opened Arith
  import opened Chunked

  // ---- Sizes in hex ----------------------------------------------------------------

  function HexDigit(v: nat): byte
    requires v < 16
  {
    if v < 10 then 48 + v else 87 + v
  }

  function Hex(n: nat): (s: seq<byte>)
    ensures |s| > 0
  {
    if n < 16 then [HexDigit(n)] else Hex(n / 16) + [HexDigit(n % 16)]
  }

  lemma {:induction false} HexLength(n: nat, k: nat)
    requires k > 0
    ensures |Hex(n)| <= k <==> n < Power(16, k)
    decreases k
  {
    if k == 1 {
      assert Power(16, 1) == 16 * Power(16, 0);
    } else if n >= 16 {
      HexLength(n / 16, k - 1);
    } else {
      PowerPositive(16, k - 1);
    }
  }

  function Reverse(s: seq<byte>): seq<byte> { if s == [] then [] else Reverse(s[1..]) + [s[0]] }

  lemma {:induction false} ReverseAt(s: seq<byte>, k: nat)
    requires k < |s|
    ensures |Reverse(s)| == |s| && Reverse(s)[k] == s[|s| - 1 - k]
    decreases |s|
  {
    if |s| > 1 { ReverseAt(s[1..], if k < |s| - 1 then k else 0); }
  }

  lemma {:induction false} ReversePush(s: seq<byte>, d: byte)
    ensures Reverse(s + [d]) == [d] + Reverse(s)
    decreases |s|
  {
    if s == [] {
      assert s + [d] == [d] && [d][1..] == [];
    } else {
      assert (s + [d])[1..] == s[1..] + [d];
      ReversePush(s[1..], d);
      assert [d] + Reverse(s[1..]) + [s[0]] == [d] + (Reverse(s[1..]) + [s[0]]);
    }
  }

  /** The digits are found from the last and turned round; sixteen places hold any
      number of 63 bits. */
  method WriteHex(v: nat) returns (out: seq<byte>)
    requires v < 0x8000_0000_0000_0000
    ensures out == Hex(v)
  {
    if v == 0 { return [48]; }
    var t := new byte[16];
    assert |Hex(v)| <= 16 by {
      HexLength(v, 16);
      assert Power(16, 15) == BOUND && Power(16, 16) == 16 * Power(16, 15);
    }
    var n := DigitsFromLast(t, v);
    out := TurnRound(t, n);
  }

  method DigitsFromLast(t: array<byte>, v: nat) returns (n: nat)
    requires t.Length == 16 && 0 < v && |Hex(v)| <= 16
    modifies t
    ensures n <= 16 && Reverse(t[..n]) == Hex(v)
  {
    n := 0;
    var x := v;
    assert Hex(v) + Reverse(t[..0]) == Hex(v);
    while x > 0
      invariant n + |HexOrNone(x)| <= 16 && HexOrNone(x) + Reverse(t[..n]) == Hex(v)
    {
      ghost var was := t[..n];
      t[n] := HexDigit(x % 16);
      Turned(was, x);
      assert t[..n + 1] == was + [HexDigit(x % 16)];
      x := x / 16;
      n := n + 1;
    }
    assert HexOrNone(0) + Reverse(t[..n]) == Reverse(t[..n]);
  }

  method TurnRound(t: array<byte>, n: nat) returns (out: seq<byte>)
    requires n <= t.Length
    ensures out == Reverse(t[..n])
  {
    out := [];
    var i := 0;
    while i < n
      invariant i <= n && |out| == i && forall k :: 0 <= k < i ==> out[k] == t[n - 1 - k]
    {
      out := out + [t[n - 1 - i]];
      i := i + 1;
    }
    ReverseIs(t[..n], out);
  }

  lemma {:induction false} ReverseIs(s: seq<byte>, r: seq<byte>)
    requires |r| == |s| && forall k :: 0 <= k < |s| ==> r[k] == s[|s| - 1 - k]
    ensures r == Reverse(s)
  {
    if s != [] { ReverseAt(s, 0); }
    forall k | 0 <= k < |s| ensures r[k] == Reverse(s)[k] { ReverseAt(s, k); }
  }

  function HexOrNone(x: nat): seq<byte> { if x > 0 then Hex(x) else [] }

  lemma {:induction false} Turned(was: seq<byte>, x: nat)
    requires x > 0
    ensures HexOrNone(x / 16) + Reverse(was + [HexDigit(x % 16)]) == Hex(x) + Reverse(was)
    ensures |HexOrNone(x / 16)| + 1 == |Hex(x)|
  {
    ReversePush(was, HexDigit(x % 16));
    if x >= 16 {
      assert Hex(x / 16) + ([HexDigit(x % 16)] + Reverse(was)) == Hex(x / 16) + [HexDigit(x % 16)] + Reverse(was);
    } else {
      assert [] + ([HexDigit(x)] + Reverse(was)) == [HexDigit(x)] + Reverse(was);
    }
  }

  // ---- Reading a size ------------------------------------------------------------------

  predicate AllHex(s: seq<byte>) { s == [] || (HexValue(s[0]) >= 0 && AllHex(s[1..])) }

  function HexFold(acc: nat, s: seq<byte>): nat
    requires AllHex(s)
    decreases |s|
  {
    if s == [] then acc else HexFold(16 * acc + HexValue(s[0]), s[1..])
  }

  lemma {:induction false} HexPush(acc: nat, s: seq<byte>, d: byte)
    requires AllHex(s) && HexValue(d) >= 0
    ensures AllHex(s + [d]) && HexFold(acc, s + [d]) == 16 * HexFold(acc, s) + HexValue(d)
    decreases |s|
  {
    if s == [] {
      assert s + [d] == [d] && [d][1..] == [];
    } else {
      assert (s + [d])[1..] == s[1..] + [d];
      HexPush(16 * acc + HexValue(s[0]), s[1..], d);
    }
  }

  lemma {:induction false} HexIs(n: nat)
    ensures AllHex(Hex(n)) && HexFold(0, Hex(n)) == n
  {
    if n < 16 {
      assert [HexDigit(n)][1..] == [];
    } else {
      HexIs(n / 16);
      HexPush(0, Hex(n / 16), HexDigit(n % 16));
    }
  }

  // ---- Bytes that leave the decoder wanting more -----------------------------------------

  /** All of `s` is taken, with `body` handed on. */
  predicate Feeds(d: Decoder, s: seq<byte>, body: seq<byte>, next: Decoder) {
    Run(d, s) == Result(NeedMore, next, body, |s|)
  }

  lemma {:induction false} FeedBoth(d: Decoder, s: seq<byte>, a: seq<byte>, mid: Decoder, t: seq<byte>, b: seq<byte>,
                                    next: Decoder)
    requires Feeds(d, s, a, mid) && Feeds(mid, t, b, next)
    ensures Feeds(d, s + t, a + b, next)
  {
    Resumes(d, s, t);
  }

  lemma {:induction false} FeedByte(d: Decoder, c: byte, next: Decoder)
    requires Take(d, c) == Go(next, []) && d.state != Done && next.state != Done
    ensures Feeds(d, [c], [], next)
  {
    assert [c][1..] == [];
  }

  lemma {:induction false} FeedSize(d: Decoder, s: seq<byte>)
    requires d.state == Size && AllHex(s) && d.digits + |s| <= 15
    ensures Feeds(d, s, [], d.(remaining := HexFold(d.remaining, s), digits := d.digits + |s|))
    decreases |s|
  {
    if s != [] {
      var mid := d.(remaining := 16 * d.remaining + HexValue(s[0]), digits := d.digits + 1);
      FeedSize(mid, s[1..]);
      assert Take(d, s[0]) == Go(mid, []);
    }
  }

  /** A sixteenth digit is refused. */
  lemma {:induction false} SizeTooLong(d: Decoder, s: seq<byte>, rest: seq<byte>)
    requires d.state == Size && AllHex(s) && d.digits <= 15 < d.digits + |s|
    ensures Run(d, s + rest).outcome == Failure(BadChunk)
    decreases |s|
  {
    assert (s + rest)[0] == s[0] && (s + rest)[1..] == s[1..] + rest;
    if d.digits < 15 {
      SizeTooLong(d.(remaining := 16 * d.remaining + HexValue(s[0]), digits := d.digits + 1), s[1..], rest);
    }
  }

  lemma {:induction false} FeedData(d: Decoder, s: seq<byte>)
    requires d.state == Data && 0 < |s| == d.remaining
    ensures Feeds(d, s, s, DataTaken(d, |s|))
  {
    DataRun(d, s, |s|);
    assert s[..|s|] == s && s[|s|..] == [] && s + [] == s;
  }

  lemma {:induction false} FeedLine(d: Decoder, mid: Decoder, next: Decoder)
    requires Take(d, 13) == Go(mid, []) && Take(mid, 10) == Go(next, [])
    requires d.state != Done && mid.state != Done && next.state != Done
    ensures Feeds(d, [13, 10], [], next)
  {
    FeedByte(d, 13, mid);
    FeedByte(mid, 10, next);
    FeedBoth(d, [13], [], mid, [10], [], next);
    assert [13] + [10] == [13, 10];
  }

  // ---- Chunks ------------------------------------------------------------------------

  function Chunk(c: seq<byte>): seq<byte> { Hex(|c|) + [13, 10] + c + [13, 10] }

  const LAST: seq<byte> := [48, 13, 10, 13, 10]

  /** Between chunks. */
  predicate Fresh(d: Decoder) { d.state == Size && d.remaining == 0 && d.digits == 0 }

  /** A chunk that says neither that it is the last nor more than it may. */
  predicate Proper(c: seq<byte>) { c != [] && |Hex(|c|)| <= 15 }

  lemma {:induction false} FeedHeader(d: Decoder, n: nat)
    requires Fresh(d) && 0 < n && |Hex(n)| <= 15
    ensures Feeds(d, Hex(n) + [13, 10], [], d.(state := Data, remaining := n))
  {
    HexIs(n);
    FeedSize(d, Hex(n));
    var sized := d.(remaining := n, digits := |Hex(n)|);
    FeedLine(sized, sized.(state := SizeLF), d.(state := Data, remaining := n));
    FeedBoth(d, Hex(n), [], sized, [13, 10], [], d.(state := Data, remaining := n));
  }

  lemma {:induction false} FeedChunk(d: Decoder, c: seq<byte>)
    requires Fresh(d) && Proper(c)
    ensures Feeds(d, Chunk(c), c, d.(decoded := d.decoded + |c|))
  {
    var head, next := d.(state := Data, remaining := |c|), d.(decoded := d.decoded + |c|);
    FeedHeader(d, |c|);
    FeedData(head, c);
    FeedBoth(d, Hex(|c|) + [13, 10], [], head, c, c, DataTaken(head, |c|));
    FeedLine(DataTaken(head, |c|), next.(state := DataLF), next);
    FeedBoth(d, Hex(|c|) + [13, 10] + c, [] + c, DataTaken(head, |c|), [13, 10], [], next);
    assert [] + c + [] == c;
  }

  lemma {:induction false} LastFinishes(d: Decoder, rest: seq<byte>)
    requires Fresh(d)
    ensures Run(d, LAST + rest) == Result(Finished, d.(state := Done), [], 5)
  {
    var sized := d.(digits := 1);
    FeedByte(d, 48, sized);
    FeedLine(sized, sized.(state := SizeLF), d.(state := TrailerLine));
    FeedBoth(d, [48], [], sized, [13, 10], [], d.(state := TrailerLine));
    FeedByte(d.(state := TrailerLine), 13, d.(state := TrailerCR));
    FeedBoth(d, [48] + [13, 10], [], d.(state := TrailerLine), [13], [], d.(state := TrailerCR));
    var front := [48] + [13, 10] + [13];
    Resumes(d, front, [10] + rest);
    assert LAST + rest == front + ([10] + rest);
  }

  /** An empty chunk is framed as the last one is. */
  lemma {:induction false} EmptyIsLast()
    ensures Chunk([]) == LAST
  {
    assert Hex(0) == [48];
  }

  // ---- Bodies ------------------------------------------------------------------------

  function Framed(chunks: seq<seq<byte>>): seq<byte> {
    if chunks == [] then LAST else Chunk(chunks[0]) + Framed(chunks[1..])
  }

  predicate AllProper(chunks: seq<seq<byte>>) { chunks == [] || (Proper(chunks[0]) && AllProper(chunks[1..])) }

  /** The whole body came out and exactly its framing went in. */
  predicate Delivers(r: Result, body: seq<byte>, n: nat) {
    r.outcome == Finished && r.body == body && r.consumed == n
  }

  lemma {:induction false} DeliversAfter(c: seq<byte>, k: nat, r: Result, body: seq<byte>, n: nat)
    ensures Delivers(After(c, k, r), c + body, k + n) <==> Delivers(r, body, n)
  {
    if c + r.body == c + body {
      assert (c + r.body)[|c|..] == r.body && (c + body)[|c|..] == body;
    }
  }

  lemma {:induction false} FramedIsLong(chunks: seq<seq<byte>>)
    ensures |Framed(chunks)| >= 5
  {
  }

  lemma {:induction false} FreshRoundTrip(d: Decoder, chunks: seq<seq<byte>>, rest: seq<byte>)
    requires Fresh(d)
    ensures Delivers(Run(d, Framed(chunks) + rest), Concat(chunks), |Framed(chunks)|) <==> AllProper(chunks)
    decreases |chunks|
  {
    if chunks == [] {
      LastFinishes(d, rest);
    } else {
      var c, more := chunks[0], Framed(chunks[1..]) + rest;
      assert Framed(chunks) + rest == Chunk(c) + more;
      if Proper(c) {
        FeedChunk(d, c);
        Resumes(d, Chunk(c), more);
        var next := d.(decoded := d.decoded + |c|);
        FreshRoundTrip(next, chunks[1..], rest);
        DeliversAfter(c, |Chunk(c)|, Run(next, more), Concat(chunks[1..]), |Framed(chunks[1..])|);
      } else if c == [] {
        EmptyIsLast();
        LastFinishes(d, more);
        FramedIsLong(chunks[1..]);
      } else {
        HexIs(|c|);
        var left := [13, 10] + c + [13, 10];
        SizeTooLong(d, Hex(|c|), left + more);
        assert Chunk(c) + more == Hex(|c|) + (left + more);
      }
    }
  }

  /** Chunks are given back, and nothing after them is touched, exactly when none is
      empty and each has a size of at most fifteen digits. */
  lemma {:induction false} WriterRoundTrip(max: int, chunks: seq<seq<byte>>, rest: seq<byte>)
    ensures Delivers(Run(Start(max), Framed(chunks) + rest), Concat(chunks), |Framed(chunks)|) <==> AllProper(chunks)
  {
    FreshRoundTrip(Start(max), chunks, rest);
  }

  /** A body that starts with an empty chunk ends there: the rest is left unread. */
  lemma {:induction false} EmptyChunkEnds(max: int, chunks: seq<seq<byte>>)
    ensures Run(Start(max), Framed([[]] + chunks)) == Result(Finished, Start(max).(state := Done), [], 5)
    ensures |Framed([[]] + chunks)| > 5
  {
    var all: seq<seq<byte>> := [[]] + chunks;
    assert all[1..] == chunks;
    EmptyIsLast();
    FramedIsLong(chunks);
    LastFinishes(Start(max), Framed(chunks));
  }

  /** The same over any split into reads. */
  lemma {:induction false} WriterRoundTripInReads(max: int, chunks: seq<seq<byte>>, rest: seq<byte>,
                                                  parts: seq<seq<byte>>)
    requires Concat(parts) == Framed(chunks) + rest && AllProper(chunks)
    ensures Delivers(Reads(Run(Start(max), []), parts), Concat(chunks), |Framed(chunks)|)
  {
    SegmentationIsIgnored(Start(max), [], parts);
    assert [] + Concat(parts) == Concat(parts);
    WriterRoundTrip(max, chunks, rest);
  }

  // ---- What every read keeps -------------------------------------------------------------

  const BOUND := 0x1000_0000_0000_0000

  lemma {:induction false} PowerBound(n: nat)
    requires n <= 15
    ensures Power(16, n) <= BOUND
    decreases 15 - n
  {
    if n < 15 {
      PowerBound(n + 1);
      PowerPositive(16, n);
    } else {
      assert Power(16, 15) == BOUND;
    }
  }

  /** A size never leaves 60 bits, and is used up before the next is read. */
  predicate Sound(d: Decoder) {
    && d.digits <= 15 && d.remaining < BOUND && d.trailerSeen <= Max(d.max, 0)
    && (d.state in {Size, Ext, SizeLF} ==> d.remaining < Power(16, d.digits))
    && (d.state in {Data, DataCR, DataLF} ==> d.digits == 0)
    && (d.state in {DataCR, DataLF} ==> d.remaining == 0)
    && (d.state == Data ==> d.remaining > 0)
  }

  lemma {:induction false} TakeKeeps(d: Decoder, c: byte)
    requires Sound(d) && Take(d, c).Go?
    ensures Sound(Take(d, c).next) && Take(d, c).next.decoded == d.decoded + |Take(d, c).body|
  {
    if d.state == Size && d.digits < 15 {
      PowerBound(d.digits + 1);
      PowerPositive(16, d.digits);
    }
    assert Power(16, 0) == 1;
  }

  lemma {:induction false} RunKeeps(d: Decoder, s: seq<byte>)
    requires Sound(d) && !Run(d, s).outcome.Failure?
    ensures var r := Run(d, s);
            && Sound(r.next) && r.next.decoded == d.decoded + |r.body| && r.consumed <= |s|
            && (r.outcome.NeedMore? ==> r.consumed == |s|) && (r.outcome.Finished? ==> r.next.state == Done)
    decreases |s|
  {
    if s != [] && d.state != Done {
      TakeKeeps(d, s[0]);
      if Take(d, s[0]).next.state != Done { RunKeeps(Take(d, s[0]).next, s[1..]); }
    }
  }

  /** After the last chunk, at most this many bytes go without being counted. */
  function Uncounted(state: State): nat {
    if state == Done then 0 else if state == TrailerCR then 1 else 2
  }

  /** The limit on trailers bounds everything after the last chunk, whatever is sent. */
  lemma {:induction false} TrailersAreBounded(d: Decoder, s: seq<byte>)
    requires d.state in {TrailerLine, TrailerSkip, TrailerCR, Done} && d.trailerSeen <= Max(d.max, 0)
    requires !Run(d, s).outcome.Failure?
    ensures var r := Run(d, s);
            && r.consumed + d.trailerSeen + Uncounted(r.next.state) <= r.next.trailerSeen + Uncounted(d.state)
            && r.next.trailerSeen <= Max(d.max, 0) && r.body == []
    decreases |s|
  {
    if s != [] && d.state != Done {
      var next := Take(d, s[0]).next;
      if next.state != Done { TrailersAreBounded(next, s[1..]); }
    }
  }
}
