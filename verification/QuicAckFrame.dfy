/** The ACK frame: what a written one takes, what reading it gives back, and what
    any accepted one can hold. */
module QuicAckFrame {
  import opened Arith
  import opened QuicRanges
  import opened QuicVarint
  import opened QuicAck
  import opened Wrappers

  // ---- The frame -----------------------------------------------------------------

  /** The frame is laid out over whatever writes and reads its integers. */
  datatype Codec = Codec(write: nat -> seq<byte>, read: seq<byte> -> Option<Read>, size: nat -> nat)

  /** Reads back every 62-bit integer it wrote, and says how long each is. */
  ghost predicate Faithful(c: Codec) {
    && (forall v: nat, t: seq<byte> :: v < VARINT_END ==> ReadsBack(c, v, t))
    && (forall v: nat :: |c.write(v)| == c.size(v))
  }

  predicate ReadsBack(c: Codec, v: nat, t: seq<byte>) { c.read(c.write(v) + t) == Some(Read(v, t)) }

  ghost predicate Bounds(c: Codec) {
    forall s: seq<byte> :: c.read(s).Some? ==> c.read(s).value.value < VARINT_END
  }

  datatype Ecn = Ecn(ect0: nat, ect1: nat, ce: nat)

  /** A gap of g numbers goes out as g - 1, and so does a length. */
  function Gaps(c: Codec, low: nat, rs: seq<Range>): seq<byte>
    requires Descending(rs) && (rs != [] ==> rs[0].high + 1 < low)
  {
    if rs == [] then []
    else c.write(low - rs[0].high - 2) + c.write(rs[0].high - rs[0].low) + Gaps(c, rs[0].low, rs[1..])
  }

  function Counts(c: Codec, ecn: Option<Ecn>): seq<byte> {
    if ecn.None? then [] else c.write(ecn.value.ect0) + c.write(ecn.value.ect1) + c.write(ecn.value.ce)
  }

  /** After the type byte. */
  function Body(c: Codec, rs: seq<Range>, delay: nat, ecn: Option<Ecn>): seq<byte>
    requires Descending(rs) && rs != []
  {
    c.write(rs[0].high) + (c.write(delay) + (c.write(|rs| - 1) + (c.write(rs[0].high - rs[0].low)
    + (Gaps(c, rs[0].low, rs[1..]) + Counts(c, ecn)))))
  }

  function Frame(c: Codec, rs: seq<Range>, delay: nat, ecn: Option<Ecn>): seq<byte>
    requires Descending(rs)
  {
    if rs == [] then [] else [if ecn.None? then 2 else 3] + Body(c, rs, delay, ecn)
  }

  function GapsSize(c: Codec, low: nat, rs: seq<Range>): nat
    requires Descending(rs) && (rs != [] ==> rs[0].high + 1 < low)
  {
    if rs == [] then 0
    else c.size(low - rs[0].high - 2) + c.size(rs[0].high - rs[0].low) + GapsSize(c, rs[0].low, rs[1..])
  }

  function FrameSize(c: Codec, rs: seq<Range>, delay: nat): nat
    requires Descending(rs)
  {
    if rs == [] then 0
    else 1 + c.size(rs[0].high) + c.size(delay) + c.size(|rs| - 1) + c.size(rs[0].high - rs[0].low)
         + GapsSize(c, rs[0].low, rs[1..])
  }

  lemma {:induction false} GapsSizeIs(c: Codec, low: nat, rs: seq<Range>)
    requires Faithful(c) && Descending(rs) && (rs != [] ==> rs[0].high + 1 < low)
    ensures |Gaps(c, low, rs)| == GapsSize(c, low, rs)
  {
    if rs != [] { GapsSizeIs(c, rs[0].low, rs[1..]); }
  }

  /** The room a frame without congestion counts is said to need is what it takes. */
  lemma SizeIsExact(c: Codec, rs: seq<Range>, delay: nat)
    requires Faithful(c) && Descending(rs)
    ensures |Frame(c, rs, delay, None)| == FrameSize(c, rs, delay)
  {
    if rs != [] { GapsSizeIs(c, rs[0].low, rs[1..]); }
  }

  datatype Ranges = Ranges(ranges: seq<Range>, rest: seq<byte>)

  function ReadGaps(c: Codec, count: nat, smallest: nat, s: seq<byte>): Option<Ranges>
    decreases count, 1
  {
    if count == 0 then Some(Ranges([], s))
    else
      var gap := c.read(s);
      if gap.None? then None else ReadLength(c, count, smallest, gap.value.value, gap.value.rest)
  }

  function ReadLength(c: Codec, count: nat, smallest: nat, gap: nat, s: seq<byte>): Option<Ranges>
    requires count > 0
    decreases count, 0
  {
    var length := c.read(s);
    if length.None? || gap + 2 > smallest || length.value.value > smallest - (gap + 2) then None
    else
      var high := smallest - (gap + 2);
      var low := high - length.value.value;
      var more := ReadGaps(c, count - 1, low, length.value.rest);
      if more.None? then None else Some(more.value.(ranges := [Range(low, high)] + more.value.ranges))
  }

  /** Skips the three congestion counts. */
  function SkipCounts(c: Codec, s: seq<byte>): Option<seq<byte>> {
    var a := c.read(s);
    if a.None? then None
    else
      var b := c.read(a.value.rest);
      if b.None? then None
      else
        var last := c.read(b.value.rest);
        if last.None? then None else Some(last.value.rest)
  }

  datatype Acks = Acks(ranges: seq<Range>, delay: nat, rest: seq<byte>)

  function ReadFrame(c: Codec, s: seq<byte>, hasEcn: bool): Option<Acks> {
    var largest := c.read(s);
    if largest.None? then None else ReadDelay(c, largest.value.value, largest.value.rest, hasEcn)
  }

  function ReadDelay(c: Codec, largest: nat, s: seq<byte>, hasEcn: bool): Option<Acks> {
    var delay := c.read(s);
    if delay.None? then None else ReadCount(c, largest, delay.value.value, delay.value.rest, hasEcn)
  }

  function ReadCount(c: Codec, largest: nat, delay: nat, s: seq<byte>, hasEcn: bool): Option<Acks> {
    var count := c.read(s);
    if count.None? then None else ReadFirst(c, largest, delay, count.value.value, count.value.rest, hasEcn)
  }

  function ReadFirst(c: Codec, largest: nat, delay: nat, count: nat, s: seq<byte>, hasEcn: bool): Option<Acks> {
    var first := c.read(s);
    if first.None? || first.value.value > largest then None
    else ReadRest(c, Range(largest - first.value.value, largest), delay, count, first.value.rest, hasEcn)
  }

  function ReadRest(c: Codec, first: Range, delay: nat, count: nat, s: seq<byte>, hasEcn: bool): Option<Acks> {
    var more := ReadGaps(c, count, first.low, s);
    if more.None? then None
    else
      var rest := if hasEcn then SkipCounts(c, more.value.rest) else Some(more.value.rest);
      if rest.None? then None else Some(Acks([first] + more.value.ranges, delay, rest.value))
  }

  // ---- Reading what was written ----------------------------------------------------

  lemma LengthRoundTrip(c: Codec, smallest: nat, r: Range, rest: seq<Range>, t: seq<byte>, more: seq<byte>)
    requires Faithful(c) && r.low <= r.high && r.high + 1 < smallest < VARINT_END
    requires ReadGaps(c, |rest|, r.low, t) == Some(Ranges(rest, more))
    ensures ReadLength(c, |rest| + 1, smallest, smallest - r.high - 2, c.write(r.high - r.low) + t)
            == Some(Ranges([r] + rest, more))
  {
    assert ReadsBack(c, r.high - r.low, t);
  }

  lemma GapRoundTrip(c: Codec, count: nat, smallest: nat, gap: nat, t: seq<byte>)
    requires Faithful(c) && count > 0 && gap < VARINT_END
    ensures ReadGaps(c, count, smallest, c.write(gap) + t) == ReadLength(c, count, smallest, gap, t)
  {
    assert ReadsBack(c, gap, t);
  }

  lemma {:induction false} GapsRoundTrip(c: Codec, low: nat, rs: seq<Range>, more: seq<byte>)
    requires Faithful(c) && Descending(rs) && (rs != [] ==> rs[0].high + 1 < low) && low < VARINT_END
    ensures ReadGaps(c, |rs|, low, Gaps(c, low, rs) + more) == Some(Ranges(rs, more))
  {
    if rs == [] {
      assert Gaps(c, low, rs) + more == more;
    } else {
      var r, rest := rs[0], rs[1..];
      var tail := Gaps(c, r.low, rest) + more;
      GapsRoundTrip(c, r.low, rest, more);
      LengthRoundTrip(c, low, r, rest, tail, more);
      GapRoundTrip(c, |rs|, low, low - r.high - 2, c.write(r.high - r.low) + tail);
      Assoc3(c.write(low - r.high - 2), c.write(r.high - r.low), Gaps(c, r.low, rest), more);
      assert rs == [r] + rest;
    }
  }

  lemma Assoc3<T>(a: seq<T>, b: seq<T>, c: seq<T>, d: seq<T>)
    ensures a + b + c + d == a + (b + (c + d))
  {
  }

  lemma CountsRoundTrip(c: Codec, e: Ecn, more: seq<byte>)
    requires Faithful(c) && e.ect0 < VARINT_END && e.ect1 < VARINT_END && e.ce < VARINT_END
    ensures SkipCounts(c, Counts(c, Some(e)) + more) == Some(more)
  {
    var t2 := c.write(e.ce) + more;
    var t1 := c.write(e.ect1) + t2;
    Assoc3(c.write(e.ect0), c.write(e.ect1), c.write(e.ce), more);
    assert ReadsBack(c, e.ect0, t1);
    assert ReadsBack(c, e.ect1, t2);
    assert ReadsBack(c, e.ce, more);
  }

  lemma RestRoundTrip(c: Codec, rs: seq<Range>, delay: nat, ecn: Option<Ecn>, more: seq<byte>)
    requires Faithful(c) && Descending(rs) && rs != [] && rs[0].high < VARINT_END
    requires ecn.Some? ==> ecn.value.ect0 < VARINT_END && ecn.value.ect1 < VARINT_END && ecn.value.ce < VARINT_END
    ensures ReadRest(c, rs[0], delay, |rs| - 1, Gaps(c, rs[0].low, rs[1..]) + (Counts(c, ecn) + more), ecn.Some?)
            == Some(Acks(rs, delay, more))
  {
    GapsRoundTrip(c, rs[0].low, rs[1..], Counts(c, ecn) + more);
    if ecn.Some? { CountsRoundTrip(c, ecn.value, more); } else { assert Counts(c, ecn) + more == more; }
    assert rs == [rs[0]] + rs[1..];
  }

  lemma HeadRoundTrip(c: Codec, r: Range, delay: nat, count: nat, t: seq<byte>, hasEcn: bool)
    requires Faithful(c) && r.low <= r.high < VARINT_END && delay < VARINT_END && count < VARINT_END
    ensures ReadFrame(c, c.write(r.high) + (c.write(delay) + (c.write(count) + (c.write(r.high - r.low) + t))), hasEcn)
            == ReadRest(c, r, delay, count, t, hasEcn)
  {
    var high, length := r.high, r.high - r.low;
    var t3 := c.write(length) + t;
    var t2 := c.write(count) + t3;
    var t1 := c.write(delay) + t2;
    assert Range(high - length, high) == r;
    assert ReadFrame(c, c.write(high) + t1, hasEcn) == ReadDelay(c, high, t1, hasEcn)
      by { assert ReadsBack(c, high, t1); }
    assert ReadDelay(c, high, t1, hasEcn) == ReadCount(c, high, delay, t2, hasEcn)
      by { assert ReadsBack(c, delay, t2); }
    assert ReadCount(c, high, delay, t2, hasEcn) == ReadFirst(c, high, delay, count, t3, hasEcn)
      by { assert ReadsBack(c, count, t3); }
    assert ReadFirst(c, high, delay, count, t3, hasEcn) == ReadRest(c, r, delay, count, t, hasEcn) by {
      assert ReadsBack(c, length, t);
    }
  }

  /** Reading a written frame gives back its ranges and its delay. */
  lemma FrameRoundTrip(c: Codec, rs: seq<Range>, delay: nat, ecn: Option<Ecn>, more: seq<byte>)
    requires Faithful(c) && Descending(rs) && rs != [] && rs[0].high < VARINT_END && delay < VARINT_END &&
             |rs| <= VARINT_END
    requires ecn.Some? ==> ecn.value.ect0 < VARINT_END && ecn.value.ect1 < VARINT_END && ecn.value.ce < VARINT_END
    ensures ReadFrame(c, Body(c, rs, delay, ecn) + more, ecn.Some?) == Some(Acks(rs, delay, more))
  {
    var r, n := rs[0], |rs| - 1;
    var t := Gaps(c, r.low, rs[1..]) + (Counts(c, ecn) + more);
    var whole := c.write(r.high) + (c.write(delay) + (c.write(n) + (c.write(r.high - r.low) + t)));
    assert Body(c, rs, delay, ecn) + more == whole by { BodyThen(c, rs, delay, ecn, more); }
    assert ReadFrame(c, whole, ecn.Some?) == ReadRest(c, r, delay, n, t, ecn.Some?) by {
      HeadRoundTrip(c, r, delay, n, t, ecn.Some?);
    }
    assert ReadRest(c, r, delay, n, t, ecn.Some?) == Some(Acks(rs, delay, more)) by {
      RestRoundTrip(c, rs, delay, ecn, more);
    }
  }

  lemma BodyThen(c: Codec, rs: seq<Range>, delay: nat, ecn: Option<Ecn>, more: seq<byte>)
    requires Descending(rs) && rs != []
    ensures Body(c, rs, delay, ecn) + more
            == c.write(rs[0].high) + (c.write(delay) + (c.write(|rs| - 1) + (c.write(rs[0].high - rs[0].low)
               + (Gaps(c, rs[0].low, rs[1..]) + (Counts(c, ecn) + more)))))
  {
    Assoc6(c.write(rs[0].high), c.write(delay), c.write(|rs| - 1), c.write(rs[0].high - rs[0].low),
           Gaps(c, rs[0].low, rs[1..]), Counts(c, ecn), more);
  }

  lemma Assoc6<T>(a: seq<T>, b: seq<T>, c: seq<T>, d: seq<T>, e: seq<T>, f: seq<T>, g: seq<T>)
    ensures a + (b + (c + (d + (e + f)))) + g == a + (b + (c + (d + (e + (f + g)))))
  {
    assert (e + f) + g == e + (f + g);
    assert d + (e + f) + g == d + (e + (f + g));
    assert c + (d + (e + f)) + g == c + (d + (e + (f + g)));
    assert b + (c + (d + (e + f))) + g == b + (c + (d + (e + (f + g))));
  }

  // ---- Whatever is accepted ----------------------------------------------------------

  lemma {:induction false} ReadGapsDescend(c: Codec, count: nat, smallest: nat, s: seq<byte>)
    requires ReadGaps(c, count, smallest, s).Some?
    ensures var rs := ReadGaps(c, count, smallest, s).value.ranges;
            Descending(rs) && |rs| == count && (rs != [] ==> rs[0].high + 1 < smallest)
    decreases count, 1
  {
    if count > 0 {
      var gap := c.read(s).value;
      ReadLengthDescend(c, count, smallest, gap.value, gap.rest);
    }
  }

  lemma {:induction false} ReadLengthDescend(c: Codec, count: nat, smallest: nat, gap: nat, s: seq<byte>)
    requires count > 0 && ReadLength(c, count, smallest, gap, s).Some?
    ensures var rs := ReadLength(c, count, smallest, gap, s).value.ranges;
            Descending(rs) && |rs| == count && rs[0].high + 1 < smallest
    decreases count, 0
  {
    var length := c.read(s).value;
    var high := smallest - (gap + 2);
    var low := high - length.value;
    ReadGapsDescend(c, count - 1, low, length.rest);
    var more := ReadGaps(c, count - 1, low, length.rest).value.ranges;
    assert ([Range(low, high)] + more)[1..] == more;
  }

  lemma ReadRestDescends(c: Codec, first: Range, delay: nat, count: nat, s: seq<byte>, hasEcn: bool)
    requires ReadRest(c, first, delay, count, s, hasEcn).Some? && first.low <= first.high
    ensures var a := ReadRest(c, first, delay, count, s, hasEcn).value;
            Descending(a.ranges) && |a.ranges| == count + 1 && a.ranges[0] == first && a.delay == delay
  {
    ReadGapsDescend(c, count, first.low, s);
    var more := ReadGaps(c, count, first.low, s).value.ranges;
    assert ([first] + more)[1..] == more;
  }

  lemma ReadDelayDescends(c: Codec, largest: nat, s: seq<byte>, hasEcn: bool)
    requires Bounds(c) && ReadDelay(c, largest, s, hasEcn).Some?
    ensures var a := ReadDelay(c, largest, s, hasEcn).value;
            Descending(a.ranges) && a.ranges != [] && a.ranges[0].high == largest && a.delay < VARINT_END
  {
    var delay := c.read(s).value;
    var count := c.read(delay.rest).value;
    var first := c.read(count.rest).value;
    ReadRestDescends(c, Range(largest - first.value, largest), delay.value, count.value, first.rest, hasEcn);
  }

  /** Whatever bytes are accepted, the ranges read descend, never touch and never wrap. */
  lemma AcceptedDescends(c: Codec, s: seq<byte>, hasEcn: bool)
    requires Bounds(c) && ReadFrame(c, s, hasEcn).Some?
    ensures var a := ReadFrame(c, s, hasEcn).value;
            Descending(a.ranges) && a.ranges != [] && a.ranges[0].high < VARINT_END && a.delay < VARINT_END
  {
    var largest := c.read(s).value;
    ReadDelayDescends(c, largest.value, largest.rest, hasEcn);
  }

  // ---- The writer and the reader, as loops --------------------------------------------

  lemma {:induction false} DescendingFrom(rs: seq<Range>, i: nat)
    requires Descending(rs) && 0 < i < |rs|
    ensures Descending(rs[i..]) && rs[i].high + 1 < rs[i - 1].low && rs[i].low <= rs[i].high
  {
    if i > 1 {
      DescendingFrom(rs[1..], i - 1);
      assert rs[i..] == rs[1..][i - 1..];
    }
  }

  lemma {:induction false} GapsFrom(c: Codec, rs: seq<Range>, i: nat, low: nat)
    requires Descending(rs) && 0 < i < |rs| && low == rs[i - 1].low
    ensures Descending(rs[i..]) && rs[i].high + 1 < low && rs[i].low <= rs[i].high && Descending(rs[i + 1..])
    ensures i + 1 < |rs| ==> rs[i + 1].high + 1 < rs[i].low
    ensures Gaps(c, low, rs[i..])
            == c.write(low - rs[i].high - 2) + c.write(rs[i].high - rs[i].low) + Gaps(c, rs[i].low, rs[i + 1..])
  {
    DescendingFrom(rs, i);
    assert rs[i..][1..] == rs[i + 1..];
  }

  method WriteGaps(c: Codec, rs: seq<Range>) returns (out: seq<byte>)
    requires Descending(rs) && rs != []
    ensures out == Gaps(c, rs[0].low, rs[1..])
  {
    out := [];
    var low, i := rs[0].low, 1;
    while i < |rs|
      invariant 1 <= i <= |rs| && low == rs[i - 1].low && Descending(rs[i..])
      invariant i < |rs| ==> rs[i].high + 1 < low
      invariant out + Gaps(c, low, rs[i..]) == Gaps(c, rs[0].low, rs[1..])
    {
      GapsFrom(c, rs, i, low);
      var r := rs[i];
      Assoc4(out, c.write(low - r.high - 2), c.write(r.high - r.low), Gaps(c, r.low, rs[i + 1..]));
      out := out + c.write(low - r.high - 2) + c.write(r.high - r.low);
      low := r.low;
      i := i + 1;
    }
    assert rs[i..] == [];
  }

  lemma Assoc4<T>(a: seq<T>, b: seq<T>, c: seq<T>, d: seq<T>)
    ensures a + b + c + d == a + (b + c + d)
  {
  }

  /** What has been read so far, put before what is still to come. */
  function Onto(done: seq<Range>, more: Option<Ranges>): Option<Ranges> {
    if more.None? then None else Some(more.value.(ranges := done + more.value.ranges))
  }

  method LoopGaps(c: Codec, count: nat, first: nat, s: seq<byte>) returns (r: Option<Ranges>)
    ensures r == ReadGaps(c, count, first, s)
  {
    var done: seq<Range>, smallest: nat, rest := [], first, s;
    var i := 0;
    assert Onto([], ReadGaps(c, count, first, s)) == ReadGaps(c, count, first, s) by {
      if ReadGaps(c, count, first, s).Some? {
        assert [] + ReadGaps(c, count, first, s).value.ranges == ReadGaps(c, count, first, s).value.ranges;
      }
    }
    while i < count
      invariant i <= count
      invariant Onto(done, ReadGaps(c, count - i, smallest, rest)) == ReadGaps(c, count, first, s)
    {
      var gap := c.read(rest);
      if gap.None? { return None; }
      var length := c.read(gap.value.rest);
      if length.None? { return None; }
      var step := gap.value.value + 2;
      if step > smallest { return None; }
      var high := smallest - step;
      if length.value.value > high { return None; }
      ghost var left := ReadGaps(c, count - i - 1, high - length.value.value, length.value.rest);
      if left.Some? {
        assert done + ([Range(high - length.value.value, high)] + left.value.ranges)
            == (done + [Range(high - length.value.value, high)]) + left.value.ranges;
      }
      done := done + [Range(high - length.value.value, high)];
      smallest := high - length.value.value;
      rest := length.value.rest;
      i := i + 1;
    }
    assert done + [] == done;
    return Some(Ranges(done, rest));
  }

  // ---- With QUIC's own integers --------------------------------------------------------

  const VARINT := Codec((v: nat) => Write(v), (s: seq<byte>) => Varint(s), (v: nat) => Length(v))

  lemma VarintIsFaithful()
    ensures Faithful(VARINT)
  {
    forall v: nat, t: seq<byte> | v < VARINT_END ensures ReadsBack(VARINT, v, t) {
      VarintRoundTrip(v, t);
    }
  }

  lemma VarintIsBounded()
    ensures Bounds(VARINT)
  {
    forall s: seq<byte> | VARINT.read(s).Some? ensures VARINT.read(s).value.value < VARINT_END { VarintBounded(s); }
  }

  /** An ACK frame as QUIC writes it, with or without congestion counts, is read back
      whole; without them it takes the room it said. */
  lemma AckFrameRoundTrip(rs: seq<Range>, delay: nat, ecn: Option<Ecn>, more: seq<byte>)
    requires Descending(rs) && rs != [] && rs[0].high < VARINT_END && delay < VARINT_END && |rs| <= VARINT_END
    requires ecn.Some? ==> ecn.value.ect0 < VARINT_END && ecn.value.ect1 < VARINT_END && ecn.value.ce < VARINT_END
    ensures ReadFrame(VARINT, Body(VARINT, rs, delay, ecn) + more, ecn.Some?) == Some(Acks(rs, delay, more))
    ensures |Frame(VARINT, rs, delay, None)| == FrameSize(VARINT, rs, delay)
  {
    VarintIsFaithful();
    FrameRoundTrip(VARINT, rs, delay, ecn, more);
    SizeIsExact(VARINT, rs, delay);
  }

  /** Whatever bytes QUIC accepts as an ACK frame, its ranges descend and never wrap. */
  lemma AcceptedAckDescends(s: seq<byte>, hasEcn: bool)
    requires ReadFrame(VARINT, s, hasEcn).Some?
    ensures var a := ReadFrame(VARINT, s, hasEcn).value;
            Descending(a.ranges) && a.ranges != [] && a.ranges[0].high < VARINT_END && a.delay < VARINT_END
  {
    VarintIsBounded();
    AcceptedDescends(VARINT, s, hasEcn);
  }
}
