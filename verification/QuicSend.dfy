/** What a sender keeps of a stream: the bytes not yet acknowledged, which of them are
    owed again, and what the next frame carries. */
module QuicSend {
  import opened Arith
  import opened QuicRanges
  import opened Wrappers

  /** `acked` and `lost` as the sets their range lists stand for. */
  datatype Send = Send(data: seq<byte>, base: nat, sent: nat, acked: set<nat>, lost: set<nat>,
                       limit: nat, finQueued: bool, finSent: bool, finAcked: bool)
  {
    function Written(): nat { base + |data| }
    function Window(): nat { if limit > sent then limit - sent else 0 }
  }

  /** The part of a stream one packet carries. */
  datatype Frame = Frame(low: nat, high: nat, fin: bool)

  const Empty := Send([], 0, 0, {}, {}, 0, false, false, false)

  // ---- Runs of a set -----------------------------------------------------------

  /** The first member at or after `x`, or `top`. */
  function FirstIn(s: set<nat>, x: nat, top: nat): nat
    decreases top - x
  {
    if x < top && x !in s then FirstIn(s, x + 1, top) else x
  }

  /** The first non-member at or after `x`, or `top`. */
  function RunEnd(s: set<nat>, x: nat, top: nat): nat
    decreases top - x
  {
    if x < top && x in s then RunEnd(s, x + 1, top) else x
  }

  lemma {:induction false} RunIs(s: set<nat>, x: nat, top: nat, end: nat)
    requires x <= end && Span(x, end) <= s && end !in s
    requires forall y :: y in s ==> y < top
    ensures RunEnd(s, x, top) == end
    decreases end - x
  {
    if x < end {
      assert Within(x, end, x);
      assert x in s;
      assert Span(x + 1, end) <= Span(x, end);
      RunIs(s, x + 1, top, end);
    }
  }

  lemma {:induction false} RunHolds(s: set<nat>, x: nat, top: nat)
    requires x <= top
    ensures x <= RunEnd(s, x, top) <= top && Span(x, RunEnd(s, x, top)) <= s
    ensures RunEnd(s, x, top) < top ==> RunEnd(s, x, top) !in s
    decreases top - x
  {
    if x < top && x in s {
      RunHolds(s, x + 1, top);
      assert Span(x, RunEnd(s, x, top)) == {x} + Span(x + 1, RunEnd(s, x, top));
    } else {
      assert Span(x, x) == {};
    }
  }

  lemma {:induction false} FirstIs(s: set<nat>, x: nat, top: nat, first: nat)
    requires x <= first < top && first in s && s !! Span(x, first)
    ensures FirstIn(s, x, top) == first
    decreases first - x
  {
    if x < first {
      assert x in Span(x, first);
      assert Span(x + 1, first) <= Span(x, first);
      FirstIs(s, x + 1, top, first);
    }
  }

  lemma {:induction false} FirstHolds(s: set<nat>, x: nat, top: nat)
    requires x <= top
    ensures x <= FirstIn(s, x, top) <= top && s !! Span(x, FirstIn(s, x, top))
    ensures FirstIn(s, x, top) < top ==> FirstIn(s, x, top) in s
    decreases top - x
  {
    if x < top && x !in s {
      FirstHolds(s, x + 1, top);
      assert Span(x, FirstIn(s, x, top)) == {x} + Span(x + 1, FirstIn(s, x, top));
    } else {
      assert Span(x, x) == {};
    }
  }

  // ---- What each call does -----------------------------------------------------

  ghost function Write(s: Send, bytes: seq<byte>): Send {
    s.(data := s.data + bytes)
  }

  function Slice(s: Send, offset: nat, n: nat): Option<seq<byte>> {
    if offset < s.base || offset - s.base + n > |s.data| then None
    else Some(s.data[offset - s.base..offset - s.base + n])
  }

  ghost function Acknowledge(s: Send, low: nat, high: nat): Send {
    var acked := s.acked + Span(low, high);
    var end := RunEnd(acked, s.base, Max(s.sent, high));
    s.(acked := acked, lost := s.lost - Span(low, high), base := end,
       data := if s.base <= end <= s.Written() then s.data[end - s.base..] else [])
  }

  ghost function DeclareLost(s: Send, low: nat, high: nat): Send {
    s.(lost := s.lost + (Span(Max(low, s.base), high) - s.acked))
  }

  /** What the next frame carries: owed bytes first, then new ones within both
      limits; `room` is what is left of the packet after the frame's header. */
  ghost function NextFrame(s: Send, room: nat, credit: nat): Option<Frame> {
    if s.lost != {} then
      var low := FirstIn(s.lost, s.base, s.sent);
      if room == 0 then None
      else Some(Frame(low, low + Min(RunEnd(s.lost, low, s.sent) - low, room), false))
    else
      var pending := s.finQueued && !s.finSent;
      var atEnd := s.sent == s.Written();
      var available := if s.Written() > s.sent then s.Written() - s.sent else 0;
      var allowed := Min(available, Min(s.Window(), credit));
      if (available == 0 && (!pending || !atEnd)) || (allowed == 0 && !(pending && atEnd)) || room == 0 then None
      else
        var high := s.sent + Min(allowed, room);
        Some(Frame(s.sent, high, pending && high == s.Written()))
  }

  /** The handshake's frames: owed bytes first, and no flow control. */
  ghost function NextCrypto(s: Send, room: nat): Option<Frame> {
    var low := if s.lost != {} then FirstIn(s.lost, s.base, s.sent) else s.sent;
    var high := if s.lost != {} then RunEnd(s.lost, low, s.sent) else Max(s.Written(), low);
    if high <= low || room == 0 then None else Some(Frame(low, low + Min(high - low, room), false))
  }

  /** A frame put in a packet. */
  ghost function Sent(s: Send, f: Frame): Send {
    s.(lost := s.lost - Span(f.low, f.high), sent := Max(s.sent, f.high), finSent := s.finSent || f.fin)
  }

  // ---- What every call keeps ---------------------------------------------------

  /** `all` is every byte the application ever wrote. Nothing below `base` can be
      asked for again, and everything from `base` on is still held. */
  ghost predicate Holds(s: Send, all: seq<byte>) {
    && s.base <= s.sent <= |all|
    && s.data == all[s.base..]
    && Span(0, s.base) <= s.acked <= Span(0, s.sent)
    && s.base !in s.acked
    && s.lost <= Span(s.base, s.sent)
    && s.lost !! s.acked
  }

  lemma WriteKeeps(s: Send, all: seq<byte>, bytes: seq<byte>)
    requires Holds(s, all)
    ensures Holds(Write(s, bytes), all + bytes)
  {
    assert (all + bytes)[s.base..] == all[s.base..] + bytes;
  }

  lemma SpanWithin(low: nat, high: nat, top: nat)
    requires high <= top
    ensures Span(low, high) <= Span(0, top)
  {
  }

  lemma SpanJoins(mid: nat, high: nat)
    requires mid <= high
    ensures Span(0, high) == Span(0, mid) + Span(mid, high)
  {
  }

  /** Where the run of acknowledged bytes ends, everything before is acknowledged. */
  lemma AckedRun(acked: set<nat>, base: nat, sent: nat, end: nat)
    requires base <= sent && Span(0, base) <= acked <= Span(0, sent) && end == RunEnd(acked, base, sent)
    ensures base <= end <= sent && Span(base, end) <= acked && Span(0, end) <= acked && end !in acked
  {
    RunHolds(acked, base, sent);
    SpanJoins(base, end);
    assert sent !in Span(0, sent);
  }

  /** What is still owed lies behind that. */
  lemma StillOwed(acked: set<nat>, lost: set<nat>, low: nat, high: nat, base: nat, end: nat, sent: nat)
    requires lost <= Span(base, sent) && lost !! acked && Span(base, end) <= acked + Span(low, high)
    ensures lost - Span(low, high) <= Span(end, sent) && lost - Span(low, high) !! acked + Span(low, high)
  {
    forall x | x in lost - Span(low, high) ensures x in Span(end, sent) {
      assert x !in acked + Span(low, high);
      assert x !in Span(base, end);
      assert x in Span(base, sent);
    }
  }

  lemma AcknowledgeKeeps(s: Send, all: seq<byte>, low: nat, high: nat)
    requires Holds(s, all) && high <= s.sent
    ensures Holds(Acknowledge(s, low, high), all)
    ensures s.base <= Acknowledge(s, low, high).base
  {
    var acked := s.acked + Span(low, high);
    var end := RunEnd(acked, s.base, s.sent);
    SpanWithin(low, high, s.sent);
    AckedRun(acked, s.base, s.sent, end);
    StillOwed(s.acked, s.lost, low, high, s.base, end, s.sent);
    assert all[s.base..][end - s.base..] == all[end..];
  }

  lemma DeclareLostKeeps(s: Send, all: seq<byte>, low: nat, high: nat)
    requires Holds(s, all) && high <= s.sent
    ensures Holds(DeclareLost(s, low, high), all)
  {
  }

  /** The bytes of a kept stream are there to be sent, first time or again. */
  lemma SliceNeverFails(s: Send, all: seq<byte>, low: nat, high: nat)
    requires Holds(s, all) && s.base <= low <= high <= |all|
    ensures Slice(s, low, high - low) == Some(all[low..high])
  {
    assert s.data[low - s.base..high - s.base] == all[low..high];
  }

  /** The answer when `lost` is owed: as much of its first run as there is room for. */
  ghost predicate Repairs(lost: set<nat>, room: nat, f: Option<Frame>) {
    && (f.Some? <==> room > 0)
    && (f.Some? ==>
          && f.value.low in lost && (forall x :: x in lost ==> f.value.low <= x)
          && f.value.low < f.value.high <= f.value.low + room && Span(f.value.low, f.value.high) <= lost
          && (f.value.high - f.value.low == room || f.value.high !in lost)
          && !f.value.fin)
  }

  /** The answer when nothing is owed, of a stream of `written` bytes: as many new bytes as
      there are, as both limits allow and as there is room for, or an end that stands alone. */
  ghost predicate Advances(s: Send, written: nat, room: nat, credit: nat, f: Option<Frame>) {
    && (f.Some? <==>
          && room > 0
          && ((s.sent < written && s.sent < s.limit && credit > 0) || (s.finQueued && !s.finSent && s.sent == written)))
    && (f.Some? ==>
          && f.value.low == s.sent
          && f.value.high - f.value.low == Min(Min(written - s.sent, s.Window()), Min(credit, room))
          && (f.value.fin <==> s.finQueued && !s.finSent && f.value.high == written))
  }

  /** What a frame carries, whichever it is. */
  lemma FrameIs(s: Send, all: seq<byte>, room: nat, credit: nat)
    requires Holds(s, all)
    ensures s.lost != {} ==> Repairs(s.lost, room, NextFrame(s, room, credit))
    ensures s.lost == {} ==> Advances(s, |all|, room, credit, NextFrame(s, room, credit))
  {
    if s.lost != {} {
      RunRepairs(s, all, room);
    }
  }

  lemma RunRepairs(s: Send, all: seq<byte>, room: nat)
    requires Holds(s, all) && s.lost != {}
    ensures var low := FirstIn(s.lost, s.base, s.sent);
            var end := RunEnd(s.lost, low, s.sent);
            low < end && Repairs(s.lost, room, if room == 0 then None
                                               else Some(Frame(low, low + Min(end - low, room), false)))
  {
    OwedRun(s, all);
    var low := FirstIn(s.lost, s.base, s.sent);
    var end := RunEnd(s.lost, low, s.sent);
    assert Span(low, low + Min(end - low, room)) <= Span(low, end);
    assert Within(low, end, low);
  }

  lemma OwedRun(s: Send, all: seq<byte>)
    requires Holds(s, all) && s.lost != {}
    ensures var low := FirstIn(s.lost, s.base, s.sent);
            var end := RunEnd(s.lost, low, s.sent);
            && s.base <= low < end <= s.sent && Span(low, end) <= s.lost && end !in s.lost
            && (forall x :: x in s.lost ==> low <= x)
  {
    var x :| x in s.lost;
    FirstHolds(s.lost, s.base, s.sent);
    var low := FirstIn(s.lost, s.base, s.sent);
    assert x !in Span(s.base, low);
    RunHolds(s.lost, low, s.sent);
    forall y | y in s.lost ensures low <= y { assert y !in Span(s.base, low); }
  }

  /** So it is a stretch of bytes that are owed, or the next new ones. */
  lemma FrameLies(s: Send, all: seq<byte>, room: nat, credit: nat)
    requires Holds(s, all) && NextFrame(s, room, credit).Some?
    ensures var f := NextFrame(s, room, credit).value;
            && s.base <= f.low <= f.high <= |all|
            && (s.lost != {} ==> f.low < f.high <= s.sent && Span(f.low, f.high) <= s.lost)
            && (s.lost == {} ==> f.low == s.sent && f.high - f.low <= credit)
            && (s.lost == {} && f.low < f.high ==> f.high <= s.limit)
            && (f.fin ==> f.high == |all|)
  {
    FrameIs(s, all, room, credit);
    if s.lost != {} { OwedRun(s, all); }
  }

  /** The handshake's: owed bytes as above, and new ones up to the room there is. */
  lemma CryptoIs(s: Send, all: seq<byte>, room: nat)
    requires Holds(s, all)
    ensures s.lost != {} ==> Repairs(s.lost, room, NextCrypto(s, room))
    ensures s.lost == {} ==> (NextCrypto(s, room).Some? <==> room > 0 && s.sent < |all|)
    ensures s.lost == {} && NextCrypto(s, room).Some? ==>
              NextCrypto(s, room).value == Frame(s.sent, s.sent + Min(|all| - s.sent, room), false)
  {
    if s.lost != {} { RunRepairs(s, all, room); }
  }

  lemma CryptoLies(s: Send, all: seq<byte>, room: nat)
    requires Holds(s, all) && NextCrypto(s, room).Some?
    ensures var f := NextCrypto(s, room).value;
            && s.base <= f.low < f.high <= |all| && !f.fin
            && (s.lost != {} ==> f.high <= s.sent && Span(f.low, f.high) <= s.lost)
            && (s.lost == {} ==> f.low == s.sent)
  {
    CryptoIs(s, all, room);
    if s.lost != {} { OwedRun(s, all); }
  }

  lemma SentKeeps(s: Send, all: seq<byte>, f: Frame)
    requires Holds(s, all) && f.high <= |all|
    ensures Holds(Sent(s, f), all)
  {
  }

  /** An acknowledgement, by where the run of acknowledged bytes from the base ends. */
  lemma AcknowledgeBy(s: Send, all: seq<byte>, low: nat, high: nat, acked: set<nat>, end: nat)
    requires Holds(s, all) && high <= s.sent && acked == s.acked + Span(low, high)
    requires s.base <= end && Span(s.base, end) <= acked && end !in acked
    ensures s.base <= end <= s.Written()
    ensures Acknowledge(s, low, high)
            == Send(s.data[end - s.base..], end, s.sent, acked, s.lost - Span(low, high), s.limit, s.finQueued,
                    s.finSent, s.finAcked)
  {
    SpanWithin(low, high, s.sent);
    RunReaches(acked, s.base, s.sent, end);
  }

  lemma RunReaches(acked: set<nat>, base: nat, sent: nat, end: nat)
    requires base <= end && base <= sent && Span(base, end) <= acked <= Span(0, sent) && end !in acked
    ensures end <= sent && RunEnd(acked, base, sent) == end
  {
    assert forall y :: y in acked ==> y in Span(0, sent);
    RunIs(acked, base, sent, end);
    RunHolds(acked, base, sent);
  }

  // ---- The stream as a connection keeps it -------------------------------------

  /** The first range of a list is the first run of its set. */
  lemma FirstRun(rs: seq<Range>, x: nat, top: nat)
    requires Canonical(rs) && rs != [] && Offsets(rs) <= Span(x, top)
    ensures FirstIn(Offsets(rs), x, top) == rs[0].low < rs[0].high == RunEnd(Offsets(rs), rs[0].low, top)
  {
    assert Spaced(rs, 0);
    Rest(rs);
    OffsetsHas(rs, 0, rs[0].low);
    assert rs[0].low in Span(x, top);
    assert Span(x, rs[0].low) <= Span(0, rs[0].low);
    FirstIs(Offsets(rs), x, top, rs[0].low);
    forall y | y in Span(rs[0].low, rs[0].high) ensures y in Offsets(rs) { OffsetsHas(rs, 0, y); }
    RunIs(Offsets(rs), rs[0].low, top, rs[0].high);
  }

  lemma NothingOwed(rs: seq<Range>)
    requires Canonical(rs)
    ensures rs == [] <==> Offsets(rs) == {}
  {
    if rs != [] {
      assert Spaced(rs, 0);
      OffsetsHas(rs, 0, rs[0].low);
    }
  }

  lemma FirstRangeReaches(rs: seq<Range>, base: nat)
    requires Canonical(rs) && Span(0, base) <= Offsets(rs)
    ensures rs != [] ==> base <= rs[0].high
  {
    if rs != [] {
      Rest(rs);
      assert rs[0].high !in Span(0, base);
    }
  }

  /** Ranges that end at or before `from` have nothing in [from, high). */
  lemma NoneBefore(rs: seq<Range>, i: nat, from: nat, high: nat)
    requires i <= |rs| && forall k :: 0 <= k < i ==> rs[k].high <= from
    ensures Offsets(rs[..i]) !! Span(from, high)
  {
    Below(rs[..i], from);
  }

  lemma NoneAfter(rs: seq<Range>, i: nat, high: nat, from: nat)
    requires Canonical(rs) && i <= |rs| && (i < |rs| ==> high <= rs[i].low)
    ensures Span(from, high) - Offsets(rs) == Span(from, high) - Offsets(rs[..i])
  {
    forall k | i <= k < |rs| ensures high <= rs[k].low { if i < k { Ascending(rs, i, k); } }
    Above(rs[i..], high);
    assert Span(from, high) <= Span(0, high);
    assert rs == rs[..i] + rs[i..];
    OffsetsSplit(rs[..i], rs[i..]);
  }

  lemma OneMore(rs: seq<Range>, i: nat)
    requires i < |rs|
    ensures Offsets(rs[..i + 1]) == Offsets(rs[..i]) + Span(rs[i].low, rs[i].high)
  {
    assert rs[..i + 1] == rs[..i] + [rs[i]];
    OffsetsSplit(rs[..i], [rs[i]]);
    OffsetsOne(rs[i]);
  }

  /** One acknowledged range, cut down to [from, high), leaves what is owed. */
  lemma LeavesOwed(lost: set<nat>, owed: set<nat>, gone: set<nat>, r: Range, from: nat, high: nat)
    requires lost == owed + (Span(from, high) - gone) && owed !! Span(r.low, r.high)
    ensures lost - Span(Max(r.low, from), Min(r.high, high))
            == owed + (Span(from, high) - (gone + Span(r.low, r.high)))
  {
  }

  class SendStream {
    var data: seq<byte>
    var base: nat
    var sent: nat
    const acked: ByteRanges
    const lost: ByteRanges
    var limit: nat
    var finQueued: bool
    var finSent: bool
    var finAcked: bool
    ghost var all: seq<byte>

    ghost function View(): Send
      reads this, acked, lost
    {
      Send(data, base, sent, acked.Set(), lost.Set(), limit, finQueued, finSent, finAcked)
    }

    ghost predicate Valid()
      reads this, acked, lost
    {
      acked != lost && acked.Valid() && lost.Valid() && Holds(View(), all)
    }

    constructor ()
      ensures Valid() && fresh(acked) && fresh(lost) && View() == Empty && all == []
    {
      data, base, sent, limit := [], 0, 0, 0;
      finQueued, finSent, finAcked := false, false, false;
      all := [];
      acked := new ByteRanges();
      lost := new ByteRanges();
    }

    method Append(bytes: seq<byte>)
      requires Valid()
      modifies this
      ensures Valid() && View() == Write(old(View()), bytes) && all == old(all) + bytes
    {
      WriteKeeps(View(), all, bytes);
      data := data + bytes;
      all := all + bytes;
    }

    method SliceAt(offset: nat, n: nat) returns (bytes: Option<seq<byte>>)
      requires Valid()
      ensures bytes == if base <= offset && offset + n <= |all| then Some(all[offset..offset + n]) else None
    {
      if offset < base { return None; }
      var index := offset - base;
      if index + n > |data| { return None; }
      SliceNeverFails(View(), all, offset, offset + n);
      return Some(data[index..index + n]);
    }

    /** `low` and `high` come from a packet that was recorded when it was sent. */
    method OnAcknowledged(low: nat, high: nat)
      requires Valid() && high <= sent
      modifies this, acked, lost
      ensures Valid() && View() == Acknowledge(old(View()), low, high) && all == old(all)
    {
      ghost var was := View();
      AcknowledgeKeeps(was, all, low, high);
      var contiguous := MarkAcknowledged(low, high);
      AcknowledgeBy(was, all, low, high, acked.Set(), contiguous);
      Release(contiguous, Acknowledge(was, low, high));
    }

    /** Lets go of the bytes before `end`. */
    method Release(end: nat, ghost next: Send)
      requires acked != lost && acked.Valid() && lost.Valid() && base <= end <= base + |data|
      requires next == View().(data := data[end - base..], base := end) && Holds(next, all)
      modifies this`data, this`base
      ensures Valid() && View() == next
    {
      if end > base {
        data := data[end - base..];
        base := end;
      }
    }

    /** Enters a range as acknowledged, and finds how far that now goes without a gap. */
    method MarkAcknowledged(low: nat, high: nat) returns (contiguous: nat)
      requires acked != lost && acked.Valid() && lost.Valid() && Span(0, base) <= acked.Set()
      modifies acked, lost
      ensures acked.Valid() && lost.Valid()
      ensures acked.Set() == old(acked.Set()) + Span(low, high) && lost.Set() == old(lost.Set()) - Span(low, high)
      ensures base <= contiguous && Span(base, contiguous) <= acked.Set() && contiguous !in acked.Set()
    {
      acked.Add(low, high);
      lost.Subtract(low, high);
      FirstRangeReaches(acked.ranges, base);
      contiguous := acked.ContiguousEnd(base);
    }

    method OnDeclaredLost(low: nat, high: nat)
      requires Valid() && high <= sent
      modifies lost
      ensures Valid() && View() == DeclareLost(old(View()), low, high)
    {
      ghost var was := View();
      DeclareLostKeeps(was, all, low, high);
      var from := Max(low, base);
      if high <= from { assert Span(from, high) == {}; return; }
      lost.Add(from, high);
      var i := acked.FirstIndex(from, false);
      ghost var ranges := acked.ranges;
      NoneBefore(ranges, i, from, high);
      while i < |acked.ranges|
        invariant i <= |ranges| && acked.ranges == ranges
        invariant lost.Valid()
        invariant lost.Set() == was.lost + (Span(from, high) - Offsets(ranges[..i]))
        decreases |ranges| - i
      {
        var range := acked.ranges[i];
        if range.low >= high { break; }
        OneMore(ranges, i);
        assert Span(range.low, range.high) <= was.acked by {
          forall x | x in Span(range.low, range.high) ensures x in Offsets(ranges) { OffsetsHas(ranges, i, x); }
        }
        LeavesOwed(lost.Set(), was.lost, Offsets(ranges[..i]), range, from, high);
        lost.Subtract(Max(range.low, from), Min(range.high, high));
        i := i + 1;
      }
      NoneAfter(ranges, i, high, from);
      assert lost.Set() == was.lost + (Span(from, high) - was.acked);
    }

    /** What the next frame carries: `room` is what the packet has left after the
        frame's header, `credit` what the connection may still send. */
    method Choose(room: nat, credit: nat) returns (frame: Option<Frame>)
      requires Valid()
      ensures frame == NextFrame(View(), room, credit)
    {
      var again := lost.ranges != [];
      var offset, available;
      NothingOwed(lost.ranges);
      if again {
        FirstRun(lost.ranges, base, sent);
        offset, available := lost.ranges[0].low, lost.ranges[0].high - lost.ranges[0].low;
      } else {
        offset := sent;
        available := if base + |data| > offset then base + |data| - offset else 0;
      }
      var finPending := finQueued && !finSent;
      var atEnd := offset == base + |data|;
      if available == 0 && (again || !finPending || !atEnd) { return None; }
      if !again {
        available := Min(available, Min(if limit > sent then limit - sent else 0, credit));
        if available == 0 && !(finPending && atEnd) { return None; }
      }
      if room == 0 { return None; }
      var length := Min(available, room);
      var fin := !again && finPending && offset + length == base + |data|;
      frame := Some(Frame(offset, offset + length, fin));
    }

    /** Lays the next frame of this stream in a packet. */
    method WriteOne(room: nat, credit: nat) returns (frame: Option<Frame>, bytes: seq<byte>)
      requires Valid()
      modifies this, lost
      ensures Valid() && all == old(all)
      ensures frame == old(NextFrame(View(), room, credit))
      ensures old(View().lost) != {} ==> Repairs(old(View().lost), room, frame)
      ensures old(View().lost) == {} ==> Advances(old(View()), |all|, room, credit, frame)
      ensures frame.None? ==> View() == old(View())
      ensures frame.Some? ==> View() == Sent(old(View()), frame.value)
      ensures frame.Some? ==> frame.value.low <= frame.value.high <= |all|
      ensures frame.Some? ==> bytes == all[frame.value.low..frame.value.high]
    {
      bytes := [];
      frame := Choose(room, credit);
      FrameIs(View(), all, room, credit);
      if frame.None? { return; }
      var low, high := frame.value.low, frame.value.high;
      FrameLies(View(), all, room, credit);
      SentKeeps(View(), all, frame.value);
      NothingOwed(lost.ranges);
      if low < high {
        var slice := SliceAt(low, high - low);
        bytes := slice.value;
      }
      if lost.ranges != [] { lost.Subtract(low, high); }
      if high > sent { sent := high; }
      if frame.value.fin { finSent := true; }
    }
  }
}
