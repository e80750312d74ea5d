/** The rules of loss and of the window, each on its own, out of what an ACK and the timer
    come to. */
module QuicLossRules {
  import opened Arith
  import opened QuicRanges
  import opened QuicLoss
  import opened Wrappers

  // ---- Which packets an ACK names ---------------------------------------------------

  ghost predicate InSome(ranges: seq<Range>, n: nat) {
    exists i :: 0 <= i < |ranges| && ranges[i].low <= n <= ranges[i].high
  }

  lemma {:induction false} InRangesIsInSome(ranges: seq<Range>, n: nat)
    ensures InRanges(ranges, n) <==> InSome(ranges, n)
  {
    if ranges != [] {
      InRangesIsInSome(ranges[1..], n);
      if InRanges(ranges[1..], n) {
        var i :| 0 <= i < |ranges[1..]| && ranges[1..][i].low <= n <= ranges[1..][i].high;
        assert ranges[i + 1] == ranges[1..][i];
      }
      if InSome(ranges, n) && !(ranges[0].low <= n <= ranges[0].high) {
        var i :| 0 <= i < |ranges| && ranges[i].low <= n <= ranges[i].high;
        assert ranges[1..][i - 1] == ranges[i];
      }
    }
  }

  /** The ACK names packet `p`. */
  ghost predicate Names(ranges: seq<Range>, largest: nat, p: Packet) {
    p.number <= largest && InSome(ranges, p.number)
  }

  lemma {:induction false} PickHas(ps: seq<Packet>, a: Ack, fate: Fate, p: Packet)
    ensures p in Pick(ps, a, fate) <==> p in ps && FateOf(p, a) == fate
  {
    if ps != [] {
      PickHas(ps[1..], a, fate, p);
      assert p in ps <==> p == ps[0] || p in ps[1..];
    }
  }

  /** `acked` are the packets of `ps` that the ACK names, all of them and no others. */
  ghost predicate NamedOf(ps: seq<Packet>, acked: seq<Packet>, ranges: seq<Range>, largest: nat) {
    forall p :: p in acked <==> p in ps && Names(ranges, largest, p)
  }

  lemma PickIsNamed(ps: seq<Packet>, a: Ack)
    ensures NamedOf(ps, Pick(ps, a, Acked), a.ranges, a.largest)
  {
    forall p ensures p in Pick(ps, a, Acked) <==> p in ps && Names(a.ranges, a.largest, p) {
      PickHas(ps, a, Acked, p);
      InRangesIsInSome(a.ranges, p.number);
    }
  }

  lemma AckedIsNamed(s: Space, r: Recovery, ranges: seq<Range>, largest: nat, ackDelay: nat, now: nat)
    ensures NamedOf(s.out, OnAck(s, r, ranges, largest, ackDelay, now).acked, ranges, largest)
  {
    PickIsNamed(s.out, Judged(s, r, ranges, largest, ackDelay, now));
  }

  // ---- Which are lost ----------------------------------------------------------------

  /** Three numbers behind the highest acknowledged, or one loss delay old. */
  predicate Behind(p: Packet, highest: nat) { p.number + PACKET_THRESHOLD <= highest }
  predicate Old(p: Packet, now: nat, delay: nat) { p.sentAt + delay <= now }

  lemma {:induction false} AckedLeavesDelay(r: Recovery, ps: seq<Packet>)
    ensures AllAcked(r, ps) == r.(inFlight := AllAcked(r, ps).inFlight, window := AllAcked(r, ps).window)
  {
    if ps != [] { AckedLeavesDelay(r, ps[..|ps| - 1]); }
  }

  lemma DelayIsPositive(r: Recovery)
    ensures LossDelay(r) >= 1 && LossDelay(r) >= Max(r.latest, r.smoothed)
  {
  }

  /** A loss delay is the larger of the last and the smoothed round trip and an eighth more,
      rounded down, and at least a millisecond. */
  lemma DelayIs(r: Recovery)
    ensures LossDelay(r) >= 1
    ensures LossDelay(r) > 1 ==> 8 * LossDelay(r) <= 9 * Max(r.latest, r.smoothed) < 8 * LossDelay(r) + 8
    ensures LossDelay(r) == 1 ==> 9 * Max(r.latest, r.smoothed) < 16
  {
  }

  lemma {:induction false} NewestIgnoresDelay(ps: seq<Packet>, a: Ack, b: Ack)
    requires b == a.(delay := b.delay)
    ensures Newest(ps, a) == Newest(ps, b)
  {
    if ps != [] { NewestIgnoresDelay(ps[1..], a, b); }
  }

  /** The delay packets are judged by is the one the sample leaves. */
  lemma JudgedByDelay(s: Space, r: Recovery, ranges: seq<Range>, largest: nat, ackDelay: nat, now: nat, a: Ack,
                      o: Outcome)
    requires a == Judged(s, r, ranges, largest, ackDelay, now) && o == OnAck(s, r, ranges, largest, ackDelay, now)
    requires o.acked != []
    ensures a.delay == LossDelay(o.recovery) > 0
  {
    var b := Ack(ranges, largest, Threshold(s, largest), now, 0);
    NewestIgnoresDelay(s.out, b, a);
    var sampled := Sampled(r, Newest(s.out, a), ackDelay, now);
    AckedLeavesDelay(sampled, o.acked);
    DelayIsPositive(sampled);
  }

  lemma FateIs(p: Packet, a: Ack)
    requires a.delay > 0
    ensures FateOf(p, a) == Acked <==> Names(a.ranges, a.largest, p)
    ensures FateOf(p, a) == Lost <==> !Names(a.ranges, a.largest, p) && p.number < a.threshold
                                      && (Behind(p, a.threshold) || Old(p, a.now, a.delay))
  {
    InRangesIsInSome(a.ranges, p.number);
  }

  /** An ACK that acknowledges anything loses what it does not name, is below the highest
      number acknowledged, and is three behind or one delay old: either will do, no other is
      lost, and everything that is neither named nor lost stays out. */
  lemma LostExactly(s: Space, r: Recovery, ranges: seq<Range>, largest: nat, ackDelay: nat, now: nat, p: Packet)
    requires OnAck(s, r, ranges, largest, ackDelay, now).acked != []
    ensures var o := OnAck(s, r, ranges, largest, ackDelay, now);
            var highest := if s.largestAcked.Some? then Max(s.largestAcked.value, largest) else largest;
            var delay := LossDelay(o.recovery);
            && o.space.largestAcked == Some(highest)
            && (p in o.lost <==> p in s.out && !Names(ranges, largest, p) && p.number < highest
                                 && (Behind(p, highest) || Old(p, now, delay)))
            && (p in o.space.out <==> p in s.out && p !in o.acked && p !in o.lost)
  {
    var a := Judged(s, r, ranges, largest, ackDelay, now);
    JudgedByDelay(s, r, ranges, largest, ackDelay, now, a, OnAck(s, r, ranges, largest, ackDelay, now));
    PickHas(s.out, a, Acked, p);
    PickHas(s.out, a, Lost, p);
    PickHas(s.out, a, Kept, p);
    FateIs(p, a);
  }

  /** An ACK that acknowledges nothing changes nothing. */
  lemma NothingNamed(s: Space, r: Recovery, ranges: seq<Range>, largest: nat, ackDelay: nat, now: nat)
    requires forall p :: p in s.out ==> !Names(ranges, largest, p)
    ensures OnAck(s, r, ranges, largest, ackDelay, now) == Outcome(s, r, [], [])
  {
    var a := Judged(s, r, ranges, largest, ackDelay, now);
    var acked := Pick(s.out, a, Acked);
    if acked != [] {
      InRangesIsInSome(ranges, acked[0].number);
      PickHas(s.out, a, Acked, acked[0]);
    }
  }

  lemma {:induction false} ExpiredHas(ps: seq<Packet>, a: Ack, yes: bool, p: Packet)
    ensures p in Expired(ps, a, yes) <==> p in ps && TimedOut(p, a) == yes
  {
    if ps != [] {
      ExpiredHas(ps[1..], a, yes, p);
      assert p in ps <==> p == ps[0] || p in ps[1..];
    }
  }

  /** The timer loses what is old, and what is behind, and nothing else. */
  lemma TimerLoses(s: Space, r: Recovery, now: nat, p: Packet)
    ensures var o := OnTimer(s, r, now);
            && (p in o.lost <==> p in s.out
                                 && (Old(p, now, LossDelay(r))
                                     || (s.largestAcked.Some? && Behind(p, s.largestAcked.value))))
            && (p in o.space.out <==> p in s.out && p !in o.lost)
  {
    ExpiredHas(s.out, Aged(s, r, now), true, p);
    ExpiredHas(s.out, Aged(s, r, now), false, p);
    DelayIsPositive(r);
  }

  // ---- What the timer is set for -------------------------------------------------------

  /** Packet `p` stays out for now, below the highest number acknowledged. */
  predicate Waiting(p: Packet, a: Ack) { FateOf(p, a) == Kept && p.number < a.threshold }

  lemma {:induction false} FirstLossIs(ps: seq<Packet>, a: Ack)
    requires a.delay > 0
    ensures FirstLoss(ps, a) == 0 <==> forall p :: p in ps ==> !Waiting(p, a)
    ensures FirstLoss(ps, a) > 0 ==> exists p :: p in ps && Waiting(p, a) && FirstLoss(ps, a) == p.sentAt + a.delay
    ensures forall p :: p in ps && Waiting(p, a) ==> FirstLoss(ps, a) <= p.sentAt + a.delay
  {
    if ps != [] {
      FirstLossIs(ps[1..], a);
      assert ps[0] in ps && forall p :: p in ps <==> p == ps[0] || p in ps[1..];
    }
  }

  /** After an ACK, the time the loss timer is set for is 0 if no packet that stays out is
      below the highest number acknowledged, and else the first at which one of those is old. */
  lemma TimerIsSet(s: Space, r: Recovery, ranges: seq<Range>, largest: nat, ackDelay: nat, now: nat)
    requires OnAck(s, r, ranges, largest, ackDelay, now).acked != []
    ensures var o := OnAck(s, r, ranges, largest, ackDelay, now);
            && o.space.largestAcked.Some?
            && var highest := o.space.largestAcked.value;
               && (o.space.lossTime == 0 <==> forall p :: p in o.space.out ==> p.number >= highest)
               && (o.space.lossTime > 0 ==>
                     exists p :: p in o.space.out && p.number < highest
                                 && o.space.lossTime == p.sentAt + LossDelay(o.recovery))
               && (forall p :: p in o.space.out && p.number < highest ==>
                     o.space.lossTime <= p.sentAt + LossDelay(o.recovery))
  {
    var a := Judged(s, r, ranges, largest, ackDelay, now);
    var o := OnAck(s, r, ranges, largest, ackDelay, now);
    JudgedByDelay(s, r, ranges, largest, ackDelay, now, a, o);
    FirstLossIs(s.out, a);
    forall p ensures p in o.space.out <==> p in s.out && FateOf(p, a) == Kept { PickHas(s.out, a, Kept, p); }
    assert forall p :: p in o.space.out && p.number < a.threshold <==> p in s.out && Waiting(p, a);
  }

  // ---- The window ------------------------------------------------------------------------

  /** Some packet that counts was sent after recovery last began. */
  ghost predicate Since(ps: seq<Packet>, start: nat) {
    exists k :: 0 <= k < |ps| && ps[k].inFlight && ps[k].sentAt > start
  }

  lemma {:induction false} LatestIsSince(ps: seq<Packet>, start: nat)
    ensures LatestSent(ps) > start <==> Since(ps, start)
  {
    if ps != [] {
      var front, last := ps[..|ps| - 1], ps[|ps| - 1];
      LatestIsSince(front, start);
      if Since(front, start) {
        var k :| 0 <= k < |front| && front[k].inFlight && front[k].sentAt > start;
        assert ps[k] == front[k];
      }
      if Since(ps, start) {
        var k :| 0 <= k < |ps| && ps[k].inFlight && ps[k].sentAt > start;
        if k < |front| { assert front[k] == ps[k]; }
      }
    }
  }

  /** A loss of a packet sent since recovery began leaves the larger of half the window and
      two datagrams, and recovery begins again; any other loss leaves the window as it is. */
  lemma LossHalves(r: Recovery, ps: seq<Packet>, now: nat)
    ensures var t := AllLost(r, ps, now);
            if Since(ps, r.recoveryStart)
            then t.window == Max(r.window / 2, 2 * DATAGRAM) == t.slowStart && t.recoveryStart == now
            else t.window == r.window && t.slowStart == r.slowStart && t.recoveryStart == r.recoveryStart
  {
    LatestIsSince(ps, r.recoveryStart);
  }

  /** Every packet counts, and was sent since recovery last began. */
  ghost predicate Counting(ps: seq<Packet>, start: nat) {
    forall k :: 0 <= k < |ps| ==> ps[k].inFlight && ps[k].sentAt > start
  }

  lemma CountingFront(ps: seq<Packet>, start: nat)
    requires Counting(ps, start) && ps != []
    ensures Counting(ps[..|ps| - 1], start) && Flight(ps) == Flight(ps[..|ps| - 1]) + ps[|ps| - 1].size
  {
  }

  /** Below the slow-start threshold the window grows by all that is acknowledged: a whole
      window acknowledged doubles it. */
  lemma {:induction false} SlowStartDoubles(r: Recovery, ps: seq<Packet>)
    requires Counting(ps, r.recoveryStart) && r.window + Flight(ps) <= r.slowStart
    ensures AllAcked(r, ps).window == r.window + Flight(ps)
  {
    if ps != [] {
      var front, last := ps[..|ps| - 1], ps[|ps| - 1];
      CountingFront(ps, r.recoveryStart);
      SlowStartDoubles(r, front);
      AckedLeavesDelay(r, front);
    }
  }

  lemma ShareIsLess(a: nat, x: nat, y: nat)
    requires 0 < x <= y
    ensures a / y <= a / x
  {
    var q := a / y;
    assert q * y <= a;
    assert q * x <= q * y by { MulMono(q, x, y); }
    DivBound(a, x, q);
  }

  lemma MulMono(q: nat, x: nat, y: nat)
    requires x <= y
    ensures q * x <= q * y
  {
  }

  lemma DivBound(a: nat, x: nat, q: nat)
    requires 0 < x && q * x <= a
    ensures q <= a / x
  {
    if a / x < q { assert (a / x + 1) * x <= q * x by { MulMono(x, a / x + 1, q); } }
  }

  lemma DivTimes(a: nat, x: nat)
    requires 0 < x
    ensures x * (a / x) <= a
  {
  }

  /** What one packet of `size` adds to a window of `mid`, which has grown from `w`. */
  lemma OneShare(w: nat, mid: nat, size: nat, flight: nat)
    requires 0 < w <= mid && w * (mid - w) <= DATAGRAM * flight
    ensures w * (mid + DATAGRAM * size / mid - w) <= DATAGRAM * (flight + size)
  {
    var grown := DATAGRAM * size / mid;
    ShareIsLess(DATAGRAM * size, w, mid);
    DivTimes(DATAGRAM * size, w);
    MulMono(w, grown, DATAGRAM * size / w);
    assert w * (mid + grown - w) == w * (mid - w) + w * grown;
  }

  /** Past it the window grows by at most one datagram for a whole window acknowledged. */
  lemma {:induction false} AvoidanceIsSlow(r: Recovery, ps: seq<Packet>)
    requires Counting(ps, r.recoveryStart) && r.slowStart <= r.window && r.window > 0
    ensures r.window <= AllAcked(r, ps).window
    ensures r.window * (AllAcked(r, ps).window - r.window) <= DATAGRAM * Flight(ps)
    ensures Flight(ps) <= r.window ==> AllAcked(r, ps).window <= r.window + DATAGRAM
  {
    if ps != [] {
      var front, last := ps[..|ps| - 1], ps[|ps| - 1];
      CountingFront(ps, r.recoveryStart);
      AvoidanceIsSlow(r, front);
      AckedLeavesDelay(r, front);
      OneShare(r.window, AllAcked(r, front).window, last.size, Flight(front));
    }
    OneDatagram(r.window, AllAcked(r, ps).window - r.window, Flight(ps));
  }

  lemma OneDatagram(w: nat, more: nat, flight: nat)
    requires 0 < w && w * more <= DATAGRAM * flight
    ensures flight <= w ==> more <= DATAGRAM
  {
    if flight <= w {
      MulMono(DATAGRAM, flight, w);
      if more > DATAGRAM { MulMono(w, DATAGRAM + 1, more); }
    }
  }

  /** And each packet acknowledged that is large enough for its share opens it. */
  lemma AvoidanceGrows(r: Recovery, p: Packet)
    requires p.inFlight && p.sentAt > r.recoveryStart && r.slowStart <= r.window
    requires 0 < r.window <= DATAGRAM * p.size
    ensures OneAcked(r, p).window > r.window
  {
    DivBound(DATAGRAM * p.size, r.window, 1);
  }

  // ---- Round trips -------------------------------------------------------------------------

  datatype Sample = Sample(latest: nat, ackDelay: nat)

  /** The estimate after a run of samples. */
  function Estimated(r: Recovery, samples: seq<Sample>): Recovery {
    if samples == [] then r
    else
      var last := samples[|samples| - 1];
      UpdateRtt(Estimated(r, samples[..|samples| - 1]), last.latest, last.ackDelay)
  }

  /** The least and the smoothed round trip of a first and later samples. */
  ghost predicate Between(r: Recovery, samples: seq<Sample>) {
    && (exists k :: 0 <= k < |samples| && samples[k].latest == r.least)
    && (forall k :: 0 <= k < |samples| ==> r.least <= samples[k].latest)
    && r.least <= r.smoothed
    && (exists k :: 0 <= k < |samples| && r.smoothed <= samples[k].latest)
  }

  lemma UpdateBetween(r: Recovery, samples: seq<Sample>, last: Sample)
    requires r.sampled && Between(r, samples)
    ensures Between(UpdateRtt(r, last.latest, last.ackDelay), samples + [last])
  {
    var t, all := UpdateRtt(r, last.latest, last.ackDelay), samples + [last];
    var k :| 0 <= k < |samples| && samples[k].latest == r.least;
    var m :| 0 <= m < |samples| && r.smoothed <= samples[m].latest;
    assert all[k] == samples[k] && all[m] == samples[m] && all[|samples|] == last;
    if t.smoothed <= r.smoothed {
      assert t.smoothed <= all[m].latest;
    } else {
      assert t.smoothed <= all[|samples|].latest;
    }
    if last.latest < r.least { assert all[|samples|].latest == t.least; } else { assert all[k].latest == t.least; }
  }

  /** The least round trip kept is the least sampled, and the smoothed one never leaves the
      samples: it lies between the least and some other of them. */
  lemma {:induction false} EstimateIsBetween(r: Recovery, samples: seq<Sample>)
    requires !r.sampled && samples != []
    ensures Estimated(r, samples).sampled && Between(Estimated(r, samples), samples)
    decreases |samples|
  {
    var front, last := samples[..|samples| - 1], samples[|samples| - 1];
    assert samples == front + [last];
    if front == [] {
      assert samples[0] == last;
    } else {
      EstimateIsBetween(r, front);
      UpdateBetween(Estimated(r, front), front, last);
    }
  }

  function Apart(x: nat, y: nat): nat { if x < y then y - x else x - y }

  /** Each further sample brings the smoothed round trip an eighth of the way to the round
      trip it stands for, which is the sample itself when the peer did not wait. */
  lemma EstimateCloses(r: Recovery, latest: nat)
    requires r.sampled
    ensures var t := UpdateRtt(r, latest, 0);
            8 * Apart(t.smoothed, latest) <= 7 * Apart(r.smoothed, latest) + 7
            && 4 * t.variance <= 3 * r.variance + Apart(r.smoothed, latest) < 4 * t.variance + 4
  {
  }
}
