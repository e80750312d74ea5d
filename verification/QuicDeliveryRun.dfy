/** The invariant of every run of a connection's sending half. */
module QuicDeliveryRun {
  import opened Arith
  import opened QuicRanges
  import opened QuicSend
  import opened QuicLoss
  import opened QuicSpace
  import opened QuicDelivery
  import opened QuicDeliveryProof

  // ---- Streams -----------------------------------------------------------------

  ghost predicate At(m: map<Key, Send>, w: map<Key, seq<byte>>, spaces: seq<Space>, k: Key)
    requires k in m
  {
    k in w && Home(k) < |spaces| && StreamOk(m[k], w[k], Frames(spaces[Home(k)].out, Home(k)), k)
  }

  ghost predicate StreamsInv(m: map<Key, Send>, w: map<Key, seq<byte>>, spaces: seq<Space>) {
    forall k :: k in m ==> At(m, w, spaces, k)
  }

  lemma TransmitStream(s: State, level: nat, plan: Plan, now: nat, k: Key)
    requires level < |s.spaces| == LEVELS && k in s.streams && At(s.streams, s.written, s.spaces, k)
    ensures var t := Transmit(s, level, plan, now);
            k in t.streams && At(t.streams, t.written, t.spaces, k)
  {
    var t := Transmit(s, level, plan, now);
    var fs, w := Frames(s.spaces[Home(k)].out, Home(k)), s.written[k];
    var b := Built(s, level, plan);
    BuiltOk(s, level, plan, k, w, fs);
    var apps, c := BuiltTags(s, level, plan);
    var sent := b.streams[k].sent;
    FramesJoin(fs, b.tags, k, sent);
    if Home(k) == level {
      var p := t.spaces[level].out[|s.spaces[level].out|];
      FramesAppend(s.spaces[level].out, p, level);
      CarriesBuilt(p, level, apps, c, k, sent);
      FramesJoin(fs, Carries(p, level), k, sent);
    } else {
      AllAppHome(apps);
      FramesJoin(apps, c, k, sent);
      if level == APPLICATION { NotHere(apps, level, k); }
      NotHere(c, level, k);
    }
  }

  /** The outcome of a step on one space shares its packets out. */
  ghost predicate Divides(s: State, level: nat, o: Outcome, k: Key)
    requires level < |s.spaces| && k in s.streams
  {
    Shares(Frames(s.spaces[level].out, level), Frames(o.acked, level), Frames(o.lost, level),
           Frames(o.space.out, level), k, s.streams[k].sent)
  }

  lemma {:induction false} Untouched(s: Send, fs: seq<Tagged>, level: nat, k: Key)
    requires AtHome(fs, level) && Home(k) != level
    ensures AckKey(s, fs, k) == s && LoseKey(s, fs, k) == s
    decreases |fs|
  {
    if fs != [] { Untouched(s, fs[1..], level, k); }
  }

  lemma SettleAt(s: State, level: nat, o: Outcome, now: nat, k: Key)
    requires level < |s.spaces| == LEVELS && k in s.streams && At(s.streams, s.written, s.spaces, k)
    requires Divides(s, level, o, k)
    ensures var t := QuicDelivery.Settle(s, level, o, now);
            k in t.streams && At(t.streams, t.written, t.spaces, k)
            && t.streams[k].sent == s.streams[k].sent && t.streams[k].limit == s.streams[k].limit
  {
    var acked, lost := Frames(o.acked, level), Frames(o.lost, level);
    AckProject(s.streams, acked, k);
    LoseProject(AckFrames(s.streams, acked), lost, k);
    if Home(k) == level {
      SettleStream(s.streams[k], s.written[k], Frames(s.spaces[level].out, level), acked, lost,
                   Frames(o.space.out, level), k);
    } else {
      FramesHome(o.acked, level);
      FramesHome(o.lost, level);
      Untouched(s.streams[k], acked, level, k);
      Untouched(s.streams[k], lost, level, k);
    }
  }

  lemma SettleKeys(s: State, level: nat, o: Outcome, now: nat, k: Key)
    requires level < |s.spaces|
    ensures k in QuicDelivery.Settle(s, level, o, now).streams <==> k in s.streams
  {
    var acked, lost := Frames(o.acked, level), Frames(o.lost, level);
    AckProject(s.streams, acked, k);
    LoseProject(AckFrames(s.streams, acked), lost, k);
  }

  lemma AckDivides(s: State, level: nat, ranges: seq<Range>, largest: nat, ackDelay: nat, now: nat, k: Key)
    requires level < |s.spaces| && k in s.streams
    ensures Divides(s, level, OnAck(s.spaces[level], s.recovery, ranges, largest, ackDelay, now), k)
  {
    var a := Judged(s.spaces[level], s.recovery, ranges, largest, ackDelay, now);
    PickShares(s.spaces[level].out, a, level, k, s.streams[k].sent);
  }

  lemma TimerDivides(s: State, level: nat, now: nat, k: Key)
    requires level < |s.spaces| && k in s.streams
    ensures Divides(s, level, OnTimer(s.spaces[level], s.recovery, now), k)
  {
    var a := Aged(s.spaces[level], s.recovery, now);
    ExpiredShares(s.spaces[level].out, a, level, k, s.streams[k].sent);
  }

  // ---- Which streams the frames belong to --------------------------------------

  lemma {:induction false} PickKnown(ps: seq<Packet>, a: Ack, known: seq<nat>)
    requires Known(Frames(ps, APPLICATION), known)
    ensures Known(Frames(Pick(ps, a, Kept), APPLICATION), known)
  {
    if ps != [] {
      KnownJoin(Carries(ps[0], APPLICATION), Frames(ps[1..], APPLICATION), known);
      PickKnown(ps[1..], a, known);
      PickHead(ps, a, Kept, APPLICATION);
      KnownJoin(Carries(ps[0], APPLICATION), Frames(Pick(ps[1..], a, Kept), APPLICATION), known);
    }
  }

  lemma {:induction false} ExpiredKnown(ps: seq<Packet>, a: Ack, known: seq<nat>)
    requires Known(Frames(ps, APPLICATION), known)
    ensures Known(Frames(Expired(ps, a, false), APPLICATION), known)
  {
    if ps != [] {
      KnownJoin(Carries(ps[0], APPLICATION), Frames(ps[1..], APPLICATION), known);
      ExpiredKnown(ps[1..], a, known);
      ExpiredHead(ps, a, false, APPLICATION);
      KnownJoin(Carries(ps[0], APPLICATION), Frames(Expired(ps[1..], a, false), APPLICATION), known);
    }
  }

  /** Every live application stream was opened. */
  ghost predicate Listed(m: map<Key, Send>, known: seq<nat>) {
    forall id :: App(id) in m ==> id in known
  }

  lemma AddStreamKnown(b: Building, id: nat, room: nat, sendLimit: nat, known: seq<nat>)
    requires Known(b.tags, known) && Listed(b.streams, known)
    ensures var c := AddStream(b, id, room, sendLimit);
            Known(c.tags, known) && Listed(c.streams, known)
  {
    var c := AddStream(b, id, room, sendLimit);
    if c != b { KnownJoin(b.tags, [c.tags[|b.tags|]], known); }
  }

  lemma {:induction false} AddStreamsKnown(b: Building, turns: seq<Turn>, sendLimit: nat, known: seq<nat>)
    requires Known(b.tags, known) && Listed(b.streams, known)
    ensures var c := AddStreams(b, turns, sendLimit);
            Known(c.tags, known) && Listed(c.streams, known)
    decreases |turns|
  {
    if turns != [] {
      AddStreamKnown(b, turns[0].id, turns[0].room, sendLimit, known);
      AddStreamsKnown(AddStream(b, turns[0].id, turns[0].room, sendLimit), turns[1..], sendLimit, known);
    }
  }

  lemma BuiltKnown(s: State, level: nat, plan: Plan)
    requires Listed(s.streams, s.known)
    ensures Known(Built(s, level, plan).tags, s.known) && Listed(Built(s, level, plan).streams, s.known)
  {
    var b := Building(s.streams, s.sentBytes, [], s.wire);
    AddStreamsKnown(b, plan.turns, s.sendLimit, s.known);
    var a := if level == APPLICATION then AddStreams(b, plan.turns, s.sendLimit) else b;
    var c := AddCrypto(a, level, plan.cryptoRoom);
    if c != a { KnownJoin(a.tags, [c.tags[|a.tags|]], s.known); }
  }

  ghost predicate KnownInv(spaces: seq<Space>, m: map<Key, Send>, known: seq<nat>) {
    |spaces| == LEVELS && Known(Frames(spaces[APPLICATION].out, APPLICATION), known) && Listed(m, known)
  }

  lemma TransmitKnown(s: State, level: nat, plan: Plan, now: nat)
    requires level < |s.spaces| == LEVELS && KnownInv(s.spaces, s.streams, s.known)
    ensures var t := Transmit(s, level, plan, now); KnownInv(t.spaces, t.streams, t.known)
  {
    var t := Transmit(s, level, plan, now);
    BuiltKnown(s, level, plan);
    if level == APPLICATION {
      var apps, c := BuiltTags(s, level, plan);
      var p := t.spaces[level].out[|s.spaces[level].out|];
      FramesAppend(s.spaces[level].out, p, level);
      CarriesBuilt(p, level, apps, c, App(0), 0);
      KnownJoin(apps, c, s.known);
      KnownJoin(c, apps, s.known);
      KnownJoin(Frames(s.spaces[level].out, level), Carries(p, level), s.known);
    }
  }

  // ---- Packets and the window ---------------------------------------------------

  ghost predicate SpaceOk(s: Space, clock: nat) {
    Ordered(s.out) && Bounded(s.out, s.next, clock) && s.eliciting == Eliciting(s.out)
  }

  lemma {:induction false} FlightSplit(x: seq<Packet>, y: seq<Packet>)
    ensures Flight(x + y) == Flight(x) + Flight(y)
    decreases |y|
  {
    if y == [] {
      assert x + y == x;
    } else {
      assert (x + y)[..|x + y| - 1] == x + y[..|y| - 1];
      FlightSplit(x, y[..|y| - 1]);
    }
  }

  lemma FlightHead(p: Packet, ps: seq<Packet>)
    ensures Flight([p] + ps) == (if p.inFlight then p.size else 0) + Flight(ps)
  {
    FlightSplit([p], ps);
    assert [p][..0] == [];
    assert Flight([p]) == Flight([]) + (if p.inFlight then p.size else 0);
  }

  lemma ElicitingHead(p: Packet, ps: seq<Packet>)
    ensures Eliciting([p] + ps) == (if p.ackEliciting then 1 else 0) + Eliciting(ps)
  {
    assert ([p] + ps)[1..] == ps;
  }

  lemma PickOne(ps: seq<Packet>, a: Ack, fate: Fate)
    requires ps != []
    ensures var hit, rest := FateOf(ps[0], a) == fate, Pick(ps[1..], a, fate);
            && Flight(Pick(ps, a, fate)) == Flight(rest) + (if hit && ps[0].inFlight then ps[0].size else 0)
            && Eliciting(Pick(ps, a, fate)) == Eliciting(rest) + (if hit && ps[0].ackEliciting then 1 else 0)
  {
    var rest := Pick(ps[1..], a, fate);
    FlightHead(ps[0], rest);
    ElicitingHead(ps[0], rest);
    assert [] + rest == rest;
  }

  /** Sums over the outstanding packets split with them. */
  lemma {:induction false} PickSums(ps: seq<Packet>, a: Ack)
    ensures Flight(ps) == Flight(Pick(ps, a, Acked)) + Flight(Pick(ps, a, Lost)) + Flight(Pick(ps, a, Kept))
    ensures Eliciting(ps) == Eliciting(Pick(ps, a, Acked)) + Eliciting(Pick(ps, a, Lost)) + Eliciting(Pick(ps, a, Kept))
  {
    if ps != [] {
      PickSums(ps[1..], a);
      PickOne(ps, a, Acked);
      PickOne(ps, a, Lost);
      PickOne(ps, a, Kept);
      assert ps == [ps[0]] + ps[1..];
      FlightHead(ps[0], ps[1..]);
    }
  }

  lemma ExpiredOne(ps: seq<Packet>, a: Ack, yes: bool)
    requires ps != []
    ensures var hit, rest := TimedOut(ps[0], a) == yes, Expired(ps[1..], a, yes);
            && Flight(Expired(ps, a, yes)) == Flight(rest) + (if hit && ps[0].inFlight then ps[0].size else 0)
            && Eliciting(Expired(ps, a, yes)) == Eliciting(rest) + (if hit && ps[0].ackEliciting then 1 else 0)
  {
    var rest := Expired(ps[1..], a, yes);
    FlightHead(ps[0], rest);
    ElicitingHead(ps[0], rest);
    assert [] + rest == rest;
  }

  lemma {:induction false} ExpiredSums(ps: seq<Packet>, a: Ack)
    ensures Flight(ps) == Flight(Expired(ps, a, true)) + Flight(Expired(ps, a, false))
    ensures Eliciting(ps) == Eliciting(Expired(ps, a, true)) + Eliciting(Expired(ps, a, false))
  {
    if ps != [] {
      ExpiredSums(ps[1..], a);
      ExpiredOne(ps, a, true);
      ExpiredOne(ps, a, false);
      assert ps == [ps[0]] + ps[1..];
      FlightHead(ps[0], ps[1..]);
    }
  }

  lemma {:induction false} PickBounded(ps: seq<Packet>, a: Ack, next: nat, clock: nat)
    requires Bounded(ps, next, clock)
    ensures Bounded(Pick(ps, a, Kept), next, clock)
  {
    if ps != [] {
      PickBounded(ps[1..], a, next, clock);
      var rest := Pick(ps[1..], a, Kept);
      assert ([ps[0]] + rest)[1..] == rest && [] + rest == rest;
    }
  }

  lemma {:induction false} ExpiredBounded(ps: seq<Packet>, a: Ack, next: nat, clock: nat)
    requires Bounded(ps, next, clock)
    ensures Bounded(Expired(ps, a, false), next, clock)
  {
    if ps != [] {
      ExpiredBounded(ps[1..], a, next, clock);
      var rest := Expired(ps[1..], a, false);
      assert ([ps[0]] + rest)[1..] == rest && [] + rest == rest;
    }
  }

  lemma {:induction false} ExpiredAfter(p: Packet, ps: seq<Packet>, a: Ack)
    requires After(p, ps)
    ensures After(p, Expired(ps, a, false))
  {
    if ps != [] {
      ExpiredAfter(p, ps[1..], a);
      var rest := Expired(ps[1..], a, false);
      assert ([ps[0]] + rest)[1..] == rest && [] + rest == rest;
    }
  }

  lemma {:induction false} ExpiredOrdered(ps: seq<Packet>, a: Ack)
    requires Ordered(ps)
    ensures Ordered(Expired(ps, a, false))
  {
    if ps != [] {
      ExpiredOrdered(ps[1..], a);
      ExpiredAfter(ps[0], ps[1..], a);
      var rest := Expired(ps[1..], a, false);
      assert ([ps[0]] + rest)[1..] == rest && [] + rest == rest;
    }
  }

  lemma {:induction false} AckedRecovery(r: Recovery, ps: seq<Packet>)
    ensures AllAcked(r, ps).inFlight == r.inFlight - Flight(ps) && AllAcked(r, ps).window >= r.window
  {
    if ps != [] { AckedRecovery(r, ps[..|ps| - 1]); }
  }

  /** What an outcome does to one space's sums and to the shared ones. */
  ghost predicate Balanced(s: Space, r: Recovery, o: Outcome, clock: nat) {
    && SpaceOk(o.space, clock)
    && o.recovery.inFlight - Flight(o.space.out) == r.inFlight - Flight(s.out)
    && (r.window >= 2 * DATAGRAM ==> o.recovery.window >= 2 * DATAGRAM)
  }

  lemma AckBalanced(s: Space, r: Recovery, ranges: seq<Range>, largest: nat, ackDelay: nat, now: nat, clock: nat)
    requires SpaceOk(s, clock) && clock <= now
    ensures Balanced(s, r, OnAck(s, r, ranges, largest, ackDelay, now), now)
  {
    var a := Judged(s, r, ranges, largest, ackDelay, now);
    BoundedLater(s.out, s.next, clock, now);
    if Pick(s.out, a, Acked) != [] {
      PickSums(s.out, a);
      PickBounded(s.out, a, s.next, now);
      PickOrdered(s.out, a, Kept);
      AckedRecovery(Sampled(r, Newest(s.out, a), ackDelay, now), Pick(s.out, a, Acked));
    }
  }

  lemma TimerBalanced(s: Space, r: Recovery, now: nat, clock: nat)
    requires SpaceOk(s, clock) && clock <= now
    ensures Balanced(s, r, OnTimer(s, r, now), now)
  {
    var a := Aged(s, r, now);
    BoundedLater(s.out, s.next, clock, now);
    ExpiredSums(s.out, a);
    ExpiredBounded(s.out, a, s.next, now);
    ExpiredOrdered(s.out, a);
  }

  lemma RecordBalanced(s: Space, r: Recovery, p: Packet, clock: nat)
    requires SpaceOk(s, clock) && p.number == s.next && clock <= p.sentAt
    ensures Balanced(s, r, Outcome(Recorded(s, p), OnSent(r, p), [], []), p.sentAt)
  {
    BoundedLater(s.out, s.next, clock, p.sentAt);
    OrderedAppend(s.out, p);
    ElicitingSplit(s.out, [p]);
    ElicitingHead(p, []);
    FlightSplit(s.out, [p]);
    FlightHead(p, []);
    assert [p] + [] == [p];
  }

  ghost predicate PacketsInv(spaces: seq<Space>, r: Recovery, clock: nat) {
    && |spaces| == LEVELS
    && SpaceOk(spaces[0], clock) && SpaceOk(spaces[1], clock) && SpaceOk(spaces[2], clock)
    && r.inFlight == Flight(spaces[0].out) + Flight(spaces[1].out) + Flight(spaces[2].out)
    && r.window >= 2 * DATAGRAM
  }

  lemma SpaceLater(s: Space, clock: nat, later: nat)
    requires SpaceOk(s, clock) && clock <= later
    ensures SpaceOk(s, later)
  {
    BoundedLater(s.out, s.next, clock, later);
  }

  lemma BalancedInv(spaces: seq<Space>, r: Recovery, clock: nat, level: nat, o: Outcome, later: nat)
    requires PacketsInv(spaces, r, clock) && level < LEVELS && clock <= later
    requires Balanced(spaces[level], r, o, later)
    ensures PacketsInv(spaces[level := o.space], o.recovery, later)
  {
    SpaceLater(spaces[0], clock, later);
    SpaceLater(spaces[1], clock, later);
    SpaceLater(spaces[2], clock, later);
  }
}
