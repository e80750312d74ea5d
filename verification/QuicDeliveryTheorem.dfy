/** What holds in every state a connection's sending half can reach. */
module QuicDeliveryTheorem {
  import opened Arith
  import opened Ledger
  import opened QuicRanges
  import opened QuicSend
  import opened QuicLoss
  import opened QuicDelivery
  import opened QuicDeliveryProof
  import opened QuicDeliveryRun
  import opened QuicDeliveryWire
  import opened QuicDeliveryLedger
  import opened Wrappers

  // ---- The invariant ----------------------------------------------------------------

  ghost predicate Inv(s: State) {
    && |s.spaces| == LEVELS
    && StreamsInv(s.streams, s.written, s.spaces)
    && KnownInv(s.spaces, s.streams, s.known)
    && PacketsInv(s.spaces, s.recovery, s.clock)
    && LedgerInv(s.streams, s.known, s.gone, s.sentBytes, s.sendLimit)
    && WireInv(s.wire, s.written)
    && OutOnWire(s.spaces, s.wire)
    && Recalled(s.written, s.known)
  }

  ghost predicate Recalled(w: map<Key, seq<byte>>, known: seq<nat>) {
    forall id :: App(id) in w ==> id in known
  }

  lemma InvHolds(s: State)
    requires StreamsInv(s.streams, s.written, s.spaces)
    ensures AllHold(s.streams, s.written)
  {
    forall k | k in s.streams ensures k in s.written && Holds(s.streams[k], s.written[k]) {
      assert At(s.streams, s.written, s.spaces, k);
    }
  }

  lemma TransmitKeys(s: State, level: nat, plan: Plan, now: nat, k: Key)
    requires level < |s.spaces|
    ensures k in Transmit(s, level, plan, now).streams ==> k in s.streams
  {
    var b := Building(s.streams, s.sentBytes, [], s.wire);
    AddKeys(b, plan.turns, s.sendLimit, k);
  }

  lemma {:induction false} AddKeys(b: Building, turns: seq<Turn>, sendLimit: nat, k: Key)
    ensures k in AddStreams(b, turns, sendLimit).streams ==> k in b.streams
    decreases |turns|
  {
    if turns != [] { AddKeys(AddStream(b, turns[0].id, turns[0].room, sendLimit), turns[1..], sendLimit, k); }
  }

  lemma TransmitInv(s: State, level: nat, plan: Plan, now: nat)
    requires Inv(s) && level < LEVELS && s.clock <= now
    ensures Inv(Transmit(s, level, plan, now))
  {
    var t := Transmit(s, level, plan, now);
    InvHolds(s);
    BuiltInv(s, level, plan);
    TransmitKnown(s, level, plan, now);
    TransmitOnWire(s, level, plan, now);
    var p := t.spaces[level].out[|s.spaces[level].out|];
    RecordBalanced(s.spaces[level], s.recovery, p, s.clock);
    BalancedInv(s.spaces, s.recovery, s.clock, level, Outcome(t.spaces[level], t.recovery, [], []), now);
    forall k | k in t.streams ensures At(t.streams, t.written, t.spaces, k) {
      TransmitKeys(s, level, plan, now, k);
      TransmitStream(s, level, plan, now, k);
    }
  }

  lemma SettleInv(s: State, level: nat, o: Outcome, now: nat)
    requires Inv(s) && level < LEVELS && s.clock <= now
    requires forall k :: k in s.streams ==> Divides(s, level, o, k)
    requires Balanced(s.spaces[level], s.recovery, o, now)
    requires level == APPLICATION ==> Known(Frames(o.space.out, level), s.known)
    requires AllOnWire(Frames(o.space.out, level), s.wire)
    ensures Inv(QuicDelivery.Settle(s, level, o, now))
  {
    var t := QuicDelivery.Settle(s, level, o, now);
    BalancedInv(s.spaces, s.recovery, s.clock, level, o, now);
    forall k | k in t.streams
      ensures At(t.streams, t.written, t.spaces, k) && k in s.streams
      ensures t.streams[k].sent == s.streams[k].sent && t.streams[k].limit == s.streams[k].limit
    {
      SettleKeys(s, level, o, now, k);
      assert At(s.streams, s.written, s.spaces, k);
      SettleAt(s, level, o, now, k);
    }
    forall id | id in s.known ensures SentOf(s.streams, s.gone, id) == SentOf(t.streams, s.gone, id) {
      SettleKeys(s, level, o, now, App(id));
    }
    TotalSame(s.known, SentBy(s.streams, s.gone), SentBy(t.streams, s.gone));
  }

  // ---- Every step -------------------------------------------------------------------

  lemma OpenStreams(s: State, id: nat, limit: nat)
    requires Inv(s) && id !in s.known
    ensures var t := Opened(s, id, limit); StreamsInv(t.streams, t.written, t.spaces)
  {
    var t := Opened(s, id, limit);
    NoFrames(Frames(s.spaces[APPLICATION].out, APPLICATION), s.known, id);
    forall k | k in t.streams ensures At(t.streams, t.written, t.spaces, k) {
      if k != App(id) { assert At(s.streams, s.written, s.spaces, k); }
    }
  }

  lemma OpenLedger(m: map<Key, Send>, known: seq<nat>, gone: map<nat, nat>, sentBytes: nat, sendLimit: nat, id: nat,
                   limit: nat)
    requires LedgerInv(m, known, gone, sentBytes, sendLimit) && id !in known
    ensures LedgerInv(m[App(id) := Empty.(limit := limit)], known + [id], gone, sentBytes, sendLimit)
  {
    var n := m[App(id) := Empty.(limit := limit)];
    DistinctAppend(known, id);
    TotalAppend(known, id, SentBy(n, gone));
    TotalSame(known, SentBy(m, gone), SentBy(n, gone));
  }

  lemma OpenInv(s: State, id: nat, limit: nat)
    requires Inv(s)
    ensures Inv(Opened(s, id, limit))
  {
    if id !in s.known {
      OpenStreams(s, id, limit);
      OpenLedger(s.streams, s.known, s.gone, s.sentBytes, s.sendLimit, id, limit);
      KnownMore(Frames(s.spaces[APPLICATION].out, APPLICATION), s.known, id);
      WireGrows(s.wire, s.written, s.written[App(id) := []]);
    }
  }

  /** A change to one stream that moves nothing on the wire. */
  lemma ChangeInv(s: State, k: Key, t: Send, w: seq<byte>)
    requires Inv(s) && k in s.streams && k in s.written && s.written[k] <= w
    requires t.sent == s.streams[k].sent && t.limit >= s.streams[k].limit
    requires Holds(t, w) && Accounted(t, Frames(s.spaces[Home(k)].out, Home(k)), k)
    ensures Inv(s.(streams := s.streams[k := t], written := s.written[k := w]))
  {
    var m, v := s.streams[k := t], s.written[k := w];
    forall j | j in m ensures At(m, v, s.spaces, j) {
      assert At(s.streams, s.written, s.spaces, j);
    }
    TotalSame(s.known, SentBy(s.streams, s.gone), SentBy(m, s.gone));
    WireGrows(s.wire, s.written, v);
  }

  lemma AppendInv(s: State, k: Key, bytes: seq<byte>)
    requires Inv(s)
    ensures Inv(Appended(s, k, bytes))
  {
    if k in s.streams {
      assert At(s.streams, s.written, s.spaces, k);
      WriteKeeps(s.streams[k], s.written[k], bytes);
      ChangeInv(s, k, Write(s.streams[k], bytes), s.written[k] + bytes);
    }
  }

  lemma FieldInv(s: State, k: Key, t: Send)
    requires Inv(s) && k in s.streams
    requires t == s.streams[k].(limit := t.limit, finQueued := t.finQueued) && t.limit >= s.streams[k].limit
    ensures Inv(s.(streams := s.streams[k := t]))
  {
    assert At(s.streams, s.written, s.spaces, k);
    ChangeInv(s, k, t, s.written[k]);
    assert s.written[k := s.written[k]] == s.written;
  }

  lemma EndInv(s: State, id: nat)
    requires Inv(s)
    ensures Inv(Ended(s, id))
  {
    if App(id) in s.streams { FieldInv(s, App(id), s.streams[App(id)].(finQueued := true)); }
  }

  lemma StreamLimitInv(s: State, id: nat, limit: nat)
    requires Inv(s)
    ensures Inv(StreamRaised(s, id, limit))
  {
    if App(id) in s.streams {
      FieldInv(s, App(id), s.streams[App(id)].(limit := Max(s.streams[App(id)].limit, limit)));
    }
  }

  lemma DataLimitInv(s: State, limit: nat)
    requires Inv(s)
    ensures Inv(DataRaised(s, limit))
  {
  }

  lemma BuildStepInv(s: State, level: nat, plan: Plan, now: nat)
    requires Inv(s)
    ensures Inv(Transmitted(s, level, plan, now))
  {
    if level < LEVELS && s.clock <= now { TransmitInv(s, level, plan, now); }
  }

  lemma ProbeInv(s: State, level: nat)
    requires Inv(s)
    ensures Inv(Probed(s, level))
  {
    var k := Crypto(level);
    if k in s.streams {
      assert At(s.streams, s.written, s.spaces, k);
      var c := s.streams[k];
      DeclareLostKeeps(c, s.written[k], c.base, c.sent);
      ChangeInv(s, k, DeclareLost(c, c.base, c.sent), s.written[k]);
      assert s.written[k := s.written[k]] == s.written;
    }
  }

  /** A level that is given up keeps neither packets nor its stream. */
  lemma DiscardStreams(m: map<Key, Send>, w: map<Key, seq<byte>>, spaces: seq<Space>, level: nat, left: Space)
    requires |spaces| == LEVELS && level < APPLICATION && StreamsInv(m, w, spaces)
    ensures StreamsInv(m - {Crypto(level)}, w, spaces[level := left])
  {
    var n := m - {Crypto(level)};
    forall k | k in n ensures At(n, w, spaces[level := left], k) { assert At(m, w, spaces, k); }
  }

  lemma DiscardLedger(m: map<Key, Send>, known: seq<nat>, gone: map<nat, nat>, sentBytes: nat, sendLimit: nat,
                      level: nat)
    requires LedgerInv(m, known, gone, sentBytes, sendLimit)
    ensures LedgerInv(m - {Crypto(level)}, known, gone, sentBytes, sendLimit)
  {
    TotalSame(known, SentBy(m, gone), SentBy(m - {Crypto(level)}, gone));
  }

  lemma DiscardInv(s: State, level: nat)
    requires Inv(s)
    ensures Inv(Discarded(s, level))
  {
    if level < APPLICATION {
      var o := Abandoned(s.spaces[level], s.recovery);
      DiscardStreams(s.streams, s.written, s.spaces, level, o.space);
      DiscardLedger(s.streams, s.known, s.gone, s.sentBytes, s.sendLimit, level);
      BalancedInv(s.spaces, s.recovery, s.clock, level, o, s.clock);
    }
  }

  lemma RetireInv(s: State, id: nat)
    requires Inv(s)
    ensures Inv(Retired(s, id))
  {
    if App(id) in s.streams {
      var t := Retired(s, id);
      forall k | k in t.streams ensures At(t.streams, t.written, t.spaces, k) {
        assert At(s.streams, s.written, s.spaces, k);
      }
      TotalSame(s.known, SentBy(s.streams, s.gone), SentBy(t.streams, t.gone));
    }
  }

  lemma AckOnWire(s: State, level: nat, ranges: seq<Range>, largest: nat, ackDelay: nat, now: nat)
    requires OutOnWire(s.spaces, s.wire) && level < LEVELS
    ensures var o := OnAck(s.spaces[level], s.recovery, ranges, largest, ackDelay, now);
            AllOnWire(Frames(o.space.out, level), s.wire)
  {
    OutAtLevel(s.spaces, level, s.wire);
    PickOnWire(s.spaces[level].out, Judged(s.spaces[level], s.recovery, ranges, largest, ackDelay, now), level, s.wire);
  }

  lemma AckInv(s: State, level: nat, ranges: seq<Range>, largest: nat, ackDelay: nat, now: nat)
    requires Inv(s) && level < LEVELS && s.clock <= now
    ensures Inv(QuicDelivery.Settle(s, level, OnAck(s.spaces[level], s.recovery, ranges, largest, ackDelay, now), now))
  {
    var o := OnAck(s.spaces[level], s.recovery, ranges, largest, ackDelay, now);
    forall k | k in s.streams ensures Divides(s, level, o, k) {
      AckDivides(s, level, ranges, largest, ackDelay, now, k);
    }
    AckBalanced(s.spaces[level], s.recovery, ranges, largest, ackDelay, now, s.clock);
    if level == APPLICATION {
      PickKnown(s.spaces[level].out, Judged(s.spaces[level], s.recovery, ranges, largest, ackDelay, now), s.known);
    }
    AckOnWire(s, level, ranges, largest, ackDelay, now);
    SettleInv(s, level, o, now);
  }

  lemma AckStepInv(s: State, level: nat, ranges: seq<Range>, largest: nat, ackDelay: nat, now: nat)
    requires Inv(s)
    ensures Inv(AckTaken(s, level, ranges, largest, ackDelay, now))
  {
    if level < LEVELS && s.clock <= now { AckInv(s, level, ranges, largest, ackDelay, now); }
  }

  lemma TimerInv(s: State, level: nat, now: nat)
    requires Inv(s)
    ensures Inv(TimedOutAt(s, level, now))
  {
    if level < LEVELS && s.clock <= now {
      var o := OnTimer(s.spaces[level], s.recovery, now);
      forall k | k in s.streams ensures Divides(s, level, o, k) { TimerDivides(s, level, now, k); }
      TimerBalanced(s.spaces[level], s.recovery, now, s.clock);
      var a := Aged(s.spaces[level], s.recovery, now);
      if level == APPLICATION { ExpiredKnown(s.spaces[level].out, a, s.known); }
      OutAtLevel(s.spaces, level, s.wire);
      ExpiredOnWire(s.spaces[level].out, a, level, s.wire);
      SettleInv(s, level, o, now);
    }
  }

  lemma ApplyIs(s: State, a: Action)
    requires |s.spaces| == LEVELS
    ensures a.Open? ==> Apply(s, a) == Opened(s, a.id, a.limit)
    ensures a.Append? ==> Apply(s, a) == Appended(s, a.key, a.bytes)
    ensures a.Finish? ==> Apply(s, a) == Ended(s, a.id)
    ensures a.StreamLimit? ==> Apply(s, a) == StreamRaised(s, a.id, a.limit)
    ensures a.DataLimit? ==> Apply(s, a) == DataRaised(s, a.limit)
    ensures a.Build? ==> Apply(s, a) == Transmitted(s, a.level, a.plan, a.now)
    ensures a.AckArrives? ==> Apply(s, a) == AckTaken(s, a.level, a.ranges, a.largest, a.ackDelay, a.now)
    ensures a.LossTimer? ==> Apply(s, a) == TimedOutAt(s, a.level, a.now)
    ensures a.Probe? ==> Apply(s, a) == Probed(s, a.level)
    ensures a.Discard? ==> Apply(s, a) == Discarded(s, a.level)
    ensures a.Retire? ==> Apply(s, a) == Retired(s, a.id)
  {
  }

  lemma StepInv(s: State, a: Action)
    requires Inv(s)
    ensures Inv(Apply(s, a))
  {
    ApplyIs(s, a);
    match a
    case Open(id, limit) => OpenInv(s, id, limit);
    case Append(key, bytes) => AppendInv(s, key, bytes);
    case Finish(id) => EndInv(s, id);
    case StreamLimit(id, limit) => StreamLimitInv(s, id, limit);
    case DataLimit(limit) => DataLimitInv(s, limit);
    case Build(level, plan, now) => BuildStepInv(s, level, plan, now);
    case AckArrives(level, ranges, largest, ackDelay, now) => AckStepInv(s, level, ranges, largest, ackDelay, now);
    case LossTimer(level, now) => TimerInv(s, level, now);
    case Probe(level) => ProbeInv(s, level);
    case Discard(level) => DiscardInv(s, level);
    case Retire(id) => RetireInv(s, id);
  }

  lemma InitInv()
    ensures Inv(Init)
  {
    assert Span(0, 0) == {};
  }

  lemma {:induction false} ReachInv(actions: seq<Action>)
    ensures Inv(Reach(actions))
    decreases |actions|
  {
    if actions == [] {
      InitInv();
    } else {
      ReachInv(actions[..|actions| - 1]);
      StepInv(Reach(actions[..|actions| - 1]), actions[|actions| - 1]);
    }
  }

  // ---- What that says -----------------------------------------------------------------

  /** Packet `p` carries byte `x` of stream `k`. */
  ghost predicate Carrying(p: Packet, level: nat, k: Key, x: nat) {
    exists j :: 0 <= j < |Carries(p, level)| && CarryAt(Carries(p, level)[j], k, x)
  }

  predicate CarryAt(t: Tagged, k: Key, x: nat) { t.key == k && t.frame.low <= x < t.frame.high }

  lemma {:induction false} CoverAt(fs: seq<Tagged>, k: Key, x: nat) returns (j: nat)
    requires x in Cover(fs, k)
    ensures j < |fs| && CarryAt(fs[j], k, x)
  {
    if fs[0].key == k && x in Span(fs[0].frame.low, fs[0].frame.high) { return 0; }
    j := CoverAt(fs[1..], k, x);
    j := j + 1;
  }

  lemma {:induction false} CoveredByPacket(ps: seq<Packet>, level: nat, k: Key, x: nat) returns (i: nat)
    requires x in Cover(Frames(ps, level), k)
    ensures i < |ps| && Carrying(ps[i], level, k, x)
  {
    FramesJoin(Carries(ps[0], level), Frames(ps[1..], level), k, 0);
    if x in Cover(Carries(ps[0], level), k) {
      var j := CoverAt(Carries(ps[0], level), k, x);
      return 0;
    }
    i := CoveredByPacket(ps[1..], level, k, x);
    i := i + 1;
  }

  /** Every byte that has been in a packet is acknowledged, owed again, or in a packet
      whose outcome is still awaited. */
  lemma NoByteForgotten(actions: seq<Action>, k: Key, x: nat)
    requires k in Reach(actions).streams && x < Reach(actions).streams[k].sent
    ensures Home(k) < LEVELS
    ensures var s := Reach(actions);
            var out := s.spaces[Home(k)].out;
            || x in s.streams[k].acked
            || x in s.streams[k].lost
            || exists i :: 0 <= i < |out| && Carrying(out[i], Home(k), k, x)
  {
    ReachInv(actions);
    var s := Reach(actions);
    assert At(s.streams, s.written, s.spaces, k);
    var out := s.spaces[Home(k)].out;
    assert x in Span(0, s.streams[k].sent);
    if x in Cover(Frames(out, Home(k)), k) {
      var i := CoveredByPacket(out, Home(k), k, x);
    }
  }

  /** What is owed lies in [base, sent), none of it acknowledged, and any stretch
      of it can be read back just as it was written. */
  lemma OwedCanBeSent(actions: seq<Action>, k: Key, low: nat, high: nat)
    requires k in Reach(actions).streams && low <= high
    requires Span(low, high) <= Reach(actions).streams[k].lost && low < high
    ensures var s := Reach(actions).streams[k];
            && s.lost !! s.acked && s.lost <= Span(s.base, s.sent)
            && k in Reach(actions).written && high <= |Reach(actions).written[k]|
            && Slice(s, low, high - low) == Some(Reach(actions).written[k][low..high])
  {
    ReachInv(actions);
    var r := Reach(actions);
    assert At(r.streams, r.written, r.spaces, k);
    assert low in Span(low, high) && high - 1 in Span(low, high);
    SliceNeverFails(r.streams[k], r.written[k], low, high);
  }

  /** Every frame that ever went out, first time or again, carried the bytes the
      application wrote from its first offset to its last, every one of them. */
  lemma WireIsTruthful(actions: seq<Action>, i: nat)
    requires i < |Reach(actions).wire|
    ensures Truthful(Reach(actions).wire[i], Reach(actions).written)
  {
    ReachInv(actions);
  }

  lemma {:induction false} OutAt(out: seq<Packet>, level: nat, wire: seq<Carried>, i: nat)
    requires AllOnWire(Frames(out, level), wire) && i < |out|
    ensures AllOnWire(Carries(out[i], level), wire)
  {
    AllOnWireJoin(Carries(out[0], level), Frames(out[1..], level), wire);
    if i > 0 { OutAt(out[1..], level, wire, i - 1); }
  }

  /** Frame `t` went out as recorded, with the bytes the application wrote there. */
  ghost predicate WentOut(t: Tagged, wire: seq<Carried>, w: map<Key, seq<byte>>) {
    exists n :: 0 <= n < |wire| && Bears(wire[n], t) && Truthful(wire[n], w)
  }

  lemma OutWentOut(out: seq<Packet>, level: nat, wire: seq<Carried>, w: map<Key, seq<byte>>, i: nat, j: nat)
    requires AllOnWire(Frames(out, level), wire) && WireInv(wire, w) && i < |out| && j < |Carries(out[i], level)|
    ensures WentOut(Carries(out[i], level)[j], wire, w)
  {
    OutAt(out, level, wire, i);
    AllOnWireAt(Carries(out[i], level), wire, j);
    var n :| 0 <= n < |wire| && Bears(wire[n], Carries(out[i], level)[j]);
    assert Truthful(wire[n], w);
  }

  lemma OutAtLevel(spaces: seq<Space>, level: nat, wire: seq<Carried>)
    requires OutOnWire(spaces, wire) && level < LEVELS
    ensures AllOnWire(Frames(spaces[level].out, level), wire)
  {
  }

  /** Every frame recorded for a packet still out went out as recorded. */
  lemma PacketsAreOnTheWire(actions: seq<Action>, level: nat, i: nat, j: nat)
    requires level < LEVELS && i < |Reach(actions).spaces[level].out|
    requires j < |Carries(Reach(actions).spaces[level].out[i], level)|
    ensures var s := Reach(actions); WentOut(Carries(s.spaces[level].out[i], level)[j], s.wire, s.written)
  {
    ReachInv(actions);
    var s := Reach(actions);
    OutAtLevel(s.spaces, level, s.wire);
    OutWentOut(s.spaces[level].out, level, s.wire, s.written, i, j);
  }

  /** Packet `p` carries the end of stream `k`. */
  ghost predicate CarriesEnd(p: Packet, level: nat, k: Key) {
    exists j :: 0 <= j < |Carries(p, level)| && EndsAt(Carries(p, level)[j], k)
  }

  predicate EndsAt(t: Tagged, k: Key) { t.key == k && t.frame.fin }

  lemma {:induction false} EndAt(fs: seq<Tagged>, k: Key) returns (j: nat)
    requires Ends(fs, k)
    ensures j < |fs| && EndsAt(fs[j], k)
  {
    if EndsAt(fs[0], k) { return 0; }
    j := EndAt(fs[1..], k);
    j := j + 1;
  }

  lemma {:induction false} EndInPacket(ps: seq<Packet>, level: nat, k: Key) returns (i: nat)
    requires Ends(Frames(ps, level), k)
    ensures i < |ps| && CarriesEnd(ps[i], level, k)
  {
    var head, rest := Carries(ps[0], level), ps[1..];
    assert Ends(head, k) || Ends(Frames(rest, level), k) by { FramesJoin(head, Frames(rest, level), k, 0); }
    if Ends(head, k) {
      var j := EndAt(head, k);
      return 0;
    }
    i := EndInPacket(rest, level, k);
    i := i + 1;
  }

  /** The counters are the sums over the packets still out, which lie in the order of
      their numbers and of their times, and the window is never below two datagrams. */
  ghost predicate Balances(s: State) {
    && |s.spaces| == LEVELS
    && s.recovery.inFlight == Flight(s.spaces[0].out) + Flight(s.spaces[1].out) + Flight(s.spaces[2].out)
    && (forall level :: 0 <= level < LEVELS ==> SpaceOk(s.spaces[level], s.clock))
    && s.recovery.window >= 2 * DATAGRAM
  }

  lemma InvBalances(s: State)
    requires Inv(s)
    ensures Balances(s)
  {
    assert PacketsInv(s.spaces, s.recovery, s.clock);
  }

  lemma CountersAreSums(actions: seq<Action>)
    ensures Balances(Reach(actions))
  {
    ReachInv(actions);
    InvBalances(Reach(actions));
  }

  /** What every stream ever opened has sent adds up to what the connection counts,
      within the peer's limit, and no stream passes its own. */
  lemma SendLedger(actions: seq<Action>)
    ensures var s := Reach(actions); LedgerInv(s.streams, s.known, s.gone, s.sentBytes, s.sendLimit)
  {
    ReachInv(actions);
  }
}
