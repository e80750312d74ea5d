/** A delivery brought to its end: what becomes owed, that all of it goes out, and that an ACK of
    everything out settles it. */
module QuicDeliveryDone {
  import opened Arith
  import opened QuicRanges
  import opened QuicSend
  import opened QuicLoss
  import opened QuicLossRules
  import opened QuicDelivery
  import opened QuicDeliveryProof
  import opened QuicDeliveryRun
  import opened QuicDeliveryTheorem
  import opened QuicDeliveryDrain
  import opened QuicDeliveryAcks
  import opened Wrappers

  // ---- What becomes owed ------------------------------------------------------------

  /** What an outcome makes of a stream, by the frames it acknowledges and those it loses. */
  ghost predicate SettledBy(s: Send, t: Send, acked: set<nat>, lost: set<nat>) {
    t.acked == s.acked + acked && t.lost == (s.lost - t.acked) + (lost - t.acked)
  }

  lemma StreamSettled(s: Send, w: seq<byte>, acked: seq<Tagged>, lost: seq<Tagged>, k: Key)
    requires Holds(s, w) && Fits(acked, k, s.sent) && Fits(lost, k, s.sent)
    ensures var t := LoseKey(AckKey(s, acked, k), lost, k);
            SettledBy(s, t, Cover(acked, k), Cover(lost, k)) && t.finAcked == (s.finAcked || Ends(acked, k))
  {
    AckEffect(s, w, acked, k);
    LoseEffect(AckKey(s, acked, k), w, lost, k);
    OwedSets(s.lost, s.acked, Cover(acked, k));
  }

  lemma OwedSets(lost: set<nat>, acked: set<nat>, more: set<nat>)
    requires lost !! acked
    ensures lost - more == lost - (acked + more)
  {
  }

  lemma SettleLost(s: State, level: nat, o: Outcome, now: nat, k: Key)
    requires level < |s.spaces| == LEVELS && k in s.streams && At(s.streams, s.written, s.spaces, k)
    requires Divides(s, level, o, k)
    ensures var t := QuicDelivery.Settle(s, level, o, now);
            && k in t.streams
            && SettledBy(s.streams[k], t.streams[k], Cover(Frames(o.acked, level), k), Cover(Frames(o.lost, level), k))
            && (Home(k) == level ==>
                  t.streams[k].finAcked == (s.streams[k].finAcked || Ends(Frames(o.acked, level), k)))
  {
    var acked, lost, r := Frames(o.acked, level), Frames(o.lost, level), s.streams[k];
    AckProject(s.streams, acked, k);
    LoseProject(AckFrames(s.streams, acked), lost, k);
    if Home(k) == level {
      StreamSettled(r, s.written[k], acked, lost, k);
    } else {
      FramesHome(o.acked, level);
      FramesHome(o.lost, level);
      Untouched(r, acked, level, k);
      Untouched(r, lost, level, k);
      NotHere(acked, level, k);
      NotHere(lost, level, k);
      OwedSets(r.lost, r.acked, {});
    }
  }

  /** Some packet of `ps` carries byte `x` of stream `k`. */
  ghost predicate CarriedBy(ps: seq<Packet>, level: nat, k: Key, x: nat) {
    exists p :: p in ps && Carrying(p, level, k, x)
  }

  lemma CoverIsCarried(ps: seq<Packet>, level: nat, k: Key, x: nat)
    ensures x in Cover(Frames(ps, level), k) <==> CarriedBy(ps, level, k, x)
  {
    if x in Cover(Frames(ps, level), k) {
      var i := CoveredByPacket(ps, level, k, x);
      assert ps[i] in ps;
    }
    if p :| p in ps && Carrying(p, level, k, x) { PacketIsCovered(ps, level, k, p, x); }
  }

  /** Byte `x` is owed: it was, or a packet of `lost` carried it; and it is not acknowledged. */
  ghost predicate OwedAfter(s: Send, t: Send, lost: seq<Packet>, level: nat, k: Key, x: nat) {
    x in t.lost <==> x !in t.acked && (x in s.lost || CarriedBy(lost, level, k, x))
  }

  lemma OutcomeOwes(s: State, level: nat, o: Outcome, now: nat, k: Key, x: nat)
    requires level < |s.spaces| == LEVELS && k in s.streams && At(s.streams, s.written, s.spaces, k)
    requires Divides(s, level, o, k)
    ensures var t := QuicDelivery.Settle(s, level, o, now);
            k in t.streams && OwedAfter(s.streams[k], t.streams[k], o.lost, level, k, x)
  {
    SettleLost(s, level, o, now, k);
    CoverIsCarried(o.lost, level, k, x);
  }

  /** What is owed after an ACK: what was, and what the packets it makes lost carried, less what is
      acknowledged. */
  lemma AckOwes(s: State, a: Action, k: Key, x: nat)
    requires Inv(s) && Taken(s, a) && k in s.streams
    ensures var t := Apply(s, a);
            var o := OnAck(s.spaces[a.level], s.recovery, a.ranges, a.largest, a.ackDelay, a.now);
            k in t.streams && OwedAfter(s.streams[k], t.streams[k], o.lost, a.level, k, x)
  {
    assert At(s.streams, s.written, s.spaces, k);
    AckDivides(s, a.level, a.ranges, a.largest, a.ackDelay, a.now, k);
    OutcomeOwes(s, a.level, OnAck(s.spaces[a.level], s.recovery, a.ranges, a.largest, a.ackDelay, a.now), a.now, k, x);
    ApplyIs(s, a);
  }

  /** The same after the timer, which acknowledges nothing. */
  lemma TimerOwes(s: State, level: nat, now: nat, k: Key, x: nat)
    requires Inv(s) && level < LEVELS && s.clock <= now && k in s.streams
    ensures var t := Apply(s, LossTimer(level, now));
            var o := OnTimer(s.spaces[level], s.recovery, now);
            k in t.streams && OwedAfter(s.streams[k], t.streams[k], o.lost, level, k, x)
  {
    assert At(s.streams, s.written, s.spaces, k);
    TimerDivides(s, level, now, k);
    OutcomeOwes(s, level, OnTimer(s.spaces[level], s.recovery, now), now, k, x);
    ApplyIs(s, LossTimer(level, now));
  }

  lemma ProbedOwes(c: Send, w: seq<byte>)
    requires Holds(c, w)
    ensures DeclareLost(c, c.base, c.sent).lost == Span(0, c.sent) - c.acked
  {
    var lost := DeclareLost(c, c.base, c.sent).lost;
    forall x ensures x in lost <==> x in Span(0, c.sent) - c.acked {
      if x in Span(0, c.sent) - c.acked { assert x !in Span(0, c.base); }
    }
  }

  lemma ReachHolds(actions: seq<Action>, k: Key)
    requires k in Reach(actions).streams
    ensures k in Reach(actions).written && Holds(Reach(actions).streams[k], Reach(actions).written[k])
    ensures Home(k) < LEVELS
  {
    ReachInv(actions);
    var r := Reach(actions);
    assert At(r.streams, r.written, r.spaces, k);
  }

  lemma ReachNext(actions: seq<Action>, a: Action)
    ensures Reach(actions + [a]) == Apply(Reach(actions), a)
  {
    assert (actions + [a])[..|actions|] == actions;
  }

  /** A probe of the handshake owes all of it that was sent and is not acknowledged. */
  lemma ProbeOwes(actions: seq<Action>, level: nat)
    requires Crypto(level) in Reach(actions).streams
    ensures var s, t := Reach(actions).streams[Crypto(level)], Reach(actions + [Probe(level)]).streams;
            Crypto(level) in t && t[Crypto(level)].lost == Span(0, s.sent) - s.acked
  {
    ReachHolds(actions, Crypto(level));
    ProbedOwes(Reach(actions).streams[Crypto(level)], Reach(actions).written[Crypto(level)]);
    ReachNext(actions, Probe(level));
  }

  // ---- All of it goes out -------------------------------------------------------------------

  /** How much of a stream has still to go out, or again. */
  function Pending(k: Key, s: Send, written: nat): int {
    |s.lost| + (written - s.sent) + (if k.App? && s.finQueued && !s.finSent then 1 else 0)
  }

  /** The limits let all of it go. */
  ghost predicate Free(b: Building, k: Key, w: seq<byte>, sendLimit: nat) {
    && k in b.streams && Holds(b.streams[k], w)
    && (k.App? ==> |w| <= b.streams[k].limit && b.sentBytes + (|w| - b.streams[k].sent) <= sendLimit)
  }

  /** From `b` to `c` no more is pending, and less if `served`. */
  ghost predicate Nearer(k: Key, w: seq<byte>, b: Building, c: Building, served: bool)
    requires k in b.streams && k in c.streams
  {
    var was, now := Pending(k, b.streams[k], |w|), Pending(k, c.streams[k], |w|);
    now <= was && (served && was > 0 ==> now < was)
  }

  lemma RepairNearer(k: Key, s: Send, w: seq<byte>, room: nat, f: Option<Frame>)
    requires Holds(s, w) && s.lost != {} && Repairs(s.lost, room, f) && f.Some?
    ensures var t := Sent(s, f.value);
            Holds(t, w) && t.sent == s.sent && t.limit == s.limit && Pending(k, t, |w|) < Pending(k, s, |w|)
  {
    PutDrains(s, w, room, f);
    SmallerSize(Sent(s, f.value).lost, s.lost);
    assert f.value.high - 1 in Span(f.value.low, f.value.high);
  }

  lemma AdvanceNearer(k: Key, s: Send, w: seq<byte>, room: nat, credit: nat, f: Option<Frame>)
    requires Holds(s, w) && s.lost == {} && Advances(s, |w|, room, credit, f) && f.Some? && k.App?
    requires |w| <= s.limit && |w| - s.sent <= credit
    ensures f.value.low <= f.value.high <= |w|
    ensures var t := Sent(s, f.value);
            && Holds(t, w) && t.sent == f.value.high && t.limit == s.limit
            && Pending(k, t, |w|) < Pending(k, s, |w|)
  {
    SentKeeps(s, w, f.value);
    assert Span(f.value.low, f.value.high) * s.lost == {};
    assert Sent(s, f.value).lost == {};
  }

  /** A turn of the stream with room left. */
  lemma TurnNearer(b: Building, turn: Turn, sendLimit: nat, k: Key, w: seq<byte>)
    requires k == App(turn.id) && Free(b, k, w, sendLimit)
    ensures var c := AddStream(b, turn.id, turn.room, sendLimit);
            Free(c, k, w, sendLimit) && Nearer(k, w, b, c, turn.room > 0)
  {
    var s, credit := b.streams[k], if sendLimit > b.sentBytes then sendLimit - b.sentBytes else 0;
    var f := NextFrame(s, turn.room, credit);
    FrameIs(s, w, turn.room, credit);
    if f.Some? {
      if s.lost != {} { RepairNearer(k, s, w, turn.room, f); } else { AdvanceNearer(k, s, w, turn.room, credit, f); }
    }
  }

  /** Every turn is the stream's. */
  ghost predicate OnlyOf(turns: seq<Turn>, id: nat) { forall i :: 0 <= i < |turns| ==> turns[i].id == id }

  lemma {:induction false} TurnsNearer(b: Building, turns: seq<Turn>, sendLimit: nat, k: Key, w: seq<byte>)
    requires k.App? && OnlyOf(turns, k.id) && Free(b, k, w, sendLimit)
    ensures var c := AddStreams(b, turns, sendLimit);
            Free(c, k, w, sendLimit) && Nearer(k, w, b, c, HasTurn(turns, k.id))
    decreases |turns|
  {
    if turns != [] {
      TurnNearer(b, turns[0], sendLimit, k, w);
      TurnsNearer(AddStream(b, turns[0].id, turns[0].room, sendLimit), turns[1..], sendLimit, k, w);
      if HasTurn(turns, k.id) && turns[0].room == 0 {
        var i :| 0 <= i < |turns| && turns[i].id == k.id && turns[i].room > 0;
        assert turns[1..][i - 1] == turns[i];
      }
    }
  }

  lemma {:induction false} TurnsOfOthers(b: Building, turns: seq<Turn>, sendLimit: nat, k: Key)
    requires k.Crypto? && k in b.streams
    ensures var c := AddStreams(b, turns, sendLimit); k in c.streams && c.streams[k] == b.streams[k]
    decreases |turns|
  {
    if turns != [] { TurnsOfOthers(AddStream(b, turns[0].id, turns[0].room, sendLimit), turns[1..], sendLimit, k); }
  }

  lemma CryptoNearer(b: Building, level: nat, room: nat, sendLimit: nat, k: Key, w: seq<byte>)
    requires Free(b, k, w, sendLimit)
    ensures var c := AddCrypto(b, level, room);
            Free(c, k, w, sendLimit) && Nearer(k, w, b, c, k == Crypto(level) && room > 0)
  {
    if k == Crypto(level) {
      var s := b.streams[k];
      var f := NextCrypto(s, room);
      CryptoIs(s, w, room);
      if f.Some? {
        if s.lost != {} { RepairNearer(k, s, w, room, f); } else { SentKeeps(s, w, f.value); }
      }
    }
  }

  /** A packet for stream `k`, and for no other of the application's if it is one of those. */
  ghost predicate ServesOnly(a: Action, k: Key) { Serves(a, k) && (k.App? ==> OnlyOf(a.plan.turns, k.id)) }

  /** The state's limits let all of the stream go. */
  ghost predicate Unlimited(s: State, k: Key) {
    && k in s.streams && k in s.written
    && Free(Building(s.streams, s.sentBytes, [], s.wire), k, s.written[k], s.sendLimit)
  }

  ghost function Left(s: State, k: Key): int
    requires k in s.streams && k in s.written
  {
    Pending(k, s.streams[k], |s.written[k]|)
  }

  lemma BuiltNearer(s: State, a: Action, k: Key)
    requires Unlimited(s, k) && ServesOnly(a, k)
    ensures var b, c := Building(s.streams, s.sentBytes, [], s.wire), Built(s, a.level, a.plan);
            Free(c, k, s.written[k], s.sendLimit) && Nearer(k, s.written[k], b, c, true)
  {
    var b, w := Building(s.streams, s.sentBytes, [], s.wire), s.written[k];
    var c := if a.level == APPLICATION then AddStreams(b, a.plan.turns, s.sendLimit) else b;
    if k.App? {
      TurnsNearer(b, a.plan.turns, s.sendLimit, k, w);
    } else if a.level == APPLICATION {
      TurnsOfOthers(b, a.plan.turns, s.sendLimit, k);
    }
    CryptoNearer(c, a.level, a.plan.cryptoRoom, s.sendLimit, k, w);
  }

  lemma BuildNearer(s: State, a: Action, k: Key)
    requires |s.spaces| == LEVELS && Unlimited(s, k) && ServesOnly(a, k) && a.level < LEVELS && s.clock <= a.now
    ensures var t := Apply(s, a);
            && Unlimited(t, k) && t.clock == a.now && t.written == s.written
            && Left(t, k) <= Left(s, k) && (Left(s, k) > 0 ==> Left(t, k) < Left(s, k))
  {
    BuiltNearer(s, a, k);
  }

  ghost predicate ServingOnly(builds: seq<Action>, k: Key, clock: nat) {
    && Serving(builds, k, clock) && (forall i :: 0 <= i < |builds| ==> ServesOnly(builds[i], k))
  }

  /** At most `left` is pending, and what was written is still `w`. */
  ghost predicate LeftBelow(s: State, k: Key, w: seq<byte>, clock: nat, left: int) {
    Unlimited(s, k) && s.written[k] == w && s.clock == clock && (Left(s, k) <= 0 || Left(s, k) <= left)
  }

  lemma OneNearer(before: seq<Action>, all: seq<Action>, k: Key, w: seq<byte>, left: int)
    requires |all| == |before| + 1 && all[..|before|] == before
    requires var a := all[|before|]; ServesOnly(a, k) && Reach(before).clock <= a.now
    requires LeftBelow(Reach(before), k, w, Reach(before).clock, left)
    ensures LeftBelow(Reach(all), k, w, all[|before|].now, left - 1)
  {
    ReachHolds(before, k);
    BuildNearer(Reach(before), all[|before|], k);
  }

  lemma {:induction false} NearerBy(actions: seq<Action>, builds: seq<Action>, k: Key, w: seq<byte>)
    requires Unlimited(Reach(actions), k) && ServingOnly(builds, k, Reach(actions).clock)
    requires w == Reach(actions).written[k]
    ensures LeftBelow(Reach(actions + builds), k, w,
                      if builds == [] then Reach(actions).clock else builds[|builds| - 1].now,
                      Left(Reach(actions), k) - |builds|)
    decreases |builds|
  {
    if builds == [] {
      assert actions + builds == actions;
    } else {
      var front := builds[..|builds| - 1];
      NearerBy(actions, front, k, w);
      assert (actions + builds)[..|actions + front|] == actions + front;
      OneNearer(actions + front, actions + builds, k, w, Left(Reach(actions), k) - |front|);
    }
  }

  /** From every reachable state with limits that allow it: as many packets with room for a stream
      as it has bytes to send, or to send again, and one for its end, leave nothing to send. */
  lemma AllGoesOut(actions: seq<Action>, builds: seq<Action>, k: Key)
    requires Unlimited(Reach(actions), k) && ServingOnly(builds, k, Reach(actions).clock)
    requires |builds| >= Left(Reach(actions), k)
    ensures var s := Reach(actions + builds);
            && k in s.streams && k in s.written && s.written[k] == Reach(actions).written[k]
            && s.streams[k].lost == {} && s.streams[k].sent == |s.written[k]|
            && (k.App? && s.streams[k].finQueued ==> s.streams[k].finSent)
  {
    NearerBy(actions, builds, k, Reach(actions).written[k]);
    ReachHolds(actions + builds, k);
  }

  // ---- And is settled --------------------------------------------------------------------------

  /** Everything of stream `k` has gone out, and none of it is owed. */
  ghost predicate AllOut(s: State, k: Key) {
    && k in s.streams && k in s.written && s.streams[k].lost == {} && s.streams[k].sent == |s.written[k]|
  }

  lemma EveryByteConfirmed(actions: seq<Action>, a: Action, k: Key, x: nat)
    requires AllOut(Reach(actions), k) && Taken(Reach(actions), a) && a.level == Home(k)
    requires forall p :: p in Reach(actions).spaces[a.level].out ==> Names(a.ranges, a.largest, p)
    requires x < |Reach(actions).written[k]|
    ensures var t := Apply(Reach(actions), a); k in t.streams && x in t.streams[k].acked
  {
    var s := Reach(actions);
    ReachInv(actions);
    AckAcknowledges(s, a, k, x);
    NoByteForgotten(actions, k, x);
    if x !in s.streams[k].acked {
      var i :| 0 <= i < |s.spaces[Home(k)].out| && Carrying(s.spaces[Home(k)].out[i], Home(k), k, x);
      assert s.spaces[a.level].out[i] in s.spaces[a.level].out;
    }
  }

  lemma WholeIsAcked(s: Send, w: seq<byte>)
    requires Holds(s, w) && forall x :: 0 <= x < |w| ==> x in s.acked
    ensures s.acked == Span(0, |w|) && s.base == |w| && s.data == [] && s.lost == {}
  {
    assert s.base == |w|;
    assert Span(0, s.sent) <= Span(0, |w|);
    forall x ensures x in s.acked <==> x in Span(0, |w|) { }
    assert Span(s.base, s.sent) == {};
  }

  lemma {:induction false} AllPicked(ps: seq<Packet>, a: Ack)
    requires forall p :: p in ps ==> Names(a.ranges, a.largest, p)
    ensures Pick(ps, a, Acked) == ps
    decreases |ps|
  {
    if ps != [] {
      assert ps[0] in ps && forall p :: p in ps[1..] ==> p in ps;
      InRangesIsInSome(a.ranges, ps[0].number);
      AllPicked(ps[1..], a);
      assert ps == [ps[0]] + ps[1..];
    }
  }

  lemma AllAreAcked(s: Space, r: Recovery, ranges: seq<Range>, largest: nat, ackDelay: nat, now: nat)
    requires forall p :: p in s.out ==> Names(ranges, largest, p)
    ensures OnAck(s, r, ranges, largest, ackDelay, now).acked == s.out
  {
    AllPicked(s.out, Judged(s, r, ranges, largest, ackDelay, now));
  }

  /** The end of the stream, if it went out, is acknowledged with the rest. */
  lemma EndConfirmed(actions: seq<Action>, a: Action, k: Key)
    requires k in Reach(actions).streams && Taken(Reach(actions), a) && a.level == Home(k)
    requires forall p :: p in Reach(actions).spaces[a.level].out ==> Names(a.ranges, a.largest, p)
    ensures var s, t := Reach(actions), Apply(Reach(actions), a);
            k in t.streams && (s.streams[k].finSent ==> t.streams[k].finAcked)
  {
    var s := Reach(actions);
    ReachInv(actions);
    assert At(s.streams, s.written, s.spaces, k);
    AckDivides(s, a.level, a.ranges, a.largest, a.ackDelay, a.now, k);
    AllAreAcked(s.spaces[a.level], s.recovery, a.ranges, a.largest, a.ackDelay, a.now);
    SettleLost(s, a.level, OnAck(s.spaces[a.level], s.recovery, a.ranges, a.largest, a.ackDelay, a.now), a.now, k);
    ApplyIs(s, a);
  }

  lemma AckWrites(s: State, a: Action, k: Key)
    requires a.AckArrives? && |s.spaces| == LEVELS && k in s.streams
    ensures Apply(s, a).written == s.written && k in Apply(s, a).streams
  {
    ApplyIs(s, a);
    if a.level < LEVELS {
      SettleKeys(s, a.level, OnAck(s.spaces[a.level], s.recovery, a.ranges, a.largest, a.ackDelay, a.now), a.now, k);
    }
  }

  /** An ACK of every packet out then acknowledges every byte ever written, and the end if it was
      sent; and nothing is left to hold. */
  lemma AllAcknowledged(actions: seq<Action>, a: Action, k: Key)
    requires AllOut(Reach(actions), k) && Taken(Reach(actions), a) && a.level == Home(k)
    requires forall p :: p in Reach(actions).spaces[a.level].out ==> Names(a.ranges, a.largest, p)
    ensures var s, t := Reach(actions), Reach(actions + [a]);
            && k in t.streams && t.streams[k].acked == Span(0, |s.written[k]|)
            && t.streams[k].base == |s.written[k]| && t.streams[k].data == [] && t.streams[k].lost == {}
            && (s.streams[k].finSent ==> t.streams[k].finAcked)
  {
    var s := Reach(actions);
    AckWrites(s, a, k);
    EndConfirmed(actions, a, k);
    ReachNext(actions, a);
    var t := Reach(actions + [a]);
    forall x | 0 <= x < |s.written[k]| ensures x in t.streams[k].acked { EveryByteConfirmed(actions, a, k, x); }
    ReachHolds(actions + [a], k);
    WholeIsAcked(t.streams[k], t.written[k]);
  }

  /** A level given up has no packet out and no stream, and what its packets took of the window
      is free again. */
  lemma DiscardEmpties(actions: seq<Action>, level: nat)
    requires level < APPLICATION
    ensures var s, t := Reach(actions), Reach(actions + [Discard(level)]);
            && t.spaces[level].out == [] && Crypto(level) !in t.streams
            && t.recovery.inFlight == s.recovery.inFlight - Flight(s.spaces[level].out)
            && (forall k :: k in s.streams && k != Crypto(level) ==> k in t.streams && t.streams[k] == s.streams[k])
  {
    ReachNext(actions, Discard(level));
  }

  // ---- From the application's calls on -----------------------------------------------------------

  /** Stream `id` holds `bytes`, none of them sent, its end is queued, and it may all go. */
  ghost predicate Ready(s: State, id: nat, bytes: seq<byte>) {
    && Unlimited(s, App(id)) && s.written[App(id)] == bytes
    && s.streams[App(id)].sent == 0 && s.streams[App(id)].finQueued
  }

  lemma CallsTaken(s: State, id: nat, bytes: seq<byte>, limit: nat, total: nat)
    requires |s.spaces| == LEVELS && id !in s.known && |bytes| <= limit && s.sentBytes + |bytes| <= total
    ensures var a := Apply(Apply(s, Open(id, 0)), Append(App(id), bytes));
            Ready(Apply(Apply(Apply(a, Finish(id)), StreamLimit(id, limit)), DataLimit(total)), id, bytes)
  {
    var k := App(id);
    var a := Apply(s, Open(id, 0));
    assert k in a.streams && a.streams[k] == Empty && a.written[k] == [] && a.sentBytes == s.sentBytes;
    var b := Apply(a, Append(k, bytes));
    assert [] + bytes == bytes;
    assert b.streams[k] == Write(Empty, bytes) && b.written[k] == bytes && b.sentBytes == s.sentBytes;
    var d := Apply(Apply(b, Finish(id)), StreamLimit(id, limit));
    assert d.streams[k] == Write(Empty, bytes).(finQueued := true, limit := limit) && d.written[k] == bytes;
    assert d.sentBytes == s.sentBytes;
    assert Holds(d.streams[k], bytes) by { assert bytes[0..] == bytes && Span(0, 0) == {}; }
  }

  /** A stream opened, written, ended and given the limits it needs is ready to go. */
  lemma CallsMakeReady(actions: seq<Action>, id: nat, bytes: seq<byte>, limit: nat, total: nat)
    requires id !in Reach(actions).known && |bytes| <= limit && Reach(actions).sentBytes + |bytes| <= total
    ensures Ready(Reach(actions + [Open(id, 0)] + [Append(App(id), bytes)] + [Finish(id)] + [StreamLimit(id, limit)]
                        + [DataLimit(total)]), id, bytes)
  {
    CallsTaken(Reach(actions), id, bytes, limit, total);
    var a := actions + [Open(id, 0)];
    var b := a + [Append(App(id), bytes)];
    var d := b + [Finish(id)];
    ReachNext(actions, Open(id, 0));
    ReachNext(a, Append(App(id), bytes));
    ReachNext(b, Finish(id));
    ReachNext(d, StreamLimit(id, limit));
    ReachNext(d + [StreamLimit(id, limit)], DataLimit(total));
  }
}
