/** Where a stream ends: the end that is queued, the frames that carry it, and the receiver
    that is handed those frames in any order. */
module QuicDeliveryEnd {
  import opened Arith
  import opened QuicRanges
  import opened QuicSend
  import opened QuicLoss
  import opened QuicDelivery
  import opened QuicDeliveryWire
  import opened QuicDeliveryLedger
  import opened QuicDeliveryRun
  import opened QuicDeliveryTheorem
  import opened Wrappers
  import R = QuicReceive

  // ---- An end that went out is queued --------------------------------------------------

  ghost predicate Queued(m: map<Key, Send>, c: Carried) {
    c.key in m && c.frame.fin ==> m[c.key].finQueued
  }

  ghost predicate EndQueued(m: map<Key, Send>, wire: seq<Carried>) {
    forall i :: 0 <= i < |wire| ==> Queued(m, wire[i])
  }

  /** Says that the end of stream `k`, if one is meant, is its last byte. */
  ghost predicate RightEnd(c: Carried, w: map<Key, seq<byte>>, k: Option<Key>) {
    k == Some(c.key) && c.frame.fin ==> c.key in w && c.frame.high == |w[c.key]|
  }

  ghost predicate RightEnds(wire: seq<Carried>, w: map<Key, seq<byte>>, k: Option<Key>) {
    forall i :: 0 <= i < |wire| ==> RightEnd(wire[i], w, k)
  }

  /** No stream is new, and none has its end queued or unqueued. */
  ghost predicate SameEnds(m: map<Key, Send>, n: map<Key, Send>) {
    forall k :: k in n ==> k in m && n[k].finQueued == m[k].finQueued
  }

  lemma QueuedStays(m: map<Key, Send>, n: map<Key, Send>, wire: seq<Carried>)
    requires EndQueued(m, wire) && SameEnds(m, n)
    ensures EndQueued(n, wire)
  {
    forall i | 0 <= i < |wire| ensures Queued(n, wire[i]) { assert Queued(m, wire[i]); }
  }

  lemma {:induction false} AckEnds(m: map<Key, Send>, fs: seq<Tagged>)
    ensures SameEnds(m, AckFrames(m, fs))
    decreases |fs|
  {
    if fs != [] {
      var k := fs[0].key;
      AckEnds(if k in m then m[k := AckOne(m[k], fs[0].frame)] else m, fs[1..]);
    }
  }

  lemma {:induction false} LoseEnds(m: map<Key, Send>, fs: seq<Tagged>)
    ensures SameEnds(m, LoseFrames(m, fs))
    decreases |fs|
  {
    if fs != [] {
      var k := fs[0].key;
      LoseEnds(if k in m then m[k := LoseOne(m[k], fs[0].frame)] else m, fs[1..]);
    }
  }

  lemma SettleEnds(s: State, level: nat, o: Outcome, now: nat)
    requires level < |s.spaces|
    ensures SameEnds(s.streams, QuicDelivery.Settle(s, level, o, now).streams)
  {
    AckEnds(s.streams, Frames(o.acked, level));
    LoseEnds(AckFrames(s.streams, Frames(o.acked, level)), Frames(o.lost, level));
  }

  // ---- Building a packet ---------------------------------------------------------------

  /** A packet under way: the ends in it are queued, and of stream `k` at its last byte. */
  ghost predicate EndsIn(b: Building, was: map<Key, Send>, w: map<Key, seq<byte>>, k: Option<Key>) {
    SameEnds(was, b.streams) && EndQueued(b.streams, b.wire) && RightEnds(b.wire, w, k)
  }

  lemma PutEnds(b: Building, key: Key, f: Frame, counted: nat, was: map<Key, Send>, w: map<Key, seq<byte>>,
                k: Option<Key>)
    requires EndsIn(b, was, w, k) && key in b.streams && f.low <= f.high
    requires f.fin ==> b.streams[key].finQueued && key in w && f.high == |w[key]|
    ensures EndsIn(Put(b, key, f, counted), was, w, k)
  {
    var c := Put(b, key, f, counted);
    QueuedStays(b.streams, c.streams, b.wire);
    forall i | 0 <= i < |c.wire| ensures Queued(c.streams, c.wire[i]) && RightEnd(c.wire[i], w, k) {
      if i < |b.wire| { assert Queued(c.streams, b.wire[i]) && RightEnd(b.wire[i], w, k); }
    }
  }

  /** A frame that ends a stream ends it where it was ended. */
  lemma FrameEnds(s: Send, all: seq<byte>, room: nat, credit: nat)
    requires Holds(s, all) && NextFrame(s, room, credit).Some? && NextFrame(s, room, credit).value.fin
    ensures s.finQueued && NextFrame(s, room, credit).value.high == |all|
  {
    FrameLies(s, all, room, credit);
  }

  lemma AddStreamEnds(b: Building, id: nat, room: nat, sendLimit: nat, was: map<Key, Send>, w: map<Key, seq<byte>>,
                      k: Option<Key>)
    requires EndsIn(b, was, w, k) && AllHold(b.streams, w)
    ensures EndsIn(AddStream(b, id, room, sendLimit), was, w, k)
  {
    var key := App(id);
    if key in b.streams {
      var s, credit := b.streams[key], if sendLimit > b.sentBytes then sendLimit - b.sentBytes else 0;
      var f := NextFrame(s, room, credit);
      if f.Some? && f.value.low <= f.value.high {
        if f.value.fin { FrameEnds(s, w[key], room, credit); }
        PutEnds(b, key, f.value, if s.lost == {} then f.value.high - f.value.low else 0, was, w, k);
      }
    }
  }

  lemma {:induction false} AddStreamsEnds(b: Building, turns: seq<Turn>, s: State, k: Option<Key>)
    requires EndsIn(b, s.streams, s.written, k) && BuildInv(b, s.written, s.known, s.gone, s.sendLimit)
    ensures EndsIn(AddStreams(b, turns, s.sendLimit), s.streams, s.written, k)
    decreases |turns|
  {
    if turns != [] {
      var c := AddStream(b, turns[0].id, turns[0].room, s.sendLimit);
      AddStreamEnds(b, turns[0].id, turns[0].room, s.sendLimit, s.streams, s.written, k);
      AddStreamInv(b, turns[0].id, turns[0].room, s.written, s.known, s.gone, s.sendLimit, c);
      AddStreamsEnds(c, turns[1..], s, k);
    }
  }

  lemma AddCryptoEnds(b: Building, level: nat, room: nat, was: map<Key, Send>, w: map<Key, seq<byte>>, k: Option<Key>)
    requires EndsIn(b, was, w, k)
    ensures EndsIn(AddCrypto(b, level, room), was, w, k)
  {
    var key := Crypto(level);
    if key in b.streams {
      var f := NextCrypto(b.streams[key], room);
      if f.Some? && f.value.low <= f.value.high { PutEnds(b, key, f.value, 0, was, w, k); }
    }
  }

  lemma BuiltEnds(s: State, level: nat, plan: Plan, k: Option<Key>)
    requires Inv(s) && EndQueued(s.streams, s.wire) && RightEnds(s.wire, s.written, k)
    ensures EndsIn(Built(s, level, plan), s.streams, s.written, k)
  {
    InvHolds(s);
    var b := Building(s.streams, s.sentBytes, [], s.wire);
    AddStreamsEnds(b, plan.turns, s, k);
    AddCryptoEnds(if level == APPLICATION then AddStreams(b, plan.turns, s.sendLimit) else b, level, plan.cryptoRoom,
                  s.streams, s.written, k);
  }

  // ---- Every step ------------------------------------------------------------------------

  /** The application says stream `k` ends here. */
  predicate Finishes(a: Action, k: Key) { k.App? && a.Finish? && a.id == k.id }

  /** The application writes to it. */
  predicate WritesTo(a: Action, k: Key) { a.Append? && a.key == k && a.bytes != [] }

  /** What every step keeps of stream `k`. */
  ghost predicate EndInv(s: State, k: Option<Key>) {
    EndQueued(s.streams, s.wire) && RightEnds(s.wire, s.written, k)
  }

  /** A step that leaves the wire, what was written and every end alone. */
  ghost predicate Quiet(s: State, t: State) {
    SameEnds(s.streams, t.streams) && t.wire == s.wire && t.written == s.written
  }

  lemma QuietStep(s: State, t: State, k: Option<Key>)
    requires EndInv(s, k) && Quiet(s, t)
    ensures EndInv(t, k)
  {
    QueuedStays(s.streams, t.streams, s.wire);
  }

  lemma OpenEnds(s: State, id: nat, limit: nat, k: Option<Key>)
    requires Inv(s) && EndInv(s, k)
    ensures EndInv(Opened(s, id, limit), k)
  {
    if id !in s.known {
      var t := Opened(s, id, limit);
      forall i | 0 <= i < |s.wire| ensures Queued(t.streams, s.wire[i]) && RightEnd(s.wire[i], t.written, k) {
        assert Truthful(s.wire[i], s.written);
        assert s.wire[i].key != App(id);
        assert Queued(s.streams, s.wire[i]) && RightEnd(s.wire[i], s.written, k);
      }
    }
  }

  lemma FinishEnds(s: State, id: nat, k: Option<Key>)
    requires EndInv(s, k)
    ensures EndInv(Ended(s, id), k)
  {
    var t := Ended(s, id);
    forall i | 0 <= i < |s.wire| ensures Queued(t.streams, s.wire[i]) { assert Queued(s.streams, s.wire[i]); }
  }

  /** Some frame that went out says where stream `k` ends. */
  ghost predicate EndOut(wire: seq<Carried>, k: Key) {
    exists n :: 0 <= n < |wire| && wire[n].key == k && wire[n].frame.fin
  }

  /** Bytes written to a stream whose end has not gone out come after no end. */
  lemma AppendEnds(s: State, key: Key, bytes: seq<byte>, k: Option<Key>)
    requires EndInv(s, k)
    requires bytes != [] && k == Some(key) && key in s.streams ==> !EndOut(s.wire, key)
    ensures EndInv(Appended(s, key, bytes), k)
    ensures SameEnds(s.streams, Appended(s, key, bytes).streams)
  {
    var t := Appended(s, key, bytes);
    QueuedStays(s.streams, t.streams, s.wire);
    forall i | 0 <= i < |s.wire| ensures RightEnd(s.wire[i], t.written, k) {
      assert RightEnd(s.wire[i], s.written, k);
    }
  }

  lemma BuildEnds(s: State, level: nat, plan: Plan, now: nat, k: Option<Key>)
    requires Inv(s) && EndInv(s, k)
    ensures EndInv(Transmitted(s, level, plan, now), k)
    ensures SameEnds(s.streams, Transmitted(s, level, plan, now).streams)
  {
    BuiltEnds(s, level, plan, k);
  }

  lemma AckQuiet(s: State, level: nat, ranges: seq<Range>, largest: nat, ackDelay: nat, now: nat)
    requires |s.spaces| == LEVELS
    ensures Quiet(s, AckTaken(s, level, ranges, largest, ackDelay, now))
  {
    if level < LEVELS && s.clock <= now && largest < s.spaces[level].next {
      SettleEnds(s, level, OnAck(s.spaces[level], s.recovery, ranges, largest, ackDelay, now), now);
    }
  }

  lemma TimerQuiet(s: State, level: nat, now: nat)
    requires |s.spaces| == LEVELS
    ensures Quiet(s, TimedOutAt(s, level, now))
  {
    if level < LEVELS && s.clock <= now { SettleEnds(s, level, OnTimer(s.spaces[level], s.recovery, now), now); }
  }

  lemma LimitQuiet(s: State, id: nat, limit: nat)
    ensures Quiet(s, StreamRaised(s, id, limit)) && Quiet(s, DataRaised(s, limit))
  {
  }

  lemma ProbeQuiet(s: State, level: nat)
    ensures Quiet(s, Probed(s, level))
  {
  }

  lemma DiscardQuiet(s: State, level: nat)
    requires |s.spaces| == LEVELS
    ensures Quiet(s, Discarded(s, level))
  {
  }

  lemma RetireQuiet(s: State, id: nat)
    ensures Quiet(s, Retired(s, id))
  {
  }

  /** The steps that are none of opening, writing, ending and building. */
  lemma OthersQuiet(s: State, a: Action)
    requires |s.spaces| == LEVELS && !a.Open? && !a.Append? && !a.Finish? && !a.Build?
    ensures Quiet(s, Apply(s, a))
  {
    ApplyIs(s, a);
    match a
    case StreamLimit(id, limit) => LimitQuiet(s, id, limit);
    case DataLimit(limit) => LimitQuiet(s, 0, limit);
    case AckArrives(level, ranges, largest, ackDelay, now) => AckQuiet(s, level, ranges, largest, ackDelay, now);
    case LossTimer(level, now) => TimerQuiet(s, level, now);
    case Probe(level) => ProbeQuiet(s, level);
    case Discard(level) => DiscardQuiet(s, level);
    case Retire(id) => RetireQuiet(s, id);
  }

  /** The application writes to stream `k` though its end has gone out. */
  ghost predicate WritesPast(s: State, a: Action, k: Key) {
    WritesTo(a, k) && k in s.streams && EndOut(s.wire, k)
  }

  /** Whose end a step queues. */
  ghost predicate OnlyFinishes(s: State, a: Action, t: State) {
    forall k :: k in t.streams && t.streams[k].finQueued ==>
                  (k in s.streams && s.streams[k].finQueued) || Finishes(a, k)
  }

  lemma StepEnds(s: State, a: Action, k: Option<Key>)
    requires Inv(s) && EndInv(s, k)
    requires k.Some? ==> !WritesPast(s, a, k.value)
    ensures EndInv(Apply(s, a), k)
  {
    ApplyIs(s, a);
    if a.Open? {
      OpenEnds(s, a.id, a.limit, k);
    } else if a.Append? {
      AppendEnds(s, a.key, a.bytes, k);
    } else if a.Finish? {
      FinishEnds(s, a.id, k);
    } else if a.Build? {
      BuildEnds(s, a.level, a.plan, a.now, k);
    } else {
      OthersQuiet(s, a);
      QuietStep(s, Apply(s, a), k);
    }
  }

  lemma StepFinishes(s: State, a: Action)
    requires Inv(s) && EndQueued(s.streams, s.wire)
    ensures OnlyFinishes(s, a, Apply(s, a))
  {
    ApplyIs(s, a);
    if a.Append? {
      AppendEnds(s, a.key, a.bytes, None);
    } else if a.Build? {
      BuildEnds(s, a.level, a.plan, a.now, None);
    } else if !a.Open? && !a.Finish? {
      OthersQuiet(s, a);
    }
  }

  // ---- Over every run --------------------------------------------------------------------

  /** At some step of a run the application wrote to stream `k` though its end had gone out. */
  ghost predicate Outran(actions: seq<Action>, k: Key)
    decreases |actions|
  {
    actions != [] && (
      var before, a := actions[..|actions| - 1], actions[|actions| - 1];
      Outran(before, k) || WritesPast(Reach(before), a, k))
  }

  lemma {:induction false} ReachEnds(actions: seq<Action>, k: Option<Key>)
    requires k.Some? ==> !Outran(actions, k.value)
    ensures EndInv(Reach(actions), k)
    decreases |actions|
  {
    if actions != [] {
      var before := actions[..|actions| - 1];
      ReachEnds(before, k);
      ReachInv(before);
      StepEnds(Reach(before), actions[|actions| - 1], k);
    }
  }

  /** A frame says stream `k` ends before its last byte. */
  ghost predicate Short(wire: seq<Carried>, w: map<Key, seq<byte>>, k: Key) {
    k in w && exists n :: 0 <= n < |wire| && wire[n].key == k && wire[n].frame.fin && wire[n].frame.high < |w[k]|
  }

  ghost predicate Grows(s: State, t: State) {
    s.wire <= t.wire && forall k :: k in s.written ==> k in t.written && s.written[k] <= t.written[k]
  }

  lemma OpenGrows(s: State, id: nat, limit: nat)
    requires Recalled(s.written, s.known)
    ensures Grows(s, Opened(s, id, limit))
  {
  }

  lemma AppendGrows(s: State, key: Key, bytes: seq<byte>)
    ensures Grows(s, Appended(s, key, bytes))
  {
  }

  lemma BuildGrows(s: State, level: nat, plan: Plan, now: nat)
    requires |s.spaces| == LEVELS
    ensures Grows(s, Transmitted(s, level, plan, now))
  {
    BuiltLaid(s, level, plan);
  }

  lemma StepGrows(s: State, a: Action)
    requires Inv(s)
    ensures Grows(s, Apply(s, a))
  {
    ApplyIs(s, a);
    if a.Open? {
      OpenGrows(s, a.id, a.limit);
    } else if a.Append? {
      AppendGrows(s, a.key, a.bytes);
    } else if a.Build? {
      BuildGrows(s, a.level, a.plan, a.now);
    } else if !a.Finish? {
      OthersQuiet(s, a);
    }
  }

  lemma ShortStays(s: State, t: State, k: Key)
    requires Short(s.wire, s.written, k) && Grows(s, t)
    ensures Short(t.wire, t.written, k)
  {
    var n :| 0 <= n < |s.wire| && s.wire[n].key == k && s.wire[n].frame.fin && s.wire[n].frame.high < |s.written[k]|;
    assert t.wire[n] == s.wire[n];
  }

  lemma PastIsShort(s: State, a: Action, k: Key)
    requires Inv(s) && WritesPast(s, a, k)
    ensures Short(Apply(s, a).wire, Apply(s, a).written, k)
  {
    var n :| 0 <= n < |s.wire| && s.wire[n].key == k && s.wire[n].frame.fin;
    assert Truthful(s.wire[n], s.written);
    ApplyIs(s, a);
    assert Apply(s, a).wire[n] == s.wire[n];
  }

  lemma {:induction false} OutranIsShort(actions: seq<Action>, k: Key)
    requires Outran(actions, k)
    ensures Short(Reach(actions).wire, Reach(actions).written, k)
    decreases |actions|
  {
    var before, a := actions[..|actions| - 1], actions[|actions| - 1];
    ReachInv(before);
    if Outran(before, k) {
      OutranIsShort(before, k);
      StepGrows(Reach(before), a);
      ShortStays(Reach(before), Reach(actions), k);
    } else {
      PastIsShort(Reach(before), a, k);
    }
  }

  /** Every frame that says where a stream ends says it at the last byte ever written to it,
      exactly when the application never writes to it past an end that has gone out. */
  lemma EndIsLastByte(actions: seq<Action>, k: Key)
    ensures RightEnds(Reach(actions).wire, Reach(actions).written, Some(k)) <==> !Outran(actions, k)
  {
    if Outran(actions, k) {
      OutranIsShort(actions, k);
      var s := Reach(actions);
      var n :| 0 <= n < |s.wire| && s.wire[n].key == k && s.wire[n].frame.fin && s.wire[n].frame.high < |s.written[k]|;
      assert !RightEnd(s.wire[n], s.written, Some(k));
    } else {
      ReachEnds(actions, Some(k));
    }
  }

  /** Once the application has said stream `k` ends it writes no more to it. */
  ghost predicate NothingAfterEnd(actions: seq<Action>, k: Key) {
    forall i, j :: 0 <= i < j < |actions| && Finishes(actions[i], k) ==> !WritesTo(actions[j], k)
  }

  ghost predicate Finished(actions: seq<Action>, k: Key) {
    exists i :: 0 <= i < |actions| && Finishes(actions[i], k)
  }

  lemma FinishedMore(before: seq<Action>, a: Action, k: Key)
    requires Finished(before, k) || Finishes(a, k)
    ensures Finished(before + [a], k)
  {
    if Finished(before, k) {
      var i :| 0 <= i < |before| && Finishes(before[i], k);
      assert Finishes((before + [a])[i], k);
    } else {
      assert Finishes((before + [a])[|before|], k);
    }
  }

  lemma LastQueued(before: seq<Action>, a: Action, k: Key)
    requires var t := Apply(Reach(before), a); k in t.streams && t.streams[k].finQueued
    ensures Finishes(a, k) || (k in Reach(before).streams && Reach(before).streams[k].finQueued)
  {
    ReachInv(before);
    ReachEnds(before, None);
    StepFinishes(Reach(before), a);
  }

  lemma {:induction false} QueuedIsFinished(actions: seq<Action>, k: Key)
    requires k in Reach(actions).streams && Reach(actions).streams[k].finQueued
    ensures Finished(actions, k)
    decreases |actions|
  {
    assert actions != [];
    var before, a := actions[..|actions| - 1], actions[|actions| - 1];
    LastQueued(before, a, k);
    if !Finishes(a, k) { QueuedIsFinished(before, k); }
    FinishedMore(before, a, k);
    assert actions == before + [a];
  }

  lemma NothingBefore(before: seq<Action>, a: Action, k: Key)
    requires NothingAfterEnd(before + [a], k)
    ensures NothingAfterEnd(before, k) && (Finished(before, k) ==> !WritesTo(a, k))
  {
    var all := before + [a];
    forall i, j | 0 <= i < j < |before| && Finishes(before[i], k) ensures !WritesTo(before[j], k) {
      assert Finishes(all[i], k) && all[j] == before[j];
    }
    if Finished(before, k) {
      var i :| 0 <= i < |before| && Finishes(before[i], k);
      assert Finishes(all[i], k) && all[|before|] == a;
    }
  }

  /** An application that keeps to that never writes past an end that has gone out. */
  lemma {:induction false} KeepsToItsEnd(actions: seq<Action>, k: Key)
    requires NothingAfterEnd(actions, k)
    ensures !Outran(actions, k)
    decreases |actions|
  {
    if actions != [] {
      var before, a := actions[..|actions| - 1], actions[|actions| - 1];
      assert actions == before + [a];
      NothingBefore(before, a, k);
      KeepsToItsEnd(before, k);
      if WritesPast(Reach(before), a, k) {
        var s := Reach(before);
        var n :| 0 <= n < |s.wire| && s.wire[n].key == k && s.wire[n].frame.fin;
        ReachEnds(before, None);
        assert Queued(s.streams, s.wire[n]);
        QueuedIsFinished(before, k);
      }
    }
  }

  /** Nor is the end of a stream forgotten: once it has gone out it is acknowledged, to be
      sent again, or in a packet whose outcome is still awaited. */
  lemma EndIsNotForgotten(actions: seq<Action>, n: nat)
    requires n < |Reach(actions).wire| && Reach(actions).wire[n].frame.fin
    requires Reach(actions).wire[n].key in Reach(actions).streams
    ensures var s := Reach(actions);
            var k := s.wire[n].key;
            && Home(k) < LEVELS
            && (|| s.streams[k].finAcked
                || (s.streams[k].finQueued && !s.streams[k].finSent)
                || exists i :: 0 <= i < |s.spaces[Home(k)].out| && CarriesEnd(s.spaces[Home(k)].out[i], Home(k), k))
  {
    ReachInv(actions);
    ReachEnds(actions, None);
    var s := Reach(actions);
    var k := s.wire[n].key;
    assert At(s.streams, s.written, s.spaces, k);
    assert Queued(s.streams, s.wire[n]);
    if s.streams[k].finSent && !s.streams[k].finAcked {
      var i := EndInPacket(s.spaces[Home(k)].out, Home(k), k);
    }
  }

  // ---- From one end to the other -----------------------------------------------------------

  /** What arrives of a frame that went out. */
  function Fragment(c: Carried): R.Arrival { R.Fragment(c.frame.low, c.bytes, c.frame.fin) }

  ghost predicate FrameOf(a: R.Arrival, wire: seq<Carried>, k: Key) {
    exists n :: 0 <= n < |wire| && wire[n].key == k && a == Fragment(wire[n])
  }

  /** Frames of stream `k` that went out, any of them, any number of times, in any order, and
      larger limits at any moment. */
  ghost predicate FromWire(run: seq<R.Arrival>, wire: seq<Carried>, k: Key) {
    forall i :: 0 <= i < |run| ==> run[i].Raise? || FrameOf(run[i], wire, k)
  }

  lemma FrameIsPart(c: Carried, w: map<Key, seq<byte>>)
    requires Truthful(c, w) && RightEnd(c, w, Some(c.key))
    ensures R.PartOf(Fragment(c), w[c.key])
  {
  }

  lemma WireIsParts(run: seq<R.Arrival>, s: State, k: Key)
    requires Inv(s) && EndInv(s, Some(k)) && FromWire(run, s.wire, k) && k in s.written
    ensures R.AllPartOf(run, s.written[k])
  {
    forall i | 0 <= i < |run| ensures R.PartOf(run[i], s.written[k]) {
      if !run[i].Raise? {
        assert FrameOf(run[i], s.wire, k);
        var n :| 0 <= n < |s.wire| && s.wire[n].key == k && run[i] == Fragment(s.wire[n]);
        assert Truthful(s.wire[n], s.written) && RightEnd(s.wire[n], s.written, Some(k));
        FrameIsPart(s.wire[n], s.written);
      }
    }
  }

  /** A receiver that is handed any of the frames of a stream, however the network orders,
      repeats and drops them, has made ready a prefix of what the application wrote; it takes
      the stream for finished exactly when the end and all before it have arrived, and then
      has all of it. */
  lemma EndToEnd(actions: seq<Action>, k: Key, granted: nat, run: seq<R.Arrival>, got: seq<byte>, early: seq<R.Piece>)
    requires !Outran(actions, k) && k in Reach(actions).written && |Reach(actions).written[k]| < U64
    requires FromWire(run, Reach(actions).wire, k)
    requires var f := R.After(granted, run); R.Placed(got, early, f.held, f.received, f.highWater)
    ensures var all, f := Reach(actions).written[k], R.After(granted, run);
            && got <= all && |got| == f.received
            && (f.final == Some(f.received) ==> got == all)
            && (f.final == Some(f.received)
                <==> R.EndArrived(granted, run) && R.Arrived(granted, run) == Span(0, |all|))
  {
    var s := Reach(actions);
    ReachInv(actions);
    ReachEnds(actions, Some(k));
    WireIsParts(run, s, k);
    R.Reassembly(granted, run, s.written[k]);
    R.FinishedWhenWhole(granted, run, s.written[k]);
    R.ReadyIsThePrefix(got, early, R.After(granted, run), s.written[k]);
  }

  // ---- An application that writes past its end ---------------------------------------------

  const STREAM := App(0)
  const PLAN := Plan([Turn(0, 1)], 0, 1, false, false)

  /** The end of an empty stream goes out, and then a byte is written to it. */
  const PAST_THE_END := [Open(0, 1), Finish(0), Build(APPLICATION, PLAN, 0), Append(STREAM, [7])]

  const EMPTY_END := Carried(STREAM, Frame(0, 0, true), [])

  lemma EndGoesOut(s: State)
    requires |s.spaces| == LEVELS && s.clock == 0 && s.wire == []
    requires STREAM in s.streams && s.streams[STREAM] == Empty.(limit := 1, finQueued := true)
    requires Crypto(APPLICATION) in s.streams && s.streams[Crypto(APPLICATION)] == Empty
    ensures Transmitted(s, APPLICATION, PLAN, 0).wire == [EMPTY_END]
    ensures STREAM in Transmitted(s, APPLICATION, PLAN, 0).streams
  {
    var b := Building(s.streams, s.sentBytes, [], s.wire);
    var c := AddStream(b, 0, 1, s.sendLimit);
    assert c.wire == [EMPTY_END];
    assert AddStreams(b, PLAN.turns, s.sendLimit) == AddStreams(c, [], s.sendLimit);
  }

  lemma PastTheEnd(sent: State)
    requires sent == Transmitted(Ended(Opened(Init, 0, 1), 0), APPLICATION, PLAN, 0)
    ensures Reach(PAST_THE_END[..3]) == sent && Reach(PAST_THE_END) == Appended(sent, STREAM, [7])
  {
    var all := PAST_THE_END;
    assert all[..0] == [] && all[..1][..0] == [] && all[..2][..1] == all[..1] && all[..3][..2] == all[..2];
    assert Reach(all[..1]) == Opened(Init, 0, 1);
    assert Reach(all[..2]) == Ended(Opened(Init, 0, 1), 0);
  }

  /** A receiver that is handed the only frame that went out takes the stream for finished,
      with nothing received of the byte that was written. */
  lemma FinishedTooSoon()
    ensures var s, run := Reach(PAST_THE_END), [R.Fragment(0, [], true)];
            && Outran(PAST_THE_END, STREAM) && STREAM in s.written && s.written[STREAM] == [7]
            && FromWire(run, s.wire, STREAM)
            && R.After(0, run).final == Some(0) && R.After(0, run).received == 0
  {
    var ended := Ended(Opened(Init, 0, 1), 0);
    var sent := Transmitted(ended, APPLICATION, PLAN, 0);
    EndGoesOut(ended);
    PastTheEnd(sent);
    assert sent.wire[0] == EMPTY_END;
    assert FrameOf(R.Fragment(0, [], true), sent.wire, STREAM);
    var run := [R.Fragment(0, [], true)];
    assert run[..0] == [];
  }
}
