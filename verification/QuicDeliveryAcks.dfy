/** Why a byte counts as acknowledged: a packet that carried it was named by an ACK. */
module QuicDeliveryAcks {
  import opened QuicRanges
  import opened QuicSend
  import opened QuicLoss
  import opened QuicLossRules
  import opened QuicDelivery
  import opened QuicDeliveryProof
  import opened QuicDeliveryRun
  import opened QuicDeliveryTheorem

  // ---- One ACK ------------------------------------------------------------------

  lemma {:induction false} CarriedIsCovered(fs: seq<Tagged>, k: Key, j: nat, x: nat)
    requires j < |fs| && CarryAt(fs[j], k, x)
    ensures x in Cover(fs, k)
  {
    if j > 0 { CarriedIsCovered(fs[1..], k, j - 1, x); }
  }

  lemma {:induction false} PacketIsCovered(ps: seq<Packet>, level: nat, k: Key, p: Packet, x: nat)
    requires p in ps && Carrying(p, level, k, x)
    ensures x in Cover(Frames(ps, level), k)
  {
    FramesJoin(Carries(ps[0], level), Frames(ps[1..], level), k, 0);
    if p == ps[0] {
      var j :| 0 <= j < |Carries(p, level)| && CarryAt(Carries(p, level)[j], k, x);
      CarriedIsCovered(Carries(p, level), k, j, x);
    } else {
      PacketIsCovered(ps[1..], level, k, p, x);
    }
  }

  /** Some packet of `ps` that the ACK names carries byte `x` of stream `k`. */
  ghost predicate Confirms(ps: seq<Packet>, ranges: seq<Range>, largest: nat, level: nat, k: Key, x: nat) {
    exists p :: p in ps && Names(ranges, largest, p) && Carrying(p, level, k, x)
  }

  lemma CoverIsConfirmed(ps: seq<Packet>, acked: seq<Packet>, ranges: seq<Range>, largest: nat, level: nat, k: Key,
                         x: nat)
    requires NamedOf(ps, acked, ranges, largest)
    ensures x in Cover(Frames(acked, level), k) <==> Confirms(ps, ranges, largest, level, k, x)
  {
    if x in Cover(Frames(acked, level), k) {
      var i := CoveredByPacket(acked, level, k, x);
      assert acked[i] in acked;
    }
    if Confirms(ps, ranges, largest, level, k, x) {
      var p :| p in ps && Names(ranges, largest, p) && Carrying(p, level, k, x);
      PacketIsCovered(acked, level, k, p, x);
    }
  }

  lemma SettleAcked(s: State, level: nat, o: Outcome, now: nat, k: Key)
    requires level < |s.spaces| == LEVELS && k in s.streams && At(s.streams, s.written, s.spaces, k)
    requires Divides(s, level, o, k)
    ensures var t := QuicDelivery.Settle(s, level, o, now);
            k in t.streams && t.streams[k].acked == s.streams[k].acked + Cover(Frames(o.acked, level), k)
  {
    var acked, lost, r, w := Frames(o.acked, level), Frames(o.lost, level), s.streams[k], s.written[k];
    AckProject(s.streams, acked, k);
    LoseProject(AckFrames(s.streams, acked), lost, k);
    FramesHome(o.acked, level);
    FramesHome(o.lost, level);
    if Home(k) == level {
      AckEffect(r, w, acked, k);
      LoseEffect(AckKey(r, acked, k), w, lost, k);
    } else {
      Untouched(r, acked, level, k);
      Untouched(r, lost, level, k);
      NotHere(acked, level, k);
    }
  }

  /** The ACK is taken: its level is in use, and it names no number not yet sent. */
  ghost predicate Taken(s: State, a: Action) {
    a.AckArrives? && a.level < LEVELS == |s.spaces| && s.clock <= a.now && a.largest < s.spaces[a.level].next
  }

  /** A byte is acknowledged once an ACK has been taken exactly if it was before, or a packet
      out at the time that the ACK names carries it. */
  lemma AckAcknowledges(s: State, a: Action, k: Key, x: nat)
    requires Inv(s) && Taken(s, a) && k in s.streams
    ensures var t := Apply(s, a);
            && k in t.streams
            && (x in t.streams[k].acked <==>
                  x in s.streams[k].acked || Confirms(s.spaces[a.level].out, a.ranges, a.largest, a.level, k, x))
  {
    var space := s.spaces[a.level];
    var o := OnAck(space, s.recovery, a.ranges, a.largest, a.ackDelay, a.now);
    assert At(s.streams, s.written, s.spaces, k);
    AckDivides(s, a.level, a.ranges, a.largest, a.ackDelay, a.now, k);
    SettleAcked(s, a.level, o, a.now, k);
    AckedIsNamed(space, s.recovery, a.ranges, a.largest, a.ackDelay, a.now);
    CoverIsConfirmed(space.out, o.acked, a.ranges, a.largest, a.level, k, x);
    ApplyIs(s, a);
  }

  // ---- Every other step -----------------------------------------------------------

  lemma {:induction false} AddStreamsAcked(b: Building, turns: seq<Turn>, sendLimit: nat, k: Key)
    requires k in b.streams
    ensures var c := AddStreams(b, turns, sendLimit); k in c.streams && c.streams[k].acked == b.streams[k].acked
    decreases |turns|
  {
    if turns != [] { AddStreamsAcked(AddStream(b, turns[0].id, turns[0].room, sendLimit), turns[1..], sendLimit, k); }
  }

  lemma BuiltAcked(s: State, level: nat, plan: Plan, k: Key)
    requires k in s.streams
    ensures var b := Built(s, level, plan); k in b.streams && b.streams[k].acked == s.streams[k].acked
  {
    AddStreamsAcked(Building(s.streams, s.sentBytes, [], s.wire), plan.turns, s.sendLimit, k);
  }

  /** What becomes of stream `k` when nothing is acknowledged. */
  ghost predicate SameAcked(s: State, t: State, k: Key) {
    k in t.streams ==> if k in s.streams then t.streams[k].acked == s.streams[k].acked else t.streams[k].acked == {}
  }

  lemma BuildAcked(s: State, level: nat, plan: Plan, now: nat, k: Key)
    requires |s.spaces| == LEVELS
    ensures SameAcked(s, Transmitted(s, level, plan, now), k)
  {
    if level < LEVELS && s.clock <= now && k in Transmit(s, level, plan, now).streams {
      TransmitKeys(s, level, plan, now, k);
      BuiltAcked(s, level, plan, k);
    }
  }

  lemma TimerAcked(s: State, level: nat, now: nat, k: Key)
    requires Inv(s)
    ensures SameAcked(s, TimedOutAt(s, level, now), k)
  {
    if level < LEVELS && s.clock <= now {
      SettleKeys(s, level, OnTimer(s.spaces[level], s.recovery, now), now, k);
      if k in s.streams {
        assert At(s.streams, s.written, s.spaces, k);
        TimerDivides(s, level, now, k);
        SettleAcked(s, level, OnTimer(s.spaces[level], s.recovery, now), now, k);
      }
    }
  }

  lemma CallsAcked(s: State, a: Action, k: Key)
    requires |s.spaces| == LEVELS && Listed(s.streams, s.known)
    requires a.Open? || a.Append? || a.Finish? || a.StreamLimit? || a.DataLimit?
    ensures SameAcked(s, Apply(s, a), k)
  {
    ApplyIs(s, a);
  }

  lemma RestAcked(s: State, a: Action, k: Key)
    requires |s.spaces| == LEVELS && (a.Probe? || a.Discard? || a.Retire?)
    ensures SameAcked(s, Apply(s, a), k)
  {
    ApplyIs(s, a);
  }

  /** No other step acknowledges anything, or forgets that anything is. */
  lemma OthersAcknowledgeNothing(s: State, a: Action, k: Key)
    requires Inv(s) && !Taken(s, a)
    ensures SameAcked(s, Apply(s, a), k)
  {
    if a.Build? {
      ApplyIs(s, a);
      BuildAcked(s, a.level, a.plan, a.now, k);
    } else if a.LossTimer? {
      ApplyIs(s, a);
      TimerAcked(s, a.level, a.now, k);
    } else if a.AckArrives? {
      ApplyIs(s, a);
    } else if a.Probe? || a.Discard? || a.Retire? {
      RestAcked(s, a, k);
    } else {
      CallsAcked(s, a, k);
    }
  }

  // ---- Runs ---------------------------------------------------------------------------

  lemma {:induction false} TagAtHome(fs: seq<Tagged>, level: nat, j: nat)
    requires AtHome(fs, level) && j < |fs|
    ensures Home(fs[j].key) == level
  {
    if j > 0 { TagAtHome(fs[1..], level, j - 1); }
  }

  /** A packet carries bytes of its own level's streams. */
  lemma CarryingHome(p: Packet, level: nat, k: Key, x: nat)
    requires level < LEVELS && Carrying(p, level, k, x)
    ensures level == Home(k)
  {
    var fs := Carries(p, level);
    var j :| 0 <= j < |fs| && CarryAt(fs[j], k, x);
    FramesHome([p], level);
    assert Frames([p], level) == fs + [];
    assert fs + [] == fs;
    TagAtHome(fs, level, j);
  }

  lemma {:induction false} TagKnown(fs: seq<Tagged>, known: seq<nat>, j: nat)
    requires Known(fs, known) && j < |fs| && fs[j].key.App?
    ensures fs[j].key.id in known
  {
    if j > 0 { TagKnown(fs[1..], known, j - 1); }
  }

  lemma {:induction false} CarriedIsKnown(ps: seq<Packet>, known: seq<nat>, p: Packet, k: Key, x: nat)
    requires Known(Frames(ps, APPLICATION), known) && p in ps && Carrying(p, APPLICATION, k, x)
    ensures k.App? ==> k.id in known
  {
    KnownJoin(Carries(ps[0], APPLICATION), Frames(ps[1..], APPLICATION), known);
    if p == ps[0] {
      var j :| 0 <= j < |Carries(p, APPLICATION)| && CarryAt(Carries(p, APPLICATION)[j], k, x);
      if k.App? { TagKnown(Carries(p, APPLICATION), known, j); }
    } else {
      CarriedIsKnown(ps[1..], known, p, k, x);
    }
  }

  /** Stream `k` has been there: it cannot come into being again. */
  ghost predicate Met(s: State, k: Key) { k.App? ==> k.id in s.known }

  lemma StaysMet(s: State, a: Action, k: Key)
    requires Inv(s) && Met(s, k)
    ensures Met(Apply(s, a), k)
    ensures k in Apply(s, a).streams ==> k in s.streams
  {
    ApplyIs(s, a);
    if a.Build? && a.level < LEVELS && s.clock <= a.now {
      TransmitKeys(s, a.level, a.plan, a.now, k);
    } else if a.AckArrives? && a.level < LEVELS {
      SettleKeys(s, a.level, OnAck(s.spaces[a.level], s.recovery, a.ranges, a.largest, a.ackDelay, a.now), a.now, k);
    } else if a.LossTimer? && a.level < LEVELS {
      SettleKeys(s, a.level, OnTimer(s.spaces[a.level], s.recovery, a.now), a.now, k);
    }
  }

  /** Step `j` of a run is an ACK that names a packet out at the time, which carries byte `x`
      of stream `k`. */
  ghost predicate ConfirmedAt(actions: seq<Action>, j: nat, k: Key, x: nat)
    requires j < |actions|
  {
    var s, a := Reach(actions[..j]), actions[j];
    Taken(s, a) && Confirms(s.spaces[a.level].out, a.ranges, a.largest, a.level, k, x)
  }

  ghost predicate Confirmed(actions: seq<Action>, k: Key, x: nat) {
    exists j :: 0 <= j < |actions| && ConfirmedAt(actions, j, k, x)
  }

  lemma ConfirmedMore(before: seq<Action>, all: seq<Action>, k: Key, x: nat)
    requires |all| == |before| + 1 && all[..|before|] == before
    ensures Confirmed(all, k, x) <==> Confirmed(before, k, x) || ConfirmedAt(all, |before|, k, x)
  {
    forall j | 0 <= j < |before| ensures ConfirmedAt(all, j, k, x) <==> ConfirmedAt(before, j, k, x) {
      assert all[..j] == before[..j] && all[j] == before[j];
    }
  }

  lemma ConfirmedIsMet(s: State, a: Action, k: Key, x: nat)
    requires Inv(s) && Taken(s, a) && Confirms(s.spaces[a.level].out, a.ranges, a.largest, a.level, k, x)
    ensures Met(s, k)
  {
    var p :| p in s.spaces[a.level].out && Names(a.ranges, a.largest, p) && Carrying(p, a.level, k, x);
    CarryingHome(p, a.level, k, x);
    if k.App? { CarriedIsKnown(s.spaces[APPLICATION].out, s.known, p, k, x); }
  }

  /** Byte `x` of stream `k` is acknowledged exactly if some ACK of the run confirmed it. */
  ghost predicate Exact(actions: seq<Action>, k: Key, x: nat) {
    var s := Reach(actions);
    && (Confirmed(actions, k, x) ==> Met(s, k))
    && (k in s.streams ==> (x in s.streams[k].acked <==> Confirmed(actions, k, x)))
  }

  /** What one ACK does to whether stream `k` is there and whether `x` is acknowledged. */
  ghost predicate Follows(s: State, t: State, k: Key, x: nat, confirmed: bool) {
    && (confirmed ==> Met(s, k)) && (Met(s, k) ==> Met(t, k)) && (k in t.streams ==> k in s.streams)
    && (k in t.streams ==> (x in t.streams[k].acked <==> x in s.streams[k].acked || confirmed))
  }

  lemma AckFollows(s: State, a: Action, k: Key, x: nat)
    requires Inv(s) && Taken(s, a)
    ensures Follows(s, Apply(s, a), k, x, Confirms(s.spaces[a.level].out, a.ranges, a.largest, a.level, k, x))
  {
    if Confirms(s.spaces[a.level].out, a.ranges, a.largest, a.level, k, x) { ConfirmedIsMet(s, a, k, x); }
    if Met(s, k) { StaysMet(s, a, k); }
    ApplyIs(s, a);
    SettleKeys(s, a.level, OnAck(s.spaces[a.level], s.recovery, a.ranges, a.largest, a.ackDelay, a.now), a.now, k);
    if k in s.streams { AckAcknowledges(s, a, k, x); }
  }

  lemma LastFollows(before: seq<Action>, all: seq<Action>, k: Key, x: nat)
    requires |all| == |before| + 1 && all[..|before|] == before && Taken(Reach(before), all[|before|])
    ensures Follows(Reach(before), Reach(all), k, x, ConfirmedAt(all, |before|, k, x))
  {
    ReachInv(before);
    AckFollows(Reach(before), all[|before|], k, x);
  }

  lemma AckExact(before: seq<Action>, all: seq<Action>, k: Key, x: nat)
    requires |all| == |before| + 1 && all[..|before|] == before && Exact(before, k, x)
    requires Follows(Reach(before), Reach(all), k, x, ConfirmedAt(all, |before|, k, x))
    ensures Exact(all, k, x)
  {
    ConfirmedMore(before, all, k, x);
  }

  lemma LastOther(before: seq<Action>, all: seq<Action>, k: Key)
    requires |all| == |before| + 1 && all[..|before|] == before && !Taken(Reach(before), all[|before|])
    ensures SameAcked(Reach(before), Reach(all), k)
    ensures Met(Reach(before), k) ==> Met(Reach(all), k) && (k in Reach(all).streams ==> k in Reach(before).streams)
  {
    ReachInv(before);
    if Met(Reach(before), k) { StaysMet(Reach(before), all[|before|], k); }
    OthersAcknowledgeNothing(Reach(before), all[|before|], k);
  }

  lemma OtherExact(before: seq<Action>, all: seq<Action>, k: Key, x: nat)
    requires |all| == |before| + 1 && all[..|before|] == before && Exact(before, k, x)
    requires !Taken(Reach(before), all[|before|]) && SameAcked(Reach(before), Reach(all), k)
    requires Met(Reach(before), k) ==> Met(Reach(all), k) && (k in Reach(all).streams ==> k in Reach(before).streams)
    ensures Exact(all, k, x)
  {
    ConfirmedMore(before, all, k, x);
  }

  lemma {:induction false} ReachExact(actions: seq<Action>, k: Key, x: nat)
    ensures Exact(actions, k, x)
    decreases |actions|
  {
    if actions != [] {
      var before := actions[..|actions| - 1];
      ReachExact(before, k, x);
      if Taken(Reach(before), actions[|before|]) {
        LastFollows(before, actions, k, x);
        AckExact(before, actions, k, x);
      } else {
        LastOther(before, actions, k);
        OtherExact(before, actions, k, x);
      }
    }
  }

  /** In every reachable state, of every live stream: a byte counts as acknowledged if and only
      if some ACK that arrived named a packet then out which carried it. */
  lemma AcknowledgedExactly(actions: seq<Action>, k: Key, x: nat)
    requires k in Reach(actions).streams
    ensures x in Reach(actions).streams[k].acked <==> Confirmed(actions, k, x)
  {
    ReachExact(actions, k, x);
  }

  // ---- Where the packets come from ---------------------------------------------------------

  /** Step `i` of a run put packet `p` out. */
  ghost predicate Sends(actions: seq<Action>, i: nat, level: nat, p: Packet)
    requires i < |actions| && level < LEVELS
  {
    && actions[i].Build? && actions[i].level == level && Reach(actions[..i]).clock <= actions[i].now
    && Reach(actions[..i + 1]).spaces[level].out == Reach(actions[..i]).spaces[level].out + [p]
    && p.number == Reach(actions[..i]).spaces[level].next
  }

  /** A step keeps packets or drops them, but for the one it may put out. */
  ghost predicate Keeps(s: State, a: Action, level: nat, p: Packet)
    requires |s.spaces| == LEVELS && level < LEVELS
  {
    p in Apply(s, a).spaces[level].out ==>
      || p in s.spaces[level].out
      || (a.Build? && a.level == level && s.clock <= a.now && p.number == s.spaces[level].next
          && Apply(s, a).spaces[level].out == s.spaces[level].out + [p])
  }

  lemma StepKeepsPackets(s: State, a: Action, level: nat, p: Packet)
    requires |s.spaces| == LEVELS && level < LEVELS
    ensures Keeps(s, a, level, p)
  {
    ApplyIs(s, a);
    if a.AckArrives? && a.level < LEVELS {
      PickHas(s.spaces[a.level].out, Judged(s.spaces[a.level], s.recovery, a.ranges, a.largest, a.ackDelay, a.now),
              Kept, p);
    } else if a.LossTimer? && a.level < LEVELS {
      ExpiredHas(s.spaces[a.level].out, Aged(s.spaces[a.level], s.recovery, a.now), false, p);
    }
  }

  lemma SendsStill(before: seq<Action>, all: seq<Action>, i: nat, level: nat, p: Packet)
    requires before <= all && i < |before| && level < LEVELS && Sends(before, i, level, p)
    ensures Sends(all, i, level, p)
  {
    assert all[..i] == before[..i] && all[..i + 1] == before[..i + 1];
  }

  lemma SendsNow(before: seq<Action>, all: seq<Action>, level: nat, p: Packet)
    requires |all| == |before| + 1 && all[..|before|] == before && level < LEVELS
    requires p in Reach(all).spaces[level].out && p !in Reach(before).spaces[level].out
    ensures Sends(all, |before|, level, p)
  {
    StepKeepsPackets(Reach(before), all[|before|], level, p);
    assert all[..|before| + 1] == all;
  }

  /** Every packet out was put out by a step of the run. */
  lemma {:induction false} OutWasSent(actions: seq<Action>, level: nat, p: Packet) returns (i: nat)
    requires level < LEVELS && p in Reach(actions).spaces[level].out
    ensures i < |actions| && Sends(actions, i, level, p)
    decreases |actions|
  {
    var before := actions[..|actions| - 1];
    if p in Reach(before).spaces[level].out {
      i := OutWasSent(before, level, p);
      SendsStill(before, actions, i, level, p);
    } else {
      i := |before|;
      SendsNow(before, actions, level, p);
    }
  }

  /** A packet that carries anything asks to be acknowledged, and counts against the window. */
  ghost predicate Counts(p: Packet, level: nat) { Carries(p, level) != [] ==> p.ackEliciting && p.inFlight }

  lemma BuildCounts(s: State, level: nat, plan: Plan, now: nat, p: Packet)
    requires level < LEVELS == |s.spaces|
    requires Transmit(s, level, plan, now).spaces[level].out == s.spaces[level].out + [p]
    ensures Counts(p, level)
  {
    var apps, c := BuiltTags(s, level, plan);
    var out := Transmit(s, level, plan, now).spaces[level].out;
    assert p == out[|out| - 1];
    CarriesBuilt(p, level, apps, c, Crypto(level), 0);
  }

  lemma SendsCounts(actions: seq<Action>, i: nat, level: nat, p: Packet)
    requires i < |actions| && level < LEVELS && Sends(actions, i, level, p)
    ensures Counts(p, level)
  {
    var before, all := actions[..i], actions[..i + 1];
    assert all[..|all| - 1] == before && all[|all| - 1] == actions[i];
    ApplyIs(Reach(before), actions[i]);
    BuildCounts(Reach(before), level, actions[i].plan, actions[i].now, p);
  }

  /** In every reachable state that holds of every packet out. */
  lemma CarryingCounts(actions: seq<Action>, level: nat, p: Packet)
    requires level < LEVELS && p in Reach(actions).spaces[level].out
    ensures Counts(p, level)
  {
    var i := OutWasSent(actions, level, p);
    SendsCounts(actions, i, level, p);
  }

  /** So an acknowledged byte was carried by a packet that some step sent and that a later ACK
      of its level named. */
  lemma AcknowledgedWasSent(actions: seq<Action>, k: Key, x: nat) returns (i: nat, j: nat, p: Packet)
    requires k in Reach(actions).streams && x in Reach(actions).streams[k].acked
    ensures i < j < |actions| && Home(k) < LEVELS
    ensures Sends(actions, i, Home(k), p) && Carrying(p, Home(k), k, x)
    ensures Taken(Reach(actions[..j]), actions[j]) && actions[j].level == Home(k)
    ensures Names(actions[j].ranges, actions[j].largest, p)
  {
    AcknowledgedExactly(actions, k, x);
    j :| 0 <= j < |actions| && ConfirmedAt(actions, j, k, x);
    var a := actions[j];
    p :| p in Reach(actions[..j]).spaces[a.level].out && Names(a.ranges, a.largest, p) && Carrying(p, a.level, k, x);
    CarryingHome(p, a.level, k, x);
    i := OutWasSent(actions[..j], a.level, p);
    SendsStill(actions[..j], actions, i, a.level, p);
  }
}
