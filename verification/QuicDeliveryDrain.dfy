/** What is owed goes out again: building packets empties the list of lost bytes. */
module QuicDeliveryDrain {
  import opened Arith
  import opened QuicRanges
  import opened QuicSend
  import opened QuicDelivery
  import opened QuicDeliveryRun
  import opened QuicDeliveryTheorem
  import opened Wrappers

  // ---- One packet ---------------------------------------------------------------

  /** From `s` to `t` nothing new is owed, and something less if `served`. */
  ghost predicate Drains(s: Send, t: Send, served: bool) {
    t.lost <= s.lost && (served && s.lost != {} ==> t.lost != s.lost)
  }

  lemma PutDrains(s: Send, w: seq<byte>, room: nat, f: Option<Frame>)
    requires Holds(s, w) && s.lost != {} && Repairs(s.lost, room, f) && f.Some?
    ensures f.value.low <= f.value.high && Holds(Sent(s, f.value), w) && Drains(s, Sent(s, f.value), true)
  {
    assert f.value.low in Span(f.value.low, f.value.high);
    assert f.value.high - 1 in Span(f.value.low, f.value.high);
    SentKeeps(s, w, f.value);
  }

  lemma AddStreamDrains(b: Building, turn: Turn, sendLimit: nat, k: Key, w: seq<byte>)
    requires k in b.streams && Holds(b.streams[k], w)
    ensures var c := AddStream(b, turn.id, turn.room, sendLimit);
            && k in c.streams && Holds(c.streams[k], w)
            && Drains(b.streams[k], c.streams[k], k == App(turn.id) && turn.room > 0)
  {
    if k == App(turn.id) {
      var s, credit := b.streams[k], if sendLimit > b.sentBytes then sendLimit - b.sentBytes else 0;
      FrameIs(s, w, turn.room, credit);
      var f := NextFrame(s, turn.room, credit);
      if s.lost != {} && f.Some? {
        PutDrains(s, w, turn.room, f);
      } else if f.Some? {
        SentKeeps(s, w, f.value);
      }
    }
  }

  /** Some turn is the stream's, with room left. */
  ghost predicate HasTurn(turns: seq<Turn>, id: nat) {
    exists i :: 0 <= i < |turns| && turns[i].id == id && turns[i].room > 0
  }

  lemma {:induction false} AddStreamsDrain(b: Building, turns: seq<Turn>, sendLimit: nat, k: Key, w: seq<byte>)
    requires k in b.streams && Holds(b.streams[k], w)
    ensures var c := AddStreams(b, turns, sendLimit);
            && k in c.streams && Holds(c.streams[k], w)
            && Drains(b.streams[k], c.streams[k], k.App? && HasTurn(turns, k.id))
    decreases |turns|
  {
    if turns != [] {
      AddStreamDrains(b, turns[0], sendLimit, k, w);
      AddStreamsDrain(AddStream(b, turns[0].id, turns[0].room, sendLimit), turns[1..], sendLimit, k, w);
      if k.App? && HasTurn(turns, k.id) && !(turns[0].id == k.id && turns[0].room > 0) {
        var i :| 0 <= i < |turns| && turns[i].id == k.id && turns[i].room > 0;
        assert turns[1..][i - 1] == turns[i];
      }
    }
  }

  lemma AddCryptoDrains(b: Building, level: nat, room: nat, k: Key, w: seq<byte>)
    requires k in b.streams && Holds(b.streams[k], w)
    ensures var c := AddCrypto(b, level, room);
            && k in c.streams && Holds(c.streams[k], w)
            && Drains(b.streams[k], c.streams[k], k == Crypto(level) && room > 0)
  {
    if k == Crypto(level) {
      var s := b.streams[k];
      CryptoIs(s, w, room);
      var f := NextCrypto(s, room);
      if s.lost != {} && f.Some? {
        PutDrains(s, w, room, f);
      } else if f.Some? {
        SentKeeps(s, w, f.value);
      }
    }
  }

  /** A packet with room for stream `k`. */
  ghost predicate Serves(a: Action, k: Key) {
    a.Build? && a.level == Home(k) && (if k.App? then HasTurn(a.plan.turns, k.id) else a.plan.cryptoRoom > 0)
  }

  lemma BuildDrains(s: State, a: Action, k: Key)
    requires |s.spaces| == LEVELS && k in s.streams && k in s.written && Holds(s.streams[k], s.written[k])
    requires Serves(a, k) && a.level < LEVELS && s.clock <= a.now
    ensures var t := Apply(s, a);
            k in t.streams && t.clock == a.now && Drains(s.streams[k], t.streams[k], true)
  {
    var b, w := Building(s.streams, s.sentBytes, [], s.wire), s.written[k];
    if a.level == APPLICATION {
      AddStreamsDrain(b, a.plan.turns, s.sendLimit, k, w);
      AddCryptoDrains(AddStreams(b, a.plan.turns, s.sendLimit), a.level, a.plan.cryptoRoom, k, w);
    } else {
      AddCryptoDrains(b, a.level, a.plan.cryptoRoom, k, w);
    }
  }

  // ---- Any number of them -----------------------------------------------------------

  lemma {:induction false} SmallerSize(x: set<nat>, y: set<nat>)
    requires x <= y
    ensures |x| <= |y| && (x != y ==> |x| < |y|)
    decreases |y|
  {
    if x != y {
      var e :| e in y && e !in x;
      SmallerSize(x, y - {e});
    }
  }

  /** Packets for stream `k` one after the other, none before `clock`. */
  ghost predicate Serving(builds: seq<Action>, k: Key, clock: nat) {
    && (forall i :: 0 <= i < |builds| ==> Serves(builds[i], k) && clock <= builds[i].now)
    && (forall i, j :: 0 <= i < j < |builds| ==> builds[i].now <= builds[j].now)
  }

  /** Between them and after, at most `owed` bytes are owed. */
  ghost predicate Owes(s: State, k: Key, clock: nat, owed: int) {
    k in s.streams && s.clock == clock && (s.streams[k].lost == {} || |s.streams[k].lost| <= owed)
  }

  lemma OneLess(before: seq<Action>, all: seq<Action>, k: Key, owed: int)
    requires |all| == |before| + 1 && all[..|before|] == before
    requires var a := all[|before|]; Serves(a, k) && Reach(before).clock <= a.now
    requires Owes(Reach(before), k, Reach(before).clock, owed)
    ensures Owes(Reach(all), k, all[|before|].now, owed - 1)
  {
    var s := Reach(before);
    ReachInv(before);
    assert At(s.streams, s.written, s.spaces, k);
    BuildDrains(s, all[|before|], k);
    SmallerSize(Apply(s, all[|before|]).streams[k].lost, s.streams[k].lost);
  }

  lemma {:induction false} DrainedBy(actions: seq<Action>, builds: seq<Action>, k: Key)
    requires k in Reach(actions).streams && Serving(builds, k, Reach(actions).clock)
    ensures Owes(Reach(actions + builds), k,
                 if builds == [] then Reach(actions).clock else builds[|builds| - 1].now,
                 |Reach(actions).streams[k].lost| - |builds|)
    decreases |builds|
  {
    if builds == [] {
      assert actions + builds == actions;
    } else {
      var front := builds[..|builds| - 1];
      DrainedBy(actions, front, k);
      assert (actions + builds)[..|actions + front|] == actions + front;
      OneLess(actions + front, actions + builds, k, |Reach(actions).streams[k].lost| - |front|);
    }
  }

  /** From every reachable state, whatever is owed: as many packets with room for a stream as
      it owes bytes leave it owing none. Each byte it has ever sent is then acknowledged, or
      in a packet whose outcome is still awaited. */
  lemma OwedGoesOut(actions: seq<Action>, builds: seq<Action>, k: Key)
    requires k in Reach(actions).streams && Serving(builds, k, Reach(actions).clock)
    requires |builds| >= |Reach(actions).streams[k].lost|
    ensures Home(k) < LEVELS
    ensures var s := Reach(actions + builds);
            var out := s.spaces[Home(k)].out;
            && k in s.streams && s.streams[k].lost == {}
            && (forall x :: 0 <= x < s.streams[k].sent ==>
                  x in s.streams[k].acked || exists i :: 0 <= i < |out| && Carrying(out[i], Home(k), k, x))
  {
    DrainedBy(actions, builds, k);
    var s := Reach(actions + builds);
    ReachInv(actions + builds);
    assert At(s.streams, s.written, s.spaces, k);
    forall x | 0 <= x < s.streams[k].sent
      ensures x in s.streams[k].acked
              || exists i :: 0 <= i < |s.spaces[Home(k)].out| && Carrying(s.spaces[Home(k)].out[i], Home(k), k, x) {
      NoByteForgotten(actions + builds, k, x);
    }
  }
}
