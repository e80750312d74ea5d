/** What went out on the wire: every frame of every packet, and the bytes it carried. */
module QuicDeliveryWire {
  import opened Arith
  import opened QuicSend
  import opened QuicLoss
  import opened QuicDelivery
  import opened QuicDeliveryProof

  /** A frame carried exactly the bytes the application wrote there. */
  ghost predicate Truthful(c: Carried, w: map<Key, seq<byte>>) {
    && c.key in w && c.frame.low <= c.frame.high <= |w[c.key]|
    && c.bytes == w[c.key][c.frame.low..c.frame.high]
  }

  ghost predicate WireInv(wire: seq<Carried>, w: map<Key, seq<byte>>) {
    forall i :: 0 <= i < |wire| ==> Truthful(wire[i], w)
  }

  lemma SamePart<T>(s: seq<T>, t: seq<T>, low: nat, high: nat)
    requires s <= t && low <= high <= |s|
    ensures t[low..high] == s[low..high]
  {
  }

  lemma WireGrows(wire: seq<Carried>, w: map<Key, seq<byte>>, v: map<Key, seq<byte>>)
    requires WireInv(wire, w) && forall k :: k in w ==> k in v && w[k] <= v[k]
    ensures WireInv(wire, v)
  {
    forall i | 0 <= i < |wire| ensures Truthful(wire[i], v) {
      assert Truthful(wire[i], w);
      var c := wire[i];
      SamePart(w[c.key], v[c.key], c.frame.low, c.frame.high);
    }
  }

  // ---- The frames of packets went out ------------------------------------------------

  predicate Bears(c: Carried, t: Tagged) { c.key == t.key && c.frame == t.frame }

  ghost predicate OnWire(t: Tagged, wire: seq<Carried>) {
    exists i :: 0 <= i < |wire| && Bears(wire[i], t)
  }

  ghost predicate AllOnWire(fs: seq<Tagged>, wire: seq<Carried>) {
    fs == [] || (OnWire(fs[0], wire) && AllOnWire(fs[1..], wire))
  }

  lemma {:induction false} AllOnWireJoin(x: seq<Tagged>, y: seq<Tagged>, wire: seq<Carried>)
    ensures AllOnWire(x + y, wire) <==> AllOnWire(x, wire) && AllOnWire(y, wire)
  {
    if x == [] {
      assert x + y == y;
    } else {
      assert (x + y)[1..] == x[1..] + y;
      AllOnWireJoin(x[1..], y, wire);
    }
  }

  lemma OnWireStays(t: Tagged, wire: seq<Carried>, more: seq<Carried>)
    requires OnWire(t, wire) && wire <= more
    ensures OnWire(t, more)
  {
    var i :| 0 <= i < |wire| && Bears(wire[i], t);
    assert Bears(more[i], t);
  }

  lemma {:induction false} AllOnWireStay(fs: seq<Tagged>, wire: seq<Carried>, more: seq<Carried>)
    requires AllOnWire(fs, wire) && wire <= more
    ensures AllOnWire(fs, more)
  {
    if fs != [] {
      OnWireStays(fs[0], wire, more);
      AllOnWireStay(fs[1..], wire, more);
    }
  }

  lemma {:induction false} AllOnWireAt(fs: seq<Tagged>, wire: seq<Carried>, j: nat)
    requires AllOnWire(fs, wire) && j < |fs|
    ensures OnWire(fs[j], wire)
  {
    if j > 0 { AllOnWireAt(fs[1..], wire, j - 1); }
  }

  lemma {:induction false} PickOnWire(ps: seq<Packet>, a: Ack, level: nat, wire: seq<Carried>)
    requires AllOnWire(Frames(ps, level), wire)
    ensures AllOnWire(Frames(Pick(ps, a, Kept), level), wire)
  {
    if ps != [] {
      AllOnWireJoin(Carries(ps[0], level), Frames(ps[1..], level), wire);
      PickOnWire(ps[1..], a, level, wire);
      PickHead(ps, a, Kept, level);
      AllOnWireJoin(Carries(ps[0], level), Frames(Pick(ps[1..], a, Kept), level), wire);
    }
  }

  lemma {:induction false} ExpiredOnWire(ps: seq<Packet>, a: Ack, level: nat, wire: seq<Carried>)
    requires AllOnWire(Frames(ps, level), wire)
    ensures AllOnWire(Frames(Expired(ps, a, false), level), wire)
  {
    if ps != [] {
      AllOnWireJoin(Carries(ps[0], level), Frames(ps[1..], level), wire);
      ExpiredOnWire(ps[1..], a, level, wire);
      ExpiredHead(ps, a, false, level);
      AllOnWireJoin(Carries(ps[0], level), Frames(Expired(ps[1..], a, false), level), wire);
    }
  }

  // ---- Building a packet ---------------------------------------------------------------

  /** What a packet under way has in it is on the wire, after all that was. */
  ghost predicate Laid(b: Building, before: seq<Carried>) { before <= b.wire && AllOnWire(b.tags, b.wire) }

  lemma PutLaid(b: Building, k: Key, f: Frame, counted: nat, before: seq<Carried>)
    requires Laid(b, before) && k in b.streams && f.low <= f.high
    ensures Laid(Put(b, k, f, counted), before)
  {
    var c, t := Put(b, k, f, counted), Tagged(k, f);
    AllOnWireStay(b.tags, b.wire, c.wire);
    assert Bears(c.wire[|b.wire|], t);
    AllOnWireJoin(b.tags, [t], c.wire);
  }

  lemma {:induction false} StreamsLaid(b: Building, turns: seq<Turn>, sendLimit: nat, before: seq<Carried>)
    requires Laid(b, before)
    ensures Laid(AddStreams(b, turns, sendLimit), before)
    decreases |turns|
  {
    if turns != [] {
      var c := AddStream(b, turns[0].id, turns[0].room, sendLimit);
      if c != b {
        var s := b.streams[App(turns[0].id)];
        var f := NextFrame(s, turns[0].room, if sendLimit > b.sentBytes then sendLimit - b.sentBytes else 0).value;
        PutLaid(b, App(turns[0].id), f, if s.lost == {} then f.high - f.low else 0, before);
      }
      StreamsLaid(c, turns[1..], sendLimit, before);
    }
  }

  lemma BuiltLaid(s: State, level: nat, plan: Plan)
    ensures Laid(Built(s, level, plan), s.wire)
  {
    var b := Building(s.streams, s.sentBytes, [], s.wire);
    StreamsLaid(b, plan.turns, s.sendLimit, s.wire);
    var a := if level == APPLICATION then AddStreams(b, plan.turns, s.sendLimit) else b;
    if AddCrypto(a, level, plan.cryptoRoom) != a {
      PutLaid(a, Crypto(level), NextCrypto(a.streams[Crypto(level)], plan.cryptoRoom).value, 0, s.wire);
    }
  }

  // ---- All the packets that are out ------------------------------------------------------

  ghost predicate OutOnWire(spaces: seq<Space>, wire: seq<Carried>) {
    && |spaces| == LEVELS
    && AllOnWire(Frames(spaces[0].out, 0), wire)
    && AllOnWire(Frames(spaces[1].out, 1), wire)
    && AllOnWire(Frames(spaces[2].out, 2), wire)
  }

  lemma OutStays(spaces: seq<Space>, wire: seq<Carried>, more: seq<Carried>)
    requires OutOnWire(spaces, wire) && wire <= more
    ensures OutOnWire(spaces, more)
  {
    AllOnWireStay(Frames(spaces[0].out, 0), wire, more);
    AllOnWireStay(Frames(spaces[1].out, 1), wire, more);
    AllOnWireStay(Frames(spaces[2].out, 2), wire, more);
  }

  lemma PacketOnWire(out: seq<Packet>, p: Packet, level: nat, apps: seq<Tagged>, c: seq<Tagged>, wire: seq<Carried>)
    requires AllApp(apps) && (c == [] || (|c| == 1 && c[0].key == Crypto(level)))
    requires level != APPLICATION ==> apps == []
    requires p.crypto == CryptoOf(apps + c) && p.streams == StreamsOf(apps + c)
    requires AllOnWire(Frames(out, level), wire) && AllOnWire(apps + c, wire)
    ensures AllOnWire(Frames(out + [p], level), wire)
  {
    CarriesBuilt(p, level, apps, c, App(0), 0);
    AllOnWireJoin(apps, c, wire);
    AllOnWireJoin(c, apps, wire);
    FramesAppend(out, p, level);
    AllOnWireJoin(Frames(out, level), Carries(p, level), wire);
  }

  lemma TransmitOnWire(s: State, level: nat, plan: Plan, now: nat)
    requires OutOnWire(s.spaces, s.wire) && level < LEVELS
    ensures var t := Transmit(s, level, plan, now); OutOnWire(t.spaces, t.wire)
  {
    var t := Transmit(s, level, plan, now);
    BuiltLaid(s, level, plan);
    OutStays(s.spaces, s.wire, t.wire);
    var apps, c := BuiltTags(s, level, plan);
    PacketOnWire(s.spaces[level].out, t.spaces[level].out[|s.spaces[level].out|], level, apps, c, t.wire);
  }
}
