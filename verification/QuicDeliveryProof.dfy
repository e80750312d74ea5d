/** No stream byte is forgotten: over every run, each byte sent is acknowledged,
    owed again, or inside a packet still waiting for its outcome. */
module QuicDeliveryProof {
  import opened Arith
  import opened QuicRanges
  import opened QuicSend
  import opened QuicLoss
  import opened QuicDelivery

  // ---- What a list of frames covers of one stream -------------------------------

  ghost function Cover(fs: seq<Tagged>, k: Key): set<nat> {
    if fs == [] then {}
    else (if fs[0].key == k then Span(fs[0].frame.low, fs[0].frame.high) else {}) + Cover(fs[1..], k)
  }

  /** No frame of `k` reaches past `sent`. */
  ghost predicate Fits(fs: seq<Tagged>, k: Key, sent: nat) {
    fs == [] || ((fs[0].key == k ==> fs[0].frame.high <= sent) && Fits(fs[1..], k, sent))
  }

  /** Some frame of `k` ends its stream. */
  ghost predicate Ends(fs: seq<Tagged>, k: Key) {
    fs != [] && ((fs[0].key == k && fs[0].frame.fin) || Ends(fs[1..], k))
  }

  /** Every frame belongs to a stream that lives at `level`. */
  ghost predicate AtHome(fs: seq<Tagged>, level: nat) {
    fs == [] || (Home(fs[0].key) == level && AtHome(fs[1..], level))
  }

  ghost predicate Known(fs: seq<Tagged>, known: seq<nat>) {
    fs == [] || ((fs[0].key.App? ==> fs[0].key.id in known) && Known(fs[1..], known))
  }

  lemma {:induction false} FramesJoin(x: seq<Tagged>, y: seq<Tagged>, k: Key, sent: nat)
    ensures Cover(x + y, k) == Cover(x, k) + Cover(y, k)
    ensures Fits(x + y, k, sent) <==> Fits(x, k, sent) && Fits(y, k, sent)
    ensures Ends(x + y, k) <==> Ends(x, k) || Ends(y, k)
  {
    if x == [] {
      assert x + y == y;
    } else {
      assert (x + y)[1..] == x[1..] + y;
      FramesJoin(x[1..], y, k, sent);
    }
  }

  lemma {:induction false} KnownJoin(x: seq<Tagged>, y: seq<Tagged>, known: seq<nat>)
    ensures Known(x + y, known) <==> Known(x, known) && Known(y, known)
  {
    if x == [] {
      assert x + y == y;
    } else {
      assert (x + y)[1..] == x[1..] + y;
      KnownJoin(x[1..], y, known);
    }
  }

  lemma {:induction false} AtHomeJoin(x: seq<Tagged>, y: seq<Tagged>, level: nat)
    requires AtHome(x, level) && AtHome(y, level)
    ensures AtHome(x + y, level)
  {
    if x == [] {
      assert x + y == y;
    } else {
      assert (x + y)[1..] == x[1..] + y;
      AtHomeJoin(x[1..], y, level);
    }
  }

  lemma {:induction false} FitsMore(fs: seq<Tagged>, k: Key, sent: nat, more: nat)
    requires Fits(fs, k, sent) && sent <= more
    ensures Fits(fs, k, more)
  {
    if fs != [] { FitsMore(fs[1..], k, sent, more); }
  }

  lemma {:induction false} KnownMore(fs: seq<Tagged>, known: seq<nat>, id: nat)
    requires Known(fs, known)
    ensures Known(fs, known + [id])
  {
    if fs != [] { KnownMore(fs[1..], known, id); }
  }

  /** A stream not opened yet has no frames out. */
  lemma {:induction false} NoFrames(fs: seq<Tagged>, known: seq<nat>, id: nat)
    requires Known(fs, known) && id !in known
    ensures Cover(fs, App(id)) == {} && Fits(fs, App(id), 0) && !Ends(fs, App(id))
  {
    if fs != [] { NoFrames(fs[1..], known, id); }
  }

  lemma {:induction false} NotHere(fs: seq<Tagged>, level: nat, k: Key)
    requires AtHome(fs, level) && Home(k) != level
    ensures Cover(fs, k) == {} && Fits(fs, k, 0) && !Ends(fs, k)
  {
    if fs != [] { NotHere(fs[1..], level, k); }
  }

  // ---- Frames of packets --------------------------------------------------------

  lemma {:induction false} TagHome(fs: seq<StreamFrame>)
    ensures AtHome(Tag(fs), APPLICATION)
  {
    if fs != [] {
      TagHome(fs[1..]);
      assert Tag(fs)[1..] == Tag(fs[1..]);
    }
  }

  lemma {:induction false} FramesHome(ps: seq<Packet>, level: nat)
    requires level < LEVELS
    ensures AtHome(Frames(ps, level), level)
  {
    if ps != [] {
      FramesHome(ps[1..], level);
      if level == APPLICATION { TagHome(ps[0].streams); }
      AtHomeJoin(if ps[0].crypto.Some? then [Tagged(Crypto(level), ps[0].crypto.value)] else [],
                 if level == APPLICATION then Tag(ps[0].streams) else [], level);
      AtHomeJoin(Carries(ps[0], level), Frames(ps[1..], level), level);
    }
  }

  lemma {:induction false} FramesAppend(ps: seq<Packet>, p: Packet, level: nat)
    ensures Frames(ps + [p], level) == Frames(ps, level) + Carries(p, level)
  {
    if ps == [] {
      assert [p][1..] == [] && ps + [p] == [p];
      assert Frames([p], level) == Carries(p, level) + Frames([], level);
    } else {
      assert (ps + [p])[1..] == ps[1..] + [p];
      FramesAppend(ps[1..], p, level);
      Assoc(Carries(ps[0], level), Frames(ps[1..], level), Carries(p, level));
    }
  }

  lemma Assoc<T>(a: seq<T>, b: seq<T>, c: seq<T>)
    ensures a + (b + c) == a + b + c
  {
  }

  /** Three lists of packets that between them carry what one list carried. */
  ghost predicate Shares(fs: seq<Tagged>, acked: seq<Tagged>, lost: seq<Tagged>, kept: seq<Tagged>, k: Key, sent: nat) {
    && Cover(fs, k) == Cover(acked, k) + Cover(lost, k) + Cover(kept, k)
    && (Fits(fs, k, sent) ==> Fits(acked, k, sent) && Fits(lost, k, sent) && Fits(kept, k, sent))
    && (Ends(fs, k) ==> Ends(acked, k) || Ends(lost, k) || Ends(kept, k))
  }

  lemma SharesMore(c: seq<Tagged>, fs: seq<Tagged>, acked: seq<Tagged>, lost: seq<Tagged>, kept: seq<Tagged>, k: Key,
                   sent: nat)
    requires Shares(fs, acked, lost, kept, k, sent)
    ensures Shares(c + fs, c + acked, lost, kept, k, sent)
    ensures Shares(c + fs, acked, c + lost, kept, k, sent)
    ensures Shares(c + fs, acked, lost, c + kept, k, sent)
  {
    FramesJoin(c, fs, k, sent);
    FramesJoin(c, acked, k, sent);
    FramesJoin(c, lost, k, sent);
    FramesJoin(c, kept, k, sent);
  }

  lemma FramesHead(p: Packet, ps: seq<Packet>, level: nat)
    ensures Frames([p] + ps, level) == Carries(p, level) + Frames(ps, level)
  {
    assert ([p] + ps)[1..] == ps;
  }

  lemma PickHead(ps: seq<Packet>, a: Ack, fate: Fate, level: nat)
    requires ps != []
    ensures Frames(Pick(ps, a, fate), level)
            == if FateOf(ps[0], a) == fate then Carries(ps[0], level) + Frames(Pick(ps[1..], a, fate), level)
               else Frames(Pick(ps[1..], a, fate), level)
  {
    var rest := Pick(ps[1..], a, fate);
    if FateOf(ps[0], a) == fate { FramesHead(ps[0], rest, level); } else { assert [] + rest == rest; }
  }

  lemma {:induction false} PickShares(ps: seq<Packet>, a: Ack, level: nat, k: Key, sent: nat)
    ensures Shares(Frames(ps, level), Frames(Pick(ps, a, Acked), level), Frames(Pick(ps, a, Lost), level),
                   Frames(Pick(ps, a, Kept), level), k, sent)
  {
    if ps != [] {
      var rest := ps[1..];
      PickShares(rest, a, level, k, sent);
      PickHead(ps, a, Acked, level);
      PickHead(ps, a, Lost, level);
      PickHead(ps, a, Kept, level);
      SharesMore(Carries(ps[0], level), Frames(rest, level), Frames(Pick(rest, a, Acked), level),
                 Frames(Pick(rest, a, Lost), level), Frames(Pick(rest, a, Kept), level), k, sent);
    }
  }

  lemma ExpiredHead(ps: seq<Packet>, a: Ack, yes: bool, level: nat)
    requires ps != []
    ensures Frames(Expired(ps, a, yes), level)
            == if TimedOut(ps[0], a) == yes then Carries(ps[0], level) + Frames(Expired(ps[1..], a, yes), level)
               else Frames(Expired(ps[1..], a, yes), level)
  {
    var rest := Expired(ps[1..], a, yes);
    if TimedOut(ps[0], a) == yes { FramesHead(ps[0], rest, level); } else { assert [] + rest == rest; }
  }

  lemma {:induction false} ExpiredShares(ps: seq<Packet>, a: Ack, level: nat, k: Key, sent: nat)
    ensures Shares(Frames(ps, level), [], Frames(Expired(ps, a, true), level),
                   Frames(Expired(ps, a, false), level), k, sent)
  {
    if ps != [] {
      var rest := ps[1..];
      ExpiredShares(rest, a, level, k, sent);
      ExpiredHead(ps, a, true, level);
      ExpiredHead(ps, a, false, level);
      SharesMore(Carries(ps[0], level), Frames(rest, level), [],
                 Frames(Expired(rest, a, true), level), Frames(Expired(rest, a, false), level), k, sent);
    }
  }

  // ---- One stream through an outcome --------------------------------------------

  ghost function AckKey(s: Send, fs: seq<Tagged>, k: Key): Send
    decreases |fs|
  {
    if fs == [] then s else AckKey(if fs[0].key == k then AckOne(s, fs[0].frame) else s, fs[1..], k)
  }

  ghost function LoseKey(s: Send, fs: seq<Tagged>, k: Key): Send
    decreases |fs|
  {
    if fs == [] then s else LoseKey(if fs[0].key == k then LoseOne(s, fs[0].frame) else s, fs[1..], k)
  }

  /** Each stream sees its own frames, in order, and no others. */
  lemma {:induction false} AckProject(m: map<Key, Send>, fs: seq<Tagged>, k: Key)
    ensures k in AckFrames(m, fs) <==> k in m
    ensures k in m ==> AckFrames(m, fs)[k] == AckKey(m[k], fs, k)
    decreases |fs|
  {
    if fs != [] {
      var j := fs[0].key;
      AckProject(if j in m then m[j := AckOne(m[j], fs[0].frame)] else m, fs[1..], k);
    }
  }

  lemma {:induction false} LoseProject(m: map<Key, Send>, fs: seq<Tagged>, k: Key)
    ensures k in LoseFrames(m, fs) <==> k in m
    ensures k in m ==> LoseFrames(m, fs)[k] == LoseKey(m[k], fs, k)
    decreases |fs|
  {
    if fs != [] {
      var j := fs[0].key;
      LoseProject(if j in m then m[j := LoseOne(m[j], fs[0].frame)] else m, fs[1..], k);
    }
  }

  lemma AckOneEffect(s: Send, w: seq<byte>, f: Frame)
    requires Holds(s, w) && f.high <= s.sent
    ensures var t := AckOne(s, f);
            && Holds(t, w) && t.sent == s.sent && t.limit == s.limit
            && t.acked == s.acked + Span(f.low, f.high) && t.lost == s.lost - Span(f.low, f.high)
            && t.finSent == s.finSent && t.finAcked == (s.finAcked || f.fin)
  {
    AcknowledgeKeeps(s, w, f.low, f.high);
  }

  lemma {:induction false} AckEffect(s: Send, w: seq<byte>, fs: seq<Tagged>, k: Key)
    requires Holds(s, w) && Fits(fs, k, s.sent)
    ensures var t := AckKey(s, fs, k);
            && Holds(t, w) && t.sent == s.sent && t.limit == s.limit
            && t.acked == s.acked + Cover(fs, k) && t.lost == s.lost - Cover(fs, k)
            && t.finSent == s.finSent && t.finAcked == (s.finAcked || Ends(fs, k))
    decreases |fs|
  {
    if fs != [] {
      if fs[0].key == k {
        AckOneEffect(s, w, fs[0].frame);
        AckEffect(AckOne(s, fs[0].frame), w, fs[1..], k);
      } else {
        AckEffect(s, w, fs[1..], k);
      }
    }
  }

  lemma LoseOneEffect(s: Send, w: seq<byte>, f: Frame)
    requires Holds(s, w) && f.high <= s.sent
    ensures var t := LoseOne(s, f);
            && Holds(t, w) && t.sent == s.sent && t.limit == s.limit && t.acked == s.acked
            && t.lost == s.lost + (Span(f.low, f.high) - s.acked)
            && t.finSent == (s.finSent && !f.fin) && t.finAcked == s.finAcked
  {
    DeclareLostKeeps(s, w, f.low, f.high);
    assert Span(f.low, f.high) - s.acked == Span(Max(f.low, s.base), f.high) - s.acked;
  }

  lemma {:induction false} LoseEffect(s: Send, w: seq<byte>, fs: seq<Tagged>, k: Key)
    requires Holds(s, w) && Fits(fs, k, s.sent)
    ensures var t := LoseKey(s, fs, k);
            && Holds(t, w) && t.sent == s.sent && t.limit == s.limit && t.acked == s.acked
            && t.lost == s.lost + (Cover(fs, k) - s.acked)
            && t.finSent == (s.finSent && !Ends(fs, k)) && t.finAcked == s.finAcked
    decreases |fs|
  {
    if fs != [] {
      if fs[0].key == k {
        LoseOneEffect(s, w, fs[0].frame);
        LoseEffect(LoseOne(s, fs[0].frame), w, fs[1..], k);
      } else {
        LoseEffect(s, w, fs[1..], k);
      }
    }
  }

  /** The claim for one stream, given the frames of the packets still out. */
  ghost predicate Accounted(s: Send, fs: seq<Tagged>, k: Key) {
    && Fits(fs, k, s.sent) && Span(0, s.sent) <= s.acked + s.lost + Cover(fs, k)
    && (s.finSent ==> s.finAcked || Ends(fs, k))
  }

  lemma SettleStream(s: Send, w: seq<byte>, fs: seq<Tagged>, acked: seq<Tagged>, lost: seq<Tagged>,
                     kept: seq<Tagged>, k: Key)
    requires Holds(s, w) && Accounted(s, fs, k) && Shares(fs, acked, lost, kept, k, s.sent)
    ensures var t := LoseKey(AckKey(s, acked, k), lost, k);
            Holds(t, w) && Accounted(t, kept, k) && t.sent == s.sent && t.limit == s.limit
  {
    AckEffect(s, w, acked, k);
    LoseEffect(AckKey(s, acked, k), w, lost, k);
  }

  /** A frame of owed bytes, or of the next new ones, moves bytes into a packet. */
  lemma SendStream(s: Send, w: seq<byte>, fs: seq<Tagged>, k: Key, f: Frame)
    requires Holds(s, w) && Accounted(s, fs, k)
    requires s.base <= f.low <= f.high <= |w|
    requires (f.high <= s.sent && Span(f.low, f.high) <= s.lost) || (s.lost == {} && f.low == s.sent)
    ensures var t := Sent(s, f);
            Holds(t, w) && Accounted(t, fs + [Tagged(k, f)], k) && t.limit == s.limit
  {
    var t := Sent(s, f);
    SentKeeps(s, w, f);
    FitsMore(fs, k, s.sent, t.sent);
    FramesJoin(fs, [Tagged(k, f)], k, t.sent);
    assert Cover([Tagged(k, f)], k) == Span(f.low, f.high) + Cover([], k);
    assert Span(0, t.sent) <= Span(0, s.sent) + Span(f.low, f.high);
  }

  lemma OtherFrame(s: Send, fs: seq<Tagged>, k: Key, t: Tagged)
    requires Accounted(s, fs, k) && t.key != k
    ensures Accounted(s, fs + [t], k)
  {
    FramesJoin(fs, [t], k, s.sent);
    assert Cover([t], k) == {} + Cover([], k);
  }

  // ---- Building a packet --------------------------------------------------------

  ghost predicate StreamOk(s: Send, w: seq<byte>, fs: seq<Tagged>, k: Key) {
    Holds(s, w) && Accounted(s, fs, k)
  }

  lemma AppendTag(fs: seq<Tagged>, tags: seq<Tagged>, t: Tagged)
    ensures fs + tags + [t] == fs + (tags + [t])
  {
  }

  lemma AddStreamOk(b: Building, id: nat, room: nat, sendLimit: nat, k: Key, w: seq<byte>, fs: seq<Tagged>)
    requires k in b.streams && StreamOk(b.streams[k], w, fs + b.tags, k)
    ensures var c := AddStream(b, id, room, sendLimit);
            k in c.streams && StreamOk(c.streams[k], w, fs + c.tags, k)
  {
    var c := AddStream(b, id, room, sendLimit);
    if c != b {
      var s := b.streams[App(id)];
      var credit := if sendLimit > b.sentBytes then sendLimit - b.sentBytes else 0;
      var f := NextFrame(s, room, credit).value;
      AppendTag(fs, b.tags, Tagged(App(id), f));
      if k == App(id) {
        FrameLies(s, w, room, credit);
        SendStream(s, w, fs + b.tags, k, f);
      } else {
        OtherFrame(b.streams[k], fs + b.tags, k, Tagged(App(id), f));
      }
    }
  }

  lemma {:induction false} AddStreamsOk(b: Building, turns: seq<Turn>, sendLimit: nat, k: Key, w: seq<byte>,
                                        fs: seq<Tagged>)
    requires k in b.streams && StreamOk(b.streams[k], w, fs + b.tags, k)
    ensures var c := AddStreams(b, turns, sendLimit);
            k in c.streams && StreamOk(c.streams[k], w, fs + c.tags, k)
    decreases |turns|
  {
    if turns != [] {
      AddStreamOk(b, turns[0].id, turns[0].room, sendLimit, k, w, fs);
      AddStreamsOk(AddStream(b, turns[0].id, turns[0].room, sendLimit), turns[1..], sendLimit, k, w, fs);
    }
  }

  lemma AddCryptoOk(b: Building, level: nat, room: nat, k: Key, w: seq<byte>, fs: seq<Tagged>)
    requires k in b.streams && StreamOk(b.streams[k], w, fs + b.tags, k)
    ensures var c := AddCrypto(b, level, room);
            k in c.streams && StreamOk(c.streams[k], w, fs + c.tags, k)
  {
    var c := AddCrypto(b, level, room);
    if c != b {
      var s := b.streams[Crypto(level)];
      var f := NextCrypto(s, room).value;
      AppendTag(fs, b.tags, Tagged(Crypto(level), f));
      if k == Crypto(level) {
        CryptoLies(s, w, room);
        SendStream(s, w, fs + b.tags, k, f);
      } else {
        OtherFrame(b.streams[k], fs + b.tags, k, Tagged(Crypto(level), f));
      }
    }
  }

  lemma BuiltOk(s: State, level: nat, plan: Plan, k: Key, w: seq<byte>, fs: seq<Tagged>)
    requires k in s.streams && StreamOk(s.streams[k], w, fs, k)
    ensures var b := Built(s, level, plan);
            k in b.streams && StreamOk(b.streams[k], w, fs + b.tags, k)
  {
    var b := Building(s.streams, s.sentBytes, [], s.wire);
    assert fs + [] == fs;
    if level == APPLICATION {
      AddStreamsOk(b, plan.turns, s.sendLimit, k, w, fs);
      AddCryptoOk(AddStreams(b, plan.turns, s.sendLimit), level, plan.cryptoRoom, k, w, fs);
    } else {
      AddCryptoOk(b, level, plan.cryptoRoom, k, w, fs);
    }
  }

  // ---- The packet's record carries what was built --------------------------------

  predicate AllApp(ts: seq<Tagged>) { ts == [] || (ts[0].key.App? && AllApp(ts[1..])) }

  lemma {:induction false} AllAppAppend(ts: seq<Tagged>, t: Tagged)
    requires AllApp(ts) && t.key.App?
    ensures AllApp(ts + [t])
  {
    if ts != [] {
      assert (ts + [t])[1..] == ts[1..] + [t];
      AllAppAppend(ts[1..], t);
    }
  }

  lemma {:induction false} StreamsAllApp(b: Building, turns: seq<Turn>, sendLimit: nat)
    requires AllApp(b.tags)
    ensures AllApp(AddStreams(b, turns, sendLimit).tags)
    decreases |turns|
  {
    if turns != [] {
      var c := AddStream(b, turns[0].id, turns[0].room, sendLimit);
      if c != b { AllAppAppend(b.tags, c.tags[|b.tags|]); }
      StreamsAllApp(c, turns[1..], sendLimit);
    }
  }

  lemma {:induction false} TagOfStreams(ts: seq<Tagged>, c: seq<Tagged>)
    requires AllApp(ts) && (c == [] || (|c| == 1 && c[0].key.Crypto?))
    ensures Tag(StreamsOf(ts + c)) == ts
  {
    if ts == [] {
      assert ts + c == c;
      if c != [] { assert c[1..] == []; }
    } else {
      assert (ts + c)[1..] == ts[1..] + c;
      TagOfStreams(ts[1..], c);
      var rest := StreamsOf(ts[1..] + c);
      assert ([StreamFrame(ts[0].key.id, ts[0].frame)] + rest)[1..] == rest;
    }
  }

  lemma {:induction false} NoCryptoLast(ts: seq<Tagged>)
    requires AllApp(ts) && ts != []
    ensures ts[|ts| - 1].key.App?
  {
    if |ts| > 1 { NoCryptoLast(ts[1..]); }
  }

  /** The tags of a built packet: stream frames, then at most one of the handshake's. */
  lemma BuiltTags(s: State, level: nat, plan: Plan) returns (apps: seq<Tagged>, c: seq<Tagged>)
    ensures Built(s, level, plan).tags == apps + c && AllApp(apps)
    ensures c == [] || (|c| == 1 && c[0].key == Crypto(level))
    ensures level != APPLICATION ==> apps == []
  {
    var b := Building(s.streams, s.sentBytes, [], s.wire);
    var a := if level == APPLICATION then AddStreams(b, plan.turns, s.sendLimit) else b;
    StreamsAllApp(b, plan.turns, s.sendLimit);
    apps := a.tags;
    var all := Built(s, level, plan).tags;
    c := all[|apps|..];
  }

  lemma CarriesBuilt(p: Packet, level: nat, apps: seq<Tagged>, c: seq<Tagged>, k: Key, sent: nat)
    requires AllApp(apps) && (c == [] || (|c| == 1 && c[0].key == Crypto(level)))
    requires level != APPLICATION ==> apps == []
    requires p.crypto == CryptoOf(apps + c) && p.streams == StreamsOf(apps + c)
    ensures Carries(p, level) == c + apps
    ensures Cover(Carries(p, level), k) == Cover(apps + c, k)
    ensures Fits(Carries(p, level), k, sent) <==> Fits(apps + c, k, sent)
    ensures Ends(Carries(p, level), k) <==> Ends(apps + c, k)
  {
    TagOfStreams(apps, c);
    if c == [] {
      assert apps + c == apps;
      if apps != [] { NoCryptoLast(apps); }
    } else {
      assert c == [Tagged(Crypto(level), c[0].frame)];
    }
    FramesJoin(apps, c, k, sent);
    FramesJoin(c, apps, k, sent);
  }

  lemma {:induction false} AllAppHome(ts: seq<Tagged>)
    requires AllApp(ts)
    ensures AtHome(ts, APPLICATION)
  {
    if ts != [] { AllAppHome(ts[1..]); }
  }
}
