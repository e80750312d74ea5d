/** What streams have sent adds up, and building a packet keeps it so. */
module QuicDeliveryLedger {
  import opened Arith
  import opened Ledger
  import opened QuicSend
  import opened QuicDelivery
  import opened QuicDeliveryRun
  import opened QuicDeliveryWire
  import opened Wrappers

  // ---- The send ledger -----------------------------------------------------------

  function SentOf(m: map<Key, Send>, gone: map<nat, nat>, id: nat): nat {
    if App(id) in m then m[App(id)].sent else if id in gone then gone[id] else 0
  }

  function SentBy(m: map<Key, Send>, gone: map<nat, nat>): nat -> nat { id => SentOf(m, gone, id) }

  ghost predicate InLimits(m: map<Key, Send>) {
    forall id :: App(id) in m ==> m[App(id)].sent <= m[App(id)].limit
  }

  ghost predicate LedgerInv(m: map<Key, Send>, known: seq<nat>, gone: map<nat, nat>, sentBytes: nat, sendLimit: nat) {
    Distinct(known) && Listed(m, known) && Total(known, SentBy(m, gone)) == sentBytes <= sendLimit && InLimits(m)
  }

  // ---- Building a packet keeps both ------------------------------------------------

  ghost predicate AllHold(m: map<Key, Send>, w: map<Key, seq<byte>>) {
    forall k :: k in m ==> k in w && Holds(m[k], w[k])
  }

  ghost predicate BuildInv(b: Building, w: map<Key, seq<byte>>, known: seq<nat>, gone: map<nat, nat>, sendLimit: nat) {
    AllHold(b.streams, w) && WireInv(b.wire, w) && LedgerInv(b.streams, known, gone, b.sentBytes, sendLimit)
  }

  lemma PutWire(b: Building, k: Key, f: Frame, counted: nat, w: map<Key, seq<byte>>)
    requires k in b.streams && AllHold(b.streams, w) && WireInv(b.wire, w)
    requires b.streams[k].base <= f.low <= f.high <= |w[k]|
    ensures AllHold(Put(b, k, f, counted).streams, w) && WireInv(Put(b, k, f, counted).wire, w)
  {
    var s := b.streams[k];
    SentKeeps(s, w[k], f);
    SliceNeverFails(s, w[k], f.low, f.high);
  }

  /** A retransmission costs no credit; new bytes cost what they are. */
  lemma PutLedger(m: map<Key, Send>, id: nat, f: Frame, counted: nat, known: seq<nat>, gone: map<nat, nat>,
                  sentBytes: nat, sendLimit: nat)
    requires App(id) in m && LedgerInv(m, known, gone, sentBytes, sendLimit) && f.low <= f.high
    requires var s := m[App(id)];
             (f.high <= s.sent && counted == 0) || (f.low == s.sent && counted == f.high - f.low)
    requires sentBytes + counted <= sendLimit
    requires counted > 0 ==> f.high <= m[App(id)].limit
    ensures LedgerInv(m[App(id) := Sent(m[App(id)], f)], known, gone, sentBytes + counted, sendLimit)
  {
    TotalOne(known, SentBy(m, gone), SentBy(m[App(id) := Sent(m[App(id)], f)], gone), id);
  }

  /** A frame of a stream, put in a packet. */
  lemma PutInv(b: Building, id: nat, f: Frame, counted: nat, w: map<Key, seq<byte>>, known: seq<nat>, gone: map<nat,
               nat>, sendLimit: nat)
    requires BuildInv(b, w, known, gone, sendLimit) && App(id) in b.streams
    requires b.streams[App(id)].base <= f.low <= f.high <= |w[App(id)]|
    requires var s := b.streams[App(id)];
             (f.high <= s.sent && counted == 0) || (f.low == s.sent && counted == f.high - f.low)
    requires b.sentBytes + counted <= sendLimit
    requires counted > 0 ==> f.high <= b.streams[App(id)].limit
    ensures BuildInv(Put(b, App(id), f, counted), w, known, gone, sendLimit)
  {
    PutWire(b, App(id), f, counted, w);
    PutLedger(b.streams, id, f, counted, known, gone, b.sentBytes, sendLimit);
  }

  /** What a chosen frame takes from the credit: bytes owed, nothing; new bytes, themselves. */
  lemma FrameCounts(s: Send, all: seq<byte>, room: nat, credit: nat, f: Frame, counted: nat)
    requires Holds(s, all) && NextFrame(s, room, credit) == Some(f) && f.low <= f.high
    requires counted == if s.lost == {} then f.high - f.low else 0
    ensures s.base <= f.low <= f.high <= |all| && counted <= credit && (counted > 0 ==> f.high <= s.limit)
    ensures (f.high <= s.sent && counted == 0) || (f.low == s.sent && counted == f.high - f.low)
  {
    FrameLies(s, all, room, credit);
  }

  /** A stream's turn puts nothing in the packet, or one frame that it may. */
  lemma AddStreamIs(b: Building, id: nat, room: nat, all: seq<byte>, sendLimit: nat) returns (f: Frame, counted: nat)
    requires App(id) in b.streams && Holds(b.streams[App(id)], all) && b.sentBytes <= sendLimit
    ensures var s, c := b.streams[App(id)], AddStream(b, id, room, sendLimit);
            c == b || (
              && s.base <= f.low <= f.high <= |all| && c == Put(b, App(id), f, counted)
              && b.sentBytes + counted <= sendLimit && (counted > 0 ==> f.high <= s.limit)
              && ((f.high <= s.sent && counted == 0) || (f.low == s.sent && counted == f.high - f.low)))
  {
    var s, credit := b.streams[App(id)], sendLimit - b.sentBytes;
    var n := NextFrame(s, room, credit);
    f, counted := Frame(0, 0, false), 0;
    if n.Some? && n.value.low <= n.value.high {
      f := n.value;
      counted := if s.lost == {} then f.high - f.low else 0;
      FrameCounts(s, all, room, credit, f, counted);
    }
  }

  lemma AddStreamInv(b: Building, id: nat, room: nat, w: map<Key, seq<byte>>, known: seq<nat>, gone: map<nat, nat>,
                     sendLimit: nat, c: Building)
    requires BuildInv(b, w, known, gone, sendLimit) && c == AddStream(b, id, room, sendLimit)
    ensures BuildInv(c, w, known, gone, sendLimit)
  {
    if App(id) in b.streams {
      var f, counted := AddStreamIs(b, id, room, w[App(id)], sendLimit);
      if c != b { PutInv(b, id, f, counted, w, known, gone, sendLimit); }
    }
  }

  lemma {:induction false} AddStreamsInv(b: Building, turns: seq<Turn>, w: map<Key, seq<byte>>, known: seq<nat>,
                                         gone: map<nat, nat>, sendLimit: nat)
    requires BuildInv(b, w, known, gone, sendLimit)
    ensures BuildInv(AddStreams(b, turns, sendLimit), w, known, gone, sendLimit)
    decreases |turns|
  {
    if turns != [] {
      AddStreamInv(b, turns[0].id, turns[0].room, w, known, gone, sendLimit, AddStream(b, turns[0].id, turns[0].room,
          sendLimit));
      AddStreamsInv(AddStream(b, turns[0].id, turns[0].room, sendLimit), turns[1..], w, known, gone, sendLimit);
    }
  }

  lemma AddCryptoInv(b: Building, level: nat, room: nat, w: map<Key, seq<byte>>, known: seq<nat>, gone: map<nat,
                     nat>, sendLimit: nat)
    requires BuildInv(b, w, known, gone, sendLimit)
    ensures BuildInv(AddCrypto(b, level, room), w, known, gone, sendLimit)
  {
    var c := AddCrypto(b, level, room);
    if c != b {
      var k := Crypto(level);
      CryptoLies(b.streams[k], w[k], room);
      var f := NextCrypto(b.streams[k], room).value;
      PutWire(b, k, f, 0, w);
      TotalSame(known, SentBy(b.streams, gone), SentBy(c.streams, gone));
    }
  }

  lemma BuiltInv(s: State, level: nat, plan: Plan)
    requires AllHold(s.streams, s.written) && WireInv(s.wire, s.written)
    requires LedgerInv(s.streams, s.known, s.gone, s.sentBytes, s.sendLimit)
    ensures BuildInv(Built(s, level, plan), s.written, s.known, s.gone, s.sendLimit)
  {
    var b := Building(s.streams, s.sentBytes, [], s.wire);
    AddStreamsInv(b, plan.turns, s.written, s.known, s.gone, s.sendLimit);
    var a := if level == APPLICATION then AddStreams(b, plan.turns, s.sendLimit) else b;
    AddCryptoInv(a, level, plan.cryptoRoom, s.written, s.known, s.gone, s.sendLimit);
  }
}
