/** A connection's sending half as a whole: streams, the packets that carry them
    and what becomes of those packets, step by step over any run. */
module QuicDelivery {
  import opened Arith
  import opened QuicRanges
  import opened QuicSend
  import opened QuicLoss
  import opened Wrappers

  /** The handshake's byte streams, one per level, and the application's. */
  datatype Key = Crypto(level: nat) | App(id: nat)

  datatype Tagged = Tagged(key: Key, frame: Frame)

  /** What went out on the wire: history, read by no step. */
  datatype Carried = Carried(key: Key, frame: Frame, bytes: seq<byte>)

  const LEVELS := 3
  const APPLICATION := 2

  /** `written`, `known`, `gone` and `wire` are history: every byte ever written,
      every stream ever opened, what retired streams had sent, every frame sent. */
  datatype State = State(streams: map<Key, Send>, spaces: seq<Space>, recovery: Recovery,
                         sentBytes: nat, sendLimit: nat, clock: nat,
                         written: map<Key, seq<byte>>, known: seq<nat>, gone: map<nat, nat>, wire: seq<Carried>)

  const Init := State(map[Crypto(0) := Empty, Crypto(1) := Empty, Crypto(2) := Empty],
                      [Unused, Unused, Unused], Fresh, 0, 0, 0,
                      map[Crypto(0) := [], Crypto(1) := [], Crypto(2) := []], [], map[], [])

  function Home(k: Key): nat { if k.Crypto? then k.level else APPLICATION }

  // ---- The frames packets carry ------------------------------------------------

  function Tag(fs: seq<StreamFrame>): seq<Tagged> {
    if fs == [] then [] else [Tagged(App(fs[0].id), fs[0].frame)] + Tag(fs[1..])
  }

  /** Only 1-RTT packets carry stream frames. */
  function Carries(p: Packet, level: nat): seq<Tagged> {
    (if p.crypto.Some? then [Tagged(Crypto(level), p.crypto.value)] else [])
    + (if level == APPLICATION then Tag(p.streams) else [])
  }

  function Frames(ps: seq<Packet>, level: nat): seq<Tagged> {
    if ps == [] then [] else Carries(ps[0], level) + Frames(ps[1..], level)
  }

  // ---- Outcomes reach the streams ----------------------------------------------

  ghost function AckOne(s: Send, f: Frame): Send {
    Acknowledge(s, f.low, f.high).(finAcked := s.finAcked || f.fin)
  }

  ghost function LoseOne(s: Send, f: Frame): Send {
    DeclareLost(s, f.low, f.high).(finSent := s.finSent && !f.fin)
  }

  /** Frames of streams already retired are passed over. */
  ghost function AckFrames(m: map<Key, Send>, fs: seq<Tagged>): map<Key, Send>
    decreases |fs|
  {
    if fs == [] then m
    else
      var k := fs[0].key;
      AckFrames(if k in m then m[k := AckOne(m[k], fs[0].frame)] else m, fs[1..])
  }

  ghost function LoseFrames(m: map<Key, Send>, fs: seq<Tagged>): map<Key, Send>
    decreases |fs|
  {
    if fs == [] then m
    else
      var k := fs[0].key;
      LoseFrames(if k in m then m[k := LoseOne(m[k], fs[0].frame)] else m, fs[1..])
  }

  // ---- Building a packet -------------------------------------------------------

  datatype Building = Building(streams: map<Key, Send>, sentBytes: nat, tags: seq<Tagged>, wire: seq<Carried>)

  ghost function Put(b: Building, k: Key, f: Frame, counted: nat): Building
    requires k in b.streams && f.low <= f.high
  {
    var s := b.streams[k];
    var bytes := Slice(s, f.low, f.high - f.low);
    Building(b.streams[k := Sent(s, f)], b.sentBytes + counted, b.tags + [Tagged(k, f)],
             b.wire + [Carried(k, f, if bytes.Some? then bytes.value else [])])
  }

  ghost function AddStream(b: Building, id: nat, room: nat, sendLimit: nat): Building {
    if App(id) !in b.streams then b
    else
      var s := b.streams[App(id)];
      var f := NextFrame(s, room, if sendLimit > b.sentBytes then sendLimit - b.sentBytes else 0);
      if f.None? || f.value.high < f.value.low then b
      else Put(b, App(id), f.value, if s.lost == {} then f.value.high - f.value.low else 0)
  }

  datatype Turn = Turn(id: nat, room: nat)

  /** Streams take turns; `room` is what each finds left in the packet. */
  ghost function AddStreams(b: Building, turns: seq<Turn>, sendLimit: nat): Building
    decreases |turns|
  {
    if turns == [] then b else AddStreams(AddStream(b, turns[0].id, turns[0].room, sendLimit), turns[1..], sendLimit)
  }

  ghost function AddCrypto(b: Building, level: nat, room: nat): Building {
    if Crypto(level) !in b.streams then b
    else
      var f := NextCrypto(b.streams[Crypto(level)], room);
      if f.None? || f.value.high < f.value.low then b else Put(b, Crypto(level), f.value, 0)
  }

  /** What the record of the packet keeps of its frames. */
  function StreamsOf(ts: seq<Tagged>): seq<StreamFrame> {
    if ts == [] then []
    else (if ts[0].key.App? then [StreamFrame(ts[0].key.id, ts[0].frame)] else []) + StreamsOf(ts[1..])
  }

  function CryptoOf(ts: seq<Tagged>): Option<Frame> {
    if ts != [] && ts[|ts| - 1].key.Crypto? then Some(ts[|ts| - 1].frame) else None
  }

  /** `extra` is any other frame that asks to be acknowledged, `padded` any padding. */
  datatype Plan = Plan(turns: seq<Turn>, cryptoRoom: nat, size: nat, extra: bool, padded: bool)

  ghost function Built(s: State, level: nat, plan: Plan): Building {
    var b := Building(s.streams, s.sentBytes, [], s.wire);
    AddCrypto(if level == APPLICATION then AddStreams(b, plan.turns, s.sendLimit) else b, level, plan.cryptoRoom)
  }

  ghost function Transmit(s: State, level: nat, plan: Plan, now: nat): State
    requires level < |s.spaces|
  {
    var b := Built(s, level, plan);
    var eliciting := b.tags != [] || plan.extra;
    var p := Packet(s.spaces[level].next, now, plan.size, eliciting, eliciting || plan.padded,
                    CryptoOf(b.tags), StreamsOf(b.tags));
    s.(streams := b.streams, sentBytes := b.sentBytes, wire := b.wire, clock := now,
       spaces := s.spaces[level := Recorded(s.spaces[level], p)], recovery := OnSent(s.recovery, p))
  }

  // ---- Steps -------------------------------------------------------------------

  datatype Action =
    | Open(id: nat, limit: nat)
    | Append(key: Key, bytes: seq<byte>)
    | Finish(id: nat)
    | StreamLimit(id: nat, limit: nat)
    | DataLimit(limit: nat)
    | Build(level: nat, plan: Plan, now: nat)
    | AckArrives(level: nat, ranges: seq<Range>, largest: nat, ackDelay: nat, now: nat)
    | LossTimer(level: nat, now: nat)
    | Probe(level: nat)
    | Discard(level: nat)
    | Retire(id: nat)

  ghost function Opened(s: State, id: nat, limit: nat): State {
    if id in s.known then s
    else s.(streams := s.streams[App(id) := Empty.(limit := limit)], written := s.written[App(id) := []],
            known := s.known + [id])
  }

  ghost function Appended(s: State, key: Key, bytes: seq<byte>): State {
    if key !in s.streams || key !in s.written then s
    else s.(streams := s.streams[key := Write(s.streams[key], bytes)],
            written := s.written[key := s.written[key] + bytes])
  }

  ghost function Ended(s: State, id: nat): State {
    if App(id) !in s.streams then s
    else s.(streams := s.streams[App(id) := s.streams[App(id)].(finQueued := true)])
  }

  ghost function StreamRaised(s: State, id: nat, limit: nat): State {
    if App(id) !in s.streams then s
    else s.(streams := s.streams[App(id) := s.streams[App(id)].(limit := Max(s.streams[App(id)].limit, limit))])
  }

  ghost function DataRaised(s: State, limit: nat): State { s.(sendLimit := Max(s.sendLimit, limit)) }

  ghost function Transmitted(s: State, level: nat, plan: Plan, now: nat): State
    requires |s.spaces| == LEVELS
  {
    if level >= LEVELS || now < s.clock then s else Transmit(s, level, plan, now)
  }

  ghost function Settle(s: State, level: nat, o: Outcome, now: nat): State
    requires level < |s.spaces|
  {
    s.(spaces := s.spaces[level := o.space], recovery := o.recovery, clock := now,
       streams := LoseFrames(AckFrames(s.streams, Frames(o.acked, level)), Frames(o.lost, level)))
  }

  ghost function AckTaken(s: State, level: nat, ranges: seq<Range>, largest: nat, ackDelay: nat, now: nat): State
    requires |s.spaces| == LEVELS
  {
    if level >= LEVELS || now < s.clock || largest >= s.spaces[level].next then s
    else Settle(s, level, OnAck(s.spaces[level], s.recovery, ranges, largest, ackDelay, now), now)
  }

  ghost function TimedOutAt(s: State, level: nat, now: nat): State
    requires |s.spaces| == LEVELS
  {
    if level >= LEVELS || now < s.clock then s
    else Settle(s, level, OnTimer(s.spaces[level], s.recovery, now), now)
  }

  ghost function Probed(s: State, level: nat): State {
    if Crypto(level) !in s.streams then s
    else
      var c := s.streams[Crypto(level)];
      s.(streams := s.streams[Crypto(level) := DeclareLost(c, c.base, c.sent)])
  }

  ghost function Discarded(s: State, level: nat): State
    requires |s.spaces| == LEVELS
  {
    if level >= APPLICATION then s
    else
      var o := Abandoned(s.spaces[level], s.recovery);
      s.(streams := s.streams - {Crypto(level)}, spaces := s.spaces[level := o.space], recovery := o.recovery)
  }

  ghost function Retired(s: State, id: nat): State {
    if App(id) !in s.streams then s
    else s.(streams := s.streams - {App(id)}, gone := s.gone[id := s.streams[App(id)].sent])
  }

  /** One step; an action the state does not allow changes nothing. */
  ghost function Apply(s: State, a: Action): (t: State)
    requires |s.spaces| == LEVELS
    ensures |t.spaces| == LEVELS
  {
    match a
    case Open(id, limit) => Opened(s, id, limit)
    case Append(key, bytes) => Appended(s, key, bytes)
    case Finish(id) => Ended(s, id)
    case StreamLimit(id, limit) => StreamRaised(s, id, limit)
    case DataLimit(limit) => DataRaised(s, limit)
    case Build(level, plan, now) => Transmitted(s, level, plan, now)
    case AckArrives(level, ranges, largest, ackDelay, now) => AckTaken(s, level, ranges, largest, ackDelay, now)
    case LossTimer(level, now) => TimedOutAt(s, level, now)
    case Probe(level) => Probed(s, level)
    case Discard(level) => Discarded(s, level)
    case Retire(id) => Retired(s, id)
  }

  ghost function Reach(actions: seq<Action>): (s: State)
    ensures |s.spaces| == LEVELS
    decreases |actions|
  {
    if actions == [] then Init else Apply(Reach(actions[..|actions| - 1]), actions[|actions| - 1])
  }
}
