/** The broadcast bus: a ring of messages in shared memory. Writers exclude each
    other and may die at any step; readers take no lock.

    Every step below is one atomic load, store or compare-and-swap, or the copy
    of one byte, so every interleaving of the C code's accesses (at any
    granularity of its byte runs) is a run of this machine. */
module Bus {
  import opened Arith

  // ---- Messages and their bytes -------------------------------------------

  datatype Message = Message(topic: seq<byte>, event: seq<byte>, data: seq<byte>)

  datatype Header = Header(sequence: nat, topicLen: nat, eventLen: nat, dataLen: nat)

  const RECORD_SIZE: nat := 24

  function Body(m: Message): (s: seq<byte>) { m.topic + m.event + m.data }

  /** `n` rounded up to a multiple of eight, counted off in words so that
      proofs need not divide (see AlignRounds). */
  function Align(n: nat): nat {
    if n == 0 then 0 else if n <= 8 then 8 else 8 + Align(n - 8)
  }

  function Size(m: Message): nat { Align(RECORD_SIZE + |Body(m)|) }

  function HeaderOf(sequence: nat, m: Message): Header {
    Header(sequence, |m.topic|, |m.event|, |m.data|)
  }

  /** The record struct as it lies in the ring; the last word is unused. */
  function HeaderBytes(h: Header): (s: seq<byte>)
    ensures |s| == RECORD_SIZE
  {
    LittleEndian(h.sequence, 8) + LittleEndian(h.topicLen, 4) + LittleEndian(h.eventLen, 4)
    + LittleEndian(h.dataLen, 4) + LittleEndian(0, 4)
  }

  function ReadHeader(s: seq<byte>): Header
    requires |s| == RECORD_SIZE
  {
    Header(FromLittleEndian(s[0..8]), FromLittleEndian(s[8..12]),
           FromLittleEndian(s[12..16]), FromLittleEndian(s[16..20]))
  }

  function Image(sequence: nat, m: Message): (s: seq<byte>)
    ensures |s| == RECORD_SIZE + |Body(m)|
  {
    HeaderBytes(HeaderOf(sequence, m)) + Body(m)
  }

  // ---- Shared memory ------------------------------------------------------

  /** What av_bus_init fixes: the ring's size, the index's, the first number. */
  datatype Config = Config(capacity: nat, entries: nat, first: nat)

  /** Both sizes are powers of two in the source, at least 2^16 and 2^10; what
      the protocol needs of them is this. */
  predicate Sane(c: Config) {
    c.capacity >= 65536 && c.capacity % 32 == 0 && 1 <= c.entries && c.first < U64
  }

  function MaxMessage(c: Config): int {
    Min(c.capacity / 4 - RECORD_SIZE, 0x4000_0000)
  }

  datatype Claim = Free | Held(pid: nat)

  datatype Entry = Entry(sequence: nat, position: nat)

  datatype Ring = Ring(next: nat, high: nat, oldest: nat, tail: nat,
                       index: seq<Entry>, bytes: seq<byte>)

  datatype Thread = Thread(pid: nat, tid: nat)

  datatype Attempt = Attempt(message: Message, sequence: nat, position: nat)

  /** Where a call of av_bus_publish stands; each name is the access to come. */
  datatype Writer =
    | LoadClaim(message: Message)
    | TryClaim(message: Message)
    | AskGone(message: Message, seen: Claim)
    | TakeOver(message: Message, seen: Claim)
    | LoadNext(message: Message)
    | LoadTail(message: Message, sequence: nat)
    | LoadHigh(a: Attempt)
    | StoreHigh(a: Attempt)
    | LoadOldest(a: Attempt)
    | SweepNumber(a: Attempt, oldest: nat)
    | SweepPosition(a: Attempt, oldest: nat)
    | SweepHigh(a: Attempt, oldest: nat, position: nat)
    | StoreOldest(a: Attempt, oldest: nat)
    | CopyByte(a: Attempt, i: nat)
    | StorePosition(a: Attempt)
    | StoreNumber(a: Attempt)
    | StoreTail(a: Attempt)
    | StoreNext(a: Attempt)
    | GiveClaim(a: Attempt)

  datatype Result =
    | NotYet
    | Gone
    | TooSmall(needed: nat)
    | Got(message: Message)

  /** Where a call of av_bus_read stands. */
  datatype Reader =
    | AskNext(q: nat, room: nat)
    | AskOldest(q: nat, room: nat)
    | AskNumber(q: nat, room: nat)
    | AskPosition(q: nat, room: nat, before: nat)
    | AskNumberAgain(q: nat, room: nat, before: nat, at: nat)
    | CopyHeader(q: nat, room: nat, at: nat, got: seq<byte>)
    | CheckHeader(q: nat, room: nat, at: nat, got: seq<byte>)
    | CopyBody(q: nat, room: nat, at: nat, head: Header, got: seq<byte>)
    | CheckBody(q: nat, room: nat, at: nat, head: Header, got: seq<byte>)
    | Returned(q: nat, result: Result)

  datatype Commit = Commit(message: Message, position: nat)

  /** The ring and its history. `log` and `heads` are history only, read by no
      step: the publishes that were counted, in order, and the number each
      position's record was written for. */
  datatype Shared = Shared(ring: Ring, log: seq<Commit>, heads: map<nat, nat>)

  datatype State = State(claim: Claim, h: Shared, dead: set<nat>,
                         writers: map<Thread, Writer>, readers: map<Thread, Reader>)

  function ZeroEntries(n: nat): (s: seq<Entry>)
    ensures |s| == n
  {
    seq(n, _ => Entry(0, 0))
  }

  function Init(c: Config): State {
    State(Free,
          Shared(Ring(c.first, 0, c.first, 0, ZeroEntries(c.entries), seq(c.capacity, _ => 0)),
                 [], map[]),
          {}, map[], map[])
  }

  // ---- Steps --------------------------------------------------------------

  predicate Overwritten(c: Config, r: Ring, position: nat) {
    r.high > position + c.capacity
  }

  predicate WellShaped(c: Config, r: Ring) {
    Sane(c) && |r.index| == c.entries && |r.bytes| == c.capacity
  }

  function Slot(c: Config, q: nat): (j: nat)
    requires Sane(c)
    ensures j < c.entries
  {
    Wrap(q, c.entries)
  }

  function At(c: Config, position: nat): (j: nat)
    requires Sane(c)
    ensures j < c.capacity
  {
    Wrap(position, c.capacity)
  }

  /** The claim word, the ring and the writer after the writer's next access;
      no writer once the claim is given back. */
  datatype Wrote = Wrote(claim: Claim, ring: Ring, more: bool, writer: Writer)

  function WriterStep(c: Config, claim: Claim, r: Ring, dead: set<nat>, pid: nat, w: Writer): Wrote
    requires WellShaped(c, r)
    requires w.CopyByte? ==> w.i < |Image(w.a.sequence, w.a.message)|
  {
    match w
    case LoadClaim(m) =>
      Wrote(claim, r, true, if claim.Free? then TryClaim(m) else AskGone(m, claim))
    case TryClaim(m) =>
      if claim.Free? then Wrote(Held(pid), r, true, LoadNext(m))
      else Wrote(claim, r, true, LoadClaim(m))
    case AskGone(m, seen) =>
      Wrote(claim, r, true,
            if seen != Held(pid) && seen.Held? && seen.pid in dead then TakeOver(m, seen)
            else LoadClaim(m))
    case TakeOver(m, seen) =>
      if claim == seen then Wrote(Held(pid), r, true, LoadNext(m))
      else Wrote(claim, r, true, LoadClaim(m))
    case LoadNext(m) => Wrote(claim, r, true, LoadTail(m, r.next))
    case LoadTail(m, q) => Wrote(claim, r, true, LoadHigh(Attempt(m, q, r.tail)))
    case LoadHigh(a) =>
      Wrote(claim, r, true, if r.high < a.position + Size(a.message) then StoreHigh(a) else LoadOldest(a))
    case StoreHigh(a) =>
      Wrote(claim, r.(high := a.position + Size(a.message)), true, LoadOldest(a))
    case LoadOldest(a) => Wrote(claim, r, true, SweepNumber(a, r.oldest))
    case SweepNumber(a, o) =>
      Wrote(claim, r, true,
            if o >= a.sequence then StoreOldest(a, o)
            else if r.index[Slot(c, o)].sequence == o && o + c.entries - 1 >= a.sequence
            then SweepPosition(a, o)
            else SweepNumber(a, o + 1))
    case SweepPosition(a, o) =>
      Wrote(claim, r, true, SweepHigh(a, o, r.index[Slot(c, o)].position))
    case SweepHigh(a, o, at) =>
      Wrote(claim, r, true, if Overwritten(c, r, at) then SweepNumber(a, o + 1) else StoreOldest(a, o))
    case StoreOldest(a, o) => Wrote(claim, r.(oldest := o), true, CopyByte(a, 0))
    case CopyByte(a, i) =>
      var image := Image(a.sequence, a.message);
      Wrote(claim, r.(bytes := r.bytes[At(c, a.position + i) := image[i]]), true,
            if i + 1 < |image| then CopyByte(a, i + 1) else StorePosition(a))
    case StorePosition(a) =>
      var j := Slot(c, a.sequence);
      Wrote(claim, r.(index := r.index[j := r.index[j].(position := a.position)]), true, StoreNumber(a))
    case StoreNumber(a) =>
      var j := Slot(c, a.sequence);
      Wrote(claim, r.(index := r.index[j := r.index[j].(sequence := a.sequence)]), true, StoreTail(a))
    case StoreTail(a) => Wrote(claim, r.(tail := a.position + Size(a.message)), true, StoreNext(a))
    case StoreNext(a) => Wrote(claim, r.(next := a.sequence + 1), true, GiveClaim(a))
    case GiveClaim(a) => Wrote(Free, r, false, w)
  }

  /** A copy in progress is short of what it copies. */
  predicate Partial(x: Reader) {
    match x
    case CopyHeader(_, _, _, got) => |got| < RECORD_SIZE
    case CheckHeader(_, _, _, got) => |got| == RECORD_SIZE
    case CopyBody(_, _, _, head, got) => |got| < BodyLength(head)
    case CheckBody(_, _, _, head, got) => |got| == BodyLength(head)
    case _ => true
  }

  function BodyLength(h: Header): nat { h.topicLen + h.eventLen + h.dataLen }

  function ReaderStep(c: Config, r: Ring, x: Reader): Reader
    requires WellShaped(c, r) && Partial(x)
  {
    match x
    case AskNext(q, room) =>
      if q >= r.next then Returned(q, NotYet) else AskOldest(q, room)
    case AskOldest(q, room) =>
      if q < r.oldest then Returned(q, Gone) else AskNumber(q, room)
    case AskNumber(q, room) => AskPosition(q, room, r.index[Slot(c, q)].sequence)
    case AskPosition(q, room, before) =>
      AskNumberAgain(q, room, before, r.index[Slot(c, q)].position)
    case AskNumberAgain(q, room, before, at) =>
      if before != q || r.index[Slot(c, q)].sequence != q then Returned(q, Gone)
      else CopyHeader(q, room, at, [])
    case CopyHeader(q, room, at, got) =>
      var now := got + [r.bytes[At(c, at + |got|)]];
      if |now| < RECORD_SIZE then CopyHeader(q, room, at, now) else CheckHeader(q, room, at, now)
    case CheckHeader(q, room, at, got) =>
      var head := ReadHeader(got);
      if Overwritten(c, r, at) || head.sequence != q then Returned(q, Gone)
      else if BodyLength(head) > MaxMessage(c) then Returned(q, Gone)
      else if BodyLength(head) > room then Returned(q, TooSmall(BodyLength(head)))
      else if BodyLength(head) == 0 then CheckBody(q, room, at, head, [])
      else CopyBody(q, room, at, head, [])
    case CopyBody(q, room, at, head, got) =>
      var now := got + [r.bytes[At(c, at + RECORD_SIZE + |got|)]];
      if |now| < BodyLength(head) then CopyBody(q, room, at, head, now)
      else CheckBody(q, room, at, head, now)
    case CheckBody(q, room, at, head, got) =>
      if Overwritten(c, r, at) then Returned(q, Gone)
      else Returned(q, Got(Split(head, got)))
    case Returned(_, _) => x
  }

  /** The caller's buffer, cut where the lengths say. */
  function Split(h: Header, got: seq<byte>): Message
    requires |got| == BodyLength(h)
  {
    Message(got[..h.topicLen], got[h.topicLen..h.topicLen + h.eventLen],
            got[h.topicLen + h.eventLen..])
  }

  // ---- Runs ---------------------------------------------------------------

  /** What the scheduler may do next. An action that is not possible in a state
      leaves it as it is. */
  datatype Action =
    | Publish(t: Thread, m: Message)
    | Write(t: Thread)
    | Read(t: Thread, q: nat, room: nat)
    | Fetch(t: Thread)
    | Die(pid: nat)

  function PublishStarted(c: Config, s: State, t: Thread, m: Message): State {
    if t.pid in s.dead || t in s.writers || |Body(m)| > MaxMessage(c) then s
    else s.(writers := s.writers[t := LoadClaim(m)])
  }

  function ReadStarted(s: State, t: Thread, q: nat, room: nat): State {
    if t.pid in s.dead then s else s.(readers := s.readers[t := AskNext(q, room)])
  }

  function Fetched(c: Config, s: State, t: Thread): State
    requires WellShaped(c, s.h.ring)
  {
    if t !in s.readers || !Partial(s.readers[t]) then s
    else s.(readers := s.readers[t := ReaderStep(c, s.h.ring, s.readers[t])])
  }

  function Died(s: State, pid: nat): State {
    s.(dead := s.dead + {pid},
       writers := map t | t in s.writers && t.pid != pid :: s.writers[t],
       readers := map t | t in s.readers && t.pid != pid :: s.readers[t])
  }

  function Apply(c: Config, s: State, a: Action): State
    requires WellShaped(c, s.h.ring)
  {
    match a
    case Publish(t, m) => PublishStarted(c, s, t, m)
    case Write(t) => if t !in s.writers then s else WriterMoved(c, s, t)
    case Read(t, q, room) => ReadStarted(s, t, q, room)
    case Fetch(t) => Fetched(c, s, t)
    case Die(pid) => Died(s, pid)
  }

  /** One access by writer `t`, with the history it makes. A run ends rather than
      count past the last 64-bit number. */
  function WriterMoved(c: Config, s: State, t: Thread): State
    requires WellShaped(c, s.h.ring) && t in s.writers
  {
    var w := s.writers[t];
    if w.CopyByte? && w.i >= |Image(w.a.sequence, w.a.message)| then s else
    if w.StoreNext? && w.a.sequence + 1 >= U64 then s else
    var x := WriterStep(c, s.claim, s.h.ring, s.dead, t.pid, w);
    s.(claim := x.claim,
       h := Shared(x.ring,
                   if w.StoreNext? then s.h.log + [Commit(w.a.message, w.a.position)] else s.h.log,
                   if w.StorePosition? then s.h.heads[w.a.position := w.a.sequence] else s.h.heads),
       writers := if x.more then s.writers[t := x.writer] else s.writers - {t})
  }

  function Reach(c: Config, actions: seq<Action>): (s: State)
    requires Sane(c)
    ensures WellShaped(c, s.h.ring)
  {
    if actions == [] then Init(c)
    else Apply(c, Reach(c, actions[..|actions| - 1]), actions[|actions| - 1])
  }
}
