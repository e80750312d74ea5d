/** What every run of the bus keeps, and what that means for its readers. */
module BusProof {
  import opened Arith
  import opened Bus

  // ---- The invariant ------------------------------------------------------

  ghost predicate Shape(c: Config, h: Shared) {
    && WellShaped(c, h.ring)
    && h.ring.next == c.first + |h.log| < U64
    && c.first <= h.ring.oldest <= h.ring.next
  }

  /** Counted messages lie in order, below the tail; the watermark is at most
      one message above the tail. */
  ghost predicate Order(c: Config, log: seq<Commit>, tail: nat, high: nat) {
    && (forall k :: 0 <= k < |log| ==>
          |Body(log[k].message)| <= MaxMessage(c) && log[k].position + Size(log[k].message) <= tail)
    && (forall k, l :: 0 <= k < l < |log| ==>
          log[k].position + Size(log[k].message) <= log[l].position)
    && tail <= high && 4 * (high - tail) <= c.capacity
  }

  ghost predicate Lost(c: Config, high: nat, position: nat) { high > position + c.capacity }

  /** The ring holds `image` from `position` on, unless it has been written over. */
  ghost predicate Holds(c: Config, bytes: seq<byte>, high: nat, position: nat, image: seq<byte>)
    requires Sane(c) && |bytes| == c.capacity
  {
    !Lost(c, high, position) ==>
      forall i :: 0 <= i < |image| ==> bytes[At(c, position + i)] == image[i]
  }

  ghost predicate Intact(c: Config, bytes: seq<byte>, high: nat, log: seq<Commit>)
    requires Sane(c) && |bytes| == c.capacity
  {
    forall k :: 0 <= k < |log| ==>
      Holds(c, bytes, high, log[k].position, Image(c.first + k, log[k].message))
  }

  /** Every position an index entry ever named starts with the number it was
      named for, and only the attempt for that number rewrites it. */
  ghost predicate Named(c: Config, bytes: seq<byte>, high: nat, heads: map<nat, nat>)
    requires Sane(c) && |bytes| == c.capacity
  {
    forall p :: p in heads ==> Holds(c, bytes, high, p, LittleEndian(heads[p], 8))
  }

  ghost predicate HeadsPlaced(tail: nat, next: nat, heads: map<nat, nat>) {
    forall p :: p in heads ==>
      heads[p] <= next && (p + RECORD_SIZE <= tail || (p == tail && heads[p] == next))
  }

  ghost predicate LogNamed(c: Config, log: seq<Commit>, heads: map<nat, nat>) {
    forall k :: 0 <= k < |log| ==> log[k].position in heads && heads[log[k].position] == c.first + k
  }

  /** Where the index points a reader of a counted message: to that message, or
      to a record that bears another number. */
  ghost predicate PointsWell(c: Config, h: Shared, k: nat, position: nat)
    requires k < |h.log|
  {
    position in h.heads && (h.heads[position] == c.first + k ==> position == h.log[k].position)
  }

  ghost predicate EntryOk(c: Config, h: Shared, k: nat)
    requires WellShaped(c, h.ring) && k < |h.log|
  {
    var e := h.ring.index[Slot(c, c.first + k)];
    && PointsWell(c, h, k, e.position)
    && (c.first + k + c.entries > h.ring.next ==> e == Entry(c.first + k, h.log[k].position))
  }

  ghost predicate IndexOk(c: Config, h: Shared)
    requires WellShaped(c, h.ring)
  {
    forall k: nat :: k < |h.log| ==> EntryOk(c, h, k)
  }

  /** Message `k` can be read now. */
  ghost predicate Readable(c: Config, h: Shared, k: nat)
    requires WellShaped(c, h.ring) && k < |h.log|
  {
    && h.ring.index[Slot(c, c.first + k)] == Entry(c.first + k, h.log[k].position)
    && !Lost(c, h.ring.high, h.log[k].position)
  }

  ghost predicate AllReadable(c: Config, h: Shared)
    requires WellShaped(c, h.ring)
  {
    forall k :: 0 <= k < |h.log| && c.first + k >= h.ring.oldest ==> Readable(c, h, k)
  }

  ghost predicate Swept(c: Config, log: seq<Commit>, next: nat, high: nat, from: nat) {
    forall k :: 0 <= k < |log| && c.first + k >= from ==>
      c.first + k + c.entries > next && !Lost(c, high, log[k].position)
  }

  predicate InCrit(w: Writer) {
    !w.LoadClaim? && !w.TryClaim? && !w.AskGone? && !w.TakeOver?
  }

  ghost predicate Copied(c: Config, h: Shared, a: Attempt, n: nat)
    requires WellShaped(c, h.ring) && n <= |Image(a.sequence, a.message)|
  {
    Holds(c, h.ring.bytes, h.ring.high, a.position, Image(a.sequence, a.message)[..n])
  }

  ghost predicate Going(c: Config, h: Shared, a: Attempt) {
    |Body(a.message)| <= MaxMessage(c) && a.sequence == h.ring.next && a.position == h.ring.tail
  }

  ghost predicate Raised(c: Config, h: Shared, a: Attempt) {
    Going(c, h, a) && a.position + Size(a.message) <= h.ring.high
  }

  ghost predicate Trimmed(c: Config, h: Shared, a: Attempt)
    requires WellShaped(c, h.ring)
  {
    Raised(c, h, a) && Swept(c, h.log, h.ring.next, h.ring.high, h.ring.oldest)
  }

  ghost predicate Written(c: Config, h: Shared, a: Attempt)
    requires WellShaped(c, h.ring)
  {
    Swept(c, h.log, h.ring.next, h.ring.high, h.ring.oldest) && Copied(c, h, a, |Image(a.sequence, a.message)|)
  }

  /** What the claim holder knows at each step. */
  ghost predicate Holder(c: Config, h: Shared, w: Writer)
    requires WellShaped(c, h.ring)
  {
    match w
    case LoadNext(m) => |Body(m)| <= MaxMessage(c)
    case LoadTail(m, q) => |Body(m)| <= MaxMessage(c) && q == h.ring.next
    case LoadHigh(a) => Going(c, h, a)
    case StoreHigh(a) => Going(c, h, a) && h.ring.high < a.position + Size(a.message)
    case LoadOldest(a) => Raised(c, h, a)
    case SweepNumber(a, o) => Raised(c, h, a) && h.ring.oldest <= o <= a.sequence
    case SweepPosition(a, o) =>
      Raised(c, h, a) && h.ring.oldest <= o < a.sequence && o + c.entries > a.sequence
    case SweepHigh(a, o, at) =>
      && Raised(c, h, a) && h.ring.oldest <= o < a.sequence && o + c.entries > a.sequence
      && c.first <= o < c.first + |h.log| && at == h.log[o - c.first].position
    case StoreOldest(a, o) =>
      Raised(c, h, a) && h.ring.oldest <= o <= a.sequence && Swept(c, h.log, h.ring.next, h.ring.high, o)
    case CopyByte(a, i) =>
      Trimmed(c, h, a) && i < |Image(a.sequence, a.message)| && Copied(c, h, a, i)
    case StorePosition(a) => Trimmed(c, h, a) && Written(c, h, a)
    case StoreNumber(a) =>
      && Trimmed(c, h, a) && Written(c, h, a)
      && a.position in h.heads && h.heads[a.position] == a.sequence
      && h.ring.index[Slot(c, a.sequence)].position == a.position
    case StoreTail(a) =>
      && Trimmed(c, h, a) && Written(c, h, a)
      && a.position in h.heads && h.heads[a.position] == a.sequence
      && h.ring.index[Slot(c, a.sequence)] == Entry(a.sequence, a.position)
    case StoreNext(a) =>
      && Written(c, h, a) && |Body(a.message)| <= MaxMessage(c)
      && a.sequence == h.ring.next && a.position + Size(a.message) == h.ring.tail
      && (forall k :: 0 <= k < |h.log| ==>
            h.log[k].position + Size(h.log[k].message) <= a.position)
      && (forall p :: p in h.heads ==> p + RECORD_SIZE <= h.ring.tail)
      && a.position in h.heads && h.heads[a.position] == a.sequence
      && h.ring.index[Slot(c, a.sequence)] == Entry(a.sequence, a.position)
    case GiveClaim(a) => AllReadable(c, h)
    case _ => true
  }

  ghost predicate Waiting(c: Config, dead: set<nat>, w: Writer) {
    match w
    case LoadClaim(m) => |Body(m)| <= MaxMessage(c)
    case TryClaim(m) => |Body(m)| <= MaxMessage(c)
    case AskGone(m, _) => |Body(m)| <= MaxMessage(c)
    case TakeOver(m, seen) => |Body(m)| <= MaxMessage(c) && seen.Held? && seen.pid in dead
    case _ => true
  }

  /** At most one live thread is past the claim, and the claim word names its
      process. */
  ghost predicate Exclusive(s: State) {
    && (forall t :: t in s.writers ==> t.pid !in s.dead)
    && (forall t :: t in s.writers && InCrit(s.writers[t]) ==> s.claim == Held(t.pid))
    && (forall t, u ::
          t in s.writers && u in s.writers && InCrit(s.writers[t]) && InCrit(s.writers[u]) ==> t == u)
  }

  ghost predicate WritersOk(c: Config, h: Shared, dead: set<nat>, writers: map<Thread, Writer>)
    requires WellShaped(c, h.ring)
  {
    forall t :: t in writers ==> Waiting(c, dead, writers[t]) && Holder(c, h, writers[t])
  }

  /** What a reader has found out so far, as long as it is not too late. */
  ghost predicate Knows(c: Config, h: Shared, x: Reader) {
    && Partial(x)
    && match x
       case AskNext(_, _) => true
       case AskOldest(q, _) => q < h.ring.next
       case AskNumber(q, _) => c.first <= q < c.first + |h.log|
       case AskPosition(q, _, _) => c.first <= q < c.first + |h.log|
       case AskNumberAgain(q, _, _, at) =>
         c.first <= q < c.first + |h.log| && PointsWell(c, h, q - c.first, at)
       case CopyHeader(q, _, at, got) => KnowsHeader(c, h, q, at, got)
       case CheckHeader(q, _, at, got) => KnowsHeader(c, h, q, at, got)
       case CopyBody(q, _, at, head, got) => KnowsBody(c, h, q, at, head, got)
       case CheckBody(q, _, at, head, got) => KnowsBody(c, h, q, at, head, got)
       case Returned(q, Got(m)) =>
         c.first <= q < c.first + |h.log| && m == h.log[q - c.first].message
       case Returned(q, TooSmall(n)) =>
         c.first <= q < c.first + |h.log| && n == |Body(h.log[q - c.first].message)|
       case Returned(_, _) => true
  }

  /** The header bytes copied so far, if not written over, are those of the
      record at `at`: at least its number, and all of it if it is message `k`. */
  ghost predicate HeaderSeen(c: Config, h: Shared, k: nat, at: nat, got: seq<byte>)
    requires k < |h.log| && PointsWell(c, h, k, at)
  {
    !Overwritten(c, h.ring, at) ==>
      && got[..Min(|got|, 8)] <= LittleEndian(h.heads[at], 8)
      && (at == h.log[k].position ==> got <= Image(c.first + k, h.log[k].message))
  }

  ghost predicate KnowsHeader(c: Config, h: Shared, q: nat, at: nat, got: seq<byte>) {
    && c.first <= q < c.first + |h.log| && PointsWell(c, h, q - c.first, at)
    && HeaderSeen(c, h, q - c.first, at, got)
  }

  ghost predicate KnowsBody(c: Config, h: Shared, q: nat, at: nat, head: Header, got: seq<byte>) {
    && c.first <= q < c.first + |h.log| && at == h.log[q - c.first].position
    && head == HeaderOf(q, h.log[q - c.first].message)
    && (!Overwritten(c, h.ring, at) ==> got <= Body(h.log[q - c.first].message))
  }

  ghost predicate ReadersOk(c: Config, h: Shared, readers: map<Thread, Reader>) {
    forall t :: t in readers ==> Knows(c, h, readers[t])
  }

  ghost predicate RingInv(c: Config, h: Shared) {
    && Shape(c, h)
    && Order(c, h.log, h.ring.tail, h.ring.high)
    && Intact(c, h.ring.bytes, h.ring.high, h.log)
    && Named(c, h.ring.bytes, h.ring.high, h.heads)
    && HeadsPlaced(h.ring.tail, h.ring.next, h.heads)
    && LogNamed(c, h.log, h.heads)
    && IndexOk(c, h)
  }

  ghost predicate Inv(c: Config, s: State) {
    && RingInv(c, s.h)
    && (s.claim.Free? ==> AllReadable(c, s.h))
    && Exclusive(s)
    && WritersOk(c, s.h, s.dead, s.writers)
    && ReadersOk(c, s.h, s.readers)
  }

  lemma InitInv(c: Config)
    requires Sane(c)
    ensures Inv(c, Init(c))
  {
  }

  // ---- Preservation: what a step leaves alone ------------------------------

  /** History and watermarks only grow. */
  ghost predicate Grew(h: Shared, h': Shared) {
    && h.log <= h'.log
    && (forall p :: p in h.heads ==> p in h'.heads && h'.heads[p] == h.heads[p])
    && h.ring.high <= h'.ring.high
    && h.ring.next <= h'.ring.next
  }

  lemma KnowsStable(c: Config, h: Shared, h': Shared, x: Reader)
    requires Grew(h, h') && Knows(c, h, x)
    ensures Knows(c, h', x)
  {
  }

  lemma ReadersStable(c: Config, h: Shared, h': Shared, readers: map<Thread, Reader>)
    requires Grew(h, h') && ReadersOk(c, h, readers)
    ensures ReadersOk(c, h', readers)
  {
    forall t | t in readers ensures Knows(c, h', readers[t]) {
      KnowsStable(c, h, h', readers[t]);
    }
  }

  /** The claim holder changed the ring: no other writer relied on it. */
  lemma HolderMoved(c: Config, s: State, s': State, t: Thread)
    requires Inv(c, s) && t in s.writers && InCrit(s.writers[t])
    requires s'.dead == s.dead && s'.claim == s.claim && s'.readers == s.readers
    requires t in s'.writers && InCrit(s'.writers[t])
    requires s'.writers == s.writers[t := s'.writers[t]]
    requires Grew(s.h, s'.h) && RingInv(c, s'.h) && Holder(c, s'.h, s'.writers[t])
    ensures Inv(c, s')
  {
    ReadersStable(c, s.h, s'.h, s.readers);
  }

  /** A claim is taken only from nobody, or from a process that is gone. */
  lemma ExclusiveStep(c: Config, s: State, t: Thread)
    requires WellShaped(c, s.h.ring) && Exclusive(s) && t in s.writers && Waiting(c, s.dead, s.writers[t])
    ensures Exclusive(WriterMoved(c, s, t))
  {
  }

  lemma QuietWriter(c: Config, claim: Claim, h: Shared, dead: set<nat>, pid: nat, w: Writer)
    requires WellShaped(c, h.ring) && Waiting(c, dead, w) && Holder(c, h, w)
    requires w.LoadClaim? || w.AskGone? || w.TryClaim? || w.TakeOver? || w.LoadNext? || w.LoadTail?
             || w.LoadHigh? || w.LoadOldest?
    requires c.first <= h.ring.oldest <= h.ring.next
    ensures var x := WriterStep(c, claim, h.ring, dead, pid, w);
            x.ring == h.ring && x.more && Waiting(c, dead, x.writer) && Holder(c, h, x.writer)
  {
  }

  lemma {:induction false} AlignRounds(n: nat)
    ensures Align(n) == (n + 7) / 8 * 8
  {
    if n > 8 { AlignRounds(n - 8); }
  }

  lemma SizeBounds(c: Config, m: Message)
    requires Sane(c) && |Body(m)| <= MaxMessage(c)
    ensures RECORD_SIZE + |Body(m)| <= Size(m) && 4 * Size(m) <= c.capacity
  {
    AlignRounds(RECORD_SIZE + |Body(m)|);
  }

  /** Raising the watermark or moving the low end only takes messages out of reach. */
  lemma WatermarkRing(c: Config, h: Shared, h': Shared)
    requires RingInv(c, h) && h' == h.(ring := h.ring.(high := h'.ring.high, oldest := h'.ring.oldest))
    requires h.ring.high <= h'.ring.high && 4 * (h'.ring.high - h.ring.tail) <= c.capacity
    requires h.ring.oldest <= h'.ring.oldest <= h.ring.next
    ensures RingInv(c, h')
  {
    HoldLater(c, h.ring.bytes, h.ring.high, h'.ring.high, h.log, h.heads);
    IndexSame(c, h, h');
  }

  lemma HoldLater(c: Config, bytes: seq<byte>, high: nat, higher: nat, log: seq<Commit>, heads: map<nat, nat>)
    requires Sane(c) && |bytes| == c.capacity && high <= higher
    requires Intact(c, bytes, high, log) && Named(c, bytes, high, heads)
    ensures Intact(c, bytes, higher, log) && Named(c, bytes, higher, heads)
  {
    forall k | 0 <= k < |log| ensures Holds(c, bytes, higher, log[k].position, Image(c.first + k, log[k].message)) {
      assert Holds(c, bytes, high, log[k].position, Image(c.first + k, log[k].message));
    }
    forall p | p in heads ensures Holds(c, bytes, higher, p, LittleEndian(heads[p], 8)) {
      assert Holds(c, bytes, high, p, LittleEndian(heads[p], 8));
    }
  }

  /** The index says what it said if it, the log, the names and the count are the same. */
  lemma IndexSame(c: Config, h: Shared, h': Shared)
    requires WellShaped(c, h.ring) && WellShaped(c, h'.ring) && IndexOk(c, h)
    requires h'.log == h.log && h'.heads == h.heads && h'.ring.index == h.ring.index && h'.ring.next == h.ring.next
    ensures IndexOk(c, h')
  {
    forall k: nat | k < |h.log| ensures EntryOk(c, h', k) { assert EntryOk(c, h, k); }
  }

  lemma WatermarkStep(c: Config, s: State, t: Thread)
    requires Inv(c, s) && t in s.writers
    requires s.writers[t].StoreHigh? || s.writers[t].StoreOldest?
    ensures Inv(c, WriterMoved(c, s, t))
  {
    var s' := WriterMoved(c, s, t);
    var w := s.writers[t];
    SizeBounds(c, w.a.message);
    WatermarkRing(c, s.h, s'.h);
    HolderMoved(c, s, s', t);
  }

  /** Later messages lie further on, so if this one is not written over, none of them is. */
  lemma SweptFrom(c: Config, h: Shared, o: nat)
    requires Shape(c, h) && Order(c, h.log, h.ring.tail, h.ring.high) && c.first <= o < h.ring.next &&
             o + c.entries > h.ring.next
    requires !Overwritten(c, h.ring, h.log[o - c.first].position)
    ensures Swept(c, h.log, h.ring.next, h.ring.high, o)
  {
    forall k | 0 <= k < |h.log| && c.first + k >= o
      ensures !Lost(c, h.ring.high, h.log[k].position)
    {
      if o - c.first < k {
        assert h.log[o - c.first].position + Size(h.log[o - c.first].message) <= h.log[k].position;
      }
    }
  }

  lemma SweepWriter(c: Config, claim: Claim, h: Shared, dead: set<nat>, pid: nat, w: Writer)
    requires Shape(c, h) && Order(c, h.log, h.ring.tail, h.ring.high) && IndexOk(c, h) && Holder(c, h, w)
    requires w.SweepNumber? || w.SweepPosition? || w.SweepHigh?
    ensures var x := WriterStep(c, claim, h.ring, dead, pid, w);
            x.ring == h.ring && x.more && InCrit(x.writer) && Holder(c, h, x.writer)
  {
    if w.SweepPosition? { assert EntryOk(c, h, w.oldest - c.first); }
    if w.SweepHigh? && !Overwritten(c, h.ring, w.position) { SweptFrom(c, h, w.oldest); }
  }

  lemma ClaimingStep(c: Config, s: State, t: Thread)
    requires Inv(c, s) && t in s.writers && !InCrit(s.writers[t])
    ensures Inv(c, WriterMoved(c, s, t))
  {
    ExclusiveStep(c, s, t);
    QuietWriter(c, s.claim, s.h, s.dead, t.pid, s.writers[t]);
  }

  lemma LoadingStep(c: Config, s: State, t: Thread)
    requires Inv(c, s) && t in s.writers
    requires var w := s.writers[t]; w.LoadNext? || w.LoadTail? || w.LoadHigh? || w.LoadOldest?
    ensures Inv(c, WriterMoved(c, s, t))
  {
    QuietWriter(c, s.claim, s.h, s.dead, t.pid, s.writers[t]);
    HolderMoved(c, s, WriterMoved(c, s, t), t);
  }

  lemma SweepStep(c: Config, s: State, t: Thread)
    requires Inv(c, s) && t in s.writers
    requires var w := s.writers[t]; w.SweepNumber? || w.SweepPosition? || w.SweepHigh?
    ensures Inv(c, WriterMoved(c, s, t))
  {
    SweepWriter(c, s.claim, s.h, s.dead, t.pid, s.writers[t]);
    HolderMoved(c, s, WriterMoved(c, s, t), t);
  }

  lemma ReleaseStep(c: Config, s: State, t: Thread)
    requires Inv(c, s) && t in s.writers && s.writers[t].GiveClaim?
    ensures Inv(c, WriterMoved(c, s, t))
  {
    ReleaseIs(c, s, t);
    ReleaseInv(c, s, s.(claim := Free, writers := s.writers - {t}), t);
  }

  lemma ReleaseIs(c: Config, s: State, t: Thread)
    requires WellShaped(c, s.h.ring) && t in s.writers && s.writers[t].GiveClaim?
    ensures WriterMoved(c, s, t) == s.(claim := Free, writers := s.writers - {t})
  {
  }

  lemma ReleaseInv(c: Config, s: State, s': State, t: Thread)
    requires Inv(c, s) && t in s.writers && s.writers[t].GiveClaim?
    requires s' == s.(claim := Free, writers := s.writers - {t})
    ensures Inv(c, s')
  {
  }

  // ---- Preservation: the message's bytes ------------------------------------

  /** A byte stored past an image, less than a lap ahead of it, leaves it alone. */
  lemma HoldsAfter(c: Config, bytes: seq<byte>, high: nat, p: nat, image: seq<byte>, x: nat, b: byte)
    requires Sane(c) && |bytes| == c.capacity && Holds(c, bytes, high, p, image)
    requires !Lost(c, high, p) ==> p + |image| <= x < p + c.capacity
    ensures Holds(c, bytes[At(c, x) := b], high, p, image)
  {
    if !Lost(c, high, p) {
      forall i | 0 <= i < |image| ensures bytes[At(c, x) := b][At(c, p + i)] == image[i] {
        WrapDistinct(x, p + i, c.capacity);
      }
    }
  }

  /** Storing again the byte that is there changes nothing: a takeover writes
      the number the dead writer wrote. */
  lemma HoldsAgain(c: Config, bytes: seq<byte>, high: nat, p: nat, image: seq<byte>, i: nat)
    requires Sane(c) && |bytes| == c.capacity && Holds(c, bytes, high, p, image) && i < |image| <= c.capacity
    ensures Holds(c, bytes[At(c, p + i) := image[i]], high, p, image)
  {
    if !Lost(c, high, p) {
      forall n | 0 <= n < |image| ensures bytes[At(c, p + i) := image[i]][At(c, p + n)] == image[n] {
        if n < i { WrapDistinct(p + i, p + n, c.capacity); }
        if i < n { WrapDistinct(p + n, p + i, c.capacity); }
      }
    }
  }

  lemma HoldsMore(c: Config, bytes: seq<byte>, high: nat, p: nat, image: seq<byte>, i: nat)
    requires Sane(c) && |bytes| == c.capacity && i < |image| <= c.capacity
    requires Holds(c, bytes, high, p, image[..i])
    ensures Holds(c, bytes[At(c, p + i) := image[i]], high, p, image[..i + 1])
  {
    HoldsAfter(c, bytes, high, p, image[..i], p + i, image[i]);
    assert image[..i + 1] == image[..i] + [image[i]];
  }

  lemma ImageStartsWithNumber(q: nat, m: Message)
    ensures Image(q, m)[..8] == LittleEndian(q, 8)
  {
  }

  function OneByteIn(c: Config, h: Shared, a: Attempt, i: nat): Shared
    requires WellShaped(c, h.ring) && i < |Image(a.sequence, a.message)|
  {
    h.(ring := h.ring.(bytes := h.ring.bytes[At(c, a.position + i) := Image(a.sequence, a.message)[i]]))
  }

  /** A byte of the record that bears number `n` is stored over a name at `p`: past it,
      or as the byte that is there. */
  lemma NameByte(c: Config, bytes: seq<byte>, high: nat, p: nat, n: nat, q: nat, m: Message, position: nat, i: nat)
    requires Sane(c) && |bytes| == c.capacity && Holds(c, bytes, high, p, LittleEndian(n, 8))
    requires i < |Image(q, m)| && (!Lost(c, high, p) ==> position + i < p + c.capacity)
    requires p + 8 <= position || (p == position && n == q)
    ensures Holds(c, bytes[At(c, position + i) := Image(q, m)[i]], high, p, LittleEndian(n, 8))
  {
    var name := LittleEndian(n, 8);
    if p + 8 <= position + i {
      HoldsAfter(c, bytes, high, p, name, position + i, Image(q, m)[i]);
    } else {
      ImageStartsWithNumber(q, m);
      assert Image(q, m)[..8][i] == name[i];
      HoldsAgain(c, bytes, high, p, name, i);
    }
  }

  lemma NameAfter(c: Config, h: Shared, a: Attempt, i: nat, p: nat)
    requires Shape(c, h) && HeadsPlaced(h.ring.tail, h.ring.next, h.heads)
    requires Named(c, h.ring.bytes, h.ring.high, h.heads) && p in h.heads
    requires Raised(c, h, a) && i < |Image(a.sequence, a.message)|
    ensures Holds(c, OneByteIn(c, h, a, i).ring.bytes, h.ring.high, p, LittleEndian(h.heads[p], 8))
  {
    SizeBounds(c, a.message);
    NameByte(c, h.ring.bytes, h.ring.high, p, h.heads[p], a.sequence, a.message, a.position, i);
  }

  /** A byte of the attempt lies past every counted message and less than a lap ahead of
      one that is not lost. */
  lemma ByteAhead(c: Config, log: seq<Commit>, tail: nat, high: nat, k: nat, m: Message, q: nat, i: nat)
    requires Sane(c) && Order(c, log, tail, high) && k < |log| && |Body(m)| <= MaxMessage(c)
    requires i < |Image(q, m)| && tail + Size(m) <= high
    ensures log[k].position + |Image(c.first + k, log[k].message)| <= tail + i
    ensures !Lost(c, high, log[k].position) ==> tail + i < log[k].position + c.capacity
  {
    SizeBounds(c, m);
    SizeBounds(c, log[k].message);
  }

  lemma MessageAfter(c: Config, h: Shared, a: Attempt, i: nat, k: nat)
    requires Shape(c, h) && Order(c, h.log, h.ring.tail, h.ring.high) && k < |h.log|
    requires Holds(c, h.ring.bytes, h.ring.high, h.log[k].position, Image(c.first + k, h.log[k].message))
    requires Raised(c, h, a) && i < |Image(a.sequence, a.message)|
    ensures Holds(c, OneByteIn(c, h, a, i).ring.bytes, h.ring.high, h.log[k].position,
                  Image(c.first + k, h.log[k].message))
  {
    ByteAhead(c, h.log, h.ring.tail, h.ring.high, k, a.message, a.sequence, i);
    HoldsAfter(c, h.ring.bytes, h.ring.high, h.log[k].position, Image(c.first + k, h.log[k].message),
               a.position + i, Image(a.sequence, a.message)[i]);
  }

  lemma CopyRing(c: Config, h: Shared, a: Attempt, i: nat)
    requires RingInv(c, h) && Raised(c, h, a) && i < |Image(a.sequence, a.message)|
    ensures RingInv(c, OneByteIn(c, h, a, i))
  {
    var h' := OneByteIn(c, h, a, i);
    forall k: nat | k < |h.log|
      ensures Holds(c, h'.ring.bytes, h.ring.high, h.log[k].position, Image(c.first + k, h.log[k].message))
    {
      MessageAfter(c, h, a, i, k);
    }
    forall p | p in h.heads ensures Holds(c, h'.ring.bytes, h.ring.high, p, LittleEndian(h.heads[p], 8)) {
      NameAfter(c, h, a, i, p);
    }
    IndexSame(c, h, h');
  }

  lemma ImageFits(c: Config, q: nat, m: Message)
    requires Sane(c) && |Body(m)| <= MaxMessage(c)
    ensures |Image(q, m)| <= c.capacity
  {
    SizeBounds(c, m);
  }

  lemma CopiedMore(c: Config, h: Shared, a: Attempt, i: nat)
    requires WellShaped(c, h.ring) && |Body(a.message)| <= MaxMessage(c)
    requires i < |Image(a.sequence, a.message)| && Copied(c, h, a, i)
    ensures Copied(c, OneByteIn(c, h, a, i), a, i + 1)
  {
    ImageFits(c, a.sequence, a.message);
    HoldsMore(c, h.ring.bytes, h.ring.high, a.position, Image(a.sequence, a.message), i);
  }

  /** After a byte, the holder still knows what it swept, and one byte more. */
  lemma CopyWriter(c: Config, h: Shared, w: Writer, w': Writer)
    requires Shape(c, h) && w.CopyByte? && Holder(c, h, w)
    requires w' == if w.i + 1 < |Image(w.a.sequence, w.a.message)| then CopyByte(w.a, w.i + 1) else StorePosition(w.a)
    ensures Holder(c, OneByteIn(c, h, w.a, w.i), w')
  {
    CopiedMore(c, h, w.a, w.i);
  }

  function AfterByte(w: Writer): Writer
    requires w.CopyByte?
  {
    if w.i + 1 < |Image(w.a.sequence, w.a.message)| then CopyByte(w.a, w.i + 1) else StorePosition(w.a)
  }

  lemma CopyIs(c: Config, s: State, t: Thread)
    requires WellShaped(c, s.h.ring) && t in s.writers && s.writers[t].CopyByte?
    requires s.writers[t].i < |Image(s.writers[t].a.sequence, s.writers[t].a.message)|
    ensures var w := s.writers[t];
            WriterMoved(c, s, t) == s.(h := OneByteIn(c, s.h, w.a, w.i), writers := s.writers[t := AfterByte(w)])
  {
  }

  lemma CopyShared(c: Config, h: Shared, w: Writer)
    requires RingInv(c, h) && w.CopyByte? && Holder(c, h, w)
    ensures w.i < |Image(w.a.sequence, w.a.message)|
    ensures var h' := OneByteIn(c, h, w.a, w.i); RingInv(c, h') && Grew(h, h') && Holder(c, h', AfterByte(w))
  {
    CopyRing(c, h, w.a, w.i);
    CopyWriter(c, h, w, AfterByte(w));
  }

  lemma CopyStep(c: Config, s: State, t: Thread)
    requires Inv(c, s) && t in s.writers && s.writers[t].CopyByte?
    ensures Inv(c, WriterMoved(c, s, t))
  {
    CopyShared(c, s.h, s.writers[t]);
    CopyIs(c, s, t);
    HolderMoved(c, s, WriterMoved(c, s, t), t);
  }

  // ---- Preservation: the index and the counts -------------------------------

  /** A store to the entry of the number being written leaves the entries of
      the messages still in the index. */
  lemma OtherEntries(c: Config, h: Shared, q: nat, e: Entry, h': Shared)
    requires Shape(c, h) && IndexOk(c, h) && q == h.ring.next
    requires h'.ring == h.ring.(index := h.ring.index[Slot(c, q) := e])
    requires h'.log == h.log && Grew(h, h')
    requires e.position in h'.heads && (h'.heads[e.position] == q || e.position == h.ring.index[Slot(c, q)].position)
    ensures IndexOk(c, h')
  {
    forall k: nat | k < |h.log| ensures EntryOk(c, h', k) {
      assert EntryOk(c, h, k);
      if c.first + k + c.entries > q { WrapDistinct(q, c.first + k, c.entries); }
    }
  }

  lemma PositionEffect(c: Config, h: Shared, a: Attempt, h': Shared)
    requires RingInv(c, h) && Holder(c, h, StorePosition(a))
    requires var j := Slot(c, a.sequence);
             h' == h.(ring := h.ring.(index := h.ring.index[j := h.ring.index[j].(position := a.position)]),
                      heads := h.heads[a.position := a.sequence])
    ensures RingInv(c, h') && Holder(c, h', StoreNumber(a)) && Grew(h, h')
  {
    var image := Image(a.sequence, a.message);
    ImageStartsWithNumber(a.sequence, a.message);
    assert image[..|image|] == image;
    assert Holds(c, h.ring.bytes, h.ring.high, a.position, LittleEndian(a.sequence, 8)) by {
      forall i | 0 <= i < 8 ensures image[i] == LittleEndian(a.sequence, 8)[i] { assert image[..8][i] == image[i]; }
    }
    OtherEntries(c, h, a.sequence, h'.ring.index[Slot(c, a.sequence)], h');
  }

  lemma NumberEffect(c: Config, h: Shared, a: Attempt, h': Shared)
    requires RingInv(c, h) && Holder(c, h, StoreNumber(a))
    requires var j := Slot(c, a.sequence);
             h' == h.(ring := h.ring.(index := h.ring.index[j := h.ring.index[j].(sequence := a.sequence)]))
    ensures RingInv(c, h') && Holder(c, h', StoreTail(a)) && Grew(h, h')
  {
    OtherEntries(c, h, a.sequence, h'.ring.index[Slot(c, a.sequence)], h');
  }

  lemma TailEffect(c: Config, h: Shared, a: Attempt, h': Shared)
    requires RingInv(c, h) && Holder(c, h, StoreTail(a))
    requires h' == h.(ring := h.ring.(tail := a.position + Size(a.message)))
    ensures RingInv(c, h') && Holder(c, h', StoreNext(a)) && Grew(h, h')
  {
    SizeBounds(c, a.message);
    IndexSame(c, h, h');
  }

  function Counted(h: Shared, a: Attempt): Shared {
    h.(ring := h.ring.(next := a.sequence + 1), log := h.log + [Commit(a.message, a.position)])
  }

  lemma CountIndex(c: Config, h: Shared, a: Attempt)
    requires Shape(c, h) && Order(c, h.log, h.ring.tail, h.ring.high) && IndexOk(c, h)
    requires Holder(c, h, StoreNext(a))
    ensures IndexOk(c, Counted(h, a)) && AllReadable(c, Counted(h, a))
  {
    SizeBounds(c, a.message);
    var h' := Counted(h, a);
    forall k: nat | k < |h'.log|
      ensures EntryOk(c, h', k) && (c.first + k >= h'.ring.oldest ==> Readable(c, h', k))
    {
      if k < |h.log| { assert EntryOk(c, h, k); }
    }
  }

  lemma CountOrder(c: Config, log: seq<Commit>, tail: nat, high: nat, m: Commit)
    requires Order(c, log, tail, high) && |Body(m.message)| <= MaxMessage(c) && m.position + Size(m.message) <= tail
    requires forall k :: 0 <= k < |log| ==> log[k].position + Size(log[k].message) <= m.position
    ensures Order(c, log + [m], tail, high)
  {
  }

  lemma CountIntact(c: Config, bytes: seq<byte>, high: nat, log: seq<Commit>, m: Commit)
    requires Sane(c) && |bytes| == c.capacity && Intact(c, bytes, high, log)
    requires Holds(c, bytes, high, m.position, Image(c.first + |log|, m.message))
    ensures Intact(c, bytes, high, log + [m])
  {
    var more := log + [m];
    forall k | 0 <= k < |more| ensures Holds(c, bytes, high, more[k].position, Image(c.first + k, more[k].message)) {
      if k < |log| { assert Holds(c, bytes, high, log[k].position, Image(c.first + k, log[k].message)); }
    }
  }

  lemma CountLog(c: Config, h: Shared, a: Attempt)
    requires Shape(c, h) && Order(c, h.log, h.ring.tail, h.ring.high)
    requires Intact(c, h.ring.bytes, h.ring.high, h.log) && Holder(c, h, StoreNext(a))
    ensures Order(c, Counted(h, a).log, h.ring.tail, h.ring.high)
    ensures Intact(c, h.ring.bytes, h.ring.high, Counted(h, a).log)
  {
    var image := Image(a.sequence, a.message);
    assert image[..|image|] == image;
    CountOrder(c, h.log, h.ring.tail, h.ring.high, Commit(a.message, a.position));
    CountIntact(c, h.ring.bytes, h.ring.high, h.log, Commit(a.message, a.position));
  }

  /** Counting the message is what makes it readable. */
  lemma CountEffect(c: Config, h: Shared, a: Attempt)
    requires RingInv(c, h) && Holder(c, h, StoreNext(a)) && a.sequence + 1 < U64
    ensures RingInv(c, Counted(h, a)) && AllReadable(c, Counted(h, a)) && Grew(h, Counted(h, a))
  {
    CountIndex(c, h, a);
    CountLog(c, h, a);
  }

  lemma IndexStep(c: Config, s: State, t: Thread)
    requires Inv(c, s) && t in s.writers && (s.writers[t].StorePosition? || s.writers[t].StoreNumber?)
    ensures Inv(c, WriterMoved(c, s, t))
  {
    var w := s.writers[t];
    var s' := WriterMoved(c, s, t);
    if w.StorePosition? { PositionEffect(c, s.h, w.a, s'.h); } else { NumberEffect(c, s.h, w.a, s'.h); }
    HolderMoved(c, s, s', t);
  }

  lemma TailStep(c: Config, s: State, t: Thread)
    requires Inv(c, s) && t in s.writers && s.writers[t].StoreTail?
    ensures Inv(c, WriterMoved(c, s, t))
  {
    var s' := WriterMoved(c, s, t);
    TailEffect(c, s.h, s.writers[t].a, s'.h);
    HolderMoved(c, s, s', t);
  }

  lemma CountStep(c: Config, s: State, t: Thread)
    requires Inv(c, s) && t in s.writers && s.writers[t].StoreNext?
    ensures Inv(c, WriterMoved(c, s, t))
  {
    var s' := WriterMoved(c, s, t);
    if s.writers[t].a.sequence + 1 < U64 {
      assert s'.h == Counted(s.h, s.writers[t].a);
      CountEffect(c, s.h, s.writers[t].a);
      HolderMoved(c, s, s', t);
    }
  }

  lemma WriteInv(c: Config, s: State, t: Thread)
    requires Inv(c, s) && t in s.writers
    ensures Inv(c, WriterMoved(c, s, t))
  {
    var w := s.writers[t];
    if !InCrit(w) { ClaimingStep(c, s, t); }
    else if w.LoadNext? || w.LoadTail? || w.LoadHigh? || w.LoadOldest? { LoadingStep(c, s, t); }
    else if w.SweepNumber? || w.SweepPosition? || w.SweepHigh? { SweepStep(c, s, t); }
    else if w.StoreHigh? || w.StoreOldest? { WatermarkStep(c, s, t); }
    else if w.CopyByte? { CopyStep(c, s, t); }
    else if w.StorePosition? || w.StoreNumber? { IndexStep(c, s, t); }
    else if w.StoreTail? { TailStep(c, s, t); }
    else if w.StoreNext? { CountStep(c, s, t); }
    else { ReleaseStep(c, s, t); }
  }

  // ---- Preservation: readers ------------------------------------------------

  lemma HeaderRoundTrip(q: nat, m: Message)
    requires q < U64 && |m.topic| < U32 && |m.event| < U32 && |m.data| < U32
    ensures ReadHeader(HeaderBytes(HeaderOf(q, m))) == HeaderOf(q, m)
  {
    var s := HeaderBytes(HeaderOf(q, m));
    WordSizes();
    assert s[0..8] == LittleEndian(q, 8);
    assert s[8..12] == LittleEndian(|m.topic|, 4);
    assert s[12..16] == LittleEndian(|m.event|, 4);
    assert s[16..20] == LittleEndian(|m.data|, 4);
    LittleEndianRoundTrip(q, 8);
    LittleEndianRoundTrip(|m.topic|, 4);
    LittleEndianRoundTrip(|m.event|, 4);
    LittleEndianRoundTrip(|m.data|, 4);
  }

  lemma NextByte(c: Config, bytes: seq<byte>, high: nat, at: nat, image: seq<byte>, got: seq<byte>)
    requires Sane(c) && |bytes| == c.capacity && Holds(c, bytes, high, at, image) && !Lost(c, high, at)
    requires got <= image && |got| < |image|
    ensures got + [bytes[At(c, at + |got|)]] <= image
  {
  }

  lemma NextByteAfter(c: Config, bytes: seq<byte>, high: nat, at: nat, head: seq<byte>, body: seq<byte>, got: seq<byte>)
    requires Sane(c) && |bytes| == c.capacity && Holds(c, bytes, high, at, head + body) && !Lost(c, high, at)
    requires got <= body && |got| < |body|
    ensures got + [bytes[At(c, at + |head| + |got|)]] <= body
  {
    assert (head + body)[|head| + |got|] == body[|got|];
  }

  lemma HeaderByte(c: Config, h: Shared, q: nat, at: nat, got: seq<byte>)
    requires Shape(c, h) && Intact(c, h.ring.bytes, h.ring.high, h.log) && Named(c, h.ring.bytes, h.ring.high, h.heads)
    requires KnowsHeader(c, h, q, at, got) && |got| < RECORD_SIZE
    ensures KnowsHeader(c, h, q, at, got + [h.ring.bytes[At(c, at + |got|)]])
  {
    if !Overwritten(c, h.ring, at) {
      var now := got + [h.ring.bytes[At(c, at + |got|)]];
      if |got| < 8 {
        assert got[..|got|] == got && now[..|now|] == now;
        NextByte(c, h.ring.bytes, h.ring.high, at, LittleEndian(h.heads[at], 8), got);
      } else {
        assert now[..8] == got[..8];
      }
      if at == h.log[q - c.first].position {
        NextByte(c, h.ring.bytes, h.ring.high, at, Image(q, h.log[q - c.first].message), got);
      }
    }
  }

  predicate InHeader(x: Reader) {
    (x.CopyHeader? && |x.got| < RECORD_SIZE) || (x.CheckHeader? && |x.got| == RECORD_SIZE)
  }

  /** One more byte of a header. */
  lemma HeaderGoesOn(c: Config, h: Shared, x: Reader)
    requires Shape(c, h) && Intact(c, h.ring.bytes, h.ring.high, h.log) && Named(c, h.ring.bytes, h.ring.high, h.heads)
    requires x.CopyHeader? && InHeader(x) && KnowsHeader(c, h, x.q, x.at, x.got)
    ensures var y := ReaderStep(c, h.ring, x);
            && InHeader(y) && y.q == x.q && y.room == x.room && y.at == x.at && KnowsHeader(c, h, y.q, y.at, y.got)
  {
    HeaderByte(c, h, x.q, x.at, x.got);
  }

  lemma ReaderCopiesHeader(c: Config, h: Shared, x: Reader)
    requires Shape(c, h) && Intact(c, h.ring.bytes, h.ring.high, h.log) && Named(c, h.ring.bytes, h.ring.high, h.heads)
    requires x.CopyHeader? && |x.got| < RECORD_SIZE && KnowsHeader(c, h, x.q, x.at, x.got)
    ensures Knows(c, h, ReaderStep(c, h.ring, x))
  {
    HeaderGoesOn(c, h, x);
  }

  lemma BodyByte(c: Config, h: Shared, q: nat, at: nat, head: Header, got: seq<byte>)
    requires Shape(c, h) && Intact(c, h.ring.bytes, h.ring.high, h.log)
    requires KnowsBody(c, h, q, at, head, got) && |got| < BodyLength(head)
    ensures KnowsBody(c, h, q, at, head, got + [h.ring.bytes[At(c, at + RECORD_SIZE + |got|)]])
  {
    var m := h.log[q - c.first].message;
    if !Overwritten(c, h.ring, at) {
      NextByteAfter(c, h.ring.bytes, h.ring.high, at, HeaderBytes(HeaderOf(q, m)), Body(m), got);
    }
  }

  lemma ReaderCopiesBody(c: Config, h: Shared, x: Reader)
    requires Shape(c, h) && Intact(c, h.ring.bytes, h.ring.high, h.log) && Knows(c, h, x) && x.CopyBody?
    ensures Knows(c, h, ReaderStep(c, h.ring, x))
  {
    BodyByte(c, h, x.q, x.at, x.head, x.got);
  }

  lemma {:induction false} NumberRead(got: seq<byte>, n: nat)
    requires |got| == RECORD_SIZE && n < U64 && got[..8] == LittleEndian(n, 8)
    ensures ReadHeader(got).sequence == n
  {
    assert got[0..8] == got[..8];
    WordSizes();
    LittleEndianRoundTrip(n, 8);
  }

  lemma {:induction false} HeaderRead(got: seq<byte>, q: nat, m: Message)
    requires |got| == RECORD_SIZE && got <= Image(q, m) && q < U64
    requires |m.topic| < U32 && |m.event| < U32 && |m.data| < U32
    ensures ReadHeader(got) == HeaderOf(q, m)
  {
    assert Image(q, m)[..RECORD_SIZE] == HeaderBytes(HeaderOf(q, m));
    assert got == Image(q, m)[..RECORD_SIZE];
    HeaderRoundTrip(q, m);
  }

  /** The header check lets only the message itself through: another record at
      that position bears another number. */
  lemma HeaderIsMessage(c: Config, h: Shared, q: nat, at: nat, got: seq<byte>)
    requires Shape(c, h) && Order(c, h.log, h.ring.tail, h.ring.high) && HeadsPlaced(h.ring.tail, h.ring.next, h.heads)
    requires KnowsHeader(c, h, q, at, got) && |got| == RECORD_SIZE
    requires !Overwritten(c, h.ring, at) && ReadHeader(got).sequence == q
    ensures at == h.log[q - c.first].position && ReadHeader(got) == HeaderOf(q, h.log[q - c.first].message)
  {
    NumberRead(got, h.heads[at]);
    HeaderRead(got, q, h.log[q - c.first].message);
  }

  lemma ReaderChecksHeader(c: Config, h: Shared, x: Reader)
    requires Shape(c, h) && Order(c, h.log, h.ring.tail, h.ring.high) && HeadsPlaced(h.ring.tail, h.ring.next, h.heads)
    requires Knows(c, h, x) && x.CheckHeader?
    ensures Knows(c, h, ReaderStep(c, h.ring, x))
  {
    if !Overwritten(c, h.ring, x.at) && ReadHeader(x.got).sequence == x.q {
      HeaderIsMessage(c, h, x.q, x.at, x.got);
    }
    HeaderChecked(c, h, x);
  }

  lemma HeaderChecked(c: Config, h: Shared, x: Reader)
    requires Shape(c, h) && x.CheckHeader? && |x.got| == RECORD_SIZE && c.first <= x.q < c.first + |h.log|
    requires !Overwritten(c, h.ring, x.at) && ReadHeader(x.got).sequence == x.q ==>
               x.at == h.log[x.q - c.first].position && ReadHeader(x.got) == HeaderOf(x.q, h.log[x.q - c.first].message)
    ensures Knows(c, h, ReaderStep(c, h.ring, x))
  {
  }

  lemma ReaderLooks(c: Config, h: Shared, x: Reader)
    requires Shape(c, h) && IndexOk(c, h) && Knows(c, h, x)
    requires !x.CopyHeader? && !x.CopyBody? && !x.CheckHeader?
    ensures Knows(c, h, ReaderStep(c, h.ring, x))
  {
    if x.AskPosition? { assert EntryOk(c, h, x.q - c.first); }
  }

  lemma ReaderInv(c: Config, h: Shared, x: Reader)
    requires RingInv(c, h) && Knows(c, h, x)
    ensures Knows(c, h, ReaderStep(c, h.ring, x))
  {
    match x
    case CopyHeader(_, _, _, _) => ReaderCopiesHeader(c, h, x);
    case CopyBody(_, _, _, _, _) => ReaderCopiesBody(c, h, x);
    case CheckHeader(_, _, _, _) => ReaderChecksHeader(c, h, x);
    case _ => ReaderLooks(c, h, x);
  }

  lemma FetchInv(c: Config, s: State, t: Thread)
    requires Inv(c, s)
    ensures Inv(c, Fetched(c, s, t))
  {
    if t in s.readers { ReaderInv(c, s.h, s.readers[t]); }
  }

  lemma PublishInv(c: Config, s: State, t: Thread, m: Message)
    requires Inv(c, s)
    ensures Inv(c, PublishStarted(c, s, t, m))
  {
  }

  lemma ReadInv(c: Config, s: State, t: Thread, q: nat, room: nat)
    requires Inv(c, s)
    ensures Inv(c, ReadStarted(s, t, q, room))
  {
  }

  lemma DieInv(c: Config, s: State, pid: nat)
    requires Inv(c, s)
    ensures Inv(c, Died(s, pid))
  {
  }

  lemma ApplyIs(c: Config, s: State, a: Action)
    requires WellShaped(c, s.h.ring)
    ensures a.Publish? ==> Apply(c, s, a) == PublishStarted(c, s, a.t, a.m)
    ensures a.Write? ==> Apply(c, s, a) == if a.t in s.writers then WriterMoved(c, s, a.t) else s
    ensures a.Read? ==> Apply(c, s, a) == ReadStarted(s, a.t, a.q, a.room)
    ensures a.Fetch? ==> Apply(c, s, a) == Fetched(c, s, a.t)
    ensures a.Die? ==> Apply(c, s, a) == Died(s, a.pid)
  {
  }

  lemma StepInv(c: Config, s: State, a: Action)
    requires Inv(c, s)
    ensures Inv(c, Apply(c, s, a))
  {
    ApplyIs(c, s, a);
    match a
    case Publish(t, m) => PublishInv(c, s, t, m);
    case Write(t) => if t in s.writers { WriteInv(c, s, t); }
    case Read(t, q, room) => ReadInv(c, s, t, q, room);
    case Fetch(t) => FetchInv(c, s, t);
    case Die(pid) => DieInv(c, s, pid);
  }

  lemma {:induction false} ReachInv(c: Config, actions: seq<Action>)
    requires Sane(c)
    ensures Inv(c, Reach(c, actions))
  {
    if actions == [] {
      InitInv(c);
    } else {
      ReachInv(c, actions[..|actions| - 1]);
      StepInv(c, Reach(c, actions[..|actions| - 1]), actions[|actions| - 1]);
    }
  }

  // ---- What readers can rely on ----------------------------------------------

  /** `x` returned what the log says. */
  ghost predicate Truthful(c: Config, h: Shared, x: Reader)
    requires x.Returned?
  {
    && (x.result.Got? || x.result.TooSmall? ==> c.first <= x.q < h.ring.next == c.first + |h.log|)
    && (x.result.Got? ==> x.result.message == h.log[x.q - c.first].message)
    && (x.result.TooSmall? ==> x.result.needed == |Body(h.log[x.q - c.first].message)|)
  }

  lemma InvTruthful(c: Config, s: State, t: Thread)
    requires Inv(c, s) && t in s.readers && s.readers[t].Returned?
    ensures Truthful(c, s.h, s.readers[t])
  {
    assert Knows(c, s.h, s.readers[t]);
  }

  /** Whatever writers do and wherever they die, a read that succeeds returns
      the topic, event and data of the one counted publish with that number;
      and a read refused for room asks for exactly that message's length. */
  lemma ReadIsOneCountedPublish(c: Config, actions: seq<Action>, t: Thread)
    requires Sane(c)
    requires var s := Reach(c, actions); t in s.readers && s.readers[t].Returned?
    ensures Truthful(c, Reach(c, actions).h, Reach(c, actions).readers[t])
  {
    ReachInv(c, actions);
    InvTruthful(c, Reach(c, actions), t);
  }

  /** At most one live thread is ever past the claim. */
  lemma OneWriter(c: Config, actions: seq<Action>, t: Thread, u: Thread)
    requires Sane(c)
    requires var s := Reach(c, actions);
             t in s.writers && u in s.writers && InCrit(s.writers[t]) && InCrit(s.writers[u])
    ensures t == u
  {
    ReachInv(c, actions);
  }

  lemma WriteGrows(c: Config, s: State, t: Thread)
    requires Inv(c, s) && t in s.writers
    ensures Grew(s.h, WriterMoved(c, s, t).h) && s.h.ring.oldest <= WriterMoved(c, s, t).h.ring.oldest
  {
    assert Holder(c, s.h, s.writers[t]);
  }

  lemma StepGrows(c: Config, s: State, a: Action)
    requires Inv(c, s)
    ensures Grew(s.h, Apply(c, s, a).h)
    ensures s.h.ring.oldest <= Apply(c, s, a).h.ring.oldest
  {
    ApplyIs(c, s, a);
    if a.Write? && a.t in s.writers { WriteGrows(c, s, a.t); }
  }

  lemma GrewTwice(h: Shared, m: Shared, n: Shared)
    requires Grew(h, m) && Grew(m, n)
    ensures Grew(h, n)
  {
  }

  lemma RunGrows(c: Config, actions: seq<Action>, a: Action)
    requires Sane(c)
    ensures var s, s' := Reach(c, actions), Reach(c, actions + [a]);
            Grew(s.h, s'.h) && s.h.ring.oldest <= s'.h.ring.oldest
  {
    ReachInv(c, actions);
    assert (actions + [a])[..|actions|] == actions;
    StepGrows(c, Reach(c, actions), a);
  }

  lemma RunCounts(c: Config, actions: seq<Action>)
    requires Sane(c)
    ensures Reach(c, actions).h.ring.next - c.first == |Reach(c, actions).h.log|
  {
    ReachInv(c, actions);
  }

  /** Over any further run: the watermark and the counts never fall, and what
      was counted stays as it was counted, dead writers or not. */
  lemma {:induction false} NothingFalls(c: Config, before: seq<Action>, after: seq<Action>)
    requires Sane(c)
    ensures var s := Reach(c, before); var s' := Reach(c, before + after);
            && Grew(s.h, s'.h)
            && s.h.ring.oldest <= s'.h.ring.oldest
            && s'.h.ring.next - c.first == |s'.h.log|
  {
    RunCounts(c, before + after);
    if after == [] {
      assert before + after == before;
    } else {
      var init, last := after[..|after| - 1], after[|after| - 1];
      NothingFalls(c, before, init);
      RunGrows(c, before + init, last);
      assert before + init + [last] == before + after;
      GrewTwice(Reach(c, before).h, Reach(c, before + init).h, Reach(c, before + after).h);
    }
  }

  // ---- What stays readable -----------------------------------------------------

  function Stage(x: Reader): nat {
    match x
    case AskNext(_, _) => 9
    case AskOldest(_, _) => 8
    case AskNumber(_, _) => 7
    case AskPosition(_, _, _) => 6
    case AskNumberAgain(_, _, _, _) => 5
    case CopyHeader(_, _, _, _) => 4
    case CheckHeader(_, _, _, _) => 3
    case CopyBody(_, _, _, _, _) => 2
    case CheckBody(_, _, _, _, _) => 1
    case Returned(_, _) => 0
  }

  function Left(x: Reader): nat
    requires Partial(x)
  {
    match x
    case CopyHeader(_, _, _, got) => RECORD_SIZE - |got|
    case CopyBody(_, _, _, head, got) => BodyLength(head) - |got|
    case _ => 0
  }

  /** How a read ends that nothing interrupts. */
  function Alone(c: Config, r: Ring, x: Reader): Result
    requires WellShaped(c, r) && Partial(x)
    decreases Stage(x), Left(x)
  {
    if x.Returned? then x.result else Alone(c, r, ReaderStep(c, r, x))
  }

  /** What a read of `q` into `room` bytes should give. */
  ghost function Expected(c: Config, h: Shared, q: nat, room: nat): Result
    requires Shape(c, h)
  {
    if q >= h.ring.next then NotYet
    else if q < h.ring.oldest then Gone
    else if |Body(h.log[q - c.first].message)| > room then TooSmall(|Body(h.log[q - c.first].message)|)
    else Got(h.log[q - c.first].message)
  }

  lemma {:induction false} AloneBody(c: Config, h: Shared, x: Reader, k: nat)
    requires Shape(c, h) && Intact(c, h.ring.bytes, h.ring.high, h.log) && k < |h.log|
    requires !Overwritten(c, h.ring, h.log[k].position) && Knows(c, h, x)
    requires (x.CopyBody? || x.CheckBody?) && x.q == c.first + k
    ensures Alone(c, h.ring, x) == Got(h.log[k].message)
    decreases Stage(x), Left(x)
  {
    if x.CopyBody? {
      ReaderCopiesBody(c, h, x);
      AloneBody(c, h, ReaderStep(c, h.ring, x), k);
    } else {
      var m := h.log[k].message;
      assert x.got == Body(m);
      assert Split(x.head, x.got) == m;
      assert ReaderStep(c, h.ring, x) == Returned(x.q, Got(m));
    }
  }

  /** Where a reader stands once the header reads as the message's own. */
  function Checked(x: Reader, head: Header): Reader
    requires x.CheckHeader?
  {
    if BodyLength(head) > x.room then Returned(x.q, TooSmall(BodyLength(head)))
    else if BodyLength(head) == 0 then CheckBody(x.q, x.room, x.at, head, [])
    else CopyBody(x.q, x.room, x.at, head, [])
  }

  lemma CheckedIs(c: Config, r: Ring, x: Reader, head: Header)
    requires WellShaped(c, r) && x.CheckHeader? && |x.got| == RECORD_SIZE && ReadHeader(x.got) == head
    requires !Overwritten(c, r, x.at) && head.sequence == x.q && BodyLength(head) <= MaxMessage(c)
    ensures ReaderStep(c, r, x) == Checked(x, head) && Partial(Checked(x, head))
    ensures Alone(c, r, x) == Alone(c, r, Checked(x, head))
  {
  }

  lemma BodyStarts(c: Config, h: Shared, y: Reader, k: nat)
    requires k < |h.log| && (y.CopyBody? || y.CheckBody?) && y.got == [] && Partial(y)
    requires y.q == c.first + k && y.at == h.log[k].position && y.head == HeaderOf(y.q, h.log[k].message)
    ensures Knows(c, h, y)
  {
  }

  /** A header that reads as the message's own is followed by its body, or by the room
      it needs. */
  lemma AloneChecks(c: Config, h: Shared, x: Reader, k: nat)
    requires Shape(c, h) && Intact(c, h.ring.bytes, h.ring.high, h.log) && k < |h.log|
    requires x.CheckHeader? && |x.got| == RECORD_SIZE && x.q == c.first + k && x.at == h.log[k].position
    requires !Overwritten(c, h.ring, x.at) && ReadHeader(x.got) == HeaderOf(x.q, h.log[k].message)
    requires |Body(h.log[k].message)| <= MaxMessage(c) && h.ring.oldest <= x.q
    ensures Alone(c, h.ring, x) == Expected(c, h, x.q, x.room)
  {
    var head := HeaderOf(x.q, h.log[k].message);
    CheckedIs(c, h.ring, x, head);
    var y := Checked(x, head);
    if !y.Returned? {
      BodyStarts(c, h, y, k);
      AloneBody(c, h, y, k);
    }
  }

  lemma AloneGoesOn(c: Config, r: Ring, x: Reader)
    requires WellShaped(c, r) && Partial(x) && !x.Returned?
    ensures Partial(ReaderStep(c, r, x)) && Alone(c, r, x) == Alone(c, r, ReaderStep(c, r, x))
  {
  }

  lemma {:induction false} AloneHeader(c: Config, h: Shared, x: Reader, k: nat)
    requires Shape(c, h) && Intact(c, h.ring.bytes, h.ring.high, h.log) && Named(c, h.ring.bytes, h.ring.high, h.heads)
    requires k < |h.log| && |Body(h.log[k].message)| <= MaxMessage(c) && h.ring.oldest <= c.first + k
    requires InHeader(x) && x.q == c.first + k && x.at == h.log[k].position && !Overwritten(c, h.ring, x.at)
    requires KnowsHeader(c, h, x.q, x.at, x.got)
    ensures Alone(c, h.ring, x) == Expected(c, h, x.q, x.room)
    decreases Stage(x), Left(x)
  {
    if x.CopyHeader? {
      HeaderGoesOn(c, h, x);
      AloneGoesOn(c, h.ring, x);
      AloneHeader(c, h, ReaderStep(c, h.ring, x), k);
    } else {
      HeaderRead(x.got, x.q, h.log[k].message);
      AloneChecks(c, h, x, k);
    }
  }

  lemma AloneFinds(c: Config, h: Shared, k: nat, room: nat)
    requires Shape(c, h) && k < |h.log| && Readable(c, h, k) && c.first + k >= h.ring.oldest
    ensures var q := c.first + k;
            Alone(c, h.ring, AskNext(q, room)) == Alone(c, h.ring, CopyHeader(q, room, h.log[k].position, []))
  {
    var r, q, at := h.ring, c.first + k, h.log[k].position;
    assert Alone(c, r, AskNext(q, room)) == Alone(c, r, AskOldest(q, room));
    assert Alone(c, r, AskOldest(q, room)) == Alone(c, r, AskNumber(q, room));
    assert Alone(c, r, AskNumber(q, room)) == Alone(c, r, AskPosition(q, room, q));
    assert Alone(c, r, AskPosition(q, room, q)) == Alone(c, r, AskNumberAgain(q, room, q, at));
    assert Alone(c, r, AskNumberAgain(q, room, q, at)) == Alone(c, r, CopyHeader(q, room, at, []));
  }

  lemma AloneReads(c: Config, h: Shared, q: nat, room: nat)
    requires RingInv(c, h) && AllReadable(c, h)
    ensures Alone(c, h.ring, AskNext(q, room)) == Expected(c, h, q, room)
  {
    if h.ring.oldest <= q < h.ring.next {
      var k := q - c.first;
      assert Readable(c, h, k);
      AloneFinds(c, h, k, room);
      assert EntryOk(c, h, k);
      AloneHeader(c, h, CopyHeader(q, room, h.log[k].position, []), k);
    } else if q < h.ring.next {
      assert Alone(c, h.ring, AskOldest(q, room)) == Gone;
    }
  }

  function Fetches(t: Thread, n: nat): seq<Action> { seq(n, _ => Fetch(t)) }

  lemma {:induction false} AloneIsARun(c: Config, actions: seq<Action>, t: Thread, x: Reader) returns (n: nat)
    requires Sane(c) && Partial(x)
    requires var s := Reach(c, actions); t in s.readers && s.readers[t] == x
    ensures var s := Reach(c, actions); var s' := Reach(c, actions + Fetches(t, n));
            t in s'.readers && s'.readers[t].Returned? && s'.readers[t].result == Alone(c, s.h.ring, x)
    decreases Stage(x), Left(x)
  {
    if x.Returned? {
      n := 0;
      assert actions + Fetches(t, 0) == actions;
    } else {
      FetchRun(c, actions, t);
      AloneGoesOn(c, Reach(c, actions).h.ring, x);
      var m := AloneIsARun(c, actions + [Fetch(t)], t, ReaderStep(c, Reach(c, actions).h.ring, x));
      n := m + 1;
      assert actions + [Fetch(t)] + Fetches(t, m) == actions + Fetches(t, n);
    }
  }

  lemma FetchRun(c: Config, actions: seq<Action>, t: Thread)
    requires Sane(c) && t in Reach(c, actions).readers && Partial(Reach(c, actions).readers[t])
    ensures var s, s' := Reach(c, actions), Reach(c, actions + [Fetch(t)]);
            s'.h == s.h && t in s'.readers && s'.readers[t] == ReaderStep(c, s.h.ring, s.readers[t])
  {
    assert (actions + [Fetch(t)])[..|actions|] == actions;
  }

  /** Whenever the claim is free, wherever writers died before: a read nothing
      interrupts returns every message in [oldest, next), in full if there is
      room, and no other. */
  lemma FreeMeansReadable(c: Config, actions: seq<Action>, t: Thread, q: nat, room: nat) returns (n: nat)
    requires Sane(c)
    requires var s := Reach(c, actions); s.claim.Free? && t.pid !in s.dead
    ensures Shape(c, Reach(c, actions).h)
    ensures var s := Reach(c, actions);
            var s' := Reach(c, actions + [Read(t, q, room)] + Fetches(t, n));
            t in s'.readers && s'.readers[t].Returned? && s'.readers[t].result == Expected(c, s.h, q, room)
  {
    ReachInv(c, actions);
    var s := Reach(c, actions);
    var more := actions + [Read(t, q, room)];
    assert more[..|more| - 1] == actions;
    AloneReads(c, s.h, q, room);
    n := AloneIsARun(c, more, t, AskNext(q, room));
  }
}
