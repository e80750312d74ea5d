/** The shared response cache: slots of several sizes, each with a version that tells
    a reader whether it was changed meanwhile, and marks by target below which no copy
    counts.

    Every step is one atomic load, store or compare-and-swap of a word, one
    field of a slot, or one byte of its data. Two choices of the C code are left
    open, so that every way of making them is covered: which of its probe slots
    a put overwrites (any stable one, or one its writer died on), and whether
    a put gives up early because a newer copy is kept. */
module Cache {
  import opened Arith
  import opened Wrappers

  // ---- Version words --------------------------------------------------------

  /** How often a slot has been written, and by whom while that goes on. */
  datatype Word = Stable(count: nat) | Claimed(count: nat, owner: nat)

  const OWNER_LIMIT: nat := 0x40_0000        // OWNER_BITS is 22
  const COUNT_UNIT: nat := 0x80_0000         // COUNT_SHIFT is 23

  /** The 64-bit word that stands for a version. */
  function Encode(w: Word): nat {
    match w
    case Stable(n) => n * COUNT_UNIT
    case Claimed(n, owner) => n * COUNT_UNIT + owner * 2 + 1
  }

  function ClaimWord(word: nat, owner: nat): nat {
    word / COUNT_UNIT * COUNT_UNIT + owner * 2 + 1
  }

  function PublishWord(claimed: nat): nat { (claimed / COUNT_UNIT + 1) * COUNT_UNIT }

  /** The bit arithmetic of the C code is what the model does with versions, and
      different versions are different words. */
  lemma WordsAreVersions(w: Word, v: Word, owner: nat)
    requires owner < OWNER_LIMIT && (w.Claimed? ==> w.owner < OWNER_LIMIT) && (v.Claimed? ==> v.owner < OWNER_LIMIT)
    ensures ClaimWord(Encode(w), owner) == Encode(Claimed(w.count, owner))
    ensures PublishWord(Encode(w)) == Encode(Stable(w.count + 1))
    ensures Encode(w) % 2 == 1 <==> w.Claimed?
    ensures w.Claimed? ==> Encode(w) / 2 % OWNER_LIMIT == w.owner
    ensures Encode(w) == Encode(v) ==> w == v
  {
    assert forall x: Word :: (x.Claimed? ==> x.owner < OWNER_LIMIT) ==> Encode(x) / COUNT_UNIT == x.count;
  }

  // ---- Entries ---------------------------------------------------------------

  // A byte is any number here: nothing depends on its size.
  const MAX_KEY: nat := 2048
  const PROBES: nat := 4

  // The fields of a slot, in the order a writer stores them, then its bytes.
  const HASH: nat := 0
  const MARK: nat := 1
  const GENERATION: nat := 2
  const SEQUENCE: nat := 3
  const STORED: nat := 4
  const AGE: nat := 5
  const EXPIRES: nat := 6
  const KEYLEN: nat := 7
  const HEADLEN: nat := 8
  const BODYLEN: nat := 9
  const STATUS: nat := 10
  const DATA: nat := 11

  datatype Class = Class(base: nat, count: nat, capacity: nat)

  /** What av_cache_init fixes. `hash` and `target` stand for the keyed hash of a
      key and of the target its copies belong to. */
  datatype Config = Config(classes: seq<Class>, rooms: seq<nat>, marks: nat, maxHead: nat, maxBody: nat,
                           generation: nat, hash: seq<nat> -> nat, target: seq<nat> -> nat)

  /** `rooms` is the layout in memory: the data bytes of each slot. */
  ghost predicate Sane(c: Config) {
    && 0 < c.marks && 0 < c.generation
    && (forall k :: 0 <= k < |c.classes| ==> ClassOk(c, k))
  }

  ghost predicate ClassOk(c: Config, k: nat)
    requires k < |c.classes|
  {
    && 0 < c.classes[k].count && c.classes[k].base + c.classes[k].count <= |c.rooms|
    && (forall j :: c.classes[k].base <= j < c.classes[k].base + c.classes[k].count ==>
          c.rooms[j] == c.classes[k].capacity)
  }

  datatype Put = Put(key: seq<nat>, sequence: nat, now: nat, age: nat, ttl: nat, status: nat,
                     head: seq<nat>, body: seq<nat>)

  predicate Storable(c: Config, p: Put) {
    1 <= |p.key| <= MAX_KEY && 1 <= p.sequence && 1 <= p.ttl && |p.head| <= c.maxHead && |p.body| <= c.maxBody
  }

  function Needed(p: Put): nat { |p.key| + |p.head| + |p.body| }

  /** A finished entry as its slot holds it. */
  function Image(c: Config, p: Put): (s: seq<nat>)
    ensures |s| == DATA + Needed(p)
  {
    [c.hash(p.key), c.target(p.key), c.generation, p.sequence, p.now, p.age, p.now + p.ttl,
     |p.key|, |p.head|, |p.body|, p.status] + p.key + p.head + p.body
  }

  /** A slot a key may be in, and the room for data there. */
  datatype Probe = Probe(slot: nat, capacity: nat)

  function ClassProbe(c: Config, key: seq<nat>, k: nat, p: nat): Probe
    requires k < |c.classes| && 0 < c.classes[k].count
  {
    Probe(c.classes[k].base + Wrap(c.hash(key) + p, c.classes[k].count), c.classes[k].capacity)
  }

  /** Every slot a lookup of `key` searches, in order, from class `k` on. */
  ghost function ProbesFrom(c: Config, key: seq<nat>, k: nat): seq<Probe>
    requires Sane(c)
    decreases |c.classes| - k
  {
    if k >= |c.classes| then []
    else assert ClassOk(c, k);
         [ClassProbe(c, key, k, 0), ClassProbe(c, key, k, 1), ClassProbe(c, key, k, 2), ClassProbe(c, key, k, 3)]
         + ProbesFrom(c, key, k + 1)
  }

  /** The smallest class the entry fits in; none if it is |c.classes|. */
  function FirstFit(c: Config, needed: nat, k: nat): (r: nat)
    ensures r < |c.classes| ==> c.classes[r].capacity >= needed
    ensures forall j :: k <= j < r && j < |c.classes| ==> c.classes[j].capacity < needed
    decreases |c.classes| - k
  {
    if k >= |c.classes| || c.classes[k].capacity >= needed then k else FirstFit(c, needed, k + 1)
  }

  // ---- State -------------------------------------------------------------------

  /** `from` is history: the put whose finished entry this slot holds, if any. */
  datatype Slot = Slot(version: Word, cells: seq<nat>, from: Option<Put>)

  /** `log` is history: every put published, in order. */
  datatype Shared = Shared(slots: seq<Slot>, marks: seq<nat>, log: seq<Put>)

  datatype Thread = Thread(pid: nat, tid: nat)

  /** A key whose copies numbered below `sequence` are to be retired. */
  datatype Task = Task(key: seq<nat>, sequence: nat)

  /** Where a call of av_cache_put or av_cache_invalidate stands. */
  datatype Writer =
    | CheckMark(p: Put, k: nat)
    | Choose(p: Put, k: nat)
    | EvictGeneration(p: Put, at: Probe, v: Word)
    | EvictRead(p: Put, at: Probe, v: Word, got: seq<nat>)
    | EvictCheck(p: Put, at: Probe, v: Word, got: seq<nat>)
    | MarkLoad(p: Put, at: Probe, v: Word, evicted: seq<Task>, target: nat, to: nat)
    | MarkCas(p: Put, at: Probe, v: Word, evicted: seq<Task>, target: nat, to: nat, seen: nat)
    | Claiming(p: Put, at: Probe, v: Word, evicted: seq<Task>)
    | Writing(p: Put, at: Probe, n: nat, evicted: seq<Task>, i: nat)
    | Publishing(p: Put, at: Probe, n: nat, evicted: seq<Task>)
    | RetireLoad(keep: nat, tasks: seq<Task>, i: nat)
    | RetireRead(keep: nat, tasks: seq<Task>, i: nat, v: Word, n: nat)
    | RetireSequence(keep: nat, tasks: seq<Task>, i: nat, v: Word)
    | RetireCas(keep: nat, tasks: seq<Task>, i: nat, v: Word)
    | RetireGeneration(keep: nat, tasks: seq<Task>, i: nat, n: nat)
    | RetireExpires(keep: nat, tasks: seq<Task>, i: nat, n: nat)
    | RetireStore(keep: nat, tasks: seq<Task>, i: nat, n: nat)
    | InvalidateLoad(target: nat, to: nat)
    | InvalidateCas(target: nat, to: nat, seen: nat)
    | Done

  datatype Best = Best(at: Probe, v: Word, sequence: nat)

  /** History of a lookup: how long the log was when its selection began, and when it
      ended. */
  datatype Seen = Seen(from: nat, upto: nat)

  /** Where a call of av_cache_get stands. `from` and `seen` are history. */
  datatype Lookup =
    | Scan(q: Query, from: nat, i: nat, best: Option<Best>)
    | ScanCheck(q: Query, from: nat, i: nat, best: Option<Best>, v: Word, n: nat)
    | ScanSequence(q: Query, from: nat, i: nat, best: Option<Best>, v: Word)
    | ScanConfirm(q: Query, from: nat, i: nat, best: Option<Best>, v: Word, sequence: nat)
    | Fields(q: Query, seen: Seen, b: Best, got: seq<nat>)
    | Copy(q: Query, seen: Seen, b: Best, got: seq<nat>, out: seq<nat>)
    | Confirm(q: Query, seen: Seen, b: Best, got: seq<nat>, out: seq<nat>)
    | MarkCheck(q: Query, seen: Seen, b: Best, got: seq<nat>, out: seq<nat>)
    | Miss(q: Query)
    | Hit(q: Query, seen: Seen, sequence: nat, status: nat, head: seq<nat>, body: seq<nat>,
          age: nat, ttl: nat)

  datatype Query = Query(key: seq<nat>, now: nat, room: nat)

  /** A call of av_cache_invalidate: copies of the target numbered `to` or below are out of date. */
  datatype Invalidation = Invalidation(target: nat, to: nat)

  /** History: the invalidations begun, and those that have returned. */
  datatype Changed = Changed(asked: seq<Invalidation>, ended: seq<Invalidation>)

  datatype State = State(h: Shared, dead: set<nat>, writers: map<Thread, Writer>, lookups: map<Thread, Lookup>,
                         changed: Changed)

  function Zeros(n: nat): (s: seq<nat>)
    ensures |s| == n
  {
    seq(n, _ => 0)
  }

  /** Fresh shared memory: stable, and of a generation no lookup matches. */
  function Init(c: Config): State {
    State(Shared(seq(|c.rooms|, i requires 0 <= i < |c.rooms| => Slot(Stable(0), Zeros(DATA + c.rooms[i]), None)),
                 seq(c.marks, _ => 0), []),
          {}, map[], map[], Changed([], []))
  }

  ghost predicate Shape(c: Config, h: Shared) {
    && Sane(c) && |h.slots| == |c.rooms| && |h.marks| == c.marks
    && (forall j :: 0 <= j < |h.slots| ==> |h.slots[j].cells| == DATA + c.rooms[j])
  }

  function Mark(c: Config, target: nat): (j: nat)
    requires 0 < c.marks
    ensures j < c.marks
  {
    Wrap(target, c.marks)
  }

  // ---- What a put and a lookup compare -------------------------------------------

  /** `holds` reads these cells of a slot, in this order. */
  function CheckCell(n: nat): nat {
    if n == 0 then HASH else if n == 1 then GENERATION else if n == 2 then KEYLEN else DATA + (n - 3)
  }

  function CheckValue(c: Config, key: seq<nat>, n: nat): nat
    requires n < 3 + |key|
  {
    if n == 0 then c.hash(key) else if n == 1 then c.generation else if n == 2 then |key| else key[n - 3]
  }

  /** Whether the `n`th comparison is made and passes. */
  predicate CheckPasses(c: Config, key: seq<nat>, room: nat, cells: seq<nat>, n: nat)
    requires n < 3 + |key| && |cells| == DATA + room
  {
    (n < 3 || |key| <= room) && cells[CheckCell(n)] == CheckValue(c, key, n)
  }

  /** Bytes of an evicted key worth copying, from a length that may be torn. */
  function EvictedLength(got: seq<nat>, room: nat): nat {
    if got == [] || got[0] == 0 || got[0] > MAX_KEY || got[0] > room then 0 else got[0]
  }

  /** An eviction reads these cells, in this order. */
  function EvictCell(n: nat): nat {
    if n == 0 then KEYLEN else if n == 1 then HASH else if n == 2 then MARK else if n == 3 then SEQUENCE
    else DATA + (n - 4)
  }

  /** A lookup reads these, in this order. */
  function FieldCell(n: nat): nat {
    if n == 0 then MARK else if n == 1 then STORED else if n == 2 then AGE else if n == 3 then EXPIRES
    else if n == 4 then HEADLEN else if n == 5 then BODYLEN else STATUS
  }

  // ---- Writers ---------------------------------------------------------------------

  ghost predicate ProbeOk(c: Config, at: Probe) {
    at.slot < |c.rooms| && c.rooms[at.slot] == at.capacity
  }

  ghost predicate TaskOk(c: Config, tasks: seq<Task>, i: nat)
    requires Sane(c)
  {
    && tasks != [] && i < |ProbesFrom(c, tasks[0].key, 0)|
    && ProbeOk(c, ProbesFrom(c, tasks[0].key, 0)[i])
  }

  /** What a writer's local variables always satisfy. */
  ghost predicate Formed(c: Config, w: Writer)
    requires Sane(c)
  {
    match w
    case CheckMark(p, k) => k < |c.classes| && Storable(c, p) && Needed(p) <= c.classes[k].capacity
    case Choose(p, k) => k < |c.classes| && Storable(c, p) && Needed(p) <= c.classes[k].capacity
    case EvictGeneration(p, at, v) => PutFormed(c, p, at) && v.Stable?
    case EvictRead(p, at, v, got) =>
      PutFormed(c, p, at) && v.Stable? && |got| < 4 + EvictedLength(got, at.capacity)
    case EvictCheck(p, at, v, got) =>
      PutFormed(c, p, at) && v.Stable? && |got| == 4 + EvictedLength(got, at.capacity)
    case MarkLoad(p, at, v, _, _, _) => PutFormed(c, p, at) && v.Stable?
    case MarkCas(p, at, v, _, _, to, seen) => PutFormed(c, p, at) && v.Stable? && seen < to
    case Claiming(p, at, v, _) => PutFormed(c, p, at)
    case Writing(p, at, _, _, i) => PutFormed(c, p, at) && i < |Image(c, p)|
    case Publishing(p, at, _, _) => PutFormed(c, p, at)
    case RetireLoad(_, tasks, i) => true
    case RetireRead(_, tasks, i, v, n) => TaskOk(c, tasks, i) && v.Stable? && n < 3 + |tasks[0].key|
    case RetireSequence(_, tasks, i, v) => TaskOk(c, tasks, i) && v.Stable?
    case RetireCas(_, tasks, i, v) => TaskOk(c, tasks, i) && v.Stable?
    case RetireGeneration(_, tasks, i, _) => TaskOk(c, tasks, i)
    case RetireExpires(_, tasks, i, _) => TaskOk(c, tasks, i)
    case RetireStore(_, tasks, i, _) => TaskOk(c, tasks, i)
    case InvalidateLoad(_, _) => true
    case InvalidateCas(_, to, seen) => seen < to
    case Done => true
  }

  /** The put is one of this slot's: it probes it, and fits. */
  ghost predicate PutFormed(c: Config, p: Put, at: Probe)
    requires Sane(c)
  {
    Storable(c, p) && ProbeOk(c, at) && Needed(p) <= at.capacity && at in ProbesFrom(c, p.key, 0)
  }

  datatype Next = Next(h: Shared, w: Writer)

  function Versioned(h: Shared, j: nat, v: Word, from: Option<Put>): Shared
    requires j < |h.slots|
  {
    h.(slots := h.slots[j := h.slots[j].(version := v, from := from)])
  }

  function Stored(h: Shared, j: nat, i: nat, x: nat): Shared
    requires j < |h.slots| && i < |h.slots[j].cells|
  {
    h.(slots := h.slots[j := h.slots[j].(cells := h.slots[j].cells[i := x])])
  }

  /** The step of a put up to its claim. `pick` is the probe slot chosen. */
  ghost function PrepareStep(c: Config, h: Shared, dead: set<nat>, w: Writer, pick: nat): Writer
    requires Shape(c, h) && Formed(c, w)
  {
    match w
    case CheckMark(p, k) =>
      if p.sequence <= h.marks[Mark(c, c.target(p.key))] then Done else Choose(p, k)
    case Choose(p, k) =>
      assert ClassOk(c, k);
      if pick >= PROBES then w else
      var at := ClassProbe(c, p.key, k, pick);
      var v := h.slots[at.slot].version;
      if v.Stable? then EvictGeneration(p, at, v)
      else if v.owner in dead then Claiming(p, at, v, [])
      else w
    case EvictGeneration(p, at, v) =>
      if h.slots[at.slot].cells[GENERATION] == c.generation then EvictRead(p, at, v, []) else Claiming(p, at, v, [])
    case EvictRead(p, at, v, got) =>
      var now := got + [h.slots[at.slot].cells[EvictCell(|got|)]];
      if |now| < 4 + EvictedLength(now, at.capacity) then EvictRead(p, at, v, now) else EvictCheck(p, at, v, now)
    case EvictCheck(p, at, v, got) =>
      if h.slots[at.slot].version != v then Done else
      var evicted := if |got| > 4 then [Task(got[4..], got[3])] else [];
      if got[3] > 0 then MarkLoad(p, at, v, evicted, got[2], got[3] - 1) else Claiming(p, at, v, evicted)
    case MarkLoad(p, at, v, evicted, target, to) =>
      var seen := h.marks[Mark(c, target)];
      if seen < to then MarkCas(p, at, v, evicted, target, to, seen) else Claiming(p, at, v, evicted)
    case RetireLoad(keep, tasks, i) =>
      if tasks == [] then Done
      else if i >= |ProbesFrom(c, tasks[0].key, 0)| then RetireLoad(keep, tasks[1..], 0)
      else
        var at := ProbesFrom(c, tasks[0].key, 0)[i];
        if !ProbeOk(c, at) || at.slot == keep || h.slots[at.slot].version.Claimed? then RetireLoad(keep, tasks, i + 1)
        else RetireRead(keep, tasks, i, h.slots[at.slot].version, 0)
    case RetireRead(keep, tasks, i, v, n) =>
      var at := ProbesFrom(c, tasks[0].key, 0)[i];
      if !CheckPasses(c, tasks[0].key, at.capacity, h.slots[at.slot].cells, n) then RetireLoad(keep, tasks, i + 1)
      else if n + 1 < 3 + |tasks[0].key| then RetireRead(keep, tasks, i, v, n + 1)
      else RetireSequence(keep, tasks, i, v)
    case RetireSequence(keep, tasks, i, v) =>
      var at := ProbesFrom(c, tasks[0].key, 0)[i];
      if h.slots[at.slot].cells[SEQUENCE] >= tasks[0].sequence then RetireLoad(keep, tasks, i + 1)
      else RetireCas(keep, tasks, i, v)
    case InvalidateLoad(target, to) =>
      var seen := h.marks[Mark(c, target)];
      if seen < to then InvalidateCas(target, to, seen) else Done
    case _ => w
  }

  ghost predicate Changes(w: Writer) {
    || w.MarkCas? || w.Claiming? || w.Writing? || w.Publishing? || w.RetireCas? || w.RetireGeneration?
    || w.RetireExpires? || w.RetireStore? || w.InvalidateCas?
  }

  /** The step of a writer that may change shared memory. */
  ghost function ChangeStep(c: Config, h: Shared, pid: nat, w: Writer): (x: Next)
    requires Shape(c, h) && Formed(c, w) && Changes(w)
    ensures Shape(c, x.h)
  {
    match w
    case MarkCas(p, at, v, evicted, target, to, seen) =>
      if h.marks[Mark(c, target)] == seen
      then Next(h.(marks := h.marks[Mark(c, target) := to]), Claiming(p, at, v, evicted))
      else Next(h, MarkLoad(p, at, v, evicted, target, to))
    case Claiming(p, at, v, evicted) =>
      if h.slots[at.slot].version == v
      then Next(Versioned(h, at.slot, Claimed(v.count, pid), None), Writing(p, at, v.count, evicted, 0))
      else Next(h, Done)
    case Writing(p, at, n, evicted, i) =>
      Next(Stored(h, at.slot, i, Image(c, p)[i]),
           if i + 1 < |Image(c, p)| then Writing(p, at, n, evicted, i + 1) else Publishing(p, at, n, evicted))
    case Publishing(p, at, n, evicted) =>
      if h.slots[at.slot].version == Claimed(n, pid)
      then Next(Versioned(h, at.slot, Stable(n + 1), Some(p)).(log := h.log + [p]),
                RetireLoad(at.slot, [Task(p.key, p.sequence)] + evicted, 0))
      else Next(h, Done)
    case RetireCas(keep, tasks, i, v) =>
      var j := ProbesFrom(c, tasks[0].key, 0)[i].slot;
      if h.slots[j].version == v
      then Next(Versioned(h, j, Claimed(v.count, pid), None), RetireGeneration(keep, tasks, i, v.count))
      else Next(h, RetireLoad(keep, tasks, i + 1))
    case RetireGeneration(keep, tasks, i, n) =>
      var j := ProbesFrom(c, tasks[0].key, 0)[i].slot;
      Next(Stored(h, j, GENERATION, 0), RetireExpires(keep, tasks, i, n))
    case RetireExpires(keep, tasks, i, n) =>
      var j := ProbesFrom(c, tasks[0].key, 0)[i].slot;
      Next(Stored(h, j, EXPIRES, 0), RetireStore(keep, tasks, i, n))
    case RetireStore(keep, tasks, i, n) =>
      var j := ProbesFrom(c, tasks[0].key, 0)[i].slot;
      Next(Versioned(h, j, Stable(n + 1), None), RetireLoad(keep, tasks, i + 1))
    case InvalidateCas(target, to, seen) =>
      if h.marks[Mark(c, target)] == seen then Next(h.(marks := h.marks[Mark(c, target) := to]), Done)
      else Next(h, InvalidateLoad(target, to))
  }

  // ---- Lookups ------------------------------------------------------------------------

  function BestSequence(best: Option<Best>): nat { if best.Some? then best.value.sequence else 0 }

  ghost predicate FormedLookup(c: Config, x: Lookup)
    requires Sane(c)
  {
    match x
    case ScanCheck(q, _, i, _, v, n) => ScanOk(c, q, i) && v.Stable? && n < 3 + |q.key|
    case ScanSequence(q, _, i, _, v) => ScanOk(c, q, i) && v.Stable?
    case ScanConfirm(q, _, i, _, v, _) => ScanOk(c, q, i) && v.Stable?
    case Fields(q, _, b, got) => ProbeOk(c, b.at) && |got| < 7
    case Copy(q, _, b, got, out) => ProbeOk(c, b.at) && Fits(c, q, b, got) && |out| < got[4] + got[5]
    case Confirm(q, _, b, got, out) => ProbeOk(c, b.at) && Fits(c, q, b, got) && |out| == got[4] + got[5]
    case MarkCheck(q, _, b, got, out) => ProbeOk(c, b.at) && Fits(c, q, b, got) && |out| == got[4] + got[5]
    case _ => true
  }

  ghost predicate ScanOk(c: Config, q: Query, i: nat)
    requires Sane(c)
  {
    i < |ProbesFrom(c, q.key, 0)| && ProbeOk(c, ProbesFrom(c, q.key, 0)[i])
  }

  /** The tests a lookup makes on what it read, torn or not, before it copies. */
  predicate Fits(c: Config, q: Query, b: Best, got: seq<nat>) {
    && |got| == 7
    && got[3] > q.now
    && got[4] <= c.maxHead && got[5] <= c.maxBody
    && |q.key| + got[4] + got[5] <= b.at.capacity
    && got[4] + got[5] <= q.room
  }

  ghost function LookupStep(c: Config, h: Shared, x: Lookup): Lookup
    requires Shape(c, h) && FormedLookup(c, x)
  {
    match x
    case Scan(q, from, i, best) =>
      if i >= |ProbesFrom(c, q.key, 0)| then
        if best.None? then Miss(q) else SelectDone(c, q, Seen(from, |h.log|), best.value)
      else
        var at := ProbesFrom(c, q.key, 0)[i];
        if !ProbeOk(c, at) || h.slots[at.slot].version.Claimed? then Scan(q, from, i + 1, best)
        else ScanCheck(q, from, i, best, h.slots[at.slot].version, 0)
    case ScanCheck(q, from, i, best, v, n) =>
      var at := ProbesFrom(c, q.key, 0)[i];
      if !CheckPasses(c, q.key, at.capacity, h.slots[at.slot].cells, n) then Scan(q, from, i + 1, best)
      else if n + 1 < 3 + |q.key| then ScanCheck(q, from, i, best, v, n + 1)
      else ScanSequence(q, from, i, best, v)
    case ScanSequence(q, from, i, best, v) =>
      ScanConfirm(q, from, i, best, v, h.slots[ProbesFrom(c, q.key, 0)[i].slot].cells[SEQUENCE])
    case ScanConfirm(q, from, i, best, v, sequence) =>
      var at := ProbesFrom(c, q.key, 0)[i];
      Scan(q, from, i + 1,
           if h.slots[at.slot].version == v && sequence > BestSequence(best) then Some(Best(at, v, sequence)) else best)
    case Fields(q, seen, b, got) =>
      var now := got + [h.slots[b.at.slot].cells[FieldCell(|got|)]];
      if |now| < 7 then Fields(q, seen, b, now)
      else if !Fits(c, q, b, now) then Miss(q)
      else if now[4] + now[5] == 0 then Confirm(q, seen, b, now, [])
      else Copy(q, seen, b, now, [])
    case Copy(q, seen, b, got, out) =>
      var now := out + [h.slots[b.at.slot].cells[DATA + |q.key| + |out|]];
      if |now| < got[4] + got[5] then Copy(q, seen, b, got, now) else Confirm(q, seen, b, got, now)
    case Confirm(q, seen, b, got, out) =>
      if h.slots[b.at.slot].version != b.v then Miss(q) else MarkCheck(q, seen, b, got, out)
    case MarkCheck(q, seen, b, got, out) =>
      if b.sequence <= h.marks[Mark(c, got[0])] then Miss(q)
      else Hit(q, seen, b.sequence, got[6], out[..got[4]], out[got[4]..],
               got[2] + (if q.now > got[1] then q.now - got[1] else 0), got[3] - q.now)
    case _ => x
  }

  function SelectDone(c: Config, q: Query, seen: Seen, b: Best): Lookup {
    if b.at.slot < |c.rooms| && c.rooms[b.at.slot] == b.at.capacity then Fields(q, seen, b, []) else Miss(q)
  }

  /** Slot `at` holds `key`, stable, as `holds` would find it now. */
  ghost predicate HoldsNow(c: Config, h: Shared, key: seq<nat>, at: Probe)
    requires Shape(c, h) && ProbeOk(c, at)
  {
    && h.slots[at.slot].version.Stable? && |key| <= at.capacity
    && (forall n :: 0 <= n < 3 + |key| ==> h.slots[at.slot].cells[CheckCell(n)] == CheckValue(c, key, n))
  }

  /** The selection loop run without interruption over the probes from `i` on. */
  ghost function SelectNow(c: Config, h: Shared, key: seq<nat>, i: nat, best: Option<Best>): Option<Best>
    requires Shape(c, h)
    decreases |ProbesFrom(c, key, 0)| - i
  {
    if i >= |ProbesFrom(c, key, 0)| then best
    else
      var at := ProbesFrom(c, key, 0)[i];
      if ProbeOk(c, at) && HoldsNow(c, h, key, at) && h.slots[at.slot].cells[SEQUENCE] > BestSequence(best)
      then SelectNow(c, h, key, i + 1, Some(Best(at, h.slots[at.slot].version, h.slots[at.slot].cells[SEQUENCE])))
      else SelectNow(c, h, key, i + 1, best)
  }

  // ---- Runs ------------------------------------------------------------------------------

  datatype Action =
    | StartPut(t: Thread, p: Put)
    | StartInvalidate(t: Thread, target: nat, to: nat)
    | Write(t: Thread, pick: nat)
    | GiveUp(t: Thread)
    | StartGet(t: Thread, q: Query)
    | Select(t: Thread)
    | Look(t: Thread)
    | Die(pid: nat)

  ghost predicate MayGiveUp(w: Writer) {
    || w.CheckMark? || w.Choose? || w.EvictGeneration? || w.EvictRead? || w.EvictCheck? || w.MarkLoad? || w.MarkCas?
    || w.Claiming?
  }

  ghost function PutStarted(c: Config, s: State, t: Thread, p: Put): State {
    var k := FirstFit(c, Needed(p), 0);
    if t.pid in s.dead || t in s.writers || !Storable(c, p) || k >= |c.classes| then s
    else s.(writers := s.writers[t := CheckMark(p, k)])
  }

  ghost function InvalidateStarted(s: State, t: Thread, target: nat, to: nat): State {
    if t.pid in s.dead || t in s.writers then s
    else s.(writers := s.writers[t := InvalidateLoad(target, to)],
            changed := s.changed.(asked := s.changed.asked + [Invalidation(target, to)]))
  }

  predicate Invalidating(w: Writer) { w.InvalidateLoad? || w.InvalidateCas? }

  /** An invalidation that has just come to its end is entered as ended. */
  function Ending(changed: Changed, w: Writer, w': Writer): Changed {
    if Invalidating(w) && w'.Done? then changed.(ended := changed.ended + [Invalidation(w.target, w.to)]) else changed
  }

  ghost function Wrote(c: Config, s: State, t: Thread, pick: nat): State
    requires Shape(c, s.h)
  {
    if t !in s.writers || !Formed(c, s.writers[t]) then s
    else if s.writers[t].Done? then s.(writers := s.writers - {t})
    else if Changes(s.writers[t]) then
      var x := ChangeStep(c, s.h, t.pid, s.writers[t]);
      s.(h := x.h, writers := s.writers[t := x.w], changed := Ending(s.changed, s.writers[t], x.w))
    else
      var w := PrepareStep(c, s.h, s.dead, s.writers[t], pick);
      s.(writers := s.writers[t := w], changed := Ending(s.changed, s.writers[t], w))
  }

  ghost function GaveUp(s: State, t: Thread): State {
    if t !in s.writers || !MayGiveUp(s.writers[t]) then s else s.(writers := s.writers[t := Done])
  }

  ghost function GetStarted(s: State, t: Thread, q: Query): State {
    if t.pid in s.dead || |q.key| == 0 || |q.key| > MAX_KEY then s
    else s.(lookups := s.lookups[t := Scan(q, |s.h.log|, 0, None)])
  }

  ghost function Selected(c: Config, s: State, t: Thread): State
    requires Shape(c, s.h)
  {
    if t !in s.lookups || !s.lookups[t].Scan? || s.lookups[t].i != 0 || s.lookups[t].best.Some? then s
    else
      var q := s.lookups[t].q;
      var best := SelectNow(c, s.h, q.key, 0, None);
      var seen := Seen(|s.h.log|, |s.h.log|);
      s.(lookups := s.lookups[t := if best.None? then Miss(q) else SelectDone(c, q, seen, best.value)])
  }

  ghost function Looked(c: Config, s: State, t: Thread): State
    requires Shape(c, s.h)
  {
    if t !in s.lookups || !FormedLookup(c, s.lookups[t]) then s
    else s.(lookups := s.lookups[t := LookupStep(c, s.h, s.lookups[t])])
  }

  ghost function Died(s: State, pid: nat): State {
    s.(dead := s.dead + {pid},
       writers := map t | t in s.writers && t.pid != pid :: s.writers[t],
       lookups := map t | t in s.lookups && t.pid != pid :: s.lookups[t])
  }

  ghost function Apply(c: Config, s: State, a: Action): (s': State)
    requires Shape(c, s.h)
    ensures Shape(c, s'.h)
  {
    match a
    case StartPut(t, p) => PutStarted(c, s, t, p)
    case StartInvalidate(t, target, to) => InvalidateStarted(s, t, target, to)
    case Write(t, pick) => Wrote(c, s, t, pick)
    case GiveUp(t) => GaveUp(s, t)
    case StartGet(t, q) => GetStarted(s, t, q)
    case Select(t) => Selected(c, s, t)
    case Look(t) => Looked(c, s, t)
    case Die(pid) => Died(s, pid)
  }

  ghost function Reach(c: Config, actions: seq<Action>): (s: State)
    requires Sane(c)
    ensures Shape(c, s.h)
  {
    if actions == [] then Init(c)
    else Apply(c, Reach(c, actions[..|actions| - 1]), actions[|actions| - 1])
  }
}
