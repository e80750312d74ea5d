/** What every run of the cache keeps, and what a lookup can rely on. */
module CacheProof {
  import opened Cache
  import opened Wrappers

  // ---- Slots and marks ----------------------------------------------------------

  /** Versions only rise: a claim over a stable word, a publish over a claim. */
  function Rank(w: Word): nat {
    match w
    case Stable(n) => 2 * n
    case Claimed(n, _) => 2 * n + 1
  }

  ghost predicate EntryOk(c: Config, j: nat, sl: Slot, log: seq<Put>, p: Put)
    requires Sane(c) && j < |c.rooms|
  {
    Storable(c, p) && Image(c, p) <= sl.cells && Probe(j, c.rooms[j]) in ProbesFrom(c, p.key, 0) && p in log
  }

  /** A stable slot holds one published entry, whole, or nothing of this generation. */
  ghost predicate SlotOk(c: Config, j: nat, sl: Slot, log: seq<Put>)
    requires Sane(c) && j < |c.rooms| && |sl.cells| == DATA + c.rooms[j]
  {
    sl.version.Stable? ==>
      if sl.from.Some? then EntryOk(c, j, sl, log, sl.from.value) else sl.cells[GENERATION] != c.generation
  }

  ghost predicate SlotsOk(c: Config, h: Shared)
    requires Shape(c, h)
  {
    forall j: nat :: j < |h.slots| ==> SlotOk(c, j, h.slots[j], h.log)
  }

  ghost predicate Superseded(log: seq<Put>, p: Put) {
    exists k :: 0 <= k < |log| && log[k].key == p.key && log[k].sequence > p.sequence
  }

  ghost predicate Kept(slots: seq<Slot>, p: Put) {
    exists j :: 0 <= j < |slots| && slots[j].version.Stable? && slots[j].from == Some(p)
  }

  ghost predicate Marked(c: Config, marks: seq<nat>, p: Put)
    requires 0 < c.marks == |marks|
  {
    marks[Mark(c, c.target(p.key))] + 1 >= p.sequence
  }

  /** Nothing stands between a lookup and an older copy only if a newer copy, this
      copy or the mark does. */
  ghost predicate Covered(c: Config, h: Shared, p: Put)
    requires 0 < c.marks == |h.marks|
  {
    Superseded(h.log, p) || Kept(h.slots, p) || Marked(c, h.marks, p)
  }

  ghost predicate AllCovered(c: Config, h: Shared)
    requires 0 < c.marks == |h.marks|
  {
    forall k :: 0 <= k < |h.log| ==> Covered(c, h, h.log[k])
  }

  // ---- Writers -----------------------------------------------------------------------

  predicate Holding(w: Writer) {
    w.Writing? || w.Publishing? || w.RetireGeneration? || w.RetireExpires? || w.RetireStore?
  }

  /** The slot a writer has claimed. */
  ghost function HeldSlot(c: Config, w: Writer): (j: nat)
    requires Sane(c) && Formed(c, w) && Holding(w)
    ensures j < |c.rooms|
  {
    if w.Writing? || w.Publishing? then w.at.slot else ProbesFrom(c, w.tasks[0].key, 0)[w.i].slot
  }

  /** The holder finds its own claim, and what it has stored so far. */
  ghost predicate HolderOk(c: Config, sl: Slot, pid: nat, w: Writer)
    requires Sane(c) && Formed(c, w) && Holding(w) && |sl.cells| >= DATA
  {
    && sl.version == Claimed(w.n, pid)
    && (w.Writing? ==> Image(c, w.p)[..w.i] <= sl.cells)
    && (w.Publishing? ==> Image(c, w.p) <= sl.cells)
    && (w.RetireExpires? || w.RetireStore? ==> sl.cells[GENERATION] == 0)
  }

  ghost predicate Published(log: seq<Put>, task: Task) {
    exists k :: 0 <= k < |log| && log[k].key == task.key && log[k].sequence == task.sequence
  }

  ghost predicate TasksPublished(log: seq<Put>, tasks: seq<Task>) {
    forall i :: 0 <= i < |tasks| ==> Published(log, tasks[i])
  }

  ghost predicate Checked(c: Config, key: seq<nat>, room: nat, cells: seq<nat>, n: nat)
    requires n <= 3 + |key| && |cells| == DATA + room
  {
    forall i :: 0 <= i < n ==> CheckPasses(c, key, room, cells, i)
  }

  ghost predicate EvictSeen(cells: seq<nat>, room: nat, got: seq<nat>)
    requires |cells| == DATA + room && |got| <= 4 + EvictedLength(got, room)
  {
    forall i :: 0 <= i < |got| ==> got[i] == cells[EvictCell(i)]
  }

  ghost function ProbeSlot(c: Config, key: seq<nat>, i: nat): nat
    requires Sane(c) && i < |ProbesFrom(c, key, 0)|
  {
    ProbesFrom(c, key, 0)[i].slot
  }

  /** The first `n` comparisons of probe `i` pass, for as long as its version is `v`. */
  ghost predicate ProbePasses(c: Config, h: Shared, key: seq<nat>, i: nat, v: Word, n: nat)
    requires Shape(c, h) && n <= 3 + |key|
    requires i < |ProbesFrom(c, key, 0)| && ProbeSlot(c, key, i) < |c.rooms|
  {
    var j := ProbeSlot(c, key, i);
    RetireOk(c, h.slots[j], key, c.rooms[j], v, n)
  }

  /** What a writer has found out about a slot it has not claimed: true of it for
      as long as its version has not moved. */
  ghost predicate Observed(c: Config, h: Shared, dead: set<nat>, w: Writer)
    requires Shape(c, h) && Formed(c, w)
  {
    match w
    case EvictGeneration(_, at, v) => Rank(v) <= Rank(h.slots[at.slot].version)
    case EvictRead(_, at, v, got) => EvictOk(c, h.slots[at.slot], at.capacity, v, got)
    case EvictCheck(_, at, v, got) => EvictOk(c, h.slots[at.slot], at.capacity, v, got)
    case MarkLoad(_, at, v, evicted, target, to) =>
      TasksPublished(h.log, evicted) && RaiseOk(c, h.slots[at.slot], v, target, to)
    case MarkCas(_, at, v, evicted, target, to, _) =>
      TasksPublished(h.log, evicted) && RaiseOk(c, h.slots[at.slot], v, target, to)
    case Claiming(_, at, v, evicted) =>
      TasksPublished(h.log, evicted) && ClaimOk(c, h.slots[at.slot], h.marks, dead, v)
    case Writing(_, _, _, evicted, _) => TasksPublished(h.log, evicted)
    case Publishing(_, _, _, evicted) => TasksPublished(h.log, evicted)
    case RetireLoad(_, tasks, _) => TasksPublished(h.log, tasks)
    case RetireRead(_, tasks, i, v, n) =>
      TasksPublished(h.log, tasks) && ProbePasses(c, h, tasks[0].key, i, v, n)
    case RetireSequence(_, tasks, i, v) =>
      TasksPublished(h.log, tasks) && ProbePasses(c, h, tasks[0].key, i, v, 3 + |tasks[0].key|)
    case RetireCas(_, tasks, i, v) =>
      && TasksPublished(h.log, tasks)
      && ProbePasses(c, h, tasks[0].key, i, v, 3 + |tasks[0].key|)
      && var sl := h.slots[ProbeSlot(c, tasks[0].key, i)];
         (sl.version == v ==> sl.cells[SEQUENCE] < tasks[0].sequence)
    case RetireGeneration(_, tasks, _, _) => TasksPublished(h.log, tasks)
    case RetireExpires(_, tasks, _, _) => TasksPublished(h.log, tasks)
    case RetireStore(_, tasks, _, _) => TasksPublished(h.log, tasks)
    case _ => true
  }

  ghost predicate EvictOk(c: Config, sl: Slot, room: nat, v: Word, got: seq<nat>)
    requires |sl.cells| == DATA + room && |got| <= 4 + EvictedLength(got, room)
  {
    Rank(v) <= Rank(sl.version)
    && (sl.version == v ==> sl.cells[GENERATION] == c.generation && EvictSeen(sl.cells, room, got))
  }

  ghost predicate RaiseOk(c: Config, sl: Slot, v: Word, target: nat, to: nat) {
    Rank(v) <= Rank(sl.version)
    && (sl.version == v ==> sl.from.Some? && target == c.target(sl.from.value.key) && to + 1 == sl.from.value.sequence)
  }

  ghost predicate ClaimOk(c: Config, sl: Slot, marks: seq<nat>, dead: set<nat>, v: Word)
    requires 0 < c.marks == |marks|
  {
    if v.Claimed? then v.owner in dead
    else Rank(v) <= Rank(sl.version) && (sl.version == v && sl.from.Some? ==> Marked(c, marks, sl.from.value))
  }

  ghost predicate RetireOk(c: Config, sl: Slot, key: seq<nat>, room: nat, v: Word, n: nat)
    requires |sl.cells| == DATA + room && n <= 3 + |key|
  {
    Rank(v) <= Rank(sl.version) && (sl.version == v ==> Checked(c, key, room, sl.cells, n))
  }

  ghost predicate WriterOk(c: Config, h: Shared, dead: set<nat>, pid: nat, w: Writer)
    requires Shape(c, h)
  {
    && pid !in dead
    && Formed(c, w)
    && Observed(c, h, dead, w)
    && (Holding(w) ==> HolderOk(c, h.slots[HeldSlot(c, w)], pid, w))
  }

  ghost predicate WritersOk(c: Config, h: Shared, dead: set<nat>, writers: map<Thread, Writer>)
    requires Shape(c, h)
  {
    && (forall t :: t in writers ==> WriterOk(c, h, dead, t.pid, writers[t]))
    && (forall t, u :: t in writers && u in writers && t != u && Holding(writers[t]) && Holding(writers[u]) ==>
          HeldSlot(c, writers[t]) != HeldSlot(c, writers[u]))
  }

  // ---- Lookups ---------------------------------------------------------------------------

  ghost predicate FieldsSeen(cells: seq<nat>, got: seq<nat>)
    requires |cells| >= DATA && |got| <= 7
  {
    forall i :: 0 <= i < |got| ==> got[i] == cells[FieldCell(i)]
  }

  ghost predicate BytesSeen(cells: seq<nat>, from: nat, out: seq<nat>)
    requires from + |out| <= |cells|
  {
    forall i :: 0 <= i < |out| ==> out[i] == cells[from + i]
  }

  ghost predicate BestOk(c: Config, sl: Slot, key: seq<nat>, b: Best)
    requires |sl.cells| == DATA + b.at.capacity
  {
    && b.v.Stable? && Rank(b.v) <= Rank(sl.version)
    && (sl.version == b.v ==>
          Checked(c, key, b.at.capacity, sl.cells, 3 + |key|) && sl.cells[SEQUENCE] == b.sequence)
  }

  /** Every copy of the key published by then is numbered `x` or below. */
  ghost predicate Top(log: seq<Put>, from: nat, key: seq<nat>, x: nat)
    requires from <= |log|
  {
    forall k :: 0 <= k < from && log[k].key == key ==> log[k].sequence <= x
  }

  /** Put `m` came later and is newer than every copy of the key that came before. */
  ghost predicate Overtakes(log: seq<Put>, from: nat, key: seq<nat>, m: nat)
    requires from <= |log|
  {
    && from <= m < |log| && log[m].key == key
    && forall k :: 0 <= k < from && log[k].key == key ==> log[k].sequence < log[m].sequence
  }

  ghost predicate Overtaken(log: seq<Put>, from: nat, upto: nat, key: seq<nat>)
    requires from <= |log|
  {
    exists m :: 0 <= m < upto && Overtakes(log, from, key, m)
  }

  /** What a finished selection knows of its copy: nothing published when it began is
      newer, or one newer than all of that came while it ran, or the mark refuses it. */
  ghost predicate SeenOk(c: Config, h: Shared, key: seq<nat>, seen: Seen, sequence: nat)
    requires 0 < c.marks == |h.marks|
  {
    && seen.from <= seen.upto <= |h.log|
    && (h.marks[Mark(c, c.target(key))] < sequence ==>
          Top(h.log, seen.from, key, sequence) || Overtaken(h.log, seen.from, seen.upto, key))
  }

  /** Probe `n` still holds a copy as new as all that were published. */
  ghost predicate Awaits(c: Config, h: Shared, key: seq<nat>, from: nat, n: nat)
    requires Shape(c, h) && from <= |h.log|
  {
    && n < |ProbesFrom(c, key, 0)| && ProbeOk(c, ProbesFrom(c, key, 0)[n])
    && var sl := h.slots[ProbeSlot(c, key, n)];
       sl.version.Stable? && sl.from.Some? && sl.from.value.key == key && Top(h.log, from, key, sl.from.value.sequence)
  }

  /** It is still ahead of a scan that has come to probe `i`. */
  ghost predicate Ahead(c: Config, h: Shared, key: seq<nat>, from: nat, i: nat)
    requires Shape(c, h) && from <= |h.log|
  {
    exists n :: i <= n && Awaits(c, h, key, from, n)
  }

  /** It is at probe `i`, as it was when the scan read version `v` there. */
  ghost predicate Here(c: Config, h: Shared, key: seq<nat>, from: nat, i: nat, v: Word)
    requires Shape(c, h) && from <= |h.log|
  {
    Awaits(c, h, key, from, i) && h.slots[ProbeSlot(c, key, i)].version == v
  }

  /** The best so far, a newer put or the mark already make up for what is behind. */
  ghost predicate Settled(c: Config, h: Shared, key: seq<nat>, from: nat, best: nat)
    requires Shape(c, h) && from <= |h.log|
  {
    || Top(h.log, from, key, best)
    || Overtaken(h.log, from, |h.log|, key)
    || Top(h.log, from, key, h.marks[Mark(c, c.target(key))] + 1)
  }

  /** What a selection under way knows, at probe `i`, or behind its first read there. */
  ghost predicate ScanSeen(c: Config, h: Shared, key: seq<nat>, from: nat, i: nat, best: Option<Best>)
    requires Shape(c, h)
  {
    from <= |h.log| && (Settled(c, h, key, from, BestSequence(best)) || Ahead(c, h, key, from, i))
  }

  ghost predicate CheckSeen(c: Config, h: Shared, key: seq<nat>, from: nat, i: nat, best: Option<Best>, v: Word)
    requires Shape(c, h)
  {
    && from <= |h.log|
    && (Settled(c, h, key, from, BestSequence(best)) || Ahead(c, h, key, from, i + 1) || Here(c, h, key, from, i, v))
  }

  /** One published put stored everything that was read. */
  ghost predicate Matches(c: Config, q: Query, sequence: nat, got: seq<nat>, out: seq<nat>, p: Put) {
    && p.key == q.key && p.sequence == sequence
    && got == [c.target(p.key), p.now, p.age, p.now + p.ttl, |p.head|, |p.body|, p.status]
    && out == p.head + p.body
  }

  /** A lookup's answer, as put `p` gives it. */
  ghost predicate Answers(x: Lookup, p: Put)
    requires x.Hit?
  {
    && p.key == x.q.key && p.sequence == x.sequence && p.status == x.status && p.head == x.head && p.body == x.body
    && x.age == p.age + (if x.q.now > p.now then x.q.now - p.now else 0)
    && x.ttl + x.q.now == p.now + p.ttl && x.ttl > 0
  }

  ghost predicate LookOk(c: Config, h: Shared, x: Lookup)
    requires Shape(c, h)
  {
    && FormedLookup(c, x)
    && match x
       case Scan(q, from, i, best) =>
         && (best.Some? ==> BestKnown(c, h, q, best.value))
         && ScanSeen(c, h, q.key, from, i, best)
       case ScanCheck(q, from, i, best, v, n) =>
         && (best.Some? ==> BestKnown(c, h, q, best.value))
         && ProbePasses(c, h, q.key, i, v, n) && CheckSeen(c, h, q.key, from, i, best, v)
       case ScanSequence(q, from, i, best, v) =>
         && (best.Some? ==> BestKnown(c, h, q, best.value))
         && ProbePasses(c, h, q.key, i, v, 3 + |q.key|) && CheckSeen(c, h, q.key, from, i, best, v)
       case ScanConfirm(q, from, i, best, v, sequence) =>
         && (best.Some? ==> BestKnown(c, h, q, best.value))
         && BestKnown(c, h, q, Best(ProbesFrom(c, q.key, 0)[i], v, sequence))
         && CheckSeen(c, h, q.key, from, i, best, v)
       case Fields(q, seen, b, got) => BestRead(c, h, q, seen, b, got)
       case Copy(q, seen, b, got, out) => BestRead(c, h, q, seen, b, got) && BestCopied(c, h, q, b, out)
       case Confirm(q, seen, b, got, out) => BestRead(c, h, q, seen, b, got) && BestCopied(c, h, q, b, out)
       case MarkCheck(q, seen, b, got, out) =>
         && SeenOk(c, h, q.key, seen, b.sequence)
         && (exists k :: 0 <= k < |h.log| && Matches(c, q, b.sequence, got, out, h.log[k]))
       case Miss(_) => true
       case Hit(q, seen, sequence, _, _, _, _, _) =>
         && seen.from <= seen.upto <= |h.log|
         && (Top(h.log, seen.from, q.key, sequence) || Overtaken(h.log, seen.from, seen.upto, q.key))
         && (exists k :: 0 <= k < |h.log| && Answers(x, h.log[k]))
  }

  ghost predicate BestKnown(c: Config, h: Shared, q: Query, b: Best)
    requires Shape(c, h)
  {
    ProbeOk(c, b.at) && BestOk(c, h.slots[b.at.slot], q.key, b)
  }

  ghost predicate BestRead(c: Config, h: Shared, q: Query, seen: Seen, b: Best, got: seq<nat>)
    requires Shape(c, h) && |got| <= 7
  {
    && BestKnown(c, h, q, b) && SeenOk(c, h, q.key, seen, b.sequence)
    && (h.slots[b.at.slot].version == b.v ==> FieldsSeen(h.slots[b.at.slot].cells, got))
  }

  ghost predicate BestCopied(c: Config, h: Shared, q: Query, b: Best, out: seq<nat>)
    requires Shape(c, h) && ProbeOk(c, b.at) && |q.key| + |out| <= b.at.capacity
  {
    h.slots[b.at.slot].version == b.v ==> BytesSeen(h.slots[b.at.slot].cells, DATA + |q.key|, out)
  }

  ghost predicate LookupsOk(c: Config, h: Shared, lookups: map<Thread, Lookup>)
    requires Shape(c, h)
  {
    forall t :: t in lookups ==> LookOk(c, h, lookups[t])
  }

  ghost predicate Inv(c: Config, s: State) {
    && Shape(c, s.h)
    && SlotsOk(c, s.h)
    && AllCovered(c, s.h)
    && WritersOk(c, s.h, s.dead, s.writers)
    && LookupsOk(c, s.h, s.lookups)
  }

  lemma InitInv(c: Config)
    requires Sane(c)
    ensures Inv(c, Init(c))
  {
  }

  // ---- What other threads' steps leave alone -------------------------------------------

  /** Versions and marks rise, the log grows, and a slot whose stable version has
      not moved has not changed. */
  ghost predicate Evolves(c: Config, h: Shared, h': Shared)
    requires Shape(c, h) && Shape(c, h')
  {
    && (forall j :: 0 <= j < |h.slots| ==> SlotEvolves(h.slots[j], h'.slots[j]))
    && (forall j :: 0 <= j < |h.marks| ==> h.marks[j] <= h'.marks[j])
    && h.log <= h'.log
  }

  ghost predicate SlotEvolves(sl: Slot, sl': Slot) {
    Rank(sl.version) <= Rank(sl'.version) && (sl.version.Stable? && sl'.version == sl.version ==> sl' == sl)
  }

  /** A copy leaves its slot only once a newer one is published or the mark is just below it. */
  ghost predicate Leaves(c: Config, h: Shared, h': Shared)
    requires Shape(c, h) && Shape(c, h')
  {
    forall j: nat :: j < |h.slots| ==> SlotLeaves(c, h, h', j)
  }

  ghost predicate SlotLeaves(c: Config, h: Shared, h': Shared, j: nat)
    requires Shape(c, h) && Shape(c, h') && j < |h.slots|
  {
    h.slots[j].version.Stable? && h.slots[j].from.Some? && h'.slots[j] != h.slots[j] ==>
      Superseded(h.log, h.slots[j].from.value) || Marked(c, h.marks, h.slots[j].from.value)
  }

  lemma TasksStable(log: seq<Put>, log': seq<Put>, tasks: seq<Task>)
    requires log <= log' && TasksPublished(log, tasks)
    ensures TasksPublished(log', tasks)
  {
    forall i | 0 <= i < |tasks| ensures Published(log', tasks[i]) {
      assert Published(log, tasks[i]);
      var k :| 0 <= k < |log| && log[k].key == tasks[i].key && log[k].sequence == tasks[i].sequence;
      assert log'[k] == log[k];
    }
  }

  predicate Retiring(w: Writer) {
    || w.RetireLoad? || w.RetireRead? || w.RetireSequence? || w.RetireCas? || w.RetireGeneration? || w.RetireExpires?
    || w.RetireStore?
  }

  lemma RetiringStable(c: Config, h: Shared, h': Shared, dead: set<nat>, dead': set<nat>, w: Writer)
    requires Shape(c, h) && Shape(c, h') && Evolves(c, h, h') && dead <= dead'
    requires Formed(c, w) && Observed(c, h, dead, w) && Retiring(w)
    ensures Observed(c, h', dead', w)
  {
    TasksStable(h.log, h'.log, w.tasks);
    if w.RetireRead? || w.RetireSequence? || w.RetireCas? {
      var j := ProbesFrom(c, w.tasks[0].key, 0)[w.i].slot;
      assert SlotEvolves(h.slots[j], h'.slots[j]);
    }
  }

  lemma PuttingStable(c: Config, h: Shared, h': Shared, dead: set<nat>, dead': set<nat>, w: Writer)
    requires Shape(c, h) && Shape(c, h') && Evolves(c, h, h') && dead <= dead'
    requires Formed(c, w) && Observed(c, h, dead, w) &&
             (w.MarkLoad? || w.MarkCas? || w.Claiming? || w.Writing? || w.Publishing?)
    ensures Observed(c, h', dead', w)
  {
    TasksStable(h.log, h'.log, w.evicted);
    assert SlotEvolves(h.slots[w.at.slot], h'.slots[w.at.slot]);
  }

  lemma EvictingStable(c: Config, h: Shared, h': Shared, dead: set<nat>, dead': set<nat>, w: Writer)
    requires Shape(c, h) && Shape(c, h') && Evolves(c, h, h')
    requires Formed(c, w) && Observed(c, h, dead, w) && (w.EvictGeneration? || w.EvictRead? || w.EvictCheck?)
    ensures Observed(c, h', dead', w)
  {
    assert SlotEvolves(h.slots[w.at.slot], h'.slots[w.at.slot]);
  }

  lemma ObservedStable(c: Config, h: Shared, h': Shared, dead: set<nat>, dead': set<nat>, w: Writer)
    requires Shape(c, h) && Shape(c, h') && Evolves(c, h, h') && dead <= dead'
    requires Formed(c, w) && Observed(c, h, dead, w)
    ensures Observed(c, h', dead', w)
  {
    if Retiring(w) { RetiringStable(c, h, h', dead, dead', w); }
    else if w.EvictGeneration? || w.EvictRead? || w.EvictCheck? { EvictingStable(c, h, h', dead, dead', w); }
    else if w.MarkLoad? || w.MarkCas? || w.Claiming? || w.Writing? || w.Publishing? {
      PuttingStable(c, h, h', dead, dead', w);
    }
  }

  lemma PassesStable(c: Config, h: Shared, h': Shared, key: seq<nat>, i: nat, v: Word, n: nat)
    requires Shape(c, h) && Shape(c, h') && Evolves(c, h, h') && n <= 3 + |key|
    requires i < |ProbesFrom(c, key, 0)| && ProbeSlot(c, key, i) < |c.rooms|
    requires v.Stable? && ProbePasses(c, h, key, i, v, n)
    ensures ProbePasses(c, h', key, i, v, n)
  {
    assert SlotEvolves(h.slots[ProbeSlot(c, key, i)], h'.slots[ProbeSlot(c, key, i)]);
  }

  lemma KnownStable(c: Config, h: Shared, h': Shared, q: Query, b: Best)
    requires Shape(c, h) && Shape(c, h') && Evolves(c, h, h') && BestKnown(c, h, q, b)
    ensures BestKnown(c, h', q, b)
  {
    assert SlotEvolves(h.slots[b.at.slot], h'.slots[b.at.slot]);
  }

  lemma TopStable(log: seq<Put>, log': seq<Put>, from: nat, key: seq<nat>, x: nat, y: nat)
    requires log <= log' && from <= |log| && Top(log, from, key, x) && x <= y
    ensures Top(log', from, key, y)
  {
  }

  lemma OvertakenStable(log: seq<Put>, log': seq<Put>, from: nat, upto: nat, key: seq<nat>)
    requires log <= log' && from <= |log| && Overtaken(log, from, upto, key)
    ensures Overtaken(log', from, upto, key) && Overtaken(log', from, |log'|, key)
  {
    var m :| 0 <= m < upto && Overtakes(log, from, key, m);
    assert Overtakes(log', from, key, m);
  }

  /** A put newer than a copy as new as all before is newer than all before. */
  lemma SupersededOvertakes(log: seq<Put>, from: nat, key: seq<nat>, p: Put)
    requires from <= |log| && p.key == key && Top(log, from, key, p.sequence) && Superseded(log, p)
    ensures Overtaken(log, from, |log|, key)
  {
    var m :| 0 <= m < |log| && log[m].key == p.key && log[m].sequence > p.sequence;
    assert Overtakes(log, from, key, m);
  }

  lemma MarkStable(c: Config, h: Shared, h': Shared, key: seq<nat>)
    requires Shape(c, h) && Shape(c, h') && Evolves(c, h, h')
    ensures h.marks[Mark(c, c.target(key))] <= h'.marks[Mark(c, c.target(key))]
  {
  }

  lemma SettledStable(c: Config, h: Shared, h': Shared, key: seq<nat>, from: nat, best: nat)
    requires Shape(c, h) && Shape(c, h') && Evolves(c, h, h') && from <= |h.log| && Settled(c, h, key, from, best)
    ensures Settled(c, h', key, from, best)
  {
    MarkStable(c, h, h', key);
    var mark := h.marks[Mark(c, c.target(key))];
    if Top(h.log, from, key, best) {
      TopStable(h.log, h'.log, from, key, best, best);
    } else if Overtaken(h.log, from, |h.log|, key) {
      OvertakenStable(h.log, h'.log, from, |h.log|, key);
    } else {
      TopStable(h.log, h'.log, from, key, mark + 1, h'.marks[Mark(c, c.target(key))] + 1);
    }
  }

  /** A copy a scan awaits stays where it is, or is made up for. */
  lemma AwaitsStable(c: Config, h: Shared, h': Shared, key: seq<nat>, from: nat, n: nat, best: nat)
    requires Shape(c, h) && Shape(c, h') && Evolves(c, h, h') && Leaves(c, h, h')
    requires from <= |h.log| && Awaits(c, h, key, from, n)
    ensures Settled(c, h', key, from, best)
            || (Awaits(c, h', key, from, n) && h'.slots[ProbeSlot(c, key, n)] == h.slots[ProbeSlot(c, key, n)])
  {
    var j := ProbeSlot(c, key, n);
    var p := h.slots[j].from.value;
    assert SlotLeaves(c, h, h', j);
    if h'.slots[j] == h.slots[j] {
      TopStable(h.log, h'.log, from, key, p.sequence, p.sequence);
    } else {
      if Superseded(h.log, p) {
        SupersededOvertakes(h.log, from, key, p);
      } else {
        TopStable(h.log, h.log, from, key, p.sequence, h.marks[Mark(c, c.target(key))] + 1);
      }
      SettledStable(c, h, h', key, from, best);
    }
  }

  lemma ScanSeenStable(c: Config, h: Shared, h': Shared, key: seq<nat>, from: nat, i: nat, best: Option<Best>)
    requires Shape(c, h) && Shape(c, h') && Evolves(c, h, h') && Leaves(c, h, h')
    requires ScanSeen(c, h, key, from, i, best)
    ensures ScanSeen(c, h', key, from, i, best)
  {
    if Settled(c, h, key, from, BestSequence(best)) {
      SettledStable(c, h, h', key, from, BestSequence(best));
    } else {
      var n :| i <= n && Awaits(c, h, key, from, n);
      AwaitsStable(c, h, h', key, from, n, BestSequence(best));
    }
  }

  lemma CheckSeenStable(c: Config, h: Shared, h': Shared, key: seq<nat>, from: nat, i: nat, best: Option<Best>, v: Word)
    requires Shape(c, h) && Shape(c, h') && Evolves(c, h, h') && Leaves(c, h, h')
    requires CheckSeen(c, h, key, from, i, best, v)
    ensures CheckSeen(c, h', key, from, i, best, v)
  {
    if Here(c, h, key, from, i, v) {
      AwaitsStable(c, h, h', key, from, i, BestSequence(best));
    } else {
      ScanSeenStable(c, h, h', key, from, i + 1, best);
    }
  }

  lemma ScanStable(c: Config, h: Shared, h': Shared, x: Lookup)
    requires Shape(c, h) && Shape(c, h') && Evolves(c, h, h') && Leaves(c, h, h') && LookOk(c, h, x)
    requires x.Scan? || x.ScanCheck? || x.ScanSequence? || x.ScanConfirm?
    ensures LookOk(c, h', x)
  {
    if x.best.Some? { KnownStable(c, h, h', x.q, x.best.value); }
    if x.Scan? {
      ScanSeenStable(c, h, h', x.q.key, x.from, x.i, x.best);
    } else {
      CheckSeenStable(c, h, h', x.q.key, x.from, x.i, x.best, x.v);
    }
    if x.ScanCheck? { PassesStable(c, h, h', x.q.key, x.i, x.v, x.n); }
    if x.ScanSequence? { PassesStable(c, h, h', x.q.key, x.i, x.v, 3 + |x.q.key|); }
    if x.ScanConfirm? { KnownStable(c, h, h', x.q, Best(ProbesFrom(c, x.q.key, 0)[x.i], x.v, x.sequence)); }
  }

  lemma NewnessStable(log: seq<Put>, log': seq<Put>, key: seq<nat>, seen: Seen, sequence: nat)
    requires log <= log' && seen.from <= seen.upto <= |log|
    requires Top(log, seen.from, key, sequence) || Overtaken(log, seen.from, seen.upto, key)
    ensures Top(log', seen.from, key, sequence) || Overtaken(log', seen.from, seen.upto, key)
  {
    if Top(log, seen.from, key, sequence) {
      TopStable(log, log', seen.from, key, sequence, sequence);
    } else {
      OvertakenStable(log, log', seen.from, seen.upto, key);
    }
  }

  lemma SeenStable(c: Config, h: Shared, h': Shared, key: seq<nat>, seen: Seen, sequence: nat)
    requires Shape(c, h) && Shape(c, h') && Evolves(c, h, h') && SeenOk(c, h, key, seen, sequence)
    ensures SeenOk(c, h', key, seen, sequence)
  {
    MarkStable(c, h, h', key);
    if h'.marks[Mark(c, c.target(key))] < sequence { NewnessStable(h.log, h'.log, key, seen, sequence); }
  }

  lemma ReadStable(c: Config, h: Shared, h': Shared, x: Lookup)
    requires Shape(c, h) && Shape(c, h') && Evolves(c, h, h') && LookOk(c, h, x)
    requires x.Fields? || x.Copy? || x.Confirm?
    ensures LookOk(c, h', x)
  {
    KnownStable(c, h, h', x.q, x.b);
    SeenStable(c, h, h', x.q.key, x.seen, x.b.sequence);
    assert SlotEvolves(h.slots[x.b.at.slot], h'.slots[x.b.at.slot]);
  }

  lemma LookStable(c: Config, h: Shared, h': Shared, x: Lookup)
    requires Shape(c, h) && Shape(c, h') && Evolves(c, h, h') && Leaves(c, h, h') && LookOk(c, h, x)
    ensures LookOk(c, h', x)
  {
    if x.Scan? || x.ScanCheck? || x.ScanSequence? || x.ScanConfirm? {
      ScanStable(c, h, h', x);
    } else if x.Fields? || x.Copy? || x.Confirm? {
      ReadStable(c, h, h', x);
    } else if x.MarkCheck? {
      SeenStable(c, h, h', x.q.key, x.seen, x.b.sequence);
      var k :| 0 <= k < |h.log| && Matches(c, x.q, x.b.sequence, x.got, x.out, h.log[k]);
      assert h'.log[k] == h.log[k];
    } else if x.Hit? {
      NewnessStable(h.log, h'.log, x.q.key, x.seen, x.sequence);
      var k :| 0 <= k < |h.log| && Answers(x, h.log[k]);
      assert h'.log[k] == h.log[k];
    }
  }

  // ---- What a writer's own step does ------------------------------------------------------

  lemma SupersededStable(log: seq<Put>, log': seq<Put>, p: Put)
    requires log <= log' && Superseded(log, p)
    ensures Superseded(log', p)
  {
    var k :| 0 <= k < |log| && log[k].key == p.key && log[k].sequence > p.sequence;
    assert log'[k] == log[k];
  }

  /** A step on slot `j` that takes a copy away leaves it covered. */
  lemma CoveredAfter(c: Config, h: Shared, h': Shared, j: nat, p: Put)
    requires Shape(c, h) && Shape(c, h') && Evolves(c, h, h') && Covered(c, h, p) && j < |h.slots|
    requires forall i :: 0 <= i < |h.slots| && i != j ==> h'.slots[i] == h.slots[i]
    requires h.slots[j].version.Stable? && h.slots[j].from == Some(p) ==> Superseded(h.log, p) || Marked(c, h.marks, p)
    ensures Covered(c, h', p)
  {
    if Superseded(h.log, p) {
      SupersededStable(h.log, h'.log, p);
    } else if Kept(h.slots, p) && !Marked(c, h.marks, p) {
      var i :| 0 <= i < |h.slots| && h.slots[i].version.Stable? && h.slots[i].from == Some(p);
      assert h'.slots[i] == h.slots[i];
    }
  }

  lemma AllCoveredAfter(c: Config, h: Shared, h': Shared, j: nat)
    requires Shape(c, h) && Shape(c, h') && Evolves(c, h, h') && AllCovered(c, h) && j < |h.slots| && h'.log == h.log
    requires forall i :: 0 <= i < |h.slots| && i != j ==> h'.slots[i] == h.slots[i]
    requires h.slots[j].version.Stable? && h.slots[j].from.Some? ==>
               Superseded(h.log, h.slots[j].from.value) || Marked(c, h.marks, h.slots[j].from.value)
    ensures AllCovered(c, h')
  {
    forall k | 0 <= k < |h.log| ensures Covered(c, h', h.log[k]) {
      assert Covered(c, h, h.log[k]);
      CoveredAfter(c, h, h', j, h.log[k]);
    }
  }

  /** The shared half of the invariant, and the writer's own, after its step. */
  ghost predicate StepOk(c: Config, h: Shared, dead: set<nat>, pid: nat, h': Shared, w': Writer)
    requires Shape(c, h) && Shape(c, h')
  {
    Evolves(c, h, h') && SlotsOk(c, h') && AllCovered(c, h') && WriterOk(c, h', dead, pid, w')
  }

  /** Raising a mark only refuses more. */
  lemma MarkRises(c: Config, h: Shared, j: nat, to: nat)
    requires Shape(c, h) && SlotsOk(c, h) && AllCovered(c, h) && j < |h.marks| && h.marks[j] <= to
    ensures var h' := h.(marks := h.marks[j := to]); Evolves(c, h, h') && SlotsOk(c, h') && AllCovered(c, h')
  {
    var h' := h.(marks := h.marks[j := to]);
    forall k | 0 <= k < |h.log| ensures Covered(c, h', h.log[k]) {
      assert Covered(c, h, h.log[k]);
    }
    forall i: nat | i < |h.slots| ensures SlotOk(c, i, h'.slots[i], h'.log) {
      assert SlotOk(c, i, h.slots[i], h.log);
    }
  }

  lemma MarkEffect(c: Config, h: Shared, dead: set<nat>, pid: nat, w: Writer)
    requires Shape(c, h) && SlotsOk(c, h) && AllCovered(c, h) && WriterOk(c, h, dead, pid, w) && w.MarkCas?
    ensures var x := ChangeStep(c, h, pid, w); StepOk(c, h, dead, pid, x.h, x.w)
  {
    if h.marks[Mark(c, w.target)] == w.seen { MarkRises(c, h, Mark(c, w.target), w.to); }
  }

  lemma InvalidateEffect(c: Config, h: Shared, dead: set<nat>, pid: nat, w: Writer)
    requires Shape(c, h) && SlotsOk(c, h) && AllCovered(c, h) && WriterOk(c, h, dead, pid, w) && w.InvalidateCas?
    ensures var x := ChangeStep(c, h, pid, w); StepOk(c, h, dead, pid, x.h, x.w)
  {
    if h.marks[Mark(c, w.target)] == w.seen { MarkRises(c, h, Mark(c, w.target), w.to); }
  }

  lemma SlotsAfter(c: Config, h: Shared, h': Shared, j: nat)
    requires Shape(c, h) && Shape(c, h') && SlotsOk(c, h) && j < |h.slots| && h.log <= h'.log
    requires forall i :: 0 <= i < |h.slots| && i != j ==> h'.slots[i] == h.slots[i]
    requires SlotOk(c, j, h'.slots[j], h'.log)
    ensures SlotsOk(c, h')
  {
    forall i: nat | i < |h.slots| ensures SlotOk(c, i, h'.slots[i], h'.log) {
      assert SlotOk(c, i, h.slots[i], h.log);
    }
  }

  lemma ClaimEffect(c: Config, h: Shared, dead: set<nat>, pid: nat, w: Writer)
    requires Shape(c, h) && SlotsOk(c, h) && AllCovered(c, h) && WriterOk(c, h, dead, pid, w) && w.Claiming?
    ensures var x := ChangeStep(c, h, pid, w); StepOk(c, h, dead, pid, x.h, x.w)
  {
    var x := ChangeStep(c, h, pid, w);
    if h.slots[w.at.slot].version == w.v {
      SlotsAfter(c, h, x.h, w.at.slot);
      AllCoveredAfter(c, h, x.h, w.at.slot);
    }
  }

  lemma WriteEffect(c: Config, h: Shared, dead: set<nat>, pid: nat, w: Writer)
    requires Shape(c, h) && SlotsOk(c, h) && AllCovered(c, h) && WriterOk(c, h, dead, pid, w) && w.Writing?
    ensures var x := ChangeStep(c, h, pid, w); StepOk(c, h, dead, pid, x.h, x.w)
  {
    var x := ChangeStep(c, h, pid, w);
    SlotsAfter(c, h, x.h, w.at.slot);
    AllCoveredAfter(c, h, x.h, w.at.slot);
    var image := Image(c, w.p);
    assert image[..w.i + 1] == image[..w.i] + [image[w.i]];
    assert image[..|image|] == image;
  }

  lemma RetireCellEffect(c: Config, h: Shared, dead: set<nat>, pid: nat, w: Writer)
    requires Shape(c, h) && SlotsOk(c, h) && AllCovered(c, h) && WriterOk(c, h, dead, pid, w)
    requires w.RetireGeneration? || w.RetireExpires?
    ensures var x := ChangeStep(c, h, pid, w); StepOk(c, h, dead, pid, x.h, x.w)
  {
    var x := ChangeStep(c, h, pid, w);
    SlotsAfter(c, h, x.h, HeldSlot(c, w));
    AllCoveredAfter(c, h, x.h, HeldSlot(c, w));
  }

  lemma PublishEffect(c: Config, h: Shared, dead: set<nat>, pid: nat, w: Writer)
    requires Shape(c, h) && SlotsOk(c, h) && AllCovered(c, h) && WriterOk(c, h, dead, pid, w) && w.Publishing?
    ensures var x := ChangeStep(c, h, pid, w); StepOk(c, h, dead, pid, x.h, x.w)
  {
    var x := ChangeStep(c, h, pid, w);
    var j := w.at.slot;
    SlotsAfter(c, h, x.h, j);
    forall k | 0 <= k < |x.h.log| ensures Covered(c, x.h, x.h.log[k]) {
      if k < |h.log| {
        assert Covered(c, h, h.log[k]);
        CoveredAfter(c, h, x.h, j, h.log[k]);
      } else {
        assert x.h.slots[j].from == Some(x.h.log[k]);
      }
    }
    TasksStable(h.log, x.h.log, w.evicted);
    assert x.h.log[|h.log|] == w.p;
    assert Published(x.h.log, Task(w.p.key, w.p.sequence));
  }

  lemma RetireStoreEffect(c: Config, h: Shared, dead: set<nat>, pid: nat, w: Writer)
    requires Shape(c, h) && SlotsOk(c, h) && AllCovered(c, h) && WriterOk(c, h, dead, pid, w) && w.RetireStore?
    ensures var x := ChangeStep(c, h, pid, w); StepOk(c, h, dead, pid, x.h, x.w)
  {
    var x := ChangeStep(c, h, pid, w);
    SlotsAfter(c, h, x.h, HeldSlot(c, w));
    AllCoveredAfter(c, h, x.h, HeldSlot(c, w));
  }

  /** A stable slot that passes every comparison holds a put of that key. */
  lemma EntryMatches(c: Config, j: nat, sl: Slot, log: seq<Put>, key: seq<nat>)
    requires Sane(c) && j < |c.rooms| && |sl.cells| == DATA + c.rooms[j] && SlotOk(c, j, sl, log) && sl.version.Stable?
    requires Checked(c, key, c.rooms[j], sl.cells, 3 + |key|)
    ensures sl.from.Some? && sl.from.value.key == key
  {
    assert CheckPasses(c, key, c.rooms[j], sl.cells, 1);
    assert CheckPasses(c, key, c.rooms[j], sl.cells, 2);
    var p := sl.from.value;
    var image := Image(c, p);
    assert |p.key| == image[KEYLEN] == sl.cells[KEYLEN] == |key|;
    forall i | 0 <= i < |key| ensures p.key[i] == key[i] {
      assert CheckPasses(c, key, c.rooms[j], sl.cells, i + 3);
      assert image[DATA + i] == p.key[i];
    }
  }

  /** A copy a retire may take is older than one that was published. */
  lemma RetiredIsOlder(c: Config, j: nat, sl: Slot, log: seq<Put>, task: Task)
    requires Sane(c) && j < |c.rooms| && |sl.cells| == DATA + c.rooms[j] && SlotOk(c, j, sl, log) && sl.version.Stable?
    requires Checked(c, task.key, c.rooms[j], sl.cells, 3 + |task.key|)
    requires sl.cells[SEQUENCE] < task.sequence && Published(log, task)
    ensures sl.from.Some? && Superseded(log, sl.from.value)
  {
    EntryMatches(c, j, sl, log, task.key);
    var k :| 0 <= k < |log| && log[k].key == task.key && log[k].sequence == task.sequence;
    assert Image(c, sl.from.value)[SEQUENCE] == sl.cells[SEQUENCE];
  }

  lemma RetireCasEffect(c: Config, h: Shared, dead: set<nat>, pid: nat, w: Writer)
    requires Shape(c, h) && SlotsOk(c, h) && AllCovered(c, h) && WriterOk(c, h, dead, pid, w) && w.RetireCas?
    ensures var x := ChangeStep(c, h, pid, w); StepOk(c, h, dead, pid, x.h, x.w)
  {
    var x := ChangeStep(c, h, pid, w);
    var j := ProbesFrom(c, w.tasks[0].key, 0)[w.i].slot;
    if h.slots[j].version == w.v {
      assert SlotOk(c, j, h.slots[j], h.log);
      assert Published(h.log, w.tasks[0]);
      RetiredIsOlder(c, j, h.slots[j], h.log, w.tasks[0]);
      SlotsAfter(c, h, x.h, j);
      AllCoveredAfter(c, h, x.h, j);
    }
  }

  lemma ChangeEffect(c: Config, h: Shared, dead: set<nat>, pid: nat, w: Writer)
    requires Shape(c, h) && SlotsOk(c, h) && AllCovered(c, h) && WriterOk(c, h, dead, pid, w) && Changes(w)
    ensures var x := ChangeStep(c, h, pid, w); StepOk(c, h, dead, pid, x.h, x.w)
  {
    match w
    case MarkCas(_, _, _, _, _, _, _) => MarkEffect(c, h, dead, pid, w);
    case InvalidateCas(_, _, _) => InvalidateEffect(c, h, dead, pid, w);
    case Claiming(_, _, _, _) => ClaimEffect(c, h, dead, pid, w);
    case Writing(_, _, _, _, _) => WriteEffect(c, h, dead, pid, w);
    case Publishing(_, _, _, _) => PublishEffect(c, h, dead, pid, w);
    case RetireCas(_, _, _, _) => RetireCasEffect(c, h, dead, pid, w);
    case RetireStore(_, _, _, _) => RetireStoreEffect(c, h, dead, pid, w);
    case _ => RetireCellEffect(c, h, dead, pid, w);
  }

  // ---- Steps that only look -------------------------------------------------------------------

  /** What an eviction read, confirmed by the version, is the entry's own. */
  lemma EvictionIsEntry(c: Config, j: nat, sl: Slot, log: seq<Put>, got: seq<nat>)
    requires Sane(c) && j < |c.rooms| && |sl.cells| == DATA + c.rooms[j] && SlotOk(c, j, sl, log) && sl.version.Stable?
    requires sl.cells[GENERATION] == c.generation
    requires |got| == 4 + EvictedLength(got, c.rooms[j]) && EvictSeen(sl.cells, c.rooms[j], got)
    ensures sl.from.Some? && got[2] == c.target(sl.from.value.key) && got[3] == sl.from.value.sequence
    ensures |got| > 4 ==> got[4..] == sl.from.value.key
  {
    var p := sl.from.value;
    var image := Image(c, p);
    assert got[0] == sl.cells[EvictCell(0)] == image[KEYLEN] == |p.key|;
    assert got[2] == sl.cells[EvictCell(2)] == image[MARK];
    assert got[3] == sl.cells[EvictCell(3)] == image[SEQUENCE];
    if |got| > 4 {
      forall i | 0 <= i < |p.key| ensures got[4..][i] == p.key[i] {
        assert got[4 + i] == sl.cells[EvictCell(4 + i)] == image[DATA + i];
      }
    }
  }

  lemma EvictCheckOk(c: Config, h: Shared, dead: set<nat>, pid: nat, w: Writer)
    requires Shape(c, h) && SlotsOk(c, h) && WriterOk(c, h, dead, pid, w) && w.EvictCheck?
    ensures WriterOk(c, h, dead, pid, PrepareStep(c, h, dead, w, 0))
  {
    var sl := h.slots[w.at.slot];
    if sl.version == w.v {
      assert SlotOk(c, w.at.slot, sl, h.log);
      EvictionIsEntry(c, w.at.slot, sl, h.log, w.got);
      var p := sl.from.value;
      var k :| 0 <= k < |h.log| && h.log[k] == p;
      if |w.got| > 4 { assert Published(h.log, Task(w.got[4..], w.got[3])); }
    }
  }

  lemma {:induction false} ProbeListed(c: Config, key: seq<nat>, k: nat, from: nat, pick: nat)
    requires Sane(c) && from <= k < |c.classes| && pick < PROBES && 0 < c.classes[k].count
    ensures ClassProbe(c, key, k, pick) in ProbesFrom(c, key, from) && ProbeOk(c, ClassProbe(c, key, k, pick))
    decreases k - from
  {
    assert ClassOk(c, k);
    assert ClassOk(c, from);
    if from < k {
      ProbeListed(c, key, k, from + 1, pick);
    } else {
      var four := [ClassProbe(c, key, k, 0), ClassProbe(c, key, k, 1), ClassProbe(c, key, k, 2), ClassProbe(c, key,
          k, 3)];
      assert four[pick] == ClassProbe(c, key, k, pick);
      assert ProbesFrom(c, key, from)[pick] == four[pick];
    }
  }

  lemma ChooseOk(c: Config, h: Shared, dead: set<nat>, pid: nat, w: Writer, pick: nat)
    requires Shape(c, h) && WriterOk(c, h, dead, pid, w) && w.Choose?
    ensures WriterOk(c, h, dead, pid, PrepareStep(c, h, dead, w, pick))
  {
    assert ClassOk(c, w.k);
    if pick < PROBES { ProbeListed(c, w.p.key, w.k, 0, pick); }
  }

  lemma EvictGenerationOk(c: Config, h: Shared, dead: set<nat>, pid: nat, w: Writer)
    requires Shape(c, h) && SlotsOk(c, h) && WriterOk(c, h, dead, pid, w) && w.EvictGeneration?
    ensures WriterOk(c, h, dead, pid, PrepareStep(c, h, dead, w, 0))
  {
    assert SlotOk(c, w.at.slot, h.slots[w.at.slot], h.log);
  }

  lemma EvictReadOk(c: Config, h: Shared, dead: set<nat>, pid: nat, w: Writer)
    requires Shape(c, h) && WriterOk(c, h, dead, pid, w) && w.EvictRead?
    ensures WriterOk(c, h, dead, pid, PrepareStep(c, h, dead, w, 0))
  {
  }

  lemma MarkLoadOk(c: Config, h: Shared, dead: set<nat>, pid: nat, w: Writer)
    requires Shape(c, h) && WriterOk(c, h, dead, pid, w) && (w.MarkLoad? || w.CheckMark? || w.InvalidateLoad?)
    ensures WriterOk(c, h, dead, pid, PrepareStep(c, h, dead, w, 0))
  {
  }

  lemma TasksRest(log: seq<Put>, tasks: seq<Task>)
    requires TasksPublished(log, tasks) && tasks != []
    ensures TasksPublished(log, tasks[1..])
  {
    forall i | 0 <= i < |tasks[1..]| ensures Published(log, tasks[1..][i]) { assert Published(log, tasks[i + 1]); }
  }

  lemma RetireLoadOk(c: Config, h: Shared, dead: set<nat>, pid: nat, w: Writer)
    requires Shape(c, h) && WriterOk(c, h, dead, pid, w) && w.RetireLoad?
    ensures WriterOk(c, h, dead, pid, PrepareStep(c, h, dead, w, 0))
  {
    if w.tasks != [] { TasksRest(h.log, w.tasks); }
  }

  lemma RetireReadOk(c: Config, h: Shared, dead: set<nat>, pid: nat, w: Writer)
    requires Shape(c, h) && WriterOk(c, h, dead, pid, w) && w.RetireRead?
    ensures WriterOk(c, h, dead, pid, PrepareStep(c, h, dead, w, 0))
  {
  }

  lemma RetireSequenceOk(c: Config, h: Shared, dead: set<nat>, pid: nat, w: Writer)
    requires Shape(c, h) && WriterOk(c, h, dead, pid, w) && w.RetireSequence?
    ensures WriterOk(c, h, dead, pid, PrepareStep(c, h, dead, w, 0))
  {
  }

  lemma PrepareOk(c: Config, h: Shared, dead: set<nat>, pid: nat, w: Writer, pick: nat)
    requires Shape(c, h) && SlotsOk(c, h) && WriterOk(c, h, dead, pid, w) && !Changes(w)
    ensures WriterOk(c, h, dead, pid, PrepareStep(c, h, dead, w, pick))
  {
    match w
    case Choose(_, _) => ChooseOk(c, h, dead, pid, w, pick);
    case EvictGeneration(_, _, _) => EvictGenerationOk(c, h, dead, pid, w);
    case EvictRead(_, _, _, _) => EvictReadOk(c, h, dead, pid, w);
    case EvictCheck(_, _, _, _) => EvictCheckOk(c, h, dead, pid, w);
    case RetireLoad(_, _, _) => RetireLoadOk(c, h, dead, pid, w);
    case RetireRead(_, _, _, _, _) => RetireReadOk(c, h, dead, pid, w);
    case RetireSequence(_, _, _, _) => RetireSequenceOk(c, h, dead, pid, w);
    case Done =>
    case _ => MarkLoadOk(c, h, dead, pid, w);
  }

  // ---- A writer's step, with the other threads --------------------------------------------------

  /** A slot a live writer holds is claimed in its name. */
  lemma HeldIsClaimed(c: Config, h: Shared, dead: set<nat>, pid: nat, u: Writer)
    requires Shape(c, h) && WriterOk(c, h, dead, pid, u) && Holding(u)
    ensures h.slots[HeldSlot(c, u)].version.Claimed? && h.slots[HeldSlot(c, u)].version.owner !in dead
  {
  }

  /** The slot a step may change. */
  ghost function Touches(c: Config, w: Writer): nat
    requires Sane(c) && Formed(c, w) && Changes(w) && !w.MarkCas? && !w.InvalidateCas?
  {
    if w.Claiming? || w.Writing? || w.Publishing? then w.at.slot else ProbesFrom(c, w.tasks[0].key, 0)[w.i].slot
  }

  lemma TouchesOne(c: Config, h: Shared, pid: nat, w: Writer, j: nat)
    requires Shape(c, h) && Formed(c, w) && Changes(w) && j < |h.slots|
    requires w.MarkCas? || w.InvalidateCas? || Touches(c, w) != j
    ensures ChangeStep(c, h, pid, w).h.slots[j] == h.slots[j]
  {
  }

  lemma HoldsWhatItTouches(c: Config, h: Shared, pid: nat, w: Writer)
    requires Shape(c, h) && Formed(c, w) && Changes(w)
    ensures var y := ChangeStep(c, h, pid, w).w;
            Formed(c, y) && Holding(y) ==> !w.MarkCas? && !w.InvalidateCas? && HeldSlot(c, y) == Touches(c, w)
  {
  }

  lemma ClaimFails(c: Config, h: Shared, dead: set<nat>, pid: nat, w: Writer)
    requires Shape(c, h) && WriterOk(c, h, dead, pid, w) && (w.Claiming? || w.RetireCas?)
    requires var v := h.slots[Touches(c, w)].version; v.Claimed? && v.owner !in dead
    ensures var x := ChangeStep(c, h, pid, w); x.h == h && !Holding(x.w)
  {
  }

  /** No step touches a slot another live writer holds. */
  lemma Untouched(c: Config, h: Shared, dead: set<nat>, pid: nat, w: Writer, pid': nat, u: Writer)
    requires Shape(c, h) && WriterOk(c, h, dead, pid, w) && Changes(w) && WriterOk(c, h, dead, pid', u) && Holding(u)
    requires Holding(w) ==> HeldSlot(c, w) != HeldSlot(c, u)
    ensures var x := ChangeStep(c, h, pid, w);
            && x.h.slots[HeldSlot(c, u)] == h.slots[HeldSlot(c, u)]
            && (Formed(c, x.w) && Holding(x.w) ==> HeldSlot(c, x.w) != HeldSlot(c, u))
  {
    var j := HeldSlot(c, u);
    HeldIsClaimed(c, h, dead, pid', u);
    HoldsWhatItTouches(c, h, pid, w);
    if (w.Claiming? || w.RetireCas?) && Touches(c, w) == j {
      ClaimFails(c, h, dead, pid, w);
    } else {
      TouchesOne(c, h, pid, w, j);
    }
  }

  lemma OtherWriter(c: Config, h: Shared, h': Shared, dead: set<nat>, pid: nat, u: Writer)
    requires Shape(c, h) && Shape(c, h') && Evolves(c, h, h') && WriterOk(c, h, dead, pid, u)
    requires Holding(u) ==> h'.slots[HeldSlot(c, u)] == h.slots[HeldSlot(c, u)]
    ensures WriterOk(c, h', dead, pid, u)
  {
    ObservedStable(c, h, h', dead, dead, u);
  }

  lemma WritersAfter(c: Config, h: Shared, dead: set<nat>, writers: map<Thread, Writer>, t: Thread)
    requires Shape(c, h) && SlotsOk(c, h) && AllCovered(c, h) && WritersOk(c, h, dead, writers)
    requires t in writers && Changes(writers[t])
    ensures var x := ChangeStep(c, h, t.pid, writers[t]); WritersOk(c, x.h, dead, writers[t := x.w])
  {
    var w := writers[t];
    var x := ChangeStep(c, h, t.pid, w);
    ChangeEffect(c, h, dead, t.pid, w);
    forall u | u in writers && u != t
      ensures WriterOk(c, x.h, dead, u.pid, writers[u])
      ensures Holding(x.w) && Holding(writers[u]) ==> HeldSlot(c, x.w) != HeldSlot(c, writers[u])
    {
      if Holding(writers[u]) { Untouched(c, h, dead, t.pid, w, u.pid, writers[u]); }
      OtherWriter(c, h, x.h, dead, u.pid, writers[u]);
    }
  }

  lemma LookupsAfter(c: Config, h: Shared, h': Shared, lookups: map<Thread, Lookup>)
    requires Shape(c, h) && Shape(c, h') && Evolves(c, h, h') && Leaves(c, h, h') && LookupsOk(c, h, lookups)
    ensures LookupsOk(c, h', lookups)
  {
    forall t | t in lookups ensures LookOk(c, h', lookups[t]) { LookStable(c, h, h', lookups[t]); }
  }

  /** A writer that holds nothing may be anywhere its own facts allow. */
  lemma WritersWith(c: Config, h: Shared, dead: set<nat>, writers: map<Thread, Writer>, t: Thread, w: Writer)
    requires Shape(c, h) && WritersOk(c, h, dead, writers) && t.pid !in dead
    requires WriterOk(c, h, dead, t.pid, w) && !Holding(w)
    ensures WritersOk(c, h, dead, writers[t := w])
  {
  }

  lemma WritersWithout(c: Config, h: Shared, dead: set<nat>, writers: map<Thread, Writer>, t: Thread)
    requires Shape(c, h) && WritersOk(c, h, dead, writers)
    ensures WritersOk(c, h, dead, writers - {t})
  {
  }

  lemma {:induction false} PreparedHoldsNothing(c: Config, h: Shared, dead: set<nat>, w: Writer, pick: nat)
    requires Shape(c, h) && Formed(c, w) && !Changes(w)
    ensures !Holding(PrepareStep(c, h, dead, w, pick))
  {
  }

  lemma ClaimLeaves(c: Config, h: Shared, dead: set<nat>, pid: nat, w: Writer)
    requires Shape(c, h) && SlotsOk(c, h) && WriterOk(c, h, dead, pid, w) && w.Claiming?
    ensures SlotLeaves(c, h, ChangeStep(c, h, pid, w).h, Touches(c, w))
  {
  }

  lemma RetireLeaves(c: Config, h: Shared, dead: set<nat>, pid: nat, w: Writer)
    requires Shape(c, h) && SlotsOk(c, h) && WriterOk(c, h, dead, pid, w) && w.RetireCas?
    ensures SlotLeaves(c, h, ChangeStep(c, h, pid, w).h, Touches(c, w))
  {
    var j := Touches(c, w);
    if h.slots[j].version == w.v {
      assert SlotOk(c, j, h.slots[j], h.log);
      assert Published(h.log, w.tasks[0]);
      RetiredIsOlder(c, j, h.slots[j], h.log, w.tasks[0]);
    }
  }

  lemma HolderLeaves(c: Config, h: Shared, dead: set<nat>, pid: nat, w: Writer)
    requires Shape(c, h) && WriterOk(c, h, dead, pid, w) && Holding(w) && Changes(w)
    ensures SlotLeaves(c, h, ChangeStep(c, h, pid, w).h, Touches(c, w))
  {
    assert HeldSlot(c, w) == Touches(c, w);
  }

  /** Only a claim takes a copy away: one that replaces it, or one that retires it. */
  lemma ChangeLeaves(c: Config, h: Shared, dead: set<nat>, pid: nat, w: Writer)
    requires Shape(c, h) && SlotsOk(c, h) && WriterOk(c, h, dead, pid, w) && Changes(w)
    ensures Leaves(c, h, ChangeStep(c, h, pid, w).h)
  {
    forall j: nat | j < |h.slots| ensures SlotLeaves(c, h, ChangeStep(c, h, pid, w).h, j) {
      if w.MarkCas? || w.InvalidateCas? || Touches(c, w) != j {
        TouchesOne(c, h, pid, w, j);
      } else if w.Claiming? {
        ClaimLeaves(c, h, dead, pid, w);
      } else if w.RetireCas? {
        RetireLeaves(c, h, dead, pid, w);
      } else {
        HolderLeaves(c, h, dead, pid, w);
      }
    }
  }

  lemma ChangeInv(c: Config, s: State, t: Thread)
    requires Inv(c, s) && t in s.writers && Changes(s.writers[t])
    ensures Formed(c, s.writers[t])
    ensures var x := ChangeStep(c, s.h, t.pid, s.writers[t]);
            Inv(c, s.(h := x.h, writers := s.writers[t := x.w]))
  {
    ChangeEffect(c, s.h, s.dead, t.pid, s.writers[t]);
    WritersAfter(c, s.h, s.dead, s.writers, t);
    ChangeLeaves(c, s.h, s.dead, t.pid, s.writers[t]);
    LookupsAfter(c, s.h, ChangeStep(c, s.h, t.pid, s.writers[t]).h, s.lookups);
  }

  lemma PrepareInv(c: Config, s: State, t: Thread, pick: nat)
    requires Inv(c, s) && t in s.writers && !Changes(s.writers[t])
    ensures Formed(c, s.writers[t])
    ensures Inv(c, s.(writers := s.writers[t := PrepareStep(c, s.h, s.dead, s.writers[t], pick)]))
  {
    var w := s.writers[t];
    assert WriterOk(c, s.h, s.dead, t.pid, w);
    PrepareOk(c, s.h, s.dead, t.pid, w, pick);
    PreparedHoldsNothing(c, s.h, s.dead, w, pick);
    WritersWith(c, s.h, s.dead, s.writers, t, PrepareStep(c, s.h, s.dead, w, pick));
  }

  lemma WriteInv(c: Config, s: State, t: Thread, pick: nat)
    requires Inv(c, s)
    ensures Inv(c, Wrote(c, s, t, pick))
  {
    if t in s.writers {
      if s.writers[t].Done? {
        WritersWithout(c, s.h, s.dead, s.writers, t);
      } else if Changes(s.writers[t]) {
        ChangeInv(c, s, t);
      } else {
        PrepareInv(c, s, t, pick);
      }
    }
  }

  // ---- Lookups -----------------------------------------------------------------------------------

  /** A scan that ends has nothing ahead. */
  lemma ScanEnds(c: Config, h: Shared, key: seq<nat>, from: nat, best: Best)
    requires Shape(c, h) && ScanSeen(c, h, key, from, |ProbesFrom(c, key, 0)|, Some(best))
    ensures SeenOk(c, h, key, Seen(from, |h.log|), best.sequence)
  {
    var mark := h.marks[Mark(c, c.target(key))];
    assert !Ahead(c, h, key, from, |ProbesFrom(c, key, 0)|);
    if mark < best.sequence && Top(h.log, from, key, mark + 1) {
      TopStable(h.log, h.log, from, key, mark + 1, best.sequence);
    }
  }

  lemma EndStepOk(c: Config, h: Shared, x: Lookup)
    requires Shape(c, h) && LookOk(c, h, x) && x.Scan? && x.i >= |ProbesFrom(c, x.q.key, 0)|
    ensures LookOk(c, h, LookupStep(c, h, x))
  {
    if x.best.Some? {
      assert ScanSeen(c, h, x.q.key, x.from, |ProbesFrom(c, x.q.key, 0)|, x.best);
      ScanEnds(c, h, x.q.key, x.from, x.best.value);
    }
  }

  /** Nothing to wait for at a probe passed over. */
  lemma PassOver(c: Config, h: Shared, key: seq<nat>, from: nat, i: nat, best: Option<Best>)
    requires Shape(c, h) && ScanSeen(c, h, key, from, i, best) && !Awaits(c, h, key, from, i)
    ensures ScanSeen(c, h, key, from, i + 1, best)
  {
    if !Settled(c, h, key, from, BestSequence(best)) {
      var n :| i <= n && Awaits(c, h, key, from, n);
      assert i + 1 <= n;
    }
  }

  lemma LoadStepOk(c: Config, h: Shared, x: Lookup)
    requires Shape(c, h) && LookOk(c, h, x) && x.Scan? && x.i < |ProbesFrom(c, x.q.key, 0)|
    ensures LookOk(c, h, LookupStep(c, h, x))
  {
    var at := ProbesFrom(c, x.q.key, 0)[x.i];
    if !Awaits(c, h, x.q.key, x.from, x.i) { PassOver(c, h, x.q.key, x.from, x.i, x.best); }
  }

  /** A copy that is awaited passes every comparison. */
  lemma AwaitedPasses(c: Config, h: Shared, key: seq<nat>, from: nat, i: nat, n: nat)
    requires Shape(c, h) && SlotsOk(c, h) && from <= |h.log| && Awaits(c, h, key, from, i) && n < 3 + |key|
    ensures CheckPasses(c, key, ProbesFrom(c, key, 0)[i].capacity, h.slots[ProbeSlot(c, key, i)].cells, n)
    ensures h.slots[ProbeSlot(c, key, i)].cells[SEQUENCE] == h.slots[ProbeSlot(c, key, i)].from.value.sequence
  {
    var j := ProbeSlot(c, key, i);
    KeptIsFound(c, h, j, h.slots[j].from.value);
  }

  /** So a probe that fails a comparison was not the one awaited. */
  lemma FailedNotHere(c: Config, h: Shared, key: seq<nat>, from: nat, i: nat, best: Option<Best>, v: Word, n: nat)
    requires Shape(c, h) && SlotsOk(c, h) && CheckSeen(c, h, key, from, i, best, v) && n < 3 + |key|
    requires i < |ProbesFrom(c, key, 0)| && ProbeOk(c, ProbesFrom(c, key, 0)[i])
    requires !CheckPasses(c, key, ProbesFrom(c, key, 0)[i].capacity, h.slots[ProbeSlot(c, key, i)].cells, n)
    ensures ScanSeen(c, h, key, from, i + 1, best)
  {
    if Here(c, h, key, from, i, v) { AwaitedPasses(c, h, key, from, i, n); }
  }

  lemma CheckStepOk(c: Config, h: Shared, x: Lookup)
    requires Shape(c, h) && SlotsOk(c, h) && LookOk(c, h, x) && x.ScanCheck?
    ensures LookOk(c, h, LookupStep(c, h, x))
  {
    var at := ProbesFrom(c, x.q.key, 0)[x.i];
    if !CheckPasses(c, x.q.key, at.capacity, h.slots[at.slot].cells, x.n) {
      FailedNotHere(c, h, x.q.key, x.from, x.i, x.best, x.v, x.n);
    }
  }

  lemma SequenceStepOk(c: Config, h: Shared, x: Lookup)
    requires Shape(c, h) && LookOk(c, h, x) && x.ScanSequence?
    ensures LookOk(c, h, LookupStep(c, h, x))
  {
  }

  lemma ConfirmScanOk(c: Config, h: Shared, x: Lookup)
    requires Shape(c, h) && SlotsOk(c, h) && LookOk(c, h, x) && x.ScanConfirm?
    ensures LookOk(c, h, LookupStep(c, h, x))
  {
    var key, y := x.q.key, LookupStep(c, h, x);
    assert BestSequence(x.best) <= BestSequence(y.best);
    if Here(c, h, key, x.from, x.i, x.v) {
      AwaitedPasses(c, h, key, x.from, x.i, 0);
      TopStable(h.log, h.log, x.from, key, x.sequence, BestSequence(y.best));
    } else if Top(h.log, x.from, key, BestSequence(x.best)) {
      TopStable(h.log, h.log, x.from, key, BestSequence(x.best), BestSequence(y.best));
    }
  }

  lemma FieldsStepOk(c: Config, h: Shared, x: Lookup)
    requires Shape(c, h) && LookOk(c, h, x) && x.Fields?
    ensures LookOk(c, h, LookupStep(c, h, x))
  {
  }

  lemma CopyStepOk(c: Config, h: Shared, x: Lookup)
    requires Shape(c, h) && LookOk(c, h, x) && x.Copy?
    ensures LookOk(c, h, LookupStep(c, h, x))
  {
  }

  /** What was read of a slot whose version did not move is one put's. */
  lemma ReadIsEntry(c: Config, j: nat, sl: Slot, log: seq<Put>, q: Query, b: Best, got: seq<nat>, out: seq<nat>)
    requires Sane(c) && j < |c.rooms| && |sl.cells| == DATA + c.rooms[j] && SlotOk(c, j, sl, log)
    requires b.at == Probe(j, c.rooms[j]) && b.v.Stable? && sl.version == b.v && BestOk(c, sl, q.key, b)
    requires Fits(c, q, b, got) && FieldsSeen(sl.cells, got)
    requires |out| == got[4] + got[5] && BytesSeen(sl.cells, DATA + |q.key|, out)
    ensures sl.from.Some? && sl.from.value in log && Matches(c, q, b.sequence, got, out, sl.from.value)
  {
    EntryMatches(c, j, sl, log, q.key);
    var p := sl.from.value;
    var image := Image(c, p);
    forall i | 0 <= i < 7 ensures got[i] == image[FieldCell(i)] {
      assert got[i] == sl.cells[FieldCell(i)];
    }
    assert got == [image[FieldCell(0)], image[FieldCell(1)], image[FieldCell(2)], image[FieldCell(3)],
                   image[FieldCell(4)], image[FieldCell(5)], image[FieldCell(6)]];
    var rest := p.head + p.body;
    forall i | 0 <= i < |rest| ensures out[i] == rest[i] {
      assert out[i] == sl.cells[DATA + |q.key| + i] == image[DATA + |q.key| + i];
    }
    assert image[SEQUENCE] == sl.cells[SEQUENCE];
  }

  lemma ConfirmStepOk(c: Config, h: Shared, x: Lookup)
    requires Shape(c, h) && SlotsOk(c, h) && LookOk(c, h, x) && x.Confirm?
    ensures LookOk(c, h, LookupStep(c, h, x))
  {
    var j := x.b.at.slot;
    if h.slots[j].version == x.b.v {
      assert SlotOk(c, j, h.slots[j], h.log);
      ReadIsEntry(c, j, h.slots[j], h.log, x.q, x.b, x.got, x.out);
      var k :| 0 <= k < |h.log| && h.log[k] == h.slots[j].from.value;
    }
  }

  lemma MarkStepOk(c: Config, h: Shared, x: Lookup)
    requires Shape(c, h) && LookOk(c, h, x) && x.MarkCheck?
    ensures LookOk(c, h, LookupStep(c, h, x))
  {
    var y := LookupStep(c, h, x);
    if y.Hit? {
      var k :| 0 <= k < |h.log| && Matches(c, x.q, x.b.sequence, x.got, x.out, h.log[k]);
      assert Answers(y, h.log[k]);
    }
  }

  lemma LookStepOk(c: Config, h: Shared, x: Lookup)
    requires Shape(c, h) && SlotsOk(c, h) && LookOk(c, h, x)
    ensures LookOk(c, h, LookupStep(c, h, x))
  {
    match x
    case Fields(_, _, _, _) => FieldsStepOk(c, h, x);
    case Copy(_, _, _, _, _) => CopyStepOk(c, h, x);
    case Confirm(_, _, _, _, _) => ConfirmStepOk(c, h, x);
    case MarkCheck(_, _, _, _, _) => MarkStepOk(c, h, x);
    case Miss(_) =>
    case Hit(_, _, _, _, _, _, _, _) =>
    case Scan(q, _, i, _) =>
      if i < |ProbesFrom(c, q.key, 0)| { LoadStepOk(c, h, x); } else { EndStepOk(c, h, x); }
    case ScanCheck(_, _, _, _, _, _) => CheckStepOk(c, h, x);
    case ScanSequence(_, _, _, _, _) => SequenceStepOk(c, h, x);
    case ScanConfirm(_, _, _, _, _, _) => ConfirmScanOk(c, h, x);
  }

  // ---- Selection ------------------------------------------------------------------------------------

  /** An uninterrupted selection finds the newest of the stable copies. */
  lemma {:induction false} SelectNewest(c: Config, h: Shared, key: seq<nat>, i: nat, best: Option<Best>)
    requires Shape(c, h)
    requires best.Some? ==> ProbeOk(c, best.value.at) && BestOk(c, h.slots[best.value.at.slot], key, best.value)
    ensures var r := SelectNow(c, h, key, i, best);
            && BestSequence(best) <= BestSequence(r)
            && (r.Some? ==> ProbeOk(c, r.value.at) && BestOk(c, h.slots[r.value.at.slot], key, r.value))
            && (forall n :: i <= n < |ProbesFrom(c, key, 0)| ==>
                  var at := ProbesFrom(c, key, 0)[n];
                  ProbeOk(c, at) && HoldsNow(c, h, key, at) ==> h.slots[at.slot].cells[SEQUENCE] <= BestSequence(r))
    decreases |ProbesFrom(c, key, 0)| - i
  {
    if i < |ProbesFrom(c, key, 0)| {
      var at := ProbesFrom(c, key, 0)[i];
      if ProbeOk(c, at) && HoldsNow(c, h, key, at) && h.slots[at.slot].cells[SEQUENCE] > BestSequence(best) {
        SelectNewest(c, h, key, i + 1, Some(Best(at, h.slots[at.slot].version, h.slots[at.slot].cells[SEQUENCE])));
      } else {
        SelectNewest(c, h, key, i + 1, best);
      }
    }
  }

  /** Of the copies of a key published, one is the newest. */
  lemma NewestOf(log: seq<Put>, k: nat) returns (m: nat)
    requires k < |log|
    ensures m < |log| && log[m].key == log[k].key && log[k].sequence <= log[m].sequence
    ensures forall i :: 0 <= i < |log| && log[i].key == log[k].key ==> log[i].sequence <= log[m].sequence
  {
    m := k;
    for i := 0 to |log|
      invariant m < |log| && log[m].key == log[k].key && log[k].sequence <= log[m].sequence
      invariant forall l :: 0 <= l < i && log[l].key == log[k].key ==> log[l].sequence <= log[m].sequence
    {
      if log[i].key == log[k].key && log[i].sequence > log[m].sequence { m := i; }
    }
  }

  /** A kept entry is what `holds` would find. */
  lemma KeptIsFound(c: Config, h: Shared, j: nat, p: Put)
    requires Shape(c, h) && SlotsOk(c, h) && j < |h.slots| && h.slots[j].version.Stable? && h.slots[j].from == Some(p)
    ensures Probe(j, c.rooms[j]) in ProbesFrom(c, p.key, 0)
    ensures ProbeOk(c, Probe(j, c.rooms[j])) && HoldsNow(c, h, p.key, Probe(j, c.rooms[j]))
    ensures h.slots[j].cells[SEQUENCE] == p.sequence
  {
    assert SlotOk(c, j, h.slots[j], h.log);
    var image := Image(c, p);
    var cells := h.slots[j].cells;
    assert image[SEQUENCE] == cells[SEQUENCE];
    forall n | 0 <= n < 3 + |p.key| ensures cells[CheckCell(n)] == CheckValue(c, p.key, n) {
      assert image[CheckCell(n)] == cells[CheckCell(n)];
    }
  }

  /** No copy older than the newest published passes both the selection and the mark. */
  lemma SelectedIsNewest(c: Config, h: Shared, key: seq<nat>, b: Best)
    requires Shape(c, h) && SlotsOk(c, h) && AllCovered(c, h) && SelectNow(c, h, key, 0, None) == Some(b)
    ensures SeenOk(c, h, key, Seen(|h.log|, |h.log|), b.sequence)
  {
    if h.marks[Mark(c, c.target(key))] < b.sequence {
      forall k | 0 <= k < |h.log| && h.log[k].key == key ensures h.log[k].sequence <= b.sequence {
        var m := NewestOf(h.log, k);
        var p := h.log[m];
        assert Covered(c, h, p);
        assert !Superseded(h.log, p);
        if Kept(h.slots, p) {
          var j :| 0 <= j < |h.slots| && h.slots[j].version.Stable? && h.slots[j].from == Some(p);
          KeptIsFound(c, h, j, p);
          SelectNewest(c, h, key, 0, None);
          var n :| 0 <= n < |ProbesFrom(c, key, 0)| && ProbesFrom(c, key, 0)[n] == Probe(j, c.rooms[j]);
        }
      }
    }
  }

  /** When a selection begins the newest copy is ahead of it, or the mark stands for it. */
  lemma SelectionStarts(c: Config, h: Shared, key: seq<nat>)
    requires Shape(c, h) && SlotsOk(c, h) && AllCovered(c, h)
    ensures ScanSeen(c, h, key, |h.log|, 0, None)
  {
    if k: nat :| k < |h.log| && h.log[k].key == key {
      var m := NewestOf(h.log, k);
      var p := h.log[m];
      assert Top(h.log, |h.log|, key, p.sequence);
      assert Covered(c, h, p);
      assert !Superseded(h.log, p);
      if Kept(h.slots, p) {
        var j :| 0 <= j < |h.slots| && h.slots[j].version.Stable? && h.slots[j].from == Some(p);
        KeptIsFound(c, h, j, p);
        var n :| 0 <= n < |ProbesFrom(c, key, 0)| && ProbesFrom(c, key, 0)[n] == Probe(j, c.rooms[j]);
        assert Awaits(c, h, key, |h.log|, n);
      } else {
        TopStable(h.log, h.log, |h.log|, key, p.sequence, h.marks[Mark(c, c.target(key))] + 1);
      }
    } else {
      assert Top(h.log, |h.log|, key, 0);
    }
  }

  lemma LookupsWith(c: Config, h: Shared, lookups: map<Thread, Lookup>, t: Thread, x: Lookup)
    requires Shape(c, h) && LookupsOk(c, h, lookups) && LookOk(c, h, x)
    ensures LookupsOk(c, h, lookups[t := x])
  {
  }

  lemma SelectInv(c: Config, s: State, t: Thread)
    requires Inv(c, s)
    ensures Inv(c, Selected(c, s, t))
  {
    if t in s.lookups && s.lookups[t].Scan? {
      var q := s.lookups[t].q;
      var best := SelectNow(c, s.h, q.key, 0, None);
      SelectNewest(c, s.h, q.key, 0, None);
      if best.Some? { SelectedIsNewest(c, s.h, q.key, best.value); }
    }
  }

  // ---- Runs ---------------------------------------------------------------------------------------------

  lemma DieInv(c: Config, s: State, pid: nat)
    requires Inv(c, s)
    ensures Inv(c, Died(s, pid))
  {
    var s' := Died(s, pid);
    forall t | t in s'.writers ensures WriterOk(c, s.h, s'.dead, t.pid, s'.writers[t]) {
      ObservedStable(c, s.h, s.h, s.dead, s'.dead, s.writers[t]);
    }
  }

  lemma PutInv(c: Config, s: State, t: Thread, p: Put)
    requires Inv(c, s)
    ensures Inv(c, PutStarted(c, s, t, p))
  {
    var k := FirstFit(c, Needed(p), 0);
    if PutStarted(c, s, t, p) != s { WritersWith(c, s.h, s.dead, s.writers, t, CheckMark(p, k)); }
  }

  lemma InvalidateInv(c: Config, s: State, t: Thread, target: nat, to: nat)
    requires Inv(c, s)
    ensures Inv(c, InvalidateStarted(s, t, target, to))
  {
    if t.pid !in s.dead && t !in s.writers {
      WritersWith(c, s.h, s.dead, s.writers, t, InvalidateLoad(target, to));
    }
  }

  lemma GiveUpInv(c: Config, s: State, t: Thread)
    requires Inv(c, s)
    ensures Inv(c, GaveUp(s, t))
  {
    if t in s.writers {
      assert WriterOk(c, s.h, s.dead, t.pid, s.writers[t]);
      WritersWith(c, s.h, s.dead, s.writers, t, Done);
    }
  }

  lemma GetInv(c: Config, s: State, t: Thread, q: Query)
    requires Inv(c, s)
    ensures Inv(c, GetStarted(s, t, q))
  {
    SelectionStarts(c, s.h, q.key);
    LookupsWith(c, s.h, s.lookups, t, Scan(q, |s.h.log|, 0, None));
  }

  lemma LookInv(c: Config, s: State, t: Thread)
    requires Inv(c, s)
    ensures Inv(c, Looked(c, s, t))
  {
    if t in s.lookups {
      LookStepOk(c, s.h, s.lookups[t]);
      LookupsWith(c, s.h, s.lookups, t, LookupStep(c, s.h, s.lookups[t]));
    }
  }

  lemma ApplyIs(c: Config, s: State, a: Action)
    requires Shape(c, s.h)
    ensures a.StartPut? ==> Apply(c, s, a) == PutStarted(c, s, a.t, a.p)
    ensures a.StartInvalidate? ==> Apply(c, s, a) == InvalidateStarted(s, a.t, a.target, a.to)
    ensures a.Write? ==> Apply(c, s, a) == Wrote(c, s, a.t, a.pick)
    ensures a.GiveUp? ==> Apply(c, s, a) == GaveUp(s, a.t)
    ensures a.StartGet? ==> Apply(c, s, a) == GetStarted(s, a.t, a.q)
    ensures a.Select? ==> Apply(c, s, a) == Selected(c, s, a.t)
    ensures a.Look? ==> Apply(c, s, a) == Looked(c, s, a.t)
    ensures a.Die? ==> Apply(c, s, a) == Died(s, a.pid)
  {
  }

  lemma StepInv(c: Config, s: State, a: Action)
    requires Inv(c, s)
    ensures Inv(c, Apply(c, s, a))
  {
    ApplyIs(c, s, a);
    match a
    case StartPut(t, p) => PutInv(c, s, t, p);
    case StartInvalidate(t, target, to) => InvalidateInv(c, s, t, target, to);
    case Write(t, pick) => WriteInv(c, s, t, pick);
    case GiveUp(t) => GiveUpInv(c, s, t);
    case StartGet(t, q) => GetInv(c, s, t, q);
    case Select(t) => SelectInv(c, s, t);
    case Look(t) => LookInv(c, s, t);
    case Die(pid) => DieInv(c, s, pid);
  }

  lemma {:induction false} ReachInv(c: Config, actions: seq<Action>)
    requires Sane(c)
    ensures Inv(c, Reach(c, actions))
  {
    if actions == [] {
      InitInv(c);
    } else {
      ReachInv(c, actions[..|actions| - 1]);
      StepInv(c, Reach(c, actions[..|actions| - 1]), actions[|actions| - 1]);
    }
  }

  /** However its reads fall between writers' stores, and whichever writers die, a
      lookup that hits returns the key, status, head, body and times of one
      completed put of that key. */
  lemma HitIsOnePut(c: Config, actions: seq<Action>, t: Thread)
    requires Sane(c)
    requires var s := Reach(c, actions); t in s.lookups && s.lookups[t].Hit?
    ensures var s := Reach(c, actions); exists k :: 0 <= k < |s.h.log| && Answers(s.lookups[t], s.h.log[k])
  {
    ReachInv(c, actions);
    assert LookOk(c, Reach(c, actions).h, Reach(c, actions).lookups[t]);
  }

  /** Every lookup, however its reads fall: one that hits returns a copy as new as any of
      its key published when it began, unless a put newer than all of those was published
      while it was still selecting. */
  lemma OlderOnlyIfOvertaken(c: Config, actions: seq<Action>, t: Thread, k: nat)
    requires Sane(c)
    requires var s := Reach(c, actions);
             t in s.lookups && s.lookups[t].Hit? && k < s.lookups[t].seen.from
    ensures var s := Reach(c, actions); var x := s.lookups[t];
            && x.seen.from <= x.seen.upto <= |s.h.log|
            && (s.h.log[k].key == x.q.key && s.h.log[k].sequence > x.sequence ==>
                  exists m :: 0 <= m < x.seen.upto && Overtakes(s.h.log, x.seen.from, x.q.key, m))
  {
    ReachInv(c, actions);
    assert LookOk(c, Reach(c, actions).h, Reach(c, actions).lookups[t]);
  }

  /** So a lookup during whose selection nothing was published, and in particular one that
      selects in one step, returns a copy as new as any published before, whatever was
      evicted, replaced or retired. */
  lemma NeverOlder(c: Config, actions: seq<Action>, t: Thread, k: nat)
    requires Sane(c)
    requires var s := Reach(c, actions);
             t in s.lookups && s.lookups[t].Hit? && s.lookups[t].seen.from == s.lookups[t].seen.upto
             && k < s.lookups[t].seen.upto
    ensures var s := Reach(c, actions); var x := s.lookups[t];
            x.seen.upto <= |s.h.log| && (s.h.log[k].key == x.q.key ==> s.h.log[k].sequence <= x.sequence)
  {
    OlderOnlyIfOvertaken(c, actions, t, k);
  }

  /** The same of the table itself: at every moment the copy a selection would
      pick is the newest ever published, or its mark refuses it. */
  lemma PickIsNewestOrRefused(c: Config, actions: seq<Action>, key: seq<nat>, k: nat)
    requires Sane(c)
    requires var h := Reach(c, actions).h; k < |h.log| && h.log[k].key == key
    requires SelectNow(c, Reach(c, actions).h, key, 0, None).Some?
    ensures var h := Reach(c, actions).h; var b := SelectNow(c, h, key, 0, None).value;
            h.log[k].sequence <= b.sequence || b.sequence <= h.marks[Mark(c, c.target(key))]
  {
    ReachInv(c, actions);
    var h := Reach(c, actions).h;
    SelectedIsNewest(c, h, key, SelectNow(c, h, key, 0, None).value);
  }

  /** Two live writers never hold one slot. */
  lemma OneHolder(c: Config, actions: seq<Action>, t: Thread, u: Thread)
    requires Sane(c)
    requires var s := Reach(c, actions);
             t in s.writers && u in s.writers && t != u && Holding(s.writers[t]) && Holding(s.writers[u])
    ensures var s := Reach(c, actions);
            && Formed(c, s.writers[t]) && Formed(c, s.writers[u])
            && HeldSlot(c, s.writers[t]) != HeldSlot(c, s.writers[u])
  {
    ReachInv(c, actions);
    var s := Reach(c, actions);
    assert WriterOk(c, s.h, s.dead, t.pid, s.writers[t]);
    assert WriterOk(c, s.h, s.dead, u.pid, s.writers[u]);
  }

  /** The bytes a lookup copies lie in the slot it picked, even when the lengths
      it read are torn. */
  lemma CopyStaysInSlot(c: Config, actions: seq<Action>, t: Thread)
    requires Sane(c)
    requires var s := Reach(c, actions); t in s.lookups && s.lookups[t].Copy?
    ensures var s := Reach(c, actions); var x := s.lookups[t];
            && x.b.at.slot < |s.h.slots| && |x.got| == 7
            && DATA + |x.q.key| + x.got[4] + x.got[5] <= |s.h.slots[x.b.at.slot].cells|
            && x.got[4] + x.got[5] <= x.q.room
  {
    ReachInv(c, actions);
    assert LookOk(c, Reach(c, actions).h, Reach(c, actions).lookups[t]);
  }
}
