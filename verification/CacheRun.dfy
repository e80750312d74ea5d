/** What one thread's steps come to, when it runs for a while on its own. */
module CacheRun {
  import opened Wrappers
  import opened Cache
  import opened Paths

  // ---- Runs of actions ---------------------------------------------------------

  ghost function Steps(c: Config, s: State, actions: seq<Action>): (s': State)
    requires Shape(c, s.h)
    ensures Shape(c, s'.h)
    decreases |actions|
  {
    if actions == [] then s else Steps(c, Apply(c, s, actions[0]), actions[1..])
  }

  lemma {:induction false} StepsAppend(c: Config, s: State, a: seq<Action>, b: seq<Action>)
    requires Shape(c, s.h)
    ensures Steps(c, s, a + b) == Steps(c, Steps(c, s, a), b)
    decreases |a|
  {
    if a == [] {
      assert a + b == b;
    } else {
      assert (a + b)[0] == a[0] && (a + b)[1..] == a[1..] + b;
      StepsAppend(c, Apply(c, s, a[0]), a[1..], b);
    }
  }

  lemma {:induction false} ReachIsSteps(c: Config, actions: seq<Action>)
    requires Sane(c)
    ensures Shape(c, Init(c).h) && Reach(c, actions) == Steps(c, Init(c), actions)
    decreases |actions|
  {
    if actions != [] {
      var front, last := actions[..|actions| - 1], actions[|actions| - 1];
      ReachIsSteps(c, front);
      StepsAppend(c, Init(c), front, [last]);
      assert actions == front + [last];
      assert Steps(c, Steps(c, Init(c), front), [last]) == Apply(c, Steps(c, Init(c), front), last);
    }
  }

  /** A run, and more of it. */
  lemma ReachMore(c: Config, a: seq<Action>, b: seq<Action>)
    requires Sane(c)
    ensures Reach(c, a + b) == Steps(c, Reach(c, a), b)
  {
    ReachIsSteps(c, a);
    ReachIsSteps(c, a + b);
    StepsAppend(c, Init(c), a, b);
  }

  lemma StepsOne(c: Config, s: State, a: Action, rest: seq<Action>)
    requires Shape(c, s.h)
    ensures Steps(c, s, [a] + rest) == Steps(c, Apply(c, s, a), rest)
  {
    assert ([a] + rest)[0] == a && ([a] + rest)[1..] == rest;
  }

  function Writes(t: Thread, pick: nat, n: nat): seq<Action> { seq(n, _ => Write(t, pick)) }
  function Looks(t: Thread, n: nat): seq<Action> { seq(n, _ => Look(t)) }

  // ---- A writer alone ----------------------------------------------------------

  /** A step of one writer; none at its end. */
  ghost function Work(c: Config, dead: set<nat>, pid: nat, pick: nat, x: Next): Next {
    if !Shape(c, x.h) || x.w.Done? || !Formed(c, x.w) then x
    else if Changes(x.w) then ChangeStep(c, x.h, pid, x.w)
    else x.(w := PrepareStep(c, x.h, dead, x.w, pick))
  }

  ghost function Worker(c: Config, dead: set<nat>, pid: nat, pick: nat): Next -> Next {
    x => Work(c, dead, pid, pick, x)
  }

  /** What a step of a thread that has not ended does to the whole state. */
  lemma WriteWorks(c: Config, s: State, t: Thread, pick: nat)
    requires Shape(c, s.h) && t in s.writers && !s.writers[t].Done? && !Invalidating(s.writers[t])
    ensures var y := Worker(c, s.dead, t.pid, pick)(Next(s.h, s.writers[t]));
            Apply(c, s, Write(t, pick)) == s.(h := y.h, writers := s.writers[t := y.w]) && !Invalidating(y.w)
  {
    assert s.writers[t := s.writers[t]] == s.writers;
  }

  lemma {:induction false} DoneStays(c: Config, dead: set<nat>, pid: nat, pick: nat, x: Next, y: Next, n: nat)
    requires x.w.Done? && Leads(Worker(c, dead, pid, pick), x, y, n)
    ensures y == x
    decreases n
  {
    if n == 0 {
      LeadsNot(Worker(c, dead, pid, pick), x, y);
    } else {
      LeadsFirst(Worker(c, dead, pid, pick), x, y, n);
      DoneStays(c, dead, pid, pick, x, y, n - 1);
    }
  }

  lemma {:induction false} WritesWork(c: Config, s: State, t: Thread, pick: nat, y: Next, n: nat)
    requires Shape(c, s.h) && t in s.writers && !y.w.Done? && !Invalidating(s.writers[t])
    requires Leads(Worker(c, s.dead, t.pid, pick), Next(s.h, s.writers[t]), y, n)
    ensures Steps(c, s, Writes(t, pick, n)) == s.(h := y.h, writers := s.writers[t := y.w])
    decreases n
  {
    var step, x := Worker(c, s.dead, t.pid, pick), Next(s.h, s.writers[t]);
    if n == 0 {
      LeadsNot(step, x, y);
      assert s.writers[t := s.writers[t]] == s.writers;
    } else {
      if x.w.Done? { DoneStays(c, s.dead, t.pid, pick, x, y, n); }
      WriteWorks(c, s, t, pick);
      LeadsFirst(step, x, y, n);
      var s' := Apply(c, s, Write(t, pick));
      assert Writes(t, pick, n) == [Write(t, pick)] + Writes(t, pick, n - 1);
      StepsOne(c, s, Write(t, pick), Writes(t, pick, n - 1));
      WritesWork(c, s', t, pick, y, n - 1);
      assert s'.writers[t := y.w] == s.writers[t := y.w];
    }
  }

  lemma StartedWorks(c: Config, s: State, t: Thread, p: Put, k: nat, pick: nat, n: nat, y: Next)
    requires Shape(c, s.h) && t.pid !in s.dead && t !in s.writers && !y.w.Done?
    requires Storable(c, p) && FirstFit(c, Needed(p), 0) == k < |c.classes|
    requires Leads(Worker(c, s.dead, t.pid, pick), Next(s.h, CheckMark(p, k)), y, n)
    ensures Steps(c, s, [StartPut(t, p)] + Writes(t, pick, n)) == s.(h := y.h, writers := s.writers[t := y.w])
  {
    var s' := s.(writers := s.writers[t := CheckMark(p, k)]);
    StepsOne(c, s, StartPut(t, p), Writes(t, pick, n));
    WritesWork(c, s', t, pick, y, n);
    assert s'.writers[t := y.w] == s.writers[t := y.w];
  }

  // ---- A lookup alone ----------------------------------------------------------

  ghost function Looker(c: Config, h: Shared): Lookup -> Lookup {
    x => if Shape(c, h) && FormedLookup(c, x) then LookupStep(c, h, x) else x
  }

  lemma LookLooks(c: Config, s: State, t: Thread)
    requires Shape(c, s.h) && t in s.lookups
    ensures Apply(c, s, Look(t)) == s.(lookups := s.lookups[t := Looker(c, s.h)(s.lookups[t])])
  {
    assert s.lookups[t := s.lookups[t]] == s.lookups;
  }

  lemma {:induction false} LooksLook(c: Config, s: State, t: Thread, y: Lookup, n: nat)
    requires Shape(c, s.h) && t in s.lookups && Leads(Looker(c, s.h), s.lookups[t], y, n)
    ensures Steps(c, s, Looks(t, n)) == s.(lookups := s.lookups[t := y])
    decreases n
  {
    if n == 0 {
      LeadsNot(Looker(c, s.h), s.lookups[t], y);
      assert s.lookups[t := s.lookups[t]] == s.lookups;
    } else {
      LookLooks(c, s, t);
      LeadsFirst(Looker(c, s.h), s.lookups[t], y, n);
      var s' := Apply(c, s, Look(t));
      assert Looks(t, n) == [Look(t)] + Looks(t, n - 1);
      StepsOne(c, s, Look(t), Looks(t, n - 1));
      LooksLook(c, s', t, y, n - 1);
      assert s'.lookups[t := y] == s.lookups[t := y];
    }
  }

  lemma StartedLooks(c: Config, s: State, t: Thread, q: Query, y: Lookup, n: nat)
    requires Shape(c, s.h) && t.pid !in s.dead && 1 <= |q.key| <= MAX_KEY
    requires Leads(Looker(c, s.h), Scan(q, |s.h.log|, 0, None), y, n)
    ensures Steps(c, s, [StartGet(t, q)] + Looks(t, n)) == s.(lookups := s.lookups[t := y])
  {
    var s' := s.(lookups := s.lookups[t := Scan(q, |s.h.log|, 0, None)]);
    StepsOne(c, s, StartGet(t, q), Looks(t, n));
    GetStarts(c, s, t, q);
    LooksLook(c, s', t, y, n);
    assert s'.lookups[t := y] == s.lookups[t := y];
  }

  lemma GetStarts(c: Config, s: State, t: Thread, q: Query)
    requires Shape(c, s.h) && t.pid !in s.dead && 1 <= |q.key| <= MAX_KEY
    ensures Apply(c, s, StartGet(t, q)) == s.(lookups := s.lookups[t := Scan(q, |s.h.log|, 0, None)])
  {
  }

  // ---- A put into an empty slot ------------------------------------------------

  function Refilled(h: Shared, j: nat, cells: seq<nat>): Shared
    requires j < |h.slots|
  {
    h.(slots := h.slots[j := h.slots[j].(cells := cells)])
  }

  lemma Overwritten<T>(cells: seq<T>, image: seq<T>, i: nat)
    requires i < |image| == |cells| && cells[..i] == image[..i]
    ensures cells[i := image[i]][..i + 1] == image[..i + 1]
    ensures i + 1 == |image| ==> cells[i := image[i]] == image
  {
    assert image[..i + 1] == image[..i] + [image[i]];
    assert i + 1 == |image| ==> image == image[..i + 1];
  }

  ghost predicate Fillable(c: Config, h: Shared, p: Put, at: Probe, cells: seq<nat>, image: seq<nat>) {
    && Shape(c, h) && PutFormed(c, p, at) && image == Image(c, p)
    && |cells| == |image| == DATA + at.capacity
  }

  lemma FillStep(c: Config, dead: set<nat>, pid: nat, pick: nat, h: Shared, p: Put, at: Probe, i: nat,
                 cells: seq<nat>, image: seq<nat>)
    requires Fillable(c, h, p, at, cells, image) && i < |image|
    ensures Worker(c, dead, pid, pick)(Next(Refilled(h, at.slot, cells), Writing(p, at, 0, [], i)))
            == Next(Refilled(h, at.slot, cells[i := image[i]]),
                    if i + 1 < |image| then Writing(p, at, 0, [], i + 1) else Publishing(p, at, 0, []))
  {
    var g, x := Refilled(h, at.slot, cells), cells[i := image[i]];
    assert Shape(c, g);
    assert g.slots[at.slot := g.slots[at.slot].(cells := x)] == h.slots[at.slot := h.slots[at.slot].(cells := x)];
  }

  lemma FillLast(c: Config, dead: set<nat>, pid: nat, pick: nat, h: Shared, p: Put, at: Probe, i: nat,
                 cells: seq<nat>, image: seq<nat>)
    requires Fillable(c, h, p, at, cells, image) && i + 1 == |image| && cells[..i] == image[..i]
    ensures Leads(Worker(c, dead, pid, pick), Next(Refilled(h, at.slot, cells), Writing(p, at, 0, [], i)),
                  Next(Refilled(h, at.slot, image), Publishing(p, at, 0, [])), 1)
  {
    FillStep(c, dead, pid, pick, h, p, at, i, cells, image);
    Overwritten(cells, image, i);
    LeadsOnce(Worker(c, dead, pid, pick), Next(Refilled(h, at.slot, cells), Writing(p, at, 0, [], i)),
              Next(Refilled(h, at.slot, image), Publishing(p, at, 0, [])));
  }

  lemma {:induction false} FillRun(c: Config, dead: set<nat>, pid: nat, pick: nat, h: Shared, p: Put, at: Probe, i: nat,
                                   cells: seq<nat>, image: seq<nat>)
    requires Fillable(c, h, p, at, cells, image) && i < |image| && cells[..i] == image[..i]
    ensures Leads(Worker(c, dead, pid, pick), Next(Refilled(h, at.slot, cells), Writing(p, at, 0, [], i)),
                  Next(Refilled(h, at.slot, image), Publishing(p, at, 0, [])), |image| - i)
    decreases |image| - i
  {
    if i + 1 == |image| {
      FillLast(c, dead, pid, pick, h, p, at, i, cells, image);
    } else {
      var next := cells[i := image[i]];
      FillStep(c, dead, pid, pick, h, p, at, i, cells, image);
      Overwritten(cells, image, i);
      FillRun(c, dead, pid, pick, h, p, at, i + 1, next, image);
      LeadsOn(Worker(c, dead, pid, pick), Next(Refilled(h, at.slot, cells), Writing(p, at, 0, [], i)),
              Next(Refilled(h, at.slot, next), Writing(p, at, 0, [], i + 1)),
              Next(Refilled(h, at.slot, image), Publishing(p, at, 0, [])), |image| - i - 1);
    }
  }

  /** A put whose slot `at` was never used. */
  ghost predicate Fresh(c: Config, h: Shared, pick: nat, p: Put, k: nat, at: Probe) {
    && Shape(c, h) && Formed(c, CheckMark(p, k)) && h.marks[Mark(c, c.target(p.key))] < p.sequence
    && pick < PROBES && 0 < c.classes[k].count && at == ClassProbe(c, p.key, k, pick)
    && PutFormed(c, p, at) && at.capacity == Needed(p)
    && h.slots[at.slot].version == Stable(0) && h.slots[at.slot].cells[GENERATION] != c.generation
  }

  /** It is four steps from writing. */
  lemma ClaimRun(c: Config, h: Shared, dead: set<nat>, pid: nat, pick: nat, p: Put, k: nat, at: Probe)
    requires Fresh(c, h, pick, p, k, at)
    ensures Leads(Worker(c, dead, pid, pick), Next(h, CheckMark(p, k)),
                  Next(Versioned(h, at.slot, Claimed(0, pid), None), Writing(p, at, 0, [], 0)), 4)
  {
    var step, v := Worker(c, dead, pid, pick), Stable(0);
    var z := Next(Versioned(h, at.slot, Claimed(0, pid), None), Writing(p, at, 0, [], 0));
    LeadsOnce(step, Next(h, Claiming(p, at, v, [])), z);
    LeadsOn(step, Next(h, EvictGeneration(p, at, v)), Next(h, Claiming(p, at, v, [])), z, 1);
    LeadsOn(step, Next(h, Choose(p, k)), Next(h, EvictGeneration(p, at, v)), z, 2);
    LeadsOn(step, Next(h, CheckMark(p, k)), Next(h, Choose(p, k)), z, 3);
  }

  lemma FillWhole(c: Config, h: Shared, dead: set<nat>, pid: nat, pick: nat, p: Put, at: Probe, n: nat)
    requires Shape(c, h) && PutFormed(c, p, at) && at.capacity == Needed(p) && n == |Image(c, p)|
    ensures Leads(Worker(c, dead, pid, pick),
                  Next(Versioned(h, at.slot, Claimed(0, pid), None), Writing(p, at, 0, [], 0)),
                  Next(h.(slots := h.slots[at.slot := Slot(Claimed(0, pid), Image(c, p), None)]),
                       Publishing(p, at, 0, [])), n)
  {
    var g := Versioned(h, at.slot, Claimed(0, pid), None);
    FillRun(c, dead, pid, pick, g, p, at, 0, g.slots[at.slot].cells, Image(c, p));
    assert Refilled(g, at.slot, g.slots[at.slot].cells).slots == g.slots;
    assert Refilled(g, at.slot, Image(c, p)).slots == h.slots[at.slot := Slot(Claimed(0, pid), Image(c, p), None)];
  }

  /** And then stands before publication. */
  lemma PutRun(c: Config, h: Shared, dead: set<nat>, pid: nat, pick: nat, p: Put, k: nat, at: Probe, n: nat)
    requires Fresh(c, h, pick, p, k, at) && n == |Image(c, p)|
    ensures Leads(Worker(c, dead, pid, pick), Next(h, CheckMark(p, k)),
                  Next(h.(slots := h.slots[at.slot := Slot(Claimed(0, pid), Image(c, p), None)]),
                       Publishing(p, at, 0, [])), 4 + n)
  {
    ClaimRun(c, h, dead, pid, pick, p, k, at);
    FillWhole(c, h, dead, pid, pick, p, at, n);
    LeadsThen(Worker(c, dead, pid, pick), Next(h, CheckMark(p, k)),
              Next(Versioned(h, at.slot, Claimed(0, pid), None), Writing(p, at, 0, [], 0)),
              Next(h.(slots := h.slots[at.slot := Slot(Claimed(0, pid), Image(c, p), None)]), Publishing(p, at, 0, [])),
              4, n);
  }

  /** A put that still holds its slot publishes. */
  lemma Publishes(c: Config, h: Shared, dead: set<nat>, pid: nat, pick: nat, p: Put, at: Probe)
    requires Shape(c, h) && PutFormed(c, p, at) && h.slots[at.slot].version == Claimed(0, pid)
    ensures Leads(Worker(c, dead, pid, pick), Next(h, Publishing(p, at, 0, [])),
                  Next(Versioned(h, at.slot, Stable(1), Some(p)).(log := h.log + [p]),
                       RetireLoad(at.slot, [Task(p.key, p.sequence)], 0)), 1)
  {
    assert [Task(p.key, p.sequence)] + [] == [Task(p.key, p.sequence)];
    LeadsOnce(Worker(c, dead, pid, pick), Next(h, Publishing(p, at, 0, [])),
              Next(Versioned(h, at.slot, Stable(1), Some(p)).(log := h.log + [p]),
                   RetireLoad(at.slot, [Task(p.key, p.sequence)], 0)));
  }

  /** From its start to its publication. */
  lemma PutPublishes(c: Config, h: Shared, dead: set<nat>, pid: nat, pick: nat, p: Put, k: nat, at: Probe, n: nat)
    requires Fresh(c, h, pick, p, k, at) && n == |Image(c, p)|
    ensures Leads(Worker(c, dead, pid, pick), Next(h, CheckMark(p, k)),
                  Next(h.(slots := h.slots[at.slot := Slot(Stable(1), Image(c, p), Some(p))], log := h.log + [p]),
                       RetireLoad(at.slot, [Task(p.key, p.sequence)], 0)), 5 + n)
  {
    PutRun(c, h, dead, pid, pick, p, k, at, n);
    var g := h.(slots := h.slots[at.slot := Slot(Claimed(0, pid), Image(c, p), None)]);
    Publishes(c, g, dead, pid, pick, p, at);
    var filled := Slot(Stable(1), Image(c, p), Some(p));
    assert g.slots[at.slot := filled] == h.slots[at.slot := filled];
    LeadsThen(Worker(c, dead, pid, pick), Next(h, CheckMark(p, k)), Next(g, Publishing(p, at, 0, [])),
              Next(h.(slots := h.slots[at.slot := filled], log := h.log + [p]),
                   RetireLoad(at.slot, [Task(p.key, p.sequence)], 0)), 4 + n, 1);
  }

  // ---- A lookup ----------------------------------------------------------------

  /** A slot that never held anything of this hash. */
  ghost predicate Blank(c: Config, h: Shared, key: seq<nat>, i: nat)
    requires Shape(c, h)
  {
    && i < |ProbesFrom(c, key, 0)| && ProbeOk(c, ProbesFrom(c, key, 0)[i])
    && var s := h.slots[ProbesFrom(c, key, 0)[i].slot];
       s.version.Stable? && s.cells[HASH] != c.hash(key)
  }

  ghost predicate Holding(c: Config, h: Shared, p: Put, i: nat)
    requires Shape(c, h)
  {
    && i < |ProbesFrom(c, p.key, 0)| && ProbeOk(c, ProbesFrom(c, p.key, 0)[i])
    && ProbesFrom(c, p.key, 0)[i].capacity == Needed(p)
    && var s := h.slots[ProbesFrom(c, p.key, 0)[i].slot];
       s.version.Stable? && s.cells == Image(c, p)
  }

  lemma BlankPassed(c: Config, h: Shared, q: Query, from: nat, i: nat, best: Option<Best>)
    requires Shape(c, h) && Blank(c, h, q.key, i)
    ensures Leads(Looker(c, h), Scan(q, from, i, best), Scan(q, from, i + 1, best), 2)
  {
    var x := ScanCheck(q, from, i, best, h.slots[ProbesFrom(c, q.key, 0)[i].slot].version, 0);
    LeadsOnce(Looker(c, h), x, Scan(q, from, i + 1, best));
    LeadsOn(Looker(c, h), Scan(q, from, i, best), x, Scan(q, from, i + 1, best), 1);
  }

  lemma {:induction false} BlanksPassed(c: Config, h: Shared, q: Query, from: nat, i: nat, m: nat, best: Option<Best>)
    requires Shape(c, h) && i <= m && forall j: nat :: i <= j < m ==> Blank(c, h, q.key, j)
    ensures Leads(Looker(c, h), Scan(q, from, i, best), Scan(q, from, m, best), 2 * (m - i))
    decreases m - i
  {
    if i == m {
      LeadsNowhere(Looker(c, h), Scan(q, from, m, best));
    } else {
      BlankPassed(c, h, q, from, i, best);
      BlanksPassed(c, h, q, from, i + 1, m, best);
      LeadsThen(Looker(c, h), Scan(q, from, i, best), Scan(q, from, i + 1, best), Scan(q, from, m, best),
                2, 2 * (m - i - 1));
    }
  }

  /** The image of a put passes every comparison with its key. */
  lemma ImagePasses(c: Config, p: Put, n: nat)
    requires n < 3 + |p.key|
    ensures CheckPasses(c, p.key, Needed(p), Image(c, p), n)
  {
    if n >= 3 { assert Image(c, p)[CheckCell(n)] == p.key[n - 3]; }
  }

  lemma {:induction false} CheckRun(c: Config, h: Shared, q: Query, p: Put, from: nat, i: nat, best: Option<Best>,
                                    v: Word, n: nat)
    requires Shape(c, h) && p.key == q.key && Holding(c, h, p, i) && v.Stable? && n < 3 + |q.key|
    ensures Leads(Looker(c, h), ScanCheck(q, from, i, best, v, n), ScanSequence(q, from, i, best, v), 3 + |q.key| - n)
    decreases 3 + |q.key| - n
  {
    ImagePasses(c, p, n);
    var x, z := ScanCheck(q, from, i, best, v, n), ScanSequence(q, from, i, best, v);
    if n + 1 < 3 + |q.key| {
      CheckRun(c, h, q, p, from, i, best, v, n + 1);
      LeadsOn(Looker(c, h), x, ScanCheck(q, from, i, best, v, n + 1), z, 2 + |q.key| - n);
    } else {
      LeadsOnce(Looker(c, h), x, z);
    }
  }

  /** A newer copy in the way is taken up. */
  lemma CopyTaken(c: Config, h: Shared, q: Query, p: Put, from: nat, i: nat, best: Option<Best>, at: Probe, v: Word)
    requires Shape(c, h) && p.key == q.key && Holding(c, h, p, i) && p.sequence > BestSequence(best)
    requires at == ProbesFrom(c, q.key, 0)[i] && v == h.slots[at.slot].version
    ensures Leads(Looker(c, h), Scan(q, from, i, best), Scan(q, from, i + 1, Some(Best(at, v, p.sequence))),
                  6 + |q.key|)
  {
    var step, x, y := Looker(c, h), ScanCheck(q, from, i, best, v, 0), ScanSequence(q, from, i, best, v);
    var z := Scan(q, from, i + 1, Some(Best(at, v, p.sequence)));
    LeadsOnce(step, ScanConfirm(q, from, i, best, v, p.sequence), z);
    LeadsOn(step, y, ScanConfirm(q, from, i, best, v, p.sequence), z, 1);
    CheckRun(c, h, q, p, from, i, best, v, 0);
    LeadsThen(step, x, y, z, 3 + |q.key|, 2);
    LeadsOn(step, Scan(q, from, i, best), x, z, 5 + |q.key|);
  }

  function FieldsOf(c: Config, p: Put): seq<nat> {
    [c.target(p.key), p.now, p.age, p.now + p.ttl, |p.head|, |p.body|, p.status]
  }

  /** A selected copy that stays is read field by field, byte by byte. */
  ghost predicate Readable(c: Config, h: Shared, q: Query, b: Best, p: Put) {
    && Shape(c, h) && ProbeOk(c, b.at) && Image(c, p) <= h.slots[b.at.slot].cells && h.slots[b.at.slot].version == b.v
    && p.key == q.key && b.sequence == p.sequence
  }

  /** What a lookup makes of the fields. */
  function AfterFields(c: Config, q: Query, seen: Seen, b: Best, got: seq<nat>): Lookup
    requires |got| == 7
  {
    if !Fits(c, q, b, got) then Miss(q)
    else if got[4] + got[5] == 0 then Confirm(q, seen, b, got, [])
    else Copy(q, seen, b, got, [])
  }

  lemma {:induction false} FieldsRun(c: Config, h: Shared, q: Query, seen: Seen, b: Best, p: Put, n: nat)
    requires Readable(c, h, q, b, p) && n < 7
    ensures Leads(Looker(c, h), Fields(q, seen, b, FieldsOf(c, p)[..n]),
                  AfterFields(c, q, seen, b, FieldsOf(c, p)), 7 - n)
    decreases 7 - n
  {
    var got := FieldsOf(c, p);
    var x, z := Fields(q, seen, b, got[..n]), AfterFields(c, q, seen, b, got);
    assert h.slots[b.at.slot].cells[FieldCell(n)] == got[n] by { assert Image(c, p)[FieldCell(n)] == got[n]; }
    assert got[..n] + [got[n]] == got[..n + 1];
    if n + 1 < 7 {
      FieldsRun(c, h, q, seen, b, p, n + 1);
      LeadsOn(Looker(c, h), x, Fields(q, seen, b, got[..n + 1]), z, 6 - n);
    } else {
      assert got[..7] == got;
      LeadsOnce(Looker(c, h), x, z);
    }
  }

  lemma {:induction false} CopyRun(c: Config, h: Shared, q: Query, seen: Seen, b: Best, p: Put, n: nat)
    requires Readable(c, h, q, b, p) && Fits(c, q, b, FieldsOf(c, p)) && n < |p.head + p.body|
    ensures Leads(Looker(c, h), Copy(q, seen, b, FieldsOf(c, p), (p.head + p.body)[..n]),
                  Confirm(q, seen, b, FieldsOf(c, p), p.head + p.body), |p.head + p.body| - n)
    decreases |p.head + p.body| - n
  {
    var got, out := FieldsOf(c, p), p.head + p.body;
    var x, z := Copy(q, seen, b, got, out[..n]), Confirm(q, seen, b, got, out);
    assert h.slots[b.at.slot].cells[DATA + |q.key| + n] == out[n] by {
      assert Image(c, p)[DATA + |q.key| + n] == out[n];
    }
    assert out[..n] + [out[n]] == out[..n + 1];
    if n + 1 < |out| {
      CopyRun(c, h, q, seen, b, p, n + 1);
      LeadsOn(Looker(c, h), x, Copy(q, seen, b, got, out[..n + 1]), z, |out| - n - 1);
    } else {
      assert out[..n + 1] == out;
      LeadsOnce(Looker(c, h), x, z);
    }
  }

  /** What a hit on the copy says. */
  function HitOn(p: Put, q: Query, seen: Seen): Lookup
    requires q.now < p.now + p.ttl
  {
    Hit(q, seen, p.sequence, p.status, p.head, p.body, p.age + (if q.now > p.now then q.now - p.now else 0),
        p.now + p.ttl - q.now)
  }

  /** What a lookup that selected the copy answers. */
  ghost function Answer(c: Config, h: Shared, q: Query, seen: Seen, b: Best, p: Put): Lookup
    requires 0 < c.marks == |h.marks|
  {
    if Fits(c, q, b, FieldsOf(c, p)) && h.marks[Mark(c, c.target(p.key))] < p.sequence then HitOn(p, q, seen)
    else Miss(q)
  }

  lemma CopyEnds(c: Config, h: Shared, q: Query, seen: Seen, b: Best, p: Put)
    requires Readable(c, h, q, b, p) && Fits(c, q, b, FieldsOf(c, p))
    ensures Leads(Looker(c, h), Confirm(q, seen, b, FieldsOf(c, p), p.head + p.body), Answer(c, h, q, seen, b, p), 2)
  {
    var step, got, out := Looker(c, h), FieldsOf(c, p), p.head + p.body;
    assert out[..|p.head|] == p.head && out[|p.head|..] == p.body;
    LeadsOnce(step, MarkCheck(q, seen, b, got, out), Answer(c, h, q, seen, b, p));
    LeadsOn(step, Confirm(q, seen, b, got, out), MarkCheck(q, seen, b, got, out), Answer(c, h, q, seen, b, p), 1);
  }

  lemma CopyAll(c: Config, h: Shared, q: Query, seen: Seen, b: Best, p: Put)
    requires Readable(c, h, q, b, p) && Fits(c, q, b, FieldsOf(c, p))
    ensures Leads(Looker(c, h), AfterFields(c, q, seen, b, FieldsOf(c, p)),
                  Confirm(q, seen, b, FieldsOf(c, p), p.head + p.body), |p.head + p.body|)
  {
    var out := p.head + p.body;
    if out == [] {
      LeadsNowhere(Looker(c, h), Confirm(q, seen, b, FieldsOf(c, p), []));
    } else {
      assert out[..0] == [];
      CopyRun(c, h, q, seen, b, p, 0);
    }
  }

  /** How many steps it takes from the selection to the answer. */
  function ReadSteps(c: Config, q: Query, b: Best, p: Put): nat {
    if Fits(c, q, b, FieldsOf(c, p)) then 9 + |p.head + p.body| else 7
  }

  lemma CopyRead(c: Config, h: Shared, q: Query, seen: Seen, b: Best, p: Put)
    requires Readable(c, h, q, b, p)
    ensures Leads(Looker(c, h), Fields(q, seen, b, []), Answer(c, h, q, seen, b, p), ReadSteps(c, q, b, p))
  {
    var step, got, out, z := Looker(c, h), FieldsOf(c, p), p.head + p.body, Answer(c, h, q, seen, b, p);
    assert got[..0] == [];
    FieldsRun(c, h, q, seen, b, p, 0);
    if Fits(c, q, b, got) {
      CopyAll(c, h, q, seen, b, p);
      CopyEnds(c, h, q, seen, b, p);
      LeadsThen(step, AfterFields(c, q, seen, b, got), Confirm(q, seen, b, got, out), z, |out|, 2);
      LeadsThen(step, Fields(q, seen, b, []), AfterFields(c, q, seen, b, got), z, 7, |out| + 2);
    }
  }

  // ---- A put that retires ------------------------------------------------------

  /** The slot it keeps, and one being written, are passed over. */
  lemma RetireSkips(c: Config, h: Shared, dead: set<nat>, pid: nat, pick: nat, keep: nat, tasks: seq<Task>, i: nat)
    requires Shape(c, h) && TaskOk(c, tasks, i)
    requires var j := ProbesFrom(c, tasks[0].key, 0)[i].slot;
             j == keep || h.slots[j].version.Claimed?
    ensures Leads(Worker(c, dead, pid, pick), Next(h, RetireLoad(keep, tasks, i)),
                  Next(h, RetireLoad(keep, tasks, i + 1)), 1)
  {
    LeadsOnce(Worker(c, dead, pid, pick), Next(h, RetireLoad(keep, tasks, i)), Next(h, RetireLoad(keep, tasks, i + 1)));
  }

  lemma RetirePasses(c: Config, h: Shared, dead: set<nat>, pid: nat, pick: nat, keep: nat, tasks: seq<Task>, i: nat)
    requires Shape(c, h) && tasks != [] && Blank(c, h, tasks[0].key, i)
    requires ProbesFrom(c, tasks[0].key, 0)[i].slot != keep
    ensures Leads(Worker(c, dead, pid, pick), Next(h, RetireLoad(keep, tasks, i)),
                  Next(h, RetireLoad(keep, tasks, i + 1)), 2)
  {
    var y := Next(h, RetireRead(keep, tasks, i, h.slots[ProbesFrom(c, tasks[0].key, 0)[i].slot].version, 0));
    LeadsOnce(Worker(c, dead, pid, pick), y, Next(h, RetireLoad(keep, tasks, i + 1)));
    LeadsOn(Worker(c, dead, pid, pick), Next(h, RetireLoad(keep, tasks, i)), y,
            Next(h, RetireLoad(keep, tasks, i + 1)), 1);
  }

  lemma {:induction false} RetireReads(c: Config, h: Shared, dead: set<nat>, pid: nat, pick: nat, keep: nat,
                                       tasks: seq<Task>, i: nat, p: Put, v: Word, n: nat)
    requires Shape(c, h) && tasks != [] && tasks[0].key == p.key && Holding(c, h, p, i) && v.Stable? && n < 3 + |p.key|
    ensures Leads(Worker(c, dead, pid, pick), Next(h, RetireRead(keep, tasks, i, v, n)),
                  Next(h, RetireSequence(keep, tasks, i, v)), 3 + |p.key| - n)
    decreases 3 + |p.key| - n
  {
    ImagePasses(c, p, n);
    var step, x := Worker(c, dead, pid, pick), Next(h, RetireRead(keep, tasks, i, v, n));
    var z := Next(h, RetireSequence(keep, tasks, i, v));
    if n + 1 < 3 + |p.key| {
      RetireReads(c, h, dead, pid, pick, keep, tasks, i, p, v, n + 1);
      LeadsOn(step, x, Next(h, RetireRead(keep, tasks, i, v, n + 1)), z, 2 + |p.key| - n);
    } else {
      LeadsOnce(step, x, z);
    }
  }

  lemma RetireEnds(c: Config, h: Shared, dead: set<nat>, pid: nat, pick: nat, keep: nat, tasks: seq<Task>, i: nat,
                   p: Put, j: nat, v: Word)
    requires Shape(c, h) && tasks != [] && tasks[0].key == p.key && p.sequence < tasks[0].sequence
    requires Holding(c, h, p, i)
    requires j == ProbesFrom(c, p.key, 0)[i].slot && h.slots[j].version == v
    ensures Leads(Worker(c, dead, pid, pick), Next(h, RetireSequence(keep, tasks, i, v)),
                  Next(Versioned(h, j, Claimed(v.count, pid), None), RetireGeneration(keep, tasks, i, v.count)), 2)
  {
    var step, y := Worker(c, dead, pid, pick), Next(h, RetireCas(keep, tasks, i, v));
    var z := Next(Versioned(h, j, Claimed(v.count, pid), None), RetireGeneration(keep, tasks, i, v.count));
    LeadsOnce(step, y, z);
    LeadsOn(step, Next(h, RetireSequence(keep, tasks, i, v)), y, z, 1);
  }

  /** An older copy is claimed, and with that gone. */
  lemma RetireClaims(c: Config, h: Shared, dead: set<nat>, pid: nat, pick: nat, keep: nat, tasks: seq<Task>, i: nat,
                     p: Put, j: nat, v: Word)
    requires Shape(c, h) && tasks != [] && tasks[0].key == p.key && p.sequence < tasks[0].sequence
    requires Holding(c, h, p, i)
    requires j == ProbesFrom(c, p.key, 0)[i].slot != keep && h.slots[j].version == v
    ensures Leads(Worker(c, dead, pid, pick), Next(h, RetireLoad(keep, tasks, i)),
                  Next(Versioned(h, j, Claimed(v.count, pid), None), RetireGeneration(keep, tasks, i, v.count)),
                  6 + |p.key|)
  {
    var step, x, y := Worker(c, dead, pid, pick), Next(h, RetireRead(keep, tasks, i, v, 0)),
                      Next(h, RetireSequence(keep, tasks, i, v));
    var z := Next(Versioned(h, j, Claimed(v.count, pid), None), RetireGeneration(keep, tasks, i, v.count));
    RetireEnds(c, h, dead, pid, pick, keep, tasks, i, p, j, v);
    RetireReads(c, h, dead, pid, pick, keep, tasks, i, p, v, 0);
    LeadsThen(step, x, y, z, 3 + |p.key|, 2);
    LeadsOn(step, Next(h, RetireLoad(keep, tasks, i)), x, z, 5 + |p.key|);
  }
}
