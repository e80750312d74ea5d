/** A put that nothing interrupts: it publishes its copy and retires the older ones. */
module CachePut {
  import opened Wrappers
  import opened Cache
  import opened CacheProof
  import opened CacheRun
  import opened Paths
  import opened CacheAlone

  // ---- Up to the claim --------------------------------------------------------------

  /** The fields and key bytes of the slot, read one after the other. */
  lemma {:induction false} ReadEvicted(c: Config, h: Shared, dead: set<nat>, pid: nat, pick: nat, p: Put, at: Probe,
                                       v: Word, got: seq<nat>) returns (n: nat, all: seq<nat>)
    requires Shape(c, h) && Formed(c, EvictRead(p, at, v, got)) && |got| <= MAX_KEY + 3
    ensures Formed(c, EvictCheck(p, at, v, all))
    ensures Leads(Worker(c, dead, pid, pick), Next(h, EvictRead(p, at, v, got)), Next(h, EvictCheck(p, at, v, all)), n)
    decreases MAX_KEY + 4 - |got|
  {
    var step, x := Worker(c, dead, pid, pick), Next(h, EvictRead(p, at, v, got));
    var now := got + [h.slots[at.slot].cells[EvictCell(|got|)]];
    assert got != [] ==> now[0] == got[0];
    if |now| < 4 + EvictedLength(now, at.capacity) {
      n, all := ReadEvicted(c, h, dead, pid, pick, p, at, v, now);
      LeadsOn(step, x, Next(h, EvictRead(p, at, v, now)), Next(h, EvictCheck(p, at, v, all)), n);
      n := n + 1;
    } else {
      all := now;
      LeadsOnce(step, x, Next(h, EvictCheck(p, at, v, all)));
      n := 1;
    }
  }

  /** No task is without a key. */
  ghost predicate Keyed(tasks: seq<Task>) { forall i :: 0 <= i < |tasks| ==> tasks[i].key != [] }

  lemma RaiseAlone(c: Config, h: Shared, dead: set<nat>, pid: nat, pick: nat, p: Put, at: Probe, v: Word,
                   evicted: seq<Task>, target: nat, to: nat) returns (n: nat, marks: seq<nat>)
    requires Shape(c, h) && PutFormed(c, p, at) && v.Stable?
    ensures |marks| == |h.marks|
    ensures Leads(Worker(c, dead, pid, pick), Next(h, MarkLoad(p, at, v, evicted, target, to)),
                  Next(h.(marks := marks), Claiming(p, at, v, evicted)), n)
  {
    var step, x := Worker(c, dead, pid, pick), Next(h, MarkLoad(p, at, v, evicted, target, to));
    var seen := h.marks[Mark(c, target)];
    if seen < to {
      marks := h.marks[Mark(c, target) := to];
      var z := Next(h.(marks := marks), Claiming(p, at, v, evicted));
      LeadsOnce(step, Next(h, MarkCas(p, at, v, evicted, target, to, seen)), z);
      LeadsOn(step, x, Next(h, MarkCas(p, at, v, evicted, target, to, seen)), z, 1);
      n := 2;
    } else {
      marks := h.marks;
      LeadsOnce(step, x, Next(h.(marks := marks), Claiming(p, at, v, evicted)));
      n := 1;
    }
  }

  lemma CheckedEviction(c: Config, h: Shared, dead: set<nat>, pid: nat, pick: nat, p: Put, at: Probe, v: Word,
                        got: seq<nat>) returns (n: nat, marks: seq<nat>, evicted: seq<Task>)
    requires Shape(c, h) && Formed(c, EvictCheck(p, at, v, got)) && h.slots[at.slot].version == v
    ensures |marks| == |h.marks| && Keyed(evicted)
    ensures Leads(Worker(c, dead, pid, pick), Next(h, EvictCheck(p, at, v, got)),
                  Next(h.(marks := marks), Claiming(p, at, v, evicted)), n)
  {
    var step, x := Worker(c, dead, pid, pick), Next(h, EvictCheck(p, at, v, got));
    evicted := if |got| > 4 then [Task(got[4..], got[3])] else [];
    if got[3] > 0 {
      n, marks := RaiseAlone(c, h, dead, pid, pick, p, at, v, evicted, got[2], got[3] - 1);
      LeadsOn(step, x, Next(h, MarkLoad(p, at, v, evicted, got[2], got[3] - 1)),
              Next(h.(marks := marks), Claiming(p, at, v, evicted)), n);
      n := n + 1;
    } else {
      marks := h.marks;
      LeadsOnce(step, x, Next(h.(marks := marks), Claiming(p, at, v, evicted)));
      n := 1;
    }
  }

  /** Whatever the slot holds, its copy is taken note of and its mark raised. */
  lemma EvictAlone(c: Config, h: Shared, dead: set<nat>, pid: nat, pick: nat, p: Put, at: Probe, v: Word)
    returns (n: nat, marks: seq<nat>, evicted: seq<Task>)
    requires Shape(c, h) && PutFormed(c, p, at) && h.slots[at.slot].version == v && v.Stable?
    ensures |marks| == |h.marks| && Keyed(evicted)
    ensures Leads(Worker(c, dead, pid, pick), Next(h, EvictGeneration(p, at, v)),
                  Next(h.(marks := marks), Claiming(p, at, v, evicted)), n)
  {
    var step, x := Worker(c, dead, pid, pick), Next(h, EvictGeneration(p, at, v));
    if h.slots[at.slot].cells[GENERATION] == c.generation {
      var a, all := ReadEvicted(c, h, dead, pid, pick, p, at, v, []);
      var b;
      b, marks, evicted := CheckedEviction(c, h, dead, pid, pick, p, at, v, all);
      var z := Next(h.(marks := marks), Claiming(p, at, v, evicted));
      LeadsThen(step, Next(h, EvictRead(p, at, v, [])), Next(h, EvictCheck(p, at, v, all)), z, a, b);
      LeadsOn(step, x, Next(h, EvictRead(p, at, v, [])), z, a + b);
      n := a + b + 1;
    } else {
      marks, evicted := h.marks, [];
      LeadsOnce(step, x, Next(h.(marks := marks), Claiming(p, at, v, evicted)));
      n := 1;
    }
  }

  // ---- Up to the publication ----------------------------------------------------------

  /** The cells an entry writes, one after the other; the rest stay as they were. */
  lemma {:induction false} FillAlone(c: Config, h: Shared, dead: set<nat>, pid: nat, pick: nat, p: Put, at: Probe,
                                     count: nat, evicted: seq<Task>, i: nat) returns (n: nat, cells: seq<nat>)
    requires Shape(c, h) && PutFormed(c, p, at) && i < |Image(c, p)|
    ensures |cells| == |h.slots[at.slot].cells| && cells[..i] == h.slots[at.slot].cells[..i]
    ensures cells[i..|Image(c, p)|] == Image(c, p)[i..]
    ensures Leads(Worker(c, dead, pid, pick), Next(h, Writing(p, at, count, evicted, i)),
                  Next(Refilled(h, at.slot, cells), Publishing(p, at, count, evicted)), n)
    decreases |Image(c, p)| - i
  {
    var step, x, image := Worker(c, dead, pid, pick), Next(h, Writing(p, at, count, evicted, i)), Image(c, p);
    var g := Stored(h, at.slot, i, image[i]);
    if i + 1 == |image| {
      cells, n := g.slots[at.slot].cells, 1;
      LeadsOnce(step, x, Next(Refilled(h, at.slot, cells), Publishing(p, at, count, evicted)));
    } else {
      n, cells := FillAlone(c, g, dead, pid, pick, p, at, count, evicted, i + 1);
      assert Refilled(g, at.slot, cells).slots == Refilled(h, at.slot, cells).slots;
      LeadsOn(step, x, Next(g, Writing(p, at, count, evicted, i + 1)),
              Next(Refilled(h, at.slot, cells), Publishing(p, at, count, evicted)), n);
      Sewn(cells, g.slots[at.slot].cells, image, i);
      n := n + 1;
    }
  }

  lemma Sewn(cells: seq<nat>, g: seq<nat>, image: seq<nat>, i: nat)
    requires i + 1 < |image| <= |cells| == |g| && g[i] == image[i]
    requires cells[..i + 1] == g[..i + 1] && cells[i + 1..|image|] == image[i + 1..]
    ensures cells[i..|image|] == image[i..] && cells[..i] == g[..i]
  {
    assert cells[i] == cells[..i + 1][i] && g[i] == g[..i + 1][i];
    assert cells[i..|image|] == [cells[i]] + cells[i + 1..|image|];
    assert image[i..] == [image[i]] + image[i + 1..];
    assert cells[..i] == cells[..i + 1][..i] && g[..i] == g[..i + 1][..i];
  }

  lemma FilledPublishes(c: Config, h: Shared, dead: set<nat>, pid: nat, pick: nat, p: Put, at: Probe, count: nat,
                        evicted: seq<Task>, cells: seq<nat>)
    requires Shape(c, h) && PutFormed(c, p, at) && |cells| == |h.slots[at.slot].cells|
    ensures var g := Refilled(Versioned(h, at.slot, Claimed(count, pid), None), at.slot, cells);
            var filled := Slot(Stable(count + 1), cells, Some(p));
            Leads(Worker(c, dead, pid, pick), Next(g, Publishing(p, at, count, evicted)),
                  Next(h.(slots := h.slots[at.slot := filled], log := h.log + [p]),
                       RetireLoad(at.slot, [Task(p.key, p.sequence)] + evicted, 0)), 1)
  {
    var j, filled := at.slot, Slot(Stable(count + 1), cells, Some(p));
    var g := Refilled(Versioned(h, j, Claimed(count, pid), None), j, cells);
    assert Versioned(g, j, Stable(count + 1), Some(p)).slots == h.slots[j := filled];
    LeadsOnce(Worker(c, dead, pid, pick), Next(g, Publishing(p, at, count, evicted)),
              Next(h.(slots := h.slots[j := filled], log := h.log + [p]),
                   RetireLoad(j, [Task(p.key, p.sequence)] + evicted, 0)));
  }

  /** A slot that holds its writer's claim is filled and published. */
  lemma ClaimAlone(c: Config, h: Shared, dead: set<nat>, pid: nat, pick: nat, p: Put, at: Probe, v: Word,
                   evicted: seq<Task>) returns (n: nat, filled: Slot)
    requires Shape(c, h) && PutFormed(c, p, at) && h.slots[at.slot].version == v
    ensures filled.version.Stable? && filled.from == Some(p) && Image(c, p) <= filled.cells
    ensures |filled.cells| == |h.slots[at.slot].cells|
    ensures Leads(Worker(c, dead, pid, pick), Next(h, Claiming(p, at, v, evicted)),
                  Next(h.(slots := h.slots[at.slot := filled], log := h.log + [p]),
                       RetireLoad(at.slot, [Task(p.key, p.sequence)] + evicted, 0)), n)
  {
    var step, j := Worker(c, dead, pid, pick), at.slot;
    var g := Versioned(h, j, Claimed(v.count, pid), None);
    var k, cells := FillAlone(c, g, dead, pid, pick, p, at, v.count, evicted, 0);
    filled := Slot(Stable(v.count + 1), cells, Some(p));
    assert cells[..|Image(c, p)|] == cells[0..|Image(c, p)|] == Image(c, p)[0..] == Image(c, p);
    var y := Next(Refilled(g, j, cells), Publishing(p, at, v.count, evicted));
    var z := Next(h.(slots := h.slots[j := filled], log := h.log + [p]),
                  RetireLoad(j, [Task(p.key, p.sequence)] + evicted, 0));
    FilledPublishes(c, h, dead, pid, pick, p, at, v.count, evicted, cells);
    LeadsThen(step, Next(g, Writing(p, at, v.count, evicted, 0)), y, z, k, 1);
    LeadsOn(step, Next(h, Claiming(p, at, v, evicted)), Next(g, Writing(p, at, v.count, evicted, 0)), z, k + 1);
    n := k + 2;
  }

  /** A put that may go ahead: it is above its mark, and the slot it picks is free or its
      owner gone. */
  ghost predicate Clear(c: Config, h: Shared, dead: set<nat>, pick: nat, p: Put, k: nat, at: Probe) {
    && Shape(c, h) && Formed(c, CheckMark(p, k)) && h.marks[Mark(c, c.target(p.key))] < p.sequence
    && pick < PROBES && 0 < c.classes[k].count && at == ClassProbe(c, p.key, k, pick) && ProbeOk(c, at)
    && (h.slots[at.slot].version.Stable? || h.slots[at.slot].version.owner in dead)
  }

  lemma ChosenAlone(c: Config, h: Shared, dead: set<nat>, pid: nat, pick: nat, p: Put, k: nat, at: Probe)
    returns (n: nat, marks: seq<nat>, evicted: seq<Task>)
    requires Clear(c, h, dead, pick, p, k, at) && PutFormed(c, p, at)
    ensures |marks| == |h.marks| && Keyed(evicted)
    ensures Leads(Worker(c, dead, pid, pick), Next(h, CheckMark(p, k)),
                  Next(h.(marks := marks), Claiming(p, at, h.slots[at.slot].version, evicted)), n)
  {
    var step, v := Worker(c, dead, pid, pick), h.slots[at.slot].version;
    if v.Stable? {
      n, marks, evicted := EvictAlone(c, h, dead, pid, pick, p, at, v);
      LeadsOn(step, Next(h, Choose(p, k)), Next(h, EvictGeneration(p, at, v)),
              Next(h.(marks := marks), Claiming(p, at, v, evicted)), n);
    } else {
      n, marks, evicted := 0, h.marks, [];
      LeadsOnce(step, Next(h, Choose(p, k)), Next(h.(marks := marks), Claiming(p, at, v, evicted)));
    }
    LeadsOn(step, Next(h, CheckMark(p, k)), Next(h, Choose(p, k)),
            Next(h.(marks := marks), Claiming(p, at, v, evicted)), n + 1);
    n := n + 2;
  }

  // ---- The retirement ----------------------------------------------------------------

  function Emptied(s: Slot): Slot
    requires |s.cells| >= DATA
  {
    Slot(Stable(s.version.count + 1), s.cells[GENERATION := 0][EXPIRES := 0], None)
  }

  /** Probe `i` of the task's key holds an older copy of it. */
  ghost predicate Older(c: Config, h: Shared, keep: nat, task: Task, i: nat)
    requires Shape(c, h) && i < |ProbesFrom(c, task.key, 0)|
  {
    var at := ProbesFrom(c, task.key, 0)[i];
    && ProbeOk(c, at) && at.slot != keep && HoldsNow(c, h, task.key, at)
    && h.slots[at.slot].cells[SEQUENCE] < task.sequence
  }

  ghost function Retired(c: Config, h: Shared, keep: nat, task: Task, i: nat): Shared
    requires Shape(c, h) && i < |ProbesFrom(c, task.key, 0)|
  {
    var j := ProbesFrom(c, task.key, 0)[i].slot;
    if Older(c, h, keep, task, i) then h.(slots := h.slots[j := Emptied(h.slots[j])]) else h
  }

  lemma {:induction false} RetireReads(c: Config, h: Shared, dead: set<nat>, pid: nat, pick: nat, keep: nat,
                                       tasks: seq<Task>, i: nat, v: Word, at: Probe, n: nat) returns (k: nat)
    requires Shape(c, h) && TaskOk(c, tasks, i) && at == ProbesFrom(c, tasks[0].key, 0)[i]
    requires v.Stable? && n < 3 + |tasks[0].key|
    ensures Leads(Worker(c, dead, pid, pick), Next(h, RetireRead(keep, tasks, i, v, n)),
                  Next(h, if Passes(c, h, tasks[0].key, at, n) then RetireSequence(keep, tasks, i, v)
                          else RetireLoad(keep, tasks, i + 1)), k)
    decreases 3 + |tasks[0].key| - n
  {
    var step, x, key := Worker(c, dead, pid, pick), Next(h, RetireRead(keep, tasks, i, v, n)), tasks[0].key;
    if !CheckPasses(c, key, at.capacity, h.slots[at.slot].cells, n) {
      LeadsOnce(step, x, Next(h, RetireLoad(keep, tasks, i + 1)));
      k := 1;
    } else if n + 1 == 3 + |key| {
      LeadsOnce(step, x, Next(h, RetireSequence(keep, tasks, i, v)));
      k := 1;
    } else {
      k := RetireReads(c, h, dead, pid, pick, keep, tasks, i, v, at, n + 1);
      assert Passes(c, h, key, at, n) == Passes(c, h, key, at, n + 1);
      LeadsOn(step, x, Next(h, RetireRead(keep, tasks, i, v, n + 1)),
              Next(h, if Passes(c, h, key, at, n) then RetireSequence(keep, tasks, i, v)
                      else RetireLoad(keep, tasks, i + 1)), k);
      k := k + 1;
    }
  }

  /** Four steps empty the slot. */
  lemma EmptyAlone(c: Config, h: Shared, dead: set<nat>, pid: nat, pick: nat, keep: nat, tasks: seq<Task>, i: nat,
                   v: Word, j: nat)
    requires Shape(c, h) && TaskOk(c, tasks, i) && j == ProbesFrom(c, tasks[0].key, 0)[i].slot
    requires h.slots[j].version == v && v.Stable?
    ensures Leads(Worker(c, dead, pid, pick), Next(h, RetireCas(keep, tasks, i, v)),
                  Next(h.(slots := h.slots[j := Emptied(h.slots[j])]), RetireLoad(keep, tasks, i + 1)), 4)
  {
    var step := Worker(c, dead, pid, pick);
    var g := Versioned(h, j, Claimed(v.count, pid), None);
    var g' := Stored(g, j, GENERATION, 0);
    var g'' := Stored(g', j, EXPIRES, 0);
    var z := Next(h.(slots := h.slots[j := Emptied(h.slots[j])]), RetireLoad(keep, tasks, i + 1));
    assert Versioned(g'', j, Stable(v.count + 1), None).slots == z.h.slots;
    LeadsOnce(step, Next(g'', RetireStore(keep, tasks, i, v.count)), z);
    LeadsOn(step, Next(g', RetireExpires(keep, tasks, i, v.count)),
            Next(g'', RetireStore(keep, tasks, i, v.count)), z, 1);
    LeadsOn(step, Next(g, RetireGeneration(keep, tasks, i, v.count)),
            Next(g', RetireExpires(keep, tasks, i, v.count)), z, 2);
    LeadsOn(step, Next(h, RetireCas(keep, tasks, i, v)), Next(g, RetireGeneration(keep, tasks, i, v.count)), z, 3);
  }

  /** One probe looked at: emptied if it holds an older copy, left alone if not. */
  lemma ProbeRetired(c: Config, h: Shared, dead: set<nat>, pid: nat, pick: nat, keep: nat, tasks: seq<Task>, i: nat)
    returns (n: nat)
    requires Shape(c, h) && tasks != [] && tasks[0].key != [] && i < |ProbesFrom(c, tasks[0].key, 0)|
    ensures Leads(Worker(c, dead, pid, pick), Next(h, RetireLoad(keep, tasks, i)),
                  Next(Retired(c, h, keep, tasks[0], i), RetireLoad(keep, tasks, i + 1)), n)
  {
    var step, x := Worker(c, dead, pid, pick), Next(h, RetireLoad(keep, tasks, i));
    var at := ProbesFrom(c, tasks[0].key, 0)[i];
    var z := Next(Retired(c, h, keep, tasks[0], i), RetireLoad(keep, tasks, i + 1));
    if !ProbeOk(c, at) || at.slot == keep || h.slots[at.slot].version.Claimed? {
      LeadsOnce(step, x, z);
      n := 1;
    } else {
      var v := h.slots[at.slot].version;
      PassesIsHolds(c, h, tasks[0].key, at);
      var k := RetireReads(c, h, dead, pid, pick, keep, tasks, i, v, at, 0);
      if Passes(c, h, tasks[0].key, at, 0) {
        var m := NumberCompared(c, h, dead, pid, pick, keep, tasks, i, at, v);
        LeadsThen(step, Next(h, RetireRead(keep, tasks, i, v, 0)), Next(h, RetireSequence(keep, tasks, i, v)), z, k, m);
        k := k + m;
      }
      LeadsOn(step, x, Next(h, RetireRead(keep, tasks, i, v, 0)), z, k);
      n := k + 1;
    }
  }

  lemma NumberCompared(c: Config, h: Shared, dead: set<nat>, pid: nat, pick: nat, keep: nat, tasks: seq<Task>, i: nat,
                       at: Probe, v: Word) returns (n: nat)
    requires Shape(c, h) && TaskOk(c, tasks, i) && at == ProbesFrom(c, tasks[0].key, 0)[i] && at.slot != keep
    requires v == h.slots[at.slot].version && HoldsNow(c, h, tasks[0].key, at)
    ensures Leads(Worker(c, dead, pid, pick), Next(h, RetireSequence(keep, tasks, i, v)),
                  Next(Retired(c, h, keep, tasks[0], i), RetireLoad(keep, tasks, i + 1)), n)
  {
    var step, x := Worker(c, dead, pid, pick), Next(h, RetireSequence(keep, tasks, i, v));
    var z := Next(Retired(c, h, keep, tasks[0], i), RetireLoad(keep, tasks, i + 1));
    if h.slots[at.slot].cells[SEQUENCE] >= tasks[0].sequence {
      LeadsOnce(step, x, z);
      n := 1;
    } else {
      EmptyAlone(c, h, dead, pid, pick, keep, tasks, i, v, at.slot);
      LeadsOn(step, x, Next(h, RetireCas(keep, tasks, i, v)), z, 4);
      n := 5;
    }
  }

  /** Nothing but slots emptied, and not the one to keep. */
  ghost predicate Thinned(h: Shared, h': Shared, keep: nat) {
    && h'.marks == h.marks && h'.log == h.log && |h'.slots| == |h.slots|
    && (forall j {:trigger h'.slots[j]} :: 0 <= j < |h.slots| ==>
          h'.slots[j] == h.slots[j]
          || (j != keep && |h'.slots[j].cells| == |h.slots[j].cells| >= DATA && h'.slots[j].cells[GENERATION] == 0))
  }

  /** The first `n` probes of the task's key hold no older copy of it. */
  ghost predicate Clean(c: Config, h: Shared, keep: nat, task: Task, n: nat)
    requires Shape(c, h) && n <= |ProbesFrom(c, task.key, 0)|
  {
    forall i :: 0 <= i < n ==> !Older(c, h, keep, task, i)
  }

  lemma HeldIsCurrent(c: Config, h: Shared, key: seq<nat>, at: Probe)
    requires Shape(c, h) && ProbeOk(c, at) && HoldsNow(c, h, key, at)
    ensures h.slots[at.slot].cells[GENERATION] == c.generation
  {
    assert h.slots[at.slot].cells[CheckCell(1)] == CheckValue(c, key, 1);
  }

  lemma ThinnedClean(c: Config, h: Shared, h': Shared, keep: nat, task: Task, n: nat)
    requires Shape(c, h) && Shape(c, h') && Thinned(h, h', keep) && n <= |ProbesFrom(c, task.key, 0)|
    requires Clean(c, h, keep, task, n)
    ensures Clean(c, h', keep, task, n)
  {
    forall i | 0 <= i < n ensures !Older(c, h', keep, task, i) {
      assert !Older(c, h, keep, task, i);
      if Older(c, h', keep, task, i) { HeldIsCurrent(c, h', task.key, ProbesFrom(c, task.key, 0)[i]); }
    }
  }

  lemma RetiredThins(c: Config, h: Shared, keep: nat, task: Task, i: nat)
    requires Shape(c, h) && i < |ProbesFrom(c, task.key, 0)|
    ensures Thinned(h, Retired(c, h, keep, task, i), keep) && Shape(c, Retired(c, h, keep, task, i))
    ensures !Older(c, Retired(c, h, keep, task, i), keep, task, i)
  {
    var h' := Retired(c, h, keep, task, i);
    if Older(c, h', keep, task, i) { HeldIsCurrent(c, h', task.key, ProbesFrom(c, task.key, 0)[i]); }
  }

  /** The probes of one key, from the `i`th on. */
  lemma {:induction false} TaskAlone(c: Config, h: Shared, dead: set<nat>, pid: nat, pick: nat, keep: nat,
                                     tasks: seq<Task>, i: nat) returns (n: nat, h': Shared)
    requires Shape(c, h) && tasks != [] && tasks[0].key != [] && i <= |ProbesFrom(c, tasks[0].key, 0)|
    requires Clean(c, h, keep, tasks[0], i)
    ensures Thinned(h, h', keep) && Shape(c, h') && Clean(c, h', keep, tasks[0], |ProbesFrom(c, tasks[0].key, 0)|)
    ensures Leads(Worker(c, dead, pid, pick), Next(h, RetireLoad(keep, tasks, i)),
                  Next(h', RetireLoad(keep, tasks[1..], 0)), n)
    decreases |ProbesFrom(c, tasks[0].key, 0)| - i
  {
    var step, x := Worker(c, dead, pid, pick), Next(h, RetireLoad(keep, tasks, i));
    if i == |ProbesFrom(c, tasks[0].key, 0)| {
      h', n := h, 1;
      LeadsOnce(step, x, Next(h', RetireLoad(keep, tasks[1..], 0)));
    } else {
      var g := Retired(c, h, keep, tasks[0], i);
      var a := ProbeRetired(c, h, dead, pid, pick, keep, tasks, i);
      RetiredThins(c, h, keep, tasks[0], i);
      ThinnedClean(c, h, g, keep, tasks[0], i);
      var b;
      b, h' := TaskAlone(c, g, dead, pid, pick, keep, tasks, i + 1);
      LeadsThen(step, x, Next(g, RetireLoad(keep, tasks, i + 1)), Next(h', RetireLoad(keep, tasks[1..], 0)), a, b);
      n := a + b;
    }
  }

  /** All the keys. */
  lemma {:induction false} TasksAlone(c: Config, h: Shared, dead: set<nat>, pid: nat, pick: nat, keep: nat,
                                      tasks: seq<Task>) returns (n: nat, h': Shared)
    requires Shape(c, h) && Keyed(tasks)
    ensures Thinned(h, h', keep) && Shape(c, h')
    ensures forall k :: 0 <= k < |tasks| ==> Clean(c, h', keep, tasks[k], |ProbesFrom(c, tasks[k].key, 0)|)
    ensures Leads(Worker(c, dead, pid, pick), Next(h, RetireLoad(keep, tasks, 0)), Next(h', RetireLoad(keep, [], 0)), n)
    decreases |tasks|
  {
    var step, x := Worker(c, dead, pid, pick), Next(h, RetireLoad(keep, tasks, 0));
    if tasks == [] {
      h', n := h, 0;
      LeadsNowhere(step, x);
    } else {
      var a, g := TaskAlone(c, h, dead, pid, pick, keep, tasks, 0);
      var b;
      b, h' := TasksAlone(c, g, dead, pid, pick, keep, tasks[1..]);
      LeadsThen(step, x, Next(g, RetireLoad(keep, tasks[1..], 0)), Next(h', RetireLoad(keep, [], 0)), a, b);
      ThinnedClean(c, g, h', keep, tasks[0], |ProbesFrom(c, tasks[0].key, 0)|);
      forall k | 0 <= k < |tasks| ensures Clean(c, h', keep, tasks[k], |ProbesFrom(c, tasks[k].key, 0)|) {
        if k > 0 { assert tasks[k] == tasks[1..][k - 1]; }
      }
      n := a + b;
    }
  }

  // ---- In every reachable state --------------------------------------------------------

  lemma PutAlone(c: Config, h: Shared, dead: set<nat>, pid: nat, pick: nat, p: Put, k: nat, at: Probe)
    returns (n: nat, h': Shared)
    requires Clear(c, h, dead, pick, p, k, at) && PutFormed(c, p, at)
    ensures Shape(c, h') && h'.log == h.log + [p]
    ensures h'.slots[at.slot].version.Stable? && h'.slots[at.slot].from == Some(p)
    ensures Clean(c, h', at.slot, Task(p.key, p.sequence), |ProbesFrom(c, p.key, 0)|)
    ensures Leads(Worker(c, dead, pid, pick), Next(h, CheckMark(p, k)), Next(h', RetireLoad(at.slot, [], 0)), n)
  {
    var step, v := Worker(c, dead, pid, pick), h.slots[at.slot].version;
    var a, marks, evicted := ChosenAlone(c, h, dead, pid, pick, p, k, at);
    var g := h.(marks := marks);
    var b, filled := ClaimAlone(c, g, dead, pid, pick, p, at, v, evicted);
    var g', tasks := g.(slots := g.slots[at.slot := filled], log := g.log + [p]), [Task(p.key, p.sequence)] + evicted;
    var d;
    d, h' := TasksAlone(c, g', dead, pid, pick, at.slot, tasks);
    var y := Next(g', RetireLoad(at.slot, tasks, 0));
    LeadsThen(step, Next(g, Claiming(p, at, v, evicted)), y, Next(h', RetireLoad(at.slot, [], 0)), b, d);
    LeadsThen(step, Next(h, CheckMark(p, k)), Next(g, Claiming(p, at, v, evicted)),
              Next(h', RetireLoad(at.slot, [], 0)), a, b + d);
    assert tasks[0] == Task(p.key, p.sequence);
    assert h'.slots[at.slot] == filled;
    n := a + (b + d);
  }

  /** Slot `j` holds `p`, and no other holds a copy of its key with a lower number. */
  ghost predicate Newest(slots: seq<Slot>, j: nat, p: Put) {
    && j < |slots| && slots[j].version.Stable? && slots[j].from == Some(p)
    && (forall i :: 0 <= i < |slots| && i != j && slots[i].version.Stable? && slots[i].from.Some? ==>
          slots[i].from.value.key == p.key ==> slots[i].from.value.sequence >= p.sequence)
  }

  lemma CleanIsNewest(c: Config, h: Shared, j: nat, p: Put)
    requires Shape(c, h) && SlotsOk(c, h) && j < |h.slots| && h.slots[j].version.Stable? && h.slots[j].from == Some(p)
    requires Clean(c, h, j, Task(p.key, p.sequence), |ProbesFrom(c, p.key, 0)|)
    ensures Newest(h.slots, j, p)
  {
    forall i | 0 <= i < |h.slots| && i != j && h.slots[i].version.Stable? && h.slots[i].from.Some?
               && h.slots[i].from.value.key == p.key
      ensures h.slots[i].from.value.sequence >= p.sequence {
      KeptIsFound(c, h, i, h.slots[i].from.value);
      var n :| 0 <= n < |ProbesFrom(c, p.key, 0)| && ProbesFrom(c, p.key, 0)[n] == Probe(i, c.rooms[i]);
      assert !Older(c, h, j, Task(p.key, p.sequence), n);
    }
  }

  lemma PutRun(c: Config, actions: seq<Action>, t: Thread, p: Put, k: nat, pick: nat, n: nat, y: Next)
    requires Sane(c) && t.pid !in Reach(c, actions).dead && t !in Reach(c, actions).writers && !y.w.Done?
    requires Storable(c, p) && FirstFit(c, Needed(p), 0) == k < |c.classes|
    requires Leads(Worker(c, Reach(c, actions).dead, t.pid, pick), Next(Reach(c, actions).h, CheckMark(p, k)), y, n)
    ensures Reach(c, actions + [StartPut(t, p)] + Writes(t, pick, n)).h == y.h
  {
    ReachMore(c, actions, [StartPut(t, p)] + Writes(t, pick, n));
    StartedWorks(c, Reach(c, actions), t, p, k, pick, n, y);
    assert actions + [StartPut(t, p)] + Writes(t, pick, n) == actions + ([StartPut(t, p)] + Writes(t, pick, n));
  }

  /** In every reachable state: a put above its mark that does not give up, picks a slot not
      claimed by the living, and is not interrupted publishes its copy and leaves no older one. */
  lemma PutLands(c: Config, actions: seq<Action>, t: Thread, p: Put, pick: nat, k: nat, at: Probe) returns (n: nat)
    requires Sane(c) && t.pid !in Reach(c, actions).dead && t !in Reach(c, actions).writers
    requires Storable(c, p) && FirstFit(c, Needed(p), 0) == k < |c.classes|
    requires Clear(c, Reach(c, actions).h, Reach(c, actions).dead, pick, p, k, at)
    ensures var s' := Reach(c, actions + [StartPut(t, p)] + Writes(t, pick, n));
            s'.h.log == Reach(c, actions).h.log + [p] && Newest(s'.h.slots, at.slot, p)
  {
    var s := Reach(c, actions);
    ProbeListed(c, p.key, k, 0, pick);
    var h';
    n, h' := PutAlone(c, s.h, s.dead, t.pid, pick, p, k, at);
    PutRun(c, actions, t, p, k, pick, n, Next(h', RetireLoad(at.slot, [], 0)));
    ReachTable(c, actions + [StartPut(t, p)] + Writes(t, pick, n));
    CleanIsNewest(c, h', at.slot, p);
  }
}
