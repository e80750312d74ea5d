/** The marks: what raises them, that nothing lowers them, and what an invalidation that has
    returned is good for. */
module CacheMarks {
  import opened Cache
  import opened CacheProof

  // ---- The invariant ------------------------------------------------------------

  /** Some invalidation asked for the mark at `j` to be `x`. */
  ghost predicate AskedFor(c: Config, asked: seq<Invalidation>, j: nat, x: nat)
    requires 0 < c.marks
  {
    exists i :: 0 <= i < |asked| && asked[i].to == x && Mark(c, asked[i].target) == j
  }

  /** Some put that was published has its mark at `j`, and the number after `x`. */
  ghost predicate JustBelow(c: Config, log: seq<Put>, j: nat, x: nat)
    requires 0 < c.marks
  {
    exists k :: 0 <= k < |log| && log[k].sequence == x + 1 && Mark(c, c.target(log[k].key)) == j
  }

  ghost predicate MarkOk(c: Config, h: Shared, asked: seq<Invalidation>, j: nat)
    requires 0 < c.marks && j < |h.marks|
  {
    h.marks[j] == 0 || AskedFor(c, asked, j, h.marks[j]) || JustBelow(c, h.log, j, h.marks[j])
  }

  ghost predicate RaiserOk(c: Config, log: seq<Put>, asked: seq<Invalidation>, w: Writer)
    requires 0 < c.marks
  {
    match w
    case MarkLoad(_, _, _, _, target, to) => JustBelow(c, log, Mark(c, target), to)
    case MarkCas(_, _, _, _, target, to, _) => JustBelow(c, log, Mark(c, target), to)
    case InvalidateLoad(target, to) => AskedFor(c, asked, Mark(c, target), to)
    case InvalidateCas(target, to, _) => AskedFor(c, asked, Mark(c, target), to)
    case _ => true
  }

  ghost predicate Enforced(c: Config, marks: seq<nat>, i: Invalidation)
    requires 0 < c.marks == |marks|
  {
    i.to <= marks[Mark(c, i.target)]
  }

  ghost predicate AllEnforced(c: Config, marks: seq<nat>, ended: seq<Invalidation>)
    requires 0 < c.marks == |marks|
  {
    forall i :: 0 <= i < |ended| ==> Enforced(c, marks, ended[i])
  }

  ghost predicate MarksOk(c: Config, h: Shared, asked: seq<Invalidation>)
    requires 0 < c.marks
  {
    forall j: nat :: j < |h.marks| ==> MarkOk(c, h, asked, j)
  }

  ghost predicate RaisersOk(c: Config, log: seq<Put>, asked: seq<Invalidation>, writers: map<Thread, Writer>)
    requires 0 < c.marks
  {
    forall t :: t in writers ==> RaiserOk(c, log, asked, writers[t])
  }

  ghost predicate MarksInv(c: Config, s: State)
    requires Shape(c, s.h)
  {
    && MarksOk(c, s.h, s.changed.asked)
    && RaisersOk(c, s.h.log, s.changed.asked, s.writers)
    && AllEnforced(c, s.h.marks, s.changed.ended)
  }

  // ---- Every step ---------------------------------------------------------------

  ghost predicate Risen(marks: seq<nat>, marks': seq<nat>) {
    |marks| == |marks'| && forall j :: 0 <= j < |marks| ==> marks[j] <= marks'[j]
  }

  /** No store lowers a mark, and only two kinds of step change one. */
  lemma ChangeRises(c: Config, h: Shared, pid: nat, w: Writer)
    requires Shape(c, h) && Formed(c, w) && Changes(w)
    ensures Risen(h.marks, ChangeStep(c, h, pid, w).h.marks) && h.log <= ChangeStep(c, h, pid, w).h.log
    ensures !w.MarkCas? && !w.InvalidateCas? ==> ChangeStep(c, h, pid, w).h.marks == h.marks
  {
  }

  lemma AskedStays(c: Config, asked: seq<Invalidation>, more: seq<Invalidation>, j: nat, x: nat)
    requires 0 < c.marks && AskedFor(c, asked, j, x) && asked <= more
    ensures AskedFor(c, more, j, x)
  {
    var i :| 0 <= i < |asked| && asked[i].to == x && Mark(c, asked[i].target) == j;
    assert more[i] == asked[i];
  }

  lemma BelowStays(c: Config, log: seq<Put>, more: seq<Put>, j: nat, x: nat)
    requires 0 < c.marks && JustBelow(c, log, j, x) && log <= more
    ensures JustBelow(c, more, j, x)
  {
    var k :| 0 <= k < |log| && log[k].sequence == x + 1 && Mark(c, c.target(log[k].key)) == j;
    assert more[k] == log[k];
  }

  lemma RaiserStays(c: Config, log: seq<Put>, more: seq<Put>, asked: seq<Invalidation>, also: seq<Invalidation>,
                    w: Writer)
    requires 0 < c.marks && RaiserOk(c, log, asked, w) && log <= more && asked <= also
    ensures RaiserOk(c, more, also, w)
  {
    if w.MarkLoad? || w.MarkCas? {
      BelowStays(c, log, more, Mark(c, w.target), w.to);
    } else if Invalidating(w) {
      AskedStays(c, asked, also, Mark(c, w.target), w.to);
    }
  }

  lemma RaisersStay(c: Config, log: seq<Put>, more: seq<Put>, asked: seq<Invalidation>, also: seq<Invalidation>,
                    writers: map<Thread, Writer>)
    requires 0 < c.marks && RaisersOk(c, log, asked, writers) && log <= more && asked <= also
    ensures RaisersOk(c, more, also, writers)
  {
    forall t | t in writers ensures RaiserOk(c, more, also, writers[t]) {
      RaiserStays(c, log, more, asked, also, writers[t]);
    }
  }

  /** Marks that are as they were stay accounted for. */
  lemma MarkStays(c: Config, h: Shared, h': Shared, asked: seq<Invalidation>, also: seq<Invalidation>, j: nat)
    requires 0 < c.marks && j < |h.marks| == |h'.marks| && MarkOk(c, h, asked, j) && h'.marks[j] == h.marks[j]
    requires h.log <= h'.log && asked <= also
    ensures MarkOk(c, h', also, j)
  {
    if AskedFor(c, asked, j, h.marks[j]) {
      AskedStays(c, asked, also, j, h.marks[j]);
    } else if JustBelow(c, h.log, j, h.marks[j]) {
      BelowStays(c, h.log, h'.log, j, h.marks[j]);
    }
  }

  /** A raised mark is accounted for by its raiser. */
  lemma ChangeMarks(c: Config, h: Shared, asked: seq<Invalidation>, pid: nat, w: Writer)
    requires Shape(c, h) && Formed(c, w) && Changes(w) && MarksOk(c, h, asked) && RaiserOk(c, h.log, asked, w)
    ensures MarksOk(c, ChangeStep(c, h, pid, w).h, asked)
  {
    var h' := ChangeStep(c, h, pid, w).h;
    ChangeRises(c, h, pid, w);
    forall j: nat | j < |h'.marks| ensures MarkOk(c, h', asked, j) {
      if h'.marks[j] == h.marks[j] { MarkStays(c, h, h', asked, asked, j); }
    }
  }

  lemma EnforcedStays(c: Config, marks: seq<nat>, marks': seq<nat>, ended: seq<Invalidation>)
    requires 0 < c.marks == |marks| && AllEnforced(c, marks, ended) && Risen(marks, marks')
    ensures AllEnforced(c, marks', ended)
  {
    forall i | 0 <= i < |ended| ensures Enforced(c, marks', ended[i]) { assert Enforced(c, marks, ended[i]); }
  }

  /** What an eviction read of a slot that did not move was a published put's. */
  lemma EvictedIsPublished(c: Config, h: Shared, dead: set<nat>, pid: nat, w: Writer)
    requires Shape(c, h) && SlotsOk(c, h) && WriterOk(c, h, dead, pid, w) && w.EvictCheck?
    ensures RaiserOk(c, h.log, [], PrepareStep(c, h, dead, w, 0))
  {
    EvictCheckOk(c, h, dead, pid, w);
    var y, j := PrepareStep(c, h, dead, w, 0), w.at.slot;
    if y.MarkLoad? {
      assert SlotOk(c, j, h.slots[j], h.log);
      var k :| 0 <= k < |h.log| && h.log[k] == h.slots[j].from.value;
    }
  }

  lemma RaisersWith(c: Config, log: seq<Put>, asked: seq<Invalidation>, writers: map<Thread, Writer>, t: Thread,
                    w: Writer)
    requires 0 < c.marks && RaisersOk(c, log, asked, writers) && RaiserOk(c, log, asked, w)
    ensures RaisersOk(c, log, asked, writers[t := w])
  {
  }

  lemma ChangedRaiser(c: Config, h: Shared, asked: seq<Invalidation>, pid: nat, w: Writer)
    requires Shape(c, h) && Formed(c, w) && Changes(w) && RaiserOk(c, h.log, asked, w)
    ensures RaiserOk(c, h.log, asked, ChangeStep(c, h, pid, w).w)
    ensures Invalidating(w) && ChangeStep(c, h, pid, w).w.Done? ==>
              Enforced(c, ChangeStep(c, h, pid, w).h.marks, Invalidation(w.target, w.to))
  {
  }

  lemma ChangeKeeps(c: Config, s: State, t: Thread)
    requires Shape(c, s.h) && MarksInv(c, s) && t in s.writers && Formed(c, s.writers[t]) && Changes(s.writers[t])
    ensures var x := ChangeStep(c, s.h, t.pid, s.writers[t]);
            MarksInv(c, s.(h := x.h, writers := s.writers[t := x.w], changed := Ending(s.changed, s.writers[t], x.w)))
  {
    var w := s.writers[t];
    var x := ChangeStep(c, s.h, t.pid, w);
    ChangeRises(c, s.h, t.pid, w);
    ChangeMarks(c, s.h, s.changed.asked, t.pid, w);
    ChangedRaiser(c, s.h, s.changed.asked, t.pid, w);
    RaisersWith(c, s.h.log, s.changed.asked, s.writers, t, x.w);
    RaisersStay(c, s.h.log, x.h.log, s.changed.asked, s.changed.asked, s.writers[t := x.w]);
    EnforcedStays(c, s.h.marks, x.h.marks, s.changed.ended);
  }

  lemma PreparedRaiser(c: Config, h: Shared, dead: set<nat>, pid: nat, asked: seq<Invalidation>, w: Writer, pick: nat)
    requires Shape(c, h) && SlotsOk(c, h) && WriterOk(c, h, dead, pid, w) && !Changes(w) && RaiserOk(c, h.log, asked, w)
    ensures RaiserOk(c, h.log, asked, PrepareStep(c, h, dead, w, pick))
    ensures Invalidating(w) && PrepareStep(c, h, dead, w, pick).Done? ==>
              Enforced(c, h.marks, Invalidation(w.target, w.to))
  {
    if w.EvictCheck? { EvictedIsPublished(c, h, dead, pid, w); }
  }

  lemma PrepareKeeps(c: Config, s: State, t: Thread, pick: nat)
    requires Shape(c, s.h) && SlotsOk(c, s.h) && MarksInv(c, s) && t in s.writers && !Changes(s.writers[t])
    requires WriterOk(c, s.h, s.dead, t.pid, s.writers[t])
    ensures var w := PrepareStep(c, s.h, s.dead, s.writers[t], pick);
            MarksInv(c, s.(writers := s.writers[t := w], changed := Ending(s.changed, s.writers[t], w)))
  {
    PreparedRaiser(c, s.h, s.dead, t.pid, s.changed.asked, s.writers[t], pick);
    RaisersWith(c, s.h.log, s.changed.asked, s.writers, t, PrepareStep(c, s.h, s.dead, s.writers[t], pick));
  }

  lemma InvWriter(c: Config, s: State, t: Thread)
    requires Inv(c, s) && t in s.writers
    ensures Shape(c, s.h) && SlotsOk(c, s.h) && WriterOk(c, s.h, s.dead, t.pid, s.writers[t])
  {
  }

  lemma WriteKeeps(c: Config, s: State, t: Thread, pick: nat)
    requires Inv(c, s) && MarksInv(c, s)
    ensures MarksInv(c, Wrote(c, s, t, pick))
  {
    if t in s.writers && !s.writers[t].Done? {
      InvWriter(c, s, t);
      if Changes(s.writers[t]) { ChangeKeeps(c, s, t); } else { PrepareKeeps(c, s, t, pick); }
    }
  }

  lemma AskKeeps(c: Config, s: State, t: Thread, target: nat, to: nat)
    requires Shape(c, s.h) && MarksInv(c, s)
    ensures MarksInv(c, InvalidateStarted(s, t, target, to))
  {
    var s' := InvalidateStarted(s, t, target, to);
    if s' != s {
      var asked, also := s.changed.asked, s'.changed.asked;
      forall j: nat | j < |s.h.marks| ensures MarkOk(c, s'.h, also, j) { MarkStays(c, s.h, s'.h, asked, also, j); }
      RaisersStay(c, s.h.log, s.h.log, asked, also, s.writers);
      assert also[|asked|] == Invalidation(target, to);
      RaisersWith(c, s.h.log, also, s.writers, t, InvalidateLoad(target, to));
    }
  }

  lemma StepKeeps(c: Config, s: State, a: Action)
    requires Inv(c, s) && MarksInv(c, s)
    ensures MarksInv(c, Apply(c, s, a))
  {
    ApplyIs(c, s, a);
    match a
    case Write(t, pick) => WriteKeeps(c, s, t, pick);
    case StartInvalidate(t, target, to) => AskKeeps(c, s, t, target, to);
    case StartPut(t, p) =>
    case GiveUp(t) =>
    case StartGet(t, q) =>
    case Select(t) =>
    case Look(t) =>
    case Die(pid) =>
  }

  lemma {:induction false} ReachMarks(c: Config, actions: seq<Action>)
    requires Sane(c)
    ensures MarksInv(c, Reach(c, actions))
  {
    if actions != [] {
      ReachMarks(c, actions[..|actions| - 1]);
      ReachInv(c, actions[..|actions| - 1]);
      StepKeeps(c, Reach(c, actions[..|actions| - 1]), actions[|actions| - 1]);
    }
  }

  // ---- What that says -------------------------------------------------------------

  lemma StepRises(c: Config, s: State, a: Action)
    requires Inv(c, s)
    ensures Risen(s.h.marks, Apply(c, s, a).h.marks)
  {
    ApplyIs(c, s, a);
    if a.Write? && a.t in s.writers && !s.writers[a.t].Done? {
      InvWriter(c, s, a.t);
      if Changes(s.writers[a.t]) { ChangeRises(c, s.h, a.t.pid, s.writers[a.t]); }
    }
  }

  lemma RunRises(c: Config, before: seq<Action>, all: seq<Action>)
    requires Sane(c) && |all| == |before| + 1 && all[..|before|] == before
    ensures Risen(Reach(c, before).h.marks, Reach(c, all).h.marks)
  {
    ReachInv(c, before);
    StepRises(c, Reach(c, before), all[|before|]);
  }

  lemma RisenOn(x: seq<nat>, y: seq<nat>, z: seq<nat>)
    requires Risen(x, y) && Risen(y, z)
    ensures Risen(x, z)
  {
  }

  /** Over any further run no mark is lowered. */
  lemma {:induction false} NoMarkFalls(c: Config, before: seq<Action>, after: seq<Action>)
    requires Sane(c)
    ensures Risen(Reach(c, before).h.marks, Reach(c, before + after).h.marks)
    decreases |after|
  {
    if after == [] {
      assert before + after == before;
    } else {
      var init := after[..|after| - 1];
      NoMarkFalls(c, before, init);
      assert (before + after)[..|before + init|] == before + init;
      RunRises(c, before + init, before + after);
      RisenOn(Reach(c, before).h.marks, Reach(c, before + init).h.marks, Reach(c, before + after).h.marks);
    }
  }

  /** And a mark is only ever what some invalidation asked for, or one below the number of a
      published copy: nothing is out of date for any other reason. */
  lemma MarksAreCalledFor(c: Config, actions: seq<Action>, j: nat)
    requires Sane(c) && j < c.marks
    ensures var s := Reach(c, actions);
            || s.h.marks[j] == 0
            || (exists i :: 0 <= i < |s.changed.asked| && s.changed.asked[i].to == s.h.marks[j]
                            && Mark(c, s.changed.asked[i].target) == j)
            || (exists k :: 0 <= k < |s.h.log| && s.h.log[k].sequence == s.h.marks[j] + 1
                            && Mark(c, c.target(s.h.log[k].key)) == j)
  {
    ReachMarks(c, actions);
    assert MarkOk(c, Reach(c, actions).h, Reach(c, actions).changed.asked, j);
  }

  // ---- Lookups after an invalidation ------------------------------------------------

  /** A lookup of `t` that has hit is above `i`. */
  ghost predicate Above(c: Config, lookups: map<Thread, Lookup>, t: Thread, i: Invalidation) {
    t in lookups && lookups[t].Hit? && c.target(lookups[t].q.key) == i.target ==> lookups[t].sequence > i.to
  }

  lemma LookAbove(c: Config, h: Shared, x: Lookup, i: Invalidation)
    requires Shape(c, h) && LookOk(c, h, x) && Enforced(c, h.marks, i)
    ensures var y := LookupStep(c, h, x);
            y.Hit? && c.target(y.q.key) == i.target ==> (x.Hit? && y == x) || y.sequence > i.to
  {
    if x.MarkCheck? {
      var k :| 0 <= k < |h.log| && Matches(c, x.q, x.b.sequence, x.got, x.out, h.log[k]);
    }
  }

  lemma LookedAbove(c: Config, s: State, u: Thread, t: Thread, i: Invalidation)
    requires Inv(c, s) && Enforced(c, s.h.marks, i) && Above(c, s.lookups, t, i)
    ensures Above(c, Looked(c, s, u).lookups, t, i)
  {
    if u == t && t in s.lookups {
      assert LookOk(c, s.h, s.lookups[t]);
      LookAbove(c, s.h, s.lookups[t], i);
    }
  }

  lemma StepAbove(c: Config, s: State, a: Action, t: Thread, i: Invalidation)
    requires Inv(c, s) && Enforced(c, s.h.marks, i) && Above(c, s.lookups, t, i)
    ensures Above(c, Apply(c, s, a).lookups, t, i)
  {
    ApplyIs(c, s, a);
    match a
    case Look(u) => LookedAbove(c, s, u, t, i);
    case StartPut(_, _) =>
    case StartInvalidate(_, _, _) =>
    case Write(_, _) =>
    case GiveUp(_) =>
    case StartGet(_, _) =>
    case Select(_) =>
    case Die(_) =>
  }

  /** What holds of `i` and thread `t` at the end of a run. */
  ghost predicate Safe(c: Config, actions: seq<Action>, t: Thread, i: Invalidation)
    requires Sane(c)
  {
    Enforced(c, Reach(c, actions).h.marks, i) && Above(c, Reach(c, actions).lookups, t, i)
  }

  lemma NextSafe(c: Config, actions: seq<Action>, more: seq<Action>, t: Thread, i: Invalidation)
    requires Sane(c) && Safe(c, actions, t, i) && |more| == |actions| + 1 && more[..|actions|] == actions
    ensures Safe(c, more, t, i)
  {
    var a := more[|actions|];
    ReachInv(c, actions);
    StepAbove(c, Reach(c, actions), a, t, i);
    StepRises(c, Reach(c, actions), a);
  }

  lemma {:induction false} StaysSafe(c: Config, all: seq<Action>, n: nat, t: Thread, i: Invalidation)
    requires Sane(c) && n <= |all| && Safe(c, all[..n], t, i)
    ensures Safe(c, all, t, i)
    decreases |all| - n
  {
    if n == |all| {
      assert all[..n] == all;
    } else {
      assert all[..n + 1][..n] == all[..n];
      NextSafe(c, all[..n], all[..n + 1], t, i);
      StaysSafe(c, all, n + 1, t, i);
    }
  }

  /** Once an invalidation has returned, no lookup begun after that serves a copy of its
      target numbered at or below it: whatever puts, evictions, retirements and deaths do. */
  lemma InvalidatedIsNotServed(c: Config, before: seq<Action>, t: Thread, q: Query, after: seq<Action>, n: nat)
    requires Sane(c) && 1 <= |q.key| <= MAX_KEY && n < |Reach(c, before).changed.ended|
    requires var s := Reach(c, before + [StartGet(t, q)] + after);
             t in s.lookups && s.lookups[t].Hit?
             && c.target(s.lookups[t].q.key) == Reach(c, before).changed.ended[n].target
    ensures var s := Reach(c, before + [StartGet(t, q)] + after);
            s.lookups[t].sequence > Reach(c, before).changed.ended[n].to
  {
    var i := Reach(c, before).changed.ended[n];
    ReachMarks(c, before);
    assert Enforced(c, Reach(c, before).h.marks, i);
    var begun := before + [StartGet(t, q)];
    assert begun[..|before|] == before;
    DeadHaveNone(c, before, t);
    assert Safe(c, begun, t, i);
    var all := begun + after;
    assert all[..|begun|] == begun;
    StaysSafe(c, all, |begun|, t, i);
  }

  /** A thread whose process is gone has no lookup. */
  lemma {:induction false} DeadHaveNone(c: Config, actions: seq<Action>, t: Thread)
    requires Sane(c)
    ensures t.pid in Reach(c, actions).dead ==> t !in Reach(c, actions).lookups
  {
    if actions != [] {
      var before, a := actions[..|actions| - 1], actions[|actions| - 1];
      DeadHaveNone(c, before, t);
      ApplyIs(c, Reach(c, before), a);
    }
  }

  /** An invalidation that finds the mark as it read it ends with its next step. */
  lemma SwapEnds(c: Config, s: State, t: Thread, target: nat, to: nat, pick: nat)
    requires Shape(c, s.h) && t in s.writers && s.h.marks[Mark(c, target)] < to
    requires s.writers[t] == InvalidateCas(target, to, s.h.marks[Mark(c, target)])
    ensures Apply(c, s, Write(t, pick)).changed.ended == s.changed.ended + [Invalidation(target, to)]
  {
  }

  lemma LoadGoes(c: Config, s: State, t: Thread, target: nat, to: nat, pick: nat)
    requires Shape(c, s.h) && t in s.writers && s.writers[t] == InvalidateLoad(target, to)
    ensures var seen, b := s.h.marks[Mark(c, target)], Apply(c, s, Write(t, pick));
            if seen < to then b == s.(writers := s.writers[t := InvalidateCas(target, to, seen)])
            else b.changed.ended == s.changed.ended + [Invalidation(target, to)]
  {
  }

  /** An invalidation that nothing interrupts returns within two steps. */
  lemma InvalidationEnds(c: Config, s: State, t: Thread, target: nat, to: nat, pick: nat)
    requires Shape(c, s.h) && t.pid !in s.dead && t !in s.writers
    ensures var b := Apply(c, Apply(c, s, StartInvalidate(t, target, to)), Write(t, pick));
            var ended := s.changed.ended + [Invalidation(target, to)];
            b.changed.ended == ended || Apply(c, b, Write(t, pick)).changed.ended == ended
  {
    var a := Apply(c, s, StartInvalidate(t, target, to));
    LoadGoes(c, a, t, target, to, pick);
    if a.h.marks[Mark(c, target)] < to { SwapEnds(c, Apply(c, a, Write(t, pick)), t, target, to, pick); }
  }
}
