/** A lookup that nothing interrupts: it answers as the selection in one step would, and
    finds every copy there is to find. */
module CacheAlone {
  import opened Wrappers
  import opened Cache
  import opened CacheProof
  import opened CacheRun
  import opened Paths

  // ---- The search -----------------------------------------------------------------

  /** The best so far, once probe `i` has been looked at. */
  ghost function Better(c: Config, h: Shared, key: seq<nat>, i: nat, best: Option<Best>): Option<Best>
    requires Shape(c, h) && i < |ProbesFrom(c, key, 0)|
  {
    var at := ProbesFrom(c, key, 0)[i];
    if ProbeOk(c, at) && HoldsNow(c, h, key, at) && h.slots[at.slot].cells[SEQUENCE] > BestSequence(best)
    then Some(Best(at, h.slots[at.slot].version, h.slots[at.slot].cells[SEQUENCE])) else best
  }

  /** Comparisons `n` and on of probe `i` all pass. */
  ghost predicate Passes(c: Config, h: Shared, key: seq<nat>, at: Probe, n: nat)
    requires Shape(c, h) && ProbeOk(c, at)
  {
    forall m :: n <= m < 3 + |key| ==> CheckPasses(c, key, at.capacity, h.slots[at.slot].cells, m)
  }

  lemma PassesIsHolds(c: Config, h: Shared, key: seq<nat>, at: Probe)
    requires Shape(c, h) && ProbeOk(c, at) && h.slots[at.slot].version.Stable? && key != []
    ensures Passes(c, h, key, at, 0) <==> HoldsNow(c, h, key, at)
  {
    var cells := h.slots[at.slot].cells;
    if Passes(c, h, key, at, 0) {
      assert CheckPasses(c, key, at.capacity, cells, 3);
      forall n | 0 <= n < 3 + |key| ensures cells[CheckCell(n)] == CheckValue(c, key, n) {
        assert CheckPasses(c, key, at.capacity, cells, n);
      }
    }
  }

  lemma {:induction false} CheckAlone(c: Config, h: Shared, q: Query, from: nat, i: nat, best: Option<Best>, v: Word,
                                      at: Probe, n: nat) returns (k: nat)
    requires Shape(c, h) && i < |ProbesFrom(c, q.key, 0)| && at == ProbesFrom(c, q.key, 0)[i] && ProbeOk(c, at)
    requires v.Stable? && n < 3 + |q.key|
    ensures Leads(Looker(c, h), ScanCheck(q, from, i, best, v, n),
                  if Passes(c, h, q.key, at, n) then ScanSequence(q, from, i, best, v)
                  else Scan(q, from, i + 1, best), k)
    decreases 3 + |q.key| - n
  {
    var step, x := Looker(c, h), ScanCheck(q, from, i, best, v, n);
    if !CheckPasses(c, q.key, at.capacity, h.slots[at.slot].cells, n) {
      LeadsOnce(step, x, Scan(q, from, i + 1, best));
      k := 1;
    } else if n + 1 == 3 + |q.key| {
      LeadsOnce(step, x, ScanSequence(q, from, i, best, v));
      k := 1;
    } else {
      k := CheckAlone(c, h, q, from, i, best, v, at, n + 1);
      assert Passes(c, h, q.key, at, n) == Passes(c, h, q.key, at, n + 1);
      LeadsOn(step, x, ScanCheck(q, from, i, best, v, n + 1),
              if Passes(c, h, q.key, at, n) then ScanSequence(q, from, i, best, v) else Scan(q, from, i + 1, best), k);
      k := k + 1;
    }
  }

  /** A slot that is held by the key, taken up or not as its number says. */
  lemma TakenUp(c: Config, h: Shared, q: Query, from: nat, i: nat, best: Option<Best>, at: Probe, v: Word)
    requires Shape(c, h) && i < |ProbesFrom(c, q.key, 0)| && at == ProbesFrom(c, q.key, 0)[i] && ProbeOk(c, at)
    requires v == h.slots[at.slot].version && v.Stable? && HoldsNow(c, h, q.key, at)
    ensures Leads(Looker(c, h), ScanSequence(q, from, i, best, v),
                  Scan(q, from, i + 1, Better(c, h, q.key, i, best)), 2)
  {
    var y := ScanConfirm(q, from, i, best, v, h.slots[at.slot].cells[SEQUENCE]);
    LeadsOnce(Looker(c, h), y, Scan(q, from, i + 1, Better(c, h, q.key, i, best)));
    LeadsOn(Looker(c, h), ScanSequence(q, from, i, best, v), y, Scan(q, from, i + 1, Better(c, h, q.key, i, best)), 1);
  }

  lemma ProbeAlone(c: Config, h: Shared, q: Query, from: nat, i: nat, best: Option<Best>) returns (n: nat)
    requires Shape(c, h) && i < |ProbesFrom(c, q.key, 0)| && q.key != []
    ensures Leads(Looker(c, h), Scan(q, from, i, best), Scan(q, from, i + 1, Better(c, h, q.key, i, best)), n)
  {
    var step, at := Looker(c, h), ProbesFrom(c, q.key, 0)[i];
    var x, z := Scan(q, from, i, best), Scan(q, from, i + 1, Better(c, h, q.key, i, best));
    if !ProbeOk(c, at) || h.slots[at.slot].version.Claimed? {
      LeadsOnce(step, x, z);
      n := 1;
    } else {
      var v := h.slots[at.slot].version;
      PassesIsHolds(c, h, q.key, at);
      var k := CheckAlone(c, h, q, from, i, best, v, at, 0);
      var y := ScanCheck(q, from, i, best, v, 0);
      if Passes(c, h, q.key, at, 0) {
        TakenUp(c, h, q, from, i, best, at, v);
        LeadsThen(step, y, ScanSequence(q, from, i, best, v), z, k, 2);
        k := k + 2;
      }
      LeadsOn(step, x, y, z, k);
      n := k + 1;
    }
  }

  lemma {:induction false} SearchAlone(c: Config, h: Shared, q: Query, from: nat, i: nat, best: Option<Best>)
    returns (n: nat)
    requires Shape(c, h) && i <= |ProbesFrom(c, q.key, 0)| && q.key != []
    ensures Leads(Looker(c, h), Scan(q, from, i, best),
                  Scan(q, from, |ProbesFrom(c, q.key, 0)|, SelectNow(c, h, q.key, i, best)), n)
    decreases |ProbesFrom(c, q.key, 0)| - i
  {
    var step, z := Looker(c, h), Scan(q, from, |ProbesFrom(c, q.key, 0)|, SelectNow(c, h, q.key, i, best));
    if i == |ProbesFrom(c, q.key, 0)| {
      LeadsNowhere(step, z);
      n := 0;
    } else {
      var a := ProbeAlone(c, h, q, from, i, best);
      var next := Better(c, h, q.key, i, best);
      var b := SearchAlone(c, h, q, from, i + 1, next);
      assert SelectNow(c, h, q.key, i, best) == SelectNow(c, h, q.key, i + 1, next);
      LeadsThen(step, Scan(q, from, i, best), Scan(q, from, i + 1, next), z, a, b);
      n := a + b;
    }
  }

  // ---- The copy selected ------------------------------------------------------------

  /** What a selection picked is in its slot now. */
  ghost predicate Picked(c: Config, h: Shared, key: seq<nat>, b: Best)
    requires Shape(c, h)
  {
    && ProbeOk(c, b.at) && HoldsNow(c, h, key, b.at)
    && h.slots[b.at.slot].version == b.v && h.slots[b.at.slot].cells[SEQUENCE] == b.sequence
  }

  lemma {:induction false} PickIs(c: Config, h: Shared, key: seq<nat>, i: nat, best: Option<Best>)
    requires Shape(c, h) && (best.Some? ==> Picked(c, h, key, best.value))
    ensures SelectNow(c, h, key, i, best).Some? ==> Picked(c, h, key, SelectNow(c, h, key, i, best).value)
    decreases |ProbesFrom(c, key, 0)| - i
  {
    if i < |ProbesFrom(c, key, 0)| { PickIs(c, h, key, i + 1, Better(c, h, key, i, best)); }
  }

  /** It is a published put, whole. */
  lemma PickedIsPut(c: Config, h: Shared, q: Query, b: Best)
    requires Shape(c, h) && SlotsOk(c, h) && Picked(c, h, q.key, b)
    ensures h.slots[b.at.slot].from.Some? && h.slots[b.at.slot].from.value in h.log
    ensures Storable(c, h.slots[b.at.slot].from.value) && Needed(h.slots[b.at.slot].from.value) <= b.at.capacity
    ensures Readable(c, h, q, b, h.slots[b.at.slot].from.value)
  {
    var j := b.at.slot;
    assert SlotOk(c, j, h.slots[j], h.log);
    forall n | 0 <= n < 3 + |q.key| ensures CheckPasses(c, q.key, c.rooms[j], h.slots[j].cells, n) {
    }
    EntryMatches(c, j, h.slots[j], h.log, q.key);
    var p := h.slots[j].from.value;
    assert Image(c, p)[SEQUENCE] == h.slots[j].cells[SEQUENCE];
  }

  /** The answer to a lookup, from the table as it is. */
  ghost function Answered(c: Config, h: Shared, q: Query, from: nat): Lookup
    requires Shape(c, h) && SlotsOk(c, h)
  {
    var best := SelectNow(c, h, q.key, 0, None);
    if best.None? then Miss(q)
    else
      PickIs(c, h, q.key, 0, None);
      PickedIsPut(c, h, q, best.value);
      Answer(c, h, q, Seen(from, |h.log|), best.value, h.slots[best.value.at.slot].from.value)
  }

  /** A lookup on its own comes to that answer. */
  lemma AnswerAlone(c: Config, h: Shared, q: Query, from: nat) returns (n: nat)
    requires Shape(c, h) && SlotsOk(c, h) && q.key != []
    ensures Leads(Looker(c, h), Scan(q, from, 0, None), Answered(c, h, q, from), n)
  {
    var step, best, m := Looker(c, h), SelectNow(c, h, q.key, 0, None), |ProbesFrom(c, q.key, 0)|;
    var x, y, z := Scan(q, from, 0, None), Scan(q, from, m, best), Answered(c, h, q, from);
    var a := SearchAlone(c, h, q, from, 0, None);
    if best.None? {
      LeadsOnce(step, y, z);
      LeadsThen(step, x, y, z, a, 1);
      n := a + 1;
    } else {
      var b := best.value;
      PickIs(c, h, q.key, 0, None);
      PickedIsPut(c, h, q, b);
      var p := h.slots[b.at.slot].from.value;
      CopyRead(c, h, q, Seen(from, |h.log|), b, p);
      LeadsOn(step, y, Fields(q, Seen(from, |h.log|), b, []), z, ReadSteps(c, q, b, p));
      LeadsThen(step, x, y, z, a, ReadSteps(c, q, b, p) + 1);
      n := a + ReadSteps(c, q, b, p) + 1;
    }
  }

  // ---- In every reachable state -------------------------------------------------------

  /** Two publications of one number of a key are the same put: numbers are handed out once. */
  ghost predicate Numbered(log: seq<Put>) {
    forall k, l ::
      0 <= k < |log| && 0 <= l < |log| && log[k].key == log[l].key && log[k].sequence == log[l].sequence ==>
        log[k] == log[l]
  }

  /** There is a copy to serve: the newest published, still kept, above its mark, not expired,
      and no longer than the caller has room for. */
  ghost predicate Serves(c: Config, h: Shared, q: Query, p: Put)
    requires 0 < c.marks == |h.marks|
  {
    && p in h.log && p.key == q.key && Kept(h.slots, p) && !Superseded(h.log, p)
    && h.marks[Mark(c, c.target(p.key))] < p.sequence
    && q.now < p.now + p.ttl && |p.head| + |p.body| <= q.room
  }

  lemma TopIsNewest(log: seq<Put>, key: seq<nat>, x: nat, p: Put)
    requires Top(log, |log|, key, x) || Overtaken(log, |log|, |log|, key)
    requires p.key == key && p.sequence == x
    ensures !Superseded(log, p)
  {
  }

  /** What is served is the copy that should be. */
  lemma HitServes(c: Config, h: Shared, q: Query, from: nat, b: Best)
    requires Shape(c, h) && SlotsOk(c, h) && AllCovered(c, h) && SelectNow(c, h, q.key, 0, None) == Some(b)
    ensures b.at.slot < |h.slots| && h.slots[b.at.slot].from.Some?
    ensures Answered(c, h, q, from).Hit? ==> Serves(c, h, q, h.slots[b.at.slot].from.value)
  {
    PickIs(c, h, q.key, 0, None);
    PickedIsPut(c, h, q, b);
    var p := h.slots[b.at.slot].from.value;
    if Answered(c, h, q, from).Hit? {
      SelectedIsNewest(c, h, q.key, b);
      TopIsNewest(h.log, q.key, b.sequence, p);
    }
  }

  lemma KeptIsPicked(c: Config, h: Shared, q: Query, p: Put) returns (b: Best)
    requires Shape(c, h) && SlotsOk(c, h) && Serves(c, h, q, p) && Numbered(h.log)
    ensures SelectNow(c, h, q.key, 0, None) == Some(b) && Picked(c, h, q.key, b)
    ensures h.slots[b.at.slot].from == Some(p)
  {
    var j :| 0 <= j < |h.slots| && h.slots[j].version.Stable? && h.slots[j].from == Some(p);
    KeptIsFound(c, h, j, p);
    SelectNewest(c, h, q.key, 0, None);
    var n :| 0 <= n < |ProbesFrom(c, q.key, 0)| && ProbesFrom(c, q.key, 0)[n] == Probe(j, c.rooms[j]);
    assert p.sequence <= BestSequence(SelectNow(c, h, q.key, 0, None));
    b := SelectNow(c, h, q.key, 0, None).value;
    PickIs(c, h, q.key, 0, None);
    PickedIsPut(c, h, q, b);
    SamePut(h.log, p, h.slots[b.at.slot].from.value);
  }

  lemma SamePut(log: seq<Put>, p: Put, r: Put)
    requires Numbered(log) && p in log && r in log && p.key == r.key && !Superseded(log, p) && p.sequence <= r.sequence
    ensures p == r
  {
    var k :| 0 <= k < |log| && log[k] == p;
    var l :| 0 <= l < |log| && log[l] == r;
  }

  lemma ServedHits(c: Config, h: Shared, q: Query, from: nat, p: Put)
    requires Shape(c, h) && SlotsOk(c, h) && Serves(c, h, q, p) && Numbered(h.log)
    ensures Answered(c, h, q, from) == HitOn(p, q, Seen(from, |h.log|))
  {
    var b := KeptIsPicked(c, h, q, p);
    PickedIsPut(c, h, q, b);
  }

  lemma LookupRun(c: Config, actions: seq<Action>, t: Thread, q: Query, y: Lookup, n: nat)
    requires Sane(c) && 1 <= |q.key| <= MAX_KEY && t.pid !in Reach(c, actions).dead
    requires Leads(Looker(c, Reach(c, actions).h), Scan(q, |Reach(c, actions).h.log|, 0, None), y, n)
    ensures var s' := Reach(c, actions + [StartGet(t, q)] + Looks(t, n)); t in s'.lookups && s'.lookups[t] == y
  {
    ReachMore(c, actions, [StartGet(t, q)] + Looks(t, n));
    StartedLooks(c, Reach(c, actions), t, q, y, n);
    assert actions + [StartGet(t, q)] + Looks(t, n) == actions + ([StartGet(t, q)] + Looks(t, n));
  }

  lemma ReachTable(c: Config, actions: seq<Action>)
    requires Sane(c)
    ensures SlotsOk(c, Reach(c, actions).h) && AllCovered(c, Reach(c, actions).h)
  {
    ReachInv(c, actions);
  }

  /** `x` serves the copy there is to serve, and misses only if there is none. */
  ghost predicate Right(c: Config, h: Shared, q: Query, from: nat, x: Lookup)
    requires 0 < c.marks == |h.marks|
  {
    && (x.Hit? || x.Miss?)
    && (x.Hit? <==> exists p :: Serves(c, h, q, p))
    && (forall p :: Serves(c, h, q, p) ==> x == HitOn(p, q, Seen(from, |h.log|)))
  }

  lemma AnswerIsRight(c: Config, h: Shared, q: Query, from: nat)
    requires Shape(c, h) && SlotsOk(c, h) && AllCovered(c, h) && Numbered(h.log)
    ensures Right(c, h, q, from, Answered(c, h, q, from))
  {
    forall p | Serves(c, h, q, p) ensures Answered(c, h, q, from) == HitOn(p, q, Seen(from, |h.log|)) {
      ServedHits(c, h, q, from, p);
    }
    if Answered(c, h, q, from).Hit? {
      var b := SelectNow(c, h, q.key, 0, None).value;
      HitServes(c, h, q, from, b);
      assert Serves(c, h, q, h.slots[b.at.slot].from.value);
    }
  }

  /** In every reachable state, with writers stopped anywhere: a lookup that nothing interrupts
      hits if and only if there is a copy to serve, and answers with that copy. */
  lemma LookupFinds(c: Config, actions: seq<Action>, t: Thread, q: Query) returns (n: nat)
    requires Sane(c) && 1 <= |q.key| <= MAX_KEY && t.pid !in Reach(c, actions).dead
    requires Numbered(Reach(c, actions).h.log)
    ensures var h := Reach(c, actions).h;
            var s' := Reach(c, actions + [StartGet(t, q)] + Looks(t, n));
            t in s'.lookups && Right(c, h, q, |h.log|, s'.lookups[t])
  {
    var h := Reach(c, actions).h;
    ReachTable(c, actions);
    n := AnswerAlone(c, h, q, |h.log|);
    LookupRun(c, actions, t, q, Answered(c, h, q, |h.log|), n);
    AnswerIsRight(c, h, q, |h.log|);
  }
}
