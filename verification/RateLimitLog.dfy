/** The rate limiter told from its log alone: which checks are refused, and why. */
module RateLimitLog {
  import opened Arith
  import opened RateLimit

  // ---- Who finds an entry -------------------------------------------------------

  /** Probe `p` of the client holds another one that has something left to wait for. */
  ghost predicate Busy(c: Config, t: seq<Entry>, key: nat, now: nat, p: nat)
    requires Sound(c) && |t| == c.entries
  {
    var e := t[Slot(c, key, p)];
    e.key != key && e.key != 0 && e.tat > now
  }

  lemma {:induction false} HomeOrBusy(c: Config, t: seq<Entry>, key: nat, p: nat)
    requires Sound(c) && |t| == c.entries && p <= PROBES
    ensures Home(c, t, key, p) == PROBES <==>
              forall q: nat :: p <= q < PROBES ==> t[Slot(c, key, q)].key != key && t[Slot(c, key, q)].key != 0
    decreases PROBES - p
  {
    if p < PROBES { HomeOrBusy(c, t, key, p + 1); }
  }

  lemma {:induction false} IdleOrBusy(c: Config, t: seq<Entry>, key: nat, now: nat, p: nat)
    requires Sound(c) && |t| == c.entries && p <= PROBES
    ensures Idle(c, t, key, now, p) == PROBES <==> forall q: nat :: p <= q < PROBES ==> t[Slot(c, key, q)].tat > now
    decreases PROBES - p
  {
    if p < PROBES { IdleOrBusy(c, t, key, now, p + 1); }
  }

  /** A check goes uncharged exactly if all eight probes hold others that are busy. */
  lemma UnfoundExactly(c: Config, t: seq<Entry>, key: nat, now: nat)
    requires Sound(c) && |t| == c.entries
    ensures Find(c, t, key, now).None? <==> forall p: nat :: p < PROBES ==> Busy(c, t, key, now, p)
  {
    HomeOrBusy(c, t, key, 0);
    IdleOrBusy(c, t, key, now, 0);
    if forall p: nat :: p < PROBES ==> Busy(c, t, key, now, p) {
      forall q: nat | 0 <= q < PROBES
        ensures t[Slot(c, key, q)].key != key && t[Slot(c, key, q)].key != 0 && t[Slot(c, key, q)].tat > now {
        assert Busy(c, t, key, now, q);
      }
    }
  }

  // ---- What the log says ----------------------------------------------------------

  /** The check was admitted and paid for. */
  predicate Charges(e: Event, key: nat) { e.key == key && e.found && e.wait == 0 }

  /** The client's admissions from `from` on. */
  function Since(log: seq<Event>, key: nat, from: nat): nat {
    if log == [] then 0
    else Since(log[..|log| - 1], key, from)
         + (if Charges(log[|log| - 1], key) && from <= log[|log| - 1].now then 1 else 0)
  }

  /** Some admission, with those from it on at one emission each, reaches past `to`. */
  ghost predicate Exceeds(c: Config, log: seq<Event>, key: nat, to: nat) {
    exists k :: 0 <= k < |log| && Charges(log[k], key)
                && log[k].now + Since(log, key, log[k].now) * c.emission > to
  }

  /** The arrival time is the furthest any admission reaches. */
  ghost predicate Furthest(c: Config, log: seq<Event>, key: nat, tat: nat) {
    && (forall k :: 0 <= k < |log| && Charges(log[k], key) ==>
          log[k].now + Since(log, key, log[k].now) * c.emission <= tat)
    && (tat > 0 ==>
          exists k :: 0 <= k < |log| && Charges(log[k], key)
                      && log[k].now + Since(log, key, log[k].now) * c.emission == tat)
  }

  lemma SinceMore(log: seq<Event>, e: Event, key: nat, from: nat)
    ensures Since(log + [e], key, from)
            == Since(log, key, from) + (if Charges(e, key) && from <= e.now then 1 else 0)
  {
    assert (log + [e])[..|log|] == log;
  }

  lemma {:induction false} SinceNone(log: seq<Event>, key: nat, from: nat)
    requires forall k :: 0 <= k < |log| && Charges(log[k], key) ==> log[k].now < from
    ensures Since(log, key, from) == 0
  {
    if log != [] {
      var front := log[..|log| - 1];
      forall k | 0 <= k < |front| && Charges(front[k], key) ensures front[k].now < from { assert front[k] == log[k]; }
      SinceNone(front, key, from);
    }
  }

  /** A check that is not charged leaves it. */
  lemma FurthestStays(c: Config, log: seq<Event>, e: Event, key: nat, tat: nat)
    requires Furthest(c, log, key, tat) && !Charges(e, key)
    ensures Furthest(c, log + [e], key, tat)
  {
    var all := log + [e];
    forall k | 0 <= k < |all| && Charges(all[k], key)
      ensures all[k].now + Since(all, key, all[k].now) * c.emission <= tat {
      assert all[k] == log[k];
      SinceMore(log, e, key, all[k].now);
    }
    if tat > 0 {
      var k :| 0 <= k < |log| && Charges(log[k], key)
               && log[k].now + Since(log, key, log[k].now) * c.emission == tat;
      assert all[k] == log[k];
      SinceMore(log, e, key, log[k].now);
    }
  }

  lemma Reaches(log: seq<Event>, e: Event, key: nat, from: nat, emission: nat, tat: nat)
    requires Charges(e, key) && from <= e.now && from + Since(log, key, from) * emission <= tat
    ensures from + Since(log + [e], key, from) * emission == from + Since(log, key, from) * emission + emission
  {
    SinceMore(log, e, key, from);
    MulSucc(Since(log, key, from), emission);
  }

  /** An admission takes it on by one emission, or starts it afresh. */
  lemma FurthestMoves(c: Config, log: seq<Event>, e: Event, key: nat, tat: nat)
    requires Furthest(c, log, key, tat) && Charges(e, key)
    requires forall k :: 0 <= k < |log| ==> log[k].now <= e.now
    ensures Furthest(c, log + [e], key, Max(tat, e.now) + c.emission)
  {
    var all, next := log + [e], Max(tat, e.now) + c.emission;
    FreshReach(c, log, e, key, tat);
    forall k | 0 <= k < |all| && Charges(all[k], key)
      ensures all[k].now + Since(all, key, all[k].now) * c.emission <= next {
      if k < |log| {
        assert all[k] == log[k];
        Reaches(log, e, key, log[k].now, c.emission, tat);
      }
    }
    if tat > e.now {
      var k :| 0 <= k < |log| && Charges(log[k], key)
               && log[k].now + Since(log, key, log[k].now) * c.emission == tat;
      Reaches(log, e, key, log[k].now, c.emission, tat);
      assert all[k] == log[k];
    }
  }

  lemma OneFromHere(n: nat, emission: nat, tat: nat, now: nat)
    requires n > 0 ==> now + n * emission <= tat
    ensures now + (n + 1) * emission <= Max(tat, now) + emission
    ensures tat <= now ==> (n + 1) * emission == emission
  {
    MulSucc(n, emission);
  }

  /** How far the newest admission itself reaches: as far as an earlier one at its instant. */
  lemma FreshReach(c: Config, log: seq<Event>, e: Event, key: nat, tat: nat)
    requires Furthest(c, log, key, tat) && Charges(e, key)
    requires forall k :: 0 <= k < |log| ==> log[k].now <= e.now
    ensures e.now + Since(log + [e], key, e.now) * c.emission <= Max(tat, e.now) + c.emission
    ensures tat <= e.now ==> Since(log + [e], key, e.now) * c.emission == c.emission
  {
    SinceMore(log, e, key, e.now);
    if k :| 0 <= k < |log| && Charges(log[k], key) && log[k].now == e.now {
      assert log[k].now + Since(log, key, log[k].now) * c.emission <= tat;
    } else {
      SinceNone(log, key, e.now);
    }
    OneFromHere(Since(log, key, e.now), c.emission, tat, e.now);
  }

  // ---- Over every run ----------------------------------------------------------------

  /** The log explains each client's arrival time. */
  ghost predicate Explains(c: Config, s: State, key: nat) {
    && Furthest(c, s.log, key, TatIn(s.ideal, key))
    && (forall k :: 0 <= k < |s.log| ==> s.log[k].now <= s.clock)
  }

  /** One more check in the log, and what it makes of the arrival time. */
  lemma FurthestNext(c: Config, log: seq<Event>, e: Event, key: nat, tat: nat)
    requires Furthest(c, log, key, tat) && forall k :: 0 <= k < |log| ==> log[k].now <= e.now
    requires e.key == key ==> e.wait == Gcra(c, tat, e.now).wait
    ensures Furthest(c, log + [e], key, if e.key == key && e.found then Gcra(c, tat, e.now).tat else tat)
  {
    if Charges(e, key) { FurthestMoves(c, log, e, key, tat); } else { FurthestStays(c, log, e, key, tat); }
  }

  lemma StepEvent(c: Config, s: State, a: Arrival, key: nat) returns (e: Event)
    requires Inv(c, s) && a.key != 0 && s.clock <= a.now
    ensures Step(c, s, a).log == s.log + [e] && Step(c, s, a).clock == e.now == a.now && e.key == a.key
    ensures e.wait == Check(c, s.table, a.key, a.now).wait
    ensures e.key == key ==> e.wait == Gcra(c, TatIn(s.ideal, key), e.now).wait
    ensures TatIn(Step(c, s, a).ideal, key)
            == if e.key == key && e.found then Gcra(c, TatIn(s.ideal, key), e.now).tat else TatIn(s.ideal, key)
  {
    e := StepDecides(c, s, a);
  }

  lemma StepExplains(c: Config, s: State, a: Arrival, key: nat)
    requires Inv(c, s) && Explains(c, s, key)
    ensures Explains(c, Step(c, s, a), key)
  {
    if a.key != 0 && s.clock <= a.now {
      var e := StepEvent(c, s, a, key);
      FurthestNext(c, s.log, e, key, TatIn(s.ideal, key));
    }
  }

  lemma {:induction false} ReachExplains(c: Config, run: seq<Arrival>, key: nat)
    requires Sound(c)
    ensures Explains(c, Reach(c, run), key)
    decreases |run|
  {
    if run != [] {
      ReachInv(c, run[..|run| - 1]);
      ReachExplains(c, run[..|run| - 1], key);
      StepExplains(c, Reach(c, run[..|run| - 1]), run[|run| - 1], key);
    }
  }

  lemma FurthestDecides(c: Config, log: seq<Event>, key: nat, tat: nat, now: nat, d: nat)
    requires Furthest(c, log, key, tat)
    ensures Gcra(c, tat, now).wait > d <==> Exceeds(c, log, key, now + c.tolerance + d)
  {
    if tat > now + c.tolerance + d {
      var k :| 0 <= k < |log| && Charges(log[k], key)
               && log[k].now + Since(log, key, log[k].now) * c.emission == tat;
    }
  }

  /** In every reachable state, whatever the table holds: a check has more than `d` to wait if
      and only if some earlier admission of the client, with those from it on at one emission
      each, reaches past the check by more than the tolerance and `d`. For 0: it is refused. */
  lemma RefusedExactly(c: Config, run: seq<Arrival>, key: nat, now: nat, d: nat)
    requires Sound(c) && key != 0 && Reach(c, run).clock <= now
    ensures var s := Reach(c, run);
            Check(c, s.table, key, now).wait > d <==> Exceeds(c, s.log, key, now + c.tolerance + d)
  {
    TableRefinesMap(c, run, key, now);
    ReachExplains(c, run, key);
    FurthestDecides(c, Reach(c, run).log, key, TatIn(Reach(c, run).ideal, key), now, d);
  }

  /** A refusal, or an admission, that the log before it accounts for. */
  ghost predicate Accounted(c: Config, log: seq<Event>, i: nat)
    requires i < |log|
  {
    log[i].wait > 0 <==> Exceeds(c, log[..i], log[i].key, log[i].now + c.tolerance)
  }

  lemma LastAccounted(c: Config, before: seq<Arrival>, all: seq<Arrival>)
    requires Sound(c) && |all| == |before| + 1 && all[..|before|] == before
    ensures var log, more := Reach(c, before).log, Reach(c, all).log;
            more == log || (|more| == |log| + 1 && more[..|log|] == log && Accounted(c, more, |log|))
  {
    var s, a := Reach(c, before), all[|before|];
    if a.key != 0 && s.clock <= a.now {
      ReachInv(c, before);
      var e := StepEvent(c, s, a, a.key);
      RefusedExactly(c, before, a.key, a.now, 0);
      assert (s.log + [e])[..|s.log|] == s.log;
    }
  }

  /** So the log explains itself: each refusal in it, and each admission, by the admissions
      before. */
  lemma {:induction false} LogExplains(c: Config, run: seq<Arrival>, i: nat)
    requires Sound(c) && i < |Reach(c, run).log|
    ensures Accounted(c, Reach(c, run).log, i)
    decreases |run|
  {
    var before := run[..|run| - 1];
    var log, more := Reach(c, before).log, Reach(c, run).log;
    LastAccounted(c, before, run);
    if i < |log| {
      LogExplains(c, before, i);
      assert more[..i] == more[..|log|][..i] == log[..i];
    }
  }

  // ---- A client that keeps its pace ------------------------------------------------------

  /** The client's checks are `gap` apart, and the last is `gap` before `now`. */
  ghost predicate Paced(log: seq<Event>, key: nat, gap: nat, now: nat) {
    && (forall i, j :: 0 <= i < j < |log| && log[i].key == log[j].key == key ==> log[i].now + gap <= log[j].now)
    && (forall i :: 0 <= i < |log| && log[i].key == key ==> log[i].now + gap <= now)
  }

  lemma {:induction false} PacedReach(log: seq<Event>, key: nat, gap: nat, now: nat, from: nat)
    requires Paced(log, key, gap, now)
    ensures Since(log, key, from) > 0 ==> from + Since(log, key, from) * gap <= now
  {
    if log != [] {
      var front, e := log[..|log| - 1], log[|log| - 1];
      if Charges(e, key) && from <= e.now {
        assert Paced(front, key, gap, e.now);
        PacedReach(front, key, gap, e.now, from);
        MulSucc(Since(front, key, from), gap);
      } else {
        PacedReach(front, key, gap, now, from);
      }
    }
  }

  lemma {:induction false} SinceSome(log: seq<Event>, key: nat, k: nat)
    requires k < |log| && Charges(log[k], key)
    ensures Since(log, key, log[k].now) > 0
  {
    if k < |log| - 1 { SinceSome(log[..|log| - 1], key, k); }
  }

  /** A client whose checks come one emission apart or more is never refused. */
  lemma PacedIsAdmitted(c: Config, run: seq<Arrival>, key: nat, now: nat)
    requires Sound(c) && key != 0 && Reach(c, run).clock <= now && Paced(Reach(c, run).log, key, c.emission, now)
    ensures Check(c, Reach(c, run).table, key, now).wait == 0
  {
    RefusedExactly(c, run, key, now, 0);
    var log := Reach(c, run).log;
    forall k | 0 <= k < |log| && Charges(log[k], key)
      ensures log[k].now + Since(log, key, log[k].now) * c.emission <= now + c.tolerance {
      PacedReach(log, key, c.emission, now, log[k].now);
      SinceSome(log, key, k);
    }
  }

  // ---- A burst ------------------------------------------------------------------------------

  function Again(a: Arrival, n: nat): seq<Arrival> { seq(n, _ => a) }

  /** How many a burst admits. */
  function Burst(c: Config): nat
    requires Sound(c)
  {
    DivNat(c.tolerance, c.emission);
    1 + c.tolerance / c.emission
  }

  /** After `n` checks of an idle client at one instant. */
  ghost predicate InBurst(c: Config, s: State, key: nat, now: nat, n: nat)
    requires Sound(c)
  {
    && Inv(c, s) && s.clock <= now && (n > 0 ==> s.clock == now && Holds(s.table, key))
    && if n == 0 then TatIn(s.ideal, key) <= now else TatIn(s.ideal, key) == now + Min(n, Burst(c)) * c.emission
  }

  lemma BurstBound(c: Config, n: nat)
    requires Sound(c)
    ensures n * c.emission <= c.tolerance <==> n < Burst(c)
  {
    var q, r := c.tolerance / c.emission, c.tolerance % c.emission;
    assert c.tolerance == c.emission * q + r;
    if n <= q { MulMonotone(c.emission, n, q); } else { MulMonotone(c.emission, q + 1, n); }
  }

  lemma BurstDecides(c: Config, n: nat, tat: nat, now: nat)
    requires Sound(c)
    requires if n == 0 then tat <= now else tat == now + Min(n, Burst(c)) * c.emission
    ensures Gcra(c, tat, now).wait == 0 <==> n < Burst(c)
    ensures Gcra(c, tat, now).tat == now + Min(n + 1, Burst(c)) * c.emission
  {
    BurstBound(c, Min(n, Burst(c)));
    MulSucc(Min(n, Burst(c)), c.emission);
  }

  /** An entry that is there is found. */
  lemma HeldIsFound(c: Config, t: seq<Entry>, key: nat, now: nat)
    requires TableOk(c, t) && key != 0 && Holds(t, key)
    ensures Find(c, t, key, now).Some?
  {
    if Find(c, t, key, now).None? { NotFound(c, t, key, now); }
  }

  lemma BurstStep(c: Config, s: State, key: nat, now: nat, n: nat)
    requires Sound(c) && key != 0 && InBurst(c, s, key, now, n) && (n == 0 ==> Find(c, s.table, key, now).Some?)
    ensures InBurst(c, Step(c, s, Arrival(key, now)), key, now, n + 1)
    ensures Check(c, s.table, key, now).wait == 0 <==> n < Burst(c)
  {
    if n > 0 { HeldIsFound(c, s.table, key, now); }
    var p := FoundIs(c, s.table, key, now);
    var e := StepDecides(c, s, Arrival(key, now));
    StepInv(c, s, Arrival(key, now));
    var t := Step(c, s, Arrival(key, now));
    assert t.table[Find(c, s.table, key, now).value].key == key;
    BurstDecides(c, n, TatIn(s.ideal, key), now);
  }

  lemma BurstMore(c: Config, before: seq<Arrival>, all: seq<Arrival>, key: nat, now: nat, n: nat)
    requires Sound(c) && key != 0 && InBurst(c, Reach(c, before), key, now, n)
    requires n == 0 ==> Find(c, Reach(c, before).table, key, now).Some?
    requires all == before + [Arrival(key, now)]
    ensures InBurst(c, Reach(c, all), key, now, n + 1)
  {
    assert all[..|all| - 1] == before;
    BurstStep(c, Reach(c, before), key, now, n);
  }

  lemma {:induction false} BurstRun(c: Config, run: seq<Arrival>, key: nat, now: nat, n: nat)
    requires Sound(c) && key != 0 && InBurst(c, Reach(c, run), key, now, 0)
    requires Find(c, Reach(c, run).table, key, now).Some?
    ensures InBurst(c, Reach(c, run + Again(Arrival(key, now), n)), key, now, n)
    decreases n
  {
    var a := Arrival(key, now);
    var all := run + Again(a, n);
    if n == 0 {
      assert all == run;
    } else if n == 1 {
      BurstMore(c, run, all, key, now, 0);
    } else {
      BurstRun(c, run, key, now, n - 1);
      assert all == run + Again(a, n - 1) + [a];
      BurstMore(c, run + Again(a, n - 1), all, key, now, n - 1);
    }
  }

  /** In every reachable state: of the checks that an idle client makes at one instant, exactly
      the first 1 + tolerance / emission are admitted, if the first of them finds an entry. */
  lemma IdleGetsABurst(c: Config, run: seq<Arrival>, key: nat, now: nat, n: nat)
    requires Sound(c) && key != 0 && Reach(c, run).clock <= now
    requires !Exceeds(c, Reach(c, run).log, key, now) && Find(c, Reach(c, run).table, key, now).Some?
    ensures Check(c, Reach(c, run + Again(Arrival(key, now), n)).table, key, now).wait == 0
            <==> n < 1 + c.tolerance / c.emission
  {
    ReachInv(c, run);
    ReachExplains(c, run, key);
    BurstRun(c, run, key, now, n);
    if n == 0 { assert run + Again(Arrival(key, now), 0) == run; }
    BurstStep(c, Reach(c, run + Again(Arrival(key, now), n)), key, now, n);
  }
}
