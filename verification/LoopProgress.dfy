/** A drain that nothing interrupts, and a job handed over: both come to their end. */
module LoopProgress {
  import opened Arith
  import opened LoopHandOver
  import opened Paths

  // ---- Turns of the owner alone ---------------------------------------------------

  function Turner(): State -> State { s => Turn(s) }

  /** Every job that waits, in the order it will run. */
  function Waiting(s: State): seq<Job> { s.ring + s.intake }

  /** No thread is in the lock, and the flag says whether it has left a job. */
  predicate Settled(s: State) { s.lock.Free? && s.taken == [] && s.handedOver == (s.intake != []) }

  /** From `s` to `t` the first `k` jobs waiting have run, and no other; the rest wait. */
  ghost predicate Ran(s: State, t: State, k: nat) {
    && k <= |Waiting(s)| && t.ran == s.ran + Waiting(s)[..k] && Waiting(t) == Waiting(s)[k..]
    && t.pushed == s.pushed && t.handed == s.handed
  }

  lemma RanThen(s: State, u: State, t: State, j: nat, k: nat)
    requires Ran(s, u, j) && Ran(u, t, k)
    ensures Ran(s, t, j + k)
  {
    TwoParts(s.ran, Waiting(s), j, k);
  }

  lemma TwoParts<T>(r: seq<T>, w: seq<T>, j: nat, k: nat)
    requires j + k <= |w|
    ensures r + w[..j] + w[j..][..k] == r + w[..j + k] && w[j..][k..] == w[j + k..]
  {
    assert w[..j] + w[j..][..k] == w[..j + k];
  }

  lemma RanNone(s: State, t: State)
    requires t.ran == s.ran && t.ring == s.ring && t.intake == s.intake && t.pushed == s.pushed && t.handed == s.handed
    ensures Ran(s, t, 0)
  {
    assert Waiting(s)[..0] == [] && s.ran + [] == s.ran;
  }

  /** What was taken goes behind what is on the ring. */
  lemma {:induction false} Collects(s: State)
    requires s.owner.Collecting?
    ensures Leads(Turner(), s, s.(ring := s.ring + s.taken, taken := []), |s.taken|)
    decreases |s.taken|
  {
    var t := s.(ring := s.ring + s.taken, taken := []);
    if s.taken == [] {
      assert t == s;
      LeadsNowhere(Turner(), s);
    } else {
      var u := Turn(s);
      assert s.ring + [s.taken[0]] + s.taken[1..] == s.ring + s.taken;
      Collects(u);
      LeadsOn(Turner(), s, u, t, |s.taken| - 1);
    }
  }

  /** A job at the front of the ring, popped and run. */
  lemma RunsFirst(s: State, u: State, left: nat)
    requires u.ring != [] && u.taken == [] && u.lock.Free? && u.handedOver == (u.intake != [])
    requires u.ran == s.ran && Waiting(u) == Waiting(s) && u.pushed == s.pushed && u.handed == s.handed
    ensures var t := Pop(u, left).(owner := Loop(left));
            Settled(t) && Ran(s, t, 1) && t.drains == u.drains && Leads(Turner(), Pop(u, left), t, 1)
  {
    var t := Pop(u, left).(owner := Loop(left));
    assert Waiting(s)[..1] == [u.ring[0]] && Waiting(s)[1..] == u.ring[1..] + u.intake;
    LeadsOnce(Turner(), Pop(u, left), t);
  }

  lemma RunsOne(s: State) returns (t: State, n: nat)
    requires Settled(s) && s.ring != [] && s.owner.Loop? && s.owner.left > 0
    ensures Leads(Turner(), s, t, n) && Settled(t) && t.owner == Loop(s.owner.left - 1) && Ran(s, t, 1)
    ensures t.drains == s.drains
  {
    var left := s.owner.left - 1;
    RunsFirst(s, s, left);
    t, n := Pop(s, left).(owner := Loop(left)), 2;
    LeadsOn(Turner(), s, Pop(s, left), t, 1);
  }

  /** With none there, but one left by another thread, the list is taken. */
  lemma TakesList(s: State) returns (u: State)
    requires Settled(s) && s.ring == [] && s.intake != [] && s.owner.Loop? && s.owner.left > 0
    ensures u == s.(owner := Collecting(s.owner.left), taken := s.intake, intake := [], handedOver := false)
    ensures Leads(Turner(), s, u, 3)
  {
    var left, step := s.owner.left, Turner();
    var a := s.(owner := Taking(left));
    var b := a.(owner := Clearing(left), lock := ByOwner, taken := s.intake, intake := []);
    u := b.(owner := Collecting(left), lock := Free, handedOver := false);
    LeadsOnce(step, b, u);
    LeadsOn(step, a, b, u, 1);
    LeadsOn(step, s, a, u, 2);
  }

  /** And its first job run. */
  lemma TakesAndRuns(s: State) returns (t: State, n: nat)
    requires Settled(s) && s.ring == [] && s.intake != [] && s.owner.Loop? && s.owner.left > 0
    ensures Leads(Turner(), s, t, n) && Settled(t) && t.owner == Loop(s.owner.left - 1) && Ran(s, t, 1)
    ensures t.drains == s.drains
  {
    var left, step := s.owner.left, Turner();
    var u := TakesList(s);
    var v := u.(ring := s.ring + s.intake, taken := []);
    assert v.ring == s.intake && Waiting(v) == s.intake + [] == s.intake == Waiting(s);
    Collects(u);
    RunsFirst(s, v, left - 1);
    t := Pop(v, left - 1).(owner := Loop(left - 1));
    LeadsOn(step, v, Pop(v, left - 1), t, 1);
    LeadsThen(step, u, v, t, |s.intake|, 2);
    LeadsThen(step, s, u, t, 3, |s.intake| + 2);
    n := |s.intake| + 5;
  }

  /** Either way, one job is run. */
  lemma OneRuns(s: State) returns (t: State, n: nat)
    requires Settled(s) && s.owner.Loop? && s.owner.left > 0 && Waiting(s) != []
    ensures Leads(Turner(), s, t, n) && Settled(t) && t.owner == Loop(s.owner.left - 1) && Ran(s, t, 1)
    ensures t.drains == s.drains
    ensures |Waiting(t)| == |Waiting(s)| - 1
  {
    if s.ring != [] { t, n := RunsOne(s); } else { t, n := TakesAndRuns(s); }
  }

  /** One more drain has returned, and said whether jobs still wait. */
  ghost predicate Answered(s: State, t: State) {
    var n := |s.drains.done|;
    && |t.drains.done| == n + 1 && t.drains.done[..n] == s.drains.done
    && t.drains.done[n].budget == s.drains.budget && t.drains.done[n].answer == (Waiting(t) != [])
  }

  lemma Returns(s: State) returns (t: State)
    requires Settled(s) && s.owner.Loop? && (s.owner.left == 0 || Waiting(s) == [])
    ensures Leads(Turner(), s, t, 2) && t.owner.Idle? && Settled(t) && Ran(s, t, 0) && Answered(s, t)
  {
    var u := s.(owner := Leaving);
    t := Turn(u);
    assert s.ring == [] || s.owner.left == 0;
    LeadsOnce(Turner(), u, t);
    LeadsOn(Turner(), s, u, t, 1);
    RanNone(s, t);
  }

  /** The jobs allowed, or all there are, and the drain returns. */
  lemma {:induction false} Drains(s: State, left: nat) returns (t: State, n: nat)
    requires Settled(s) && s.owner == Loop(left)
    ensures Leads(Turner(), s, t, n) && t.owner.Idle? && Settled(t) && Ran(s, t, Min(left, |Waiting(s)|))
    ensures Answered(s, t)
    decreases left
  {
    if left == 0 || Waiting(s) == [] {
      t := Returns(s);
      n := 2;
    } else {
      var u, a := OneRuns(s);
      var b;
      t, b := Drains(u, left - 1);
      LeadsThen(Turner(), s, u, t, a, b);
      RanThen(s, u, t, 1, Min(left - 1, |Waiting(u)|));
      n := a + b;
    }
  }

  // ---- As runs -----------------------------------------------------------------------

  function OwnsOnly(n: nat): seq<Action> { seq(n, _ => Owns) }

  lemma ReachNext(actions: seq<Action>, a: Action)
    ensures Reach(actions + [a]) == Apply(Reach(actions), a)
  {
    assert (actions + [a])[..|actions|] == actions;
  }

  lemma {:induction false} OwnsTurn(actions: seq<Action>, t: State, n: nat)
    requires Leads(Turner(), Reach(actions), t, n)
    ensures Reach(actions + OwnsOnly(n)) == t
    decreases n
  {
    if n == 0 {
      LeadsNot(Turner(), Reach(actions), t);
      assert actions + OwnsOnly(0) == actions;
    } else {
      LeadsFirst(Turner(), Reach(actions), t, n);
      ReachNext(actions, Owns);
      OwnsTurn(actions + [Owns], t, n - 1);
      assert actions + [Owns] + OwnsOnly(n - 1) == actions + OwnsOnly(n);
    }
  }

  /** In every reachable state with the lock free: a drain that nothing interrupts returns,
      having run as many jobs as it is allowed or as there are, those that waited longest, and
      says whether any still wait. */
  lemma DrainReturns(actions: seq<Action>, budget: nat) returns (n: nat)
    requires Reach(actions).owner.Idle? && Reach(actions).lock.Free?
    ensures var s, t := Reach(actions), Reach(actions + [Drain(budget)] + OwnsOnly(n));
            && t.owner.Idle? && Ran(s, t, Min(budget, |Waiting(s)|))
            && |t.drains.done| == |s.drains.done| + 1
            && t.drains.done[|s.drains.done|].answer == (Waiting(t) != [])
  {
    ReachInv(actions);
    var begun := actions + [Drain(budget)];
    ReachNext(actions, Drain(budget));
    var t;
    t, n := Drains(Reach(begun), budget);
    OwnsTurn(begun, t, n);
  }

  /** So one allowed enough leaves nothing: every job ever pushed or handed over has run. */
  lemma EnoughRunsAll(actions: seq<Action>, budget: nat) returns (n: nat)
    requires Reach(actions).owner.Idle? && Reach(actions).lock.Free? && |Waiting(Reach(actions))| <= budget
    ensures var s, t := Reach(actions), Reach(actions + [Drain(budget)] + OwnsOnly(n));
            && t.ring == [] && t.intake == []
            && Owned(t.ran) == UpTo(s.pushed) && Others(t.ran) == UpTo(s.handed)
  {
    n := DrainReturns(actions, budget);
    var all := actions + [Drain(budget)] + OwnsOnly(n);
    var t := Reach(all);
    NothingIsLost(all);
    ReachInv(all);
    assert t.taken == [];
    assert All(t) == t.ran;
  }

  /** Clearing the wake pipe between drains empties it and touches no job. */
  lemma WakeIsCleared(actions: seq<Action>)
    requires Reach(actions).owner.Idle?
    ensures var s, t := Reach(actions), Reach(actions + [ClearWake]);
            t.pipe == 0 && Waiting(t) == Waiting(s) && t.ran == s.ran
  {
    ReachNext(actions, ClearWake);
  }

  /** A push is counted, and its job waits behind those on the ring. */
  lemma PushWaits(actions: seq<Action>)
    requires Reach(actions).owner.Idle? || Reach(actions).owner.Running?
    ensures var s, t := Reach(actions), Reach(actions + [Push]);
            t.pushed == s.pushed + 1 && t.ring == s.ring + [Own(s.pushed)] && t.intake == s.intake
  {
    ReachNext(actions, Push);
  }

  /** The job is in the list, the flag is up, and the first of a list has woken the loop. */
  predicate LeftAndWoken(s: State, t: State) {
    && t.handed == s.handed + 1 && t.intake == s.intake + [Handed(s.handed)] && t.ring == s.ring
    && t.lock.Free? && t.handedOver && (s.intake == [] ==> t.pipe > s.pipe)
  }

  lemma HandsOver(s: State)
    requires s.lock.Free?
    ensures LeftAndWoken(s, Apply(Apply(Apply(s, HandOver), SetFlag), WriteByte))
  {
  }

  /** A hand-over that nothing interrupts is counted, its job waits behind all others, and the
      first of a list writes a wake byte. */
  lemma HandOverWakes(actions: seq<Action>)
    requires Reach(actions).lock.Free?
    ensures LeftAndWoken(Reach(actions), Reach(actions + [HandOver] + [SetFlag] + [WriteByte]))
  {
    HandsOver(Reach(actions));
    ReachNext(actions, HandOver);
    ReachNext(actions + [HandOver], SetFlag);
    ReachNext(actions + [HandOver] + [SetFlag], WriteByte);
  }
}
