/** Jobs between an event loop and the threads that resume work on it, in any
    interleaving. Every flag read, flag store and pipe write is a step of its own; what a
    lock section does to the list is one step, since the list is only touched there. */
module LoopHandOver {

  /** The owner's `n`-th job, or the `n`-th handed over. */
  datatype Job = Own(n: nat) | Handed(n: nat)

  /** Where the owner is: between drains, at the top of the loop with so many jobs
      allowed, having read that there is something to take, with the list taken and the
      flag to clear, moving what was taken onto the ring, in a job, or past the loop and
      about to say whether work is left. */
  datatype Owner =
    | Idle
    | Loop(left: nat)
    | Taking(left: nat)
    | Clearing(left: nat)
    | Collecting(left: nat)
    | Running(left: nat)
    | Leaving

  /** Who holds the lock: nobody, the owner, or a thread that has left its job and has
      the flag still to set. That thread writes the wake byte if it found the list empty. */
  datatype Lock = Free | ByOwner | ByOther(first: bool)

  /** A drain that has returned: what it was allowed, how many jobs it ran, how many it
      left on the ring, and what it answered. */
  datatype Drained = Drained(budget: nat, ran: nat, waiting: nat, answer: bool)

  /** The budget of the last drain begun, how many jobs had run before it, and every drain
      that has returned. */
  datatype Drains = Drains(budget: nat, before: nat, done: seq<Drained>)

  /** `writers` threads are out of the lock and about to write the wake byte.
      `ran`, `pushed`, `handed` and `drains` are history; `quiet` is whether a drain has
      said there was nothing left and the pipe has not been cleared since. */
  datatype State = State(owner: Owner, ring: seq<Job>, intake: seq<Job>, taken: seq<Job>, handedOver: bool,
                         lock: Lock, writers: nat, pipe: nat, ran: seq<Job>, pushed: nat, handed: nat, quiet: bool,
                         drains: Drains)

  const Init := State(Idle, [], [], [], false, Free, 0, 0, [], 0, 0, false, Drains(0, 0, []))

  function HasWork(s: State): bool { s.ring != [] || s.handedOver }

  /** How many jobs the drain under way has run. */
  function RanSince(s: State): int { |s.ran| - s.drains.before }

  function Returned(s: State): Drained {
    Drained(s.drains.budget, if RanSince(s) < 0 then 0 else RanSince(s), |s.ring|, HasWork(s))
  }

  function Pop(s: State, left: nat): State
    requires s.ring != []
  {
    s.(owner := Running(left), ran := s.ran + [s.ring[0]], ring := s.ring[1..])
  }

  /** One turn of the owner inside a drain. */
  function Turn(s: State): State {
    match s.owner
    case Idle => s
    case Loop(left) =>
      if left == 0 then s.(owner := Leaving)
      else if s.ring != [] then Pop(s, left - 1)
      else if s.handedOver then s.(owner := Taking(left))
      else s.(owner := Leaving)
    case Taking(left) =>
      if !s.lock.Free? then s
      else s.(owner := Clearing(left), lock := ByOwner, taken := s.intake, intake := s.taken)
    case Clearing(left) => s.(owner := Collecting(left), lock := Free, handedOver := false)
    case Collecting(left) =>
      if s.taken != [] then s.(ring := s.ring + [s.taken[0]], taken := s.taken[1..])
      else if s.ring == [] then s.(owner := Leaving)
      else if left == 0 then s.(owner := Loop(0))
      else Pop(s, left - 1)
    case Running(left) => s.(owner := Loop(left))
    case Leaving =>
      s.(owner := Idle, quiet := s.quiet || !HasWork(s), drains := s.drains.(done := s.drains.done + [Returned(s)]))
  }

  datatype Action =
    | Push
    | Drain(budget: nat)
    | Owns
    | HandOver
    | SetFlag
    | WriteByte
    | ClearWake

  /** One step; an action the state does not allow changes nothing. A job that
      asks for a drain gets none, which is no step at all. */
  function Apply(s: State, a: Action): State {
    match a
    case Push =>
      if s.owner.Idle? || s.owner.Running? then s.(ring := s.ring + [Own(s.pushed)], pushed := s.pushed + 1) else s
    case Drain(budget) =>
      if !s.owner.Idle? then s
      else s.(owner := Loop(budget), drains := Drains(budget, |s.ran|, s.drains.done))
    case Owns => Turn(s)
    case HandOver =>
      if !s.lock.Free? then s
      else s.(intake := s.intake + [Handed(s.handed)], handed := s.handed + 1, lock := ByOther(s.intake == []))
    case SetFlag =>
      if !s.lock.ByOther? then s
      else s.(handedOver := true, lock := Free, writers := if s.lock.first then s.writers + 1 else s.writers)
    case WriteByte => if s.writers > 0 then s.(writers := s.writers - 1, pipe := s.pipe + 1) else s
    case ClearWake => if s.owner.Idle? then s.(pipe := 0, quiet := false) else s
  }

  function Reach(actions: seq<Action>): State {
    if actions == [] then Init else Apply(Reach(actions[..|actions| - 1]), actions[|actions| - 1])
  }

  // ---- Who is where, in order ------------------------------------------------------

  function Owned(js: seq<Job>): seq<nat> {
    if js == [] then []
    else Owned(js[..|js| - 1]) + (if js[|js| - 1].Own? then [js[|js| - 1].n] else [])
  }

  function Others(js: seq<Job>): seq<nat> {
    if js == [] then []
    else Others(js[..|js| - 1]) + (if js[|js| - 1].Handed? then [js[|js| - 1].n] else [])
  }

  function UpTo(n: nat): (s: seq<nat>)
    ensures |s| == n && forall i :: 0 <= i < n ==> s[i] == i
  {
    if n == 0 then [] else UpTo(n - 1) + [n - 1]
  }

  /** Every job run or waiting, in the order it runs. */
  function All(s: State): seq<Job> { s.ran + s.ring + s.taken + s.intake }

  ghost predicate InOrder(all: seq<Job>, pushed: nat, handed: nat) {
    Owned(all) == UpTo(pushed) && Others(all) == UpTo(handed)
  }

  predicate Holding(o: Owner) { o.Clearing? || o.Collecting? }

  /** Lists left by other threads hold no job of the owner's. */
  ghost predicate Foreign(taken: seq<Job>, intake: seq<Job>) { Owned(taken) == [] && Owned(intake) == [] }

  /** The flag, once whoever has the lock is done with it, says whether a job is left; and
      the loop can be woken for it. */
  ghost predicate Announced(s: State) {
    && (!Holding(s.owner) ==> s.taken == [])
    && (s.lock.ByOwner? <==> s.owner.Clearing?)
    && (s.lock.Free? ==> s.handedOver == (s.intake != []))
    && (s.lock.ByOwner? ==> s.intake == [])
    && (s.lock.ByOther? ==> s.intake != [] && (s.lock.first || s.handedOver))
    && (s.quiet && s.intake != [] ==> Waking(s))
  }

  /** A wake byte is in the pipe, or a thread is on its way to write one. */
  predicate Waking(s: State) { s.pipe > 0 || s.writers > 0 || s.lock == ByOther(true) }

  /** What every step keeps. */
  ghost predicate Inv(s: State) {
    InOrder(All(s), s.pushed, s.handed) && Foreign(s.taken, s.intake) && Announced(s)
  }

  lemma {:induction false} OwnedJoin(x: seq<Job>, y: seq<Job>)
    ensures Owned(x + y) == Owned(x) + Owned(y) && Others(x + y) == Others(x) + Others(y)
  {
    if y == [] {
      assert x + y == x;
    } else {
      assert (x + y)[..|x + y| - 1] == x + y[..|y| - 1];
      OwnedJoin(x, y[..|y| - 1]);
    }
  }

  lemma One(j: Job)
    ensures Owned([j]) == (if j.Own? then [j.n] else []) && Others([j]) == (if j.Handed? then [j.n] else [])
  {
    assert [j][..0] == [];
    assert Owned([j]) == Owned([]) + (if j.Own? then [j.n] else []);
    assert Others([j]) == Others([]) + (if j.Handed? then [j.n] else []);
  }

  /** Moving the front of one list to the back of the one before changes no order. */
  lemma ShiftRing<T>(a: seq<T>, b: seq<T>, c: seq<T>, d: seq<T>)
    requires b != []
    ensures a + [b[0]] + b[1..] + c + d == a + b + c + d
  {
    assert b == [b[0]] + b[1..];
    assert a + [b[0]] + b[1..] == a + b;
  }

  lemma ShiftTaken<T>(a: seq<T>, b: seq<T>, c: seq<T>, d: seq<T>)
    requires c != []
    ensures a + (b + [c[0]]) + c[1..] + d == a + b + c + d
  {
    assert c == [c[0]] + c[1..];
    assert a + (b + [c[0]]) + c[1..] == a + b + c;
  }

  lemma SwapTaken<T>(a: seq<T>, b: seq<T>, d: seq<T>)
    ensures a + b + d + [] == a + b + [] + d
  {
  }

  lemma AppendRing<T>(a: seq<T>, b: seq<T>, x: T, d: seq<T>)
    ensures a + (b + [x]) + [] + d == (a + b) + [x] + d && a + b + [] + d == (a + b) + d
  {
  }

  lemma OwnedTail(c: seq<Job>)
    requires c != [] && Owned(c) == []
    ensures Owned(c[1..]) == []
  {
    assert c == [c[0]] + c[1..];
    OwnedJoin([c[0]], c[1..]);
  }

  /** A job of the owner's, put in before jobs that are none of its own. */
  lemma PutOwn(front: seq<Job>, n: nat, back: seq<Job>)
    requires Owned(back) == []
    ensures Owned(front + [Own(n)] + back) == Owned(front + back) + [n]
    ensures Others(front + [Own(n)] + back) == Others(front + back)
  {
    var with := front + [Own(n)];
    assert Owned(with) == Owned(front) + [n] && Others(with) == Others(front) by {
      OwnedJoin(front, [Own(n)]);
      One(Own(n));
    }
    OwnedJoin(with, back);
    OwnedJoin(front, back);
  }

  lemma PopKeeps(s: State, left: nat)
    requires s.ring != []
    ensures All(Pop(s, left)) == All(s)
  {
    ShiftRing(s.ran, s.ring, s.taken, s.intake);
  }

  lemma TurnOrder(s: State)
    requires s.taken == [] || Holding(s.owner)
    ensures All(Turn(s)) == All(s)
  {
    match s.owner
    case Loop(left) => if left > 0 && s.ring != [] { PopKeeps(s, left - 1); }
    case Taking(left) => SwapTaken(s.ran, s.ring, s.intake);
    case Clearing(left) =>
    case Collecting(left) =>
      if s.taken != [] {
        ShiftTaken(s.ran, s.ring, s.taken, s.intake);
      } else if s.ring != [] && left > 0 {
        PopKeeps(s, left - 1);
      }
    case Idle =>
    case Running(left) =>
    case Leaving =>
  }

  /** A turn leaves the two lists, swaps them, or moves one job on. */
  lemma TurnLists(s: State)
    ensures var t := Turn(s);
            || (t.taken == s.taken && t.intake == s.intake)
            || (t.taken == s.intake && t.intake == s.taken)
            || (s.taken != [] && t.taken == s.taken[1..] && t.intake == s.intake)
  {
  }

  lemma TurnForeign(s: State)
    requires Foreign(s.taken, s.intake)
    ensures Foreign(Turn(s).taken, Turn(s).intake)
  {
    TurnLists(s);
    if s.taken != [] { OwnedTail(s.taken); }
  }

  lemma TurnAnnounced(s: State)
    requires Announced(s)
    ensures Announced(Turn(s))
  {
  }

  lemma TurnCounts(s: State)
    ensures Turn(s).pushed == s.pushed && Turn(s).handed == s.handed
  {
  }

  lemma SameOrder(s: State, t: State)
    requires Inv(s) && All(t) == All(s) && t.pushed == s.pushed && t.handed == s.handed
    requires Foreign(t.taken, t.intake) && Announced(t)
    ensures Inv(t)
  {
  }

  lemma TurnKeeps(s: State)
    requires Inv(s)
    ensures Inv(Turn(s))
  {
    TurnOrder(s);
    TurnForeign(s);
    TurnAnnounced(s);
    TurnCounts(s);
    SameOrder(s, Turn(s));
  }

  lemma PushKeeps(s: State)
    requires Inv(s) && s.taken == []
    ensures Inv(s.(ring := s.ring + [Own(s.pushed)], pushed := s.pushed + 1))
  {
    AppendRing(s.ran, s.ring, Own(s.pushed), s.intake);
    PutOwn(s.ran + s.ring, s.pushed, s.intake);
  }

  /** A job of another thread's, put in last. */
  lemma PutLast(js: seq<Job>, n: nat)
    ensures Owned(js + [Handed(n)]) == Owned(js) && Others(js + [Handed(n)]) == Others(js) + [n]
  {
    OwnedJoin(js, [Handed(n)]);
    One(Handed(n));
  }

  lemma AppendIntake<T>(a: seq<T>, b: seq<T>, c: seq<T>, d: seq<T>, x: T)
    ensures a + b + c + (d + [x]) == a + b + c + d + [x]
  {
  }

  lemma HandOverKeeps(s: State)
    requires Inv(s) && s.lock.Free?
    ensures Inv(Apply(s, HandOver))
  {
    AppendIntake(s.ran, s.ring, s.taken, s.intake, Handed(s.handed));
    PutLast(All(s), s.handed);
    PutLast(s.intake, s.handed);
    HandOverAnnounced(s);
  }

  lemma HandOverAnnounced(s: State)
    requires Announced(s)
    ensures Announced(Apply(s, HandOver))
  {
  }

  lemma StepKeeps(s: State, a: Action)
    requires Inv(s)
    ensures Inv(Apply(s, a))
  {
    match a
    case Push => if s.owner.Idle? || s.owner.Running? { PushKeeps(s); }
    case Drain(budget) =>
    case Owns => TurnKeeps(s);
    case HandOver => if s.lock.Free? { HandOverKeeps(s); }
    case SetFlag =>
    case WriteByte =>
    case ClearWake =>
  }

  lemma {:induction false} ReachInv(actions: seq<Action>)
    ensures Inv(Reach(actions))
  {
    if actions != [] {
      ReachInv(actions[..|actions| - 1]);
      StepKeeps(Reach(actions[..|actions| - 1]), actions[|actions| - 1]);
    }
  }

  /** Each of the owner's jobs has run or is still to run, once, in the order it was
      pushed; each handed over, in the order it was handed over. */
  lemma NothingIsLost(actions: seq<Action>)
    ensures Owned(All(Reach(actions))) == UpTo(Reach(actions).pushed)
    ensures Others(All(Reach(actions))) == UpTo(Reach(actions).handed)
  {
    ReachInv(actions);
  }

  lemma FirstOfAll(ran: seq<Job>, rest: seq<Job>)
    ensures Owned(ran) <= Owned(ran + rest) && Others(ran) <= Others(ran + rest)
  {
    OwnedJoin(ran, rest);
  }

  lemma AllAfter<T>(a: seq<T>, b: seq<T>, c: seq<T>, d: seq<T>)
    ensures a + b + c + d == a + (b + c + d)
  {
  }

  /** So what has run is what came first of each, none of it twice. */
  lemma RunsInOrder(actions: seq<Action>)
    ensures Owned(Reach(actions).ran) <= UpTo(Reach(actions).pushed)
    ensures Others(Reach(actions).ran) <= UpTo(Reach(actions).handed)
  {
    NothingIsLost(actions);
    var s := Reach(actions);
    AllAfter(s.ran, s.ring, s.taken, s.intake);
    FirstOfAll(s.ran, s.ring + s.taken + s.intake);
  }

  /** Once a drain has said nothing is left, and until the pipe is cleared, a job that
      other threads have left has a wake byte in the pipe or a thread about to write it. */
  lemma TheLoopIsWoken(actions: seq<Action>)
    requires Reach(actions).quiet && Reach(actions).intake != []
    ensures Waking(Reach(actions))
  {
    ReachInv(actions);
  }

  // ---- What a drain does with its budget --------------------------------------------

  /** Jobs run and jobs still allowed make up the budget; past the loop, it was used up or
      the ring was empty. */
  ghost predicate Budgeted(s: State) {
    match s.owner
    case Idle => true
    case Leaving => 0 <= RanSince(s) <= s.drains.budget && (RanSince(s) < s.drains.budget ==> s.ring == [])
    case Loop(left) => 0 <= RanSince(s) == s.drains.budget - left
    case Taking(left) => 0 <= RanSince(s) == s.drains.budget - left
    case Clearing(left) => 0 <= RanSince(s) == s.drains.budget - left
    case Collecting(left) => 0 <= RanSince(s) == s.drains.budget - left
    case Running(left) => 0 <= RanSince(s) == s.drains.budget - left
  }

  ghost predicate WithinBudget(d: Drained) {
    d.ran <= d.budget && (d.ran < d.budget ==> d.waiting == 0) && (d.waiting > 0 ==> d.answer)
  }

  ghost predicate AllWithin(done: seq<Drained>) {
    forall i :: 0 <= i < |done| ==> WithinBudget(done[i])
  }

  ghost predicate DrainsOk(s: State) { Budgeted(s) && AllWithin(s.drains.done) }

  lemma TurnBudget(s: State)
    requires Budgeted(s)
    ensures Budgeted(Turn(s))
  {
  }

  lemma TurnReturns(s: State)
    ensures Turn(s).drains.done == if s.owner.Leaving? then s.drains.done + [Returned(s)] else s.drains.done
  {
  }

  lemma TurnBudgeted(s: State)
    requires DrainsOk(s)
    ensures DrainsOk(Turn(s))
  {
    TurnBudget(s);
    TurnReturns(s);
    if s.owner.Leaving? { assert WithinBudget(Returned(s)); }
  }

  lemma {:induction false} ReachDrains(actions: seq<Action>)
    ensures DrainsOk(Reach(actions))
  {
    if actions != [] {
      ReachDrains(actions[..|actions| - 1]);
      TurnBudgeted(Reach(actions[..|actions| - 1]));
    }
  }

  /** Every drain runs at most its budget; one that runs less leaves the ring empty, and one
      that leaves a job on the ring answers that there is work. */
  lemma DrainsKeepToTheirBudget(actions: seq<Action>, i: nat)
    requires i < |Reach(actions).drains.done|
    ensures var d := Reach(actions).drains.done[i];
            d.ran <= d.budget && (d.ran < d.budget ==> d.waiting == 0) && (d.waiting > 0 ==> d.answer)
  {
    ReachDrains(actions);
    assert WithinBudget(Reach(actions).drains.done[i]);
  }

  /** A drain returns with what it did on record, and makes the loop quiet only when it
      leaves nothing to run: the ring is empty and the flag is down. */
  lemma QuietOnlyWhenDone(actions: seq<Action>)
    requires Reach(actions).owner.Leaving?
    ensures var s, t := Reach(actions), Reach(actions + [Owns]);
            && |t.drains.done| == |s.drains.done| + 1
            && t.drains.done[|s.drains.done|].ran == |s.ran| - s.drains.before <= s.drains.budget
            && (t.quiet && !s.quiet ==> t.ring == [] && !t.handedOver)
            && (s.ring != [] ==> t.quiet == s.quiet && t.drains.done[|s.drains.done|].answer)
  {
    ReachDrains(actions);
    assert (actions + [Owns])[..|actions|] == actions;
  }
}
