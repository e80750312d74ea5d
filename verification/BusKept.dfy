/** What a publish leaves alone: a counted message is given up only when its bytes or its
    place in the index are needed. */
module BusKept {
  import opened Arith
  import opened Bus
  import opened BusProof

  // ---- The invariant ------------------------------------------------------

  /** Message `k` has had its bytes written over, or its place among the last `c.entries`
      numbers below `n` taken. */
  ghost predicate PushedOut(c: Config, log: seq<Commit>, high: nat, n: int, k: nat)
    requires k < |log|
  {
    high > log[k].position + c.capacity || c.first + k + c.entries <= n
  }

  /** Every counted message numbered below `upto` is pushed out. */
  ghost predicate OnlyPushedOut(c: Config, log: seq<Commit>, high: nat, n: int, upto: nat) {
    forall k: nat :: k < |log| && c.first + k < upto ==> PushedOut(c, log, high, n, k)
  }

  /** With no publish under way, `oldest` divides the messages exactly. */
  ghost predicate Settled(c: Config, h: Shared) {
    && OnlyPushedOut(c, h.log, h.ring.high, h.ring.next - 1, h.ring.oldest)
    && h.ring.next <= h.ring.oldest + c.entries
  }

  /** What a sweep has passed by. */
  ghost predicate Sweeping(c: Config, h: Shared, w: Writer) {
    match w
    case SweepNumber(a, o) => OnlyPushedOut(c, h.log, h.ring.high, h.ring.next, o)
    case SweepPosition(a, o) => OnlyPushedOut(c, h.log, h.ring.high, h.ring.next, o)
    case SweepHigh(a, o, _) => OnlyPushedOut(c, h.log, h.ring.high, h.ring.next, o)
    case StoreOldest(a, o) => OnlyPushedOut(c, h.log, h.ring.high, h.ring.next, o)
    case GiveClaim(a) => Settled(c, h)
    case _ => true
  }

  ghost predicate Keeps(c: Config, s: State) {
    && OnlyPushedOut(c, s.h.log, s.h.ring.high, s.h.ring.next, s.h.ring.oldest)
    && (s.claim.Free? ==> Settled(c, s.h))
    && (forall t :: t in s.writers ==> Sweeping(c, s.h, s.writers[t]))
  }

  // ---- Every step ---------------------------------------------------------

  /** One number further: the message there is pushed out. */
  lemma PassedBy(c: Config, log: seq<Commit>, high: nat, n: nat, o: nat)
    requires OnlyPushedOut(c, log, high, n, o) && c.first <= o < c.first + |log|
    requires PushedOut(c, log, high, n, o - c.first)
    ensures OnlyPushedOut(c, log, high, n, o + 1)
  {
    forall k: nat | k < |log| && c.first + k < o + 1 ensures PushedOut(c, log, high, n, k) {
      if c.first + k == o { assert k == o - c.first; }
    }
  }

  /** What pushes a message out goes on doing so. */
  lemma StaysOut(c: Config, log: seq<Commit>, high: nat, n: int, upto: nat, higher: nat, m: int)
    requires OnlyPushedOut(c, log, high, n, upto) && high <= higher && n <= m
    ensures OnlyPushedOut(c, log, higher, m, upto)
  {
    forall k: nat | k < |log| && c.first + k < upto ensures PushedOut(c, log, higher, m, k) {
      assert PushedOut(c, log, high, n, k);
    }
  }

  /** The sweep passes a number only if its place is taken or its bytes are. */
  lemma SweepKeeps(c: Config, claim: Claim, h: Shared, dead: set<nat>, pid: nat, w: Writer)
    requires Shape(c, h) && IndexOk(c, h) && Holder(c, h, w) && Sweeping(c, h, w)
    requires w.SweepNumber? || w.SweepPosition? || w.SweepHigh?
    ensures Sweeping(c, h, WriterStep(c, claim, h.ring, dead, pid, w).writer)
  {
    var o := w.oldest;
    if w.SweepNumber? && o < w.a.sequence {
      assert EntryOk(c, h, o - c.first);
      if o + c.entries <= h.ring.next { PassedBy(c, h.log, h.ring.high, h.ring.next, o); }
    } else if w.SweepHigh? && Overwritten(c, h.ring, w.position) {
      PassedBy(c, h.log, h.ring.high, h.ring.next, o);
    }
  }

  lemma OneMoreCounted(c: Config, log: seq<Commit>, high: nat, n: int, upto: nat, m: Commit)
    requires OnlyPushedOut(c, log, high, n, upto) && upto <= c.first + |log|
    ensures OnlyPushedOut(c, log + [m], high, n, upto)
  {
    forall k: nat | k < |log| && c.first + k < upto ensures PushedOut(c, log + [m], high, n, k) {
      assert PushedOut(c, log, high, n, k);
    }
  }

  /** Counting a message takes no other's place but the one its sweep passed. */
  lemma CountSettles(c: Config, h: Shared, a: Attempt)
    requires Shape(c, h) && Holder(c, h, StoreNext(a))
    requires OnlyPushedOut(c, h.log, h.ring.high, h.ring.next, h.ring.oldest)
    ensures Settled(c, Counted(h, a))
    ensures OnlyPushedOut(c, Counted(h, a).log, h.ring.high, h.ring.next + 1, h.ring.oldest)
  {
    OneMoreCounted(c, h.log, h.ring.high, h.ring.next, h.ring.oldest, Commit(a.message, a.position));
    StaysOut(c, Counted(h, a).log, h.ring.high, h.ring.next, h.ring.oldest, h.ring.high, h.ring.next + 1);
    if h.ring.oldest < h.ring.next { assert !Lost(c, h.ring.high, h.log[h.ring.oldest - c.first].position); }
  }

  // ---- Every writer's step ------------------------------------------------

  /** A writer that is not in the sweep, or past the count, has nothing to say of it. */
  predicate Elsewhere(w: Writer) {
    !w.SweepNumber? && !w.SweepPosition? && !w.SweepHigh? && !w.StoreOldest? && !w.GiveClaim?
  }

  ghost predicate SameReach(h: Shared, h': Shared) {
    && h'.log == h.log && h'.ring.high == h.ring.high && h'.ring.next == h.ring.next
    && h'.ring.oldest == h.ring.oldest
  }

  /** As much of the invariant as writer `t` needs for its next step. */
  ghost predicate Ready(c: Config, s: State, t: Thread) {
    && Shape(c, s.h) && IndexOk(c, s.h) && Exclusive(s) && t in s.writers
    && Holder(c, s.h, s.writers[t]) && Waiting(c, s.dead, s.writers[t])
  }

  lemma InvReady(c: Config, s: State, t: Thread)
    requires Inv(c, s) && t in s.writers
    ensures Ready(c, s, t)
  {
  }

  /** The holder's step, seen by itself: no other writer is in the sweep. */
  lemma HolderKeeps(c: Config, s: State, s': State, t: Thread)
    requires Exclusive(s) && Keeps(c, s) && t in s.writers && InCrit(s.writers[t]) && t in s'.writers
    requires s'.claim == s.claim && s'.writers == s.writers[t := s'.writers[t]]
    requires OnlyPushedOut(c, s'.h.log, s'.h.ring.high, s'.h.ring.next, s'.h.ring.oldest)
    requires Sweeping(c, s'.h, s'.writers[t])
    ensures Keeps(c, s')
  {
  }

  lemma WaitingKeeps(c: Config, s: State, t: Thread)
    requires Ready(c, s, t) && Keeps(c, s) && !InCrit(s.writers[t])
    ensures Keeps(c, WriterMoved(c, s, t))
  {
  }

  lemma SweepStepKeeps(c: Config, s: State, t: Thread)
    requires Ready(c, s, t) && Keeps(c, s)
    requires var w := s.writers[t]; w.SweepNumber? || w.SweepPosition? || w.SweepHigh?
    ensures Keeps(c, WriterMoved(c, s, t))
  {
    SweepKeeps(c, s.claim, s.h, s.dead, t.pid, s.writers[t]);
    HolderKeeps(c, s, WriterMoved(c, s, t), t);
  }

  lemma WatermarkKeeps(c: Config, s: State, t: Thread)
    requires Ready(c, s, t) && Keeps(c, s)
    requires var w := s.writers[t]; w.StoreHigh? || w.StoreOldest?
    ensures Keeps(c, WriterMoved(c, s, t))
  {
    var s' := WriterMoved(c, s, t);
    var r := s.h.ring;
    if s.writers[t].StoreHigh? {
      StaysOut(c, s.h.log, r.high, r.next, r.oldest, s'.h.ring.high, r.next);
    }
    HolderKeeps(c, s, s', t);
  }

  lemma CountKeeps(c: Config, s: State, t: Thread)
    requires Ready(c, s, t) && Keeps(c, s) && s.writers[t].StoreNext?
    ensures Keeps(c, WriterMoved(c, s, t))
  {
    var a := s.writers[t].a;
    if a.sequence + 1 < U64 {
      CountIs(c, s, t, a);
      CountSettles(c, s.h, a);
      HolderKeeps(c, s, s.(h := Counted(s.h, a), writers := s.writers[t := GiveClaim(a)]), t);
    }
  }

  lemma CountIs(c: Config, s: State, t: Thread, a: Attempt)
    requires WellShaped(c, s.h.ring) && t in s.writers && s.writers[t] == StoreNext(a) && a.sequence + 1 < U64
    ensures WriterMoved(c, s, t) == s.(h := Counted(s.h, a), writers := s.writers[t := GiveClaim(a)])
  {
  }

  lemma ReleaseKeeps(c: Config, s: State, t: Thread)
    requires Ready(c, s, t) && Keeps(c, s) && s.writers[t].GiveClaim?
    ensures Keeps(c, WriterMoved(c, s, t))
  {
    ReleaseIs(c, s, t);
    assert Sweeping(c, s.h, s.writers[t]);
  }

  /** The steps that read, or store something else. */
  lemma OtherKeeps(c: Config, s: State, t: Thread)
    requires Ready(c, s, t) && Keeps(c, s) && InCrit(s.writers[t]) && Elsewhere(s.writers[t])
    requires !s.writers[t].StoreHigh? && !s.writers[t].StoreNext?
    ensures Keeps(c, WriterMoved(c, s, t))
  {
    var s' := WriterMoved(c, s, t);
    assert SameReach(s.h, s'.h);
    HolderKeeps(c, s, s', t);
  }

  lemma WriteKeeps(c: Config, s: State, t: Thread)
    requires Inv(c, s) && Keeps(c, s) && t in s.writers
    ensures Keeps(c, WriterMoved(c, s, t))
  {
    var w := s.writers[t];
    InvReady(c, s, t);
    if !InCrit(w) { WaitingKeeps(c, s, t); }
    else if w.SweepNumber? || w.SweepPosition? || w.SweepHigh? { SweepStepKeeps(c, s, t); }
    else if w.StoreHigh? || w.StoreOldest? { WatermarkKeeps(c, s, t); }
    else if w.StoreNext? { CountKeeps(c, s, t); }
    else if w.GiveClaim? { ReleaseKeeps(c, s, t); }
    else { OtherKeeps(c, s, t); }
  }

  lemma StepKeeps(c: Config, s: State, a: Action)
    requires Inv(c, s) && Keeps(c, s)
    ensures Keeps(c, Apply(c, s, a))
  {
    ApplyIs(c, s, a);
    if a.Write? && a.t in s.writers { WriteKeeps(c, s, a.t); }
  }

  lemma {:induction false} ReachKeeps(c: Config, actions: seq<Action>)
    requires Sane(c)
    ensures Keeps(c, Reach(c, actions))
  {
    if actions != [] {
      ReachKeeps(c, actions[..|actions| - 1]);
      ReachInv(c, actions[..|actions| - 1]);
      StepKeeps(c, Reach(c, actions[..|actions| - 1]), actions[|actions| - 1]);
    }
  }

  // ---- What that says -------------------------------------------------------

  /** At every moment of every run: a counted message is given up only once its bytes are
      written over or its place in the index is wanted for another. */
  lemma GivenUpOnlyIfPushedOut(c: Config, actions: seq<Action>, k: nat)
    requires Sane(c) && k < |Reach(c, actions).h.log| && c.first + k < Reach(c, actions).h.ring.oldest
    ensures var h := Reach(c, actions).h;
            h.ring.high > h.log[k].position + c.capacity || c.first + k + c.entries <= h.ring.next
  {
    ReachKeeps(c, actions);
    var h := Reach(c, actions).h;
    assert PushedOut(c, h.log, h.ring.high, h.ring.next, k);
  }

  lemma SettledExactly(c: Config, h: Shared, k: nat)
    requires WellShaped(c, h.ring) && AllReadable(c, h) && Settled(c, h) && k < |h.log|
    ensures h.ring.oldest <= c.first + k
            <==> h.ring.high <= h.log[k].position + c.capacity && h.ring.next <= c.first + k + c.entries
  {
    if h.ring.oldest <= c.first + k {
      assert Readable(c, h, k);
    } else {
      assert PushedOut(c, h.log, h.ring.high, h.ring.next - 1, k);
    }
  }

  lemma ReachReadable(c: Config, actions: seq<Action>)
    requires Sane(c) && Reach(c, actions).claim.Free?
    ensures AllReadable(c, Reach(c, actions).h)
  {
    ReachInv(c, actions);
  }

  /** With the claim free, `oldest` is exactly where messages start that have their bytes and
      their place. */
  lemma OldestIsExact(c: Config, actions: seq<Action>, k: nat)
    requires Sane(c) && Reach(c, actions).claim.Free? && k < |Reach(c, actions).h.log|
    ensures var h := Reach(c, actions).h;
            h.ring.oldest <= c.first + k
            <==> h.ring.high <= h.log[k].position + c.capacity && h.ring.next <= c.first + k + c.entries
  {
    ReachKeeps(c, actions);
    ReachReadable(c, actions);
    SettledExactly(c, Reach(c, actions).h, k);
  }

  /** So a read nothing interrupts returns a counted message if and only if neither its bytes
      nor its place are gone, wherever writers died before. */
  lemma ReadableExactly(c: Config, actions: seq<Action>, t: Thread, k: nat, room: nat) returns (n: nat)
    requires Sane(c) && k < |Reach(c, actions).h.log|
    requires var s := Reach(c, actions);
             s.claim.Free? && t.pid !in s.dead && |Body(s.h.log[k].message)| <= room
    ensures var h := Reach(c, actions).h;
            var s' := Reach(c, actions + [Read(t, c.first + k, room)] + Fetches(t, n));
            && t in s'.readers && s'.readers[t].Returned?
            && s'.readers[t].result
               == if h.ring.high <= h.log[k].position + c.capacity && h.ring.next <= c.first + k + c.entries
                  then Got(h.log[k].message) else Gone
  {
    RunCounts(c, actions);
    OldestIsExact(c, actions, k);
    n := FreeMeansReadable(c, actions, t, c.first + k, room);
  }

  // ---- No more is written over than a message needs --------------------------

  /** A step raises the watermark only for the message a writer is about to copy, and only to
      where that ends. */
  lemma WatermarkIsNeeded(c: Config, s: State, a: Action)
    requires Inv(c, s) && Apply(c, s, a).h.ring.high > s.h.ring.high
    ensures a.Write? && a.t in s.writers && s.writers[a.t].StoreHigh?
    ensures Apply(c, s, a).h.ring.high == s.h.ring.tail + Size(s.writers[a.t].a.message)
  {
    ApplyIs(c, s, a);
    assert Holder(c, s.h, s.writers[a.t]);
  }

  /** Where the watermark is, for a writer that no one took over from or will. */
  ghost predicate Tight(r: Ring, w: Writer) {
    match w
    case LoadNext(_) => r.high == r.tail
    case LoadTail(_, _) => r.high == r.tail
    case LoadHigh(a) => r.high == r.tail
    case StoreHigh(a) => r.high == r.tail
    case LoadOldest(a) => r.high == a.position + Size(a.message)
    case SweepNumber(a, _) => r.high == a.position + Size(a.message)
    case SweepPosition(a, _) => r.high == a.position + Size(a.message)
    case SweepHigh(a, _, _) => r.high == a.position + Size(a.message)
    case StoreOldest(a, _) => r.high == a.position + Size(a.message)
    case CopyByte(a, _) => r.high == a.position + Size(a.message)
    case StorePosition(a) => r.high == a.position + Size(a.message)
    case StoreNumber(a) => r.high == a.position + Size(a.message)
    case StoreTail(a) => r.high == a.position + Size(a.message)
    case StoreNext(_) => r.high == r.tail
    case GiveClaim(_) => r.high == r.tail
    case _ => true
  }

  ghost predicate AllTight(s: State) {
    && (s.claim.Free? ==> s.h.ring.high == s.h.ring.tail)
    && (forall t :: t in s.writers ==> Tight(s.h.ring, s.writers[t]))
  }

  /** A live writer's step, while none has died. */
  lemma WriterTight(c: Config, claim: Claim, h: Shared, pid: nat, w: Writer)
    requires WellShaped(c, h.ring) && Holder(c, h, w) && Waiting(c, {}, w) && Tight(h.ring, w)
    requires (claim.Free? ==> h.ring.high == h.ring.tail) && (InCrit(w) ==> claim == Held(pid))
    requires w.CopyByte? ==> w.i < |Image(w.a.sequence, w.a.message)|
    ensures var x := WriterStep(c, claim, h.ring, {}, pid, w);
            (x.more ==> Tight(x.ring, x.writer)) && (x.claim.Free? ==> x.ring.high == x.ring.tail)
  {
    if w.LoadHigh? { SizeBounds(c, w.a.message); }
  }

  lemma MoverTight(c: Config, s: State, t: Thread)
    requires Ready(c, s, t) && s.dead == {} && AllTight(s)
    ensures var s' := WriterMoved(c, s, t);
            && (t in s'.writers ==> Tight(s'.h.ring, s'.writers[t]))
            && (s'.claim.Free? ==> s'.h.ring.high == s'.h.ring.tail)
  {
    var w := s.writers[t];
    if w.CopyByte? && w.i >= |Image(w.a.sequence, w.a.message)| { return; }
    WriterTight(c, s.claim, s.h, t.pid, w);
  }

  lemma OthersTight(c: Config, s: State, t: Thread, u: Thread)
    requires Ready(c, s, t) && AllTight(s) && u in s.writers && u != t
    ensures var s' := WriterMoved(c, s, t); u in s'.writers && Tight(s'.h.ring, s'.writers[u])
  {
    assert Tight(s.h.ring, s.writers[u]);
  }

  lemma StepTight(c: Config, s: State, a: Action)
    requires Inv(c, s) && (s.dead == {} ==> AllTight(s))
    ensures Apply(c, s, a).dead == {} ==> AllTight(Apply(c, s, a))
  {
    ApplyIs(c, s, a);
    if a.Write? && a.t in s.writers && s.dead == {} {
      InvReady(c, s, a.t);
      MoverTight(c, s, a.t);
      var s' := WriterMoved(c, s, a.t);
      forall u | u in s'.writers ensures Tight(s'.h.ring, s'.writers[u]) {
        if u != a.t { OthersTight(c, s, a.t, u); }
      }
    }
  }

  lemma {:induction false} ReachTight(c: Config, actions: seq<Action>)
    requires Sane(c)
    ensures Reach(c, actions).dead == {} ==> AllTight(Reach(c, actions))
  {
    if actions != [] {
      ReachTight(c, actions[..|actions| - 1]);
      ReachInv(c, actions[..|actions| - 1]);
      StepTight(c, Reach(c, actions[..|actions| - 1]), actions[|actions| - 1]);
    }
  }

  /** While no process has died, the messages a free bus still has are exactly those that lie
      within one capacity of the tail and among the last `c.entries` numbers. */
  lemma RingIsFull(c: Config, actions: seq<Action>, k: nat)
    requires Sane(c) && k < |Reach(c, actions).h.log|
    requires Reach(c, actions).claim.Free? && Reach(c, actions).dead == {}
    ensures var h := Reach(c, actions).h;
            h.ring.oldest <= c.first + k
            <==> h.ring.tail <= h.log[k].position + c.capacity && |h.log| <= k + c.entries
  {
    OldestIsExact(c, actions, k);
    ReachTight(c, actions);
    RunCounts(c, actions);
  }
}
