/** A publish that nothing interrupts: it ends, and its message is counted. */
module BusPublish {
  import opened Arith
  import opened Bus
  import opened BusProof

  // ---- How far a publish has to go ------------------------------------------

  function Stage(w: Writer): nat {
    match w
    case LoadClaim(_) => 19
    case AskGone(_, _) => 18
    case TakeOver(_, _) => 17
    case TryClaim(_) => 16
    case LoadNext(_) => 15
    case LoadTail(_, _) => 14
    case LoadHigh(_) => 13
    case StoreHigh(_) => 12
    case LoadOldest(_) => 11
    case SweepNumber(_, _) => 10
    case SweepPosition(_, _) => 10
    case SweepHigh(_, _, _) => 10
    case StoreOldest(_, _) => 9
    case CopyByte(_, _) => 8
    case StorePosition(_) => 7
    case StoreNumber(_) => 6
    case StoreTail(_) => 5
    case StoreNext(_) => 4
    case GiveClaim(_) => 3
  }

  function Left(w: Writer): int {
    match w
    case SweepNumber(a, o) => 3 * (a.sequence - o) + 2
    case SweepPosition(a, o) => 3 * (a.sequence - o) + 1
    case SweepHigh(a, o, _) => 3 * (a.sequence - o)
    case CopyByte(a, i) => |Image(a.sequence, a.message)| - i
    case _ => 0
  }

  function MessageOf(w: Writer): Message {
    match w
    case LoadClaim(m) => m
    case TryClaim(m) => m
    case AskGone(m, _) => m
    case TakeOver(m, _) => m
    case LoadNext(m) => m
    case LoadTail(m, _) => m
    case _ => w.a.message
  }

  /** Nobody alive holds the claim. */
  predicate Open(claim: Claim, dead: set<nat>) { claim.Free? || claim.pid in dead }

  /** Past the claim, or before one that it will get. */
  predicate OnItsWay(claim: Claim, dead: set<nat>, pid: nat, w: Writer) {
    || InCrit(w)
    || (claim.Free? && (w.LoadClaim? || w.TryClaim?))
    || (claim.Held? && claim.pid in dead && claim.pid != pid
        && (w.LoadClaim? || ((w.AskGone? || w.TakeOver?) && w.seen == claim)))
  }

  /** `log` was counted when the publish of `m` began, and `tail` was where it would lie. */
  ghost predicate UnderWay(claim: Claim, h: Shared, dead: set<nat>, pid: nat, w: Writer, m: Message, log: seq<Commit>,
                           tail: nat) {
    && OnItsWay(claim, dead, pid, w) && MessageOf(w) == m
    && h.log == (if w.GiveClaim? then log + [Commit(m, tail)] else log)
    && (w.StoreNext? ==> w.a.position == tail) && (!w.StoreNext? && !w.GiveClaim? ==> h.ring.tail == tail)
  }

  predicate Nearer(x: Writer, w: Writer) {
    Stage(x) < Stage(w) || (Stage(x) == Stage(w) && 0 <= Left(x) < Left(w))
  }

  predicate Looping(w: Writer) { w.SweepNumber? || w.SweepPosition? || w.SweepHigh? || w.CopyByte? }

  /** A step inside a loop: nearer the end of the loop, and nothing counted. */
  ghost predicate Inward(r: Ring, w: Writer, x: Wrote) {
    && x.more && Nearer(x.writer, w) && MessageOf(x.writer) == MessageOf(w) && InCrit(x.writer)
    && x.ring.tail == r.tail && !x.writer.StoreNext? && !x.writer.GiveClaim?
  }

  /** Each step brings it nearer its end, in the two loops too. */
  lemma SweepNearer(c: Config, claim: Claim, h: Shared, dead: set<nat>, pid: nat, w: Writer)
    requires Shape(c, h) && Holder(c, h, w) && (w.SweepNumber? || w.SweepPosition? || w.SweepHigh?)
    ensures Inward(h.ring, w, WriterStep(c, claim, h.ring, dead, pid, w))
  {
  }

  lemma CopyNearer(c: Config, claim: Claim, h: Shared, dead: set<nat>, pid: nat, w: Writer)
    requires Shape(c, h) && Holder(c, h, w) && w.CopyByte?
    ensures Inward(h.ring, w, WriterStep(c, claim, h.ring, dead, pid, w))
  {
  }

  lemma LineNearer(c: Config, claim: Claim, h: Shared, dead: set<nat>, pid: nat, w: Writer)
    requires Shape(c, h) && Holder(c, h, w) && OnItsWay(claim, dead, pid, w) && !Looping(w) && !w.GiveClaim?
    ensures var x := WriterStep(c, claim, h.ring, dead, pid, w);
            && x.more && Nearer(x.writer, w) && MessageOf(x.writer) == MessageOf(w)
            && OnItsWay(x.claim, dead, pid, x.writer)
  {
  }

  lemma LineTail(c: Config, claim: Claim, h: Shared, dead: set<nat>, pid: nat, w: Writer)
    requires Shape(c, h) && Holder(c, h, w) && OnItsWay(claim, dead, pid, w) && !Looping(w) && !w.GiveClaim?
    ensures var x := WriterStep(c, claim, h.ring, dead, pid, w);
            && (x.writer.StoreNext? ==> w.StoreTail? && x.writer.a.position == h.ring.tail)
            && (x.writer.GiveClaim? <==> w.StoreNext?)
            && (!w.StoreTail? ==> x.ring.tail == h.ring.tail)
  {
  }

  /** A step of the publish, in the whole state. */
  lemma Goes(c: Config, s: State, t: Thread, m: Message, log: seq<Commit>, tail: nat)
    requires WellShaped(c, s.h.ring) && Shape(c, s.h) && t in s.writers && Holder(c, s.h, s.writers[t])
    requires UnderWay(s.claim, s.h, s.dead, t.pid, s.writers[t], m, log, tail) && !s.writers[t].GiveClaim?
    requires c.first + |log| + 1 < U64
    ensures var s' := WriterMoved(c, s, t);
            t in s'.writers && UnderWay(s'.claim, s'.h, s'.dead, t.pid, s'.writers[t], m, log, tail)
            && Nearer(s'.writers[t], s.writers[t])
  {
    var w := s.writers[t];
    if w.CopyByte? {
      CopyNearer(c, s.claim, s.h, s.dead, t.pid, w);
    } else if Looping(w) {
      SweepNearer(c, s.claim, s.h, s.dead, t.pid, w);
    } else {
      LineNearer(c, s.claim, s.h, s.dead, t.pid, w);
      LineTail(c, s.claim, s.h, s.dead, t.pid, w);
    }
  }

  // ---- As a run ---------------------------------------------------------------

  function Writes(t: Thread, n: nat): seq<Action> { seq(n, _ => Write(t)) }

  lemma WriteRun(c: Config, actions: seq<Action>, t: Thread)
    requires Sane(c) && t in Reach(c, actions).writers
    ensures Reach(c, actions + [Write(t)]) == WriterMoved(c, Reach(c, actions), t)
  {
    assert (actions + [Write(t)])[..|actions|] == actions;
  }

  lemma MoreWrites(actions: seq<Action>, t: Thread, n: nat)
    ensures actions + [Write(t)] + Writes(t, n) == actions + Writes(t, n + 1)
  {
  }

  lemma ReachHolder(c: Config, actions: seq<Action>, t: Thread)
    requires Sane(c) && t in Reach(c, actions).writers
    ensures Shape(c, Reach(c, actions).h) && Holder(c, Reach(c, actions).h, Reach(c, actions).writers[t])
  {
    ReachInv(c, actions);
  }

  lemma {:induction false} GoesToItsEnd(c: Config, actions: seq<Action>, t: Thread, m: Message, log: seq<Commit>,
                                        tail: nat, w: Writer) returns (n: nat)
    requires Sane(c) && c.first + |log| + 1 < U64
    requires var s := Reach(c, actions);
             t in s.writers && s.writers[t] == w && UnderWay(s.claim, s.h, s.dead, t.pid, w, m, log, tail)
    ensures var s := Reach(c, actions + Writes(t, n));
            s.claim.Free? && t !in s.writers && s.h.log == log + [Commit(m, tail)]
    decreases Stage(w), Left(w)
  {
    var s := Reach(c, actions);
    WriteRun(c, actions, t);
    if w.GiveClaim? {
      ReleaseIs(c, s, t);
      n := 1;
      assert Writes(t, 1) == [Write(t)];
    } else {
      ReachHolder(c, actions, t);
      Goes(c, s, t, m, log, tail);
      var k := GoesToItsEnd(c, actions + [Write(t)], t, m, log, tail, WriterMoved(c, s, t).writers[t]);
      n := k + 1;
      MoreWrites(actions, t, k);
    }
  }

  /** With nobody alive in the claim, wherever its holder died, a publish that nothing interrupts
      ends with its message counted behind all others, at the tail, and the claim free again. */
  lemma PublishCounts(c: Config, actions: seq<Action>, t: Thread, m: Message) returns (n: nat)
    requires Sane(c) && |Body(m)| <= MaxMessage(c)
    requires var s := Reach(c, actions);
             Open(s.claim, s.dead) && t.pid !in s.dead && t !in s.writers && s.h.ring.next + 1 < U64
    ensures var s := Reach(c, actions);
            var s' := Reach(c, actions + [Publish(t, m)] + Writes(t, n));
            s'.claim.Free? && t !in s'.writers && s'.h.log == s.h.log + [Commit(m, s.h.ring.tail)]
  {
    var s := Reach(c, actions);
    var more := actions + [Publish(t, m)];
    assert more[..|more| - 1] == actions;
    RunCounts(c, actions);
    n := GoesToItsEnd(c, more, t, m, s.h.log, s.h.ring.tail, LoadClaim(m));
  }
}
