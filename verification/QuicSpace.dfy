/** The same outcomes worked out in place, in a list that is never rebuilt: what stays
    is moved up, and a head index passes what is done with. */
module QuicSpace {
  import opened Arith
  import opened QuicRanges
  import opened QuicSend
  import opened QuicLoss
  import opened QuicLossRules
  import opened Wrappers

  function Back<T>(s: seq<T>): seq<T> {
    if s == [] then [] else [s[|s| - 1]] + Back(s[..|s| - 1])
  }

  // ---- The order packets were sent in ------------------------------------------

  predicate Before(p: Packet, q: Packet) { p.number < q.number && p.sentAt <= q.sentAt }

  predicate After(p: Packet, ps: seq<Packet>) { ps == [] || (Before(p, ps[0]) && After(p, ps[1..])) }

  /** Ascending by number, and by time. */
  predicate Ordered(ps: seq<Packet>) { ps == [] || (After(ps[0], ps[1..]) && Ordered(ps[1..])) }

  /** Every packet is numbered below `next` and was sent by `clock`. */
  predicate Bounded(ps: seq<Packet>, next: nat, clock: nat) {
    ps == [] || (ps[0].number < next && ps[0].sentAt <= clock && Bounded(ps[1..], next, clock))
  }

  lemma {:induction false} AfterAt(p: Packet, ps: seq<Packet>, k: nat)
    requires After(p, ps) && k < |ps|
    ensures Before(p, ps[k])
  {
    if k > 0 { AfterAt(p, ps[1..], k - 1); }
  }

  lemma {:induction false} OrderedAt(ps: seq<Packet>, i: nat, j: nat)
    requires Ordered(ps) && i < j < |ps|
    ensures Before(ps[i], ps[j])
  {
    if i == 0 { AfterAt(ps[0], ps[1..], j - 1); } else { OrderedAt(ps[1..], i - 1, j - 1); }
  }

  lemma NumberedAround(s: seq<Packet>, head: nat, mid: nat)
    requires head <= mid < |s| && Ordered(s[head..])
    ensures forall i :: head <= i < mid ==> s[i].number < s[mid].number
    ensures forall i :: mid < i < |s| ==> s[mid].number < s[i].number
  {
    forall i | head <= i < mid ensures s[i].number < s[mid].number { OrderedAt(s[head..], i - head, mid - head); }
    forall i | mid < i < |s| ensures s[mid].number < s[i].number { OrderedAt(s[head..], mid - head, i - head); }
  }

  lemma {:induction false} OrderedDrop(ps: seq<Packet>, k: nat)
    requires Ordered(ps) && k <= |ps|
    ensures Ordered(ps[k..])
  {
    if k > 0 {
      OrderedDrop(ps[1..], k - 1);
      assert ps[k..] == ps[1..][k - 1..];
    }
  }

  lemma {:induction false} AfterAppend(p: Packet, ps: seq<Packet>, q: Packet)
    requires After(p, ps) && Before(p, q)
    ensures After(p, ps + [q])
  {
    if ps != [] {
      AfterAppend(p, ps[1..], q);
      assert (ps + [q])[1..] == ps[1..] + [q];
    }
  }

  lemma {:induction false} OrderedAppend(ps: seq<Packet>, q: Packet)
    requires Ordered(ps) && Bounded(ps, q.number, q.sentAt)
    ensures Ordered(ps + [q]) && Bounded(ps + [q], q.number + 1, q.sentAt)
  {
    if ps != [] {
      OrderedAppend(ps[1..], q);
      AfterAppend(ps[0], ps[1..], q);
      assert (ps + [q])[1..] == ps[1..] + [q];
    }
  }

  lemma {:induction false} BoundedLater(ps: seq<Packet>, next: nat, clock: nat, later: nat)
    requires Bounded(ps, next, clock) && clock <= later
    ensures Bounded(ps, next, later)
  {
    if ps != [] { BoundedLater(ps[1..], next, clock, later); }
  }

  // ---- Filters over joins ------------------------------------------------------

  lemma {:induction false} PickSplit(x: seq<Packet>, y: seq<Packet>, a: Ack, fate: Fate)
    ensures Pick(x + y, a, fate) == Pick(x, a, fate) + Pick(y, a, fate)
  {
    if x == [] {
      assert x + y == y;
    } else {
      assert (x + y)[1..] == x[1..] + y;
      PickSplit(x[1..], y, a, fate);
    }
  }

  /** Packets above the threshold are neither acknowledged nor lost. */
  lemma {:induction false} BeyondKept(ps: seq<Packet>, a: Ack)
    requires a.largest <= a.threshold
    requires forall i :: 0 <= i < |ps| ==> a.threshold < ps[i].number
    ensures Pick(ps, a, Acked) == [] && Pick(ps, a, Lost) == [] && Pick(ps, a, Kept) == ps
    ensures FirstLoss(ps, a) == 0 && Newest(ps, a) == None
  {
    if ps != [] { BeyondKept(ps[1..], a); }
  }

  /** What survives an ACK, split by whether it is overdue. */
  function Late(ps: seq<Packet>, a: Ack, yes: bool): seq<Packet> {
    if ps == [] then [] else (if Overdue(ps[0], a) == yes then [ps[0]] else []) + Late(ps[1..], a, yes)
  }

  function FirstLate(ps: seq<Packet>, a: Ack): nat {
    if ps == [] then 0
    else
      var rest := FirstLate(ps[1..], a);
      var at := ps[0].sentAt + a.delay;
      if !Overdue(ps[0], a) && ps[0].number < a.threshold && (rest == 0 || at < rest) then at else rest
  }

  /** What an ACK loses or keeps, it finds among what it does not acknowledge. */
  lemma {:induction false} LateIsPick(ps: seq<Packet>, a: Ack)
    ensures Late(Unacked(ps, a), a, true) == Pick(ps, a, Lost)
    ensures Late(Unacked(ps, a), a, false) == Pick(ps, a, Kept)
    ensures FirstLate(Unacked(ps, a), a) == FirstLoss(ps, a)
  {
    if ps != [] {
      LateIsPick(ps[1..], a);
      var rest := Unacked(ps[1..], a);
      if FateOf(ps[0], a) == Acked {
        assert Unacked(ps, a) == rest;
      } else {
        assert Unacked(ps, a) == [ps[0]] + rest && ([ps[0]] + rest)[1..] == rest;
      }
    }
  }

  /** Which packets an ACK takes does not depend on the delay. */
  lemma {:induction false} DelayFree(ps: seq<Packet>, a: Ack, delay: nat)
    ensures Pick(ps, a.(delay := delay), Acked) == Pick(ps, a, Acked)
    ensures Unacked(ps, a.(delay := delay)) == Unacked(ps, a)
    ensures Newest(ps, a.(delay := delay)) == Newest(ps, a)
  {
    if ps != [] { DelayFree(ps[1..], a, delay); }
  }

  lemma ElicitingSplit(x: seq<Packet>, y: seq<Packet>)
    ensures Eliciting(x + y) == Eliciting(x) + Eliciting(y)
  {
    if x == [] { assert x + y == y; } else {
      assert (x + y)[1..] == x[1..] + y;
      ElicitingSplit(x[1..], y);
    }
  }

  // ---- One step of a downward pass ---------------------------------------------

  lemma BackAppend<T>(s: seq<T>, x: T)
    ensures Back(s + [x]) == [x] + Back(s)
  {
    assert (s + [x])[..|s|] == s;
  }

  lemma Tail<T>(s: seq<T>, i: nat, end: nat)
    requires i < end <= |s|
    ensures s[i..end] != [] && s[i..end][0] == s[i] && s[i..end][1..] == s[i + 1..end]
  {
  }

  lemma DropAppend<T>(s: seq<T>, i: nat, x: T)
    requires i <= |s|
    ensures (s + [x])[i..] == s[i..] + [x]
  {
  }

  lemma TakeMore<T>(s: seq<T>, i: nat, j: nat)
    requires i <= j < |s|
    ensures s[i..j + 1] == s[i..j] + [s[j]]
  {
  }

  lemma DropSplit<T>(s: seq<T>, i: nat, j: nat)
    requires i <= j <= |s|
    ensures s[i..] == s[i..j] + s[j..] && |s[i..j]| == j - i
    ensures s[i..][..j - i] == s[i..j] && s[i..][j - i..] == s[j..]
    ensures forall k :: 0 <= k < |s[j..]| ==> s[j..][k] == s[j + k]
  {
  }

  lemma Packed<T>(s: seq<T>, was: seq<T>, i: nat, keep: nat, end: nat)
    requires i < keep <= end <= |s| == |was| && s[..i + 1] == was[..i + 1]
    ensures s[i] == was[i] && s[..i] == was[..i]
    ensures s[keep - 1 := s[i]][..i] == was[..i]
    ensures s[keep - 1 := s[i]][keep - 1..end] == [was[i]] + s[keep..end]
    ensures s[keep - 1 := s[i]][end..] == s[end..]
    ensures keep - 1 == i ==> s[keep - 1 := s[i]] == s
  {
    assert s[i] == s[..i + 1][i] && was[i] == was[..i + 1][i];
    assert s[..i] == s[..i + 1][..i] && was[..i] == was[..i + 1][..i];
  }

  /** How far a downward pass has got: slots below `i` are untouched, what stays
      of the rest is packed against `end`. */
  ghost predicate Passed(s: seq<Packet>, was: seq<Packet>, i: nat, keep: nat, end: nat, lost: seq<Packet>, a: Ack) {
    && i <= keep <= end <= |s| == |was|
    && s[..i] == was[..i] && s[end..] == was[end..]
    && lost == Late(was[i..end], a, true)
    && s[keep..end] == Late(was[i..end], a, false)
  }

  lemma Passing(s: seq<Packet>, was: seq<Packet>, i: nat, keep: nat, end: nat, lost: seq<Packet>, a: Ack)
    requires Passed(s, was, i + 1, keep, end, lost, a)
    ensures s[i] == was[i]
    ensures Overdue(s[i], a) ==> Passed(s, was, i, keep, end, [s[i]] + lost, a)
    ensures !Overdue(s[i], a) ==> Passed(s[keep - 1 := s[i]], was, i, keep - 1, end, lost, a)
    ensures keep - 1 == i ==> s[keep - 1 := s[i]] == s
  {
    Packed(s, was, i, keep, end);
    Tail(was, i, end);
  }

  /** The same of the first pass, which takes acknowledged packets out. */
  ghost predicate Sifted(s: seq<Packet>, was: seq<Packet>, i: nat, keep: nat, end: nat, acked: seq<Packet>, a: Ack) {
    && i <= keep <= end <= |s| == |was|
    && s[..i] == was[..i] && s[end..] == was[end..]
    && acked == Pick(was[i..end], a, Acked)
    && s[keep..end] == Unacked(was[i..end], a)
    && (acked == [] ==> keep == i && s == was)
  }

  lemma Sifting(s: seq<Packet>, was: seq<Packet>, i: nat, keep: nat, end: nat, acked: seq<Packet>, a: Ack)
    requires Sifted(s, was, i + 1, keep, end, acked, a)
    ensures s[i] == was[i]
    ensures FateOf(s[i], a) == Acked ==> Sifted(s, was, i, keep, end, [s[i]] + acked, a)
    ensures FateOf(s[i], a) != Acked ==> Sifted(s[keep - 1 := s[i]], was, i, keep - 1, end, acked, a)
    ensures keep - 1 == i ==> s[keep - 1 := s[i]] == s
  {
    Packed(s, was, i, keep, end);
    Tail(was, i, end);
  }

  lemma NewestPassing(was: seq<Packet>, i: nat, end: nat, a: Ack)
    requires i < end <= |was|
    ensures Newest(was[i..end], a)
            == if FateOf(was[i], a) == Acked && was[i].number == a.largest then Some(was[i])
               else Newest(was[i + 1..end], a)
  {
    Tail(was, i, end);
  }

  lemma FirstPassing(was: seq<Packet>, i: nat, end: nat, a: Ack)
    requires i < end <= |was|
    ensures var rest, at := FirstLate(was[i + 1..end], a), was[i].sentAt + a.delay;
            FirstLate(was[i..end], a)
            == if !Overdue(was[i], a) && was[i].number < a.threshold && (rest == 0 || at < rest) then at else rest
  {
    Tail(was, i, end);
  }

  lemma OneMoreEliciting(p: Packet, ps: seq<Packet>)
    ensures Eliciting([p] + ps) == Eliciting(ps) + (if p.ackEliciting then 1 else 0)
  {
    assert ([p] + ps)[1..] == ps;
  }

  /** Everything an ACK decides, it decides among the packets up to its threshold. */
  lemma OnlyNear(s: Space, near: seq<Packet>, far: seq<Packet>, a: Ack)
    requires s.out == near + far && a.largest <= a.threshold
    requires forall i :: 0 <= i < |far| ==> a.threshold < far[i].number
    ensures Pick(s.out, a, Acked) == Pick(near, a, Acked)
    ensures Pick(s.out, a, Lost) == Pick(near, a, Lost)
    ensures Pick(s.out, a, Kept) == Pick(near, a, Kept) + far
    ensures FirstLoss(s.out, a) == FirstLoss(near, a)
    ensures Newest(s.out, a) == Newest(near, a)
  {
    BeyondKept(far, a);
    PickSplit(near, far, a, Acked);
    PickSplit(near, far, a, Lost);
    PickSplit(near, far, a, Kept);
    FirstSplit(near, far, a);
  }

  /** What the two passes leave of the packets below and above the threshold. */
  function Near(s: Space, r: Recovery, near: seq<Packet>, far: seq<Packet>, a: Ack, ackDelay: nat): Outcome {
    var acked := Pick(near, a, Acked);
    var after := Sampled(r, Newest(near, a), ackDelay, a.now);
    var b := a.(delay := LossDelay(after));
    var mid := Unacked(near, a);
    if acked == [] then Outcome(s, r, [], [])
    else Settled(s, after, acked, Late(mid, b, true), Late(mid, b, false) + far, FirstLate(mid, b), b)
  }

  /** The outcome of an ACK in terms of the packets up to its threshold. */
  lemma OnAckNear(s: Space, r: Recovery, ranges: seq<Range>, largest: nat, ackDelay: nat, now: nat,
                  near: seq<Packet>, far: seq<Packet>, a: Ack)
    requires s.out == near + far && Ordered(s.out)
    requires a == Ack(ranges, largest, Threshold(s, largest), now, 0)
    requires forall i :: 0 <= i < |far| ==> a.threshold < far[i].number
    ensures OnAck(s, r, ranges, largest, ackDelay, now) == Near(s, r, near, far, a, ackDelay)
    ensures Ordered(OnAck(s, r, ranges, largest, ackDelay, now).space.out)
  {
    OnlyNear(s, near, far, a);
    var b := Judged(s, r, ranges, largest, ackDelay, now);
    OnlyNear(s, near, far, b);
    DelayFree(near, a, b.delay);
    DelayFree(s.out, a, b.delay);
    LateIsPick(near, b);
    PickOrdered(s.out, b, Kept);
  }

  lemma {:induction false} FirstSplit(near: seq<Packet>, far: seq<Packet>, a: Ack)
    requires FirstLoss(far, a) == 0 && Newest(far, a) == None
    ensures FirstLoss(near + far, a) == FirstLoss(near, a)
    ensures Newest(near + far, a) == Newest(near, a)
  {
    if near == [] {
      assert near + far == far;
    } else {
      assert (near + far)[1..] == near[1..] + far;
      FirstSplit(near[1..], far, a);
    }
  }

  lemma {:induction false} PickAfter(p: Packet, ps: seq<Packet>, a: Ack, fate: Fate)
    requires After(p, ps)
    ensures After(p, Pick(ps, a, fate))
  {
    if ps != [] {
      PickAfter(p, ps[1..], a, fate);
      var rest := Pick(ps[1..], a, fate);
      assert ([ps[0]] + rest)[1..] == rest && [] + rest == rest;
    }
  }

  /** A filter keeps the order packets were sent in. */
  lemma {:induction false} PickOrdered(ps: seq<Packet>, a: Ack, fate: Fate)
    requires Ordered(ps)
    ensures Ordered(Pick(ps, a, fate))
  {
    if ps != [] {
      PickOrdered(ps[1..], a, fate);
      PickAfter(ps[0], ps[1..], a, fate);
      var rest := Pick(ps[1..], a, fate);
      assert ([ps[0]] + rest)[1..] == rest && [] + rest == rest;
    }
  }

  // ---- The window, updated one packet at a time --------------------------------

  class RecoveryState {
    var now: Recovery

    method Sample(newest: Option<Packet>, ackDelay: nat, nowMs: nat)
      modifies this
      ensures now == Sampled(old(now), newest, ackDelay, nowMs)
    {
      if newest.Some? && newest.value.ackEliciting {
        var p := newest.value;
        now := UpdateRtt(now, if nowMs >= p.sentAt then nowMs - p.sentAt else 0, ackDelay);
      }
      now := now.(probes := 0);
    }

    method OnPacketsAcked(ps: seq<Packet>)
      modifies this
      ensures now == AllAcked(old(now), ps)
    {
      var i := 0;
      while i < |ps|
        invariant 0 <= i <= |ps|
        invariant now == AllAcked(old(now), ps[..i])
      {
        assert ps[..i + 1][..i] == ps[..i];
        var p := ps[i];
        i := i + 1;
        if !p.inFlight { continue; }
        now := now.(inFlight := now.inFlight - p.size);
        if p.sentAt <= now.recoveryStart { continue; }
        now := now.(window := now.window + Growth(now.window, now.slowStart, p.size));
      }
      assert ps[..|ps|] == ps;
    }

    method OnPacketsLost(ps: seq<Packet>, nowMs: nat)
      modifies this
      ensures now == AllLost(old(now), ps, nowMs)
    {
      var i, latest := 0, 0;
      while i < |ps|
        invariant 0 <= i <= |ps|
        invariant now == old(now).(inFlight := old(now).inFlight - Flight(ps[..i]))
        invariant latest == LatestSent(ps[..i])
      {
        assert ps[..i + 1][..i] == ps[..i];
        var p := ps[i];
        i := i + 1;
        if !p.inFlight { continue; }
        now := now.(inFlight := now.inFlight - p.size);
        if p.sentAt > latest { latest := p.sentAt; }
      }
      assert ps[..|ps|] == ps;
      if latest == 0 { return; }
      if latest <= now.recoveryStart { return; }
      now := now.(recoveryStart := nowMs, window := Max(now.window / 2, 2 * DATAGRAM));
      now := now.(slowStart := now.window);
    }
  }

  method Covered(ranges: seq<Range>, n: nat) returns (yes: bool)
    ensures yes == InSome(ranges, n) == InRanges(ranges, n)
  {
    InRangesIsInSome(ranges, n);
    var i := 0;
    while i < |ranges|
      invariant 0 <= i <= |ranges|
      invariant forall k :: 0 <= k < i ==> !(ranges[k].low <= n <= ranges[k].high)
    {
      if ranges[i].low <= n <= ranges[i].high { return true; }
      i := i + 1;
    }
    return false;
  }

  /** The test of numbers comes before the test of times. */
  method IsLate(p: Packet, a: Ack) returns (isLost: bool)
    ensures isLost == Overdue(p, a)
  {
    isLost := false;
    if p.number < a.threshold {
      var gap := a.threshold - p.number;
      var age := if a.now >= p.sentAt then a.now - p.sentAt else 0;
      isLost := gap >= PACKET_THRESHOLD || age >= a.delay;
    }
  }

  method CountDown(eliciting: int, ps: seq<Packet>) returns (left: int)
    ensures left == eliciting - Eliciting(ps)
  {
    left := eliciting;
    var i := 0;
    while i < |ps|
      invariant 0 <= i <= |ps|
      invariant left - Eliciting(ps[i..]) == eliciting - Eliciting(ps)
    {
      assert ps[i..][1..] == ps[i + 1..];
      if ps[i].ackEliciting { left := left - 1; }
      i := i + 1;
    }
  }

  class PacketSpace {
    var sent: seq<Packet>
    var sentHead: nat
    var next: nat
    var largestAcked: Option<nat>
    var lossTime: nat
    var lastEliciting: nat
    var eliciting: int

    ghost predicate Valid() reads this { sentHead <= |sent| && Ordered(sent[sentHead..]) }

    ghost function View(): Space
      requires sentHead <= |sent|
      reads this
    {
      Space(sent[sentHead..], next, largestAcked, lossTime, lastEliciting, eliciting)
    }

    method Record(p: Packet)
      requires Valid() && Bounded(sent[sentHead..], p.number, p.sentAt)
      modifies this
      ensures Valid() && View() == Recorded(old(View()), p)
    {
      OrderedAppend(sent[sentHead..], p);
      DropAppend(sent, sentHead, p);
      sent := sent + [p];
      if p.ackEliciting {
        eliciting := eliciting + 1;
        lastEliciting := p.sentAt;
      }
      next := p.number + 1;
    }

    /** Where, from the head on, the numbers above `number` begin, by bisection. */
    method EndOfPackets(number: nat) returns (end: nat)
      requires Valid()
      ensures sentHead <= end <= |sent|
      ensures forall i :: sentHead <= i < end ==> sent[i].number <= number
      ensures forall i :: end <= i < |sent| ==> number < sent[i].number
    {
      var low, high := sentHead, |sent|;
      while low < high
        invariant sentHead <= low <= high <= |sent|
        invariant forall i :: sentHead <= i < low ==> sent[i].number <= number
        invariant forall i :: high <= i < |sent| ==> number < sent[i].number
      {
        var mid := (low + high) / 2;
        NumberedAround(sent, sentHead, mid);
        if sent[mid].number <= number { low := mid + 1; } else { high := mid; }
      }
      end := low;
    }

    /** Moves the head up to `index`; what it passes is gone. */
    method AdvanceHead(index: nat)
      requires sentHead <= index <= |sent|
      modifies this`sent, this`sentHead
      ensures sentHead <= |sent| && sent[sentHead..] == old(sent)[index..]
    {
      var i := sentHead;
      while i < index
        invariant sentHead <= i <= index && |sent| == |old(sent)|
        invariant sent[index..] == old(sent)[index..]
      {
        sent := sent[i := sent[i].(crypto := None, streams := [])];
        i := i + 1;
      }
      sentHead := index;
      if sentHead == |sent| {
        sent := [];
        sentHead := 0;
      } else if sentHead >= 1024 && sentHead * 2 >= |sent| {
        sent := sent[sentHead..];
        sentHead := 0;
      }
    }

    /** From `end` down to the head, collects what was acknowledged and moves the rest up
        next to `end`; a packet is only written where one was read before. */
    method TakeAcked(end: nat, a: Ack) returns (acked: seq<Packet>, newest: Option<Packet>, keep: nat)
      requires sentHead <= end <= |sent|
      modifies this`sent
      ensures sentHead <= keep <= end && |sent| == |old(sent)|
      ensures acked == Pick(old(sent[sentHead..end]), a, Acked)
      ensures NamedOf(old(sent[sentHead..end]), acked, a.ranges, a.largest)
      ensures newest == Newest(old(sent[sentHead..end]), a)
      ensures sent[keep..end] == Unacked(old(sent[sentHead..end]), a)
      ensures sent[end..] == old(sent[end..])
      ensures acked == [] ==> sent == old(sent)
    {
      ghost var was := sent;
      PickIsNamed(sent[sentHead..end], a);
      acked, newest, keep := [], None, end;
      var i := end;
      assert was[end..end] == [];
      while i > sentHead
        invariant sentHead <= i && Sifted(sent, was, i, keep, end, Back(acked), a)
        invariant newest == Newest(was[i..end], a)
      {
        i := i - 1;
        Sifting(sent, was, i, keep, end, Back(acked), a);
        NewestPassing(was, i, end, a);
        var p := sent[i];
        var isAcked := false;
        if p.number <= a.largest { isAcked := Covered(a.ranges, p.number); }
        if isAcked {
          if p.number == a.largest { newest := Some(p); }
          BackAppend(acked, p);
          acked := acked + [p];
        } else {
          keep := keep - 1;
          if keep != i { sent := sent[keep := sent[i]]; }
        }
      }
      acked := Back(acked);
    }

    /** Takes the lost packets out of sent[survivors..end] in the same way. */
    method TakeLost(survivors: nat, end: nat, a: Ack) returns (lost: seq<Packet>, keep: nat, first: nat)
      requires survivors <= end <= |sent| && a.delay > 0
      modifies this`sent, this`eliciting
      ensures survivors <= keep <= end && |sent| == |old(sent)|
      ensures lost == Late(old(sent[survivors..end]), a, true)
      ensures sent[keep..end] == Late(old(sent[survivors..end]), a, false)
      ensures sent[end..] == old(sent[end..])
      ensures first == FirstLate(old(sent[survivors..end]), a)
      ensures eliciting == old(eliciting) - Eliciting(lost)
    {
      ghost var was := sent;
      lost, keep, first := [], end, 0;
      var i := end;
      assert was[end..end] == [];
      while i > survivors
        invariant survivors <= i && Passed(sent, was, i, keep, end, Back(lost), a)
        invariant first == FirstLate(was[i..end], a)
        invariant eliciting == old(eliciting) - Eliciting(Back(lost))
      {
        i := i - 1;
        Passing(sent, was, i, keep, end, Back(lost), a);
        FirstPassing(was, i, end, a);
        var p := sent[i];
        var isLost := IsLate(p, a);
        if isLost {
          if p.ackEliciting { eliciting := eliciting - 1; }
          BackAppend(lost, p);
          OneMoreEliciting(p, Back(lost));
          lost := lost + [p];
        } else {
          if p.number < a.threshold {
            var at := p.sentAt + a.delay;
            if first == 0 || at < first { first := at; }
          }
          keep := keep - 1;
          if keep != i { sent := sent[keep := sent[i]]; }
        }
      }
      lost := Back(lost);
    }
  }

  /** What the loss among the survivors leaves of the space. */
  method SettleSpace(space: PacketSpace, acked: seq<Packet>, survivors: nat, end: nat, a: Ack)
    returns (lost: seq<Packet>)
    requires space.sentHead <= survivors <= end <= |space.sent| && a.delay > 0
    modifies space
    ensures unchanged(space`next) && unchanged(space`lastEliciting)
    ensures space.sentHead <= |space.sent|
    ensures space.sent[space.sentHead..] == Late(old(space.sent[survivors..end]), a, false) + old(space.sent[end..])
    ensures lost == Late(old(space.sent[survivors..end]), a, true)
    ensures space.lossTime == FirstLate(old(space.sent[survivors..end]), a)
    ensures space.largestAcked == Some(a.threshold)
    ensures space.eliciting == old(space.eliciting) - Eliciting(acked) - Eliciting(lost)
  {
    space.largestAcked := Some(a.threshold);
    space.eliciting := CountDown(space.eliciting, acked);
    var keep, first;
    lost, keep, first := space.TakeLost(survivors, end, a);
    DropSplit(space.sent, keep, end);
    space.AdvanceHead(keep);
    space.lossTime := first;
  }

  /** The second half: loss among what survived, once the round trip is sampled. */
  method Settle(space: PacketSpace, recovery: RecoveryState, acked: seq<Packet>, survivors: nat, end: nat, a: Ack,
                ghost was: Space, ghost mid: seq<Packet>, ghost far: seq<Packet>)
    returns (lost: seq<Packet>)
    requires space.sentHead <= survivors <= end <= |space.sent| && a.delay > 0
    requires mid == space.sent[survivors..end] && far == space.sent[end..]
    requires was.next == space.next && was.lastEliciting == space.lastEliciting && was.eliciting == space.eliciting
    modifies space, recovery
    ensures space.sentHead <= |space.sent|
    ensures Outcome(space.View(), recovery.now, acked, lost)
            == Settled(was, old(recovery.now), acked, Late(mid, a, true), Late(mid, a, false) + far,
                       FirstLate(mid, a), a)
  {
    lost := SettleSpace(space, acked, survivors, end, a);
    recovery.OnPacketsAcked(acked);
    recovery.OnPacketsLost(lost, a.now);
  }

  /** Both passes over the packets below `end`, with the sample between them. */
  method Judge(space: PacketSpace, recovery: RecoveryState, end: nat, a: Ack, ackDelay: nat, ghost was: Space,
               ghost next: Outcome)
    returns (acked: seq<Packet>, lost: seq<Packet>)
    requires space.sentHead <= end <= |space.sent| && space.View() == was && Ordered(next.space.out)
    requires next == Near(was, recovery.now, space.sent[space.sentHead..end], space.sent[end..], a, ackDelay)
    modifies space, recovery
    ensures space.Valid() && Outcome(space.View(), recovery.now, acked, lost) == next
  {
    ghost var near, far := space.sent[space.sentHead..end], space.sent[end..];
    var newest, keep;
    acked, newest, keep := space.TakeAcked(end, a);
    lost := [];
    if acked != [] {
      recovery.Sample(newest, ackDelay, a.now);
      lost := Settle(space, recovery, acked, keep, end, a.(delay := LossDelay(recovery.now)), was,
                     Unacked(near, a), far);
    }
  }

  lemma NothingOut(s: Space, r: Recovery, ranges: seq<Range>, largest: nat, ackDelay: nat, now: nat)
    requires s.out == []
    ensures OnAck(s, r, ranges, largest, ackDelay, now) == Outcome(s, r, [], [])
  {
  }

  /** What an ACK does to a space: the packets it names are acknowledged, and of those it
      does not name the late ones are lost. */
  method HandleAck(space: PacketSpace, recovery: RecoveryState, ranges: seq<Range>, largest: nat,
                   ackDelay: nat, now: nat) returns (acked: seq<Packet>, lost: seq<Packet>)
    requires space.Valid()
    modifies space, recovery
    ensures space.Valid()
    ensures Outcome(space.View(), recovery.now, acked, lost)
            == old(OnAck(space.View(), recovery.now, ranges, largest, ackDelay, now))
    ensures NamedOf(old(space.View().out), acked, ranges, largest)
  {
    ghost var was, r := space.View(), recovery.now;
    ghost var next := OnAck(was, r, ranges, largest, ackDelay, now);
    AckedIsNamed(was, r, ranges, largest, ackDelay, now);
    acked, lost := [], [];
    if |space.sent| - space.sentHead == 0 {
      NothingOut(was, r, ranges, largest, ackDelay, now);
      return;
    }
    var threshold := if space.largestAcked.Some? then Max(space.largestAcked.value, largest) else largest;
    var end := space.EndOfPackets(threshold);
    var a := Ack(ranges, largest, threshold, now, 0);
    DropSplit(space.sent, space.sentHead, end);
    OnAckNear(was, r, ranges, largest, ackDelay, now, space.sent[space.sentHead..end], space.sent[end..], a);
    acked, lost := Judge(space, recovery, end, a, ackDelay, was, next);
  }

  // ---- The loss timer and giving up --------------------------------------------

  lemma {:induction false} AllExpired(ps: seq<Packet>, a: Ack)
    requires forall k :: 0 <= k < |ps| ==> TimedOut(ps[k], a)
    ensures Expired(ps, a, true) == ps && Expired(ps, a, false) == []
  {
    if ps != [] { AllExpired(ps[1..], a); }
  }

  lemma {:induction false} NoneExpired(ps: seq<Packet>, a: Ack)
    requires forall k :: 0 <= k < |ps| ==> !TimedOut(ps[k], a)
    ensures Expired(ps, a, true) == [] && Expired(ps, a, false) == ps
  {
    if ps != [] { NoneExpired(ps[1..], a); }
  }

  lemma {:induction false} ExpiredSplit(x: seq<Packet>, y: seq<Packet>, a: Ack, yes: bool)
    ensures Expired(x + y, a, yes) == Expired(x, a, yes) + Expired(y, a, yes)
  {
    if x == [] {
      assert x + y == y;
    } else {
      assert (x + y)[1..] == x[1..] + y;
      ExpiredSplit(x[1..], y, a, yes);
    }
  }

  /** Where the packets are in order, being late is being in front: the loop may stop at
      one that is not. */
  lemma ExpiredPrefix(ps: seq<Packet>, a: Ack, k: nat)
    requires Ordered(ps) && k <= |ps|
    requires forall i :: 0 <= i < k ==> TimedOut(ps[i], a)
    requires k < |ps| ==> !TimedOut(ps[k], a)
    ensures Expired(ps, a, true) == ps[..k] && Expired(ps, a, false) == ps[k..]
  {
    forall i | k <= i < |ps| ensures !TimedOut(ps[i], a) {
      if k < i { OrderedAt(ps, k, i); }
    }
    assert ps == ps[..k] + ps[k..];
    ExpiredJoin(ps[..k], ps[k..], a);
  }

  lemma {:induction false} ExpiredJoin(x: seq<Packet>, y: seq<Packet>, a: Ack)
    requires forall i :: 0 <= i < |x| ==> TimedOut(x[i], a)
    requires forall i :: 0 <= i < |y| ==> !TimedOut(y[i], a)
    ensures Expired(x + y, a, true) == x && Expired(x + y, a, false) == y
  {
    AllExpired(x, a);
    NoneExpired(y, a);
    ExpiredSplit(x, y, a, true);
    ExpiredSplit(x, y, a, false);
    assert x + [] == x && [] + y == y;
  }

  lemma ExpiredFront(sent: seq<Packet>, head: nat, index: nat, a: Ack, lost: seq<Packet>)
    requires head <= index <= |sent| && Ordered(sent[head..]) && lost == sent[head..index]
    requires forall k :: 0 <= k < |lost| ==> TimedOut(lost[k], a)
    requires index < |sent| ==> !TimedOut(sent[index], a)
    ensures lost == Expired(sent[head..], a, true) && sent[index..] == Expired(sent[head..], a, false)
    ensures Ordered(sent[index..])
  {
    var out, k := sent[head..], index - head;
    DropSplit(sent, head, index);
    assert forall i :: 0 <= i < k ==> out[i] == lost[i];
    ExpiredPrefix(out, a, k);
    OrderedDrop(out, k);
  }

  /** Walks the packets that are old enough, stopping at the first that is not. */
  method TakeExpired(space: PacketSpace, a: Ack) returns (lost: seq<Packet>, index: nat)
    requires space.Valid()
    requires a.threshold == (if space.largestAcked.Some? then space.largestAcked.value else 0)
    modifies space`eliciting
    ensures space.sentHead <= index <= |space.sent|
    ensures lost == Expired(space.sent[space.sentHead..], a, true)
    ensures space.sent[index..] == Expired(space.sent[space.sentHead..], a, false)
    ensures Ordered(space.sent[index..])
    ensures space.eliciting == old(space.eliciting) - Eliciting(lost)
  {
    lost, index := [], space.sentHead;
    while index < |space.sent|
      invariant space.sentHead <= index <= |space.sent|
      invariant lost == space.sent[space.sentHead..index]
      invariant forall k :: 0 <= k < |lost| ==> TimedOut(lost[k], a)
      invariant space.eliciting == old(space.eliciting) - Eliciting(lost)
    {
      var p := space.sent[index];
      var age := if a.now >= p.sentAt then a.now - p.sentAt else 0;
      var ordered := space.largestAcked.Some? && p.number < space.largestAcked.value
                     && space.largestAcked.value - p.number >= PACKET_THRESHOLD;
      assert TimedOut(p, a) == (age >= a.delay || ordered);
      if !(age >= a.delay || ordered) { break; }
      if p.ackEliciting { space.eliciting := space.eliciting - 1; }
      ElicitingSplit(lost, [p]);
      TakeMore(space.sent, space.sentHead, index);
      lost := lost + [p];
      index := index + 1;
    }
    ExpiredFront(space.sent, space.sentHead, index, a, lost);
  }

  /** What the timer leaves of the space. */
  method TimeOut(space: PacketSpace, a: Ack) returns (lost: seq<Packet>)
    requires space.Valid()
    requires a.threshold == (if space.largestAcked.Some? then space.largestAcked.value else 0)
    modifies space
    ensures space.Valid() && lost == Expired(old(space.View()).out, a, true)
    ensures space.View().out == Expired(old(space.View()).out, a, false)
    ensures space.eliciting == old(space.eliciting) - Eliciting(lost)
    ensures space.lossTime == if space.View().out == [] then 0 else space.View().out[0].sentAt + a.delay
    ensures unchanged(space`next) && unchanged(space`largestAcked) && unchanged(space`lastEliciting)
  {
    var index;
    lost, index := TakeExpired(space, a);
    space.AdvanceHead(index);
    space.lossTime := if |space.sent| - space.sentHead > 0 then space.sent[space.sentHead].sentAt + a.delay else 0;
  }

  method HandleLossTimer(space: PacketSpace, recovery: RecoveryState, now: nat) returns (lost: seq<Packet>)
    requires space.Valid()
    modifies space, recovery
    ensures space.Valid()
    ensures Outcome(space.View(), recovery.now, [], lost) == old(OnTimer(space.View(), recovery.now, now))
  {
    var delay := LossDelay(recovery.now);
    lost := TimeOut(space, Ack([], 0, if space.largestAcked.Some? then space.largestAcked.value else 0, now, delay));
    recovery.OnPacketsLost(lost, now);
  }

  method Abandon(space: PacketSpace, recovery: RecoveryState) returns (lost: seq<Packet>)
    requires space.Valid()
    modifies space, recovery
    ensures space.Valid()
    ensures Outcome(space.View(), recovery.now, [], lost) == old(Abandoned(space.View(), recovery.now))
  {
    lost := space.sent[space.sentHead..];
    space.sent := [];
    space.sentHead := 0;
    space.eliciting := 0;
    var i := 0;
    while i < |lost|
      invariant 0 <= i <= |lost|
      invariant recovery.now == old(recovery.now).(inFlight := old(recovery.now).inFlight - Flight(lost[..i]))
      modifies recovery
    {
      assert lost[..i + 1][..i] == lost[..i];
      if lost[i].inFlight { recovery.now := recovery.now.(inFlight := recovery.now.inFlight - lost[i].size); }
      i := i + 1;
    }
    assert lost[..|lost|] == lost;
  }
}
