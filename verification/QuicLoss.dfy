/** The packets that are out, what an ACK or the loss timer settles about them, and the
    congestion window those outcomes drive. */
module QuicLoss {
  import opened Arith
  import opened QuicRanges
  import opened QuicSend
  import opened Wrappers

  datatype StreamFrame = StreamFrame(id: nat, frame: Frame)

  datatype Packet = Packet(number: nat, sentAt: nat, size: nat, ackEliciting: bool, inFlight: bool,
                           crypto: Option<Frame>, streams: seq<StreamFrame>)

  const PACKET_THRESHOLD := 3
  const DATAGRAM := 1200
  const INT_MAX := 0x7FFF_FFFF_FFFF_FFFF

  // ---- Round trips and the window ----------------------------------------------

  datatype Recovery = Recovery(latest: nat, smoothed: nat, variance: nat, least: nat, sampled: bool,
                               peerDelay: nat, window: nat, inFlight: int, slowStart: nat,
                               recoveryStart: nat, probes: nat, allowance: int)

  const Fresh := Recovery(0, 333, 166, 0, false, 25, 12000, 0, INT_MAX, 0, 0, 0)

  function UpdateRtt(r: Recovery, latest: nat, ackDelay: nat): Recovery {
    if !r.sampled then
      r.(latest := latest, least := latest, smoothed := latest, variance := latest / 2, sampled := true)
    else
      var least := Min(latest, r.least);
      var delay := Min(ackDelay, r.peerDelay);
      var adjusted := if latest >= least + delay then latest - delay else latest;
      var difference := if r.smoothed > adjusted then r.smoothed - adjusted else adjusted - r.smoothed;
      r.(latest := latest, least := least,
         variance := (3 * r.variance + difference) / 4, smoothed := (7 * r.smoothed + adjusted) / 8)
  }

  function LossDelay(r: Recovery): nat {
    Max(Max(r.latest, r.smoothed) * 9 / 8, 1)
  }

  /** How much one acknowledged packet opens the window. */
  function Growth(window: nat, slowStart: nat, size: nat): nat {
    if window < slowStart then size
    else
      MulNat(DATAGRAM, size);
      DivNat(DATAGRAM * size, Max(window, 1));
      DATAGRAM * size / Max(window, 1)
  }

  lemma MulNat(a: nat, b: nat)
    ensures a * b >= 0
  {
  }

  lemma DivNat(a: nat, b: nat)
    requires b > 0
    ensures a / b >= 0
  {
  }

  function OneAcked(r: Recovery, p: Packet): Recovery {
    if !p.inFlight then r
    else if p.sentAt <= r.recoveryStart then r.(inFlight := r.inFlight - p.size)
    else r.(inFlight := r.inFlight - p.size, window := r.window + Growth(r.window, r.slowStart, p.size))
  }

  function AllAcked(r: Recovery, ps: seq<Packet>): Recovery {
    if ps == [] then r else OneAcked(AllAcked(r, ps[..|ps| - 1]), ps[|ps| - 1])
  }

  /** The bytes of the packets that count against the window. */
  function Flight(ps: seq<Packet>): nat {
    if ps == [] then 0 else Flight(ps[..|ps| - 1]) + (if ps[|ps| - 1].inFlight then ps[|ps| - 1].size else 0)
  }

  /** When the last of the packets that count was sent, or 0. */
  function LatestSent(ps: seq<Packet>): nat {
    if ps == [] then 0
    else if ps[|ps| - 1].inFlight then Max(LatestSent(ps[..|ps| - 1]), ps[|ps| - 1].sentAt)
    else LatestSent(ps[..|ps| - 1])
  }

  function AllLost(r: Recovery, ps: seq<Packet>, now: nat): Recovery {
    var after := r.(inFlight := r.inFlight - Flight(ps));
    if LatestSent(ps) <= r.recoveryStart then after
    else
      var window := Max(r.window / 2, 2 * DATAGRAM);
      after.(recoveryStart := now, window := window, slowStart := window)
  }

  // ---- What an ACK decides about one packet ------------------------------------

  /** Inclusive at both ends, as ACK ranges are. */
  predicate InRanges(ranges: seq<Range>, n: nat) {
    ranges != [] && (ranges[0].low <= n <= ranges[0].high || InRanges(ranges[1..], n))
  }

  datatype Ack = Ack(ranges: seq<Range>, largest: nat, threshold: nat, now: nat, delay: nat)

  datatype Fate = Acked | Lost | Kept

  function Age(p: Packet, now: nat): nat { if now >= p.sentAt then now - p.sentAt else 0 }

  predicate Overdue(p: Packet, a: Ack) {
    p.number < a.threshold && (a.threshold - p.number >= PACKET_THRESHOLD || Age(p, a.now) >= a.delay)
  }

  function FateOf(p: Packet, a: Ack): Fate {
    if p.number <= a.largest && InRanges(a.ranges, p.number) then Acked
    else if Overdue(p, a) then Lost
    else Kept
  }

  /** The packets with one fate, in the order they were sent. */
  function Pick(ps: seq<Packet>, a: Ack, fate: Fate): seq<Packet> {
    if ps == [] then []
    else (if FateOf(ps[0], a) == fate then [ps[0]] else []) + Pick(ps[1..], a, fate)
  }

  function Unacked(ps: seq<Packet>, a: Ack): seq<Packet> {
    if ps == [] then []
    else (if FateOf(ps[0], a) == Acked then [] else [ps[0]]) + Unacked(ps[1..], a)
  }

  function Eliciting(ps: seq<Packet>): nat {
    if ps == [] then 0 else (if ps[0].ackEliciting then 1 else 0) + Eliciting(ps[1..])
  }

  /** When the first of the kept packets below the threshold would age out; 0 for never. */
  function FirstLoss(ps: seq<Packet>, a: Ack): nat {
    if ps == [] then 0
    else
      var rest := FirstLoss(ps[1..], a);
      var at := ps[0].sentAt + a.delay;
      if FateOf(ps[0], a) == Kept && ps[0].number < a.threshold && (rest == 0 || at < rest) then at else rest
  }

  // ---- The whole of it ---------------------------------------------------------

  datatype Space = Space(out: seq<Packet>, next: nat, largestAcked: Option<nat>, lossTime: nat,
                         lastEliciting: nat, eliciting: int)

  const Unused := Space([], 0, None, 0, 0, 0)

  datatype Outcome = Outcome(space: Space, recovery: Recovery, acked: seq<Packet>, lost: seq<Packet>)

  function Recorded(s: Space, p: Packet): Space {
    s.(out := s.out + [p], next := p.number + 1,
       eliciting := s.eliciting + (if p.ackEliciting then 1 else 0),
       lastEliciting := if p.ackEliciting then p.sentAt else s.lastEliciting)
  }

  function OnSent(r: Recovery, p: Packet): Recovery {
    if p.inFlight then r.(inFlight := r.inFlight + p.size) else r
  }

  /** The packet numbered `largest`, when this ACK is the one that acknowledges it. */
  function Newest(ps: seq<Packet>, a: Ack): Option<Packet> {
    if ps == [] then None
    else if FateOf(ps[0], a) == Acked && ps[0].number == a.largest then Some(ps[0])
    else Newest(ps[1..], a)
  }

  function Sampled(r: Recovery, newest: Option<Packet>, ackDelay: nat, now: nat): Recovery {
    var after := if newest.Some? && newest.value.ackEliciting
                 then UpdateRtt(r, Age(newest.value, now), ackDelay) else r;
    after.(probes := 0)
  }

  function Threshold(s: Space, largest: nat): nat {
    if s.largestAcked.Some? then Max(s.largestAcked.value, largest) else largest
  }

  /** The ACK with the delay its own round-trip sample leaves. */
  function Judged(s: Space, r: Recovery, ranges: seq<Range>, largest: nat, ackDelay: nat, now: nat): Ack {
    var a := Ack(ranges, largest, Threshold(s, largest), now, 0);
    a.(delay := LossDelay(Sampled(r, Newest(s.out, a), ackDelay, now)))
  }

  /** What is left once `acked` is settled and the rest is judged by `a`. */
  function Settled(s: Space, sampled: Recovery, acked: seq<Packet>, lost: seq<Packet>, kept: seq<Packet>,
                   first: nat, a: Ack): Outcome {
    Outcome(Space(kept, s.next, Some(a.threshold), first, s.lastEliciting,
                  s.eliciting - Eliciting(acked) - Eliciting(lost)),
            AllLost(AllAcked(sampled, acked), lost, a.now), acked, lost)
  }

  function OnAck(s: Space, r: Recovery, ranges: seq<Range>, largest: nat, ackDelay: nat, now: nat): Outcome {
    var a := Judged(s, r, ranges, largest, ackDelay, now);
    if Pick(s.out, a, Acked) == [] then Outcome(s, r, [], [])
    else Settled(s, Sampled(r, Newest(s.out, a), ackDelay, now), Pick(s.out, a, Acked), Pick(s.out, a, Lost),
                 Pick(s.out, a, Kept), FirstLoss(s.out, a), a)
  }

  /** The timer judges every packet by age and order alone: no ranges. */
  function Aged(s: Space, r: Recovery, now: nat): Ack {
    Ack([], 0, if s.largestAcked.Some? then s.largestAcked.value else 0, now, LossDelay(r))
  }

  predicate TimedOut(p: Packet, a: Ack) {
    Age(p, a.now) >= a.delay || (p.number < a.threshold && a.threshold - p.number >= PACKET_THRESHOLD)
  }

  function Expired(ps: seq<Packet>, a: Ack, yes: bool): seq<Packet> {
    if ps == [] then [] else (if TimedOut(ps[0], a) == yes then [ps[0]] else []) + Expired(ps[1..], a, yes)
  }

  function OnTimer(s: Space, r: Recovery, now: nat): Outcome {
    var a := Aged(s, r, now);
    var lost, kept := Expired(s.out, a, true), Expired(s.out, a, false);
    Outcome(s.(out := kept, eliciting := s.eliciting - Eliciting(lost),
               lossTime := if kept == [] then 0 else kept[0].sentAt + a.delay),
            AllLost(r, lost, now), [], lost)
  }

  function Abandoned(s: Space, r: Recovery): Outcome {
    Outcome(s.(out := [], eliciting := 0), r.(inFlight := r.inFlight - Flight(s.out)), [], s.out)
  }
}
