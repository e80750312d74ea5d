/** Which frames a connection accepts, told from its history, and what its streams then hold. */
module QuicCreditRun {
  import opened Arith
  import opened Ledger
  import opened QuicReceive
  import opened QuicCredit

  // ---- Streams named, live and retired -----------------------------------------------

  /** How many of an identifier's kind have been started. */
  function StartedOf(s: Incoming, id: nat): nat {
    if IsServer(id) then (if IsUni(id) then s.nextUni else s.nextBidi) else CreditOf(s, IsUni(id)).started
  }

  /** An identifier is started if it is below the count, and is then live or retired. */
  ghost predicate Placed(s: Incoming, id: nat) {
    && (id in s.known <==> Index(id) < StartedOf(s, id))
    && (id in s.known <==> id in s.streams || id in s.gone)
    && !(id in s.streams && id in s.gone)
  }

  function BornLimit(c: Config, id: nat): nat {
    if IsServer(id) then (if IsUni(id) then 0 else c.localLimit) else if IsUni(id) then c.uniLimit else c.bidiLimit
  }

  /** All but the streams started and how many. */
  ghost predicate SameBut(s: Incoming, t: Incoming, uni: bool) {
    && t.received == s.received && t.limit == s.limit && t.closed == s.closed && t.gone == s.gone
    && t.finished == s.finished && t.nextBidi == s.nextBidi && t.nextUni == s.nextUni
    && CreditOf(t, !uni) == CreditOf(s, !uni)
  }

  predicate Fresh(s: Incoming, uni: bool, upto: nat, id: nat) {
    PeerOpens(id, uni) && CreditOf(s, uni).started <= Index(id) < upto
  }

  /** What opening streams up to a count makes of identifier `id`. */
  ghost predicate OpenedAt(c: Config, s: Incoming, t: Incoming, uni: bool, upto: nat, id: nat) {
    && SameBut(s, t, uni)
    && CreditOf(s, uni).started <= upto && CreditOf(t, uni) == CreditOf(s, uni).(started := upto)
    && (id in t.streams <==> id in s.streams || Fresh(s, uni, upto, id))
    && (id in t.known <==> id in s.known || Fresh(s, uni, upto, id))
    && (id in t.streams ==>
          t.streams[id] == if Fresh(s, uni, upto, id) then Born(BornLimit(c, id)) else s.streams[id])
  }

  lemma OpenNextAt(c: Config, s: Incoming, uni: bool, id: nat)
    ensures OpenedAt(c, s, OpenNext(c, s, uni), uni, CreditOf(s, uni).started + 1, id)
  {
    var k := CreditOf(s, uni).started;
    IdParts(k, false, uni);
    PartsId(id);
    assert id == Id(k, false, uni) <==> PeerOpens(id, uni) && Index(id) == k;
  }

  lemma {:induction false} OpenThroughAt(c: Config, s: Incoming, uni: bool, index: nat, id: nat)
    ensures OpenedAt(c, s, OpenThrough(c, s, uni, index), uni, Max(CreditOf(s, uni).started, index + 1), id)
    decreases index + 1 - CreditOf(s, uni).started
  {
    if index >= CreditOf(s, uni).started {
      OpenNextAt(c, s, uni, id);
      OpenThroughAt(c, OpenNext(c, s, uni), uni, index, id);
    }
  }

  /** What finding or opening `named` makes of identifier `id`. */
  lemma FoundAt(c: Config, s: Incoming, named: nat, id: nat) returns (upto: nat)
    ensures var t := OpenOrFind(c, s, named);
            if named in s.streams || IsServer(named) then t == s
            else upto == Max(CreditOf(s, IsUni(named)).started, Index(named) + 1)
                 && OpenedAt(c, s, t, IsUni(named), upto, id)
  {
    upto := Max(CreditOf(s, IsUni(named)).started, Index(named) + 1);
    if named !in s.streams && !IsServer(named) { OpenThroughAt(c, s, IsUni(named), Index(named), id); }
  }

  lemma OpenedPlaced(c: Config, s: Incoming, t: Incoming, uni: bool, upto: nat, id: nat)
    requires Placed(s, id) && OpenedAt(c, s, t, uni, upto, id)
    ensures Placed(t, id)
  {
  }

  lemma FoundPlaced(c: Config, s: Incoming, named: nat, id: nat)
    requires Placed(s, id)
    ensures Placed(OpenOrFind(c, s, named), id)
  {
    var upto := FoundAt(c, s, named, id);
    if named !in s.streams && !IsServer(named) {
      OpenedPlaced(c, s, OpenOrFind(c, s, named), IsUni(named), upto, id);
    }
  }

  /** Which streams there are, and how many were started, is as it was. */
  ghost predicate SameNames(s: Incoming, t: Incoming) {
    && t.streams.Keys == s.streams.Keys && t.known == s.known && t.gone == s.gone
    && t.bidi == s.bidi && t.uni == s.uni && t.nextBidi == s.nextBidi && t.nextUni == s.nextUni
  }

  lemma NamesPlaced(s: Incoming, t: Incoming, id: nat)
    requires Placed(s, id) && SameNames(s, t)
    ensures Placed(t, id)
  {
    assert id in t.streams <==> id in t.streams.Keys;
    assert id in s.streams <==> id in s.streams.Keys;
  }

  lemma StreamPlaced(c: Config, s: Incoming, named: nat, offset: nat, bytes: seq<byte>, fin: bool, id: nat)
    requires Placed(s, id)
    ensures Placed(OnStream(c, s, named, offset, bytes, fin), id)
  {
    if MaySend(s, named) {
      FoundPlaced(c, s, named, id);
      var t := OpenOrFind(c, s, named);
      if named in t.streams { NamesPlaced(t, Take(t, named, offset, bytes, fin), id); }
    }
  }

  lemma ResetPlaced(c: Config, s: Incoming, named: nat, final: nat, id: nat)
    requires Placed(s, id)
    ensures Placed(OnReset(c, s, named, final), id)
  {
    if MaySend(s, named) {
      FoundPlaced(c, s, named, id);
      var t := OpenOrFind(c, s, named);
      if named in t.streams { NamesPlaced(t, CutOff(t, named, final), id); }
    }
  }

  lemma LocalPlaced(c: Config, s: Incoming, uni: bool, id: nat)
    requires Placed(s, id)
    ensures Placed(OpenLocal(c, s, uni), id)
  {
    var k := if uni then s.nextUni else s.nextBidi;
    IdParts(k, true, uni);
    PartsId(id);
    assert id == Id(k, true, uni) <==> IsServer(id) && IsUni(id) == uni && Index(id) == k;
  }

  lemma RetirePlaced(s: Incoming, named: nat, id: nat)
    requires Placed(s, id)
    ensures Placed(Retire(s, named), id)
  {
  }

  lemma StepPlaced(c: Config, s: Incoming, a: Action, id: nat)
    requires Placed(s, id)
    ensures Placed(Apply(c, s, a), id)
  {
    match a
    case Stream(named, offset, bytes, fin) => StreamPlaced(c, s, named, offset, bytes, fin, id);
    case Reset(named, final) => ResetPlaced(c, s, named, final, id);
    case Naming(named) => if MayName(s, named) { FoundPlaced(c, s, named, id); }
    case Local(uni) => LocalPlaced(c, s, uni, id);
    case Retiring(named) => RetirePlaced(s, named, id);
    case Extending(named, consumed) => if named in s.streams { NamesPlaced(s, Extend(c, s, named, consumed), id); }
  }

  lemma {:induction false} ReachPlaced(c: Config, actions: seq<Action>, id: nat)
    ensures Placed(Reach(c, actions), id)
    decreases |actions|
  {
    if actions != [] {
      ReachPlaced(c, actions[..|actions| - 1], id);
      StepPlaced(c, Reach(c, actions[..|actions| - 1]), actions[|actions| - 1], id);
    }
  }

  // ---- Which frames are accepted ----------------------------------------------------------

  function Initial(c: Config, uni: bool): nat { if uni then c.uni else c.bidi }

  /** The peer may send on the stream: its own, as many as it was allowed at first and one more
      for each retired; or one of ours that goes both ways and was opened. */
  ghost predicate Allowed(c: Config, s: Incoming, id: nat) {
    if IsServer(id) then !IsUni(id) && Index(id) < s.nextBidi
    else Index(id) < Initial(c, IsUni(id)) + CreditOf(s, IsUni(id)).retired
  }

  /** The stream as the next frame finds it. */
  function FlowOf(c: Config, s: Incoming, id: nat): Flow {
    if id in s.streams then s.streams[id] else Born(BornLimit(c, id))
  }

  function Growth(f: Flow, end: nat): nat { if end > f.highWater then end - f.highWater else 0 }

  /** With the stream grown to `end`, the marks of all streams together are within the limit. */
  ghost predicate WithinTotal(c: Config, s: Incoming, id: nat, end: nat) {
    Total(s.known, HighBy(s.streams, s.gone)) + Growth(FlowOf(c, s, id), end) <= s.limit
  }

  lemma AllowedIs(c: Config, s: Incoming, id: nat)
    requires Inv(c, s)
    ensures MaySend(s, id) <==> Allowed(c, s, id)
  {
  }

  /** A stream that may be sent on is there to be found or opened, unless it has retired. */
  lemma FoundIs(c: Config, s: Incoming, id: nat)
    requires Placed(s, id) && MaySend(s, id)
    ensures var t := OpenOrFind(c, s, id);
            && t.received == s.received && t.limit == s.limit && t.closed == s.closed
            && (id in t.streams <==> id !in s.gone)
            && (id in t.streams ==> t.streams[id] == FlowOf(c, s, id))
  {
    var upto := FoundAt(c, s, id, id);
  }

  /** Over every run, until an error closes the connection: a stream frame is accepted if and only
      if the peer may send on that stream, it has not retired, the total stays within the limit,
      and the stream itself accepts it. */
  lemma AcceptedExactly(c: Config, actions: seq<Action>, id: nat, offset: nat, bytes: seq<byte>, fin: bool)
    requires !Reach(c, actions).closed
    ensures var s := Reach(c, actions);
            var end := (offset + |bytes|) % U64;
            StreamAccepted(c, s, id, offset, bytes, fin) <==>
              && Allowed(c, s, id) && id !in s.gone && WithinTotal(c, s, id, end)
              && Verdict(FlowOf(c, s, id), offset, end, fin) == Ok
  {
    var s := Reach(c, actions);
    ReachInv(c, actions);
    ReachPlaced(c, actions, id);
    AllowedIs(c, s, id);
    if MaySend(s, id) { FoundIs(c, s, id); }
  }

  /** The same of a reset: its final size must not be below what has arrived, nor differ from one
      already known. */
  lemma ResetExactly(c: Config, actions: seq<Action>, id: nat, final: nat)
    requires !Reach(c, actions).closed
    ensures var s := Reach(c, actions);
            var f := FlowOf(c, s, id);
            ResetAccepted(c, s, id, final) <==>
              && Allowed(c, s, id) && id !in s.gone && WithinTotal(c, s, id, final)
              && f.highWater <= final && (f.final.Some? ==> f.final.value == final)
  {
    var s := Reach(c, actions);
    ReachInv(c, actions);
    ReachPlaced(c, actions, id);
    AllowedIs(c, s, id);
    if MaySend(s, id) { FoundIs(c, s, id); }
  }

  /** A frame on a stream that has retired is passed over, one that is accepted is taken in and
      counted, and any other closes the connection. */
  lemma StreamTaken(c: Config, s: Incoming, id: nat, offset: nat, bytes: seq<byte>, fin: bool)
    requires Placed(s, id) && !s.closed
    ensures var t := OnStream(c, s, id, offset, bytes, fin);
            var accepted := StreamAccepted(c, s, id, offset, bytes, fin);
            && (t.closed <==> !accepted && !(MaySend(s, id) && id in s.gone))
            && (accepted ==>
                  && id in t.streams && t.streams[id] == Took(FlowOf(c, s, id), offset, bytes, fin)
                  && t.received == s.received + Growth(FlowOf(c, s, id), (offset + |bytes|) % U64))
  {
    if MaySend(s, id) { FoundIs(c, s, id); }
  }

  // ---- What the streams hold ---------------------------------------------------------------

  /** What befell stream `id`, as it sees it. */
  function Events(c: Config, actions: seq<Action>, id: nat): seq<Arrival>
    decreases |actions|
  {
    if actions == [] then []
    else
      var before, a := actions[..|actions| - 1], actions[|actions| - 1];
      Events(c, before, id) + EventOf(c, Reach(c, before), a, id)
  }

  function EventOf(c: Config, s: Incoming, a: Action, id: nat): seq<Arrival> {
    if a.Stream? && a.id == id && StreamAccepted(c, s, id, a.offset, a.bytes, a.fin)
    then [Fragment(a.offset, a.bytes, a.fin)]
    else if a.Extending? && a.id == id && id in s.streams && id in Apply(c, s, a).streams
    then [Raise(Apply(c, s, a).streams[id].limit)]
    else []
  }

  /** The stream was cut off by a reset. */
  ghost predicate WasCut(c: Config, actions: seq<Action>, id: nat)
    decreases |actions|
  {
    actions != [] &&
    var before, a := actions[..|actions| - 1], actions[|actions| - 1];
    WasCut(c, before, id) || (a.Reset? && a.id == id && ResetAccepted(c, Reach(c, before), id, a.final))
  }

  /** What a step makes of stream `id`, told as its events. */
  ghost predicate Moves(c: Config, s: Incoming, t: Incoming, id: nat, events: seq<Arrival>) {
    id in t.streams ==>
      && id !in s.gone
      && t.streams[id] == if events == [] then FlowOf(c, s, id) else QuicReceive.Step(FlowOf(c, s, id), events[0])
  }

  lemma FoundMoves(c: Config, s: Incoming, named: nat, id: nat)
    requires Placed(s, id)
    ensures Moves(c, s, OpenOrFind(c, s, named), id, [])
  {
    var upto := FoundAt(c, s, named, id);
  }

  lemma StreamMoves(c: Config, s: Incoming, a: Action, id: nat)
    requires Placed(s, id) && a.Stream?
    ensures Moves(c, s, Apply(c, s, a), id, EventOf(c, s, a, id))
  {
    if MaySend(s, a.id) { FoundMoves(c, s, a.id, id); }
  }

  lemma ResetMoves(c: Config, s: Incoming, a: Action, id: nat)
    requires Placed(s, id) && a.Reset? && !(a.id == id && ResetAccepted(c, s, id, a.final))
    ensures Moves(c, s, Apply(c, s, a), id, [])
  {
    if MaySend(s, a.id) { FoundMoves(c, s, a.id, id); }
  }

  lemma LocalMoves(c: Config, s: Incoming, uni: bool, id: nat)
    requires Placed(s, id)
    ensures Moves(c, s, OpenLocal(c, s, uni), id, [])
  {
    var k := if uni then s.nextUni else s.nextBidi;
    IdParts(k, true, uni);
    PartsId(id);
  }

  /** An extension raises one stream's limit, if any, and changes no other. */
  lemma ExtendAt(c: Config, s: Incoming, named: nat, consumed: nat, id: nat)
    ensures var t := Extend(c, s, named, consumed);
            && t.gone == s.gone && (id in t.streams <==> id in s.streams)
            && (id in s.streams ==>
                  && s.streams[id].limit <= t.streams[id].limit
                  && t.streams[id] == s.streams[id].(limit := t.streams[id].limit)
                  && (id != named ==> t.streams[id] == s.streams[id]))
  {
  }

  lemma ExtendMoves(c: Config, s: Incoming, a: Action, id: nat)
    requires Placed(s, id) && a.Extending?
    ensures Moves(c, s, Apply(c, s, a), id, EventOf(c, s, a, id))
  {
    ExtendAt(c, s, a.id, a.consumed, id);
  }

  lemma StepMoves(c: Config, s: Incoming, a: Action, id: nat)
    requires Placed(s, id) && !(a.Reset? && a.id == id && ResetAccepted(c, s, id, a.final))
    ensures Moves(c, s, Apply(c, s, a), id, EventOf(c, s, a, id))
  {
    match a
    case Stream(_, _, _, _) => StreamMoves(c, s, a, id);
    case Reset(_, _) => ResetMoves(c, s, a, id);
    case Naming(named) => if MayName(s, named) { FoundMoves(c, s, named, id); }
    case Local(uni) => LocalMoves(c, s, uni, id);
    case Retiring(named) =>
    case Extending(_, _) => ExtendMoves(c, s, a, id);
  }

  /** No stream comes back once it has gone, and one with a new event is live. */
  ghost predicate Goes(s: Incoming, t: Incoming, id: nat, events: seq<Arrival>) {
    && (id in s.gone ==> id in t.gone) && (id in s.streams ==> id in t.streams || id in t.gone)
    && (events != [] ==> id in t.streams)
  }

  lemma FoundGoes(c: Config, s: Incoming, named: nat, id: nat)
    ensures var t := OpenOrFind(c, s, named); t.gone == s.gone && (id in s.streams ==> id in t.streams)
  {
    var upto := FoundAt(c, s, named, id);
  }

  lemma StreamGoes(c: Config, s: Incoming, a: Action, id: nat)
    requires a.Stream?
    ensures Goes(s, Apply(c, s, a), id, EventOf(c, s, a, id))
  {
    FoundGoes(c, s, a.id, id);
  }

  lemma ResetGoes(c: Config, s: Incoming, a: Action, id: nat)
    requires a.Reset?
    ensures Goes(s, Apply(c, s, a), id, [])
  {
    FoundGoes(c, s, a.id, id);
  }

  lemma StepGoes(c: Config, s: Incoming, a: Action, id: nat)
    ensures Goes(s, Apply(c, s, a), id, EventOf(c, s, a, id))
  {
    match a
    case Stream(_, _, _, _) => StreamGoes(c, s, a, id);
    case Reset(_, _) => ResetGoes(c, s, a, id);
    case Naming(named) => FoundGoes(c, s, named, id);
    case Local(_) =>
    case Retiring(_) =>
    case Extending(named, consumed) => ExtendAt(c, s, named, consumed, id);
  }

  /** A live stream is what its events made of it; one not started has had none. */
  ghost predicate Told(c: Config, s: Incoming, id: nat, events: seq<Arrival>) {
    && (id in s.streams ==> s.streams[id] == After(BornLimit(c, id), events))
    && (id !in s.streams && id !in s.gone ==> events == [])
  }

  lemma AfterOne(granted: nat, run: seq<Arrival>, events: seq<Arrival>)
    requires |events| <= 1
    ensures After(granted, run + events)
            == if events == [] then After(granted, run) else QuicReceive.Step(After(granted, run), events[0])
  {
    if events == [] {
      assert run + events == run;
    } else {
      var all := run + events;
      assert all[..|all| - 1] == run && all[|all| - 1] == events[0];
    }
  }

  lemma StepTold(c: Config, s: Incoming, a: Action, id: nat, events: seq<Arrival>)
    requires Placed(s, id) && Told(c, s, id, events)
    requires !(a.Reset? && a.id == id && ResetAccepted(c, s, id, a.final))
    ensures Told(c, Apply(c, s, a), id, events + EventOf(c, s, a, id))
  {
    StepMoves(c, s, a, id);
    StepGoes(c, s, a, id);
    AfterOne(BornLimit(c, id), events, EventOf(c, s, a, id));
  }

  lemma {:induction false} ReachTold(c: Config, actions: seq<Action>, id: nat)
    requires !WasCut(c, actions, id)
    ensures Told(c, Reach(c, actions), id, Events(c, actions, id))
    decreases |actions|
  {
    if actions != [] {
      var before := actions[..|actions| - 1];
      ReachTold(c, before, id);
      ReachPlaced(c, before, id);
      StepTold(c, Reach(c, before), actions[|actions| - 1], id, Events(c, before, id));
    }
  }

  /** Over every run of the connection, with frames of other streams, errors, retirements and
      resets of others in between: a live stream that was not cut off holds what its own accepted
      frames put there. If those are parts of one stream `all`, what it has received is the longest
      prefix of it that has arrived. */
  lemma StreamHoldsItsFrames(c: Config, actions: seq<Action>, id: nat, all: seq<byte>)
    requires id in Reach(c, actions).streams && !WasCut(c, actions, id)
    requires AllPartOf(Events(c, actions, id), all) && |all| < U64
    ensures var f := Reach(c, actions).streams[id];
            && f == After(BornLimit(c, id), Events(c, actions, id)) && FlowOk(f, all)
            && f.held.Keys == Arrived(BornLimit(c, id), Events(c, actions, id))
  {
    ReachTold(c, actions, id);
    Reassembly(BornLimit(c, id), Events(c, actions, id), all);
  }

  // ---- Windows -------------------------------------------------------------------------------

  /** After an extension a peer has at least half of each window left, and no limit was lowered. */
  lemma ExtensionLeavesHalf(c: Config, s: Incoming, id: nat, consumed: nat)
    requires id in s.streams
    ensures var t := Extend(c, s, id, consumed);
            && id in t.streams
            && consumed + c.streamData <= t.streams[id].limit + c.streamData / 2
            && s.received + c.data <= t.limit + c.data / 2
            && s.streams[id].limit <= t.streams[id].limit <= Max(s.streams[id].limit, consumed + c.streamData)
            && s.limit <= t.limit <= Max(s.limit, s.received + c.data)
  {
  }
}
