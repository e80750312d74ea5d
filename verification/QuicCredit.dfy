/** What a peer may send and open: connection flow control and stream credit, as
    frames arrive, streams retire and windows are extended. */
module QuicCredit {
  import opened Arith
  import opened Ledger
  import opened QuicReceive
  import opened Wrappers

  // ---- Stream identifiers ------------------------------------------------------

  predicate IsServer(id: nat) { id % 4 == 1 || id % 4 == 3 }
  predicate IsUni(id: nat) { id % 4 >= 2 }
  function Index(id: nat): nat { id / 4 }

  function Id(index: nat, server: bool, uni: bool): nat {
    4 * index + (if server then 1 else 0) + (if uni then 2 else 0)
  }

  lemma IdParts(index: nat, server: bool, uni: bool)
    ensures Index(Id(index, server, uni)) == index
    ensures IsServer(Id(index, server, uni)) == server && IsUni(Id(index, server, uni)) == uni
  {
  }

  lemma PartsId(id: nat)
    ensures Id(Index(id), IsServer(id), IsUni(id)) == id
  {
  }

  // ---- The receiving half of a connection --------------------------------------

  datatype Config = Config(streamData: nat, data: nat, bidi: nat, uni: nat,
                           uniLimit: nat, bidiLimit: nat, localLimit: nat)

  /** `started` counts the peer's streams of a kind so far, `max` is what it may open.
      `known`, `gone` and `retired` are history: every stream ever started, what the
      retired ones had reached, how many of the peer's have retired. */
  datatype Credit = Credit(max: nat, started: nat, retired: nat)

  datatype Incoming = Incoming(streams: map<nat, Flow>, received: nat, limit: nat,
                               bidi: Credit, uni: Credit, nextBidi: nat, nextUni: nat, closed: bool,
                               finished: set<nat>, known: seq<nat>, gone: map<nat, nat>)

  function Start(c: Config): Incoming {
    Incoming(map[], 0, c.data, Credit(c.bidi, 0, 0), Credit(c.uni, 0, 0), 0, 0, false, {}, [], map[])
  }

  function CreditOf(s: Incoming, uni: bool): Credit { if uni then s.uni else s.bidi }

  function WithCredit(s: Incoming, uni: bool, k: Credit): Incoming {
    if uni then s.(uni := k) else s.(bidi := k)
  }

  /** The identifiers a peer's frames may mention. */
  predicate MayName(s: Incoming, id: nat) {
    if IsServer(id) then Index(id) < (if IsUni(id) then s.nextUni else s.nextBidi)
    else Index(id) < CreditOf(s, IsUni(id)).max
  }

  function Born(limit: nat): Flow { Flow(map[], 0, 0, limit, None) }

  /** Opens the next of the peer's streams of a kind. */
  function OpenNext(c: Config, s: Incoming, uni: bool): Incoming {
    var k := CreditOf(s, uni);
    var id := Id(k.started, false, uni);
    WithCredit(s, uni, k.(started := k.started + 1))
      .(streams := s.streams[id := Born(if uni then c.uniLimit else c.bidiLimit)], known := s.known + [id])
  }

  /** Opens streams of a kind, in turn, up to the one a frame mentions. */
  function OpenThrough(c: Config, s: Incoming, uni: bool, index: nat): Incoming
    decreases index + 1 - CreditOf(s, uni).started
  {
    if index < CreditOf(s, uni).started then s else OpenThrough(c, OpenNext(c, s, uni), uni, index)
  }

  function OpenOrFind(c: Config, s: Incoming, id: nat): Incoming {
    if id in s.streams || IsServer(id) then s else OpenThrough(c, s, IsUni(id), Index(id))
  }

  /** Counts the offsets a frame is the first to reach, before it is accepted. */
  function Charge(s: Incoming, id: nat, end: nat): Incoming
    requires id in s.streams
  {
    var high := s.streams[id].highWater;
    if end <= high then s
    else if s.received + (end - high) > s.limit then s.(closed := true)
    else s.(received := s.received + (end - high))
  }

  predicate Refused(s: Incoming, id: nat, end: nat)
    requires id in s.streams
  {
    end > s.streams[id].highWater && s.received + (end - s.streams[id].highWater) > s.limit
  }

  /** Whether the peer may send on a stream at all. */
  predicate MaySend(s: Incoming, id: nat) { MayName(s, id) && !(IsServer(id) && IsUni(id)) }

  predicate Whole(f: Flow) { f.final.Some? && f.received >= f.final.value }

  predicate Taken(t: Incoming, id: nat, offset: nat, bytes: seq<byte>, fin: bool)
    requires id in t.streams
  {
    var end := (offset + |bytes|) % U64;
    !Refused(t, id, end) && Verdict(t.streams[id], offset, end, fin) == Ok
  }

  /** A frame on a stream that is open. The length of its data is bounded by the
      datagram it came in. */
  function Take(t: Incoming, id: nat, offset: nat, bytes: seq<byte>, fin: bool): Incoming
    requires id in t.streams
  {
    var end := (offset + |bytes|) % U64;
    var u := Charge(t, id, end);
    if Refused(t, id, end) then u
    else
      var f := Took(t.streams[id], offset, bytes, fin);
      var ok := Taken(t, id, offset, bytes, fin);
      u.(streams := t.streams[id := f], closed := t.closed || !ok,
         finished := if ok && Whole(f) then t.finished + {id} else t.finished)
  }

  predicate StreamAccepted(c: Config, s: Incoming, id: nat, offset: nat, bytes: seq<byte>, fin: bool) {
    && MaySend(s, id)
    && var t := OpenOrFind(c, s, id);
       id in t.streams && Taken(t, id, offset, bytes, fin)
  }

  function OnStream(c: Config, s: Incoming, id: nat, offset: nat, bytes: seq<byte>, fin: bool): Incoming {
    if !MaySend(s, id) then s.(closed := true)
    else
      var t := OpenOrFind(c, s, id);
      if id !in t.streams then t else Take(t, id, offset, bytes, fin)
  }

  predicate Cut(t: Incoming, id: nat, final: nat)
    requires id in t.streams
  {
    var f := t.streams[id];
    !Refused(t, id, final) && f.highWater <= final && (f.final.Some? ==> f.final.value == final)
  }

  /** A reset of a stream that is open. */
  function CutOff(t: Incoming, id: nat, final: nat): Incoming
    requires id in t.streams
  {
    var f := t.streams[id];
    if !Cut(t, id, final) then t.(closed := true)
    else Charge(t, id, final).(streams := t.streams[id := f.(highWater := final, final := Some(final))],
                               finished := t.finished + {id})
  }

  predicate ResetAccepted(c: Config, s: Incoming, id: nat, final: nat) {
    && MaySend(s, id)
    && var t := OpenOrFind(c, s, id);
       id in t.streams && Cut(t, id, final)
  }

  function OnReset(c: Config, s: Incoming, id: nat, final: nat): Incoming {
    if !MaySend(s, id) then s.(closed := true)
    else
      var t := OpenOrFind(c, s, id);
      if id !in t.streams then t else CutOff(t, id, final)
  }

  function OpenLocal(c: Config, s: Incoming, uni: bool): Incoming {
    var id := Id(if uni then s.nextUni else s.nextBidi, true, uni);
    var t := s.(streams := s.streams[id := Born(if uni then 0 else c.localLimit)], known := s.known + [id]);
    if uni then t.(nextUni := s.nextUni + 1) else t.(nextBidi := s.nextBidi + 1)
  }

  /** A stream that goes leaves the peer room for one more. */
  function Retire(s: Incoming, id: nat): Incoming {
    if id !in s.streams then s
    else
      var t := s.(streams := s.streams - {id}, gone := s.gone[id := s.streams[id].highWater],
                  finished := s.finished - {id});
      if IsServer(id) then t
      else
        var k := CreditOf(s, IsUni(id));
        WithCredit(t, IsUni(id), k.(max := k.max + 1, retired := k.retired + 1))
  }

  /** Raises a limit when less than half of its window is left. */
  function ExtendStream(c: Config, s: Incoming, id: nat, consumed: nat): Incoming
    requires id in s.streams
  {
    var limit, granted := s.streams[id].limit, consumed + c.streamData;
    if granted > limit && granted - limit > c.streamData / 2
    then s.(streams := s.streams[id := s.streams[id].(limit := granted)]) else s
  }

  function ExtendData(c: Config, s: Incoming): Incoming {
    var granted := s.received + c.data;
    if granted > s.limit && granted - s.limit > c.data / 2 then s.(limit := granted) else s
  }

  function Extend(c: Config, s: Incoming, id: nat, consumed: nat): Incoming {
    if id !in s.streams then s else ExtendData(c, ExtendStream(c, s, id, consumed))
  }

  datatype Action =
    | Stream(id: nat, offset: nat, bytes: seq<byte>, fin: bool)
    | Reset(id: nat, final: nat)
    | Naming(id: nat)
    | Local(uni: bool)
    | Retiring(id: nat)
    | Extending(id: nat, consumed: nat)

  /** `Naming` is any other frame that names a stream: STOP_SENDING, MAX_STREAM_DATA. */
  function Apply(c: Config, s: Incoming, a: Action): Incoming {
    match a
    case Stream(id, offset, bytes, fin) => OnStream(c, s, id, offset, bytes, fin)
    case Reset(id, final) => OnReset(c, s, id, final)
    case Naming(id) => if MayName(s, id) then OpenOrFind(c, s, id) else s.(closed := true)
    case Local(uni) => OpenLocal(c, s, uni)
    case Retiring(id) => Retire(s, id)
    case Extending(id, consumed) => Extend(c, s, id, consumed)
  }

  function Reach(c: Config, actions: seq<Action>): Incoming
    decreases |actions|
  {
    if actions == [] then Start(c) else Apply(c, Reach(c, actions[..|actions| - 1]), actions[|actions| - 1])
  }

  // ---- The ledger ---------------------------------------------------------------

  function HighOf(m: map<nat, Flow>, gone: map<nat, nat>, id: nat): nat {
    if id in m then m[id].highWater else if id in gone then gone[id] else 0
  }

  function HighBy(m: map<nat, Flow>, gone: map<nat, nat>): nat -> nat { id => HighOf(m, gone, id) }

  /** The peer's live streams of a kind. */
  function Live(m: map<nat, Flow>, uni: bool): set<nat> {
    set id | id in m && PeerOpens(id, uni)
  }

  predicate PeerOpens(id: nat, uni: bool) { !IsServer(id) && IsUni(id) == uni }

  /** Opened, live and retired add up, and no more are open than were ever allowed at once. */
  ghost predicate CreditOk(m: map<nat, Flow>, uni: bool, k: Credit, initial: nat) {
    && k.max == initial + k.retired && k.started <= k.max
    && k.retired + |Live(m, uni)| == k.started
  }

  /** Every stream is named once, and is one that has been started. */
  ghost predicate NamesOk(s: Incoming) {
    && Distinct(s.known)
    && (forall id :: id in s.streams ==> id in s.known)
    && (forall id :: id in s.known ==>
          Index(id) < if IsServer(id) then (if IsUni(id) then s.nextUni else s.nextBidi)
                      else CreditOf(s, IsUni(id)).started)
  }

  ghost predicate BytesOk(s: Incoming) {
    var sum := Total(s.known, HighBy(s.streams, s.gone));
    sum <= s.received <= s.limit && (!s.closed ==> sum == s.received)
  }

  ghost predicate Inv(c: Config, s: Incoming) {
    NamesOk(s) && BytesOk(s) && CreditOk(s.streams, false, s.bidi, c.bidi) && CreditOk(s.streams, true, s.uni, c.uni)
  }

  lemma LiveMore(m: map<nat, Flow>, id: nat, f: Flow, uni: bool)
    requires id !in m
    ensures |Live(m[id := f], uni)| == |Live(m, uni)| + (if PeerOpens(id, uni) then 1 else 0)
  {
    var more := Live(m[id := f], uni);
    if PeerOpens(id, uni) {
      assert more == Live(m, uni) + {id};
    } else {
      assert more == Live(m, uni);
    }
  }

  lemma LiveSame(m: map<nat, Flow>, id: nat, f: Flow, uni: bool)
    requires id in m
    ensures Live(m[id := f], uni) == Live(m, uni)
  {
  }

  lemma LiveLess(m: map<nat, Flow>, id: nat, uni: bool)
    requires id in m
    ensures |Live(m - {id}, uni)| == |Live(m, uni)| - (if PeerOpens(id, uni) then 1 else 0)
  {
    var less := Live(m - {id}, uni);
    if PeerOpens(id, uni) {
      assert Live(m, uni) == less + {id};
    } else {
      assert Live(m, uni) == less;
    }
  }

  /** A new stream starts at nothing. */
  lemma BirthBytes(s: Incoming, id: nat, limit: nat)
    requires BytesOk(s) && Distinct(s.known) && id !in s.known && id !in s.streams
    ensures BytesOk(s.(streams := s.streams[id := Born(limit)], known := s.known + [id]))
    ensures Distinct(s.known + [id])
  {
    var m := s.streams[id := Born(limit)];
    DistinctAppend(s.known, id);
    TotalAppend(s.known, id, HighBy(m, s.gone));
    TotalSame(s.known, HighBy(s.streams, s.gone), HighBy(m, s.gone));
  }

  lemma OpenNextInv(c: Config, s: Incoming, uni: bool)
    requires Inv(c, s) && CreditOf(s, uni).started < CreditOf(s, uni).max
    ensures Inv(c, OpenNext(c, s, uni))
  {
    var k := CreditOf(s, uni);
    var id := Id(k.started, false, uni);
    var limit := if uni then c.uniLimit else c.bidiLimit;
    IdParts(k.started, false, uni);
    BirthBytes(s, id, limit);
    LiveMore(s.streams, id, Born(limit), false);
    LiveMore(s.streams, id, Born(limit), true);
  }

  lemma {:induction false} OpenThroughInv(c: Config, s: Incoming, uni: bool, index: nat)
    requires Inv(c, s) && index < CreditOf(s, uni).max
    ensures Inv(c, OpenThrough(c, s, uni, index))
    decreases index + 1 - CreditOf(s, uni).started
  {
    if index >= CreditOf(s, uni).started {
      OpenNextInv(c, s, uni);
      OpenThroughInv(c, OpenNext(c, s, uni), uni, index);
    }
  }

  lemma OpenOrFindInv(c: Config, s: Incoming, id: nat)
    requires Inv(c, s) && MayName(s, id)
    ensures Inv(c, OpenOrFind(c, s, id))
  {
    if id !in s.streams && !IsServer(id) { OpenThroughInv(c, s, IsUni(id), Index(id)); }
  }

  /** Moving one stream's mark to `high`, having counted `paid` for it. */
  lemma MarkInv(c: Config, s: Incoming, id: nat, f: Flow, received: nat, closed: bool)
    requires Inv(c, s) && id in s.streams && s.received <= received <= s.limit && (s.closed ==> closed)
    requires s.streams[id].highWater <= f.highWater
    requires f.highWater - s.streams[id].highWater <= received - s.received
    requires !closed ==> f.highWater - s.streams[id].highWater == received - s.received
    ensures Inv(c, s.(streams := s.streams[id := f], received := received, closed := closed))
  {
    TotalOne(s.known, HighBy(s.streams, s.gone), HighBy(s.streams[id := f], s.gone), id);
    LiveSame(s.streams, id, f, false);
    LiveSame(s.streams, id, f, true);
  }

  lemma CloseInv(c: Config, s: Incoming)
    requires Inv(c, s)
    ensures Inv(c, s.(closed := true))
  {
  }

  /** Which streams are finished is no matter for the ledger. */
  lemma FinishedInv(c: Config, s: Incoming, finished: set<nat>)
    requires Inv(c, s)
    ensures Inv(c, s.(finished := finished))
  {
  }

  lemma TakeInv(c: Config, t: Incoming, id: nat, offset: nat, bytes: seq<byte>, fin: bool)
    requires Inv(c, t) && id in t.streams
    ensures Inv(c, Take(t, id, offset, bytes, fin))
  {
    var end := (offset + |bytes|) % U64;
    if Refused(t, id, end) {
      CloseInv(c, t);
    } else {
      var ok, f := Taken(t, id, offset, bytes, fin), Took(t.streams[id], offset, bytes, fin);
      var received := Charge(t, id, end).received;
      MarkInv(c, t, id, f, received, t.closed || !ok);
      var u := t.(streams := t.streams[id := f], received := received, closed := t.closed || !ok);
      FinishedInv(c, u, if ok && Whole(f) then t.finished + {id} else t.finished);
    }
  }

  lemma StreamInv(c: Config, s: Incoming, id: nat, offset: nat, bytes: seq<byte>, fin: bool)
    requires Inv(c, s)
    ensures Inv(c, OnStream(c, s, id, offset, bytes, fin))
  {
    if MaySend(s, id) {
      OpenOrFindInv(c, s, id);
      var t := OpenOrFind(c, s, id);
      if id in t.streams { TakeInv(c, t, id, offset, bytes, fin); }
    } else {
      CloseInv(c, s);
    }
  }

  lemma CutInv(c: Config, t: Incoming, id: nat, final: nat)
    requires Inv(c, t) && id in t.streams
    ensures Inv(c, CutOff(t, id, final))
  {
    if Cut(t, id, final) {
      var f := t.streams[id].(highWater := final, final := Some(final));
      var received := Charge(t, id, final).received;
      MarkInv(c, t, id, f, received, t.closed);
      FinishedInv(c, t.(streams := t.streams[id := f], received := received), t.finished + {id});
    } else {
      CloseInv(c, t);
    }
  }

  lemma ResetInv(c: Config, s: Incoming, id: nat, final: nat)
    requires Inv(c, s)
    ensures Inv(c, OnReset(c, s, id, final))
  {
    if MaySend(s, id) {
      OpenOrFindInv(c, s, id);
      var t := OpenOrFind(c, s, id);
      if id in t.streams { CutInv(c, t, id, final); }
    } else {
      CloseInv(c, s);
    }
  }

  lemma LocalInv(c: Config, s: Incoming, uni: bool)
    requires Inv(c, s)
    ensures Inv(c, OpenLocal(c, s, uni))
  {
    var next := if uni then s.nextUni else s.nextBidi;
    var id, limit := Id(next, true, uni), if uni then 0 else c.localLimit;
    IdParts(next, true, uni);
    BirthBytes(s, id, limit);
    LiveMore(s.streams, id, Born(limit), false);
    LiveMore(s.streams, id, Born(limit), true);
  }

  lemma RetireBytes(s: Incoming, id: nat)
    requires BytesOk(s) && id in s.streams
    ensures BytesOk(s.(streams := s.streams - {id}, gone := s.gone[id := s.streams[id].highWater]))
  {
    TotalSame(s.known, HighBy(s.streams, s.gone),
              HighBy(s.streams - {id}, s.gone[id := s.streams[id].highWater]));
  }

  lemma RetireInv(c: Config, s: Incoming, id: nat)
    requires Inv(c, s) && id in s.streams
    ensures Inv(c, Retire(s, id))
  {
    var t := s.(streams := s.streams - {id}, gone := s.gone[id := s.streams[id].highWater]);
    RetireBytes(s, id);
    assert NamesOk(t);
    LiveLess(s.streams, id, false);
    LiveLess(s.streams, id, true);
    assert BytesOk(Retire(s, id)) <==> BytesOk(t);
  }

  lemma ExtendStreamInv(c: Config, s: Incoming, id: nat, consumed: nat)
    requires Inv(c, s) && id in s.streams
    ensures Inv(c, ExtendStream(c, s, id, consumed))
  {
    MarkInv(c, s, id, s.streams[id].(limit := consumed + c.streamData), s.received, s.closed);
  }

  lemma ExtendDataInv(c: Config, s: Incoming)
    requires Inv(c, s)
    ensures Inv(c, ExtendData(c, s))
  {
  }

  lemma StepInv(c: Config, s: Incoming, a: Action)
    requires Inv(c, s)
    ensures Inv(c, Apply(c, s, a))
  {
    match a
    case Stream(id, offset, bytes, fin) => StreamInv(c, s, id, offset, bytes, fin);
    case Reset(id, final) => ResetInv(c, s, id, final);
    case Naming(id) => if MayName(s, id) { OpenOrFindInv(c, s, id); }
    case Local(uni) => LocalInv(c, s, uni);
    case Retiring(id) => if id in s.streams { RetireInv(c, s, id); }
    case Extending(id, consumed) =>
      if id in s.streams {
        ExtendStreamInv(c, s, id, consumed);
        ExtendDataInv(c, ExtendStream(c, s, id, consumed));
      }
  }

  lemma {:induction false} ReachInv(c: Config, actions: seq<Action>)
    ensures Inv(c, Reach(c, actions))
    decreases |actions|
  {
    if actions == [] {
      assert Live(map[], false) == {} && Live(map[], true) == {};
    } else {
      ReachInv(c, actions[..|actions| - 1]);
      StepInv(c, Reach(c, actions[..|actions| - 1]), actions[|actions| - 1]);
    }
  }

  /** In every reachable state the marks of all streams add up to no more than what
      was counted, which is within the limit; exactly that much until an error closes
      the connection; and the peer never has more streams of a kind open than the
      configuration allows. */
  lemma ReceiveLedger(c: Config, actions: seq<Action>)
    ensures BytesOk(Reach(c, actions))
    ensures |Live(Reach(c, actions).streams, false)| <= c.bidi && |Live(Reach(c, actions).streams, true)| <= c.uni
  {
    ReachInv(c, actions);
  }

  // ---- Finished streams -----------------------------------------------------------

  /** A stream that is finished has a final size, and one all of which has been received
      is finished. */
  ghost predicate FinishedOk(m: map<nat, Flow>, finished: set<nat>) {
    && (forall id :: id in finished ==> id in m && m[id].final.Some?)
    && (forall id :: id in m && Whole(m[id]) ==> id in finished)
  }

  lemma OpenNextFinished(c: Config, s: Incoming, uni: bool)
    requires Inv(c, s) && FinishedOk(s.streams, s.finished)
    ensures FinishedOk(OpenNext(c, s, uni).streams, OpenNext(c, s, uni).finished)
  {
    IdParts(CreditOf(s, uni).started, false, uni);
  }

  lemma {:induction false} OpenThroughFinished(c: Config, s: Incoming, uni: bool, index: nat)
    requires Inv(c, s) && index < CreditOf(s, uni).max && FinishedOk(s.streams, s.finished)
    ensures FinishedOk(OpenThrough(c, s, uni, index).streams, OpenThrough(c, s, uni, index).finished)
    decreases index + 1 - CreditOf(s, uni).started
  {
    if index >= CreditOf(s, uni).started {
      OpenNextInv(c, s, uni);
      OpenNextFinished(c, s, uni);
      OpenThroughFinished(c, OpenNext(c, s, uni), uni, index);
    }
  }

  lemma OpenOrFindFinished(c: Config, s: Incoming, id: nat)
    requires Inv(c, s) && MayName(s, id) && FinishedOk(s.streams, s.finished)
    ensures FinishedOk(OpenOrFind(c, s, id).streams, OpenOrFind(c, s, id).finished)
  {
    if id !in s.streams && !IsServer(id) { OpenThroughFinished(c, s, IsUni(id), Index(id)); }
  }

  lemma TakeFinished(t: Incoming, id: nat, offset: nat, bytes: seq<byte>, fin: bool)
    requires id in t.streams && FinishedOk(t.streams, t.finished)
    ensures var u := Take(t, id, offset, bytes, fin); FinishedOk(u.streams, u.finished)
  {
  }

  lemma CutFinished(t: Incoming, id: nat, final: nat)
    requires id in t.streams && FinishedOk(t.streams, t.finished)
    ensures var u := CutOff(t, id, final); FinishedOk(u.streams, u.finished)
  {
  }

  lemma StreamFinished(c: Config, s: Incoming, id: nat, offset: nat, bytes: seq<byte>, fin: bool)
    requires Inv(c, s) && FinishedOk(s.streams, s.finished)
    ensures var u := OnStream(c, s, id, offset, bytes, fin); FinishedOk(u.streams, u.finished)
  {
    if MaySend(s, id) {
      OpenOrFindFinished(c, s, id);
      var t := OpenOrFind(c, s, id);
      if id in t.streams { TakeFinished(t, id, offset, bytes, fin); }
    }
  }

  lemma ResetFinished(c: Config, s: Incoming, id: nat, final: nat)
    requires Inv(c, s) && FinishedOk(s.streams, s.finished)
    ensures var u := OnReset(c, s, id, final); FinishedOk(u.streams, u.finished)
  {
    if MaySend(s, id) {
      OpenOrFindFinished(c, s, id);
      var t := OpenOrFind(c, s, id);
      if id in t.streams { CutFinished(t, id, final); }
    }
  }

  lemma LocalFinished(c: Config, s: Incoming, uni: bool)
    requires Inv(c, s) && FinishedOk(s.streams, s.finished)
    ensures FinishedOk(OpenLocal(c, s, uni).streams, OpenLocal(c, s, uni).finished)
  {
    IdParts(if uni then s.nextUni else s.nextBidi, true, uni);
  }

  lemma RetireFinished(s: Incoming, id: nat)
    requires FinishedOk(s.streams, s.finished)
    ensures FinishedOk(Retire(s, id).streams, Retire(s, id).finished)
  {
  }

  lemma ExtendFinished(c: Config, s: Incoming, id: nat, consumed: nat)
    requires FinishedOk(s.streams, s.finished)
    ensures FinishedOk(Extend(c, s, id, consumed).streams, Extend(c, s, id, consumed).finished)
  {
  }

  lemma StepFinished(c: Config, s: Incoming, a: Action)
    requires Inv(c, s) && FinishedOk(s.streams, s.finished)
    ensures FinishedOk(Apply(c, s, a).streams, Apply(c, s, a).finished)
  {
    match a
    case Stream(id, offset, bytes, fin) => StreamFinished(c, s, id, offset, bytes, fin);
    case Reset(id, final) => ResetFinished(c, s, id, final);
    case Naming(id) => if MayName(s, id) { OpenOrFindFinished(c, s, id); }
    case Local(uni) => LocalFinished(c, s, uni);
    case Retiring(id) => RetireFinished(s, id);
    case Extending(id, consumed) => ExtendFinished(c, s, id, consumed);
  }

  lemma {:induction false} ReachFinished(c: Config, actions: seq<Action>)
    ensures FinishedOk(Reach(c, actions).streams, Reach(c, actions).finished)
    decreases |actions|
  {
    if actions != [] {
      ReachInv(c, actions[..|actions| - 1]);
      ReachFinished(c, actions[..|actions| - 1]);
      StepFinished(c, Reach(c, actions[..|actions| - 1]), actions[|actions| - 1]);
    }
  }

  // ---- The handlers as the connection runs them ---------------------------------

  class Connection {
    const config: Config
    var now: Incoming

    constructor (c: Config)
      ensures config == c && now == Start(c) && Inv(config, now)
    {
      config := c;
      now := Start(c);
      new;
      assert Live(map[], false) == {} && Live(map[], true) == {};
    }

    /** The stream of an identifier, opened along with those before it if it is not there. */
    method FindOrOpen(id: nat) returns (found: bool)
      modifies this
      ensures now == OpenOrFind(config, old(now), id) && found == (id in now.streams)
    {
      if id in now.streams { return true; }
      if IsServer(id) { return false; }
      var uni, index := IsUni(id), Index(id);
      if index < CreditOf(now, uni).started { return false; }
      var i := CreditOf(now, uni).started;
      while i <= index
        invariant CreditOf(now, uni).started == i <= index + 1
        invariant OpenThrough(config, now, uni, index) == OpenThrough(config, old(now), uni, index)
      {
        now := OpenNext(config, now, uni);
        i := i + 1;
      }
      return id in now.streams;
    }

    /** Counts a stream's growth to `end`, if the limit allows it. */
    method Count(id: nat, end: nat) returns (ok: bool)
      requires id in now.streams
      modifies this
      ensures now == Charge(old(now), id, end) && ok == !Refused(old(now), id, end)
    {
      var high := now.streams[id].highWater;
      if end > high {
        var growth := end - high;
        if now.received + growth > now.limit {
          now := now.(closed := true);
          return false;
        }
        now := now.(received := now.received + growth);
      }
      return true;
    }

    method TakeNow(id: nat, offset: nat, bytes: seq<byte>, fin: bool) returns (ok: bool)
      requires id in now.streams
      modifies this
      ensures now == Take(old(now), id, offset, bytes, fin) && (ok <==> Taken(old(now), id, offset, bytes, fin))
    {
      var end := (offset + |bytes|) % U64;
      ok := Count(id, end);
      if !ok { return; }
      ok := Verdict(now.streams[id], offset, end, fin) == Ok;
      now := now.(streams := now.streams[id := Took(now.streams[id], offset, bytes, fin)]);
      if !ok {
        now := now.(closed := true);
        return;
      }
      if Whole(now.streams[id]) { now := now.(finished := now.finished + {id}); }
    }

    method HandleStream(id: nat, offset: nat, bytes: seq<byte>, fin: bool) returns (ok: bool)
      requires Inv(config, now)
      modifies this
      ensures now == OnStream(config, old(now), id, offset, bytes, fin) && Inv(config, now)
      ensures ok <==> StreamAccepted(config, old(now), id, offset, bytes, fin)
    {
      StreamInv(config, now, id, offset, bytes, fin);
      if !MayName(now, id) || (IsServer(id) && IsUni(id)) {
        now := now.(closed := true);
        return false;
      }
      var found := FindOrOpen(id);
      if !found { return false; }
      ok := TakeNow(id, offset, bytes, fin);
    }

    method CutNow(id: nat, final: nat) returns (ok: bool)
      requires id in now.streams
      modifies this
      ensures now == CutOff(old(now), id, final) && (ok <==> Cut(old(now), id, final))
    {
      var f := now.streams[id];
      if (f.final.Some? && f.final.value != final) || final < f.highWater {
        now := now.(closed := true);
        return false;
      }
      ok := Count(id, final);
      if !ok { return; }
      now := now.(streams := now.streams[id := f.(highWater := final, final := Some(final))],
                  finished := now.finished + {id});
    }

    method HandleReset(id: nat, final: nat) returns (ok: bool)
      requires Inv(config, now)
      modifies this
      ensures now == OnReset(config, old(now), id, final) && Inv(config, now)
      ensures ok <==> ResetAccepted(config, old(now), id, final)
    {
      ResetInv(config, now, id, final);
      if !MayName(now, id) || (IsServer(id) && IsUni(id)) {
        now := now.(closed := true);
        return false;
      }
      var found := FindOrOpen(id);
      if !found { return false; }
      ok := CutNow(id, final);
    }
  }
}
