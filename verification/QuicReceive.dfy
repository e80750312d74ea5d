/** How fragments that arrive in any order become a stream. */
module QuicReceive {
  import opened Arith
  import opened QuicRanges
  import opened QuicSend
  import opened Wrappers

  // ---- What has arrived, as one map --------------------------------------------

  datatype Outcome = Ok | FlowControlError | FinalSizeError

  /** `held` is what every offset that has arrived holds; everything below
      `received` has arrived. */
  datatype Flow = Flow(held: map<nat, byte>, received: nat, highWater: nat, limit: nat, final: Option<nat>)

  /** Of two fragments that arrive early, the first keeps an offset both have. */
  function Merge(held: map<nat, byte>, offset: nat, bytes: seq<byte>): map<nat, byte> {
    map x: nat | x in held.Keys + Span(offset, offset + |bytes|) ::
      if x in held then held[x] else if offset <= x < offset + |bytes| then bytes[x - offset] else 0
  }

  /** A fragment that continues the stream is taken whole from `received` on. */
  function Overlay(held: map<nat, byte>, received: nat, offset: nat, bytes: seq<byte>): map<nat, byte> {
    map x: nat | x in held.Keys + Span(received, offset + |bytes|) ::
      if offset <= x && received <= x < offset + |bytes| then bytes[x - offset] else if x in held then held[x] else 0
  }

  function Lay(held: map<nat, byte>, received: nat, offset: nat, bytes: seq<byte>): map<nat, byte> {
    if offset + |bytes| <= received then held
    else if offset <= received then Overlay(held, received, offset, bytes)
    else Merge(held, offset, bytes)
  }

  /** `end` is where the fragment ends, as a 64-bit counter has it. */
  function Verdict(f: Flow, offset: nat, end: nat, fin: bool): Outcome {
    if end < offset then FinalSizeError
    else if end > f.limit then FlowControlError
    else if f.final.Some? && (end > f.final.value || (fin && end != f.final.value)) then FinalSizeError
    else if f.final.None? && fin && end < f.highWater then FinalSizeError
    else Ok
  }

  /** What is received afterwards is the longest contiguous run of what has arrived. */
  function Took(f: Flow, offset: nat, bytes: seq<byte>, fin: bool): Flow {
    var end := (offset + |bytes|) % U64;
    if Verdict(f, offset, end, fin) != Ok then f
    else
      var held := Lay(f.held, f.received, offset, bytes);
      var high := Max(f.highWater, end);
      Flow(held, RunEnd(held.Keys, 0, high), high, f.limit, if f.final.None? && fin then Some(end) else f.final)
  }

  // ---- Pieces ahead of the stream ----------------------------------------------

  datatype Piece = Piece(offset: nat, bytes: seq<byte>) {
    function End(): nat { offset + |bytes| }
  }

  ghost function Cov(ps: seq<Piece>): set<nat> {
    if ps == [] then {} else Span(ps[0].offset, ps[0].End()) + Cov(ps[1..])
  }

  function Size(ps: seq<Piece>): nat {
    if ps == [] then 0 else |ps[0].bytes| + Size(ps[1..])
  }

  /** Lowest first, none empty, none overlapping, all from `low` on and below `high`. */
  predicate Sorted(ps: seq<Piece>, low: nat, high: nat) {
    if ps == [] then low <= high
    else low <= ps[0].offset && ps[0].bytes != [] && Sorted(ps[1..], ps[0].End(), high)
  }

  predicate ByteAt(h: map<nat, byte>, x: nat, b: byte) { x in h && h[x] == b }

  /** The bytes of a piece from `from` on are the ones held. */
  ghost predicate Match(p: Piece, h: map<nat, byte>, from: nat) {
    forall k :: 0 <= k < |p.bytes| && from <= p.offset + k ==> ByteAt(h, p.offset + k, p.bytes[k])
  }

  ghost predicate Matches(ps: seq<Piece>, h: map<nat, byte>, from: nat) {
    ps == [] || (Match(ps[0], h, from) && Matches(ps[1..], h, from))
  }

  /** Disjoint pieces inside a window hold no more than the window. */
  lemma {:induction false} SizeFits(ps: seq<Piece>, low: nat, high: nat)
    requires Sorted(ps, low, high)
    ensures low + Size(ps) <= high
  {
    if ps != [] { SizeFits(ps[1..], ps[0].End(), high); }
  }

  lemma {:induction false} CovWithin(ps: seq<Piece>, low: nat, high: nat)
    requires Sorted(ps, low, high)
    ensures Cov(ps) <= Span(low, high) && low <= high
  {
    if ps != [] { CovWithin(ps[1..], ps[0].End(), high); }
  }

  lemma {:induction false} CovJoin(x: seq<Piece>, y: seq<Piece>)
    ensures Cov(x + y) == Cov(x) + Cov(y)
  {
    if x == [] {
      assert x + y == y;
    } else {
      assert (x + y)[1..] == x[1..] + y;
      CovJoin(x[1..], y);
    }
  }

  lemma {:induction false} MatchesJoin(x: seq<Piece>, y: seq<Piece>, h: map<nat, byte>, from: nat)
    ensures Matches(x + y, h, from) <==> Matches(x, h, from) && Matches(y, h, from)
  {
    if x == [] {
      assert x + y == y;
    } else {
      assert (x + y)[1..] == x[1..] + y;
      MatchesJoin(x[1..], y, h, from);
    }
  }

  /** Where the pieces so far end. */
  function LastEnd(ps: seq<Piece>, low: nat): nat {
    if ps == [] then low else LastEnd(ps[1..], ps[0].End())
  }

  lemma {:induction false} SortedJoin(x: seq<Piece>, y: seq<Piece>, low: nat, high: nat)
    ensures Sorted(x + y, low, high) <==> Sorted(x, low, LastEnd(x, low)) && Sorted(y, LastEnd(x, low), high)
  {
    if x == [] {
      assert x + y == y;
    } else {
      assert (x + y)[1..] == x[1..] + y;
      SortedJoin(x[1..], y, x[0].End(), high);
    }
  }

  lemma {:induction false} LastEndAppend(ps: seq<Piece>, p: Piece, low: nat)
    ensures LastEnd(ps + [p], low) == p.End()
  {
    if ps == [] {
      assert ps + [p] == [p] && [p][1..] == [];
      assert LastEnd([p], low) == LastEnd([], p.End());
    } else {
      assert (ps + [p])[1..] == ps[1..] + [p];
      LastEndAppend(ps[1..], p, ps[0].End());
    }
  }

  lemma {:induction false} SortedUpTo(ps: seq<Piece>, low: nat, high: nat, higher: nat)
    requires Sorted(ps, low, high) && high <= higher
    ensures Sorted(ps, low, higher)
  {
    if ps != [] { SortedUpTo(ps[1..], ps[0].End(), high, higher); }
  }

  lemma {:induction false} MatchesMore(ps: seq<Piece>, h: map<nat, byte>, from: nat, g: map<nat, byte>, to: nat)
    requires Matches(ps, h, from) && from <= to && forall x :: x in h && to <= x ==> x in g && g[x] == h[x]
    ensures Matches(ps, g, to)
  {
    if ps != [] {
      var p := ps[0];
      forall k | 0 <= k < |p.bytes| && to <= p.offset + k ensures ByteAt(g, p.offset + k, p.bytes[k]) {
        assert ByteAt(h, p.offset + k, p.bytes[k]);
      }
      MatchesMore(ps[1..], h, from, g, to);
    }
  }

  lemma MergeKeeps(held: map<nat, byte>, offset: nat, bytes: seq<byte>)
    ensures forall x :: x in held ==> x in Merge(held, offset, bytes) && Merge(held, offset, bytes)[x] == held[x]
    ensures Merge(held, offset, bytes).Keys == held.Keys + Span(offset, offset + |bytes|)
  {
  }

  // ---- The stream as a connection keeps it -------------------------------------

  /** `got` is every byte ever made ready: a prefix of the stream. */
  ghost predicate Prefix(got: seq<byte>, h: map<nat, byte>) {
    forall x :: 0 <= x < |got| ==> ByteAt(h, x, got[x])
  }

  /** `got` and the early pieces are, between them, exactly what is held. */
  ghost predicate Pieces(got: seq<byte>, early: seq<Piece>, h: map<nat, byte>) {
    Prefix(got, h) && Matches(early, h, |got|) && h.Keys == Span(0, |got|) + Cov(early)
  }

  /** The part of a fragment between two offsets. */
  function Part(offset: nat, bytes: seq<byte>, from: nat, to: nat): Piece
    requires offset <= from <= to <= offset + |bytes|
  {
    Piece(from, bytes[from - offset..to - offset])
  }

  lemma PartMatches(held: map<nat, byte>, offset: nat, bytes: seq<byte>, from: nat, to: nat)
    requires offset <= from <= to <= offset + |bytes| && held.Keys !! Span(from, to)
    ensures Match(Part(offset, bytes, from, to), Merge(held, offset, bytes), 0)
  {
    var h, p := Merge(held, offset, bytes), Part(offset, bytes, from, to);
    forall k | 0 <= k < |p.bytes| ensures ByteAt(h, p.offset + k, p.bytes[k]) {
      assert from + k in Span(from, to);
      assert from + k in Span(offset, offset + |bytes|);
      assert from + k in h;
    }
  }

  // ---- Walking the pieces to insert a fragment ----------------------------------

  /** How far an insertion has got: `done` is settled up to `low`, `rest` is as it was. */
  ghost predicate Inserting(done: seq<Piece>, rest: seq<Piece>, low: nat, floor: nat, top: nat,
                            held: map<nat, byte>, h: map<nat, byte>, cov: set<nat>) {
    && Sorted(done + rest, floor, top) && LastEnd(done, floor) <= low
    && Matches(done, h, floor) && Matches(rest, h, floor)
    && Cov(done) + Cov(rest) == cov
    && (forall x :: x in held && low <= x ==> x in Cov(rest))
  }

  /** A piece that ends by `low` is passed. */
  lemma Pass(done: seq<Piece>, rest: seq<Piece>, low: nat, floor: nat, top: nat,
             held: map<nat, byte>, h: map<nat, byte>, cov: set<nat>, to: nat)
    requires Inserting(done, rest, low, floor, top, held, h, cov) && rest != []
    requires low <= to && rest[0].End() <= to
    ensures Inserting(done + [rest[0]], rest[1..], to, floor, top, held, h, cov)
  {
    assert done + rest == done + [rest[0]] + rest[1..];
    LastEndAppend(done, rest[0], floor);
    MatchesJoin(done, [rest[0]], h, floor);
    assert Matches([rest[0]], h, floor) <== Match(rest[0], h, floor) && Matches([], h, floor);
    CovJoin(done, [rest[0]]);
    assert Cov([rest[0]]) == Span(rest[0].offset, rest[0].End()) + Cov([]);
  }

  /** A gap filled with the part of the fragment that falls in it. */
  lemma Fill(done: seq<Piece>, rest: seq<Piece>, low: nat, floor: nat, top: nat,
             held: map<nat, byte>, offset: nat, bytes: seq<byte>, cov: set<nat>, to: nat)
    requires Inserting(done, rest, low, floor, top, held, Merge(held, offset, bytes), cov)
    requires offset <= low < to <= offset + |bytes| && floor <= low && to <= top &&
             (rest != [] ==> to <= rest[0].offset)
    ensures Inserting(done + [Part(offset, bytes, low, to)], rest, to, floor, top, held,
                      Merge(held, offset, bytes), cov + Span(low, to))
  {
    var h, q := Merge(held, offset, bytes), Part(offset, bytes, low, to);
    SortedJoin(done, rest, floor, top);
    if rest == [] { assert Sorted(rest, to, top); } else { CovWithin(rest, rest[0].offset, top); }
    assert held.Keys !! Span(low, to);
    PartMatches(held, offset, bytes, low, to);
    assert [q][1..] == [];
    assert Matches([q], h, floor);
    MatchesJoin(done, [q], h, floor);
    CovJoin(done, [q]);
    assert Cov([q]) == Span(low, to) + Cov([]);
    LastEndAppend(done, q, floor);
    SortedJoin(done, [q] + rest, floor, top);
    assert ([q] + rest)[1..] == rest;
    assert done + [q] + rest == done + ([q] + rest);
  }

  lemma InsertAt<T>(s: seq<T>, i: nat, x: T)
    requires i <= |s|
    ensures var t := s[..i] + [x] + s[i..];
            t[..i] == s[..i] && t[..i + 1] == s[..i] + [x] && t[i + 1..] == s[i..]
  {
  }

  lemma StepAt<T>(s: seq<T>, i: nat)
    requires i < |s|
    ensures s[i..] != [] && s[i..][0] == s[i] && s[i..][1..] == s[i + 1..] && s[..i + 1] == s[..i] + [s[i]]
  {
  }

  lemma JoinAt<T>(s: seq<T>, i: nat)
    requires i <= |s|
    ensures s[..i] + s[i..] == s
  {
  }

  /** The fragment being inserted, and what was there before it. */
  datatype Job = Job(was: seq<Piece>, offset: nat, bytes: seq<byte>, floor: nat, top: nat, held: map<nat, byte>)

  ghost predicate Starts(j: Job) {
    && j.floor <= j.offset && j.offset + |j.bytes| <= j.top && Sorted(j.was, j.floor, j.top)
    && Matches(j.was, j.held, j.floor)
    && forall x :: x in j.held && j.floor <= x ==> x in Cov(j.was)
  }

  ghost predicate Walk(j: Job, early: seq<Piece>, i: nat, low: nat) {
    && i <= |early| && j.offset <= low
    && Inserting(early[..i], early[i..], low, j.floor, j.top, j.held, Merge(j.held, j.offset, j.bytes),
                 Cov(j.was) + Span(j.offset, Min(low, j.offset + |j.bytes|)))
  }

  lemma WalkStart(j: Job)
    requires Starts(j)
    ensures Walk(j, j.was, 0, j.offset)
  {
    MergeKeeps(j.held, j.offset, j.bytes);
    MatchesMore(j.was, j.held, j.floor, Merge(j.held, j.offset, j.bytes), j.floor);
    assert j.was[..0] == [] && j.was[0..] == j.was && [] + j.was == j.was;
    assert Span(j.offset, j.offset) == {};
  }

  lemma WalkPast(j: Job, early: seq<Piece>, i: nat, low: nat)
    requires Walk(j, early, i, low) && i < |early| && early[i].End() <= low
    ensures Walk(j, early, i + 1, low)
  {
    StepAt(early, i);
    Pass(early[..i], early[i..], low, j.floor, j.top, j.held, Merge(j.held, j.offset, j.bytes),
         Cov(j.was) + Span(j.offset, Min(low, j.offset + |j.bytes|)), low);
  }

  lemma WalkFill(j: Job, early: seq<Piece>, i: nat, low: nat, to: nat)
    requires Starts(j) && Walk(j, early, i, low)
    requires low < to <= j.offset + |j.bytes| && (i < |early| ==> to <= early[i].offset)
    ensures var q := Part(j.offset, j.bytes, low, to);
            var t := early[..i] + [q] + early[i..];
            Walk(j, t, i + 1, to) && t[i + 1..] == early[i..]
  {
    var q := Part(j.offset, j.bytes, low, to);
    var cov := Cov(j.was) + Span(j.offset, low);
    Fill(early[..i], early[i..], low, j.floor, j.top, j.held, j.offset, j.bytes, cov, to);
    InsertAt(early, i, q);
    assert cov + Span(low, to) == Cov(j.was) + Span(j.offset, to);
  }

  lemma WalkThrough(j: Job, early: seq<Piece>, i: nat, low: nat)
    requires Walk(j, early, i, low) && i < |early| && early[i].offset <= low < early[i].End()
    requires low <= j.offset + |j.bytes|
    ensures Walk(j, early, i + 1, early[i].End())
    ensures i + 1 < |early| ==> early[i].End() < early[i + 1].End()
  {
    var high, to, h := j.offset + |j.bytes|, early[i].End(), Merge(j.held, j.offset, j.bytes);
    var cov := Cov(j.was) + Span(j.offset, low);
    StepAt(early, i);
    NextStarts(early[..i], early[i..], j.floor, j.top);
    Pass(early[..i], early[i..], low, j.floor, j.top, j.held, h, cov, to);
    assert Cov(early[i..]) == Span(early[i].offset, to) + Cov(early[i + 1..]);
    assert Span(low, to) <= cov;
    assert Span(j.offset, Min(to, high)) <= Span(j.offset, low) + Span(low, to);
    assert cov == Cov(j.was) + Span(j.offset, Min(to, high));
  }

  lemma WalkEnd(j: Job, early: seq<Piece>, i: nat, low: nat)
    requires Walk(j, early, i, low) && j.offset + |j.bytes| <= low
    ensures Sorted(early, j.floor, j.top) && Matches(early, Merge(j.held, j.offset, j.bytes), j.floor)
    ensures Cov(early) == Cov(j.was) + Span(j.offset, j.offset + |j.bytes|)
  {
    JoinAt(early, i);
    CovJoin(early[..i], early[i..]);
    MatchesJoin(early[..i], early[i..], Merge(j.held, j.offset, j.bytes), j.floor);
  }

  lemma NextStarts(done: seq<Piece>, rest: seq<Piece>, floor: nat, top: nat)
    requires Sorted(done + rest, floor, top) && |rest| > 0
    ensures rest[0].bytes != [] && (|rest| > 1 ==> rest[0].End() < rest[1].End())
  {
    SortedJoin(done, rest, floor, top);
  }

  /** Skips the pieces that end by the fragment's start. */
  method SkipPast(was: seq<Piece>, offset: nat, ghost j: Job) returns (i: nat)
    requires Starts(j) && j.was == was && j.offset == offset
    ensures Walk(j, was, i, offset) && (i < |was| ==> offset < was[i].End())
  {
    i := 0;
    WalkStart(j);
    while i < |was| && was[i].End() <= offset
      invariant i <= |was| && Walk(j, was, i, offset)
    {
      WalkPast(j, was, i, offset);
      i := i + 1;
    }
  }

  /** Fills the gap before piece `i`, if there is one, and goes on behind it. */
  method FillBefore(was: seq<Piece>, at: nat, low: nat, offset: nat, bytes: seq<byte>, ghost j: Job)
    returns (early: seq<Piece>, i: nat)
    requires Starts(j) && j.offset == offset && j.bytes == bytes && Walk(j, was, at, low)
    requires at < |was| && low < was[at].End() && was[at].offset < offset + |bytes| && low < offset + |bytes|
    ensures Walk(j, early, i, was[at].End()) && (i < |early| ==> was[at].End() < early[i].End())
  {
    early, i := was, at;
    var piece := was[at];
    StepAt(was, at);
    NextStarts(was[..at], was[at..], j.floor, j.top);
    if piece.offset > low {
      WalkFill(j, was, at, low, piece.offset);
      early := was[..at] + [Part(offset, bytes, low, piece.offset)] + was[at..];
      i := i + 1;
      StepAt(early, i);
      WalkThrough(j, early, i, piece.offset);
    } else {
      WalkThrough(j, early, i, low);
    }
    i := i + 1;
  }

  /** Keeps the part of a fragment not held already, between the pieces that are. */
  method InsertEarly(was: seq<Piece>, offset: nat, bytes: seq<byte>, ghost j: Job) returns (early: seq<Piece>)
    requires Starts(j) && j.was == was && j.offset == offset && j.bytes == bytes
    ensures Sorted(early, j.floor, j.top) && Matches(early, Merge(j.held, offset, bytes), j.floor)
    ensures Cov(early) == Cov(was) + Span(offset, offset + |bytes|)
  {
    early := was;
    var high, low := offset + |bytes|, offset;
    var i: nat := SkipPast(was, offset, j);
    while low < high
      invariant Walk(j, early, i, low)
      invariant i < |early| ==> low < early[i].End()
    {
      if i == |early| || early[i].offset >= high {
        WalkFill(j, early, i, low, high);
        early := early[..i] + [Part(offset, bytes, low, high)] + early[i..];
        i, low := i + 1, high;
        break;
      }
      var end := early[i].End();
      early, i := FillBefore(early, i, low, offset, bytes, j);
      low := end;
    }
    WalkEnd(j, early, i, low);
  }

  // ---- Draining what has become contiguous ---------------------------------------

  /** `got` extended by the part of a piece that reaches past it. */
  lemma DrainOne(got: seq<byte>, early: seq<Piece>, h: map<nat, byte>)
    requires Pieces(got, early, h) && early != [] && early[0].offset <= |got|
    ensures early[0].End() <= |got| ==> Pieces(got, early[1..], h)
    ensures early[0].End() > |got| ==> Pieces(got + early[0].bytes[|got| - early[0].offset..], early[1..], h)
  {
    var p := early[0];
    if p.End() <= |got| {
      assert Span(p.offset, p.End()) <= Span(0, |got|);
    } else {
      MatchesMore(early[1..], h, |got|, h, p.End());
      var more := got + p.bytes[|got| - p.offset..];
      assert |more| == p.End();
      forall x | 0 <= x < |more| ensures ByteAt(h, x, more[x]) {
        if x < |got| {
          assert ByteAt(h, x, got[x]);
        } else {
          assert ByteAt(h, p.offset + (x - p.offset), p.bytes[x - p.offset]);
        }
      }
      assert Span(0, |more|) == Span(0, |got|) + Span(p.offset, p.End());
    }
  }

  lemma MoreReady(was: seq<byte>, got: seq<byte>, from: seq<byte>, ready: seq<byte>, part: seq<byte>)
    requires was <= got && ready == from + got[|was|..]
    ensures was <= got + part && ready + part == from + (got + part)[|was|..]
  {
  }

  /** Pieces that all start from `low` on match everywhere if they match from there. */
  lemma {:induction false} MatchesAll(ps: seq<Piece>, h: map<nat, byte>, low: nat, high: nat, from: nat)
    requires Sorted(ps, low, high) && Matches(ps, h, from) && from <= low
    ensures Matches(ps, h, 0)
  {
    if ps != [] {
      var p := ps[0];
      forall k | 0 <= k < |p.bytes| ensures ByteAt(h, p.offset + k, p.bytes[k]) {
        assert from <= p.offset + k;
      }
      MatchesAll(ps[1..], h, p.End(), high, from);
    }
  }

  /** A fragment that continues the stream. */
  lemma OverlayPieces(got: seq<byte>, early: seq<Piece>, held: map<nat, byte>, offset: nat, bytes: seq<byte>)
    requires Pieces(got, early, held) && offset <= |got| < offset + |bytes|
    ensures Pieces(got + bytes[|got| - offset..], early, Overlay(held, |got|, offset, bytes))
  {
    var h, more := Overlay(held, |got|, offset, bytes), got + bytes[|got| - offset..];
    assert |more| == offset + |bytes|;
    forall x | 0 <= x < |more| ensures ByteAt(h, x, more[x]) {
      if x < |got| { assert ByteAt(held, x, got[x]); } else { assert x in Span(|got|, |more|); }
    }
    MatchesMore(early, held, |got|, h, |more|);
    assert Span(0, |more|) == Span(0, |got|) + Span(|got|, |more|);
  }

  /** A fragment that arrives early. */
  lemma MergePieces(got: seq<byte>, early: seq<Piece>, held: map<nat, byte>, offset: nat, bytes: seq<byte>,
                    after: seq<Piece>, top: nat)
    requires Pieces(got, early, held) && |got| < offset
    requires Sorted(after, |got| + 1, top) && Matches(after, Merge(held, offset, bytes), |got| + 1)
    requires Cov(after) == Cov(early) + Span(offset, offset + |bytes|)
    ensures Pieces(got, after, Merge(held, offset, bytes))
  {
    var h := Merge(held, offset, bytes);
    MergeKeeps(held, offset, bytes);
    forall x | 0 <= x < |got| ensures ByteAt(h, x, got[x]) { assert ByteAt(held, x, got[x]); }
    MatchesAll(after, h, |got| + 1, top, |got| + 1);
    MatchesMore(after, h, 0, h, |got|);
  }

  /** The pieces kept early lie in order strictly above what has been received. */
  ghost predicate Placed(got: seq<byte>, early: seq<Piece>, held: map<nat, byte>, received: nat, top: nat) {
    && |got| == received && Pieces(got, early, held)
    && Sorted(early, received, top) && (early != [] ==> received < early[0].offset)
  }

  /** `received` is where the longest contiguous run ends. */
  lemma RunReceived(got: seq<byte>, early: seq<Piece>, held: map<nat, byte>, top: nat)
    requires Placed(got, early, held, |got|, top)
    ensures RunEnd(held.Keys, 0, top) == |got| <= top
  {
    CovWithin(early, |got|, top);
    if early != [] { CovWithin(early, early[0].offset, top); }
    RunIs(held.Keys, 0, top, |got|);
  }

  lemma NoWrap(offset: nat, n: nat)
    requires offset < U64 && n < U64 && offset <= (offset + n) % U64
    ensures (offset + n) % U64 == offset + n
  {
  }

  class ReceiveStream {
    var ready: seq<byte>
    var received: nat
    var early: seq<Piece>
    var highWater: nat
    var limit: nat
    var finalSize: Option<nat>
    var finished: bool
    ghost var got: seq<byte>
    ghost var held: map<nat, byte>

    ghost predicate Valid()
      reads this
    {
      && Placed(got, early, held, received, highWater)
      && highWater <= limit < U64
      && (finalSize.Some? ==> highWater <= finalSize.value)
      && finished == (finalSize == Some(received))
    }

    ghost function View(): Flow reads this { Flow(held, received, highWater, limit, finalSize) }

    constructor (granted: nat)
      requires granted < U64
      ensures Valid() && View() == Flow(map[], 0, 0, granted, None) && ready == [] && got == []
    {
      ready, received, early, highWater, limit := [], 0, [], 0, granted;
      finalSize, finished := None, false;
      got, held := [], map[];
      new;
      assert Span(0, 0) == {};
      assert held.Keys == Span(0, 0) + Cov([]);
    }

    /** Moves pieces that have become contiguous into `ready`. */
    method DrainEarly(ghost start: nat)
      requires |got| == received <= highWater && Pieces(got, early, held) && Sorted(early, start, highWater)
      modifies this`early, this`ready, this`received, this`got
      ensures old(got) <= got && ready == old(ready) + got[|old(got)|..]
      ensures Placed(got, early, held, received, highWater)
    {
      ghost var low := start;
      while early != []
        invariant |got| == received <= highWater && Pieces(got, early, held) && Sorted(early, low, highWater)
        invariant old(got) <= got && ready == old(ready) + got[|old(got)|..]
        decreases |early|
      {
        var first := early[0];
        if first.offset > received { break; }
        DrainOne(got, early, held);
        CovWithin(early[1..], first.End(), highWater);
        if first.End() > received {
          var part := first.bytes[received - first.offset..];
          MoreReady(old(got), got, old(ready), ready, part);
          ready := ready + part;
          got := got + part;
          received := first.End();
        }
        low := first.End();
        early := early[1..];
      }
    }

    method Check(offset: nat, end: nat, fin: bool) returns (outcome: Outcome)
      ensures outcome == Verdict(View(), offset, end, fin)
    {
      if end < offset { return FinalSizeError; }
      if end > limit { return FlowControlError; }
      if finalSize.Some? {
        if end > finalSize.value { return FinalSizeError; }
        if fin && end != finalSize.value { return FinalSizeError; }
      } else if fin {
        if end < highWater { return FinalSizeError; }
      }
      return Ok;
    }

    /** Takes a fragment in, or says why not and changes nothing. */
    method Accept(offset: nat, bytes: seq<byte>, fin: bool) returns (outcome: Outcome)
      requires Valid() && offset < U64 && |bytes| < U64
      modifies this
      ensures Valid() && View() == Took(old(View()), offset, bytes, fin)
      ensures outcome == Verdict(old(View()), offset, (offset + |bytes|) % U64, fin)
      ensures old(got) <= got && ready == old(ready) + got[|old(got)|..]
      ensures outcome != Ok ==> unchanged(this)
    {
      var end := (offset + |bytes|) % U64;
      outcome := Check(offset, end, fin);
      if outcome == Ok { Admit(offset, bytes, fin); }
    }

    method Admit(offset: nat, bytes: seq<byte>, fin: bool)
      requires Valid() && offset < U64 && |bytes| < U64
      requires Verdict(View(), offset, (offset + |bytes|) % U64, fin) == Ok
      modifies this
      ensures Valid() && View() == Took(old(View()), offset, bytes, fin)
      ensures old(got) <= got && ready == old(ready) + got[|old(got)|..]
    {
      NoWrap(offset, |bytes|);
      var end := offset + |bytes|;
      Note(end, fin);
      Arrive(offset, bytes);
      RunReceived(got, early, held, highWater);
      if finalSize.Some? && received >= finalSize.value { finished := true; }
    }

    /** Enters where a fragment ends, and whether that is the end of the stream. */
    method Note(end: nat, fin: bool)
      requires Placed(got, early, held, received, highWater)
      modifies this`finalSize, this`highWater
      ensures Placed(got, early, held, received, highWater) && highWater == Max(old(highWater), end)
      ensures finalSize == if old(finalSize).None? && fin then Some(end) else old(finalSize)
    {
      if finalSize.None? && fin { finalSize := Some(end); }
      SortedUpTo(early, received, highWater, Max(highWater, end));
      if end > highWater { highWater := end; }
    }

    /** Puts an acceptable fragment in its place. */
    method Arrive(offset: nat, bytes: seq<byte>)
      requires Placed(got, early, held, received, highWater) && offset + |bytes| <= highWater
      modifies this`early, this`ready, this`received, this`got, this`held
      ensures held == Lay(old(held), old(received), offset, bytes)
      ensures old(got) <= got && ready == old(ready) + got[|old(got)|..]
      ensures Placed(got, early, held, received, highWater)
    {
      if offset + |bytes| <= received { return; }
      if offset <= received { Continue(offset, bytes); } else { Keep(offset, bytes); }
    }

    method Continue(offset: nat, bytes: seq<byte>)
      requires Placed(got, early, held, received, highWater) && offset <= received < offset + |bytes| <= highWater
      modifies this`early, this`ready, this`received, this`got, this`held
      ensures held == Overlay(old(held), old(received), offset, bytes)
      ensures old(got) <= got && ready == old(ready) + got[|old(got)|..]
      ensures Placed(got, early, held, received, highWater)
    {
      var part := bytes[received - offset..];
      OverlayPieces(got, early, held, offset, bytes);
      MoreReady(got, got, ready, ready, part);
      ghost var start := received;
      held := Overlay(held, received, offset, bytes);
      ready := ready + part;
      got := got + part;
      received := offset + |bytes|;
      DrainEarly(start);
    }

    method Keep(offset: nat, bytes: seq<byte>)
      requires Placed(got, early, held, received, highWater) && received < offset && offset + |bytes| <= highWater
      modifies this`early, this`held
      ensures held == Merge(old(held), offset, bytes)
      ensures Placed(got, early, held, received, highWater)
    {
      ghost var j := Job(early, offset, bytes, received + 1, highWater, held);
      MatchesMore(early, held, |got|, held, |got| + 1);
      var after := InsertEarly(early, offset, bytes, j);
      MergePieces(got, early, held, offset, bytes, after, highWater);
      early := after;
      held := Merge(held, offset, bytes);
    }
  }

  // ---- Over a whole run ----------------------------------------------------------

  datatype Arrival = Fragment(offset: nat, bytes: seq<byte>, fin: bool) | Raise(limit: nat)

  function Step(f: Flow, a: Arrival): Flow {
    match a
    case Fragment(offset, bytes, fin) => Took(f, offset, bytes, fin)
    case Raise(limit) => f.(limit := Max(f.limit, limit))
  }

  function After(granted: nat, run: seq<Arrival>): Flow
    decreases |run|
  {
    if run == [] then Flow(map[], 0, 0, granted, None) else Step(After(granted, run[..|run| - 1]), run[|run| - 1])
  }

  /** A fragment of the stream `all`, or a larger limit. */
  ghost predicate PartOf(a: Arrival, all: seq<byte>) {
    match a
    case Fragment(offset, bytes, fin) =>
      && offset + |bytes| <= |all| && bytes == all[offset..offset + |bytes|]
      && (fin ==> offset + |bytes| == |all|)
    case Raise(limit) => true
  }

  ghost predicate AllPartOf(run: seq<Arrival>, all: seq<byte>) {
    forall i :: 0 <= i < |run| ==> PartOf(run[i], all)
  }

  /** The offsets of the fragments a run has had accepted. */
  ghost function Arrived(granted: nat, run: seq<Arrival>): set<nat>
    decreases |run|
  {
    if run == [] then {}
    else
      var before, a := run[..|run| - 1], run[|run| - 1];
      Arrived(granted, before)
      + (if a.Fragment? && a.offset + |a.bytes| <= After(granted, before).limit
         then Span(a.offset, a.offset + |a.bytes|) else {})
  }

  ghost predicate Agrees(h: map<nat, byte>, all: seq<byte>) {
    forall x :: x in h ==> x < |all| && h[x] == all[x]
  }

  ghost predicate FlowOk(f: Flow, all: seq<byte>) {
    && Agrees(f.held, all)
    && Span(0, f.received) <= f.held.Keys && f.received !in f.held
    && (forall x :: x in f.held ==> x < f.highWater) && f.received <= f.highWater <= |all|
    && (f.final.Some? ==> f.final.value == |all|)
  }

  lemma LayAgrees(held: map<nat, byte>, received: nat, offset: nat, bytes: seq<byte>, all: seq<byte>)
    requires Agrees(held, all) && Span(0, received) <= held.Keys
    requires offset + |bytes| <= |all| && bytes == all[offset..offset + |bytes|]
    ensures Agrees(Lay(held, received, offset, bytes), all)
    ensures Lay(held, received, offset, bytes).Keys == held.Keys + Span(offset, offset + |bytes|)
  {
    var end := offset + |bytes|;
    if end <= received {
      assert Span(offset, end) <= Span(0, received);
    } else if offset <= received {
      assert Span(offset, end) <= Span(0, received) + Span(received, end);
      assert Span(received, end) <= Span(offset, end);
    } else {
      MergeKeeps(held, offset, bytes);
    }
  }

  /** A fragment of the stream is refused for flow control or not at all. */
  lemma OnlyFlowControl(f: Flow, offset: nat, bytes: seq<byte>, fin: bool, all: seq<byte>)
    requires FlowOk(f, all) && PartOf(Fragment(offset, bytes, fin), all) && |all| < U64
    ensures (offset + |bytes|) % U64 == offset + |bytes|
    ensures Verdict(f, offset, offset + |bytes|, fin) == if offset + |bytes| > f.limit then FlowControlError else Ok
  {
  }

  /** A fragment laid down: the run from the start is received, and no more. */
  lemma LaidOk(f: Flow, offset: nat, bytes: seq<byte>, all: seq<byte>, held: map<nat, byte>, high: nat)
    requires FlowOk(f, all) && PartOf(Fragment(offset, bytes, false), all)
    requires held == Lay(f.held, f.received, offset, bytes) && high == Max(f.highWater, offset + |bytes|)
    ensures Agrees(held, all) && held.Keys == f.held.Keys + Span(offset, offset + |bytes|)
    ensures var received := RunEnd(held.Keys, 0, high);
            && Span(0, received) <= held.Keys && received !in held && received <= high <= |all|
            && forall x :: x in held ==> x < high
  {
    LayAgrees(f.held, f.received, offset, bytes, all);
    RunHolds(held.Keys, 0, high);
  }

  lemma StepOk(f: Flow, a: Arrival, all: seq<byte>)
    requires FlowOk(f, all) && PartOf(a, all) && |all| < U64
    ensures FlowOk(Step(f, a), all)
    ensures Step(f, a).held.Keys
            == f.held.Keys + (if a.Fragment? && a.offset + |a.bytes| <= f.limit
                              then Span(a.offset, a.offset + |a.bytes|) else {})
    ensures f.final.Some? ==> Step(f, a).final == f.final
  {
    if a.Fragment? {
      OnlyFlowControl(f, a.offset, a.bytes, a.fin, all);
      if a.offset + |a.bytes| <= f.limit {
        LaidOk(f, a.offset, a.bytes, all, Lay(f.held, f.received, a.offset, a.bytes),
               Max(f.highWater, a.offset + |a.bytes|));
      }
    }
  }

  /** Whatever the order, overlap and duplication of the fragments, what is held is
      the stream at the offsets that arrived, and what is received is their longest
      contiguous prefix. */
  lemma {:induction false} Reassembly(granted: nat, run: seq<Arrival>, all: seq<byte>)
    requires AllPartOf(run, all) && |all| < U64
    ensures FlowOk(After(granted, run), all)
    ensures After(granted, run).held.Keys == Arrived(granted, run)
    decreases |run|
  {
    if run == [] {
      assert Span(0, 0) == {};
    } else {
      var before := run[..|run| - 1];
      Reassembly(granted, before, all);
      StepOk(After(granted, before), run[|run| - 1], all);
    }
  }

  /** A fragment that says where the stream ends has been accepted. */
  ghost predicate EndArrived(granted: nat, run: seq<Arrival>)
    decreases |run|
  {
    run != [] && (
      var before, a := run[..|run| - 1], run[|run| - 1];
      || EndArrived(granted, before)
      || (a.Fragment? && a.fin && a.offset + |a.bytes| <= After(granted, before).limit))
  }

  lemma {:induction false} EndIsKnown(granted: nat, run: seq<Arrival>, all: seq<byte>)
    requires AllPartOf(run, all) && |all| < U64
    ensures After(granted, run).final.Some? <==> EndArrived(granted, run)
    decreases |run|
  {
    if run != [] {
      var before, a := run[..|run| - 1], run[|run| - 1];
      EndIsKnown(granted, before, all);
      Reassembly(granted, before, all);
      FinalStep(After(granted, before), a, all);
    }
  }

  lemma FinalStep(f: Flow, a: Arrival, all: seq<byte>)
    requires FlowOk(f, all) && PartOf(a, all) && |all| < U64
    ensures Step(f, a).final.Some?
            <==> f.final.Some? || (a.Fragment? && a.fin && a.offset + |a.bytes| <= f.limit)
  {
    if a.Fragment? { OnlyFlowControl(f, a.offset, a.bytes, a.fin, all); }
  }

  /** A stream is finished exactly when its end and every byte before it have arrived. */
  lemma {:induction false} FinishedWhenWhole(granted: nat, run: seq<Arrival>, all: seq<byte>)
    requires AllPartOf(run, all) && |all| < U64
    ensures var f := After(granted, run);
            f.final == Some(f.received) <==> EndArrived(granted, run) && Arrived(granted, run) == Span(0, |all|)
  {
    Reassembly(granted, run, all);
    EndIsKnown(granted, run, all);
    var f := After(granted, run);
    if f.received < |all| { assert f.received in Span(0, |all|); }
    if f.received == |all| { assert f.held.Keys <= Span(0, |all|); }
  }

  /** So the bytes made ready are exactly that prefix of the stream. */
  lemma ReadyIsThePrefix(got: seq<byte>, early: seq<Piece>, f: Flow, all: seq<byte>)
    requires Placed(got, early, f.held, f.received, f.highWater) && FlowOk(f, all)
    ensures got == all[..f.received]
    ensures f.final == Some(f.received) ==> got == all
  {
    forall x | 0 <= x < |got| ensures x < |all| && got[x] == all[x] { assert ByteAt(f.held, x, got[x]); }
  }

  /** What is kept early is less than the window that is left, unless nothing is:
      when the whole window has been received, both are zero. */
  lemma EarlyIsBounded(got: seq<byte>, early: seq<Piece>, held: map<nat, byte>, received: nat, highWater: nat,
                       limit: nat)
    requires Placed(got, early, held, received, highWater) && highWater <= limit
    ensures Size(early) < limit - received <==> received < limit
    ensures received == limit ==> early == []
  {
    SizeFits(early, received, highWater);
    if early != [] { SizeFits(early, early[0].offset, highWater); }
  }

  /** One fragment that fills the window is received whole. */
  lemma WindowFilled(bytes: seq<byte>)
    requires |bytes| < U64
    ensures var f := After(|bytes|, [Fragment(0, bytes, false)]);
            FlowOk(f, bytes) && f.received == f.highWater == f.limit == |bytes|
  {
    var run := [Fragment(0, bytes, false)];
    assert run[..0] == [];
    assert bytes[0..|bytes|] == bytes;
    Reassembly(|bytes|, run, bytes);
    var f := After(|bytes|, run);
    assert Arrived(|bytes|, run) == Span(0, |bytes|);
    assert f.received !in Span(0, |bytes|);
  }

  /** A stream whose window has been used up keeps nothing early, and that is not less than
      the nothing that is left of the window. */
  method NoWindowNoBound(bytes: seq<byte>) returns (s: ReceiveStream)
    requires |bytes| < U64
    ensures fresh(s) && s.Valid() && s.ready == bytes && s.received == s.limit == |bytes|
    ensures s.early == [] && !(Size(s.early) < s.limit - s.received)
  {
    s := new ReceiveStream(|bytes|);
    var outcome := s.Accept(0, bytes, false);
    ghost var run := [Fragment(0, bytes, false)];
    assert run[..0] == [];
    assert s.View() == After(|bytes|, run);
    WindowFilled(bytes);
    ReadyIsThePrefix(s.got, s.early, s.View(), bytes);
    EarlyIsBounded(s.got, s.early, s.held, s.received, s.highWater, s.limit);
  }
}
