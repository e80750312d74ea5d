/** Which fragments a stream refuses, whatever a peer sends: those that go past the limit and
    those that no stream could have along with the ones accepted before. */
module QuicReceiveSizes {
  import opened Arith
  import opened QuicReceive
  import opened Wrappers

  /** Where an accepted fragment ends, and whether it says the stream does. */
  datatype Claim = Claim(end: nat, fin: bool)

  function EndOf(a: Arrival): nat
    requires a.Fragment?
  {
    (a.offset + |a.bytes|) % U64
  }

  predicate Accepted(f: Flow, a: Arrival) { a.Fragment? && Verdict(f, a.offset, EndOf(a), a.fin) == Ok }

  function Entered(cs: seq<Claim>, f: Flow, a: Arrival): seq<Claim> {
    if Accepted(f, a) then cs + [Claim(EndOf(a), a.fin)] else cs
  }

  /** The fragments accepted over a run of any. */
  function Claims(granted: nat, run: seq<Arrival>): seq<Claim>
    decreases |run|
  {
    if run == [] then []
    else
      var before, a := run[..|run| - 1], run[|run| - 1];
      Entered(Claims(granted, before), After(granted, before), a)
  }

  predicate Within(c: Claim, size: nat) { c.end <= size && (c.fin ==> c.end == size) }

  ghost predicate AllWithin(cs: seq<Claim>, size: nat) { forall i :: 0 <= i < |cs| ==> Within(cs[i], size) }

  /** Some size of the stream agrees with all of them. */
  ghost predicate Agree(cs: seq<Claim>) { exists size: nat :: AllWithin(cs, size) }

  /** What the counters say of the fragments accepted. */
  ghost predicate Counted(f: Flow, cs: seq<Claim>) {
    && (forall i :: 0 <= i < |cs| ==> cs[i].end <= f.highWater && (cs[i].fin ==> f.final == Some(cs[i].end)))
    && (f.highWater > 0 ==> exists i :: 0 <= i < |cs| && cs[i].end == f.highWater)
    && (f.final.Some? ==> f.highWater <= f.final.value && Claim(f.final.value, true) in cs)
  }

  lemma OneMore(f: Flow, cs: seq<Claim>, c: Claim, g: Flow)
    requires Counted(f, cs) && g.highWater == Max(f.highWater, c.end)
    requires g.final == if f.final.None? && c.fin then Some(c.end) else f.final
    requires f.final.Some? ==> c.end <= f.final.value && (c.fin ==> c.end == f.final.value)
    requires f.final.None? && c.fin ==> f.highWater <= c.end
    ensures Counted(g, cs + [c])
  {
    var all := cs + [c];
    assert all[|cs|] == c;
    forall i | 0 <= i < |all| ensures all[i].end <= g.highWater && (all[i].fin ==> g.final == Some(all[i].end)) {
      if i < |cs| { assert all[i] == cs[i]; }
    }
    if g.highWater > c.end {
      var i :| 0 <= i < |cs| && cs[i].end == f.highWater;
      assert all[i] == cs[i];
    }
    if f.final.Some? {
      assert Claim(f.final.value, true) in all;
    }
  }

  lemma StepCounted(f: Flow, a: Arrival, cs: seq<Claim>)
    requires Counted(f, cs)
    ensures Counted(Step(f, a), Entered(cs, f, a))
  {
    if Accepted(f, a) { OneMore(f, cs, Claim(EndOf(a), a.fin), Step(f, a)); }
  }

  lemma {:induction false} RunCounted(granted: nat, run: seq<Arrival>)
    ensures Counted(After(granted, run), Claims(granted, run))
    decreases |run|
  {
    if run != [] {
      var before := run[..|run| - 1];
      RunCounted(granted, before);
      StepCounted(After(granted, before), run[|run| - 1], Claims(granted, before));
    }
  }

  /** What agreeing with one more comes to. */
  lemma AgreeMore(f: Flow, cs: seq<Claim>, c: Claim)
    requires Counted(f, cs)
    ensures Agree(cs + [c]) <==>
              if f.final.Some? then Within(c, f.final.value) else c.fin ==> f.highWater <= c.end
  {
    var all := cs + [c];
    assert all[|cs|] == c;
    if Agree(all) {
      var size: nat :| AllWithin(all, size);
      assert Within(all[|cs|], size);
      if f.final.Some? {
        var i :| 0 <= i < |cs| && cs[i] == Claim(f.final.value, true);
        assert Within(all[i], size);
      } else if f.highWater > 0 {
        var i :| 0 <= i < |cs| && cs[i].end == f.highWater;
        assert Within(all[i], size);
      }
    }
    var size := if f.final.Some? then f.final.value else Max(f.highWater, c.end);
    if if f.final.Some? then Within(c, size) else c.fin ==> f.highWater <= c.end {
      forall i | 0 <= i < |all| ensures Within(all[i], size) {
        if i < |cs| { assert all[i] == cs[i]; }
      }
      assert AllWithin(all, size);
    }
  }

  lemma EndWraps(offset: nat, n: nat)
    requires offset < U64 && n < U64
    ensures if offset + n < U64 then (offset + n) % U64 == offset + n else (offset + n) % U64 < offset
  {
    if offset + n >= U64 { assert (offset + n) % U64 == offset + n - U64; }
  }

  /** The verdict on a fragment that ends at `end`, by what agreeing with it comes to. */
  lemma VerdictIs(f: Flow, offset: nat, end: nat, fin: bool)
    ensures Verdict(f, offset, end, fin) == FlowControlError <==> offset <= end && f.limit < end
    ensures Verdict(f, offset, end, fin) == Ok <==>
              offset <= end <= f.limit
              && if f.final.Some? then Within(Claim(end, fin), f.final.value) else fin ==> f.highWater <= end
  {
  }

  /** Over every run of any fragments, honest or not: the next is refused for flow control
      exactly if it ends past the limit, and for its size exactly if its end has no number or no
      size of the stream agrees with it and with all that were accepted. */
  lemma RefusedExactly(granted: nat, run: seq<Arrival>, a: Arrival)
    requires a.Fragment? && a.offset < U64 && |a.bytes| < U64
    ensures var f := After(granted, run);
            var outcome := Verdict(f, a.offset, EndOf(a), a.fin);
            var end := a.offset + |a.bytes|;
            && (outcome == FlowControlError <==> f.limit < end < U64)
            && (outcome == Ok <==>
                  end < U64 && end <= f.limit && Agree(Claims(granted, run) + [Claim(EndOf(a), a.fin)]))
  {
    var f := After(granted, run);
    RunCounted(granted, run);
    AgreeMore(f, Claims(granted, run), Claim(EndOf(a), a.fin));
    VerdictIs(f, a.offset, EndOf(a), a.fin);
    EndWraps(a.offset, |a.bytes|);
  }

  /** The limit is the largest granted. */
  ghost predicate Granted(granted: nat, run: seq<Arrival>, limit: nat) {
    && granted <= limit && (forall i :: 0 <= i < |run| && run[i].Raise? ==> run[i].limit <= limit)
    && (limit == granted || exists i :: 0 <= i < |run| && run[i].Raise? && run[i].limit == limit)
  }

  lemma {:induction false} LimitIsGranted(granted: nat, run: seq<Arrival>)
    ensures Granted(granted, run, After(granted, run).limit)
    decreases |run|
  {
    if run != [] {
      var before, a := run[..|run| - 1], run[|run| - 1];
      LimitIsGranted(granted, before);
      var limit, was := After(granted, run).limit, After(granted, before).limit;
      forall i | 0 <= i < |run| && run[i].Raise? ensures run[i].limit <= limit {
        if i < |before| { assert before[i] == run[i]; }
      }
      if limit == was && was != granted {
        var i :| 0 <= i < |before| && before[i].Raise? && before[i].limit == was;
        assert run[i] == before[i];
      }
    }
  }

  lemma {:induction false} SizesStep(granted: nat, run: seq<Arrival>)
    ensures After(granted, run).highWater <= After(granted, run).limit
    decreases |run|
  {
    if run != [] { SizesStep(granted, run[..|run| - 1]); }
  }

  /** And what was accepted agrees, is within the limit, and fixes the final size once. */
  lemma AcceptedAgree(granted: nat, run: seq<Arrival>)
    ensures var f, cs := After(granted, run), Claims(granted, run);
            && Agree(cs)
            && (forall i :: 0 <= i < |cs| ==> cs[i].end <= f.limit)
            && (forall i :: 0 <= i < |cs| && cs[i].fin ==> f.final == Some(cs[i].end))
            && (f.final.Some? ==> Claim(f.final.value, true) in cs)
  {
    RunCounted(granted, run);
    SizesStep(granted, run);
    var f, cs := After(granted, run), Claims(granted, run);
    var size := if f.final.Some? then f.final.value else f.highWater;
    assert AllWithin(cs, size);
  }
}
