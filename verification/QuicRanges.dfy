/** Sets of byte offsets kept as ascending ranges: what a stream has had
    acknowledged, and what it owes again. */
module QuicRanges {
  import opened Arith

  /** The offsets x with low <= x < high. */
  datatype Range = Range(low: nat, high: nat)

  ghost predicate Spaced(rs: seq<Range>, i: nat)
    requires i < |rs|
  {
    rs[i].low < rs[i].high && (i + 1 < |rs| ==> rs[i].high < rs[i + 1].low)
  }

  /** Ascending, non-empty, and never touching. */
  ghost predicate Canonical(rs: seq<Range>) {
    forall i: nat :: i < |rs| ==> Spaced(rs, i)
  }

  lemma {:induction false} Ascending(rs: seq<Range>, i: nat, j: nat)
    requires Canonical(rs) && i < j < |rs|
    ensures rs[i].low < rs[i].high < rs[j].low < rs[j].high
  {
    assert Spaced(rs, j - 1) && Spaced(rs, j) && Spaced(rs, i);
    if i + 1 < j { Ascending(rs, i, j - 1); }
  }

  /** A join is canonical when both sides are and they do not touch. */
  lemma CanonicalSplit(a: seq<Range>, b: seq<Range>)
    ensures Canonical(a + b) <==>
            Canonical(a) && Canonical(b) && (a != [] && b != [] ==> a[|a| - 1].high < b[0].low)
  {
    var c := a + b;
    if Canonical(c) {
      forall i: nat | i < |a| ensures Spaced(a, i) { assert Spaced(c, i); }
      forall i: nat | i < |b| ensures Spaced(b, i) { assert Spaced(c, |a| + i); }
      if a != [] && b != [] { assert Spaced(c, |a| - 1); }
    }
    if Canonical(a) && Canonical(b) && (a != [] && b != [] ==> a[|a| - 1].high < b[0].low) {
      forall i: nat | i < |c| ensures Spaced(c, i) {
        if i < |a| { assert Spaced(a, i); } else { assert Spaced(b, i - |a|); }
      }
    }
  }

  predicate Within(low: nat, high: nat, x: nat) { low <= x < high }

  function Span(low: nat, high: nat): set<nat> {
    set x: nat | x < high && Within(low, high, x)
  }

  ghost predicate HasAt(rs: seq<Range>, i: nat, x: nat) { i < |rs| && rs[i].low <= x < rs[i].high }

  /** The set a list of ranges stands for. */
  ghost function Offsets(rs: seq<Range>): set<nat> {
    if rs == [] then {} else Span(rs[0].low, rs[0].high) + Offsets(rs[1..])
  }

  // ---- Offsets of a list, piece by piece ---------------------------------------

  lemma {:induction false} OffsetsHas(rs: seq<Range>, i: nat, x: nat)
    requires HasAt(rs, i, x)
    ensures x in Offsets(rs)
  {
    if i > 0 { OffsetsHas(rs[1..], i - 1, x); }
  }

  lemma {:induction false} OffsetsAt(rs: seq<Range>, x: nat) returns (i: nat)
    requires x in Offsets(rs)
    ensures HasAt(rs, i, x)
  {
    if x in Span(rs[0].low, rs[0].high) { return 0; }
    i := OffsetsAt(rs[1..], x);
    i := i + 1;
  }

  lemma {:induction false} OffsetsSplit(a: seq<Range>, b: seq<Range>)
    ensures Offsets(a + b) == Offsets(a) + Offsets(b)
  {
    if a == [] {
      assert a + b == b;
    } else {
      OffsetsSplit(a[1..], b);
      assert (a + b)[1..] == a[1..] + b;
    }
  }

  lemma OffsetsOne(r: Range)
    ensures Offsets([r]) == Span(r.low, r.high)
  {
    assert Offsets([r]) == Span(r.low, r.high) + Offsets([]);
  }

  /** A list cut in three. */
  lemma OffsetsAround(a: seq<Range>, r: Range, b: seq<Range>)
    ensures Offsets(a + [r] + b) == Offsets(a) + Span(r.low, r.high) + Offsets(b)
  {
    OffsetsSplit(a + [r], b);
    OffsetsSplit(a, [r]);
    OffsetsOne(r);
  }

  lemma SpanMerge(a: Range, b: Range)
    requires a.low < a.high && b.low < b.high && a.low <= b.high && b.low <= a.high
    ensures Span(a.low, a.high) + Span(b.low, b.high) == Span(Min(a.low, b.low), Max(a.high, b.high))
  {
  }

  /** Ranges that all start above a point hold nothing at or below it. */
  lemma Above(rs: seq<Range>, low: nat)
    requires forall i :: 0 <= i < |rs| ==> low <= rs[i].low
    ensures Offsets(rs) !! Span(0, low)
  {
    forall x | x in Offsets(rs) ensures x !in Span(0, low) { var i := OffsetsAt(rs, x); }
  }

  lemma Below(rs: seq<Range>, high: nat)
    requires forall i :: 0 <= i < |rs| ==> rs[i].high <= high
    ensures forall x :: x in Offsets(rs) ==> x < high
  {
    forall x | x in Offsets(rs) ensures x < high { var i := OffsetsAt(rs, x); }
  }

  /** Putting pieces of one range in its place keeps the list canonical. */
  lemma CanonicalReplace(a: seq<Range>, r: Range, b: seq<Range>, mid: seq<Range>)
    requires Canonical(a + [r] + b) && Canonical(mid)
    requires mid != [] ==> r.low <= mid[0].low && mid[|mid| - 1].high <= r.high
    ensures Canonical(a + mid + b)
  {
    CanonicalSplit(a + [r], b);
    CanonicalSplit(a, [r]);
    assert (a + [r])[|a|] == r && Spaced([r], 0);
    CanonicalSplit(a, mid);
    CanonicalSplit(a + mid, b);
  }

  lemma CanonicalJoin(a: seq<Range>, r: Range, b: seq<Range>)
    requires Canonical(a) && Canonical(b) && r.low < r.high
    requires a != [] ==> a[|a| - 1].high < r.low
    requires b != [] ==> r.high < b[0].low
    ensures Canonical(a + [r] + b)
  {
    CanonicalSplit(a, [r]);
    CanonicalSplit(a + [r], b);
  }

  lemma OffsetsReplace(a: seq<Range>, r: Range, b: seq<Range>, mid: seq<Range>, low: nat, high: nat)
    requires Offsets(mid) == Span(r.low, r.high) - Span(low, high)
    ensures Offsets(a + mid + b) - Span(low, high) == Offsets(a + [r] + b) - Span(low, high)
  {
    OffsetsAround(a, r, b);
    OffsetsSplit(a + mid, b);
    OffsetsSplit(a, mid);
  }

  // ---- One set, one list -------------------------------------------------------

  lemma Rest(rs: seq<Range>)
    requires Canonical(rs) && rs != []
    ensures Canonical(rs[1..])
    ensures Offsets(rs[1..]) == Offsets(rs) - Span(rs[0].low, rs[0].high)
    ensures Offsets(rs) !! Span(0, rs[0].low) && rs[0].high !in Offsets(rs)
  {
    assert rs == [rs[0]] + rs[1..];
    CanonicalSplit([rs[0]], rs[1..]);
    assert Spaced(rs, 0);
    forall i | 0 <= i < |rs[1..]| ensures rs[0].high + 1 <= rs[1..][i].low { Ascending(rs, 0, i + 1); }
    Above(rs[1..], rs[0].high + 1);
    assert rs[0].high in Span(0, rs[0].high + 1);
  }

  lemma FirstStarts(a: seq<Range>, b: seq<Range>)
    requires Canonical(a) && Canonical(b) && a != [] && b != [] && Offsets(a) == Offsets(b)
    ensures b[0].low <= a[0].low && (a[0].low == b[0].low ==> a[0].high <= b[0].high)
  {
    assert Spaced(a, 0) && Spaced(b, 0);
    Rest(a);
    Rest(b);
    OffsetsHas(a, 0, a[0].low);
    assert a[0].low !in Span(0, b[0].low);
    if a[0].low == b[0].low && b[0].high < a[0].high { OffsetsHas(a, 0, b[0].high); }
  }

  lemma {:induction false} CanonicalUnique(a: seq<Range>, b: seq<Range>)
    requires Canonical(a) && Canonical(b) && Offsets(a) == Offsets(b)
    ensures a == b
  {
    if a == [] {
      if b != [] {
        assert Spaced(b, 0);
        OffsetsHas(b, 0, b[0].low);
      }
    } else if b == [] {
      assert Spaced(a, 0);
      OffsetsHas(a, 0, a[0].low);
    } else {
      FirstStarts(a, b);
      FirstStarts(b, a);
      Rest(a);
      Rest(b);
      CanonicalUnique(a[1..], b[1..]);
    }
  }

  lemma Cut<T>(s: seq<T>, i: nat)
    requires i < |s|
    ensures s == s[..i] + [s[i]] + s[i + 1..]
  {
  }

  lemma Updated<T>(s: seq<T>, i: nat, j: nat, x: T)
    requires i < j <= |s|
    ensures s[i := x][..i + 1] + s[i := x][j..] == s[..i] + [x] + s[j..]
  {
  }

  lemma Doubled<T>(s: seq<T>, i: nat, x: T, y: T)
    requires i < |s|
    ensures s[i := x][..i + 1] + [y] + s[i := x][i + 1..] == s[..i] + ([x] + [y]) + s[i + 1..]
  {
  }

  // ---- The steps of adding and subtracting -------------------------------------

  lemma Swallow(was: seq<Range>, i: nat, j: nat, low: nat, high: nat, r: Range)
    requires i < j < |was| && r.low < r.high && was[j].low < was[j].high
    requires r.low <= was[j].low <= r.high
    requires Span(r.low, r.high) == Span(low, high) + Offsets(was[i..j])
    ensures Span(r.low, Max(r.high, was[j].high)) == Span(low, high) + Offsets(was[i..j + 1])
  {
    SpanMerge(r, was[j]);
    assert was[i..j + 1] == was[i..j] + [was[j]];
    OffsetsSplit(was[i..j], [was[j]]);
    OffsetsOne(was[j]);
  }

  lemma Inserted(was: seq<Range>, i: nat, j: nat, low: nat, high: nat, r: Range)
    requires Canonical(was) && i <= j <= |was| && r.low < r.high
    requires i > 0 ==> was[i - 1].high < r.low
    requires j < |was| ==> r.high < was[j].low
    requires Span(r.low, r.high) == Span(low, high) + Offsets(was[i..j])
    ensures Canonical(was[..i] + [r] + was[j..])
    ensures Offsets(was[..i] + [r] + was[j..]) == Offsets(was) + Span(low, high)
  {
    var a, m, b := was[..i], was[i..j], was[j..];
    assert was == a + m + b;
    CanonicalSplit(a + m, b);
    CanonicalSplit(a, m);
    CanonicalJoin(a, r, b);
    OffsetsAround(a, r, b);
    OffsetsSplit(a + m, b);
    OffsetsSplit(a, m);
  }

  lemma Subtracted(rs: seq<Range>, i: nat, low: nat, high: nat)
    requires Canonical(rs) && i <= |rs| && low < high
    requires forall k :: 0 <= k < i ==> rs[k].high <= low
    requires i < |rs| ==> high <= rs[i].low
    ensures Offsets(rs) - Span(low, high) == Offsets(rs)
  {
    forall k | i <= k < |rs| ensures high <= rs[k].low { if i < k { Ascending(rs, i, k); } }
    Below(rs[..i], low);
    Above(rs[i..], high);
    assert rs == rs[..i] + rs[i..];
    OffsetsSplit(rs[..i], rs[i..]);
  }

  /** One range replaced by what [low, high) leaves of it. */
  lemma Replaced(rs: seq<Range>, i: nat, mid: seq<Range>, low: nat, high: nat)
    requires Canonical(rs) && i < |rs| && Canonical(mid)
    requires mid != [] ==> rs[i].low <= mid[0].low && mid[|mid| - 1].high <= rs[i].high
    requires Offsets(mid) == Span(rs[i].low, rs[i].high) - Span(low, high)
    ensures Canonical(rs[..i] + mid + rs[i + 1..])
    ensures Offsets(rs[..i] + mid + rs[i + 1..]) - Span(low, high) == Offsets(rs) - Span(low, high)
  {
    var a, r, b := rs[..i], rs[i], rs[i + 1..];
    Cut(rs, i);
    CanonicalReplace(a, r, b, mid);
    OffsetsReplace(a, r, b, mid, low, high);
  }

  // ---- The ranges as a connection keeps them -----------------------------------

  class ByteRanges {
    var ranges: seq<Range>

    ghost predicate Valid() reads this { Canonical(ranges) }

    ghost function Set(): set<nat> reads this { Offsets(ranges) }

    constructor ()
      ensures Valid() && ranges == [] && Set() == {}
    {
      ranges := [];
    }

    /** Skips the ranges that lie wholly before `offset`; one that only touches it is skipped
        too unless `touching`. */
    method FirstIndex(offset: nat, touching: bool) returns (at: nat)
      requires Valid()
      ensures at <= |ranges|
      ensures forall k :: 0 <= k < at ==> ranges[k].high < offset || (!touching && ranges[k].high == offset)
      ensures forall k :: at <= k < |ranges| ==> offset < ranges[k].high || (touching && ranges[k].high == offset)
    {
      var lo, hi := 0, |ranges|;
      while lo < hi
        invariant 0 <= lo <= hi <= |ranges|
        invariant forall k :: 0 <= k < lo ==> ranges[k].high < offset || (!touching && ranges[k].high == offset)
        invariant forall k :: hi <= k < |ranges| ==> offset < ranges[k].high || (touching && ranges[k].high == offset)
      {
        var mid := (lo + hi) / 2;
        var end := ranges[mid].high;
        forall k | 0 <= k < mid ensures ranges[k].high < end { Ascending(ranges, k, mid); }
        forall k | mid < k < |ranges| ensures end < ranges[k].high { Ascending(ranges, mid, k); }
        if end < offset || (!touching && end == offset) { lo := mid + 1; } else { hi := mid; }
      }
      at := lo;
    }

    method Add(low: nat, high: nat)
      requires Valid()
      modifies this
      ensures Valid() && Set() == old(Set()) + Span(low, high)
    {
      if high <= low { assert Span(low, high) == {}; return; }
      var i := FirstIndex(low, true);
      ghost var was := ranges;
      if i == |ranges| {
        CanonicalJoin(was, Range(low, high), []);
        OffsetsAround(was, Range(low, high), []);
        ranges := ranges + [Range(low, high)];
        assert ranges == was + [Range(low, high)] + [];
        return;
      }
      if high < ranges[i].low {
        ranges := ranges[..i] + [Range(low, high)] + ranges[i..];
        Inserted(was, i, i, low, high, Range(low, high));
        return;
      }
      Widen(i, low, high);
    }

    /** Joins [low, high) with range `i` and with those after it that they come up to. */
    method Widen(i: nat, low: nat, high: nat)
      requires Valid() && low < high && i < |ranges|
      requires low <= ranges[i].high && ranges[i].low <= high
      requires i > 0 ==> ranges[i - 1].high < low
      modifies this
      ensures Valid() && Set() == old(Set()) + Span(low, high)
    {
      ghost var was := ranges;
      assert Spaced(was, i);
      if i > 0 { assert Spaced(was, i - 1); }
      SpanMerge(was[i], Range(low, high));
      ranges := ranges[i := Range(Min(ranges[i].low, low), Max(ranges[i].high, high))];
      var j := i + 1;
      assert was[i..j] == [was[i]];
      OffsetsOne(was[i]);
      while j < |ranges| && ranges[j].low <= ranges[i].high
        invariant i < j <= |ranges| == |was|
        invariant ranges == was[i := ranges[i]]
        invariant ranges[i].low == Min(was[i].low, low) < ranges[i].high
        invariant Span(ranges[i].low, ranges[i].high) == Span(low, high) + Offsets(was[i..j])
      {
        Ascending(was, i, j);
        Swallow(was, i, j, low, high, ranges[i]);
        ranges := ranges[i := Range(ranges[i].low, Max(ranges[i].high, ranges[j].high))];
        j := j + 1;
      }
      Inserted(was, i, j, low, high, ranges[i]);
      Updated(was, i, j, ranges[i]);
      ranges := ranges[..i + 1] + ranges[j..];
    }

    /** The end of what is there from `base` on without a gap, if the first range holds it. */
    method ContiguousEnd(base: nat) returns (end: nat)
      requires Valid()
      ensures base <= end && Span(base, end) <= Set()
      ensures end in Set() <==> ranges != [] && ranges[0].high < base && base in Set()
    {
      if ranges == [] { return base; }
      Rest(ranges);
      if base < ranges[0].low { assert base in Span(0, ranges[0].low); return base; }
      end := Max(base, ranges[0].high);
      forall x | x in Span(base, end) ensures x in Set() { OffsetsHas(ranges, 0, x); }
    }

    method Subtract(low: nat, high: nat)
      requires Valid()
      modifies this
      ensures Valid() && Set() == old(Set()) - Span(low, high)
    {
      if high <= low { assert Span(low, high) == {}; return; }
      var i := FirstIndex(low, false);
      while i < |ranges|
        invariant 0 <= i <= |ranges|
        invariant Valid()
        invariant forall k :: 0 <= k < i ==> ranges[k].high <= low
        invariant forall k :: i <= k < |ranges| ==> low < ranges[k].high
        invariant Set() - Span(low, high) == old(Set()) - Span(low, high)
        decreases |ranges| - i
      {
        ghost var was := ranges;
        var range := ranges[i];
        if range.low >= high { break; }
        if range.low < low && range.high > high {
          OffsetsOne(Range(range.low, low));
          OffsetsOne(Range(high, range.high));
          OffsetsSplit([Range(range.low, low)], [Range(high, range.high)]);
          Replaced(was, i, [Range(range.low, low)] + [Range(high, range.high)], low, high);
          ranges := ranges[i := Range(range.low, low)];
          ranges := ranges[..i + 1] + [Range(high, range.high)] + ranges[i + 1..];
          Doubled(was, i, Range(range.low, low), Range(high, range.high));
          i := i + 1;
          break;
        }
        if range.low < low {
          OffsetsOne(Range(range.low, low));
          Replaced(was, i, [Range(range.low, low)], low, high);
          Cut(was[i := Range(range.low, low)], i);
          ranges := ranges[i := Range(range.low, low)];
          i := i + 1;
        } else if range.high > high {
          OffsetsOne(Range(high, range.high));
          Replaced(was, i, [Range(high, range.high)], low, high);
          Cut(was[i := Range(high, range.high)], i);
          ranges := ranges[i := Range(high, range.high)];
          break;
        } else {
          Replaced(was, i, [], low, high);
          ranges := ranges[..i] + ranges[i + 1..];
          assert was[..i] + [] == was[..i];
        }
      }
      Subtracted(ranges, i, low, high);
    }
  }
}
