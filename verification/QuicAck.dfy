/** The packet numbers received, as the descending ranges an ACK frame carries. */
module QuicAck {
  import opened Arith
  import opened QuicRanges

  const MAXIMUM_RANGES := 32

  /** From the top down, both bounds part of a range, a number between any two. */
  predicate Descending(rs: seq<Range>) {
    rs == [] || (rs[0].low <= rs[0].high && (|rs| > 1 ==> rs[1].high + 1 < rs[0].low) && Descending(rs[1..]))
  }

  function Numbers(rs: seq<Range>): set<nat> {
    if rs == [] then {} else Span(rs[0].low, rs[0].high + 1) + Numbers(rs[1..])
  }

  lemma {:induction false} NumbersBelow(rs: seq<Range>)
    requires Descending(rs) && rs != []
    ensures forall n :: n in Numbers(rs) ==> n <= rs[0].high
    ensures forall n :: n in Numbers(rs[1..]) ==> n + 1 < rs[0].low
  {
    if |rs| > 1 { NumbersBelow(rs[1..]); }
  }

  /** One set of numbers, one list of ranges. */
  lemma {:induction false} DescendingUnique(a: seq<Range>, b: seq<Range>)
    requires Descending(a) && Descending(b) && Numbers(a) == Numbers(b)
    ensures a == b
  {
    assert a != [] ==> a[0].high in Numbers(a);
    assert b != [] ==> b[0].high in Numbers(b);
    if a != [] {
      HeadsAgree(a, b);
      HeadsAgree(b, a);
      NumbersBelow(a);
      NumbersBelow(b);
      var head := Span(a[0].low, a[0].high + 1);
      assert Numbers(a[1..]) == Numbers(a) - head;
      assert Numbers(b[1..]) == Numbers(b) - head;
      DescendingUnique(a[1..], b[1..]);
    }
  }

  lemma SpanHas(low: nat, high: nat, x: int)
    ensures low <= x < high ==> x in Span(low, high)
  {
  }

  lemma HeadsAgree(a: seq<Range>, b: seq<Range>)
    requires Descending(a) && Descending(b) && Numbers(a) == Numbers(b) && a != [] && b != []
    ensures a[0].high <= b[0].high && (a[0].high == b[0].high ==> b[0].low <= a[0].low)
  {
    NumbersBelow(a);
    NumbersBelow(b);
    assert a[0].high in Numbers(a);
    SpanHas(a[0].low, a[0].high + 1, b[0].low - 1);
  }

  // ---- Adding and forgetting ---------------------------------------------------

  function Insert(rs: seq<Range>, n: nat): seq<Range> {
    if rs == [] then [Range(n, n)]
    else
      var r := rs[0];
      if r.low <= n <= r.high then rs
      else if n == r.high + 1 then [Range(r.low, n)] + rs[1..]
      else if n + 1 == r.low then
        if |rs| > 1 && rs[1].high + 1 == n then [Range(rs[1].low, r.high)] + rs[2..]
        else [Range(n, r.high)] + rs[1..]
      else if n > r.high then [Range(n, n)] + rs
      else [r] + Insert(rs[1..], n)
  }

  lemma {:induction false} InsertAdds(rs: seq<Range>, n: nat)
    requires Descending(rs)
    ensures Descending(Insert(rs, n)) && Numbers(Insert(rs, n)) == Numbers(rs) + {n}
    ensures rs != [] && n + 1 < rs[0].low ==> Insert(rs, n)[0] == rs[0]
  {
    var all := Insert(rs, n);
    if rs == [] {
      assert all[1..] == [] && Span(n, n + 1) == {n};
      assert Numbers(all) == Span(n, n + 1) + Numbers([]);
    } else {
      var r := rs[0];
      if r.low <= n <= r.high {
        assert n in Span(r.low, r.high + 1);
      } else if n == r.high + 1 {
        assert all[1..] == rs[1..];
        assert Span(r.low, n + 1) == Span(r.low, r.high + 1) + {n};
      } else if n + 1 == r.low && |rs| > 1 && rs[1].high + 1 == n {
        assert all[1..] == rs[2..] == rs[1..][1..];
        assert Span(rs[1].low, r.high + 1) == Span(rs[1].low, rs[1].high + 1) + {n} + Span(r.low, r.high + 1);
      } else if n + 1 == r.low {
        assert all[1..] == rs[1..];
        assert Span(n, r.high + 1) == {n} + Span(r.low, r.high + 1);
      } else if n > r.high {
        assert all[1..] == rs && Span(n, n + 1) == {n};
      } else {
        InsertAdds(rs[1..], n);
        assert all[1..] == Insert(rs[1..], n);
        InsertTop(rs[1..], n);
      }
    }
  }

  /** The highest number after an insertion is the old one or the new one. */
  lemma InsertTop(rs: seq<Range>, n: nat)
    requires Descending(rs)
    ensures Insert(rs, n) != []
    ensures Insert(rs, n)[0].high == if rs == [] then n else Max(rs[0].high, n)
  {
  }

  /** What is kept when there are more ranges than an ACK may carry: the highest. */
  function Kept(rs: seq<Range>): seq<Range> {
    if |rs| > MAXIMUM_RANGES then rs[..MAXIMUM_RANGES] else rs
  }

  function Without(rs: seq<Range>, n: nat): seq<Range> {
    if rs == [] || rs[0].high <= n then []
    else if rs[0].low <= n then [Range(n + 1, rs[0].high)]
    else [rs[0]] + Without(rs[1..], n)
  }

  lemma {:induction false} WithoutRemoves(rs: seq<Range>, n: nat)
    requires Descending(rs)
    ensures Descending(Without(rs, n)) && Numbers(Without(rs, n)) == Numbers(rs) - Span(0, n + 1)
    ensures Without(rs, n) != [] ==> rs != [] && Without(rs, n)[0].high == rs[0].high
  {
    if rs != [] {
      NumbersBelow(rs);
      if rs[0].low > n {
        WithoutRemoves(rs[1..], n);
        assert Without(rs, n)[1..] == Without(rs[1..], n);
      } else if rs[0].high > n {
        var last := [Range(n + 1, rs[0].high)];
        assert last[1..] == [] && Numbers(last) == Span(n + 1, rs[0].high + 1) + Numbers([]);
      }
    }
  }

  lemma {:induction false} DescendingTake(rs: seq<Range>, k: nat)
    requires Descending(rs) && k <= |rs|
    ensures Descending(rs[..k]) && Numbers(rs[..k]) <= Numbers(rs)
    ensures forall n :: n in Numbers(rs) && n !in Numbers(rs[..k]) ==> k == 0 || n + 1 < rs[k - 1].low
  {
    if k > 0 {
      DescendingTake(rs[1..], k - 1);
      assert rs[..k][1..] == rs[1..][..k - 1];
      NumbersBelow(rs);
    }
  }

  /** Adding a number is set insertion, except that when there would be more than 32
      ranges only the 32 highest stay. */
  lemma AddIsInsertion(rs: seq<Range>, n: nat)
    requires Descending(rs)
    ensures var after := Kept(Insert(rs, n));
            && Descending(after) && |after| <= MAXIMUM_RANGES && Numbers(after) <= Numbers(rs) + {n}
            && (|Insert(rs, n)| <= MAXIMUM_RANGES ==> Numbers(after) == Numbers(rs) + {n})
            && (|Insert(rs, n)| > MAXIMUM_RANGES ==>
                  forall x :: x in Numbers(rs) + {n} && x !in Numbers(after) ==> x + 1 < after[MAXIMUM_RANGES - 1].low)
  {
    InsertAdds(rs, n);
    if |Insert(rs, n)| > MAXIMUM_RANGES { DescendingTake(Insert(rs, n), MAXIMUM_RANGES); }
  }

  /** `n` lies below the first `i` ranges, and touches none of them. */
  predicate ClearBelow(rs: seq<Range>, i: nat, n: nat)
    requires i <= |rs|
  {
    i == 0 || (n + 1 < rs[0].low && ClearBelow(rs[1..], i - 1, n))
  }

  lemma {:induction false} ClearNext(rs: seq<Range>, i: nat, n: nat)
    requires i < |rs| && ClearBelow(rs, i, n) && n + 1 < rs[i].low
    ensures ClearBelow(rs, i + 1, n)
  {
    if i > 0 { ClearNext(rs[1..], i - 1, n); }
  }

  lemma Cons<T>(s: seq<T>, i: nat, inserted: seq<T>, tail: seq<T>)
    requires 0 < i <= |s| && inserted == s[1..][..i - 1] + tail
    ensures [s[0]] + inserted == s[..i] + tail && s[1..][i - 1..] == s[i..]
  {
    assert [s[0]] + s[1..][..i - 1] == s[..i];
  }

  lemma {:induction false} InsertPast(rs: seq<Range>, n: nat, i: nat)
    requires Descending(rs) && i <= |rs| && ClearBelow(rs, i, n)
    ensures Insert(rs, n) == rs[..i] + Insert(rs[i..], n)
  {
    if i == 0 {
      assert rs[..0] == [] && rs[0..] == rs;
    } else {
      InsertPast(rs[1..], n, i - 1);
      Cons(rs, i, Insert(rs[1..], n), Insert(rs[1..][i - 1..], n));
    }
  }

  lemma Replace<T>(s: seq<T>, i: nat, x: T)
    requires i < |s|
    ensures s[..i] + ([x] + s[i..][1..]) == s[i := x]
    ensures s[i..][0] == s[i] && s[..i] + s[i..] == s
  {
  }

  /** What inserting does at range `i`, the first that `n` is not clear below. */
  lemma InsertHere(rs: seq<Range>, n: nat, i: nat)
    requires Descending(rs) && i < |rs| && ClearBelow(rs, i, n)
    ensures var r := rs[i];
            && (r.low <= n <= r.high ==> Insert(rs, n) == rs)
            && (!(r.low <= n <= r.high) && n == r.high + 1 ==> Insert(rs, n) == rs[i := Range(r.low, n)])
  {
    InsertPast(rs, n, i);
    Replace(rs, i, Range(rs[i].low, n));
  }

  lemma InsertUnder(rs: seq<Range>, n: nat, i: nat)
    requires Descending(rs) && i < |rs| && ClearBelow(rs, i, n) && rs[i].low <= rs[i].high && n + 1 == rs[i].low
    ensures var r := rs[i];
            Insert(rs, n) == if i + 1 < |rs| && rs[i + 1].high + 1 == n
                             then rs[..i] + [Range(rs[i + 1].low, r.high)] + rs[i + 2..]
                             else rs[i := Range(n, r.high)]
  {
    var r, here := rs[i], rs[i..];
    InsertPast(rs, n, i);
    Replace(rs, i, Range(n, r.high));
    assert |here| > 1 ==> here[1] == rs[i + 1] && here[2..] == rs[i + 2..];
  }

  lemma InsertBefore(rs: seq<Range>, n: nat, i: nat)
    requires Descending(rs) && i <= |rs| && ClearBelow(rs, i, n)
    requires i < |rs| ==> rs[i].low <= rs[i].high && n > rs[i].high + 1
    ensures Insert(rs, n) == rs[..i] + [Range(n, n)] + rs[i..]
  {
    InsertPast(rs, n, i);
  }

  lemma {:induction false} DescendingAt(rs: seq<Range>, i: nat)
    requires Descending(rs) && i < |rs|
    ensures rs[i].low <= rs[i].high
  {
    if i > 0 { DescendingAt(rs[1..], i - 1); }
  }

  class AckRanges {
    var ranges: seq<Range>

    ghost predicate Valid() reads this { Descending(ranges) && |ranges| <= MAXIMUM_RANGES }

    constructor ()
      ensures Valid() && ranges == []
    {
      ranges := [];
    }

    method Add(n: nat)
      requires Valid()
      modifies this
      ensures Valid() && ranges == Kept(Insert(old(ranges), n))
    {
      ghost var was := ranges;
      AddIsInsertion(was, n);
      var i := 0;
      while i < |ranges|
        invariant 0 <= i <= |ranges| && ranges == was && ClearBelow(was, i, n)
      {
        DescendingAt(was, i);
        InsertHere(was, n, i);
        var r := ranges[i];
        if r.low <= n <= r.high { return; }
        if n == r.high + 1 {
          ranges := ranges[i := Range(r.low, n)];
          return;
        }
        if r.low > 0 && n == r.low - 1 {
          InsertUnder(was, n, i);
          ranges := ranges[i := Range(n, r.high)];
          if i + 1 < |ranges| && ranges[i + 1].high + 1 == n {
            Spliced(was, i, Range(n, r.high), Range(ranges[i + 1].low, r.high));
            ranges := ranges[i := Range(ranges[i + 1].low, r.high)];
            ranges := ranges[..i + 1] + ranges[i + 2..];
          }
          return;
        }
        if n > r.high { break; }
        ClearNext(was, i, n);
        i := i + 1;
      }
      InsertBefore(was, n, i);
      ranges := ranges[..i] + [Range(n, n)] + ranges[i..];
      if |ranges| > MAXIMUM_RANGES { ranges := ranges[..MAXIMUM_RANGES]; }
    }

    /** Drops `n` and all that is lower. */
    method RemoveUpTo(n: nat)
      requires Valid()
      modifies this
      ensures Valid() && ranges == Without(old(ranges), n)
    {
      ghost var was := ranges;
      WithoutRemoves(was, n);
      WithoutShort(was, n);
      while ranges != [] && ranges[|ranges| - 1].high <= n
        invariant Descending(ranges) && Without(ranges, n) == Without(was, n)
        decreases |ranges|
      {
        DropLast(ranges, n);
        DescendingTake(ranges, |ranges| - 1);
        ranges := ranges[..|ranges| - 1];
      }
      AllButLast(ranges, n);
      if ranges != [] && ranges[|ranges| - 1].low <= n {
        ranges := ranges[|ranges| - 1 := Range(n + 1, ranges[|ranges| - 1].high)];
      }
    }
  }

  lemma Spliced<T>(s: seq<T>, i: nat, x: T, y: T)
    requires i + 1 < |s|
    ensures s[i := x][i := y][..i + 1] + s[i := x][i := y][i + 2..] == s[..i] + [y] + s[i + 2..]
  {
  }

  lemma {:induction false} WithoutShort(rs: seq<Range>, n: nat)
    ensures |Without(rs, n)| <= |rs|
  {
    if rs != [] { WithoutShort(rs[1..], n); }
  }

  /** The lowest range goes first. */
  lemma {:induction false} DropLast(rs: seq<Range>, n: nat)
    requires rs != [] && rs[|rs| - 1].high <= n
    ensures Without(rs, n) == Without(rs[..|rs| - 1], n)
  {
    if |rs| > 1 && rs[0].high > n && rs[0].low > n {
      DropLast(rs[1..], n);
      assert rs[1..][..|rs| - 2] == rs[..|rs| - 1][1..];
    }
  }

  lemma {:induction false} AllButLast(rs: seq<Range>, n: nat)
    requires Descending(rs) && (rs != [] ==> rs[|rs| - 1].high > n)
    ensures Without(rs, n) == if rs != [] && rs[|rs| - 1].low <= n
                              then rs[|rs| - 1 := Range(n + 1, rs[|rs| - 1].high)] else rs
  {
    if |rs| > 1 {
      AllButLast(rs[1..], n);
      LastLower(rs);
      assert rs == [rs[0]] + rs[1..];
    }
  }

  lemma {:induction false} LastLower(rs: seq<Range>)
    requires Descending(rs) && |rs| > 1
    ensures rs[|rs| - 1].high < rs[0].low
  {
    if |rs| > 2 { LastLower(rs[1..]); }
  }
}
