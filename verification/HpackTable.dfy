/** HPACK's dynamic table: entries kept as offsets into one arena of bytes, which
    must look from outside like a first-in first-out list bounded by its cost. */
module HpackTable {
  import opened Arith
  import opened Wrappers

  datatype Field = Field(name: seq<byte>, value: seq<byte>)

  /** Section 4.1 of RFC 7541. */
  function Cost(f: Field): nat { |f.name| + |f.value| + 32 }

  function Size(fs: seq<Field>): nat { if fs == [] then 0 else Cost(fs[0]) + Size(fs[1..]) }

  // ---- The list it stands for --------------------------------------------------

  /** Oldest first; drops the oldest until `incoming` more fits under `max`. */
  function Evict(fs: seq<Field>, incoming: nat, max: nat): seq<Field> {
    if fs == [] || Size(fs) + incoming <= max then fs else Evict(fs[1..], incoming, max)
  }

  function Inserted(fs: seq<Field>, max: nat, f: Field): seq<Field> {
    if Cost(f) > max then [] else Evict(fs, Cost(f), max) + [f]
  }

  /** Dynamic index `k`, from 1 for the newest. */
  function Named(fs: seq<Field>, k: nat): Option<Field> {
    if 1 <= k <= |fs| then Some(fs[|fs| - k]) else None
  }

  lemma {:induction false} SizeJoin(x: seq<Field>, y: seq<Field>)
    ensures Size(x + y) == Size(x) + Size(y)
  {
    if x == [] {
      assert x + y == y;
    } else {
      assert (x + y)[1..] == x[1..] + y;
      SizeJoin(x[1..], y);
    }
  }

  lemma SizeAppend(fs: seq<Field>, f: Field)
    ensures Size(fs + [f]) == Size(fs) + Cost(f)
  {
    SizeJoin(fs, [f]);
    assert Size([f]) == Cost(f) + Size([]);
  }

  lemma {:induction false} EvictIsSuffix(fs: seq<Field>, incoming: nat, max: nat) returns (k: nat)
    ensures k <= |fs| && Evict(fs, incoming, max) == fs[k..]
    ensures k < |fs| ==> Size(fs[k..]) + incoming <= max
    ensures k > 0 ==> Size(fs[k - 1..]) + incoming > max
  {
    if fs == [] || Size(fs) + incoming <= max { return 0; }
    k := EvictIsSuffix(fs[1..], incoming, max);
    if k > 0 { assert fs[k..] == fs[1..][k - 1..]; }
    assert fs[k + 1..] == fs[1..][k..];
    k := k + 1;
    if k > 1 { assert fs[k - 1..] == fs[1..][k - 2..]; } else { assert fs[0..] == fs; }
  }

  lemma {:induction false} OverfullEmpties(fs: seq<Field>, incoming: nat, max: nat)
    requires incoming > max
    ensures Evict(fs, incoming, max) == []
  {
    if fs != [] { OverfullEmpties(fs[1..], incoming, max); }
  }

  // ---- Over any run ------------------------------------------------------------

  datatype Action = Insert(field: Field) | SetMax(max: nat)

  /** `stored` is history: every field ever put in the table, in order. */
  datatype Fifo = Fifo(fields: seq<Field>, max: nat, stored: seq<Field>)

  function Step(s: Fifo, a: Action): Fifo {
    match a
    case Insert(f) =>
      Fifo(Inserted(s.fields, s.max, f), s.max, if Cost(f) > s.max then s.stored else s.stored + [f])
    case SetMax(max) => Fifo(Evict(s.fields, 0, max), max, s.stored)
  }

  function After(max: nat, run: seq<Action>): Fifo
    decreases |run|
  {
    if run == [] then Fifo([], max, []) else Step(After(max, run[..|run| - 1]), run[|run| - 1])
  }

  ghost predicate Newest(s: Fifo) {
    && |s.fields| <= |s.stored| && s.fields == s.stored[|s.stored| - |s.fields|..]
    && Size(s.fields) <= s.max
  }

  lemma SuffixOfSuffix<T>(s: seq<T>, n: nat, k: nat)
    requires k <= n <= |s|
    ensures s[|s| - n..][k..] == s[|s| - (n - k)..]
  {
  }

  lemma InsertNewest(s: Fifo, f: Field)
    requires Newest(s) && Cost(f) <= s.max
    ensures Newest(Step(s, Insert(f)))
  {
    var k := EvictIsSuffix(s.fields, Cost(f), s.max);
    SuffixOfSuffix(s.stored, |s.fields|, k);
    SizeAppend(s.fields[k..], f);
    Appended(s.stored, |s.fields| - k, f);
  }

  lemma StepNewest(s: Fifo, a: Action)
    requires Newest(s)
    ensures Newest(Step(s, a))
  {
    match a
    case Insert(f) => if Cost(f) <= s.max { InsertNewest(s, f); }
    case SetMax(max) =>
      var k := EvictIsSuffix(s.fields, 0, max);
      SuffixOfSuffix(s.stored, |s.fields|, k);
  }

  lemma Appended<T>(s: seq<T>, n: nat, x: T)
    requires n <= |s|
    ensures s[|s| - n..] + [x] == (s + [x])[|s + [x]| - (n + 1)..]
  {
  }

  /** Whatever has been inserted, resized and evicted, the table holds the newest
      fields stored, unbroken and within its size. */
  lemma {:induction false} TableHoldsTheNewest(max: nat, run: seq<Action>)
    ensures Newest(After(max, run))
    decreases |run|
  {
    if run != [] {
      TableHoldsTheNewest(max, run[..|run| - 1]);
      StepNewest(After(max, run[..|run| - 1]), run[|run| - 1]);
    }
  }

  /** So index `k` names the `k`-th newest field ever stored, byte for byte, or none
      because it has been evicted. */
  lemma IndexNamesTheNewest(max: nat, run: seq<Action>, k: nat)
    requires 1 <= k
    ensures var s := After(max, run);
            Named(s.fields, k) == if k <= |s.fields| then Named(s.stored, k) else None
    ensures Size(After(max, run).fields) <= After(max, run).max
  {
    TableHoldsTheNewest(max, run);
  }

  /** No longer run of the newest fields would fit. */
  ghost predicate Longest(s: Fifo) {
    |s.fields| < |s.stored| ==> Size(s.stored[|s.stored| - |s.fields| - 1..]) > s.max
  }

  lemma OneOlder(s: Fifo, f: Field, k: nat, n: nat)
    requires Newest(s) && k <= |s.fields| && n == |s.fields| - k + 1 && n < |s.stored| + 1
    ensures var all := s.stored + [f];
            all[|all| - n - 1..] == s.stored[|s.stored| - n..] + [f]
            && (k > 0 ==> s.stored[|s.stored| - n..] == s.fields[k - 1..])
  {
  }

  /** The run that is one field longer was too long already, or is now. */
  lemma OneLongerIsTooLong(s: Fifo, f: Field, k: nat, n: nat)
    requires Newest(s) && Longest(s) && k <= |s.fields| && n == |s.fields| - k + 1 && n < |s.stored| + 1
    requires k > 0 ==> Size(s.fields[k - 1..]) + Cost(f) > s.max
    ensures Size(s.stored[|s.stored| - n..]) + Cost(f) > s.max
  {
    OneOlder(s, f, k, n);
  }

  lemma InsertLongest(s: Fifo, f: Field)
    requires Newest(s) && Longest(s) && Cost(f) <= s.max
    ensures Longest(Step(s, Insert(f)))
  {
    var k := EvictIsSuffix(s.fields, Cost(f), s.max);
    var n := |s.fields| - k + 1;
    if n < |s.stored| + 1 {
      OneLongerIsTooLong(s, f, k, n);
      OneOlder(s, f, k, n);
      SizeAppend(s.stored[|s.stored| - n..], f);
    }
  }

  /** A run of fields that each fit. */
  ghost predicate AllInsert(run: seq<Action>, max: nat) {
    forall i :: 0 <= i < |run| ==> run[i].Insert? && Cost(run[i].field) <= max
  }

  function FieldsOf(run: seq<Action>): seq<Field> {
    if run == [] then []
    else FieldsOf(run[..|run| - 1]) + (if run[|run| - 1].Insert? then [run[|run| - 1].field] else [])
  }

  lemma {:induction false} AllAreStored(max: nat, run: seq<Action>)
    requires AllInsert(run, max)
    ensures After(max, run).max == max && After(max, run).stored == FieldsOf(run)
    decreases |run|
  {
    if run != [] {
      var before := run[..|run| - 1];
      assert AllInsert(before, max);
      AllAreStored(max, before);
    }
  }

  /** Over such a run the table holds as many of the newest as it has room for. */
  lemma {:induction false} TableHoldsAllThatFit(max: nat, run: seq<Action>)
    requires AllInsert(run, max)
    ensures Longest(After(max, run)) && After(max, run).max == max && After(max, run).stored == FieldsOf(run)
    decreases |run|
  {
    AllAreStored(max, run);
    if run != [] {
      var before := run[..|run| - 1];
      assert AllInsert(before, max);
      TableHoldsAllThatFit(max, before);
      TableHoldsTheNewest(max, before);
      InsertLongest(After(max, before), run[|run| - 1].field);
    }
  }

  // ---- The table in its arena --------------------------------------------------

  datatype Entry = Entry(nameOffset: nat, nameLength: nat, valueOffset: nat, valueLength: nat) {
    function Cost(): nat { nameLength + valueLength + 32 }
    function End(): nat { valueOffset + valueLength }
  }

  /** Entries lie one after another from `start` on, inside the arena. */
  predicate Laid(es: seq<Entry>, start: nat, end: nat) {
    if es == [] then start <= end
    else
      && start <= es[0].nameOffset && es[0].nameOffset + es[0].nameLength <= es[0].valueOffset
      && es[0].End() <= end && Laid(es[1..], es[0].End(), end)
  }

  function Read(arena: seq<byte>, e: Entry): Field
    requires e.nameOffset + e.nameLength <= e.valueOffset && e.End() <= |arena|
  {
    Field(arena[e.nameOffset..e.nameOffset + e.nameLength], arena[e.valueOffset..e.End()])
  }

  function Fields(arena: seq<byte>, es: seq<Entry>, start: nat): seq<Field>
    requires Laid(es, start, |arena|)
  {
    if es == [] then [] else [Read(arena, es[0])] + Fields(arena, es[1..], es[0].End())
  }

  lemma {:induction false} FieldsAt(arena: seq<byte>, es: seq<Entry>, start: nat, i: nat)
    requires Laid(es, start, |arena|) && i < |es|
    ensures |Fields(arena, es, start)| == |es|
    ensures es[i].nameOffset + es[i].nameLength <= es[i].valueOffset && es[i].End() <= |arena|
    ensures Fields(arena, es, start)[i] == Read(arena, es[i])
    ensures Cost(Fields(arena, es, start)[i]) == es[i].Cost()
  {
    if |es| > 1 { FieldsAt(arena, es[1..], es[0].End(), if i > 0 then i - 1 else 0); }
  }

  lemma {:induction false} LaidAppend(arena: seq<byte>, more: seq<byte>, es: seq<Entry>, start: nat, e: Entry)
    requires Laid(es, start, |arena|) && e.nameOffset == |arena| && e.nameOffset + e.nameLength == e.valueOffset
    requires e.End() == |arena| + |more|
    ensures Laid(es + [e], start, |arena + more|)
    ensures Fields(arena + more, es + [e], start) == Fields(arena, es, start) + [Read(arena + more, e)]
  {
    if es == [] {
      assert es + [e] == [e] && [e][1..] == [];
      assert Fields(arena + more, [], e.End()) == [];
    } else {
      assert (es + [e])[1..] == es[1..] + [e];
      LaidAppend(arena, more, es[1..], es[0].End(), e);
      LaidEnd(es[1..], es[0].End(), |arena|);
      assert Read(arena + more, es[0]) == Read(arena, es[0]);
    }
  }

  lemma {:induction false} LaidEnd(es: seq<Entry>, start: nat, end: nat)
    requires Laid(es, start, end)
    ensures start <= end
  {
    if es != [] { LaidEnd(es[1..], es[0].End(), end); }
  }

  function Moved(e: Entry, gap: nat): Entry
    requires gap <= e.nameOffset && gap <= e.valueOffset
  {
    e.(nameOffset := e.nameOffset - gap, valueOffset := e.valueOffset - gap)
  }

  lemma SliceMoved<T>(s: seq<T>, gap: nat, low: nat, high: nat)
    requires gap <= low <= high <= |s|
    ensures s[gap..][low - gap..high - gap] == s[low..high]
  {
  }

  lemma ReadMoved(arena: seq<byte>, e: Entry, gap: nat)
    requires gap <= e.nameOffset && e.nameOffset + e.nameLength <= e.valueOffset && e.End() <= |arena|
    ensures Read(arena[gap..], Moved(e, gap)) == Read(arena, e)
  {
    SliceMoved(arena, gap, e.nameOffset, e.nameOffset + e.nameLength);
    SliceMoved(arena, gap, e.valueOffset, e.End());
  }

  lemma {:induction false} LaidMoved(arena: seq<byte>, es: seq<Entry>, start: nat, gap: nat, moved: seq<Entry>)
    requires Laid(es, start, |arena|) && gap <= start && |moved| == |es|
    requires forall i :: 0 <= i < |es| ==> gap <= es[i].nameOffset && gap <= es[i].valueOffset
    requires forall i :: 0 <= i < |es| ==> moved[i] == Moved(es[i], gap)
    ensures gap <= |arena| && Laid(moved, start - gap, |arena[gap..]|)
    ensures Fields(arena[gap..], moved, start - gap) == Fields(arena, es, start)
  {
    LaidEnd(es, start, |arena|);
    if es != [] {
      LaidMoved(arena, es[1..], es[0].End(), gap, moved[1..]);
      ReadMoved(arena, es[0], gap);
    }
  }

  lemma {:induction false} LaidAt(es: seq<Entry>, start: nat, end: nat, i: nat)
    requires Laid(es, start, end) && i < |es|
    ensures start <= es[i].nameOffset <= es[i].valueOffset
  {
    if i > 0 { LaidAt(es[1..], es[0].End(), end, i - 1); }
  }

  lemma ReadBack(arena: seq<byte>, name: seq<byte>, value: seq<byte>)
    ensures Read(arena + (name + value), Entry(|arena|, |name|, |arena| + |name|, |value|)) == Field(name, value)
  {
    var all := arena + (name + value);
    assert all[|arena|..|arena| + |name|] == name;
    assert all[|arena| + |name|..|arena| + |name| + |value|] == value;
  }

  class DynamicTable {
    var arena: seq<byte>
    var liveStart: nat
    var entries: seq<Entry>
    var tableSize: int
    var maxTableSize: nat
    var permittedMaxSize: nat

    ghost predicate Valid()
      reads this
    {
      && Laid(entries, liveStart, |arena|)
      && tableSize == Size(Contents()) <= maxTableSize
    }

    ghost function Contents(): seq<Field>
      requires Laid(entries, liveStart, |arena|)
      reads this
    {
      Fields(arena, entries, liveStart)
    }

    constructor (max: nat)
      ensures Valid() && Contents() == [] && maxTableSize == permittedMaxSize == max
    {
      arena, liveStart, entries, tableSize := [], 0, [], 0;
      maxTableSize, permittedMaxSize := max, max;
    }

    method EvictToFit(incoming: nat)
      requires Laid(entries, liveStart, |arena|) && tableSize == Size(Contents())
      modifies this`arena, this`liveStart, this`entries, this`tableSize
      ensures Laid(entries, liveStart, |arena|) && tableSize == Size(Contents())
      ensures Contents() == Evict(old(Contents()), incoming, maxTableSize)
      ensures entries != [] ==> tableSize + incoming <= maxTableSize
    {
      while tableSize + incoming > maxTableSize && entries != []
        invariant Laid(entries, liveStart, |arena|) && tableSize == Size(Contents())
        invariant Evict(Contents(), incoming, maxTableSize) == Evict(old(Contents()), incoming, maxTableSize)
        decreases |entries|
      {
        FieldsAt(arena, entries, liveStart, 0);
        var victim := entries[0];
        assert Contents()[1..] == Fields(arena, entries[1..], victim.End());
        entries := entries[1..];
        tableSize := tableSize - victim.Cost();
        liveStart := victim.valueOffset + victim.valueLength;
      }
      if entries == [] {
        tableSize := 0;
        arena := [];
        liveStart := 0;
      } else {
        FieldsAt(arena, entries, liveStart, 0);
      }
    }

    method SetMaxSize(n: nat)
      requires Valid()
      modifies this
      ensures Valid() && maxTableSize == n && permittedMaxSize == old(permittedMaxSize)
      ensures Contents() == Evict(old(Contents()), 0, n)
    {
      maxTableSize := n;
      EvictToFit(0);
    }

    method SetPermittedMaxSize(n: nat)
      requires Valid()
      modifies this
      ensures Valid() && permittedMaxSize == n
      ensures maxTableSize == if old(maxTableSize) > n then n else old(maxTableSize)
      ensures Contents() == if old(maxTableSize) > n then Evict(old(Contents()), 0, n) else old(Contents())
    {
      permittedMaxSize := n;
      if maxTableSize > n { SetMaxSize(n); }
    }

    /** Moves the live bytes to the front once the dead ones dominate. */
    method CompactArenaIfNeeded()
      requires Valid()
      modifies this`arena, this`liveStart, this`entries
      ensures Valid() && Contents() == old(Contents())
    {
      if liveStart == 0 || |arena| < 4 * maxTableSize + 4096 { return; }
      ghost var was, bytes := entries, arena;
      LaidEnd(entries, liveStart, |arena|);
      arena := arena[liveStart..];
      var i := 0;
      while i < |entries|
        modifies this`entries
        invariant 0 <= i <= |entries| == |was|
        invariant forall k :: 0 <= k < i ==> liveStart <= was[k].nameOffset && liveStart <= was[k].valueOffset
        invariant forall k :: 0 <= k < i ==> entries[k] == Moved(was[k], liveStart)
        invariant forall k :: i <= k < |was| ==> entries[k] == was[k]
      {
        LaidAt(was, liveStart, |bytes|, i);
        entries := entries[i := Entry(entries[i].nameOffset - liveStart, entries[i].nameLength,
                                      entries[i].valueOffset - liveStart, entries[i].valueLength)];
        i := i + 1;
      }
      LaidMoved(bytes, was, liveStart, liveStart, entries);
      liveStart := 0;
    }

    method Insert(name: seq<byte>, value: seq<byte>)
      requires Valid()
      modifies this
      ensures Valid() && maxTableSize == old(maxTableSize) && permittedMaxSize == old(permittedMaxSize)
      ensures Contents() == Inserted(old(Contents()), maxTableSize, Field(name, value))
    {
      var cost := |name| + |value| + 32;
      EvictToFit(cost);
      if cost > maxTableSize {
        OverfullEmpties(old(Contents()), cost, maxTableSize);
        return;
      }
      CompactArenaIfNeeded();
      Append(name, value);
    }

    method Append(name: seq<byte>, value: seq<byte>)
      requires Valid() && tableSize + |name| + |value| + 32 <= maxTableSize
      modifies this`arena, this`entries, this`tableSize
      ensures Valid() && Contents() == old(Contents()) + [Field(name, value)]
    {
      var nameOffset := |arena|;
      var valueOffset := |arena| + |name|;
      var e := Entry(nameOffset, |name|, valueOffset, |value|);
      LaidAppend(arena, name + value, entries, liveStart, e);
      ReadBack(arena, name, value);
      SizeAppend(Contents(), Field(name, value));
      arena := arena + (name + value);
      entries := entries + [e];
      tableSize := tableSize + e.Cost();
    }

    /** Dynamic index `k`: `None` is a bad index. */
    method EntryAt(k: nat) returns (f: Option<Field>)
      requires Valid() && k >= 1
      ensures f == Named(Contents(), k)
    {
      var position := |entries| - k;
      if |entries| > 0 { FieldsAt(arena, entries, liveStart, 0); }
      if position < 0 || position >= |entries| { return None; }
      var e := entries[position];
      FieldsAt(arena, entries, liveStart, position);
      return Some(Read(arena, e));
    }
  }
}
