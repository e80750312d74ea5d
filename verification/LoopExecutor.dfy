/** The executor of an event loop: a growing ring of the owner's jobs, a list other
    threads leave theirs on, and a pipe that wakes the loop. */
module LoopExecutor {
  import opened Arith

  // ---- The ring ------------------------------------------------------------------

  /** `capacity` slots of which `count` hold jobs, the first at `head`. */
  class Ring<T(0)> {
    var jobs: array<T>
    var head: nat
    var count: nat

    ghost predicate Valid()
      reads this
    {
      PowerOfTwo(jobs.Length) && head < jobs.Length && count <= jobs.Length
    }

    ghost function Contents(): (s: seq<T>)
      requires Valid()
      reads this, jobs
      ensures |s| == count
    {
      Walk(jobs, head, count)
    }

    constructor (capacity: int)
      ensures Valid() && fresh(jobs) && Contents() == []
      ensures PowerOfTwo(jobs.Length) && jobs.Length >= capacity && (jobs.Length > 1 ==> jobs.Length / 2 < capacity)
    {
      var size := RoundUp(capacity);
      jobs := new T[size];
      head, count := 0, 0;
    }

    method Push(job: T)
      requires Valid()
      modifies this, jobs
      ensures Valid() && (jobs == old(jobs) || fresh(jobs))
      ensures Contents() == old(Contents()) + [job]
    {
      if count == jobs.Length { Grow(); }
      var at := Masked(head, count, jobs.Length);
      ghost var was := Contents();
      Elsewhere(jobs, head, count);
      jobs[at] := job;
      WalkSame(jobs, head, count, was);
      count := count + 1;
    }

    method Pop() returns (job: T)
      requires Valid() && count > 0
      modifies this`head, this`count
      ensures Valid() && job == old(Contents())[0] && Contents() == old(Contents())[1..]
    {
      job := jobs[head];
      WalkNext(jobs, head, count);
      head := Masked(head, 1, jobs.Length);
      count := count - 1;
    }

    /** Twice the room, the jobs moved to its front in order. */
    method Grow()
      requires Valid()
      modifies this
      ensures Valid() && fresh(jobs) && jobs.Length == 2 * old(jobs.Length) && count == old(count)
      ensures Contents() == old(Contents())
    {
      var larger := new T[jobs.Length * 2];
      ghost var was := Contents();
      var i := 0;
      while i < count
        invariant 0 <= i <= count && Valid() && unchanged(this) && unchanged(jobs)
        invariant fresh(larger) && larger.Length == 2 * jobs.Length
        invariant forall k :: 0 <= k < i ==> larger[k] == was[k]
      {
        WalkAt(jobs, head, count, i);
        var at := Masked(head, i, jobs.Length);
        larger[i] := jobs[at];
        i := i + 1;
      }
      Doubled(jobs.Length);
      jobs := larger;
      head := 0;
      WalkFront(jobs, count, was);
    }
  }

  lemma Doubled(m: nat)
    requires PowerOfTwo(m)
    ensures PowerOfTwo(2 * m)
  {
    assert 2 * m / 2 == m;
  }

  /** The slot `i` places after `head`, as the ring finds it. */
  method Masked(head: nat, i: nat, m: nat) returns (at: nat)
    requires PowerOfTwo(m)
    ensures at == Slot(head, i, m)
  {
    MaskWraps(head + i, m);
    at := And(head + i, m - 1);
  }

  /** The room a ring starts with: the least power of two that is enough. */
  method RoundUp(capacity: int) returns (size: nat)
    ensures PowerOfTwo(size) && size >= capacity && (size > 1 ==> size / 2 < capacity)
  {
    size := 1;
    while size < capacity
      invariant PowerOfTwo(size) && (size > 1 ==> size / 2 < capacity)
    {
      Doubled(size);
      size := 2 * size;
    }
  }

  /** The slot `i` places after `head`, around the end. */
  function Slot(head: nat, i: nat, m: nat): (r: nat)
    requires 0 < m
    ensures r < m
  {
    Wrap(head + i, m)
  }

  /** The jobs from slot `head` on, around the end. */
  ghost function Walk<T>(a: array<T>, head: nat, count: nat): (s: seq<T>)
    requires 0 < a.Length && head < a.Length
    reads a
    ensures |s| == count
  {
    if count == 0 then [] else Walk(a, head, count - 1) + [a[Slot(head, count - 1, a.Length)]]
  }

  lemma {:induction false} WalkAt<T>(a: array<T>, head: nat, count: nat, i: nat)
    requires 0 < a.Length && head < a.Length && i < count
    ensures Walk(a, head, count)[i] == a[Slot(head, i, a.Length)]
  {
    if i < count - 1 { WalkAt(a, head, count - 1, i); }
  }

  /** The slot after the last is none of those in use. */
  lemma Elsewhere<T>(a: array<T>, head: nat, count: nat)
    requires 0 < a.Length && head < a.Length && count < a.Length
    ensures forall i: nat :: i < count ==> Slot(head, i, a.Length) != Slot(head, count, a.Length)
    ensures forall i: nat :: i < count ==> a[Slot(head, i, a.Length)] == Walk(a, head, count)[i]
  {
    forall i: nat | i < count
      ensures Slot(head, i, a.Length) != Slot(head, count, a.Length)
      ensures a[Slot(head, i, a.Length)] == Walk(a, head, count)[i]
    {
      WrapDistinct(head + count, head + i, a.Length);
      WalkAt(a, head, count, i);
    }
  }

  lemma {:induction false} WalkSame<T>(a: array<T>, head: nat, count: nat, was: seq<T>)
    requires 0 < a.Length && head < a.Length && |was| == count
    requires forall i: nat :: i < count ==> a[Slot(head, i, a.Length)] == was[i]
    ensures Walk(a, head, count) == was
  {
    if count > 0 {
      WalkSame(a, head, count - 1, was[..count - 1]);
      assert was == was[..count - 1] + [was[count - 1]];
      assert a[Slot(head, count - 1, a.Length)] == was[count - 1];
    }
  }

  lemma WrapOnce(x: nat, m: nat)
    requires 0 < m && x < m
    ensures Wrap(x, m) == x
  {
  }

  lemma WalkFront<T>(a: array<T>, count: nat, was: seq<T>)
    requires 0 < a.Length && |was| == count <= a.Length
    requires forall k :: 0 <= k < count ==> a[k] == was[k]
    ensures Walk(a, 0, count) == was
  {
    forall i: nat | i < count ensures a[Slot(0, i, a.Length)] == was[i] { WrapOnce(i, a.Length); }
    WalkSame(a, 0, count, was);
  }

  lemma WrapStep(head: nat, i: nat, m: nat)
    requires 0 < m && head < m && i < m
    ensures Slot(Slot(head, 1, m), i, m) == Slot(head, i + 1, m)
  {
    if head + 1 == m { assert Wrap(head + 1, m) == Wrap(0, m) == 0; }
  }

  lemma WalkNext<T>(a: array<T>, head: nat, count: nat)
    requires 0 < a.Length && head < a.Length && 0 < count <= a.Length
    ensures Walk(a, head, count)[0] == a[head]
    ensures Walk(a, Slot(head, 1, a.Length), count - 1) == Walk(a, head, count)[1..]
  {
    var s := Walk(a, head, count);
    WalkAt(a, head, count, 0);
    WrapOnce(head, a.Length);
    forall i: nat | i < count - 1 ensures a[Slot(Slot(head, 1, a.Length), i, a.Length)] == s[1..][i] {
      WrapStep(head, i, a.Length);
      WalkAt(a, head, count, i + 1);
    }
    WalkSame(a, Slot(head, 1, a.Length), count - 1, s[1..]);
  }
}
