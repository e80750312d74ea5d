/** Steps of one machine, one after the other. */
module Paths {
  ghost predicate Link<T(!new)>(step: T -> T, xs: seq<T>, i: nat)
    requires i + 1 < |xs|
  {
    step(xs[i]) == xs[i + 1]
  }

  ghost predicate Path<T(!new)>(step: T -> T, xs: seq<T>) {
    forall i: nat :: i + 1 < |xs| ==> Link(step, xs, i)
  }

  ghost predicate Joins<T(!new)>(step: T -> T, xs: seq<T>, x: T, y: T, n: nat) {
    |xs| == n + 1 && xs[0] == x && xs[n] == y && Path(step, xs)
  }

  /** `n` steps lead from `x` to `y`. */
  ghost predicate Leads<T(!new)>(step: T -> T, x: T, y: T, n: nat) {
    exists xs :: Joins(step, xs, x, y, n)
  }

  lemma LeadsOnce<T(!new)>(step: T -> T, x: T, y: T)
    requires step(x) == y
    ensures Leads(step, x, y, 1)
  {
    assert Joins(step, [x, y], x, y, 1);
  }

  lemma LeadsNowhere<T(!new)>(step: T -> T, x: T)
    ensures Leads(step, x, x, 0)
  {
    assert Joins(step, [x], x, x, 0);
  }

  lemma LeadsThen<T(!new)>(step: T -> T, x: T, y: T, z: T, m: nat, n: nat)
    requires Leads(step, x, y, m) && Leads(step, y, z, n)
    ensures Leads(step, x, z, m + n)
  {
    var a :| Joins(step, a, x, y, m);
    var b :| Joins(step, b, y, z, n);
    var xs := a[..m] + b;
    forall i: nat | i + 1 < |xs| ensures Link(step, xs, i) {
      if i < m { assert Link(step, a, i); } else { assert Link(step, b, i - m); }
    }
    assert Joins(step, xs, x, z, m + n);
  }

  /** One step, and then more. */
  lemma LeadsOn<T(!new)>(step: T -> T, x: T, y: T, z: T, n: nat)
    requires step(x) == y && Leads(step, y, z, n)
    ensures Leads(step, x, z, n + 1)
  {
    LeadsOnce(step, x, y);
    LeadsThen(step, x, y, z, 1, n);
  }

  lemma LeadsFirst<T(!new)>(step: T -> T, x: T, y: T, n: nat)
    requires Leads(step, x, y, n) && n > 0
    ensures Leads(step, step(x), y, n - 1)
  {
    var xs :| Joins(step, xs, x, y, n);
    assert Link(step, xs, 0);
    forall i: nat | i + 1 < n ensures Link(step, xs[1..], i) { assert Link(step, xs, i + 1); }
    assert Joins(step, xs[1..], step(x), y, n - 1);
  }

  lemma LeadsNot<T(!new)>(step: T -> T, x: T, y: T)
    requires Leads(step, x, y, 0)
    ensures x == y
  {
  }
}
