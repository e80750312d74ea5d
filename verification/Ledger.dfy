/** Totals over a list of accounts, each named once. */
module Ledger {
  function Total(ids: seq<nat>, of: nat -> nat): nat {
    if ids == [] then 0 else of(ids[0]) + Total(ids[1..], of)
  }

  predicate Distinct(ids: seq<nat>) { ids == [] || (ids[0] !in ids[1..] && Distinct(ids[1..])) }

  lemma {:induction false} DistinctAppend(ids: seq<nat>, id: nat)
    requires Distinct(ids) && id !in ids
    ensures Distinct(ids + [id])
  {
    if ids != [] {
      assert (ids + [id])[1..] == ids[1..] + [id];
      DistinctAppend(ids[1..], id);
    }
  }

  lemma {:induction false} TotalSame(ids: seq<nat>, f: nat -> nat, g: nat -> nat)
    requires forall id :: id in ids ==> f(id) == g(id)
    ensures Total(ids, f) == Total(ids, g)
  {
    if ids != [] { TotalSame(ids[1..], f, g); }
  }

  lemma {:induction false} TotalAppend(ids: seq<nat>, id: nat, f: nat -> nat)
    ensures Total(ids + [id], f) == Total(ids, f) + f(id)
  {
    if ids == [] {
      assert ids + [id] == [id] && [id][1..] == [];
      assert Total([id], f) == f(id) + Total([], f);
    } else {
      assert (ids + [id])[1..] == ids[1..] + [id];
      TotalAppend(ids[1..], id, f);
    }
  }

  /** One account's change is the total's. */
  lemma {:induction false} TotalOne(ids: seq<nat>, f: nat -> nat, g: nat -> nat, id: nat)
    requires Distinct(ids) && id in ids && forall i :: i in ids && i != id ==> f(i) == g(i)
    ensures Total(ids, g) == Total(ids, f) - f(id) + g(id)
  {
    if ids[0] == id { TotalSame(ids[1..], f, g); } else { TotalOne(ids[1..], f, g, id); }
  }
}
