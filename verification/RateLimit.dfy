/** The rate limiter: a probing hash table in shared memory that has to decide as an
    unbounded map from clients to their theoretical arrival times would. */
module RateLimit {
  import opened Arith
  import opened Wrappers

  const PROBES := 8

  /** A key of 0 is an entry never used. */
  datatype Entry = Entry(key: nat, tat: nat)

  /** `entries` is a power of two, at least 256; times are in microseconds. */
  datatype Config = Config(entries: nat, emission: nat, tolerance: nat)

  predicate Sound(c: Config) { PROBES <= c.entries && 0 < c.emission }

  function Slot(c: Config, key: nat, p: nat): (i: nat)
    requires Sound(c)
    ensures i < c.entries
  {
    Wrap(Wrap(key, c.entries) + p, c.entries)
  }

  // ---- Finding a client's entry --------------------------------------------------

  /** The first probe from `p` on that holds the client or nobody. */
  function Home(c: Config, t: seq<Entry>, key: nat, p: nat): (r: nat)
    requires Sound(c) && |t| == c.entries && p <= PROBES
    ensures p <= r <= PROBES
    decreases PROBES - p
  {
    if p == PROBES then p
    else
      var k := t[Slot(c, key, p)].key;
      if k == key || k == 0 then p else Home(c, t, key, p + 1)
  }

  /** The first probe from `p` on that holds a client with nothing left to wait for. */
  function Idle(c: Config, t: seq<Entry>, key: nat, now: nat, p: nat): (r: nat)
    requires Sound(c) && |t| == c.entries && p <= PROBES
    ensures p <= r <= PROBES
    decreases PROBES - p
  {
    if p == PROBES then p else if t[Slot(c, key, p)].tat <= now then p else Idle(c, t, key, now, p + 1)
  }

  /** The entry a client uses: its own, an empty one, or an idle one taken over. */
  function Find(c: Config, t: seq<Entry>, key: nat, now: nat): Option<nat>
    requires Sound(c) && |t| == c.entries
  {
    var p := Home(c, t, key, 0);
    if p < PROBES then Some(Slot(c, key, p))
    else
      var q := Idle(c, t, key, now, 0);
      if q < PROBES then Some(Slot(c, key, q)) else None
  }

  // ---- One check ------------------------------------------------------------------

  datatype Verdict = Verdict(tat: nat, wait: nat)

  /** The generic cell rate algorithm: a wait of 0 admits. */
  function Gcra(c: Config, tat: nat, now: nat): Verdict {
    var base := Max(tat, now);
    if base - now > c.tolerance then Verdict(tat, base - now - c.tolerance) else Verdict(base + c.emission, 0)
  }

  datatype Checked = Checked(table: seq<Entry>, found: bool, wait: nat)

  /** A client with no entry is admitted without charge. */
  function Check(c: Config, t: seq<Entry>, key: nat, now: nat): Checked
    requires Sound(c) && |t| == c.entries
  {
    var at := Find(c, t, key, now);
    if at.None? then Checked(t, false, 0)
    else
      var i := at.value;
      var v := Gcra(c, t[i].tat, now);
      Checked(t[i := Entry(key, v.tat)], true, v.wait)
  }

  // ---- What the table keeps --------------------------------------------------------

  /** `key` is in the slot of probe `p`, and no probe before it is empty. */
  ghost predicate Reachable(c: Config, t: seq<Entry>, i: nat, p: nat)
    requires Sound(c) && |t| == c.entries && i < |t|
  {
    && p < PROBES && Slot(c, t[i].key, p) == i
    && forall q: nat :: q < p ==> Used(c, t, t[i].key, q)
  }

  ghost predicate Used(c: Config, t: seq<Entry>, key: nat, q: nat)
    requires Sound(c) && |t| == c.entries
  {
    t[Slot(c, key, q)].key != 0
  }

  ghost predicate EntryOk(c: Config, t: seq<Entry>, i: nat)
    requires Sound(c) && |t| == c.entries && i < |t|
  {
    if t[i].key == 0 then t[i].tat == 0 else exists p :: Reachable(c, t, i, p)
  }

  ghost predicate Alone(t: seq<Entry>, i: nat, j: nat)
    requires i < |t| && j < |t|
  {
    i != j && t[i].key != 0 ==> t[i].key != t[j].key
  }

  ghost predicate TableOk(c: Config, t: seq<Entry>) {
    && Sound(c) && |t| == c.entries
    && (forall i: nat :: i < |t| ==> EntryOk(c, t, i))
    && (forall i: nat, j: nat :: i < |t| && j < |t| ==> Alone(t, i, j))
  }

  /** A client's entry, if it has one, is where the first loop looks. */
  lemma {:induction false} HomeIs(c: Config, t: seq<Entry>, key: nat, p: nat, i: nat, r: nat)
    requires Sound(c) && |t| == c.entries && i < |t| && t[i].key == key != 0 && Reachable(c, t, i, r) && p <= r
    ensures var h := Home(c, t, key, p); h <= r && t[Slot(c, key, h)].key == key
    decreases PROBES - p
  {
    assert p < r ==> Used(c, t, key, p);
    if p < r && t[Slot(c, key, p)].key != key { HomeIs(c, t, key, p + 1, i, r); }
  }

  lemma {:induction false} HomeStops(c: Config, t: seq<Entry>, key: nat, p: nat)
    requires Sound(c) && |t| == c.entries && p <= PROBES
    ensures var h := Home(c, t, key, p);
            && (h < PROBES ==> t[Slot(c, key, h)].key == key || t[Slot(c, key, h)].key == 0)
            && (forall q: nat :: p <= q < h ==> Used(c, t, key, q) || key == 0)
    decreases PROBES - p
  {
    if p < PROBES && t[Slot(c, key, p)].key != key && t[Slot(c, key, p)].key != 0 {
      HomeStops(c, t, key, p + 1);
      assert Used(c, t, key, p);
    }
  }

  lemma {:induction false} IdleStops(c: Config, t: seq<Entry>, key: nat, now: nat, p: nat)
    requires Sound(c) && |t| == c.entries && p <= PROBES
    ensures var q := Idle(c, t, key, now, p); q < PROBES ==> t[Slot(c, key, q)].tat <= now
    decreases PROBES - p
  {
    if p < PROBES && t[Slot(c, key, p)].tat > now { IdleStops(c, t, key, now, p + 1); }
  }

  /** What the entry found means: it is the client's own, or the client has none and
      the entry is empty or idle. */
  lemma FoundIs(c: Config, t: seq<Entry>, key: nat, now: nat) returns (p: nat)
    requires TableOk(c, t) && key != 0 && Find(c, t, key, now).Some?
    ensures var i := Find(c, t, key, now).value;
            && i < |t| && p < PROBES && Slot(c, key, p) == i
            && (forall q: nat :: q < p ==> Used(c, t, key, q))
            && (t[i].key != key ==>
                  (t[i].key == 0 || t[i].tat <= now) && forall j: nat :: j < |t| ==> t[j].key != key)
  {
    HomeStops(c, t, key, 0);
    p := Home(c, t, key, 0);
    if p == PROBES {
      IdleStops(c, t, key, now, 0);
      p := Idle(c, t, key, now, 0);
    }
    var i := Slot(c, key, p);
    if t[i].key != key {
      forall j: nat | j < |t| ensures t[j].key != key {
        if t[j].key == key {
          assert EntryOk(c, t, j);
          var r :| Reachable(c, t, j, r);
          HomeIs(c, t, key, 0, j, r);
        }
      }
    }
  }

  lemma CheckKeeps(c: Config, t: seq<Entry>, key: nat, now: nat)
    requires TableOk(c, t) && key != 0
    ensures TableOk(c, Check(c, t, key, now).table)
  {
    var at := Find(c, t, key, now);
    if at.Some? {
      var p := FoundIs(c, t, key, now);
      var i, u := at.value, Check(c, t, key, now).table;
      forall j: nat | j < |u| ensures EntryOk(c, u, j) {
        assert EntryOk(c, t, j);
        if j == i {
          StaysReachable(c, t, u, i, key, p);
        } else if u[j].key != 0 {
          var r :| Reachable(c, t, j, r);
          StaysReachable(c, t, u, j, t[j].key, r);
        }
      }
      forall j: nat, k: nat | j < |u| && k < |u| ensures Alone(u, j, k) {
        assert Alone(t, j, k) && Alone(t, i, k) && Alone(t, i, j);
      }
    }
  }

  /** Nothing is ever emptied, so what is before an entry stays in use. */
  lemma StaysReachable(c: Config, t: seq<Entry>, u: seq<Entry>, j: nat, key: nat, p: nat)
    requires Sound(c) && |t| == |u| == c.entries && j < |u| && u[j].key == key
    requires p < PROBES && Slot(c, key, p) == j && forall q: nat :: q < p ==> Used(c, t, key, q)
    requires forall i :: 0 <= i < |t| && t[i].key != 0 ==> u[i].key != 0
    ensures Reachable(c, u, j, p)
  {
    forall q: nat | q < p ensures Used(c, u, key, q) { assert Used(c, t, key, q); }
  }

  // ---- The map it stands for --------------------------------------------------------

  function TatIn(m: map<nat, nat>, key: nat): nat { if key in m then m[key] else 0 }

  /** Two arrival times that mean the same from `now` on. */
  predicate Same(a: nat, b: nat, now: nat) { Max(a, now) == Max(b, now) }

  ghost predicate Holds(t: seq<Entry>, key: nat) { exists j :: 0 <= j < |t| && t[j].key == key }

  ghost predicate Mirrors(t: seq<Entry>, m: map<nat, nat>, now: nat) {
    && (forall i :: 0 <= i < |t| && t[i].key != 0 ==> Same(t[i].tat, TatIn(m, t[i].key), now))
    && (forall key: nat :: key != 0 && !Holds(t, key) ==> TatIn(m, key) <= now)
  }

  lemma MirrorsLater(t: seq<Entry>, m: map<nat, nat>, now: nat, later: nat)
    requires Mirrors(t, m, now) && now <= later
    ensures Mirrors(t, m, later)
  {
  }

  /** The unbounded map, charged when the table found an entry. */
  function Charged(c: Config, m: map<nat, nat>, key: nat, now: nat, found: bool): map<nat, nat> {
    if found then m[key := Gcra(c, TatIn(m, key), now).tat] else m
  }

  lemma SameVerdict(c: Config, a: nat, b: nat, now: nat)
    requires Same(a, b, now)
    ensures Gcra(c, a, now).wait == Gcra(c, b, now).wait
    ensures Same(Gcra(c, a, now).tat, Gcra(c, b, now).tat, now)
  {
  }

  /** A client that finds no entry has none. */
  lemma NotFound(c: Config, t: seq<Entry>, key: nat, now: nat)
    requires TableOk(c, t) && key != 0 && Find(c, t, key, now).None?
    ensures !Holds(t, key)
  {
    if Holds(t, key) {
      var j: nat :| j < |t| && t[j].key == key;
      assert EntryOk(c, t, j);
      var p :| Reachable(c, t, j, p);
      HomeIs(c, t, key, 0, j, p);
    }
  }

  /** Every check decides as the map does, whether it finds an entry or not: one that
      finds none is of a client at a full burst. Only the charge differs. */
  lemma CheckDecides(c: Config, t: seq<Entry>, m: map<nat, nat>, key: nat, now: nat)
    requires TableOk(c, t) && key != 0 && Mirrors(t, m, now)
    ensures var r := Check(c, t, key, now);
            && r.wait == Gcra(c, TatIn(m, key), now).wait
            && Mirrors(r.table, Charged(c, m, key, now, r.found), now)
  {
    var at := Find(c, t, key, now);
    if at.None? {
      NotFound(c, t, key, now);
    } else {
      var p := FoundIs(c, t, key, now);
      var i, u := at.value, Check(c, t, key, now).table;
      assert EntryOk(c, t, i);
      if t[i].key != key { assert !Holds(t, key); }
      forall j | 0 <= j < |t| && j != i ensures t[j].key != key { assert Alone(t, i, j); }
      SameVerdict(c, t[i].tat, TatIn(m, key), now);
      MirrorsAfter(t, u, m, Charged(c, m, key, now, true), key, i, now);
    }
  }

  lemma MirrorsAfter(t: seq<Entry>, u: seq<Entry>, m: map<nat, nat>, n: map<nat, nat>, key: nat, i: nat, now: nat)
    requires Mirrors(t, m, now) && i < |t| == |u| && u == t[i := u[i]] && u[i].key == key
    requires n == m[key := TatIn(n, key)] && Same(u[i].tat, TatIn(n, key), now)
    requires t[i].key == key || t[i].key == 0 || t[i].tat <= now
    requires forall j :: 0 <= j < |t| && j != i ==> t[j].key != key
    ensures Mirrors(u, n, now)
  {
    forall k: nat | k != 0 && !Holds(u, k) ensures TatIn(n, k) <= now {
      if Holds(t, k) {
        var j :| 0 <= j < |t| && t[j].key == k;
        assert u[j].key != k;
      }
    }
  }

  // ---- Over every run ----------------------------------------------------------------

  /** One check as it came out. */
  datatype Event = Event(key: nat, now: nat, found: bool, wait: nat)

  /** `ideal` and `log` are history: the unbounded map beside the table, and every check. */
  datatype State = State(table: seq<Entry>, ideal: map<nat, nat>, clock: nat, log: seq<Event>)

  function Init(c: Config): State { State(seq(c.entries, _ => Entry(0, 0)), map[], 0, []) }

  datatype Arrival = Arrival(key: nat, now: nat)

  /** Times do not go back, and a key is never 0. */
  function Step(c: Config, s: State, a: Arrival): State
    requires Sound(c) && |s.table| == c.entries
  {
    if a.key == 0 || a.now < s.clock then s
    else
      var r := Check(c, s.table, a.key, a.now);
      State(r.table, Charged(c, s.ideal, a.key, a.now, r.found), a.now, s.log + [Event(a.key, a.now, r.found, r.wait)])
  }

  function Reach(c: Config, run: seq<Arrival>): (s: State)
    requires Sound(c)
    ensures |s.table| == c.entries
    decreases |run|
  {
    if run == [] then Init(c) else Step(c, Reach(c, run[..|run| - 1]), run[|run| - 1])
  }

  /** Admissions charged to a client from `from` to `to`. */
  function Admitted(log: seq<Event>, key: nat, from: nat, to: nat): nat {
    if log == [] then 0
    else
      var e := log[|log| - 1];
      Admitted(log[..|log| - 1], key, from, to)
      + (if e.key == key && e.found && e.wait == 0 && from <= e.now <= to then 1 else 0)
  }

  /** No check is later than `clock`. */
  predicate Past(log: seq<Event>, clock: nat) {
    log == [] || (log[|log| - 1].now <= clock && Past(log[..|log| - 1], clock))
  }

  lemma {:induction false} PastLater(log: seq<Event>, clock: nat, later: nat)
    requires Past(log, clock) && clock <= later
    ensures Past(log, later)
  {
    if log != [] { PastLater(log[..|log| - 1], clock, later); }
  }

  lemma {:induction false} AllPast(log: seq<Event>, key: nat, from: nat, to: nat, clock: nat)
    requires Past(log, clock) && clock <= to
    ensures Admitted(log, key, from, to) == Admitted(log, key, from, clock)
  {
    if log != [] { AllPast(log[..|log| - 1], key, from, to, clock); }
  }

  lemma AdmittedMore(log: seq<Event>, e: Event, key: nat, from: nat, to: nat)
    ensures Admitted(log + [e], key, from, to)
            == Admitted(log, key, from, to)
               + (if e.key == key && e.found && e.wait == 0 && from <= e.now <= to then 1 else 0)
  {
    assert (log + [e])[..|log|] == log;
  }

  /** Each admission since `from` has pushed the client's arrival time on by one emission. */
  ghost predicate Pushed(c: Config, s: State, key: nat, from: nat) {
    var n := Admitted(s.log, key, from, s.clock);
    n > 0 ==> from + n * c.emission <= TatIn(s.ideal, key)
  }

  /** So no window holds more than its length, the tolerance and one more allow. */
  ghost predicate Limited(c: Config, s: State, key: nat, from: nat, to: nat) {
    var n := Admitted(s.log, key, from, to);
    n > 0 ==> (n - 1) * c.emission <= to - from + c.tolerance
  }

  ghost predicate Inv(c: Config, s: State) {
    TableOk(c, s.table) && Mirrors(s.table, s.ideal, s.clock) && Past(s.log, s.clock)
  }

  lemma StepInv(c: Config, s: State, a: Arrival)
    requires Inv(c, s)
    ensures Inv(c, Step(c, s, a))
  {
    if a.key != 0 && s.clock <= a.now {
      CheckKeeps(c, s.table, a.key, a.now);
      MirrorsLater(s.table, s.ideal, s.clock, a.now);
      CheckDecides(c, s.table, s.ideal, a.key, a.now);
      PastLater(s.log, s.clock, a.now);
      var t := Step(c, s, a);
      assert t.log[..|t.log| - 1] == s.log;
    }
  }

  lemma {:induction false} ReachInv(c: Config, run: seq<Arrival>)
    requires Sound(c)
    ensures Inv(c, Reach(c, run))
    decreases |run|
  {
    if run == [] {
      InitInv(c);
    } else {
      ReachInv(c, run[..|run| - 1]);
      StepInv(c, Reach(c, run[..|run| - 1]), run[|run| - 1]);
    }
  }

  lemma InitInv(c: Config)
    requires Sound(c)
    ensures Inv(c, Init(c))
  {
    var t := Init(c).table;
    assert forall i: nat :: i < |t| ==> EntryOk(c, t, i);
    assert forall i: nat, j: nat :: i < |t| && j < |t| ==> Alone(t, i, j);
  }

  /** In every reachable state a client has at most one entry, and the next check
      decides as the unbounded map would. */
  lemma TableRefinesMap(c: Config, run: seq<Arrival>, key: nat, now: nat)
    requires Sound(c) && key != 0 && Reach(c, run).clock <= now
    ensures var s := Reach(c, run);
            && (forall i: nat, j: nat :: i < |s.table| && j < |s.table| ==> Alone(s.table, i, j))
            && Check(c, s.table, key, now).wait == Gcra(c, TatIn(s.ideal, key), now).wait
  {
    ReachInv(c, run);
    var s := Reach(c, run);
    MirrorsLater(s.table, s.ideal, s.clock, now);
    CheckDecides(c, s.table, s.ideal, key, now);
  }

  lemma MulSucc(n: nat, e: nat)
    ensures (n + 1) * e == n * e + e && n * e >= 0
  {
  }

  /** What a check decides in a run, and what it leaves in the log. */
  lemma StepDecides(c: Config, s: State, a: Arrival) returns (e: Event)
    requires Inv(c, s) && a.key != 0 && s.clock <= a.now
    ensures e.key == a.key && e.now == a.now && e.wait == Gcra(c, TatIn(s.ideal, a.key), a.now).wait
    ensures e.wait == Check(c, s.table, a.key, a.now).wait
    ensures Step(c, s, a).log == s.log + [e] && Step(c, s, a).clock == a.now
    ensures Step(c, s, a).ideal == Charged(c, s.ideal, a.key, a.now, e.found)
  {
    MirrorsLater(s.table, s.ideal, s.clock, a.now);
    CheckDecides(c, s.table, s.ideal, a.key, a.now);
    var r := Check(c, s.table, a.key, a.now);
    e := Event(a.key, a.now, r.found, r.wait);
  }

  lemma OneMorePush(n: nat, emission: nat, from: nat, tat: nat, now: nat)
    requires n > 0 ==> from + n * emission <= tat
    ensures from <= now ==> from + (n + 1) * emission <= Max(tat, now) + emission
  {
    MulSucc(n, emission);
  }

  /** An admission pushes the arrival time on, and is only given when it is near. */
  lemma StepPushes(c: Config, s: State, a: Arrival, key: nat, from: nat)
    requires Inv(c, s) && Pushed(c, s, key, from)
    ensures Pushed(c, Step(c, s, a), key, from)
  {
    if a.key != 0 && s.clock <= a.now {
      var e := StepDecides(c, s, a);
      AdmittedMore(s.log, e, key, from, a.now);
      AllPast(s.log, key, from, a.now, s.clock);
      OneMorePush(Admitted(s.log, key, from, s.clock), c.emission, from, TatIn(s.ideal, key), a.now);
    }
  }

  lemma OneMoreFits(n: nat, emission: nat, tolerance: nat, from: nat, to: nat, tat: nat, now: nat)
    requires n > 0 ==> from + n * emission <= tat
    requires from <= now <= to && tat <= now + tolerance
    ensures (n + 1 - 1) * emission <= to - from + tolerance
  {
    if n == 0 { assert n * emission == 0; }
  }

  lemma StepLimits(c: Config, s: State, a: Arrival, key: nat, from: nat, to: nat)
    requires Inv(c, s) && Pushed(c, s, key, from) && Limited(c, s, key, from, to) && from <= to
    ensures Limited(c, Step(c, s, a), key, from, to)
  {
    if a.key != 0 && s.clock <= a.now {
      var e := StepDecides(c, s, a);
      AdmittedMore(s.log, e, key, from, to);
      if e.key == key && e.found && e.wait == 0 && from <= e.now <= to {
        AllPast(s.log, key, from, to, s.clock);
        OneMoreFits(Admitted(s.log, key, from, to), c.emission, c.tolerance, from, to, TatIn(s.ideal, key), a.now);
      }
    }
  }

  lemma {:induction false} ReachLimits(c: Config, run: seq<Arrival>, key: nat, from: nat, to: nat)
    requires Sound(c) && from <= to
    ensures Pushed(c, Reach(c, run), key, from) && Limited(c, Reach(c, run), key, from, to)
    decreases |run|
  {
    if run != [] {
      var s, a := Reach(c, run[..|run| - 1]), run[|run| - 1];
      ReachInv(c, run[..|run| - 1]);
      ReachLimits(c, run[..|run| - 1], key, from, to);
      StepPushes(c, s, a, key, from);
      StepLimits(c, s, a, key, from, to);
    }
  }

  /** All checks of a client from `from` to `to` found an entry. */
  predicate AlwaysFound(log: seq<Event>, key: nat, from: nat, to: nat) {
    log == [] || (var e := log[|log| - 1];
                  (e.key == key && from <= e.now <= to ==> e.found) && AlwaysFound(log[..|log| - 1], key, from, to))
  }

  /** All admissions of a client from `from` to `to`, charged or not. */
  function Passed(log: seq<Event>, key: nat, from: nat, to: nat): nat {
    if log == [] then 0
    else
      var e := log[|log| - 1];
      Passed(log[..|log| - 1], key, from, to) + (if e.key == key && e.wait == 0 && from <= e.now <= to then 1 else 0)
  }

  lemma {:induction false} PassedIsAdmitted(log: seq<Event>, key: nat, from: nat, to: nat)
    requires AlwaysFound(log, key, from, to)
    ensures Passed(log, key, from, to) == Admitted(log, key, from, to)
  {
    if log != [] { PassedIsAdmitted(log[..|log| - 1], key, from, to); }
  }

  /** In any window a client whose checks all found an entry is admitted at most
      1 + (length + tolerance) / emission times. */
  lemma WindowBound(c: Config, run: seq<Arrival>, key: nat, from: nat, to: nat)
    requires Sound(c) && from <= to && AlwaysFound(Reach(c, run).log, key, from, to)
    ensures Passed(Reach(c, run).log, key, from, to) <= 1 + (to - from + c.tolerance) / c.emission
  {
    var log := Reach(c, run).log;
    PassedIsAdmitted(log, key, from, to);
    ReachLimits(c, run, key, from, to);
    var n := Admitted(log, key, from, to);
    if n > 0 { QuotientBound(n - 1, c.emission, to - from + c.tolerance); } else { DivNat(to - from + c.tolerance,
        c.emission); }
  }

  lemma DivNat(a: nat, b: nat)
    requires b > 0
    ensures a / b >= 0
  {
  }

  lemma QuotientBound(k: nat, e: nat, total: nat)
    requires e > 0 && k * e <= total
    ensures k <= total / e
  {
    var q, r := total / e, total % e;
    assert total == e * q + r;
    assert e * (q + 1) == e * q + e;
    if k > q { MulMonotone(e, q + 1, k); }
  }

  // ---- Trying again ---------------------------------------------------------------------

  lemma GcraWait(c: Config, tat: nat, now: nat, later: nat)
    requires Gcra(c, tat, now).wait > 0 && now <= later
    ensures Gcra(c, tat, now).tat == tat
    ensures Gcra(c, tat, later).wait == 0 <==> now + Gcra(c, tat, now).wait <= later
  {
  }

  /** Further checks, from a state on. */
  function Run(c: Config, s: State, more: seq<Arrival>): (t: State)
    requires Sound(c) && |s.table| == c.entries
    ensures |t.table| == c.entries
    decreases |more|
  {
    if more == [] then s else Run(c, Step(c, s, more[0]), more[1..])
  }

  lemma {:induction false} RunIsReach(c: Config, run: seq<Arrival>, more: seq<Arrival>)
    requires Sound(c)
    ensures Run(c, Reach(c, run), more) == Reach(c, run + more)
    decreases |more|
  {
    if more == [] {
      assert run + more == run;
    } else {
      var next := run + [more[0]];
      assert next[..|next| - 1] == run;
      RunIsReach(c, next, more[1..]);
      assert next + more[1..] == run + more;
    }
  }

  predicate NoneOf(more: seq<Arrival>, key: nat) { more == [] || (more[0].key != key && NoneOf(more[1..], key)) }

  /** Other clients' checks leave a client's arrival time alone. */
  lemma {:induction false} RunOfOthers(c: Config, s: State, more: seq<Arrival>, key: nat)
    requires Inv(c, s) && NoneOf(more, key)
    ensures Inv(c, Run(c, s, more)) && TatIn(Run(c, s, more).ideal, key) == TatIn(s.ideal, key)
    decreases |more|
  {
    if more != [] {
      StepInv(c, s, more[0]);
      RunOfOthers(c, Step(c, s, more[0]), more[1..], key);
    }
  }

  lemma RetryFrom(c: Config, s: State, key: nat, now: nat, others: seq<Arrival>, later: nat)
    requires Inv(c, s) && key != 0 && s.clock <= now && NoneOf(others, key)
    requires Check(c, s.table, key, now).wait > 0
    requires now <= later && Run(c, Step(c, s, Arrival(key, now)), others).clock <= later
    ensures Check(c, Run(c, Step(c, s, Arrival(key, now)), others).table, key, later).wait == 0
            <==> now + Check(c, s.table, key, now).wait <= later
  {
    var refused := Step(c, s, Arrival(key, now));
    var t := Run(c, refused, others);
    MirrorsLater(s.table, s.ideal, s.clock, now);
    CheckDecides(c, s.table, s.ideal, key, now);
    GcraWait(c, TatIn(s.ideal, key), now, later);
    StepInv(c, s, Arrival(key, now));
    RunOfOthers(c, refused, others, key);
    MirrorsLater(t.table, t.ideal, t.clock, later);
    CheckDecides(c, t.table, t.ideal, key, later);
  }

  /** A refusal's wait is the least after which a retry is admitted, whatever checks of
      other clients come in between: in every reachable state, with the search of the
      table that both checks make. */
  lemma WaitIsLeast(c: Config, run: seq<Arrival>, key: nat, now: nat, others: seq<Arrival>, later: nat)
    requires Sound(c) && key != 0 && Reach(c, run).clock <= now <= later && NoneOf(others, key)
    requires Check(c, Reach(c, run).table, key, now).wait > 0
    requires Reach(c, run + [Arrival(key, now)] + others).clock <= later
    ensures Check(c, Reach(c, run + [Arrival(key, now)] + others).table, key, later).wait == 0
            <==> now + Check(c, Reach(c, run).table, key, now).wait <= later
  {
    ReachInv(c, run);
    var next := run + [Arrival(key, now)];
    assert next[..|next| - 1] == run;
    RunIsReach(c, next, others);
    RetryFrom(c, Reach(c, run), key, now, others, later);
  }

  /** The arrival times a table holds, as a map. */
  function TimesOf(t: seq<Entry>): map<nat, nat> {
    if t == [] then map[] else TimesOf(t[..|t| - 1])[t[|t| - 1].key := t[|t| - 1].tat]
  }

  predicate Last(t: seq<Entry>, i: nat)
    requires i < |t|
  {
    forall j :: i < j < |t| ==> t[j].key != t[i].key
  }

  lemma {:induction false} TimeIs(t: seq<Entry>, i: nat)
    requires i < |t| && Last(t, i)
    ensures TatIn(TimesOf(t), t[i].key) == t[i].tat
  {
    if i < |t| - 1 {
      assert t[|t| - 1].key != t[i].key;
      TimeIs(t[..|t| - 1], i);
    }
  }

  lemma {:induction false} NoTime(t: seq<Entry>, key: nat)
    requires forall j :: 0 <= j < |t| ==> t[j].key != key
    ensures key !in TimesOf(t)
  {
    if t != [] { NoTime(t[..|t| - 1], key); }
  }

  lemma TimesMirror(c: Config, t: seq<Entry>, now: nat)
    requires TableOk(c, t)
    ensures Mirrors(t, TimesOf(t), now)
  {
    forall i: nat | i < |t| && t[i].key != 0 ensures TatIn(TimesOf(t), t[i].key) == t[i].tat {
      forall j: nat | i < j < |t| ensures t[j].key != t[i].key { assert Alone(t, i, j); }
      TimeIs(t, i);
    }
    forall key: nat | key != 0 && !Holds(t, key) ensures TatIn(TimesOf(t), key) <= now { NoTime(t, key); }
  }

  /** The same of any sound table, with nothing in between. */
  lemma RetryIsAdmitted(c: Config, t: seq<Entry>, key: nat, now: nat, later: nat)
    requires TableOk(c, t) && key != 0 && Check(c, t, key, now).wait > 0 && now <= later
    ensures Check(c, Check(c, t, key, now).table, key, later).wait == 0 <==> now + Check(c, t, key, now).wait <= later
  {
    TimesMirror(c, t, now);
    RetryFrom(c, State(t, TimesOf(t), now, []), key, now, [], later);
  }

  // ---- The table as the loops walk it --------------------------------------------------

  class Limiter {
    const config: Config
    const table: array<Entry>

    ghost predicate Valid() reads this, table { TableOk(config, table[..]) }

    constructor (c: Config)
      requires Sound(c)
      ensures Valid() && config == c && fresh(table) && table[..] == Init(c).table
    {
      config := c;
      table := new Entry[c.entries](_ => Entry(0, 0));
      new;
      assert table[..] == Init(c).table;
      InitInv(c);
    }

    method FindEntry(key: nat, now: nat) returns (at: Option<nat>)
      requires Valid() && key != 0
      ensures at == Find(config, table[..], key, now) && (at.Some? ==> at.value < table.Length)
    {
      ghost var t := table[..];
      var p := 0;
      while p < PROBES
        invariant 0 <= p <= PROBES && Home(config, t, key, 0) == Home(config, t, key, p)
      {
        var i := Slot(config, key, p);
        if table[i].key == key { return Some(i); }
        if table[i].key == 0 { return Some(i); }
        p := p + 1;
      }
      p := 0;
      while p < PROBES
        invariant 0 <= p <= PROBES && Idle(config, t, key, now, 0) == Idle(config, t, key, now, p)
      {
        var i := Slot(config, key, p);
        if table[i].tat <= now { return Some(i); }
        p := p + 1;
      }
      return None;
    }

    /** How long to wait; 0 admits. */
    method CheckNow(key: nat, now: nat) returns (wait: nat)
      requires Valid() && key != 0
      modifies table
      ensures Valid() && table[..] == Check(config, old(table[..]), key, now).table
      ensures wait == Check(config, old(table[..]), key, now).wait
    {
      CheckKeeps(config, table[..], key, now);
      var at := FindEntry(key, now);
      if at.None? { return 0; }
      wait := Decide(at.value, key, now);
    }

    method Decide(i: nat, key: nat, now: nat) returns (wait: nat)
      requires i < table.Length
      modifies table
      ensures var v := Gcra(config, old(table[i].tat), now);
              table[..] == old(table[..])[i := Entry(key, v.tat)] && wait == v.wait
    {
      var tat := table[i].tat;
      table[i] := Entry(key, tat);
      var base: nat := if tat > now then tat else now;
      if base - now > config.tolerance { return base - now - config.tolerance; }
      table[i] := Entry(key, base + config.emission);
      return 0;
    }
  }
}
