/** A lookup that returns an older copy than one published before it began.

    A put retires the older copies it finds, and a copy another put is still writing
    is not found. So a lookup may pass the slots of the small class while they are
    empty; a newest copy is then published there and takes an older one away; and
    what is left for the lookup is a copy older still, published last. */
module CacheStale {
  import opened Arith
  import opened Wrappers
  import opened Cache
  import opened CacheRun
  import opened Paths

  // ---- The table and the puts ----------------------------------------------------

  /** Two classes of four slots: room for a key alone, and for a key and one byte. */
  const SMALL := Config([Class(0, 4, 1), Class(4, 4, 2)], [1, 1, 1, 1, 2, 2, 2, 2], 1, 0, 1, 1, _ => 4, _ => 0)

  const KEY: seq<nat> := [9]
  const OLD := Put(KEY, 3, 0, 0, 10, 200, [], [1])
  const NEW := Put(KEY, 5, 0, 0, 10, 200, [], [2])
  const LAST := Put(KEY, 7, 0, 0, 10, 200, [], [])
  const QUERY := Query(KEY, 1, 1)

  const OLD_WRITER := Thread(1, 1)
  const NEW_WRITER := Thread(2, 1)
  const LAST_WRITER := Thread(3, 1)
  const READER := Thread(4, 1)

  // ---- The run -------------------------------------------------------------------

  /** The old copy is written and not yet published. */
  const BEGIN_OLD := [StartPut(OLD_WRITER, OLD)] + Writes(OLD_WRITER, 0, 17)

  /** The new one is published in the slot after it. */
  const PUBLISH_NEW := [StartPut(NEW_WRITER, NEW)] + Writes(NEW_WRITER, 1, 18)

  /** The lookup begins, and passes the small class while it is empty. */
  const BEGIN_LOOKUP := [StartGet(READER, QUERY)] + Looks(READER, 8)

  /** The last copy is published there, and takes the new one away. */
  const PUBLISH_LAST := [StartPut(LAST_WRITER, LAST)] + Writes(LAST_WRITER, 0, 32)

  /** The old copy is published. */
  const PUBLISH_OLD := Writes(OLD_WRITER, 0, 1)

  /** The lookup goes on to its end. */
  const END_LOOKUP := Looks(READER, 23)

  const RUN := BEGIN_OLD + PUBLISH_NEW + BEGIN_LOOKUP + PUBLISH_LAST + PUBLISH_OLD + END_LOOKUP

  // ---- Its states ----------------------------------------------------------------

  lemma SmallProbes()
    ensures Sane(SMALL)
    ensures ProbesFrom(SMALL, KEY, 0) == [Probe(0, 1), Probe(1, 1), Probe(2, 1), Probe(3, 1),
                                          Probe(4, 2), Probe(5, 2), Probe(6, 2), Probe(7, 2)]
  {
    assert ProbesFrom(SMALL, KEY, 2) == [];
    assert Wrap(4, 4) == Wrap(0, 4) && Wrap(5, 4) == Wrap(1, 4) && Wrap(6, 4) == Wrap(2, 4) && Wrap(7, 4) == Wrap(3, 4);
    assert ProbesFrom(SMALL, KEY, 1) == [Probe(4, 2), Probe(5, 2), Probe(6, 2), Probe(7, 2)];
  }

  const EMPTY_1 := Slot(Stable(0), Zeros(12), None)
  const EMPTY_2 := Slot(Stable(0), Zeros(13), None)

  /** Three slots that matter, and the rest never used. */
  function Table(a: Slot, b: Slot, d: Slot, log: seq<Put>): Shared {
    Shared([a, EMPTY_1, EMPTY_1, EMPTY_1, b, d, EMPTY_2, EMPTY_2], [0], log)
  }

  function Held(p: Put, pid: nat): Slot { Slot(Claimed(0, pid), Image(SMALL, p), None) }
  function Filled(p: Put): Slot { Slot(Stable(1), Image(SMALL, p), Some(p)) }

  lemma TableShape(a: Slot, b: Slot, d: Slot, log: seq<Put>)
    requires |a.cells| == 12 && |b.cells| == |d.cells| == 13
    ensures Shape(SMALL, Table(a, b, d, log))
  {
    SmallProbes();
  }

  lemma Sizes()
    ensures |Image(SMALL, OLD)| == |Image(SMALL, NEW)| == 13 && |Image(SMALL, LAST)| == 12
    ensures FirstFit(SMALL, 2, 0) == 1 && FirstFit(SMALL, 1, 0) == 0
  {
  }

  // ---- What each part does -------------------------------------------------------

  lemma OldBegins(h: Shared)
    requires h == Table(EMPTY_1, EMPTY_2, EMPTY_2, [])
    ensures Leads(Worker(SMALL, {}, 1, 0), Next(h, CheckMark(OLD, 1)),
                  Next(Table(EMPTY_1, Held(OLD, 1), EMPTY_2, []), Publishing(OLD, Probe(4, 2), 0, [])), 17)
  {
    Sizes();
    TableShape(EMPTY_1, EMPTY_2, EMPTY_2, []);
    SmallProbes();
    PutRun(SMALL, h, {}, 1, 0, OLD, 1, Probe(4, 2), 13);
    assert h.slots[4 := Held(OLD, 1)] == Table(EMPTY_1, Held(OLD, 1), EMPTY_2, []).slots;
  }

  lemma NewPublished(h: Shared)
    requires h == Table(EMPTY_1, Held(OLD, 1), EMPTY_2, [])
    ensures Leads(Worker(SMALL, {}, 2, 1), Next(h, CheckMark(NEW, 1)),
                  Next(Table(EMPTY_1, Held(OLD, 1), Filled(NEW), [NEW]), RetireLoad(5, [Task(KEY, 5)], 0)), 18)
  {
    Sizes();
    TableShape(EMPTY_1, Held(OLD, 1), EMPTY_2, []);
    SmallProbes();
    PutPublishes(SMALL, h, {}, 2, 1, NEW, 1, Probe(5, 2), 13);
    assert [] + [NEW] == [NEW];
    assert h.slots[5 := Filled(NEW)] == Table(EMPTY_1, Held(OLD, 1), Filled(NEW), [NEW]).slots;
  }

  lemma LookupBegins(h: Shared)
    requires h == Table(EMPTY_1, Held(OLD, 1), Filled(NEW), [NEW])
    ensures Leads(Looker(SMALL, h), Scan(QUERY, 1, 0, None), Scan(QUERY, 1, 4, None), 8)
  {
    Sizes();
    TableShape(EMPTY_1, Held(OLD, 1), Filled(NEW), [NEW]);
    SmallProbes();
    BlanksPassed(SMALL, h, QUERY, 1, 0, 4, None);
  }

  lemma LastPublished(h: Shared)
    requires h == Table(EMPTY_1, Held(OLD, 1), Filled(NEW), [NEW])
    ensures Leads(Worker(SMALL, {}, 3, 0), Next(h, CheckMark(LAST, 0)),
                  Next(Table(Filled(LAST), Held(OLD, 1), Filled(NEW), [NEW, LAST]),
                       RetireLoad(0, [Task(KEY, 7)], 0)), 17)
  {
    Sizes();
    TableShape(EMPTY_1, Held(OLD, 1), Filled(NEW), [NEW]);
    SmallProbes();
    PutPublishes(SMALL, h, {}, 3, 0, LAST, 0, Probe(0, 1), 12);
    assert h.slots[0 := Filled(LAST)] == Table(Filled(LAST), Held(OLD, 1), Filled(NEW), [NEW, LAST]).slots;
    assert [NEW] + [LAST] == [NEW, LAST];
  }

  /** From its own slot past the empty ones and the old copy still being written. */
  lemma LastPasses(h: Shared, tasks: seq<Task>)
    requires h == Table(Filled(LAST), Held(OLD, 1), Filled(NEW), [NEW, LAST]) && tasks == [Task(KEY, 7)]
    ensures Leads(Worker(SMALL, {}, 3, 0), Next(h, RetireLoad(0, tasks, 0)), Next(h, RetireLoad(0, tasks, 5)), 8)
  {
    Sizes();
    TableShape(Filled(LAST), Held(OLD, 1), Filled(NEW), [NEW, LAST]);
    SmallProbes();
    RetireSkips(SMALL, h, {}, 3, 0, 0, tasks, 0);
    RetirePasses(SMALL, h, {}, 3, 0, 0, tasks, 1);
    RetirePasses(SMALL, h, {}, 3, 0, 0, tasks, 2);
    RetirePasses(SMALL, h, {}, 3, 0, 0, tasks, 3);
    RetireSkips(SMALL, h, {}, 3, 0, 0, tasks, 4);
    var step, x := Worker(SMALL, {}, 3, 0), Next(h, RetireLoad(0, tasks, 0));
    LeadsThen(step, x, Next(h, RetireLoad(0, tasks, 1)), Next(h, RetireLoad(0, tasks, 2)), 1, 2);
    LeadsThen(step, x, Next(h, RetireLoad(0, tasks, 2)), Next(h, RetireLoad(0, tasks, 3)), 3, 2);
    LeadsThen(step, x, Next(h, RetireLoad(0, tasks, 3)), Next(h, RetireLoad(0, tasks, 4)), 5, 2);
    LeadsThen(step, x, Next(h, RetireLoad(0, tasks, 4)), Next(h, RetireLoad(0, tasks, 5)), 7, 1);
  }

  const TAKEN := Slot(Claimed(1, 3), Image(SMALL, NEW), None)

  lemma LastRetires(h: Shared, tasks: seq<Task>)
    requires h == Table(Filled(LAST), Held(OLD, 1), Filled(NEW), [NEW, LAST]) && tasks == [Task(KEY, 7)]
    ensures Leads(Worker(SMALL, {}, 3, 0), Next(h, RetireLoad(0, tasks, 5)),
                  Next(Table(Filled(LAST), Held(OLD, 1), TAKEN, [NEW, LAST]), RetireGeneration(0, tasks, 5, 1)), 7)
  {
    Sizes();
    TableShape(Filled(LAST), Held(OLD, 1), Filled(NEW), [NEW, LAST]);
    SmallProbes();
    RetireClaims(SMALL, h, {}, 3, 0, 0, tasks, 5, NEW, 5, Stable(1));
    assert h.slots[5 := TAKEN] == Table(Filled(LAST), Held(OLD, 1), TAKEN, [NEW, LAST]).slots;
  }

  lemma LastTakes(h: Shared)
    requires h == Table(EMPTY_1, Held(OLD, 1), Filled(NEW), [NEW])
    ensures Leads(Worker(SMALL, {}, 3, 0), Next(h, CheckMark(LAST, 0)),
                  Next(Table(Filled(LAST), Held(OLD, 1), TAKEN, [NEW, LAST]),
                       RetireGeneration(0, [Task(KEY, 7)], 5, 1)), 32)
  {
    var g, tasks := Table(Filled(LAST), Held(OLD, 1), Filled(NEW), [NEW, LAST]), [Task(KEY, 7)];
    var step, x := Worker(SMALL, {}, 3, 0), Next(h, CheckMark(LAST, 0));
    var z := Next(Table(Filled(LAST), Held(OLD, 1), TAKEN, [NEW, LAST]), RetireGeneration(0, tasks, 5, 1));
    LastPublished(h);
    LastPasses(g, tasks);
    LastRetires(g, tasks);
    LeadsThen(step, x, Next(g, RetireLoad(0, tasks, 0)), Next(g, RetireLoad(0, tasks, 5)), 17, 8);
    LeadsThen(step, x, Next(g, RetireLoad(0, tasks, 5)), z, 25, 7);
  }

  lemma OldPublished(h: Shared)
    requires h == Table(Filled(LAST), Held(OLD, 1), TAKEN, [NEW, LAST])
    ensures Leads(Worker(SMALL, {}, 1, 0), Next(h, Publishing(OLD, Probe(4, 2), 0, [])),
                  Next(Table(Filled(LAST), Filled(OLD), TAKEN, [NEW, LAST, OLD]), RetireLoad(4, [Task(KEY, 3)], 0)), 1)
  {
    Sizes();
    TableShape(Filled(LAST), Held(OLD, 1), TAKEN, [NEW, LAST]);
    SmallProbes();
    Publishes(SMALL, h, {}, 1, 0, OLD, Probe(4, 2));
    assert h.slots[4 := Filled(OLD)] == Table(Filled(LAST), Filled(OLD), TAKEN, [NEW, LAST, OLD]).slots;
    assert [NEW, LAST] + [OLD] == [NEW, LAST, OLD];
  }

  const BEST := Best(Probe(4, 2), Stable(1), 3)

  /** The lookup takes the old copy up and passes the one taken away. */
  lemma LookupTakes(h: Shared)
    requires h == Table(Filled(LAST), Filled(OLD), TAKEN, [NEW, LAST, OLD])
    ensures Leads(Looker(SMALL, h), Scan(QUERY, 1, 4, None), Scan(QUERY, 1, 6, Some(BEST)), 8)
  {
    Sizes();
    TableShape(Filled(LAST), Filled(OLD), TAKEN, [NEW, LAST, OLD]);
    SmallProbes();
    CopyTaken(SMALL, h, QUERY, OLD, 1, 4, None, Probe(4, 2), Stable(1));
    LeadsOnce(Looker(SMALL, h), Scan(QUERY, 1, 5, Some(BEST)), Scan(QUERY, 1, 6, Some(BEST)));
    LeadsThen(Looker(SMALL, h), Scan(QUERY, 1, 4, None), Scan(QUERY, 1, 5, Some(BEST)),
              Scan(QUERY, 1, 6, Some(BEST)), 7, 1);
  }

  /** Its search ends, with all three published. */
  lemma LookupSelects(h: Shared)
    requires h == Table(Filled(LAST), Filled(OLD), TAKEN, [NEW, LAST, OLD])
    ensures Leads(Looker(SMALL, h), Scan(QUERY, 1, 6, Some(BEST)), Fields(QUERY, Seen(1, 3), BEST, []), 5)
  {
    Sizes();
    TableShape(Filled(LAST), Filled(OLD), TAKEN, [NEW, LAST, OLD]);
    SmallProbes();
    BlanksPassed(SMALL, h, QUERY, 1, 6, 8, Some(BEST));
    LeadsOnce(Looker(SMALL, h), Scan(QUERY, 1, 8, Some(BEST)), Fields(QUERY, Seen(1, 3), BEST, []));
    LeadsThen(Looker(SMALL, h), Scan(QUERY, 1, 6, Some(BEST)), Scan(QUERY, 1, 8, Some(BEST)),
              Fields(QUERY, Seen(1, 3), BEST, []), 4, 1);
  }

  lemma LookupReads(h: Shared)
    requires h == Table(Filled(LAST), Filled(OLD), TAKEN, [NEW, LAST, OLD])
    ensures Leads(Looker(SMALL, h), Fields(QUERY, Seen(1, 3), BEST, []), HitOn(OLD, QUERY, Seen(1, 3)), 10)
  {
    Sizes();
    TableShape(Filled(LAST), Filled(OLD), TAKEN, [NEW, LAST, OLD]);
    SmallProbes();
    CopyRead(SMALL, h, QUERY, Seen(1, 3), BEST, OLD);
  }

  lemma LookupEnds(h: Shared)
    requires h == Table(Filled(LAST), Filled(OLD), TAKEN, [NEW, LAST, OLD])
    ensures Leads(Looker(SMALL, h), Scan(QUERY, 1, 4, None), HitOn(OLD, QUERY, Seen(1, 3)), 23)
  {
    var step, x, z := Looker(SMALL, h), Scan(QUERY, 1, 4, None), HitOn(OLD, QUERY, Seen(1, 3));
    LookupTakes(h);
    LookupSelects(h);
    LookupReads(h);
    LeadsThen(step, x, Scan(QUERY, 1, 6, Some(BEST)), Fields(QUERY, Seen(1, 3), BEST, []), 8, 5);
    LeadsThen(step, x, Fields(QUERY, Seen(1, 3), BEST, []), z, 13, 10);
  }

  // ---- The whole run -------------------------------------------------------------

  const NOTHING_CHANGED := Changed([], [])
  const OLD_STOPS := Publishing(OLD, Probe(4, 2), 0, [])
  const NEW_STOPS := RetireLoad(5, [Task(KEY, 5)], 0)
  const LAST_STOPS := RetireGeneration(0, [Task(KEY, 7)], 5, 1)

  function OldBegun(): State {
    State(Table(EMPTY_1, Held(OLD, 1), EMPTY_2, []), {}, map[OLD_WRITER := OLD_STOPS], map[], NOTHING_CHANGED)
  }

  function Begun(): State { State(Table(EMPTY_1, EMPTY_2, EMPTY_2, []), {}, map[], map[], NOTHING_CHANGED) }

  lemma InitIs()
    ensures Init(SMALL) == Begun()
  {
    assert Init(SMALL).h.slots == Begun().h.slots;
    assert Init(SMALL).h.marks == Begun().h.marks;
  }

  lemma ReachOldBegun()
    ensures Sane(SMALL) && Reach(SMALL, BEGIN_OLD) == OldBegun()
  {
    SmallProbes();
    Sizes();
    ReachIsSteps(SMALL, BEGIN_OLD);
    InitIs();
    OldBegins(Begun().h);
    StartedWorks(SMALL, Begun(), OLD_WRITER, OLD, 1, 0, 17, Next(OldBegun().h, OLD_STOPS));
  }

  function NewDone(): State {
    State(Table(EMPTY_1, Held(OLD, 1), Filled(NEW), [NEW]), {}, map[OLD_WRITER := OLD_STOPS, NEW_WRITER := NEW_STOPS],
          map[], NOTHING_CHANGED)
  }

  lemma ReachNewDone()
    ensures Sane(SMALL) && Reach(SMALL, BEGIN_OLD + PUBLISH_NEW) == NewDone()
  {
    Sizes();
    ReachOldBegun();
    ReachMore(SMALL, BEGIN_OLD, PUBLISH_NEW);
    NewPublished(OldBegun().h);
    StartedWorks(SMALL, OldBegun(), NEW_WRITER, NEW, 1, 1, 18, Next(NewDone().h, NEW_STOPS));
  }

  function LookupBegun(): State { NewDone().(lookups := map[READER := Scan(QUERY, 1, 4, None)]) }

  lemma ReachLookupBegun()
    ensures Sane(SMALL) && Reach(SMALL, BEGIN_OLD + PUBLISH_NEW + BEGIN_LOOKUP) == LookupBegun()
  {
    ReachNewDone();
    ReachMore(SMALL, BEGIN_OLD + PUBLISH_NEW, BEGIN_LOOKUP);
    LookupBegins(NewDone().h);
    StartedLooks(SMALL, NewDone(), READER, QUERY, Scan(QUERY, 1, 4, None), 8);
  }

  function LastDone(): State {
    State(Table(Filled(LAST), Held(OLD, 1), TAKEN, [NEW, LAST]), {},
          map[OLD_WRITER := OLD_STOPS, NEW_WRITER := NEW_STOPS, LAST_WRITER := LAST_STOPS], LookupBegun().lookups,
          NOTHING_CHANGED)
  }

  lemma ReachLastDone()
    ensures Sane(SMALL) && Reach(SMALL, BEGIN_OLD + PUBLISH_NEW + BEGIN_LOOKUP + PUBLISH_LAST) == LastDone()
  {
    Sizes();
    ReachLookupBegun();
    ReachMore(SMALL, BEGIN_OLD + PUBLISH_NEW + BEGIN_LOOKUP, PUBLISH_LAST);
    LastTakes(LookupBegun().h);
    StartedWorks(SMALL, LookupBegun(), LAST_WRITER, LAST, 0, 0, 32, Next(LastDone().h, LAST_STOPS));
  }

  function OldDone(): State {
    State(Table(Filled(LAST), Filled(OLD), TAKEN, [NEW, LAST, OLD]), {},
          LastDone().writers[OLD_WRITER := RetireLoad(4, [Task(KEY, 3)], 0)], LookupBegun().lookups, NOTHING_CHANGED)
  }

  lemma ReachOldDone()
    ensures Sane(SMALL)
            && Reach(SMALL, BEGIN_OLD + PUBLISH_NEW + BEGIN_LOOKUP + PUBLISH_LAST + PUBLISH_OLD) == OldDone()
  {
    ReachLastDone();
    ReachMore(SMALL, BEGIN_OLD + PUBLISH_NEW + BEGIN_LOOKUP + PUBLISH_LAST, PUBLISH_OLD);
    OldPublished(LastDone().h);
    WritesWork(SMALL, LastDone(), OLD_WRITER, 0, Next(OldDone().h, RetireLoad(4, [Task(KEY, 3)], 0)), 1);
  }

  /** At the end of the run the lookup has hit, with a copy older than the one published
      before it began. */
  lemma OlderHit()
    ensures Sane(SMALL)
    ensures var s := Reach(SMALL, RUN);
            && READER in s.lookups && s.lookups[READER].Hit? && s.lookups[READER].q == QUERY
            && s.lookups[READER].seen == Seen(1, 3) && s.lookups[READER].sequence == OLD.sequence
            && s.h.log == [NEW, LAST, OLD] && NEW.key == QUERY.key && NEW.sequence > OLD.sequence
  {
    ReachOldDone();
    ReachMore(SMALL, BEGIN_OLD + PUBLISH_NEW + BEGIN_LOOKUP + PUBLISH_LAST + PUBLISH_OLD, END_LOOKUP);
    LookupEnds(OldDone().h);
    LooksLook(SMALL, OldDone(), READER, HitOn(OLD, QUERY, Seen(1, 3)), 23);
  }

  /** No part of it is a selection in one step, a process that dies, a put given up or an
      invalidation. */
  lemma OnlyPutsAndALookup(a: Action)
    requires a in RUN
    ensures a.StartPut? || a.Write? || a.StartGet? || a.Look?
  {
  }
}
