/** Instants in 64 bits: which are read back, and which texts stop the program. */
module CivilTextWords {
  import opened Arith
  import opened CivilTime
  import opened DecimalText
  import opened CivilText
  import opened CivilTextProof

  // ---- Dates in order ----------------------------------------------------------------

  predicate Earlier(d: Date, e: Date) {
    || d.year < e.year
    || (d.year == e.year && d.month < e.month)
    || (d.year == e.year && d.month == e.month && d.day < e.day)
  }

  /** The year, counted from March, that a day lies in. */
  function MarchYear(p: Place): int { 400 * p.era + 100 * p.b + 4 * p.a + p.r }

  predicate Ahead(p: Place, q: Place) {
    || MarchYear(p) < MarchYear(q)
    || (MarchYear(p) == MarchYear(q) && p.mp < q.mp)
    || (MarchYear(p) == MarchYear(q) && p.mp == q.mp && p.j < q.j)
  }

  lemma {:induction false} EarlierIsAhead(p: Place, q: Place)
    requires Real(p) && Real(q) && Earlier(Named(p), Named(q))
    ensures Ahead(p, q)
  {
  }

  /** A year is one place only. */
  lemma {:induction false} SameYear(p: Place, q: Place)
    requires Real(p) && Real(q) && MarchYear(p) == MarchYear(q)
    ensures p.era == q.era && p.b == q.b && p.a == q.a && p.r == q.r
  {
  }

  /** The day a year from March starts on. */
  function Begins(p: Place): int { p.era * 146097 + YearStart(p.b, p.a, p.r) }

  /** Where a year ends, in its four, its century and its era. */
  lemma {:induction false} YearEnds(b: int, a: int, r: int)
    requires Parts(100 * b + 4 * a + r, b, a, r)
    ensures r < 3 ==> YearStart(b, a, r) + YearLength(b, a, r) <= YearStart(b, a, r + 1)
    ensures a < 24 ==> YearStart(b, a, r) + YearLength(b, a, r) <= 36524 * b + 1461 * (a + 1)
    ensures b < 3 ==> YearStart(b, a, r) + YearLength(b, a, r) <= 36524 * (b + 1)
    ensures YearStart(b, a, r) + YearLength(b, a, r) <= 146097
  {
  }

  lemma {:induction false} YearsInOrder(p: Place, q: Place)
    requires Real(p) && Real(q) && MarchYear(p) < MarchYear(q)
    ensures Begins(p) + YearLength(p.b, p.a, p.r) <= Begins(q)
  {
    YearEnds(p.b, p.a, p.r);
    if p.era == q.era {
      if p.b == q.b {
        if p.a != q.a { assert p.a + 1 <= q.a; }
      } else {
        assert p.b + 1 <= q.b;
      }
    } else {
      assert p.era + 1 <= q.era;
    }
  }

  lemma {:induction false} MonthEnds(mp: int, long: bool, j: int)
    requires 0 <= mp < 12 && 0 <= j < MonthLength(mp, long)
    ensures 0 <= MonthStart(mp) + j < (if long then 366 else 365)
    ensures mp < 11 ==> MonthStart(mp) + j < MonthStart(mp + 1)
  {
  }

  lemma {:induction false} MonthsInOrder(m: int, n: int)
    requires 0 <= m <= n < 12
    ensures MonthStart(m) <= MonthStart(n)
  {
  }

  lemma {:induction false} AheadIsLess(p: Place, q: Place)
    requires Real(p) && Real(q) && Ahead(p, q)
    ensures Number(p) < Number(q)
  {
    MonthEnds(p.mp, Long(p.b, p.a, p.r), p.j);
    MonthEnds(q.mp, Long(q.b, q.a, q.r), q.j);
    if MarchYear(p) < MarchYear(q) {
      YearsInOrder(p, q);
    } else {
      SameYear(p, q);
      if p.mp < q.mp { MonthsInOrder(p.mp + 1, q.mp); }
    }
  }

  /** Days follow each other as dates do. */
  lemma {:induction false} DaysInOrder(d: Date, e: Date)
    requires Exists(d) && Exists(e)
    ensures Earlier(d, e) <==> Days(d) < Days(e)
    ensures d == e <==> Days(d) == Days(e)
  {
    var p := ExistingPlace(d);
    var q := ExistingPlace(e);
    DaysIs(p);
    DaysIs(q);
    if Earlier(d, e) {
      EarlierIsAhead(p, q);
      AheadIsLess(p, q);
    } else if Earlier(e, d) {
      EarlierIsAhead(q, p);
      AheadIsLess(q, p);
    }
  }

  // ---- The range of words ------------------------------------------------------------

  /** The last days whose midnight is a word of microseconds. */
  const LAST := 106_751_991
  const FIRST_DATE := Date(-290308, 12, 22)
  const LAST_DATE := Date(294247, 1, 10)
  const DAY_BEFORE := Date(294247, 1, 9)

  /** What is left of the range of words past the last midnight, and before the first. */
  const PAST := 14_454_775_807
  const BEFORE := 14_454_775_808

  lemma {:induction false} LastDates()
    ensures Exists(FIRST_DATE) && Days(FIRST_DATE) == -LAST
    ensures Exists(LAST_DATE) && Days(LAST_DATE) == LAST
    ensures Exists(DAY_BEFORE) && Days(DAY_BEFORE) == LAST - 1
  {
    var p, q, r := Place(-726, 0, 23, 0, 9, 21), Place(735, 2, 11, 2, 10, 9), Place(735, 2, 11, 2, 10, 8);
    DaysIs(p);
    DaysIs(q);
    DaysIs(r);
    NamedExists(p);
    NamedExists(q);
    NamedExists(r);
    assert Named(p) == FIRST_DATE && Named(q) == LAST_DATE && Named(r) == DAY_BEFORE;
  }

  /** A day and a clock whose microseconds leave the range of words on the way. */
  predicate Overflows(days: int, clock: int) {
    || days < -LAST || days > LAST || (days == -LAST && clock < -BEFORE)
    || (days == LAST && clock > PAST) || (days == LAST - 1 && clock > DAY + PAST)
  }

  lemma {:induction false} InstantIs(days: int, clock: int)
    requires -DAY <= clock < 2 * DAY
    ensures Instant(days, clock) == if Overflows(days, clock) then Trap else Value(days * DAY + clock)
  {
  }

  /** The same by the date. */
  predicate OutOfRange(st: Stamp) {
    || Earlier(st.date, FIRST_DATE) || Earlier(LAST_DATE, st.date)
    || (st.date == FIRST_DATE && st.clock < -BEFORE)
    || (st.date == LAST_DATE && st.clock > PAST) || (st.date == DAY_BEFORE && st.clock > DAY + PAST)
  }

  lemma {:induction false} RangeByDate(st: Stamp)
    requires Exists(st.date)
    ensures Overflows(Days(st.date), st.clock) <==> OutOfRange(st)
  {
    LastDates();
    DaysInOrder(st.date, FIRST_DATE);
    DaysInOrder(LAST_DATE, st.date);
    DaysInOrder(DAY_BEFORE, st.date);
  }

  // ---- The clock stays small ------------------------------------------------------------

  lemma {:induction false} TakeBounded(s: seq<byte>, max: nat, acc: nat, bound: nat)
    requires acc < bound
    ensures Take(s, max, acc).value < bound * Power(10, max)
    decreases max
  {
    PowerPositive(10, max);
    if max > 0 && s != [] && IsDigit(s[0]) {
      TakeBounded(s[1..], max - 1, acc * 10 + (s[0] - 48), bound * 10);
      assert bound * 10 * Power(10, max - 1) == bound * Power(10, max);
    } else {
      MulMonotone(bound, 1, Power(10, max));
    }
  }

  /** A year has six digits at most. */
  lemma {:induction false} YearBounded(fs: seq<Spec>, s: seq<byte>)
    requires fs != [] && fs[0].max == 6 && ReadFields(fs, s).Some?
    ensures ReadFields(fs, s).value.values != [] && ReadFields(fs, s).value.values[0] < 1_000_000
  {
    TakeBounded(s, 6, 0, 1);
    SixPower();
  }

  /** A fraction is less than a second, however many digits it has. */
  lemma {:induction false} FractionBounded(s: seq<byte>, place: nat)
    ensures ReadFraction(s, place).value == 0 || ReadFraction(s, place).value < 10 * place
    decreases |s|
  {
    if s != [] && IsDigit(s[0]) {
      FractionBounded(s[1..], place / 10);
      DigitBounded(s[0] - 48, place, place / 10, ReadFraction(s[1..], place / 10).value);
    }
  }

  lemma {:induction false} DigitBounded(d: nat, place: nat, tenth: nat, more: nat)
    requires d <= 9 && 10 * tenth <= place && (more == 0 || more < 10 * tenth)
    ensures d * place + more == 0 || d * place + more < 10 * place
  {
    MulMonotone(place, d, 9);
  }

  lemma {:induction false} MicrosBounded(s: seq<byte>)
    requires ReadMicros(s).Some?
    ensures ReadMicros(s).value.value < SECOND
  {
    if s != [] { FractionBounded(s[1..], 100_000); }
  }

  lemma {:induction false} ZoneBounded(s: seq<byte>)
    requires ReadZone(s).Some?
    ensures -86_400 < ReadZone(s).value.offset < 86_400
  {
  }

  /** What a stamp's parts are bounded by, so that only the last product and the last
      sum can leave the range of words. */
  predicate Small(st: Stamp) {
    Exists(st.date) && -1_000_000 <= st.date.year <= 1_000_000 && -DAY < st.clock < 2 * DAY
  }

  lemma {:induction false} StampedSmall(year: int, v: seq<nat>, micros: nat, offset: int)
    requires |v| == 6 && Stamped(year, v, micros, offset).Some?
    requires -1_000_000 <= year <= 1_000_000 && micros < SECOND && -86_400 < offset < 86_400
    ensures Small(Stamped(year, v, micros, offset).value)
  {
  }

  lemma {:induction false} TailSmall(signed: bool, sign: int, v: seq<nat>, s: seq<byte>)
    requires |v| == 6 && v[0] < 1_000_000 && (sign == 1 || sign == -1) && ReadTail(signed, sign, v, s).Some?
    ensures Small(ReadTail(signed, sign, v, s).value)
  {
    var f := ReadMicros(s).value;
    MicrosBounded(s);
    ZoneBounded(f.rest);
    var z := ReadZone(f.rest).value;
    var year := v[0] * sign;
    if z.rest == [32, 66, 67] {
      StampedSmall(1 - year, v, f.value, z.offset);
    } else {
      StampedSmall(year, v, f.value, z.offset);
    }
  }

  lemma {:induction false} StampSmall(s: seq<byte>)
    requires ReadStamp(s).Some?
    ensures Small(ReadStamp(s).value)
  {
    var signed := StartsSigned(s);
    var body := if signed then s[1..] else s;
    YearBounded(FIELDS, body);
    var f := ReadFields(FIELDS, body).value;
    TailSmall(signed, if signed && s[0] == 45 then -1 else 1, f.values, f.rest);
  }

  // ---- Which texts stop the program -------------------------------------------------------

  /** Reading stops the program exactly on the texts of a date that exists but lies
      outside the range of words, or so near its ends that the clock leaves it. */
  lemma {:induction false} TrapsExactly(s: seq<byte>)
    ensures Parse(s) == Trap <==> ReadStamp(s).Some? && OutOfRange(ReadStamp(s).value)
    ensures Parse(s) == Refused <==> ReadStamp(s).None?
  {
    if ReadStamp(s).Some? {
      var st := ReadStamp(s).value;
      StampSmall(s);
      InstantIs(Days(st.date), st.clock);
      RangeByDate(st);
    }
  }

  // ---- Reading back what was written --------------------------------------------------------

  /** Any instant at all, written and read: refused if its year takes seven digits,
      fatal if its day or its microseconds are no word, and itself otherwise. */
  lemma {:induction false} ParseOfFormat(t: int, layout: Layout)
    ensures Parse(Format(t, layout))
            == if Printed(DateOf(Split(t).days).year, layout) >= 1_000_000 then Refused
               else if Overflows(Split(t).days, Split(t).time) then Trap else Value(t)
  {
    FormatRoundTrip(t, layout);
    DaysOfDate(Split(t).days);
    InstantIs(Split(t).days, Split(t).time);
  }

  /** Years stay well within six digits for as many days as a word of microseconds spans. */
  lemma {:induction false} WordYear(n: int, layout: Layout)
    requires -200_000_000 <= n <= 200_000_000
    ensures Printed(DateOf(n).year, layout) < 1_000_000
  {
    var p := NumberOf(n);
    DateIs(p);
    assert -1500 <= p.era <= 1500;
  }

  lemma {:induction false} WordDays(t: int, days: int, time: nat)
    requires Word(t) && days * DAY + time == t && time < DAY
    ensures -200_000_000 <= days <= 200_000_000 && (Overflows(days, time) <==> t < -LAST * DAY)
  {
  }

  /** An instant of 64 bits comes back from its text in all three layouts exactly when
      it is not in the part of a day that the range of words starts with. There the
      midnight before it is no word, and reading its text stops the program. */
  lemma {:induction false} WordRoundTrip(t: int, layout: Layout)
    requires Word(t)
    ensures Parse(Format(t, layout)) == if t >= -LAST * DAY then Value(t) else Trap
  {
    SplitIs(t);
    WordDays(t, Split(t).days, Split(t).time);
    WordYear(Split(t).days, layout);
    ParseOfFormat(t, layout);
  }

  /** The first instant of all is one of those. */
  lemma {:induction false} FirstWordTraps(layout: Layout)
    ensures Parse(Format(-0x8000_0000_0000_0000, layout)) == Trap
  {
    WordRoundTrip(-0x8000_0000_0000_0000, layout);
  }
}
