/** Reading back every instant that was written. */
module CivilTextProof {
  import opened Arith
  import opened Wrappers
  import opened CivilTime
  import opened DecimalText
  import opened CivilText

  // ---- Fractions -----------------------------------------------------------------

  function Fixed(v: nat, w: nat): (s: seq<byte>)
    ensures |s| == w
  {
    if w == 0 then [] else Fixed(v / 10, w - 1) + [48 + v % 10]
  }

  lemma {:induction false} ZerosFixed(w: nat)
    ensures Zeros(w) == Fixed(0, w)
  {
    if w > 0 {
      ZerosFixed(w - 1);
      ZerosBack(w);
    }
  }

  lemma {:induction false} ZerosBack(n: nat)
    requires n > 0
    ensures Zeros(n) == Zeros(n - 1) + [48]
  {
    if n > 1 {
      ZerosBack(n - 1);
      assert [48] + (Zeros(n - 2) + [48]) == [48] + Zeros(n - 2) + [48];
    } else {
      assert Zeros(0) == [] && Zeros(1) == [48] + Zeros(0);
    }
  }

  lemma {:induction false} TenPower(w: nat)
    ensures w <= 1 ==> Power(10, w) <= 10
  {
    assert Power(10, 1) == 10 * Power(10, 0);
  }

  /** Padding to a width the number fits in gives exactly that many digits. */
  lemma {:induction false} PaddedIsFixed(v: nat, w: nat)
    requires w > 0 && v < Power(10, w)
    ensures Padded(v, w) == Fixed(v, w)
  {
    DecimalLength(v, w);
    if v < 10 {
      ZerosFixed(w - 1);
      assert Fixed(v, w) == Fixed(0, w - 1) + [48 + v];
    } else {
      assert w > 1 by { TenPower(w); }
      PaddedIsFixed(v / 10, w - 1);
      assert Zeros(w - |Decimal(v)|) + (Decimal(v / 10) + [48 + v % 10])
          == Zeros(w - |Decimal(v)|) + Decimal(v / 10) + [48 + v % 10];
    }
  }

  /** The place value after `n` digits. */
  function PlaceValue(n: nat): nat { if n == 0 then 100_000 else PlaceValue(n - 1) / 10 }

  lemma {:induction false} Places()
    ensures PlaceValue(0) == 100_000 && PlaceValue(1) == 10_000 && PlaceValue(2) == 1_000 && PlaceValue(3) == 100 &&
            PlaceValue(4) == 10 && PlaceValue(5) == 1
  {
    assert PlaceValue(1) == 10_000;
    assert PlaceValue(2) == 1_000;
    assert PlaceValue(3) == 100;
    assert PlaceValue(4) == 10;
  }

  lemma {:induction false} PlaceStep(w: nat)
    requires 2 <= w <= 6
    ensures PlaceValue(w - 2) == 10 * PlaceValue(w - 1)
  {
    Places();
  }

  lemma {:induction false} Recombine(v: nat, p: nat)
    ensures v / 10 * (10 * p) + v % 10 * p == v * p
  {
    var q, r := v / 10, v % 10;
    assert v == 10 * q + r;
    assert (10 * q + r) * p == q * (10 * p) + r * p;
  }

  /** The digits of a fraction, most significant first, at the places they stand for. */
  function Worth(s: seq<byte>, n: nat): nat
    requires AllDigits(s)
    decreases |s|
  {
    if s == [] then 0 else (s[0] - 48) * PlaceValue(n) + Worth(s[1..], n + 1)
  }

  lemma {:induction false} ReadWorth(text: seq<byte>, rest: seq<byte>, n: nat)
    requires AllDigits(text) && (rest == [] || !IsDigit(rest[0]))
    ensures ReadFraction(text + rest, PlaceValue(n)) == Num(Worth(text, n), rest)
  {
    if text == [] {
      assert text + rest == rest;
    } else {
      assert (text + rest)[1..] == text[1..] + rest;
      ReadWorth(text[1..], rest, n + 1);
    }
  }

  lemma {:induction false} WorthAppend(s: seq<byte>, d: byte, n: nat)
    requires AllDigits(s) && IsDigit(d)
    ensures AllDigits(s + [d]) && Worth(s + [d], n) == Worth(s, n) + (d - 48) * PlaceValue(n + |s|)
    decreases |s|
  {
    if s == [] {
      assert s + [d] == [d] && [d][1..] == [];
      assert Worth([d], n) == (d - 48) * PlaceValue(n) + Worth([], n + 1);
    } else {
      assert (s + [d])[1..] == s[1..] + [d];
      WorthAppend(s[1..], d, n + 1);
    }
  }

  /** What a fraction of `w` digits stands for. */
  lemma {:induction false} FixedWorth(v: nat, w: nat)
    requires w <= 6 && v < Power(10, w)
    ensures AllDigits(Fixed(v, w)) && (w > 0 ==> Worth(Fixed(v, w), 0) == v * PlaceValue(w - 1))
  {
    if w == 0 {
      assert Fixed(v, 0) == [];
    } else {
      FixedWorth(v / 10, w - 1);
      WorthAppend(Fixed(v / 10, w - 1), 48 + v % 10, 0);
      if w == 1 {
        TenPower(w);
        assert Fixed(v / 10, 0) == [];
      } else {
        PlaceStep(w);
        Recombine(v, PlaceValue(w - 1));
      }
    }
  }

  /** Dropping zeros at the end changes nothing that is read. */
  lemma {:induction false} TrimmedWorth(f: nat, w: nat)
    requires 0 < f < Power(10, w) && w <= 6
    ensures w > 0 && AllDigits(Trimmed(f, w)) && Trimmed(f, w) != [] && Worth(Trimmed(f, w), 0) == f * PlaceValue(w - 1)
    decreases f
  {
    assert w > 0 by { assert Power(10, 0) == 1; }
    if f % 10 == 0 {
      assert w > 1 by { TenPower(w); }
      TrimmedWorth(f / 10, w - 1);
      PlaceStep(w);
      Recombine(f, PlaceValue(w - 1));
    } else {
      PaddedIsFixed(f, w);
      FixedWorth(f, w);
    }
  }

  lemma {:induction false} PointRead(text: seq<byte>, tail: seq<byte>, s: seq<byte>)
    requires AllDigits(text) && text != [] && (tail == [] || !IsDigit(tail[0])) && s == [46] + text + tail
    ensures ReadMicros(s) == Some(Num(Worth(text, 0), tail))
  {
    assert s[1..] == text + tail;
    ReadWorth(text, tail, 0);
  }

  lemma {:induction false} FractionRead(f: nat, tail: seq<byte>, s: seq<byte>)
    requires f < SECOND && (tail == [] || (!IsDigit(tail[0]) && tail[0] != 46)) && s == FractionText(f) + tail
    ensures ReadMicros(s) == Some(Num(f, tail))
  {
    if f == 0 {
      assert s == tail;
    } else {
      SixPower();
      TrimmedWorth(f, 6);
      assert f * PlaceValue(5) == f by { Places(); }
      PointRead(Trimmed(f, 6), tail, s);
    }
  }

  lemma {:induction false} SixPower()
    ensures Power(10, 6) == SECOND
  {
    assert Power(10, 2) == 10 * (10 * Power(10, 0));
    assert Power(10, 4) == 10 * (10 * Power(10, 2));
    assert Power(10, 6) == 10 * (10 * Power(10, 4));
  }

  // ---- Zone, era and the sum -------------------------------------------------------

  lemma {:induction false} ZoneRead(layout: Layout, era: seq<byte>)
    requires era == [] || era == [32, 66, 67]
    ensures ReadZone(ZoneText(layout) + era) == Some(Zone(0, era))
  {
    var s := ZoneText(layout) + era;
    match layout
    case Iso8601 => assert s[1..] == era;
    case Postgres =>
      assert s[1..] == [48, 48] + era;
      assert Padded(0, 2) == [48, 48] by { assert Decimal(0) == [48] && Zeros(1) == [48] + Zeros(0); }
      TwoRead(0, era);
    case PostgresWithoutZone => assert s == era;
  }

  lemma {:induction false} ClockSum(time: nat)
    requires time < DAY
    ensures var s := time / SECOND;
            && s / 3600 <= 23 && s / 60 % 60 <= 59 && s % 60 <= 59
            && s / 3600 * 3600 + s / 60 % 60 * 60 + s % 60 == s
            && s * SECOND + time % SECOND == time
  {
    var s := time / SECOND;
    assert s < 86400;
    SecondsSum(s);
  }

  lemma {:induction false} SecondsSum(s: nat)
    requires s < 86400
    ensures s / 3600 <= 23 && s / 60 % 60 <= 59 && s % 60 <= 59
    ensures s / 3600 * 3600 + s / 60 % 60 * 60 + s % 60 == s
  {
    assert s / 60 / 60 == s / 3600;
  }

  // ---- Fields -------------------------------------------------------------------------

  /** A piece is what a field expects. */
  predicate Suits(p: Piece, f: Spec) {
    && 0 < p.width == f.min <= f.max && |Padded(p.value, p.width)| <= f.max
    && (f.after == [] ==> p.after == [] && |Padded(p.value, p.width)| == f.max)
    && (f.after != [] ==> |p.after| == 1 && p.after[0] in f.after && !IsDigit(p.after[0]))
  }

  predicate AllSuit(ps: seq<Piece>, fs: seq<Spec>) {
    |ps| == |fs| && (ps == [] || (Suits(ps[0], fs[0]) && AllSuit(ps[1..], fs[1..])))
  }

  function ValuesOf(ps: seq<Piece>): seq<nat> { if ps == [] then [] else [ps[0].value] + ValuesOf(ps[1..]) }

  lemma {:induction false} PieceRead(p: Piece, f: Spec, rest: seq<byte>)
    requires Suits(p, f)
    ensures Digits(Padded(p.value, p.width) + (p.after + rest), f.min, f.max) == Some(Num(p.value, p.after + rest))
  {
    if f.after != [] { assert (p.after + rest)[0] == p.after[0]; }
    PaddedRead(p.value, p.width, f.max, p.after + rest);
  }

  lemma {:induction false} FieldsRead(ps: seq<Piece>, fs: seq<Spec>, tail: seq<byte>)
    requires AllSuit(ps, fs)
    ensures ReadFields(fs, Pieces(ps) + tail) == Some(Values(ValuesOf(ps), tail))
    decreases |ps|
  {
    if ps == [] {
      assert Pieces(ps) + tail == tail;
    } else {
      var p, rest := ps[0], Pieces(ps[1..]) + tail;
      FieldsRead(ps[1..], fs[1..], tail);
      Assoc(Padded(p.value, p.width), p.after, Pieces(ps[1..]), tail);
      PieceRead(p, fs[0], rest);
      if p.after == [] { assert p.after + rest == rest; } else { assert (p.after + rest)[1..] == rest; }
    }
  }

  lemma {:induction false} Assoc<T>(a: seq<T>, b: seq<T>, c: seq<T>, d: seq<T>)
    ensures a + (b + c) + d == a + (b + (c + d))
  {
  }

  /** A field with more digits than it may have is not followed by what it should be. */
  lemma {:induction false} FirstTooLong(ps: seq<Piece>, fs: seq<Spec>, tail: seq<byte>)
    requires ps != [] && fs != [] && |Padded(ps[0].value, ps[0].width)| > fs[0].max && fs[0].after == [45]
    ensures ReadFields(fs, Pieces(ps) + tail) == None
  {
    var p := ps[0];
    var text := Padded(p.value, p.width);
    PaddedFold(p.value, p.width);
    Assoc(text, p.after, Pieces(ps[1..]), tail);
    TakeSome(text, p.after + (Pieces(ps[1..]) + tail), fs[0].max, 0);
  }

  lemma {:induction false} TwoFits(v: nat)
    requires v < 100
    ensures |Padded(v, 2)| == 2
  {
    TwoRead(v, []);
  }

  lemma {:induction false} FourFits(v: nat)
    ensures |Padded(v, 4)| <= 6 <==> v < 1_000_000
  {
    PaddedFold(v, 4);
    SixPower();
    DecimalLength(v, 6);
  }

  lemma {:induction false} TwoSuits(p: Piece, f: Spec)
    requires p.value < 100 && p.width == 2 == f.min == f.max
    requires if f.after == [] then p.after == [] else |p.after| == 1 && p.after[0] in f.after && !IsDigit(p.after[0])
    ensures Suits(p, f)
  {
    TwoFits(p.value);
  }

  /** The fields of an instant suit, but for a year of more than six digits. */
  lemma {:induction false} FieldsSuit(d: Date, time: nat, layout: Layout)
    requires Exists(d) && time < DAY && Printed(d.year, layout) < 1_000_000
    ensures AllSuit(Fields(d, time, layout), FIELDS)
  {
    var ps := Fields(d, time, layout);
    assert Suits(ps[0], FIELDS[0]) by { FourFits(Printed(d.year, layout)); }
    ClockSum(time);
    TwoSuits(ps[1], FIELDS[1]);
    TwoSuits(ps[2], FIELDS[2]);
    TwoSuits(ps[3], FIELDS[3]);
    TwoSuits(ps[4], FIELDS[4]);
    TwoSuits(ps[5], FIELDS[5]);
    SuitAt(ps, FIELDS, 6);
  }

  /** Lists of six that suit one by one suit. */
  lemma {:induction false} SuitAt(ps: seq<Piece>, fs: seq<Spec>, n: nat)
    requires |ps| == |fs| == n && forall i :: 0 <= i < n ==> Suits(ps[i], fs[i])
    ensures AllSuit(ps, fs)
  {
    if n > 0 { SuitAt(ps[1..], fs[1..], n - 1); }
  }

  lemma {:induction false} ValueAt(ps: seq<Piece>, i: nat)
    requires i < |ps|
    ensures |ValuesOf(ps)| == |ps| && ValuesOf(ps)[i] == ps[i].value
  {
    if |ps| > 1 { ValueAt(ps[1..], if i > 0 then i - 1 else 0); }
  }

  // ---- The whole -----------------------------------------------------------------------

  /** The sign, if one is printed, is taken off first. */
  lemma {:induction false} SignRead(signed: bool, text: seq<byte>)
    requires text != [] && IsDigit(text[0])
    ensures var s := (if signed then [45] else []) + text;
            StartsSigned(s) == signed && (signed ==> s[0] == 45) && (if signed then s[1..] else s) == text
  {
  }

  lemma {:induction false} PiecesStart(ps: seq<Piece>, tail: seq<byte>)
    requires ps != []
    ensures Pieces(ps) + tail != [] && IsDigit((Pieces(ps) + tail)[0])
  {
    PaddedFold(ps[0].value, ps[0].width);
    assert (Pieces(ps) + tail)[0] == Padded(ps[0].value, ps[0].width)[0];
  }

  lemma {:induction false} TailStarts(layout: Layout, year: int)
    ensures var tail := ZoneText(layout) + EraText(year, layout);
            tail == [] || (!IsDigit(tail[0]) && tail[0] != 46)
  {
  }

  lemma {:induction false} TailVia(signed: bool, sign: int, v: seq<nat>, s: seq<byte>, m: Num, z: Zone)
    requires |v| == 6 && ReadMicros(s) == Some(m) && ReadZone(m.rest) == Some(z)
    ensures ReadTail(signed, sign, v, s) == ReadEra(signed, v[0] * sign, v, m.value, z.offset, z.rest)
  {
  }

  /** The sign or the era puts back the year that was printed. */
  lemma {:induction false} EraVia(year: int, layout: Layout, v: seq<nat>, micros: nat)
    requires |v| == 6 && v[0] == Printed(year, layout)
    ensures var signed := IsSigned(year, layout);
            ReadEra(signed, if signed then -(v[0] as int) else v[0] as int, v, micros, 0, EraText(year, layout))
            == Stamped(year, v, micros, 0)
  {
  }

  lemma {:induction false} StampIs(d: Date, v: seq<nat>, time: nat)
    requires Exists(d) && time < DAY && |v| == 6 && v[1] == d.month && v[2] == d.day
    requires v[3] == time / SECOND / 3600 && v[4] == time / SECOND / 60 % 60 && v[5] == time / SECOND % 60
    ensures Stamped(d.year, v, time % SECOND, 0) == Some(Stamp(d, time))
  {
    ClockSum(time);
    assert Date(d.year, v[1], v[2]) == d;
  }

  lemma {:induction false} FieldValues(d: Date, time: nat, layout: Layout, v: seq<nat>)
    requires Exists(d) && v == ValuesOf(Fields(d, time, layout))
    ensures |v| == 6 && v[0] == Printed(d.year, layout) && v[1] == d.month && v[2] == d.day
    ensures v[3] == time / SECOND / 3600 && v[4] == time / SECOND / 60 % 60 && v[5] == time / SECOND % 60
  {
    var ps := Fields(d, time, layout);
    ValueAt(ps, 0);
    ValueAt(ps, 1);
    ValueAt(ps, 2);
    ValueAt(ps, 3);
    ValueAt(ps, 4);
    ValueAt(ps, 5);
  }

  lemma {:induction false} TailRead(d: Date, time: nat, layout: Layout, v: seq<nat>, tail: seq<byte>, r: Option<Stamp>)
    requires Exists(d) && time < DAY && v == ValuesOf(Fields(d, time, layout)) && |v| == 6
    requires tail == Tail(d.year, time, layout)
    requires r == ReadTail(IsSigned(d.year, layout), if IsSigned(d.year, layout) then -1 else 1, v, tail)
    ensures r == Some(Stamp(d, time))
  {
    var m, z := time % SECOND, EraText(d.year, layout);
    assert ReadMicros(tail) == Some(Num(m, ZoneText(layout) + z)) by {
      TailStarts(layout, d.year);
      FractionRead(m, ZoneText(layout) + z, tail);
    }
    ZoneRead(layout, z);
    TailVia(IsSigned(d.year, layout), if IsSigned(d.year, layout) then -1 else 1, v, tail,
            Num(m, ZoneText(layout) + z), Zone(0, z));
    FieldValues(d, time, layout, v);
    EraVia(d.year, layout, v, m);
    StampIs(d, v, time);
  }

  lemma {:induction false} ReadVia(s: seq<byte>, signed: bool, body: seq<byte>, f: Option<Values>)
    requires StartsSigned(s) == signed && (signed ==> s[0] == 45) && body == (if signed then s[1..] else s)
    requires ReadFields(FIELDS, body) == f && (f.Some? ==> |f.value.values| == 6)
    ensures ReadStamp(s)
            == if f.None? then None else ReadTail(signed, if signed then -1 else 1, f.value.values, f.value.rest)
  {
  }

  lemma {:induction false} SignTaken(d: Date, time: nat, layout: Layout, text: seq<byte>, body: seq<byte>)
    requires Exists(d) && text == Written(d, time, layout)
    requires body == Pieces(Fields(d, time, layout)) + Tail(d.year, time, layout)
    ensures var signed := IsSigned(d.year, layout);
            StartsSigned(text) == signed && (signed ==> text[0] == 45) && body == (if signed then text[1..] else text)
  {
    PiecesStart(Fields(d, time, layout), Tail(d.year, time, layout));
    SignRead(IsSigned(d.year, layout), body);
  }

  lemma {:induction false} WrittenIsRead(d: Date, time: nat, layout: Layout, text: seq<byte>, r: Option<Stamp>)
    requires Exists(d) && time < DAY && text == Written(d, time, layout) && r == ReadStamp(text)
    requires Printed(d.year, layout) < 1_000_000
    ensures r == Some(Stamp(d, time))
  {
    var ps, tail := Fields(d, time, layout), Tail(d.year, time, layout);
    var body := Pieces(ps) + tail;
    SignTaken(d, time, layout, text, body);
    FieldsSuit(d, time, layout);
    FieldsRead(ps, FIELDS, tail);
    FieldValues(d, time, layout, ValuesOf(ps));
    ReadVia(text, IsSigned(d.year, layout), body, Some(Values(ValuesOf(ps), tail)));
    TailRead(d, time, layout, ValuesOf(ps), tail, r);
  }

  lemma {:induction false} WrittenIsRefused(d: Date, time: nat, layout: Layout, text: seq<byte>, r: Option<Stamp>)
    requires Exists(d) && time < DAY && text == Written(d, time, layout) && r == ReadStamp(text)
    requires Printed(d.year, layout) >= 1_000_000
    ensures r == None
  {
    var ps, tail := Fields(d, time, layout), Tail(d.year, time, layout);
    var body := Pieces(ps) + tail;
    SignTaken(d, time, layout, text, body);
    FourFits(Printed(d.year, layout));
    FirstTooLong(ps, FIELDS, tail);
    ReadVia(text, IsSigned(d.year, layout), body, None);
  }

  lemma {:induction false} FormatIsRead(t: int, layout: Layout)
    requires Printed(DateOf(Split(t).days).year, layout) < 1_000_000
    ensures ReadStamp(Format(t, layout)) == Some(Stamp(DateOf(Split(t).days), Split(t).time))
  {
    var m := Split(t);
    SplitIs(t);
    DaysOfDate(m.days);
    WrittenIsRead(DateOf(m.days), m.time, layout, Format(t, layout), ReadStamp(Format(t, layout)));
  }

  lemma {:induction false} FormatIsRefused(t: int, layout: Layout)
    requires Printed(DateOf(Split(t).days).year, layout) >= 1_000_000
    ensures ReadStamp(Format(t, layout)) == None
  {
    var m := Split(t);
    SplitIs(t);
    DaysOfDate(m.days);
    WrittenIsRefused(DateOf(m.days), m.time, layout, Format(t, layout), ReadStamp(Format(t, layout)));
  }

  /** Of every instant, however far, the date and the time of day are read back from
      any of the three layouts exactly when the year is printed in at most six digits;
      otherwise the text is refused. They are the instant's own. */
  lemma {:induction false} FormatRoundTrip(t: int, layout: Layout)
    ensures ReadStamp(Format(t, layout))
            == if Printed(DateOf(Split(t).days).year, layout) < 1_000_000
               then Some(Stamp(DateOf(Split(t).days), Split(t).time)) else None
    ensures Days(DateOf(Split(t).days)) * DAY + Split(t).time == t && Split(t).time < DAY
  {
    SplitIs(t);
    DaysOfDate(Split(t).days);
    if Printed(DateOf(Split(t).days).year, layout) < 1_000_000 {
      FormatIsRead(t, layout);
    } else {
      FormatIsRefused(t, layout);
    }
  }
}
