/** The date of an HTTP header: what the C writer puts in its 29 bytes, the Swift
    reader takes back. */
module HttpDate {
  import opened Arith
  import opened Wrappers
  import opened CivilTime
  import opened DecimalText

  const SECONDS := 86400

  // ---- Writing -------------------------------------------------------------------

  lemma {:induction false} RemainderBounds(a: int, b: nat)
    requires b > 0
    ensures Remainder(a, b) < b && Remainder(a, b) + b > 0 && (a >= 0 ==> Remainder(a, b) >= 0)
  {
    QuotientBounds(if a < 0 then -a else a, b);
  }

  datatype Moment = Moment(days: int, secs: nat)

  /** The day and the seconds into it, from a division that rounds toward zero. */
  function Split(t: int): Moment {
    RemainderBounds(t, SECONDS);
    var days, secs := Quotient(t, SECONDS), Remainder(t, SECONDS);
    if secs < 0 then Moment(days - 1, secs + SECONDS) else Moment(days, secs)
  }

  lemma {:induction false} SplitIs(t: int)
    ensures Split(t).days * SECONDS + Split(t).secs == t && Split(t).secs < SECONDS
  {
    QuotientBounds(if t < 0 then -t else t, SECONDS);
  }

  /** 1970-01-01 was a Thursday. */
  function Weekday(days: int): nat {
    RemainderBounds(days + 4, 7);
    var r := Remainder(days + 4, 7);
    if r < 0 then r + 7 else r
  }

  lemma {:induction false} WeekdayIs(days: int)
    ensures exists weeks :: days + 4 == 7 * weeks + Weekday(days) && 0 <= Weekday(days) < 7
  {
    var a := days + 4;
    QuotientBounds(if a < 0 then -a else a, 7);
    var q := Quotient(a, 7);
    var weeks := if Remainder(a, 7) < 0 then q - 1 else q;
    assert a == 7 * weeks + Weekday(days);
  }

  /** The week goes round, before 1970 as after. */
  lemma {:induction false} WeekGoesRound(days: int)
    ensures Weekday(0) == 4 && Weekday(days + 1) == (if Weekday(days) == 6 then 0 else Weekday(days) + 1)
  {
    WeekdayIs(days);
    WeekdayIs(days + 1);
  }

  function DayName(w: nat): (s: seq<byte>)
    ensures |s| == 3
  {
    if w == 0 then [83, 117, 110] else if w == 1 then [77, 111, 110] else if w == 2 then [84, 117, 101]
    else if w == 3 then [87, 101, 100] else if w == 4 then [84, 104, 117] else if w == 5 then [70, 114, 105]
    else [83, 97, 116]
  }

  function MonthName(m: int): (s: seq<byte>)
    ensures |s| == 3
  {
    if m == 1 then [74, 97, 110] else if m == 2 then [70, 101, 98] else if m == 3 then [77, 97, 114]
    else if m == 4 then [65, 112, 114] else if m == 5 then [77, 97, 121] else if m == 6 then [74, 117, 110]
    else if m == 7 then [74, 117, 108] else if m == 8 then [65, 117, 103] else if m == 9 then [83, 101, 112]
    else if m == 10 then [79, 99, 116] else if m == 11 then [78, 111, 118] else [68, 101, 99]
  }

  /** A year cut to 32 bits. */
  function Int32(y: int): int { (y + 0x8000_0000) % 0x1_0000_0000 - 0x8000_0000 }

  /** A decimal place as C computes it, which below zero is no digit. */
  function PlaceOf(y: int, unit: nat): byte
    requires unit > 0
  {
    RemainderBounds(Quotient(y, unit), 10);
    48 + Remainder(Quotient(y, unit), 10)
  }

  function Four(y: int): (s: seq<byte>)
    ensures |s| == 4
  {
    [PlaceOf(y, 1000), PlaceOf(y, 100), PlaceOf(y, 10), PlaceOf(y, 1)]
  }

  function Two(v: nat): (s: seq<byte>)
    requires v < 100
    ensures |s| == 2
  {
    [48 + v / 10, 48 + v % 10]
  }

  /** The buffer, place by place. */
  function Stamp(name: seq<byte>, day: seq<byte>, month: seq<byte>, year: seq<byte>, clock: seq<byte>): (s: seq<byte>)
    requires |name| == |month| == 3 && |day| == 2 && |year| == 4 && |clock| == 8
    ensures |s| == 29
  {
    name + [44, 32] + day + [32] + month + [32] + year + [32] + clock + [32, 71, 77, 84]
  }

  function Clock(secs: nat): (s: seq<byte>)
    requires secs < SECONDS
    ensures |s| == 8
  {
    Two(secs / 3600) + [58] + Two(secs / 60 % 60) + [58] + Two(secs % 60)
  }

  function Written(days: int, d: Date, secs: nat): (s: seq<byte>)
    requires Exists(d) && secs < SECONDS
    ensures |s| == 29
  {
    Stamp(DayName(Weekday(days)), Two(d.day), MonthName(d.month), Four(Int32(d.year)), Clock(secs))
  }

  function Write(t: int): (s: seq<byte>)
    ensures |s| == 29
  {
    SplitIs(t);
    DaysOfDate(Split(t).days);
    Written(Split(t).days, DateOf(Split(t).days), Split(t).secs)
  }

  /** Bytes put into the buffer after what is there already. */
  method Put(buf: array<byte>, at: nat, bytes: seq<byte>)
    requires at + |bytes| <= buf.Length
    modifies buf
    ensures buf[..at + |bytes|] == old(buf[..at]) + bytes
  {
    for i := 0 to |bytes|
      invariant buf[..at + i] == old(buf[..at]) + bytes[..i]
    {
      buf[at + i] := bytes[i];
    }
  }

  method FillDate(buf: array<byte>, t: int)
    requires buf.Length == 29
    modifies buf
    ensures buf[..] == Write(t)
  {
    SplitIs(t);
    DaysOfDate(Split(t).days);
    var days, secs, d := Split(t).days, Split(t).secs, DateOf(Split(t).days);
    FillStamp(buf, DayName(Weekday(days)), Two(d.day), MonthName(d.month), Four(Int32(d.year)), Clock(secs));
  }

  method FillStamp(buf: array<byte>, name: seq<byte>, day: seq<byte>, month: seq<byte>, year: seq<byte>,
                   clock: seq<byte>)
    requires buf.Length == 29 && |name| == |month| == 3 && |day| == 2 && |year| == 4 && |clock| == 8
    modifies buf
    ensures buf[..] == Stamp(name, day, month, year, clock)
  {
    FillFront(buf, name, day, month);
    Put(buf, 12, year);
    Put(buf, 16, [32]);
    Put(buf, 17, clock);
    Put(buf, 25, [32, 71, 77, 84]);
    assert buf[..] == buf[..29];
  }

  /** Up to the year. */
  method FillFront(buf: array<byte>, name: seq<byte>, day: seq<byte>, month: seq<byte>)
    requires buf.Length == 29 && |name| == |month| == 3 && |day| == 2
    modifies buf
    ensures buf[..12] == name + [44, 32] + day + [32] + month + [32]
  {
    Put(buf, 0, name);
    Put(buf, 3, [44, 32]);
    Put(buf, 5, day);
    Put(buf, 7, [32]);
    Put(buf, 8, month);
    Put(buf, 11, [32]);
  }

  // ---- Reading -------------------------------------------------------------------

  function TrimLeft(s: seq<byte>): seq<byte> { if s != [] && s[0] in {32, 9} then TrimLeft(s[1..]) else s }

  function TrimRight(s: seq<byte>): seq<byte>
    decreases |s|
  {
    if s != [] && s[|s| - 1] in {32, 9} then TrimRight(s[..|s| - 1]) else s
  }

  function Number(s: seq<byte>): Option<nat> { if AllDigits(s) then Some(Fold(0, s)) else None }

  function MonthNumber(s: seq<byte>): Option<nat>
    requires |s| == 3
  {
    if s == [74, 97, 110] then Some(1) else if s == [70, 101, 98] then Some(2) else if s == [77, 97, 114] then Some(3)
    else if s == [65, 112, 114] then Some(4) else if s == [77, 97, 121] then Some(5)
    else if s == [74, 117, 110] then Some(6)
    else if s == [74, 117, 108] then Some(7) else if s == [65, 117, 103] then Some(8)
    else if s == [83, 101, 112] then Some(9)
    else if s == [79, 99, 116] then Some(10) else if s == [78, 111, 118] then Some(11)
    else if s == [68, 101, 99] then Some(12)
    else None
  }

  /** Seconds since midnight, up to 60 past the last full minute. */
  function TimeOfDay(s: seq<byte>): Option<nat>
    requires |s| == 8
  {
    var h, m, sec := Number(s[..2]), Number(s[3..5]), Number(s[6..]);
    if s[2] != 58 || s[5] != 58 || h.None? || m.None? || sec.None? then None
    else if h.value >= 24 || m.value >= 60 || sec.value > 60 then None
    else Some(h.value * 3600 + m.value * 60 + sec.value)
  }

  function DaysSinceEpoch(year: int, month: nat, day: int): int {
    var y := if month <= 2 then year - 1 else year;
    var era := Floor(y, 400);
    FromEra(era, StartOf(y - era * 400) + DayOfYear((month + 9) % 12, day))
  }

  function Finish(day: Option<nat>, month: Option<nat>, year: Option<nat>, clock: Option<nat>): Option<int> {
    if day.None? || month.None? || year.None? || clock.None? || !(1 <= day.value <= 31) then None
    else Some(DaysSinceEpoch(year.value, month.value, day.value) * SECONDS + clock.value)
  }

  /** A fixed-length date, such as `Thu, 01 Jan 1970 00:00:00 GMT`. */
  function Fixdate(s: seq<byte>): Option<int>
    requires |s| == 29
  {
    if s[4] != 32 || s[7] != 32 || s[11] != 32 || s[16] != 32 || s[25] != 32 || s[26..] != [71, 77, 84] then None
    else Finish(Number(s[5..7]), MonthNumber(s[8..11]), Number(s[12..16]), TimeOfDay(s[17..25]))
  }

  /** A date as C's asctime prints it, such as `Thu Jan  1 00:00:00 1970`. */
  function Asctime(s: seq<byte>): Option<int>
    requires |s| == 24
  {
    if s[7] != 32 || s[10] != 32 || s[19] != 32 then None
    else Finish(if s[8] == 32 then Number(s[9..10]) else Number(s[8..10]), MonthNumber(s[4..7]), Number(s[20..]),
        TimeOfDay(s[11..19]))
  }

  /** Where the first comma of ten bytes is, or where they end. */
  function Comma(s: seq<byte>, i: nat): (k: nat)
    ensures i <= k && (i <= |s| ==> k <= |s|)
    decreases |s| - i
  {
    if i < |s| && i < 10 && s[i] != 44 then Comma(s, i + 1) else i
  }

  function Century(yy: Option<nat>): Option<nat> {
    if yy.None? then None else if yy.value < 70 then Some(2000 + yy.value) else Some(1900 + yy.value)
  }

  /** A date with a two-digit year, such as `Thursday, 01-Jan-70 00:00:00 GMT`. */
  function Rfc850(s: seq<byte>): Option<int> {
    var comma := Comma(s, 0);
    if comma < 6 || comma >= |s| || |s| != comma + 24 then None
    else
      var r := s[comma + 1..];
      if r[0] != 32 || r[3] != 45 || r[7] != 45 || r[10] != 32 || r[19] != 32 || r[20..] != [71, 77, 84] then None
      else Finish(Number(r[1..3]), MonthNumber(r[4..7]), Century(Number(r[8..10])), TimeOfDay(r[11..19]))
  }

  function ParseForm(s: seq<byte>): Option<int> {
    if |s| == 29 && s[3] == 44 then Fixdate(s)
    else if |s| == 24 && s[3] == 32 then Asctime(s)
    else Rfc850(s)
  }

  function Parse(s: seq<byte>): Option<int> { ParseForm(TrimRight(TrimLeft(s))) }

  /** The two loops that trim, with their cursors. */
  method Trim(s: seq<byte>) returns (start: nat, end: nat)
    ensures start <= end <= |s| && s[start..end] == TrimRight(TrimLeft(s))
  {
    start, end := 0, |s|;
    assert s[0..] == s;
    while start < end && s[start] in {32, 9}
      invariant start <= end == |s| && TrimLeft(s[start..]) == TrimLeft(s)
    {
      assert s[start..][1..] == s[start + 1..];
      start := start + 1;
    }
    assert s[start..end] == s[start..];
    while end > start && s[end - 1] in {32, 9}
      invariant start <= end <= |s| && TrimRight(s[start..end]) == TrimRight(s[start..])
    {
      assert s[start..end][..end - start - 1] == s[start..end - 1];
      end := end - 1;
    }
  }

  method NumberLoop(s: seq<byte>) returns (r: Option<nat>)
    ensures r == Number(s)
  {
    var value: nat, i: nat := 0, 0;
    assert s[0..] == s;
    while i < |s|
      invariant i <= |s| && (AllDigits(s) <==> AllDigits(s[i..]))
      invariant AllDigits(s) ==> Fold(0, s) == Fold(value, s[i..])
    {
      assert s[i..][1..] == s[i + 1..];
      if !IsDigit(s[i]) { return None; }
      value := value * 10 + (s[i] - 48);
      i := i + 1;
    }
    return Some(value);
  }

  // ---- Reading what was written ------------------------------------------------------

  lemma {:induction false} MonthRead(m: int)
    requires 1 <= m <= 12
    ensures MonthNumber(MonthName(m)) == Some(m)
  {
  }

  lemma {:induction false} TwoDigits(v: nat)
    requires v < 100
    ensures Number(Two(v)) == Some(v)
  {
    var s := Two(v);
    assert s[1..] == [48 + v % 10] && s[1..][1..] == [];
    assert Fold(0, s) == Fold(v / 10, s[1..]);
    assert Fold(v / 10, s[1..]) == Fold(v / 10 * 10 + v % 10, []);
  }

  function Digit(b: byte): int { b as int - 48 }

  lemma {:induction false} FourFold(s: seq<byte>)
    requires |s| == 4
    ensures AllDigits(s) <==> IsDigit(s[0]) && IsDigit(s[1]) && IsDigit(s[2]) && IsDigit(s[3])
    ensures AllDigits(s) ==> Fold(0, s) == 1000 * Digit(s[0]) + 100 * Digit(s[1]) + 10 * Digit(s[2]) + Digit(s[3])
  {
    var a, b, c := s[1..], s[2..], s[3..];
    assert a[1..] == b && b[1..] == c && c[1..] == [];
    assert AllDigits(c) <==> IsDigit(s[3]);
    assert AllDigits(b) <==> IsDigit(s[2]) && AllDigits(c);
    assert AllDigits(a) <==> IsDigit(s[1]) && AllDigits(b);
    if AllDigits(s) {
      var x: nat, y: nat := Digit(s[0]), 10 * Digit(s[0]) + Digit(s[1]);
      assert Fold(0, s) == Fold(x, a) == Fold(y, b);
      assert Fold(y, b) == Fold(10 * y + Digit(s[2]), c);
    }
  }

  lemma {:induction false} PlaceIs(y: nat, unit: nat, p: nat, d: nat, r: nat)
    requires unit > 0 && y == unit * (10 * p + d) + r && r < unit && d < 10
    ensures PlaceOf(y, unit) == 48 + d
  {
    QuotientIs(y, unit, 10 * p + d, r);
    QuotientIs(10 * p + d, 10, p, d);
  }

  lemma {:induction false} DigitsOf(y: nat) returns (a: nat, b: nat, c: nat, d: nat)
    requires y <= 9999
    ensures y == 1000 * a + 100 * b + 10 * c + d && a < 10 && b < 10 && c < 10 && d < 10
  {
    var tens, hundreds := y / 10, y / 10 / 10;
    a, b, c, d := hundreds / 10, hundreds % 10, tens % 10, y % 10;
    assert y == 10 * tens + d && tens == 10 * hundreds + c && hundreds == 10 * a + b;
  }

  lemma {:induction false} FourDigits(y: nat)
    requires y <= 9999
    ensures Number(Four(y)) == Some(y)
  {
    var a, b, c, d := DigitsOf(y);
    PlaceIs(y, 1000, 0, a, 100 * b + 10 * c + d);
    PlaceIs(y, 100, a, b, 10 * c + d);
    PlaceIs(y, 10, 10 * a + b, c, d);
    PlaceIs(y, 1, 100 * a + 10 * b + c, d, 0);
    FourFold(Four(y));
  }

  lemma {:induction false} ClockParts(secs: nat) returns (h: nat, m: nat, sec: nat)
    requires secs < SECONDS
    ensures h == secs / 3600 && m == secs / 60 % 60 && sec == secs % 60
    ensures h < 24 && m < 60 && sec < 60 && h * 3600 + m * 60 + sec == secs
  {
    h, m, sec := secs / 3600, secs / 60 % 60, secs % 60;
    assert secs / 60 / 60 == h;
  }

  lemma {:induction false} TimeIs(s: seq<byte>, h: nat, m: nat, sec: nat)
    requires h < 24 && m < 60 && sec < 60 && s == Two(h) + [58] + Two(m) + [58] + Two(sec)
    ensures TimeOfDay(s) == Some(h * 3600 + m * 60 + sec)
  {
    assert s[..2] == Two(h) && s[3..5] == Two(m) && s[6..] == Two(sec);
    TwoDigits(h);
    TwoDigits(m);
    TwoDigits(sec);
  }

  lemma {:induction false} ClockRead(secs: nat)
    requires secs < SECONDS
    ensures TimeOfDay(Clock(secs)) == Some(secs)
  {
    var h, m, sec := ClockParts(secs);
    TimeIs(Clock(secs), h, m, sec);
  }

  lemma {:induction false} StampForm(name: seq<byte>, day: seq<byte>, month: seq<byte>, year: seq<byte>,
                                     clock: seq<byte>, s: seq<byte>)
    requires |name| == |month| == 3 && |day| == 2 && |year| == 4 && |clock| == 8
    requires s == Stamp(name, day, month, year, clock)
    ensures s[5..7] == day && s[8..11] == month && s[12..16] == year && s[17..25] == clock
    ensures s[26..] == [71, 77, 84] && s[0] == name[0] && s[3] == 44 && s[28] == 84
    ensures s[4] == 32 && s[7] == 32 && s[11] == 32 && s[16] == 32 && s[25] == 32
  {
    assert s[26..][0] == s[26] == 71 && s[26..][1] == s[27] == 77 && s[26..][2] == s[28] == 84;
  }

  lemma {:induction false} EpochIsDays(year: int, month: nat, day: int)
    requires 1 <= month <= 12
    ensures DaysSinceEpoch(year, month, day) == Days(Date(year, month, day))
  {
  }

  /** The day after 28 February. */
  lemma {:induction false} DayAfter(p: Place) returns (q: Place)
    requires Real(p) && p.mp == 11 && p.j == 27
    ensures Real(q) && CivilTime.Number(q) == CivilTime.Number(p) + 1 && Named(q).year == Named(p).year
  {
    q := if Long(p.b, p.a, p.r) then p.(j := 28)
         else if p.r < 3 then Place(p.era, p.b, p.a, p.r + 1, 0, 0) else Place(p.era, p.b + 1, 0, 0, 0, 0);
  }

  lemma {:induction false} NextDay(d: Date)
    ensures Days(d.(day := d.day + 1)) == Days(d) + 1
  {
  }

  /** The day after 28 February is in the same year, whether the year is leap or not. */
  lemma {:induction false} LateFebruary(year: int)
    ensures DateOf(Days(Date(year, 2, 29))).year == year
  {
    var d := Date(year, 2, 28);
    var p := ExistingPlace(d);
    var q := DayAfter(p);
    assert Days(Date(year, 2, 29)) == CivilTime.Number(q) by {
      NextDay(d);
      DaysIs(p);
    }
    DateIs(q);
  }

  /** A day of the month of any year, counted in another year, falls in that year. */
  lemma {:induction false} YearStays(d: Date, year: int)
    requires Exists(d)
    ensures DateOf(Days(Date(year, d.month, d.day))).year == year
  {
    if Exists(Date(year, d.month, d.day)) {
      DateOfDays(Date(year, d.month, d.day));
    } else {
      LateFebruary(year);
    }
  }

  lemma {:induction false} NotTrimmed(s: seq<byte>)
    requires s != [] && s[0] !in {32, 9} && s[|s| - 1] !in {32, 9}
    ensures Parse(s) == ParseForm(s)
  {
  }

  lemma {:induction false} WrittenRead(days: int, d: Date, secs: nat, s: seq<byte>)
    requires Exists(d) && secs < SECONDS && s == Written(days, d, secs)
    ensures Parse(s) == Finish(Some(d.day), Some(d.month), Number(Four(Int32(d.year))), Some(secs))
  {
    StampForm(DayName(Weekday(days)), Two(d.day), MonthName(d.month), Four(Int32(d.year)), Clock(secs), s);
    NotTrimmed(s);
    TwoDigits(d.day);
    MonthRead(d.month);
    ClockRead(secs);
  }

  /** The year read is the year of the instant read. */
  lemma {:induction false} FinishSome(d: Date, secs: nat, year: nat, t: int, days: int)
    requires Exists(d) && t == days * SECONDS + secs && d == DateOf(days)
    ensures DaysSinceEpoch(year, d.month, d.day) * SECONDS + secs == t <==> year == d.year
  {
    var n := DaysSinceEpoch(year, d.month, d.day);
    assert DateOf(n).year == year by {
      EpochIsDays(year, d.month, d.day);
      YearStays(d, year);
    }
    if year == d.year {
      assert n == days by {
        EpochIsDays(year, d.month, d.day);
        DaysOfDate(days);
      }
    }
  }

  lemma {:induction false} FinishIs(d: Date, secs: nat, year: Option<nat>, t: int, days: int, r: Option<int>)
    requires Exists(d) && t == days * SECONDS + secs && d == DateOf(days)
    requires year.Some? ==> 0 <= year.value <= 9999
    requires 0 <= d.year <= 9999 ==> year == Some(d.year)
    requires r == Finish(Some(d.day), Some(d.month), year, Some(secs))
    ensures r == Some(t) <==> 0 <= d.year <= 9999
  {
    if year.Some? {
      FinishSome(d, secs, year.value, t, days);
      FinishVia(d, secs, year.value, DaysSinceEpoch(year.value, d.month, d.day), r);
    }
  }

  lemma {:induction false} FinishVia(d: Date, secs: nat, year: nat, n: int, r: Option<int>)
    requires Exists(d) && n == DaysSinceEpoch(year, d.month, d.day)
    requires r == Finish(Some(d.day), Some(d.month), Some(year), Some(secs))
    ensures r == Some(n * SECONDS + secs)
  {
  }

  lemma {:induction false} SameInt32(y: int)
    requires 0 <= y <= 9999
    ensures Int32(y) == y
  {
  }

  lemma {:induction false} FourSmall(s: seq<byte>)
    requires |s| == 4
    ensures Number(s).Some? ==> Number(s).value <= 9999
  {
    FourFold(s);
  }

  lemma {:induction false} YearRead(y: int, n: Option<nat>)
    requires n == Number(Four(Int32(y)))
    ensures (n.Some? ==> n.value <= 9999) && (0 <= y <= 9999 ==> n == Some(y))
  {
    FourSmall(Four(Int32(y)));
    if 0 <= y <= 9999 {
      SameInt32(y);
      FourDigits(y);
    }
  }

  /** A second is read back from the date written for it exactly when its year has four
      digits or fewer and is not before year 0. */
  lemma {:induction false} DateRoundTrip(t: int)
    ensures Parse(Write(t)) == Some(t) <==> 0 <= DateOf(Split(t).days).year <= 9999
  {
    var m := Split(t);
    SplitIs(t);
    DaysOfDate(m.days);
    var d := DateOf(m.days);
    var year := Number(Four(Int32(d.year)));
    WrittenRead(m.days, d, m.secs, Write(t));
    YearRead(d.year, year);
    FinishIs(d, m.secs, year, t, m.days, Parse(Write(t)));
  }

  /** The first second of year 10000 is written as one of another year. */
  lemma {:induction false} YearTenThousand(t: int)
    requires t == 253_402_300_800
    ensures DateOf(Split(t).days) == Date(10000, 1, 1)
    ensures Parse(Write(t)) != Some(t)
  {
    assert Split(t).days == 2_932_897 by { QuotientIs(t, SECONDS, 2_932_897, 0); }
    var p := Place(24, 3, 24, 3, 10, 0);
    DateIs(p);
    assert CivilTime.Number(p) == Split(t).days;
    DateRoundTrip(t);
  }
}
