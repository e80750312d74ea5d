/** The two obsolete forms of a date, and blanks around any. */
module HttpDateForms {
  import opened Arith
  import opened Wrappers
  import opened CivilTime
  import opened DecimalText
  import opened HttpDate

  // ---- Blanks ---------------------------------------------------------------------

  predicate Blank(s: seq<byte>) { s == [] || (s[0] in {32, 9} && Blank(s[1..])) }

  /** It begins and ends with something. */
  predicate Bare(s: seq<byte>) { s != [] && s[0] !in {32, 9} && s[|s| - 1] !in {32, 9} }

  lemma {:induction false} LeftDropped(a: seq<byte>, s: seq<byte>)
    requires Blank(a) && s != [] && s[0] !in {32, 9}
    ensures TrimLeft(a + s) == s
    decreases |a|
  {
    if a == [] {
      assert a + s == s;
    } else {
      assert (a + s)[0] == a[0] && (a + s)[1..] == a[1..] + s;
      LeftDropped(a[1..], s);
    }
  }

  lemma {:induction false} BlankAt(b: seq<byte>, i: nat)
    requires Blank(b) && i < |b|
    ensures b[i] in {32, 9} && Blank(b[..i])
    decreases |b|
  {
    if i > 0 {
      BlankAt(b[1..], i - 1);
      assert b[..i][1..] == b[1..][..i - 1];
    } else {
      assert b[..0] == [];
    }
  }

  lemma {:induction false} RightDropped(s: seq<byte>, b: seq<byte>)
    requires Blank(b) && s != [] && s[|s| - 1] !in {32, 9}
    ensures TrimRight(s + b) == s
    decreases |b|
  {
    if b == [] {
      assert s + b == s;
    } else {
      BlankAt(b, |b| - 1);
      assert (s + b)[|s + b| - 1] == b[|b| - 1] && (s + b)[..|s + b| - 1] == s + b[..|b| - 1];
      RightDropped(s, b[..|b| - 1]);
    }
  }

  /** Blanks before and after a date do not count. */
  lemma BlanksDropped(a: seq<byte>, s: seq<byte>, b: seq<byte>)
    requires Blank(a) && Blank(b) && Bare(s)
    ensures Parse(a + s + b) == Parse(s) == ParseForm(s)
  {
    assert a + s + b == a + (s + b);
    LeftDropped(a, s + b);
    RightDropped(s, b);
    NotTrimmed(s);
  }

  // ---- As asctime prints it ----------------------------------------------------------

  /** The day of the month in two places, with a zero or a blank in the first. */
  function DayText(day: nat, blank: bool): (s: seq<byte>)
    requires day < 100
    ensures |s| == 2
  {
    if blank && day < 10 then [32, 48 + day] else Two(day)
  }

  function AsctimeText(name: seq<byte>, d: Date, secs: nat, blank: bool): (s: seq<byte>)
    requires |name| == 3 && Exists(d) && secs < SECONDS
    ensures |s| == 24
  {
    name + [32] + MonthName(d.month) + [32] + DayText(d.day, blank) + [32] + Clock(secs) + [32] + Four(Int32(d.year))
  }

  lemma OneDigit(day: nat)
    requires day < 10
    ensures HttpDate.Number([48 + day]) == Some(day)
  {
    var s: seq<byte> := [48 + day];
    assert s[1..] == [] && AllDigits(s[1..]) && AllDigits(s);
    assert Fold(0, s) == Fold(0 * 10 + day, s[1..]) == day;
  }

  lemma DayRead(day: nat, blank: bool, s: seq<byte>)
    requires day < 100 && s == DayText(day, blank)
    ensures (if s[0] == 32 then HttpDate.Number(s[1..]) else HttpDate.Number(s)) == Some(day)
  {
    if blank && day < 10 {
      assert s[1..] == [48 + day];
      OneDigit(day);
    } else {
      TwoDigits(day);
    }
  }

  lemma AsctimeForm(name: seq<byte>, d: Date, secs: nat, blank: bool, s: seq<byte>)
    requires |name| == 3 && Exists(d) && secs < SECONDS && s == AsctimeText(name, d, secs, blank)
    ensures s[0] == name[0] && s[3] == 32 && s[4..7] == MonthName(d.month) && s[7] == 32
    ensures s[8..10] == DayText(d.day, blank) && s[10] == 32 && s[11..19] == Clock(secs) && s[19] == 32
    ensures s[20..] == Four(Int32(d.year))
  {
  }

  lemma LastDigit(y: int)
    requires 0 <= y <= 9999
    ensures Four(y)[3] !in {32, 9}
  {
    var a, b, c, d := DigitsOf(y);
    PlaceIs(y, 1, 100 * a + 10 * b + c, d, 0);
  }

  /** A second is read from its date as asctime prints it, with whatever name of a day, if its
      year is one of 0 to 9999. */
  lemma AsctimeIsRead(t: int, name: seq<byte>, blank: bool)
    requires |name| == 3 && name[0] !in {32, 9} && 0 <= DateOf(Split(t).days).year <= 9999
    ensures Exists(DateOf(Split(t).days)) && Split(t).secs < SECONDS
    ensures Parse(AsctimeText(name, DateOf(Split(t).days), Split(t).secs, blank)) == Some(t)
  {
    var m := Split(t);
    SplitIs(t);
    DaysOfDate(m.days);
    var d := DateOf(m.days);
    var s := AsctimeText(name, d, m.secs, blank);
    AsctimeForm(name, d, m.secs, blank, s);
    DayRead(d.day, blank, s[8..10]);
    assert s[8..10][1..] == s[9..10] && s[8..10][0] == s[8];
    MonthRead(d.month);
    ClockRead(m.secs);
    YearRead(d.year, HttpDate.Number(Four(Int32(d.year))));
    SameInt32(d.year);
    LastDigit(d.year);
    assert s[23] == s[20..][3];
    NotTrimmed(s);
    FinishIs(d, m.secs, Some(d.year), t, m.days, Parse(s));
  }

  // ---- With a year of two digits --------------------------------------------------------

  function Rfc850Text(name: seq<byte>, d: Date, secs: nat): (s: seq<byte>)
    requires Exists(d) && secs < SECONDS
    ensures |s| == |name| + 24
  {
    name + [44] + ([32] + Two(d.day) + [45] + MonthName(d.month) + [45] + Two(d.year % 100) + [32] + Clock(secs)
                   + [32, 71, 77, 84])
  }

  lemma {:induction false} CommaIs(name: seq<byte>, rest: seq<byte>, i: nat)
    requires i <= |name| < 10 && 44 !in name
    ensures Comma(name + [44] + rest, i) == |name|
    decreases |name| - i
  {
    var s := name + [44] + rest;
    if i < |name| {
      assert s[i] == name[i];
      CommaIs(name, rest, i + 1);
    } else {
      assert s[i] == 44;
    }
  }

  lemma Rfc850Form(d: Date, secs: nat, r: seq<byte>)
    requires Exists(d) && secs < SECONDS
    requires r == [32] + Two(d.day) + [45] + MonthName(d.month) + [45] + Two(d.year % 100) + [32] + Clock(secs)
                  + [32, 71, 77, 84]
    ensures |r| == 23 && r[0] == 32 && r[1..3] == Two(d.day) && r[3] == 45 && r[4..7] == MonthName(d.month)
    ensures r[7] == 45 && r[8..10] == Two(d.year % 100) && r[10] == 32 && r[11..19] == Clock(secs) && r[19] == 32
    ensures r[20..] == [71, 77, 84]
  {
  }

  lemma Rfc850Splits(name: seq<byte>, r: seq<byte>, s: seq<byte>)
    requires 6 <= |name| < 10 && 44 !in name && name[0] !in {32, 9} && s == name + [44] + r
    requires |r| == 23 && r[20..] == [71, 77, 84]
    ensures Comma(s, 0) == |name| && s[|name| + 1..] == r && Parse(s) == Rfc850(s)
  {
    CommaIs(name, r, 0);
    assert s[0] == name[0] && s[|s| - 1] == r[|r| - 1] == r[20..][2];
    NotTrimmed(s);
  }

  /** The year that its last two digits stand for. */
  function Nearest(year: int): nat { if year % 100 < 70 then 2000 + year % 100 else 1900 + year % 100 }

  lemma Rfc850Read(name: seq<byte>, d: Date, secs: nat, s: seq<byte>)
    requires Exists(d) && secs < SECONDS && 6 <= |name| < 10 && 44 !in name && name[0] !in {32, 9}
    requires s == Rfc850Text(name, d, secs)
    ensures Parse(s) == Finish(Some(d.day), Some(d.month), Some(Nearest(d.year)), Some(secs))
  {
    var r := s[|name| + 1..];
    assert r == [32] + Two(d.day) + [45] + MonthName(d.month) + [45] + Two(d.year % 100) + [32] + Clock(secs)
                + [32, 71, 77, 84];
    Rfc850Form(d, secs, r);
    Rfc850Splits(name, r, s);
    TwoDigits(d.day);
    MonthRead(d.month);
    TwoDigits(d.year % 100);
    ClockRead(secs);
  }

  lemma NearestIs(year: int)
    ensures Nearest(year) == year <==> 1970 <= year <= 2069
  {
  }

  lemma FinishExactly(d: Date, secs: nat, year: nat, t: int, days: int, r: Option<int>)
    requires Exists(d) && t == days * SECONDS + secs && d == DateOf(days)
    requires r == Finish(Some(d.day), Some(d.month), Some(year), Some(secs))
    ensures r == Some(t) <==> year == d.year
  {
    FinishSome(d, secs, year, t, days);
    FinishVia(d, secs, year, DaysSinceEpoch(year, d.month, d.day), r);
  }

  /** A second is read back from its date with a year of two digits if and only if its year is
      one of 1970 to 2069. */
  lemma Rfc850RoundTrip(t: int, name: seq<byte>)
    requires 6 <= |name| < 10 && 44 !in name && name[0] !in {32, 9}
    ensures Exists(DateOf(Split(t).days)) && Split(t).secs < SECONDS
    ensures Parse(Rfc850Text(name, DateOf(Split(t).days), Split(t).secs)) == Some(t)
            <==> 1970 <= DateOf(Split(t).days).year <= 2069
  {
    var m := Split(t);
    SplitIs(t);
    DaysOfDate(m.days);
    var d := DateOf(m.days);
    var s := Rfc850Text(name, d, m.secs);
    Rfc850Read(name, d, m.secs, s);
    FinishExactly(d, m.secs, Nearest(d.year), t, m.days, Parse(s));
    NearestIs(d.year);
  }
}
