/** Days and dates of the proleptic Gregorian calendar: two formulas that undo each
    other over all of the integers. */
module CivilTime {
  import opened Arith

  datatype Date = Date(year: int, month: int, day: int)

  /** Division as the machine does it, toward zero; counted off rather than divided,
      so that proofs that only carry quotients about do not meet a division. */
  function Quotient(a: int, b: nat): int
    requires b > 0
    decreases if a < 0 then 1 else 0, if a < 0 then -a else a
  {
    if a < 0 then -Quotient(-a, b) else if a < b then 0 else 1 + Quotient(a - b, b)
  }

  function Remainder(a: int, b: nat): int
    requires b > 0
    decreases if a < 0 then 1 else 0, if a < 0 then -a else a
  {
    if a < 0 then -Remainder(-a, b) else if a < b then a else Remainder(a - b, b)
  }

  lemma {:induction false} QuotientIs(a: nat, b: nat, q: nat, r: nat)
    requires b > 0 && a == b * q + r && r < b
    ensures Quotient(a, b) == q && Remainder(a, b) == r
    decreases q
  {
    if q > 0 {
      assert b * q == b + b * (q - 1);
      MulMonotone(b, 0, q - 1);
      QuotientIs(a - b, b, q - 1, r);
    }
  }

  lemma {:induction false} QuotientBounds(a: nat, b: nat)
    requires b > 0
    ensures 0 <= Quotient(a, b) && b * Quotient(a, b) <= a < b * Quotient(a, b) + b
    ensures Remainder(a, b) == a - b * Quotient(a, b)
  {
    if a >= b {
      QuotientBounds(a - b, b);
      assert b * Quotient(a, b) == b + b * Quotient(a - b, b);
    }
  }

  /** A remainder is nothing just when the number is a multiple, below zero too. */
  lemma RemainderZero(a: int, b: nat, q: int, r: nat)
    requires b > 0 && a == b * q + r && r < b
    ensures Remainder(a, b) == 0 <==> r == 0
  {
    if a >= 0 {
      assert q >= 0 by { if q < 0 { MulMonotone(b, q, -1); } }
      QuotientIs(a, b, q, r);
    } else {
      assert q < 0 by { if q >= 0 { MulMonotone(b, 0, q); } }
      if r == 0 {
        assert -a == b * (-q);
        QuotientIs(-a, b, -q, 0);
      } else {
        assert -a == b * (-q - 1) + (b - r);
        QuotientIs(-a, b, -q - 1, b - r);
      }
    }
  }

  predicate Leap(year: int) {
    (Remainder(year, 4) == 0 && Remainder(year, 100) != 0) || Remainder(year, 400) == 0
  }

  function DaysInMonth(year: int, month: int): int {
    if month == 2 then (if Leap(year) then 29 else 28)
    else if month in {4, 6, 9, 11} then 30 else 31
  }

  predicate Exists(d: Date) { 1 <= d.month <= 12 && 1 <= d.day <= DaysInMonth(d.year, d.month) }

  /** Division rounded down, from one that rounds toward zero. */
  function Floor(a: int, b: nat): int
    requires b > 0
  {
    Quotient(if a >= 0 then a else a - (b - 1), b)
  }

  /** The day of an era that a year of it starts on. */
  function StartOf(yearOfEra: int): int {
    yearOfEra * 365 + Quotient(yearOfEra, 4) - Quotient(yearOfEra, 100)
  }

  function DayOfYear(shifted: int, day: int): int { Quotient(153 * shifted + 2, 5) + day - 1 }

  function FromEra(era: int, dayOfEra: int): int { era * 146097 + dayOfEra - 719468 }

  /** The number of a date's day, 1970-01-01 being day 0: by way of 400-year eras of years
      that start in March. */
  function Days(d: Date): int {
    var y := if d.month <= 2 then d.year - 1 else d.year;
    var era := Floor(y, 400);
    var shifted := if d.month > 2 then d.month - 3 else d.month + 9;
    FromEra(era, StartOf(y - era * 400) + DayOfYear(shifted, d.day))
  }

  function YearOfEra(dayOfEra: int): int {
    Quotient(dayOfEra - Quotient(dayOfEra, 1460) + Quotient(dayOfEra, 36524) - Quotient(dayOfEra, 146096), 365)
  }

  /** The date of a day of a year from March. */
  function InYear(era: int, yearOfEra: int, dayOfYear: int): Date {
    var shifted := Quotient(5 * dayOfYear + 2, 153);
    var day := dayOfYear - Quotient(153 * shifted + 2, 5) + 1;
    var month := if shifted < 10 then shifted + 3 else shifted - 9;
    Date(yearOfEra + era * 400 + (if month <= 2 then 1 else 0), month, day)
  }

  function InEra(era: int, dayOfEra: int): Date {
    var yearOfEra := YearOfEra(dayOfEra);
    InYear(era, yearOfEra, dayOfEra - StartOf(yearOfEra))
  }

  function DateOf(days: int): Date {
    var z := days + 719468;
    var era := Floor(z, 146097);
    InEra(era, z - era * 146097)
  }

  // ---- Eras --------------------------------------------------------------------

  /** The rounded-down quotient of a number by where it lies in its era. */
  lemma FloorIs(q: int, r: nat, m: nat)
    requires r < m
    ensures Floor(m * q + r, m) == q
  {
    var a := m * q + r;
    if a >= 0 {
      assert q >= 0 by { if q < 0 { MulMonotone(m, q, -1); } }
      QuotientIs(a, m, q, r);
    } else {
      assert q < 0 by { if q >= 0 { MulMonotone(m, 0, q); } }
      var n := -(a - (m - 1));
      assert n == m * (-q) + (m - 1 - r);
      MulMonotone(m, 0, -q);
      QuotientIs(n, m, -q, m - 1 - r);
    }
  }

  lemma FloorOf(x: int, m: nat) returns (q: int, r: nat)
    requires m > 0
    ensures x == m * q + r && r < m
  {
    q, r := x / m, x % m;
  }

  // ---- Years of an era -----------------------------------------------------------

  /** A year of an era by century, group of four and place: 100 b + 4 a + r. */
  predicate Parts(y: int, b: int, a: int, r: int) {
    y == 100 * b + 4 * a + r && 0 <= b < 4 && 0 <= a < 25 && 0 <= r < 4
  }

  /** Whether the year that starts in March ends with a 29 February. */
  predicate Long(b: int, a: int, r: int) { r == 3 && (a < 24 || b == 3) }

  function YearLength(b: int, a: int, r: int): int { if Long(b, a, r) then 366 else 365 }

  lemma PartsOf(y: int) returns (b: int, a: int, r: int)
    requires 0 <= y < 400
    ensures Parts(y, b, a, r)
  {
    b := y / 100;
    a := y % 100 / 4;
    r := y % 100 % 4;
  }

  function YearStart(b: int, a: int, r: int): int { 36524 * b + 1461 * a + 365 * r }

  lemma StartIs(y: int, b: int, a: int, r: int)
    requires Parts(y, b, a, r)
    ensures StartOf(y) == YearStart(b, a, r)
  {
    QuotientIs(y, 4, 25 * b + a, r);
    QuotientIs(y, 100, b, 4 * a + r);
  }

  /** How many days the formula takes off and puts back for a day of an era. */
  lemma YearTerms(b: int, a: int, r: int, k: int) returns (f: int, last: int)
    requires Parts(100 * b + 4 * a + r, b, a, r) && 0 <= k < YearLength(b, a, r)
    ensures var doe := YearStart(b, a, r) + k;
            && 0 <= f <= 1 && 0 <= last <= 1 && 0 <= k - f < 365 && 0 <= doe < 146097
            && 0 <= doe - 1460 * (25 * b + a + f) < 1460
            && 0 <= doe - 36524 * (b + last) < 36524
            && 0 <= doe - 146096 * last < 146096
  {
    f := if 24 * b + a + 365 * r + k >= 1460 then 1 else 0;
    last := if b == 3 && a == 24 && r == 3 && k == 365 then 1 else 0;
  }

  /** The formula for the year of an era finds it from any of its days. */
  lemma YearFound(b: int, a: int, r: int, k: int)
    requires Parts(100 * b + 4 * a + r, b, a, r) && 0 <= k < YearLength(b, a, r)
    ensures 0 <= YearStart(b, a, r) + k < 146097
    ensures YearOfEra(YearStart(b, a, r) + k) == 100 * b + 4 * a + r
  {
    var f, last := YearTerms(b, a, r, k);
    var doe, y := YearStart(b, a, r) + k, 100 * b + 4 * a + r;
    assert Quotient(doe, 1460) == 25 * b + a + f by {
      QuotientIs(doe, 1460, 25 * b + a + f, doe - 1460 * (25 * b + a + f));
    }
    assert Quotient(doe, 36524) == b + last by { QuotientIs(doe, 36524, b + last, doe - 36524 * (b + last)); }
    assert Quotient(doe, 146096) == last by { QuotientIs(doe, 146096, last, doe - 146096 * last); }
    QuotientIs(365 * y + (k - f), 365, y, k - f);
  }

  lemma YearOf(doe: int) returns (b: int, a: int, r: int, k: int)
    requires 0 <= doe < 146097
    ensures Parts(100 * b + 4 * a + r, b, a, r) && 0 <= k < YearLength(b, a, r) && doe == YearStart(b, a, r) + k
  {
    b := if doe / 36524 == 4 then 3 else doe / 36524;
    var left := doe - 36524 * b;
    a := if left / 1461 == 25 then 24 else left / 1461;
    left := left - 1461 * a;
    r := if left / 365 == 4 then 3 else left / 365;
    k := left - 365 * r;
  }

  // ---- Months of a year from March -------------------------------------------------

  function MonthLength(mp: int, long: bool): int {
    if mp == 11 then (if long then 29 else 28) else if mp in {1, 3, 6, 8} then 30 else 31
  }

  function MonthStart(mp: int): int {
    if mp == 0 then 0 else if mp == 1 then 31 else if mp == 2 then 61 else if mp == 3 then 92
    else if mp == 4 then 122 else if mp == 5 then 153 else if mp == 6 then 184 else if mp == 7 then 214
    else if mp == 8 then 245 else if mp == 9 then 275 else if mp == 10 then 306 else 337
  }

  /** The two formulas for months agree with the table of their first days. */
  lemma MonthFound(mp: int, long: bool, j: int)
    requires 0 <= mp < 12 && 0 <= j < MonthLength(mp, long)
    ensures Quotient(153 * mp + 2, 5) == MonthStart(mp)
    ensures Quotient(5 * (MonthStart(mp) + j) + 2, 153) == mp
    ensures 0 <= MonthStart(mp) + j < (if long then 366 else 365)
  {
    QuotientIs(153 * mp + 2, 5, MonthStart(mp), 153 * mp + 2 - 5 * MonthStart(mp));
    var n := 5 * (MonthStart(mp) + j) + 2;
    QuotientIs(n, 153, mp, n - 153 * mp);
  }

  lemma MonthOf(doy: int, long: bool) returns (mp: int, j: int)
    requires 0 <= doy < (if long then 366 else 365)
    ensures 0 <= mp < 12 && 0 <= j < MonthLength(mp, long) && doy == MonthStart(mp) + j
  {
    mp := if doy < 31 then 0 else if doy < 61 then 1 else if doy < 92 then 2 else if doy < 122 then 3
          else if doy < 153 then 4 else if doy < 184 then 5 else if doy < 214 then 6 else if doy < 245 then 7
          else if doy < 275 then 8 else if doy < 306 then 9 else if doy < 337 then 10 else 11;
    j := doy - MonthStart(mp);
  }

  // ---- A day, taken apart ------------------------------------------------------------

  datatype Place = Place(era: int, b: int, a: int, r: int, mp: int, j: int)

  predicate Real(p: Place) {
    && Parts(100 * p.b + 4 * p.a + p.r, p.b, p.a, p.r)
    && 0 <= p.mp < 12 && 0 <= p.j < MonthLength(p.mp, Long(p.b, p.a, p.r))
  }

  function Number(p: Place): int {
    p.era * 146097 + YearStart(p.b, p.a, p.r) + MonthStart(p.mp) + p.j - 719468
  }

  function Named(p: Place): Date {
    Date(100 * p.b + 4 * p.a + p.r + p.era * 400 + (if p.mp >= 10 then 1 else 0),
         if p.mp < 10 then p.mp + 3 else p.mp - 9, p.j + 1)
  }

  lemma NumberOf(n: int) returns (p: Place)
    ensures Real(p) && Number(p) == n
  {
    var era, doe := FloorOf(n + 719468, 146097);
    var b, a, r, k := YearOf(doe);
    var mp, j := MonthOf(k, Long(b, a, r));
    p := Place(era, b, a, r, mp, j);
  }

  /** Leap years end with the long years counted from March. */
  lemma LongIsLeap(era: int, b: int, a: int, r: int)
    requires Parts(100 * b + 4 * a + r, b, a, r)
    ensures Leap(100 * b + 4 * a + r + era * 400 + 1) <==> Long(b, a, r)
  {
    var year := 100 * b + 4 * a + r + era * 400 + 1;
    var carry := if r == 3 then 1 else 0;
    RemainderZero(year, 4, 100 * era + 25 * b + a + carry, r + 1 - 4 * carry);
    var full := if 4 * a + r + 1 == 100 then 1 else 0;
    RemainderZero(year, 100, 4 * era + b + full, 4 * a + r + 1 - 100 * full);
    var whole := if 100 * b + 4 * a + r + 1 == 400 then 1 else 0;
    RemainderZero(year, 400, era + whole, 100 * b + 4 * a + r + 1 - 400 * whole);
  }

  lemma NamedExists(p: Place)
    requires Real(p)
    ensures Exists(Named(p))
  {
    LongIsLeap(p.era, p.b, p.a, p.r);
  }

  lemma ExistingPlace(d: Date) returns (p: Place)
    requires Exists(d)
    ensures Real(p) && Named(p) == d
  {
    var era, y := FloorOf(if d.month <= 2 then d.year - 1 else d.year, 400);
    var b, a, r := PartsOf(y);
    LongIsLeap(era, b, a, r);
    p := Place(era, b, a, r, if d.month > 2 then d.month - 3 else d.month + 9, d.day - 1);
  }

  lemma DaysBy(d: Date, era: int, y: int, mp: int)
    requires 0 <= y < 400 && (if d.month <= 2 then d.year - 1 else d.year) == 400 * era + y
    requires (if d.month > 2 then d.month - 3 else d.month + 9) == mp
    ensures Days(d) == FromEra(era, StartOf(y) + DayOfYear(mp, d.day))
  {
    FloorIs(era, y, 400);
    assert 400 * era + y - era * 400 == y;
  }

  lemma DaysIs(p: Place)
    requires Real(p)
    ensures Days(Named(p)) == Number(p)
  {
    var y := 100 * p.b + 4 * p.a + p.r;
    DaysBy(Named(p), p.era, y, p.mp);
    StartIs(y, p.b, p.a, p.r);
    assert DayOfYear(p.mp, p.j + 1) == MonthStart(p.mp) + p.j by { MonthFound(p.mp, Long(p.b, p.a, p.r), p.j); }
  }

  lemma InYearIs(p: Place)
    requires Real(p)
    ensures InYear(p.era, 100 * p.b + 4 * p.a + p.r, MonthStart(p.mp) + p.j) == Named(p)
  {
    MonthFound(p.mp, Long(p.b, p.a, p.r), p.j);
  }

  /** The year of an era, and the day of that year. */
  lemma YearAndDay(b: int, a: int, r: int, k: int, y: int, doe: int)
    requires Parts(y, b, a, r) && 0 <= k < YearLength(b, a, r) && doe == YearStart(b, a, r) + k
    ensures 0 <= doe < 146097 && YearOfEra(doe) == y && doe - StartOf(y) == k
  {
    YearFound(b, a, r, k);
    StartIs(y, b, a, r);
  }

  lemma InEraBy(era: int, doe: int, y: int, k: int, d: Date)
    requires YearOfEra(doe) == y && doe - StartOf(y) == k && InYear(era, y, k) == d
    ensures InEra(era, doe) == d
  {
  }

  lemma DayInYear(p: Place)
    requires Real(p)
    ensures 0 <= MonthStart(p.mp) + p.j < YearLength(p.b, p.a, p.r)
  {
    MonthFound(p.mp, Long(p.b, p.a, p.r), p.j);
  }

  lemma DayOfEraIs(p: Place, y: int, k: int, doe: int)
    requires Real(p) && y == 100 * p.b + 4 * p.a + p.r && k == MonthStart(p.mp) + p.j
    requires doe == YearStart(p.b, p.a, p.r) + k
    ensures 0 <= doe < 146097 && YearOfEra(doe) == y && doe - StartOf(y) == k
  {
    DayInYear(p);
    YearAndDay(p.b, p.a, p.r, k, y, doe);
  }

  lemma PlaceInEra(p: Place, y: int, k: int, doe: int, d: Date)
    requires Real(p) && y == 100 * p.b + 4 * p.a + p.r && k == MonthStart(p.mp) + p.j
    requires YearOfEra(doe) == y && doe - StartOf(y) == k && d == Named(p)
    ensures InEra(p.era, doe) == d
  {
    InYearIs(p);
    InEraBy(p.era, doe, y, k, d);
  }

  lemma DateBy(days: int, era: int, doe: nat)
    requires days == FromEra(era, doe) && doe < 146097
    ensures DateOf(days) == InEra(era, doe)
  {
    FloorIs(era, doe, 146097);
    assert 146097 * era + doe == days + 719468;
  }

  lemma DateIs(p: Place)
    requires Real(p)
    ensures DateOf(Number(p)) == Named(p)
  {
    var k := MonthStart(p.mp) + p.j;
    var doe := YearStart(p.b, p.a, p.r) + k;
    DayOfEraIs(p, 100 * p.b + 4 * p.a + p.r, k, doe);
    PlaceInEra(p, 100 * p.b + 4 * p.a + p.r, k, doe, Named(p));
    DateBy(Number(p), p.era, doe);
  }

  /** Every date that exists comes back from its day. */
  lemma DateOfDays(d: Date)
    requires Exists(d)
    ensures DateOf(Days(d)) == d
  {
    var p := ExistingPlace(d);
    DaysIs(p);
    DateIs(p);
  }

  /** Every day comes back from its date, which exists. */
  lemma DaysOfDate(n: int)
    ensures Days(DateOf(n)) == n && Exists(DateOf(n))
  {
    var p := NumberOf(n);
    DateIs(p);
    DaysIs(p);
    NamedExists(p);
  }
}
