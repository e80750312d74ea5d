/** The texts that say an instant, offsets from UTC included, and that exactly those are read. */
module CivilTextGrammar {
  import opened Arith
  import opened Wrappers
  import opened CivilTime
  import opened DecimalText
  import opened CivilText

  // ---- Digits -----------------------------------------------------------------------

  predicate Follows(rest: seq<byte>) { rest == [] || !IsDigit(rest[0]) }

  lemma DigitsRead(text: seq<byte>, rest: seq<byte>, min: nat, max: nat)
    requires AllDigits(text) && min <= |text| <= max && (|text| == max || Follows(rest))
    ensures Digits(text + rest, min, max) == Some(Num(Fold(0, text), rest))
  {
    TakeAll(text, rest, max, 0);
  }

  lemma {:induction false} TakeSound(s: seq<byte>, max: nat, acc: nat) returns (text: seq<byte>)
    ensures AllDigits(text) && |text| <= max && s == text + Take(s, max, acc).rest
    ensures Take(s, max, acc).value == Fold(acc, text)
    ensures |text| == max || Follows(Take(s, max, acc).rest)
    decreases max
  {
    if max == 0 || s == [] || !IsDigit(s[0]) {
      text := [];
    } else {
      var more := TakeSound(s[1..], max - 1, acc * 10 + (s[0] - 48));
      text := [s[0]] + more;
      assert text[1..] == more;
      assert s == [s[0]] + s[1..];
    }
  }

  lemma DigitsSound(s: seq<byte>, min: nat, max: nat) returns (text: seq<byte>)
    requires Digits(s, min, max).Some?
    ensures AllDigits(text) && min <= |text| <= max && s == text + Digits(s, min, max).value.rest
    ensures Digits(s, min, max).value.value == Fold(0, text)
    ensures |text| == max || Follows(Digits(s, min, max).value.rest)
  {
    text := TakeSound(s, max, 0);
  }

  // ---- Fields ------------------------------------------------------------------------

  /** The digits of a field, and the byte after them if there has to be one. */
  datatype Cell = Cell(digits: seq<byte>, after: seq<byte>)

  predicate Fits(c: Cell, f: Spec) {
    && AllDigits(c.digits) && f.min <= |c.digits| <= f.max
    && (if f.after == [] then c.after == [] && |c.digits| == f.max
        else |c.after| == 1 && c.after[0] in f.after && !IsDigit(c.after[0]))
  }

  predicate AllFit(cs: seq<Cell>, fs: seq<Spec>) {
    |cs| == |fs| && (cs == [] || (Fits(cs[0], fs[0]) && AllFit(cs[1..], fs[1..])))
  }

  function CellsText(cs: seq<Cell>): seq<byte> {
    if cs == [] then [] else cs[0].digits + (cs[0].after + CellsText(cs[1..]))
  }

  function ValuesOf(cs: seq<Cell>, fs: seq<Spec>): seq<nat>
    requires AllFit(cs, fs)
  {
    if cs == [] then [] else [Fold(0, cs[0].digits)] + ValuesOf(cs[1..], fs[1..])
  }

  lemma ThreeParts<T>(a: seq<T>, b: seq<T>, c: seq<T>, d: seq<T>)
    ensures a + (b + c) + d == a + (b + (c + d))
  {
  }

  lemma {:induction false} CellsRead(cs: seq<Cell>, fs: seq<Spec>, tail: seq<byte>)
    requires AllFit(cs, fs)
    ensures ReadFields(fs, CellsText(cs) + tail) == Some(Values(ValuesOf(cs, fs), tail))
    decreases |cs|
  {
    if cs == [] {
      assert CellsText(cs) + tail == tail;
    } else {
      var c, rest := cs[0], CellsText(cs[1..]) + tail;
      CellsRead(cs[1..], fs[1..], tail);
      ThreeParts(c.digits, c.after, CellsText(cs[1..]), tail);
      if fs[0].after != [] { assert (c.after + rest)[0] == c.after[0]; }
      DigitsRead(c.digits, c.after + rest, fs[0].min, fs[0].max);
      if c.after == [] { assert c.after + rest == rest; } else { assert (c.after + rest)[1..] == rest; }
    }
  }

  /** Fields whose end can be told. */
  predicate Clear(fs: seq<Spec>) {
    fs == [] || ((fs[0].after == [] ==> fs[0].min == fs[0].max)
                 && (forall c :: c in fs[0].after ==> !IsDigit(c)) && Clear(fs[1..]))
  }

  lemma CellSound(f: Spec, s: seq<byte>, n: Num) returns (c: Cell, next: seq<byte>)
    requires (f.after == [] ==> f.min == f.max) && forall c :: c in f.after ==> !IsDigit(c)
    requires Digits(s, f.min, f.max) == Some(n) && (f.after != [] ==> n.rest != [] && n.rest[0] in f.after)
    ensures Fits(c, f) && s == c.digits + (c.after + next)
    ensures next == if f.after == [] then n.rest else n.rest[1..]
  {
    var digits := DigitsSound(s, f.min, f.max);
    next := if f.after == [] then n.rest else n.rest[1..];
    c := Cell(digits, if f.after == [] then [] else [n.rest[0]]);
    assert n.rest == c.after + next;
  }

  lemma {:induction false} CellsSound(fs: seq<Spec>, s: seq<byte>) returns (cs: seq<Cell>)
    requires Clear(fs) && ReadFields(fs, s).Some?
    ensures AllFit(cs, fs) && s == CellsText(cs) + ReadFields(fs, s).value.rest
    decreases |fs|
  {
    if fs == [] {
      cs := [];
    } else {
      var c, next := CellSound(fs[0], s, Digits(s, fs[0].min, fs[0].max).value);
      var more := CellsSound(fs[1..], next);
      cs := [c] + more;
      assert cs[1..] == more;
      ThreeParts(c.digits, c.after, CellsText(more), ReadFields(fs[1..], next).value.rest);
    }
  }

  // ---- Fractions -------------------------------------------------------------------------

  /** The first `k` digits, with zeros for those that are missing. */
  function FirstDigits(ds: seq<byte>, k: nat): (s: seq<byte>)
    requires AllDigits(ds)
    ensures |s| == k && AllDigits(s)
    decreases k
  {
    if k == 0 then []
    else if ds == [] then [48] + FirstDigits([], k - 1)
    else [ds[0]] + FirstDigits(ds[1..], k - 1)
  }

  lemma {:induction false} FoldOn(acc: nat, ds: seq<byte>)
    requires AllDigits(ds)
    ensures Fold(acc, ds) == acc * Power(10, |ds|) + Fold(0, ds)
    decreases |ds|
  {
    if ds != [] {
      var d: nat := ds[0] - 48;
      FoldOn(acc * 10 + d, ds[1..]);
      FoldOn(d, ds[1..]);
      Distribute(acc, d, Power(10, |ds| - 1));
    }
  }

  lemma Distribute(acc: nat, d: nat, p: nat)
    ensures (acc * 10 + d) * p == acc * (10 * p) + d * p
  {
  }

  function Place(k: nat): nat { if k == 0 then 0 else Power(10, k - 1) }

  lemma PlaceDown(k: nat)
    requires k > 0
    ensures Place(k) / 10 == Place(k - 1)
  {
    if k > 1 { assert Power(10, k - 1) == 10 * Power(10, k - 2); } else { assert Power(10, 0) == 1; }
  }

  lemma {:induction false} ZeroDigits(k: nat)
    ensures Fold(0, FirstDigits([], k)) == 0
  {
    if k > 0 {
      ZeroDigits(k - 1);
      assert FirstDigits([], k)[1..] == FirstDigits([], k - 1);
    }
  }

  /** A fraction counts its first six digits, whatever there are of them. */
  lemma {:induction false} FractionIs(ds: seq<byte>, rest: seq<byte>, k: nat)
    requires AllDigits(ds) && Follows(rest)
    ensures ReadFraction(ds + rest, Place(k)) == Num(Fold(0, FirstDigits(ds, k)), rest)
    decreases |ds|
  {
    if ds == [] {
      assert ds + rest == rest;
      ZeroDigits(k);
    } else {
      assert (ds + rest)[1..] == ds[1..] + rest;
      var less := if k == 0 then 0 else k - 1;
      if k > 0 { PlaceDown(k); }
      FractionIs(ds[1..], rest, less);
      if k > 0 {
        assert FirstDigits(ds, k)[1..] == FirstDigits(ds[1..], k - 1);
        FoldOn(ds[0] - 48, FirstDigits(ds[1..], k - 1));
      }
    }
  }

  lemma {:induction false} FractionSound(s: seq<byte>, place: nat) returns (ds: seq<byte>)
    ensures AllDigits(ds) && s == ds + ReadFraction(s, place).rest && Follows(ReadFraction(s, place).rest)
    decreases |s|
  {
    if s == [] || !IsDigit(s[0]) {
      ds := [];
    } else {
      var more := FractionSound(s[1..], place / 10);
      ds := [s[0]] + more;
      assert ds[1..] == more;
      assert s == [s[0]] + s[1..];
    }
  }

  function PointText(fraction: Option<seq<byte>>): seq<byte> {
    if fraction.Some? then [46] + fraction.value else []
  }

  predicate PointOk(fraction: Option<seq<byte>>) {
    fraction.Some? ==> fraction.value != [] && AllDigits(fraction.value)
  }

  function MicrosOf(fraction: Option<seq<byte>>): nat
    requires PointOk(fraction)
  {
    if fraction.Some? then Fold(0, FirstDigits(fraction.value, 6)) else 0
  }

  lemma SixPlaces()
    ensures Place(6) == 100_000
  {
    assert Power(10, 1) == 10 * Power(10, 0);
    assert Power(10, 3) == 10 * (10 * Power(10, 1));
    assert Power(10, 5) == 10 * (10 * Power(10, 3));
  }

  lemma PointRead(fraction: Option<seq<byte>>, rest: seq<byte>)
    requires PointOk(fraction) && Follows(rest) && (rest == [] || rest[0] != 46)
    ensures ReadMicros(PointText(fraction) + rest) == Some(Num(MicrosOf(fraction), rest))
  {
    var s := PointText(fraction) + rest;
    if fraction.Some? {
      assert s[1..] == fraction.value + rest;
      SixPlaces();
      FractionIs(fraction.value, rest, 6);
    } else {
      assert s == rest;
    }
  }

  lemma PointSound(s: seq<byte>) returns (fraction: Option<seq<byte>>)
    requires ReadMicros(s).Some?
    ensures PointOk(fraction) && s == PointText(fraction) + ReadMicros(s).value.rest
    ensures fraction.Some? ==> Follows(ReadMicros(s).value.rest)
  {
    if s == [] || s[0] != 46 {
      fraction := None;
    } else {
      var ds := FractionSound(s[1..], 100_000);
      fraction := Some(ds);
      assert s == [46] + s[1..];
    }
  }

  // ---- Offsets from UTC ------------------------------------------------------------------

  datatype Minutes = Minutes(colon: bool, digits: seq<byte>, seconds: Option<seq<byte>>)

  /** None, `Z` in either case, or a sign, hours, and maybe minutes and seconds. */
  datatype Offset = Local | Zulu(c: byte) | Shift(sign: byte, hours: seq<byte>, minutes: Option<Minutes>)

  predicate Two(ds: seq<byte>) { |ds| == 2 && AllDigits(ds) }

  predicate MinutesOk(m: Minutes) { Two(m.digits) && (m.seconds.Some? ==> Two(m.seconds.value)) }

  predicate OffsetOk(z: Offset) {
    match z
    case Local => true
    case Zulu(c) => c == 90 || c == 122
    case Shift(sign, hours, minutes) =>
      && (sign == 43 || sign == 45) && Two(hours)
      && (minutes.Some? ==> MinutesOk(minutes.value))
  }

  function SecondsText(seconds: Option<seq<byte>>): seq<byte> { if seconds.Some? then [58] + seconds.value else [] }

  function MinutesText(minutes: Option<Minutes>): seq<byte> {
    if minutes.None? then []
    else (if minutes.value.colon then [58] else []) + (minutes.value.digits + SecondsText(minutes.value.seconds))
  }

  function OffsetText(z: Offset): seq<byte> {
    match z
    case Local => []
    case Zulu(c) => [c]
    case Shift(sign, hours, minutes) => [sign] + (hours + MinutesText(minutes))
  }

  function Number(ds: seq<byte>): nat
    requires AllDigits(ds)
  {
    Fold(0, ds)
  }

  function MinutesOf(z: Offset): nat
    requires OffsetOk(z)
  {
    if z.Shift? && z.minutes.Some? then Number(z.minutes.value.digits) else 0
  }

  function ExtraSeconds(m: Minutes): nat
    requires MinutesOk(m)
  {
    if m.seconds.Some? then Number(m.seconds.value) else 0
  }

  function SecondsOf(z: Offset): nat
    requires OffsetOk(z)
  {
    if z.Shift? && z.minutes.Some? then ExtraSeconds(z.minutes.value) else 0
  }

  /** A day has no more hours than this. */
  predicate OffsetInRange(z: Offset)
    requires OffsetOk(z)
  {
    (z.Shift? ==> Number(z.hours) <= 23) && MinutesOf(z) <= 59 && SecondsOf(z) <= 59
  }

  /** Seconds ahead of UTC. */
  function Ahead(z: Offset): int
    requires OffsetOk(z)
  {
    if !z.Shift? then 0
    else (if z.sign == 45 then -1 else 1) * (Number(z.hours) * 3600 + MinutesOf(z) * 60 + SecondsOf(z))
  }

  /** What may follow: the end, or the era. */
  predicate Era(s: seq<byte>) { s == [] || s == [32, 66, 67] }

  lemma ColonTaken(colon: bool, t: seq<byte>, s: seq<byte>)
    requires t != [] && IsDigit(t[0]) && s == (if colon then [58] else []) + t
    ensures s != [] && (s[0] == 58 || IsDigit(s[0])) && (if s[0] == 58 then s[1..] else s) == t
  {
    if colon { assert s[1..] == t; } else { assert s == t; }
  }

  /** Minutes, and then what `more` says: seconds, or that there are none. */
  lemma MinutesGo(sign: int, hours: nat, m: Minutes, more: seq<byte>, s: seq<byte>)
    requires Two(m.digits) && s == (if m.colon then [58] else []) + (m.digits + more)
    ensures ReadZoneMinutes(sign, hours, s)
            == if Number(m.digits) > 59 then None
               else if more == [] || more[0] != 58 then Some(Zone(sign * (hours * 3600 + Number(m.digits) * 60), more))
               else
                 var seconds := Digits(more[1..], 2, 2);
                 if seconds.None? || seconds.value.value > 59 then None
                 else Some(Zone(sign * (hours * 3600 + Number(m.digits) * 60 + seconds.value.value),
                                seconds.value.rest))
  {
    var t := m.digits + more;
    assert t[0] == m.digits[0];
    ColonTaken(m.colon, t, s);
    DigitsRead(m.digits, more, 2, 2);
  }

  lemma SecondsRead(seconds: Option<seq<byte>>, rest: seq<byte>, more: seq<byte>)
    requires (seconds.Some? ==> Two(seconds.value)) && Era(rest) && more == SecondsText(seconds) + rest
    ensures if seconds.None? then more == rest && (more == [] || more[0] != 58)
            else more != [] && more[0] == 58 && Digits(more[1..], 2, 2) == Some(Num(Number(seconds.value), rest))
  {
    if seconds.Some? {
      assert more[1..] == seconds.value + rest;
      DigitsRead(seconds.value, rest, 2, 2);
    }
  }

  lemma SomeMinutes(sign: int, hours: nat, m: Minutes, rest: seq<byte>, s: seq<byte>)
    requires MinutesOk(m) && Era(rest) && s == MinutesText(Some(m)) + rest
    ensures ReadZoneMinutes(sign, hours, s)
            == if Number(m.digits) <= 59 && ExtraSeconds(m) <= 59
               then Some(Zone(sign * (hours * 3600 + Number(m.digits) * 60 + ExtraSeconds(m)), rest)) else None
  {
    var more := SecondsText(m.seconds) + rest;
    ThreeParts(if m.colon then [58] else [], m.digits, SecondsText(m.seconds), rest);
    MinutesGo(sign, hours, m, more, s);
    SecondsRead(m.seconds, rest, more);
  }

  lemma NoMinutes(sign: int, hours: nat, rest: seq<byte>)
    requires Era(rest)
    ensures ReadZoneMinutes(sign, hours, rest) == Some(Zone(sign * (hours * 3600), rest))
  {
  }

  lemma MinutesRead(z: Offset, rest: seq<byte>)
    requires OffsetOk(z) && z.Shift? && Era(rest)
    ensures ReadZoneMinutes(if z.sign == 45 then -1 else 1, Number(z.hours), MinutesText(z.minutes) + rest)
            == if MinutesOf(z) <= 59 && SecondsOf(z) <= 59 then Some(Zone(Ahead(z), rest)) else None
  {
    var s, sign := MinutesText(z.minutes) + rest, if z.sign == 45 then -1 else 1;
    if z.minutes.None? {
      assert s == rest;
      NoMinutes(sign, Number(z.hours), rest);
    } else {
      SomeMinutes(sign, Number(z.hours), z.minutes.value, rest, s);
    }
  }

  lemma HoursGo(sign: byte, hours: seq<byte>, more: seq<byte>, s: seq<byte>)
    requires (sign == 43 || sign == 45) && Two(hours) && s == [sign] + (hours + more)
    ensures ReadZone(s) == if Number(hours) > 23 then None
                           else ReadZoneMinutes(if sign == 45 then -1 else 1, Number(hours), more)
  {
    assert s[1..] == hours + more;
    DigitsRead(hours, more, 2, 2);
  }

  lemma ShiftRead(z: Offset, rest: seq<byte>, s: seq<byte>)
    requires OffsetOk(z) && z.Shift? && Era(rest) && s == OffsetText(z) + rest
    ensures ReadZone(s) == if OffsetInRange(z) then Some(Zone(Ahead(z), rest)) else None
  {
    ThreeParts([z.sign], z.hours, MinutesText(z.minutes), rest);
    HoursGo(z.sign, z.hours, MinutesText(z.minutes) + rest, s);
    MinutesRead(z, rest);
  }

  lemma OffsetRead(z: Offset, rest: seq<byte>)
    requires OffsetOk(z) && Era(rest)
    ensures ReadZone(OffsetText(z) + rest) == if OffsetInRange(z) then Some(Zone(Ahead(z), rest)) else None
  {
    var s := OffsetText(z) + rest;
    match z
    case Local => assert s == rest;
    case Zulu(c) => assert s[1..] == rest;
    case Shift(sign, hours, minutes) =>
      ShiftRead(z, rest, s);
  }

  lemma TwoSound(s: seq<byte>) returns (ds: seq<byte>)
    requires Digits(s, 2, 2).Some?
    ensures Two(ds) && s == ds + Digits(s, 2, 2).value.rest && Digits(s, 2, 2).value.value == Number(ds)
  {
    ds := DigitsSound(s, 2, 2);
  }

  lemma SecondsSound(s: seq<byte>) returns (seconds: seq<byte>)
    requires s != [] && s[0] == 58 && Digits(s[1..], 2, 2).Some? && Digits(s[1..], 2, 2).value.value <= 59
    ensures Two(seconds) && Number(seconds) <= 59 && s == [58] + seconds + Digits(s[1..], 2, 2).value.rest
  {
    seconds := TwoSound(s[1..]);
    assert s == [58] + s[1..];
  }

  lemma JoinMinutes(m: Minutes, rest: seq<byte>, s: seq<byte>)
    requires s == (if m.colon then [58] else []) + (m.digits + (SecondsText(m.seconds) + rest))
    ensures s == MinutesText(Some(m)) + rest
  {
    ThreeParts(if m.colon then [58] else [], m.digits, SecondsText(m.seconds), rest);
  }

  /** What follows the minutes: seconds, or not. */
  lemma AfterMinutes(rest: seq<byte>) returns (seconds: Option<seq<byte>>, last: seq<byte>)
    requires rest != [] && rest[0] == 58 ==> Digits(rest[1..], 2, 2).Some? && Digits(rest[1..], 2, 2).value.value <= 59
    ensures rest == SecondsText(seconds) + last && (seconds.Some? ==> Two(seconds.value) && Number(seconds.value) <= 59)
    ensures last == if rest == [] || rest[0] != 58 then rest else Digits(rest[1..], 2, 2).value.rest
  {
    if rest == [] || rest[0] != 58 {
      seconds, last := None, rest;
    } else {
      var ds := SecondsSound(rest);
      seconds, last := Some(ds), Digits(rest[1..], 2, 2).value.rest;
    }
  }

  lemma MinutesParts(sign: int, hours: nat, s: seq<byte>, t: seq<byte>) returns (rest: seq<byte>)
    requires s != [] && (s[0] == 58 || IsDigit(s[0])) && t == (if s[0] == 58 then s[1..] else s)
    requires ReadZoneMinutes(sign, hours, s).Some?
    ensures Digits(t, 2, 2).Some? && Digits(t, 2, 2).value.value <= 59 && rest == Digits(t, 2, 2).value.rest
    ensures rest != [] && rest[0] == 58 ==> Digits(rest[1..], 2, 2).Some? && Digits(rest[1..], 2, 2).value.value <= 59
    ensures ReadZoneMinutes(sign, hours, s).value.rest
            == if rest == [] || rest[0] != 58 then rest else Digits(rest[1..], 2, 2).value.rest
  {
    rest := Digits(t, 2, 2).value.rest;
  }

  lemma BuildMinutes(s: seq<byte>, t: seq<byte>, rest: seq<byte>) returns (m: Minutes, last: seq<byte>)
    requires s != [] && (s[0] == 58 || IsDigit(s[0])) && t == (if s[0] == 58 then s[1..] else s)
    requires Digits(t, 2, 2).Some? && Digits(t, 2, 2).value.value <= 59 && rest == Digits(t, 2, 2).value.rest
    requires rest != [] && rest[0] == 58 ==> Digits(rest[1..], 2, 2).Some? && Digits(rest[1..], 2, 2).value.value <= 59
    ensures MinutesOk(m) && Number(m.digits) <= 59 && ExtraSeconds(m) <= 59 && s == MinutesText(Some(m)) + last
    ensures last == if rest == [] || rest[0] != 58 then rest else Digits(rest[1..], 2, 2).value.rest
  {
    var ds := TwoSound(t);
    var seconds;
    seconds, last := AfterMinutes(rest);
    m := Minutes(s[0] == 58, ds, seconds);
    assert s == (if m.colon then [58] else []) + t;
    JoinMinutes(m, last, s);
  }

  lemma MinutesSound(sign: int, hours: nat, s: seq<byte>) returns (minutes: Option<Minutes>)
    requires ReadZoneMinutes(sign, hours, s).Some?
    ensures s == MinutesText(minutes) + ReadZoneMinutes(sign, hours, s).value.rest
    ensures minutes.Some? ==> MinutesOk(minutes.value) && Number(minutes.value.digits) <= 59
                              && ExtraSeconds(minutes.value) <= 59
  {
    if s == [] || (s[0] != 58 && !IsDigit(s[0])) {
      minutes := None;
    } else {
      var t := if s[0] == 58 then s[1..] else s;
      var rest := MinutesParts(sign, hours, s, t);
      var m, last := BuildMinutes(s, t, rest);
      minutes := Some(m);
    }
  }

  lemma OffsetSound(s: seq<byte>) returns (z: Offset)
    requires ReadZone(s).Some?
    ensures OffsetOk(z) && OffsetInRange(z) && s == OffsetText(z) + ReadZone(s).value.rest
  {
    if s == [] || (s[0] != 90 && s[0] != 122 && s[0] != 43 && s[0] != 45) {
      z := Local;
    } else if s[0] == 90 || s[0] == 122 {
      z := Zulu(s[0]);
      assert s == [s[0]] + s[1..];
    } else {
      var hours := TwoSound(s[1..]);
      var rest := Digits(s[1..], 2, 2).value.rest;
      var minutes := MinutesSound(if s[0] == 45 then -1 else 1, Number(hours), rest);
      z := Shift(s[0], hours, minutes);
      assert s == [s[0]] + s[1..];
      ThreeParts([s[0]], hours, MinutesText(minutes), ReadZone(s).value.rest);
    }
  }

  // ---- The whole --------------------------------------------------------------------------

  datatype Form = Form(sign: Option<byte>, cells: seq<Cell>, fraction: Option<seq<byte>>, zone: Offset, bc: bool)

  predicate SignOk(sign: Option<byte>) { sign.Some? ==> sign.value == 43 || sign.value == 45 }

  /** All but the fields. */
  predicate FrameOk(f: Form) { SignOk(f.sign) && PointOk(f.fraction) && OffsetOk(f.zone) }

  predicate FormOk(f: Form) { FrameOk(f) && AllFit(f.cells, FIELDS) }

  function BC(bc: bool): seq<byte> { if bc then [32, 66, 67] else [] }

  function SignText(sign: Option<byte>): seq<byte> { if sign.Some? then [sign.value] else [] }

  function FormTail(f: Form): seq<byte> { PointText(f.fraction) + (OffsetText(f.zone) + BC(f.bc)) }

  function FormText(f: Form): seq<byte> { SignText(f.sign) + (CellsText(f.cells) + FormTail(f)) }

  /** The year of the model, which has a year 0. */
  function YearOf(f: Form, printed: int): int {
    if f.bc then 1 - printed else if f.sign == Some(45) then -printed else printed
  }

  lemma TailText(f: Form)
    requires FrameOk(f)
    ensures var rest := OffsetText(f.zone) + BC(f.bc); Follows(rest) && (rest == [] || rest[0] != 46)
  {
  }

  lemma EraRead(f: Form, v: seq<nat>, micros: nat, offset: int)
    requires |v| == 6 && SignOk(f.sign)
    ensures ReadEra(f.sign.Some?, v[0] as int * (if f.sign == Some(45) then -1 else 1), v, micros, offset,
                    BC(f.bc))
            == if f.bc && (f.sign.Some? || v[0] == 0) then None else Stamped(YearOf(f, v[0]), v, micros, offset)
  {
  }

  lemma TailRead(f: Form, v: seq<nat>)
    requires FrameOk(f) && |v| == 6
    ensures ReadTail(f.sign.Some?, if f.sign == Some(45) then -1 else 1, v, FormTail(f))
            == if !OffsetInRange(f.zone) || (f.bc && (f.sign.Some? || v[0] == 0)) then None
               else Stamped(YearOf(f, v[0]), v, MicrosOf(f.fraction), Ahead(f.zone))
  {
    TailText(f);
    PointRead(f.fraction, OffsetText(f.zone) + BC(f.bc));
    OffsetRead(f.zone, BC(f.bc));
    EraRead(f, v, MicrosOf(f.fraction), Ahead(f.zone));
  }

  lemma {:induction false} ValuesCount(cs: seq<Cell>, fs: seq<Spec>)
    requires AllFit(cs, fs)
    ensures |ValuesOf(cs, fs)| == |fs|
    decreases |cs|
  {
    if cs != [] { ValuesCount(cs[1..], fs[1..]); }
  }

  lemma CellsStart(f: Form)
    requires FormOk(f)
    ensures var t := CellsText(f.cells) + FormTail(f); t != [] && IsDigit(t[0])
  {
    var t := CellsText(f.cells) + FormTail(f);
    assert Fits(f.cells[0], FIELDS[0]);
    assert t[0] == f.cells[0].digits[0];
  }

  lemma SignTaken(f: Form, s: seq<byte>, t: seq<byte>)
    requires FrameOk(f) && s == SignText(f.sign) + t && t != [] && IsDigit(t[0])
    ensures StartsSigned(s) == f.sign.Some? && (if f.sign.Some? then s[1..] else s) == t
    ensures f.sign.Some? ==> s[0] == f.sign.value
  {
  }

  lemma StampVia(s: seq<byte>, signed: bool, sign: int, body: seq<byte>, v: seq<nat>, rest: seq<byte>)
    requires StartsSigned(s) == signed && body == (if signed then s[1..] else s)
    requires sign == if signed && s[0] == 45 then -1 else 1
    requires ReadFields(FIELDS, body) == Some(Values(v, rest)) && |v| == 6
    ensures ReadStamp(s) == ReadTail(signed, sign, v, rest)
  {
  }

  /** What a text means, by the fields it has. */
  function Said(f: Form, v: seq<nat>): Option<Stamp>
    requires PointOk(f.fraction) && OffsetOk(f.zone) && |v| == 6
  {
    var d := Date(YearOf(f, v[0]), v[1], v[2]);
    if !OffsetInRange(f.zone) || (f.bc && (f.sign.Some? || v[0] == 0)) then None
    else if !Exists(d) || v[3] > 23 || v[4] > 59 || v[5] > 59 then None
    else Some(Stamp(d, ((v[3] * 60 + v[4]) * 60 + v[5]) * SECOND + MicrosOf(f.fraction) - Ahead(f.zone) * SECOND))
  }

  lemma StampedIs(year: int, v: seq<nat>, micros: nat, ahead: int)
    requires |v| == 6
    ensures Stamped(year, v, micros, ahead)
            == if !Exists(Date(year, v[1], v[2])) || v[3] > 23 || v[4] > 59 || v[5] > 59 then None
               else Some(Stamp(Date(year, v[1], v[2]),
                               ((v[3] * 60 + v[4]) * 60 + v[5]) * SECOND + micros - ahead * SECOND))
  {
  }

  lemma SaidBy(f: Form, v: seq<nat>, micros: nat, ahead: int)
    requires PointOk(f.fraction) && OffsetOk(f.zone) && |v| == 6
    requires micros == MicrosOf(f.fraction) && ahead == Ahead(f.zone)
    ensures Said(f, v) == if !OffsetInRange(f.zone) || (f.bc && (f.sign.Some? || v[0] == 0)) then None
                          else Stamped(YearOf(f, v[0]), v, micros, ahead)
  {
    StampedIs(YearOf(f, v[0]), v, micros, ahead);
  }

  lemma TailSays(f: Form, v: seq<nat>)
    requires FrameOk(f) && |v| == 6
    ensures ReadTail(f.sign.Some?, if f.sign == Some(45) then -1 else 1, v, FormTail(f)) == Said(f, v)
  {
    TailRead(f, v);
    SaidBy(f, v, MicrosOf(f.fraction), Ahead(f.zone));
  }

  lemma CellsFirst(f: Form, t: seq<byte>)
    requires FormOk(f) && t == CellsText(f.cells) + FormTail(f)
    ensures ReadFields(FIELDS, t) == Some(Values(ValuesOf(f.cells, FIELDS), FormTail(f)))
    ensures |ValuesOf(f.cells, FIELDS)| == 6 && t != [] && IsDigit(t[0])
  {
    CellsStart(f);
    CellsRead(f.cells, FIELDS, FormTail(f));
    ValuesCount(f.cells, FIELDS);
  }

  lemma ReadBy(f: Form, t: seq<byte>, v: seq<nat>)
    requires FrameOk(f) && t == CellsText(f.cells) + FormTail(f) && t != [] && IsDigit(t[0])
    requires ReadFields(FIELDS, t) == Some(Values(v, FormTail(f))) && |v| == 6
    ensures ReadStamp(FormText(f)) == Said(f, v)
  {
    SignTaken(f, FormText(f), t);
    StampVia(FormText(f), f.sign.Some?, if f.sign == Some(45) then -1 else 1, t, v, FormTail(f));
    TailSays(f, v);
  }

  /** The instant a text says, in UTC: what its clock says less what that is ahead. */
  function Meaning(f: Form): Option<Stamp>
    requires FormOk(f)
  {
    ValuesCount(f.cells, FIELDS);
    Said(f, ValuesOf(f.cells, FIELDS))
  }

  /** Every text of that form is read as what it means, or refused if it means nothing. */
  lemma FormIsRead(f: Form)
    requires FormOk(f)
    ensures ReadStamp(FormText(f)) == Meaning(f)
  {
    var t := CellsText(f.cells) + FormTail(f);
    CellsFirst(f, t);
    ReadBy(f, t, ValuesOf(f.cells, FIELDS));
  }

  lemma FieldsAreClear()
    ensures Clear(FIELDS)
  {
    assert Clear(FIELDS[6..]);
    assert Clear(FIELDS[5..]) by { assert FIELDS[5..][1..] == FIELDS[6..]; }
    assert Clear(FIELDS[4..]) by { assert FIELDS[4..][1..] == FIELDS[5..]; }
    assert Clear(FIELDS[3..]) by { assert FIELDS[3..][1..] == FIELDS[4..]; }
    assert Clear(FIELDS[2..]) by { assert FIELDS[2..][1..] == FIELDS[3..]; }
    assert Clear(FIELDS[1..]) by { assert FIELDS[1..][1..] == FIELDS[2..]; }
  }

  lemma TailSound(signed: bool, sign: int, v: seq<nat>, s: seq<byte>)
    returns (fraction: Option<seq<byte>>, z: Offset, bc: bool)
    requires |v| == 6 && ReadTail(signed, sign, v, s).Some?
    ensures PointOk(fraction) && OffsetOk(z) && s == PointText(fraction) + (OffsetText(z) + BC(bc))
  {
    fraction := PointSound(s);
    var rest := ReadMicros(s).value.rest;
    z := OffsetSound(rest);
    bc := ReadZone(rest).value.rest == [32, 66, 67];
  }

  lemma FieldsSound(t: seq<byte>, v: seq<nat>, rest: seq<byte>) returns (cs: seq<Cell>)
    requires ReadFields(FIELDS, t) == Some(Values(v, rest))
    ensures AllFit(cs, FIELDS) && t == CellsText(cs) + rest
  {
    FieldsAreClear();
    cs := CellsSound(FIELDS, t);
  }

  lemma StampParts(s: seq<byte>) returns (t: seq<byte>, v: seq<nat>, rest: seq<byte>)
    requires ReadStamp(s).Some?
    ensures t == if StartsSigned(s) then s[1..] else s
    ensures ReadFields(FIELDS, t) == Some(Values(v, rest)) && |v| == 6
    ensures ReadTail(StartsSigned(s), if StartsSigned(s) && s[0] == 45 then -1 else 1, v, rest).Some?
  {
    t := if StartsSigned(s) then s[1..] else s;
    var f := ReadFields(FIELDS, t).value;
    v, rest := f.values, f.rest;
  }

  /** And no other text is read. */
  lemma ReadIsForm(s: seq<byte>) returns (f: Form)
    requires ReadStamp(s).Some?
    ensures FormOk(f) && s == FormText(f)
  {
    var t, v, rest := StampParts(s);
    var cs := FieldsSound(t, v, rest);
    var fraction, z, bc := TailSound(StartsSigned(s), if StartsSigned(s) && s[0] == 45 then -1 else 1, v, rest);
    f := Form(if StartsSigned(s) then Some(s[0]) else None, cs, fraction, z, bc);
    assert s == SignText(f.sign) + t;
  }

  /** A text is read, as a certain date and time in UTC, if and only if it has the form and means
      that. */
  lemma ReadsExactly(s: seq<byte>, x: Stamp)
    ensures ReadStamp(s) == Some(x) <==> exists f :: FormOk(f) && FormText(f) == s && Meaning(f) == Some(x)
  {
    if ReadStamp(s) == Some(x) {
      var f := ReadIsForm(s);
      FormIsRead(f);
    }
    if f :| FormOk(f) && FormText(f) == s && Meaning(f) == Some(x) {
      FormIsRead(f);
    }
  }
}
