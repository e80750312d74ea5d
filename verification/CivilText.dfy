/** Instants as text: what is written in any of the three layouts is read back. */
module CivilText {
  import opened Arith
  import opened Wrappers
  import opened CivilTime
  import opened DecimalText

  const SECOND := 1_000_000
  const DAY := 86_400_000_000

  datatype Layout = Iso8601 | Postgres | PostgresWithoutZone

  // ---- Writing -------------------------------------------------------------------

  datatype Moment = Moment(days: int, time: nat)

  /** The day and the microseconds into it, from a division that rounds toward zero. */
  function Split(t: int): Moment {
    QuotientBounds(if t < 0 then -t else t, DAY);
    var days, time := Quotient(t, DAY), Remainder(t, DAY);
    if time < 0 then Moment(days - 1, time + DAY) else Moment(days, time)
  }

  lemma SplitIs(t: int)
    ensures Split(t).days * DAY + Split(t).time == t && Split(t).time < DAY
  {
    QuotientBounds(if t < 0 then -t else t, DAY);
  }

  /** Before year 1 the PostgreSQL layouts count years back from 1 BC. */
  predicate IsBC(year: int, layout: Layout) { layout != Iso8601 && year <= 0 }

  /** The year as printed, without its sign. */
  function Printed(year: int, layout: Layout): nat {
    if IsBC(year, layout) then 1 - year else if year < 0 then -year else year
  }

  /** A number in at least `width` digits, and what is written after it. */
  datatype Piece = Piece(value: nat, width: nat, after: seq<byte>)

  function Pieces(ps: seq<Piece>): seq<byte> {
    if ps == [] then [] else Padded(ps[0].value, ps[0].width) + (ps[0].after + Pieces(ps[1..]))
  }

  predicate IsSigned(year: int, layout: Layout) { !IsBC(year, layout) && year < 0 }

  /** Date and clock, from the year to the seconds. */
  function Fields(d: Date, time: nat, layout: Layout): seq<Piece>
    requires Exists(d)
  {
    var seconds := time / SECOND;
    [Piece(Printed(d.year, layout), 4, [45]), Piece(d.month, 2, [45]),
     Piece(d.day, 2, [if layout == Iso8601 then 84 else 32]), Piece(seconds / 3600, 2, [58]),
     Piece(seconds / 60 % 60, 2, [58]), Piece(seconds % 60, 2, [])]
  }

  /** A fraction without the zeros it ends in. */
  function Trimmed(f: nat, width: nat): seq<byte> {
    if f % 10 == 0 && f > 0 && width > 0 then Trimmed(f / 10, width - 1) else Padded(f, width)
  }

  /** The loop that drops the zeros needs no look at the width it counts down. */
  method Trim(f: nat) returns (fraction: nat, width: nat)
    requires 0 < f < Power(10, 6)
    ensures fraction % 10 != 0 && Padded(fraction, width) == Trimmed(f, 6)
  {
    fraction, width := f, 6;
    while fraction % 10 == 0
      invariant 0 < fraction < Power(10, width) && Trimmed(fraction, width) == Trimmed(f, 6)
      decreases fraction
    {
      fraction := fraction / 10;
      width := width - 1;
    }
  }

  function FractionText(f: nat): seq<byte> { if f > 0 then [46] + Trimmed(f, 6) else [] }

  function ZoneText(layout: Layout): seq<byte> {
    match layout
    case Iso8601 => [90]
    case Postgres => [43, 48, 48]
    case PostgresWithoutZone => []
  }

  function EraText(year: int, layout: Layout): seq<byte> { if IsBC(year, layout) then [32, 66, 67] else [] }

  /** What follows the seconds. */
  function Tail(year: int, time: nat, layout: Layout): seq<byte> {
    FractionText(time % SECOND) + (ZoneText(layout) + EraText(year, layout))
  }

  function Written(d: Date, time: nat, layout: Layout): seq<byte>
    requires Exists(d)
  {
    (if IsSigned(d.year, layout) then [45] else []) + (Pieces(Fields(d, time, layout)) + Tail(d.year, time, layout))
  }

  function Format(t: int, layout: Layout): seq<byte> {
    var m := Split(t);
    DaysOfDate(m.days);
    Written(DateOf(m.days), m.time, layout)
  }

  // ---- Reading -------------------------------------------------------------------

  /** From `min` to `max` digits, and then one of some bytes, or nothing more. */
  datatype Spec = Spec(min: nat, max: nat, after: seq<byte>)

  /** Year, month, day, hour, minute, second. */
  const FIELDS := [Spec(4, 6, [45]), Spec(2, 2, [45]), Spec(2, 2, [84, 116, 32]),
                   Spec(2, 2, [58]), Spec(2, 2, [58]), Spec(2, 2, [])]

  datatype Values = Values(values: seq<nat>, rest: seq<byte>)

  function ReadFields(specs: seq<Spec>, s: seq<byte>): Option<Values>
    decreases |specs|
  {
    if specs == [] then Some(Values([], s))
    else
      var f, n := specs[0], Digits(s, specs[0].min, specs[0].max);
      if n.None? || (f.after != [] && (n.value.rest == [] || n.value.rest[0] !in f.after)) then None
      else
        var more := ReadFields(specs[1..], if f.after == [] then n.value.rest else n.value.rest[1..]);
        if more.None? then None else Some(more.value.(values := [n.value.value] + more.value.values))
  }

  /** After six digits the place is 0, and nothing is added. */
  function ReadFraction(s: seq<byte>, place: nat): Num
    decreases |s|
  {
    if s == [] || !IsDigit(s[0]) then Num(0, s)
    else
      var more := ReadFraction(s[1..], place / 10);
      Num((s[0] - 48) * place + more.value, more.rest)
  }

  /** What is left of a fraction after some of its digits. */
  ghost predicate Left(all: Num, micros: nat, s: seq<byte>, place: nat) {
    var more := ReadFraction(s, place);
    all == Num(micros + more.value, more.rest)
  }

  lemma {:induction false} DigitTaken(all: Num, micros: nat, s: seq<byte>, place: nat) returns (next: nat, less: nat)
    requires s != [] && IsDigit(s[0]) && Left(all, micros, s, place)
    ensures next == micros + (s[0] - 48) * place && less == place / 10 && Left(all, next, s[1..], less)
  {
    next, less := micros + (s[0] - 48) * place, place / 10;
  }

  /** The loop over the digits of a fraction, with its cursor. */
  method FractionLoop(bytes: seq<byte>, start: nat, first: nat) returns (micros: nat, i: nat)
    requires start <= |bytes|
    ensures start <= i <= |bytes| && ReadFraction(bytes[start..], first) == Num(micros, bytes[i..])
  {
    var place := first;
    micros, i := 0, start;
    while i < |bytes| && IsDigit(bytes[i])
      invariant start <= i <= |bytes| && Left(ReadFraction(bytes[start..], first), micros, bytes[i..], place)
    {
      ghost var next, less := DigitTaken(ReadFraction(bytes[start..], first), micros, bytes[i..], place);
      assert bytes[i..][1..] == bytes[i + 1..];
      micros := micros + (bytes[i] - 48) * place;
      place := place / 10;
      i := i + 1;
    }
  }

  /** A fraction, if a point says there is one. */
  function ReadMicros(s: seq<byte>): Option<Num> {
    if s == [] || s[0] != 46 then Some(Num(0, s))
    else
      var n := ReadFraction(s[1..], 100_000);
      if |n.rest| == |s| - 1 then None else Some(n)
  }

  datatype Zone = Zone(offset: int, rest: seq<byte>)

  /** `Z`, an offset with or without minutes and seconds, or nothing. */
  function ReadZone(s: seq<byte>): Option<Zone> {
    if s == [] then Some(Zone(0, s))
    else if s[0] == 90 || s[0] == 122 then Some(Zone(0, s[1..]))
    else if s[0] != 43 && s[0] != 45 then Some(Zone(0, s))
    else
      var hours := Digits(s[1..], 2, 2);
      if hours.None? || hours.value.value > 23 then None
      else ReadZoneMinutes(if s[0] == 45 then -1 else 1, hours.value.value, hours.value.rest)
  }

  function ReadZoneMinutes(sign: int, hours: nat, s: seq<byte>): Option<Zone> {
    if s == [] || (s[0] != 58 && !IsDigit(s[0])) then Some(Zone(sign * (hours * 3600), s))
    else
      var minutes := Digits(if s[0] == 58 then s[1..] else s, 2, 2);
      if minutes.None? || minutes.value.value > 59 then None
      else
        var rest := minutes.value.rest;
        if rest == [] || rest[0] != 58 then Some(Zone(sign * (hours * 3600 + minutes.value.value * 60), rest))
        else
          var seconds := Digits(rest[1..], 2, 2);
          if seconds.None? || seconds.value.value > 59 then None
          else Some(Zone(sign * (hours * 3600 + minutes.value.value * 60 + seconds.value.value), seconds.value.rest))
  }

  predicate StartsSigned(s: seq<byte>) { s != [] && (s[0] == 45 || s[0] == 43) }

  /** What a text says: a date that exists, and the microseconds from its midnight, in
      UTC, which an offset may put before it or past the next. */
  datatype Stamp = Stamp(date: Date, clock: int)

  function ReadStamp(s: seq<byte>): Option<Stamp> {
    var signed := StartsSigned(s);
    var f := ReadFields(FIELDS, if signed then s[1..] else s);
    if f.None? || |f.value.values| != 6 then None
    else ReadTail(signed, if signed && s[0] == 45 then -1 else 1, f.value.values, f.value.rest)
  }

  function ReadTail(signed: bool, sign: int, v: seq<nat>, s: seq<byte>): Option<Stamp>
    requires |v| == 6
  {
    var f := ReadMicros(s);
    if f.None? then None
    else
      var z := ReadZone(f.value.rest);
      if z.None? then None
      else ReadEra(signed, v[0] * sign, v, f.value.value, z.value.offset, z.value.rest)
  }

  /** Year n BC is year 1 - n of the model, which has a year 0; a sign and BC exclude each
      other. */
  function ReadEra(signed: bool, year: int, v: seq<nat>, micros: nat, offset: int, s: seq<byte>): Option<Stamp>
    requires |v| == 6
  {
    if s == [32, 66, 67] then (if signed || year < 1 then None else Stamped(1 - year, v, micros, offset))
    else if s != [] then None
    else Stamped(year, v, micros, offset)
  }

  function Stamped(year: int, v: seq<nat>, micros: nat, offset: int): Option<Stamp>
    requires |v| == 6
  {
    var d := Date(year, v[1], v[2]);
    if !Exists(d) || v[3] > 23 || v[4] > 59 || v[5] > 59 then None
    else Some(Stamp(d, (v[3] * 3600 + v[4] * 60 + v[5] - offset) * SECOND + micros))
  }

  /** A signed word of 64 bits. */
  predicate Word(n: int) { -0x8000_0000_0000_0000 <= n < 0x8000_0000_0000_0000 }

  /** Arithmetic on words stops the program when a result is none. */
  datatype Reading = Value(t: int) | Refused | Trap

  /** Days to microseconds, and the clock added to them. */
  function Instant(days: int, clock: int): Reading {
    if !Word(days * DAY) || !Word(days * DAY + clock) then Trap else Value(days * DAY + clock)
  }

  function Parse(s: seq<byte>): Reading {
    var r := ReadStamp(s);
    if r.None? then Refused else Instant(Days(r.value.date), r.value.clock)
  }
}
