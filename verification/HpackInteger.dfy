/** HPACK's prefixed integers: section 5.1 of RFC 7541, with the reader's limits. */
module HpackInteger {
  import opened Arith

  datatype Error = Truncated | Overflow
  datatype Result = Ok(value: nat, cursor: nat) | Err(error: Error)

  function Mask(prefixBits: nat): nat
    requires 1 <= prefixBits <= 8
  {
    if prefixBits == 1 then 1 else if prefixBits == 2 then 3 else if prefixBits == 3 then 7
    else if prefixBits == 4 then 15 else if prefixBits == 5 then 31 else if prefixBits == 6 then 63
    else if prefixBits == 7 then 127 else 255
  }

  // ---- Writing -------------------------------------------------------------------

  /** Seven bits at a time, lowest first, the high bit set on all but the last. */
  function Septets(rest: nat): seq<byte> {
    if rest < 0x80 then [rest] else [rest % 0x80 + 0x80] + Septets(rest / 0x80)
  }

  /** `flags` are the bits above the prefix. */
  function Write(value: nat, prefixBits: nat, flags: nat): seq<byte>
    requires 1 <= prefixBits <= 8 && flags + Mask(prefixBits) < 256
  {
    var mask := Mask(prefixBits);
    if value < mask then [flags + value] else [flags + mask] + Septets(value - mask)
  }

  method WriteLoop(value: nat, prefixBits: nat, flags: nat) returns (out: seq<byte>)
    requires 1 <= prefixBits <= 8 && flags + Mask(prefixBits) < 256
    ensures out == Write(value, prefixBits, flags)
  {
    var mask := Mask(prefixBits);
    if value < mask { return [flags + value]; }
    out := [flags + mask];
    var rest := value - mask;
    while rest >= 0x80
      invariant 0 <= rest && out + Septets(rest) == Write(value, prefixBits, flags)
    {
      assert out + Septets(rest) == out + [rest % 0x80 + 0x80] + Septets(rest / 0x80);
      out := out + [rest % 0x80 + 0x80];
      rest := rest / 0x80;
    }
    out := out + [rest];
  }

  // ---- Reading -------------------------------------------------------------------

  /** From `cursor` on, with `value` so far and this shift. */
  function More(s: seq<byte>, cursor: nat, value: nat, shift: nat): Result
    decreases |s| - cursor
  {
    if cursor >= |s| then Err(Truncated)
    else if shift > 21 then Err(Overflow)
    else
      var next := value + s[cursor] % 0x80 * Scale(shift);
      if next > 0x4000_0000 then Err(Overflow)
      else if s[cursor] < 0x80 then Ok(next, cursor + 1)
      else More(s, cursor + 1, next, shift + 7)
  }

  function Scale(shift: nat): nat {
    if shift == 0 then 1 else if shift == 7 then 0x80 else if shift == 14 then 0x4000
    else if shift == 21 then 0x20_0000 else 0x1000_0000
  }

  /** `prefix` is the first byte without the bits above the prefix. */
  function Read(s: seq<byte>, cursor: nat, prefixBits: nat): Result
    requires 1 <= prefixBits <= 8
  {
    if cursor >= |s| then Err(Truncated)
    else
      var mask := Mask(prefixBits);
      var value := s[cursor] % (mask + 1);
      if value < mask then Ok(value, cursor + 1) else More(s, cursor + 1, value, 0)
  }

  method ReadLoop(s: seq<byte>, start: nat, prefixBits: nat) returns (r: Result)
    requires 1 <= prefixBits <= 8
    ensures r == Read(s, start, prefixBits)
  {
    var cursor := start;
    if cursor >= |s| { return Err(Truncated); }
    var mask := Mask(prefixBits);
    var value: nat := s[cursor] % (mask + 1);
    cursor := cursor + 1;
    if value < mask { return Ok(value, cursor); }
    var shift := 0;
    while true
      invariant 0 <= shift <= 28 && cursor <= |s|
      invariant shift % 7 == 0
      invariant More(s, cursor, value, shift) == Read(s, start, prefixBits)
      decreases |s| - cursor
    {
      if cursor >= |s| { return Err(Truncated); }
      var b := s[cursor];
      cursor := cursor + 1;
      if shift > 21 { return Err(Overflow); }
      value := value + b % 0x80 * Scale(shift);
      if value > 0x4000_0000 { return Err(Overflow); }
      if b < 0x80 { return Ok(value, cursor); }
      shift := shift + 7;
    }
  }

  // ---- Round trip ------------------------------------------------------------------

  /** The septets of `rest` read back from shift `shift`, if they are not too many. */
  predicate Short(rest: nat, shift: nat) {
    shift <= 21 && (rest < 0x80 || Short(rest / 0x80, shift + 7))
  }

  lemma ShortIs(rest: nat)
    ensures Short(rest, 0) <==> rest < 0x1000_0000
    ensures Short(rest, 7) <==> rest < 0x20_0000
    ensures Short(rest, 14) <==> rest < 0x4000
    ensures Short(rest, 21) <==> rest < 0x80
  {
    assert Short(rest / 0x80 / 0x80 / 0x80, 21) <==> rest / 0x80 / 0x80 / 0x80 < 0x80;
    assert Short(rest / 0x80 / 0x80, 21) <==> rest / 0x80 / 0x80 < 0x80;
    assert Short(rest / 0x80, 21) <==> rest / 0x80 < 0x80;
    assert Short(rest / 0x80 / 0x80, 14) <==> rest / 0x80 / 0x80 < 0x4000;
    assert Short(rest / 0x80, 14) <==> rest / 0x80 < 0x4000;
    assert Short(rest / 0x80, 7) <==> rest / 0x80 < 0x20_0000;
  }

  lemma ScaleStep(rest: nat, shift: nat)
    requires shift in {0, 7, 14, 21}
    ensures rest * Scale(shift) == rest % 0x80 * Scale(shift) + rest / 0x80 * Scale(shift + 7)
    ensures 0x80 * Scale(shift) == Scale(shift + 7) <= 0x1000_0000
  {
  }

  /** Four septets are read back; a fifth is one too many. */
  lemma {:induction false} SeptetsRead(pre: seq<byte>, rest: nat, more: seq<byte>, value: nat, shift: nat)
    requires shift in {0, 7, 14, 21, 28} && value < 256 + Scale(shift)
    ensures var s := pre + Septets(rest) + more;
            More(s, |pre|, value, shift) ==
            if Short(rest, shift) then Ok(value + rest * Scale(shift), |pre + Septets(rest)|) else Err(Overflow)
    decreases rest
  {
    var s := pre + Septets(rest) + more;
    assert s[|pre|] == Septets(rest)[0];
    if shift < 28 {
      ScaleStep(rest, shift);
      if rest >= 0x80 {
        var b := rest % 0x80 + 0x80;
        var next := value + rest % 0x80 * Scale(shift);
        SeptetsRead(pre + [b], rest / 0x80, more, next, shift + 7);
        assert pre + [b] + Septets(rest / 0x80) == pre + Septets(rest);
      }
    }
  }

  /** Reading what was written gives the value back exactly when what the prefix does
      not hold has at most 28 bits; otherwise it is refused. */
  lemma IntegerRoundTrip(pre: seq<byte>, value: nat, prefixBits: nat, flags: nat, more: seq<byte>)
    requires 1 <= prefixBits <= 8 && flags % (Mask(prefixBits) + 1) == 0 && flags + Mask(prefixBits) < 256
    ensures var written := Write(value, prefixBits, flags);
            Read(pre + written + more, |pre|, prefixBits) ==
            if value < Mask(prefixBits) + 0x1000_0000 then Ok(value, |pre + written|) else Err(Overflow)
  {
    var mask, written := Mask(prefixBits), Write(value, prefixBits, flags);
    var s := pre + written + more;
    assert s[|pre|] == written[0];
    if value < mask {
      LowBits(flags, value, mask + 1);
    } else {
      LowBits(flags, mask, mask + 1);
      ShortIs(value - mask);
      SeptetsRead(pre + [flags + mask], value - mask, more, mask, 0);
      assert pre + [flags + mask] + Septets(value - mask) == pre + written;
    }
  }

  lemma LowBits(flags: nat, v: nat, m: nat)
    requires m > 0 && v < m && flags % m == 0
    ensures (flags + v) % m == v
  {
    ModUnique(flags + v, m, flags / m, v);
  }

  /** A value the reader refuses though the writer wrote it. */
  lemma TooLongToRead()
    ensures Read(Write(0x1000_0000 + 127, 7, 0x80), 0, 7) == Err(Overflow)
  {
    var written := Write(0x1000_0000 + 127, 7, 0x80);
    IntegerRoundTrip([], 0x1000_0000 + 127, 7, 0x80, []);
    assert [] + written + [] == written;
  }
}
