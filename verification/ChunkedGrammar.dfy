/** The chunked bodies there are, extensions and trailers included, and that the decoder takes
    exactly those. */
module ChunkedGrammar {
  import opened Arith
  import opened Chunked
  import opened ChunkedWriter
  import opened Wrappers

  // ---- The grammar ----------------------------------------------------------------

  /** A size in hex, and an extension if there is one. */
  datatype Line = Line(digits: seq<byte>, ext: Option<seq<byte>>)

  predicate LineOk(l: Line) {
    AllHex(l.digits) && 1 <= |l.digits| <= 15 && (l.ext.Some? ==> 13 !in l.ext.value)
  }

  function ExtText(ext: Option<seq<byte>>): seq<byte> { if ext.Some? then [59] + ext.value else [] }

  function LineText(l: Line): seq<byte> { l.digits + (ExtText(l.ext) + [13, 10]) }

  datatype Part = Part(line: Line, data: seq<byte>)

  predicate PartOk(p: Part) { LineOk(p.line) && p.data != [] && HexFold(0, p.line.digits) == |p.data| }

  function PartText(p: Part): seq<byte> { LineText(p.line) + (p.data + [13, 10]) }

  predicate PartsOk(ps: seq<Part>) { ps == [] || (PartOk(ps[0]) && PartsOk(ps[1..])) }

  function PartsText(ps: seq<Part>): seq<byte> { if ps == [] then [] else PartText(ps[0]) + PartsText(ps[1..]) }

  function DataOf(ps: seq<Part>): seq<byte> { if ps == [] then [] else ps[0].data + DataOf(ps[1..]) }

  /** A trailer field: one line that is not empty. Its carriage return, if any, is its own. */
  predicate FieldOk(f: seq<byte>) { f != [] && f[0] != 13 && 10 !in f }

  predicate FieldsOk(fs: seq<seq<byte>>) { fs == [] || (FieldOk(fs[0]) && FieldsOk(fs[1..])) }

  function FieldsText(fs: seq<seq<byte>>): seq<byte> { if fs == [] then [] else fs[0] + [10] + FieldsText(fs[1..]) }

  /** Chunks, the last of them, trailer fields, and an empty line to end it. */
  datatype Body = Body(parts: seq<Part>, last: Line, fields: seq<seq<byte>>, crlf: bool)

  function EndText(crlf: bool): seq<byte> { if crlf then [13, 10] else [10] }

  function TailText(fields: seq<seq<byte>>, crlf: bool): seq<byte> { FieldsText(fields) + EndText(crlf) }

  function Text(b: Body): seq<byte> { PartsText(b.parts) + (LineText(b.last) + TailText(b.fields, b.crlf)) }

  /** The trailers are within the limit. */
  predicate TailOk(fields: seq<seq<byte>>, seen: nat, max: int) {
    FieldsOk(fields) && (fields == [] || seen + |FieldsText(fields)| <= max)
  }

  predicate BodyOk(b: Body, max: int) {
    PartsOk(b.parts) && LineOk(b.last) && HexFold(0, b.last.digits) == 0 && TailOk(b.fields, 0, max)
  }

  /** Sixteen digits, ten of which come in two cases, and nothing else. */
  lemma HexValueIs(c: byte)
    ensures HexValue(c) < 16
    ensures HexValue(c) >= 0 <==> exists v: nat :: v < 16 && (c == HexDigit(v) || (v >= 10 && c == HexDigit(v) - 32))
    ensures forall v: nat :: v < 16 && (c == HexDigit(v) || (v >= 10 && c == HexDigit(v) - 32)) ==> HexValue(c) == v
  {
    if HexValue(c) >= 0 {
      var v: nat := HexValue(c);
      assert c == HexDigit(v) || (v >= 10 && c == HexDigit(v) - 32);
    }
  }

  // ---- Every such body is decoded ------------------------------------------------------

  lemma {:induction false} FeedExt(d: Decoder, s: seq<byte>)
    requires d.state == Ext && 13 !in s
    ensures Feeds(d, s, [], d)
    decreases |s|
  {
    if s != [] {
      FeedExt(d, s[1..]);
      FeedByte(d, s[0], d);
      FeedBoth(d, [s[0]], [], d, s[1..], [], d);
      assert s == [s[0]] + s[1..];
    }
  }

  /** What a size line leaves: data to come, or the trailers. */
  function Headed(d: Decoder, n: nat): Decoder {
    d.(state := if n == 0 then TrailerLine else Data, remaining := n, digits := 0)
  }

  lemma {:induction false} FeedExtText(d: Decoder, ext: Option<seq<byte>>)
    requires d.state == Size && d.digits > 0 && (ext.Some? ==> 13 !in ext.value)
    ensures Feeds(d, ExtText(ext) + [13, 10], [], Headed(d, d.remaining))
  {
    var next := Headed(d, d.remaining);
    if ext.None? {
      FeedLine(d, d.(state := SizeLF), next);
      assert [] + [13, 10] == [13, 10];
    } else {
      var e := d.(state := Ext);
      FeedByte(d, 59, e);
      FeedExt(e, ext.value);
      FeedBoth(d, [59], [], e, ext.value, [], e);
      FeedLine(e, d.(state := SizeLF), next);
      FeedBoth(d, [59] + ext.value, [], e, [13, 10], [], next);
    }
  }

  lemma {:induction false} FeedSizeLine(d: Decoder, l: Line)
    requires Fresh(d) && LineOk(l)
    ensures Feeds(d, LineText(l), [], Headed(d, HexFold(0, l.digits)))
  {
    var n := HexFold(0, l.digits);
    var sized := d.(remaining := n, digits := |l.digits|);
    FeedSize(d, l.digits);
    FeedExtText(sized, l.ext);
    FeedBoth(d, l.digits, [], sized, ExtText(l.ext) + [13, 10], [], Headed(d, n));
  }

  lemma {:induction false} FeedPart(d: Decoder, p: Part)
    requires Fresh(d) && PartOk(p)
    ensures Feeds(d, PartText(p), p.data, d.(decoded := d.decoded + |p.data|))
  {
    var c := p.data;
    var head, next := Headed(d, |c|), d.(decoded := d.decoded + |c|);
    FeedSizeLine(d, p.line);
    FeedData(head, c);
    FeedLine(DataTaken(head, |c|), next.(state := DataLF), next);
    FeedBoth(head, c, c, DataTaken(head, |c|), [13, 10], [], next);
    FeedBoth(d, LineText(p.line), [], head, c + [13, 10], c + [], next);
    assert [] + (c + []) == c;
  }

  lemma {:induction false} FeedParts(d: Decoder, ps: seq<Part>)
    requires Fresh(d) && PartsOk(ps)
    ensures Feeds(d, PartsText(ps), DataOf(ps), d.(decoded := d.decoded + |DataOf(ps)|))
    decreases |ps|
  {
    if ps != [] {
      var next := d.(decoded := d.decoded + |ps[0].data|);
      FeedPart(d, ps[0]);
      FeedParts(next, ps[1..]);
      FeedBoth(d, PartText(ps[0]), ps[0].data, next, PartsText(ps[1..]), DataOf(ps[1..]),
               d.(decoded := d.decoded + |DataOf(ps)|));
    }
  }

  lemma {:induction false} FeedSkip(d: Decoder, s: seq<byte>)
    requires d.state == TrailerSkip && 10 !in s && d.trailerSeen + |s| <= d.max
    ensures Feeds(d, s, [], Skipped(d, |s|))
    decreases |s|
  {
    if s != [] {
      FeedByte(d, s[0], Skipped(d, 1));
      FeedSkip(Skipped(d, 1), s[1..]);
      FeedBoth(d, [s[0]], [], Skipped(d, 1), s[1..], [], Skipped(d, |s|));
      assert s == [s[0]] + s[1..];
    }
  }

  lemma {:induction false} FeedField(d: Decoder, f: seq<byte>)
    requires d.state == TrailerLine && FieldOk(f) && d.trailerSeen + |f| + 1 <= d.max
    ensures Feeds(d, f + [10], [], Skipped(d, |f| + 1))
  {
    var e := Skipped(d, 1).(state := TrailerSkip);
    FeedByte(d, f[0], e);
    FeedSkip(e, f[1..]);
    FeedBoth(d, [f[0]], [], e, f[1..], [], Skipped(e, |f| - 1));
    assert f == [f[0]] + f[1..];
    FeedByte(Skipped(e, |f| - 1), 10, Skipped(d, |f| + 1));
    FeedBoth(d, f, [], Skipped(e, |f| - 1), [10], [], Skipped(d, |f| + 1));
  }

  lemma {:induction false} FeedFields(d: Decoder, fs: seq<seq<byte>>)
    requires d.state == TrailerLine && FieldsOk(fs) && (fs == [] || d.trailerSeen + |FieldsText(fs)| <= d.max)
    ensures Feeds(d, FieldsText(fs), [], Skipped(d, |FieldsText(fs)|))
    decreases |fs|
  {
    if fs != [] {
      var next := Skipped(d, |fs[0]| + 1);
      FeedField(d, fs[0]);
      FeedFields(next, fs[1..]);
      FeedBoth(d, fs[0] + [10], [], next, FieldsText(fs[1..]), [], Skipped(d, |FieldsText(fs)|));
    }
  }

  lemma FeedThen(d: Decoder, s: seq<byte>, body: seq<byte>, mid: Decoder, t: seq<byte>)
    requires Feeds(d, s, body, mid)
    ensures Run(d, s + t) == After(body, |s|, Run(mid, t))
  {
    Resumes(d, s, t);
  }

  lemma Assoc(a: seq<byte>, b: seq<byte>, c: seq<byte>)
    ensures a + b + c == a + (b + c)
  {
  }

  lemma AfterNothing(n: nat, r: Result)
    requires r.body == []
    ensures After([], n, r) == r.(consumed := n + r.consumed)
  {
  }

  lemma {:induction false} EndFinishes(d: Decoder, crlf: bool, rest: seq<byte>)
    requires d.state == TrailerLine
    ensures Run(d, EndText(crlf) + rest) == Result(Finished, d.(state := Done), [], |EndText(crlf)|)
  {
    if crlf {
      var e := d.(state := TrailerCR);
      FeedByte(d, 13, e);
      FeedThen(d, [13], [], e, [10] + rest);
      assert Run(e, [10] + rest) == Result(Finished, d.(state := Done), [], 1);
      assert EndText(true) + rest == [13] + ([10] + rest);
    } else {
      assert ([10] + rest)[0] == 10;
    }
  }

  lemma {:induction false} TailFinishes(d: Decoder, fs: seq<seq<byte>>, crlf: bool, rest: seq<byte>)
    requires d.state == TrailerLine && TailOk(fs, d.trailerSeen, d.max)
    ensures var r := Run(d, TailText(fs, crlf) + rest);
            r.outcome == Finished && r.body == [] && r.consumed == |TailText(fs, crlf)|
  {
    var mid := Skipped(d, |FieldsText(fs)|);
    FeedFields(d, fs);
    EndFinishes(mid, crlf, rest);
    FeedThen(d, FieldsText(fs), [], mid, EndText(crlf) + rest);
    AfterNothing(|FieldsText(fs)|, Run(mid, EndText(crlf) + rest));
    Assoc(FieldsText(fs), EndText(crlf), rest);
  }

  /** Whatever follows, a body is decoded to its data, all of it and nothing after it taken. */
  lemma BodyIsDecoded(b: Body, max: int, rest: seq<byte>)
    requires BodyOk(b, max)
    ensures Delivers(Run(Start(max), Text(b) + rest), DataOf(b.parts), |Text(b)|)
  {
    var d, data := Start(max), DataOf(b.parts);
    var e := d.(decoded := d.decoded + |data|);
    var parts, last, tail := PartsText(b.parts), LineText(b.last), TailText(b.fields, b.crlf);
    FeedParts(d, b.parts);
    FeedThen(d, parts, data, e, last + tail + rest);
    FeedSizeLine(e, b.last);
    FeedThen(e, last, [], Headed(e, 0), tail + rest);
    TailFinishes(Headed(e, 0), b.fields, b.crlf, rest);
    AfterNothing(|last|, Run(Headed(e, 0), tail + rest));
    Assoc(last, tail, rest);
    Assoc(parts, last + tail, rest);
    assert data + [] == data;
  }

  // ---- And nothing else is ---------------------------------------------------------------

  predicate Finishes(d: Decoder, s: seq<byte>) { Run(d, s).outcome.Finished? }

  /** `text` comes first in `s`, is taken with `body` handed on, and the rest finishes from `next`. */
  ghost predicate Leads(d: Decoder, s: seq<byte>, text: seq<byte>, body: seq<byte>, next: Decoder) {
    && |text| <= |s| && s[..|text|] == text && Finishes(next, s[|text|..])
    && Run(d, s) == After(body, |text|, Run(next, s[|text|..]))
  }

  lemma LeadsNone(d: Decoder, s: seq<byte>)
    requires Finishes(d, s)
    ensures Leads(d, s, [], [], d)
  {
    assert s[0..] == s;
    var r := Run(d, s);
    assert [] + r.body == r.body;
  }

  lemma LeadsOne(d: Decoder, s: seq<byte>, c: byte, next: Decoder)
    requires Finishes(d, s) && s != [] && s[0] == c && d.state != Done && next.state != Done
    requires Take(d, c) == Go(next, [])
    ensures Leads(d, s, [c], [], next)
  {
    assert s[..1] == [c];
  }

  lemma LeadsBoth(d: Decoder, s: seq<byte>, a: seq<byte>, x: seq<byte>, mid: Decoder, b: seq<byte>, y: seq<byte>,
                  next: Decoder)
    requires Leads(d, s, a, x, mid) && Leads(mid, s[|a|..], b, y, next)
    ensures Leads(d, s, a + b, x + y, next)
  {
    var t := s[|a|..];
    assert t[|b|..] == s[|a + b|..];
    assert s[..|a + b|] == s[..|a|] + t[..|b|];
    AfterAfter(x, |a|, y, |b|, Run(next, t[|b|..]));
  }

  lemma LeadsAs(d: Decoder, s: seq<byte>, a: seq<byte>, x: seq<byte>, mid: Decoder, b: seq<byte>, y: seq<byte>,
                next: Decoder, text: seq<byte>, body: seq<byte>)
    requires Leads(d, s, a, x, mid) && Leads(mid, s[|a|..], b, y, next) && text == a + b && body == x + y
    ensures Leads(d, s, text, body, next)
  {
    LeadsBoth(d, s, a, x, mid, b, y, next);
  }

  /** A line end that was due. */
  lemma LineEndSound(d: Decoder, s: seq<byte>, mid: Decoder, next: Decoder)
    requires Finishes(d, s) && d.state != Done && mid.state != Done && next.state != Done
    requires s != [] && s[0] == 13 && Take(d, 13) == Go(mid, [])
    requires forall c :: Take(mid, c) == Expect(c, 10, next)
    ensures Leads(d, s, [13, 10], [], next)
  {
    LeadsOne(d, s, 13, mid);
    var t := s[1..];
    assert s[|[13]|..] == t;
    assert t != [];
    assert Take(mid, t[0]) == Expect(t[0], 10, next);
    LeadsOne(mid, t, 10, next);
    LeadsBoth(d, s, [13], [], mid, [10], [], next);
    assert [13] + [10] == [13, 10];
  }

  lemma {:induction false} ExtSound(d: Decoder, s: seq<byte>) returns (ext: seq<byte>)
    requires d.state == Ext && Finishes(d, s)
    ensures 13 !in ext && Leads(d, s, ext + [13, 10], [], Headed(d, d.remaining))
    decreases |s|
  {
    var next := Headed(d, d.remaining);
    if s[0] == 13 {
      ext := [];
      LineEndSound(d, s, d.(state := SizeLF), next);
      assert [] + [13, 10] == [13, 10];
    } else {
      LeadsOne(d, s, s[0], d);
      var more := ExtSound(d, s[1..]);
      ext := [s[0]] + more;
      LeadsBoth(d, s, [s[0]], [], d, more + [13, 10], [], next);
      assert [s[0]] + (more + [13, 10]) == ext + [13, 10];
    }
  }

  /** A size line from its digits' end on. */
  lemma LineTailSound(d: Decoder, s: seq<byte>) returns (ext: Option<seq<byte>>)
    requires d.state == Size && Finishes(d, s) && s != [] && (s[0] == 13 || s[0] == 59)
    ensures d.digits > 0 && (ext.Some? ==> 13 !in ext.value)
    ensures Leads(d, s, ExtText(ext) + [13, 10], [], Headed(d, d.remaining))
  {
    var next := Headed(d, d.remaining);
    if s[0] == 13 {
      ext := None;
      LineEndSound(d, s, d.(state := SizeLF), next);
      assert [] + [13, 10] == [13, 10];
    } else {
      var e := d.(state := Ext);
      LeadsOne(d, s, 59, e);
      var x := ExtSound(e, s[1..]);
      ext := Some(x);
      LeadsBoth(d, s, [59], [], e, x + [13, 10], [], next);
      Assoc([59], x, [13, 10]);
    }
  }

  lemma DigitSound(d: Decoder, s: seq<byte>) returns (e: Decoder)
    requires d.state == Size && Finishes(d, s) && s != [] && s[0] != 13 && s[0] != 59
    ensures HexValue(s[0]) >= 0 && d.digits < 15
    ensures e == d.(remaining := 16 * d.remaining + HexValue(s[0]), digits := d.digits + 1)
    ensures Leads(d, s, [s[0]], [], e)
  {
    e := d.(remaining := 16 * d.remaining + HexValue(s[0]), digits := d.digits + 1);
    LeadsOne(d, s, s[0], e);
  }

  lemma OneDigitMore(c: byte, m: Line, acc: nat) returns (l: Line)
    requires HexValue(c) >= 0 && AllHex(m.digits)
    ensures l.ext == m.ext && |l.digits| == |m.digits| + 1 && LineText(l) == [c] + LineText(m)
    ensures AllHex(l.digits) && HexFold(acc, l.digits) == HexFold(16 * acc + HexValue(c), m.digits)
  {
    l := Line([c] + m.digits, m.ext);
    assert l.digits[1..] == m.digits;
    Assoc([c], m.digits, ExtText(m.ext) + [13, 10]);
  }

  lemma NoDigits(ext: Option<seq<byte>>)
    ensures LineText(Line([], ext)) == ExtText(ext) + [13, 10]
  {
  }

  /** The line `l` is read from `d` on, with the size so far taken up. */
  ghost predicate ReadsLine(d: Decoder, s: seq<byte>, l: Line) {
    && AllHex(l.digits) && 1 <= d.digits + |l.digits| <= 15 && (l.ext.Some? ==> 13 !in l.ext.value)
    && Leads(d, s, LineText(l), [], Headed(d, HexFold(d.remaining, l.digits)))
  }

  lemma DigitThenLine(d: Decoder, s: seq<byte>, e: Decoder, m: Line) returns (l: Line)
    requires s != [] && HexValue(s[0]) >= 0
    requires e == d.(remaining := 16 * d.remaining + HexValue(s[0]), digits := d.digits + 1)
    requires Leads(d, s, [s[0]], [], e) && ReadsLine(e, s[1..], m)
    ensures ReadsLine(d, s, l)
  {
    l := OneDigitMore(s[0], m, d.remaining);
    LeadsAs(d, s, [s[0]], [], e, LineText(m), [], Headed(e, HexFold(e.remaining, m.digits)), LineText(l), []);
  }

  lemma {:induction false} LineSound(d: Decoder, s: seq<byte>) returns (l: Line)
    requires d.state == Size && d.digits <= 15 && Finishes(d, s)
    ensures ReadsLine(d, s, l)
    decreases |s|
  {
    if s[0] == 13 || s[0] == 59 {
      var ext := LineTailSound(d, s);
      NoDigits(ext);
      l := Line([], ext);
    } else {
      var e := DigitSound(d, s);
      var m := LineSound(e, s[1..]);
      l := DigitThenLine(d, s, e, m);
    }
  }

  lemma DataSound(d: Decoder, s: seq<byte>) returns (data: seq<byte>)
    requires d.state == Data && d.remaining > 0 && d.digits == 0 && Finishes(d, s)
    ensures |data| == d.remaining
    ensures Leads(d, s, data + [13, 10], data, d.(state := Size, remaining := 0, decoded := d.decoded + |data|))
  {
    var k := Min(d.remaining, |s|);
    DataRun(d, s, k);
    data := s[..k];
    var mid := DataTaken(d, k);
    assert s[k..] != [];
    var next := d.(state := Size, remaining := 0, decoded := d.decoded + |data|);
    LineEndSound(mid, s[k..], mid.(state := DataLF), next);
    LeadsBoth(d, s, data, data, mid, [13, 10], [], next);
    assert data + [] == data;
  }

  lemma {:induction false} SkipSound(d: Decoder, s: seq<byte>) returns (f: seq<byte>)
    requires d.state == TrailerSkip && Finishes(d, s)
    ensures 10 !in f && d.trailerSeen + |f| + 1 <= d.max
    ensures Leads(d, s, f + [10], [], Skipped(d, |f| + 1).(state := TrailerLine))
    decreases |s|
  {
    var next := Skipped(d, 1);
    if s[0] == 10 {
      f := [];
      LeadsOne(d, s, 10, next.(state := TrailerLine));
      assert [] + [10] == [10];
    } else {
      LeadsOne(d, s, s[0], next);
      var more := SkipSound(next, s[1..]);
      f := [s[0]] + more;
      LeadsBoth(d, s, [s[0]], [], next, more + [10], [], Skipped(d, |f| + 1).(state := TrailerLine));
      Assoc([s[0]], more, [10]);
    }
  }

  lemma FieldSound(d: Decoder, s: seq<byte>) returns (f: seq<byte>)
    requires d.state == TrailerLine && Finishes(d, s) && s != [] && s[0] != 13 && s[0] != 10
    ensures FieldOk(f) && d.trailerSeen + |f| + 1 <= d.max && Leads(d, s, f + [10], [], Skipped(d, |f| + 1))
  {
    var e := Skipped(d, 1).(state := TrailerSkip);
    LeadsOne(d, s, s[0], e);
    var more := SkipSound(e, s[1..]);
    f := [s[0]] + more;
    LeadsBoth(d, s, [s[0]], [], e, more + [10], [], Skipped(d, |f| + 1));
    Assoc([s[0]], more, [10]);
  }

  /** `text` comes first in `s` and is all that is taken, with `body` handed on. */
  ghost predicate Ends(d: Decoder, s: seq<byte>, text: seq<byte>, body: seq<byte>) {
    |text| <= |s| && s[..|text|] == text && Delivers(Run(d, s), body, |text|)
  }

  lemma EndsAfter(d: Decoder, s: seq<byte>, a: seq<byte>, x: seq<byte>, mid: Decoder, b: seq<byte>, y: seq<byte>)
    requires Leads(d, s, a, x, mid) && Ends(mid, s[|a|..], b, y)
    ensures Ends(d, s, a + b, x + y)
  {
    assert s[..|a + b|] == s[..|a|] + s[|a|..][..|b|];
  }

  lemma EndSound(d: Decoder, s: seq<byte>) returns (crlf: bool)
    requires d.state == TrailerLine && Finishes(d, s) && s != [] && (s[0] == 13 || s[0] == 10)
    ensures Ends(d, s, EndText(crlf), [])
  {
    crlf := s[0] == 13;
    if crlf {
      var e := d.(state := TrailerCR);
      LeadsOne(d, s, 13, e);
      var t := s[1..];
      assert t != [] && t[0] == 10 && t[..1] == [10];
      EndsAfter(d, s, [13], [], e, [10], []);
      assert [13] + [10] == [13, 10];
    } else {
      assert s[..1] == [10];
    }
  }

  lemma {:induction false} TailSound(d: Decoder, s: seq<byte>) returns (fs: seq<seq<byte>>, crlf: bool)
    requires d.state == TrailerLine && Finishes(d, s)
    ensures TailOk(fs, d.trailerSeen, d.max) && Ends(d, s, TailText(fs, crlf), [])
    decreases |s|
  {
    if s[0] == 13 || s[0] == 10 {
      fs := [];
      crlf := EndSound(d, s);
      assert [] + EndText(crlf) == EndText(crlf);
    } else {
      var f := FieldSound(d, s);
      var next := Skipped(d, |f| + 1);
      var more;
      more, crlf := TailSound(next, s[|f + [10]|..]);
      fs := [f] + more;
      assert fs[1..] == more;
      EndsAfter(d, s, f + [10], [], next, TailText(more, crlf), []);
      Assoc(f + [10], FieldsText(more), EndText(crlf));
    }
  }

  lemma LineThenData(d: Decoder, s: seq<byte>, l: Line, head: Decoder, data: seq<byte>, next: Decoder)
    requires Leads(d, s, LineText(l), [], head) && Leads(head, s[|LineText(l)|..], data + [13, 10], data, next)
    ensures Leads(d, s, PartText(Part(l, data)), data, next)
  {
    assert [] + data == data;
    LeadsAs(d, s, LineText(l), [], head, data + [13, 10], data, next, PartText(Part(l, data)), data);
  }

  lemma PartSound(d: Decoder, s: seq<byte>, l: Line, head: Decoder, data: seq<byte>, next: Decoder) returns (p: Part)
    requires LineOk(l) && HexFold(0, l.digits) == |data| > 0
    requires Leads(d, s, LineText(l), [], head) && Leads(head, s[|LineText(l)|..], data + [13, 10], data, next)
    ensures PartOk(p) && p.data == data && Leads(d, s, PartText(p), data, next)
  {
    p := Part(l, data);
    LineThenData(d, s, l, head, data, next);
  }

  lemma PartThenBody(d: Decoder, s: seq<byte>, p: Part, next: Decoder, more: Body, max: int) returns (b: Body)
    requires PartOk(p) && Leads(d, s, PartText(p), p.data, next)
    requires BodyOk(more, max) && Ends(next, s[|PartText(p)|..], Text(more), DataOf(more.parts))
    ensures BodyOk(b, max) && Ends(d, s, Text(b), DataOf(b.parts))
  {
    b := more.(parts := [p] + more.parts);
    assert b.parts[1..] == more.parts;
    EndsAfter(d, s, PartText(p), p.data, next, Text(more), DataOf(more.parts));
    Assoc(PartText(p), PartsText(more.parts), LineText(b.last) + TailText(b.fields, b.crlf));
  }

  lemma LineThenTail(d: Decoder, s: seq<byte>, l: Line, next: Decoder, fs: seq<seq<byte>>, crlf: bool, max: int)
    returns (b: Body)
    requires LineOk(l) && HexFold(0, l.digits) == 0 && Leads(d, s, LineText(l), [], next) && TailOk(fs, 0, max)
    requires Ends(next, s[|LineText(l)|..], TailText(fs, crlf), [])
    ensures BodyOk(b, max) && Ends(d, s, Text(b), DataOf(b.parts))
  {
    b := Body([], l, fs, crlf);
    EndsAfter(d, s, LineText(l), [], next, TailText(fs, crlf), []);
    assert Text(b) == LineText(l) + TailText(fs, crlf);
  }

  lemma {:induction false} PartsSound(d: Decoder, s: seq<byte>) returns (b: Body)
    requires Fresh(d) && d.trailerSeen == 0 && Finishes(d, s)
    ensures BodyOk(b, d.max) && Ends(d, s, Text(b), DataOf(b.parts))
    decreases |s|
  {
    var l := LineSound(d, s);
    if HexFold(0, l.digits) == 0 {
      var fs, crlf := TailSound(Headed(d, 0), s[|LineText(l)|..]);
      b := LineThenTail(d, s, l, Headed(d, 0), fs, crlf, d.max);
    } else {
      var head := Headed(d, HexFold(0, l.digits));
      var data := DataSound(head, s[|LineText(l)|..]);
      var next := d.(decoded := d.decoded + |data|);
      var p := PartSound(d, s, l, head, data, next);
      var more := PartsSound(next, s[|PartText(p)|..]);
      b := PartThenBody(d, s, p, next, more, d.max);
    }
  }

  /** The decoder finishes on exactly the inputs that begin with a chunked body, takes that much
      of them, and hands on the data of its chunks. */
  lemma DecodesExactly(max: int, s: seq<byte>)
    ensures Run(Start(max), s).outcome == Finished <==> exists b :: BodyOk(b, max) && Text(b) <= s
    ensures forall b :: BodyOk(b, max) && Text(b) <= s ==> Delivers(Run(Start(max), s), DataOf(b.parts), |Text(b)|)
  {
    forall b | BodyOk(b, max) && Text(b) <= s
      ensures Delivers(Run(Start(max), s), DataOf(b.parts), |Text(b)|) {
      BodyIsDecoded(b, max, s[|Text(b)|..]);
      assert Text(b) + s[|Text(b)|..] == s;
    }
    if Finishes(Start(max), s) {
      var b := PartsSound(Start(max), s);
      assert Text(b) <= s;
    }
  }
}
