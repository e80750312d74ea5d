/** The decoding loop over one read, as an object that keeps its state between reads. */
module ChunkedLoop {
  import opened Arith
  import opened Wrappers
  import opened Chunked

  /** What is left of a call after `i` bytes: the rest of the read, for the decoder as
      it stands. */
  ghost predicate Left(all: Result, base: seq<byte>, body: seq<byte>, i: nat, d: Decoder) {
    i <= |base| && all == After(body, i, Run(d, base[i..]))
  }

  lemma {:induction false} LeftStep(all: Result, base: seq<byte>, body: seq<byte>, i: nat, d: Decoder,
                                    run: seq<byte>, n: nat, next: Decoder)
    requires Left(all, base, body, i, d) && i + n <= |base|
    requires Run(d, base[i..]) == After(run, n, Run(next, base[i..][n..]))
    ensures Left(all, base, body + run, i + n, next)
  {
    assert base[i..][n..] == base[i + n..];
    AfterAfter(body, i, run, n, Run(next, base[i + n..]));
  }

  lemma {:induction false} LeftByte(all: Result, base: seq<byte>, body: seq<byte>, i: nat, d: Decoder, next: Decoder)
    requires Left(all, base, body, i, d) && i < |base| && d.state != Done && next.state != Done
    requires Take(d, base[i]) == Go(next, [])
    ensures Left(all, base, body, i + 1, next)
  {
    LeftStep(all, base, body, i, d, [], 1, next);
    assert body + [] == body;
  }

  lemma {:induction false} LeftFails(all: Result, base: seq<byte>, body: seq<byte>, i: nat, d: Decoder, error: Error)
    requires Left(all, base, body, i, d) && i < |base| && d.state != Done && Take(d, base[i]) == Fail(error)
    ensures all.outcome == Failure(error) && all.body == body
  {
    assert body + [] == body;
  }

  lemma {:induction false} LeftFinishes(all: Result, base: seq<byte>, body: seq<byte>, i: nat, d: Decoder,
                                        next: Decoder)
    requires Left(all, base, body, i, d) && i < |base| && d.state != Done && next.state == Done
    requires Take(d, base[i]) == Go(next, [])
    ensures all == Result(Finished, next, body, i + 1)
  {
    assert body + [] == body;
  }

  lemma {:induction false} LeftStarts(d: Decoder, base: seq<byte>)
    ensures Left(Run(d, base), base, [], 0, d)
  {
    assert base[0..] == base && [] + Run(d, base).body == Run(d, base).body;
  }

  lemma {:induction false} LeftEnds(all: Result, base: seq<byte>, body: seq<byte>, i: nat, d: Decoder)
    requires Left(all, base, body, i, d) && i == |base|
    ensures all == Result(NeedMore, d, body, i)
  {
    assert base[i..] == [] && body + [] == body;
  }

  lemma {:induction false} LeftDone(all: Result, base: seq<byte>, body: seq<byte>, i: nat, d: Decoder)
    requires Left(all, base, body, i, d) && i < |base| && d.state == Done
    ensures all == Result(Finished, d, body, i)
  {
    assert body + [] == body;
  }

  /** A line that is not empty is a field, of which nothing is taken yet. */
  lemma {:induction false} LineIsField(all: Result, base: seq<byte>, body: seq<byte>, i: nat, d: Decoder)
    requires Left(all, base, body, i, d) && i < |base| && d.state == TrailerLine && base[i] != 13 && base[i] != 10
    ensures Left(all, base, body, i, d.(state := TrailerSkip))
  {
    assert Take(d, base[i]) == Take(d.(state := TrailerSkip), base[i]);
  }

  lemma {:induction false} WithoutIndex(s: seq<byte>, k: nat, c: byte)
    requires k <= |s| && forall j :: 0 <= j < k ==> s[j] != c
    ensures Without(s, k, c)
    decreases k
  {
    if k > 0 { WithoutIndex(s[1..], k - 1, c); }
  }

  /** The first place of a byte, or -1. */
  method FindByte(s: seq<byte>, needle: byte) returns (at: int)
    ensures at == -1 || 0 <= at < |s|
    ensures if at == -1 then Without(s, |s|, needle) else s[at] == needle && Without(s, at, needle)
  {
    at := 0;
    while at < |s|
      invariant 0 <= at <= |s| && forall j :: 0 <= j < at ==> s[j] != needle
    {
      if s[at] == needle {
        WithoutIndex(s, at, needle);
        return;
      }
      at := at + 1;
    }
    WithoutIndex(s, |s|, needle);
    at := -1;
  }

  lemma {:induction false} WithoutLess(s: seq<byte>, k: nat, c: byte)
    requires 0 < k <= |s| && Without(s, k, c)
    ensures Without(s, k - 1, c)
    decreases k
  {
    if k > 1 { WithoutLess(s[1..], k - 1, c); }
  }

  /** One byte more after a run of `k`. */
  lemma {:induction false} ByteAfter(d: Decoder, s: seq<byte>, k: nat, mid: Decoder, next: Decoder)
    requires k < |s| && Run(d, s) == After([], k, Run(mid, s[k..]))
    requires mid.state != Done && next.state != Done && Take(mid, s[k]) == Go(next, [])
    ensures Run(d, s) == After([], k + 1, Run(next, s[k + 1..]))
  {
    assert s[k..][1..] == s[k + 1..];
    AfterAfter([], k, [], 1, Run(next, s[k + 1..]));
  }

  /** Up to the line end, or the end of the read. */
  lemma {:induction false} ExtensionTaken(d: Decoder, s: seq<byte>, at: int, take: nat)
    requires d.state == Ext && s != [] && -1 <= at < |s| && take == (if at < 0 then |s| else at + 1)
    requires if at < 0 then Without(s, |s|, 13) else s[at] == 13 && Without(s, at, 13)
    ensures Run(d, s) == After([], take, Run(if at < 0 then d else d.(state := SizeLF), s[take..]))
  {
    if at < 0 {
      ExtRun(d, s, |s|);
    } else {
      ExtRun(d, s, at);
      ByteAfter(d, s, at, d, d.(state := SizeLF));
    }
  }

  function FieldDone(d: Decoder, take: nat, ended: bool): Decoder {
    d.(trailerSeen := d.trailerSeen + take, state := if ended then TrailerLine else TrailerSkip)
  }

  /** A whole run of a field, up to what ends it or the end of the read. */
  lemma {:induction false} FieldTaken(d: Decoder, s: seq<byte>, at: int, take: nat)
    requires d.state == TrailerSkip && s != [] && -1 <= at < |s| && take == (if at < 0 then |s| else at + 1)
    requires if at < 0 then Without(s, |s|, 10) else s[at] == 10 && Without(s, at, 10)
    ensures if d.trailerSeen + take > d.max then Run(d, s).outcome == Failure(HeadTooLarge) && Run(d, s).body == []
            else Run(d, s) == After([], take, Run(FieldDone(d, take, at >= 0), s[take..]))
  {
    if d.trailerSeen + take > d.max {
      if at < 0 { WithoutLess(s, take, 10); }
      SkipFails(d, s, take - 1);
    } else if at < 0 {
      SkipRun(d, s, take);
    } else {
      SkipRun(d, s, at);
      ByteAfter(d, s, at, Skipped(d, at), FieldDone(d, take, true));
    }
  }

  class ChunkedDecoder {
    var state: State
    var remaining: nat
    var digits: nat
    var decoded: nat
    var trailerSeen: nat
    const max: int

    function Value(): Decoder
      reads this
    {
      Decoder(state, remaining, digits, decoded, trailerSeen, max)
    }

    /** There is some of a chunk left while its data is read. */
    predicate Valid()
      reads this
    {
      state == Data ==> remaining > 0
    }

    constructor (max: int)
      ensures Valid() && Value() == Start(max)
    {
      state, remaining, digits, decoded, trailerSeen := Size, 0, 0, 0, 0;
      this.max := max;
    }

    /** The states that take one byte. */
    method TakeByte(c: byte) returns (error: Option<Error>)
      requires Valid() && state in {Size, SizeLF, DataCR, DataLF, TrailerCR}
      modifies this`state, this`remaining, this`digits
      ensures Valid()
      ensures Take(old(Value()), c) == if error.None? then Go(Value(), []) else Fail(error.value)
    {
      error := None;
      match state {
        case Size =>
          error := TakeSize(c);
        case SizeLF =>
          if c != 10 { return Some(BadChunk); }
          digits := 0;
          state := if remaining == 0 then TrailerLine else Data;
        case DataCR =>
          if c != 13 { return Some(BadChunk); }
          state := DataLF;
        case DataLF =>
          if c != 10 { return Some(BadChunk); }
          state := Size;
        case TrailerCR =>
          if c != 10 { return Some(BadChunk); }
          state := Done;
      }
    }

    method TakeSize(c: byte) returns (error: Option<Error>)
      requires state == Size
      modifies this`state, this`remaining, this`digits
      ensures Take(old(Value()), c) == if error.None? then Go(Value(), []) else Fail(error.value)
      ensures state != Data
    {
      if c == 13 {
        if digits == 0 { return Some(BadChunk); }
        state := SizeLF;
      } else if c == 59 {
        if digits == 0 { return Some(BadChunk); }
        state := Ext;
      } else {
        var v := HexValue(c);
        if v < 0 { return Some(BadChunk); }
        if digits >= 15 { return Some(BadChunk); }
        remaining := 16 * remaining + v;
        digits := digits + 1;
      }
      return None;
    }

    /** Extensions are skipped up to the line end. */
    method SkipExtension(s: seq<byte>) returns (take: nat)
      requires state == Ext && s != []
      modifies this`state
      ensures 0 < take <= |s| && (state == Ext || state == SizeLF)
      ensures Run(old(Value()), s) == After([], take, Run(Value(), s[take..]))
    {
      var at := FindByte(s, 13);
      take := if at < 0 then |s| else at + 1;
      ExtensionTaken(Value(), s, at, take);
      if at >= 0 { state := SizeLF; }
    }

    /** As much of the chunk as there is, handed on as it lies. */
    method TakeData(s: seq<byte>) returns (take: nat)
      requires Valid() && state == Data && s != []
      modifies this`state, this`remaining, this`decoded
      ensures Valid() && 0 < take <= |s| && take <= old(remaining) && (take < |s| ==> take == old(remaining))
      ensures Value() == DataTaken(old(Value()), take)
    {
      take := if |s| < remaining then |s| else remaining;
      decoded := decoded + take;
      remaining := remaining - take;
      if remaining == 0 { state := DataCR; }
    }

    /** A trailer field is skipped up to the byte that ends it, within the limit. */
    method SkipField(s: seq<byte>) returns (ok: bool, take: nat, at: int)
      requires state == TrailerSkip && s != []
      modifies this`state, this`trailerSeen
      ensures -1 <= at < |s| && take == (if at < 0 then |s| else at + 1)
      ensures if at < 0 then Without(s, |s|, 10) else s[at] == 10 && Without(s, at, 10)
      ensures ok == (old(trailerSeen) + take <= max)
      ensures ok ==> Value() == FieldDone(old(Value()), take, at >= 0)
      ensures !ok ==> state == TrailerSkip
    {
      at := FindByte(s, 10);
      take := if at < 0 then |s| else at + 1;
      trailerSeen := trailerSeen + take;
      ok := trailerSeen <= max;
      if ok && at >= 0 { state := TrailerLine; }
    }

    /** Takes as much of a read as it can. On failure the count given is left as it was. */
    method Decode(base: seq<byte>, before: nat) returns (outcome: Outcome, consumed: nat, body: seq<byte>)
      requires Valid()
      modifies this
      ensures Valid()
      ensures outcome == Run(old(Value()), base).outcome && body == Run(old(Value()), base).body
      ensures outcome.Failure? ==> consumed == before
      ensures !outcome.Failure? ==> consumed == Run(old(Value()), base).consumed
      ensures !outcome.Failure? ==> Value() == Run(old(Value()), base).next
    {
      ghost var all := Run(Value(), base);
      var i: nat := 0;
      body, consumed := [], before;
      LeftStarts(Value(), base);
      while i < |base|
        invariant Valid() && consumed == before && Left(all, base, body, i, Value())
        decreases |base| - i, if state == TrailerLine then 1 else 0
      {
        if state == Done {
          LeftDone(all, base, body, i, Value());
          return Finished, i, body;
        } else if state == Data {
          body, i := Body(base, i, all, body);
        } else {
          var stop;
          stop, i := Other(base, i, all, body);
          match stop {
            case NeedMore =>
            case Finished => return Finished, i, body;
            case Failure(e) => return Failure(e), consumed, body;
          }
        }
      }
      LeftEnds(all, base, body, i, Value());
      return NeedMore, i, body;
    }

    /** The state that hands bytes on. */
    method Body(base: seq<byte>, i: nat, ghost all: Result, body: seq<byte>) returns (more: seq<byte>, next: nat)
      requires Valid() && state == Data && i < |base| && Left(all, base, body, i, Value())
      modifies this`state, this`remaining, this`decoded
      ensures Valid() && next > i && Left(all, base, more, next, Value())
    {
      ghost var d := Value();
      var take := TakeData(base[i..]);
      DataRun(d, base[i..], take);
      LeftStep(all, base, body, i, d, base[i..][..take], take, Value());
      more, next := body + base[i..][..take], i + take;
    }

    /** The states that hand nothing on. */
    method Other(base: seq<byte>, i: nat, ghost all: Result, ghost body: seq<byte>) returns (stop: Outcome, next: nat)
      requires Valid() && state != Data && state != Done && i < |base| && Left(all, base, body, i, Value())
      modifies this
      ensures Valid()
      ensures match stop
              case NeedMore => Left(all, base, body, next, Value())
                               && (next > i || (next == i && old(state) == TrailerLine && state != TrailerLine))
              case Finished => all == Result(Finished, Value(), body, next)
              case Failure(e) => all.outcome == Failure(e) && all.body == body
    {
      ghost var d := Value();
      if state == Ext {
        var take := SkipExtension(base[i..]);
        LeftStep(all, base, body, i, d, [], take, Value());
        assert body + [] == body;
        stop, next := NeedMore, i + take;
      } else if state == TrailerSkip {
        stop, next := Field(base, i, all, body);
      } else if state == TrailerLine {
        stop, next := Line(base, i, all, body);
      } else {
        var error := TakeByte(base[i]);
        stop, next := Judge(base, i, error, all, body, d);
      }
    }

    /** After one byte taken or refused. */
    method Judge(base: seq<byte>, i: nat, error: Option<Error>, ghost all: Result, ghost body: seq<byte>,
                 ghost d: Decoder)
      returns (stop: Outcome, next: nat)
      requires i < |base| && Left(all, base, body, i, d) && d.state != Done
      requires Take(d, base[i]) == if error.None? then Go(Value(), []) else Fail(error.value)
      ensures match stop
              case NeedMore => next == i + 1 && Left(all, base, body, next, Value())
              case Finished => all == Result(Finished, Value(), body, next)
              case Failure(e) => all.outcome == Failure(e) && all.body == body
    {
      if error.Some? {
        LeftFails(all, base, body, i, d, error.value);
        return Failure(error.value), i;
      }
      if state == Done {
        LeftFinishes(all, base, body, i, d, Value());
        return Finished, i + 1;
      }
      LeftByte(all, base, body, i, d, Value());
      return NeedMore, i + 1;
    }

    method Field(base: seq<byte>, i: nat, ghost all: Result, ghost body: seq<byte>) returns (stop: Outcome, next: nat)
      requires state == TrailerSkip && i < |base| && Left(all, base, body, i, Value())
      modifies this`state, this`trailerSeen
      ensures state != Data
      ensures match stop
              case NeedMore => next > i && Left(all, base, body, next, Value())
              case Finished => false
              case Failure(e) => all.outcome == Failure(e) && all.body == body
    {
      ghost var d := Value();
      var ok, take, at := SkipField(base[i..]);
      FieldTaken(d, base[i..], at, take);
      assert body + [] == body;
      if !ok { return Failure(HeadTooLarge), i; }
      LeftStep(all, base, body, i, d, [], take, Value());
      return NeedMore, i + take;
    }

    /** A line begins: it has no bytes and closes the trailers, or it is a field. */
    method Line(base: seq<byte>, i: nat, ghost all: Result, ghost body: seq<byte>) returns (stop: Outcome, next: nat)
      requires state == TrailerLine && i < |base| && Left(all, base, body, i, Value())
      modifies this`state
      ensures state != Data
      ensures match stop
              case NeedMore => Left(all, base, body, next, Value()) && (next > i || (next == i && state != TrailerLine))
              case Finished => all == Result(Finished, Value(), body, next)
              case Failure(e) => all.outcome == Failure(e) && all.body == body
    {
      ghost var d := Value();
      if base[i] == 13 {
        state := TrailerCR;
        stop, next := Judge(base, i, None, all, body, d);
      } else if base[i] == 10 {
        state := Done;
        stop, next := Judge(base, i, None, all, body, d);
      } else {
        LineIsField(all, base, body, i, d);
        state := TrailerSkip;
        stop, next := NeedMore, i;
      }
    }
  }
}
