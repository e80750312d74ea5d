/** The resumable decoder of chunked bodies: its loop, which takes whole runs at a
    time, against an automaton that takes one byte at a time. */
module Chunked {
  import opened Arith

  datatype State = Size | Ext | SizeLF | Data | DataCR | DataLF | TrailerLine | TrailerSkip | TrailerCR | Done

  datatype Error = BadChunk | HeadTooLarge

  datatype Outcome = NeedMore | Finished | Failure(error: Error)

  datatype Decoder = Decoder(state: State, remaining: nat, digits: nat, decoded: nat, trailerSeen: nat, max: int)

  function Start(max: int): Decoder { Decoder(Size, 0, 0, 0, 0, max) }

  function HexValue(c: byte): int {
    if 48 <= c <= 57 then c - 48 else if 97 <= c <= 102 then c - 87 else if 65 <= c <= 70 then c - 55 else -1
  }

  // ---- One byte at a time ----------------------------------------------------------

  datatype Step = Go(next: Decoder, body: seq<byte>) | Fail(error: Error)

  function OnSize(d: Decoder, c: byte): Step {
    if c == 13 || c == 59 then
      if d.digits == 0 then Fail(BadChunk) else Go(d.(state := if c == 13 then SizeLF else Ext), [])
    else if HexValue(c) < 0 || d.digits >= 15 then Fail(BadChunk)
    else Go(d.(remaining := 16 * d.remaining + HexValue(c), digits := d.digits + 1), [])
  }

  /** A byte of the body; the last of a chunk leaves its line end to come. */
  function OnData(d: Decoder, c: byte): Step {
    var left := if d.remaining > 0 then d.remaining - 1 else 0;
    Go(d.(remaining := left, decoded := d.decoded + 1, state := if left == 0 then DataCR else Data), [c])
  }

  /** A byte of a trailer field, which counts against the limit. */
  function OnTrailer(d: Decoder, c: byte): Step {
    if d.trailerSeen + 1 > d.max then Fail(HeadTooLarge)
    else Go(d.(trailerSeen := d.trailerSeen + 1, state := if c == 10 then TrailerLine else TrailerSkip), [])
  }

  function Expect(c: byte, wanted: byte, next: Decoder): Step {
    if c == wanted then Go(next, []) else Fail(BadChunk)
  }

  function Take(d: Decoder, c: byte): Step {
    match d.state
    case Size => OnSize(d, c)
    case Ext => Go(if c == 13 then d.(state := SizeLF) else d, [])
    case SizeLF => Expect(c, 10, d.(digits := 0, state := if d.remaining == 0 then TrailerLine else Data))
    case Data => OnData(d, c)
    case DataCR => Expect(c, 13, d.(state := DataLF))
    case DataLF => Expect(c, 10, d.(state := Size))
    case TrailerLine =>
      if c == 13 then Go(d.(state := TrailerCR), [])
      else if c == 10 then Go(d.(state := Done), [])
      else OnTrailer(d, c)
    case TrailerSkip => OnTrailer(d, c)
    case TrailerCR => Expect(c, 10, d.(state := Done))
    case Done => Go(d, [])
  }

  datatype Result = Result(outcome: Outcome, next: Decoder, body: seq<byte>, consumed: nat)

  /** A result with some bytes consumed before it. */
  function After(body: seq<byte>, n: nat, r: Result): Result { r.(body := body + r.body, consumed := n + r.consumed) }

  /** A read, byte by byte. A decoder that failed is not used again: any will do. */
  function Run(d: Decoder, s: seq<byte>): Result
    decreases |s|
  {
    if s == [] then Result(NeedMore, d, [], 0)
    else if d.state == Done then Result(Finished, d, [], 0)
    else
      var step := Take(d, s[0]);
      if step.Fail? then Result(Failure(step.error), Start(d.max), [], 0)
      else if step.next.state == Done then Result(Finished, step.next, step.body, 1)
      else After(step.body, 1, Run(step.next, s[1..]))
  }

  // ---- Segmentation ------------------------------------------------------------------

  lemma AfterAfter(a: seq<byte>, m: nat, b: seq<byte>, n: nat, r: Result)
    ensures After(a, m, After(b, n, r)) == After(a + b, m + n, r)
  {
    assert a + (b + r.body) == a + b + r.body;
  }

  /** What a decoder makes of two reads in turn, the second only if it asks for more. */
  function Then(r: Result, s: seq<byte>): Result {
    if r.outcome.NeedMore? then After(r.body, r.consumed, Run(r.next, s)) else r
  }

  lemma {:induction false} Resumes(d: Decoder, a: seq<byte>, b: seq<byte>)
    ensures Run(d, a + b) == Then(Run(d, a), b)
    decreases |a|
  {
    if a == [] {
      assert a + b == b;
      var r := Run(d, b);
      assert [] + r.body == r.body;
    } else if d.state != Done {
      var step := Take(d, a[0]);
      assert (a + b)[0] == a[0] && (a + b)[1..] == a[1..] + b;
      if step.Go? && step.next.state != Done {
        Resumes(step.next, a[1..], b);
        var r := Run(step.next, a[1..]);
        if r.outcome.NeedMore? { AfterAfter(step.body, 1, r.body, r.consumed, Run(r.next, b)); }
      }
    }
  }

  function Concat(parts: seq<seq<byte>>): seq<byte> { if parts == [] then [] else parts[0] + Concat(parts[1..]) }

  /** A body that arrives in several reads. */
  function Reads(r: Result, parts: seq<seq<byte>>): Result
    decreases |parts|
  {
    if parts == [] then r else Reads(Then(r, parts[0]), parts[1..])
  }

  /** However the bytes are split into reads, the outcome, the body, the decoder and the
      bytes consumed are those of one call. */
  lemma {:induction false} SegmentationIsIgnored(d: Decoder, s: seq<byte>, parts: seq<seq<byte>>)
    ensures Reads(Run(d, s), parts) == Run(d, s + Concat(parts))
    decreases |parts|
  {
    if parts == [] {
      assert s + Concat(parts) == s;
    } else {
      Resumes(d, s, parts[0]);
      SegmentationIsIgnored(d, s + parts[0], parts[1..]);
      assert s + parts[0] + Concat(parts[1..]) == s + Concat(parts);
    }
  }

  // ---- Runs of bytes -------------------------------------------------------------------

  lemma {:induction false} Drop<T>(s: seq<T>, k: nat)
    requires 0 < k <= |s|
    ensures s[1..][k - 1..] == s[k..] && [s[0]] + s[1..][..k - 1] == s[..k]
  {
  }

  function DataTaken(d: Decoder, k: nat): Decoder
    requires k <= d.remaining
  {
    d.(remaining := d.remaining - k, decoded := d.decoded + k, state := if d.remaining == k then DataCR else Data)
  }

  lemma {:induction false} DataRun(d: Decoder, s: seq<byte>, k: nat)
    requires d.state == Data && 0 < k <= |s| && k <= d.remaining
    ensures Run(d, s) == After(s[..k], k, Run(DataTaken(d, k), s[k..]))
    decreases k
  {
    Drop(s, k);
    var next := DataTaken(d, 1);
    assert Take(d, s[0]) == Go(next, [s[0]]);
    if k > 1 {
      DataRun(next, s[1..], k - 1);
      assert DataTaken(next, k - 1) == DataTaken(d, k);
      AfterAfter([s[0]], 1, s[1..][..k - 1], k - 1, Run(DataTaken(d, k), s[k..]));
    } else {
      assert s[..1] == [s[0]];
    }
  }

  /** None of the first `k` bytes is `c`. */
  predicate Without(s: seq<byte>, k: nat, c: byte)
    requires k <= |s|
  {
    k == 0 || (s[0] != c && Without(s[1..], k - 1, c))
  }

  lemma {:induction false} ExtRun(d: Decoder, s: seq<byte>, k: nat)
    requires d.state == Ext && k <= |s| && Without(s, k, 13)
    ensures Run(d, s) == After([], k, Run(d, s[k..]))
    decreases k
  {
    if k == 0 {
      assert s[0..] == s;
      assert [] + Run(d, s).body == Run(d, s).body;
    } else {
      Drop(s, k);
      ExtRun(d, s[1..], k - 1);
      AfterAfter([], 1, [], k - 1, Run(d, s[k..]));
    }
  }

  function Skipped(d: Decoder, k: nat): Decoder { d.(trailerSeen := d.trailerSeen + k) }

  lemma {:induction false} SkipRun(d: Decoder, s: seq<byte>, k: nat)
    requires d.state == TrailerSkip && k <= |s| && Without(s, k, 10) && d.trailerSeen + k <= d.max
    ensures Run(d, s) == After([], k, Run(Skipped(d, k), s[k..]))
    decreases k
  {
    if k == 0 {
      assert s[0..] == s;
      assert [] + Run(d, s).body == Run(d, s).body;
    } else {
      Drop(s, k);
      SkipRun(Skipped(d, 1), s[1..], k - 1);
      AfterAfter([], 1, [], k - 1, Run(Skipped(d, k), s[k..]));
    }
  }

  /** A field that goes past the limit fails, wherever it does. */
  lemma {:induction false} SkipFails(d: Decoder, s: seq<byte>, k: nat)
    requires d.state == TrailerSkip && k < |s| && Without(s, k, 10) && d.trailerSeen + k + 1 > d.max
    ensures Run(d, s).outcome == Failure(HeadTooLarge) && Run(d, s).body == []
    decreases k
  {
    if k > 0 && d.trailerSeen + 1 <= d.max { SkipFails(Skipped(d, 1), s[1..], k - 1); }
  }
}
