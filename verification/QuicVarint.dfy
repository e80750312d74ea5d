/** QUIC variable-length integers: the length of each is in its first two bits. */
module QuicVarint {
  import opened Arith
  import opened Wrappers

  const VARINT_END: nat := 0x4000_0000_0000_0000

  /** The `n` low bytes of `v`, most significant first. */
  function BigEndian(v: nat, n: nat): (s: seq<byte>)
    ensures |s| == n
  {
    if n == 0 then [] else BigEndian(v / 256, n - 1) + [v % 256]
  }

  function FromBigEndian(s: seq<byte>): nat {
    if s == [] then 0 else FromBigEndian(s[..|s| - 1]) * 256 + s[|s| - 1]
  }

  function Tag(v: nat): nat {
    if v < 0x40 then 0 else if v < 0x4000 then 1 else if v < 0x4000_0000 then 2 else 3
  }

  function Width(tag: nat): nat {
    if tag == 0 then 1 else if tag == 1 then 2 else if tag == 2 then 4 else 8
  }

  /** How many bytes a value takes. */
  function Length(v: nat): nat { Width(Tag(v)) }

  /** The tag takes the place of the first byte's two high bits. */
  function Write(v: nat): (s: seq<byte>)
    ensures |s| == Length(v)
  {
    var s := BigEndian(v, Length(v));
    [s[0] % 64 + 64 * Tag(v)] + s[1..]
  }

  datatype Read = Read(value: nat, rest: seq<byte>)

  function Varint(s: seq<byte>): Option<Read> {
    if s == [] || |s| < Width(s[0] / 64) then None
    else
      var w := Width(s[0] / 64);
      Some(Read(FromBigEndian([s[0] % 64] + s[1..w]), s[w..]))
  }

  // ---- Words and bytes ---------------------------------------------------------

  lemma {:induction false} BigEndianRoundTrip(v: nat, n: nat)
    requires v < Power(256, n)
    ensures FromBigEndian(BigEndian(v, n)) == v
  {
    if n > 0 {
      BigEndianRoundTrip(v / 256, n - 1);
      assert BigEndian(v, n)[..n - 1] == BigEndian(v / 256, n - 1);
    }
  }

  lemma {:induction false} FirstIs(b: byte, r: seq<byte>)
    ensures FromBigEndian([b] + r) == b * Power(256, |r|) + FromBigEndian(r)
  {
    if r == [] {
      assert [b] + r == [b] && [b][..0] == [];
      assert FromBigEndian([b]) == FromBigEndian([]) * 256 + b;
    } else {
      var s, t := [b] + r, r[..|r| - 1];
      assert s[..|s| - 1] == [b] + t;
      FirstIs(b, t);
      assert Power(256, |r|) == 256 * Power(256, |t|);
      assert FromBigEndian(s) == (b * Power(256, |t|) + FromBigEndian(t)) * 256 + r[|r| - 1];
      Shift(b, Power(256, |t|), FromBigEndian(t));
    }
  }

  lemma Shift(b: nat, p: nat, r: nat)
    ensures (b * p + r) * 256 == b * (256 * p) + r * 256
  {
  }

  lemma {:induction false} Powers(n: nat)
    requires n <= 8
    ensures Power(256, 1) == 0x100 && Power(256, 2) == 0x1_0000 && Power(256, 4) == 0x1_0000_0000
    ensures Power(256, 3) == 0x100_0000 && Power(256, 7) == 0x100_0000_0000_0000 && Power(256, 8) == U64
    ensures Power(256, 0) == 1
  {
    WordSizes();
    assert Power(256, 2) == 256 * Power(256, 1);
    assert Power(256, 3) == 256 * Power(256, 2);
    assert Power(256, 8) == 256 * Power(256, 7);
  }

  lemma ReadBack(v: nat, more: seq<byte>)
    requires v < U64
    ensures var s := BigEndian(v, Length(v));
            Varint(Write(v) + more) == Some(Read(FromBigEndian([s[0] % 64] + s[1..]), more))
  {
    var w := Length(v);
    var s, t := BigEndian(v, w), Write(v) + more;
    assert t[0] / 64 == Tag(v) && t[0] % 64 == s[0] % 64;
    assert t[1..w] == s[1..] && t[w..] == more;
  }

  /** Reading what was written gives the value back exactly when it has 62 bits. */
  lemma VarintRoundTrip(v: nat, more: seq<byte>)
    requires v < U64
    ensures Varint(Write(v) + more) == Some(Read(v, more)) <==> v < VARINT_END
    ensures Varint(Write(v) + more).Some? && Varint(Write(v) + more).value.rest == more
  {
    ReadBack(v, more);
    Unmasked(v, Length(v), BigEndian(v, Length(v)));
  }

  /** Without its length bits a value is the same just when it has 62 bits. */
  lemma Unmasked(v: nat, w: nat, s: seq<byte>)
    requires v < U64 && w == Length(v) && s == BigEndian(v, w)
    ensures FromBigEndian([s[0] % 64] + s[1..]) == v <==> v < VARINT_END
  {
    LeadingByte(v, w, s);
    FirstIs(s[0] % 64, s[1..]);
    Below(s[1..]);
    TopByte(s[0], FromBigEndian(s[1..]), w);
    FitsIn62(v, w);
  }

  lemma LeadingByte(v: nat, w: nat, s: seq<byte>)
    requires v < U64 && w == Length(v) && s == BigEndian(v, w)
    ensures v == s[0] * Power(256, w - 1) + FromBigEndian(s[1..])
  {
    Powers(8);
    assert s == [s[0]] + s[1..];
    BigEndianRoundTrip(v, w);
    FirstIs(s[0], s[1..]);
  }

  lemma FitsIn62(v: nat, w: nat)
    requires v < U64 && w == Length(v)
    ensures v < VARINT_END <==> v < 64 * Power(256, w - 1)
  {
    Powers(8);
  }

  lemma {:induction false} Below(s: seq<byte>)
    ensures FromBigEndian(s) < Power(256, |s|)
  {
    if s != [] { Below(s[..|s| - 1]); }
  }

  /** A leading byte without its length bits is the same byte just when it is below 64. */
  lemma TopByte(b: byte, rest: nat, w: nat)
    requires w in {1, 2, 4, 8} && rest < Power(256, w - 1)
    ensures b % 64 * Power(256, w - 1) + rest == b * Power(256, w - 1) + rest <==> b < 64
    ensures b < 64 <==> b * Power(256, w - 1) + rest < 64 * Power(256, w - 1)
  {
    Powers(8);
  }

  /** What is read is always a 62-bit value, and takes from the front. */
  lemma VarintBounded(s: seq<byte>)
    requires Varint(s).Some?
    ensures Varint(s).value.value < VARINT_END && |Varint(s).value.rest| < |s|
    ensures Varint(s).value.rest == s[|s| - |Varint(s).value.rest|..]
  {
    var w := Width(s[0] / 64);
    Powers(8);
    Below(s[1..w]);
    FirstIs(s[0] % 64, s[1..w]);
  }

  /** A value in a width of its sender's choice, which need not be the least. */
  function Encoded(v: nat, tag: nat): (s: seq<byte>)
    requires tag < 4 && v < 64 * Power(256, Width(tag) - 1)
    ensures |s| == Width(tag)
  {
    TopBits(v, Width(tag));
    var s := BigEndian(v, Width(tag));
    [s[0] + 64 * tag] + s[1..]
  }

  lemma {:induction false} TopBits(v: nat, w: nat)
    requires 0 < w && v < 64 * Power(256, w - 1)
    ensures BigEndian(v, w)[0] < 64 && v < Power(256, w)
  {
    if w == 1 {
      assert Power(256, 0) == 1 && Power(256, 1) == 256 * Power(256, 0);
      assert BigEndian(v, 1) == BigEndian(v / 256, 0) + [v % 256];
    } else {
      assert Power(256, w - 1) == 256 * Power(256, w - 2);
      TopBits(v / 256, w - 1);
      assert BigEndian(v, w)[0] == BigEndian(v / 256, w - 1)[0];
    }
  }

  /** In any width that holds it a value is read. */
  lemma AnyWidthIsRead(v: nat, tag: nat, more: seq<byte>)
    requires tag < 4 && v < 64 * Power(256, Width(tag) - 1)
    ensures Varint(Encoded(v, tag) + more) == Some(Read(v, more))
  {
    var w := Width(tag);
    var s, t := BigEndian(v, w), Encoded(v, tag) + more;
    TopBits(v, w);
    BigEndianRoundTrip(v, w);
    assert t[0] == s[0] + 64 * tag && t[0] / 64 == tag && t[0] % 64 == s[0];
    assert t[1..w] == s[1..] && t[w..] == more && s == [s[0]] + s[1..];
  }

  lemma {:induction false} BigEndianBack(s: seq<byte>)
    ensures BigEndian(FromBigEndian(s), |s|) == s
  {
    if s != [] {
      BigEndianBack(s[..|s| - 1]);
      assert s == s[..|s| - 1] + [s[|s| - 1]];
    }
  }

  lemma LowTop(s: seq<byte>)
    requires s != [] && s[0] < 64
    ensures FromBigEndian(s) < 64 * Power(256, |s| - 1)
  {
    assert s == [s[0]] + s[1..];
    FirstIs(s[0], s[1..]);
    Below(s[1..]);
    Times(s[0], Power(256, |s| - 1));
  }

  lemma Times(b: nat, p: nat)
    requires b < 64
    ensures b * p + p <= 64 * p
  {
  }

  lemma Rebuilt(s: seq<byte>, low: nat, tag: nat, w: nat, v: nat)
    requires tag < 4 && low < 64 && s != [] && s[0] == low + 64 * tag && w == Width(tag) <= |s|
    requires v == FromBigEndian([low] + s[1..w])
    ensures v < 64 * Power(256, w - 1) && s == Encoded(v, tag) + s[w..]
  {
    var t := [low] + s[1..w];
    LowTop(t);
    BigEndianBack(t);
    EncodedIs(v, tag, t);
    assert s == [s[0]] + s[1..w] + s[w..];
  }

  /** And whatever is read was a value in one of the four widths. */
  lemma ReadIsEncoded(s: seq<byte>)
    requires Varint(s).Some?
    ensures var r, tag := Varint(s).value, s[0] / 64;
            && tag < 4 && r.value < 64 * Power(256, Width(tag) - 1)
            && s == Encoded(r.value, tag) + r.rest
  {
    Bits(s[0]);
    Rebuilt(s, s[0] % 64, s[0] / 64, Width(s[0] / 64), Varint(s).value.value);
  }

  lemma Bits(b: byte)
    ensures b / 64 < 4 && b % 64 < 64 && b == b % 64 + 64 * (b / 64)
  {
  }

  lemma EncodedIs(v: nat, tag: nat, t: seq<byte>)
    requires tag < 4 && v < 64 * Power(256, Width(tag) - 1) && BigEndian(v, Width(tag)) == t && t[0] < 64
    ensures Encoded(v, tag) == [t[0] + 64 * tag] + t[1..]
  {
  }

  /** Bytes, and how many of them have been read. */
  class Reader {
    const base: seq<byte>
    var offset: nat

    ghost predicate Valid() reads this { offset <= |base| }

    ghost function Left(): seq<byte>
      requires Valid()
      reads this
    {
      base[offset..]
    }

    constructor (bytes: seq<byte>)
      ensures Valid() && base == bytes && Left() == bytes
    {
      base, offset := bytes, 0;
    }

    method Next() returns (value: Option<nat>)
      requires Valid()
      modifies this
      ensures Valid()
      ensures value.None? <==> old(Varint(Left())).None?
      ensures value.None? ==> offset == old(offset)
      ensures value.Some? ==> Varint(old(Left())) == Some(Read(value.value, Left()))
    {
      ghost var s := Left();
      if offset >= |base| { return None; }
      var first := base[offset];
      var width := Width(first / 64);
      if |base| - offset < width { return None; }
      var v: nat := first % 64;
      var i := 1;
      assert [first % 64][..0] == [] && s[1..1] == [];
      assert FromBigEndian([first % 64]) == FromBigEndian([]) * 256 + first % 64;
      while i < width
        invariant 1 <= i <= width <= |s|
        invariant v == FromBigEndian([first % 64] + s[1..i])
      {
        ghost var t := [first % 64] + s[1..i + 1];
        assert t[..|t| - 1] == [first % 64] + s[1..i] && t[|t| - 1] == s[i] == base[offset + i];
        v := v * 256 + base[offset + i];
        i := i + 1;
      }
      offset := offset + width;
      assert base[offset..] == s[width..];
      return Some(v);
    }
  }
}
