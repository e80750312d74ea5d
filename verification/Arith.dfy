/** Byte strings, little-endian words and the few facts about remainders that
    the ring, table and codec models share. */
module Arith {
  type byte = b: int | 0 <= b < 256

  const U64: nat := 0x1_0000_0000_0000_0000
  const U32: nat := 0x1_0000_0000

  function Min(a: int, b: int): int { if a < b then a else b }
  function Max(a: int, b: int): int { if a < b then b else a }

  function Power(base: nat, n: nat): nat { if n == 0 then 1 else base * Power(base, n - 1) }

  lemma {:induction false} PowerPositive(base: nat, n: nat)
    requires base > 0
    ensures Power(base, n) >= 1
  {
    if n > 0 {
      PowerPositive(base, n - 1);
      MulMonotone(base, 1, Power(base, n - 1));
    }
  }

  /** The `n` low bytes of `v`, least significant first: how a C struct field
      lies in memory on the machines the server runs on. */
  function LittleEndian(v: nat, n: nat): (s: seq<byte>)
    ensures |s| == n
  {
    if n == 0 then [] else [v % 256] + LittleEndian(v / 256, n - 1)
  }

  function FromLittleEndian(s: seq<byte>): nat {
    if s == [] then 0 else s[0] + 256 * FromLittleEndian(s[1..])
  }

  lemma {:induction false} LittleEndianRoundTrip(v: nat, n: nat)
    requires v < Power(256, n)
    ensures FromLittleEndian(LittleEndian(v, n)) == v
  {
    if n > 0 {
      LittleEndianRoundTrip(v / 256, n - 1);
      assert LittleEndian(v, n)[1..] == LittleEndian(v / 256, n - 1);
    }
  }

  lemma WordSizes()
    ensures Power(256, 8) == U64 && Power(256, 4) == U32
  {
    assert Power(256, 2) == 256 * Power(256, 1);
    assert Power(256, 4) == 256 * (256 * Power(256, 2));
    assert Power(256, 6) == 256 * (256 * Power(256, 4));
    assert Power(256, 8) == 256 * (256 * Power(256, 6));
  }

  /** `x` reduced by the period `m`: what a mask gives when `m` is a power of
      two. Counted off rather than divided, so that proofs that only move
      values around do not meet a remainder (WrapIsMod). */
  function Wrap(x: nat, m: nat): (r: nat)
    requires 0 < m
    ensures r < m
  {
    if x < m then x else Wrap(x - m, m)
  }

  lemma {:induction false} WrapIsMod(x: nat, m: nat)
    requires 0 < m
    ensures Wrap(x, m) == x % m
  {
    if x >= m {
      WrapIsMod(x - m, m);
      assert x == m * ((x - m) / m + 1) + (x - m) % m;
      ModUnique(x, m, (x - m) / m + 1, (x - m) % m);
    } else {
      ModUnique(x, m, 0, x);
    }
  }

  lemma ModUnique(x: nat, m: nat, q: nat, r: nat)
    requires 0 < m && r < m && x == m * q + r
    ensures x % m == r && x / m == q
  {
    var d := x / m - q;
    assert m * d == r - x % m;
    if d >= 1 { MulMonotone(m, 1, d); } else if d <= -1 { MulMonotone(m, d, -1); }
  }

  /** Two numbers less than a period apart, and not equal, fall in different places. */
  lemma {:induction false} WrapDistinct(a: nat, b: nat, m: nat)
    requires 0 < m && b < a < b + m
    ensures Wrap(a, m) != Wrap(b, m)
  {
    if b >= m {
      WrapDistinct(a - m, b - m, m);
    } else if a >= m {
      assert Wrap(a, m) == Wrap(a - m, m) == a - m;
    }
  }

  lemma MulMonotone(m: nat, x: int, y: int)
    requires x <= y
    ensures m * x <= m * y
  {
    assert m * y - m * x == m * (y - x);
  }

  // ---- Masks ---------------------------------------------------------------------

  predicate PowerOfTwo(n: nat) { n == 1 || (n > 1 && n % 2 == 0 && PowerOfTwo(n / 2)) }

  /** The bits two numbers share. */
  function And(a: nat, b: nat): nat {
    if a == 0 || b == 0 then 0 else 2 * And(a / 2, b / 2) + (a % 2) * (b % 2)
  }

  lemma HalvesMod(x: nat, h: nat)
    requires h > 0
    ensures 2 * (x / 2 % h) + x % 2 == x % (2 * h)
  {
    var q, r := x / 2 / h, x / 2 % h;
    assert x / 2 == h * q + r;
    assert x == 2 * h * q + (2 * r + x % 2);
    ModUnique(x, 2 * h, q, 2 * r + x % 2);
  }

  /** Masking with one less than a power of two is going round at it, which is how the
      rings and tables go round. */
  lemma {:induction false} MaskWraps(x: nat, m: nat)
    requires PowerOfTwo(m)
    ensures And(x, m - 1) == Wrap(x, m)
    decreases m
  {
    WrapIsMod(x, m);
    if m > 1 {
      MaskWraps(x / 2, m / 2);
      WrapIsMod(x / 2, m / 2);
      HalvesMod(x, m / 2);
      assert (m - 1) / 2 == m / 2 - 1 && (m - 1) % 2 == 1;
    }
  }
}
