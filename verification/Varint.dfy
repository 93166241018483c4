/** Base-128 varints as both codecs use them (pkg/frames/serialize/wire.go:44-85,
    pkg/frames/proto/wire/envelope.go:50-56 and 87-97; Protocol Buffers Encoding, "Base 128 Varints").

    `Encode` is the writer. `Parse` says what at most ten bytes mean as an unbounded number; the readers
    keep 64 bits of it. A shift to the left by 7*i bits that loses the bits above 64 is a multiplication
    by 128^i modulo 2^64; OR of numbers without common bits is their sum. */
module Varint {
  import opened Common

  const U64: nat := 0x1_0000_0000_0000_0000

  type uint64 = x: int | 0 <= x < U64

  function Encode(v: nat): (bs: bytes)
    ensures bs != []
  {
    if v >= 0x80 then [v % 0x80 + 0x80] + Encode(v / 0x80) else [v]
  }

  method AppendVarint(buf: bytes, v: uint64) returns (r: bytes)
    ensures r == buf + Encode(v)
  {
    r := buf;
    var x: int := v;
    while x >= 0x80
      invariant 0 <= x && r + Encode(x) == buf + Encode(v)
    {
      assert r + ([x % 0x80 + 0x80] + Encode(x / 0x80)) == r + [x % 0x80 + 0x80] + Encode(x / 0x80);
      r := r + [x % 0x80 + 0x80];
      x := x / 0x80;
    }
    r := r + [x];
  }

  /** A number and what follows it; or the bytes ended first; or `left` bytes did not end it. */
  datatype Parsed = Value(v: nat, rest: bytes) | End | Overflow(rest: bytes)

  function Parse(s: bytes, left: nat): Parsed {
    if left == 0 then Overflow(s)
    else if s == [] then End
    else if s[0] < 0x80 then Value(s[0], s[1..])
    else WithLow(s[0] % 0x80, Parse(s[1..], left - 1))
  }

  function WithLow(low: nat, p: Parsed): Parsed {
    match p
    case Value(v, rest) => Value(low + 0x80 * v, rest)
    case _ => p
  }

  function Read(s: bytes): Parsed {
    match Parse(s, 10)
    case Value(v, rest) => Value(v % U64, rest)
    case p => p
  }

  // ----- writer and reader are inverse -----------------------------------------------------------------

  function Pow128(i: nat): (p: nat)
    ensures p > 0
  {
    if i == 0 then 1 else 0x80 * Pow128(i - 1)
  }

  lemma Pow128Ten()
    ensures Pow128(9) == 0x8000_0000_0000_0000 && Pow128(10) == 64 * U64
  {
    assert Pow128(3) == 0x20_0000;
    assert Pow128(6) == 0x400_0000_0000;
  }

  lemma {:induction false} ParseEncoded(v: nat, left: nat, rest: bytes)
    requires 1 <= left && v < Pow128(left)
    ensures Parse(Encode(v) + rest, left) == Value(v, rest)
    ensures |Encode(v)| <= left
    decreases left
  {
    var s := Encode(v) + rest;
    if v >= 0x80 {
      ParseEncoded(v / 0x80, left - 1, rest);
      assert s[1..] == Encode(v / 0x80) + rest;
    } else {
      assert s[1..] == rest;
    }
  }

  /** Every 64-bit value is written in at most ten bytes, read back, and what follows is left alone. */
  lemma {:induction false} ReadEncoded(v: uint64, rest: bytes)
    ensures Read(Encode(v) + rest) == Value(v, rest) && |Encode(v)| <= 10
  {
    hide Parse, Encode;
    Pow128Ten();
    ParseEncoded(v, 10, rest);
  }

  // ----- every well-formed varint, minimal or not ---------------------------------------------------------

  predicate IsVarint(bs: bytes) {
    1 <= |bs| <= 10 && bs[|bs| - 1] < 0x80 && forall i :: 0 <= i < |bs| - 1 ==> bs[i] >= 0x80
  }

  /** Seven bits a byte, least significant first. */
  function Denoted(bs: bytes): nat {
    if bs == [] then 0 else bs[0] % 0x80 + 0x80 * Denoted(bs[1..])
  }

  lemma {:induction false} ParseVarint(bs: bytes, left: nat, rest: bytes)
    requires 1 <= |bs| <= left && bs[|bs| - 1] < 0x80 && forall i :: 0 <= i < |bs| - 1 ==> bs[i] >= 0x80
    ensures Parse(bs + rest, left) == Value(Denoted(bs), rest)
  {
    assert (bs + rest)[1..] == bs[1..] + rest;
    if |bs| == 1 {
      assert bs[1..] == [] && Denoted(bs[1..]) == 0;
    } else {
      ParseVarint(bs[1..], left - 1, rest);
    }
  }

  lemma ReadVarintBytes(bs: bytes, rest: bytes)
    requires IsVarint(bs)
    ensures Read(bs + rest) == Value(Denoted(bs) % U64, rest)
  {
    ParseVarint(bs, 10, rest);
  }

  lemma {:induction false} EncodedIsVarint(v: nat, left: nat)
    requires 1 <= left <= 10 && v < Pow128(left)
    ensures IsVarint(Encode(v)) && Denoted(Encode(v)) == v && |Encode(v)| <= left
    decreases left
  {
    if v >= 0x80 {
      EncodedIsVarint(v / 0x80, left - 1);
      assert Encode(v)[1..] == Encode(v / 0x80);
    } else {
      assert Encode(v)[1..] == [];
    }
  }

  /** Seven bits a byte, low ones first, the eighth set on all but the last: the standard's own examples. */
  lemma StandardExamples()
    ensures Encode(1) == [0x01] && Encode(150) == [0x96, 0x01] && Encode(300) == [0xac, 0x02]
  {
  }

  /** No shorter encoding: the last byte of several is not 0. */
  lemma {:induction false} EncodedIsShortest(v: nat)
    ensures |Encode(v)| > 1 ==> Encode(v)[|Encode(v)| - 1] > 0
  {
    if v >= 0x80 { EncodedIsShortest(v / 0x80); }
  }

  // ----- the readers' arithmetic --------------------------------------------------------------------------

  /** `b` shifted left by 7*i bits in 64. */
  function Shifted(b: nat, i: nat): nat {
    (b * Pow128(i)) % U64
  }

  /** The accumulator of a reader that has read `i` bytes, completed by what the rest means. */
  function Continue(x: nat, i: nat, p: Parsed): Parsed {
    match p
    case Value(v, rest) => Value((x + Pow128(i) * v) % U64, rest)
    case _ => p
  }

  lemma ShiftedFits(x: nat, i: nat, b: nat)
    requires i < 9 && x < Pow128(i) && b < 0x80
    ensures Shifted(b, i) == Pow128(i) * b
    ensures x + Pow128(i) * b < 0x80 * Pow128(i) == Pow128(i + 1) < U64
  {
    PowerBound(i);
    MulBound(Pow128(i), b);
  }

  lemma MulBound(k: nat, b: nat)
    requires b < 0x80
    ensures k * b == b * k && k * b <= 127 * k
  {
  }

  lemma Distribute(k: nat, b: nat, v: nat)
    ensures k * (b + 0x80 * v) == k * b + (0x80 * k) * v
  {
  }

  /** One byte of the first nine loses no bits, and the accumulator stays below 128^i, so the OR is a sum. */
  lemma ReadStep(x: nat, i: nat, b: nat, p: Parsed)
    requires i < 9 && x < Pow128(i) && b < 0x80
    ensures x + Shifted(b, i) == x + Pow128(i) * b < Pow128(i + 1) < U64
    ensures Continue(x, i, WithLow(b, p)) == Continue(x + Shifted(b, i), i + 1, p)
  {
    hide Pow128, Shifted;
    ShiftedFits(x, i, b);
    if p.Value? {
      Distribute(Pow128(i), b, p.v);
    }
  }

  /** The tenth byte keeps its lowest bit. */
  lemma TenthByte(x: nat, b: nat)
    requires x < Pow128(9) && b < 0x80
    ensures x + Shifted(b, 9) == (x + Pow128(9) * b) % U64
  {
    Pow128Ten();
    var q, r := b / 2, b % 2;
    assert b * 0x8000_0000_0000_0000 == r * 0x8000_0000_0000_0000 + q * U64;
  }

  /** What one more byte means to a reader that holds `x` after `i` bytes. */
  lemma ReaderStep(x: nat, i: nat, s: bytes)
    requires i < 10 && x < Pow128(i) && s != []
    ensures var y, p := x + Shifted(s[0] % 0x80, i), Continue(x, i, Parse(s, 10 - i));
            && y < U64
            && (s[0] < 0x80 ==> p == Value(y, s[1..]))
            && (s[0] >= 0x80 && i < 9 ==> (y < Pow128(i + 1) && p == Continue(y, i + 1, Parse(s[1..], 9 - i))))
            && (s[0] >= 0x80 && i == 9 ==> p == Overflow(s[1..]))
  {
    hide Shifted, Pow128, Continue;
    LastByte(x, i, s[0] % 0x80, s[1..]);
    if s[0] >= 0x80 {
      if i < 9 {
        ReadStep(x, i, s[0] % 0x80, Parse(s[1..], 9 - i));
      } else {
        ContinueFails(x, i, Overflow(s[1..]));
      }
    }
  }

  lemma LastByte(x: nat, i: nat, b: nat, rest: bytes)
    requires i < 10 && x < Pow128(i) && b < 0x80
    ensures x + Shifted(b, i) < U64
    ensures Continue(x, i, Value(b, rest)) == Value(x + Shifted(b, i), rest)
  {
    hide Shifted, Pow128;
    if i < 9 {
      ReadStep(x, i, b, End);
    } else {
      TenthByte(x, b);
    }
  }

  lemma ContinueFails(x: nat, i: nat, p: Parsed)
    requires !p.Value?
    ensures Continue(x, i, p) == p
  {
  }

  lemma ReaderStart(s: bytes)
    ensures 0 < Pow128(0) && Read(s) == Continue(0, 0, Parse(s, 10))
  {
  }

  lemma ReaderEnd(x: nat, i: nat)
    requires i < 10
    ensures Continue(x, i, Parse([], 10 - i)) == End
  {
  }

  lemma PowerBound(i: nat)
    requires i <= 9
    ensures Pow128(i) <= 0x8000_0000_0000_0000
    ensures i < 9 ==> 128 * Pow128(i) <= 0x8000_0000_0000_0000
    ensures i == 9 ==> Pow128(i) == 0x8000_0000_0000_0000
  {
    Pow128Ten();
    if i < 9 { PowerMonotone(i + 1, 9); }
  }

  lemma {:induction false} PowerMonotone(i: nat, j: nat)
    requires i <= j
    ensures Pow128(i) <= Pow128(j)
    decreases j - i
  {
    if i < j { PowerMonotone(i, j - 1); }
  }

  // ----- what a reader leaves ---------------------------------------------------------------------------------

  lemma {:induction false} ParseLeavesASuffix(s: bytes, left: nat)
    requires left <= 10
    ensures var p := Parse(s, left);
            p.Value? ==> |p.rest| < |s| && |s| - |p.rest| <= left && p.rest == s[|s| - |p.rest|..]
    decreases left
  {
    if left > 0 && s != [] && s[0] >= 0x80 {
      ParseLeavesASuffix(s[1..], left - 1);
    }
  }

  lemma {:induction false} ParseConsumesAVarint(s: bytes, left: nat)
    requires left <= 10 && Parse(s, left).Value?
    ensures var n := |s| - |Parse(s, left).rest|;
            0 < n <= |s| && IsVarint(s[..n]) && Denoted(s[..n]) == Parse(s, left).v
    decreases left
  {
    ParseLeavesASuffix(s, left);
    var n := |s| - |Parse(s, left).rest|;
    if s[0] < 0x80 {
      assert s[..1][1..] == [];
    } else {
      ParseConsumesAVarint(s[1..], left - 1);
      ParseLeavesASuffix(s[1..], left - 1);
      VarintGrows(s[0], s[1..][..n - 1]);
      assert s[..n] == [s[0]] + s[1..][..n - 1];
    }
  }

  lemma VarintGrows(b: byte, bs: bytes)
    requires b >= 0x80 && IsVarint(bs) && |bs| < 10
    ensures IsVarint([b] + bs) && Denoted([b] + bs) == b % 0x80 + 0x80 * Denoted(bs)
  {
  }

  /** What a successful read consumed is a varint of that value; what it left is the rest of the input. */
  lemma ReadConsumesAVarint(s: bytes)
    ensures var p := Read(s);
            p.Value? ==> p.v < U64 && |p.rest| < |s| && p.rest == s[|s| - |p.rest|..]
                         && IsVarint(s[..|s| - |p.rest|]) && Denoted(s[..|s| - |p.rest|]) % U64 == p.v
  {
    hide IsVarint, Denoted, Parse;
    if Parse(s, 10).Value? {
      ParseLeavesASuffix(s, 10);
      ParseConsumesAVarint(s, 10);
    }
  }
}
