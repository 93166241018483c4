/** Mixing, interleaving and resampling of 16-bit little-endian mono PCM
    (pkg/audio/mix.go, pkg/audio/resample.go). Resampling is exact rational arithmetic. */
module Pcm {
  import opened Common

  type int16 = x: int | -0x8000 <= x < 0x8000

  function Sample(lo: byte, hi: byte): int16 {
    var u := lo + 0x100 * hi;
    if u >= 0x8000 then u - 0x1_0000 else u
  }

  function Lo(x: int): byte { x % 0x100 }

  function Hi(x: int): byte { (x / 0x100) % 0x100 }

  lemma SampleOfBytes(x: int16)
    ensures Sample(Lo(x), Hi(x)) == x
  {
  }

  /** The `k`-th sample, 0 where the buffer has no complete one. */
  function SampleAt(buf: bytes, k: nat): int16 {
    if 2 * k + 1 < |buf| then Sample(buf[2 * k], buf[2 * k + 1]) else 0
  }

  /** Two's complement, low byte first. */
  lemma SampleIsTwosComplement(buf: bytes, k: nat)
    requires 2 * k + 1 < |buf|
    ensures SampleAt(buf, k) % 0x1_0000 == buf[2 * k] as int + 0x100 * buf[2 * k + 1] as int
    ensures -0x8000 <= SampleAt(buf, k) <= 0x7fff
  {
  }

  function Max(a: int, b: int): int { if a >= b then a else b }

  function Min(a: int, b: int): int { if a >= b then b else a }

  /** Division that rounds towards zero, as Go's does. */
  function Quotient(x: int, y: int): int
    requires y > 0
  {
    if x >= 0 then x / y else -(-x / y)
  }

  lemma QuotientBetween(x: int, y: int, lo: int, hi: int)
    requires y > 0 && lo * y <= x <= hi * y
    ensures lo <= Quotient(x, y) <= hi
  {
    if x >= 0 {
      DivBetween(x, y, hi);
      if lo > 0 { DivAtLeast(x, y, lo); }
    } else {
      DivBetween(-x, y, -lo);
      if hi < 0 { DivAtLeast(-x, y, -hi); }
    }
  }

  lemma QuotientTruncates(x: int, y: int)
    requires y > 0
    ensures x >= 0 ==> 0 <= x - Quotient(x, y) * y < y
    ensures x < 0 ==> -y < x - Quotient(x, y) * y <= 0
  {
    if x < 0 {
      var q := -x / y;
      assert -x == q * y + -x % y;
      assert Quotient(x, y) * y == -(q * y) by { assert (-q) * y == -(q * y); }
    }
  }

  lemma DivBetween(x: nat, y: int, hi: int)
    requires y > 0 && x <= hi * y
    ensures 0 <= x / y <= hi
  {
    var q := x / y;
    assert q * y <= x;
    if q > hi { MulLess(hi, q, y); }
  }

  lemma DivAtLeast(x: nat, y: int, lo: int)
    requires y > 0 && lo * y <= x
    ensures lo <= x / y
  {
    var q := x / y;
    assert x < (q + 1) * y;
    if q < lo { MulLess(q, lo, y); }
  }

  lemma MulLess(a: int, b: int, y: int)
    requires a < b && y > 0
    ensures (a + 1) * y <= b * y && a * y < b * y
  {
  }

  // ----- mixing ---------------------------------------------------------------------------------------

  function Average(u: int16, b: int16): (m: int16)
    ensures Min(u, b) <= m <= Max(u, b)
  {
    Quotient(u + b, 2)
  }

  /** Half the sum, rounded towards zero. */
  lemma AverageIsHalfTheSum(u: int16, b: int16)
    ensures u + b >= 0 ==> 0 <= u + b - 2 * Average(u, b) <= 1
    ensures u + b < 0 ==> -1 <= u + b - 2 * Average(u, b) <= 0
  {
    hide Quotient;
    QuotientTruncates(u + b, 2);
  }

  /** Byte `j` of the mix; a last half sample stays 0. */
  function MixedByte(user: bytes, bot: bytes, j: nat): byte {
    var m := Average(SampleAt(user, j / 2), SampleAt(bot, j / 2));
    if j % 2 == 1 then Hi(m) else if j + 1 < Max(|user|, |bot|) then Lo(m) else 0
  }

  function Mix(user: bytes, bot: bytes): bytes {
    seq(Max(|user|, |bot|), j requires 0 <= j => MixedByte(user, bot, j))
  }

  lemma MixedPair(user: bytes, bot: bytes, i: nat)
    requires i % 2 == 0
    ensures i + 1 < Max(|user|, |bot|) ==>
              var m := Average(SampleAt(user, i / 2), SampleAt(bot, i / 2));
              MixedByte(user, bot, i) == Lo(m) && MixedByte(user, bot, i + 1) == Hi(m)
    ensures i + 1 == Max(|user|, |bot|) ==> MixedByte(user, bot, i) == 0
  {
  }

  lemma SampleHere(buf: bytes, i: nat)
    requires i % 2 == 0
    ensures SampleAt(buf, i / 2) == if i + 1 < |buf| then Sample(buf[i], buf[i + 1]) else 0
  {
  }

  method MixMono(user: bytes, bot: bytes) returns (mixed: bytes)
    ensures mixed == Mix(user, bot)
  {
    hide MixedByte, Lo, Hi, Average, SampleAt, Sample;
    var n := |user|;
    if |bot| > n {
      n := |bot|;
    }
    if n == 0 {
      return [];
    }
    var out := new byte[n](_ => 0);
    var i := 0;
    while i + 1 < n
      invariant 0 <= i <= n && i % 2 == 0
      invariant forall j :: 0 <= j < i ==> out[j] == MixedByte(user, bot, j)
      invariant forall j :: i <= j < n ==> out[j] == 0
    {
      var u: int, b: int := 0, 0;
      if i + 1 < |user| {
        u := Sample(user[i], user[i + 1]);
      }
      if i + 1 < |bot| {
        b := Sample(bot[i], bot[i + 1]);
      }
      SampleHere(user, i);
      SampleHere(bot, i);
      MixedPair(user, bot, i);
      var m: int := Average(u, b);
      if m > 32767 {
        m := 32767;
      }
      if m < -32768 {
        m := -32768;
      }
      out[i] := Lo(m);
      out[i + 1] := Hi(m);
      i := i + 2;
    }
    MixedPair(user, bot, i);
    return out[..];
  }

  /** The mix has the length of the longer track; each sample is the average, rounded towards zero, of the two
      tracks' samples, so the clamping never fires; and which track is which does not matter. */
  lemma MixSamples(user: bytes, bot: bytes, k: nat)
    ensures |Mix(user, bot)| == Max(|user|, |bot|)
    ensures 2 * k + 1 < Max(|user|, |bot|) ==>
              SampleAt(Mix(user, bot), k) == Average(SampleAt(user, k), SampleAt(bot, k))
    ensures 2 * k + 1 == Max(|user|, |bot|) ==> Mix(user, bot)[2 * k] == 0
    ensures Mix(user, bot) == Mix(bot, user)
  {
    hide MixedByte, Average, Lo, Hi, Sample;
    assert 2 * k / 2 == k;
    MixedPair(user, bot, 2 * k);
    SampleOfBytes(Average(SampleAt(user, k), SampleAt(bot, k)));
    MixSymmetric(user, bot);
  }

  lemma MixSymmetric(user: bytes, bot: bytes)
    ensures Mix(user, bot) == Mix(bot, user)
  {
    hide MixedByte;
    forall j: nat
      ensures MixedByte(user, bot, j) == MixedByte(bot, user, j)
    {
      MixedSymmetric(user, bot, j);
    }
  }

  lemma MixedSymmetric(user: bytes, bot: bytes, j: nat)
    ensures MixedByte(user, bot, j) == MixedByte(bot, user, j)
  {
  }

  /** Mixing aligned stretches one by one is mixing the whole. */
  lemma MixConcat(u1: bytes, b1: bytes, u2: bytes, b2: bytes)
    requires |u1| == |b1| && |u1| % 2 == 0
    ensures Mix(u1 + u2, b1 + b2) == Mix(u1, b1) + Mix(u2, b2)
  {
    hide Average, SampleAt, Lo, Hi;
    var n := |u1|;
    var whole, parts := Mix(u1 + u2, b1 + b2), Mix(u1, b1) + Mix(u2, b2);
    assert |whole| == |parts|;
    forall j: nat | j < |whole|
      ensures whole[j] == parts[j]
    {
      SampleOfConcat(u1, u2, j / 2);
      SampleOfConcat(b1, b2, j / 2);
      if j >= n {
        assert (j - n) / 2 == j / 2 - n / 2;
      }
    }
  }

  lemma SampleOfConcat(a: bytes, b: bytes, k: nat)
    requires |a| % 2 == 0
    ensures 2 * k < |a| ==> SampleAt(a + b, k) == SampleAt(a, k)
    ensures 2 * k >= |a| ==> SampleAt(a + b, k) == SampleAt(b, k - |a| / 2)
  {
  }

  // ----- interleaving ---------------------------------------------------------------------------------

  /** Frames of one left and one right sample; a half sample at the end of a channel is dropped. */
  function Interleave(left: bytes, right: bytes): bytes {
    seq(4 * Max(|left| / 2, |right| / 2), j requires 0 <= j =>
      var s := j / 4;
      if j % 4 < 2 then ByteAt(left, s, j % 4) else ByteAt(right, s, j % 4 - 2))
  }

  /** Byte `h` of the `s`-th sample, 0 where there is no complete one. */
  function ByteAt(buf: bytes, s: nat, h: nat): byte
    requires h < 2
  {
    if 2 * s + 1 < |buf| then buf[2 * s + h] else 0
  }

  lemma InterleavedFrame(left: bytes, right: bytes, s: nat)
    requires s < Max(|left| / 2, |right| / 2)
    ensures var out := Interleave(left, right);
            && |out| == 4 * Max(|left| / 2, |right| / 2)
            && out[4 * s] == ByteAt(left, s, 0) && out[4 * s + 1] == ByteAt(left, s, 1)
            && out[4 * s + 2] == ByteAt(right, s, 0) && out[4 * s + 3] == ByteAt(right, s, 1)
  {
    hide ByteAt;
    assert (4 * s) / 4 == (4 * s + 1) / 4 == (4 * s + 2) / 4 == (4 * s + 3) / 4 == s;
  }

  method InterleaveStereo(left: bytes, right: bytes) returns (r: bytes)
    ensures r == Interleave(left, right)
  {
    var samples := |left| / 2;
    if |right| / 2 > samples {
      samples := |right| / 2;
    }
    if samples == 0 {
      return [];
    }
    ghost var whole := Interleave(left, right);
    assert |whole| == samples * 4;
    hide Interleave, ByteAt;
    var out := new byte[samples * 4](_ => 0);
    var s := 0;
    while s < samples
      invariant 0 <= s <= samples
      invariant out[..4 * s] == whole[..4 * s]
      invariant forall j :: 4 * s <= j < out.Length ==> out[j] == 0
    {
      InterleavedFrame(left, right, s);
      PutFrame(out, s, left, right, whole);
      s := s + 1;
    }
    return out[..];
  }

  /** The loop body. */
  method PutFrame(out: array<byte>, s: nat, left: bytes, right: bytes, ghost whole: bytes)
    requires 4 * s + 3 < out.Length == |whole| && forall j :: 4 * s <= j < out.Length ==> out[j] == 0
    requires whole[4 * s] == ByteAt(left, s, 0) && whole[4 * s + 1] == ByteAt(left, s, 1)
    requires whole[4 * s + 2] == ByteAt(right, s, 0) && whole[4 * s + 3] == ByteAt(right, s, 1)
    requires out[..4 * s] == whole[..4 * s]
    modifies out
    ensures out[..4 * s + 4] == whole[..4 * s + 4]
    ensures forall j :: 4 * s + 4 <= j < out.Length ==> out[j] == 0
  {
    hide ByteAt;
    var at := 4 * s;
    PutSample(out, at, left, s);
    PutSample(out, at + 2, right, s);
    assert out[..at] == whole[..at];
    assert out[..at + 4] == out[..at] + [out[at], out[at + 1], out[at + 2], out[at + 3]];
    assert whole[..at + 4] == whole[..at] + [whole[at], whole[at + 1], whole[at + 2], whole[at + 3]];
  }

  /** One channel's part of the loop body: a missing sample leaves zeros. */
  method PutSample(out: array<byte>, at: nat, channel: bytes, s: nat)
    requires at + 1 < out.Length && out[at] == out[at + 1] == 0
    modifies out
    ensures out[at] == ByteAt(channel, s, 0) && out[at + 1] == ByteAt(channel, s, 1)
    ensures forall j :: 0 <= j < out.Length && j != at && j != at + 1 ==> out[j] == old(out[j])
  {
    if 2 * s + 1 < |channel| {
      out[at] := channel[2 * s];
      out[at + 1] := channel[2 * s + 1];
    }
  }

  /** Left and right come back as the even and odd samples. */
  lemma {:induction false} InterleavedSamples(left: bytes, right: bytes, k: nat)
    ensures SampleAt(Interleave(left, right), 2 * k) == SampleAt(left, k)
    ensures SampleAt(Interleave(left, right), 2 * k + 1) == SampleAt(right, k)
  {
    hide Interleave, Sample;
    InterleavedLength(left, right);
    assert Sample(0, 0) == 0 by { SampleOfBytes(0); }
    if k < Max(|left| / 2, |right| / 2) {
      InterleavedFrame(left, right, k);
      assert 2 * (2 * k) == 4 * k && 2 * (2 * k + 1) == 4 * k + 2;
    }
  }

  function StereoByte(left: bytes, right: bytes, j: nat): byte {
    if j % 4 < 2 then ByteAt(left, j / 4, j % 4) else ByteAt(right, j / 4, j % 4 - 2)
  }

  lemma InterleavedAt(left: bytes, right: bytes, j: nat)
    requires j < |Interleave(left, right)|
    ensures Interleave(left, right)[j] == StereoByte(left, right, j)
  {
    hide ByteAt;
  }

  lemma StereoByteOfConcat(u1: bytes, b1: bytes, u2: bytes, b2: bytes, j: nat)
    requires |u1| == |b1| && |u1| % 2 == 0
    ensures j < 2 * |u1| ==> StereoByte(u1 + u2, b1 + b2, j) == StereoByte(u1, b1, j)
    ensures j >= 2 * |u1| ==> StereoByte(u1 + u2, b1 + b2, j) == StereoByte(u2, b2, j - 2 * |u1|)
  {
    hide ByteAt;
    var n := |u1| / 2;
    if j >= 4 * n {
      assert (j - 4 * n) / 4 == j / 4 - n && (j - 4 * n) % 4 == j % 4;
    }
    if j % 4 < 2 { ByteOfConcat(u1, u2, j / 4, j % 4); } else { ByteOfConcat(b1, b2, j / 4, j % 4 - 2); }
  }

  /** Interleaving aligned stretches one by one is interleaving the whole. */
  lemma InterleaveConcat(u1: bytes, b1: bytes, u2: bytes, b2: bytes)
    requires |u1| == |b1| && |u1| % 2 == 0
    ensures Interleave(u1 + u2, b1 + b2) == Interleave(u1, b1) + Interleave(u2, b2)
  {
    InterleavedLength(u1, b1);
    InterleavedLength(u2, b2);
    InterleavedLength(u1 + u2, b1 + b2);
    hide Interleave, StereoByte;
    var whole, parts := Interleave(u1 + u2, b1 + b2), Interleave(u1, b1) + Interleave(u2, b2);
    assert |whole| == |parts|;
    forall j: nat | j < |whole|
      ensures whole[j] == parts[j]
    {
      InterleavedAt(u1 + u2, b1 + b2, j);
      StereoByteOfConcat(u1, b1, u2, b2, j);
      if j < 2 * |u1| { InterleavedAt(u1, b1, j); } else { InterleavedAt(u2, b2, j - 2 * |u1|); }
    }
  }

  lemma ByteOfConcat(a: bytes, b: bytes, s: nat, h: nat)
    requires |a| % 2 == 0 && h < 2
    ensures s < |a| / 2 ==> ByteAt(a + b, s, h) == ByteAt(a, s, h)
    ensures s >= |a| / 2 ==> ByteAt(a + b, s, h) == ByteAt(b, s - |a| / 2, h)
  {
  }

  lemma InterleavedLength(left: bytes, right: bytes)
    ensures |Interleave(left, right)| == 4 * Max(|left| / 2, |right| / 2)
  {
  }

  // ----- resampling -----------------------------------------------------------------------------------

  /** Output samples for `n` input samples. */
  function OutLen(n: nat, inRate: int, outRate: int): nat
    requires inRate > 0 && outRate > 0
  {
    n * outRate / inRate
  }

  /** Input sample at or before the position of output sample `i`. */
  function SourceIndex(i: nat, inRate: int, outRate: int): nat
    requires inRate > 0 && outRate > 0
  {
    i * inRate / outRate
  }

  /** Output sample `i`: between input samples `idx` and `idx + 1`, at `frac / outRate` of the way; the last
      input sample is held. */
  function Resampled(input: bytes, inRate: int, outRate: int, i: nat): int
    requires inRate > 0 && outRate > 0
  {
    var n, idx := |input| / 2, SourceIndex(i, inRate, outRate);
    if idx + 1 >= n then SampleAt(input, Max(n - 1, 0))
    else
      var frac := i * inRate % outRate;
      Quotient(SampleAt(input, idx) * (outRate - frac) + SampleAt(input, idx + 1) * frac, outRate)
  }

  function SamplesToBytes(s: seq<int>): bytes {
    if s == [] then [] else SamplesToBytes(s[..|s| - 1]) + [Lo(s[|s| - 1]), Hi(s[|s| - 1])]
  }

  function ResampledAll(input: bytes, inRate: int, outRate: int): seq<int>
    requires inRate > 0 && outRate > 0
  {
    seq(OutLen(|input| / 2, inRate, outRate), i requires 0 <= i => Resampled(input, inRate, outRate, i))
  }

  function Resample(input: bytes, inRate: int, outRate: int): bytes {
    if inRate <= 0 || outRate <= 0 then []
    else if inRate == outRate then input
    else SamplesToBytes(ResampledAll(input, inRate, outRate))
  }

  /** Every index that is read exists. */
  lemma SourceInBounds(n: nat, inRate: int, outRate: int, i: nat)
    requires inRate > 0 && outRate > 0 && i < OutLen(n, inRate, outRate)
    ensures SourceIndex(i, inRate, outRate) < n
  {
    var len := OutLen(n, inRate, outRate);
    MulLess(i, len, inRate);
    assert len * inRate <= n * outRate;
    var idx := SourceIndex(i, inRate, outRate);
    assert idx * outRate <= i * inRate;
    if idx >= n { MulAtLeast(n, idx, outRate); }
  }

  lemma MulAtLeast(a: int, b: int, y: int)
    requires a <= b && y > 0
    ensures a * y <= b * y
  {
  }

  /** Positions in the input never go back. */
  lemma SourceMonotone(inRate: int, outRate: int, i: nat, j: nat)
    requires inRate > 0 && outRate > 0 && i <= j
    ensures SourceIndex(i, inRate, outRate) <= SourceIndex(j, inRate, outRate)
  {
    MulAtLeast(i, j, inRate);
    var p := SourceIndex(i, inRate, outRate);
    assert p * outRate <= i * inRate;
    DivAtLeast(j * inRate, outRate, p);
  }

  /** An output sample lies between its two neighbours in the input, so it fits 16 bits. */
  lemma ResampledBetween(input: bytes, inRate: int, outRate: int, i: nat)
    requires inRate > 0 && outRate > 0
    ensures var n, idx := |input| / 2, SourceIndex(i, inRate, outRate);
            var lo, hi := SampleAt(input, Min(idx, Max(n - 1, 0))), SampleAt(input, Min(idx + 1, Max(n - 1, 0)));
            Min(lo, hi) <= Resampled(input, inRate, outRate, i) <= Max(lo, hi)
    ensures -0x8000 <= Resampled(input, inRate, outRate, i) < 0x8000
  {
    hide SampleAt;
    var n, idx := |input| / 2, SourceIndex(i, inRate, outRate);
    if idx + 1 < n {
      var lo: int, hi: int, frac := SampleAt(input, idx), SampleAt(input, idx + 1), i * inRate % outRate;
      Interpolated(lo, hi, frac, outRate);
    }
  }

  /** The line through input samples `idx` and `idx + 1`, at the position of output sample `i`, times `outRate`. */
  function LineAt(lo: int, hi: int, idx: nat, inRate: int, outRate: int, i: nat): int {
    lo * outRate + (hi - lo) * (i * inRate - idx * outRate)
  }

  /** An output sample lies at position i * inRate / outRate of the input: it is the value there of the line through the
      two samples on either side, rounded towards zero; the sample itself where the position is exactly one; and the
      last sample from there on. */
  lemma ResampledOnTheLine(input: bytes, inRate: int, outRate: int, i: nat, idx: nat)
    requires inRate > 0 && outRate > 0 && idx * outRate <= i * inRate < (idx + 1) * outRate
    ensures var v, n := Resampled(input, inRate, outRate, i), |input| / 2;
            && (0 < n <= idx + 1 ==> v == SampleAt(input, n - 1))
            && (idx + 1 < n ==>
                  var x := LineAt(SampleAt(input, idx), SampleAt(input, idx + 1), idx, inRate, outRate, i);
                  && (x >= 0 ==> 0 <= x - v * outRate < outRate) && (x < 0 ==> -outRate < x - v * outRate <= 0)
                  && (i * inRate == idx * outRate ==> v == SampleAt(input, idx)))
  {
    hide SampleAt, Quotient;
    QuotientIs(i * inRate, outRate, idx);
    var frac := i * inRate - idx * outRate;
    assert i * inRate % outRate == frac;
    if idx + 1 < |input| / 2 {
      var lo: int, hi: int := SampleAt(input, idx), SampleAt(input, idx + 1);
      var x := lo * (outRate - frac) + hi * frac;
      assert x == lo * outRate + (hi - lo) * frac;
      QuotientTruncates(x, outRate);
      if frac == 0 { QuotientExact(lo, outRate); }
    }
  }

  lemma QuotientIs(x: nat, y: int, q: nat)
    requires y > 0 && q * y <= x < (q + 1) * y
    ensures x / y == q && x % y == x - q * y
  {
    DivAtLeast(x, y, q);
    var p := x / y;
    assert p * y <= x;
    if p > q { MulAtLeast(q + 1, p, y); }
  }

  lemma Interpolated(lo: int, hi: int, frac: int, outRate: int)
    requires 0 <= frac < outRate
    ensures Min(lo, hi) <= Quotient(lo * (outRate - frac) + hi * frac, outRate) <= Max(lo, hi)
  {
    hide Quotient;
    if lo <= hi {
      WeightedSum(lo, hi, outRate - frac, frac);
      QuotientBetween(lo * (outRate - frac) + hi * frac, outRate, lo, hi);
    } else {
      WeightedSum(hi, lo, frac, outRate - frac);
      QuotientBetween(lo * (outRate - frac) + hi * frac, outRate, hi, lo);
    }
  }

  lemma WeightedSum(lo: int, hi: int, a: nat, b: nat)
    requires lo <= hi
    ensures lo * (a + b) <= lo * a + hi * b <= hi * (a + b)
  {
    assert (hi - lo) * a >= 0 && (hi - lo) * b >= 0;
  }

  method Resample16MonoAlloc(input: bytes, inRate: int, outRate: int) returns (out: bytes)
    ensures out == Resample(input, inRate, outRate)
  {
    hide SampleAt, Quotient;
    if inRate <= 0 || outRate <= 0 {
      return [];
    }
    if inRate == outRate {
      return input;
    }
    var inSamples := |input| / 2;
    var outLen := inSamples * outRate / inRate;
    out := [];
    var i := 0;
    ghost var all := ResampledAll(input, inRate, outRate);
    while i < outLen
      invariant 0 <= i <= outLen == |all|
      invariant out == SamplesToBytes(all[..i])
    {
      var s := InterpolateAt(input, inRate, outRate, i);
      assert all[..i + 1][..i] == all[..i] && all[i] == s;
      out := out + [Lo(s), Hi(s)];
      i := i + 1;
    }
    assert all[..i] == all;
  }

  /** The body of the loop in Resample16Mono. */
  method InterpolateAt(input: bytes, inRate: int, outRate: int, i: nat) returns (s: int)
    requires inRate > 0 && outRate > 0 && i < OutLen(|input| / 2, inRate, outRate)
    ensures s == Resampled(input, inRate, outRate, i)
  {
    hide Sample;
    SourceInBounds(|input| / 2, inRate, outRate, i);
    var inSamples := |input| / 2;
    var idx, frac := i * inRate / outRate, i * inRate % outRate;
    if idx >= inSamples - 1 {
      idx, frac := inSamples - 1, 0;
    }
    var lo: int := Sample(input[idx * 2], input[idx * 2 + 1]);
    var hi: int := lo;
    if idx + 1 < inSamples {
      hi := Sample(input[(idx + 1) * 2], input[(idx + 1) * 2 + 1]);
    }
    s := Quotient(lo * (outRate - frac) + hi * frac, outRate);
    if frac == 0 { QuotientExact(lo, outRate); }
  }

  lemma QuotientExact(x: int, y: int)
    requires y > 0
    ensures Quotient(x * y, y) == x
  {
    QuotientBetween(x * y, y, x, x);
  }

  lemma {:induction false} BytesOfSamples(s: seq<int>, k: nat)
    ensures |SamplesToBytes(s)| == 2 * |s|
    ensures k < |s| && -0x8000 <= s[k] < 0x8000 ==> SampleAt(SamplesToBytes(s), k) == s[k]
  {
    if s != [] {
      var init, last := s[..|s| - 1], s[|s| - 1];
      BytesOfSamples(init, k);
      if -0x8000 <= last < 0x8000 { SampleOfBytes(last); }
    }
  }

  /** floor(n * out / in) samples come out, each the interpolated value. */
  lemma ResampleSamples(input: bytes, inRate: int, outRate: int, i: nat)
    requires inRate > 0 && outRate > 0 && inRate != outRate
    ensures |Resample(input, inRate, outRate)| == 2 * OutLen(|input| / 2, inRate, outRate)
    ensures i < OutLen(|input| / 2, inRate, outRate) ==>
              SampleAt(Resample(input, inRate, outRate), i) == Resampled(input, inRate, outRate, i)
  {
    hide Resampled, SampleAt;
    BytesOfSamples(ResampledAll(input, inRate, outRate), i);
    ResampledBetween(input, inRate, outRate, i);
  }

  /** At equal rates the audio is copied, and without a rate there is none. */
  lemma ResampleAtOneRate(input: bytes, rate: int)
    ensures Resample(input, rate, rate) == if rate > 0 then input else []
    ensures Resample(input, rate, 0) == [] == Resample(input, 0, rate)
  {
  }

  /** Whole samples in, whole samples out. */
  lemma ResampleKeepsEven(input: bytes, inRate: int, outRate: int)
    requires |input| % 2 == 0
    ensures |Resample(input, inRate, outRate)| % 2 == 0
  {
    hide SamplesToBytes, ResampledAll;
    if inRate > 0 && outRate > 0 {
      BytesOfSamples(ResampledAll(input, inRate, outRate), 0);
    }
  }

  /** The number of output samples is n * out / in, rounded down. */
  lemma OutLenIsFloor(n: nat, inRate: int, outRate: int)
    requires inRate > 0 && outRate > 0
    ensures OutLen(n, inRate, outRate) * inRate <= n * outRate < (OutLen(n, inRate, outRate) + 1) * inRate
  {
  }

  function Sum(ns: seq<nat>): nat {
    if ns == [] then 0 else Sum(ns[..|ns| - 1]) + ns[|ns| - 1]
  }

  function SumOut(ns: seq<nat>, inRate: int, outRate: int): nat
    requires inRate > 0 && outRate > 0
  {
    if ns == [] then 0 else SumOut(ns[..|ns| - 1], inRate, outRate) + OutLen(ns[|ns| - 1], inRate, outRate)
  }

  lemma OutLenOfSum(a: nat, b: nat, inRate: int, outRate: int)
    requires inRate > 0 && outRate > 0
    ensures OutLen(a, inRate, outRate) + OutLen(b, inRate, outRate) <= OutLen(a + b, inRate, outRate)
    ensures OutLen(a + b, inRate, outRate) <= OutLen(a, inRate, outRate) + OutLen(b, inRate, outRate) + 1
  {
    var x, y := a * outRate, b * outRate;
    assert (a + b) * outRate == x + y;
    FloorOfSum(x, y, inRate);
  }

  lemma FloorOfSum(x: nat, y: nat, d: int)
    requires d > 0
    ensures x / d + y / d <= (x + y) / d <= x / d + y / d + 1
  {
    var p, q := x / d, y / d;
    assert (p + q) * d <= x + y < (p + q + 2) * d;
    DivAtLeast(x + y, d, p + q);
    var r := (x + y) / d;
    assert r * d <= x + y;
    if r >= p + q + 2 { MulAtLeast(p + q + 2, r, d); }
  }

  /** Resampling `k` chunks separately loses at most `k - 1` samples against resampling the whole. */
  lemma {:induction false} ChunkedShortfall(ns: seq<nat>, inRate: int, outRate: int)
    requires inRate > 0 && outRate > 0 && ns != []
    ensures SumOut(ns, inRate, outRate) <= OutLen(Sum(ns), inRate, outRate) <= SumOut(ns, inRate, outRate) + |ns| - 1
  {
    hide OutLen;
    var init, last := ns[..|ns| - 1], ns[|ns| - 1];
    if init != [] {
      ChunkedShortfall(init, inRate, outRate);
      OutLenOfSum(Sum(init), last, inRate, outRate);
    }
  }
}
