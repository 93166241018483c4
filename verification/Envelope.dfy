/** The frame envelope (pkg/frames/proto/wire/envelope.go): two optional length-delimited fields.

    `ParseEnvelope` follows the source's 64-bit bound check, in which the sum of a header size and
    a declared length can wrap; Go then stops with an out-of-range slice, modelled by `Panic`.
    `PanicsExactly` says for which inputs that is. */
module Envelope {
  import opened Common
  import opened Varint

  datatype Outcome = Parsed(typ: bytes, payload: bytes) | Panic

  function Field(tag: byte, data: bytes): bytes {
    if data == [] then [] else [tag] + Encode(|data|) + data
  }

  /** Bytes appended for an envelope: an empty field is left out. */
  function Envelope(typ: bytes, payload: bytes): bytes {
    Field(0x0a, typ) + Field(0x12, payload)
  }

  /** Type behind tag 0x0a, payload behind tag 0x12, each with its length; nothing for an empty one. */
  lemma EnvelopeBytes(typ: bytes, payload: bytes)
    ensures typ != [] && payload != [] ==>
              Envelope(typ, payload) == [0x0a] + Encode(|typ|) + typ + ([0x12] + Encode(|payload|) + payload)
    ensures typ != [] ==> Envelope(typ, []) == [0x0a] + Encode(|typ|) + typ
    ensures payload != [] ==> Envelope([], payload) == [0x12] + Encode(|payload|) + payload
    ensures Envelope([], []) == []
  {
  }

  method AppendField(buf: bytes, tag: byte, data: bytes) returns (r: bytes)
    requires |data| < U64
    ensures r == buf + Field(tag, data)
  {
    hide Encode;
    if |data| == 0 {
      return buf;
    }
    r := AppendVarint(buf + [tag], |data|);
    r := r + data;
    assert r == buf + ([tag] + Encode(|data|) + data);
  }

  method AppendEnvelope(buf: bytes, typ: bytes, payload: bytes) returns (r: bytes)
    requires |typ| < U64 && |payload| < U64
    ensures r == buf + Envelope(typ, payload)
  {
    hide Field;
    r := AppendField(buf, 0x0a, typ);
    r := AppendField(r, 0x12, payload);
  }

  /** The index-based reader: the value and how many bytes it took, or (0, -1). */
  method ReadVarint(b: bytes) returns (x: uint64, n: int)
    ensures match Read(b)
            case Value(v, rest) => x == v && n == |b| - |rest|
            case _ => x == 0 && n == -1
  {
    hide Read, Shifted, Pow128, Continue;
    x, n := 0, 0;
    ReaderStart(b);
    assert b[0..] == b;
    while n < |b| && n < 10
      invariant 0 <= n <= |b| && n <= 10
      invariant n < 10 ==> x < Pow128(n) && Read(b) == Continue(x, n, Parse(b[n..], 10 - n))
      invariant n == 10 ==> Read(b).Overflow?
    {
      ReaderStep(x, n, b[n..]);
      assert b[n..][1..] == b[n + 1..];
      x := x + Shifted(b[n] % 0x80, n);
      if b[n] < 0x80 {
        return x, n + 1;
      }
      n := n + 1;
    }
    if n < 10 {
      assert b[n..] == [];
      ReaderEnd(x, n);
    }
    return 0, -1;
  }

  /** Reads fields from the front until the input stops looking like one; `typ` and `payload` are the last seen. */
  function ParseFrom(b: bytes, typ: bytes, payload: bytes): Outcome
    decreases |b|
  {
    if |b| < 2 || b[0] % 8 != 2 then Parsed(typ, payload)
    else
      match Read(b[1..])
      case Value(v, rest) =>
        ReadConsumesAVarint(b[1..]);
        var n := |b| - 1 - |rest|;
        if |b| - 1 < (n + v) % U64 then Parsed(typ, payload)
        else if |rest| < v then Panic
        else
          var data := rest[..v];
          ParseFrom(rest[v..], if b[0] / 8 == 1 then data else typ, if b[0] / 8 == 2 then data else payload)
      case _ => Parsed(typ, payload)
  }

  method ParseEnvelope(input: bytes) returns (r: Outcome)
    ensures r == ParseFrom(input, [], [])
  {
    hide Read;
    var b := input;
    var typ, payload: bytes := [], [];
    while |b| > 0
      invariant ParseFrom(b, typ, payload) == ParseFrom(input, [], [])
    {
      if |b| < 2 {
        break;
      }
      var tag := b[0];
      ghost var start := b;
      b := b[1..];
      var fieldNum, wireType := tag / 8, tag % 8;
      if wireType != 2 {
        break;
      }
      ReadConsumesAVarint(b);
      var v, n := ReadVarint(b);
      if n <= 0 || |b| < (n + v) % U64 {
        return Parsed(typ, payload);
      }
      b := b[n..];
      if v > |b| {
        return Panic; // the slice expression b[:v]
      }
      var val := b[..v];
      b := b[v..];
      match fieldNum
      case 1 => typ := val;
      case 2 => payload := val;
      case _ =>
    }
    return Parsed(typ, payload);
  }

  // ----- last one wins, round trip, and where the bound check fails -----------------------------------------

  /** A field as it stands on the wire; the length may be any varint of the data's length. */
  datatype Wired = Wired(tag: byte, len: bytes, data: bytes) {
    predicate Valid() {
      tag % 8 == 2 && IsVarint(len) && Denoted(len) % U64 == |data| && |len| + |data| < U64
    }

    function Bytes(): bytes { [tag] + (len + data) }
  }

  function WireOf(fs: seq<Wired>): bytes {
    if fs == [] then [] else fs[0].Bytes() + WireOf(fs[1..])
  }

  /** Data of the last field with this number, or `before` if there is none. */
  function Last(fs: seq<Wired>, num: nat, before: bytes): bytes {
    if fs == [] then before
    else if fs[|fs| - 1].tag / 8 == num then fs[|fs| - 1].data
    else Last(fs[..|fs| - 1], num, before)
  }

  lemma ParseOneField(f: Wired, rest: bytes, typ: bytes, payload: bytes)
    requires f.Valid()
    ensures ParseFrom(f.Bytes() + rest, typ, payload)
         == ParseFrom(rest, if f.tag / 8 == 1 then f.data else typ, if f.tag / 8 == 2 then f.data else payload)
  {
    hide Read, IsVarint, Denoted;
    var b := f.Bytes() + rest;
    assert b[1..] == f.len + (f.data + rest);
    ReadVarintBytes(f.len, f.data + rest);
    assert |f.len| >= 1 by { NonEmptyVarint(f.len); }
    assert (f.data + rest)[..|f.data|] == f.data && (f.data + rest)[|f.data|..] == rest;
  }

  lemma NonEmptyVarint(bs: bytes)
    requires IsVarint(bs)
    ensures 1 <= |bs| <= 10
  {
  }

  lemma {:induction false} LastFromFront(fs: seq<Wired>, num: nat, before: bytes)
    requires fs != []
    ensures Last(fs, num, before) == Last(fs[1..], num, if fs[0].tag / 8 == num then fs[0].data else before)
  {
    if |fs| > 1 {
      LastFromFront(fs[..|fs| - 1], num, before);
      assert fs[..|fs| - 1][1..] == fs[1..][..|fs| - 2];
    }
  }

  /** Of any fields in any order, the last type and the last payload count; unknown numbers are skipped. */
  lemma {:induction false} LastOneWins(fs: seq<Wired>, rest: bytes, typ: bytes, payload: bytes)
    requires forall i :: 0 <= i < |fs| ==> fs[i].Valid()
    ensures ParseFrom(WireOf(fs) + rest, typ, payload) == ParseFrom(rest, Last(fs, 1, typ), Last(fs, 2, payload))
  {
    hide ParseFrom;
    if fs == [] {
      assert WireOf(fs) + rest == rest;
    } else {
      var f := fs[0];
      var tail := WireOf(fs[1..]);
      assert WireOf(fs) + rest == f.Bytes() + (tail + rest);
      ParseOneField(f, tail + rest, typ, payload);
      LastOneWins(fs[1..], rest, if f.tag / 8 == 1 then f.data else typ, if f.tag / 8 == 2 then f.data else payload);
      LastFromFront(fs, 1, typ);
      LastFromFront(fs, 2, payload);
    }
  }

  lemma FieldParses(tag: byte, data: bytes, rest: bytes, typ: bytes, payload: bytes)
    requires tag % 8 == 2 && |data| + 10 < U64
    ensures ParseFrom(Field(tag, data) + rest, typ, payload)
         == ParseFrom(rest, if data != [] && tag / 8 == 1 then data else typ,
                      if data != [] && tag / 8 == 2 then data else payload)
  {
    hide ParseFrom, Encode, IsVarint, Denoted;
    if data == [] {
      assert Field(tag, data) + rest == rest;
    } else {
      Pow128Ten();
      EncodedIsVarint(|data|, 10);
      var f := Wired(tag, Encode(|data|), data);
      ParseOneField(f, rest, typ, payload);
      assert f.Bytes() == Field(tag, data);
    }
  }

  /** Parsing inverts appending. */
  lemma {:induction false} EnvelopeRoundTrip(typ: bytes, payload: bytes)
    requires |typ| + 10 < U64 && |payload| + 10 < U64
    ensures ParseFrom(Envelope(typ, payload), [], []) == Parsed(typ, payload)
  {
    hide Field;
    FieldParses(0x0a, typ, Field(0x12, payload), [], []);
    FieldParses(0x12, payload, [], typ, []);
    assert Field(0x12, payload) + [] == Field(0x12, payload);
  }

  /** The input starts with a field header whose size and declared length add up to 2^64 or more. */
  predicate LengthWraps(b: bytes) {
    |b| >= 2 && b[0] % 8 == 2 && Read(b[1..]).Value? && |b| - 1 - |Read(b[1..]).rest| + Read(b[1..]).v >= U64
  }

  lemma WrapPanics(b: bytes, typ: bytes, payload: bytes)
    requires LengthWraps(b) && |b| < U64 - 10
    ensures ParseFrom(b, typ, payload) == Panic
  {
  }

  /** It happens: a length of 2^64 - 1, written in ten bytes, behind the tag of the type field. */
  lemma OverlongLengthPanics()
    ensures ParseFrom([0x0a, 0xff, 0xff, 0xff, 0xff, 0xff, 0xff, 0xff, 0xff, 0xff, 0x01], [], []) == Panic
  {
    hide Read, Denoted, IsVarint, ParseFrom;
    var len: bytes := [0xff, 0xff, 0xff, 0xff, 0xff, 0xff, 0xff, 0xff, 0xff, 0x01];
    var b: bytes := [0x0a, 0xff, 0xff, 0xff, 0xff, 0xff, 0xff, 0xff, 0xff, 0xff, 0x01];
    assert b == [0x0a] + len;
    LargestVarint(len);
    ReadVarintBytes(len, []);
    assert b[1..] == len + [];
    WrapPanics(b, [], []);
  }

  lemma LargestVarint(len: bytes)
    requires |len| == 10 && len[9] == 1 && forall i :: 0 <= i < 9 ==> len[i] == 0xff
    ensures IsVarint(len) && Denoted(len) == U64 - 1
  {
    OneByte(len[9..]);
    hide IsVarint, Denoted;
    var k, v := 9, 1;
    while k > 0
      invariant 0 <= k <= 9 && v == 2 * Pow128(9 - k) - 1
      invariant IsVarint(len[k..]) && Denoted(len[k..]) == v
    {
      assert len[k - 1..] == [0xff] + len[k..];
      VarintGrows(0xff, len[k..]);
      k, v := k - 1, 0x7f + 0x80 * v;
    }
    assert len[0..] == len;
    Pow128Ten();
  }

  lemma OneByte(bs: bytes)
    requires bs == [1]
    ensures IsVarint(bs) && Denoted(bs) == 1
  {
  }

  /** The input is well-formed fields and then such a header. */
  ghost predicate WrapsAfter(b: bytes, fs: seq<Wired>, rest: bytes) {
    (forall i :: 0 <= i < |fs| ==> fs[i].Valid()) && WireOf(fs) + rest == b && LengthWraps(rest)
  }

  /** Parsing fails exactly on inputs that, after well-formed fields, reach such a header. */
  lemma {:induction false} PanicsExactly(b: bytes)
    requires |b| < U64 - 10
    ensures ParseFrom(b, [], []) == Panic <==> exists fs: seq<Wired>, rest: bytes :: WrapsAfter(b, fs, rest)
  {
    hide ParseFrom, LengthWraps;
    if ParseFrom(b, [], []) == Panic {
      var fs, rest := PanicWitness(b, [], []);
    }
    forall fs: seq<Wired>, rest: bytes | WrapsAfter(b, fs, rest)
      ensures ParseFrom(b, [], []) == Panic
    {
      LastOneWins(fs, rest, [], []);
      WrapPanics(rest, Last(fs, 1, []), Last(fs, 2, []));
    }
  }

  /** An input that panics later starts with a well-formed field. */
  lemma PanicStep(b: bytes, typ: bytes, payload: bytes) returns (f: Wired, rest: bytes)
    requires |b| < U64 - 10 && ParseFrom(b, typ, payload) == Panic && !LengthWraps(b)
    ensures f.Valid() && b == f.Bytes() + rest
  {
    hide Read, IsVarint, Denoted;
    ReadConsumesAVarint(b[1..]);
    var p := Read(b[1..]);
    var n := |b| - 1 - |p.rest|;
    f, rest := Wired(b[0], b[1..][..n], p.rest[..p.v]), p.rest[p.v..];
    assert b[1..] == f.len + (f.data + rest);
  }

  lemma {:induction false} PanicWitness(b: bytes, typ: bytes, payload: bytes) returns (fs: seq<Wired>, rest: bytes)
    requires |b| < U64 - 10 && ParseFrom(b, typ, payload) == Panic
    ensures WrapsAfter(b, fs, rest)
    decreases |b|
  {
    hide ParseFrom, LengthWraps;
    if LengthWraps(b) {
      fs, rest := [], b;
      assert [] + b == b;
    } else {
      var f, after := PanicStep(b, typ, payload);
      ParseOneField(f, after, typ, payload);
      var more;
      more, rest := PanicWitness(after, if f.tag / 8 == 1 then f.data else typ,
                                 if f.tag / 8 == 2 then f.data else payload);
      fs := [f] + more;
      assert fs[1..] == more;
      assert f.Bytes() + (WireOf(more) + rest) == f.Bytes() + WireOf(more) + rest;
    }
  }
}
