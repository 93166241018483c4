/** Tags, varints and length-delimited fields of the frame wire format, and the field loop of its
    decoders (pkg/frames/serialize/wire.go:44-108 and 214-379).

    `Collect` is the meaning of a decode loop: a table with the last value of every field number.
    `LastOneWins` proves it of any well-formed fields in any order (Protocol Buffers Encoding,
    "Last One Wins"); `OrderIrrelevant` and `LaterPayloadOverrides` are what follows. */
module Wire {
  import opened Common
  import opened Varint

  const VARINT := 0
  const LENGTH_DELIMITED := 2
  const MAX_LENGTH := 1_000_000_000

  datatype Error = Eof | UnexpectedEof | VarintOverflow | TooLong | NotLengthDelimited
                 | UnknownField(num: nat) | BadJson

  datatype Result<+T> = Ok(value: T) | Fail(error: Error)

  /** A result together with the input left after it. */
  datatype Step<+T> = Step(r: Result<T>, rest: bytes)

  function ReadNum(s: bytes): Step<uint64> {
    match Read(s)
    case Value(v, rest) => Step(Ok(v), rest)
    case End => Step(Fail(Eof), [])
    case Overflow(rest) => Step(Fail(VarintOverflow), rest)
  }

  /** `n` bytes; an input that ends at once is a plain end of input, one that ends midway is not. */
  function ReadFull(s: bytes, n: nat): Step<bytes> {
    if n == 0 then Step(Ok([]), s)
    else if s == [] then Step(Fail(Eof), [])
    else if |s| < n then Step(Fail(UnexpectedEof), [])
    else Step(Ok(s[..n]), s[n..])
  }

  function ReadBlob(s: bytes): Step<bytes> {
    var n := ReadNum(s);
    match n.r
    case Fail(e) => Step(Fail(e), n.rest)
    case Ok(len) => if len > MAX_LENGTH then Step(Fail(TooLong), n.rest) else ReadFull(n.rest, len)
  }

  // ----- the reader -----------------------------------------------------------------------------------

  class ByteReader {
    var data: bytes

    constructor (data: bytes)
      ensures this.data == data
    {
      this.data := data;
    }

    /** io.ReadFull over the source's Read. */
    method ReadExactly(n: nat) returns (r: Result<bytes>)
      modifies this
      ensures Step(r, data) == ReadFull(old(data), n)
    {
      if n == 0 {
        return Ok([]);
      }
      if |data| == 0 {
        return Fail(Eof);
      }
      if |data| < n {
        data := [];
        return Fail(UnexpectedEof);
      }
      r := Ok(data[..n]);
      data := data[n..];
    }

    method ReadVarint() returns (r: Result<uint64>)
      modifies this
      ensures Step(r, data) == ReadNum(old(data))
    {
      hide Read, Shifted, Pow128, Continue;
      var x: nat, i: nat := 0, 0;
      ReaderStart(data);
      while i < 10
        invariant i <= 10
        invariant i < 10 ==> x < Pow128(i) && Read(old(data)) == Continue(x, i, Parse(data, 10 - i))
        invariant i == 10 ==> Read(old(data)) == Overflow(data)
      {
        ghost var before := data;
        var b := ReadExactly(1);
        if b.Fail? {
          ReaderEnd(x, i);
          return Fail(Eof);
        }
        ReaderStep(x, i, before);
        var c := b.value[0];
        x := x + Shifted(c % 0x80, i);
        if c < 0x80 {
          return Ok(x);
        }
        i := i + 1;
      }
      return Fail(VarintOverflow);
    }

    method ReadTag() returns (r: Result<(nat, nat)>)
      modifies this
      ensures var s := ReadNum(old(data));
              data == s.rest && r == if s.r.Ok? then Ok((s.r.value / 8, s.r.value % 8)) else Fail(s.r.error)
    {
      hide ReadNum;
      var v := ReadVarint();
      return if v.Ok? then Ok((v.value / 8, v.value % 8)) else Fail(v.error);
    }

    method ReadLengthDelimited() returns (r: Result<bytes>)
      modifies this
      ensures Step(r, data) == ReadBlob(old(data))
    {
      hide ReadNum;
      var n := ReadVarint();
      if n.Fail? {
        return Fail(n.error);
      }
      if n.value > MAX_LENGTH {
        return Fail(TooLong);
      }
      r := ReadExactly(n.value);
    }
  }

  lemma ReadsShorten(s: bytes)
    ensures |ReadNum(s).rest| <= |s| && (ReadNum(s).r.Ok? ==> |ReadNum(s).rest| < |s|)
    ensures |ReadBlob(s).rest| <= |s|
  {
    hide Parse;
    ReadConsumesAVarint(s);
    OverflowLeavesLess(s, 10);
  }

  lemma {:induction false} OverflowLeavesLess(s: bytes, left: nat)
    ensures Parse(s, left).Overflow? ==> |Parse(s, left).rest| <= |s|
    decreases left
  {
    if left > 0 && s != [] {
      OverflowLeavesLess(s[1..], left - 1);
    }
  }

  // ----- what a decode loop collects ----------------------------------------------------------------------

  /** Last value seen of every varint field and of every length-delimited field. */
  datatype Fields = Fields(nums: map<nat, uint64>, blobs: map<nat, bytes>) {
    function Num(n: nat): uint64 { if n in nums then nums[n] else 0 }
    function Blob(n: nat): bytes { if n in blobs then blobs[n] else [] }
    function SetNum(n: nat, v: uint64): Fields { this.(nums := nums[n := v]) }
    function SetBlob(n: nat, b: bytes): Fields { this.(blobs := blobs[n := b]) }
  }

  const NONE := Fields(map[], map[])

  /** The loop ends at the first tag that meets the end of input, even inside the tag. A varint that cannot be
      read counts as 0 unless the decoder is strict; other wire types are skipped by their tag alone. */
  function Collect(strict: bool, s: bytes, acc: Fields): Result<Fields>
    decreases |s|
  {
    ReadsShorten(s);
    var tag := ReadNum(s);
    match tag.r
    case Fail(e) => if e == Eof then Ok(acc) else Fail(e)
    case Ok(t) =>
      ReadsShorten(tag.rest);
      if t % 8 == VARINT then
        var v := ReadNum(tag.rest);
        if v.r.Ok? then Collect(strict, v.rest, acc.SetNum(t / 8, v.r.value))
        else if strict then Fail(v.r.error)
        else Collect(strict, v.rest, acc.SetNum(t / 8, 0))
      else if t % 8 == LENGTH_DELIMITED then
        var b := ReadBlob(tag.rest);
        if b.r.Ok? then Collect(strict, b.rest, acc.SetBlob(t / 8, b.r.value)) else Fail(b.r.error)
      else Collect(strict, tag.rest, acc)
  }

  // ----- last one wins ---------------------------------------------------------------------------------------

  /** A field as it stands on the wire. Its tag, value and length may be any varints of their values. */
  datatype Wired = NumField(tag: bytes, value: bytes) | BlobField(tag: bytes, len: bytes, data: bytes) {
    function Tag(): nat { Denoted(tag) % U64 }
    function Number(): nat { Tag() / 8 }

    predicate Valid() {
      && IsVarint(tag)
      && match this
         case NumField(_, value) => Tag() % 8 == VARINT && IsVarint(value)
         case BlobField(_, len, data) =>
           Tag() % 8 == LENGTH_DELIMITED && IsVarint(len) && Denoted(len) % U64 == |data| && |data| <= MAX_LENGTH
    }

    function Bytes(): bytes {
      match this
      case NumField(tag, value) => tag + value
      case BlobField(tag, len, data) => tag + (len + data)
    }

    function ApplyTo(acc: Fields): Fields {
      match this
      case NumField(_, value) => acc.SetNum(Number(), Denoted(value) % U64)
      case BlobField(_, _, data) => acc.SetBlob(Number(), data)
    }
  }

  function WireOf(fs: seq<Wired>): bytes {
    if fs == [] then [] else fs[0].Bytes() + WireOf(fs[1..])
  }

  function Apply(fs: seq<Wired>, acc: Fields): Fields {
    if fs == [] then acc else Apply(fs[1..], fs[0].ApplyTo(acc))
  }

  ghost predicate AllValid(fs: seq<Wired>) {
    forall i :: 0 <= i < |fs| ==> fs[i].Valid()
  }

  lemma CollectOne(strict: bool, f: Wired, rest: bytes, acc: Fields)
    requires f.Valid()
    ensures Collect(strict, f.Bytes() + rest, acc) == Collect(strict, rest, f.ApplyTo(acc))
  {
    hide Read, IsVarint, Denoted;
    match f
    case NumField(tag, value) =>
      assert f.Bytes() + rest == tag + (value + rest);
      ReadVarintBytes(tag, value + rest);
      ReadVarintBytes(value, rest);
    case BlobField(tag, len, data) =>
      assert f.Bytes() + rest == tag + (len + (data + rest));
      ReadVarintBytes(tag, len + (data + rest));
      ReadVarintBytes(len, data + rest);
      BlobIsRead(data, rest);
  }

  lemma BlobIsRead(data: bytes, rest: bytes)
    ensures ReadFull(data + rest, |data|) == Step(Ok(data), rest)
  {
  }

  lemma {:induction false} CollectAll(strict: bool, fs: seq<Wired>, rest: bytes, acc: Fields)
    requires AllValid(fs)
    ensures Collect(strict, WireOf(fs) + rest, acc) == Collect(strict, rest, Apply(fs, acc))
    decreases |fs|
  {
    hide Collect;
    if fs == [] {
      assert WireOf(fs) + rest == rest;
    } else {
      assert WireOf(fs) + rest == fs[0].Bytes() + (WireOf(fs[1..]) + rest);
      CollectOne(strict, fs[0], WireOf(fs[1..]) + rest, acc);
      CollectAll(strict, fs[1..], rest, fs[0].ApplyTo(acc));
    }
  }

  lemma CollectEnds(strict: bool, acc: Fields)
    ensures Collect(strict, [], acc) == Ok(acc)
  {
  }

  // ----- payloads that stop short ------------------------------------------------------------------------------

  /** The header of a length-delimited field that declares `n` bytes. */
  ghost predicate BlobHead(tag: bytes, len: bytes, n: nat) {
    IsVarint(tag) && Denoted(tag) % U64 % 8 == 2 && IsVarint(len) && Denoted(len) % U64 == n
  }

  /** Data that stop short of the declared length are refused, and so is a length over 10^9 in any case. */
  lemma TruncatedData(strict: bool, fs: seq<Wired>, tag: bytes, len: bytes, n: nat, part: bytes)
    requires AllValid(fs) && BlobHead(tag, len, n) && (|part| < n || n > 1_000_000_000)
    ensures Collect(strict, WireOf(fs) + (tag + (len + part)), NONE)
         == Fail(if n > 1_000_000_000 then TooLong else if part == [] then Eof else UnexpectedEof)
  {
    CollectAll(strict, fs, tag + (len + part), NONE);
    ShortData(strict, tag, len, n, part, Apply(fs, NONE));
  }

  lemma ShortData(strict: bool, tag: bytes, len: bytes, n: nat, part: bytes, acc: Fields)
    requires BlobHead(tag, len, n) && (|part| < n || n > 1_000_000_000)
    ensures Collect(strict, tag + (len + part), acc)
         == Fail(if n > 1_000_000_000 then TooLong else if part == [] then Eof else UnexpectedEof)
  {
    hide Read, IsVarint, Denoted;
    ReadVarintBytes(tag, len + part);
    ReadVarintBytes(len, part);
  }

  /** The beginning of a varint that goes on. */
  predicate Unfinished(part: bytes) {
    |part| < 10 && forall i :: 0 <= i < |part| ==> part[i] >= 0x80
  }

  lemma {:induction false} UnfinishedEnds(part: bytes, left: nat)
    requires |part| < left && forall i :: 0 <= i < |part| ==> part[i] >= 0x80
    ensures Parse(part, left) == End
  {
    if part != [] { UnfinishedEnds(part[1..], left - 1); }
  }

  /** A payload that stops inside a tag is taken for complete; one that stops inside a number is refused by a strict
      decoder, and for another the number is 0. */
  lemma TruncatedVarint(strict: bool, fs: seq<Wired>, tag: bytes, part: bytes)
    requires AllValid(fs) && Unfinished(part)
    ensures Collect(strict, WireOf(fs) + part, NONE) == Ok(Apply(fs, NONE))
    ensures IsVarint(tag) && Denoted(tag) % U64 % 8 == 0 ==>
              Collect(strict, WireOf(fs) + (tag + part), NONE) ==
                if strict then Fail(Eof) else Ok(Apply(fs, NONE).SetNum(Denoted(tag) % U64 / 8, 0))
  {
    UnfinishedEnds(part, 10);
    CollectAll(strict, fs, part, NONE);
    CollectAll(strict, fs, tag + part, NONE);
    if IsVarint(tag) && Denoted(tag) % U64 % 8 == 0 { ShortNumber(strict, tag, part, Apply(fs, NONE)); }
  }

  lemma ShortNumber(strict: bool, tag: bytes, part: bytes, acc: Fields)
    requires IsVarint(tag) && Denoted(tag) % U64 % 8 == 0 && Read(part) == End
    ensures Collect(strict, tag + part, acc)
         == if strict then Fail(Eof) else Ok(acc.SetNum(Denoted(tag) % U64 / 8, 0))
  {
    hide Read, IsVarint, Denoted;
    ReadVarintBytes(tag, part);
    CollectEnds(strict, acc.SetNum(Denoted(tag) % U64 / 8, 0));
  }

  /** Kind and number of a field: what a later field has to share to override it. */
  datatype Key = Key(blob: bool, num: nat)

  function KeyOf(f: Wired): Key {
    Key(f.BlobField?, f.Number())
  }

  /** Index of the last field with this key, or -1. */
  function LastIndex(fs: seq<Wired>, k: Key): (i: int)
    ensures -1 <= i < |fs|
    ensures i >= 0 ==> KeyOf(fs[i]) == k
    ensures forall j :: i < j < |fs| ==> KeyOf(fs[j]) != k
  {
    if fs == [] then -1
    else if KeyOf(fs[|fs| - 1]) == k then |fs| - 1
    else LastIndex(fs[..|fs| - 1], k)
  }

  /** The two tables hold the same under this key. */
  predicate AgreeOn(a: Fields, b: Fields, k: Key) {
    if k.blob then (k.num in a.blobs <==> k.num in b.blobs) && a.Blob(k.num) == b.Blob(k.num)
    else (k.num in a.nums <==> k.num in b.nums) && a.Num(k.num) == b.Num(k.num)
  }

  lemma {:induction false} ApplyConcat(fs: seq<Wired>, gs: seq<Wired>, acc: Fields)
    ensures Apply(fs + gs, acc) == Apply(gs, Apply(fs, acc))
    decreases |fs|
  {
    if fs == [] {
      assert fs + gs == gs;
    } else {
      assert (fs + gs)[1..] == fs[1..] + gs;
      ApplyConcat(fs[1..], gs, fs[0].ApplyTo(acc));
    }
  }

  lemma ApplyOne(f: Wired, acc: Fields)
    ensures Apply([f], acc) == f.ApplyTo(acc)
  {
  }

  /** The table holds, under every key, what the last field with that key put there. */
  lemma {:induction false} ApplyKeepsLast(fs: seq<Wired>, acc: Fields, k: Key)
    ensures var i := LastIndex(fs, k);
            AgreeOn(Apply(fs, acc), if i >= 0 then fs[i].ApplyTo(acc) else acc, k)
    decreases |fs|
  {
    if fs != [] {
      var init, f := fs[..|fs| - 1], fs[|fs| - 1];
      assert fs == init + [f];
      ApplyConcat(init, [f], acc);
      ApplyOne(f, Apply(init, acc));
      ApplyKeepsLast(init, acc, k);
    }
  }

  /** A payload of any well-formed fields, in any order, decodes to the last value of each field. */
  lemma LastOneWins(strict: bool, fs: seq<Wired>)
    requires AllValid(fs)
    ensures var r := Collect(strict, WireOf(fs), NONE);
            r.Ok? && forall k: Key :: var i := LastIndex(fs, k);
                                      AgreeOn(r.value, if i >= 0 then fs[i].ApplyTo(NONE) else NONE, k)
  {
    hide Collect, Apply, AgreeOn;
    assert WireOf(fs) + [] == WireOf(fs);
    CollectAll(strict, fs, [], NONE);
    CollectEnds(strict, Apply(fs, NONE));
    forall k: Key
      ensures var i := LastIndex(fs, k); AgreeOn(Apply(fs, NONE), if i >= 0 then fs[i].ApplyTo(NONE) else NONE, k)
    {
      ApplyKeepsLast(fs, NONE, k);
    }
  }

  lemma AgreeOnAll(a: Fields, b: Fields)
    requires forall k: Key :: AgreeOn(a, b, k)
    ensures a == b
  {
    forall n: nat
      ensures (n in a.nums <==> n in b.nums) && a.Num(n) == b.Num(n)
      ensures (n in a.blobs <==> n in b.blobs) && a.Blob(n) == b.Blob(n)
    {
      assert AgreeOn(a, b, Key(false, n)) && AgreeOn(a, b, Key(true, n));
    }
    assert a.nums == b.nums && a.blobs == b.blobs;
  }

  /** No two fields share a key. */
  ghost predicate DistinctKeys(fs: seq<Wired>) {
    forall i, j :: 0 <= i < j < |fs| ==> KeyOf(fs[i]) != KeyOf(fs[j])
  }

  /** Permuting distinct fields changes nothing. */
  lemma OrderIrrelevant(strict: bool, fs: seq<Wired>, gs: seq<Wired>)
    requires AllValid(fs) && AllValid(gs) && multiset(fs) == multiset(gs) && DistinctKeys(fs) && DistinctKeys(gs)
    ensures Collect(strict, WireOf(fs), NONE) == Collect(strict, WireOf(gs), NONE)
  {
    hide Collect, WireOf, AgreeOn;
    LastOneWins(strict, fs);
    LastOneWins(strict, gs);
    var a, b := Collect(strict, WireOf(fs), NONE).value, Collect(strict, WireOf(gs), NONE).value;
    forall k: Key
      ensures AgreeOn(a, b, k)
    {
      SameLast(fs, gs, k);
      AgreeTransitive(a, b, if LastIndex(fs, k) >= 0 then fs[LastIndex(fs, k)].ApplyTo(NONE) else NONE, k);
    }
    AgreeOnAll(a, b);
  }

  lemma AgreeTransitive(a: Fields, b: Fields, c: Fields, k: Key)
    requires AgreeOn(a, c, k) && AgreeOn(b, c, k)
    ensures AgreeOn(a, b, k)
  {
  }

  lemma SameLast(fs: seq<Wired>, gs: seq<Wired>, k: Key)
    requires multiset(fs) == multiset(gs) && DistinctKeys(fs) && DistinctKeys(gs)
    ensures var i, j := LastIndex(fs, k), LastIndex(gs, k);
            (i >= 0 <==> j >= 0) && (i >= 0 ==> fs[i] == gs[j])
  {
    LastIsAlsoIn(fs, gs, k);
    LastIsAlsoIn(gs, fs, k);
  }

  lemma LastIsAlsoIn(fs: seq<Wired>, gs: seq<Wired>, k: Key)
    requires multiset(fs) == multiset(gs) && DistinctKeys(gs)
    ensures var i, j := LastIndex(fs, k), LastIndex(gs, k);
            i >= 0 ==> j >= 0 && fs[i] == gs[j]
  {
    hide KeyOf;
    var i := LastIndex(fs, k);
    if i >= 0 {
      assert fs[i] in multiset(gs);
      var m :| 0 <= m < |gs| && gs[m] == fs[i];
      assert KeyOf(gs[m]) == k;
    }
  }

  /** Two payloads one after the other: the second overrides the first field by field. */
  lemma {:induction false} LaterPayloadOverrides(strict: bool, fs: seq<Wired>, gs: seq<Wired>)
    requires AllValid(fs) && AllValid(gs)
    ensures var a, b := Collect(strict, WireOf(fs), NONE), Collect(strict, WireOf(gs), NONE);
            && a.Ok? && b.Ok?
            && Collect(strict, WireOf(fs) + WireOf(gs), NONE) == Ok(Override(a.value, b.value))
  {
    hide Collect, AgreeOn;
    assert WireOf(fs) + [] == WireOf(fs) && WireOf(gs) + [] == WireOf(gs);
    CollectAll(strict, fs, [], NONE);
    CollectAll(strict, gs, [], NONE);
    CollectAll(strict, fs, WireOf(gs), NONE);
    CollectAll(strict, gs, [], Apply(fs, NONE));
    CollectEnds(strict, Apply(fs, NONE));
    CollectEnds(strict, Apply(gs, NONE));
    CollectEnds(strict, Apply(gs, Apply(fs, NONE)));
    ApplyOverrides(gs, Apply(fs, NONE));
  }

  function Override(a: Fields, b: Fields): Fields {
    Fields(a.nums + b.nums, a.blobs + b.blobs)
  }

  lemma FieldOverrides(f: Wired, a: Fields, b: Fields)
    ensures f.ApplyTo(Override(a, b)) == Override(a, f.ApplyTo(b))
  {
    hide Denoted;
    match f
    case NumField(_, value) =>
      var n, v := f.Number(), Denoted(value) % U64;
      assert (a.nums + b.nums)[n := v] == a.nums + b.nums[n := v];
    case BlobField(_, _, data) =>
      var n := f.Number();
      assert (a.blobs + b.blobs)[n := data] == a.blobs + b.blobs[n := data];
  }

  lemma {:induction false} ApplyOverrides(gs: seq<Wired>, acc: Fields)
    ensures Apply(gs, acc) == Override(acc, Apply(gs, NONE))
    decreases |gs|
  {
    hide Override;
    if gs == [] {
      OverrideByNothing(acc);
    } else {
      var init, f := gs[..|gs| - 1], gs[|gs| - 1];
      assert gs == init + [f];
      ApplyConcat(init, [f], acc);
      ApplyConcat(init, [f], NONE);
      ApplyOne(f, Apply(init, acc));
      ApplyOne(f, Apply(init, NONE));
      ApplyOverrides(init, acc);
      FieldOverrides(f, acc, Apply(init, NONE));
    }
  }

  lemma OverrideByNothing(a: Fields)
    ensures Override(a, NONE) == a
  {
  }
}
