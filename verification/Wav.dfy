/** WAV files: the streaming recorder that writes a placeholder header and patches it at the end
    (pkg/recording/wav.go, pkg/recording/recorder.go), the one-shot writer (pkg/audio/dtmf_wav.go:54-80) and the
    decoder (pkg/audio/wav.go). Layout: Multimedia Programming Interface and Data Specifications 1.0 (IBM and
    Microsoft, 1991), chapter 3, "Waveform Audio File Format (WAVE)". File operations are taken to succeed. */
module Wav {
  import opened Common
  import opened Pcm

  function Le16(x: int): (b: bytes)
    ensures |b| == 2
  {
    [x % 0x100, (x / 0x100) % 0x100]
  }

  function Le32(x: int): (b: bytes)
    ensures |b| == 4
  {
    [x % 0x100, (x / 0x100) % 0x100, (x / 0x1_0000) % 0x100, (x / 0x100_0000) % 0x100]
  }

  function Uint16(b: bytes): nat
    requires |b| == 2
  {
    var b0: int, b1: int := b[0], b[1];
    b0 + 0x100 * b1
  }

  function Uint32(b: bytes): (u: nat)
    requires |b| == 4
    ensures u < U32
  {
    var b0: int, b1: int, b2: int, b3: int := b[0], b[1], b[2], b[3];
    b0 + 0x100 * b1 + 0x1_0000 * b2 + 0x100_0000 * b3
  }

  lemma Uint32OfLe(x: int)
    ensures Uint32(Le32(x)) == x % U32
  {
    var a, b, c := x / 0x100, x / 0x1_0000, x / 0x100_0000;
    assert b == a / 0x100 && c == b / 0x100;
    assert x == x % 0x100 + 0x100 * (a % 0x100) + 0x1_0000 * (b % 0x100) + 0x100_0000 * c;
    assert c == c % 0x100 + 0x100 * (c / 0x100);
  }

  /** The 44 bytes in front of the samples of a 16-bit mono file. */
  function Header(rate: int, riffSize: nat, dataSize: nat): (h: bytes)
    ensures |h| == 44
  {
    RiffHeader(riffSize) + FormatChunk(rate) + DataHeader(dataSize)
  }

  function RiffHeader(riffSize: nat): (h: bytes)
    ensures |h| == 12
  {
    Ascii("RIFF") + Le32(riffSize) + Ascii("WAVE")
  }

  function FormatChunk(rate: int): (h: bytes)
    ensures |h| == 24
  {
    Ascii("fmt ") + Le32(16) + Format(rate)
  }

  /** PCM, one channel, samples and bytes a second, bytes a sample frame, bits a sample. */
  function Format(rate: int): (h: bytes)
    ensures |h| == 16
  {
    Le16(1) + Le16(1) + Le32(rate) + Le32(2 * rate) + Le16(2) + Le16(16)
  }

  function DataHeader(dataSize: nat): (h: bytes)
    ensures |h| == 8
  {
    Ascii("data") + Le32(dataSize)
  }

  /** A complete file; sizes are kept modulo 2^32 by their four bytes. */
  function File(pcm: bytes, rate: int): bytes {
    Header(rate, 36 + |pcm|, |pcm|) + pcm
  }

  // ----- the one-shot writer ------------------------------------------------------------------------------

  method WritePcm16MonoWav(pcm: bytes, rate: int) returns (file: bytes)
    ensures file == File(pcm, rate)
  {
    var byteRate, blockAlign, dataSize := rate * 1 * 16 / 8, 1 * 16 / 8, |pcm| % U32;
    SizeFields(|pcm|);
    hide Ascii, Le16, Le32, RiffHeader, FormatChunk, DataHeader;
    var buf := new byte[44 + |pcm|](_ => 0);
    ghost var h := CopyRiffHeader(buf, (36 + dataSize) % U32);
    h := CopyFormatChunk(buf, h, rate, byteRate, blockAlign);
    h := CopyDataHeader(buf, h, dataSize);
    h := Copy(buf, 44, h, pcm);
    SameSizes(36 + |pcm|, (36 + dataSize) % U32);
    SameSizes(|pcm|, dataSize);
    return buf[..];
  }

  lemma SameSizes(a: nat, b: nat)
    requires Le32(a) == Le32(b)
    ensures RiffHeader(a) == RiffHeader(b) && DataHeader(a) == DataHeader(b)
  {
  }

  // Three stretches of WritePCM16MonoWAV.

  method CopyRiffHeader(buf: array<byte>, size: nat) returns (ghost after: bytes)
    requires buf.Length >= 12
    modifies buf
    ensures after == RiffHeader(size) == buf[..12]
  {
    hide Ascii, Le32;
    after := Copy(buf, 0, [], Ascii("RIFF"));
    after := Copy(buf, 4, after, Le32(size));
    after := Copy(buf, 8, after, Ascii("WAVE"));
  }

  method CopyFormatChunk(buf: array<byte>, ghost before: bytes, rate: int, byteRate: int, blockAlign: int)
    returns (ghost after: bytes)
    requires buf.Length >= 36 && |before| == 12 && buf[..12] == before && byteRate == 2 * rate && blockAlign == 2
    modifies buf
    ensures after == before + FormatChunk(rate) && after == buf[..36]
  {
    hide Ascii, Le32, Le16;
    ghost var h := Copy(buf, 12, before, Ascii("fmt "));
    h := Copy(buf, 16, h, Le32(16));
    h := CopyFormat(buf, h, rate, byteRate, blockAlign);
    assert h == before + (Ascii("fmt ") + Le32(16) + Format(rate));
    return h;
  }

  method CopyFormat(buf: array<byte>, ghost before: bytes, rate: int, byteRate: int, blockAlign: int)
    returns (ghost after: bytes)
    requires buf.Length >= 36 && |before| == 20 && buf[..20] == before && byteRate == 2 * rate && blockAlign == 2
    modifies buf
    ensures after == before + Format(rate) && after == buf[..36]
  {
    hide Le32, Le16;
    ghost var h := Copy(buf, 20, before, Le16(1));
    h := Copy(buf, 22, h, Le16(1));
    h := Copy(buf, 24, h, Le32(rate));
    h := Copy(buf, 28, h, Le32(byteRate));
    h := Copy(buf, 32, h, Le16(blockAlign));
    h := Copy(buf, 34, h, Le16(16));
    assert h == before + (Le16(1) + Le16(1) + Le32(rate) + Le32(2 * rate) + Le16(2) + Le16(16));
    return h;
  }

  method CopyDataHeader(buf: array<byte>, ghost before: bytes, size: nat) returns (ghost after: bytes)
    requires buf.Length >= 44 && |before| == 36 && buf[..36] == before
    modifies buf
    ensures after == before + DataHeader(size) && after == buf[..44]
  {
    hide Ascii, Le32;
    ghost var h := Copy(buf, 36, before, Ascii("data"));
    h := Copy(buf, 40, h, Le32(size));
    assert h == before + (Ascii("data") + Le32(size));
    return h;
  }

  /** Writes `data` at `at`, where the bytes `before` end. */
  method Copy(buf: array<byte>, at: nat, ghost before: bytes, data: bytes) returns (ghost after: bytes)
    requires at + |data| <= buf.Length && at == |before| && before == buf[..at]
    modifies buf
    ensures after == before + data && after == buf[..at + |data|]
  {
    forall i | 0 <= i < |data| {
      buf[at + i] := data[i];
    }
    after := before + data;
  }

  /** The four bytes depend on the value modulo 2^32 only. */
  lemma LeModulo(x: nat)
    ensures Le32(x % U32) == Le32(x)
  {
    var q, r := x / U32, x % U32;
    assert x == r + q * U32;
    assert x / 0x100 == r / 0x100 + q * 0x100_0000;
    assert x / 0x1_0000 == r / 0x1_0000 + q * 0x1_0000;
    assert x / 0x100_0000 == r / 0x100_0000 + q * 0x100;
    Low8(x, r, q * 0x100_0000);
    Low8(x / 0x100, r / 0x100, q * 0x1_0000);
    Low8(x / 0x1_0000, r / 0x1_0000, q * 0x100);
    Low8(x / 0x100_0000, r / 0x100_0000, q);
  }

  /** The two size fields, computed in 32 bits. */
  lemma SizeFields(n: nat)
    ensures Le32((36 + n % U32) % U32) == Le32(36 + n) && Le32(n % U32) == Le32(n)
  {
    hide Le32;
    LeModulo(36 + n % U32);
    LeModulo(36 + n);
    LeModulo(n);
    assert (36 + n % U32) % U32 == (36 + n) % U32;
  }

  lemma Low8(x: nat, r: nat, k: nat)
    requires x == r + 0x100 * k
    ensures x % 0x100 == r % 0x100
  {
  }

  // ----- the streaming recorder ---------------------------------------------------------------------------

  class ByteFile {
    var content: bytes
    var pos: nat

    ghost predicate Valid()
      reads this
    {
      pos <= |content|
    }

    constructor ()
      ensures Valid() && content == [] && pos == 0
    {
      content, pos := [], 0;
    }

    method Write(data: bytes)
      requires Valid()
      modifies this
      ensures Valid() && pos == old(pos) + |data|
      ensures content == old(content)[..old(pos)] + data + if pos <= old(|content|) then old(content)[pos..] else []
    {
      var rest := if pos + |data| <= |content| then content[pos + |data|..] else [];
      content := content[..pos] + data + rest;
      pos := pos + |data|;
    }

    method SeekStart(offset: nat)
      requires offset <= |content|
      modifies `pos
      ensures pos == offset
    {
      pos := offset;
    }

    method SeekEnd()
      modifies `pos
      ensures pos == |content|
    {
      pos := |content|;
    }
  }

  /** Appending at the end of a file. */
  method Append(f: ByteFile, data: bytes)
    requires f.Valid() && f.pos == |f.content|
    modifies f
    ensures f.Valid() && f.pos == |f.content| && f.content == old(f.content) + data
  {
    f.Write(data);
    assert old(f.content)[..old(f.pos)] == old(f.content);
    assert f.content == old(f.content) + data;
  }

  method WriteEmptyWavHeader(f: ByteFile, rate: int)
    requires f.Valid() && f.content == [] && f.pos == 0
    modifies f
    ensures f.Valid() && f.pos == 44 && f.content == Header(rate, 0, 0)
  {
    hide Ascii, Le16, Le32, Format;
    Append(f, Ascii("RIFF"));
    Append(f, Le32(0));
    Append(f, Ascii("WAVE"));
    assert f.content == RiffHeader(0);
    AppendFormatChunk(f, rate);
    Append(f, Ascii("data"));
    Append(f, Le32(0));
    assert f.content == RiffHeader(0) + FormatChunk(rate) + DataHeader(0);
  }

  /** The middle stretch of writeEmptyWAVHeader. */
  method AppendFormatChunk(f: ByteFile, rate: int)
    requires f.Valid() && f.pos == |f.content|
    modifies f
    ensures f.Valid() && f.pos == |f.content| && f.content == old(f.content) + FormatChunk(rate)
  {
    hide Ascii, Le16, Le32;
    Append(f, Ascii("fmt "));
    Append(f, Le32(16));
    ghost var before := f.content;
    Append(f, Le16(1));
    Append(f, Le16(1));
    Append(f, Le32(rate));
    Append(f, Le32(2 * rate));
    Append(f, Le16(2));
    Append(f, Le16(16));
    assert f.content == before + Format(rate);
    assert f.content == old(f.content) + FormatChunk(rate);
  }

  /** `t` is `s` with `data` written over it at `at`. */
  ghost predicate Overwritten(s: bytes, at: nat, data: bytes, t: bytes) {
    && at + |data| <= |s| == |t| && t[..at] == s[..at] && t[at..at + |data|] == data
    && t[at + |data|..] == s[at + |data|..]
  }

  method Patch(f: ByteFile, offset: nat, data: bytes)
    requires f.Valid() && offset + |data| <= |f.content|
    modifies f
    ensures f.Valid() && Overwritten(old(f.content), offset, data, f.content)
  {
    f.SeekStart(offset);
    f.Write(data);
  }

  /** The header with its two size fields taken apart. */
  lemma HeaderParts(rate: int, riffSize: nat, dataSize: nat, pcm: bytes)
    ensures var file := Header(rate, riffSize, dataSize) + pcm;
            && file[..4] == Ascii("RIFF") && file[4..8] == Le32(riffSize)
            && file[8..40] == Ascii("WAVE") + FormatChunk(rate) + Ascii("data")
            && file[40..44] == Le32(dataSize) && file[44..] == pcm
  {
    hide Ascii, Le32, FormatChunk;
    var a, b, c := Ascii("RIFF"), Le32(riffSize), Ascii("WAVE") + FormatChunk(rate) + Ascii("data");
    assert RiffHeader(riffSize) + FormatChunk(rate) + DataHeader(dataSize) == a + b + c + Le32(dataSize);
    FiveParts(a, b, c, Le32(dataSize), pcm);
  }

  lemma FiveParts(a: bytes, b: bytes, c: bytes, d: bytes, e: bytes)
    ensures var s := a + b + c + d + e;
            var i, j, k, l := |a|, |a| + |b|, |a| + |b| + |c|, |a| + |b| + |c| + |d|;
            s[..i] == a && s[i..j] == b && s[j..k] == c && s[k..l] == d && s[l..] == e
  {
  }

  lemma FromParts(file: bytes, rate: int, riffSize: nat, dataSize: nat, pcm: bytes)
    requires |file| >= 44 && file[..4] == Ascii("RIFF") && file[4..8] == Le32(riffSize)
    requires file[8..40] == Ascii("WAVE") + FormatChunk(rate) + Ascii("data")
    requires file[40..44] == Le32(dataSize) && file[44..] == pcm
    ensures file == Header(rate, riffSize, dataSize) + pcm
  {
    hide Ascii, Le32, FormatChunk;
    HeaderParts(rate, riffSize, dataSize, pcm);
    var other := Header(rate, riffSize, dataSize) + pcm;
    assert file == file[..4] + file[4..8] + file[8..40] + file[40..44] + file[44..];
    assert other == other[..4] + other[4..8] + other[8..40] + other[40..44] + other[44..];
  }

  /** False, and the file untouched, for fewer than one channel or a negative number of samples. */
  method FinalizeWav(f: ByteFile, numSamples: int, numChannels: int, ghost rate: int, ghost rest: bytes)
    returns (ok: bool)
    requires f.Valid() && f.content == Header(rate, 0, 0) + rest
    modifies f
    ensures f.Valid() && ok == (numChannels > 0 && numSamples >= 0)
    ensures ok ==> f.pos == |f.content| && var size := DataSize(numSamples, numChannels);
                   f.content == Header(rate, 36 + size, size) + rest
    ensures !ok ==> f.content == old(f.content) && f.pos == old(f.pos)
  {
    if numChannels <= 0 {
      return false;
    }
    if numSamples < 0 {
      return false;
    }
    ghost var size := DataSize(numSamples, numChannels);
    var dataSize := numSamples * numChannels * (16 / 8) % U32;
    var riffSize := (4 + 8 + 16 + 8 + dataSize) % U32;
    SizeFields(size);
    hide Ascii, Le32, Header, FormatChunk, Overwritten;
    HeaderParts(rate, 0, 0, rest);
    ghost var before := f.content;
    Patch(f, 4, Le32(riffSize));
    ghost var middle := f.content;
    Patch(f, 40, Le32(dataSize));
    f.SeekEnd();
    TwoPatches(before, Le32(riffSize), middle, Le32(dataSize), f.content);
    FromParts(f.content, rate, 36 + size, size, rest);
    return true;
  }

  function DataSize(numSamples: nat, numChannels: nat): nat {
    numSamples * numChannels * 2
  }

  lemma FileIsHeaderAndPcm(pcm: bytes, rate: int)
    ensures File(pcm, rate) == Header(rate, 36 + |pcm|, |pcm|) + pcm
  {
  }

  lemma TwoPatches(s: bytes, a: bytes, t: bytes, b: bytes, u: bytes)
    requires |a| == |b| == 4 && |s| >= 44 && Overwritten(s, 4, a, t) && Overwritten(t, 40, b, u)
    ensures u[..4] == s[..4] && u[4..8] == a && u[8..40] == s[8..40] && u[40..44] == b && u[44..] == s[44..]
  {
    assert u[..4] == u[..40][..4] == t[..4];
    assert u[4..8] == u[..40][4..8] == t[4..8];
    assert u[8..40] == u[..40][8..] == t[8..][..32] == s[8..][..32];
    assert u[44..] == t[44..] == t[8..][36..] == s[8..][36..];
  }

  class FileRecorder {
    const file: ByteFile
    const sampleRate: int
    var closed: bool
    var numSamples: nat
    ghost var written: seq<int16>

    ghost predicate Valid()
      reads this, file
    {
      && sampleRate > 0 && file.Valid() && numSamples == |written|
      && if closed then file.content == File(SamplesToBytes(written), sampleRate)
         else file.content == Header(sampleRate, 0, 0) + SamplesToBytes(written) && file.pos == |file.content|
    }

    constructor (rate: int)
      requires rate > 0
      ensures Valid() && fresh(file) && sampleRate == rate && !closed && written == []
    {
      var f := new ByteFile();
      WriteEmptyWavHeader(f, rate);
      file, sampleRate, closed, numSamples, written := f, rate, false, 0, [];
      new;
      assert Header(rate, 0, 0) + SamplesToBytes(written) == Header(rate, 0, 0);
    }

    /** False if the recorder is closed or the rate is not the recorder's. */
    method WriteSamples(samples: seq<int16>, rate: int) returns (ok: bool)
      requires Valid()
      modifies this, file
      ensures Valid() && closed == old(closed)
      ensures ok == (!old(closed) && rate == sampleRate)
      ensures written == if ok then old(written) + samples else old(written)
    {
      hide File, Header, SamplesToBytes;
      if closed || rate != sampleRate {
        return false;
      }
      if |samples| == 0 {
        assert written + samples == written;
        return true;
      }
      var buf := LittleEndian(samples);
      Append(file, buf);
      BytesOfConcat(written, samples);
      ghost var h, before, added := Header(sampleRate, 0, 0), SamplesToBytes(written), SamplesToBytes(samples);
      assert h + before + added == h + (before + added);
      numSamples := numSamples + |samples|;
      written := written + samples;
      return true;
    }

    /** Closing leaves what the one-shot writer lays out for all samples written; closing again changes nothing. */
    method Close()
      requires Valid()
      modifies this, file
      ensures Valid() && closed && written == old(written)
      ensures file.content == File(SamplesToBytes(written), sampleRate)
    {
      hide File, Header, SamplesToBytes;
      if closed {
        return;
      }
      closed := true;
      ByteLength(written);
      var _ := FinalizeWav(file, numSamples, 1, sampleRate, SamplesToBytes(written));
      FileIsHeaderAndPcm(SamplesToBytes(written), sampleRate);
    }
  }

  /** The sample loop of WriteSamples. */
  method LittleEndian(samples: seq<int16>) returns (r: bytes)
    ensures r == SamplesToBytes(samples)
  {
    hide SamplesToBytes, Lo, Hi;
    var buf := new byte[|samples| * 2](_ => 0);
    NoSamples();
    var i := 0;
    while i < |samples|
      invariant 0 <= i <= |samples|
      invariant buf[..2 * i] == SamplesToBytes(samples[..i])
    {
      var s: int := samples[i];
      var u := s % 0x1_0000;
      TwoBytes(s);
      OneMoreSample(samples, i);
      ghost var before := buf[..2 * i];
      buf[2 * i] := u % 0x100;
      buf[2 * i + 1] := u / 0x100;
      assert buf[..2 * i + 2] == before + [Lo(s), Hi(s)];
      i := i + 1;
    }
    assert samples[..i] == samples && buf[..] == buf[..2 * i];
    return buf[..];
  }

  /** The two bytes of uint16(s). */
  lemma TwoBytes(s: int)
    ensures s % 0x1_0000 % 0x100 == Lo(s) && s % 0x1_0000 / 0x100 == Hi(s)
  {
    var q, u := s / 0x1_0000, s % 0x1_0000;
    var h, l := u / 0x100, u % 0x100;
    assert s == 0x100 * (0x100 * q + h) + l;
    assert s / 0x100 == 0x100 * q + h && s % 0x100 == l;
  }

  lemma NoSamples()
    ensures SamplesToBytes([]) == []
  {
  }

  lemma OneMoreSample(samples: seq<int>, i: nat)
    requires i < |samples|
    ensures SamplesToBytes(samples[..i + 1]) == SamplesToBytes(samples[..i]) + [Lo(samples[i]), Hi(samples[i])]
  {
    hide Lo, Hi;
    assert samples[..i + 1][..i] == samples[..i];
  }

  lemma {:induction false} BytesOfConcat(a: seq<int>, b: seq<int>)
    ensures SamplesToBytes(a + b) == SamplesToBytes(a) + SamplesToBytes(b)
  {
    if b == [] {
      assert a + b == a;
    } else {
      assert (a + b)[..|a + b| - 1] == a + b[..|b| - 1];
      BytesOfConcat(a, b[..|b| - 1]);
    }
  }

  lemma {:induction false} ByteLength(s: seq<int>)
    ensures |SamplesToBytes(s)| == 2 * |s|
  {
    if s != [] { ByteLength(s[..|s| - 1]); }
  }

  // ----- the decoder ------------------------------------------------------------------------------------------

  datatype Decoded = Pcm(data: bytes, rate: nat) | TooShort | NotWav | NotPcm | NoData

  const DEFAULT_RATE := 48000

  /** The chunk at `pos`: its size field, cut down to what is there. */
  function ChunkSize(wav: bytes, pos: nat): nat
    requires pos + 8 <= |wav|
  {
    var size := Uint32(wav[pos + 4..pos + 8]);
    if pos + 8 + size > |wav| then |wav| - (pos + 8) else size
  }

  /** Samples and rate found so far, or why the file is refused. */
  datatype Found = Found(rate: nat, pcm: Option<bytes>) | Refused

  /** What one chunk with a payload does; the last of each kind counts. */
  function OnChunk(id: bytes, payload: bytes, found: Found): Found
    requires found.Found?
  {
    if id == Ascii("fmt ") then
      if |payload| < 16 then found
      else if Uint16(payload[..2]) != 1 then Refused
      else found.(rate := Uint32(payload[4..8]))
    else if id == Ascii("data") then found.(pcm := Some(payload))
    else found
  }

  /** The chunks from `pos` on; an empty one is skipped. */
  function Walk(wav: bytes, pos: nat, found: Found): Decoded
    decreases |wav| - pos
  {
    if found.Refused? then NotPcm
    else if pos + 8 > |wav| then
      if found.pcm.None? then NoData else Pcm(found.pcm.value, if found.rate == 0 then DEFAULT_RATE else found.rate)
    else
      var start, size := pos + 8, ChunkSize(wav, pos);
      Walk(wav, start + size, if size == 0 then found else OnChunk(wav[pos..pos + 4], wav[start..start + size], found))
  }

  function Decode(wav: bytes): Decoded {
    if |wav| < 44 then TooShort
    else if wav[..4] != Ascii("RIFF") || wav[8..12] != Ascii("WAVE") then NotWav
    else Walk(wav, 12, Found(0, None))
  }

  method DecodeWavToPcm(wav: bytes) returns (r: Decoded)
    ensures r == Decode(wav)
  {
    hide Ascii, Uint16, Uint32;
    if |wav| < 44 {
      return TooShort;
    }
    if wav[..4] != Ascii("RIFF") || wav[8..12] != Ascii("WAVE") {
      return NotWav;
    }
    var pos, sampleRate: nat, pcm: Option<bytes> := 12, 0, None;
    while pos + 8 <= |wav|
      invariant Walk(wav, pos, Found(sampleRate, pcm)) == Decode(wav)
    {
      var id := wav[pos..pos + 4];
      var size := Uint32(wav[pos + 4..pos + 8]);
      pos := pos + 8;
      if pos + size > |wav| {
        size := |wav| - pos;
      }
      if size == 0 {
        continue;
      }
      var payload := wav[pos..pos + size];
      if id == Ascii("fmt ") {
        if size >= 16 {
          if Uint16(payload[..2]) != 1 {
            return NotPcm;
          }
          sampleRate := Uint32(payload[4..8]);
        }
      } else if id == Ascii("data") {
        pcm := Some(payload);
      }
      pos := pos + size;
    }
    if pcm.None? {
      return NoData;
    }
    return Pcm(pcm.value, if sampleRate == 0 then DEFAULT_RATE else sampleRate);
  }

  lemma ChunkNames()
    ensures Ascii("fmt ") != Ascii("data") && Uint16(Le16(1)) == 1
  {
    assert Ascii("fmt ")[0] == 102 && Ascii("data")[0] == 100;
  }

  /** A complete file, field by field. */
  lemma FileFields(pcm: bytes, rate: int)
    ensures var f := File(pcm, rate);
            && |f| == 44 + |pcm| && f[..4] == Ascii("RIFF") && f[8..12] == Ascii("WAVE")
            && f[12..16] == Ascii("fmt ") && f[16..20] == Le32(16) && f[20..36] == Format(rate)
            && f[36..40] == Ascii("data") && f[40..44] == Le32(|pcm|) && f[44..] == pcm
  {
    hide Ascii, Le32, Format;
    HeaderParts(rate, 36 + |pcm|, |pcm|, pcm);
    var f := File(pcm, rate);
    var middle := f[8..40];
    FiveParts(Ascii("WAVE"), Ascii("fmt "), Le32(16), Format(rate), Ascii("data"));
    assert middle == Ascii("WAVE") + Ascii("fmt ") + Le32(16) + Format(rate) + Ascii("data");
    assert f[8..12] == middle[..4] && f[12..16] == middle[4..8] && f[16..20] == middle[8..12];
    assert f[20..36] == middle[12..28] && f[36..40] == middle[28..];
  }

  lemma FormatFields(rate: int)
    ensures Format(rate)[..2] == Le16(1) && Format(rate)[4..8] == Le32(rate)
  {
    hide Le16, Le32;
    FiveParts(Le16(1), Le16(1), Le32(rate), Le32(2 * rate), Le16(2) + Le16(16));
    assert Format(rate) == Le16(1) + Le16(1) + Le32(rate) + Le32(2 * rate) + (Le16(2) + Le16(16));
  }

  lemma WalkFormat(pcm: bytes, rate: int)
    ensures Walk(File(pcm, rate), 12, Found(0, None)) == Walk(File(pcm, rate), 36, Found(rate % U32, None))
  {
    hide Ascii, Le16, Le32, Uint16, Uint32, Format, File;
    var f := File(pcm, rate);
    FileFields(pcm, rate);
    FormatFields(rate);
    ChunkNames();
    Uint32OfLe(16);
    Uint32OfLe(rate);
    assert f[20..36] == f[20..20 + ChunkSize(f, 12)];
  }

  lemma WalkData(pcm: bytes, rate: int, found: nat)
    requires |pcm| < U32
    ensures Walk(File(pcm, rate), 36, Found(found, None))
         == if pcm == [] then NoData else Pcm(pcm, if found == 0 then DEFAULT_RATE else found)
  {
    hide Ascii, Le16, Le32, Uint16, Uint32, Format, File;
    var f := File(pcm, rate);
    FileFields(pcm, rate);
    ChunkNames();
    Uint32OfLe(|pcm|);
    assert ChunkSize(f, 36) == |pcm| && f[44..44 + |pcm|] == pcm;
  }

  /** Decoding a complete file gives back its samples and rate; a file without samples is refused, and
      a rate whose low 32 bits are 0 reads as 48000. */
  lemma DecodesBack(pcm: bytes, rate: int)
    requires 36 + |pcm| < U32
    ensures Decode(File(pcm, rate))
         == if pcm == [] then NoData else Pcm(pcm, if rate % U32 == 0 then DEFAULT_RATE else rate % U32)
  {
    hide Ascii, File, Walk;
    FileFields(pcm, rate);
    WalkFormat(pcm, rate);
    WalkData(pcm, rate, rate % U32);
  }

  // ----- the layout in bytes ---------------------------------------------------------------------------------

  /** The little-endian 32-bit number at `at`. */
  function Word(b: bytes, at: nat): nat
    requires at + 4 <= |b|
  {
    var b0: int, b1: int, b2: int, b3: int := b[at], b[at + 1], b[at + 2], b[at + 3];
    b0 + 0x100 * b1 + 0x1_0000 * b2 + 0x100_0000 * b3
  }

  lemma WordOfLe(b: bytes, at: nat, x: int)
    requires at + 4 <= |b| && b[at..at + 4] == Le32(x)
    ensures Word(b, at) == x % U32
  {
    Uint32OfLe(x);
    assert b[at] == b[at..at + 4][0] && b[at + 1] == b[at..at + 4][1];
    assert b[at + 2] == b[at..at + 4][2] && b[at + 3] == b[at..at + 4][3];
  }

  lemma FormatBytes(rate: int)
    ensures var f := Format(rate);
            && f[..4] == [0x01, 0x00, 0x01, 0x00] && f[4..8] == Le32(rate) && f[8..12] == Le32(2 * rate)
            && f[12..] == [0x02, 0x00, 0x10, 0x00]
  {
    hide Le32;
    FiveParts(Le16(1), Le16(1), Le32(rate), Le32(2 * rate), Le16(2) + Le16(16));
    var f := Format(rate);
    assert f == Le16(1) + Le16(1) + Le32(rate) + Le32(2 * rate) + (Le16(2) + Le16(16));
    assert f[..4] == f[..2] + f[2..4];
  }

  lemma Names()
    ensures Ascii("RIFF") == [0x52, 0x49, 0x46, 0x46] && Ascii("WAVE") == [0x57, 0x41, 0x56, 0x45]
    ensures Ascii("fmt ") == [0x66, 0x6d, 0x74, 0x20] && Ascii("data") == [0x64, 0x61, 0x74, 0x61]
  {
  }

  /** A complete file, byte for byte: RIFF, size, WAVE; a format chunk of 16 bytes saying PCM, one channel, the rate,
      two bytes a sample, 16 bits; and the samples with their size in front. */
  lemma FileBytes(pcm: bytes, rate: int)
    ensures var f := File(pcm, rate);
            && |f| == 44 + |pcm| && f[..4] == [0x52, 0x49, 0x46, 0x46] && Word(f, 4) == (36 + |pcm|) % U32
            && f[8..20] == [0x57, 0x41, 0x56, 0x45, 0x66, 0x6d, 0x74, 0x20, 16, 0, 0, 0]
            && f[20..24] == [1, 0, 1, 0] && Word(f, 24) == rate % U32 && Word(f, 28) == 2 * rate % U32
            && f[32..40] == [2, 0, 16, 0, 0x64, 0x61, 0x74, 0x61]
            && Word(f, 40) == |pcm| % U32 && f[44..] == pcm
  {
    hide Ascii, Le16, Le32, Format, File, Word;
    var f := File(pcm, rate);
    FileFields(pcm, rate);
    HeaderParts(rate, 36 + |pcm|, |pcm|, pcm);
    FileIsHeaderAndPcm(pcm, rate);
    FormatBytes(rate);
    Names();
    SixteenBytes();
    WordOfLe(f, 4, 36 + |pcm|);
    var format := f[20..36];
    assert f[20..24] == format[..4] && f[24..28] == format[4..8];
    assert f[28..32] == format[8..12] && f[32..36] == format[12..];
    WordOfLe(f, 24, rate);
    WordOfLe(f, 28, 2 * rate);
    WordOfLe(f, 40, |pcm|);
    assert f[8..20] == f[8..12] + f[12..16] + f[16..20];
    assert f[32..40] == f[32..36] + f[36..40];
  }

  lemma SixteenBytes()
    ensures Le32(16) == [16, 0, 0, 0]
  {
  }

  // ----- files of any chunks ---------------------------------------------------------------------------------

  datatype Chunk = Chunk(id: bytes, payload: bytes) {
    predicate Valid() { |id| == 4 && |payload| < U32 }

    function Bytes(): bytes { id + Le32(|payload|) + payload }
  }

  function ChunkBytes(cs: seq<Chunk>): bytes {
    if cs == [] then [] else cs[0].Bytes() + ChunkBytes(cs[1..])
  }

  function Fold(cs: seq<Chunk>, found: Found): Found {
    if cs == [] || found.Refused? then found
    else Fold(cs[1..], if cs[0].payload == [] then found else OnChunk(cs[0].id, cs[0].payload, found))
  }

  function Verdict(found: Found): Decoded {
    match found
    case Refused => NotPcm
    case Found(rate, pcm) => if pcm.None? then NoData else Pcm(pcm.value, if rate == 0 then DEFAULT_RATE else rate)
  }

  /** The samples of the last non-empty "data" chunk. */
  function LastData(cs: seq<Chunk>, before: Option<bytes>): Option<bytes> {
    if cs == [] then before
    else
      var last := cs[|cs| - 1];
      if last.id == [0x64, 0x61, 0x74, 0x61] && last.payload != [] then Some(last.payload)
      else LastData(cs[..|cs| - 1], before)
  }

  predicate IsFormat(c: Chunk) {
    c.id == [0x66, 0x6d, 0x74, 0x20] && |c.payload| >= 16
  }

  /** The rate in the last "fmt " chunk of at least 16 bytes. */
  function LastRate(cs: seq<Chunk>, before: nat): nat {
    if cs == [] then before
    else
      var last := cs[|cs| - 1];
      if IsFormat(last) then Word(last.payload, 4) else LastRate(cs[..|cs| - 1], before)
  }

  /** All of these say PCM. */
  predicate AllPcm(cs: seq<Chunk>) {
    forall i :: 0 <= i < |cs| && IsFormat(cs[i]) ==> cs[i].payload[0] == 1 && cs[i].payload[1] == 0
  }

  lemma ChunkAt(wav: bytes, c: Chunk, before: bytes, rest: bytes)
    requires c.Valid() && wav == before + (c.Bytes() + rest)
    ensures var pos := |before|;
            && pos + 8 + |c.payload| <= |wav| && wav[pos..pos + 4] == c.id && ChunkSize(wav, pos) == |c.payload|
            && wav[pos + 8..pos + 8 + |c.payload|] == c.payload
            && wav == (before + c.Bytes()) + rest && |before + c.Bytes()| == pos + 8 + |c.payload|
  {
    hide Le32, Uint32;
    Uint32OfLe(|c.payload|);
    FiveParts(before, c.id, Le32(|c.payload|), c.payload, rest);
    assert wav == before + c.id + Le32(|c.payload|) + c.payload + rest;
  }

  lemma {:induction false} WalkIsFold(wav: bytes, before: bytes, cs: seq<Chunk>, rest: bytes, found: Found)
    requires (forall i :: 0 <= i < |cs| ==> cs[i].Valid()) && |rest| < 8 && wav == before + (ChunkBytes(cs) + rest)
    ensures Walk(wav, |before|, found) == Verdict(Fold(cs, found))
    decreases |cs|
  {
    hide OnChunk, ChunkSize;
    if cs == [] {
      assert ChunkBytes(cs) + rest == rest;
    } else if found.Found? {
      var c := cs[0];
      var after := ChunkBytes(cs[1..]) + rest;
      assert ChunkBytes(cs) + rest == c.Bytes() + after;
      ChunkAt(wav, c, before, after);
      WalkIsFold(wav, before + c.Bytes(), cs[1..], rest,
                 if c.payload == [] then found else OnChunk(c.id, c.payload, found));
    }
  }

  lemma OnChunkIs(c: Chunk, found: Found)
    requires c.Valid() && found.Found? && c.payload != []
    ensures OnChunk(c.id, c.payload, found)
         == if IsFormat(c) then
              if c.payload[0] == 1 && c.payload[1] == 0 then found.(rate := Word(c.payload, 4)) else Refused
            else if c.id == [0x64, 0x61, 0x74, 0x61] then found.(pcm := Some(c.payload))
            else found
  {
    hide Ascii;
    Names();
  }

  lemma {:induction false} LastFromFront(cs: seq<Chunk>, rate: nat, pcm: Option<bytes>)
    requires cs != []
    ensures LastRate(cs, rate) == LastRate(cs[1..], if IsFormat(cs[0]) then Word(cs[0].payload, 4) else rate)
    ensures LastData(cs, pcm) == LastData(cs[1..], if cs[0].id == [0x64, 0x61, 0x74, 0x61] && cs[0].payload != []
                                                   then Some(cs[0].payload) else pcm)
  {
    if |cs| > 1 {
      LastFromFront(cs[..|cs| - 1], rate, pcm);
      assert cs[..|cs| - 1][1..] == cs[1..][..|cs| - 2];
    }
  }

  lemma {:induction false} FoldIsLast(cs: seq<Chunk>, found: Found)
    requires found.Found? && forall i :: 0 <= i < |cs| ==> cs[i].Valid()
    ensures Fold(cs, found) == if AllPcm(cs) then Found(LastRate(cs, found.rate), LastData(cs, found.pcm)) else Refused
    decreases |cs|
  {
    hide OnChunk, Word;
    if cs != [] {
      var c := cs[0];
      LastFromFront(cs, found.rate, found.pcm);
      assert AllPcm(cs) <==> AllPcm([c]) && AllPcm(cs[1..]) by { AllPcmSplits(cs); }
      if c.payload != [] { OnChunkIs(c, found); }
      var next := if c.payload == [] then found else OnChunk(c.id, c.payload, found);
      if next.Found? { FoldIsLast(cs[1..], next); }
    }
  }

  lemma AllPcmSplits(cs: seq<Chunk>)
    requires cs != []
    ensures AllPcm(cs) <==> AllPcm([cs[0]]) && AllPcm(cs[1..])
  {
    if AllPcm([cs[0]]) && AllPcm(cs[1..]) {
      forall i | 0 <= i < |cs| && IsFormat(cs[i])
        ensures cs[i].payload[0] == 1 && cs[i].payload[1] == 0
      {
        if i == 0 { assert IsFormat([cs[0]][0]); } else { assert IsFormat(cs[1..][i - 1]); }
      }
    }
    if AllPcm(cs) {
      forall i | 0 <= i < |cs[1..]| && IsFormat(cs[1..][i])
        ensures cs[1..][i].payload[0] == 1 && cs[1..][i].payload[1] == 0
      {
        assert IsFormat(cs[i + 1]);
      }
    }
  }

  /** Whatever chunks a file is made of, known or not, in any order: it decodes to the samples of the last non-empty
      data chunk at the rate of the last format chunk, 48000 without one; it is refused if a format chunk is not PCM,
      or without samples. Up to seven bytes at the end are ignored. */
  lemma DecodesAnyChunks(size: bytes, cs: seq<Chunk>, rest: bytes)
    requires |size| == 4 && (forall i :: 0 <= i < |cs| ==> cs[i].Valid()) && |rest| < 8
    requires 12 + |ChunkBytes(cs)| + |rest| >= 44
    ensures Decode([0x52, 0x49, 0x46, 0x46] + size + [0x57, 0x41, 0x56, 0x45] + (ChunkBytes(cs) + rest))
         == if !AllPcm(cs) then NotPcm
            else if LastData(cs, None).None? then NoData
            else Pcm(LastData(cs, None).value, if LastRate(cs, 0) == 0 then 48000 else LastRate(cs, 0))
  {
    hide Ascii, Walk, ChunkBytes, LastData, LastRate, AllPcm, Fold;
    Names();
    var before := [0x52, 0x49, 0x46, 0x46] + size + [0x57, 0x41, 0x56, 0x45];
    var wav := before + (ChunkBytes(cs) + rest);
    assert wav[..4] == [0x52, 0x49, 0x46, 0x46] && wav[8..12] == [0x57, 0x41, 0x56, 0x45];
    WalkIsFold(wav, before, cs, rest, Found(0, None));
    FoldIsLast(cs, Found(0, None));
  }
}
