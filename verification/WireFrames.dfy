/** Frames on the wire (pkg/frames/serialize/wire.go:110-212 and 227-400).

    The encoders are value-building functions as in the source; the decoders are methods over a byte
    reader, proved to return what `Collect` says of the payload. `RoundTrip` says for every frame what
    decoding its encoding yields, `LosslessExactly` when that is all the frame carried. What is JSON of a
    transport message is an uninterpreted predicate of its bytes. Go's int is 64 bits wide. */
module WireFrames {
  import opened Common
  import opened Varint
  import opened Wire

  type int64 = x: int | -0x8000_0000_0000_0000 <= x < 0x8000_0000_0000_0000

  /** uint64(x) of a signed value, and back. */
  function Unsigned(x: int64): uint64 { x % U64 }

  function Signed(u: uint64): int64 { if u >= 0x8000_0000_0000_0000 then u - U64 else u }

  datatype AudioKind = Raw | Output | Tts

  /** `name` is the "name" metadata entry. */
  datatype Frame =
    | Text(id: uint64, text: bytes, appendToContext: bool, name: Option<bytes>)
    | Transcription(id: uint64, text: bytes, userId: bytes, timestamp: bytes, language: bytes, finalized: bool,
                    appendToContext: bool, name: Option<bytes>)
    | Audio(kind: AudioKind, id: uint64, audio: bytes, sampleRate: int64, numChannels: int64, numFrames: int,
            pts: Option<int64>, name: Option<bytes>)
    | Message(id: uint64, json: bytes)
    | Unsupported(id: uint64)

  // ----- encoding -------------------------------------------------------------------------------------

  function AppendTag(buf: bytes, num: nat, wireType: nat): bytes
  {
    buf + Encode(8 * num + wireType)
  }

  function AppendNum(buf: bytes, num: nat, v: uint64): bytes {
    AppendTag(buf, num, VARINT) + Encode(v)
  }

  function AppendLengthDelimited(buf: bytes, num: nat, data: bytes): bytes {
    AppendTag(buf, num, LENGTH_DELIMITED) + Encode(|data|) + data
  }

  function Decimal(n: nat): bytes {
    if n < 10 then [48 + n] else Decimal(n / 10) + [48 + n % 10]
  }

  function TypeName(f: Frame): bytes {
    match f
    case Text(_, _, _, _) => Ascii("TextFrame")
    case Transcription(_, _, _, _, _, _, _, _) => Ascii("TranscriptionFrame")
    case Audio(kind, _, _, _, _, _, _, _) =>
      if kind == Raw then Ascii("AudioRawFrame")
      else if kind == Output then Ascii("OutputAudioRawFrame")
      else Ascii("TTSAudioRawFrame")
    case Message(_, _) => Ascii("TransportMessageFrame")
    case Unsupported(_) => Ascii("Frame")
  }

  function Name(f: Frame): (n: bytes)
    ensures n != []
  {
    TypeName(f) + [35] + Decimal(f.id)
  }

  /** The inner message of a supported frame. */
  function Payload(f: Frame): bytes {
    match f
    case Text(id, text, _, _) =>
      var buf := AppendNum([], 1, id);
      var buf := AppendLengthDelimited(buf, 2, Name(f));
      AppendLengthDelimited(buf, 3, text)
    case Transcription(id, text, userId, timestamp, _, _, _, _) =>
      var buf := AppendNum([], 1, id);
      var buf := AppendLengthDelimited(buf, 2, Name(f));
      var buf := AppendLengthDelimited(buf, 3, text);
      var buf := AppendLengthDelimited(buf, 4, userId);
      AppendLengthDelimited(buf, 5, timestamp)
    case Audio(_, id, audio, sampleRate, numChannels, _, pts, _) =>
      var buf := AppendNum([], 1, id);
      var buf := AppendLengthDelimited(buf, 2, Name(f));
      var buf := AppendLengthDelimited(buf, 3, audio);
      var buf := AppendNum(buf, 4, Unsigned(sampleRate));
      var buf := AppendNum(buf, 5, Unsigned(numChannels));
      if pts.Some? then AppendNum(buf, 6, Unsigned(pts.value)) else buf
    case Message(_, json) => AppendLengthDelimited([], 1, json)
    case Unsupported(_) => []
  }

  function FieldNumber(f: Frame): nat {
    match f
    case Text(_, _, _, _) => 1
    case Audio(_, _, _, _, _, _, _, _) => 2
    case Transcription(_, _, _, _, _, _, _, _) => 3
    case Message(_, _) => 4
    case Unsupported(_) => 0
  }

  function EncodeFrame(f: Frame): Option<bytes> {
    if f.Unsupported? then None else Some(AppendLengthDelimited([], FieldNumber(f), Payload(f)))
  }

  // ----- decoding -------------------------------------------------------------------------------------

  /** An ID of 0 counts as absent: the frame gets a new one. */
  function IdOr(id: uint64, newId: uint64): uint64 {
    if id != 0 then id else newId
  }

  function NameMeta(name: bytes): Option<bytes> {
    if name != [] then Some(name) else None
  }

  function NumFrames(audio: bytes, numChannels: int): int {
    if numChannels > 0 then |audio| / (numChannels * 2) else 0
  }

  function TextOf(fs: Fields, newId: uint64): Frame {
    Text(IdOr(fs.Num(1), newId), fs.Blob(3), false, NameMeta(fs.Blob(2)))
  }

  function TranscriptionOf(fs: Fields, newId: uint64): Frame {
    Transcription(IdOr(fs.Num(1), newId), fs.Blob(3), fs.Blob(4), fs.Blob(5), [], false, true, NameMeta(fs.Blob(2)))
  }

  function AudioOf(fs: Fields, newId: uint64): Frame {
    var channels := fs.Num(5) % U32;
    Audio(Raw, IdOr(fs.Num(1), newId), fs.Blob(3), fs.Num(4) % U32, channels, NumFrames(fs.Blob(3), channels),
          if fs.Num(6) != 0 then Some(Signed(fs.Num(6))) else None, NameMeta(fs.Blob(2)))
  }

  function Decoded(r: Result<Fields>, build: Fields -> Frame): Result<Frame> {
    match r
    case Ok(fs) => Ok(build(fs))
    case Fail(e) => Fail(e)
  }

  function DecodeText(payload: bytes, newId: uint64): Result<Frame> {
    Decoded(Collect(false, payload, NONE), fs => TextOf(fs, newId))
  }

  function DecodeTranscription(payload: bytes, newId: uint64): Result<Frame> {
    Decoded(Collect(false, payload, NONE), fs => TranscriptionOf(fs, newId))
  }

  function DecodeAudio(payload: bytes, newId: uint64): Result<Frame> {
    Decoded(Collect(true, payload, NONE), fs => AudioOf(fs, newId))
  }

  /** Only the first field is looked at, and its number is not. */
  function DecodeMessage(payload: bytes, newId: uint64, isJson: bytes -> bool): Result<Frame> {
    var tag := ReadNum(payload);
    match tag.r
    case Fail(e) => Fail(e)
    case Ok(t) =>
      if t % 8 != LENGTH_DELIMITED then Fail(NotLengthDelimited)
      else
        match ReadBlob(tag.rest).r
        case Fail(e) => Fail(e)
        case Ok(data) => if isJson(data) then Ok(Message(newId, data)) else Fail(BadJson)
  }

  function DecodePayload(num: nat, payload: bytes, newId: uint64, isJson: bytes -> bool): Result<Frame> {
    if num == 1 then DecodeText(payload, newId)
    else if num == 2 then DecodeAudio(payload, newId)
    else if num == 3 then DecodeTranscription(payload, newId)
    else if num == 4 then DecodeMessage(payload, newId, isJson)
    else Fail(UnknownField(num))
  }

  function DecodeFrame(data: bytes, newId: uint64, isJson: bytes -> bool): Result<Frame> {
    var tag := ReadNum(data);
    match tag.r
    case Fail(e) => Fail(e)
    case Ok(t) =>
      if t % 8 != LENGTH_DELIMITED then Fail(NotLengthDelimited)
      else
        match ReadBlob(tag.rest).r
        case Fail(e) => Fail(e)
        case Ok(payload) => DecodePayload(t / 8, payload, newId, isJson)
  }

  /** One turn of a decode loop that does not stop. */
  lemma CollectStep(strict: bool, s: bytes, acc: Fields)
    ensures var tag := ReadNum(s);
            && (tag.r.Fail? ==> Collect(strict, s, acc) == if tag.r.error == Eof then Ok(acc) else Fail(tag.r.error))
            && (tag.r.Ok? ==>
                  var num, wireType := tag.r.value / 8, tag.r.value % 8;
                  var v, b := ReadNum(tag.rest), ReadBlob(tag.rest);
                  && (wireType == VARINT && v.r.Ok? ==>
                        Collect(strict, s, acc) == Collect(strict, v.rest, acc.SetNum(num, v.r.value)))
                  && (wireType == VARINT && v.r.Fail? ==>
                        Collect(strict, s, acc) ==
                          if strict then Fail(v.r.error) else Collect(strict, v.rest, acc.SetNum(num, 0)))
                  && (wireType == LENGTH_DELIMITED && b.r.Ok? ==>
                        Collect(strict, s, acc) == Collect(strict, b.rest, acc.SetBlob(num, b.r.value)))
                  && (wireType == LENGTH_DELIMITED && b.r.Fail? ==> Collect(strict, s, acc) == Fail(b.r.error))
                  && (wireType != VARINT && wireType != LENGTH_DELIMITED ==>
                        Collect(strict, s, acc) == Collect(strict, tag.rest, acc)))
    ensures var tag := ReadNum(s);
            tag.r.Ok? ==> |tag.rest| < |s| && |ReadNum(tag.rest).rest| < |s| && |ReadBlob(tag.rest).rest| < |s|
  {
    hide ReadNum, ReadBlob;
    ReadsShorten(s);
    ReadsShorten(ReadNum(s).rest);
  }

  method DecodeTextFrameWire(payload: bytes, newId: uint64) returns (f: Result<Frame>)
    ensures f == DecodeText(payload, newId)
  {
    hide Collect, ReadNum, ReadBlob;
    var id: uint64 := 0;
    var text, name: bytes := [], [];
    var r := new ByteReader(payload);
    ghost var acc := NONE;
    while true
      invariant Collect(false, r.data, acc) == Collect(false, payload, NONE)
      invariant id == acc.Num(1) && text == acc.Blob(3) && name == acc.Blob(2)
      decreases |r.data|
    {
      CollectStep(false, r.data, acc);
      var tag := r.ReadTag();
      if tag.Fail? {
        if tag.error == Eof {
          break;
        }
        return Fail(tag.error);
      }
      var (fieldNum, wireType) := tag.value;
      if wireType == VARINT {
        var v := r.ReadVarint();
        var value := if v.Ok? then v.value else 0; // the error is ignored
        if fieldNum == 1 {
          id := value;
        }
        acc := acc.SetNum(fieldNum, value);
        continue;
      }
      if wireType == LENGTH_DELIMITED {
        var data := r.ReadLengthDelimited();
        if data.Fail? {
          return Fail(data.error);
        }
        match fieldNum {
          case 3 => text := data.value;
          case 2 => name := data.value;
          case _ =>
        }
        acc := acc.SetBlob(fieldNum, data.value);
      }
    }
    return Ok(Text(IdOr(id, newId), text, false, NameMeta(name)));
  }

  method DecodeTranscriptionFrameWire(payload: bytes, newId: uint64) returns (f: Result<Frame>)
    ensures f == DecodeTranscription(payload, newId)
  {
    hide Collect, ReadNum, ReadBlob;
    var id: uint64 := 0;
    var text, userId, timestamp, name: bytes := [], [], [], [];
    var r := new ByteReader(payload);
    ghost var acc := NONE;
    while true
      invariant Collect(false, r.data, acc) == Collect(false, payload, NONE)
      invariant id == acc.Num(1) && text == acc.Blob(3) && userId == acc.Blob(4) && timestamp == acc.Blob(5)
      invariant name == acc.Blob(2)
      decreases |r.data|
    {
      CollectStep(false, r.data, acc);
      var tag := r.ReadTag();
      if tag.Fail? {
        if tag.error == Eof {
          break;
        }
        return Fail(tag.error);
      }
      var (fieldNum, wireType) := tag.value;
      if wireType == VARINT {
        var v := r.ReadVarint();
        var value := if v.Ok? then v.value else 0; // the error is ignored
        if fieldNum == 1 {
          id := value;
        }
        acc := acc.SetNum(fieldNum, value);
        continue;
      }
      if wireType == LENGTH_DELIMITED {
        var data := r.ReadLengthDelimited();
        if data.Fail? {
          return Fail(data.error);
        }
        match fieldNum {
          case 3 => text := data.value;
          case 4 => userId := data.value;
          case 5 => timestamp := data.value;
          case 2 => name := data.value;
          case _ =>
        }
        acc := acc.SetBlob(fieldNum, data.value);
      }
    }
    return Ok(Transcription(IdOr(id, newId), text, userId, timestamp, [], false, true, NameMeta(name)));
  }

  method DecodeAudioFrameWire(payload: bytes, newId: uint64) returns (f: Result<Frame>)
    ensures f == DecodeAudio(payload, newId)
  {
    hide Collect, ReadNum, ReadBlob;
    var id: uint64, pts: uint64 := 0, 0;
    var audio, name: bytes := [], [];
    var sampleRate, numChannels := 0, 0;
    var r := new ByteReader(payload);
    ghost var acc := NONE;
    while true
      invariant Collect(true, r.data, acc) == Collect(true, payload, NONE)
      invariant id == acc.Num(1) && sampleRate == acc.Num(4) % U32 && numChannels == acc.Num(5) % U32
      invariant pts == acc.Num(6) && audio == acc.Blob(3) && name == acc.Blob(2)
      decreases |r.data|
    {
      CollectStep(true, r.data, acc);
      var tag := r.ReadTag();
      if tag.Fail? {
        if tag.error == Eof {
          break;
        }
        return Fail(tag.error);
      }
      var (fieldNum, wireType) := tag.value;
      if wireType == VARINT {
        var v := r.ReadVarint();
        if v.Fail? {
          return Fail(v.error);
        }
        match fieldNum {
          case 1 => id := v.value;
          case 4 => sampleRate := v.value % U32;
          case 5 => numChannels := v.value % U32;
          case 6 => pts := v.value;
          case _ =>
        }
        acc := acc.SetNum(fieldNum, v.value);
        continue;
      }
      if wireType == LENGTH_DELIMITED {
        var data := r.ReadLengthDelimited();
        if data.Fail? {
          return Fail(data.error);
        }
        match fieldNum {
          case 3 => audio := data.value;
          case 2 => name := data.value;
          case _ =>
        }
        acc := acc.SetBlob(fieldNum, data.value);
      }
    }
    return Ok(Audio(Raw, IdOr(id, newId), audio, sampleRate, numChannels, NumFrames(audio, numChannels),
                    if pts != 0 then Some(Signed(pts)) else None, NameMeta(name)));
  }

  method DecodeMessageFrameWire(payload: bytes, newId: uint64, isJson: bytes -> bool) returns (f: Result<Frame>)
    ensures f == DecodeMessage(payload, newId, isJson)
  {
    hide ReadNum, ReadBlob;
    var r := new ByteReader(payload);
    var tag := r.ReadTag();
    if tag.Fail? {
      return Fail(tag.error);
    }
    if tag.value.1 != LENGTH_DELIMITED {
      return Fail(NotLengthDelimited);
    }
    var data := r.ReadLengthDelimited();
    if data.Fail? {
      return Fail(data.error);
    }
    if !isJson(data.value) {
      return Fail(BadJson);
    }
    return Ok(Message(newId, data.value));
  }

  method DecodeFrameWire(data: bytes, newId: uint64, isJson: bytes -> bool) returns (f: Result<Frame>)
    ensures f == DecodeFrame(data, newId, isJson)
  {
    hide ReadNum, ReadBlob, DecodeText, DecodeTranscription, DecodeAudio, DecodeMessage;
    var r := new ByteReader(data);
    var tag := r.ReadTag();
    if tag.Fail? {
      return Fail(tag.error);
    }
    var (fieldNum, wireType) := tag.value;
    if wireType != LENGTH_DELIMITED {
      return Fail(NotLengthDelimited);
    }
    var payload := r.ReadLengthDelimited();
    if payload.Fail? {
      return Fail(payload.error);
    }
    match fieldNum
    case 1 => f := DecodeTextFrameWire(payload.value, newId);
    case 3 => f := DecodeTranscriptionFrameWire(payload.value, newId);
    case 2 => f := DecodeAudioFrameWire(payload.value, newId);
    case 4 => f := DecodeMessageFrameWire(payload.value, newId, isJson);
    case _ => return Fail(UnknownField(fieldNum));
  }

  // ----- the format in bytes ----------------------------------------------------------------------------

  /** A header byte is eight times the field number, plus 2 before a length and plus 0 before a number. */
  lemma HeaderByte(buf: bytes, num: nat, v: uint64, data: bytes)
    requires num < 16
    ensures AppendNum(buf, num, v) == buf + [8 * num] + Encode(v)
    ensures AppendLengthDelimited(buf, num, data) == buf + [8 * num + 2] + Encode(|data|) + data
  {
    assert Encode(8 * num) == [8 * num] && Encode(8 * num + 2) == [8 * num + 2];
  }

  lemma FirstField(num: nat, data: bytes)
    requires num < 16
    ensures AppendLengthDelimited([], num, data) == [8 * num + 2] + Encode(|data|) + data
  {
    hide Encode, AppendLengthDelimited;
    HeaderByte([], num, 0, data);
    assert [] + [8 * num + 2] == [8 * num + 2];
  }

  lemma FirstNumber(id: uint64)
    ensures AppendNum([], 1, id) == [0x08] + Encode(id)
  {
    hide Encode, AppendNum;
    HeaderByte([], 1, id, []);
    assert [] + [0x08] == [0x08];
  }

  /** A text frame, byte for byte. */
  lemma TextBytes(f: Frame)
    requires f.Text?
    ensures var p, name := Payload(f), Name(f);
            && EncodeFrame(f) == Some([0x0a] + Encode(|p|) + p)
            && p == [0x08] + Encode(f.id) + [0x12] + Encode(|name|) + name + [0x1a] + Encode(|f.text|) + f.text
  {
    hide Encode, AppendNum, AppendLengthDelimited, Name;
    var b1 := AppendNum([], 1, f.id);
    FirstNumber(f.id);
    FirstField(1, Payload(f));
    HeaderByte(b1, 2, 0, Name(f));
    HeaderByte(AppendLengthDelimited(b1, 2, Name(f)), 3, 0, f.text);
  }

  lemma TranscriptionBytes(f: Frame)
    requires f.Transcription?
    ensures var p, name := Payload(f), Name(f);
            && EncodeFrame(f) == Some([0x1a] + Encode(|p|) + p)
            && p == [0x08] + Encode(f.id) + [0x12] + Encode(|name|) + name + [0x1a] + Encode(|f.text|) + f.text
                    + [0x22] + Encode(|f.userId|) + f.userId + [0x2a] + Encode(|f.timestamp|) + f.timestamp
  {
    hide Encode, AppendNum, AppendLengthDelimited, Name;
    var b1 := AppendNum([], 1, f.id);
    var b2 := AppendLengthDelimited(b1, 2, Name(f));
    var b3 := AppendLengthDelimited(b2, 3, f.text);
    var b4 := AppendLengthDelimited(b3, 4, f.userId);
    FirstNumber(f.id);
    FirstField(3, Payload(f));
    HeaderByte(b1, 2, 0, Name(f));
    HeaderByte(b2, 3, 0, f.text);
    HeaderByte(b3, 4, 0, f.userId);
    HeaderByte(b4, 5, 0, f.timestamp);
  }

  function ThreeFields(id: uint64, name: bytes, audio: bytes): bytes {
    AppendLengthDelimited(AppendLengthDelimited(AppendNum([], 1, id), 2, name), 3, audio)
  }

  function TwoNumbers(buf: bytes, rate: uint64, channels: uint64): bytes {
    AppendNum(AppendNum(buf, 4, rate), 5, channels)
  }

  lemma ThreeFieldsBytes(id: uint64, name: bytes, audio: bytes)
    ensures ThreeFields(id, name, audio)
         == [0x08] + Encode(id) + [0x12] + Encode(|name|) + name + [0x1a] + Encode(|audio|) + audio
  {
    hide Encode, AppendNum, AppendLengthDelimited;
    var b1 := AppendNum([], 1, id);
    FirstNumber(id);
    HeaderByte(b1, 2, 0, name);
    HeaderByte(AppendLengthDelimited(b1, 2, name), 3, 0, audio);
  }

  lemma TwoNumbersBytes(buf: bytes, rate: uint64, channels: uint64)
    ensures TwoNumbers(buf, rate, channels) == buf + [0x20] + Encode(rate) + [0x28] + Encode(channels)
  {
    hide Encode, AppendNum;
    HeaderByte(buf, 4, rate, []);
    HeaderByte(AppendNum(buf, 4, rate), 5, channels, []);
  }

  /** Signed numbers are written as what they are modulo 2^64. */
  lemma AudioBytes(f: Frame)
    requires f.Audio?
    ensures var p, name := Payload(f), Name(f);
            && EncodeFrame(f) == Some([0x12] + Encode(|p|) + p)
            && p == [0x08] + Encode(f.id) + [0x12] + Encode(|name|) + name + [0x1a] + Encode(|f.audio|) + f.audio
                    + [0x20] + Encode(f.sampleRate % U64) + [0x28] + Encode(f.numChannels % U64)
                    + if f.pts.Some? then [0x30] + Encode(f.pts.value % U64) else []
  {
    hide Encode, AppendNum, AppendLengthDelimited, Name;
    var three := ThreeFields(f.id, Name(f), f.audio);
    var five := TwoNumbers(three, f.sampleRate % U64, f.numChannels % U64);
    ThreeFieldsBytes(f.id, Name(f), f.audio);
    TwoNumbersBytes(three, f.sampleRate % U64, f.numChannels % U64);
    FirstField(2, Payload(f));
    hide ThreeFields, TwoNumbers;
    if f.pts.Some? {
      var pts := f.pts.value % U64;
      HeaderByte(five, 6, pts, []);
      assert five + ([0x30] + Encode(pts)) == five + [0x30] + Encode(pts);
    } else {
      assert five + [] == five;
    }
  }

  lemma MessageBytes(f: Frame)
    requires f.Message?
    ensures var p := Payload(f);
            EncodeFrame(f) == Some([0x22] + Encode(|p|) + p) && p == [0x0a] + Encode(|f.json|) + f.json
  {
    hide Encode, AppendLengthDelimited;
    FirstField(1, f.json);
    FirstField(4, Payload(f));
  }

  /** Other frames are not encoded. */
  lemma OnlyTheseAreEncoded(f: Frame)
    ensures EncodeFrame(f) == None <==> !f.Text? && !f.Transcription? && !f.Audio? && !f.Message?
  {
  }

  /** The number decimal digits stand for. */
  function Reading(digits: bytes): int {
    if digits == [] then 0
    else
      var last: int := digits[|digits| - 1];
      10 * Reading(digits[..|digits| - 1]) + last - 0x30
  }

  lemma {:induction false} DecimalReads(n: nat)
    ensures Reading(Decimal(n)) == n && (forall i :: 0 <= i < |Decimal(n)| ==> 0x30 <= Decimal(n)[i] <= 0x39)
    ensures |Decimal(n)| >= 1 && (|Decimal(n)| > 1 ==> Decimal(n)[0] != 0x30)
  {
    if n >= 10 {
      DecimalReads(n / 10);
      assert Decimal(n)[..|Decimal(n)| - 1] == Decimal(n / 10);
    } else {
      assert Decimal(n)[..0] == [];
    }
  }

  /** The name on the wire is the frame's type, a number sign, and the ID in decimal digits. */
  lemma NameIsTypeAndId(f: Frame)
    ensures exists digits :: Name(f) == TypeName(f) + [0x23] + digits && Reading(digits) == f.id
  {
    DecimalReads(f.id);
    assert Name(f) == TypeName(f) + [0x23] + Decimal(f.id);
  }

  lemma TypeNames(f: Frame)
    ensures f.Text? ==> TypeName(f) == Ascii("TextFrame")
    ensures f.Transcription? ==> TypeName(f) == Ascii("TranscriptionFrame")
    ensures f.Audio? ==> TypeName(f) == match f.kind
                                        case Raw => Ascii("AudioRawFrame")
                                        case Output => Ascii("OutputAudioRawFrame")
                                        case Tts => Ascii("TTSAudioRawFrame")
  {
    hide Ascii;
  }

  /** What does not travel: decoded text is not to be appended to the context, decoded transcriptions are, without a
      language and not final; all audio comes back as raw audio. */
  lemma NotOnTheWire(f: Frame, newId: uint64)
    ensures var g := Carried(f, newId);
            && (f.Text? ==> !g.appendToContext)
            && (f.Transcription? ==> g.appendToContext && g.language == [] && !g.finalized)
            && (f.Audio? ==> g.kind == Raw)
            && (!f.Message? && !f.Unsupported? ==> g.name == Some(Name(f)))
  {
  }

  /** The recomputed count is that of complete frames of 16-bit samples. */
  lemma CompleteFrames(audio: bytes, numChannels: int)
    ensures var n := NumFrames(audio, numChannels);
            if numChannels > 0 then 2 * numChannels * n <= |audio| < 2 * numChannels * (n + 1) else n == 0
  {
  }

  // ----- round trip -----------------------------------------------------------------------------------

  /** What decoding the encoding of a frame yields, if its payload is not too long. */
  function Carried(f: Frame, newId: uint64): Frame {
    match f
    case Text(id, text, _, _) => Text(IdOr(id, newId), text, false, Some(Name(f)))
    case Transcription(id, text, userId, timestamp, _, _, _, _) =>
      Transcription(IdOr(id, newId), text, userId, timestamp, [], false, true, Some(Name(f)))
    case Audio(_, id, audio, sampleRate, numChannels, _, pts, _) =>
      Audio(Raw, IdOr(id, newId), audio, sampleRate % U32, numChannels % U32, NumFrames(audio, numChannels % U32),
            if pts == Some(0) then None else pts, Some(Name(f)))
    case Message(_, json) => Message(newId, json)
    case Unsupported(_) => f
  }

  /** `buf` is a run of complete fields that leaves the table `t`. */
  ghost predicate Leaves(buf: bytes, t: Fields) {
    forall strict: bool, rest: bytes :: Collect(strict, buf + rest, NONE) == Collect(strict, rest, t)
  }

  lemma LeavesNothing()
    ensures Leaves([], NONE)
  {
    hide Collect;
    forall strict: bool, rest: bytes
      ensures Collect(strict, [] + rest, NONE) == Collect(strict, rest, NONE)
    {
      assert [] + rest == rest;
    }
  }

  lemma LeavesField(buf: bytes, t: Fields, f: Wired)
    requires Leaves(buf, t) && f.Valid()
    ensures Leaves(buf + f.Bytes(), f.ApplyTo(t))
  {
    hide Collect;
    forall strict: bool, rest: bytes
      ensures Collect(strict, buf + f.Bytes() + rest, NONE) == Collect(strict, rest, f.ApplyTo(t))
    {
      assert buf + f.Bytes() + rest == buf + (f.Bytes() + rest);
      CollectOne(strict, f, rest, t);
    }
  }

  lemma EncodedTag(num: nat, wireType: nat)
    requires num < 16 && wireType < 8
    ensures var tag := Encode(8 * num + wireType);
            IsVarint(tag) && Denoted(tag) % U64 == 8 * num + wireType && 1 <= |tag|
  {
  }

  lemma LeavesNum(buf: bytes, t: Fields, num: nat, v: uint64)
    requires Leaves(buf, t) && num < 16
    ensures Leaves(AppendNum(buf, num, v), t.SetNum(num, v))
  {
    hide Leaves, Denoted, IsVarint, Encode;
    Pow128Ten();
    EncodedTag(num, VARINT);
    EncodedIsVarint(v, 10);
    var f := NumField(Encode(8 * num + VARINT), Encode(v));
    assert f.Tag() == 8 * num;
    LeavesField(buf, t, f);
    assert buf + (f.tag + f.value) == buf + f.tag + f.value;
  }

  lemma LeavesBlob(buf: bytes, t: Fields, num: nat, data: bytes)
    requires Leaves(buf, t) && num < 16 && |data| <= MAX_LENGTH
    ensures Leaves(AppendLengthDelimited(buf, num, data), t.SetBlob(num, data))
  {
    hide Leaves, Denoted, IsVarint, Encode;
    Pow128Ten();
    EncodedTag(num, LENGTH_DELIMITED);
    EncodedIsVarint(|data|, 10);
    var f := BlobField(Encode(8 * num + LENGTH_DELIMITED), Encode(|data|), data);
    assert f.Tag() == 8 * num + LENGTH_DELIMITED;
    LeavesField(buf, t, f);
    assert buf + (f.tag + (f.len + f.data)) == buf + f.tag + f.len + f.data;
  }

  lemma Collected(strict: bool, buf: bytes, t: Fields)
    requires Leaves(buf, t)
    ensures Collect(strict, buf, NONE) == Ok(t)
  {
    assert buf + [] == buf;
    CollectEnds(strict, t);
  }

  lemma AppendGrows(buf: bytes, num: nat, v: uint64, data: bytes)
    ensures |AppendNum(buf, num, v)| >= |buf|
    ensures |AppendLengthDelimited(buf, num, data)| >= |buf| + |data|
  {
  }

  lemma TextRoundTrip(f: Frame, newId: uint64)
    requires f.Text? && |Payload(f)| <= MAX_LENGTH
    ensures DecodeText(Payload(f), newId) == Ok(Carried(f, newId))
  {
    hide AppendNum, AppendLengthDelimited, Leaves, Collect, Name;
    var b1 := AppendNum([], 1, f.id);
    var b2 := AppendLengthDelimited(b1, 2, Name(f));
    AppendGrows(b1, 2, 0, Name(f));
    AppendGrows(b2, 3, 0, f.text);
    var t1 := NONE.SetNum(1, f.id);
    var t2 := t1.SetBlob(2, Name(f));
    LeavesNothing();
    LeavesNum([], NONE, 1, f.id);
    LeavesBlob(b1, t1, 2, Name(f));
    LeavesBlob(b2, t2, 3, f.text);
    Collected(false, Payload(f), t2.SetBlob(3, f.text));
  }

  lemma TranscriptionRoundTrip(f: Frame, newId: uint64)
    requires f.Transcription? && |Payload(f)| <= MAX_LENGTH
    ensures DecodeTranscription(Payload(f), newId) == Ok(Carried(f, newId))
  {
    hide AppendNum, AppendLengthDelimited, Leaves, Collect, Name;
    var b1 := AppendNum([], 1, f.id);
    var b2 := AppendLengthDelimited(b1, 2, Name(f));
    var b3 := AppendLengthDelimited(b2, 3, f.text);
    var b4 := AppendLengthDelimited(b3, 4, f.userId);
    AppendGrows(b1, 2, 0, Name(f));
    AppendGrows(b2, 3, 0, f.text);
    AppendGrows(b3, 4, 0, f.userId);
    AppendGrows(b4, 5, 0, f.timestamp);
    var t1 := NONE.SetNum(1, f.id);
    var t2 := t1.SetBlob(2, Name(f));
    var t3 := t2.SetBlob(3, f.text);
    var t4 := t3.SetBlob(4, f.userId);
    LeavesNothing();
    LeavesNum([], NONE, 1, f.id);
    LeavesBlob(b1, t1, 2, Name(f));
    LeavesBlob(b2, t2, 3, f.text);
    LeavesBlob(b3, t3, 4, f.userId);
    LeavesBlob(b4, t4, 5, f.timestamp);
    Collected(false, Payload(f), t4.SetBlob(5, f.timestamp));
  }

  lemma AudioRoundTrip(f: Frame, newId: uint64)
    requires f.Audio? && |Payload(f)| <= MAX_LENGTH
    ensures DecodeAudio(Payload(f), newId) == Ok(Carried(f, newId))
  {
    hide AppendNum, AppendLengthDelimited, Leaves, Collect, Name, NumFrames;
    var rate, channels := Unsigned(f.sampleRate), Unsigned(f.numChannels);
    var b1 := AppendNum([], 1, f.id);
    var b2 := AppendLengthDelimited(b1, 2, Name(f));
    var b3 := AppendLengthDelimited(b2, 3, f.audio);
    var b4 := AppendNum(b3, 4, rate);
    var b5 := AppendNum(b4, 5, channels);
    AppendGrows(b1, 2, 0, Name(f));
    AppendGrows(b2, 3, 0, f.audio);
    AppendGrows(b3, 4, rate, []);
    AppendGrows(b4, 5, channels, []);
    var t1 := NONE.SetNum(1, f.id);
    var t2 := t1.SetBlob(2, Name(f));
    var t3 := t2.SetBlob(3, f.audio);
    var t4 := t3.SetNum(4, rate);
    var t5 := t4.SetNum(5, channels);
    LeavesNothing();
    LeavesNum([], NONE, 1, f.id);
    if f.pts.Some? { AppendGrows(b5, 6, Unsigned(f.pts.value), []); }
    LeavesBlob(b1, t1, 2, Name(f));
    LeavesBlob(b2, t2, 3, f.audio);
    LeavesNum(b3, t3, 4, rate);
    LeavesNum(b4, t4, 5, channels);
    Truncated(f.sampleRate);
    Truncated(f.numChannels);
    if f.pts.Some? {
      var pts := Unsigned(f.pts.value);
      LeavesNum(b5, t5, 6, pts);
      Collected(true, Payload(f), t5.SetNum(6, pts));
    } else {
      Collected(true, Payload(f), t5);
    }
  }

  /** Going through uint64 and uint32 keeps the low 32 bits. */
  lemma Truncated(x: int64)
    ensures Unsigned(x) % U32 == x % U32
    ensures Signed(Unsigned(x)) == x
  {
    assert U64 == U32 * U32;
    assert x >= 0 ==> Unsigned(x) == x;
    assert x < 0 ==> Unsigned(x) == x + U64;
    assert (x + U32 * U32) % U32 == x % U32;
  }

  lemma MessageRoundTrip(f: Frame, newId: uint64, isJson: bytes -> bool)
    requires f.Message? && |Payload(f)| <= MAX_LENGTH
    ensures DecodeMessage(Payload(f), newId, isJson) == if isJson(f.json) then Ok(Carried(f, newId)) else Fail(BadJson)
  {
    hide ReadBlob;
    BlobHeader(1, f.json, []);
    assert AppendLengthDelimited([], 1, f.json) + [] == AppendLengthDelimited([], 1, f.json);
  }

  /** A length-delimited field with a canonical header is read back, or refused for its length. */
  lemma BlobHeader(num: nat, data: bytes, rest: bytes)
    requires num < 16 && |data| < U64
    ensures var tag := ReadNum(AppendLengthDelimited([], num, data) + rest);
            && tag.r == Ok(8 * num + LENGTH_DELIMITED)
            && ReadBlob(tag.rest).r == if |data| > MAX_LENGTH then Fail(TooLong) else Ok(data)
  {
    hide Encode, Read;
    var s := Encode(|data|) + (data + rest);
    var tag := Encode(8 * num + LENGTH_DELIMITED);
    assert AppendLengthDelimited([], num, data) + rest == tag + s;
    ReadEncoded(8 * num + LENGTH_DELIMITED, s);
    ReadEncoded(|data|, data + rest);
    if data == [] { assert data + rest == rest; } else { assert (data + rest)[..|data|] == data; }
  }

  /** Decoding what was encoded: the carried fields of every supported frame come back unless the payload
      exceeds the reader's limit or is not the JSON it should be; then decoding fails. Payload lengths are Go ints. */
  lemma RoundTrip(f: Frame, newId: uint64, isJson: bytes -> bool)
    requires !f.Unsupported? && |Payload(f)| < U64
    ensures DecodeFrame(EncodeFrame(f).value, newId, isJson)
         == if |Payload(f)| > 1_000_000_000 then Fail(TooLong)
            else if f.Message? && !isJson(f.json) then Fail(BadJson)
            else Ok(Carried(f, newId))
  {
    hide AppendLengthDelimited, ReadNum, ReadBlob, Payload, Carried;
    hide DecodeText, DecodeTranscription, DecodeAudio, DecodeMessage;
    var buf := AppendLengthDelimited([], FieldNumber(f), Payload(f));
    assert buf + [] == buf;
    BlobHeader(FieldNumber(f), Payload(f), []);
    if |Payload(f)| <= MAX_LENGTH {
      match f
      case Text(_, _, _, _) => TextRoundTrip(f, newId);
      case Transcription(_, _, _, _, _, _, _, _) => TranscriptionRoundTrip(f, newId);
      case Audio(_, _, _, _, _, _, _, _) => AudioRoundTrip(f, newId);
      case Message(_, _) => MessageRoundTrip(f, newId, isJson);
    }
  }

  /** ID and the fields that are on the wire. */
  predicate SameOnWire(f: Frame, g: Frame) {
    match f
    case Text(id, text, _, _) => g.Text? && g.id == id && g.text == text
    case Transcription(id, text, userId, timestamp, _, _, _, _) =>
      g.Transcription? && g.id == id && g.text == text && g.userId == userId && g.timestamp == timestamp
    case Audio(_, id, audio, sampleRate, numChannels, _, pts, _) =>
      g.Audio? && g.id == id && g.audio == audio && g.sampleRate == sampleRate && g.numChannels == numChannels
      && g.pts == pts
    case Message(id, json) => g.Message? && g.id == id && g.json == json
    case Unsupported(_) => false
  }

  /** Text, transcription and audio frames survive exactly with a non-zero ID, rate and channels of 32 bits,
      and a time stamp that is absent or not 0; a transport message only by the accident of the new ID. */
  lemma LosslessExactly(f: Frame, newId: uint64)
    requires newId != 0
    ensures SameOnWire(f, Carried(f, newId)) <==>
            match f
            case Text(id, _, _, _) => id != 0
            case Transcription(id, _, _, _, _, _, _, _) => id != 0
            case Audio(_, id, _, rate, channels, _, pts, _) =>
              id != 0 && 0 <= rate < U32 && 0 <= channels < U32 && pts != Some(0)
            case Message(id, _) => id == newId
            case Unsupported(_) => false
  {
  }
}
