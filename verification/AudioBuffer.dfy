/** Recording of a user and a bot track that drift apart (pkg/processors/audio/audio_buffer_processor.go:64-242).

    `Step` says what resampled audio does to the two live buffers and what is flushed, `StepFrame` what a frame
    does to the whole processor; `AudioBufferProcessor` is proved to do it. Each track also keeps its pieces,
    sound or silence, so that `TrackIsPaddedSound` can say what the padding did to it. */
module AudioBuffer {
  import opened Common
  import opened Pcm

  datatype Piece = Sound(data: bytes) | Silence(n: nat)

  datatype Flush = Flush(user: bytes, bot: bytes)

  /** Live buffers, what was flushed, and, as history, the pieces of each whole track. */
  datatype Tracks = Tracks(user: bytes, bot: bytes, flushes: seq<Flush>, userPieces: seq<Piece>, botPieces: seq<Piece>)

  const EMPTY := Tracks([], [], [], [], [])

  function Zeros(n: nat): bytes {
    seq(n, _ => 0)
  }

  lemma ZerosAreSilence(n: nat)
    ensures |Zeros(n)| == n && forall i :: 0 <= i < n ==> Zeros(n)[i] == 0
  {
  }

  function Missing(buf: bytes, target: nat): nat {
    if |buf| >= target then 0 else target - |buf|
  }

  function PadUser(t: Tracks, target: nat): Tracks {
    var n := Missing(t.user, target);
    t.(user := t.user + Zeros(n), userPieces := t.userPieces + [Silence(n)])
  }

  function PadBot(t: Tracks, target: nat): Tracks {
    var n := Missing(t.bot, target);
    t.(bot := t.bot + Zeros(n), botPieces := t.botPieces + [Silence(n)])
  }

  /** User audio: the bot's track catches up with where the user's was. */
  function AddUser(t: Tracks, r: bytes): Tracks {
    var t := PadBot(t, |t.user|);
    t.(user := t.user + r, userPieces := t.userPieces + [Sound(r)])
  }

  function AddBot(t: Tracks, r: bytes): Tracks {
    var t := PadUser(t, |t.bot|);
    t.(bot := t.bot + r, botPieces := t.botPieces + [Sound(r)])
  }

  /** Both buffers, the shorter one padded. */
  function FlushOf(t: Tracks): Flush {
    var target := Max(|t.user|, |t.bot|);
    Flush(PadUser(t, target).user, PadBot(t, target).bot)
  }

  /** The buffers are handed out and start anew. */
  function FlushTracks(t: Tracks): Tracks {
    if t.user == [] && t.bot == [] then t
    else
      var target := Max(|t.user|, |t.bot|);
      PadBot(PadUser(t, target), target).(user := [], bot := [], flushes := t.flushes + [FlushOf(t)])
  }

  predicate Full(t: Tracks, bufferSize: int) {
    bufferSize > 0 && (|t.user| >= bufferSize || |t.bot| >= bufferSize)
  }

  function FlushIfFull(t: Tracks, bufferSize: int): Tracks {
    if Full(t, bufferSize) then FlushTracks(t) else t
  }

  /** A frame of one side's audio after resampling, or the end of the recording. */
  datatype Event = User(r: bytes) | Bot(r: bytes) | Stop

  function Step(t: Tracks, bufferSize: int, e: Event): Tracks {
    match e
    case User(r) => if r == [] then t else FlushIfFull(AddUser(t, r), bufferSize)
    case Bot(r) => FlushIfFull(if r == [] then t else AddBot(t, r), bufferSize)
    case Stop => FlushTracks(t)
  }

  function Run(bufferSize: int, es: seq<Event>): Tracks {
    if es == [] then EMPTY else Step(Run(bufferSize, es[..|es| - 1]), bufferSize, es[|es| - 1])
  }

  // ----- the processor's state --------------------------------------------------------------------------

  /** `turnAudio` enables the per-turn callbacks; the other flags say which callbacks are set. */
  datatype Config = Config(rate: int, channels: int, bufferSize: int, turnAudio: bool,
                           onAudio: bool, onTracks: bool, onUserTurn: bool, onBotTurn: bool)

  /** `EndOrCancel` is an EndFrame or CancelFrame, `OutputAudio` a TTS or output audio frame. */
  datatype Frame = StartFrame(outRate: int) | EndOrCancel | AudioRaw(audio: bytes, rate: int)
                 | OutputAudio(audio: bytes, rate: int)
                 | UserStarted | UserStopped | BotStarted | BotStopped | Other(id: nat)

  datatype Direction = Downstream | Upstream

  /** What the callbacks and the next processor were given. */
  datatype Entry =
    | AudioData(merged: bytes, rate: nat, channels: int)
    | TrackAudioData(user: bytes, bot: bytes, rate: nat, channels: int)
    | UserTurnAudio(audio: bytes, rate: nat)
    | BotTurnAudio(audio: bytes, rate: nat)
    | PassedOn(frame: Frame, dir: Direction)

  /** Audio of the turns in progress. */
  datatype Turns = Turns(user: bytes, bot: bytes, userSpeaking: bool, botSpeaking: bool)

  datatype Recorder = Recorder(rate: nat, recording: bool, tracks: Tracks, turns: Turns, log: seq<Entry>)

  function Merged(channels: int, f: Flush): bytes {
    if channels == 1 then Mix(f.user, f.bot) else if channels == 2 then Interleave(f.user, f.bot) else []
  }

  /** The callbacks of one flush; empty merged audio is not reported. */
  function FlushLog(cfg: Config, rate: nat, f: Flush): seq<Entry> {
    var merged := Merged(cfg.channels, f);
    (if merged != [] && cfg.onAudio then [AudioData(merged, rate, cfg.channels)] else [])
    + if cfg.onTracks then [TrackAudioData(f.user, f.bot, rate, cfg.channels)] else []
  }

  function Flushed(cfg: Config, s: Recorder): Recorder {
    if s.tracks.user == [] && s.tracks.bot == [] then s
    else s.(tracks := FlushTracks(s.tracks), log := s.log + FlushLog(cfg, s.rate, FlushOf(s.tracks)))
  }

  /** A recording that has just been started. */
  predicate JustStarted(s: Recorder) {
    s.recording && s.tracks == EMPTY && s.turns.user == [] == s.turns.bot
  }

  function Started(s: Recorder): (r: Recorder)
    ensures JustStarted(r)
  {
    s.(recording := true, tracks := EMPTY, turns := s.turns.(user := [], bot := []))
  }

  function Stopped(cfg: Config, s: Recorder): Recorder {
    if !s.recording then s
    else Flushed(cfg, s).(recording := false, turns := s.turns.(user := [], bot := []))
  }

  function LastOf(audio: bytes, n: nat): bytes {
    if |audio| > n then audio[|audio| - n..] else audio
  }

  /** Until the user speaks, one second is kept. */
  function TurnHearsUser(cfg: Config, t: Turns, rate: nat, r: bytes): Turns {
    if !cfg.turnAudio then t else t.(user := if t.userSpeaking then t.user + r else LastOf(t.user + r, 2 * rate))
  }

  function TurnHearsBot(cfg: Config, t: Turns, r: bytes): Turns {
    if cfg.turnAudio && t.botSpeaking then t.(bot := t.bot + r) else t
  }

  function Checked(cfg: Config, s: Recorder): Recorder {
    if Full(s.tracks, cfg.bufferSize) then Flushed(cfg, s) else s
  }

  function UserAudio(cfg: Config, s: Recorder, r: bytes): Recorder {
    s.(tracks := AddUser(s.tracks, r), turns := TurnHearsUser(cfg, s.turns, s.rate, r))
  }

  function BotAudio(cfg: Config, s: Recorder, r: bytes): Recorder {
    s.(tracks := AddBot(s.tracks, r), turns := TurnHearsBot(cfg, s.turns, r))
  }

  function UserTurnEnds(cfg: Config, s: Recorder): Recorder {
    s.(turns := s.turns.(userSpeaking := false, user := []),
       log := s.log + if cfg.turnAudio && cfg.onUserTurn && s.turns.user != []
                      then [UserTurnAudio(s.turns.user, s.rate)] else [])
  }

  function BotTurnEnds(cfg: Config, s: Recorder): Recorder {
    s.(turns := s.turns.(botSpeaking := false, bot := []),
       log := s.log + if cfg.turnAudio && cfg.onBotTurn && s.turns.bot != []
                      then [BotTurnAudio(s.turns.bot, s.rate)] else [])
  }

  /** Who speaks, as the frames tell. */
  function OnSpeech(cfg: Config, s: Recorder, f: Frame): Recorder {
    match f
    case UserStarted => s.(turns := s.turns.(userSpeaking := true))
    case UserStopped => UserTurnEnds(cfg, s)
    case BotStarted => s.(turns := s.turns.(botSpeaking := true))
    case BotStopped => BotTurnEnds(cfg, s)
    case _ => s
  }

  /** The audio of a frame, resampled to `target`. */
  function ResampledAudio(f: Frame, target: nat): bytes {
    match f
    case AudioRaw(audio, rate) => Resample(audio, if rate <= 0 then 16000 else rate, target)
    case OutputAudio(audio, rate) => Resample(audio, if rate <= 0 then 24000 else rate, target)
    case _ => []
  }

  /** A frame while recording. User audio that yields nothing ends the processing early. */
  function Record(cfg: Config, s: Recorder, f: Frame): Recorder {
    var r := ResampledAudio(f, s.rate);
    match f
    case AudioRaw(_, _) => if r == [] then s else Checked(cfg, UserAudio(cfg, s, r))
    case OutputAudio(_, _) => Checked(cfg, if r == [] then s else BotAudio(cfg, s, r))
    case _ => Checked(cfg, OnSpeech(cfg, s, f))
  }

  /** The first switch of ProcessFrame. */
  function Prepared(cfg: Config, s: Recorder, f: Frame): Recorder {
    match f
    case StartFrame(outRate) =>
      s.(rate := if cfg.rate > 0 then cfg.rate else if outRate > 0 then outRate else 16000)
    case EndOrCancel => Stopped(cfg, s)
    case _ => s
  }

  function StepFrame(cfg: Config, s: Recorder, f: Frame, dir: Direction): Recorder {
    if dir == Upstream then s.(log := s.log + [PassedOn(f, dir)])
    else
      var s := Prepared(cfg, s, f);
      var s := s.(log := s.log + [PassedOn(f, dir)]);
      if s.recording then Record(cfg, s, f) else s
  }

  // ----- the processor ----------------------------------------------------------------------------------

  class AudioBufferProcessor {
    const cfg: Config
    var sampleRate: int
    var bufferSize1s: int
    var recording: bool
    var userBuffer: bytes
    var botBuffer: bytes
    var userTurnBuffer: bytes
    var botTurnBuffer: bytes
    var userSpeaking: bool
    var botSpeaking: bool
    var log: seq<Entry>
    ghost var tracks: Tracks

    ghost predicate Valid()
      reads this
    {
      && tracks.user == userBuffer && tracks.bot == botBuffer && (!recording ==> userBuffer == [] && botBuffer == [])
      && sampleRate >= 0 && bufferSize1s == 2 * sampleRate
    }

    ghost function Abs(): Recorder
      requires Valid()
      reads this
    {
      Recorder(sampleRate, recording, tracks, Turns(userTurnBuffer, botTurnBuffer, userSpeaking, botSpeaking), log)
    }

    constructor (cfg: Config)
      ensures Valid() && Abs() == Recorder(0, false, EMPTY, Turns([], [], false, false), [])
      ensures this.cfg == cfg.(channels := if cfg.channels <= 0 then 1 else cfg.channels)
    {
      this.cfg := cfg.(channels := if cfg.channels <= 0 then 1 else cfg.channels);
      sampleRate, bufferSize1s, recording, userBuffer, botBuffer, log, tracks := 0, 0, false, [], [], [], EMPTY;
      userTurnBuffer, botTurnBuffer, userSpeaking, botSpeaking := [], [], false, false;
    }

    method StartRecording()
      requires Valid()
      modifies this
      ensures Valid() && Abs() == Started(old(Abs()))
    {
      recording, userBuffer, botBuffer, tracks := true, [], [], EMPTY;
      userTurnBuffer, botTurnBuffer := [], [];
    }

    method PadUserBuffer(target: nat)
      requires Valid() && recording
      modifies `userBuffer, `tracks
      ensures Valid() && tracks == PadUser(old(tracks), target)
    {
      ghost var n := Missing(userBuffer, target);
      if |userBuffer| < target {
        var need := target - |userBuffer|;
        userBuffer := userBuffer + Zeros(need);
      } else {
        assert userBuffer + Zeros(n) == userBuffer;
      }
      tracks := PadUser(tracks, target);
    }

    method PadBotBuffer(target: nat)
      requires Valid() && recording
      modifies `botBuffer, `tracks
      ensures Valid() && tracks == PadBot(old(tracks), target)
    {
      ghost var n := Missing(botBuffer, target);
      if |botBuffer| < target {
        var need := target - |botBuffer|;
        botBuffer := botBuffer + Zeros(need);
      } else {
        assert botBuffer + Zeros(n) == botBuffer;
      }
      tracks := PadBot(tracks, target);
    }

    method MergeBuffers() returns (merged: bytes)
      ensures merged == Merged(cfg.channels, Flush(userBuffer, botBuffer))
    {
      hide Mix, Interleave;
      if cfg.channels == 1 {
        merged := MixMono(userBuffer, botBuffer);
      } else if cfg.channels == 2 {
        merged := InterleaveStereo(userBuffer, botBuffer);
      } else {
        merged := [];
      }
    }

    /** The callbacks of a flush. */
    method CallBack()
      requires Valid()
      modifies `log
      ensures log == old(log) + FlushLog(cfg, sampleRate, Flush(userBuffer, botBuffer))
    {
      hide Merged;
      var merged := MergeBuffers();
      if |merged| > 0 && cfg.onAudio {
        log := log + [AudioData(merged, sampleRate, cfg.channels)];
      }
      if cfg.onTracks {
        log := log + [TrackAudioData(userBuffer, botBuffer, sampleRate, cfg.channels)];
      }
    }

    method CallAudioDataHandlers()
      requires Valid()
      modifies `userBuffer, `botBuffer, `tracks, `log
      ensures Valid() && Abs() == if old(recording) then Flushed(cfg, old(Abs())) else old(Abs())
    {
      hide FlushLog, PadUser, PadBot;
      if !recording || (|userBuffer| == 0 && |botBuffer| == 0) {
        return;
      }
      var target := |userBuffer|;
      if |botBuffer| > target {
        target := |botBuffer|;
      }
      FlushOfPadded(tracks);
      PadUserBuffer(target);
      PadBotBuffer(target);
      CallBack();
      tracks := tracks.(user := [], bot := [], flushes := tracks.flushes + [Flush(userBuffer, botBuffer)]);
      userBuffer, botBuffer := [], [];
    }

    method StopRecording()
      requires Valid()
      modifies this
      ensures Valid() && Abs() == Stopped(cfg, old(Abs()))
    {
      hide FlushTracks, FlushLog, FlushOf;
      if !recording {
        return;
      }
      FlushEmpties(tracks);
      CallAudioDataHandlers();
      recording, userBuffer, botBuffer := false, [], [];
      userTurnBuffer, botTurnBuffer := [], [];
    }

    method ProcessFrame(f: Frame, dir: Direction)
      requires Valid()
      modifies this
      ensures Valid() && Abs() == StepFrame(cfg, old(Abs()), f, dir)
    {
      hide Stopped, Record;
      if dir != Downstream {
        log := log + [PassedOn(f, dir)];
        return;
      }
      match f {
        case StartFrame(outRate) =>
          sampleRate := cfg.rate;
          if sampleRate <= 0 && outRate > 0 {
            sampleRate := outRate;
          }
          if sampleRate <= 0 {
            sampleRate := 16000;
          }
          bufferSize1s := sampleRate * 2;
        case EndOrCancel =>
          StopRecording();
        case _ =>
      }
      log := log + [PassedOn(f, dir)];
      if !recording {
        return;
      }
      RecordFrame(f);
    }

    /** The second switch of ProcessFrame and what follows it. */
    method RecordFrame(f: Frame)
      requires Valid() && recording
      modifies this
      ensures Valid() && Abs() == Record(cfg, old(Abs()), f)
    {
      hide UserAudio, BotAudio, OnSpeech, Checked, Resample;
      match f {
        case AudioRaw(audio, rate) =>
          var added := AddUserAudio(audio, if rate <= 0 then 16000 else rate);
          if !added {
            return;
          }
        case OutputAudio(audio, rate) =>
          ProcessOutputAudio(audio, if rate <= 0 then 24000 else rate);
        case _ =>
          FollowSpeech(f);
      }
      FlushWhenFull();
    }

    method FlushWhenFull()
      requires Valid()
      modifies `userBuffer, `botBuffer, `tracks, `log
      ensures Valid() && Abs() == if old(recording) then Checked(cfg, old(Abs())) else old(Abs())
    {
      hide Flushed;
      if cfg.bufferSize > 0 && (|userBuffer| >= cfg.bufferSize || |botBuffer| >= cfg.bufferSize) {
        CallAudioDataHandlers();
      }
    }

    /** The cases of ProcessFrame in which someone starts or stops speaking. */
    method FollowSpeech(f: Frame)
      requires Valid()
      modifies `userSpeaking, `botSpeaking, `userTurnBuffer, `botTurnBuffer, `log
      ensures Valid() && Abs() == OnSpeech(cfg, old(Abs()), f)
    {
      match f {
        case UserStarted =>
          userSpeaking := true;
        case UserStopped =>
          if cfg.turnAudio && cfg.onUserTurn && |userTurnBuffer| > 0 {
            log := log + [UserTurnAudio(userTurnBuffer, sampleRate)];
          }
          userSpeaking, userTurnBuffer := false, [];
        case BotStarted =>
          botSpeaking := true;
        case BotStopped =>
          if cfg.turnAudio && cfg.onBotTurn && |botTurnBuffer| > 0 {
            log := log + [BotTurnAudio(botTurnBuffer, sampleRate)];
          }
          botSpeaking, botTurnBuffer := false, [];
        case _ =>
      }
    }

    /** The user-audio case of ProcessFrame. */
    method AddUserAudio(audio: bytes, rate: int) returns (added: bool)
      requires Valid() && recording && rate > 0
      modifies `userBuffer, `botBuffer, `tracks, `userTurnBuffer
      ensures var r := Resample(audio, rate, sampleRate);
              Valid() && added == (r != []) && Abs() == if added then UserAudio(cfg, old(Abs()), r) else old(Abs())
    {
      hide PadUser, Resample, LastOf;
      if |audio| == 0 {
        NothingResampled(rate, sampleRate);
        return false;
      }
      var resampled := Resample16MonoAlloc(audio, rate, sampleRate);
      if |resampled| == 0 {
        return false;
      }
      PadBotBuffer(|userBuffer|);
      userBuffer := userBuffer + resampled;
      tracks := AddUser(old(tracks), resampled);
      KeepTurnAudio(resampled);
      return true;
    }

    /** The part of the user-audio case about the turn buffer. */
    method KeepTurnAudio(resampled: bytes)
      requires sampleRate >= 0 && bufferSize1s == 2 * sampleRate
      modifies `userTurnBuffer
      ensures userTurnBuffer == if !cfg.turnAudio then old(userTurnBuffer)
                                else if userSpeaking then old(userTurnBuffer) + resampled
                                else LastOf(old(userTurnBuffer) + resampled, 2 * sampleRate)
    {
      if cfg.turnAudio {
        userTurnBuffer := userTurnBuffer + resampled;
        if !userSpeaking && |userTurnBuffer| > bufferSize1s {
          var discard := |userTurnBuffer| - bufferSize1s;
          userTurnBuffer := userTurnBuffer[discard..];
        }
      }
    }

    method ProcessOutputAudio(audio: bytes, rate: int)
      requires Valid() && recording && rate > 0
      modifies `userBuffer, `botBuffer, `tracks, `botTurnBuffer
      ensures var r := Resample(audio, rate, sampleRate);
              Valid() && Abs() == if r == [] then old(Abs()) else BotAudio(cfg, old(Abs()), r)
    {
      hide PadBot, Resample;
      if |audio| == 0 {
        NothingResampled(rate, sampleRate);
        return;
      }
      var resampled := Resample16MonoAlloc(audio, rate, sampleRate);
      if |resampled| == 0 {
        return;
      }
      PadUserBuffer(|botBuffer|);
      botBuffer := botBuffer + resampled;
      tracks := AddBot(old(tracks), resampled);
      if cfg.turnAudio && botSpeaking {
        botTurnBuffer := botTurnBuffer + resampled;
      }
    }
  }

  lemma NothingResampled(inRate: int, outRate: int)
    ensures Resample([], inRate, outRate) == []
  {
    if inRate > 0 && outRate > 0 {
      assert OutLen(0, inRate, outRate) == 0;
    }
  }

  lemma FlushOfPadded(t: Tracks)
    ensures var target := Max(|t.user|, |t.bot|);
            var p := PadBot(PadUser(t, target), target);
            Flush(p.user, p.bot) == FlushOf(t) && p.flushes == t.flushes
  {
  }

  lemma FlushEmpties(t: Tracks)
    ensures FlushTracks(t).user == [] == FlushTracks(t).bot
  {
  }

  // ----- what holds of the two tracks -------------------------------------------------------------------

  /** Frames of whole samples, none longer than `m` bytes. */
  ghost predicate Frames(es: seq<Event>, m: nat) {
    forall i :: 0 <= i < |es| && !es[i].Stop? ==> |es[i].r| % 2 == 0 && |es[i].r| <= m
  }

  ghost predicate Aligned(t: Tracks, bufferSize: int, m: nat) {
    && |t.user| % 2 == 0 && |t.bot| % 2 == 0
    && |t.user| <= |t.bot| + m && |t.bot| <= |t.user| + m
    && (bufferSize > 0 ==> |t.user| < bufferSize && |t.bot| < bufferSize)
    && (forall i :: 0 <= i < |t.flushes| ==> |t.flushes[i].user| == |t.flushes[i].bot| && |t.flushes[i].user| % 2 == 0)
  }

  lemma {:induction false} EventsKeepAligned(bufferSize: int, es: seq<Event>, m: nat)
    requires Frames(es, m)
    ensures Aligned(Run(bufferSize, es), bufferSize, m)
    decreases |es|
  {
    hide Aligned;
    if es == [] {
      EmptyAligned(bufferSize, m);
    } else {
      var init, e := es[..|es| - 1], es[|es| - 1];
      EventsKeepAligned(bufferSize, init, m);
      StepAligned(Run(bufferSize, init), bufferSize, e, m);
    }
  }

  lemma EmptyAligned(bufferSize: int, m: nat)
    ensures Aligned(EMPTY, bufferSize, m)
  {
  }

  lemma StepAligned(t: Tracks, bufferSize: int, e: Event, m: nat)
    requires Aligned(t, bufferSize, m) && (!e.Stop? ==> |e.r| % 2 == 0 && |e.r| <= m)
    ensures Aligned(Step(t, bufferSize, e), bufferSize, m)
  {
    var added := match e
      case User(r) => if r == [] then t else AddUser(t, r)
      case Bot(r) => if r == [] then t else AddBot(t, r)
      case Stop => t;
    AddAligned(t, e, m, bufferSize);
    FlushAligned(added, m);
  }

  lemma AddAligned(t: Tracks, e: Event, m: nat, bufferSize: int)
    requires Aligned(t, bufferSize, m) && (!e.Stop? ==> |e.r| % 2 == 0 && |e.r| <= m)
    ensures e.User? ==> Aligned(AddUser(t, e.r), 0, m)
    ensures e.Bot? ==> Aligned(AddBot(t, e.r), 0, m)
    ensures Aligned(t, 0, m)
  {
  }

  lemma FlushAligned(t: Tracks, m: nat)
    requires Aligned(t, 0, m)
    ensures Aligned(FlushTracks(t), 0, m) && FlushTracks(t).user == [] == FlushTracks(t).bot
  {
  }

  function Render(ps: seq<Piece>): bytes {
    if ps == [] then []
    else
      Render(ps[..|ps| - 1]) +
      match ps[|ps| - 1]
      case Sound(data) => data
      case Silence(n) => Zeros(n)
  }

  function SoundOf(ps: seq<Piece>): bytes {
    if ps == [] then [] else SoundOf(ps[..|ps| - 1]) + if ps[|ps| - 1].Sound? then ps[|ps| - 1].data else []
  }

  /** All resampled audio of one side, in order. */
  function Heard(user: bool, es: seq<Event>): bytes {
    if es == [] then []
    else
      Heard(user, es[..|es| - 1]) +
      match es[|es| - 1]
      case User(r) => if user then r else []
      case Bot(r) => if user then [] else r
      case Stop => []
  }

  function FlushedUser(fs: seq<Flush>): bytes {
    if fs == [] then [] else FlushedUser(fs[..|fs| - 1]) + fs[|fs| - 1].user
  }

  function FlushedBot(fs: seq<Flush>): bytes {
    if fs == [] then [] else FlushedBot(fs[..|fs| - 1]) + fs[|fs| - 1].bot
  }

  /** What was flushed of a track and what is still live are its pieces laid end to end. */
  ghost predicate Accounted(t: Tracks) {
    && Render(t.userPieces) == FlushedUser(t.flushes) + t.user
    && Render(t.botPieces) == FlushedBot(t.flushes) + t.bot
  }

  lemma OnePiece(ps: seq<Piece>, p: Piece)
    ensures Render(ps + [p]) == Render(ps) + (if p.Sound? then p.data else Zeros(p.n))
    ensures SoundOf(ps + [p]) == SoundOf(ps) + (if p.Sound? then p.data else [])
  {
  }

  lemma OneFlush(fs: seq<Flush>, f: Flush)
    ensures FlushedUser(fs + [f]) == FlushedUser(fs) + f.user && FlushedBot(fs + [f]) == FlushedBot(fs) + f.bot
  {
  }

  lemma PadAccounted(t: Tracks, target: nat)
    requires Accounted(t)
    ensures Accounted(PadUser(t, target)) && SoundOf(PadUser(t, target).userPieces) == SoundOf(t.userPieces)
    ensures Accounted(PadBot(t, target)) && SoundOf(PadBot(t, target).botPieces) == SoundOf(t.botPieces)
  {
    hide Render, SoundOf, Zeros, FlushedUser, FlushedBot;
    var m, n := Missing(t.user, target), Missing(t.bot, target);
    OnePiece(t.userPieces, Silence(m));
    OnePiece(t.botPieces, Silence(n));
    assert FlushedUser(t.flushes) + t.user + Zeros(m) == FlushedUser(t.flushes) + (t.user + Zeros(m));
    assert FlushedBot(t.flushes) + t.bot + Zeros(n) == FlushedBot(t.flushes) + (t.bot + Zeros(n));
  }

  lemma AddUserAccounted(t: Tracks, r: bytes)
    requires Accounted(t)
    ensures var u := AddUser(t, r);
            && Accounted(u)
            && SoundOf(u.userPieces) == SoundOf(t.userPieces) + r && SoundOf(u.botPieces) == SoundOf(t.botPieces)
  {
    hide Render, SoundOf, Zeros, FlushedUser, FlushedBot;
    PadAccounted(t, |t.user|);
    var p := PadBot(t, |t.user|);
    OnePiece(p.userPieces, Sound(r));
    assert FlushedUser(t.flushes) + t.user + r == FlushedUser(t.flushes) + (t.user + r);
  }

  lemma AddBotAccounted(t: Tracks, r: bytes)
    requires Accounted(t)
    ensures var u := AddBot(t, r);
            && Accounted(u)
            && SoundOf(u.botPieces) == SoundOf(t.botPieces) + r && SoundOf(u.userPieces) == SoundOf(t.userPieces)
  {
    hide Render, SoundOf, Zeros, FlushedUser, FlushedBot;
    PadAccounted(t, |t.bot|);
    var p := PadUser(t, |t.bot|);
    OnePiece(p.botPieces, Sound(r));
    assert FlushedBot(t.flushes) + t.bot + r == FlushedBot(t.flushes) + (t.bot + r);
  }

  lemma FlushAccounted(t: Tracks)
    requires Accounted(t)
    ensures var u := FlushTracks(t);
            && Accounted(u)
            && SoundOf(u.botPieces) == SoundOf(t.botPieces) && SoundOf(u.userPieces) == SoundOf(t.userPieces)
  {
    hide Render, SoundOf, Zeros, FlushedUser, FlushedBot;
    if t.user != [] || t.bot != [] {
      var target := Max(|t.user|, |t.bot|);
      PadAccounted(t, target);
      var p := PadUser(t, target);
      PadAccounted(p, target);
      var q := PadBot(p, target);
      OneFlush(q.flushes, Flush(q.user, q.bot));
      var u := FlushTracks(t);
      assert FlushedUser(u.flushes) + [] == FlushedUser(u.flushes);
      assert FlushedBot(u.flushes) + [] == FlushedBot(u.flushes);
    }
  }

  lemma {:induction false} EventsKeepSound(bufferSize: int, es: seq<Event>)
    ensures var t := Run(bufferSize, es);
            Accounted(t) && SoundOf(t.userPieces) == Heard(true, es) && SoundOf(t.botPieces) == Heard(false, es)
    decreases |es|
  {
    hide Accounted, SoundOf, AddUser, AddBot, FlushTracks;
    if es == [] {
      EmptyAccounted();
    } else {
      var init, e := es[..|es| - 1], es[|es| - 1];
      EventsKeepSound(bufferSize, init);
      var t := Run(bufferSize, init);
      match e
      case User(r) => AddUserAccounted(t, r); FlushAccounted(AddUser(t, r));
      case Bot(r) => AddBotAccounted(t, r); FlushAccounted(AddBot(t, r)); FlushAccounted(t);
      case Stop => FlushAccounted(t);
    }
  }

  lemma EmptyAccounted()
    ensures Accounted(EMPTY) && SoundOf([]) == []
  {
  }

  function FlushedMerged(channels: int, fs: seq<Flush>): bytes {
    if fs == [] then [] else FlushedMerged(channels, fs[..|fs| - 1]) + Merged(channels, fs[|fs| - 1])
  }

  /** The mono flushes, put together, are the mix of the two whole tracks, the stereo flushes their interleaving with
      the user on the left. */
  lemma {:induction false} FlushesAreMerged(fs: seq<Flush>)
    requires forall i :: 0 <= i < |fs| ==> |fs[i].user| == |fs[i].bot| && |fs[i].user| % 2 == 0
    ensures |FlushedUser(fs)| == |FlushedBot(fs)| && |FlushedUser(fs)| % 2 == 0
    ensures FlushedMerged(1, fs) == Mix(FlushedUser(fs), FlushedBot(fs))
    ensures FlushedMerged(2, fs) == Interleave(FlushedUser(fs), FlushedBot(fs))
    decreases |fs|
  {
    hide Mix, Interleave;
    if fs == [] {
      NothingMerged();
    } else {
      var init, f := fs[..|fs| - 1], fs[|fs| - 1];
      FlushesAreMerged(init);
      MixConcat(FlushedUser(init), FlushedBot(init), f.user, f.bot);
      InterleaveConcat(FlushedUser(init), FlushedBot(init), f.user, f.bot);
    }
  }

  lemma NothingMerged()
    ensures Mix([], []) == [] == Interleave([], [])
  {
  }

  // ----- how much silence is inserted ----------------------------------------------------------------------

  lemma {:induction false} SameLengthFlushes(bufferSize: int, es: seq<Event>)
    ensures var fs := Run(bufferSize, es).flushes; |FlushedUser(fs)| == |FlushedBot(fs)|
    decreases |es|
  {
    hide AddUser, AddBot, FlushTracks;
    if es != [] {
      var t, e := Run(bufferSize, es[..|es| - 1]), es[|es| - 1];
      SameLengthFlushes(bufferSize, es[..|es| - 1]);
      var added := match e
        case User(r) => if r == [] then t else AddUser(t, r)
        case Bot(r) => if r == [] then t else AddBot(t, r)
        case Stop => t;
      AddLengths(t, if e.Stop? then [] else e.r);
      FlushOnce(added);
      OneFlush(added.flushes, FlushOf(added));
      FlushLengths(added);
    }
  }

  lemma FlushLengths(t: Tracks)
    ensures |FlushOf(t).user| == |FlushOf(t).bot| == Max(|t.user|, |t.bot|)
  {
  }

  lemma AddLengths(t: Tracks, r: bytes)
    ensures var u := AddUser(t, r);
            |u.user| == |t.user| + |r| && |u.bot| == Max(|t.bot|, |t.user|) && u.flushes == t.flushes
    ensures var u := AddBot(t, r);
            |u.bot| == |t.bot| + |r| && |u.user| == Max(|t.user|, |t.bot|) && u.flushes == t.flushes
  {
  }

  /** Lengths of the two whole tracks. */
  function UserLength(t: Tracks): nat { |Render(t.userPieces)| }

  function BotLength(t: Tracks): nat { |Render(t.botPieces)| }

  /** Only as much silence as needed: one side's audio pads the other track up to where that audio begins, a flush pads
      the shorter track to the longer, and nothing else pads. A flush comes with the end of the recording, and when the
      longer track is the buffer size ahead of what was flushed. */
  lemma PaddingExactly(bufferSize: int, es: seq<Event>, e: Event)
    ensures var t, u := Run(bufferSize, es), Run(bufferSize, es + [e]);
            var user := match e case User(r) => UserLength(t) + |r|
                                case Bot(r) => if r == [] then UserLength(t) else Max(UserLength(t), BotLength(t))
                                case Stop => UserLength(t);
            var bot := match e case User(r) => if r == [] then BotLength(t) else Max(UserLength(t), BotLength(t))
                               case Bot(r) => BotLength(t) + |r|
                               case Stop => BotLength(t);
            var ahead := Max(user, bot) - |FlushedUser(t.flushes)|;
            if e.Stop? || (bufferSize > 0 && ahead >= bufferSize)
            then UserLength(u) == BotLength(u) == Max(user, bot) == |FlushedUser(u.flushes)|
            else UserLength(u) == user && BotLength(u) == bot && u.flushes == t.flushes
  {
    hide UserLength, BotLength, Run, Step, FlushedUser, FlushedBot;
    var t := Run(bufferSize, es);
    OneMoreEvent(bufferSize, es, e);
    LengthsOf(bufferSize, es);
    LengthsOf(bufferSize, es + [e]);
    NeverFull(bufferSize, es);
    StepLengths(t, bufferSize, e);
  }

  lemma OneMoreEvent(bufferSize: int, es: seq<Event>, e: Event)
    ensures Run(bufferSize, es + [e]) == Step(Run(bufferSize, es), bufferSize, e)
  {
    hide Step;
    assert (es + [e])[..|es|] == es;
  }

  lemma LengthsOf(bufferSize: int, es: seq<Event>)
    ensures var t := Run(bufferSize, es); var flushed := |FlushedUser(t.flushes)|;
            UserLength(t) == flushed + |t.user| && BotLength(t) == flushed + |t.bot|
  {
    hide Run, Render, SoundOf, Heard, FlushedUser, FlushedBot;
    EventsKeepSound(bufferSize, es);
    SameLengthFlushes(bufferSize, es);
  }

  lemma StepLengths(t: Tracks, bufferSize: int, e: Event)
    requires !Full(t, bufferSize)
    ensures var u := Step(t, bufferSize, e);
            var user := match e case User(r) => |t.user| + |r|
                                case Bot(r) => if r == [] then |t.user| else Max(|t.user|, |t.bot|)
                                case Stop => |t.user|;
            var bot := match e case User(r) => if r == [] then |t.bot| else Max(|t.user|, |t.bot|)
                               case Bot(r) => |t.bot| + |r|
                               case Stop => |t.bot|;
            if e.Stop? || (bufferSize > 0 && Max(user, bot) >= bufferSize)
            then u.user == [] == u.bot && |FlushedUser(u.flushes)| == |FlushedUser(t.flushes)| + Max(user, bot)
            else |u.user| == user && |u.bot| == bot && u.flushes == t.flushes
  {
    hide AddUser, AddBot, FlushTracks, FlushedUser, FlushedBot, FlushOf;
    var added := match e
      case User(r) => if r == [] then t else AddUser(t, r)
      case Bot(r) => if r == [] then t else AddBot(t, r)
      case Stop => t;
    AddLengths(t, if e.Stop? then [] else e.r);
    FlushOnce(added);
    OneFlush(added.flushes, FlushOf(added));
    FlushLengths(added);
    FlushEmpties(added);
  }

  lemma {:induction false} NeverFull(bufferSize: int, es: seq<Event>)
    ensures !Full(Run(bufferSize, es), bufferSize)
  {
    hide AddUser, AddBot, FlushTracks;
    if es != [] {
      var t, e := Run(bufferSize, es[..|es| - 1]), es[|es| - 1];
      NeverFull(bufferSize, es[..|es| - 1]);
      FlushEmpties(t);
      if !e.Stop? {
        FlushEmpties(AddUser(t, e.r));
        FlushEmpties(AddBot(t, e.r));
      }
    }
  }

  // ----- recordings ---------------------------------------------------------------------------------------

  function RunFrames(cfg: Config, s: Recorder, fs: seq<Frame>): Recorder {
    if fs == [] then s else StepFrame(cfg, RunFrames(cfg, s, fs[..|fs| - 1]), fs[|fs| - 1], Downstream)
  }

  /** What a frame is for the tracks. */
  function EventOf(f: Frame, rate: nat): seq<Event> {
    match f
    case AudioRaw(_, _) => [User(ResampledAudio(f, rate))]
    case OutputAudio(_, _) => [Bot(ResampledAudio(f, rate))]
    case EndOrCancel => [Stop]
    case _ => []
  }

  /** The resampled audio recorded from `s` on, up to the first frame that ends the recording. */
  function EventsOf(cfg: Config, s: Recorder, fs: seq<Frame>): seq<Event> {
    if fs == [] then []
    else
      var init := fs[..|fs| - 1];
      var before := RunFrames(cfg, s, init);
      EventsOf(cfg, s, init) + if before.recording then EventOf(fs[|fs| - 1], before.rate) else []
  }

  lemma FlushAfter(cfg: Config, s: Recorder)
    ensures Checked(cfg, s).tracks == FlushIfFull(s.tracks, cfg.bufferSize)
    ensures Flushed(cfg, s).tracks == FlushTracks(s.tracks)
    ensures !Full(Checked(cfg, s).tracks, cfg.bufferSize)
  {
  }

  lemma FrameIsEvent(cfg: Config, s: Recorder, f: Frame)
    requires !Full(s.tracks, cfg.bufferSize)
    ensures var u := StepFrame(cfg, s, f, Downstream); var es := EventOf(f, s.rate);
            && u.tracks == (if s.recording && es != [] then Step(s.tracks, cfg.bufferSize, es[0]) else s.tracks)
            && !Full(u.tracks, cfg.bufferSize)
  {
    hide FlushTracks, FlushLog, ResampledAudio, AddUser, AddBot, Checked, Flushed, Full;
    var p := Prepared(cfg, s, f);
    var q := p.(log := p.log + [PassedOn(f, Downstream)]);
    var r := ResampledAudio(f, q.rate);
    FlushAfter(cfg, s);
    FlushAfter(cfg, q);
    FlushAfter(cfg, UserAudio(cfg, q, r));
    FlushAfter(cfg, BotAudio(cfg, q, r));
    FlushAfter(cfg, OnSpeech(cfg, q, f));
    FlushEmpties(s.tracks);
    NotFullEmpty(FlushTracks(s.tracks), cfg.bufferSize);
  }

  lemma NotFullEmpty(t: Tracks, bufferSize: int)
    ensures t.user == [] == t.bot ==> !Full(t, bufferSize)
  {
  }

  lemma RunOfAppend(bufferSize: int, es: seq<Event>, more: seq<Event>)
    requires |more| <= 1
    ensures Run(bufferSize, es + more)
         == if more == [] then Run(bufferSize, es) else Step(Run(bufferSize, es), bufferSize, more[0])
  {
    if more == [] {
      assert es + more == es;
    } else {
      assert (es + more)[..|es|] == es;
    }
  }

  /** Frame by frame the tracks are what the resampled audio makes of them. */
  lemma {:induction false} FramesAreEvents(cfg: Config, s: Recorder, fs: seq<Frame>)
    requires JustStarted(s)
    ensures RunFrames(cfg, s, fs).tracks == Run(cfg.bufferSize, EventsOf(cfg, s, fs))
    ensures !Full(RunFrames(cfg, s, fs).tracks, cfg.bufferSize)
  {
    hide StepFrame, Full, Step;
    if fs == [] {
      NotFullEmpty(EMPTY, cfg.bufferSize);
    } else {
      var init, f := fs[..|fs| - 1], fs[|fs| - 1];
      FramesAreEvents(cfg, s, init);
      var before := RunFrames(cfg, s, init);
      FrameIsEvent(cfg, before, f);
      RunOfAppend(cfg.bufferSize, EventsOf(cfg, s, init), if before.recording then EventOf(f, before.rate) else []);
    }
  }

  /** Length of the longest resampled frame. */
  function Longest(es: seq<Event>): nat {
    if es == [] then 0
    else
      var last := es[|es| - 1];
      Max(Longest(es[..|es| - 1]), if last.Stop? then 0 else |last.r|)
  }

  /** Frames of whole samples. */
  predicate EvenAudio(fs: seq<Frame>) {
    forall i :: 0 <= i < |fs| && (fs[i].AudioRaw? || fs[i].OutputAudio?) ==> |fs[i].audio| % 2 == 0
  }

  lemma EvenResampled(f: Frame, rate: nat)
    requires f.AudioRaw? || f.OutputAudio? ==> |f.audio| % 2 == 0
    ensures |ResampledAudio(f, rate)| % 2 == 0
  {
    hide Resample;
    match f
    case AudioRaw(audio, r) => ResampleKeepsEven(audio, if r <= 0 then 16000 else r, rate);
    case OutputAudio(audio, r) => ResampleKeepsEven(audio, if r <= 0 then 24000 else r, rate);
    case _ =>
  }

  lemma LongerFrames(es: seq<Event>, m: nat, more: seq<Event>)
    requires Frames(es, m) && |more| <= 1 && (more != [] && !more[0].Stop? ==> |more[0].r| % 2 == 0)
    ensures more != [] ==> Frames(es + more, Max(m, if more[0].Stop? then 0 else |more[0].r|))
  {
  }

  lemma {:induction false} EventsAreFrames(cfg: Config, s: Recorder, fs: seq<Frame>)
    requires EvenAudio(fs)
    ensures Frames(EventsOf(cfg, s, fs), Longest(EventsOf(cfg, s, fs)))
  {
    hide Frames, RunFrames, ResampledAudio;
    if fs == [] {
      NoFrames();
    } else {
      var init, f := fs[..|fs| - 1], fs[|fs| - 1];
      EventsAreFrames(cfg, s, init);
      var before := RunFrames(cfg, s, init);
      var es, more := EventsOf(cfg, s, init), if before.recording then EventOf(f, before.rate) else [];
      EvenResampled(f, before.rate);
      LongerFrames(es, Longest(es), more);
      if more == [] { assert es + more == es; } else { assert (es + more)[..|es|] == es; }
    }
  }

  lemma NoFrames()
    ensures Frames([], 0)
  {
  }

  /** While frames of whole samples are recorded, every flush delivers tracks of equal length, the live buffers never
      differ by more than the longest resampled frame, and between frames both stay below a positive buffer size. */
  lemma {:induction false} TracksStayAligned(cfg: Config, s: Recorder, fs: seq<Frame>)
    requires JustStarted(s) && EvenAudio(fs)
    ensures Aligned(RunFrames(cfg, s, fs).tracks, cfg.bufferSize, Longest(EventsOf(cfg, s, fs)))
  {
    hide Aligned, RunFrames, Run, Frames, EventsOf;
    EventsAreFrames(cfg, s, fs);
    EventsKeepAligned(cfg.bufferSize, EventsOf(cfg, s, fs), Longest(EventsOf(cfg, s, fs)));
    FramesAreEvents(cfg, s, fs);
  }

  /** Each track, flushed and live, is that side's resampled audio in order, with only runs of zeros inserted:
      nothing is lost and nothing else is added. */
  lemma {:induction false} TrackIsPaddedSound(cfg: Config, s: Recorder, fs: seq<Frame>)
    requires JustStarted(s)
    ensures var t := RunFrames(cfg, s, fs).tracks; var es := EventsOf(cfg, s, fs);
            Accounted(t) && SoundOf(t.userPieces) == Heard(true, es) && SoundOf(t.botPieces) == Heard(false, es)
  {
    hide Accounted, RunFrames, Run, SoundOf, Heard, EventsOf;
    FramesAreEvents(cfg, s, fs);
    EventsKeepSound(cfg.bufferSize, EventsOf(cfg, s, fs));
  }

  // ----- what the callbacks are given --------------------------------------------------------------------

  /** The merged audio handed to the callback, put together; likewise the two tracks. */
  function MergedOf(log: seq<Entry>): bytes {
    if log == [] then []
    else MergedOf(log[..|log| - 1]) + if log[|log| - 1].AudioData? then log[|log| - 1].merged else []
  }

  function TrackOf(user: bool, log: seq<Entry>): bytes {
    if log == [] then []
    else
      var last := log[|log| - 1];
      TrackOf(user, log[..|log| - 1]) + if last.TrackAudioData? then (if user then last.user else last.bot) else []
  }

  /** With both callbacks of a flush set, the log holds what was flushed since `s`. */
  ghost predicate Logged(cfg: Config, s: Recorder, u: Recorder) {
    && MergedOf(u.log) == MergedOf(s.log) + FlushedMerged(cfg.channels, u.tracks.flushes)
    && TrackOf(true, u.log) == TrackOf(true, s.log) + FlushedUser(u.tracks.flushes)
    && TrackOf(false, u.log) == TrackOf(false, s.log) + FlushedBot(u.tracks.flushes)
  }

  lemma LogGrows(log: seq<Entry>, e: Entry)
    ensures MergedOf(log + [e]) == MergedOf(log) + if e.AudioData? then e.merged else []
    ensures TrackOf(true, log + [e]) == TrackOf(true, log) + if e.TrackAudioData? then e.user else []
    ensures TrackOf(false, log + [e]) == TrackOf(false, log) + if e.TrackAudioData? then e.bot else []
  {
  }

  lemma LogOfFlush(cfg: Config, log: seq<Entry>, rate: nat, f: Flush)
    requires cfg.onAudio && cfg.onTracks
    ensures var more := log + FlushLog(cfg, rate, f);
            && MergedOf(more) == MergedOf(log) + Merged(cfg.channels, f)
            && TrackOf(true, more) == TrackOf(true, log) + f.user && TrackOf(false, more) == TrackOf(false, log) + f.bot
  {
    hide Merged, MergedOf, TrackOf;
    var merged := Merged(cfg.channels, f);
    var audio, tracks := AudioData(merged, rate, cfg.channels), TrackAudioData(f.user, f.bot, rate, cfg.channels);
    var mid := log + if merged != [] then [audio] else [];
    LogGrows(log, audio);
    LogGrows(mid, tracks);
    assert log + FlushLog(cfg, rate, f) == mid + [tracks];
    if merged == [] { assert mid == log; }
  }

  lemma FlushesGrow(channels: int, fs: seq<Flush>, f: Flush)
    ensures FlushedMerged(channels, fs + [f]) == FlushedMerged(channels, fs) + Merged(channels, f)
    ensures FlushedUser(fs + [f]) == FlushedUser(fs) + f.user && FlushedBot(fs + [f]) == FlushedBot(fs) + f.bot
  {
    hide Merged;
  }

  lemma FlushedIsLogged(cfg: Config, s: Recorder, u: Recorder)
    requires cfg.onAudio && cfg.onTracks && Logged(cfg, s, u)
    ensures Logged(cfg, s, Flushed(cfg, u)) && Logged(cfg, s, Checked(cfg, u))
  {
    hide MergedOf, TrackOf, FlushedMerged, FlushedUser, FlushedBot, FlushLog, FlushOf, Merged, PadUser, PadBot;
    LogOfFlush(cfg, u.log, u.rate, FlushOf(u.tracks));
    FlushesGrow(cfg.channels, u.tracks.flushes, FlushOf(u.tracks));
    FlushOnce(u.tracks);
  }

  lemma FlushOnce(t: Tracks)
    ensures FlushTracks(t).flushes == if t.user == [] && t.bot == [] then t.flushes else t.flushes + [FlushOf(t)]
  {
  }

  lemma OthersAreLogged(cfg: Config, s: Recorder, u: Recorder, v: Recorder, more: seq<Entry>)
    requires Logged(cfg, s, u) && v.tracks.flushes == u.tracks.flushes && |more| <= 1 && v.log == u.log + more
    requires more != [] ==> !more[0].AudioData? && !more[0].TrackAudioData?
    ensures Logged(cfg, s, v)
  {
    hide FlushedMerged, FlushedUser, FlushedBot, MergedOf, TrackOf;
    if more == [] {
      assert u.log + more == u.log;
    } else {
      LogGrows(u.log, more[0]);
      assert u.log + more == u.log + [more[0]];
    }
  }

  lemma RecordIsLogged(cfg: Config, s: Recorder, u: Recorder, f: Frame)
    requires cfg.onAudio && cfg.onTracks && Logged(cfg, s, u)
    ensures Logged(cfg, s, Record(cfg, u, f))
  {
    hide Logged, ResampledAudio, Checked, TurnHearsUser, TurnHearsBot;
    var r := ResampledAudio(f, u.rate);
    var v := match f
      case AudioRaw(_, _) => UserAudio(cfg, u, r)
      case OutputAudio(_, _) => if r == [] then u else BotAudio(cfg, u, r)
      case _ => OnSpeech(cfg, u, f);
    OthersAreLogged(cfg, s, u, v, v.log[|u.log|..]);
    FlushedIsLogged(cfg, s, v);
  }

  lemma FrameIsLogged(cfg: Config, s: Recorder, u: Recorder, f: Frame)
    requires cfg.onAudio && cfg.onTracks && Logged(cfg, s, u)
    ensures Logged(cfg, s, StepFrame(cfg, u, f, Downstream))
  {
    hide Logged, Record, Flushed;
    var p := Prepared(cfg, u, f);
    FlushedIsLogged(cfg, s, u);
    assert p.log + [] == p.log && u.log + [] == u.log;
    OthersAreLogged(cfg, s, if f.EndOrCancel? && u.recording then Flushed(cfg, u) else u, p, []);
    var q := p.(log := p.log + [PassedOn(f, Downstream)]);
    OthersAreLogged(cfg, s, p, q, [PassedOn(f, Downstream)]);
    RecordIsLogged(cfg, s, q, f);
  }

  lemma {:induction false} CallbacksAreFlushes(cfg: Config, s: Recorder, fs: seq<Frame>)
    requires cfg.onAudio && cfg.onTracks && JustStarted(s)
    ensures Logged(cfg, s, RunFrames(cfg, s, fs))
  {
    hide Logged, StepFrame;
    if fs == [] {
      NothingLogged(cfg, s);
    } else {
      CallbacksAreFlushes(cfg, s, fs[..|fs| - 1]);
      FrameIsLogged(cfg, s, RunFrames(cfg, s, fs[..|fs| - 1]), fs[|fs| - 1]);
    }
  }

  lemma NothingLogged(cfg: Config, s: Recorder)
    requires JustStarted(s)
    ensures Logged(cfg, s, s)
  {
  }

  /** The merged audio a mono recording hands to its callback, put together, is the mix of the two tracks it hands
      to the other, put together. */
  lemma {:induction false} RecordingIsTheMix(cfg: Config, s: Recorder, fs: seq<Frame>)
    requires cfg.channels == 1 && cfg.onAudio && cfg.onTracks && JustStarted(s) && EvenAudio(fs)
    ensures var u := RunFrames(cfg, s, fs); var fs := u.tracks.flushes;
            && MergedOf(u.log) == MergedOf(s.log) + Mix(FlushedUser(fs), FlushedBot(fs))
            && TrackOf(true, u.log) == TrackOf(true, s.log) + FlushedUser(fs)
            && TrackOf(false, u.log) == TrackOf(false, s.log) + FlushedBot(fs)
            && |FlushedUser(fs)| == |FlushedBot(fs)|
  {
    hide Mix, RunFrames, MergedOf, TrackOf, FlushedMerged, FlushedUser, FlushedBot, EventsOf, Longest;
    CallbacksAreFlushes(cfg, s, fs);
    TracksStayAligned(cfg, s, fs);
    FlushesAreMerged(RunFrames(cfg, s, fs).tracks.flushes);
  }

  /** In stereo it is their interleaving, the user on the left: samples at even places are the user's, at odd ones the
      bot's. */
  lemma {:induction false} RecordingIsInterleaved(cfg: Config, s: Recorder, fs: seq<Frame>, k: nat)
    requires cfg.channels == 2 && cfg.onAudio && cfg.onTracks && JustStarted(s) && EvenAudio(fs)
    ensures var u := RunFrames(cfg, s, fs); var fs := u.tracks.flushes;
            exists merged ::
              && MergedOf(u.log) == MergedOf(s.log) + merged
              && |merged| == 2 * |FlushedUser(fs)| == 2 * |FlushedBot(fs)|
              && SampleAt(merged, 2 * k) == SampleAt(FlushedUser(fs), k)
              && SampleAt(merged, 2 * k + 1) == SampleAt(FlushedBot(fs), k)
  {
    hide RunFrames, MergedOf, TrackOf, FlushedMerged, FlushedUser, FlushedBot, EventsOf, Longest, Interleave, SampleAt;
    CallbacksAreFlushes(cfg, s, fs);
    TracksStayAligned(cfg, s, fs);
    var fl := RunFrames(cfg, s, fs).tracks.flushes;
    FlushesAreMerged(fl);
    InterleavedSamples(FlushedUser(fl), FlushedBot(fl), k);
    InterleavedLength(FlushedUser(fl), FlushedBot(fl));
  }

  // ----- rates, frames passed on, turn callbacks ------------------------------------------------------------

  /** The rate the latest StartFrame set: the configured one, else the frame's, else 16000. */
  function LatestRate(cfg: Config, rate: nat, fs: seq<Frame>): nat {
    if fs == [] then rate
    else
      var last := fs[|fs| - 1];
      if last.StartFrame?
      then if cfg.rate > 0 then cfg.rate else if last.outRate > 0 then last.outRate else 16000
      else LatestRate(cfg, rate, fs[..|fs| - 1])
  }

  lemma {:induction false} RateIsLatest(cfg: Config, s: Recorder, fs: seq<Frame>)
    ensures RunFrames(cfg, s, fs).rate == LatestRate(cfg, s.rate, fs)
  {
    if fs != [] {
      RateIsLatest(cfg, s, fs[..|fs| - 1]);
      FrameRate(cfg, RunFrames(cfg, s, fs[..|fs| - 1]), fs[|fs| - 1]);
    }
  }

  lemma FrameRate(cfg: Config, s: Recorder, f: Frame)
    ensures StepFrame(cfg, s, f, Downstream).rate
         == if !f.StartFrame? then s.rate
            else if cfg.rate > 0 then cfg.rate else if f.outRate > 0 then f.outRate else 16000
  {
    hide FlushTracks, FlushLog, ResampledAudio, AddUser, AddBot;
  }

  /** Audio without a rate is taken for 16 kHz from the user and 24 kHz from the bot. */
  lemma DefaultRates(audio: bytes, rate: int, target: nat)
    ensures rate <= 0 ==> ResampledAudio(AudioRaw(audio, rate), target) == Resample(audio, 16000, target)
    ensures rate <= 0 ==> ResampledAudio(OutputAudio(audio, rate), target) == Resample(audio, 24000, target)
    ensures rate > 0 ==> ResampledAudio(AudioRaw(audio, rate), target) == Resample(audio, rate, target)
                      == ResampledAudio(OutputAudio(audio, rate), target)
  {
    hide Resample;
  }

  function FramesIn(log: seq<Entry>): seq<Frame> {
    if log == [] then []
    else FramesIn(log[..|log| - 1]) + if log[|log| - 1].PassedOn? then [log[|log| - 1].frame] else []
  }

  lemma {:induction false} FramesInMore(log: seq<Entry>, more: seq<Entry>)
    requires forall i :: 0 <= i < |more| ==> !more[i].PassedOn?
    ensures FramesIn(log + more) == FramesIn(log)
    decreases |more|
  {
    if more == [] {
      assert log + more == log;
    } else {
      var init := more[..|more| - 1];
      FramesInMore(log, init);
      assert (log + more)[..|log + more| - 1] == log + init;
    }
  }

  lemma FramesInOne(log: seq<Entry>, f: Frame, dir: Direction)
    ensures FramesIn(log + [PassedOn(f, dir)]) == FramesIn(log) + [f]
  {
  }

  /** A step only adds to the log, and no frame passed on but the one of the step. */
  ghost predicate PassesNothing(before: seq<Entry>, after: seq<Entry>) {
    before <= after && forall i :: |before| <= i < |after| ==> !after[i].PassedOn?
  }

  lemma FlushPassesNothing(cfg: Config, s: Recorder)
    ensures PassesNothing(s.log, Flushed(cfg, s).log) && PassesNothing(s.log, Checked(cfg, s).log)
  {
    hide Merged, FlushTracks, FlushOf;
  }

  lemma RecordPassesNothing(cfg: Config, s: Recorder, f: Frame)
    ensures PassesNothing(s.log, Record(cfg, s, f).log)
  {
    hide ResampledAudio, AddUser, AddBot, Checked;
    var r := ResampledAudio(f, s.rate);
    FlushPassesNothing(cfg, s);
    FlushPassesNothing(cfg, UserAudio(cfg, s, r));
    FlushPassesNothing(cfg, BotAudio(cfg, s, r));
    FlushPassesNothing(cfg, OnSpeech(cfg, s, f));
  }

  /** Every frame, in either direction, is passed on to the next processor, once. */
  lemma EveryFrameIsPassedOn(cfg: Config, s: Recorder, f: Frame, dir: Direction)
    ensures FramesIn(StepFrame(cfg, s, f, dir).log) == FramesIn(s.log) + [f]
  {
    hide FramesIn, Flushed, Record;
    FramesInOne(s.log, f, dir);
    if dir == Downstream {
      var p := Prepared(cfg, s, f);
      FlushPassesNothing(cfg, s);
      assert p.log == s.log + p.log[|s.log|..];
      FramesInMore(s.log, p.log[|s.log|..]);
      FramesInOne(p.log, f, dir);
      var q := p.(log := p.log + [PassedOn(f, dir)]);
      RecordPassesNothing(cfg, q, f);
      var u := StepFrame(cfg, s, f, dir);
      assert u.log == q.log + u.log[|q.log|..];
      FramesInMore(q.log, u.log[|q.log|..]);
    }
  }

  /** When someone stops speaking while recording, that side's turn audio is reported, if there is any and the callback
      is set, and starts anew. */
  lemma TurnEndIsReported(cfg: Config, s: Recorder, fs: seq<Frame>)
    requires JustStarted(s) && RunFrames(cfg, s, fs).recording
    ensures var t := RunFrames(cfg, s, fs); var u := StepFrame(cfg, t, UserStopped, Downstream);
            && u.log == t.log + [PassedOn(UserStopped, Downstream)]
                        + (if cfg.turnAudio && cfg.onUserTurn && t.turns.user != []
                           then [UserTurnAudio(t.turns.user, t.rate)] else [])
            && u.turns == t.turns.(user := [], userSpeaking := false)
    ensures var t := RunFrames(cfg, s, fs); var u := StepFrame(cfg, t, BotStopped, Downstream);
            && u.log == t.log + [PassedOn(BotStopped, Downstream)]
                        + (if cfg.turnAudio && cfg.onBotTurn && t.turns.bot != []
                           then [BotTurnAudio(t.turns.bot, t.rate)] else [])
            && u.turns == t.turns.(bot := [], botSpeaking := false)
  {
    hide RunFrames, Full, Flushed;
    FramesAreEvents(cfg, s, fs);
  }

  // ----- audio of one turn --------------------------------------------------------------------------------

  ghost predicate IsSuffix(a: bytes, b: bytes) {
    |a| <= |b| && b[|b| - |a|..] == a
  }

  /** How much of one side's audio was recorded since that side last started speaking. */
  function SinceStarted(user: bool, cfg: Config, s: Recorder, fs: seq<Frame>): nat {
    if fs == [] then 0
    else
      var init, f := fs[..|fs| - 1], fs[|fs| - 1];
      var before := RunFrames(cfg, s, init);
      if (if user then f.UserStarted? else f.BotStarted?) then 0
      else
        SinceStarted(user, cfg, s, init) +
        if (if user then f.AudioRaw? else f.OutputAudio?) && before.recording
        then |ResampledAudio(f, before.rate)| else 0
  }

  /** Turn audio is the latest of its side's audio, and no less than what that side said in the turn; after a recording
      there is none. */
  ghost predicate Recent(cfg: Config, s: Recorder, user: bytes, bot: bytes, sinceUser: nat, sinceBot: nat) {
    && IsSuffix(s.turns.user, user) && IsSuffix(s.turns.bot, bot)
    && (!cfg.turnAudio ==> s.turns.user == []) && (!cfg.turnAudio || !s.turns.botSpeaking ==> s.turns.bot == [])
    && (cfg.turnAudio && s.recording && s.turns.userSpeaking ==> |s.turns.user| >= sinceUser)
    && (cfg.turnAudio && s.recording && s.turns.botSpeaking ==> |s.turns.bot| >= sinceBot)
    && (!s.recording ==> s.turns.user == [] == s.turns.bot)
  }

  lemma SuffixGrows(a: bytes, b: bytes, r: bytes, n: nat)
    requires IsSuffix(a, b)
    ensures IsSuffix(a + r, b + r) && IsSuffix(LastOf(a + r, n), b + r) && IsSuffix([], b + r)
  {
  }

  lemma HeardGrows(user: bool, es: seq<Event>, more: seq<Event>)
    requires |more| <= 1
    ensures Heard(user, es + more)
         == Heard(user, es) + if more == [] || more[0].Stop? || more[0].User? != user then [] else more[0].r
  {
    if more == [] {
      assert es + more == es && Heard(user, es) + [] == Heard(user, es);
    } else {
      assert (es + more)[..|es|] == es;
    }
  }

  lemma SameTurns(cfg: Config, s: Recorder)
    ensures Checked(cfg, s).turns == s.turns == Flushed(cfg, s).turns
    ensures Checked(cfg, s).recording == s.recording == Flushed(cfg, s).recording
  {
  }

  lemma FrameKeepsRecent(cfg: Config, s: Recorder, f: Frame, user: bytes, bot: bytes, sinceUser: nat, sinceBot: nat)
    requires Recent(cfg, s, user, bot, sinceUser, sinceBot)
    ensures var r := if s.recording then ResampledAudio(f, s.rate) else [];
            Recent(cfg, StepFrame(cfg, s, f, Downstream), if f.AudioRaw? then user + r else user,
                   if f.OutputAudio? then bot + r else bot,
                   if f.UserStarted? then 0 else sinceUser + if f.AudioRaw? then |r| else 0,
                   if f.BotStarted? then 0 else sinceBot + if f.OutputAudio? then |r| else 0)
  {
    hide ResampledAudio, Checked, Flushed, AddUser, AddBot, IsSuffix, LastOf;
    var p := Prepared(cfg, s, f);
    var q := p.(log := p.log + [PassedOn(f, Downstream)]);
    var r := if s.recording then ResampledAudio(f, s.rate) else [];
    SameTurns(cfg, s);
    SameTurns(cfg, q);
    SameTurns(cfg, UserAudio(cfg, q, r));
    SameTurns(cfg, BotAudio(cfg, q, r));
    SameTurns(cfg, OnSpeech(cfg, q, f));
    SuffixGrows(s.turns.user, user, r, 2 * s.rate);
    SuffixGrows(s.turns.user, user, [], 0);
    SuffixGrows(s.turns.bot, bot, r, 0);
    SuffixGrows(s.turns.bot, bot, [], 0);
    assert user + [] == user && bot + [] == bot && s.turns.user + [] == s.turns.user && s.turns.bot + [] == s.turns.bot;
  }

  /** What the per-turn callbacks would be given is the latest of that side's resampled audio; while that side speaks
      it holds at least everything recorded since it started. */
  lemma {:induction false} TurnAudioIsRecent(cfg: Config, s: Recorder, fs: seq<Frame>)
    requires JustStarted(s)
    ensures var es := EventsOf(cfg, s, fs);
            Recent(cfg, RunFrames(cfg, s, fs), Heard(true, es), Heard(false, es),
                   SinceStarted(true, cfg, s, fs), SinceStarted(false, cfg, s, fs))
  {
    hide Recent, StepFrame, Heard, ResampledAudio;
    if fs == [] {
      NothingRecent(cfg, s);
    } else {
      var init, f := fs[..|fs| - 1], fs[|fs| - 1];
      TurnAudioIsRecent(cfg, s, init);
      var before, es := RunFrames(cfg, s, init), EventsOf(cfg, s, init);
      FrameKeepsRecent(cfg, before, f, Heard(true, es), Heard(false, es),
                       SinceStarted(true, cfg, s, init), SinceStarted(false, cfg, s, init));
      var more := if before.recording then EventOf(f, before.rate) else [];
      HeardGrows(true, es, more);
      HeardGrows(false, es, more);
      assert Heard(true, es) + [] == Heard(true, es) && Heard(false, es) + [] == Heard(false, es);
    }
  }

  lemma NothingRecent(cfg: Config, s: Recorder)
    requires JustStarted(s)
    ensures Recent(cfg, s, Heard(true, []), Heard(false, []), 0, 0)
  {
  }

  /** How much user audio was recorded since the user last stopped speaking. */
  function SinceStopped(cfg: Config, s: Recorder, fs: seq<Frame>): nat {
    if fs == [] then 0
    else
      var init, f := fs[..|fs| - 1], fs[|fs| - 1];
      var before := RunFrames(cfg, s, init);
      if f.UserStopped? then 0
      else SinceStopped(cfg, s, init) + if f.AudioRaw? && before.recording then |ResampledAudio(f, before.rate)| else 0
  }

  ghost predicate KeepsOneSecond(cfg: Config, s: Recorder, since: nat) {
    cfg.turnAudio && s.recording && !s.turns.userSpeaking ==> |s.turns.user| == Min(2 * s.rate, since)
  }

  lemma FrameKeepsOneSecond(cfg: Config, s: Recorder, f: Frame, since: nat)
    requires KeepsOneSecond(cfg, s, since) && !f.StartFrame?
    ensures var r := if s.recording then ResampledAudio(f, s.rate) else [];
            KeepsOneSecond(cfg, StepFrame(cfg, s, f, Downstream),
                           if f.UserStopped? then 0 else since + if f.AudioRaw? then |r| else 0)
  {
    hide ResampledAudio, Checked, Flushed, AddUser, AddBot;
    var p := Prepared(cfg, s, f);
    var q := p.(log := p.log + [PassedOn(f, Downstream)]);
    var r := if s.recording then ResampledAudio(f, s.rate) else [];
    SameTurns(cfg, s);
    SameTurns(cfg, q);
    SameTurns(cfg, UserAudio(cfg, q, r));
    SameTurns(cfg, BotAudio(cfg, q, r));
    SameTurns(cfg, OnSpeech(cfg, q, f));
    FrameRate(cfg, s, f);
  }

  /** While the user is silent, at one rate, the user's turn buffer is the last second of what was recorded since the
      user stopped speaking, or all of it if that is less: what the next turn starts with. */
  lemma {:induction false} OneSecondIsKept(cfg: Config, s: Recorder, fs: seq<Frame>)
    requires JustStarted(s) && forall i :: 0 <= i < |fs| ==> !fs[i].StartFrame?
    ensures KeepsOneSecond(cfg, RunFrames(cfg, s, fs), SinceStopped(cfg, s, fs))
  {
    hide KeepsOneSecond, StepFrame, ResampledAudio;
    if fs == [] {
      NothingKept(cfg, s);
    } else {
      OneSecondIsKept(cfg, s, fs[..|fs| - 1]);
      FrameKeepsOneSecond(cfg, RunFrames(cfg, s, fs[..|fs| - 1]), fs[|fs| - 1], SinceStopped(cfg, s, fs[..|fs| - 1]));
    }
  }

  lemma NothingKept(cfg: Config, s: Recorder)
    requires JustStarted(s)
    ensures KeepsOneSecond(cfg, s, 0)
  {
  }
}
