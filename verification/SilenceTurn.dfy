/** The silence-based end-of-turn analyzer (pkg/audio/turn/silence.go).

    `Silence` is the part of its state that decides anything; `Append` and `Cleared` are what the
    mutex-protected methods do to it. `ClosesTurn` says when a list of chunks is a whole turn. */
module SilenceTurn {
  import opened Common

  datatype EndOfTurnState = Incomplete | Complete

  datatype Params = Params(stopSecs: real, preSpeechMs: real, maxDurationSecs: real) {
    /** Only positive values are taken over. */
    function Updated(p: Params): Params {
      Params(if p.stopSecs > 0.0 then p.stopSecs else stopSecs,
             if p.preSpeechMs > 0.0 then p.preSpeechMs else preSpeechMs,
             if p.maxDurationSecs > 0.0 then p.maxDurationSecs else maxDurationSecs)
    }
  }

  const DEFAULT_STOP_SECS := 3.0
  const DEFAULT_PRE_SPEECH_MS := 500.0
  const DEFAULT_MAX_DURATION_SECS := 8.0

  /** A chunk of audio and the detector's verdict on it. */
  datatype Chunk = Chunk(data: bytes, speech: bool)

  datatype Silence = Silence(stopMs: real, rate: int, triggered: bool, silenceMs: real, last: EndOfTurnState) {
    predicate Valid() { stopMs > 0.0 && rate > 0 }
  }

  /** Milliseconds of 16-bit mono audio in a chunk; half a sample counts for nothing. */
  function ChunkMs(rate: int, data: bytes): (ms: real)
    requires rate > 0
    ensures ms >= 0.0
  {
    (|data| / 2) as real / (rate as real / 1000.0)
  }

  function Cleared(a: Silence): Silence {
    a.(triggered := false, silenceMs := 0.0, last := Incomplete)
  }

  /** `AppendAudio`; the state it returns is the new `last`. */
  function Append(a: Silence, c: Chunk): Silence {
    if c.data == [] then a
    else if c.speech then a.(triggered := true, silenceMs := 0.0, last := Incomplete)
    else if !a.triggered || a.rate <= 0 then a.(last := Incomplete)
    else
      var ms := a.silenceMs + ChunkMs(a.rate, c.data);
      if ms >= a.stopMs then Cleared(a).(last := Complete) else a.(silenceMs := ms, last := Incomplete)
  }

  // ----- what a turn is -------------------------------------------------------------------------------

  predicate HasSpeech(cs: seq<Chunk>) {
    exists i :: 0 <= i < |cs| && cs[i].speech
  }

  /** Milliseconds since the last speech chunk. */
  function SilenceSince(rate: int, cs: seq<Chunk>): (ms: real)
    requires rate > 0
    ensures ms >= 0.0
  {
    if cs == [] || cs[|cs| - 1].speech then 0.0
    else SilenceSince(rate, cs[..|cs| - 1]) + ChunkMs(rate, cs[|cs| - 1].data)
  }

  /** The chunks contain speech and end in at least `stopMs` of silence after the last of it. */
  predicate ClosesTurn(stopMs: real, rate: int, cs: seq<Chunk>)
    requires rate > 0
  {
    HasSpeech(cs) && SilenceSince(rate, cs) >= stopMs
  }

  /** 16-bit samples after the last speech chunk. */
  function SamplesSince(cs: seq<Chunk>): nat {
    if cs == [] || cs[|cs| - 1].speech then 0 else SamplesSince(cs[..|cs| - 1]) + |cs[|cs| - 1].data| / 2
  }

  lemma ChunkInSamples(rate: int, data: bytes)
    requires rate > 0
    ensures ChunkMs(rate, data) * rate as real == 1000.0 * (|data| / 2) as real
  {
  }

  lemma {:induction false} SilenceInSamples(rate: int, cs: seq<Chunk>)
    requires rate > 0
    ensures SilenceSince(rate, cs) * rate as real == 1000.0 * SamplesSince(cs) as real
  {
    hide ChunkMs;
    if cs != [] && !cs[|cs| - 1].speech {
      SilenceInSamples(rate, cs[..|cs| - 1]);
      ChunkInSamples(rate, cs[|cs| - 1].data);
    }
  }

  /** In samples and seconds: chunks are a whole turn exactly if they contain speech and at least `stopSecs` seconds of
      samples follow the last of it. */
  lemma ClosesTurnInSamples(stopSecs: real, rate: int, cs: seq<Chunk>)
    requires rate > 0
    ensures ClosesTurn(1000.0 * stopSecs, rate, cs) <==>
            HasSpeech(cs) && SamplesSince(cs) as real >= stopSecs * rate as real
  {
    hide SilenceSince, SamplesSince, HasSpeech;
    SilenceInSamples(rate, cs);
    var ms, n, r := SilenceSince(rate, cs), SamplesSince(cs) as real, rate as real;
    assert 1000.0 * stopSecs * r == 1000.0 * (stopSecs * r);
    Scaled(ms, 1000.0 * stopSecs, r);
  }

  lemma Scaled(a: real, b: real, k: real)
    requires k > 0.0
    ensures a >= b <==> a * k >= b * k
  {
  }

  /** A second of audio is 1000 milliseconds. */
  lemma OneSecond(rate: int, data: bytes)
    requires rate > 0 && |data| == 2 * rate
    ensures ChunkMs(rate, data) == 1000.0
  {
    hide ChunkMs;
    ChunkInSamples(rate, data);
    Scaled(ChunkMs(rate, data), 1000.0, rate as real);
    Scaled(1000.0, ChunkMs(rate, data), rate as real);
  }

  // ----- the analyzer -----------------------------------------------------------------------------------

  datatype BufferedChunk = BufferedChunk(at: real, data: bytes)

  /** Drops the chunks at the front that are older than the cutoff. */
  function Trim(buffer: seq<BufferedChunk>, cutoff: real): seq<BufferedChunk> {
    if buffer != [] && buffer[0].at < cutoff then Trim(buffer[1..], cutoff) else buffer
  }

  /** Of chunks in the order of their arrival exactly those not older than the cutoff are kept. */
  lemma {:induction false} TrimKeepsRecent(buffer: seq<BufferedChunk>, cutoff: real)
    requires forall i, j :: 0 <= i < j < |buffer| ==> buffer[i].at <= buffer[j].at
    ensures var kept := Trim(buffer, cutoff); var n := |buffer| - |kept|;
            && n >= 0 && kept == buffer[n..]
            && (forall i :: 0 <= i < n ==> buffer[i].at < cutoff)
            && (forall i :: n <= i < |buffer| ==> buffer[i].at >= cutoff)
  {
    if buffer != [] && buffer[0].at < cutoff {
      TrimKeepsRecent(buffer[1..], cutoff);
    }
  }

  class SilenceTurnAnalyzer {
    var params: Params
    var sampleRate: int
    var initSampleRate: Option<int>
    var buffer: seq<BufferedChunk>
    var speechTriggered: bool
    var silenceMs: real
    var speechStartTime: Option<real>
    var lastState: EndOfTurnState
    var vadStartSecs: real

    ghost predicate Valid()
      reads this
    {
      params.stopSecs > 0.0 && params.preSpeechMs > 0.0 && params.maxDurationSecs > 0.0
    }

    ghost function Abs(): Silence
      reads this
    {
      Silence(params.stopSecs * 1000.0, sampleRate, speechTriggered, silenceMs, lastState)
    }

    constructor (p: Params, initial: Option<int>)
      ensures Valid() && initSampleRate == initial && vadStartSecs == 0.0 && buffer == []
      ensures params == Params(3.0, 500.0, 8.0).Updated(p)
      ensures Abs() == Silence(1000.0 * params.stopSecs, if initial.Some? then initial.value else 0,
                               false, 0.0, Incomplete)
    {
      params := Params(if p.stopSecs <= 0.0 then DEFAULT_STOP_SECS else p.stopSecs,
                       if p.preSpeechMs <= 0.0 then DEFAULT_PRE_SPEECH_MS else p.preSpeechMs,
                       if p.maxDurationSecs <= 0.0 then DEFAULT_MAX_DURATION_SECS else p.maxDurationSecs);
      sampleRate := if initial.Some? then initial.value else 0;
      initSampleRate := initial;
      buffer, speechTriggered, silenceMs, speechStartTime := [], false, 0.0, None;
      lastState, vadStartSecs := Incomplete, 0.0;
    }

    method SetSampleRate(rate: int)
      requires Valid()
      modifies `sampleRate, `initSampleRate
      ensures Valid() && initSampleRate == None
      ensures Abs() == old(Abs()).(rate := if rate > 0 then rate
                                           else if old(initSampleRate).Some? then old(initSampleRate).value
                                           else old(sampleRate))
    {
      if initSampleRate.Some? {
        sampleRate := initSampleRate.value;
        initSampleRate := None;
      }
      if rate > 0 {
        sampleRate := rate;
      }
    }

    method UpdateVadStartSecs(secs: real)
      modifies `vadStartSecs
      ensures vadStartSecs == secs
    {
      vadStartSecs := secs;
    }

    method UpdateParams(p: Params)
      requires Valid()
      modifies `params
      ensures Valid() && Abs() == if p.stopSecs > 0.0 then old(Abs()).(stopMs := p.stopSecs * 1000.0) else old(Abs())
      ensures params == old(params).Updated(p)
    {
      if p.stopSecs > 0.0 {
        params := params.(stopSecs := p.stopSecs);
      }
      if p.preSpeechMs > 0.0 {
        params := params.(preSpeechMs := p.preSpeechMs);
      }
      if p.maxDurationSecs > 0.0 {
        params := params.(maxDurationSecs := p.maxDurationSecs);
      }
    }

    method AppendAudio(data: bytes, isSpeech: bool, now: real) returns (state: EndOfTurnState)
      requires Valid()
      modifies `buffer, `speechTriggered, `silenceMs, `speechStartTime, `lastState
      ensures Valid() && Abs() == Append(old(Abs()), Chunk(data, isSpeech)) && state == lastState
      ensures data == [] ==> unchanged(this)
      ensures data != [] ==> buffer == if state == Complete then []
                                       else Trim(old(buffer) + [BufferedChunk(now, data)],
                                                 now - params.preSpeechMs / 1000.0 - vadStartSecs
                                                 - params.stopSecs - params.maxDurationSecs)
      ensures data != [] ==> speechStartTime == if state == Complete then None
                                                else if isSpeech && old(speechStartTime) == None then Some(now)
                                                else old(speechStartTime)
    {
      if |data| == 0 {
        return lastState;
      }
      buffer := buffer + [BufferedChunk(now, data)];
      var stopMs := params.stopSecs * 1000.0;
      state := Incomplete;
      if isSpeech {
        silenceMs := 0.0;
        speechTriggered := true;
        if speechStartTime.None? {
          speechStartTime := Some(now);
        }
      } else {
        if speechTriggered && sampleRate > 0 {
          silenceMs := silenceMs + (|data| / 2) as real / (sampleRate as real / 1000.0);
          if silenceMs >= stopMs {
            state := Complete;
            ClearLocked(Complete);
          }
        }
      }
      var cutoff := now - MaxBufferTime();
      ghost var untrimmed := buffer;
      while |buffer| > 0 && buffer[0].at < cutoff
        invariant Trim(buffer, cutoff) == Trim(untrimmed, cutoff)
        modifies `buffer
        decreases |buffer|
      {
        buffer := buffer[1..];
      }
      lastState := state;
    }

    function MaxBufferTime(): real
      reads this
    {
      (params.preSpeechMs / 1000.0 + vadStartSecs) + params.stopSecs + params.maxDurationSecs
    }

    method Clear()
      requires Valid()
      modifies `speechTriggered, `buffer, `speechStartTime, `silenceMs, `lastState
      ensures Valid() && Abs() == Cleared(old(Abs())) && buffer == [] && speechStartTime == None
    {
      ClearLocked(Complete);
    }

    method ClearLocked(turnState: EndOfTurnState)
      modifies `speechTriggered, `buffer, `speechStartTime, `silenceMs, `lastState
      ensures speechTriggered == (turnState == Incomplete)
      ensures buffer == [] && speechStartTime == None && silenceMs == 0.0 && lastState == Incomplete
    {
      speechTriggered := turnState == Incomplete;
      buffer, speechStartTime, silenceMs, lastState := [], None, 0.0, Incomplete;
    }
  }
}
