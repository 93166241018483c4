/** Windowed voice activity detection with hysteresis (pkg/audio/vad/analyzer.go).

    `BaseAnalyzer` buffers bytes, cuts them into windows of fixed size and moves a four-state
    machine at every window. Two things are proved of it: the result does not depend on how the
    byte stream was cut into calls (`ChunkingIrrelevant`), and the state is a closed form of the
    history of speech windows (`HistoryForm`). Confidence and volume of a window are uninterpreted
    functions, real numbers stand for floating-point ones. */
module VadAnalyzer {
  import opened Common

  datatype State = Quiet | Starting | Speaking | Stopping

  datatype Params = Params(confidence: real, startSecs: real, stopSecs: real, minVolume: real, threshold: real) {
    function Normalize(): Params {
      Params(if confidence <= 0.0 then 0.7 else confidence,
             if startSecs <= 0.0 then 0.2 else startSecs,
             if stopSecs <= 0.0 then 0.2 else stopSecs,
             if minVolume <= 0.0 then 0.2 else minVolume,
             if threshold <= 0.0 then 0.02 else threshold)
    }
  }

  /** Positive settings are kept, the others get the defaults. */
  lemma Defaults(p: Params)
    ensures Params(0.0, 0.0, 0.0, 0.0, 0.0).Normalize() == Params(0.7, 0.2, 0.2, 0.2, 0.02)
    ensures p.confidence > 0.0 && p.startSecs > 0.0 && p.stopSecs > 0.0 && p.minVolume > 0.0 && p.threshold > 0.0 <==>
            p.Normalize() == p
    ensures p.Normalize().Normalize() == p.Normalize()
  {
  }

  // ----- the four-state machine -------------------------------------------------------------------

  datatype Hysteresis = Hysteresis(state: State, startingCount: nat, stoppingCount: nat)

  const INITIAL := Hysteresis(Quiet, 0, 0)

  /** The switch on one window's verdict, before the thresholds are looked at. */
  function Observe(h: Hysteresis, speaking: bool): Hysteresis {
    match h.state
    case Quiet => if speaking then Hysteresis(Starting, 1, 0) else h
    case Starting =>
      if speaking then h.(startingCount := h.startingCount + 1) else h.(state := Quiet, startingCount := 0)
    case Speaking => if speaking then h else h.(state := Stopping, stoppingCount := 1)
    case Stopping =>
      if speaking then h.(state := Speaking, stoppingCount := 0) else h.(stoppingCount := h.stoppingCount + 1)
  }

  /** One window, with `s` windows of speech needed to start and `t` of silence to stop. */
  function Step(s: nat, t: nat, h: Hysteresis, speaking: bool): Hysteresis {
    var h := Observe(h, speaking);
    var h := if h.state == Starting && h.startingCount >= s && s > 0
             then h.(state := Speaking, startingCount := 0) else h;
    if h.state == Stopping && h.stoppingCount >= t && t > 0 then h.(state := Quiet, stoppingCount := 0) else h
  }

  function Run(s: nat, t: nat, h: Hysteresis, flags: seq<bool>): Hysteresis
    decreases |flags|
  {
    if flags == [] then h else Run(s, t, Step(s, t, h, flags[0]), flags[1..])
  }

  lemma {:induction false} RunOfConcat(s: nat, t: nat, h: Hysteresis, f: seq<bool>, g: seq<bool>)
    ensures Run(s, t, h, f + g) == Run(s, t, Run(s, t, h, f), g)
    decreases |f|
  {
    if f == [] {
      assert f + g == g;
    } else {
      assert (f + g)[1..] == f[1..] + g;
      RunOfConcat(s, t, Step(s, t, h, f[0]), f[1..], g);
    }
  }

  // ----- the state as a function of the history -----------------------------------------------------

  /** The `n` windows just before position `k` all have verdict `b`. */
  ghost predicate RunEndsAt(flags: seq<bool>, b: bool, k: nat, n: nat) {
    n <= k <= |flags| && forall i :: k - n <= i < k ==> flags[i] == b
  }

  /** Some run of `s` speech windows ended with no run of `t` silent windows since.
      A threshold of 0 never fires. */
  ghost predicate Active(s: nat, t: nat, flags: seq<bool>) {
    exists k: nat :: s > 0 && RunEndsAt(flags, true, k, s) && NoRunAfter(flags, false, k, t)
  }

  ghost predicate NoRunAfter(flags: seq<bool>, b: bool, k: nat, n: nat) {
    n > 0 ==> forall m: nat :: k + n <= m ==> !RunEndsAt(flags, b, m, n)
  }

  /** Length of the run of `b` the history ends in. */
  function Trailing(flags: seq<bool>, b: bool): (n: nat)
    ensures n <= |flags|
  {
    if flags == [] || flags[|flags| - 1] != b then 0 else 1 + Trailing(flags[..|flags| - 1], b)
  }

  lemma {:induction false} TrailingIsLongestRun(flags: seq<bool>, b: bool, n: nat)
    ensures RunEndsAt(flags, b, |flags|, n) <==> n <= Trailing(flags, b)
    decreases |flags|
  {
    if flags != [] && n > 0 {
      var init := flags[..|flags| - 1];
      TrailingIsLongestRun(init, b, n - 1);
      if RunEndsAt(flags, b, |flags|, n) {
        assert RunEndsAt(init, b, |init|, n - 1);
      } else if flags[|flags| - 1] == b && n - 1 <= Trailing(init, b) {
        assert RunEndsAt(init, b, |init|, n - 1);
      }
    }
  }

  lemma RunsOfPrefix(flags: seq<bool>, last: bool, b: bool, k: nat, n: nat)
    requires k <= |flags|
    ensures RunEndsAt(flags + [last], b, k, n) <==> RunEndsAt(flags, b, k, n)
  {
    if RunEndsAt(flags + [last], b, k, n) {
      assert forall i :: k - n <= i < k ==> (flags + [last])[i] == flags[i];
    }
  }

  /** A silent run that ends no earlier than a speech run starts after it. */
  lemma RunsDoNotOverlap(f: seq<bool>, k: nat, s: nat, m: nat, t: nat)
    requires s > 0 && RunEndsAt(f, true, k, s) && RunEndsAt(f, false, m, t) && k <= m
    ensures k + t <= m
  {
    assert f[k - 1];
  }

  lemma SilenceEndsActivity(s: nat, t: nat, f: seq<bool>)
    requires t > 0 && RunEndsAt(f, false, |f|, t)
    ensures !Active(s, t, f)
  {
    forall k: nat | s > 0 && RunEndsAt(f, true, k, s)
      ensures !NoRunAfter(f, false, k, t)
    {
      RunsDoNotOverlap(f, k, s, |f|, t);
    }
  }

  lemma ActiveGrows(s: nat, t: nat, flags: seq<bool>, last: bool)
    requires var f := flags + [last]; !(t > 0 && RunEndsAt(f, false, |f|, t))
    requires var f := flags + [last]; Active(s, t, flags) || (s > 0 && RunEndsAt(f, true, |f|, s))
    ensures Active(s, t, flags + [last])
  {
    var f := flags + [last];
    if s > 0 && RunEndsAt(f, true, |f|, s) {
      assert NoRunAfter(f, false, |f|, t);
    } else {
      var k: nat :| RunEndsAt(flags, true, k, s) && NoRunAfter(flags, false, k, t);
      RunsOfPrefix(flags, last, true, k, s);
      forall m: nat | k + t <= m && t > 0
        ensures !RunEndsAt(f, false, m, t)
      {
        if m <= |flags| { RunsOfPrefix(flags, last, false, m, t); }
      }
      assert NoRunAfter(f, false, k, t);
    }
  }

  lemma ActiveShrinks(s: nat, t: nat, flags: seq<bool>, last: bool)
    requires Active(s, t, flags + [last])
    ensures var f := flags + [last]; Active(s, t, flags) || (s > 0 && RunEndsAt(f, true, |f|, s))
  {
    var f := flags + [last];
    var k: nat :| RunEndsAt(f, true, k, s) && NoRunAfter(f, false, k, t);
    if k <= |flags| {
      RunsOfPrefix(flags, last, true, k, s);
      forall m: nat | k + t <= m && t > 0
        ensures !RunEndsAt(flags, false, m, t)
      {
        if m <= |flags| { RunsOfPrefix(flags, last, false, m, t); }
      }
      assert NoRunAfter(flags, false, k, t);
    }
  }

  /** How one more window changes `Active`. */
  lemma ActiveStep(s: nat, t: nat, flags: seq<bool>, last: bool)
    ensures var f := flags + [last];
            Active(s, t, f) <==>
              (Active(s, t, flags) || (s > 0 && RunEndsAt(f, true, |f|, s))) && !(t > 0 && RunEndsAt(f, false, |f|, t))
  {
    hide RunEndsAt, Active;
    var f := flags + [last];
    if t > 0 && RunEndsAt(f, false, |f|, t) {
      SilenceEndsActivity(s, t, f);
    } else {
      if Active(s, t, flags) || (s > 0 && RunEndsAt(f, true, |f|, s)) {
        ActiveGrows(s, t, flags, last);
      }
      if Active(s, t, f) {
        ActiveShrinks(s, t, flags, last);
      }
    }
  }

  /** The machine's state read off the history alone. */
  ghost function FromHistory(s: nat, t: nat, flags: seq<bool>): Hysteresis {
    var speech, silence := Trailing(flags, true), Trailing(flags, false);
    if Active(s, t, flags) then
      if silence > 0 then Hysteresis(Stopping, 0, silence) else Hysteresis(Speaking, 0, 0)
    else
      if speech > 0 then Hysteresis(Starting, speech, 0) else Hysteresis(Quiet, 0, 0)
  }

  lemma FromHistoryStep(s: nat, t: nat, flags: seq<bool>, last: bool)
    ensures FromHistory(s, t, flags + [last]) == Step(s, t, FromHistory(s, t, flags), last)
  {
    hide RunEndsAt, Active;
    var f := flags + [last];
    ActiveStep(s, t, flags, last);
    TrailingIsLongestRun(f, true, s);
    TrailingIsLongestRun(f, false, t);
    assert f[..|f| - 1] == flags;
    TrailingExclusive(flags);
  }

  lemma TrailingExclusive(flags: seq<bool>)
    ensures Trailing(flags, true) == 0 || Trailing(flags, false) == 0
    ensures flags != [] ==> Trailing(flags, true) + Trailing(flags, false) > 0
  {
  }

  /** From Quiet with fixed thresholds, state and counters are exactly what the history says. */
  lemma {:induction false} HistoryForm(s: nat, t: nat, flags: seq<bool>)
    ensures Run(s, t, INITIAL, flags) == FromHistory(s, t, flags)
    decreases |flags|
  {
    if flags == [] {
      assert !Active(s, t, flags);
    } else {
      var init, last := flags[..|flags| - 1], flags[|flags| - 1];
      assert flags == init + [last];
      HistoryForm(s, t, init);
      RunOfConcat(s, t, INITIAL, init, [last]);
      assert Run(s, t, Run(s, t, INITIAL, init), [last]) == Step(s, t, Run(s, t, INITIAL, init), last) by {
        assert [last][1..] == [];
      }
      FromHistoryStep(s, t, init, last);
    }
  }

  // ----- windows over the byte stream -----------------------------------------------------------------

  datatype Config = Config(windowBytes: nat, startFrames: nat, stopFrames: nat, minConfidence: real, minVolume: real,
                           confidence: bytes -> Option<real>, volume: bytes -> real)

  datatype Vad = Vad(h: Hysteresis, volume: real, confidence: real, buf: bytes)

  const FRESH := Vad(INITIAL, 0.0, 0.0, [])

  function ExpSmoothing(value: real, prev: real, factor: real): real {
    prev + factor * (value - prev)
  }

  /** A confidence that could not be computed counts as 0. */
  function Confidence(c: Config, w: bytes): real {
    match c.confidence(w)
    case None => 0.0
    case Some(v) => v
  }

  predicate IsSpeech(c: Config, volume: real, w: bytes) {
    Confidence(c, w) >= c.minConfidence && volume >= c.minVolume
  }

  function Window(c: Config, v: Vad, w: bytes): Vad {
    var volume := ExpSmoothing(c.volume(w), v.volume, 0.2);
    Vad(Step(c.startFrames, c.stopFrames, v.h, IsSpeech(c, volume, w)), volume, Confidence(c, w), v.buf)
  }

  /** Consumes every complete window in the buffer. */
  function Consume(c: Config, v: Vad): Vad
    requires c.windowBytes > 0
    decreases |v.buf|
  {
    if |v.buf| < c.windowBytes then v
    else Consume(c, Window(c, v.(buf := v.buf[c.windowBytes..]), v.buf[..c.windowBytes]))
  }

  lemma ConsumeOne(c: Config, v: Vad)
    requires c.windowBytes > 0
    ensures Consume(c, v) == if |v.buf| < c.windowBytes then v
                             else Consume(c, Window(c, v.(buf := v.buf[c.windowBytes..]), v.buf[..c.windowBytes]))
  {
  }

  function Analyzed(c: Config, v: Vad, buf: bytes): Vad
    requires c.windowBytes > 0
  {
    Consume(c, v.(buf := v.buf + buf))
  }

  function AnalyzedAll(c: Config, v: Vad, chunks: seq<bytes>): Vad
    requires c.windowBytes > 0
    decreases |chunks|
  {
    if chunks == [] then v else AnalyzedAll(c, Analyzed(c, v, chunks[0]), chunks[1..])
  }

  lemma {:induction false} AnalyzedInTwo(c: Config, v: Vad, b: bytes)
    requires c.windowBytes > 0
    ensures Analyzed(c, Consume(c, v), b) == Analyzed(c, v, b)
    decreases |v.buf|
  {
    hide Window;
    var n := c.windowBytes;
    if |v.buf| >= n {
      var w, rest := v.buf[..n], v.buf[n..];
      WindowKeepsBuffer(c, v.(buf := rest), w, rest + b);
      AnalyzedInTwo(c, Window(c, v.(buf := rest), w), b);
      assert (v.buf + b)[..n] == w && (v.buf + b)[n..] == rest + b;
    }
  }

  lemma WindowKeepsBuffer(c: Config, v: Vad, w: bytes, buf: bytes)
    ensures Window(c, v, w).buf == v.buf
    ensures Window(c, v.(buf := buf), w) == Window(c, v, w).(buf := buf)
  {
  }

  lemma {:induction false} LeftoverIsShort(c: Config, v: Vad)
    requires c.windowBytes > 0
    ensures |Consume(c, v).buf| < c.windowBytes
    decreases |v.buf|
  {
    if |v.buf| >= c.windowBytes {
      LeftoverIsShort(c, Window(c, v.(buf := v.buf[c.windowBytes..]), v.buf[..c.windowBytes]));
    }
  }

  /** Any split of a byte stream into calls leaves the same state, counters, volume, confidence and
      leftover bytes as a single call, from any state between calls. */
  lemma {:induction false} ChunkingIrrelevant(c: Config, v: Vad, chunks: seq<bytes>)
    requires c.windowBytes > 0 && |v.buf| < c.windowBytes
    ensures AnalyzedAll(c, v, chunks) == Analyzed(c, v, Flatten(chunks))
    decreases |chunks|
  {
    hide Window;
    if chunks == [] {
      assert v.buf + [] == v.buf;
    } else {
      var first := v.(buf := v.buf + chunks[0]);
      LeftoverIsShort(c, first);
      ChunkingIrrelevant(c, Consume(c, first), chunks[1..]);
      AnalyzedInTwo(c, first, Flatten(chunks[1..]));
      assert first.buf + Flatten(chunks[1..]) == v.buf + Flatten(chunks);
    }
  }

  /** The complete windows of a stream, in order. */
  function Windows(n: nat, buf: bytes): seq<bytes>
    requires n > 0
    decreases |buf|
  {
    if |buf| < n then [] else [buf[..n]] + Windows(n, buf[n..])
  }

  /** Speech verdicts of consecutive windows; each smoothed volume depends on the one before. */
  function Verdicts(c: Config, prev: real, windows: seq<bytes>): seq<bool>
    decreases |windows|
  {
    if windows == [] then []
    else
      var volume := ExpSmoothing(c.volume(windows[0]), prev, 0.2);
      [IsSpeech(c, volume, windows[0])] + Verdicts(c, volume, windows[1..])
  }

  lemma VerdictsCons(c: Config, prev: real, w: bytes, ws: seq<bytes>)
    ensures var volume := ExpSmoothing(c.volume(w), prev, 0.2);
            Verdicts(c, prev, [w] + ws) == [IsSpeech(c, volume, w)] + Verdicts(c, volume, ws)
  {
  }

  lemma RunCons(s: nat, t: nat, h: Hysteresis, b: bool, flags: seq<bool>)
    ensures Run(s, t, h, [b] + flags) == Run(s, t, Step(s, t, h, b), flags)
  {
  }

  lemma {:induction false} ConsumeIsRun(c: Config, v: Vad)
    requires c.windowBytes > 0
    ensures var verdicts := Verdicts(c, v.volume, Windows(c.windowBytes, v.buf));
            Consume(c, v).h == Run(c.startFrames, c.stopFrames, v.h, verdicts)
    decreases |v.buf|
  {
    hide Step, IsSpeech, Confidence, ExpSmoothing, Run, Verdicts;
    var n := c.windowBytes;
    if |v.buf| >= n {
      var w, rest := v.buf[..n], v.buf[n..];
      var next := Window(c, v.(buf := rest), w);
      ConsumeIsRun(c, next);
      VerdictsCons(c, v.volume, w, Windows(n, rest));
      var speaking := IsSpeech(c, next.volume, w);
      RunCons(c.startFrames, c.stopFrames, v.h, speaking, Verdicts(c, next.volume, Windows(n, rest)));
    } else {
      NoVerdicts(c, v.volume, v.h);
    }
  }

  lemma NoVerdicts(c: Config, prev: real, h: Hysteresis)
    ensures Run(c.startFrames, c.stopFrames, h, Verdicts(c, prev, [])) == h
  {
  }

  lemma WindowsSplit(n: nat, buf: bytes)
    requires n > 0
    ensures |buf| < n ==> Flatten(Windows(n, buf)) == []
    ensures |buf| >= n ==> Flatten(Windows(n, buf)) == buf[..n] + Flatten(Windows(n, buf[n..]))
  {
  }

  /** The windows and what stays in the buffer are the stream. */
  lemma {:induction false} WindowsConserve(c: Config, v: Vad)
    requires c.windowBytes > 0
    ensures Flatten(Windows(c.windowBytes, v.buf)) + Consume(c, v).buf == v.buf
    decreases |v.buf|
  {
    hide Window, Flatten, Windows;
    var n := c.windowBytes;
    WindowsSplit(n, v.buf);
    if |v.buf| >= n {
      var w, rest := v.buf[..n], v.buf[n..];
      WindowKeepsBuffer(c, v.(buf := rest), w, rest);
      WindowsConserve(c, Window(c, v.(buf := rest), w));
      assert w + Flatten(Windows(n, rest)) + Consume(c, v).buf == w + (Flatten(Windows(n, rest)) + Consume(c, v).buf);
    }
  }

  /** Fed in any chunks, a fresh analyzer's state and counters are the closed form of
      the verdicts on the stream's windows. */
  lemma StateOfStream(c: Config, chunks: seq<bytes>)
    requires c.windowBytes > 0
    ensures AnalyzedAll(c, FRESH, chunks).h
         == FromHistory(c.startFrames, c.stopFrames, Verdicts(c, 0.0, Windows(c.windowBytes, Flatten(chunks))))
  {
    hide FromHistory, Run, Consume, Verdicts, Windows;
    ChunkingIrrelevant(c, FRESH, chunks);
    var v := FRESH.(buf := FRESH.buf + Flatten(chunks));
    assert v.buf == Flatten(chunks);
    ConsumeIsRun(c, v);
    HistoryForm(c.startFrames, c.stopFrames, Verdicts(c, 0.0, Windows(c.windowBytes, v.buf)));
  }

  // ----- verdicts -----------------------------------------------------------------------------------------

  function Pow(x: real, n: nat): real {
    if n == 0 then 1.0 else x * Pow(x, n - 1)
  }

  /** A fifth of the latest loudness, and of every earlier one four fifths of what counts a window later. */
  function WeightedVolumes(c: Config, windows: seq<bytes>): real
    decreases |windows|
  {
    if windows == [] then 0.0
    else 0.2 * Pow(0.8, |windows| - 1) * c.volume(windows[0]) + WeightedVolumes(c, windows[1..])
  }

  /** The smoothed volume after the windows. */
  function VolumeAfter(c: Config, prev: real, windows: seq<bytes>): real
    decreases |windows|
  {
    if windows == [] then prev
    else VolumeAfter(c, ExpSmoothing(c.volume(windows[0]), prev, 0.2), windows[1..])
  }

  lemma {:induction false} VolumeClosedForm(c: Config, prev: real, windows: seq<bytes>)
    ensures VolumeAfter(c, prev, windows) == Pow(0.8, |windows|) * prev + WeightedVolumes(c, windows)
    decreases |windows|
  {
    if windows != [] {
      var volume, p := c.volume(windows[0]), Pow(0.8, |windows| - 1);
      var next := ExpSmoothing(volume, prev, 0.2);
      VolumeClosedForm(c, next, windows[1..]);
      assert next == 0.8 * prev + 0.2 * volume;
      Distribute(p, prev, volume);
    }
  }

  lemma Distribute(p: real, prev: real, volume: real)
    ensures p * (0.8 * prev + 0.2 * volume) == 0.8 * p * prev + 0.2 * p * volume
  {
  }

  /** A window counts as speech exactly if the backend's confidence in it, 0 where it failed, and the smoothed volume
      up to it, as an explicit weighted sum, both reach their minimum. */
  lemma {:induction false} VerdictExactly(c: Config, prev: real, windows: seq<bytes>, k: nat)
    requires k < |windows|
    ensures |Verdicts(c, prev, windows)| == |windows|
    ensures var confidence := c.confidence(windows[k]);
            Verdicts(c, prev, windows)[k] <==>
              && (if confidence.Some? then confidence.value else 0.0) >= c.minConfidence
              && Pow(0.8, k + 1) * prev + WeightedVolumes(c, windows[..k + 1]) >= c.minVolume
    decreases |windows|
  {
    hide Pow, WeightedVolumes, ExpSmoothing;
    VolumeClosedForm(c, prev, windows[..k + 1]);
    VerdictAt(c, prev, windows, k);
  }

  lemma {:induction false} VerdictAt(c: Config, prev: real, windows: seq<bytes>, k: nat)
    requires k < |windows|
    ensures |Verdicts(c, prev, windows)| == |windows|
    ensures Verdicts(c, prev, windows)[k] == IsSpeech(c, VolumeAfter(c, prev, windows[..k + 1]), windows[k])
    decreases |windows|
  {
    hide IsSpeech, ExpSmoothing;
    var next := ExpSmoothing(c.volume(windows[0]), prev, 0.2);
    if |windows| > 1 { VerdictAt(c, next, windows[1..], if k > 0 then k - 1 else 0); }
    assert windows[..k + 1][1..] == windows[1..][..k];
    assert windows[..k + 1][0] == windows[0];
  }

  /** Volume and confidence after a stream: the smoothed volume of its windows, the confidence in the last one. */
  lemma {:induction false} VolumeOfStream(c: Config, v: Vad)
    requires c.windowBytes > 0
    ensures var windows := Windows(c.windowBytes, v.buf);
            && (forall i :: 0 <= i < |windows| ==> |windows[i]| == c.windowBytes)
            && Consume(c, v).volume == VolumeAfter(c, v.volume, windows)
            && Consume(c, v).confidence == if windows == [] then v.confidence else Confidence(c, windows[|windows| - 1])
    decreases |v.buf|
  {
    hide ExpSmoothing, Step, IsSpeech, Confidence;
    var n := c.windowBytes;
    if |v.buf| >= n {
      VolumeOfStream(c, Window(c, v.(buf := v.buf[n..]), v.buf[..n]));
    }
  }

  // ----- the analyzer -----------------------------------------------------------------------------------

  /** Rounds half away from zero; only non-negative values occur. */
  function Round(x: real): (r: int)
    requires x >= 0.0
    ensures r >= 0
  {
    (x + 0.5).Floor
  }

  class BaseAnalyzer {
    // the confidence backend and the loudness measure
    const numFramesRequired: int -> int
    const voiceConfidence: (bytes, int) -> Option<real>
    const calculateVolume: bytes -> real

    var params: Params
    var sampleRate: int
    const numChannels := 1
    var vadFrames: int
    var vadFramesNumByte: int
    var buf: bytes
    var state: State
    var startFrames: nat
    var stopFrames: nat
    var startingCount: nat
    var stoppingCount: nat
    var prevVolume: real
    var lastConfidence: real
    var lastVolume: real

    ghost predicate Valid()
      reads this
    {
      params == params.Normalize() && lastVolume == prevVolume
    }

    ghost function Cfg(): Config
      requires vadFramesNumByte >= 0
      reads this
    {
      var rate, confidence := sampleRate, voiceConfidence;
      Config(vadFramesNumByte, startFrames, stopFrames, params.confidence, params.minVolume,
             (w: bytes) => confidence(w, rate), calculateVolume)
    }

    ghost function Abs(): Vad
      reads this
    {
      Vad(Hysteresis(state, startingCount, stoppingCount), lastVolume, lastConfidence, buf)
    }

    constructor (numFramesRequired: int -> int, voiceConfidence: (bytes, int) -> Option<real>,
                 calculateVolume: bytes -> real)
      ensures Valid() && Abs() == FRESH && sampleRate == 0 && vadFramesNumByte == 0
    {
      this.numFramesRequired := numFramesRequired;
      this.voiceConfidence := voiceConfidence;
      this.calculateVolume := calculateVolume;
      params := Params(0.0, 0.0, 0.0, 0.0, 0.0).Normalize();
      sampleRate, vadFrames, vadFramesNumByte := 0, 0, 0;
      buf, state, startFrames, stopFrames, startingCount, stoppingCount := [], Quiet, 0, 0, 0, 0;
      prevVolume, lastConfidence, lastVolume := 0.0, 0.0, 0.0;
    }

    /** The number of windows a time stands for, as `recompute` computes it. */
    method WindowsFor(secs: real) returns (n: nat)
      requires sampleRate > 0 && vadFrames >= 0 && secs > 0.0
      ensures n == Threshold(secs, vadFrames, sampleRate)
    {
      var secsPerWindow := vadFrames as real / sampleRate as real;
      if secsPerWindow <= 0.0 {
        secsPerWindow := 0.01;
      }
      n := Round(secs / secsPerWindow);
    }

    /** Window size and thresholds follow the sample rate; the counters restart, the state does not. */
    method Recompute()
      requires Valid()
      modifies this
      ensures Valid() && params == old(params) && sampleRate == old(sampleRate)
      ensures sampleRate <= 0 ==> Abs() == old(Abs()) && unchanged(this)
      ensures sampleRate > 0 ==>
                && Abs() == old(Abs()).(h := Hysteresis(old(state), 0, 0))
                && vadFrames == FramesFor(numFramesRequired, sampleRate) && vadFramesNumByte == 2 * vadFrames
                && startFrames == Threshold(params.startSecs, vadFrames, sampleRate)
                && stopFrames == Threshold(params.stopSecs, vadFrames, sampleRate)
    {
      hide Threshold;
      if sampleRate <= 0 {
        return;
      }
      vadFrames := numFramesRequired(sampleRate);
      if vadFrames <= 0 {
        vadFrames := sampleRate / 100;
      }
      vadFramesNumByte := vadFrames * numChannels * 2;
      startFrames := WindowsFor(params.startSecs);
      stopFrames := WindowsFor(params.stopSecs);
      startingCount, stoppingCount := 0, 0;
    }

    method SetSampleRate(rate: int)
      requires Valid()
      modifies this
      ensures Valid() && params == old(params)
      ensures rate <= 0 ==>
                && sampleRate == 0 && Abs() == old(Abs()) && vadFrames == old(vadFrames)
                && vadFramesNumByte == old(vadFramesNumByte)
                && startFrames == old(startFrames) && stopFrames == old(stopFrames)
      ensures rate > 0 ==>
                && sampleRate == rate && Abs() == old(Abs()).(h := Hysteresis(old(state), 0, 0))
                && vadFrames == FramesFor(numFramesRequired, rate) && vadFramesNumByte == 2 * vadFrames
                && startFrames == Threshold(params.startSecs, vadFrames, rate)
                && stopFrames == Threshold(params.stopSecs, vadFrames, rate)
    {
      if rate <= 0 {
        sampleRate := 0;
        return;
      }
      sampleRate := rate;
      Recompute();
    }

    method SetParams(p: Params)
      requires Valid()
      modifies this
      ensures Valid() && params == p.Normalize() && sampleRate == old(sampleRate)
      ensures sampleRate <= 0 ==>
                && Abs() == old(Abs()) && vadFrames == old(vadFrames) && vadFramesNumByte == old(vadFramesNumByte)
                && startFrames == old(startFrames) && stopFrames == old(stopFrames)
      ensures sampleRate > 0 ==>
                && Abs() == old(Abs()).(h := Hysteresis(old(state), 0, 0))
                && vadFrames == FramesFor(numFramesRequired, sampleRate) && vadFramesNumByte == 2 * vadFrames
                && startFrames == Threshold(params.startSecs, vadFrames, sampleRate)
                && stopFrames == Threshold(params.stopSecs, vadFrames, sampleRate)
    {
      params := p.Normalize();
      Recompute();
    }

    method Analyze(input: bytes) returns (st: State, confidence: real, volume: real)
      requires Valid()
      modifies this
      ensures Valid() && st == state && confidence == lastConfidence && volume == lastVolume
      ensures params == old(params) && sampleRate == old(sampleRate) && vadFramesNumByte == old(vadFramesNumByte)
      ensures startFrames == old(startFrames) && stopFrames == old(stopFrames)
      ensures if sampleRate <= 0 || vadFramesNumByte <= 0 then Abs() == old(Abs())
              else Abs() == Analyzed(old(Cfg()), old(Abs()), input)
    {
      hide Consume, Window;
      if sampleRate <= 0 || vadFramesNumByte <= 0 {
        return state, lastConfidence, lastVolume;
      }
      buf := buf + input;
      var numRequired := vadFramesNumByte;
      ghost var c := Cfg();
      ghost var start := Abs();
      ConsumeOne(c, start);
      if |buf| < numRequired {
        return state, lastConfidence, lastVolume;
      }
      while |buf| >= numRequired
        invariant Valid() && vadFramesNumByte == numRequired && params == old(params) && sampleRate == old(sampleRate)
        invariant startFrames == old(startFrames) && stopFrames == old(stopFrames)
        invariant Consume(c, Abs()) == Consume(c, start)
      {
        ghost var before := Abs();
        ConsumeOne(c, before);
        var window := buf[..numRequired];
        buf := buf[numRequired..];
        AnalyzeWindow(window);
      }
      ConsumeOne(c, Abs());
      return state, lastConfidence, lastVolume;
    }

    /** The body of the loop in `Analyze`, once the window is cut off the buffer. */
    method AnalyzeWindow(window: bytes)
      requires Valid() && vadFramesNumByte >= 0
      modifies `state, `startingCount, `stoppingCount, `prevVolume, `lastConfidence, `lastVolume
      ensures Valid() && Abs() == Window(old(Cfg()), old(Abs()), window)
    {
      hide Step;
      var conf := 0.0;
      var result := voiceConfidence(window, sampleRate);
      if result.Some? {
        conf := result.value;
      }
      var vol := ExpSmoothing(calculateVolume(window), prevVolume, 0.2);
      prevVolume := vol;
      lastConfidence, lastVolume := conf, vol;
      UpdateState(conf >= params.confidence && vol >= params.minVolume);
    }

    /** The state machine of the loop in `Analyze`. */
    method UpdateState(speaking: bool)
      modifies `state, `startingCount, `stoppingCount
      ensures Hysteresis(state, startingCount, stoppingCount)
           == Step(startFrames, stopFrames, old(Hysteresis(state, startingCount, stoppingCount)), speaking)
    {
      if speaking {
        match state
        case Quiet => state, startingCount, stoppingCount := Starting, 1, 0;
        case Starting => startingCount := startingCount + 1;
        case Stopping => state, stoppingCount := Speaking, 0;
        case Speaking =>
      } else {
        match state
        case Starting => state, startingCount := Quiet, 0;
        case Speaking => state, stoppingCount := Stopping, 1;
        case Stopping => stoppingCount := stoppingCount + 1;
        case Quiet =>
      }
      if state == Starting && startingCount >= startFrames && startFrames > 0 {
        state, startingCount := Speaking, 0;
      }
      if state == Stopping && stoppingCount >= stopFrames && stopFrames > 0 {
        state, stoppingCount := Quiet, 0;
      }
    }
  }

  function FramesFor(numFramesRequired: int -> int, rate: int): (n: nat)
    requires rate > 0
  {
    var n := numFramesRequired(rate);
    if n > 0 then n else rate / 100
  }

  /** Seconds as a number of windows, rounded; without a window size a window counts as 10 ms. */
  function Threshold(secs: real, frames: nat, rate: int): nat
    requires rate > 0 && secs > 0.0
  {
    Round(secs / (if frames > 0 then frames as real / rate as real else 0.01))
  }

  /** A threshold fires, that is, is not rounded to 0, exactly if it is at least half a window long. */
  lemma ThresholdFires(secs: real, frames: nat, rate: int)
    requires rate > 0 && secs > 0.0 && frames > 0
    ensures Threshold(secs, frames, rate) >= 1 <==> 2.0 * secs * rate as real >= frames as real
  {
    var f, r := frames as real, rate as real;
    var q := secs / (f / r);
    assert f / r > 0.0;
    assert q * (f / r) == secs;
    MulMonotone(q, 0.5, f / r);
    assert (f / r) * r == f;
    MulMonotone(secs, 0.5 * (f / r), r);
  }

  /** A time is taken as the nearest whole number of windows, of 10 ms each if there is no window size: the two differ
      by at most half a window. */
  lemma ThresholdIsNearest(secs: real, frames: nat, rate: int)
    requires rate > 0 && secs > 0.0
    ensures var n, samples := Threshold(secs, frames, rate) as real, secs * rate as real;
            if frames > 0 then (n - 0.5) * frames as real <= samples < (n + 0.5) * frames as real
            else n - 0.5 <= 100.0 * secs < n + 0.5
  {
    var f, r, n := frames as real, rate as real, Threshold(secs, frames, rate) as real;
    if frames > 0 {
      var q := secs / (f / r);
      assert n - 0.5 <= q < n + 0.5;
      assert q * (f / r) == secs && (f / r) * r == f;
      assert q * f == secs * r by { Regroup(q, f / r, r); }
      NearestTimes(n, q, f, secs * r);
    }
  }

  lemma NearestTimes(n: real, q: real, f: real, s: real)
    requires n - 0.5 <= q < n + 0.5 && f > 0.0 && q * f == s
    ensures (n - 0.5) * f <= s < (n + 0.5) * f
  {
    var d, e := q - (n - 0.5), n + 0.5 - q;
    assert d * f >= 0.0 && e * f > 0.0;
    assert (n - 0.5) * f + d * f == s;
    assert s + e * f == (n + 0.5) * f;
  }

  lemma Regroup(q: real, x: real, r: real)
    ensures q * (x * r) == q * x * r
  {
  }

  /** Without a window size of the backend's own a window is 10 ms of whole samples. */
  lemma DefaultWindow(numFramesRequired: int -> int, rate: int)
    requires rate > 0
    ensures var n := FramesFor(numFramesRequired, rate);
            if numFramesRequired(rate) > 0 then n == numFramesRequired(rate) else 100 * n <= rate < 100 * n + 100
  {
  }

  lemma MulMonotone(a: real, b: real, k: real)
    requires k > 0.0
    ensures a >= b <==> a * k >= b * k
  {
  }
}
