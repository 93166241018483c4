/** Segmentation of the audio stream into user turns (pkg/processors/voice/turn.go, synchronous mode).

    `Step` says what one event does to the processor and its analyzer; `TurnProcessor` is proved
    to do it and to feed the user turn controller. `SegmentsAreTheCut` gives the segments a meaning of
    their own: they are the one way to cut the stream, front to back, at the first chunk that closes a
    turn. The module `TurnOrder` places them among the controller's frames. */
module TurnProcessor {
  import opened Common
  import opened SilenceTurn
  import UserTurn

  type Segment = seq<Chunk>

  /** What reaches the turn logic: a chunk with the detector's verdict, a new stop time, or a cancel. */
  datatype Event = Audio(chunk: Chunk) | StopTime(stopMs: real) | Cancel

  datatype Turn = Turn(analyzer: Silence, live: Segment, segments: seq<Segment>)

  function Fresh(stopMs: real, rate: int): Turn {
    Turn(Silence(stopMs, rate, false, 0.0, Incomplete), [], [])
  }

  function Step(t: Turn, e: Event): Turn {
    match e
    case Cancel => t.(analyzer := Cleared(t.analyzer), live := [])
    case StopTime(ms) => t.(analyzer := t.analyzer.(stopMs := ms))
    case Audio(c) =>
      if c.data == [] then t
      else
        var a := Append(t.analyzer, c);
        if a.last == Complete then Turn(Cleared(a), [], t.segments + [t.live + [c]])
        else t.(analyzer := a, live := t.live + [c])
  }

  function Run(t: Turn, es: seq<Event>): Turn {
    if es == [] then t else Step(Run(t, es[..|es| - 1]), es[|es| - 1])
  }

  function Bytes(cs: Segment): bytes {
    if cs == [] then [] else Bytes(cs[..|cs| - 1]) + cs[|cs| - 1].data
  }

  // ----- the processor --------------------------------------------------------------------------------

  datatype Direction = Downstream | Upstream

  /** `verdict` is what the detector says about the audio; `None` is a detector error. */
  datatype Frame = AudioRaw(data: bytes, verdict: Option<bool>, at: real)
                 | VadParamsUpdate(stopSecs: real, startSecs: real)
                 | CancelFrame
                 | Other(id: nat)

  /** `User` is a frame of the user turn controller. */
  datatype Output = Down(frame: Frame) | Up(frame: Frame) | TurnAudio(audio: bytes) | User(pushed: UserTurn.Pushed)

  /** The event a downstream or upstream frame is for the turn logic, if any. */
  function EventOf(f: Frame, dir: Direction): Option<Event> {
    match f
    case VadParamsUpdate(stop, _) => if stop > 0.0 then Some(StopTime(stop * 1000.0)) else None
    case CancelFrame => if dir == Downstream then Some(Cancel) else None
    case AudioRaw(data, verdict, _) =>
      if dir == Downstream then Some(Audio(Chunk(data, verdict == Some(true)))) else None
    case Other(_) => None
  }

  /** A detector error counts as silence, and only audio and cancels going downstream count; a stop time does either
      way, if it is positive. */
  lemma WhatFramesMean(data: bytes, at: real, stop: real, start: real)
    ensures EventOf(AudioRaw(data, None, at), Downstream) == Some(Audio(Chunk(data, false)))
    ensures forall speech :: EventOf(AudioRaw(data, Some(speech), at), Downstream) == Some(Audio(Chunk(data, speech)))
    ensures forall verdict :: EventOf(AudioRaw(data, verdict, at), Upstream) == None
    ensures EventOf(CancelFrame, Downstream) == Some(Cancel) && EventOf(CancelFrame, Upstream) == None
    ensures forall dir :: EventOf(VadParamsUpdate(stop, start), dir).Some? <==> stop > 0.0
  {
  }

  /** Non-empty audio tells the user turn controller what the detector says. */
  function Heard(c: UserTurn.Controller, cfg: UserTurn.Config, e: Event): UserTurn.Controller {
    if e.Audio? && e.chunk.data != [] then UserTurn.Step(c, cfg, UserTurn.Vad(e.chunk.speech), true, true) else c
  }

  /** The controller's frames pushed between `c` and `d`. */
  function UserFrames(c: UserTurn.Controller, d: UserTurn.Controller): seq<Output> {
    if |d.pushed| <= |c.pushed| then [] else AsOutput(d.pushed[|c.pushed|..])
  }

  function AsOutput(pushed: seq<UserTurn.Pushed>): seq<Output> {
    seq(|pushed|, i requires 0 <= i < |pushed| => User(pushed[i]))
  }

  class TurnProcessor {
    const analyzer: SilenceTurnAnalyzer
    const userTurnController: UserTurn.UserTurnController
    var buffer: bytes
    var lastVadSpeech: bool
    ghost var live: Segment          // the chunks in `buffer`
    ghost var segments: seq<Segment> // everything pushed so far

    ghost predicate Valid()
      reads this, analyzer
    {
      analyzer.Valid() && buffer == Bytes(live) && analyzer.lastState == Incomplete
    }

    ghost function Abs(): Turn
      reads this, analyzer
    {
      Turn(analyzer.Abs(), live, segments)
    }

    constructor (analyzer: SilenceTurnAnalyzer, sampleRate: int, user: UserTurn.Config)
      requires analyzer.Valid() && analyzer.lastState == Incomplete
      modifies analyzer
      ensures Valid() && this.analyzer == analyzer && live == [] && segments == []
      ensures analyzer.Abs() == old(analyzer.Abs()).(rate := if sampleRate <= 0 then 16000 else sampleRate)
      ensures fresh(userTurnController) && userTurnController.cfg == user
      ensures userTurnController.Abs() == UserTurn.INITIAL
    {
      this.analyzer := analyzer;
      userTurnController := new UserTurn.UserTurnController(user);
      buffer, lastVadSpeech, live, segments := [], false, [], [];
      new;
      analyzer.SetSampleRate(if sampleRate <= 0 then 16000 else sampleRate);
    }

    method ProcessFrame(f: Frame, dir: Direction) returns (out: seq<Output>)
      requires Valid()
      modifies this, analyzer
      modifies userTurnController, userTurnController.startStrategy, userTurnController.stopStrategy
      ensures Valid()
      ensures Abs() == if EventOf(f, dir).Some? then Step(old(Abs()), EventOf(f, dir).value) else old(Abs())
      ensures userTurnController.Abs()
           == if EventOf(f, dir).None? then old(userTurnController.Abs())
              else Heard(old(userTurnController.Abs()), userTurnController.cfg, EventOf(f, dir).value)
      ensures f.AudioRaw? && dir == Downstream ==>
                out == UserFrames(old(userTurnController.Abs()), userTurnController.Abs())
                       + TurnAudios(segments[|old(segments)|..])
      ensures !f.AudioRaw? && dir == Downstream ==> out == [Down(f)]
      ensures dir == Upstream ==> out == if f.VadParamsUpdate? then [] else [Up(f)]
    {
      hide Append, Bytes, UserFrames, UserTurn.Step;
      if f.VadParamsUpdate? {
        analyzer.UpdateParams(Params(f.stopSecs, 0.0, 0.0));
        if f.startSecs != 0.0 {
          analyzer.UpdateVadStartSecs(f.startSecs);
        }
        return if dir == Upstream then [] else [Down(f)];
      }
      if dir == Upstream {
        return [Up(f)];
      }
      match f
      case CancelFrame =>
        buffer, live := [], [];
        analyzer.Clear();
        NoBytes();
        return [Down(f)];
      case Other(_) =>
        return [Down(f)];
      case AudioRaw(chunk, verdict, at) =>
        out := ProcessAudio(chunk, verdict == Some(true), at);
    }

    method ProcessAudio(chunk: bytes, isSpeech: bool, at: real) returns (out: seq<Output>)
      requires Valid()
      modifies this, analyzer
      modifies userTurnController, userTurnController.startStrategy, userTurnController.stopStrategy
      ensures Valid() && Abs() == Step(old(Abs()), Audio(Chunk(chunk, isSpeech)))
      ensures userTurnController.Abs()
           == Heard(old(userTurnController.Abs()), userTurnController.cfg, Audio(Chunk(chunk, isSpeech)))
      ensures out == UserFrames(old(userTurnController.Abs()), userTurnController.Abs())
                     + TurnAudios(segments[|old(segments)|..])
    {
      hide Append, Bytes, UserTurn.Step;
      if |chunk| == 0 {
        return [];
      }
      lastVadSpeech := isSpeech;
      var before := |userTurnController.pushed|;
      userTurnController.ProcessVadUpdate(isSpeech);
      UserTurn.PushesOnly(old(userTurnController.Abs()), userTurnController.cfg, UserTurn.Vad(isSpeech), true, true);
      out := AsOutput(userTurnController.pushed[before..]);
      BytesGrow(live, Chunk(chunk, isSpeech));
      buffer, live := buffer + chunk, live + [Chunk(chunk, isSpeech)];
      var state := analyzer.AppendAudio(chunk, isSpeech, at);
      if state == Complete {
        var audioCopy := buffer;
        segments := segments + [live];
        assert segments[|old(segments)|..] == [live];
        buffer, live := [], [];
        analyzer.Clear();
        NoBytes();
        out := out + [TurnAudio(audioCopy)];
      }
    }
  }

  /** The frames pushed for newly closed segments. */
  function TurnAudios(segments: seq<Segment>): seq<Output> {
    seq(|segments|, i requires 0 <= i < |segments| => TurnAudio(Bytes(segments[i])))
  }

  lemma BytesGrow(live: Segment, c: Chunk)
    ensures Bytes(live + [c]) == Bytes(live) + c.data
  {
  }

  lemma NoBytes()
    ensures Bytes([]) == []
  {
  }

  // ----- what the segments are --------------------------------------------------------------------------

  /** A turn that no shorter beginning of it closes. */
  ghost predicate MinimalTurn(stopMs: real, rate: int, seg: Segment)
    requires rate > 0
  {
    ClosesTurn(stopMs, rate, seg) && forall n :: 0 <= n < |seg| ==> !ClosesTurn(stopMs, rate, seg[..n])
  }

  ghost predicate Open(stopMs: real, rate: int, live: Segment)
    requires rate > 0
  {
    forall n :: 0 <= n <= |live| ==> !ClosesTurn(stopMs, rate, live[..n])
  }

  /** The stream cut, front to back, as early as it can be. */
  ghost predicate IsCut(stopMs: real, rate: int, cs: Segment, segments: seq<Segment>, live: Segment)
    requires rate > 0
  {
    && Flatten(segments) + live == cs
    && (forall i :: 0 <= i < |segments| ==> MinimalTurn(stopMs, rate, segments[i]))
    && Open(stopMs, rate, live)
  }

  /** The analyzer's counters, read off the live chunks. */
  ghost predicate Tracks(a: Silence, live: Segment)
    requires a.rate > 0
  {
    && a.last == Incomplete
    && (a.triggered <==> HasSpeech(live))
    && a.silenceMs == if HasSpeech(live) then SilenceSince(a.rate, live) else 0.0
  }

  lemma SpeechSoFar(live: Segment, c: Chunk)
    ensures HasSpeech(live + [c]) <==> HasSpeech(live) || c.speech
  {
    var next := live + [c];
    if HasSpeech(live) {
      var i :| 0 <= i < |live| && live[i].speech;
      assert next[i].speech;
    }
    if c.speech {
      assert next[|live|].speech;
    }
  }

  /** The analyzer answers Complete exactly when the live chunks become a turn. */
  lemma CompleteIffTurnCloses(a: Silence, live: Segment, c: Chunk)
    requires a.Valid() && Tracks(a, live) && c.data != []
    ensures Append(a, c).last == Complete <==> ClosesTurn(a.stopMs, a.rate, live + [c])
    ensures Append(a, c).last == Incomplete ==> Tracks(Append(a, c), live + [c])
    ensures Append(a, c).stopMs == a.stopMs && Append(a, c).rate == a.rate
  {
    hide HasSpeech;
    SpeechSoFar(live, c);
    assert (live + [c])[..|live|] == live;
  }

  function AudioEvents(cs: Segment): seq<Event> {
    seq(|cs|, i requires 0 <= i < |cs| => Audio(cs[i]))
  }

  lemma OpenGrows(stopMs: real, rate: int, live: Segment, c: Chunk)
    requires rate > 0 && Open(stopMs, rate, live)
    ensures ClosesTurn(stopMs, rate, live + [c]) ==> MinimalTurn(stopMs, rate, live + [c])
    ensures !ClosesTurn(stopMs, rate, live + [c]) ==> Open(stopMs, rate, live + [c])
  {
    hide ClosesTurn;
    var next := live + [c];
    forall n | 0 <= n <= |live|
      ensures !ClosesTurn(stopMs, rate, next[..n])
    {
      assert next[..n] == live[..n];
    }
    assert next[..|next|] == next;
  }

  /** The chunks that carry audio. */
  function NonEmpty(cs: Segment): Segment {
    if cs == [] then [] else NonEmpty(cs[..|cs| - 1]) + if cs[|cs| - 1].data == [] then [] else [cs[|cs| - 1]]
  }

  lemma {:induction false} RunCuts(stopMs: real, rate: int, cs: Segment)
    requires stopMs > 0.0 && rate > 0
    ensures var t := Run(Fresh(stopMs, rate), AudioEvents(cs));
            && t.analyzer.stopMs == stopMs && t.analyzer.rate == rate && Tracks(t.analyzer, t.live)
            && IsCut(stopMs, rate, NonEmpty(cs), t.segments, t.live)
    decreases |cs|
  {
    hide ClosesTurn, HasSpeech, MinimalTurn, Append;
    if cs == [] {
      NothingCut(stopMs, rate);
    } else {
      var init, c := cs[..|cs| - 1], cs[|cs| - 1];
      RunCuts(stopMs, rate, init);
      assert AudioEvents(cs)[..|cs| - 1] == AudioEvents(init);
      var t := Run(Fresh(stopMs, rate), AudioEvents(init));
      if c.data == [] {
        assert NonEmpty(init) + [] == NonEmpty(init);
      } else {
        CutGrows(stopMs, rate, NonEmpty(init), t, c);
      }
    }
  }

  lemma NothingCut(stopMs: real, rate: int)
    requires rate > 0
    ensures Tracks(Fresh(stopMs, rate).analyzer, []) && IsCut(stopMs, rate, [], [], [])
  {
  }

  lemma CutGrows(stopMs: real, rate: int, cs: Segment, t: Turn, c: Chunk)
    requires stopMs > 0.0 && rate > 0 && c.data != []
    requires t.analyzer.stopMs == stopMs && t.analyzer.rate == rate && Tracks(t.analyzer, t.live)
    requires IsCut(stopMs, rate, cs, t.segments, t.live)
    ensures var u := Step(t, Audio(c));
            && u.analyzer.stopMs == stopMs && u.analyzer.rate == rate && Tracks(u.analyzer, u.live)
            && IsCut(stopMs, rate, cs + [c], u.segments, u.live)
  {
    hide ClosesTurn, MinimalTurn, Append, Flatten, SilenceSince;
    var next := t.live + [c];
    assert t.live == t.live[..|t.live|];
    CompleteIffTurnCloses(t.analyzer, t.live, c);
    OpenGrows(stopMs, rate, t.live, c);
    FlattenOfAppend(t.segments, next);
    assert Flatten(t.segments) + next == cs + [c];
    NothingCut(stopMs, rate);
  }

  lemma FirstIsPrefix(s: seq<Segment>, live: Segment)
    requires s != []
    ensures |s[0]| <= |Flatten(s) + live| && (Flatten(s) + live)[..|s[0]|] == s[0]
    ensures (Flatten(s) + live)[|s[0]|..] == Flatten(s[1..]) + live
  {
    var first, rest := s[0], Flatten(s[1..]);
    assert Flatten(s) == first + rest;
    AppendSlices(first, rest, live);
  }

  lemma AppendSlices(a: Segment, b: Segment, c: Segment)
    ensures (a + b + c)[..|a|] == a && (a + b + c)[|a|..] == b + c
  {
  }

  lemma OpenIsUncut(stopMs: real, rate: int, cs: Segment, s: seq<Segment>, live: Segment)
    requires rate > 0 && Open(stopMs, rate, cs) && IsCut(stopMs, rate, cs, s, live)
    ensures s == [] && live == cs
  {
    hide ClosesTurn;
    if s != [] {
      FirstIsPrefix(s, live);
    }
  }

  lemma {:induction false} CutIsUnique(stopMs: real, rate: int, cs: Segment,
                                       s1: seq<Segment>, l1: Segment, s2: seq<Segment>, l2: Segment)
    requires rate > 0 && IsCut(stopMs, rate, cs, s1, l1) && IsCut(stopMs, rate, cs, s2, l2)
    ensures s1 == s2 && l1 == l2
    decreases |s1|
  {
    hide ClosesTurn;
    if s1 == [] {
      assert cs == l1;
      OpenIsUncut(stopMs, rate, cs, s2, l2);
    } else if s2 == [] {
      assert cs == l2;
      OpenIsUncut(stopMs, rate, cs, s1, l1);
    } else {
      FirstIsPrefix(s1, l1);
      FirstIsPrefix(s2, l2);
      var a, b := s1[0], s2[0];
      assert |a| <= |b| ==> a == b[..|a|];
      assert |b| <= |a| ==> b == a[..|b|];
      CutIsUnique(stopMs, rate, cs[|a|..], s1[1..], l1, s2[1..], l2);
    }
  }

  /** Without a cancel, segments and live buffer conserve the non-empty chunks, every segment is a minimal
      turn, nothing live is one yet; and that determines them. */
  lemma SegmentsAreTheCut(stopMs: real, rate: int, cs: Segment, segments: seq<Segment>, live: Segment)
    requires stopMs > 0.0 && rate > 0
    ensures var t := Run(Fresh(stopMs, rate), AudioEvents(cs));
            IsCut(stopMs, rate, NonEmpty(cs), segments, live) <==> segments == t.segments && live == t.live
  {
    hide ClosesTurn;
    RunCuts(stopMs, rate, cs);
    if IsCut(stopMs, rate, NonEmpty(cs), segments, live) {
      var t := Run(Fresh(stopMs, rate), AudioEvents(cs));
      CutIsUnique(stopMs, rate, NonEmpty(cs), segments, live, t.segments, t.live);
    }
  }

  // ----- cancels and new stop times ----------------------------------------------------------------------

  /** The stop time in force after the events. */
  function LatestStop(stopMs: real, es: seq<Event>): real {
    if es == [] then stopMs
    else if es[|es| - 1].StopTime? then es[|es| - 1].stopMs
    else LatestStop(stopMs, es[..|es| - 1])
  }

  predicate ProperStops(es: seq<Event>) {
    forall i :: 0 <= i < |es| && es[i].StopTime? ==> es[i].stopMs > 0.0
  }

  lemma {:induction false} StateAfter(stopMs: real, rate: int, es: seq<Event>)
    requires stopMs > 0.0 && rate > 0 && ProperStops(es)
    ensures var a := Run(Fresh(stopMs, rate), es).analyzer;
            && a.rate == rate && a.stopMs == LatestStop(stopMs, es) > 0.0 && a.last == Incomplete
            && Tracks(a, Run(Fresh(stopMs, rate), es).live)
  {
    hide HasSpeech, SilenceSince, Append;
    if es == [] {
      NothingCut(stopMs, rate);
    } else {
      var init, e := es[..|es| - 1], es[|es| - 1];
      StateAfter(stopMs, rate, init);
      var t := Run(Fresh(stopMs, rate), init);
      if e.Audio? && e.chunk.data != [] { CompleteIffTurnCloses(t.analyzer, t.live, e.chunk); }
      NothingCut(t.analyzer.stopMs, rate);
    }
  }

  /** After any events, cancels and new stop times among them: a chunk is added to the live ones, and they are pushed
      as a segment exactly if they contain speech and end in silence for the stop time then in force. */
  lemma SegmentClosesExactly(stopMs: real, rate: int, es: seq<Event>, c: Chunk)
    requires stopMs > 0.0 && rate > 0 && ProperStops(es) && c.data != []
    ensures var t, u := Run(Fresh(stopMs, rate), es), Run(Fresh(stopMs, rate), es + [Audio(c)]);
            if ClosesTurn(LatestStop(stopMs, es), rate, t.live + [c])
            then u.segments == t.segments + [t.live + [c]] && u.live == []
            else u.segments == t.segments && u.live == t.live + [c]
  {
    hide ClosesTurn, Append;
    StateAfter(stopMs, rate, es);
    var t := Run(Fresh(stopMs, rate), es);
    CompleteIffTurnCloses(t.analyzer, t.live, c);
    assert (es + [Audio(c)])[..|es|] == es;
  }

  lemma {:induction false} EarlierSegmentsStay(t: Turn, before: seq<Segment>, es: seq<Event>)
    ensures var u := Run(t, es); Run(t.(segments := before + t.segments), es) == u.(segments := before + u.segments)
  {
    hide Append;
    if es != [] {
      var u := Run(t, es[..|es| - 1]);
      EarlierSegmentsStay(t, before, es[..|es| - 1]);
      var e := es[|es| - 1];
      if e.Audio? {
        var next := u.live + [e.chunk];
        assert before + (u.segments + [next]) == before + u.segments + [next];
      }
    }
  }

  lemma {:induction false} RunInTwo(t: Turn, a: seq<Event>, b: seq<Event>)
    ensures Run(t, a + b) == Run(Run(t, a), b)
  {
    hide Step;
    if b == [] {
      assert a + b == a;
    } else {
      assert (a + b)[..|a + b| - 1] == a + b[..|b| - 1];
      RunInTwo(t, a, b[..|b| - 1]);
    }
  }

  /** A cancel forgets: whatever came before it, the audio after it is cut as by a fresh processor, so that no audio
      from before a cancel reaches a segment or the buffer after it; segments already pushed stay. */
  lemma CancelForgets(stopMs: real, rate: int, es: seq<Event>, cs: Segment)
    requires stopMs > 0.0 && rate > 0 && ProperStops(es)
    ensures var t, u := Run(Fresh(stopMs, rate), es), Run(Fresh(stopMs, rate), es + [Cancel] + AudioEvents(cs));
            && t.segments <= u.segments
            && IsCut(LatestStop(stopMs, es), rate, NonEmpty(cs), u.segments[|t.segments|..], u.live)
  {
    hide IsCut, Run, AudioEvents;
    var stop := LatestStop(stopMs, es);
    var t := Run(Fresh(stopMs, rate), es);
    StateAfter(stopMs, rate, es);
    RunInTwo(Fresh(stopMs, rate), es + [Cancel], AudioEvents(cs));
    RunInTwo(Fresh(stopMs, rate), es, [Cancel]);
    OneEvent(t, Cancel);
    assert Step(t, Cancel) == Fresh(stop, rate).(segments := t.segments + []);
    EarlierSegmentsStay(Fresh(stop, rate), t.segments, AudioEvents(cs));
    var v := Run(Fresh(stop, rate), AudioEvents(cs));
    assert (t.segments + v.segments)[|t.segments|..] == v.segments;
    SegmentsAreTheCut(stop, rate, cs, v.segments, v.live);
  }

  lemma OneEvent(t: Turn, e: Event)
    ensures Run(t, [e]) == Step(t, e)
  {
    assert [e][..0] == [];
  }

  // ----- audio, byte for byte ------------------------------------------------------------------------------

  lemma {:induction false} BytesOfConcat(a: Segment, b: Segment)
    ensures Bytes(a + b) == Bytes(a) + Bytes(b)
  {
    if b == [] {
      assert a + b == a;
    } else {
      assert (a + b)[..|a + b| - 1] == a + b[..|b| - 1];
      BytesOfConcat(a, b[..|b| - 1]);
    }
  }

  /** The audio of the pushed frames, in order. */
  function Pushed(segments: seq<Segment>): seq<bytes> {
    seq(|segments|, i requires 0 <= i < |segments| => TurnAudios(segments)[i].audio)
  }

  /** What arrived, chunk by chunk. */
  function Arrived(cs: Segment): seq<bytes> {
    seq(|cs|, i requires 0 <= i < |cs| => cs[i].data)
  }

  lemma {:induction false} BytesArrived(cs: Segment)
    ensures Bytes(NonEmpty(cs)) == Flatten(Arrived(cs))
  {
    if cs != [] {
      var init, last := cs[..|cs| - 1], cs[|cs| - 1];
      BytesArrived(init);
      assert Arrived(cs) == Arrived(init) + [last.data];
      FlattenOfAppend(Arrived(init), last.data);
      if last.data == [] {
        assert NonEmpty(init) + [] == NonEmpty(init);
      } else {
        assert (NonEmpty(init) + [last])[..|NonEmpty(init)|] == NonEmpty(init);
      }
    }
  }

  lemma PushedAt(segments: seq<Segment>, i: nat)
    requires i < |segments|
    ensures |Pushed(segments)| == |segments| && Pushed(segments)[i] == Bytes(segments[i])
  {
    hide Bytes;
    assert TurnAudios(segments)[i] == TurnAudio(Bytes(segments[i]));
  }

  lemma {:induction false} BytesPushed(segments: seq<Segment>)
    ensures Flatten(Pushed(segments)) == Bytes(Flatten(segments))
  {
    hide Bytes;
    if segments == [] {
      NoBytes();
    } else {
      var rest := segments[1..];
      BytesPushed(rest);
      forall i | 0 <= i < |rest|
        ensures Pushed(segments)[1..][i] == Pushed(rest)[i]
      {
        PushedAt(segments, i + 1);
        PushedAt(rest, i);
      }
      PushedAt(segments, 0);
      assert Pushed(segments)[1..] == Pushed(rest);
      BytesOfConcat(segments[0], Flatten(rest));
    }
  }

  /** Without a cancel the pushed audio followed by the buffered audio is, byte for byte, the audio that arrived. */
  lemma AudioConserved(stopMs: real, rate: int, cs: Segment)
    requires stopMs > 0.0 && rate > 0
    ensures var t := Run(Fresh(stopMs, rate), AudioEvents(cs));
            Flatten(Pushed(t.segments)) + Bytes(t.live) == Flatten(Arrived(cs))
  {
    hide Bytes, Pushed, Arrived, Flatten, MinimalTurn, Open, Run;
    RunCuts(stopMs, rate, cs);
    var t := Run(Fresh(stopMs, rate), AudioEvents(cs));
    BytesPushed(t.segments);
    BytesOfConcat(Flatten(t.segments), t.live);
    BytesArrived(cs);
  }

  /** What a parameter update's seconds mean: turns close after that many seconds' worth of samples. */
  lemma StopSecsInSamples(f: Frame, dir: Direction, rate: int, cs: Segment)
    requires f.VadParamsUpdate? && f.stopSecs > 0.0 && rate > 0
    ensures EventOf(f, dir).Some? && EventOf(f, dir).value.StopTime?
    ensures ClosesTurn(EventOf(f, dir).value.stopMs, rate, cs) <==>
            HasSpeech(cs) && SamplesSince(cs) as real >= f.stopSecs * rate as real
  {
    hide ClosesTurn, HasSpeech, SamplesSince;
    ClosesTurnInSamples(f.stopSecs, rate, cs);
  }
}
