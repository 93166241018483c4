/** The segments of the turn processor among the frames of its user turn controller
    (pkg/processors/voice/turn.go:179-206, pkg/audio/turn/user_controller.go).

    The controller pushes Stopped at the first silence, the analyzer closes the segment after enough of it:
    `SegmentsFollowStopped` says that the two always come in this order. */
module TurnOrder {
  import opened Common
  import opened SilenceTurn
  import opened TurnProcessor
  import UserTurn

  /** An event of the turn logic, or a firing of one of the controller's timers. */
  datatype Input = ForTurn(event: Event) | Timer(firing: UserTurn.Event) {
    predicate Valid() { Timer? ==> firing.StopTimer? || firing.IdleTimer? }
  }

  /** The processor with its controller, and everything both pushed. */
  datatype Both = Both(turn: Turn, user: UserTurn.Controller, out: seq<Output>)

  function Start(stopMs: real, rate: int): Both {
    Both(Fresh(stopMs, rate), UserTurn.INITIAL, [])
  }

  function StepBoth(b: Both, cfg: UserTurn.Config, i: Input): Both {
    match i
    case Timer(e) =>
      var user := UserTurn.Step(b.user, cfg, e, true, true);
      Both(b.turn, user, b.out + UserFrames(b.user, user))
    case ForTurn(e) =>
      var turn, user := Step(b.turn, e), Heard(b.user, cfg, e);
      Both(turn, user, b.out + UserFrames(b.user, user) + SegmentsPushed(b.turn, turn))
  }

  /** The audio pushed by a step from `t` to `u`. */
  function SegmentsPushed(t: Turn, u: Turn): seq<Output> {
    if |u.segments| > |t.segments| then TurnAudios(u.segments[|t.segments|..]) else []
  }

  function RunBoth(b: Both, cfg: UserTurn.Config, inputs: seq<Input>): Both {
    if inputs == [] then b else StepBoth(RunBoth(b, cfg, inputs[..|inputs| - 1]), cfg, inputs[|inputs| - 1])
  }

  /** A Stopped frame was pushed since the last segment. */
  predicate StoppedSince(out: seq<Output>) {
    && out != []
    && var last := out[|out| - 1];
       last == User(UserTurn.Stopped) || (!last.TurnAudio? && StoppedSince(out[..|out| - 1]))
  }

  ghost predicate EachFollowsStopped(out: seq<Output>) {
    forall k :: 0 <= k < |out| && out[k].TurnAudio? ==> StoppedSince(out[..k])
  }

  /** Speech whose end the analyzer waits for is going on, or its Stopped is out. */
  ghost predicate Inv(b: Both) {
    && UserTurn.DefaultInv(b.user) && EachFollowsStopped(b.out)
    && (b.turn.analyzer.triggered && !b.user.userSpeaking ==> StoppedSince(b.out))
  }

  lemma OneMoreOut(out: seq<Output>, more: seq<Output>)
    requires EachFollowsStopped(out) && |more| <= 1 && (more != [] && more[0].TurnAudio? ==> StoppedSince(out))
    ensures EachFollowsStopped(out + more)
    ensures more == [] ==> out + more == out
    ensures more != [] ==> (StoppedSince(out + more) <==>
                             more[0] == User(UserTurn.Stopped) || (!more[0].TurnAudio? && StoppedSince(out)))
  {
    var next := out + more;
    forall k | 0 <= k < |next| && next[k].TurnAudio?
      ensures StoppedSince(next[..k])
    {
      assert next[..k] == out[..k];
      assert out[..|out|] == out;
    }
    assert next[..|out|] == out;
    assert more == [] ==> next == out;
  }

  /** What one event makes the controller push, with the default strategies. */
  lemma PushedByOne(c: UserTurn.Controller, cfg: UserTurn.Config, e: UserTurn.Event)
    requires UserTurn.DefaultInv(c)
    ensures var d := UserTurn.Step(c, cfg, e, true, true);
            && UserFrames(c, d) == (match e
                                    case Vad(speech) =>
                                      if speech == c.userSpeaking then []
                                      else [User(if speech then UserTurn.Started else UserTurn.Stopped)]
                                    case IdleTimer => [User(UserTurn.Idle)]
                                    case _ => [])
            && d.userSpeaking == if e.Vad? then e.isSpeech else c.userSpeaking
  {
    hide UserTurn.TurnFrames, UserTurn.Alternating;
  }

  lemma NothingPushed(c: UserTurn.Controller)
    ensures UserFrames(c, c) == []
  {
  }

  lemma PushedByStep(t: Turn, e: Event)
    ensures var u := Step(t, e); var speech := e.Audio? && e.chunk.data != [] && e.chunk.speech;
            && |SegmentsPushed(t, u)| <= 1 && (forall o :: o in SegmentsPushed(t, u) ==> o.TurnAudio?)
            && (SegmentsPushed(t, u) != [] ==> e.Audio? && e.chunk.data != [] && t.analyzer.triggered && !speech)
            && (SegmentsPushed(t, u) != [] ==> !u.analyzer.triggered)
            && (u.analyzer.triggered ==> t.analyzer.triggered || speech)
  {
    hide Bytes;
  }

  lemma InputKeepsInv(b: Both, cfg: UserTurn.Config, i: Input)
    requires Inv(b) && i.Valid()
    ensures Inv(StepBoth(b, cfg, i))
  {
    hide UserFrames, SegmentsPushed, StoppedSince, EachFollowsStopped, Step, UserTurn.Step, UserTurn.DefaultInv;
    var event := if i.Timer? then i.firing
                 else if i.event.Audio? then UserTurn.Vad(i.event.chunk.speech) else UserTurn.BotStarted;
    UserTurn.DefaultStep(b.user, cfg, event);
    PushedByOne(b.user, cfg, event);
    NothingPushed(b.user);
    if i.ForTurn? { PushedByStep(b.turn, i.event); }
    var next := StepBoth(b, cfg, i);
    var pushed := UserFrames(b.user, next.user);
    OneMoreOut(b.out, pushed);
    if i.ForTurn? { OneMoreOut(b.out + pushed, SegmentsPushed(b.turn, next.turn)); }
  }

  /** Over all inputs: between two segments, and before the first, the controller has pushed Stopped. */
  lemma {:induction false} SegmentsFollowStopped(stopMs: real, rate: int, cfg: UserTurn.Config, inputs: seq<Input>)
    requires forall i :: 0 <= i < |inputs| ==> inputs[i].Valid()
    ensures EachFollowsStopped(RunBoth(Start(stopMs, rate), cfg, inputs).out)
    ensures Inv(RunBoth(Start(stopMs, rate), cfg, inputs))
  {
    hide StepBoth, UserTurn.DefaultInv, StoppedSince;
    if inputs == [] {
      NothingOut(stopMs, rate);
    } else {
      SegmentsFollowStopped(stopMs, rate, cfg, inputs[..|inputs| - 1]);
      InputKeepsInv(RunBoth(Start(stopMs, rate), cfg, inputs[..|inputs| - 1]), cfg, inputs[|inputs| - 1]);
    }
  }

  lemma NothingOut(stopMs: real, rate: int)
    ensures Inv(Start(stopMs, rate))
  {
    UserTurn.InitialInv();
  }
}
