/** High-level user turns (pkg/audio/turn/user_controller.go, pkg/audio/turn/user_strategies_default.go).

    `Step` is the controller with a strategy's two answers as inputs, so that it covers any strategies; the
    default strategies are two flags. Events are delivered one at a time, pushes succeed. A timer that was stopped
    or replaced may still fire: stopping it does not hold back a callback that has started. */
module UserTurn {
  datatype Pushed = Started | Stopped | Idle

  /** What happens to the controller. */
  datatype Event = Vad(isSpeech: bool) | StopTimer | IdleTimer | BotStopped | BotStarted

  /** Timeouts of 0 or less disable a timer. */
  datatype Config = Config(stopTimeout: real, idleTimeout: real)

  /** `stopTimer` and `idleTimer`: a timer is referenced. */
  datatype Controller =
    Controller(userSpeaking: bool, userTurn: bool, stopTimer: bool, idleTimer: bool, pushed: seq<Pushed>)

  const INITIAL := Controller(false, false, false, false, [])

  function Push(c: Controller, p: Pushed): Controller {
    c.(pushed := c.pushed + [p])
  }

  function ArmStop(c: Controller, cfg: Config): Controller {
    if cfg.stopTimeout <= 0.0 then c else c.(stopTimer := true)
  }

  function StopTurn(c: Controller): Controller {
    if c.userTurn then Push(c.(userTurn := false, stopTimer := false), Stopped) else c
  }

  /** `start` and `stop` are what ShouldStartTurn and ShouldStopTurn answer if they are asked. */
  function Step(c: Controller, cfg: Config, e: Event, start: bool, stop: bool): Controller {
    match e
    case Vad(true) =>
      var c := if c.userSpeaking then c
               else
                 var c := Push(c.(userSpeaking := true), Started);
                 if !c.userTurn && start then ArmStop(c.(userTurn := true), cfg) else c;
      ArmStop(c, cfg).(idleTimer := false)
    case Vad(false) =>
      if !c.userSpeaking then c
      else
        var c := c.(userSpeaking := false);
        ArmStop(if stop then StopTurn(c) else c, cfg)
    case StopTimer => if !c.userSpeaking && c.userTurn then StopTurn(c) else c
    case IdleTimer => Push(c, Idle)
    case BotStopped => if cfg.idleTimeout > 0.0 && !c.userTurn then c.(idleTimer := true) else c
    case BotStarted => c.(idleTimer := false)
  }

  lemma PushesOnly(c: Controller, cfg: Config, e: Event, start: bool, stop: bool)
    ensures c.pushed <= Step(c, cfg, e, start, stop).pushed
  {
  }

  // ----- the default strategies and the controller -----------------------------------------------------------

  class VadUserTurnStartStrategy {
    var triggered: bool

    constructor ()
      ensures !triggered
    {
      triggered := false;
    }

    method Reset()
      modifies this
      ensures !triggered
    {
      triggered := false;
    }

    method OnUserStartedSpeaking()
      modifies this
      ensures triggered
    {
      triggered := true;
    }

    predicate ShouldStartTurn()
      reads this
    {
      triggered
    }
  }

  class SilenceUserTurnStopStrategy {
    var stopped: bool

    constructor ()
      ensures !stopped
    {
      stopped := false;
    }

    method Reset()
      modifies this
      ensures !stopped
    {
      stopped := false;
    }

    method OnUserStoppedSpeaking()
      modifies this
      ensures stopped
    {
      stopped := true;
    }

    predicate ShouldStopTurn()
      reads this
    {
      stopped
    }
  }

  class UserTurnController {
    const startStrategy: VadUserTurnStartStrategy
    const stopStrategy: SilenceUserTurnStopStrategy
    const cfg: Config
    var userSpeaking: bool
    var userTurn: bool
    var stopTimer: bool
    var idleTimer: bool
    var pushed: seq<Pushed>

    ghost function Abs(): Controller
      reads this
    {
      Controller(userSpeaking, userTurn, stopTimer, idleTimer, pushed)
    }

    constructor (cfg: Config)
      ensures fresh(startStrategy) && fresh(stopStrategy) && this.cfg == cfg && Abs() == INITIAL
    {
      startStrategy := new VadUserTurnStartStrategy();
      stopStrategy := new SilenceUserTurnStopStrategy();
      this.cfg := cfg;
      userSpeaking, userTurn, stopTimer, idleTimer, pushed := false, false, false, false, [];
    }

    /** With the default strategies both questions are answered yes when they are asked. */
    method ProcessVadUpdate(isSpeech: bool)
      modifies this, startStrategy, stopStrategy
      ensures Abs() == Step(old(Abs()), cfg, Vad(isSpeech), true, true)
    {
      if isSpeech {
        if !userSpeaking {
          userSpeaking := true;
          startStrategy.OnUserStartedSpeaking();
          pushed := pushed + [Started];
          if !userTurn && startStrategy.ShouldStartTurn() {
            StartTurn();
          }
        }
        ResetStopTimer();
        StopIdleTimer();
      } else {
        if userSpeaking {
          userSpeaking := false;
          stopStrategy.OnUserStoppedSpeaking();
          if userTurn && stopStrategy.ShouldStopTurn() {
            EndTurn();
          }
          ResetStopTimer();
        }
      }
    }

    method NotifyBotStoppedSpeaking()
      modifies `idleTimer
      ensures Abs() == Step(old(Abs()), cfg, BotStopped, true, true)
    {
      if cfg.idleTimeout <= 0.0 {
        return;
      }
      if userTurn {
        return;
      }
      idleTimer := true;
    }

    method NotifyBotStartedSpeaking()
      modifies `idleTimer
      ensures Abs() == Step(old(Abs()), cfg, BotStarted, true, true)
    {
      StopIdleTimer();
    }

    method OnStopTimer()
      modifies this, startStrategy, stopStrategy
      ensures Abs() == Step(old(Abs()), cfg, StopTimer, true, true)
    {
      if !userSpeaking && userTurn {
        EndTurn();
      }
    }

    method OnIdleTimer()
      modifies `pushed
      ensures Abs() == Step(old(Abs()), cfg, IdleTimer, true, true)
    {
      pushed := pushed + [Idle];
    }

    method StartTurn()
      modifies `userTurn, `stopTimer, startStrategy, stopStrategy
      ensures Abs() == if old(userTurn) then old(Abs()) else ArmStop(old(Abs()).(userTurn := true), cfg)
    {
      if userTurn {
        return;
      }
      userTurn := true;
      stopStrategy.Reset();
      startStrategy.Reset();
      ResetStopTimer();
    }

    method EndTurn()
      modifies `userTurn, `stopTimer, `pushed, startStrategy, stopStrategy
      ensures Abs() == StopTurn(old(Abs()))
    {
      if !userTurn {
        return;
      }
      userTurn := false;
      startStrategy.Reset();
      stopStrategy.Reset();
      stopTimer := false;
      pushed := pushed + [Stopped];
    }

    method ResetStopTimer()
      modifies `stopTimer
      ensures Abs() == ArmStop(old(Abs()), cfg)
    {
      if cfg.stopTimeout <= 0.0 {
        return;
      }
      stopTimer := true;
    }

    method StopIdleTimer()
      modifies `idleTimer
      ensures !idleTimer
    {
      idleTimer := false;
    }
  }

  // ----- default strategies: strict alternation --------------------------------------------------------------

  function RunDefault(cfg: Config, es: seq<Event>): Controller {
    if es == [] then INITIAL else Step(RunDefault(cfg, es[..|es| - 1]), cfg, es[|es| - 1], true, true)
  }

  /** Started and Stopped, without the idle frames. */
  function TurnFrames(ps: seq<Pushed>): seq<Pushed> {
    if ps == [] then []
    else TurnFrames(ps[..|ps| - 1]) + if ps[|ps| - 1] == Idle then [] else [ps[|ps| - 1]]
  }

  ghost predicate Alternating(ps: seq<Pushed>) {
    forall i :: 0 <= i < |ps| ==> ps[i] == if i % 2 == 0 then Started else Stopped
  }

  ghost predicate DefaultInv(c: Controller) {
    && c.userTurn == c.userSpeaking && (c.userTurn ==> !c.idleTimer)
    && Alternating(TurnFrames(c.pushed)) && (|TurnFrames(c.pushed)| % 2 == 1) == c.userTurn
  }

  lemma OneMore(ps: seq<Pushed>, p: Pushed)
    ensures TurnFrames(ps + [p]) == TurnFrames(ps) + if p == Idle then [] else [p]
  {
  }

  lemma DefaultStep(c: Controller, cfg: Config, e: Event)
    requires DefaultInv(c)
    ensures DefaultInv(Step(c, cfg, e, true, true))
    ensures e == StopTimer ==> Step(c, cfg, e, true, true) == c
    ensures Step(c, cfg, e, true, true).pushed == c.pushed + [Idle] <==> e == IdleTimer
  {
    hide TurnFrames;
    OneMore(c.pushed, Started);
    OneMore(c.pushed, Stopped);
    OneMore(c.pushed, Idle);
  }

  /** The detector's latest word. */
  function LastVad(es: seq<Event>): bool {
    if es == [] then false else if es[|es| - 1].Vad? then es[|es| - 1].isSpeech else LastVad(es[..|es| - 1])
  }

  /** The user counts as speaking, and so has a turn, exactly while the latest VAD update says speech. */
  lemma {:induction false} TurnFollowsVad(cfg: Config, es: seq<Event>)
    ensures RunDefault(cfg, es).userSpeaking == LastVad(es) == RunDefault(cfg, es).userTurn
  {
    DefaultHolds(cfg, es);
    if es != [] { TurnFollowsVad(cfg, es[..|es| - 1]); }
  }

  /** With the default strategies, over all events: Started and Stopped strictly alternate from Started, the user
      has a turn exactly while speaking, and a stop timer changes nothing. */
  lemma {:induction false} TurnsAlternate(cfg: Config, es: seq<Event>)
    ensures var c := RunDefault(cfg, es);
            && Alternating(TurnFrames(c.pushed)) && c.userTurn == c.userSpeaking
            && (|TurnFrames(c.pushed)| % 2 == 1) == c.userTurn
    ensures RunDefault(cfg, es + [StopTimer]) == RunDefault(cfg, es)
  {
    hide Step;
    DefaultHolds(cfg, es);
    DefaultStep(RunDefault(cfg, es), cfg, StopTimer);
    assert (es + [StopTimer])[..|es|] == es;
  }

  /** An idle frame is pushed by a firing of the idle timer only, and inside a turn exactly if the latest VAD update
      says speech; the firing of a timer that is still referenced never does that. */
  lemma IdleInTurnExactly(cfg: Config, es: seq<Event>, e: Event)
    ensures var c, d := RunDefault(cfg, es), RunDefault(cfg, es + [e]);
            && (d.pushed == c.pushed + [Idle] <==> e == IdleTimer)
            && (d.pushed == c.pushed + [Idle] && d.userTurn <==> e == IdleTimer && LastVad(es))
            && (e == IdleTimer && c.idleTimer ==> !d.userTurn)
  {
    DefaultHolds(cfg, es);
    DefaultStep(RunDefault(cfg, es), cfg, e);
    TurnFollowsVad(cfg, es);
    assert (es + [e])[..|es|] == es;
  }

  /** It does happen: the bot stops, the user starts speaking, and the timer stopped then has already fired. */
  lemma StaleIdleFrame(cfg: Config)
    requires cfg.idleTimeout > 0.0
    ensures var c := RunDefault(cfg, [BotStopped, Vad(true), IdleTimer]);
            c.pushed == [Started, Idle] && c.userTurn
    ensures RunDefault(cfg, [BotStopped]).idleTimer
  {
    var es := [BotStopped, Vad(true), IdleTimer];
    assert es[..2] == [BotStopped, Vad(true)] && es[..2][..1] == [BotStopped] && es[..1][..0] == [];
    assert RunDefault(cfg, [BotStopped]) == Step(INITIAL, cfg, BotStopped, true, true);
    assert RunDefault(cfg, es[..2]) == Step(RunDefault(cfg, [BotStopped]), cfg, Vad(true), true, true);
  }

  lemma {:induction false} DefaultHolds(cfg: Config, es: seq<Event>)
    ensures DefaultInv(RunDefault(cfg, es))
  {
    hide DefaultInv;
    if es == [] {
      InitialInv();
    } else {
      DefaultHolds(cfg, es[..|es| - 1]);
      DefaultStep(RunDefault(cfg, es[..|es| - 1]), cfg, es[|es| - 1]);
    }
  }

  lemma InitialInv()
    ensures DefaultInv(INITIAL)
  {
  }

  // ----- any strategies ----------------------------------------------------------------------------------------

  /** An event with whatever the strategies answer. */
  datatype Asked = Asked(e: Event, start: bool, stop: bool)

  function RunAny(cfg: Config, es: seq<Asked>): Controller {
    if es == [] then INITIAL
    else
      var last := es[|es| - 1];
      Step(RunAny(cfg, es[..|es| - 1]), cfg, last.e, last.start, last.stop)
  }

  ghost predicate StartedIn(ps: seq<Pushed>, i: int, j: int)
    requires 0 <= i <= j <= |ps|
  {
    exists k :: i < k < j && ps[k] == Started
  }

  ghost predicate StartedBetween(ps: seq<Pushed>) {
    forall i, j :: 0 <= i < j < |ps| && ps[i] == Stopped && ps[j] == Stopped ==> StartedIn(ps, i, j)
  }

  /** A turn in progress has had its Started since the last Stopped. */
  ghost predicate StartedSinceStopped(ps: seq<Pushed>) {
    exists k :: 0 <= k < |ps| && ps[k] == Started && forall i :: k < i < |ps| ==> ps[i] != Stopped
  }

  ghost predicate AnyInv(c: Controller) {
    StartedBetween(c.pushed) && (c.userTurn ==> StartedSinceStopped(c.pushed))
  }

  lemma PushKeeps(ps: seq<Pushed>, p: Pushed)
    requires StartedBetween(ps) && (p == Stopped ==> StartedSinceStopped(ps))
    ensures StartedBetween(ps + [p])
    ensures p != Stopped && StartedSinceStopped(ps) ==> StartedSinceStopped(ps + [p])
    ensures p == Started ==> StartedSinceStopped(ps + [p])
  {
    BetweenGrows(ps, p);
    if p == Started {
      SinceStarts(ps);
    } else if p == Idle && StartedSinceStopped(ps) {
      SinceGrows(ps);
    }
  }

  lemma SinceStarts(ps: seq<Pushed>)
    ensures StartedSinceStopped(ps + [Started])
  {
    assert (ps + [Started])[|ps|] == Started;
  }

  lemma SinceGrows(ps: seq<Pushed>)
    requires StartedSinceStopped(ps)
    ensures StartedSinceStopped(ps + [Idle])
  {
    var k :| 0 <= k < |ps| && ps[k] == Started && forall i :: k < i < |ps| ==> ps[i] != Stopped;
    assert (ps + [Idle])[k] == Started;
  }

  lemma StillStartedIn(ps: seq<Pushed>, p: Pushed, i: int, j: int)
    requires 0 <= i <= j <= |ps| && StartedIn(ps, i, j)
    ensures StartedIn(ps + [p], i, j)
  {
    var k :| i < k < j && ps[k] == Started;
    assert (ps + [p])[k] == Started;
  }

  lemma StartedAfter(ps: seq<Pushed>, i: nat)
    requires i < |ps| && ps[i] == Stopped && StartedSinceStopped(ps)
    ensures StartedIn(ps, i, |ps|)
  {
  }

  lemma BetweenGrows(ps: seq<Pushed>, p: Pushed)
    requires StartedBetween(ps) && (p == Stopped ==> StartedSinceStopped(ps))
    ensures StartedBetween(ps + [p])
  {
    hide StartedIn, StartedSinceStopped;
    var next := ps + [p];
    forall i, j | 0 <= i < j < |next| && next[i] == Stopped && next[j] == Stopped
      ensures StartedIn(next, i, j)
    {
      assert ps[i] == Stopped;
      if j < |ps| {
        assert ps[j] == Stopped;
      } else {
        StartedAfter(ps, i);
      }
      StillStartedIn(ps, p, i, j);
    }
  }

  lemma AnyStep(c: Controller, cfg: Config, a: Asked)
    requires AnyInv(c)
    ensures AnyInv(Step(c, cfg, a.e, a.start, a.stop))
  {
    hide StartedBetween, StartedSinceStopped;
    PushKeeps(c.pushed, Started);
    PushKeeps(c.pushed, Idle);
    if c.userTurn { PushKeeps(c.pushed, Stopped); }
  }

  /** Whatever the strategies answer, a Started lies between any two Stopped. */
  lemma {:induction false} AnyStrategies(cfg: Config, es: seq<Asked>)
    ensures AnyInv(RunAny(cfg, es))
  {
    hide AnyInv;
    if es == [] {
      NothingPushed();
    } else {
      AnyStrategies(cfg, es[..|es| - 1]);
      AnyStep(RunAny(cfg, es[..|es| - 1]), cfg, es[|es| - 1]);
    }
  }

  lemma NothingPushed()
    ensures AnyInv(INITIAL)
  {
  }

  function EventsOf(es: seq<Asked>): seq<Event> {
    seq(|es|, i requires 0 <= i < |es| => es[i].e)
  }

  lemma {:induction false} SpeakingIsLastVad(cfg: Config, es: seq<Asked>)
    ensures RunAny(cfg, es).userSpeaking == LastVad(EventsOf(es))
  {
    if es != [] {
      var init, last := es[..|es| - 1], es[|es| - 1];
      SpeakingIsLastVad(cfg, init);
      assert EventsOf(es)[..|es| - 1] == EventsOf(init);
    }
  }

  /** Whatever the strategies answer, in terms of the VAD updates: Started is pushed when speech sets in, and starts a
      turn if none is on and the start strategy agrees; Stopped is pushed, and ends the turn, when speech ceases in a
      turn and the stop strategy agrees, or when a stop timer fires in a turn without speech. */
  lemma TurnChanges(cfg: Config, es: seq<Asked>, a: Asked)
    ensures var c, d, speech := RunAny(cfg, es), RunAny(cfg, es + [a]), LastVad(EventsOf(es));
            var starts := a.e == Vad(true) && !speech;
            var stops := c.userTurn && ((a.e == Vad(false) && speech && a.stop) || (a.e == StopTimer && !speech));
            && d.pushed == c.pushed + (if starts then [Started] else if stops then [Stopped]
                                       else if a.e == IdleTimer then [Idle] else [])
            && d.userTurn == (!stops && (c.userTurn || (starts && a.start)))
  {
    SpeakingIsLastVad(cfg, es);
    assert (es + [a])[..|es|] == es;
  }

  /** While a turn is on and a stop timeout is set, a stop timer is referenced: no turn waits for its strategy for
      ever. */
  lemma {:induction false} TimerBacksTheTurn(cfg: Config, es: seq<Asked>)
    requires cfg.stopTimeout > 0.0
    ensures RunAny(cfg, es).userTurn ==> RunAny(cfg, es).stopTimer
  {
    if es != [] { TimerBacksTheTurn(cfg, es[..|es| - 1]); }
  }

  /** The bot has stopped outside a turn, and neither it nor the user has spoken up since. */
  function AwaitingUser(es: seq<Event>): bool {
    if es == [] then false
    else
      var init, last := es[..|es| - 1], es[|es| - 1];
      (last == BotStopped && !LastVad(init)) || (last != BotStarted && last != Vad(true) && AwaitingUser(init))
  }

  /** An idle timer is referenced exactly then, if an idle timeout is set. */
  lemma {:induction false} IdleTimerExactly(cfg: Config, es: seq<Event>)
    ensures RunDefault(cfg, es).idleTimer <==> cfg.idleTimeout > 0.0 && AwaitingUser(es)
  {
    if es != [] {
      IdleTimerExactly(cfg, es[..|es| - 1]);
      TurnFollowsVad(cfg, es[..|es| - 1]);
    }
  }
}
