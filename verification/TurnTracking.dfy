/** The turn-tracking observer (pkg/observers/turn_tracking.go): a bounded index of frame IDs for
    de-duplication, and turns opened and closed by frames and by a timer.

    Frames and timer firings are delivered one at a time; a firing may be stale, that is, belong to a timer that
    was cancelled. Durations are not modelled. */
module TurnTracking {
  datatype Kind = StartFrame | UserStarted | BotStarted | BotStopped | CancelFrame | OtherFrame

  datatype Callback = Started(turn: nat) | Ended(turn: nat, interrupted: bool)

  /** A frame seen by the observer, or a firing of the turn-end timer. */
  datatype Event = Processed(kind: Kind, id: nat) | TimerFired

  /** `timer`: a turn-end timer is referenced. */
  datatype Turns =
    Turns(count: nat, active: bool, botSpeaking: bool, botHasSpoken: bool, timer: bool, calls: seq<Callback>)

  const NO_TURNS := Turns(0, false, false, false, false, [])

  function EndTurn(t: Turns, interrupted: bool): Turns {
    if t.active then t.(active := false, calls := t.calls + [Ended(t.count, interrupted)]) else t
  }

  function StartTurn(t: Turns): Turns {
    t.(active := true, botHasSpoken := false, count := t.count + 1, calls := t.calls + [Started(t.count + 1)])
  }

  /** A frame that is no duplicate. */
  function OnFrame(t: Turns, kind: Kind): Turns {
    match kind
    case StartFrame => if t.count == 0 then StartTurn(t) else t
    case UserStarted =>
      if t.botSpeaking then StartTurn(EndTurn(t.(timer := false), true).(botSpeaking := false))
      else if t.active && t.botHasSpoken then StartTurn(EndTurn(t.(timer := false), false))
      else if !t.active then StartTurn(t)
      else t
    case BotStarted => t.(botSpeaking := true, botHasSpoken := true, timer := false)
    case BotStopped => if t.botSpeaking then t.(botSpeaking := false, timer := true) else t
    case CancelFrame => if t.active then EndTurn(t.(timer := false), true) else t
    case OtherFrame => t
  }

  function OnTimer(t: Turns): Turns {
    (if t.active && !t.botSpeaking then EndTurn(t, false) else t).(timer := false)
  }

  /** The ID index: the set and the history it is kept in step with. */
  datatype Index = Index(ids: set<nat>, history: seq<nat>)

  function Trim(x: Index, maxFrames: nat): Index
    decreases |x.history|
  {
    if |x.history| > maxFrames then Trim(Index(x.ids - {x.history[0]}, x.history[1..]), maxFrames) else x
  }

  function Add(x: Index, maxFrames: nat, id: nat): Index {
    if id in x.ids then x else Trim(Index(x.ids + {id}, x.history + [id]), maxFrames)
  }

  datatype Observed = Observed(index: Index, turns: Turns)

  function Step(o: Observed, maxFrames: nat, e: Event): Observed {
    match e
    case TimerFired => o.(turns := OnTimer(o.turns))
    case Processed(kind, id) =>
      if id in o.index.ids then o else Observed(Add(o.index, maxFrames, id), OnFrame(o.turns, kind))
  }

  function Run(maxFrames: nat, es: seq<Event>): Observed {
    if es == [] then Observed(Index({}, []), NO_TURNS)
    else Step(Run(maxFrames, es[..|es| - 1]), maxFrames, es[|es| - 1])
  }

  class TurnTrackingObserver {
    const maxFrames: nat
    var turnCount: nat
    var isTurnActive: bool
    var isBotSpeaking: bool
    var hasBotSpoken: bool
    var endTurnTimer: bool // a timer is referenced
    var processedIds: set<nat>
    var idHistory: seq<nat>
    var calls: seq<Callback>

    ghost function Abs(): Observed
      reads this
    {
      Observed(Index(processedIds, idHistory),
               Turns(turnCount, isTurnActive, isBotSpeaking, hasBotSpoken, endTurnTimer, calls))
    }

    constructor (maxFrames: nat)
      ensures this.maxFrames == maxFrames && Abs() == Observed(Index({}, []), NO_TURNS)
    {
      this.maxFrames := maxFrames;
      turnCount, isTurnActive, isBotSpeaking, hasBotSpoken, endTurnTimer := 0, false, false, false, false;
      processedIds, idHistory, calls := {}, [], [];
    }

    method AddProcessed(id: nat)
      modifies `processedIds, `idHistory
      ensures Index(processedIds, idHistory) == Add(old(Abs()).index, maxFrames, id)
    {
      if id in processedIds {
        return;
      }
      processedIds := processedIds + {id};
      idHistory := idHistory + [id];
      ghost var start := Index(processedIds, idHistory);
      while |idHistory| > maxFrames
        invariant Trim(Index(processedIds, idHistory), maxFrames) == Trim(start, maxFrames)
      {
        var oldest := idHistory[0];
        idHistory := idHistory[1..];
        processedIds := processedIds - {oldest};
      }
    }

    method EndTurnLocked(interrupted: bool)
      modifies `isTurnActive, `calls
      ensures Abs() == old(Abs()).(turns := EndTurn(old(Abs()).turns, interrupted))
    {
      if !isTurnActive {
        return;
      }
      isTurnActive := false;
      calls := calls + [Ended(turnCount, interrupted)];
    }

    method StartTurnLocked()
      modifies `isTurnActive, `hasBotSpoken, `turnCount, `calls
      ensures Abs() == old(Abs()).(turns := StartTurn(old(Abs()).turns))
    {
      isTurnActive := true;
      hasBotSpoken := false;
      turnCount := turnCount + 1;
      calls := calls + [Started(turnCount)];
    }

    method OnFrameProcessed(kind: Kind, id: nat)
      modifies this
      ensures Abs() == Step(old(Abs()), maxFrames, Processed(kind, id))
    {
      hide Add;
      if id in processedIds {
        return;
      }
      AddProcessed(id);
      match kind
      case StartFrame =>
        if turnCount == 0 {
          StartTurnLocked();
        }
      case UserStarted =>
        if isBotSpeaking {
          endTurnTimer := false;
          EndTurnLocked(true);
          isBotSpeaking := false;
          StartTurnLocked();
        } else if isTurnActive && hasBotSpoken {
          endTurnTimer := false;
          EndTurnLocked(false);
          StartTurnLocked();
        } else if !isTurnActive {
          StartTurnLocked();
        }
      case BotStarted =>
        isBotSpeaking := true;
        hasBotSpoken := true;
        endTurnTimer := false;
      case BotStopped =>
        if isBotSpeaking {
          isBotSpeaking := false;
          endTurnTimer := true;
        }
      case CancelFrame =>
        if isTurnActive {
          endTurnTimer := false;
          EndTurnLocked(true);
        }
      case OtherFrame =>
    }

    method OnTimerFired()
      modifies this
      ensures Abs() == Step(old(Abs()), maxFrames, TimerFired)
    {
      if isTurnActive && !isBotSpeaking {
        EndTurnLocked(false);
      }
      endTurnTimer := false;
    }
  }

  // ----- the bounded index ------------------------------------------------------------------------------

  /** IDs of the frames that were not taken for duplicates, in order. */
  function Accepted(maxFrames: nat, es: seq<Event>): seq<nat> {
    if es == [] then []
    else
      var init, e := es[..|es| - 1], es[|es| - 1];
      Accepted(maxFrames, init) + if e.Processed? && e.id !in Run(maxFrames, init).index.ids then [e.id] else []
  }

  function LastOf(ids: seq<nat>, n: nat): seq<nat> {
    if |ids| <= n then ids else ids[|ids| - n..]
  }

  ghost predicate Distinct(ids: seq<nat>) {
    forall i, j :: 0 <= i < j < |ids| ==> ids[i] != ids[j]
  }

  ghost predicate InStep(x: Index) {
    Distinct(x.history) && x.ids == set id <- x.history
  }

  lemma AddOne(x: Index, maxFrames: nat, id: nat)
    requires InStep(x) && |x.history| <= maxFrames && id !in x.ids
    ensures InStep(Add(x, maxFrames, id))
    ensures Add(x, maxFrames, id).history == LastOf(x.history + [id], maxFrames)
  {
    var y := Index(x.ids + {id}, x.history + [id]);
    assert InStep(y) by {
      assert forall i :: 0 <= i < |x.history| ==> x.history[i] in x.ids;
    }
    if |y.history| > maxFrames {
      DropOldest(y);
      var z := Index(y.ids - {y.history[0]}, y.history[1..]);
      assert Trim(y, maxFrames) == Trim(z, maxFrames) == z;
    }
  }

  lemma DropOldest(y: Index)
    requires InStep(y) && y.history != []
    ensures InStep(Index(y.ids - {y.history[0]}, y.history[1..]))
  {
  }

  /** The index holds the last `maxFrames` accepted IDs, without repeats, and nothing else. */
  lemma {:induction false} IndexIsRecentIds(maxFrames: nat, es: seq<Event>)
    ensures var x := Run(maxFrames, es).index;
            InStep(x) && x.history == LastOf(Accepted(maxFrames, es), maxFrames)
  {
    hide Add, InStep, OnFrame, OnTimer;
    if es == [] {
      EmptyInStep();
    } else {
      var init, e := es[..|es| - 1], es[|es| - 1];
      IndexIsRecentIds(maxFrames, init);
      var x := Run(maxFrames, init).index;
      if e.Processed? && e.id !in x.ids {
        AddOne(x, maxFrames, e.id);
        var ids := Accepted(maxFrames, init);
        assert LastOf(LastOf(ids, maxFrames) + [e.id], maxFrames) == LastOf(ids + [e.id], maxFrames);
      } else {
        assert Accepted(maxFrames, init) + [] == Accepted(maxFrames, init);
      }
    }
  }

  lemma EmptyInStep()
    ensures InStep(Index({}, []))
  {
  }

  /** A frame is ignored exactly if its ID is among the last `maxFrames` accepted ones; then nothing changes. */
  lemma DuplicateExactly(maxFrames: nat, es: seq<Event>, kind: Kind, id: nat)
    ensures var o := Run(maxFrames, es);
            var recent := LastOf(Accepted(maxFrames, es), maxFrames);
            && (id in recent ==> Step(o, maxFrames, Processed(kind, id)) == o)
            && (id !in recent ==> (Accepted(maxFrames, es + [Processed(kind, id)]) == Accepted(maxFrames, es) + [id]
                                   && Step(o, maxFrames, Processed(kind, id)).turns == OnFrame(o.turns, kind)))
  {
    hide OnFrame;
    IndexIsRecentIds(maxFrames, es);
    assert (es + [Processed(kind, id)])[..|es|] == es;
  }

  // ----- turns are bracketed ----------------------------------------------------------------------------

  /** Started(1), Ended(1), Started(2), Ended(2), and so on; a turn is active after a Started. */
  ghost predicate Bracketed(t: Turns) {
    && (forall i :: 0 <= i < |t.calls| ==>
          if i % 2 == 0 then t.calls[i] == Started(i / 2 + 1) else t.calls[i].Ended? && t.calls[i].turn == i / 2 + 1)
    && t.active == (|t.calls| % 2 == 1) && t.count == (|t.calls| + 1) / 2
  }

  lemma EndKeeps(t: Turns, interrupted: bool)
    requires Bracketed(t)
    ensures Bracketed(EndTurn(t, interrupted)) && !EndTurn(t, interrupted).active
  {
  }

  lemma StartKeeps(t: Turns)
    requires Bracketed(t) && !t.active
    ensures Bracketed(StartTurn(t))
  {
  }

  lemma FrameKeeps(t: Turns, kind: Kind)
    requires Bracketed(t)
    ensures Bracketed(OnFrame(t, kind)) && Bracketed(OnTimer(t))
  {
    hide EndTurn, StartTurn;
    var u := t.(timer := false);
    EndKeeps(t, false);
    EndKeeps(u, true);
    EndKeeps(u, false);
    if !t.active { StartKeeps(t); }
    StartKeeps(EndTurn(u, true).(botSpeaking := false));
    StartKeeps(EndTurn(u, false));
  }

  /** Over all frame sequences and all timer firings, stale ones included, the callbacks bracket turns. */
  lemma {:induction false} TurnsAreBracketed(maxFrames: nat, es: seq<Event>)
    ensures Bracketed(Run(maxFrames, es).turns)
  {
    hide Bracketed, OnFrame, OnTimer, Add;
    if es == [] {
      NoTurnsBracketed();
    } else {
      var init, e := es[..|es| - 1], es[|es| - 1];
      TurnsAreBracketed(maxFrames, init);
      FrameKeeps(Run(maxFrames, init).turns, if e.Processed? then e.kind else OtherFrame);
    }
  }

  lemma NoTurnsBracketed()
    ensures Bracketed(NO_TURNS)
  {
  }

  // ----- what ends a turn --------------------------------------------------------------------------------

  /** Kinds of the accepted frames, in order. */
  function AcceptedKinds(maxFrames: nat, es: seq<Event>): seq<Kind> {
    if es == [] then []
    else
      var init, e := es[..|es| - 1], es[|es| - 1];
      AcceptedKinds(maxFrames, init) + if e.Processed? && e.id !in Run(maxFrames, init).index.ids then [e.kind] else []
  }

  /** Of the frames that bear on it, the latest is a BotStarted. */
  function BotLast(kinds: seq<Kind>): bool {
    if kinds == [] then false
    else
      var last := kinds[|kinds| - 1];
      if last == BotStarted then true
      else if last == BotStopped || last == UserStarted then false
      else BotLast(kinds[..|kinds| - 1])
  }

  lemma {:induction false} BotSpeakingIsLast(maxFrames: nat, es: seq<Event>)
    ensures Run(maxFrames, es).turns.botSpeaking == BotLast(AcceptedKinds(maxFrames, es))
  {
    hide Add;
    if es != [] {
      var init, e := es[..|es| - 1], es[|es| - 1];
      BotSpeakingIsLast(maxFrames, init);
      var kinds := AcceptedKinds(maxFrames, init);
      if e.Processed? && e.id !in Run(maxFrames, init).index.ids {
        assert (kinds + [e.kind])[..|kinds|] == kinds;
      } else {
        assert kinds + [] == kinds;
      }
    }
  }

  /** The first callback of a step from `t` to `u` ends the turn. */
  predicate Ends(t: Turns, u: Turns, interrupted: bool) {
    |u.calls| > |t.calls| && u.calls[|t.calls|] == Ended(t.count, interrupted)
  }

  lemma FrameEndings(t: Turns, kind: Kind)
    requires t.active
    ensures Ends(t, OnFrame(t, kind), true) <==> kind == CancelFrame || (kind == UserStarted && t.botSpeaking)
    ensures Ends(t, OnFrame(t, kind), false) <==> kind == UserStarted && !t.botSpeaking && t.botHasSpoken
    ensures !Ends(t, OnTimer(t), true) && (Ends(t, OnTimer(t), false) <==> !t.botSpeaking)
  {
  }

  /** A turn ends as interrupted exactly by a cancel, or by the user starting while the bot speaks; a timer ends one
      exactly while the bot does not speak, and never as interrupted. */
  lemma Endings(maxFrames: nat, es: seq<Event>, e: Event)
    requires Run(maxFrames, es).turns.active
    ensures var t, u := Run(maxFrames, es).turns, Run(maxFrames, es + [e]).turns;
            var bot := BotLast(AcceptedKinds(maxFrames, es));
            var accepted := e.Processed? && e.id !in Run(maxFrames, es).index.ids;
            && (Ends(t, u, true) <==> accepted && (e.kind == CancelFrame || (e.kind == UserStarted && bot)))
            && (Ends(t, u, false) <==>
                 (e == TimerFired && !bot) || (accepted && e.kind == UserStarted && !bot && t.botHasSpoken))
  {
    hide Add, OnFrame, OnTimer, Ends, AcceptedKinds, BotLast;
    BotSpeakingIsLast(maxFrames, es);
    assert (es + [e])[..|es|] == es;
    var t := Run(maxFrames, es).turns;
    FrameEndings(t, if e.Processed? then e.kind else OtherFrame);
    NoEnd(t);
  }

  /** The last callback of a step from `t` to `u` starts the next turn. */
  predicate Starts(t: Turns, u: Turns) {
    |u.calls| > |t.calls| && u.calls[|u.calls| - 1] == Started(t.count + 1)
  }

  lemma FrameStarts(t: Turns, kind: Kind)
    requires Bracketed(t)
    ensures Starts(t, OnFrame(t, kind)) <==>
            || (kind == StartFrame && t.count == 0)
            || (kind == UserStarted && (t.botSpeaking || !t.active || t.botHasSpoken))
    ensures Starts(t, OnFrame(t, kind)) <==> OnFrame(t, kind).count == t.count + 1
    ensures !Starts(t, OnTimer(t)) && !Starts(t, t)
  {
    assert t.active ==> t.calls != [];
  }

  /** A turn starts, and with it the next number, exactly at the first StartFrame if no turn came before it, and when
      the user starts speaking outside a turn, while the bot speaks, or after the bot has spoken in the turn. */
  lemma Startings(maxFrames: nat, es: seq<Event>, e: Event)
    ensures var t, u := Run(maxFrames, es).turns, Run(maxFrames, es + [e]).turns;
            var bot := BotLast(AcceptedKinds(maxFrames, es));
            var accepted := e.Processed? && e.id !in Run(maxFrames, es).index.ids;
            && (Starts(t, u) <==>
                 accepted && ((e.kind == StartFrame && t.count == 0)
                              || (e.kind == UserStarted && (!t.active || bot || t.botHasSpoken))))
            && u.count == t.count + if Starts(t, u) then 1 else 0
  {
    hide Add, OnFrame, OnTimer, Starts, AcceptedKinds, BotLast;
    BotSpeakingIsLast(maxFrames, es);
    TurnsAreBracketed(maxFrames, es);
    TurnsAreBracketed(maxFrames, es + [e]);
    assert (es + [e])[..|es|] == es;
    var t := Run(maxFrames, es).turns;
    FrameStarts(t, if e.Processed? then e.kind else OtherFrame);
    CountSteps(t, if e.Processed? then e.kind else OtherFrame);
  }

  lemma CountSteps(t: Turns, kind: Kind)
    ensures t.count <= OnFrame(t, kind).count <= t.count + 1 && OnTimer(t).count == t.count
  {
  }

  /** Whether the bot has spoken in the turn: a BotStarted was accepted since the turn started. */
  lemma BotHasSpokenStep(maxFrames: nat, es: seq<Event>, e: Event)
    ensures var t, u := Run(maxFrames, es).turns, Run(maxFrames, es + [e]).turns;
            var accepted := e.Processed? && e.id !in Run(maxFrames, es).index.ids;
            u.botHasSpoken <==> (accepted && e.kind == BotStarted) || (t.botHasSpoken && u.count == t.count)
  {
    hide Add;
    assert (es + [e])[..|es|] == es;
  }

  lemma NoEnd(t: Turns)
    ensures !Ends(t, t, true) && !Ends(t, t, false)
  {
  }

  lemma {:induction false} TimerMeansSilence(maxFrames: nat, es: seq<Event>)
    ensures var t := Run(maxFrames, es).turns; t.timer ==> !t.botSpeaking
  {
    hide Add, Trim;
    if es != [] { TimerMeansSilence(maxFrames, es[..|es| - 1]); }
  }

  /** As long as a timer is referenced the bot is silent, so that its firing always ends the turn in progress. */
  lemma ReferencedTimerEndsTheTurn(maxFrames: nat, es: seq<Event>)
    requires Run(maxFrames, es).turns.timer && Run(maxFrames, es).turns.active
    ensures Ends(Run(maxFrames, es).turns, Run(maxFrames, es + [TimerFired]).turns, false)
    ensures !Run(maxFrames, es + [TimerFired]).turns.active
  {
    TimerMeansSilence(maxFrames, es);
    assert (es + [TimerFired])[..|es|] == es;
  }

  /** A turn-end timer is referenced from when the bot stops until it starts again, a timer fires, a cancel ends the
      turn, or the user starts a new one. */
  lemma TimerChanges(maxFrames: nat, es: seq<Event>, e: Event)
    ensures var t, u := Run(maxFrames, es).turns, Run(maxFrames, es + [e]).turns;
            var accepted := e.Processed? && e.id !in Run(maxFrames, es).index.ids;
            u.timer <==>
              || (accepted && e.kind == BotStopped && t.botSpeaking)
              || (t.timer && e != TimerFired
                  && !(accepted && (e.kind == BotStarted || (e.kind == CancelFrame && t.active)
                                    || (e.kind == UserStarted && (t.botSpeaking || (t.active && t.botHasSpoken))))))
  {
    hide Add;
    assert (es + [e])[..|es|] == es;
  }
}
