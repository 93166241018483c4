/** The asynchronous mode of the turn processor (pkg/processors/voice/turn.go:208-247) together with
    the snapshot goroutines of pkg/audio/turn/silence.go:157-181, as a machine over atomic moves.

    A move of the processor is one critical section of the analyzer's mutex, or a stretch of code no
    goroutine can see. A goroutine reads `lastState` under the mutex, later looks at the context of the
    call that spawned it and sends one result. Moves interleave in any order, and any context may end
    at any time, even before its call. */
module TurnAsync {
  import opened Common
  import opened SilenceTurn
  import opened TurnProcessor

  datatype Result = Verdict(state: EndOfTurnState) | Failed

  datatype Worker = Started | HasRead(state: EndOfTurnState) | Sent(result: Result)

  /** Where the processor is inside ProcessFrame: between frames, after AppendAudio returned Complete
      and before Clear, before the non-blocking receive, before and after asking SpeechTriggered. */
  datatype Pc = Ready | Finish | Poll | Check | Spawn

  /** Goroutines are numbered; `done` holds those whose context has ended. */
  datatype World = World(analyzer: Silence, live: Segment, segments: seq<Segment>, pending: Option<nat>, pc: Pc,
                         workers: map<nat, Worker>, spawned: nat, done: set<nat>, consumed: seq<Event>)

  datatype Move =
    | Take(e: Event)     // the processor starts on a frame and runs to the first choice point
    | Advance            // the processor's next stretch
    | Read(id: nat)      // a goroutine reads lastState
    | Send(id: nat)      // a goroutine sends its result and closes its channel
    | CancelContext(id: nat)

  function Init(stopMs: real, rate: int): World {
    World(Fresh(stopMs, rate).analyzer, [], [], None, Ready, map[], 0, {}, [])
  }

  predicate Enabled(w: World, m: Move) {
    match m
    case Take(_) => w.pc == Ready
    case Advance => w.pc != Ready
    case Read(id) => id in w.workers && w.workers[id].Started?
    case Send(id) => id in w.workers && w.workers[id].HasRead?
    case CancelContext(_) => true
  }

  /** The buffer goes downstream as one segment; buffer, analyzer and pending result start anew. */
  function PushTurn(w: World): World {
    w.(analyzer := Cleared(w.analyzer), live := [], segments := w.segments + [w.live], pending := None, pc := Ready)
  }

  function TakeEvent(w: World, e: Event): World {
    match e
    case Cancel => w.(analyzer := Cleared(w.analyzer), live := [], pending := None)
    case StopTime(ms) => w.(analyzer := w.analyzer.(stopMs := ms))
    case Audio(c) =>
      if c.data == [] then w
      else
        var a := Append(w.analyzer, c);
        w.(analyzer := a, live := w.live + [c], pc := if a.last == Complete then Finish else Poll)
  }

  predicate ResultReady(w: World) {
    w.pending.Some? && w.pending.value in w.workers && w.workers[w.pending.value].Sent?
  }

  function AdvanceProcessor(w: World): World {
    match w.pc
    case Ready => w
    case Finish => PushTurn(w)
    case Poll =>
      if ResultReady(w) then
        if w.workers[w.pending.value].result == Verdict(Complete) then PushTurn(w)
        else w.(pending := None, pc := Check)
      else w.(pc := Check)
    case Check => w.(pc := if w.pending == None && w.analyzer.triggered then Spawn else Ready)
    case Spawn =>
      w.(workers := w.workers[w.spawned := Started], pending := Some(w.spawned), spawned := w.spawned + 1, pc := Ready)
  }

  function Next(w: World, m: Move): World
    requires Enabled(w, m)
  {
    match m
    case Take(e) => TakeEvent(w, e).(consumed := w.consumed + [e])
    case Advance => AdvanceProcessor(w)
    case Read(id) => w.(workers := w.workers[id := HasRead(w.analyzer.last)])
    case Send(id) => w.(workers := w.workers[id := Sent(if id in w.done then Failed else Verdict(w.workers[id].state))])
    case CancelContext(id) => w.(done := w.done + {id})
  }

  /** An execution: any interleaving of enabled moves from a fresh processor. */
  ghost predicate Execution(stopMs: real, rate: int, ws: seq<World>, ms: seq<Move>) {
    && |ws| == |ms| + 1 && ws[0] == Init(stopMs, rate)
    && forall i :: 0 <= i < |ms| ==> Enabled(ws[i], ms[i]) && ws[i + 1] == Next(ws[i], ms[i])
  }

  // ----- the invariant -----------------------------------------------------------------------------------

  /** The goroutine has seen, or already reported, a complete turn. */
  predicate SawComplete(k: Worker) {
    k == HasRead(Complete) || k == Sent(Verdict(Complete))
  }

  /** No result the processor can still consume was read while lastState was Complete: that state is visible
      only between AppendAudio and Clear, and the result pending then is dropped. */
  ghost predicate NoStaleComplete(w: World) {
    && (forall id :: id in w.workers ==> id < w.spawned)
    && (w.pending.Some? ==> w.pending.value in w.workers)
    && (w.pc == Finish <==> w.analyzer.last == Complete)
    && (w.pc != Finish && w.pending.Some? ==> !SawComplete(w.workers[w.pending.value]))
    && (w.pc == Spawn ==> w.pending == None)
  }

  /** The state the synchronous processor is in after the frames taken so far; it has already pushed
      a turn the asynchronous one is about to push. */
  function AsSync(w: World): Turn {
    if w.pc == Finish then Turn(Cleared(w.analyzer), [], w.segments + [w.live])
    else Turn(w.analyzer, w.live, w.segments)
  }

  ghost predicate Inv(stopMs: real, rate: int, w: World) {
    NoStaleComplete(w) && AsSync(w) == Run(Fresh(stopMs, rate), w.consumed)
  }

  lemma RunGrows(t: Turn, es: seq<Event>, e: Event)
    ensures Run(t, es + [e]) == Step(Run(t, es), e)
  {
    assert (es + [e])[..|es|] == es;
  }

  lemma TakeKeepsInv(stopMs: real, rate: int, w: World, e: Event)
    requires Inv(stopMs, rate, w) && w.pc == Ready
    ensures Inv(stopMs, rate, Next(w, Take(e)))
  {
    hide Append, Run;
    RunGrows(Fresh(stopMs, rate), w.consumed, e);
    match e
    case Cancel =>
    case StopTime(_) =>
    case Audio(_) =>
  }

  lemma AdvanceKeepsInv(stopMs: real, rate: int, w: World)
    requires Inv(stopMs, rate, w) && w.pc != Ready
    ensures Inv(stopMs, rate, Next(w, Advance))
  {
  }

  lemma OthersKeepInv(stopMs: real, rate: int, w: World, m: Move)
    requires Inv(stopMs, rate, w) && Enabled(w, m) && !m.Take? && !m.Advance?
    ensures Inv(stopMs, rate, Next(w, m))
  {
  }

  lemma {:induction false} InvHolds(stopMs: real, rate: int, ws: seq<World>, ms: seq<Move>, i: nat)
    requires Execution(stopMs, rate, ws, ms) && i < |ws|
    ensures Inv(stopMs, rate, ws[i])
  {
    hide Inv, Next;
    if i == 0 {
      InitInv(stopMs, rate);
    } else {
      InvHolds(stopMs, rate, ws, ms, i - 1);
      var w, m := ws[i - 1], ms[i - 1];
      match m
      case Take(e) => TakeKeepsInv(stopMs, rate, w, e);
      case Advance => AdvanceKeepsInv(stopMs, rate, w);
      case _ => OthersKeepInv(stopMs, rate, w, m);
    }
  }

  lemma InitInv(stopMs: real, rate: int)
    ensures Inv(stopMs, rate, Init(stopMs, rate))
  {
  }

  // ----- results -----------------------------------------------------------------------------------------

  /** Under every interleaving, between frames the asynchronous processor has pushed the segments the synchronous
      one pushes for the same frames, and holds the same buffer and analyzer state. */
  lemma AsyncRefinesSync(stopMs: real, rate: int, ws: seq<World>, ms: seq<Move>)
    requires Execution(stopMs, rate, ws, ms)
    ensures var w := ws[|ms|];
            var t := Run(Fresh(stopMs, rate), w.consumed);
            && w.segments <= t.segments && |t.segments| <= |w.segments| + 1
            && (w.pc == Ready ==> w.segments == t.segments && w.live == t.live && w.analyzer == t.analyzer)
  {
    hide NoStaleComplete, Run;
    InvHolds(stopMs, rate, ws, ms, |ms|);
  }

  /** So the asynchronous segments, too, are the one minimal cut of the audio. */
  lemma AsyncSegmentsAreTheCut(stopMs: real, rate: int, ws: seq<World>, ms: seq<Move>, cs: Segment)
    requires stopMs > 0.0 && rate > 0
    requires Execution(stopMs, rate, ws, ms) && ws[|ms|].pc == Ready && ws[|ms|].consumed == AudioEvents(cs)
    ensures IsCut(stopMs, rate, NonEmpty(cs), ws[|ms|].segments, ws[|ms|].live)
  {
    hide Inv, IsCut, Run;
    AsyncRefinesSync(stopMs, rate, ws, ms);
    SegmentsAreTheCut(stopMs, rate, cs, ws[|ms|].segments, ws[|ms|].live);
  }

  /** And there, too, no audio from before a cancel reaches a segment or the buffer after it. */
  lemma AsyncCancelForgets(stopMs: real, rate: int, ws: seq<World>, ms: seq<Move>, es: seq<Event>, cs: Segment)
    requires stopMs > 0.0 && rate > 0 && ProperStops(es) && Execution(stopMs, rate, ws, ms) && ws[|ms|].pc == Ready
    requires ws[|ms|].consumed == es + [Cancel] + AudioEvents(cs)
    ensures var w, before := ws[|ms|], Run(Fresh(stopMs, rate), es).segments;
            before <= w.segments && IsCut(LatestStop(stopMs, es), rate, NonEmpty(cs), w.segments[|before|..], w.live)
  {
    hide IsCut, Run, Inv;
    AsyncRefinesSync(stopMs, rate, ws, ms);
    CancelForgets(stopMs, rate, es, cs);
  }

  /** The result channel never ends a turn: a result the processor is about to receive is not Complete, and all that
      comes of it is that the next analysis can be asked for. */
  lemma ChannelNeverCompletes(stopMs: real, rate: int, ws: seq<World>, ms: seq<Move>, i: nat)
    requires Execution(stopMs, rate, ws, ms) && i < |ws| && ws[i].pc == Poll && ResultReady(ws[i])
    ensures ws[i].workers[ws[i].pending.value].result != Verdict(Complete)
    ensures Next(ws[i], Advance) == ws[i].(pending := None, pc := Check)
  {
    hide Run;
    InvHolds(stopMs, rate, ws, ms, i);
  }

  /** The latest frame was audio. */
  predicate JustHeard(w: World) {
    w.consumed != [] && w.consumed[|w.consumed| - 1].Audio? && w.consumed[|w.consumed| - 1].chunk.data != []
  }

  /** After every audio frame, while the end of a turn is awaited an analysis is under way or its result waits. */
  lemma {:induction false} AnalysisIsPending(stopMs: real, rate: int, ws: seq<World>, ms: seq<Move>, i: nat)
    requires Execution(stopMs, rate, ws, ms) && i < |ws| && ws[i].pc == Ready && JustHeard(ws[i])
    ensures ws[i].analyzer.triggered ==> ws[i].pending.Some?
  {
    hide Run, Append;
    InvHolds(stopMs, rate, ws, ms, i);
    if i > 0 {
      InvHolds(stopMs, rate, ws, ms, i - 1);
      if !ms[i - 1].Take? && !ms[i - 1].Advance? { AnalysisIsPending(stopMs, rate, ws, ms, i - 1); }
    }
  }

  /** A result is pending only for audio that is still buffered: pushing a segment and a cancel drop it. */
  lemma {:induction false} NothingPendingWithoutAudio(stopMs: real, rate: int, ws: seq<World>, ms: seq<Move>, i: nat)
    requires Execution(stopMs, rate, ws, ms) && i < |ws| && ws[i].live == []
    ensures ws[i].pending == None && ws[i].pc == Ready
  {
    hide Run, Append, NoStaleComplete;
    if i > 0 {
      if ws[i - 1].live == [] { NothingPendingWithoutAudio(stopMs, rate, ws, ms, i - 1); }
    }
  }

  /** Goroutine `id` read `state` at move `j`. */
  ghost predicate ReadAt(ws: seq<World>, ms: seq<Move>, id: nat, state: EndOfTurnState, j: nat)
    requires |ws| == |ms| + 1
  {
    j < |ms| && ms[j] == Read(id) && ws[j].analyzer.last == state
  }

  /** It sent `result` at move `k`, having read at an earlier one. */
  ghost predicate SentAt(ws: seq<World>, ms: seq<Move>, id: nat, result: Result, j: nat, k: nat)
    requires |ws| == |ms| + 1
  {
    && j < k < |ms| && ms[j] == Read(id) && ms[k] == Send(id)
    && result == if id in ws[k].done then Failed else Verdict(ws[j].analyzer.last)
  }

  lemma TakeKeepsWorkers(w: World, m: Move)
    requires Enabled(w, m) && m.Take?
    ensures Next(w, m).workers == w.workers
  {
    hide Append;
  }

  /** A goroutine reports the state it read, or failure if its context had ended when it sent. */
  lemma {:induction false} ReportsWhatItRead(stopMs: real, rate: int, ws: seq<World>, ms: seq<Move>, i: nat, id: nat)
    requires Execution(stopMs, rate, ws, ms) && i < |ws| && id in ws[i].workers
    ensures match ws[i].workers[id]
            case Started => true
            case HasRead(state) => exists j: nat :: j < i && ReadAt(ws, ms, id, state, j)
            case Sent(result) => exists j: nat, k: nat :: k < i && SentAt(ws, ms, id, result, j, k)
  {
    hide Run, Append, Step, TakeEvent;
    if i > 0 {
      var w, m := ws[i - 1], ms[i - 1];
      InvHolds(stopMs, rate, ws, ms, i - 1);
      if m.Take? { TakeKeepsWorkers(w, m); }
      if id in w.workers {
        ReportsWhatItRead(stopMs, rate, ws, ms, i - 1, id);
        if m == Read(id) {
          assert ReadAt(ws, ms, id, w.analyzer.last, i - 1);
        } else if m == Send(id) {
          var j: nat :| j < i - 1 && ReadAt(ws, ms, id, w.workers[id].state, j);
          assert SentAt(ws, ms, id, ws[i].workers[id].result, j, i - 1);
        }
      }
    }
  }

  function Rank(pc: Pc): nat {
    match pc
    case Ready => 0
    case Finish => 1
    case Spawn => 1
    case Check => 2
    case Poll => 3
  }

  /** The processor never waits for a goroutine: its own next move is always enabled, brings it closer to
      the end of the frame, and no other move takes it back. */
  lemma ProcessorNeverBlocks(w: World, m: Move)
    requires w.pc != Ready && Enabled(w, m)
    ensures Enabled(w, Advance) && Rank(Next(w, Advance).pc) < Rank(w.pc)
    ensures m != Advance ==> Next(w, m).pc == w.pc
  {
  }
}
