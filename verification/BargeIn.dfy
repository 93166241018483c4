/** Barge-in (pkg/processors/voice/interruption_controller.go:49-105, pkg/audio/interruptions/interruptions.go:19-63).

    `Words` counts what strings.Fields returns. `InterruptsAtThreshold` says which event of a bot turn draws the
    interruption, in terms of the transcripts alone. */
module BargeIn {

  // ----- the strategy ---------------------------------------------------------------------------------

  /** White space of strings.Fields. */
  predicate IsSpace(c: char) {
    c in {'\t', '\n', '\U{0B}', '\U{0C}', '\r', ' ', '\U{85}', '\U{A0}', '\U{1680}', '\U{2028}', '\U{2029}', '\U{202F}',
          '\U{205F}', '\U{3000}'}
    || '\U{2000}' <= c <= '\U{200A}'
  }

  /** Number of maximal runs of other characters. */
  function Words(s: string): nat {
    if s == "" then 0
    else
      var init, last := s[..|s| - 1], s[|s| - 1];
      Words(init) + if !IsSpace(last) && (init == "" || IsSpace(init[|init| - 1])) then 1 else 0
  }

  /** A text of other characters only is one word. */
  lemma {:induction false} OneWord(s: string)
    requires s != "" && forall i :: 0 <= i < |s| ==> !IsSpace(s[i])
    ensures Words(s) == 1
  {
    hide IsSpace;
    if |s| > 1 { OneWord(s[..|s| - 1]); }
  }

  /** White space separates words: what stands before and after it adds up. */
  lemma {:induction false} WordsAroundSpace(a: string, c: char, b: string)
    requires IsSpace(c)
    ensures Words(a + [c] + b) == Words(a) + Words(b)
  {
    hide IsSpace;
    var s := a + [c] + b;
    if b == "" {
      assert s[..|s| - 1] == a;
    } else {
      WordsAroundSpace(a, c, b[..|b| - 1]);
      assert s[..|s| - 1] == a + [c] + b[..|b| - 1];
    }
  }

  /** Of the ASCII characters white space is the blank and those from tab to carriage return. */
  lemma AsciiSpaces(c: char)
    requires c as int < 128
    ensures IsSpace(c) <==> c as int == 32 || 9 <= c as int <= 13
  {
  }

  /** Joining two texts with a blank adds up their words. */
  lemma WordsOfJoin(a: string, b: string)
    ensures Words(a + " " + b) == Words(a) + Words(b)
  {
    AsciiSpaces(' ');
    WordsAroundSpace(a, ' ', b);
  }

  function Appended(buf: string, text: string): string {
    if text == "" then buf else if buf == "" then text else buf + " " + text
  }

  lemma WordsAppended(buf: string, text: string)
    ensures Words(Appended(buf, text)) == Words(buf) + Words(text)
  {
    WordsOfJoin(buf, text);
  }

  class MinWordsStrategy {
    const minWords: int
    var buf: string

    constructor (minWords: int)
      ensures this.minWords == (if minWords <= 0 then 1 else minWords) && buf == ""
    {
      this.minWords := if minWords <= 0 then 1 else minWords;
      buf := "";
    }

    method Reset()
      modifies this
      ensures buf == ""
    {
      buf := "";
    }

    method AppendText(text: string)
      modifies this
      ensures buf == Appended(old(buf), text)
    {
      if text == "" {
        return;
      }
      if buf == "" {
        buf := text;
        return;
      }
      buf := buf + " " + text;
    }

    method ShouldInterrupt() returns (r: bool)
      ensures r == (minWords > 0 && Words(buf) >= minWords)
    {
      if minWords <= 0 {
        return false;
      }
      if buf == "" {
        return false;
      }
      return Words(buf) >= minWords;
    }
  }

  // ----- the controller -------------------------------------------------------------------------------

  /** `Ended` is a CancelFrame, EndFrame or StopFrame. */
  datatype Event = Start(allow: bool) | BotStarted | BotStopped | Ended | UserStarted
                 | Transcript(text: string, finalized: bool) | Other

  datatype Output = Interruption | Forwarded(e: Event)

  datatype Controller = Controller(allow: bool, botSpeaking: bool, sent: bool, buf: string)

  const INITIAL := Controller(false, false, false, "")

  predicate Listening(c: Controller) {
    c.allow && c.botSpeaking && !c.sent
  }

  /** A minimum of 0 stands for a controller without a strategy, which only passes frames on. */
  predicate Interrupts(c: Controller, minWords: nat, e: Event) {
    && minWords > 0 && e.Transcript? && e.finalized && Listening(c)
    && Words(Appended(c.buf, e.text)) >= minWords
  }

  function Step(c: Controller, minWords: nat, e: Event): Controller {
    match e
    case Start(allow) => Controller(allow, false, false, "")
    case BotStarted => c.(botSpeaking := true, sent := false, buf := "")
    case BotStopped => c.(botSpeaking := false, sent := false, buf := "")
    case Ended => c.(botSpeaking := false, sent := false, buf := "")
    case UserStarted => c.(buf := "")
    case Transcript(text, finalized) =>
      if Interrupts(c, minWords, e) then c.(sent := true, buf := "")
      else if minWords > 0 && finalized && Listening(c) then c.(buf := Appended(c.buf, text))
      else c
    case Other => c
  }

  function Outputs(c: Controller, minWords: nat, e: Event): seq<Output> {
    if Interrupts(c, minWords, e) then [Interruption, Forwarded(e)] else [Forwarded(e)]
  }

  datatype Direction = Downstream | Upstream

  class InterruptionController {
    const strategy: MinWordsStrategy?
    var allowInterruptions: bool
    var botSpeaking: bool
    var interruptionSent: bool

    ghost predicate Valid() {
      strategy != null ==> strategy.minWords > 0
    }

    ghost function MinWords(): nat
      requires Valid()
    {
      if strategy == null then 0 else strategy.minWords
    }

    ghost function Abs(): Controller
      reads this, strategy
    {
      Controller(allowInterruptions, botSpeaking, interruptionSent, if strategy == null then "" else strategy.buf)
    }

    constructor (strategy: MinWordsStrategy?)
      requires strategy != null ==> strategy.minWords > 0 && strategy.buf == ""
      ensures Valid() && Abs() == INITIAL && this.strategy == strategy
    {
      this.strategy := strategy;
      allowInterruptions, botSpeaking, interruptionSent := false, false, false;
    }

    method ResetStrategy()
      modifies strategy
      ensures strategy != null ==> strategy.buf == ""
    {
      if strategy != null {
        strategy.Reset();
      }
    }

    /** Upstream frames are passed on, and nothing else. */
    method ProcessFrame(e: Event, dir: Direction) returns (out: seq<Output>)
      requires Valid()
      modifies this, strategy
      ensures Abs() == if dir == Downstream then Step(old(Abs()), MinWords(), e) else old(Abs())
      ensures out == if dir == Downstream then Outputs(old(Abs()), MinWords(), e) else [Forwarded(e)]
    {
      hide Words, Appended;
      if dir != Downstream {
        return [Forwarded(e)];
      }
      var interruption: seq<Output> := [];
      match e {
        case Start(allow) =>
          allowInterruptions, botSpeaking, interruptionSent := allow, false, false;
          ResetStrategy();
        case BotStarted =>
          botSpeaking, interruptionSent := true, false;
          ResetStrategy();
        case BotStopped =>
          botSpeaking, interruptionSent := false, false;
          ResetStrategy();
        case Ended =>
          botSpeaking, interruptionSent := false, false;
          ResetStrategy();
        case UserStarted =>
          ResetStrategy();
        case Transcript(text, finalized) =>
          if allowInterruptions && botSpeaking && !interruptionSent && strategy != null && finalized {
            NothingAppended(strategy.buf);
            if text != "" {
              strategy.AppendText(text);
            }
            var should := strategy.ShouldInterrupt();
            if should {
              interruption := [Interruption];
              interruptionSent := true;
              strategy.Reset();
            }
          }
        case Other =>
      }
      return interruption + [Forwarded(e)];
    }
  }

  lemma NothingAppended(buf: string)
    ensures Appended(buf, "") == buf
  {
  }

  // ----- which event interrupts ---------------------------------------------------------------------------

  function Run(c: Controller, minWords: nat, es: seq<Event>): Controller {
    if es == [] then c else Step(Run(c, minWords, es[..|es| - 1]), minWords, es[|es| - 1])
  }

  /** Event `i` draws an InterruptionFrame. */
  predicate InterruptsAt(minWords: nat, es: seq<Event>, i: nat)
    requires i < |es|
  {
    Interrupts(Run(INITIAL, minWords, es[..i]), minWords, es[i])
  }

  /** What the last StartFrame allowed. */
  function Allowed(es: seq<Event>): bool {
    if es == [] then false else if es[|es| - 1].Start? then es[|es| - 1].allow else Allowed(es[..|es| - 1])
  }

  /** Events that neither start nor end a bot turn. */
  predicate InTurn(e: Event) {
    e.UserStarted? || e.Transcript? || e.Other?
  }

  predicate AllInTurn(es: seq<Event>) {
    forall i :: 0 <= i < |es| ==> InTurn(es[i])
  }

  /** Words of the finalized transcripts since the user last started speaking. */
  function WordsSince(es: seq<Event>): nat {
    if es == [] || es[|es| - 1].UserStarted? then 0
    else
      WordsSince(es[..|es| - 1]) +
      if es[|es| - 1].Transcript? && es[|es| - 1].finalized then Words(es[|es| - 1].text) else 0
  }

  /** Some finalized transcript brought the words up to the minimum. */
  predicate Reached(minWords: nat, es: seq<Event>) {
    exists k :: 0 <= k < |es| && es[k].Transcript? && es[k].finalized && WordsSince(es[..k + 1]) >= minWords
  }

  lemma ReachedStep(minWords: nat, es: seq<Event>, e: Event)
    ensures Reached(minWords, es + [e]) <==>
            Reached(minWords, es) || (e.Transcript? && e.finalized && WordsSince(es + [e]) >= minWords)
  {
    hide WordsSince;
    var next := es + [e];
    if Reached(minWords, es) {
      var k :| 0 <= k < |es| && es[k].Transcript? && es[k].finalized && WordsSince(es[..k + 1]) >= minWords;
      assert next[k] == es[k] && next[..k + 1] == es[..k + 1];
    }
    if Reached(minWords, next) {
      var k :| 0 <= k < |next| && next[k].Transcript? && next[k].finalized && WordsSince(next[..k + 1]) >= minWords;
      if k < |es| {
        assert next[k] == es[k] && next[..k + 1] == es[..k + 1];
      } else {
        assert next[..k + 1] == next;
      }
    }
    if e.Transcript? && e.finalized && WordsSince(next) >= minWords {
      assert next[|es|] == e && next[..|es| + 1] == next;
    }
  }

  lemma {:induction false} AllowIsLastStart(minWords: nat, es: seq<Event>)
    ensures Run(INITIAL, minWords, es).allow == Allowed(es)
  {
    hide Interrupts;
    if es != [] { AllowIsLastStart(minWords, es[..|es| - 1]); }
  }

  /** The controller inside a bot turn: it has sent an interruption once the threshold was reached,
      and until then its buffer holds the words since the user started. */
  ghost predicate Follows(c: Controller, minWords: nat, turn: seq<Event>) {
    && c.allow && c.botSpeaking && c.sent == Reached(minWords, turn)
    && (!c.sent ==> Words(c.buf) == WordsSince(turn))
  }

  lemma {:induction false} InsideBotTurn(minWords: nat, before: seq<Event>, turn: seq<Event>)
    requires minWords > 0 && AllInTurn(turn) && Allowed(before)
    ensures Follows(Run(INITIAL, minWords, before + [BotStarted] + turn), minWords, turn)
    decreases |turn|
  {
    hide Follows, Step;
    var es := before + [BotStarted] + turn;
    if turn == [] {
      assert es[..|es| - 1] == before;
      AllowIsLastStart(minWords, before);
      TurnBegins(Run(INITIAL, minWords, before), minWords);
    } else {
      var init, e := turn[..|turn| - 1], turn[|turn| - 1];
      assert es[..|es| - 1] == before + [BotStarted] + init && turn == init + [e];
      InsideBotTurn(minWords, before, init);
      TurnContinues(Run(INITIAL, minWords, before + [BotStarted] + init), minWords, init, e);
    }
  }

  lemma TurnBegins(c: Controller, minWords: nat)
    requires c.allow
    ensures Follows(Step(c, minWords, BotStarted), minWords, [])
  {
    NoWords();
  }

  lemma TurnContinues(c: Controller, minWords: nat, turn: seq<Event>, e: Event)
    requires minWords > 0 && InTurn(e) && Follows(c, minWords, turn)
    ensures Follows(Step(c, minWords, e), minWords, turn + [e])
  {
    hide Words, Appended, Reached;
    ReachedStep(minWords, turn, e);
    assert (turn + [e])[..|turn|] == turn;
    NoWords();
    if e.Transcript? { WordsAppended(c.buf, e.text); }
  }

  lemma NoWords()
    ensures Words("") == 0
  {
  }

  /** In a bot turn with interruptions allowed, an InterruptionFrame is drawn by exactly one event at most: the first
      finalized transcript at which the words of finalized transcripts since the user started reach the minimum. */
  lemma InterruptsAtThreshold(minWords: nat, before: seq<Event>, turn: seq<Event>, e: Event)
    requires minWords > 0 && AllInTurn(turn) && Allowed(before)
    ensures var es := before + [BotStarted] + turn + [e];
            InterruptsAt(minWords, es, |es| - 1) <==>
            e.Transcript? && e.finalized && !Reached(minWords, turn) && WordsSince(turn + [e]) >= minWords
  {
    hide Words, Appended, Reached;
    var es := before + [BotStarted] + turn + [e];
    assert es[..|es| - 1] == before + [BotStarted] + turn;
    InsideBotTurn(minWords, before, turn);
    assert (turn + [e])[..|turn|] == turn;
    if e.Transcript? { WordsAppended(Run(INITIAL, minWords, before + [BotStarted] + turn).buf, e.text); }
  }

  /** The last event that starts or ends a bot turn, if any, started one. */
  function BotTurnOpen(es: seq<Event>): bool {
    if es == [] then false
    else
      var last := es[|es| - 1];
      if last == BotStarted then true else if InTurn(last) then BotTurnOpen(es[..|es| - 1]) else false
  }

  lemma {:induction false} SpeakingIsOpenTurn(minWords: nat, es: seq<Event>)
    ensures Run(INITIAL, minWords, es).botSpeaking == BotTurnOpen(es)
  {
    hide Interrupts;
    if es != [] { SpeakingIsOpenTurn(minWords, es[..|es| - 1]); }
  }

  /** Outside an open bot turn, or when the last StartFrame did not allow it, nothing is ever interrupted. */
  lemma NoInterruptionOtherwise(minWords: nat, es: seq<Event>, i: nat)
    requires i < |es| && InterruptsAt(minWords, es, i)
    ensures minWords > 0 && BotTurnOpen(es[..i]) && Allowed(es[..i]) && es[i].Transcript? && es[i].finalized
  {
    hide Run;
    SpeakingIsOpenTurn(minWords, es[..i]);
    AllowIsLastStart(minWords, es[..i]);
  }

  // ----- what goes downstream ------------------------------------------------------------------------------

  /** Everything pushed for the events, in order. */
  function Pushed(minWords: nat, es: seq<Event>): seq<Output> {
    if es == [] then []
    else
      var init := es[..|es| - 1];
      Pushed(minWords, init) + Outputs(Run(INITIAL, minWords, init), minWords, es[|es| - 1])
  }

  function EventsIn(out: seq<Output>): seq<Event> {
    if out == [] then []
    else EventsIn(out[..|out| - 1]) + if out[|out| - 1].Forwarded? then [out[|out| - 1].e] else []
  }

  lemma EventsInOne(out: seq<Output>, o: Output)
    ensures EventsIn(out + [o]) == EventsIn(out) + if o.Forwarded? then [o.e] else []
  {
  }

  /** An InterruptionFrame, and right after it the transcript that drew it. */
  ghost predicate InterruptionAt(minWords: nat, es: seq<Event>, out: seq<Output>, k: nat, i: nat) {
    i < |es| && InterruptsAt(minWords, es, i) && k + 1 < |out| && out[k + 1] == Forwarded(es[i])
    && EventsIn(out[..k]) == es[..i]
  }

  lemma InterruptionStays(minWords: nat, es: seq<Event>, e: Event, out: seq<Output>, more: seq<Output>, k: nat, i: nat)
    requires InterruptionAt(minWords, es, out, k, i)
    ensures InterruptionAt(minWords, es + [e], out + more, k, i)
  {
    hide Interrupts, Run;
    assert (es + [e])[..i] == es[..i] && (out + more)[..k] == out[..k];
  }

  /** Every frame is forwarded, once and in order; each InterruptionFrame goes out right before the transcript that
      reached the minimum, after everything that came before it. */
  lemma {:induction false} EverythingIsForwarded(minWords: nat, es: seq<Event>)
    ensures EventsIn(Pushed(minWords, es)) == es
    ensures var out := Pushed(minWords, es);
            forall k :: 0 <= k < |out| && out[k] == Interruption ==>
                          exists i: nat :: InterruptionAt(minWords, es, out, k, i)
    decreases |es|
  {
    hide Interrupts, InterruptionAt, EventsIn;
    if es == [] {
      NoEvents();
    } else {
      var init, e := es[..|es| - 1], es[|es| - 1];
      EverythingIsForwarded(minWords, init);
      var before := Pushed(minWords, init);
      var more := Outputs(Run(INITIAL, minWords, init), minWords, e);
      var out := before + more;
      assert es == init + [e];
      EventsInOne(before, Interruption);
      EventsInOne(before, Forwarded(e));
      EventsInOne(before + [Interruption], Forwarded(e));
      assert before + [Interruption] + [Forwarded(e)] == before + [Interruption, Forwarded(e)];
      assert EventsIn(before) + [] == EventsIn(before);
      forall k | 0 <= k < |out| && out[k] == Interruption
        ensures exists i: nat :: InterruptionAt(minWords, es, out, k, i)
      {
        if k < |before| {
          var i: nat :| InterruptionAt(minWords, init, before, k, i);
          InterruptionStays(minWords, init, e, before, more, k, i);
        } else {
          LastInterruption(minWords, init, e, before);
        }
      }
    }
  }

  function Interruptions(out: seq<Output>): nat {
    if out == [] then 0 else Interruptions(out[..|out| - 1]) + if out[|out| - 1] == Interruption then 1 else 0
  }

  /** How many of the events draw an interruption. */
  function Drawn(minWords: nat, es: seq<Event>): nat {
    if es == [] then 0
    else Drawn(minWords, es[..|es| - 1]) + if InterruptsAt(minWords, es, |es| - 1) then 1 else 0
  }

  lemma InterruptionsInOne(out: seq<Output>, o: Output)
    ensures Interruptions(out + [o]) == Interruptions(out) + if o == Interruption then 1 else 0
  {
  }

  /** Each transcript that draws an interruption gets one InterruptionFrame. */
  lemma {:induction false} OneFrameEach(minWords: nat, es: seq<Event>)
    ensures Interruptions(Pushed(minWords, es)) == Drawn(minWords, es)
  {
    hide Interrupts, Interruptions;
    if es == [] {
      NoInterruptions();
    } else {
      var init, e := es[..|es| - 1], es[|es| - 1];
      OneFrameEach(minWords, init);
      var before := Pushed(minWords, init);
      InterruptionsInOne(before, Interruption);
      InterruptionsInOne(before, Forwarded(e));
      InterruptionsInOne(before + [Interruption], Forwarded(e));
      assert before + [Interruption] + [Forwarded(e)] == before + [Interruption, Forwarded(e)];
    }
  }

  lemma NoInterruptions()
    ensures Interruptions([]) == 0
  {
  }

  lemma LastInterruption(minWords: nat, init: seq<Event>, e: Event, before: seq<Output>)
    requires EventsIn(before) == init && Interrupts(Run(INITIAL, minWords, init), minWords, e)
    ensures InterruptionAt(minWords, init + [e], before + [Interruption, Forwarded(e)], |before|, |init|)
  {
    hide Interrupts, Run;
    assert (init + [e])[..|init|] == init && (before + [Interruption, Forwarded(e)])[..|before|] == before;
  }

  lemma NoEvents()
    ensures EventsIn([]) == []
  {
  }
}
