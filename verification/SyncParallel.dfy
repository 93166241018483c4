/** The barrier of SyncParallelPipeline (pkg/pipeline/sync_parallel.go) over sinks that send every frame
    from a goroutine of its own (pkg/pipeline/source_sink.go:77-92).

    A branch holds the sends that are still in flight, in the order they were started, and its channel of
    capacity 64. A goroutine may land any send that is in flight; branches may emit data frames at any time.
    Each branch forwards each SyncFrame once and input frames are no SyncFrames. A call can be cancelled while
    it collects, a push can fail, and a send can give up when its context ends. */
module SyncParallel {
  import opened Common

  datatype Kind = StartFrame | SyncFrame | OtherFrame

  datatype Frame = Frame(kind: Kind, id: nat) {
    predicate IsSync() { kind == SyncFrame }
  }

  const CAPACITY := 64

  /** Beside the sends and the channel, history: data frames emitted; what entered and what left the channel, in order,
      and how much had left it when the latest call began; sends that gave up; calls that ended without taking the
      branch's SyncFrame. */
  datatype Branch = Branch(inFlight: seq<Frame>, channel: seq<Frame>, emitted: multiset<Frame>, landed: seq<Frame>,
                           received: seq<Frame>, mark: nat, dropped: multiset<Frame>, unanswered: nat)

  datatype Phase = Idle | Collecting(branch: nat, input: Frame)

  /** History: `calls` counts calls of ProcessFrame, `gathered` holds what finished calls collected and `lost` what
      cancelled ones did; `closed` and `epoch` are `gathered`, cut after every StartFrame call. */
  datatype World = World(branches: seq<Branch>, phase: Phase, collected: seq<Frame>, seen: set<nat>,
                         forwarded: seq<Frame>, calls: nat, gathered: seq<Frame>, lost: seq<Frame>,
                         closed: seq<seq<Frame>>, epoch: seq<Frame>)

  // ----- forwarding with de-duplication --------------------------------------------------------------------

  /** The collected frames whose ID is new, in order. */
  function Fresh(collected: seq<Frame>, seen: set<nat>): seq<Frame> {
    if collected == [] then []
    else
      var init, last := collected[..|collected| - 1], collected[|collected| - 1];
      Fresh(init, seen) + if last.id in seen + Ids(init) then [] else [last]
  }

  function Ids(fs: seq<Frame>): set<nat> {
    set f <- fs :: f.id
  }

  lemma OneMoreFrame(fs: seq<Frame>, i: nat, seen: set<nat>)
    requires i < |fs|
    ensures Ids(fs[..i + 1]) == Ids(fs[..i]) + {fs[i].id}
    ensures Fresh(fs[..i + 1], seen) == Fresh(fs[..i], seen) + if fs[i].id in seen + Ids(fs[..i]) then [] else [fs[i]]
  {
    assert fs[..i + 1][..i] == fs[..i];
    assert fs[..i + 1] == fs[..i] + [fs[i]];
  }

  lemma NothingFresh(seen: set<nat>)
    ensures Fresh([], seen) == [] && Ids([]) == {}
  {
  }

  class SyncParallelPipeline {
    var seenIds: set<nat>
    var next: seq<Frame> // what the next processor has been given

    constructor ()
      ensures seenIds == {} && next == []
    {
      seenIds, next := {}, [];
    }

    /** The last part of ProcessFrame. */
    method Forward(collected: seq<Frame>, f: Frame)
      modifies this
      ensures next == old(next) + Fresh(collected, old(seenIds))
      ensures seenIds == if f.kind == StartFrame then {} else old(seenIds) + Ids(collected)
    {
      hide Fresh, Ids;
      var i := 0;
      NothingFresh(seenIds);
      while i < |collected|
        invariant 0 <= i <= |collected|
        invariant seenIds == old(seenIds) + Ids(collected[..i])
        invariant next == old(next) + Fresh(collected[..i], old(seenIds))
      {
        var cf := collected[i];
        OneMoreFrame(collected, i, old(seenIds));
        if cf.id !in seenIds {
          seenIds := seenIds + {cf.id};
          next := next + [cf];
        }
        i := i + 1;
      }
      assert collected[..i] == collected;
      if f.kind == StartFrame {
        seenIds := {};
      }
    }
  }

  // ----- the machine -----------------------------------------------------------------------------------------

  datatype Move =
    | Call(input: Frame, emits: seq<seq<Frame>>) // pushes the frame, then a SyncFrame, into every branch
    | FailedCall(synced: nat)                    // a push fails; that many branches have been given the SyncFrame
    | Emit(branch: nat, frame: Frame)            // a branch emits a data frame at another time
    | Land(branch: nat, i: nat)                  // the i-th oldest send in flight reaches the channel
    | Drop(branch: nat, i: nat)                  // the i-th oldest send in flight gives up
    | Receive                                    // the collecting loop takes a frame
    | Cancel                                     // the collecting loop sees its context end

  function Init(n: nat): World {
    World(seq(n, _ => Branch([], [], multiset{}, [], [], 0, multiset{}, 0)), Idle, [], {}, [], 0, [], [], [], [])
  }

  /** SyncFrames are told apart by nothing that anyone looks at. */
  const SYNC := Frame(SyncFrame, 0)

  predicate Enabled(w: World, m: Move) {
    match m
    case Call(f, emits) =>
      w.phase == Idle && !f.IsSync() && |emits| == |w.branches|
      && forall b, i :: 0 <= b < |emits| && 0 <= i < |emits[b]| ==> !emits[b][i].IsSync()
    case FailedCall(synced) => w.phase == Idle && synced <= |w.branches|
    case Emit(b, f) => b < |w.branches| && !f.IsSync()
    case Land(b, i) => b < |w.branches| && i < |w.branches[b].inFlight| && |w.branches[b].channel| < CAPACITY
    case Drop(b, i) => b < |w.branches| && i < |w.branches[b].inFlight| && MayDrop(w.branches[b], i)
    case Receive => w.phase.Collecting? && w.phase.branch < |w.branches| && w.branches[w.phase.branch].channel != []
    case Cancel => w.phase.Collecting?
  }

  /** A SyncFrame's send gives up only on behalf of a call that did not wait for it. */
  predicate MayDrop(b: Branch, i: nat)
    requires i < |b.inFlight|
  {
    b.inFlight[i].IsSync() ==> b.dropped[SYNC] < b.unanswered
  }

  function Pushed(b: Branch, emits: seq<Frame>): Branch {
    b.(inFlight := b.inFlight + emits + [SYNC], emitted := b.emitted + multiset(emits), mark := |b.received|)
  }

  /** A SyncFrame that was never sent counts as dropped. */
  function HalfPushed(b: Branch, synced: bool): Branch {
    if synced then b.(inFlight := b.inFlight + [SYNC], unanswered := b.unanswered + 1)
    else b.(dropped := b.dropped + multiset{SYNC}, unanswered := b.unanswered + 1)
  }

  function Emitted(b: Branch, f: Frame): Branch {
    b.(inFlight := b.inFlight + [f], emitted := b.emitted + multiset{f})
  }

  function Landed(b: Branch, i: nat): Branch
    requires i < |b.inFlight|
  {
    b.(inFlight := b.inFlight[..i] + b.inFlight[i + 1..], channel := b.channel + [b.inFlight[i]],
       landed := b.landed + [b.inFlight[i]])
  }

  function Dropped(b: Branch, i: nat): Branch
    requires i < |b.inFlight|
  {
    b.(inFlight := b.inFlight[..i] + b.inFlight[i + 1..], dropped := b.dropped + multiset{b.inFlight[i]})
  }

  function Received(b: Branch): Branch
    requires b.channel != []
  {
    b.(channel := b.channel[1..], received := b.received + [b.channel[0]])
  }

  function Unanswered(b: Branch, missed: bool): Branch {
    if missed then b.(unanswered := b.unanswered + 1) else b
  }

  /** All branches have answered: forward, and forget the IDs after a StartFrame. */
  function Finish(w: World): World
    requires w.phase.Collecting?
  {
    var w' := w.(phase := Idle, collected := [], gathered := w.gathered + w.collected,
                 forwarded := w.forwarded + Fresh(w.collected, w.seen));
    if w.phase.input.kind == StartFrame then w'.(seen := {}, closed := w.closed + [w.epoch + w.collected], epoch := [])
    else w'.(seen := w.seen + Ids(w.collected), epoch := w.epoch + w.collected)
  }

  function Next(w: World, m: Move): World
    requires Enabled(w, m)
  {
    var n := |w.branches|;
    match m
    case Call(f, emits) =>
      var pushed := seq(n, b requires 0 <= b < n => Pushed(w.branches[b], emits[b]));
      w.(branches := pushed, phase := Collecting(0, f), collected := [], calls := w.calls + 1)
    case FailedCall(synced) =>
      w.(branches := seq(n, b requires 0 <= b < n => HalfPushed(w.branches[b], b < synced)), calls := w.calls + 1)
    case Emit(b, f) => w.(branches := w.branches[b := Emitted(w.branches[b], f)])
    case Land(b, i) => w.(branches := w.branches[b := Landed(w.branches[b], i)])
    case Drop(b, i) => w.(branches := w.branches[b := Dropped(w.branches[b], i)])
    case Receive =>
      var b := w.phase.branch;
      var f := w.branches[b].channel[0];
      var w' := w.(branches := w.branches[b := Received(w.branches[b])]);
      if !f.IsSync() then w'.(collected := w.collected + [f])
      else if b + 1 < n then w'.(phase := w.phase.(branch := b + 1))
      else Finish(w')
    case Cancel =>
      var missed := seq(n, b requires 0 <= b < n => Unanswered(w.branches[b], w.phase.branch <= b));
      w.(branches := missed, phase := Idle, collected := [], lost := w.lost + w.collected)
  }

  ghost predicate Execution(n: nat, ws: seq<World>, ms: seq<Move>) {
    && n > 0 && |ws| == |ms| + 1 && ws[0] == Init(n)
    && forall i :: 0 <= i < |ms| ==> Enabled(ws[i], ms[i]) && ws[i + 1] == Next(ws[i], ms[i])
  }

  // ----- one branch ------------------------------------------------------------------------------------------

  function Pending(b: Branch): multiset<Frame> {
    multiset(b.inFlight) + multiset(b.channel)
  }

  function Untaken(b: Branch): multiset<Frame> {
    Pending(b) + b.dropped
  }

  /** Everything that was ever sent. */
  function Total(b: Branch): multiset<Frame> {
    multiset(b.received) + Untaken(b)
  }

  /** Every SyncFrame pushed into the branch was received, or its call is over, or the branch still owes it. */
  ghost predicate BranchInv(b: Branch, owed: nat, calls: nat) {
    && (forall f :: f in Total(b) && f.IsSync() ==> f == SYNC)
    && Total(b)[SYNC] == calls && Untaken(b)[SYNC] == b.unanswered + owed && b.dropped[SYNC] <= b.unanswered
    && b.emitted == Total(b)[SYNC := 0]
    && b.received + b.channel == b.landed && b.mark <= |b.received|
  }

  lemma TotalOfPush(b: Branch, emits: seq<Frame>)
    ensures Total(Pushed(b, emits)) == Total(b) + multiset(emits) + multiset{SYNC}
    ensures Untaken(Pushed(b, emits)) == Untaken(b) + multiset(emits) + multiset{SYNC}
  {
  }

  lemma PushBranch(b: Branch, emits: seq<Frame>, calls: nat)
    requires BranchInv(b, 0, calls) && forall i :: 0 <= i < |emits| ==> !emits[i].IsSync()
    ensures BranchInv(Pushed(b, emits), 1, calls + 1)
  {
    hide Untaken, Total;
    TotalOfPush(b, emits);
  }

  lemma TotalOfHalfPush(b: Branch, synced: bool)
    ensures Total(HalfPushed(b, synced)) == Total(b) + multiset{SYNC}
    ensures Untaken(HalfPushed(b, synced)) == Untaken(b) + multiset{SYNC}
  {
  }

  lemma HalfPushBranch(b: Branch, synced: bool, calls: nat)
    requires BranchInv(b, 0, calls)
    ensures BranchInv(HalfPushed(b, synced), 0, calls + 1)
  {
    hide Untaken, Total;
    TotalOfHalfPush(b, synced);
  }

  lemma TotalOfEmit(b: Branch, f: Frame)
    ensures Total(Emitted(b, f)) == Total(b) + multiset{f} && Untaken(Emitted(b, f)) == Untaken(b) + multiset{f}
  {
  }

  lemma EmitBranch(b: Branch, f: Frame, owed: nat, calls: nat)
    requires BranchInv(b, owed, calls) && !f.IsSync()
    ensures BranchInv(Emitted(b, f), owed, calls)
  {
    hide Untaken, Total;
    TotalOfEmit(b, f);
  }

  lemma TotalOfSend(b: Branch, i: nat)
    requires i < |b.inFlight|
    ensures Untaken(Landed(b, i)) == Untaken(b) == Untaken(Dropped(b, i))
    ensures Total(Landed(b, i)) == Total(b) == Total(Dropped(b, i))
  {
    assert b.inFlight == b.inFlight[..i] + [b.inFlight[i]] + b.inFlight[i + 1..];
  }

  lemma LandBranch(b: Branch, i: nat, owed: nat, calls: nat)
    requires BranchInv(b, owed, calls) && i < |b.inFlight|
    ensures BranchInv(Landed(b, i), owed, calls)
  {
    hide Untaken, Total;
    TotalOfSend(b, i);
    assert b.received + (b.channel + [b.inFlight[i]]) == b.received + b.channel + [b.inFlight[i]];
  }

  lemma DropBranch(b: Branch, i: nat, owed: nat, calls: nat)
    requires BranchInv(b, owed, calls) && i < |b.inFlight| && MayDrop(b, i)
    ensures BranchInv(Dropped(b, i), owed, calls)
  {
    hide Untaken, Total;
    TotalOfSend(b, i);
    InFlightCounts(b, i);
  }

  lemma InFlightCounts(b: Branch, i: nat)
    requires i < |b.inFlight|
    ensures b.inFlight[i] in Total(b)
  {
  }

  lemma TotalOfReceive(b: Branch)
    requires b.channel != []
    ensures Untaken(b) == Untaken(Received(b)) + multiset{b.channel[0]}
    ensures Total(Received(b)) == Total(b) && b.channel[0] in Total(b)
    ensures Received(b).received + Received(b).channel == b.received + b.channel
  {
    UntakenOfReceive(b);
    ReceivedOne(b);
    hide Untaken, Received;
  }

  lemma ReceivedOne(b: Branch)
    requires b.channel != []
    ensures multiset(Received(b).received) == multiset(b.received) + multiset{b.channel[0]}
    ensures Received(b).received + Received(b).channel == b.received + b.channel
  {
    assert b.channel == [b.channel[0]] + b.channel[1..];
  }

  lemma UntakenOfReceive(b: Branch)
    requires b.channel != []
    ensures Untaken(b) == Untaken(Received(b)) + multiset{b.channel[0]}
  {
    assert b.channel == [b.channel[0]] + b.channel[1..];
  }

  lemma ReceiveBranch(b: Branch, calls: nat)
    requires BranchInv(b, 1, calls) && b.channel != []
    ensures BranchInv(Received(b), if b.channel[0].IsSync() then 0 else 1, calls)
  {
    hide Untaken, Total;
    TotalOfReceive(b);
  }

  lemma CancelBranch(b: Branch, missed: bool, calls: nat)
    requires BranchInv(b, if missed then 1 else 0, calls)
    ensures BranchInv(Unanswered(b, missed), 0, calls)
  {
    assert Untaken(Unanswered(b, missed)) == Untaken(b) && Total(Unanswered(b, missed)) == Total(b);
  }

  /** No channel ever holds more than 64 frames. */
  lemma {:induction false} ChannelsBounded(n: nat, ws: seq<World>, ms: seq<Move>, i: nat)
    requires Execution(n, ws, ms) && i < |ws|
    ensures forall b :: 0 <= b < |ws[i].branches| ==> |ws[i].branches[b].channel| <= 64
  {
    hide Next, Enabled;
    if i > 0 {
      ChannelsBounded(n, ws, ms, i - 1);
      ChannelGrowth(ws[i - 1], ms[i - 1]);
    }
  }

  lemma ChannelGrowth(w: World, m: Move)
    requires Enabled(w, m) && forall b :: 0 <= b < |w.branches| ==> |w.branches[b].channel| <= 64
    ensures forall b :: 0 <= b < |Next(w, m).branches| ==> |Next(w, m).branches[b].channel| <= 64
  {
    hide Fresh;
  }

  // ----- epochs of forwarded frames --------------------------------------------------------------------------

  /** The forwarded frames come from the collected ones, carry each new ID once, and no other. */
  lemma {:induction false} FreshIsNew(collected: seq<Frame>, seen: set<nat>)
    ensures var out := Fresh(collected, seen);
            && (forall i :: 0 <= i < |out| ==> out[i].id !in seen && out[i] in collected)
            && (forall i, j :: 0 <= i < j < |out| ==> out[i].id != out[j].id)
            && seen + Ids(out) == seen + Ids(collected)
  {
    hide Ids;
    if collected != [] {
      var init, last := collected[..|collected| - 1], collected[|collected| - 1];
      FreshIsNew(init, seen);
      assert collected == init + [last];
      IdsOfAppend(init, last);
      if last.id !in seen + Ids(init) {
        FreshStep(Fresh(init, seen), init, last, seen);
        assert seen + (Ids(init) + {last.id}) == seen + Ids(init) + {last.id};
      } else {
        assert Fresh(init, seen) + [] == Fresh(init, seen);
        assert seen + (Ids(init) + {last.id}) == seen + Ids(init);
      }
    }
  }

  lemma IdsOfAppend(fs: seq<Frame>, f: Frame)
    ensures Ids(fs + [f]) == Ids(fs) + {f.id}
  {
  }

  lemma IdsOfConcat(a: seq<Frame>, b: seq<Frame>)
    ensures Ids(a + b) == Ids(a) + Ids(b)
  {
  }

  lemma FreshStep(out: seq<Frame>, init: seq<Frame>, last: Frame, seen: set<nat>)
    requires forall i :: 0 <= i < |out| ==> out[i].id !in seen && out[i] in init
    requires forall i, j :: 0 <= i < j < |out| ==> out[i].id != out[j].id
    requires seen + Ids(out) == seen + Ids(init) && last.id !in seen + Ids(init)
    ensures var next := out + [last];
            && (forall i :: 0 <= i < |next| ==> next[i].id !in seen && next[i] in init + [last])
            && (forall i, j :: 0 <= i < j < |next| ==> next[i].id != next[j].id)
            && seen + Ids(next) == seen + Ids(init) + {last.id}
  {
  }

  lemma {:induction false} FreshOfConcat(a: seq<Frame>, b: seq<Frame>, seen: set<nat>)
    ensures Fresh(a + b, seen) == Fresh(a, seen) + Fresh(b, seen + Ids(a))
  {
    hide Ids;
    if b == [] {
      assert a + b == a;
    } else {
      var init, last := b[..|b| - 1], b[|b| - 1];
      assert (a + b)[..|a + b| - 1] == a + init;
      FreshOfConcat(a, init, seen);
      IdsOfConcat(a, init);
      assert seen + (Ids(a) + Ids(init)) == seen + Ids(a) + Ids(init);
    }
  }

  lemma FreshOfOne(f: Frame, seen: set<nat>)
    ensures Fresh([f], seen) == if f.id in seen then [] else [f]
  {
    assert [f][..0] == [];
  }

  /** Which frames are forwarded, and that they keep their order: a frame at a place in the collected ones is forwarded
      there exactly if no earlier one, and none since the last StartFrame, has its ID. */
  lemma FirstOfEachId(before: seq<Frame>, f: Frame, after: seq<Frame>, seen: set<nat>)
    ensures Fresh(before + [f] + after, seen)
         == Fresh(before, seen) + (if f.id in seen || exists g :: g in before && g.id == f.id then [] else [f])
            + Fresh(after, seen + Ids(before) + {f.id})
  {
    hide Fresh;
    FreshOfConcat(before + [f], after, seen);
    FreshOfConcat(before, [f], seen);
    FreshOfOne(f, seen + Ids(before));
    IdsOfAppend(before, f);
    assert seen + (Ids(before) + {f.id}) == seen + Ids(before) + {f.id};
  }

  /** What each epoch forwards: of its collected frames, the first with each ID. */
  function ForwardedOf(epochs: seq<seq<Frame>>): seq<Frame> {
    if epochs == [] then [] else ForwardedOf(epochs[..|epochs| - 1]) + Fresh(epochs[|epochs| - 1], {})
  }

  ghost predicate ForwardInv(w: World) {
    && w.seen == Ids(w.epoch)
    && w.forwarded == ForwardedOf(w.closed) + Fresh(w.epoch, {})
    && w.gathered == Flatten(w.closed) + w.epoch
  }

  lemma FinishForwards(w: World)
    requires w.phase.Collecting? && ForwardInv(w)
    ensures ForwardInv(Finish(w))
  {
    hide Fresh, Ids, ForwardedOf, Flatten;
    var next := w.epoch + w.collected;
    assert {} + Ids(w.epoch) == Ids(w.epoch);
    FreshOfConcat(w.epoch, w.collected, {});
    IdsOfConcat(w.epoch, w.collected);
    ForwardedGrows(w.closed, next);
    FlattenOfAppend(w.closed, next);
    NothingFresh({});
  }

  lemma ForwardedGrows(epochs: seq<seq<Frame>>, epoch: seq<Frame>)
    ensures ForwardedOf(epochs + [epoch]) == ForwardedOf(epochs) + Fresh(epoch, {})
  {
    hide Fresh;
    assert (epochs + [epoch])[..|epochs|] == epochs;
  }

  // ----- all branches ------------------------------------------------------------------------------------------

  /** Branches the collecting loop has not finished still owe one SyncFrame each. */
  function Owed(w: World, b: nat): nat {
    if w.phase.Collecting? && w.phase.branch <= b then 1 else 0
  }

  ghost predicate Inv(w: World) {
    && (w.phase.Collecting? ==> w.phase.branch < |w.branches|)
    && (forall b :: 0 <= b < |w.branches| ==> BranchInv(w.branches[b], Owed(w, b), w.calls))
    && ForwardInv(w)
  }

  lemma ReceiveKeepsInv(w: World)
    requires Inv(w) && Enabled(w, Receive)
    ensures Inv(Next(w, Receive))
  {
    hide BranchInv, ForwardInv, Received, Fresh;
    var b := w.phase.branch;
    ReceiveBranch(w.branches[b], w.calls);
    var w' := w.(branches := w.branches[b := Received(w.branches[b])]);
    SameForwarding(w, w');
    if w.branches[b].channel[0].IsSync() && b + 1 == |w.branches| {
      FinishForwards(w');
    } else {
      SameForwarding(w, Next(w, Receive));
    }
  }

  lemma SameForwarding(w: World, u: World)
    requires ForwardInv(w) && u.seen == w.seen && u.forwarded == w.forwarded && u.gathered == w.gathered
    requires u.closed == w.closed && u.epoch == w.epoch
    ensures ForwardInv(u)
  {
  }

  lemma CallKeepsInv(w: World, f: Frame, emits: seq<seq<Frame>>)
    requires Inv(w) && Enabled(w, Call(f, emits)) && |w.branches| > 0
    ensures Inv(Next(w, Call(f, emits)))
  {
    hide Pushed, BranchInv, ForwardInv;
    SameForwarding(w, Next(w, Call(f, emits)));
    forall b | 0 <= b < |w.branches|
      ensures BranchInv(Pushed(w.branches[b], emits[b]), 1, w.calls + 1)
    {
      PushBranch(w.branches[b], emits[b], w.calls);
    }
  }

  lemma FailedCallKeepsInv(w: World, synced: nat)
    requires Inv(w) && Enabled(w, FailedCall(synced))
    ensures Inv(Next(w, FailedCall(synced)))
  {
    hide HalfPushed, BranchInv, ForwardInv;
    SameForwarding(w, Next(w, FailedCall(synced)));
    forall b | 0 <= b < |w.branches|
      ensures BranchInv(HalfPushed(w.branches[b], b < synced), 0, w.calls + 1)
    {
      HalfPushBranch(w.branches[b], b < synced, w.calls);
    }
  }

  lemma CancelKeepsInv(w: World)
    requires Inv(w) && Enabled(w, Cancel)
    ensures Inv(Next(w, Cancel))
  {
    hide Unanswered, BranchInv, ForwardInv;
    SameForwarding(w, Next(w, Cancel));
    forall b | 0 <= b < |w.branches|
      ensures BranchInv(Unanswered(w.branches[b], w.phase.branch <= b), 0, w.calls)
    {
      CancelBranch(w.branches[b], w.phase.branch <= b, w.calls);
    }
  }

  lemma EmitKeepsInv(w: World, b: nat, f: Frame)
    requires Inv(w) && Enabled(w, Emit(b, f))
    ensures Inv(Next(w, Emit(b, f)))
  {
    hide Emitted, BranchInv, ForwardInv;
    SameForwarding(w, Next(w, Emit(b, f)));
    EmitBranch(w.branches[b], f, Owed(w, b), w.calls);
  }

  lemma SendKeepsInv(w: World, m: Move)
    requires Inv(w) && Enabled(w, m) && (m.Land? || m.Drop?)
    ensures Inv(Next(w, m))
  {
    hide Landed, Dropped, MayDrop, BranchInv, ForwardInv;
    SameForwarding(w, Next(w, m));
    LandBranch(w.branches[m.branch], m.i, Owed(w, m.branch), w.calls);
    if m.Drop? { DropBranch(w.branches[m.branch], m.i, Owed(w, m.branch), w.calls); }
  }

  lemma MoveKeepsInv(w: World, m: Move)
    requires Inv(w) && Enabled(w, m) && |w.branches| > 0
    ensures Inv(Next(w, m)) && |Next(w, m).branches| == |w.branches|
  {
    BranchCount(w, m);
    hide Inv, Next;
    match m {
      case Call(f, emits) => CallKeepsInv(w, f, emits);
      case FailedCall(synced) => FailedCallKeepsInv(w, synced);
      case Emit(b, f) => EmitKeepsInv(w, b, f);
      case Receive => ReceiveKeepsInv(w);
      case Cancel => CancelKeepsInv(w);
      case _ => SendKeepsInv(w, m);
    }
  }

  lemma BranchCount(w: World, m: Move)
    requires Enabled(w, m)
    ensures |Next(w, m).branches| == |w.branches|
  {
    hide Fresh;
  }

  lemma {:induction false} InvHolds(n: nat, ws: seq<World>, ms: seq<Move>, i: nat)
    requires Execution(n, ws, ms) && i < |ws|
    ensures Inv(ws[i]) && |ws[i].branches| == n
  {
    hide Inv;
    if i == 0 {
      InitInv(n);
    } else {
      InvHolds(n, ws, ms, i - 1);
      MoveKeepsInv(ws[i - 1], ms[i - 1]);
    }
  }

  lemma InitInv(n: nat)
    ensures Inv(Init(n))
  {
  }

  // ----- results -------------------------------------------------------------------------------------------------

  /** Between calls, whatever the order of sends: the SyncFrames pending in a branch are exactly those of calls that
      ended without its answer and whose send has not given up; every other call has consumed one of this branch;
      every data frame the branch emitted was received, is still pending, or was given up. */
  lemma BarrierHolds(n: nat, ws: seq<World>, ms: seq<Move>, i: nat, b: nat)
    requires Execution(n, ws, ms) && i < |ws| && ws[i].phase == Idle && b < n
    ensures |ws[i].branches| == n
    ensures var w := ws[i]; var br := w.branches[b]; var received := multiset(br.received);
            && (forall f :: f in Pending(br) && f.IsSync() ==> f == SYNC)
            && Pending(br)[SYNC] == br.unanswered - br.dropped[SYNC]
            && received[SYNC] == w.calls - br.unanswered
            && br.emitted == received[SYNC := 0] + Pending(br)[SYNC := 0] + br.dropped[SYNC := 0]
  {
    InvHolds(n, ws, ms, i);
    var br := ws[i].branches[b];
    assert BranchInv(br, 0, ws[i].calls);
    forall f | f in Pending(br) && f.IsSync()
      ensures f == SYNC
    {
      assert f in Total(br);
    }
    PartsOfTotal(br);
  }

  lemma PartsOfTotal(b: Branch)
    ensures Total(b)[SYNC] == multiset(b.received)[SYNC] + Pending(b)[SYNC] + b.dropped[SYNC]
    ensures Untaken(b)[SYNC] == Pending(b)[SYNC] + b.dropped[SYNC]
    ensures Total(b)[SYNC := 0] == multiset(b.received)[SYNC := 0] + Pending(b)[SYNC := 0] + b.dropped[SYNC := 0]
  {
  }

  /** No call was cancelled, no push failed, no send gave up. */
  ghost predicate Undisturbed(ms: seq<Move>) {
    forall i :: 0 <= i < |ms| ==> !ms[i].Cancel? && !ms[i].FailedCall? && !ms[i].Drop?
  }

  lemma NothingMissed(n: nat, ws: seq<World>, ms: seq<Move>, i: nat, b: nat)
    requires Execution(n, ws, ms) && Undisturbed(ms) && i < |ws| && b < n
    ensures |ws[i].branches| == n && ws[i].branches[b].unanswered == 0 && ws[i].branches[b].dropped == multiset{}
    ensures ws[i].lost == []
  {
    hide Inv, Next, Enabled;
    InvHolds(n, ws, ms, i);
    StaysCalm(n, ws, ms, i);
  }

  ghost predicate Calm(w: World) {
    && w.lost == []
    && forall b :: 0 <= b < |w.branches| ==> w.branches[b].unanswered == 0 && w.branches[b].dropped == multiset{}
  }

  lemma CalmStep(w: World, m: Move)
    requires Calm(w) && Enabled(w, m) && !m.Cancel? && !m.FailedCall? && !m.Drop?
    ensures Calm(Next(w, m))
  {
    hide Fresh;
  }

  lemma {:induction false} StaysCalm(n: nat, ws: seq<World>, ms: seq<Move>, i: nat)
    requires Execution(n, ws, ms) && Undisturbed(ms) && i < |ws|
    ensures Calm(ws[i])
  {
    hide Next, Enabled;
    if i > 0 {
      StaysCalm(n, ws, ms, i - 1);
      CalmStep(ws[i - 1], ms[i - 1]);
    }
  }

  /** So as long as nothing goes wrong, no SyncFrame is pending between calls, every call has consumed exactly one per
      branch, and every data frame emitted was collected or is still pending. */
  lemma UndisturbedBarrier(n: nat, ws: seq<World>, ms: seq<Move>, i: nat, b: nat)
    requires Execution(n, ws, ms) && Undisturbed(ms) && i < |ws| && ws[i].phase == Idle && b < n
    ensures |ws[i].branches| == n
    ensures var w := ws[i]; var br := w.branches[b];
            && (forall f :: f in Pending(br) ==> !f.IsSync())
            && multiset(br.received)[SYNC] == w.calls
            && br.emitted == multiset(br.received)[SYNC := 0] + Pending(br)
  {
    BarrierHolds(n, ws, ms, i, b);
    NothingMissed(n, ws, ms, i, b);
    var br := ws[i].branches[b];
    assert Pending(br)[SYNC := 0] == Pending(br) && br.dropped[SYNC := 0] == multiset{};
  }

  /** After a cancelled call the barrier is off: although sends land in order, the next call takes the SyncFrame left
      behind for its own, ends having collected nothing, and leaves its frame and its SyncFrame behind. */
  lemma StaleSyncEndsTheNextCall(f: Frame, out: Frame) returns (ws: seq<World>, ms: seq<Move>)
    requires !f.IsSync() && !out.IsSync()
    ensures Execution(1, ws, ms) && |ws| == 6
    ensures ms == [Call(f, [[]]), Cancel, Call(f, [[out]]), Land(0, 0), Receive]
    ensures ws[5].phase == Idle && ws[5].gathered == []
    ensures |ws[5].branches| == 1 && ws[5].branches[0].inFlight == [out, SYNC]
  {
    hide Fresh;
    ms := [Call(f, [[]]), Cancel, Call(f, [[out]]), Land(0, 0), Receive];
    var w0 := Init(1);
    var w1 := Next(w0, ms[0]);
    assert w1.branches[0].inFlight == [SYNC];
    var w2 := Next(w1, ms[1]);
    var w3 := Next(w2, ms[2]);
    assert w3.branches[0].inFlight == [SYNC, out, SYNC];
    var w4 := Next(w3, ms[3]);
    assert w4.branches[0].channel == [SYNC] && w4.branches[0].inFlight == [out, SYNC];
    ws := [w0, w1, w2, w3, w4, Next(w4, ms[4])];
  }

  /** The frames carry each ID of the epoch once, and no other. */
  ghost predicate OnceEach(out: seq<Frame>, epoch: seq<Frame>) {
    && (forall i, j :: 0 <= i < j < |out| ==> out[i].id != out[j].id)
    && Ids(out) == Ids(epoch) && forall i :: 0 <= i < |out| ==> out[i] in epoch
  }

  /** No ID is forwarded twice between StartFrames, and none is missed: what was forwarded is, epoch by epoch, each ID
      collected in the epoch once. An epoch ends with the frames of a StartFrame call. */
  lemma NoIdTwice(n: nat, ws: seq<World>, ms: seq<Move>, i: nat)
    requires Execution(n, ws, ms) && i < |ws|
    ensures var w := ws[i];
            && w.gathered == Flatten(w.closed) + w.epoch
            && w.forwarded == ForwardedOf(w.closed) + Fresh(w.epoch, {})
            && w.seen == Ids(w.epoch)
    ensures forall e :: e in ws[i].closed || e == ws[i].epoch ==> OnceEach(Fresh(e, {}), e)
  {
    hide BranchInv, Fresh, Ids, OnceEach, Flatten, ForwardedOf;
    InvHolds(n, ws, ms, i);
    forall e | e in ws[i].closed || e == ws[i].epoch
      ensures OnceEach(Fresh(e, {}), e)
    {
      EpochOnce(e);
    }
  }

  lemma EpochOnce(epoch: seq<Frame>)
    ensures OnceEach(Fresh(epoch, {}), epoch)
  {
    hide Fresh, Ids;
    var out := Fresh(epoch, {});
    FreshIsNew(epoch, {});
    assert {} + Ids(out) == Ids(out) && {} + Ids(epoch) == Ids(epoch);
  }

  // ----- what a call collects, and in which order ---------------------------------------------------------------

  /** The frames that are no SyncFrames. */
  function Data(fs: seq<Frame>): seq<Frame> {
    if fs == [] then [] else Data(fs[..|fs| - 1]) + if fs[|fs| - 1].IsSync() then [] else [fs[|fs| - 1]]
  }

  /** What left the branch's channel since the latest call began. */
  function Given(b: Branch): seq<Frame> {
    if b.mark <= |b.received| then b.received[b.mark..] else []
  }

  /** Data frames of that, branch after branch. */
  function GivenBy(branches: seq<Branch>): seq<Frame> {
    if branches == [] then [] else GivenBy(branches[..|branches| - 1]) + Data(Given(branches[|branches| - 1]))
  }

  ghost predicate CollectsInOrder(w: World) {
    && (w.phase == Idle ==> w.collected == [])
    && (w.phase.Collecting? ==>
          && w.phase.branch < |w.branches| && w.collected == GivenBy(w.branches[..w.phase.branch + 1])
          && forall b :: w.phase.branch < b < |w.branches| ==> Given(w.branches[b]) == [])
  }

  lemma DataGrows(fs: seq<Frame>, f: Frame)
    ensures Data(fs + [f]) == Data(fs) + if f.IsSync() then [] else [f]
  {
  }

  lemma {:induction false} SameGiven(a: seq<Branch>, b: seq<Branch>)
    requires |a| == |b| && forall i :: 0 <= i < |a| ==> Given(a[i]) == Given(b[i])
    ensures GivenBy(a) == GivenBy(b)
  {
    if a != [] { SameGiven(a[..|a| - 1], b[..|b| - 1]); }
  }

  lemma GivenByOneMore(branches: seq<Branch>, k: nat)
    requires k < |branches|
    ensures GivenBy(branches[..k + 1]) == GivenBy(branches[..k]) + Data(Given(branches[k]))
  {
    assert branches[..k + 1][..k] == branches[..k];
  }

  lemma GivenOfReceive(b: Branch)
    requires b.channel != [] && b.mark <= |b.received|
    ensures Given(Received(b)) == Given(b) + [b.channel[0]]
  {
  }

  lemma GivenAfterReceive(branches: seq<Branch>, k: nat)
    requires k < |branches| && branches[k].channel != [] && branches[k].mark <= |branches[k].received|
    ensures var after, f := branches[k := Received(branches[k])], branches[k].channel[0];
            GivenBy(after[..k + 1]) == GivenBy(branches[..k + 1]) + if f.IsSync() then [] else [f]
  {
    hide GivenBy, Data, Given, Received;
    var br := branches[k];
    var after := branches[k := Received(br)];
    GivenOfReceive(br);
    DataGrows(Given(br), br.channel[0]);
    SameGiven(branches[..k], after[..k]);
    GivenByOneMore(branches, k);
    GivenByOneMore(after, k);
  }

  lemma NothingGivenYet(branches: seq<Branch>, k: nat)
    requires k < |branches| && Given(branches[k]) == []
    ensures GivenBy(branches[..k + 1]) == GivenBy(branches[..k])
  {
    hide GivenBy, Data, Given;
    GivenByOneMore(branches, k);
    NoData();
  }

  lemma ReceiveInOrder(w: World)
    requires CollectsInOrder(w) && Enabled(w, Receive)
    requires w.branches[w.phase.branch].mark <= |w.branches[w.phase.branch].received|
    ensures var b, u := w.phase.branch, Next(w, Receive);
            && CollectsInOrder(u)
            && (u.phase == Idle ==> b + 1 == |u.branches| && u.gathered == w.gathered + GivenBy(u.branches))
            && (u.phase.Collecting? ==> u.gathered == w.gathered)
  {
    hide Fresh, GivenBy, Given, Received, Data;
    var k, f := w.phase.branch, w.branches[w.phase.branch].channel[0];
    var after := w.branches[k := Received(w.branches[k])];
    GivenAfterReceive(w.branches, k);
    if f.IsSync() && k + 1 < |after| {
      NothingGivenYet(after, k + 1);
    } else if f.IsSync() {
      assert after[..k + 1] == after;
    }
  }

  lemma NoData()
    ensures Data([]) == [] && GivenBy([]) == []
  {
  }

  lemma CallInOrder(w: World, m: Move)
    requires CollectsInOrder(w) && Enabled(w, m) && m.Call? && |w.branches| > 0
    ensures CollectsInOrder(Next(w, m))
  {
    hide GivenBy, Data;
    var u := Next(w, m);
    assert Given(u.branches[0]) == [];
    GivenByOneMore(u.branches, 0);
    assert u.branches[..0] == [];
    NoData();
  }

  lemma OthersInOrder(w: World, m: Move)
    requires CollectsInOrder(w) && Enabled(w, m) && !m.Call? && !m.Receive?
    ensures CollectsInOrder(Next(w, m))
  {
    hide GivenBy, MayDrop;
    var u := Next(w, m);
    if u.phase.Collecting? {
      SameGiven(w.branches[..w.phase.branch + 1], u.branches[..w.phase.branch + 1]);
    }
  }

  /** For any order of sends: what left a channel is what entered it, first in, first out; and what a call collects is,
      branch after branch, the data frames that left the branch's channel since the call began, in that order. When
      the call ends, exactly this is handed on for forwarding. */
  lemma {:induction false} CollectsInChannelOrder(n: nat, ws: seq<World>, ms: seq<Move>, i: nat)
    requires Execution(n, ws, ms) && i < |ws|
    ensures |ws[i].branches| == n && CollectsInOrder(ws[i])
    ensures forall b :: 0 <= b < n ==>
              ws[i].branches[b].received + ws[i].branches[b].channel == ws[i].branches[b].landed
    ensures i > 0 && ms[i - 1] == Receive && ws[i].phase == Idle ==>
              ws[i].gathered == ws[i - 1].gathered + GivenBy(ws[i].branches)
  {
    hide CollectsInOrder, Next, Enabled, ForwardInv, Untaken, Total;
    InvHolds(n, ws, ms, i);
    if i == 0 {
      NothingCollected(n);
    } else {
      InvHolds(n, ws, ms, i - 1);
      CollectsInChannelOrder(n, ws, ms, i - 1);
      MarksInRange(ws[i - 1]);
      match ms[i - 1]
      case Call(_, _) => CallInOrder(ws[i - 1], ms[i - 1]);
      case Receive => ReceiveInOrder(ws[i - 1]);
      case _ => OthersInOrder(ws[i - 1], ms[i - 1]);
    }
  }

  lemma MarksInRange(w: World)
    requires Inv(w)
    ensures Enabled(w, Receive) ==> w.branches[w.phase.branch].mark <= |w.branches[w.phase.branch].received|
  {
    hide Untaken, Total, ForwardInv;
  }

  lemma NothingCollected(n: nat)
    ensures CollectsInOrder(Init(n))
  {
  }

  // ----- nothing taken is lost ----------------------------------------------------------------------------------

  function TotalTaken(branches: seq<Branch>): multiset<Frame> {
    if branches == [] then multiset{}
    else TotalTaken(branches[..|branches| - 1]) + multiset(Data(branches[|branches| - 1].received))
  }

  lemma {:induction false} TakenOfUpdate(branches: seq<Branch>, b: nat, br: Branch, more: multiset<Frame>)
    requires b < |branches| && multiset(Data(br.received)) == multiset(Data(branches[b].received)) + more
    ensures TotalTaken(branches[b := br]) == TotalTaken(branches) + more
  {
    hide Data;
    var n := |branches|;
    if b < n - 1 {
      assert branches[b := br][..n - 1] == branches[..n - 1][b := br];
      TakenOfUpdate(branches[..n - 1], b, br, more);
    } else {
      assert branches[b := br][..n - 1] == branches[..n - 1];
    }
  }

  lemma {:induction false} SameTaken(a: seq<Branch>, b: seq<Branch>)
    requires |a| == |b| && forall i :: 0 <= i < |a| ==> a[i].received == b[i].received
    ensures TotalTaken(a) == TotalTaken(b)
  {
    hide Data;
    if a != [] { SameTaken(a[..|a| - 1], b[..|b| - 1]); }
  }

  /** What was taken is what calls collected: finished ones, cancelled ones, and the one in progress. */
  ghost predicate AllCollected(w: World) {
    && TotalTaken(w.branches) == multiset(w.gathered) + multiset(w.lost) + multiset(w.collected)
    && (w.phase == Idle ==> w.collected == [])
  }

  lemma StepCollects(w: World, m: Move)
    requires AllCollected(w) && Enabled(w, m)
    ensures AllCollected(Next(w, m))
  {
    hide TotalTaken, Fresh, MayDrop, Data;
    match m {
      case Receive => ReceiveCollects(w);
      case _ => OthersTakeNothing(w, m);
    }
  }

  lemma ReceiveCollects(w: World)
    requires AllCollected(w) && Enabled(w, Receive)
    ensures AllCollected(Next(w, Receive))
  {
    hide TotalTaken, Fresh, Data, Received;
    var b := w.phase.branch;
    var f := w.branches[b].channel[0];
    TakenOfReceive(w.branches[b]);
    if f.IsSync() {
      TakenOfUpdate(w.branches, b, Received(w.branches[b]), multiset{});
      assert multiset(w.gathered + w.collected) == multiset(w.gathered) + multiset(w.collected);
    } else {
      TakenOfUpdate(w.branches, b, Received(w.branches[b]), multiset{f});
      assert multiset(w.collected + [f]) == multiset(w.collected) + multiset{f};
    }
  }

  lemma TakenOfReceive(b: Branch)
    requires b.channel != []
    ensures multiset(Data(Received(b).received))
         == multiset(Data(b.received)) + if b.channel[0].IsSync() then multiset{} else multiset{b.channel[0]}
  {
    hide Data;
    DataGrows(b.received, b.channel[0]);
  }

  lemma OthersTakeNothing(w: World, m: Move)
    requires AllCollected(w) && Enabled(w, m) && !m.Receive?
    ensures AllCollected(Next(w, m))
  {
    hide TotalTaken, MayDrop, Data, Fresh;
    SameTaken(w.branches, Next(w, m).branches);
    assert multiset(w.lost + w.collected) == multiset(w.lost) + multiset(w.collected);
  }

  /** What the calls collected is exactly what was taken from the channels. */
  lemma {:induction false} CallsCollectAll(n: nat, ws: seq<World>, ms: seq<Move>, i: nat)
    requires Execution(n, ws, ms) && i < |ws|
    ensures AllCollected(ws[i])
  {
    hide AllCollected;
    if i == 0 {
      NothingTaken(n);
    } else {
      CallsCollectAll(n, ws, ms, i - 1);
      StepCollects(ws[i - 1], ms[i - 1]);
    }
  }

  lemma {:induction false} NothingTaken(n: nat)
    ensures AllCollected(Init(n))
  {
    if n > 0 {
      NothingTaken(n - 1);
      assert Init(n).branches[..n - 1] == Init(n - 1).branches;
    }
  }

  // ----- termination ------------------------------------------------------------------------------------------------

  function Load(b: Branch): nat {
    2 * |b.inFlight| + |b.channel|
  }

  /** Landings and receives that are left. */
  function Remaining(branches: seq<Branch>): nat {
    if branches == [] then 0 else Remaining(branches[..|branches| - 1]) + Load(branches[|branches| - 1])
  }

  lemma {:induction false} RemainingOfUpdate(branches: seq<Branch>, b: nat, br: Branch)
    requires b < |branches|
    ensures Remaining(branches[b := br]) - Remaining(branches) == Load(br) - Load(branches[b])
  {
    var n := |branches|;
    if b < n - 1 {
      assert branches[b := br][..n - 1] == branches[..n - 1][b := br];
      RemainingOfUpdate(branches[..n - 1], b, br);
    } else {
      assert branches[b := br][..n - 1] == branches[..n - 1];
    }
  }

  /** While a call collects, a frame can be received or the send of the owed SyncFrame can land. */
  lemma CallNeverStuck(n: nat, ws: seq<World>, ms: seq<Move>, i: nat)
    requires Execution(n, ws, ms) && i < |ws| && ws[i].phase.Collecting?
    ensures var w := ws[i]; Enabled(w, Receive) || exists k :: Enabled(w, Land(w.phase.branch, k))
  {
    InvHolds(n, ws, ms, i);
    var w := ws[i];
    var br := w.branches[w.phase.branch];
    if br.channel == [] {
      assert BranchInv(br, 1, w.calls);
      assert SYNC in Pending(br);
      var k :| 0 <= k < |br.inFlight| && br.inFlight[k] == SYNC;
      assert Enabled(w, Land(w.phase.branch, k));
    }
  }

  lemma MoveUsesUp(w: World, m: Move)
    requires Enabled(w, m) && w.phase.Collecting?
    ensures m.Receive? || m.Land? || m.Drop? ==> Remaining(Next(w, m).branches) < Remaining(w.branches)
    ensures Next(w, m).phase.Collecting? ==>
              Remaining(Next(w, m).branches) + 1 <= Remaining(w.branches) + if m.Emit? then 3 else 0
  {
    hide Fresh, Remaining, MayDrop;
    match m
    case Receive => RemainingOfUpdate(w.branches, w.phase.branch, Received(w.branches[w.phase.branch]));
    case Land(b, i) => RemainingOfUpdate(w.branches, b, Landed(w.branches[b], i));
    case Drop(b, i) => RemainingOfUpdate(w.branches, b, Dropped(w.branches[b], i));
    case Emit(b, f) => RemainingOfUpdate(w.branches, b, Emitted(w.branches[b], f));
    case _ =>
  }

  function Emits(ms: seq<Move>): nat {
    if ms == [] then 0 else Emits(ms[..|ms| - 1]) + if ms[|ms| - 1].Emit? then 1 else 0
  }

  /** The moves of a call that is still collecting are bounded by what was left when they began, and three for every
      frame that branches emit meanwhile: once they stop emitting, the call ends. */
  lemma CallTerminates(n: nat, ws: seq<World>, ms: seq<Move>, i: nat, j: nat)
    requires Execution(n, ws, ms) && i <= j < |ws| && forall k :: i <= k <= j ==> ws[k].phase.Collecting?
    ensures j - i < Remaining(ws[i].branches) + 3 * Emits(ms[i..j])
  {
    hide Remaining, Emits, Enabled, Next;
    CallProgress(n, ws, ms, i, j);
    CallNeverStuck(n, ws, ms, j);
    SomethingLeft(ws[j]);
  }

  lemma SomethingLeft(w: World)
    requires w.phase.Collecting? && (Enabled(w, Receive) || exists k :: Enabled(w, Land(w.phase.branch, k)))
    ensures Remaining(w.branches) > 0
  {
    hide Remaining;
    if Enabled(w, Receive) {
      MoveUsesUp(w, Receive);
    } else {
      var k :| Enabled(w, Land(w.phase.branch, k));
      MoveUsesUp(w, Land(w.phase.branch, k));
    }
  }

  lemma {:induction false} CallProgress(n: nat, ws: seq<World>, ms: seq<Move>, i: nat, j: nat)
    requires Execution(n, ws, ms) && i <= j < |ws| && forall k :: i <= k <= j ==> ws[k].phase.Collecting?
    ensures j - i + Remaining(ws[j].branches) <= Remaining(ws[i].branches) + 3 * Emits(ms[i..j])
  {
    hide Remaining, Next, Enabled, Emits;
    if i < j {
      CallProgress(n, ws, ms, i, j - 1);
      MoveUsesUp(ws[j - 1], ms[j - 1]);
      EmitsGrow(ms[i..j - 1], ms[j - 1]);
      assert ms[i..j - 1] + [ms[j - 1]] == ms[i..j];
    } else {
      NoEmits();
    }
  }

  lemma NoEmits()
    ensures Emits([]) == 0
  {
  }

  lemma EmitsGrow(ms: seq<Move>, m: Move)
    ensures Emits(ms + [m]) == Emits(ms) + if m.Emit? then 1 else 0
  {
  }

  // ----- sends that land in order -------------------------------------------------------------------------------

  /** Sends land oldest first, branches emit only while a frame is pushed, and nothing goes wrong. */
  ghost predicate InOrder(ms: seq<Move>) {
    Undisturbed(ms) && forall i :: 0 <= i < |ms| ==> !ms[i].Emit? && (ms[i].Land? ==> ms[i].i == 0)
  }

  /** What a branch gave since the call began and what is still under way, in order. */
  function Stream(b: Branch): seq<Frame> {
    Given(b) + b.channel + b.inFlight
  }

  /** `emits` is what the call in progress makes the branches emit: each branch's stream is that and the SyncFrame. */
  ghost predicate OrderInv(w: World, emits: seq<seq<Frame>>) {
    && (w.phase == Idle ==> forall b :: 0 <= b < |w.branches| ==> w.branches[b].channel == [] == w.branches[b].inFlight)
    && (w.phase.Collecting? ==>
          && |emits| == |w.branches| && w.phase.branch < |w.branches|
          && (forall b :: 0 <= b < |emits| ==> BranchOrder(w.branches[b], emits[b], Owed(w, b))))
  }

  ghost predicate BranchOrder(b: Branch, emits: seq<Frame>, owed: nat) {
    && b.mark <= |b.received| && Stream(b) == emits + [SYNC] && |Given(b)| <= |emits| + 1 - owed
    && (owed == 0 ==> |Given(b)| == |emits| + 1)
    && forall i :: 0 <= i < |emits| ==> !emits[i].IsSync()
  }

  lemma OrderOfPush(b: Branch, emits: seq<Frame>)
    requires b.channel == [] == b.inFlight && forall i :: 0 <= i < |emits| ==> !emits[i].IsSync()
    ensures BranchOrder(Pushed(b, emits), emits, 1)
  {
    assert Stream(Pushed(b, emits)) == emits + [SYNC];
  }

  lemma OrderOfLand(b: Branch, emits: seq<Frame>, owed: nat)
    requires BranchOrder(b, emits, owed) && b.inFlight != []
    ensures BranchOrder(Landed(b, 0), emits, owed)
  {
    assert Stream(Landed(b, 0)) == Stream(b);
  }

  lemma OrderOfReceive(b: Branch, emits: seq<Frame>)
    requires BranchOrder(b, emits, 1) && b.channel != []
    ensures BranchOrder(Received(b), emits, if b.channel[0].IsSync() then 0 else 1)
  {
    GivenOfReceive(b);
    assert Stream(Received(b)) == Stream(b);
    assert b.channel[0] == Stream(b)[|Given(b)|];
  }

  lemma OrderIsDone(b: Branch, emits: seq<Frame>)
    requires BranchOrder(b, emits, 0)
    ensures b.channel == [] == b.inFlight && Data(Given(b)) == emits
  {
    var given := Given(b);
    assert given == Stream(b)[..|given|];
    DataGrows(emits, SYNC);
    OnlyData(emits);
  }

  lemma {:induction false} OnlyData(fs: seq<Frame>)
    requires forall i :: 0 <= i < |fs| ==> !fs[i].IsSync()
    ensures Data(fs) == fs
  {
    if fs != [] { OnlyData(fs[..|fs| - 1]); }
  }

  lemma OrderStep(w: World, m: Move, emits: seq<seq<Frame>>)
    requires OrderInv(w, emits) && Enabled(w, m) && (m.Call? || m.Receive? || (m.Land? && m.i == 0)) && |w.branches| > 0
    ensures OrderInv(Next(w, m), if m.Call? then m.emits else emits)
    ensures m.Receive? && Next(w, m).phase == Idle ==> GivenBy(Next(w, m).branches) == Flatten(emits)
  {
    hide BranchOrder, Pushed, Landed, Received, Fresh, GivenBy, Flatten;
    var u := Next(w, m);
    match m
    case Call(_, es) =>
      forall b | 0 <= b < |w.branches|
        ensures BranchOrder(u.branches[b], es[b], 1)
      {
        OrderOfPush(w.branches[b], es[b]);
      }
    case Land(b, _) =>
      if w.phase.Collecting? { OrderOfLand(w.branches[b], emits[b], Owed(w, b)); }
    case Receive =>
      var k := w.phase.branch;
      OrderOfReceive(w.branches[k], emits[k]);
      if u.phase == Idle {
        AllDone(u.branches, emits);
      }
  }

  lemma {:induction false} AllDone(branches: seq<Branch>, emits: seq<seq<Frame>>)
    requires |branches| == |emits| && forall b :: 0 <= b < |emits| ==> BranchOrder(branches[b], emits[b], 0)
    ensures GivenBy(branches) == Flatten(emits)
    ensures forall b :: 0 <= b < |branches| ==> branches[b].channel == [] == branches[b].inFlight
  {
    hide BranchOrder, Flatten, Data, Given;
    if branches == [] {
      NothingToFlatten(emits);
    } else {
      var n := |branches|;
      AllDone(branches[..n - 1], emits[..n - 1]);
      OrderIsDone(branches[n - 1], emits[n - 1]);
      FlattenOfAppend(emits[..n - 1], emits[n - 1]);
      assert emits == emits[..n - 1] + [emits[n - 1]];
      forall b | 0 <= b < n
        ensures branches[b].channel == [] == branches[b].inFlight
      {
        OrderIsDone(branches[b], emits[b]);
      }
    }
  }

  lemma NothingToFlatten(parts: seq<seq<Frame>>)
    requires parts == []
    ensures Flatten(parts) == []
  {
  }

  /** What the calls among the moves make the branches emit: call after call, branch after branch. */
  function EmittedBy(ms: seq<Move>): seq<Frame> {
    if ms == [] then []
    else EmittedBy(ms[..|ms| - 1]) + if ms[|ms| - 1].Call? then Flatten(ms[|ms| - 1].emits) else []
  }

  function LastEmits(ms: seq<Move>): seq<seq<Frame>> {
    if ms == [] then [] else if ms[|ms| - 1].Call? then ms[|ms| - 1].emits else LastEmits(ms[..|ms| - 1])
  }

  ghost predicate InOrderInv(w: World, ms: seq<Move>) {
    && OrderInv(w, LastEmits(ms))
    && w.gathered + (if w.phase.Collecting? then Flatten(LastEmits(ms)) else []) == EmittedBy(ms)
  }

  lemma InOrderStep(w: World, ms: seq<Move>, m: Move)
    requires InOrderInv(w, ms) && Enabled(w, m) && (m.Call? || m.Receive? || (m.Land? && m.i == 0)) && |w.branches| > 0
    requires m.Receive? ==>
               CollectsInOrder(w) && w.branches[w.phase.branch].mark <= |w.branches[w.phase.branch].received|
    ensures InOrderInv(Next(w, m), ms + [m])
  {
    hide OrderInv, CollectsInOrder, GivenBy, Flatten, Fresh;
    assert (ms + [m])[..|ms|] == ms;
    OrderStep(w, m, LastEmits(ms));
    if m.Receive? { ReceiveInOrder(w); }
  }

  lemma {:induction false} InOrderHolds(n: nat, ws: seq<World>, ms: seq<Move>, i: nat)
    requires Execution(n, ws, ms) && InOrder(ms) && i < |ws|
    ensures |ws[i].branches| == n && InOrderInv(ws[i], ms[..i])
  {
    hide InOrderInv, Inv, Next, Enabled, CollectsInOrder;
    InvHolds(n, ws, ms, i);
    if i == 0 {
      NothingInOrder(n);
      assert ms[..0] == [];
    } else {
      InvHolds(n, ws, ms, i - 1);
      InOrderHolds(n, ws, ms, i - 1);
      CollectsInChannelOrder(n, ws, ms, i - 1);
      MarksInRange(ws[i - 1]);
      RightMove(ws[i - 1], ms[i - 1]);
      InOrderStep(ws[i - 1], ms[..i - 1], ms[i - 1]);
      assert ms[..i] == ms[..i - 1] + [ms[i - 1]];
    }
  }

  lemma RightMove(w: World, m: Move)
    requires !m.Cancel? && !m.FailedCall? && !m.Drop? && !m.Emit? && (m.Land? ==> m.i == 0)
    ensures m.Call? || m.Receive? || (m.Land? && m.i == 0)
    ensures m.Receive? ==> m == Receive
  {
  }

  lemma NothingInOrder(n: nat)
    ensures InOrderInv(Init(n), [])
  {
  }

  /** If sends land in order, nothing at all is pending between calls, and what was handed on for forwarding is what
      the branches emitted: call after call, branch after branch, in the order of emission. */
  lemma InOrderLeavesNothing(n: nat, ws: seq<World>, ms: seq<Move>, i: nat)
    requires Execution(n, ws, ms) && InOrder(ms) && i < |ws| && ws[i].phase == Idle
    ensures |ws[i].branches| == n && ws[i].gathered == EmittedBy(ms[..i])
    ensures forall b :: 0 <= b < n ==> ws[i].branches[b].inFlight == [] == ws[i].branches[b].channel
  {
    hide EmittedBy, Flatten;
    InOrderHolds(n, ws, ms, i);
  }
}
