/** The lifecycle barrier of ParallelPipeline (pkg/pipeline/parallel.go:93-168).

    `ParallelPipeline` has the two mutex-protected sections, which are the atomic steps of any interleaving of
    the branches. A trace is described by blocks: a frame a branch emits outside a round, or a whole round, in
    which every branch emits the lifecycle frame once while data frames arrive in between. */
module Parallel {
  datatype Frame = Frame(lifecycle: bool, id: nat)

  datatype Barrier = Barrier(syncFrameId: nat, counter: int, synchronizing: bool, buffered: seq<Frame>, seen: set<nat>,
                             out: seq<Frame>)

  const INITIAL := Barrier(0, 0, false, [], {}, [])

  type Filter = Frame -> bool

  /** The locked part of ProcessFrame, with `n` branches. */
  function Begin(s: Barrier, n: nat, f: Frame): Barrier {
    if f.lifecycle then s.(syncFrameId := f.id, counter := n, synchronizing := true) else s
  }

  /** A branch emits a frame. */
  function Emit(s: Barrier, filter: Filter, f: Frame): Barrier {
    if f.lifecycle then
      if f.id == s.syncFrameId && s.synchronizing then
        if s.counter - 1 == 0 then
          s.(counter := 0, synchronizing := false, out := s.out + [f] + s.buffered, buffered := [])
        else s.(counter := s.counter - 1)
      else s
    else if s.synchronizing then s.(buffered := s.buffered + [f])
    else if f.id in s.seen || !filter(f) then s
    else s.(seen := s.seen + {f.id}, out := s.out + [f])
  }

  class ParallelPipeline {
    const branches: nat
    const outputFilter: Filter // always true if none is set
    var syncFrameId: nat
    var counter: int
    var synchronizing: bool
    var buffered: seq<Frame>
    var seenIds: set<nat>
    var next: seq<Frame> // what the next processor has been given

    ghost function Abs(): Barrier
      reads this
    {
      Barrier(syncFrameId, counter, synchronizing, buffered, seenIds, next)
    }

    constructor (branches: nat, outputFilter: Filter)
      requires branches > 0
      ensures this.branches == branches && this.outputFilter == outputFilter && Abs() == INITIAL
    {
      this.branches, this.outputFilter := branches, outputFilter;
      syncFrameId, counter, synchronizing, buffered, seenIds, next := 0, 0, false, [], {}, [];
    }

    method BeginFrame(f: Frame)
      modifies this
      ensures Abs() == Begin(old(Abs()), branches, f)
    {
      if f.lifecycle {
        syncFrameId := f.id;
        counter := branches;
        synchronizing := true;
      }
    }

    method OnDownstreamFromBranch(f: Frame)
      modifies this
      ensures Abs() == Emit(old(Abs()), outputFilter, f)
    {
      if f.lifecycle {
        if f.id == syncFrameId && synchronizing {
          counter := counter - 1;
          if counter == 0 {
            synchronizing := false;
            next := next + [f];
            var i := 0;
            while i < |buffered|
              invariant 0 <= i <= |buffered|
              invariant next == old(next) + [f] + buffered[..i]
              modifies `next
            {
              next := next + [buffered[i]];
              i := i + 1;
            }
            assert buffered[..i] == buffered;
            buffered := [];
          }
        }
        return;
      }
      if synchronizing {
        buffered := buffered + [f];
        return;
      }
      if f.id in seenIds {
        return;
      }
      if !outputFilter(f) {
        return;
      }
      seenIds := seenIds + {f.id};
      next := next + [f];
    }
  }

  // ----- traces ---------------------------------------------------------------------------------------------

  /** Inside a round: a branch emits the round's lifecycle frame; a branch emits a data frame;
      a branch emits some other lifecycle frame. */
  datatype Event = Arrive(branch: nat) | Data(frame: Frame) | Stray(id: nat)

  datatype Block = Round(frame: Frame, events: seq<Event>) | Free(frame: Frame)

  function FrameOf(round: Frame, e: Event): Frame {
    match e
    case Arrive(_) => round
    case Data(f) => f
    case Stray(id) => Frame(true, id)
  }

  function RunEvents(s: Barrier, filter: Filter, round: Frame, es: seq<Event>): Barrier {
    if es == [] then s else Emit(RunEvents(s, filter, round, es[..|es| - 1]), filter, FrameOf(round, es[|es| - 1]))
  }

  function RunBlocks(s: Barrier, n: nat, filter: Filter, bs: seq<Block>): Barrier {
    if bs == [] then s
    else
      var s := RunBlocks(s, n, filter, bs[..|bs| - 1]);
      match bs[|bs| - 1]
      case Round(f, es) => RunEvents(Begin(s, n, f), filter, f, es)
      case Free(f) => Emit(s, filter, f)
  }

  function Arrived(es: seq<Event>): set<nat> {
    set e <- es | e.Arrive? :: e.branch
  }

  function AllBranches(n: nat): (all: set<nat>)
    ensures |all| == n && forall b: nat :: b in all <==> b < n
  {
    if n == 0 then {} else AllBranches(n - 1) + {n - 1}
  }

  function DataOf(es: seq<Event>): seq<Frame> {
    if es == [] then [] else DataOf(es[..|es| - 1]) + if es[|es| - 1].Data? then [es[|es| - 1].frame] else []
  }

  predicate ProperEvent(n: nat, round: Frame, e: Event) {
    match e
    case Arrive(b) => b < n
    case Data(f) => !f.lifecycle
    case Stray(id) => id != round.id
  }

  /** Each branch emits the frame at most once, other lifecycle frames are told apart by ID, data frames are
      data frames. */
  predicate Proper(n: nat, round: Frame, es: seq<Event>) {
    && round.lifecycle
    && (forall i, j :: 0 <= i < j < |es| && es[i].Arrive? && es[j].Arrive? ==> es[i].branch != es[j].branch)
    && (forall i :: 0 <= i < |es| ==> ProperEvent(n, round, es[i]))
  }

  /** The round ends with the emission that makes it complete. */
  predicate Complete(n: nat, round: Frame, es: seq<Event>) {
    && Proper(n, round, es) && es != [] && es[|es| - 1].Arrive?
    && Arrived(es) == AllBranches(n)
  }

  // ----- one round --------------------------------------------------------------------------------------------

  lemma SubsetIsSmaller(a: set<nat>, b: set<nat>)
    requires a <= b
    ensures |a| <= |b| && (|a| == |b| ==> a == b)
  {
    assert b == a + (b - a);
  }

  lemma ArrivedGrows(n: nat, round: Frame, es: seq<Event>, e: Event)
    requires Proper(n, round, es + [e])
    ensures Proper(n, round, es) && Arrived(es) <= Arrived(es + [e]) <= AllBranches(n)
    ensures e.Arrive? ==> Arrived(es + [e]) == Arrived(es) + {e.branch} && e.branch !in Arrived(es)
    ensures !e.Arrive? ==> Arrived(es + [e]) == Arrived(es)
  {
    var next := es + [e];
    assert next[|es|] == e;
    forall i | 0 <= i < |es|
      ensures ProperEvent(n, round, es[i])
    {
      assert next[i] == es[i];
    }
    forall i, j | 0 <= i < j < |es| && es[i].Arrive? && es[j].Arrive?
      ensures es[i].branch != es[j].branch
    {
      assert next[i] == es[i] && next[j] == es[j];
    }
    forall i | 0 <= i < |es| && es[i].Arrive? && e.Arrive?
      ensures es[i].branch != e.branch
    {
      assert next[i] == es[i];
    }
  }

  /** As long as some branch has not emitted the frame, nothing is output and data frames are kept in order. */
  lemma {:induction false} RoundInProgress(s: Barrier, n: nat, filter: Filter, round: Frame, es: seq<Event>)
    requires Proper(n, round, es) && Arrived(es) != AllBranches(n) && s.buffered == []
    ensures Arrived(es) < AllBranches(n)
    ensures RunEvents(Begin(s, n, round), filter, round, es)
         == Barrier(round.id, n - |Arrived(es)|, true, DataOf(es), s.seen, s.out)
    decreases |es|
  {
    hide Proper, Arrived;
    if es != [] {
      var init, e := es[..|es| - 1], es[|es| - 1];
      assert es == init + [e];
      ArrivedGrows(n, round, init, e);
      LastIsProper(n, round, init, e);
      SubsetIsSmaller(Arrived(es), AllBranches(n));
      RoundInProgress(s, n, filter, round, init);
    } else {
      NothingArrived();
      ProperRound(n, round);
    }
  }

  lemma NothingArrived()
    ensures Arrived([]) == {}
  {
  }

  lemma ProperRound(n: nat, round: Frame)
    requires Proper(n, round, [])
    ensures round.lifecycle
  {
  }

  lemma LastIsProper(n: nat, round: Frame, init: seq<Event>, e: Event)
    requires Proper(n, round, init + [e])
    ensures round.lifecycle && ProperEvent(n, round, e)
  {
    assert (init + [e])[|init|] == e;
  }

  /** A round outputs its frame exactly once, when the last branch has emitted it, and right after it, in order
      of arrival, the data frames that arrived meanwhile; nothing else changes. */
  lemma {:induction false} RoundOutput(s: Barrier, n: nat, filter: Filter, round: Frame, es: seq<Event>)
    requires Complete(n, round, es) && s.buffered == [] && !s.synchronizing
    ensures RunEvents(Begin(s, n, round), filter, round, es)
         == Barrier(round.id, 0, false, [], s.seen, s.out + [round] + DataOf(es))
    ensures forall k :: 0 <= k < |es| ==> RunEvents(Begin(s, n, round), filter, round, es[..k]).out == s.out
  {
    hide Proper, RunEvents;
    var init, e := es[..|es| - 1], es[|es| - 1];
    assert es == init + [e];
    ArrivedGrows(n, round, init, e);
    LastIsProper(n, round, init, e);
    RoundInProgress(s, n, filter, round, init);
    RunLast(Begin(s, n, round), filter, round, init, e);
    assert DataOf(es) == DataOf(init);
    forall k | 0 <= k < |es|
      ensures RunEvents(Begin(s, n, round), filter, round, es[..k]).out == s.out
    {
      PrefixIncomplete(n, round, es, k);
      RoundInProgress(s, n, filter, round, es[..k]);
    }
  }

  lemma RunLast(s: Barrier, filter: Filter, round: Frame, init: seq<Event>, e: Event)
    ensures RunEvents(s, filter, round, init + [e])
         == Emit(RunEvents(s, filter, round, init), filter, FrameOf(round, e))
  {
  }

  lemma PrefixIncomplete(n: nat, round: Frame, es: seq<Event>, k: nat)
    requires Complete(n, round, es) && k < |es|
    ensures Proper(n, round, es[..k]) && Arrived(es[..k]) != AllBranches(n)
  {
    var last := es[|es| - 1];
    forall i | 0 <= i < k && es[..k][i].Arrive?
      ensures es[..k][i].branch != last.branch
    {
      assert es[i] == es[..k][i];
    }
    assert last.branch in AllBranches(n);
  }

  // ----- whole traces -----------------------------------------------------------------------------------------

  predicate ProperBlocks(n: nat, bs: seq<Block>) {
    forall i :: 0 <= i < |bs| && bs[i].Round? ==> Complete(n, bs[i].frame, bs[i].events)
  }

  /** IDs of the data frames emitted outside rounds that pass the filter. */
  function FreeIds(filter: Filter, bs: seq<Block>): set<nat> {
    set b <- bs | b.Free? && !b.frame.lifecycle && filter(b.frame) :: b.frame.id
  }

  /** What the next processor should be given: rounds as above, and of the frames emitted outside rounds the first
      with its ID that passes the filter. A lifecycle frame emitted outside a round is dropped. */
  function Expected(filter: Filter, bs: seq<Block>): seq<Frame> {
    if bs == [] then []
    else
      var init := bs[..|bs| - 1];
      Expected(filter, init) +
      match bs[|bs| - 1]
      case Round(f, es) => [f] + DataOf(es)
      case Free(f) => if !f.lifecycle && filter(f) && f.id !in FreeIds(filter, init) then [f] else []
  }

  lemma {:induction false} TraceOutput(n: nat, filter: Filter, bs: seq<Block>)
    requires ProperBlocks(n, bs)
    ensures var s := RunBlocks(INITIAL, n, filter, bs);
            s.out == Expected(filter, bs) && s.seen == FreeIds(filter, bs) && !s.synchronizing && s.buffered == []
    decreases |bs|
  {
    hide Complete, DataOf, RunEvents;
    if bs != [] {
      var init, b := bs[..|bs| - 1], bs[|bs| - 1];
      assert bs == init + [b];
      TraceOutput(n, filter, init);
      var s := RunBlocks(INITIAL, n, filter, init);
      FreeIdsGrow(filter, init, b);
      match b
      case Round(f, es) =>
        RoundOutput(s, n, filter, f, es);
        assert s.out + [f] + DataOf(es) == s.out + ([f] + DataOf(es));
      case Free(f) =>
    }
  }

  lemma FreeIdsGrow(filter: Filter, init: seq<Block>, b: Block)
    ensures FreeIds(filter, init + [b])
         == FreeIds(filter, init) + if b.Free? && !b.frame.lifecycle && filter(b.frame) then {b.frame.id} else {}
  {
  }

  /** What a step from `s` to `t` gives the next processor. */
  function Added(s: Barrier, t: Barrier): seq<Frame> {
    if |t.out| <= |s.out| then [] else t.out[|s.out|..]
  }

  /** What the next processor is given outside rounds. */
  function FreeOutput(n: nat, filter: Filter, bs: seq<Block>): seq<Frame> {
    if bs == [] then []
    else
      var init := bs[..|bs| - 1];
      FreeOutput(n, filter, init) +
      if bs[|bs| - 1].Free? then Added(RunBlocks(INITIAL, n, filter, init), RunBlocks(INITIAL, n, filter, bs)) else []
  }

  /** Outside rounds every data ID that passes the filter is forwarded exactly once, and no other. */
  lemma {:induction false} FreeIdsOnce(n: nat, filter: Filter, bs: seq<Block>)
    requires ProperBlocks(n, bs)
    ensures var fs := FreeOutput(n, filter, bs);
            && (forall i, j :: 0 <= i < j < |fs| ==> fs[i].id != fs[j].id)
            && (set f <- fs :: f.id) == FreeIds(filter, bs)
    decreases |bs|
  {
    hide ProperBlocks, RunEvents;
    if bs != [] {
      var init, b := bs[..|bs| - 1], bs[|bs| - 1];
      assert bs == init + [b];
      ProperPrefix(n, init, b);
      FreeIdsOnce(n, filter, init);
      FreeIdsGrow(filter, init, b);
      TraceOutput(n, filter, init);
      FreeStep(RunBlocks(INITIAL, n, filter, init), filter, b.frame);
      OnceStep(FreeOutput(n, filter, init), FreeIds(filter, init), b.frame);
      assert FreeOutput(n, filter, init) + [] == FreeOutput(n, filter, init);
    }
  }

  lemma ProperPrefix(n: nat, init: seq<Block>, b: Block)
    requires ProperBlocks(n, init + [b])
    ensures ProperBlocks(n, init)
  {
    hide Complete;
    forall i | 0 <= i < |init| && init[i].Round?
      ensures Complete(n, init[i].frame, init[i].events)
    {
      assert (init + [b])[i] == init[i];
    }
  }

  lemma FreeStep(s: Barrier, filter: Filter, f: Frame)
    requires !s.synchronizing
    ensures Added(s, Emit(s, filter, f)) == if !f.lifecycle && filter(f) && f.id !in s.seen then [f] else []
  {
  }

  lemma OnceStep(fs: seq<Frame>, ids: set<nat>, f: Frame)
    requires (forall i, j :: 0 <= i < j < |fs| ==> fs[i].id != fs[j].id) && (set g <- fs :: g.id) == ids
    ensures var next := fs + [f];
            f.id !in ids ==>
              && (forall i, j :: 0 <= i < j < |next| ==> next[i].id != next[j].id)
              && (set g <- next :: g.id) == ids + {f.id}
  {
  }
}
