/** The two-class frame queue and its single consumer (pkg/processors/queue.go).

    `FrameQueue` has one method for every stretch of code that runs under the mutex or touches the wakeup
    channel. `World` puts any number of producers and closers beside the one consumer; a move is one such
    stretch, and moves interleave in any order. */
module FrameQueue {
  import opened Common

  datatype Frame = Frame(frameType: string, id: nat)

  datatype Direction = Downstream | Upstream

  /** The frame may be nil. */
  datatype Item = Item(frame: Option<Frame>, dir: Direction)

  predicate IsSystem(i: Item) {
    i.frame.Some? && i.frame.value.frameType in ["StartFrame", "CancelFrame", "ErrorFrame"]
  }

  /** System frames are those of three types; a nil frame is none. */
  lemma SystemFrames(f: Frame, dir: Direction)
    ensures IsSystem(Item(Some(f), dir)) <==>
            f.frameType == "StartFrame" || f.frameType == "CancelFrame" || f.frameType == "ErrorFrame"
    ensures !IsSystem(Item(None, dir))
  {
  }

  /** `token` is the one slot of the wakeup channel. */
  datatype Queue = Queue(system: seq<Item>, data: seq<Item>, closed: bool, token: bool)

  datatype Look = Got(item: Item) | Closed | Empty

  function PutIn(q: Queue, item: Item): Queue {
    if q.closed then q
    else if IsSystem(item) then q.(system := q.system + [item], token := true)
    else q.(data := q.data + [item], token := true)
  }

  function LookIn(q: Queue): Look {
    if q.system != [] then Got(q.system[0])
    else if q.data != [] then Got(q.data[0])
    else if q.closed then Closed else Empty
  }

  function AfterLook(q: Queue): Queue {
    if q.system != [] then q.(system := q.system[1..]) else if q.data != [] then q.(data := q.data[1..]) else q
  }

  class FrameQueue {
    var system: seq<Item>
    var data: seq<Item>
    var token: bool
    var closed: bool

    ghost function Abs(): Queue
      reads this
    {
      Queue(system, data, closed, token)
    }

    constructor ()
      ensures Abs() == Queue([], [], false, false)
    {
      system, data, token, closed := [], [], false, false;
    }

    /** All of Put runs under the mutex; the post to a full channel is dropped. */
    method Put(item: Item)
      modifies this
      ensures Abs() == PutIn(old(Abs()), item)
    {
      if closed {
        return;
      }
      if IsSystem(item) {
        system := system + [item];
      } else {
        data := data + [item];
      }
      Post();
    }

    method Post()
      modifies `token
      ensures token
    {
      if !token {
        token := true;
      }
    }

    /** The part of Get that runs under the mutex. */
    method TryTake() returns (r: Look)
      modifies this
      ensures r == LookIn(old(Abs())) && Abs() == AfterLook(old(Abs()))
    {
      if |system| > 0 {
        var item := system[0];
        system := system[1..];
        return Got(item);
      }
      if |data| > 0 {
        var item := data[0];
        data := data[1..];
        return Got(item);
      }
      return if closed then Closed else Empty;
    }

    /** Receiving from the wakeup channel. */
    method Wake()
      requires token
      modifies `token
      ensures !token
    {
      token := false;
    }

    /** The first half of Close, under the mutex; `Post` is the second. */
    method MarkClosed()
      modifies `closed
      ensures closed
    {
      closed := true;
    }
  }

  // ----- producers, closers and one consumer ------------------------------------------------------------

  /** Between calls of Get; before the locked part; in the select; or back for good. */
  datatype Consumer = Busy | Looking | Parked | ReportedClosed | Cancelled

  /** `closing` counts Close calls between their two halves; `accepted` and `got` record what went in and came out. */
  datatype World = World(q: Queue, consumer: Consumer, closing: nat, ctxDone: bool, accepted: seq<Item>, got: seq<Item>)

  const INIT := World(Queue([], [], false, false), Busy, 0, false, [], [])

  datatype Move = Put(item: Item) | MarkClosed | PostClose | Call | TryTake | Wake | GiveUp | CancelContext

  predicate Enabled(w: World, m: Move) {
    match m
    case Put(_) => true
    case MarkClosed => true
    case PostClose => w.closing > 0
    case Call => w.consumer == Busy
    case TryTake => w.consumer == Looking
    case Wake => w.consumer == Parked && w.q.token
    case GiveUp => w.consumer == Parked && w.ctxDone
    case CancelContext => true
  }

  function Next(w: World, m: Move): World
    requires Enabled(w, m)
  {
    match m
    case Put(item) => w.(q := PutIn(w.q, item), accepted := if w.q.closed then w.accepted else w.accepted + [item])
    case MarkClosed => w.(q := w.q.(closed := true), closing := w.closing + 1)
    case PostClose => w.(q := w.q.(token := true), closing := w.closing - 1)
    case Call => w.(consumer := Looking)
    case TryTake =>
      var w' := w.(q := AfterLook(w.q));
      (match LookIn(w.q)
       case Got(item) => w'.(consumer := Busy, got := w.got + [item])
       case Closed => w'.(consumer := ReportedClosed)
       case Empty => w'.(consumer := Parked))
    case Wake => w.(consumer := Looking, q := w.q.(token := false))
    case GiveUp => w.(consumer := Cancelled)
    case CancelContext => w.(ctxDone := true)
  }

  ghost predicate Execution(ws: seq<World>, ms: seq<Move>) {
    && |ws| == |ms| + 1 && ws[0] == INIT
    && forall i :: 0 <= i < |ms| ==> Enabled(ws[i], ms[i]) && ws[i + 1] == Next(ws[i], ms[i])
  }

  /** The items of one class, in order. */
  function Class(system: bool, items: seq<Item>): seq<Item> {
    if items == [] then []
    else
      var last := items[|items| - 1];
      Class(system, items[..|items| - 1]) + if IsSystem(last) == system then [last] else []
  }

  lemma ClassGrows(system: bool, items: seq<Item>, i: Item)
    ensures Class(system, items + [i]) == Class(system, items) + if IsSystem(i) == system then [i] else []
  {
  }

  predicate HasWork(q: Queue) {
    q.system != [] || q.data != [] || q.closed
  }

  ghost predicate Inv(w: World) {
    && (w.consumer == Parked && HasWork(w.q) ==> w.q.token || w.closing > 0)
    && (w.closing > 0 ==> w.q.closed)
    && (forall i :: 0 <= i < |w.q.system| ==> IsSystem(w.q.system[i]))
    && (forall i :: 0 <= i < |w.q.data| ==> !IsSystem(w.q.data[i]))
    && Class(true, w.got) + w.q.system == Class(true, w.accepted)
    && Class(false, w.got) + w.q.data == Class(false, w.accepted)
    && (w.consumer == ReportedClosed ==> w.q.closed && w.q.system == [] && w.q.data == [])
  }

  lemma PutKeepsInv(w: World, item: Item)
    requires Inv(w)
    ensures Inv(Next(w, Put(item)))
  {
    hide Class, IsSystem;
    ClassGrows(true, w.accepted, item);
    ClassGrows(false, w.accepted, item);
  }

  lemma TakeKeepsInv(w: World)
    requires Inv(w) && w.consumer == Looking
    ensures Inv(Next(w, TryTake))
  {
    hide Class, IsSystem;
    var look := LookIn(w.q);
    if look.Got? {
      ClassGrows(true, w.got, look.item);
      ClassGrows(false, w.got, look.item);
      if w.q.system != [] {
        assert w.q.system == [w.q.system[0]] + w.q.system[1..];
      } else {
        assert w.q.data == [w.q.data[0]] + w.q.data[1..];
      }
    }
  }

  lemma {:induction false} InvHolds(ws: seq<World>, ms: seq<Move>, i: nat)
    requires Execution(ws, ms) && i < |ws|
    ensures Inv(ws[i])
  {
    hide Class, IsSystem;
    if i == 0 {
      NoClass();
    } else {
      InvHolds(ws, ms, i - 1);
      match ms[i - 1]
      case Put(item) => PutKeepsInv(ws[i - 1], item);
      case TryTake => TakeKeepsInv(ws[i - 1]);
      case _ =>
    }
  }

  lemma NoClass()
    ensures Class(true, []) == [] == Class(false, [])
  {
  }

  // ----- results ----------------------------------------------------------------------------------------

  /** No lost wakeup: a parked consumer with something to do has a token, or a Close is about to post one;
      from there waking and looking ends the wait with an item or with the report that the queue is closed. */
  lemma NoLostWakeup(ws: seq<World>, ms: seq<Move>, i: nat)
    requires Execution(ws, ms) && i < |ws| && ws[i].consumer == Parked && HasWork(ws[i].q)
    ensures var w := ws[i];
            (Enabled(w, Wake) || Enabled(w, PostClose))
            && (Enabled(w, PostClose) ==> Enabled(Next(w, PostClose), Wake))
    ensures var w := ws[i];
            Enabled(w, Wake) ==>
              Enabled(Next(w, Wake), TryTake) && Next(Next(w, Wake), TryTake).consumer in {Busy, ReportedClosed}
  {
    hide Class;
    InvHolds(ws, ms, i);
  }

  /** Nothing but its own wakeup or giving up ends the consumer's park, and no move takes work away from it. */
  lemma WorkStays(w: World, m: Move)
    requires Enabled(w, m) && w.consumer == Parked && HasWork(w.q)
    ensures var u := Next(w, m);
            m == Wake || m == GiveUp || (u.consumer == Parked && HasWork(u.q) && (w.q.token ==> u.q.token))
  {
  }

  /** Exact priority and order: what came out of each class is a prefix of what was accepted into it,
      and what comes out next is the oldest system frame if there is one, else the oldest data frame. */
  lemma PriorityOrder(ws: seq<World>, ms: seq<Move>, i: nat)
    requires Execution(ws, ms) && i < |ws|
    ensures var w := ws[i];
            && Class(true, w.got) <= Class(true, w.accepted) && Class(false, w.got) <= Class(false, w.accepted)
            && (w.consumer == Looking && Next(w, TryTake).got != w.got ==>
                  var item := Next(w, TryTake).got[|w.got|];
                  if Class(true, w.got) != Class(true, w.accepted)
                  then IsSystem(item) && item == Class(true, w.accepted)[|Class(true, w.got)|]
                  else !IsSystem(item) && Class(false, w.got) < Class(false, w.accepted)
                       && item == Class(false, w.accepted)[|Class(false, w.got)|])
  {
    hide Class, IsSystem;
    InvHolds(ws, ms, i);
  }

  /** When Get reports the queue closed, everything accepted has been delivered, and nothing will be accepted again. */
  lemma ClosedMeansDrained(ws: seq<World>, ms: seq<Move>, i: nat, item: Item)
    requires Execution(ws, ms) && i < |ws| && ws[i].consumer == ReportedClosed
    ensures var w := ws[i];
            && Class(true, w.got) == Class(true, w.accepted) && Class(false, w.got) == Class(false, w.accepted)
            && Next(w, Put(item)) == w
  {
    hide Class;
    InvHolds(ws, ms, i);
  }

  /** The items put in before the queue was closed. */
  function PutBeforeClose(ms: seq<Move>): seq<Item> {
    if ms == [] then []
    else
      var init, last := ms[..|ms| - 1], ms[|ms| - 1];
      PutBeforeClose(init) + if last.Put? && MarkClosed !in init then [last.item] else []
  }

  lemma PutOneMore(ms: seq<Move>, m: Move)
    ensures PutBeforeClose(ms + [m]) == PutBeforeClose(ms) + if m.Put? && MarkClosed !in ms then [m.item] else []
    ensures MarkClosed in ms + [m] <==> MarkClosed in ms || m == MarkClosed
  {
    assert (ms + [m])[..|ms|] == ms;
  }

  lemma AcceptedStep(w: World, m: Move)
    requires Enabled(w, m)
    ensures Next(w, m).accepted == w.accepted + if m.Put? && !w.q.closed then [m.item] else []
    ensures Next(w, m).q.closed <==> w.q.closed || m == MarkClosed
  {
    hide IsSystem;
  }

  /** Accepted is what was put in before the first Close, in order, and nothing else. */
  lemma {:induction false} AcceptedIsPut(ws: seq<World>, ms: seq<Move>, i: nat)
    requires Execution(ws, ms) && i < |ws|
    ensures ws[i].accepted == PutBeforeClose(ms[..i]) && (ws[i].q.closed <==> MarkClosed in ms[..i])
  {
    hide Next, Enabled, PutBeforeClose;
    if i == 0 {
      NothingPut();
      assert ms[..0] == [];
    } else {
      AcceptedIsPut(ws, ms, i - 1);
      AcceptedStep(ws[i - 1], ms[i - 1]);
      PutOneMore(ms[..i - 1], ms[i - 1]);
      assert ms[..i] == ms[..i - 1] + [ms[i - 1]];
    }
  }

  lemma NothingPut()
    ensures PutBeforeClose([]) == []
  {
  }
}
