/** The streaming delimiter parser (pkg/utils/patternaggregator/patternaggregator.go).

    `Aggregator` is the incremental parser. `Drain` says what one pass over a buffer finds,
    with texts and matches still in their original order; `LeftmostParse` is the offline
    definition of the parse that `Drain` is proved to compute. The central question is
    whether the result depends on how a text was cut into chunks: `ChunkingIrrelevantIff`
    answers it exactly. A Go string is a sequence of bytes; a `char` stands for one byte. */
module PatternAggregator {
  import opened Common

  /** What parsing a text finds: gaps of plain text and delimited contents, in order, then the
      plain text released at the end (`tail`) and what stays in the buffer (`rest`). */
  datatype Parse = Done(tail: string, rest: string) | Found(gap: string, content: string, next: Parse)

  predicate OccursAt(s: string, sub: string, i: nat) {
    i + |sub| <= |s| && s[i..i + |sub|] == sub
  }

  /** Leftmost occurrence of `sub` in `s` at or after `from`, or -1 (see `FindIsLeftmost`). */
  function FindFrom(s: string, sub: string, from: nat): (r: int)
    requires from <= |s|
    ensures r == -1 || from <= r <= |s| - |sub|
    decreases |s| - from
  {
    if from + |sub| > |s| then -1
    else if s[from..from + |sub|] == sub then from
    else if from == |s| then -1
    else FindFrom(s, sub, from + 1)
  }

  /** `buf` ends in the first `i` characters of `open`, and these are not all of `open`. */
  predicate HoldsBack(buf: string, open: string, i: nat) {
    1 <= i < |open| && i <= |buf| && buf[|buf| - i..] == open[..i]
  }

  /** Length of the shortest suffix of `i` or more characters that has to wait for
      more input, 0 if there is none (see `HeldIsShortest`). */
  function Held(buf: string, open: string, i: nat := 1): (h: nat)
    requires 1 <= i
    ensures h <= |buf|
    decreases |buf| + 1 - i
  {
    if i >= |open| || i > |buf| then 0
    else if buf[|buf| - i..] == open[..i] then i
    else Held(buf, open, i + 1)
  }

  /** What one look at the buffer sees: no `open`; an `open` that no `close` follows (what precedes it,
      and what starts with it); or a delimited content (what precedes it, the content, what comes after). */
  datatype Scanned =
    | NoOpen
    | Unclosed(gap: string, waiting: string)
    | Closed(gap: string, content: string, after: string)

  function Scan(open: string, close: string, buf: string): (r: Scanned)
    ensures r.Closed? ==> |r.gap| + |open| + |r.content| + |close| + |r.after| == |buf|
  {
    var o := FindFrom(buf, open, 0);
    if o < 0 then NoOpen
    else
      var c := FindFrom(buf, close, o + |open|);
      if c < 0 then Unclosed(buf[..o], buf[o..])
      else Closed(buf[..o], buf[o + |open|..c], buf[c + |close|..])
  }

  function Released(open: string, buf: string): string {
    buf[..|buf| - Held(buf, open)]
  }

  function HeldBack(open: string, buf: string): string {
    buf[|buf| - Held(buf, open)..]
  }

  /** One complete pass over a buffer. */
  function Drain(open: string, close: string, buf: string): Parse
    requires |open| + |close| > 0
    decreases |buf|
  {
    match Scan(open, close, buf)
    case NoOpen => Done(Released(open, buf), HeldBack(open, buf))
    case Unclosed(gap, waiting) => Done(gap, waiting)
    case Closed(gap, content, after) => Found(gap, content, Drain(open, close, after))
  }

  function Matches(p: Parse): seq<string> {
    match p
    case Done(_, _) => []
    case Found(_, content, next) => [content] + Matches(next)
  }

  function NonEmpty(s: string): seq<string> {
    if s == "" then [] else [s]
  }

  /** The text segments the source returns: gaps that are not empty. */
  function Segments(p: Parse): seq<string> {
    match p
    case Done(tail, _) => NonEmpty(tail)
    case Found(gap, _, next) => NonEmpty(gap) + Segments(next)
  }

  function Text(p: Parse): string {
    match p
    case Done(tail, _) => tail
    case Found(gap, _, next) => gap + Text(next)
  }

  function Rest(p: Parse): string {
    match p
    case Done(_, rest) => rest
    case Found(_, _, next) => Rest(next)
  }

  /** The text a parse is a parse of. */
  function Input(open: string, close: string, p: Parse): string {
    match p
    case Done(tail, rest) => tail + rest
    case Found(gap, content, next) => gap + open + content + close + Input(open, close, next)
  }

  function Prepend(t: string, p: Parse): Parse {
    match p
    case Done(tail, rest) => Done(t + tail, rest)
    case Found(gap, content, next) => Found(t + gap, content, next)
  }

  /** Two consecutive passes seen as one: text released at the end of the first
      runs on into the first gap of the second. */
  function Join(p: Parse, q: Parse): Parse {
    match p
    case Done(tail, _) => Prepend(tail, q)
    case Found(gap, content, next) => Found(gap, content, Join(next, q))
  }

  /** Everything a fresh aggregator has found after being fed the chunks one by one. */
  function FeedAll(open: string, close: string, chunks: seq<string>): Parse
    requires |open| + |close| > 0
  {
    if chunks == [] then Done("", "")
    else
      var p := FeedAll(open, close, chunks[..|chunks| - 1]);
      Join(p, Drain(open, close, Rest(p) + chunks[|chunks| - 1]))
  }

  // ----- searching ------------------------------------------------------------------------------

  /** `r` is the first occurrence at or after `from`. */
  ghost predicate FirstAt(s: string, sub: string, from: nat, r: nat) {
    from <= r && OccursAt(s, sub, r) && forall j: nat | from <= j < r :: !OccursAt(s, sub, j)
  }

  ghost predicate Absent(s: string, sub: string, from: nat) {
    forall j: nat | from <= j :: !OccursAt(s, sub, j)
  }

  lemma {:induction false} FindIsLeftmost(s: string, sub: string, from: nat)
    requires from <= |s|
    ensures var r := FindFrom(s, sub, from); if r < 0 then Absent(s, sub, from) else FirstAt(s, sub, from, r)
    decreases |s| - from
  {
    if from + |sub| <= |s| && s[from..from + |sub|] != sub && from < |s| {
      FindIsLeftmost(s, sub, from + 1);
      assert !OccursAt(s, sub, from);
    }
  }

  lemma FirstIsFind(s: string, sub: string, from: nat, r: nat)
    requires from <= |s| && FirstAt(s, sub, from, r)
    ensures FindFrom(s, sub, from) == r
  {
    FindIsLeftmost(s, sub, from);
  }

  lemma AbsentIsFind(s: string, sub: string, from: nat)
    requires from <= |s| && Absent(s, sub, from)
    ensures FindFrom(s, sub, from) == -1
  {
    FindIsLeftmost(s, sub, from);
  }

  /** `h` is the shortest suffix that must wait, 0 if there is none. */
  ghost predicate ShortestHeld(buf: string, open: string, h: nat) {
    && (h == 0 || HoldsBack(buf, open, h))
    && forall j: nat :: HoldsBack(buf, open, j) ==> 1 <= h <= j
  }

  lemma {:induction false} HeldIsShortest(buf: string, open: string)
    ensures ShortestHeld(buf, open, Held(buf, open))
  {
    HeldFromIsShortest(buf, open, 1);
  }

  lemma {:induction false} HeldFromIsShortest(buf: string, open: string, i: nat)
    requires 1 <= i
    ensures var h := Held(buf, open, i);
            && (h == 0 || (i <= h && HoldsBack(buf, open, h)))
            && forall j: nat :: i <= j && HoldsBack(buf, open, j) ==> i <= h <= j
    decreases |buf| + 1 - i
  {
    if i < |open| && i <= |buf| && buf[|buf| - i..] != open[..i] {
      HeldFromIsShortest(buf, open, i + 1);
      assert !HoldsBack(buf, open, i);
    }
  }

  /** Dropping `cut` characters shifts every occurrence after the cut. */
  lemma OccursShift(s: string, sub: string, cut: nat, j: nat)
    requires cut <= |s|
    ensures OccursAt(s[cut..], sub, j) <==> OccursAt(s, sub, cut + j)
  {
  }

  lemma FindShift(s: string, sub: string, cut: nat, from: nat)
    requires cut <= from <= |s|
    ensures var r := FindFrom(s, sub, from); FindFrom(s[cut..], sub, from - cut) == if r < 0 then -1 else r - cut
  {
    hide FindFrom, OccursAt;
    var t := s[cut..];
    FindIsLeftmost(s, sub, from);
    FindIsLeftmost(t, sub, from - cut);
    var r, q := FindFrom(s, sub, from), FindFrom(t, sub, from - cut);
    if r >= 0 { OccursShift(s, sub, cut, r - cut); }
    if q >= 0 { OccursShift(s, sub, cut, q); }
  }

  /** What follows a first occurrence does not move it. */
  lemma FindStable(a: string, b: string, sub: string, from: nat)
    requires from <= |a| && FindFrom(a, sub, from) >= 0
    ensures FindFrom(a + b, sub, from) == FindFrom(a, sub, from)
  {
    FindIsLeftmost(a, sub, from);
    var r := FindFrom(a, sub, from);
    forall j: nat | j <= r
      ensures OccursAt(a + b, sub, j) <==> OccursAt(a, sub, j)
    {
      assert (a + b)[j..j + |sub|] == a[j..j + |sub|];
    }
    FirstIsFind(a + b, sub, from, r);
  }

  // ----- the incremental parser ---------------------------------------------------------------

  method FindSubstring(s: string, sub: string) returns (r: int)
    ensures r == FindFrom(s, sub, 0)
  {
    if sub == "" {
      return 0;
    }
    var i := 0;
    while i <= |s| - |sub|
      invariant 0 <= i <= |s|
      invariant FindFrom(s, sub, i) == FindFrom(s, sub, 0)
    {
      if s[i..i + |sub|] == sub {
        return i;
      }
      i := i + 1;
    }
    return -1;
  }

  /** One turn of the source's loop, on its own indices. */
  lemma {:induction false} ScanStep(open: string, close: string, buf: string)
    ensures var o := FindFrom(buf, open, 0);
            if o < 0 then Scan(open, close, buf) == NoOpen
            else
              var c := FindFrom(buf[o + |open|..], close, 0) + o + |open|;
              Scan(open, close, buf) ==
              if c < o + |open| then Unclosed(buf[..o], buf[o..])
              else Closed(buf[..o], buf[o + |open|..c], buf[c + |close|..])
  {
    hide FindFrom;
    var o := FindFrom(buf, open, 0);
    if o >= 0 {
      FindShift(buf, close, o + |open|, o + |open|);
    }
  }

  lemma {:induction false} DrainStep(open: string, close: string, buf: string)
    requires |open| + |close| > 0
    ensures var r, p := Scan(open, close, buf), Drain(open, close, buf);
            && (r.NoOpen? ==> p == Done(Released(open, buf), HeldBack(open, buf)))
            && (r.Unclosed? ==> p == Done(r.gap, r.waiting))
            && (r.Closed? ==> p == Found(r.gap, r.content, Drain(open, close, r.after)))
  {
  }

  lemma Accumulate(segments: seq<string>, matches: seq<string>, p: Parse)
    requires p.Found?
    ensures segments + Segments(p) == segments + NonEmpty(p.gap) + Segments(p.next)
    ensures matches + Matches(p) == matches + [p.content] + Matches(p.next)
    ensures Rest(p) == Rest(p.next)
  {
  }

  lemma LastPiece(tail: string, rest: string)
    ensures var p := Done(tail, rest); Segments(p) == NonEmpty(tail) && Matches(p) == [] && Rest(p) == rest
  {
  }

  class Aggregator {
    const open: string
    const close: string
    var buf: string

    constructor (open: string, close: string)
      ensures this.open == open && this.close == close && buf == ""
    {
      this.open, this.close, buf := open, close, "";
    }

    /** With both delimiters empty the source loops for ever (see `EmptyDelimitersStall`);
        with any others it terminates on every text. */
    method Feed(text: string) returns (textSegments: seq<string>, matches: seq<string>)
      requires |open| + |close| > 0
      modifies this`buf
      ensures var p := Drain(open, close, old(buf) + text);
              textSegments == Segments(p) && matches == Matches(p) && buf == Rest(p)
    {
      hide FindFrom, Held, Scan, Drain, Segments, Matches, Rest;
      textSegments, matches := [], [];
      buf := buf + text;
      ghost var whole := Drain(open, close, buf);
      while true
        invariant textSegments + Segments(Drain(open, close, buf)) == Segments(whole)
        invariant matches + Matches(Drain(open, close, buf)) == Matches(whole)
        invariant Rest(Drain(open, close, buf)) == Rest(whole)
        decreases |buf|
      {
        ScanStep(open, close, buf);
        DrainStep(open, close, buf);
        var openIdx := FindSubstring(buf, open);
        if openIdx < 0 {
          var safeLen := SafeLength();
          LastPiece(buf[..safeLen], buf[safeLen..]);
          textSegments := textSegments + NonEmpty(buf[..safeLen]);
          buf := buf[safeLen..];
          return;
        }
        var afterOpen := openIdx + |open|;
        var closeIdx := FindSubstring(buf[afterOpen..], close);
        if closeIdx < 0 {
          // No close yet: keep everything from the open delimiter on.
          LastPiece(buf[..openIdx], buf[openIdx..]);
          textSegments := textSegments + NonEmpty(buf[..openIdx]);
          buf := buf[openIdx..];
          return;
        }
        closeIdx := closeIdx + afterOpen;
        Accumulate(textSegments, matches, Drain(open, close, buf));
        textSegments := textSegments + NonEmpty(buf[..openIdx]);
        matches := matches + [buf[afterOpen..closeIdx]];
        buf := buf[closeIdx + |close|..];
      }
    }

    /** Everything except a suffix that could be a prefix of `open`; part of `Feed` in the source. */
    method SafeLength() returns (safeLen: nat)
      ensures safeLen == |buf| - Held(buf, open)
    {
      var i := 1;
      while i < |open| && |buf| >= i
        invariant 1 <= i
        invariant Held(buf, open, i) == Held(buf, open)
      {
        if buf[|buf| - i..] == open[..i] {
          return |buf| - i;
        }
        i := i + 1;
      }
      return |buf|;
    }

    method Flush() returns (remaining: string)
      modifies this`buf
      ensures remaining == old(buf) && buf == ""
    {
      remaining := buf;
      buf := "";
    }
  }

  /** With both delimiters empty a turn of the source's loop finds `open` and `close` at 0 and leaves
      the buffer as it was, so the loop has no exit; with any others a match consumes input. */
  lemma EmptyDelimitersStall(open: string, close: string, buf: string)
    ensures open == close == "" ==> Scan(open, close, buf) == Closed("", "", buf)
    ensures open + close != "" && Scan(open, close, buf).Closed? ==> |Scan(open, close, buf).after| < |buf|
  {
  }

  // ----- the offline parse ----------------------------------------------------------------------

  /** Every gap ends at the first `open`, every content at the first `close` after it. At the end
      either no `open` occurs and the shortest suffix that begins one stays behind, or an `open`
      that no `close` follows stays behind. */
  ghost predicate LeftmostParse(open: string, close: string, p: Parse) {
    var s := Input(open, close, p);
    match p
    case Done(tail, rest) =>
      || (Absent(s, open, 0) && ShortestHeld(s, open, |rest|))
      || (FirstAt(s, open, 0, |tail|) && Absent(s, close, |tail| + |open|))
    case Found(gap, content, next) =>
      && FirstAt(s, open, 0, |gap|)
      && FirstAt(s, close, |gap| + |open|, |gap| + |open| + |content|)
      && LeftmostParse(open, close, next)
  }

  lemma {:induction false} Pieces(open: string, close: string, s: string)
    ensures match Scan(open, close, s)
            case NoOpen => s == Released(open, s) + HeldBack(open, s)
            case Unclosed(gap, waiting) => s == gap + waiting
            case Closed(gap, content, after) => s == gap + open + content + close + after
  {
    hide FindFrom, Held, Released, HeldBack;
    HeldIsTheEnd(open, s);
    var o := FindFrom(s, open, 0);
    if o >= 0 {
      FindIsLeftmost(s, open, 0);
      var p := o + |open|;
      var c := FindFrom(s, close, p);
      if c >= 0 {
        FindIsLeftmost(s, close, p);
        FiveCuts(s, o, p, c, c + |close|);
      }
    }
  }

  lemma {:induction false} HeldIsTheEnd(open: string, s: string)
    ensures s == Released(open, s) + HeldBack(open, s)
  {
    hide Held;
  }

  lemma FiveCuts(s: string, a: nat, b: nat, c: nat, d: nat)
    requires a <= b <= c <= d <= |s|
    ensures s == s[..a] + s[a..b] + s[b..c] + s[c..d] + s[d..]
  {
  }

  /** Nothing is lost or invented: text, delimiters, contents and the buffer, in order, are the input. */
  lemma {:induction false} InputOfDrain(open: string, close: string, s: string)
    requires |open| + |close| > 0
    ensures Input(open, close, Drain(open, close, s)) == s
    decreases |s|
  {
    hide Scan, Released, HeldBack;
    Pieces(open, close, s);
    if Scan(open, close, s).Closed? {
      InputOfDrain(open, close, Scan(open, close, s).after);
    }
  }

  lemma {:induction false} DrainIsLeftmost(open: string, close: string, s: string)
    requires |open| + |close| > 0
    ensures LeftmostParse(open, close, Drain(open, close, s))
    decreases |s|
  {
    hide FindFrom, OccursAt, Held, HoldsBack;
    InputOfDrain(open, close, s);
    FindIsLeftmost(s, open, 0);
    match Scan(open, close, s)
    case NoOpen =>
      HeldIsShortest(s, open);
    case Unclosed(gap, _) =>
      FindIsLeftmost(s, close, |gap| + |open|);
    case Closed(gap, _, after) =>
      FindIsLeftmost(s, close, |gap| + |open|);
      DrainIsLeftmost(open, close, after);
  }

  /** `Drain` computes the leftmost parse of its input, and there is no other. */
  lemma {:induction false} DrainIsTheLeftmostParse(open: string, close: string, s: string, p: Parse)
    requires |open| + |close| > 0
    ensures p == Drain(open, close, s) <==> Input(open, close, p) == s && LeftmostParse(open, close, p)
  {
    hide Drain, Input, LeftmostParse;
    InputOfDrain(open, close, s);
    DrainIsLeftmost(open, close, s);
    if Input(open, close, p) == s && LeftmostParse(open, close, p) {
      LeftmostParseIsUnique(open, close, p);
    }
  }

  lemma {:induction false} LeftmostParseIsUnique(open: string, close: string, p: Parse)
    requires |open| + |close| > 0 && LeftmostParse(open, close, p)
    ensures p == Drain(open, close, Input(open, close, p))
  {
    hide FindFrom, Held, OccursAt, HoldsBack;
    var s := Input(open, close, p);
    match p
    case Done(tail, rest) =>
      assert s[..|tail|] == tail && s[|tail|..] == rest;
      if FirstAt(s, open, 0, |tail|) && Absent(s, close, |tail| + |open|) {
        FirstIsFind(s, open, 0, |tail|);
        AbsentIsFind(s, close, |tail| + |open|);
      } else {
        AbsentIsFind(s, open, 0);
        HeldIsShortest(s, open);
      }
    case Found(gap, content, next) =>
      var after := |gap| + |open|;
      FirstIsFind(s, open, 0, |gap|);
      FirstIsFind(s, close, after, after + |content|);
      LeftmostParseIsUnique(open, close, next);
      assert s[..|gap|] == gap;
      assert s[after..after + |content|] == content;
      assert s[after + |content| + |close|..] == Input(open, close, next);
  }

  // ----- independence from chunking ---------------------------------------------------------------

  ghost predicate Border(w: string, i: nat) {
    0 < i < |w| && w[..i] == w[|w| - i..]
  }

  /** No proper prefix of `open` ends in a shorter prefix of it. */
  ghost predicate PrefixesUnbordered(open: string) {
    forall k: nat, i: nat :: k < |open| ==> !Border(open[..k], i)
  }

  /** Two suffixes of one text that begin `open`: the shorter is a border of the longer. */
  lemma TwoHeldMakeABorder(buf: string, open: string, h: nat, n: nat)
    requires HoldsBack(buf, open, h) && HoldsBack(buf, open, n) && h < n
    ensures Border(open[..n], h)
  {
  }

  /** No beginning of `open` lies in the text that is released early. */
  lemma NoPrefixBefore(open: string, a: string, j: nat)
    requires PrefixesUnbordered(open) && Absent(a, open, 0)
    requires j < |a| - Held(a, open)
    ensures |a| - j >= |open| ==> a[j..j + |open|] != open
    ensures |a| - j < |open| ==> a[j..] != open[..|a| - j]
  {
    var n := |a| - j;
    if n >= |open| {
      assert !OccursAt(a, open, j);
    } else if HoldsBack(a, open, n) {
      HeldIsShortest(a, open);
      TwoHeldMakeABorder(a, open, Held(a, open), n);
    }
  }

  lemma NothingStartsBefore(open: string, a: string, b: string, j: nat)
    requires PrefixesUnbordered(open) && Absent(a, open, 0)
    requires j < |a| - Held(a, open)
    ensures !OccursAt(a + b, open, j)
  {
    var s, n := a + b, |a| - j;
    if OccursAt(s, open, j) {
      if n >= |open| {
        SliceBefore(a, b, j, j + |open|);
      } else {
        assert a[j..] == s[j..j + |open|][..n];
      }
      NoPrefixBefore(open, a, j);
    }
  }

  lemma NothingHeldBefore(open: string, a: string, b: string, i: nat)
    requires PrefixesUnbordered(open) && Absent(a, open, 0)
    requires i > Held(a, open) + |b|
    ensures !HoldsBack(a + b, open, i)
  {
    var s, j := a + b, |a| + |b| - i;
    if HoldsBack(s, open, i) {
      var n := |a| - j;
      SliceBefore(a, b, j, |a|);
      assert a[j..] == s[j..][..n] == open[..i][..n] == open[..n];
      NoPrefixBefore(open, a, j);
    }
  }

  lemma SliceBefore(a: string, b: string, i: nat, j: nat)
    requires i <= j <= |a|
    ensures (a + b)[i..j] == a[i..j]
    ensures (a + b)[j..] == a[j..] + b
  {
  }

  lemma SliceAfter(a: string, b: string, i: nat, j: nat)
    requires |a| <= i <= j <= |a| + |b|
    ensures (a + b)[i..j] == b[i - |a|..j - |a|]
    ensures (a + b)[..i] == a + b[..i - |a|]
    ensures (a + b)[j..] == b[j - |a|..]
  {
  }

  function Shift(t: string, r: Scanned): Scanned {
    match r
    case NoOpen => NoOpen
    case Unclosed(gap, waiting) => Unclosed(t + gap, waiting)
    case Closed(gap, content, after) => Closed(t + gap, content, after)
  }

  lemma FindAfter(sub: string, t: string, s: string, from: nat)
    requires from <= |s|
    ensures FindFrom(t + s, sub, |t| + from) == if FindFrom(s, sub, from) < 0 then -1 else |t| + FindFrom(s, sub, from)
  {
    hide FindFrom;
    assert (t + s)[|t|..] == s;
    FindShift(t + s, sub, |t|, |t| + from);
  }

  /** Cutting released text off changes nothing that is still to be found. */
  lemma FindAfterRelease(sub: string, t: string, s: string)
    requires forall j: nat | j < |t| :: !OccursAt(t + s, sub, j)
    ensures FindFrom(t + s, sub, 0) == if FindFrom(s, sub, 0) < 0 then -1 else |t| + FindFrom(s, sub, 0)
  {
    hide FindFrom, OccursAt;
    FindAfter(sub, t, s, 0);
    FindIsLeftmost(t + s, sub, 0);
    FindIsLeftmost(t + s, sub, |t|);
  }

  lemma {:induction false} ScanAfterRelease(open: string, close: string, t: string, s: string)
    requires forall j: nat | j < |t| :: !OccursAt(t + s, open, j)
    ensures Scan(open, close, t + s) == Shift(t, Scan(open, close, s))
  {
    hide FindFrom, OccursAt;
    FindAfterRelease(open, t, s);
    var o := FindFrom(s, open, 0);
    if o >= 0 {
      var after := o + |open|;
      FindAfter(close, t, s, after);
      SliceAfter(t, s, |t| + o, |t| + o);
      var c := FindFrom(s, close, after);
      if c >= 0 {
        SliceAfter(t, s, |t| + after, |t| + c);
        SliceAfter(t, s, |t| + c + |close|, |t| + c + |close|);
      }
    }
  }

  lemma {:induction false} ReleasedAfter(open: string, t: string, s: string)
    requires Held(t + s, open) == Held(s, open)
    ensures Released(open, t + s) == t + Released(open, s) && HeldBack(open, t + s) == HeldBack(open, s)
  {
    hide Held;
    var cut := |s| - Held(s, open);
    assert (t + s)[..|t| + cut] == t + s[..cut];
  }

  lemma {:induction false} DrainAfterRelease(open: string, close: string, t: string, s: string)
    requires |open| + |close| > 0
    requires forall j: nat | j < |t| :: !OccursAt(t + s, open, j)
    requires Scan(open, close, t + s) == NoOpen ==> Held(t + s, open) == Held(s, open)
    ensures Drain(open, close, t + s) == Prepend(t, Drain(open, close, s))
  {
    hide Scan, Drain, OccursAt, Held, Released, HeldBack;
    ScanAfterRelease(open, close, t, s);
    DrainStep(open, close, t + s);
    DrainStep(open, close, s);
    if Scan(open, close, s) == NoOpen { ReleasedAfter(open, t, s); }
  }

  lemma HeldAfterRelease(open: string, t: string, s: string)
    requires forall i: nat | i > |s| :: !HoldsBack(t + s, open, i)
    ensures Held(t + s, open) == Held(s, open)
  {
    var whole := t + s;
    HeldIsShortest(whole, open);
    HeldIsShortest(s, open);
    var h, k := Held(whole, open), Held(s, open);
    SliceAfter(t, s, |whole| - h, |whole|);
    SliceAfter(t, s, |whole| - k, |whole|);
    if k > 0 { assert HoldsBack(whole, open, k); }
    if h > 0 { assert HoldsBack(s, open, h); }
  }

  lemma NoOpenInFirst(open: string, close: string, a: string, b: string)
    requires |open| + |close| > 0 && PrefixesUnbordered(open) && Scan(open, close, a) == NoOpen
    ensures Drain(open, close, a + b) == Prepend(Released(open, a), Drain(open, close, HeldBack(open, a) + b))
  {
    hide FindFrom, Held, OccursAt, HoldsBack, Drain;
    var t, s := Released(open, a), HeldBack(open, a) + b;
    assert a + b == t + s;
    FindIsLeftmost(a, open, 0);
    forall j: nat | j < |t|
      ensures !OccursAt(t + s, open, j)
    {
      NothingStartsBefore(open, a, b, j);
    }
    forall i: nat | i > |s|
      ensures !HoldsBack(t + s, open, i)
    {
      NothingHeldBefore(open, a, b, i);
    }
    HeldAfterRelease(open, t, s);
    DrainAfterRelease(open, close, t, s);
  }

  lemma UnclosedInFirst(open: string, close: string, a: string, b: string)
    requires |open| + |close| > 0 && Scan(open, close, a).Unclosed?
    ensures var r := Scan(open, close, a);
            Drain(open, close, a + b) == Prepend(r.gap, Drain(open, close, r.waiting + b))
  {
    hide FindFrom, OccursAt;
    var r := Scan(open, close, a);
    assert a + b == r.gap + (r.waiting + b);
    FindStable(a, b, open, 0);
    FindIsLeftmost(a + b, open, 0);
    DrainAfterRelease(open, close, r.gap, r.waiting + b);
  }

  lemma ClosedInFirst(open: string, close: string, a: string, b: string)
    requires Scan(open, close, a).Closed?
    ensures var r := Scan(open, close, a);
            Scan(open, close, a + b) == Closed(r.gap, r.content, r.after + b)
  {
    hide FindFrom;
    var o := FindFrom(a, open, 0);
    FindStable(a, b, open, 0);
    FindStable(a, b, close, o + |open|);
    var c := FindFrom(a, close, o + |open|);
    SliceBefore(a, b, 0, o);
    SliceBefore(a, b, o + |open|, c);
    SliceBefore(a, b, c, c + |close|);
  }

  /** Feeding `a` and then `b` finds what feeding `a + b` finds. */
  lemma {:induction false} FeedInTwo(open: string, close: string, a: string, b: string)
    requires |open| + |close| > 0 && PrefixesUnbordered(open)
    ensures var p := Drain(open, close, a);
            Drain(open, close, a + b) == Join(p, Drain(open, close, Rest(p) + b))
    decreases |a|
  {
    hide Scan;
    match Scan(open, close, a)
    case NoOpen => NoOpenInFirst(open, close, a, b);
    case Unclosed(_, _) => UnclosedInFirst(open, close, a, b);
    case Closed(_, _, after) =>
      ClosedInFirst(open, close, a, b);
      FeedInTwo(open, close, after, b);
  }

  lemma {:induction false} OfJoin(p: Parse, q: Parse)
    ensures Rest(Join(p, q)) == Rest(q)
    ensures Matches(Join(p, q)) == Matches(p) + Matches(q)
    ensures Text(Join(p, q)) == Text(p) + Text(q)
  {
    match p {
      case Done(tail, _) =>
        if q.Found? {
          assert (tail + q.gap) + Text(q.next) == tail + (q.gap + Text(q.next));
        }
      case Found(gap, _, next) =>
        OfJoin(next, q);
        assert gap + (Text(next) + Text(q)) == gap + Text(next) + Text(q);
    }
  }

  lemma DrainOfNothing(open: string, close: string)
    requires |open| + |close| > 0
    ensures Drain(open, close, "") == Done("", "")
  {
  }

  lemma {:induction false} FlattenOfConcat(a: seq<string>, b: seq<string>)
    ensures Flatten(a + b) == Flatten(a) + Flatten(b)
  {
    if b == [] {
      assert a + b == a;
    } else {
      var init, last := b[..|b| - 1], b[|b| - 1];
      assert b == init + [last] && a + b == (a + init) + [last];
      FlattenOfConcat(a, init);
      FlattenOfAppend(init, last);
      FlattenOfAppend(a + init, last);
    }
  }

  /** The segments the source returns are all of the text. */
  lemma {:induction false} SegmentsAreTheText(p: Parse)
    ensures Flatten(Segments(p)) == Text(p)
  {
    var first := if p.Done? then p.tail else p.gap;
    assert Flatten(NonEmpty(first)) == first by {
      if first != "" {
        assert NonEmpty(first)[1..] == [];
      }
    }
    if p.Found? {
      SegmentsAreTheText(p.next);
      FlattenOfConcat(NonEmpty(first), Segments(p.next));
    }
  }

  lemma {:induction false} FeedAllIsDrain(open: string, close: string, chunks: seq<string>)
    requires |open| + |close| > 0 && PrefixesUnbordered(open)
    ensures FeedAll(open, close, chunks) == Drain(open, close, Flatten(chunks))
  {
    hide Scan;
    if chunks == [] {
      DrainOfNothing(open, close);
    } else {
      var init, last := chunks[..|chunks| - 1], chunks[|chunks| - 1];
      assert chunks == init + [last];
      FlattenOfAppend(init, last);
      FeedAllIsDrain(open, close, init);
      FeedInTwo(open, close, Flatten(init), last);
    }
  }

  /** A first piece of `open` with a border releases part of itself as text. */
  lemma BorderedPieceLeaks(open: string, close: string, k: nat, i: nat)
    requires k < |open| && Border(open[..k], i)
    ensures Text(Drain(open, close, open[..k])) != ""
  {
    var a := open[..k];
    assert a[|a| - i..] == open[..i];
    assert HoldsBack(a, open, i);
    HeldIsShortest(a, open);
  }

  lemma WholeDelimiterWaits(open: string, close: string)
    requires open != ""
    ensures Text(Drain(open, close, open)) == ""
  {
  }

  lemma {:induction false} PrependNothing(p: Parse)
    ensures Prepend("", p) == p
  {
  }

  lemma FeedAllOfTwo(open: string, close: string, a: string, b: string)
    requires |open| + |close| > 0
    ensures Flatten([a, b]) == a + b
    ensures var p := Drain(open, close, a); FeedAll(open, close, [a, b]) == Join(p, Drain(open, close, Rest(p) + b))
  {
    hide Drain;
    var one: seq<string> := [a];
    assert [a, b][..1] == one && one[..0] == [];
    FlattenOfAppend([], a);
    FlattenOfAppend(one, b);
    assert [] + one == one && one + [b] == [a, b];
    assert "" + a == a;
    PrependNothing(Drain(open, close, a));
    assert FeedAll(open, close, one) == Drain(open, close, a);
  }

  ghost predicate ChunkingIrrelevant(open: string, close: string)
    requires |open| + |close| > 0
  {
    forall chunks: seq<string> ::
      var split, whole := FeedAll(open, close, chunks), Drain(open, close, Flatten(chunks));
      Text(split) == Text(whole) && Matches(split) == Matches(whole) && Rest(split) == Rest(whole)
  }

  /** The parser's output is independent of chunking exactly for delimiters `open`
      none of whose proper prefixes has a border. */
  lemma ChunkingIrrelevantIff(open: string, close: string)
    requires |open| + |close| > 0
    ensures ChunkingIrrelevant(open, close) <==> PrefixesUnbordered(open)
  {
    hide Drain, FeedAll, Text, Matches, Rest;
    if PrefixesUnbordered(open) {
      forall chunks: seq<string>
        ensures FeedAll(open, close, chunks) == Drain(open, close, Flatten(chunks))
      {
        FeedAllIsDrain(open, close, chunks);
      }
    } else {
      var k: nat, i: nat :| k < |open| && Border(open[..k], i);
      var a, b := open[..k], open[k..];
      BorderedPieceLeaks(open, close, k, i);
      WholeDelimiterWaits(open, close);
      FeedAllOfTwo(open, close, a, b);
      OfJoin(Drain(open, close, a), Drain(open, close, Rest(Drain(open, close, a)) + b));
      assert a + b == open;
      assert Text(FeedAll(open, close, [a, b])) != Text(Drain(open, close, Flatten([a, b])));
    }
  }

  lemma InputOfPrepend(open: string, close: string, t: string, q: Parse)
    ensures Input(open, close, Prepend(t, q)) == t + Input(open, close, q)
  {
  }

  lemma {:induction false} InputOfJoin(open: string, close: string, p: Parse, q: Parse, more: string)
    requires Input(open, close, q) == Rest(p) + more
    ensures Input(open, close, Join(p, q)) == Input(open, close, p) + more
  {
    match p {
      case Done(tail, rest) =>
        InputOfPrepend(open, close, tail, q);
        assert tail + (rest + more) == tail + rest + more;
      case Found(gap, content, next) =>
        InputOfJoin(open, close, next, q, more);
        assert gap + open + content + close + (Input(open, close, next) + more)
            == (gap + open + content + close + Input(open, close, next)) + more;
    }
  }

  /** For any delimiters and any chunking: text, delimited matches and buffer, in order, are what was fed. */
  lemma {:induction false} FeedAllConserves(open: string, close: string, chunks: seq<string>)
    requires |open| + |close| > 0
    ensures Input(open, close, FeedAll(open, close, chunks)) == Flatten(chunks)
  {
    if chunks != [] {
      var init, last := chunks[..|chunks| - 1], chunks[|chunks| - 1];
      assert chunks == init + [last];
      FlattenOfAppend(init, last);
      FeedAllConserves(open, close, init);
      var p := FeedAll(open, close, init);
      InputOfDrain(open, close, Rest(p) + last);
      InputOfJoin(open, close, p, Drain(open, close, Rest(p) + last), last);
    }
  }

  /** A delimiter for which it does: of "aab", the piece "aa" begins and ends with "a". */
  lemma BorderedDelimiterIsUnsafe(close: string)
    ensures !ChunkingIrrelevant("aab", close)
  {
    var open := "aab";
    assert open[..2][..1] == open[..2][1..];
    assert Border(open[..2], 1);
    ChunkingIrrelevantIff(open, close);
  }

  /** The IVR delimiter (space, backtick, space) is one of those for which chunking does not matter. */
  lemma IvrDelimiterIsSafe()
    ensures ChunkingIrrelevant(" ` ", " ` ")
  {
    var open := " ` ";
    forall k: nat, i: nat | k < |open|
      ensures !Border(open[..k], i)
    {
      if k == 2 && i == 1 {
        assert open[..2][..1][0] == ' ' && open[..2][1..][0] == '`';
      }
    }
    ChunkingIrrelevantIff(open, " ` ");
  }
}
