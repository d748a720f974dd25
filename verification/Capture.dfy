/** The stream logic of the capture checker (tools/analyze_capture.py): splitting the pulses of a channel
    at its reset gaps, chunk by chunk, and following a cyclic sequence of colours. Timestamps are reals. */
module Capture {
  import opened Arithmetic
  import opened Wrappers

  /** A digital channel: its level at the beginning and the times at which it toggles. */
  datatype Channel = Channel(initial: nat, begin: real, end: real, transitions: seq<real>)

  predicate ValidChannel(c: Channel) {
    && c.initial <= 1 && c.begin < c.end
    && (forall i :: 0 <= i < |c.transitions| ==> c.begin <= c.transitions[i] <= c.end)
    && forall i, j :: 0 <= i < j < |c.transitions| ==> c.transitions[i] < c.transitions[j]
  }

  /** Every second element from `first` on. */
  function Strided(s: seq<real>, first: nat): seq<real> {
    seq(if |s| > first then (|s| - first + 1) / 2 else 0, i requires 0 <= i && first + 2 * i < |s| => s[first + 2 * i])
  }

  /** The pulses of a channel as the analysis sees them: when the level went low before the first rise, the
      rising and falling edges, and the end of the capture. */
  datatype Pulses = Pulses(lowSince: real, rises: seq<real>, falls: seq<real>, end: real)

  function PulsesOf(c: Channel): Pulses {
    Pulses(if c.initial != 0 && c.transitions != [] then c.transitions[0] else c.begin,
           Strided(c.transitions, c.initial), Strided(c.transitions, c.initial + 1), c.end)
  }

  /** Rises and falls alternate, beginning with a rise. */
  predicate Alternating(p: Pulses) {
    && |p.falls| <= |p.rises| <= |p.falls| + 1
    && (forall i :: 0 <= i < |p.falls| ==> p.rises[i] < p.falls[i])
    && (forall i :: 0 <= i < |p.rises| - 1 ==> p.falls[i] < p.rises[i + 1])
  }

  lemma PulsesAlternate(c: Channel)
    requires ValidChannel(c)
    ensures Alternating(PulsesOf(c))
  {
  }

  // ---------------------------------------------------------------- reset gaps

  function Gaps(p: Pulses): nat { if |p.rises| > 0 then |p.rises| - 1 else 0 }

  /** The low between pulse i and the next is at least the separator. */
  predicate ResetGap(p: Pulses, i: nat, separator: real) {
    i < |p.falls| && i + 1 < |p.rises| && p.rises[i + 1] - p.falls[i] >= separator
  }

  /** The first rises after the reset gaps from gap `from` up to gap `to`. */
  function Edges(p: Pulses, separator: real, from: nat, to: nat): seq<int>
    requires from <= to
  {
    if from == to then []
    else Edges(p, separator, from, to - 1) + if ResetGap(p, to - 1, separator) then [to] else []
  }

  /** Exactly the reset gaps are found, in order. */
  lemma {:induction false} EdgesExact(p: Pulses, separator: real, k: nat)
    ensures forall e :: e in Edges(p, separator, 0, k) <==> 1 <= e <= k && ResetGap(p, e - 1, separator)
    ensures forall i, j :: 0 <= i < j < |Edges(p, separator, 0, k)| ==>
              Edges(p, separator, 0, k)[i] < Edges(p, separator, 0, k)[j]
  {
    hide ResetGap;
    if k > 0 {
      EdgesExact(p, separator, k - 1);
      var before := Edges(p, separator, 0, k - 1);
      assert forall i :: 0 <= i < |before| ==> before[i] in before;
    }
  }

  lemma {:induction false} EdgesSplit(p: Pulses, separator: real, from: nat, to: nat)
    requires from <= to
    ensures Edges(p, separator, 0, to) == Edges(p, separator, 0, from) + Edges(p, separator, from, to)
  {
    if from < to {
      EdgesSplit(p, separator, from, to - 1);
    } else {
      assert Edges(p, separator, 0, from) + [] == Edges(p, separator, 0, from);
    }
  }

  /** The edge search of analyze_channel: pulses are taken in chunks of any size, and a gap belongs to the
      chunk of the pulse before it. The result does not depend on the chunk size: each gap is visited once. */
  method FindEdges(p: Pulses, separator: real, chunk: nat) returns (edges: seq<int>)
    requires Alternating(p) && chunk > 0
    ensures edges == Edges(p, separator, 0, Gaps(p))
  {
    edges := [];
    var n := |p.falls|;
    var offset := 0;
    while offset < n
      invariant edges == Edges(p, separator, 0, if offset < Gaps(p) then offset else Gaps(p))
      decreases n - offset
    {
      var stop := if offset + chunk < n then offset + chunk else n;
      var gapStop := if stop < |p.rises| - 1 then stop else |p.rises| - 1;
      if gapStop > offset {
        EdgesSplit(p, separator, offset, gapStop);
        var found := SearchChunk(p, separator, offset, gapStop);
        edges := edges + found;
      }
      offset := offset + chunk;
    }
  }

  /** The gaps of one chunk. */
  method SearchChunk(p: Pulses, separator: real, offset: nat, gapStop: nat) returns (edges: seq<int>)
    requires Alternating(p) && offset <= gapStop < |p.rises|
    ensures edges == Edges(p, separator, offset, gapStop)
  {
    edges := [];
    for i := offset to gapStop
      invariant edges == Edges(p, separator, offset, i)
    {
      if p.rises[i + 1] - p.falls[i] >= separator { edges := edges + [i + 1]; }
    }
  }

  // ---------------------------------------------------------------- segments

  /** A run of pulses between two boundaries, and whether both of its ends were observed. */
  datatype Segment = Segment(start: nat, stop: nat, complete: bool)

  /** An observed reset before the segment or, at the very beginning, a long enough low. */
  predicate Leading(p: Pulses, start: nat, boundary: real) {
    start > 0 || (|p.rises| > 0 && p.rises[0] - p.lowSince >= boundary)
  }

  /** An observed reset after it or, at the very end, a long enough low. */
  predicate Trailing(p: Pulses, stop: nat, boundary: real) {
    stop < |p.rises| || (0 < stop <= |p.falls| && p.end - p.falls[stop - 1] >= boundary)
  }

  function Judged(p: Pulses, start: nat, stop: nat, boundary: real): Segment {
    Segment(start, stop, Leading(p, start, boundary) && Trailing(p, stop, boundary) && stop <= |p.falls|)
  }

  type Bounds = b: seq<int> | |b| >= 2 && forall i :: 0 <= i < |b| ==> 0 <= b[i] witness [0, 0]

  /** The segments among the first k pairs of neighbouring boundaries. */
  function Segments(p: Pulses, boundary: real, b: Bounds, k: nat): seq<Segment>
    requires k < |b|
  {
    if k == 0 then []
    else Segments(p, boundary, b, k - 1) + if b[k - 1] == b[k] then [] else [Judged(p, b[k - 1], b[k], boundary)]
  }

  function BoundsOf(p: Pulses, separator: real): Bounds {
    EdgesExact(p, separator, Gaps(p));
    var e := Edges(p, separator, 0, Gaps(p));
    assert forall i :: 0 <= i < |e| ==> e[i] in e;
    [0] + e + [|p.rises|]
  }

  function AllSegments(p: Pulses, separator: real, boundary: real): seq<Segment> {
    var b := BoundsOf(p, separator);
    Segments(p, boundary, b, |b| - 1)
  }

  /** The segment loop of analyze_channel: complete and partial segments apart, and the bits of the former. */
  method Split(p: Pulses, separator: real, boundary: real, chunk: nat)
    returns (frames: seq<Segment>, partials: seq<Segment>, completeBits: int)
    requires Alternating(p) && chunk > 0
    ensures var all := AllSegments(p, separator, boundary);
            && frames == Chosen(all, true) && partials == Chosen(all, false)
            && completeBits == Bits(frames) && Bits(frames) + Bits(partials) == |p.rises|
  {
    hide *;
    var edges := FindEdges(p, separator, chunk);
    var b := BoundsOf(p, separator);
    BoundsAre(p, separator);
    assert b == [0] + edges + [|p.rises|];
    frames, partials, completeBits := [], [], 0;
    ChosenNone();
    NoSegments(p, boundary, b);
    for k := 1 to |b|
      invariant frames == Chosen(Segments(p, boundary, b, k - 1), true)
      invariant partials == Chosen(Segments(p, boundary, b, k - 1), false)
      invariant completeBits == Bits(frames)
    {
      NextSegment(p, boundary, b, k);
      if b[k] == b[k - 1] { continue; }
      var s := Judged(p, b[k - 1], b[k], boundary);
      JudgedSpan(p, b[k - 1], b[k], boundary);
      ChosenNext(Segments(p, boundary, b, k - 1), s);
      BitsNext(frames, s);
      if s.complete {
        frames := frames + [s];
        completeBits := completeBits + b[k] - b[k - 1];
      } else {
        partials := partials + [s];
      }
    }
    AllSegmentsAre(p, separator, boundary);
    SegmentsPartition(p, separator, boundary);
    ChosenBits(AllSegments(p, separator, boundary));
  }

  lemma BoundsAre(p: Pulses, separator: real)
    ensures BoundsOf(p, separator) == [0] + Edges(p, separator, 0, Gaps(p)) + [|p.rises|]
  {
  }

  lemma NoSegments(p: Pulses, boundary: real, b: Bounds)
    ensures Segments(p, boundary, b, 0) == []
  {
  }

  lemma NextSegment(p: Pulses, boundary: real, b: Bounds, k: nat)
    requires 0 < k < |b|
    ensures var before := Segments(p, boundary, b, k - 1);
            Segments(p, boundary, b, k) == if b[k - 1] == b[k] then before else before + [Judged(p, b[k - 1], b[k], boundary)]
  {
    var before := Segments(p, boundary, b, k - 1);
    assert before + [] == before;
  }

  lemma AllSegmentsAre(p: Pulses, separator: real, boundary: real)
    ensures var b := BoundsOf(p, separator); AllSegments(p, separator, boundary) == Segments(p, boundary, b, |b| - 1)
  {
  }

  function Chosen(s: seq<Segment>, complete: bool): seq<Segment> {
    if s == [] then []
    else Chosen(s[..|s| - 1], complete) + if s[|s| - 1].complete == complete then [s[|s| - 1]] else []
  }

  lemma ChosenNone()
    ensures Chosen([], true) == Chosen([], false) == [] && Bits([]) == 0
  {
  }

  lemma ChosenNext(s: seq<Segment>, x: Segment)
    ensures forall complete :: Chosen(s + [x], complete) == Chosen(s, complete) + if x.complete == complete then [x] else []
  {
    assert (s + [x])[..|s|] == s;
  }

  function Bits(s: seq<Segment>): int {
    if s == [] then 0 else Bits(s[..|s| - 1]) + s[|s| - 1].stop - s[|s| - 1].start
  }

  lemma BitsNext(s: seq<Segment>, x: Segment)
    ensures Bits(s + [x]) == Bits(s) + x.stop - x.start
  {
    assert (s + [x])[..|s|] == s;
  }

  lemma {:induction false} ChosenBits(s: seq<Segment>)
    ensures Bits(Chosen(s, true)) + Bits(Chosen(s, false)) == Bits(s)
  {
    if s != [] {
      var before, x := s[..|s| - 1], s[|s| - 1];
      ChosenBits(before);
      BitsNext(Chosen(before, x.complete), x);
      assert Chosen(before, !x.complete) + [] == Chosen(before, !x.complete);
    }
  }

  /** What one segment promises: a nonempty run without an internal reset gap, ended on both sides by a reset
      gap or an end of the capture; and only at an end of the capture can it be partial. */
  predicate WellCut(p: Pulses, separator: real, s: Segment) {
    && s.start < s.stop <= |p.rises|
    && (forall i :: s.start <= i < s.stop - 1 ==> !ResetGap(p, i, separator))
    && (s.start > 0 ==> ResetGap(p, s.start - 1, separator))
    && (s.stop < |p.rises| ==> ResetGap(p, s.stop - 1, separator))
    && (!s.complete ==> s.start == 0 || s.stop == |p.rises|)
  }

  /** Segments that follow on each other from one rise to another. */
  predicate Chained(s: seq<Segment>, from: nat, to: nat) {
    if s == [] then from == to
    else
      var last := s[|s| - 1];
      last.start < last.stop == to && Chained(s[..|s| - 1], from, last.start)
  }

  lemma BoundsAscend(p: Pulses, separator: real)
    requires Alternating(p)
    ensures var b := BoundsOf(p, separator);
            && b[0] == 0 && b[|b| - 1] == |p.rises|
            && (|p.rises| > 0 ==> forall i, j :: 0 <= i < j < |b| ==> b[i] < b[j])
            && (|p.rises| == 0 ==> b == [0, 0])
            && forall i :: 0 < i < |b| - 1 ==> 1 <= b[i] && ResetGap(p, b[i] - 1, separator)
  {
    hide ResetGap;
    EdgesExact(p, separator, Gaps(p));
    var e := Edges(p, separator, 0, Gaps(p));
    assert forall i :: 0 <= i < |e| ==> e[i] in e;
  }

  lemma BoundAt(b: seq<int>, e: seq<int>, last: int, j: nat)
    requires b == [0] + e + [last] && j < |e|
    ensures b[j + 1] == e[j]
  {
  }

  /** No reset gap lies strictly between two neighbouring boundaries. */
  lemma NoResetBetween(p: Pulses, separator: real, k: nat)
    requires Alternating(p) && 0 < k < |BoundsOf(p, separator)|
    ensures var b := BoundsOf(p, separator);
            forall i: nat :: b[k - 1] <= i < b[k] - 1 ==> !ResetGap(p, i, separator)
  {
    BoundsAscend(p, separator);
    EdgesExact(p, separator, Gaps(p));
    var b, e := BoundsOf(p, separator), Edges(p, separator, 0, Gaps(p));
    hide Edges, ResetGap;
    forall x | x in e ensures !(b[k - 1] < x < b[k]) {
      var j :| 0 <= j < |e| && e[j] == x;
      BoundAt(b, e, |p.rises|, j);
    }
    forall i: nat | b[k - 1] <= i < b[k] - 1 ensures !ResetGap(p, i, separator) {
      assert i + 1 !in e;
      assert b[k] <= |p.rises|;
    }
  }

  lemma JudgedWellCut(p: Pulses, separator: real, boundary: real, k: nat)
    requires Alternating(p) && 0 < k < |BoundsOf(p, separator)|
    requires BoundsOf(p, separator)[k - 1] != BoundsOf(p, separator)[k]
    ensures var b := BoundsOf(p, separator); WellCut(p, separator, Judged(p, b[k - 1], b[k], boundary))
  {
    BoundsAscend(p, separator);
    NoResetBetween(p, separator, k);
    var b := BoundsOf(p, separator);
    hide BoundsOf;
    if b[k] < |p.rises| { assert k < |b| - 1; assert ResetGap(p, b[k] - 1, separator); }
    if b[k - 1] > 0 { assert ResetGap(p, b[k - 1] - 1, separator); }
  }

  lemma {:induction false} SegmentsChained(p: Pulses, separator: real, boundary: real, k: nat)
    requires Alternating(p) && k < |BoundsOf(p, separator)|
    ensures var s := Segments(p, boundary, BoundsOf(p, separator), k);
            Chained(s, 0, BoundsOf(p, separator)[k]) && forall i :: 0 <= i < |s| ==> WellCut(p, separator, s[i])
  {
    hide BoundsOf, WellCut, Judged, ResetGap;
    var b := BoundsOf(p, separator);
    BoundsAscend(p, separator);
    if k > 0 {
      SegmentsChained(p, separator, boundary, k - 1);
      var before := Segments(p, boundary, b, k - 1);
      if b[k - 1] != b[k] {
        var s := Judged(p, b[k - 1], b[k], boundary);
        JudgedWellCut(p, separator, boundary, k);
        JudgedSpan(p, b[k - 1], b[k], boundary);
        assert (before + [s])[..|before|] == before;
      } else {
        assert before + [] == before;
      }
    }
  }

  lemma JudgedSpan(p: Pulses, start: nat, stop: nat, boundary: real)
    ensures Judged(p, start, stop, boundary).start == start && Judged(p, start, stop, boundary).stop == stop
  {
  }

  lemma {:induction false} ChainedBits(s: seq<Segment>, from: nat, to: nat)
    requires Chained(s, from, to)
    ensures Bits(s) == to - from
  {
    if s != [] { ChainedBits(s[..|s| - 1], from, s[|s| - 1].start); }
  }

  predicate Holds(s: seq<Segment>, i: int, r: nat) {
    0 <= i < |s| && s[i].start <= r < s[i].stop
  }

  /** Exactly one segment holds the rise. */
  ghost predicate HeldOnce(s: seq<Segment>, r: nat) {
    exists i :: Holds(s, i, r) && forall j :: Holds(s, j, r) ==> j == i
  }

  lemma {:induction false} ChainedInside(s: seq<Segment>, from: nat, to: nat)
    requires Chained(s, from, to)
    ensures from <= to && forall i :: 0 <= i < |s| ==> from <= s[i].start < s[i].stop <= to
  {
    if s != [] {
      var n := |s| - 1;
      ChainedInside(s[..n], from, s[n].start);
      forall i | 0 <= i < |s| ensures from <= s[i].start < s[i].stop <= to {
        if i < n { assert s[..n][i] == s[i]; }
      }
    }
  }

  lemma {:induction false} ChainedHolds(s: seq<Segment>, from: nat, to: nat, r: nat)
    requires Chained(s, from, to) && from <= r < to
    ensures HeldOnce(s, r)
  {
    var n := |s| - 1;
    var front, start := s[..n], s[n].start;
    ChainedInside(front, from, start);
    forall j | Holds(s, j, r) ensures r >= start ==> j == n {
      if j < n { assert front[j] == s[j]; }
    }
    if r >= start {
      assert Holds(s, n, r);
    } else {
      ChainedHolds(front, from, start, r);
      var i :| Holds(front, i, r) && forall j :: Holds(front, j, r) ==> j == i;
      assert Holds(s, i, r);
      forall j | Holds(s, j, r) ensures j == i { assert j < n; assert Holds(front, j, r); }
    }
  }

  /** In a chain only the first segment starts at its beginning and only the last stops at its end. */
  lemma {:induction false} OnlyEndsTouch(s: seq<Segment>, from: nat, to: nat, i: nat)
    requires Chained(s, from, to) && i < |s|
    ensures s[i].start == from ==> i == 0
    ensures s[i].stop == to ==> i == |s| - 1
  {
    var n := |s| - 1;
    var front := s[..n];
    ChainedInside(front, from, s[n].start);
    if i < n {
      OnlyEndsTouch(front, from, s[n].start, i);
      assert front[i] == s[i];
    } else if n > 0 {
      assert front[0].start >= from;
    }
  }

  /** The segmentation of a capture: the segments partition all rises, none contains a reset gap, only the
      first and the last can be partial, and their bits add up to the number of rises. */
  lemma SegmentsPartition(p: Pulses, separator: real, boundary: real)
    requires Alternating(p)
    ensures var s := AllSegments(p, separator, boundary);
            && Bits(s) == |p.rises|
            && (forall i :: 0 <= i < |s| ==> WellCut(p, separator, s[i]) && (!s[i].complete ==> i == 0 || i == |s| - 1))
            && (forall r :: 0 <= r < |p.rises| ==> HeldOnce(s, r))
  {
    hide Segments, BoundsOf, ResetGap, Chained, Bits, HeldOnce;
    BoundsAscend(p, separator);
    var s := AllSegments(p, separator, boundary);
    SegmentsChained(p, separator, boundary, |BoundsOf(p, separator)| - 1);
    ChainedBits(s, 0, |p.rises|);
    forall r | 0 <= r < |p.rises| ensures HeldOnce(s, r) { ChainedHolds(s, 0, |p.rises|, r); }
    forall i | 0 <= i < |s| && !s[i].complete ensures i == 0 || i == |s| - 1 {
      assert WellCut(p, separator, s[i]);
      OnlyEndsTouch(s, 0, |p.rises|, i);
    }
  }

  // ---------------------------------------------------------------- cyclic colour sequences

  type Color = string
  type Cycle = s: seq<Color> | |s| > 0 witness ["000000"]

  function Successor(cycle: Cycle, i: nat): (j: nat)
    requires i < |cycle|
    ensures j < |cycle|
  {
    (i + 1) % |cycle|
  }

  /** Phase p explains the run: its last colour is at p, the one before it at p - 1, and so on round the cycle. */
  predicate Explains(cycle: Cycle, p: int, run: seq<Color>) {
    forall j {:trigger run[j]} :: 0 <= j < |run| ==> At(cycle, p - (|run| - 1) + j) == run[j]
  }

  /** The colour of the cycle at any integer position. */
  function At(cycle: Cycle, x: int): Color { cycle[x % |cycle|] }

  /** The phases that explain a run. */
  function Phases(cycle: Cycle, run: seq<Color>): set<int> {
    set p | 0 <= p < |cycle| && Explains(cycle, p, run)
  }

  /** One more colour: the phases move on by one, and those that fit stay. */
  lemma PhasesNext(cycle: Cycle, run: seq<Color>, color: Color)
    requires run != []
    ensures Phases(cycle, run + [color]) ==
              set i | i in Phases(cycle, run) && cycle[Successor(cycle, i)] == color :: Successor(cycle, i)
  {
    var n := |cycle|;
    var longer := run + [color];
    forall p | 0 <= p < n
      ensures p in Phases(cycle, longer) <==>
                exists i :: i in Phases(cycle, run) && cycle[Successor(cycle, i)] == color && Successor(cycle, i) == p
    {
      var i := if p == 0 then n - 1 else p - 1;
      SuccessorIs(cycle, i);
      StepBack(cycle, p, i, run, color);
      if k :| k in Phases(cycle, run) && Successor(cycle, k) == p {
        SuccessorIs(cycle, k);
        assert k == i;
      }
    }
  }

  lemma SuccessorIs(cycle: Cycle, i: nat)
    requires i < |cycle|
    ensures Successor(cycle, i) == if i + 1 == |cycle| then 0 else i + 1
  {
  }

  lemma StepBack(cycle: Cycle, p: nat, i: nat, run: seq<Color>, color: Color)
    requires p < |cycle| && i == if p == 0 then |cycle| - 1 else p - 1
    ensures Explains(cycle, p, run + [color]) <==> Explains(cycle, i, run) && cycle[p] == color
  {
    hide At;
    var k := |run|;
    var longer := run + [color];
    assert At(cycle, p) == cycle[p] by { AtHome(cycle, p); }
    assert longer[k] == color;
    if Explains(cycle, p, longer) {
      forall j | 0 <= j < k ensures At(cycle, i - (k - 1) + j) == run[j] {
        assert longer[j] == run[j];
        AtShift(cycle, p - k + j);
      }
    }
    if Explains(cycle, i, run) && cycle[p] == color {
      forall j | 0 <= j < |longer| ensures At(cycle, p - k + j) == longer[j] {
        if j < k {
          assert longer[j] == run[j];
          AtShift(cycle, p - k + j);
        }
      }
    }
  }

  lemma AtShift(cycle: Cycle, x: int)
    ensures At(cycle, x + |cycle|) == At(cycle, x)
  {
    AddMultiple(x, |cycle|, 1);
  }

  lemma AtHome(cycle: Cycle, p: nat)
    requires p < |cycle|
    ensures At(cycle, p) == cycle[p]
  {
  }

  lemma PhasesInside(cycle: Cycle, run: seq<Color>)
    ensures forall i :: i in Phases(cycle, run) ==> 0 <= i < |cycle|
  {
  }

  lemma NoPhases(cycle: Cycle, run: seq<Color>)
    ensures Phases(cycle, run) == {} <==> forall p :: 0 <= p < |cycle| ==> !Explains(cycle, p, run)
  {
    hide Explains;
    assert forall p :: p in Phases(cycle, run) <==> 0 <= p < |cycle| && Explains(cycle, p, run);
  }

  lemma FirstPhases(cycle: Cycle, color: Color)
    ensures Phases(cycle, [color]) == set i | 0 <= i < |cycle| && cycle[i] == color
  {
    forall p | 0 <= p < |cycle| ensures Explains(cycle, p, [color]) <==> cycle[p] == color {
      AtHome(cycle, p);
      assert [color][0] == color;
    }
  }

  /** The colours seen in complete frames, followed along a cyclic sequence. */
  class Tracker {
    const cycle: Cycle
    var positions: Option<set<int>>
    var violations: nat
    // The colours since the last start.
    ghost var run: seq<Color>

    ghost predicate Valid()
      reads this
    {
      && (positions.None? <==> run == [])
      && (positions.Some? ==> positions.value == Phases(cycle, run) && positions.value != {})
    }

    constructor (c: Cycle)
      ensures Valid() && cycle == c && run == [] && violations == 0
    {
      cycle := c;
      positions, violations, run := None, 0, [];
    }

    /** One more colour. A violation is reported exactly when no phase of the cycle explains the colours seen
        since the last start; tracking then starts afresh with the next colour. */
    method Observe(color: Color) returns (violation: bool)
      requires Valid()
      modifies this`positions, this`violations, this`run
      ensures Valid()
      ensures violation <==> forall p :: 0 <= p < |cycle| ==> !Explains(cycle, p, old(run) + [color])
      ensures run == if violation then [] else old(run) + [color]
      ensures violations == old(violations) + if violation then 1 else 0
      ensures !violation ==> positions == Some(Phases(cycle, old(run) + [color]))
    {
      hide Explains, Phases, Successor;
      NoPhases(cycle, run + [color]);
      var next: set<int>;
      if positions.None? {
        next := set i | 0 <= i < |cycle| && cycle[i] == color;
        FirstPhases(cycle, color);
        assert run + [color] == [color];
      } else {
        PhasesInside(cycle, run);
        next := set i | i in positions.value && cycle[Successor(cycle, i)] == color :: Successor(cycle, i);
        PhasesNext(cycle, run, color);
      }
      assert next == Phases(cycle, run + [color]);
      violation := next == {};
      if violation {
        violations := violations + 1;
        positions, run := None, [];
      } else {
        positions, run := Some(next), run + [color];
      }
    }
  }
}
