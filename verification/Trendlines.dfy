/** Auto-detected and chained trendlines (services/strategy/indicators.py). */
module Trendlines {
  import opened Prelude
  import opened Structure
  import Indicators

  datatype LineKind = Support | Resistance

  /** `level` is the price of the first anchor. */
  datatype Line = Line(kind: LineKind, idx1: nat, idx2: nat, level: real, slope: real, touches: nat, lastTouch: int)

  function ValueAt(line: Line, k: int): real {
    LineValue(line.idx1, line.level, line.slope, k)
  }

  function LineValue(idx: nat, level: real, slope: real, k: int): real {
    level + slope * (k - idx) as real
  }

  function Slope(a: Pivot, b: Pivot): real
    requires a.idx < b.idx
  {
    (b.level - a.level) / (b.idx - a.idx) as real
  }

  predicate Trending(kind: LineKind, slope: real) {
    if kind == Support then slope > 0.0 else slope < 0.0
  }

  /** The line passes through its end anchor. */
  lemma ValueAtEnd(a: Pivot, b: Pivot)
    requires a.idx < b.idx
    ensures LineValue(a.idx, a.level, Slope(a, b), b.idx) == b.level
  {
    var d := (b.idx - a.idx) as real;
    assert (b.level - a.level) / d * d == b.level - a.level;
  }

  lemma SlopeSign(a: Pivot, b: Pivot)
    requires a.idx < b.idx
    ensures Slope(a, b) > 0.0 <==> b.level > a.level
    ensures Slope(a, b) < 0.0 <==> b.level < a.level
  {
    var d, q := (b.idx - a.idx) as real, Slope(a, b);
    assert q * d == b.level - a.level;
    assert q > 0.0 ==> q * d > 0.0;
    assert q < 0.0 ==> -q * d > 0.0;
  }

  // ---------- touches ----------

  predicate Touched(wicks: seq<real>, a: Pivot, slope: real, tol: real, k: nat)
    requires k < |wicks|
  {
    Abs(wicks[k] - LineValue(a.idx, a.level, slope, k)) <= tol
  }

  function TouchCount(wicks: seq<real>, a: Pivot, slope: real, tol: real, hi: nat): nat
    requires hi <= |wicks|
  {
    if hi <= a.idx then 0
    else TouchCount(wicks, a, slope, tol, hi - 1) + (if Touched(wicks, a, slope, tol, hi - 1) then 1 else 0)
  }

  function LastTouch(wicks: seq<real>, a: Pivot, slope: real, tol: real, hi: nat): int
    requires hi <= |wicks|
  {
    if hi <= a.idx then -1
    else if Touched(wicks, a, slope, tol, hi - 1) then hi - 1
    else LastTouch(wicks, a, slope, tol, hi - 1)
  }

  lemma {:induction false} LastTouchRange(wicks: seq<real>, a: Pivot, slope: real, tol: real, hi: nat)
    requires hi <= |wicks|
    ensures -1 <= LastTouch(wicks, a, slope, tol, hi) < hi || (hi == 0 && LastTouch(wicks, a, slope, tol, hi) == -1)
  {
    if hi > a.idx && !Touched(wicks, a, slope, tol, hi - 1) {
      LastTouchRange(wicks, a, slope, tol, hi - 1);
    }
  }

  // ---------- best-scoring line ----------

  datatype Limits = Limits(minTouches: int, tol: real, recentBars: int)

  ghost predicate InRange(wicks: seq<real>, points: seq<Pivot>) {
    Sorted(points) && forall p :: 0 <= p < |points| ==> points[p].idx < |wicks|
  }

  /** The line through two swing points, if it qualifies. */
  function Candidate(kind: LineKind, wicks: seq<real>, a: Pivot, b: Pivot, lim: Limits): Option<Line>
    requires a.idx < b.idx < |wicks|
  {
    var slope := Slope(a, b);
    var touches := TouchCount(wicks, a, slope, lim.tol, b.idx + 1);
    var last := LastTouch(wicks, a, slope, lim.tol, b.idx + 1);
    if !Trending(kind, slope) || touches < lim.minTouches || last < |wicks| - lim.recentBars then None
    else Some(Line(kind, a.idx, b.idx, a.level, slope, touches, last))
  }

  function Score(line: Line): int {
    line.touches * 1000 + line.lastTouch
  }

  function Pick(best: Option<Line>, candidate: Option<Line>): Option<Line> {
    if candidate.Some? && (best.None? || Score(candidate.value) > Score(best.value)) then candidate else best
  }

  /** The best line once every pair before (i, j) in loop order has been tried. */
  function Best(kind: LineKind, wicks: seq<real>, points: seq<Pivot>, lim: Limits, i: nat, j: nat): Option<Line>
    requires InRange(wicks, points) && j <= |points| && i <= |points|
    decreases i, j
  {
    if j > i + 1 then
      Pick(Best(kind, wicks, points, lim, i, j - 1), Candidate(kind, wicks, points[i], points[j - 1], lim))
    else if i > 0 then Best(kind, wicks, points, lim, i - 1, |points|)
    else None
  }

  /** Python's `swings[-m:]` when there are more than `m` of them. */
  function LastSwings(swings: seq<Pivot>, m: nat): seq<Pivot> {
    if |swings| > m && m > 0 then swings[|swings| - m..] else swings
  }

  function BestLine(kind: LineKind, wicks: seq<real>, swings: seq<Pivot>, lim: Limits, maxSwings: nat): Option<Line>
    requires InRange(wicks, swings)
  {
    var points := LastSwings(swings, maxSwings);
    Best(kind, wicks, points, lim, |points|, |points|)
  }

  function ToSeq(line: Option<Line>): seq<Line> {
    if line.Some? then [line.value] else []
  }

  function Tolerance(toleranceAtr: real, atr: seq<Option<real>>): real {
    toleranceAtr * Indicators.NanMean(atr)
  }

  function Detected(highs: seq<real>, lows: seq<real>, swingHighs: seq<Pivot>, swingLows: seq<Pivot>, lim: Limits, maxSwings: nat):
    seq<Line>
    requires |highs| == |lows| && InRange(highs, swingHighs) && InRange(lows, swingLows)
  {
    if |highs| < 8 then []
    else ToSeq(BestLine(Support, lows, swingLows, lim, maxSwings))
         + ToSeq(BestLine(Resistance, highs, swingHighs, lim, maxSwings))
  }

  method CountTouches(wicks: seq<real>, a: Pivot, b: Pivot, slope: real, tol: real) returns (touches: nat, last: int)
    requires a.idx < b.idx < |wicks|
    ensures touches == TouchCount(wicks, a, slope, tol, b.idx + 1)
    ensures last == LastTouch(wicks, a, slope, tol, b.idx + 1)
  {
    hide Touched;
    touches, last := 0, -1;
    for k := a.idx to b.idx + 1
      invariant touches == TouchCount(wicks, a, slope, tol, k)
      invariant last == LastTouch(wicks, a, slope, tol, k)
    {
      if Touched(wicks, a, slope, tol, k) {
        touches, last := touches + 1, k;
      }
    }
  }

  method FindBest(kind: LineKind, wicks: seq<real>, points: seq<Pivot>, lim: Limits) returns (best: Option<Line>)
    requires InRange(wicks, points)
    ensures best == Best(kind, wicks, points, lim, |points|, |points|)
  {
    hide TouchCount, LastTouch, Slope;
    best := None;
    var m := |points|;
    for i := 0 to m
      invariant best == Best(kind, wicks, points, lim, i, 0)
    {
      for j := i + 1 to m
        invariant best == Best(kind, wicks, points, lim, i, j)
      {
        var a, b := points[i], points[j];
        var slope := Slope(a, b);
        if Trending(kind, slope) {
          var touches, last := CountTouches(wicks, a, b, slope, lim.tol);
          if touches >= lim.minTouches && last >= |wicks| - lim.recentBars {
            var line := Line(kind, a.idx, b.idx, a.level, slope, touches, last);
            if best.None? || Score(line) > Score(best.value) {
              best := Some(line);
            }
          }
        }
      }
      RowDone(kind, wicks, points, lim, i);
    }
    LastRowEmpty(kind, wicks, points, lim);
  }

  lemma RowDone(kind: LineKind, wicks: seq<real>, points: seq<Pivot>, lim: Limits, i: nat)
    requires InRange(wicks, points) && i < |points|
    ensures Best(kind, wicks, points, lim, i + 1, 0) == Best(kind, wicks, points, lim, i, |points|)
  {
  }

  lemma LastRowEmpty(kind: LineKind, wicks: seq<real>, points: seq<Pivot>, lim: Limits)
    requires InRange(wicks, points)
    ensures Best(kind, wicks, points, lim, |points|, |points|) == Best(kind, wicks, points, lim, |points|, 0)
  {
  }

  method DetectTrendlines(highs: seq<real>, lows: seq<real>, swingHighs: seq<Pivot>, swingLows: seq<Pivot>,
                          atr: seq<Option<real>>, minTouches: int, toleranceAtr: real, maxSwings: nat, recentBars: int)
    returns (lines: seq<Line>)
    requires |highs| == |lows| && InRange(highs, swingHighs) && InRange(lows, swingLows)
    ensures lines == Detected(highs, lows, swingHighs, swingLows,
                              Limits(minTouches, Tolerance(toleranceAtr, atr), recentBars), maxSwings)
  {
    hide Best, Tolerance;
    if |highs| < 8 {
      return [];
    }
    var lim := Limits(minTouches, Tolerance(toleranceAtr, atr), recentBars);
    var support := FindBest(Support, lows, LastSwings(swingLows, maxSwings), lim);
    var resistance := FindBest(Resistance, highs, LastSwings(swingHighs, maxSwings), lim);
    lines := ToSeq(support) + ToSeq(resistance);
  }

  // ---------- chained lines ----------

  predicate Violated(kind: LineKind, wicks: seq<real>, a: Pivot, slope: real, tol: real, k: nat)
    requires k < |wicks|
  {
    var v := LineValue(a.idx, a.level, slope, k);
    if kind == Support then wicks[k] < v - tol else wicks[k] > v + tol
  }

  /** Two consecutive swing points carry a segment: it points in the trend direction, no wick
      between the anchors violates it, and it is touched often enough. */
  ghost predicate ValidSegment(kind: LineKind, wicks: seq<real>, a: Pivot, b: Pivot, tol: real, minTouches: int)
    requires a.idx < b.idx < |wicks|
  {
    && (if kind == Support then b.level > a.level else b.level < a.level)
    && (forall k :: a.idx <= k <= b.idx ==> !Violated(kind, wicks, a, Slope(a, b), tol, k))
    && TouchCount(wicks, a, Slope(a, b), tol, b.idx + 1) >= minTouches
  }

  function Unviolated(kind: LineKind, wicks: seq<real>, a: Pivot, slope: real, tol: real, hi: nat): bool
    requires hi <= |wicks|
  {
    hi <= a.idx
    || (Unviolated(kind, wicks, a, slope, tol, hi - 1) && !Violated(kind, wicks, a, slope, tol, hi - 1))
  }

  function Segment(kind: LineKind, wicks: seq<real>, a: Pivot, b: Pivot, tol: real, minTouches: int): seq<Line>
    requires a.idx < b.idx < |wicks|
  {
    var slope := Slope(a, b);
    var touches := TouchCount(wicks, a, slope, tol, b.idx + 1);
    if Trending(kind, slope) && Unviolated(kind, wicks, a, slope, tol, b.idx + 1) && touches >= minTouches
    then [Line(kind, a.idx, b.idx, a.level, slope, touches, LastTouch(wicks, a, slope, tol, b.idx + 1))]
    else []
  }

  /** The segments that end at one of the first `n` points. */
  function ChainBelow(kind: LineKind, wicks: seq<real>, points: seq<Pivot>, tol: real, minTouches: int, n: nat): seq<Line>
    requires InRange(wicks, points) && n <= |points|
  {
    if n <= 1 then []
    else ChainBelow(kind, wicks, points, tol, minTouches, n - 1)
         + Segment(kind, wicks, points[n - 2], points[n - 1], tol, minTouches)
  }

  function Chained(highs: seq<real>, lows: seq<real>, swingHighs: seq<Pivot>, swingLows: seq<Pivot>, tol: real, minTouches: int):
    seq<Line>
    requires |highs| == |lows| && InRange(highs, swingHighs) && InRange(lows, swingLows)
  {
    if |highs| < 8 then []
    else ChainBelow(Support, lows, swingLows, tol, minTouches, |swingLows|)
         + ChainBelow(Resistance, highs, swingHighs, tol, minTouches, |swingHighs|)
  }

  method FindSegment(kind: LineKind, wicks: seq<real>, a: Pivot, b: Pivot, tol: real, minTouches: int) returns (line: seq<Line>)
    requires a.idx < b.idx < |wicks|
    ensures line == Segment(kind, wicks, a, b, tol, minTouches)
  {
    hide Touched, Violated, Slope;
    var slope := Slope(a, b);
    if !Trending(kind, slope) {
      return [];
    }
    var touches: nat, last: int, k := 0, -1, a.idx;
    while k <= b.idx
      invariant a.idx <= k <= b.idx + 1
      invariant Unviolated(kind, wicks, a, slope, tol, k)
      invariant touches == TouchCount(wicks, a, slope, tol, k)
      invariant last == LastTouch(wicks, a, slope, tol, k)
    {
      if Violated(kind, wicks, a, slope, tol, k) {
        ViolationStays(kind, wicks, a, slope, tol, k, b.idx + 1);
        return [];
      }
      if Touched(wicks, a, slope, tol, k) {
        touches, last := touches + 1, k;
      }
      k := k + 1;
    }
    if touches < minTouches {
      return [];
    }
    return [Line(kind, a.idx, b.idx, a.level, slope, touches, last)];
  }

  lemma {:induction false} ViolationStays(kind: LineKind, wicks: seq<real>, a: Pivot, slope: real, tol: real, k: nat, hi: nat)
    requires a.idx <= k < hi <= |wicks| && Violated(kind, wicks, a, slope, tol, k)
    ensures !Unviolated(kind, wicks, a, slope, tol, hi)
  {
    hide Violated;
    if k + 1 < hi {
      ViolationStays(kind, wicks, a, slope, tol, k, hi - 1);
    }
  }

  method FindChain(kind: LineKind, wicks: seq<real>, points: seq<Pivot>, tol: real, minTouches: int) returns (lines: seq<Line>)
    requires InRange(wicks, points)
    ensures lines == ChainBelow(kind, wicks, points, tol, minTouches, |points|)
  {
    hide Segment;
    lines := [];
    if |points| == 0 {
      return;
    }
    for i := 0 to |points| - 1
      invariant lines == ChainBelow(kind, wicks, points, tol, minTouches, i + 1)
    {
      var line := FindSegment(kind, wicks, points[i], points[i + 1], tol, minTouches);
      lines := lines + line;
    }
  }

  method ChainTrendlines(highs: seq<real>, lows: seq<real>, swingHighs: seq<Pivot>, swingLows: seq<Pivot>,
                         atr: seq<Option<real>>, toleranceAtr: real, minTouches: int)
    returns (lines: seq<Line>)
    requires |highs| == |lows| && InRange(highs, swingHighs) && InRange(lows, swingLows)
    ensures lines == Chained(highs, lows, swingHighs, swingLows, Tolerance(toleranceAtr, atr), minTouches)
  {
    hide ChainBelow, Tolerance;
    if |highs| < 8 {
      return [];
    }
    var tol := Tolerance(toleranceAtr, atr);
    var support := FindChain(Support, lows, swingLows, tol, minTouches);
    var resistance := FindChain(Resistance, highs, swingHighs, tol, minTouches);
    lines := support + resistance;
  }

  /** Every point sits on its own wick, as confirmed swings do. */
  ghost predicate OnWicks(wicks: seq<real>, points: seq<Pivot>) {
    InRange(wicks, points) && forall p :: 0 <= p < |points| ==> points[p].level == wicks[points[p].idx]
  }

  lemma {:induction false} UnviolatedIff(kind: LineKind, wicks: seq<real>, a: Pivot, slope: real, tol: real, hi: nat)
    requires hi <= |wicks|
    ensures Unviolated(kind, wicks, a, slope, tol, hi)
       <==> forall k :: a.idx <= k < hi ==> !Violated(kind, wicks, a, slope, tol, k)
  {
    hide Violated;
    if hi > a.idx {
      UnviolatedIff(kind, wicks, a, slope, tol, hi - 1);
    }
  }

  lemma {:induction false} TouchCountAtLeastFirst(wicks: seq<real>, a: Pivot, slope: real, tol: real, hi: nat)
    requires a.idx < hi <= |wicks| && Touched(wicks, a, slope, tol, a.idx)
    ensures TouchCount(wicks, a, slope, tol, hi) >= 1
  {
    hide Touched;
    if hi > a.idx + 1 {
      TouchCountAtLeastFirst(wicks, a, slope, tol, hi - 1);
    }
  }

  /** With both anchors on their wicks and a tolerance that is not negative, a segment exists
      exactly when it is valid, touches both anchors, and its last touch is its end anchor. */
  lemma SegmentIff(kind: LineKind, wicks: seq<real>, a: Pivot, b: Pivot, tol: real, minTouches: int)
    requires a.idx < b.idx < |wicks| && a.level == wicks[a.idx] && b.level == wicks[b.idx] && tol >= 0.0
    ensures var s := Segment(kind, wicks, a, b, tol, minTouches);
      && |s| <= 1 && (s != [] <==> ValidSegment(kind, wicks, a, b, tol, minTouches))
      && (s != [] ==> s[0].kind == kind && s[0].idx1 == a.idx && s[0].idx2 == b.idx && s[0].lastTouch == b.idx
                      && s[0].touches >= 2 && ValueAt(s[0], b.idx) == b.level)
  {
    hide Violated;
    var slope := Slope(a, b);
    ValueAtEnd(a, b);
    SlopeSign(a, b);
    UnviolatedIff(kind, wicks, a, slope, tol, b.idx + 1);
    assert LineValue(a.idx, a.level, slope, a.idx) == a.level;
    hide Slope, LineValue;
    assert Touched(wicks, a, slope, tol, b.idx) && Touched(wicks, a, slope, tol, a.idx);
    TouchCountAtLeastFirst(wicks, a, slope, tol, b.idx);
  }

  ghost predicate ValidAt(kind: LineKind, wicks: seq<real>, points: seq<Pivot>, tol: real, minTouches: int, p: nat)
    requires InRange(wicks, points) && p + 1 < |points|
  {
    ValidSegment(kind, wicks, points[p], points[p + 1], tol, minTouches)
  }

  ghost predicate Joins(line: Line, points: seq<Pivot>, p: nat)
    requires p + 1 < |points|
  {
    line.idx1 == points[p].idx && line.idx2 == points[p + 1].idx
  }

  /** `lines` are, in order, the valid segments between neighbours among the first `n` points. */
  ghost predicate ChainSpec(kind: LineKind, wicks: seq<real>, points: seq<Pivot>, tol: real, minTouches: int, n: nat,
                            lines: seq<Line>)
    requires InRange(wicks, points) && n <= |points|
  {
    && (forall x :: 0 <= x < |lines| ==> SegmentOf(kind, wicks, points, tol, minTouches, n, lines[x]))
    && InOrder(lines)
    && (forall p :: 0 <= p < n - 1 && ValidAt(kind, wicks, points, tol, minTouches, p) ==> StartsAt(lines, points[p].idx))
  }

  /** End to end: each line starts no earlier than the ones before it end. */
  ghost predicate InOrder(lines: seq<Line>) {
    forall x, y :: 0 <= x < y < |lines| ==> lines[x].idx2 <= lines[y].idx1
  }

  ghost predicate StartsAt(lines: seq<Line>, idx: nat) {
    exists x :: 0 <= x < |lines| && lines[x].idx1 == idx
  }

  lemma StartsAtAppend(before: seq<Line>, s: seq<Line>, idx: nat)
    requires StartsAt(before, idx) || StartsAt(s, idx)
    ensures StartsAt(before + s, idx)
  {
    var lines := before + s;
    if x :| 0 <= x < |before| && before[x].idx1 == idx {
      assert lines[x].idx1 == idx;
    } else {
      var x :| 0 <= x < |s| && s[x].idx1 == idx;
      assert lines[|before| + x].idx1 == idx;
    }
  }

  /** The line joins two neighbouring points, is valid, is touched at both anchors, and is
      anchored in time at its end. */
  ghost predicate SegmentOf(kind: LineKind, wicks: seq<real>, points: seq<Pivot>, tol: real, minTouches: int, n: nat, line: Line)
    requires InRange(wicks, points) && n <= |points|
  {
    && line.kind == kind && line.touches >= 2 && line.lastTouch == line.idx2
    && exists p :: 0 <= p < n - 1 && ValidAt(kind, wicks, points, tol, minTouches, p) && Joins(line, points, p)
  }

  lemma SegmentExtends(kind: LineKind, wicks: seq<real>, points: seq<Pivot>, tol: real, minTouches: int, n: nat, line: Line)
    requires InRange(wicks, points) && n < |points| && SegmentOf(kind, wicks, points, tol, minTouches, n, line)
    ensures SegmentOf(kind, wicks, points, tol, minTouches, n + 1, line) && (n >= 1 ==> line.idx2 <= points[n - 1].idx)
  {
    hide ValidAt;
    var p :| 0 <= p < n - 1 && ValidAt(kind, wicks, points, tol, minTouches, p) && Joins(line, points, p);
    assert p + 1 <= n - 1;
  }

  lemma ChainStep(kind: LineKind, wicks: seq<real>, points: seq<Pivot>, tol: real, minTouches: int, n: nat, before: seq<Line>)
    requires OnWicks(wicks, points) && 1 <= n < |points| && tol >= 0.0
    requires ChainSpec(kind, wicks, points, tol, minTouches, n, before)
    ensures ChainSpec(kind, wicks, points, tol, minTouches, n + 1,
                      before + Segment(kind, wicks, points[n - 1], points[n], tol, minTouches))
  {
    var s := Segment(kind, wicks, points[n - 1], points[n], tol, minTouches);
    SegmentIff(kind, wicks, points[n - 1], points[n], tol, minTouches);
    assert s != [] <==> ValidAt(kind, wicks, points, tol, minTouches, n - 1);
    assert s != [] ==> Joins(s[0], points, n - 1) && SegmentOf(kind, wicks, points, tol, minTouches, n + 1, s[0]);
    assert s != [] ==> StartsAt(s, points[n - 1].idx);
    hide ValidAt, Segment, SegmentOf, Joins, StartsAt, InOrder;
    forall x | 0 <= x < |before|
      ensures SegmentOf(kind, wicks, points, tol, minTouches, n + 1, before[x]) && before[x].idx2 <= points[n - 1].idx
    {
      SegmentExtends(kind, wicks, points, tol, minTouches, n, before[x]);
    }
    OrderAppend(before, s, points[n - 1].idx);
    forall p | 0 <= p < n && ValidAt(kind, wicks, points, tol, minTouches, p)
      ensures StartsAt(before + s, points[p].idx)
    {
      StartsAtAppend(before, s, points[p].idx);
    }
  }

  lemma OrderAppend(before: seq<Line>, s: seq<Line>, limit: nat)
    requires InOrder(before) && |s| <= 1 && (s != [] ==> s[0].idx1 == limit)
    requires forall x :: 0 <= x < |before| ==> before[x].idx2 <= limit
    ensures InOrder(before + s)
  {
  }

  /** `chain_trendlines` returns exactly the valid segments between consecutive swings, in order
      and without overlap, each with its last touch at its end anchor. */
  lemma {:induction false} ChainIsExact(kind: LineKind, wicks: seq<real>, points: seq<Pivot>, tol: real, minTouches: int, n: nat)
    requires OnWicks(wicks, points) && n <= |points| && tol >= 0.0
    ensures ChainSpec(kind, wicks, points, tol, minTouches, n, ChainBelow(kind, wicks, points, tol, minTouches, n))
  {
    hide ChainSpec, Segment;
    if n <= 1 {
      EmptyChain(kind, wicks, points, tol, minTouches, n);
    } else {
      ChainIsExact(kind, wicks, points, tol, minTouches, n - 1);
      ChainStep(kind, wicks, points, tol, minTouches, n - 1, ChainBelow(kind, wicks, points, tol, minTouches, n - 1));
    }
  }

  lemma EmptyChain(kind: LineKind, wicks: seq<real>, points: seq<Pivot>, tol: real, minTouches: int, n: nat)
    requires InRange(wicks, points) && n <= |points| && n <= 1
    ensures ChainSpec(kind, wicks, points, tol, minTouches, n, [])
  {
  }
}
