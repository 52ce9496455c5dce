/** What the pair search of `detect_trendlines` picks (services/strategy/indicators.py): the first
    line of the highest score, and when that is the line with the most touches. */
module TrendlineSearch {
  import opened Prelude
  import opened Structure
  import opened Trendlines

  /** More touches, and among equals the more recent last touch. */
  predicate Better(x: Line, y: Line) {
    x.touches > y.touches || (x.touches == y.touches && x.lastTouch > y.lastTouch)
  }

  predicate InWindow(line: Line, n: nat, recentBars: int) {
    0 <= line.lastTouch && n - recentBars <= line.lastTouch < n
  }

  /** The single score orders all lines with a recent last touch by touches and then by last touch
      exactly when there are at most 1000 such bars. */
  lemma ScoreIsLexicographicIff(n: nat, recentBars: int)
    ensures (forall x: Line, y: Line :: InWindow(x, n, recentBars) && InWindow(y, n, recentBars) ==>
               (Score(x) > Score(y) <==> Better(x, y)))
            <==> n <= 1000 || recentBars <= 1000
  {
    if n > 1000 && recentBars > 1000 {
      var x := Line(Support, 0, 1, 0.0, 1.0, 3, n - 1001);
      var y := Line(Support, 0, 1, 0.0, 1.0, 2, n - 1);
      assert InWindow(x, n, recentBars) && InWindow(y, n, recentBars) && Better(x, y) && Score(x) <= Score(y);
    }
  }

  // ---------- the first of the highest score ----------

  /** The search tries `x` no later than `y`. */
  predicate TriedFirst(x: Line, y: Line) {
    x.idx1 < y.idx1 || (x.idx1 == y.idx1 && x.idx2 <= y.idx2)
  }

  /** `x` scores at least as much as `y`, and only ties with it if it is tried first. */
  predicate Outscores(x: Line, y: Line) {
    Score(x) > Score(y) || (Score(x) == Score(y) && TriedFirst(x, y))
  }

  /** The search tries the pair (p, q) before the pair (i, j). */
  predicate Tried(p: int, q: int, i: int, j: int) {
    0 <= p < q && (p < i || (p == i && q < j))
  }

  predicate NotBeatenBy(best: Option<Line>, c: Option<Line>) {
    c.Some? ==> best.Some? && Outscores(best.value, c.value)
  }

  ghost predicate IsPair(kind: LineKind, wicks: seq<real>, points: seq<Pivot>, lim: Limits, p: int, q: int, line: Line)
    requires InRange(wicks, points)
  {
    0 <= p < q < |points| && Candidate(kind, wicks, points[p], points[q], lim) == Some(line)
  }

  /** `line` is the line through some two of the points and qualifies. */
  ghost predicate IsCandidate(kind: LineKind, wicks: seq<real>, points: seq<Pivot>, lim: Limits, line: Line)
    requires InRange(wicks, points)
  {
    exists p, q :: IsPair(kind, wicks, points, lim, p, q, line)
  }

  /** `best` is a candidate that outscores every candidate tried so far. */
  ghost predicate Picked(kind: LineKind, wicks: seq<real>, points: seq<Pivot>, lim: Limits, i: nat, j: nat, best: Option<Line>)
    requires InRange(wicks, points)
  {
    && (best.Some? ==> exists p, q :: Tried(p, q, i, j) && IsPair(kind, wicks, points, lim, p, q, best.value))
    && forall p, q, c :: Tried(p, q, i, j) && IsPair(kind, wicks, points, lim, p, q, c) ==> NotBeatenBy(best, Some(c))
  }

  lemma CandidateAnchors(kind: LineKind, wicks: seq<real>, a: Pivot, b: Pivot, lim: Limits)
    requires a.idx < b.idx < |wicks| && Candidate(kind, wicks, a, b, lim).Some?
    ensures var c := Candidate(kind, wicks, a, b, lim).value; c.idx1 == a.idx && c.idx2 == b.idx
  {
  }

  /** Loop order is the order of the anchors. */
  lemma LoopOrder(kind: LineKind, wicks: seq<real>, points: seq<Pivot>, lim: Limits, p: nat, q: nat, i: nat, j: nat, x: Line, y: Line)
    requires InRange(wicks, points) && Tried(p, q, i, j)
    requires IsPair(kind, wicks, points, lim, p, q, x) && IsPair(kind, wicks, points, lim, i, j, y)
    ensures TriedFirst(x, y)
  {
    CandidateAnchors(kind, wicks, points[p], points[q], lim);
    CandidateAnchors(kind, wicks, points[i], points[j], lim);
    hide Candidate;
  }

  lemma PickPicks(kind: LineKind, wicks: seq<real>, points: seq<Pivot>, lim: Limits, i: nat, j: nat, best: Option<Line>)
    requires InRange(wicks, points) && 0 <= i < j < |points|
    requires Picked(kind, wicks, points, lim, i, j, best)
    ensures Picked(kind, wicks, points, lim, i, j + 1, Pick(best, Candidate(kind, wicks, points[i], points[j], lim)))
  {
    var c := Candidate(kind, wicks, points[i], points[j], lim);
    var next := Pick(best, c);
    assert forall x :: IsPair(kind, wicks, points, lim, i, j, x) <==> c == Some(x);
    hide Candidate, InRange, IsPair;
    if best.Some? {
      var p, q :| Tried(p, q, i, j) && IsPair(kind, wicks, points, lim, p, q, best.value);
      assert Tried(p, q, i, j + 1);
      if c.Some? {
        LoopOrder(kind, wicks, points, lim, p, q, i, j, best.value, c.value);
      }
    }
    assert Tried(i, j, i, j + 1);
    PickTakes(best, c);
    forall p, q, x | Tried(p, q, i, j + 1) && IsPair(kind, wicks, points, lim, p, q, x)
      ensures NotBeatenBy(next, Some(x))
    {
      if Tried(p, q, i, j) {
        PickKeeps(best, c, Some(x));
      }
    }
  }

  lemma PickKeeps(best: Option<Line>, c: Option<Line>, x: Option<Line>)
    requires NotBeatenBy(best, x)
    ensures NotBeatenBy(Pick(best, c), x)
  {
  }

  lemma PickTakes(best: Option<Line>, c: Option<Line>)
    requires best.Some? && c.Some? ==> TriedFirst(best.value, c.value)
    ensures NotBeatenBy(Pick(best, c), c)
  {
  }

  lemma {:induction false} BestIsPicked(kind: LineKind, wicks: seq<real>, points: seq<Pivot>, lim: Limits, i: nat, j: nat)
    requires InRange(wicks, points) && i <= |points| && j <= |points|
    ensures Picked(kind, wicks, points, lim, i, j, Best(kind, wicks, points, lim, i, j))
    decreases i, j
  {
    hide Candidate, Pick;
    if j > i + 1 {
      BestIsPicked(kind, wicks, points, lim, i, j - 1);
      PickPicks(kind, wicks, points, lim, i, j - 1, Best(kind, wicks, points, lim, i, j - 1));
    } else if i > 0 {
      BestIsPicked(kind, wicks, points, lim, i - 1, |points|);
    }
  }

  /** The detected line is the first qualifying line of the highest score; it is absent only when
      none qualifies. */
  lemma DetectedIsFirstBest(kind: LineKind, wicks: seq<real>, swings: seq<Pivot>, lim: Limits, maxSwings: nat)
    requires InRange(wicks, swings)
    ensures var points, best := LastSwings(swings, maxSwings), BestLine(kind, wicks, swings, lim, maxSwings);
      && (best.Some? ==> IsCandidate(kind, wicks, points, lim, best.value))
      && (forall c :: IsCandidate(kind, wicks, points, lim, c) ==> best.Some? && Outscores(best.value, c))
  {
    hide Candidate;
    var points, best := LastSwings(swings, maxSwings), BestLine(kind, wicks, swings, lim, maxSwings);
    BestIsPicked(kind, wicks, points, lim, |points|, |points|);
    forall c | IsCandidate(kind, wicks, points, lim, c)
      ensures best.Some? && Outscores(best.value, c)
    {
      var p, q :| IsPair(kind, wicks, points, lim, p, q, c);
      assert Tried(p, q, |points|, |points|);
      assert NotBeatenBy(best, Some(c));
    }
  }

  // ---------- when that is the line with the most touches ----------

  /** `best` qualifies, and no qualifying line has more touches, or as many and a later last one. */
  ghost predicate Unbeaten(kind: LineKind, wicks: seq<real>, points: seq<Pivot>, lim: Limits, best: Option<Line>)
    requires InRange(wicks, points)
  {
    && (best.Some? ==> IsCandidate(kind, wicks, points, lim, best.value))
    && forall c :: IsCandidate(kind, wicks, points, lim, c) ==> best.Some? && !Better(c, best.value)
  }

  lemma {:induction false} TouchCountAtMost(wicks: seq<real>, a: Pivot, slope: real, tol: real, hi: nat)
    requires a.idx <= hi <= |wicks|
    ensures TouchCount(wicks, a, slope, tol, hi) <= hi - a.idx
  {
    hide Touched;
    if hi > a.idx {
      TouchCountAtMost(wicks, a, slope, tol, hi - 1);
    }
  }

  lemma AnchorsTouch(wicks: seq<real>, a: Pivot, b: Pivot, tol: real)
    requires a.idx < b.idx < |wicks| && a.level == wicks[a.idx] && b.level == wicks[b.idx] && tol >= 0.0
    ensures Touched(wicks, a, Slope(a, b), tol, a.idx) && Touched(wicks, a, Slope(a, b), tol, b.idx)
  {
    ValueAtEnd(a, b);
  }

  /** A candidate between points on their wicks touches both anchors, so its last touch is its end. */
  lemma CandidateOnWicks(kind: LineKind, wicks: seq<real>, points: seq<Pivot>, lim: Limits, c: Line)
    requires OnWicks(wicks, points) && lim.tol >= 0.0 && IsCandidate(kind, wicks, points, lim, c)
    ensures c.lastTouch == c.idx2 < |wicks| && 2 <= c.touches <= c.idx2 - c.idx1 + 1
  {
    hide Touched, Slope;
    var p, q :| IsPair(kind, wicks, points, lim, p, q, c);
    var a, b, slope := points[p], points[q], Slope(points[p], points[q]);
    AnchorsTouch(wicks, a, b, lim.tol);
    TouchCountAtLeastFirst(wicks, a, slope, lim.tol, b.idx);
    TouchCountAtMost(wicks, a, slope, lim.tol, b.idx + 1);
  }

  lemma LastSwingsOnWicks(wicks: seq<real>, swings: seq<Pivot>, maxSwings: nat)
    requires OnWicks(wicks, swings)
    ensures OnWicks(wicks, LastSwings(swings, maxSwings))
  {
  }

  lemma LastTouchInWindow(kind: LineKind, wicks: seq<real>, points: seq<Pivot>, lim: Limits, c: Line)
    requires InRange(wicks, points) && IsCandidate(kind, wicks, points, lim, c)
    ensures |wicks| - lim.recentBars <= c.lastTouch < |wicks|
  {
    var p, q :| IsPair(kind, wicks, points, lim, p, q, c);
    LastTouchRange(wicks, points[p], Slope(points[p], points[q]), lim.tol, points[q].idx + 1);
  }

  /** With a recency window of at most 1000 bars, or at most 1003 candles, no qualifying line of the
      considered swings beats the detected one. */
  lemma DetectedIsBest(kind: LineKind, wicks: seq<real>, swings: seq<Pivot>, lim: Limits, maxSwings: nat)
    requires InRange(wicks, swings)
    requires lim.recentBars <= 1000 || (|wicks| <= 1003 && OnWicks(wicks, swings) && lim.tol >= 0.0)
    ensures Unbeaten(kind, wicks, LastSwings(swings, maxSwings), lim, BestLine(kind, wicks, swings, lim, maxSwings))
  {
    hide IsCandidate, BestLine;
    var points, best := LastSwings(swings, maxSwings), BestLine(kind, wicks, swings, lim, maxSwings);
    DetectedIsFirstBest(kind, wicks, swings, lim, maxSwings);
    forall c | IsCandidate(kind, wicks, points, lim, c)
      ensures best.Some? && !Better(c, best.value)
    {
      if lim.recentBars <= 1000 {
        LastTouchInWindow(kind, wicks, points, lim, c);
        LastTouchInWindow(kind, wicks, points, lim, best.value);
      } else {
        LastSwingsOnWicks(wicks, swings, maxSwings);
        CandidateOnWicks(kind, wicks, points, lim, c);
        CandidateOnWicks(kind, wicks, points, lim, best.value);
      }
    }
  }

  // ---------- a search that is beaten ----------

  /** Lows far above everything but five: three on a line of slope 1 that ends 1000 bars before the
      last, and the two ends of another. */
  function BeatenWicks(n: nat): (wicks: seq<real>)
    requires n >= 1004
    ensures |wicks| == n
  {
    seq(n, k requires 0 <= k < n =>
      if k == 0 then (n - 1001) as real
      else if k == 1 || k == 2 || k == n - 1001 then k as real
      else if k == n - 1 then (2 * n - 1002) as real
      else 10.0 * n as real)
  }

  function BeatenSwings(n: nat): (points: seq<Pivot>)
    requires n >= 1004
    ensures OnWicks(BeatenWicks(n), points)
  {
    [Pivot(0, (n - 1001) as real), Pivot(1, 1.0), Pivot(n - 1001, (n - 1001) as real), Pivot(n - 1, (2 * n - 1002) as real)]
  }

  lemma {:induction false} NoTouchBetween(wicks: seq<real>, a: Pivot, slope: real, tol: real, lo: nat, hi: nat)
    requires a.idx < lo <= hi <= |wicks| && forall k :: lo <= k < hi ==> !Touched(wicks, a, slope, tol, k)
    ensures TouchCount(wicks, a, slope, tol, hi) == TouchCount(wicks, a, slope, tol, lo)
  {
    hide Touched;
    if lo < hi {
      NoTouchBetween(wicks, a, slope, tol, lo, hi - 1);
    }
  }

  /** Only the anchors touch a line with nothing near it in between. */
  lemma TwoTouches(wicks: seq<real>, a: Pivot, b: Pivot, tol: real)
    requires a.idx < b.idx < |wicks| && a.level == wicks[a.idx] && b.level == wicks[b.idx] && tol >= 0.0
    requires forall k :: a.idx < k < b.idx ==> !Touched(wicks, a, Slope(a, b), tol, k)
    ensures TouchCount(wicks, a, Slope(a, b), tol, b.idx + 1) == 2
  {
    hide Touched, Slope;
    AnchorsTouch(wicks, a, b, tol);
    NoTouchBetween(wicks, a, Slope(a, b), tol, a.idx + 1, b.idx);
    assert TouchCount(wicks, a, Slope(a, b), tol, a.idx + 1) == 1;
  }

  lemma SlopeIs(a: Pivot, b: Pivot, slope: real)
    requires a.idx < b.idx && b.level - a.level == slope * (b.idx - a.idx) as real
    ensures Slope(a, b) == slope
  {
    var d, q := (b.idx - a.idx) as real, Slope(a, b);
    assert (b.level - a.level) / d * d == b.level - a.level;
    assert q * d == slope * d;
    assert q > slope ==> (q - slope) * d > 0.0;
    assert q < slope ==> (slope - q) * d > 0.0;
  }

  /** The line through the second and third point is the diagonal; the low of 2 lies on it too. */
  lemma DiagonalTouch(n: nat, k: nat)
    requires n >= 1004 && 1 <= k <= n - 1001
    ensures Touched(BeatenWicks(n), BeatenSwings(n)[1], 1.0, 0.0, k) <==> k == 1 || k == 2 || k == n - 1001
  {
    assert LineValue(1, 1.0, 1.0, k) == k as real;
  }

  lemma ThreeTouches(n: nat)
    requires n >= 1004
    ensures var wicks, points := BeatenWicks(n), BeatenSwings(n);
      Slope(points[1], points[2]) == 1.0 && TouchCount(wicks, points[1], 1.0, 0.0, n - 1000) == 3
  {
    var wicks, a, m := BeatenWicks(n), BeatenSwings(n)[1], n - 1001;
    SlopeIs(a, BeatenSwings(n)[2], 1.0);
    hide Touched, BeatenWicks, Slope;
    DiagonalTouch(n, 1);
    DiagonalTouch(n, 2);
    DiagonalTouch(n, m);
    assert TouchCount(wicks, a, 1.0, 0.0, 2) == 1;
    assert TouchCount(wicks, a, 1.0, 0.0, 3) == 2;
    forall k | 3 <= k < m
      ensures !Touched(wicks, a, 1.0, 0.0, k)
    {
      DiagonalTouch(n, k);
    }
    NoTouchBetween(wicks, a, 1.0, 0.0, 3, m);
  }

  /** A line that rises no higher than its end, which no wick in between comes near. */
  lemma FarFromWicks(n: nat, a: Pivot, b: Pivot, k: nat)
    requires n >= 1004 && a.idx < k < b.idx && b.level >= a.level && b.level < 10.0 * n as real
    requires k < n && BeatenWicks(n)[k] == 10.0 * n as real
    ensures !Touched(BeatenWicks(n), a, Slope(a, b), 0.0, k)
  {
    var slope, d, e := Slope(a, b), (b.idx - a.idx) as real, (k - a.idx) as real;
    assert slope * d == b.level - a.level;
    Slower(slope, d, e);
  }

  lemma Slower(slope: real, d: real, e: real)
    requires 0.0 < e <= d && slope * d >= 0.0
    ensures slope * e <= slope * d
  {
    assert slope < 0.0 ==> slope * d < 0.0;
    assert slope * (d - e) >= 0.0;
    assert slope * (d - e) == slope * d - slope * e;
  }

  lemma Steeper(slope: real, d: real, e: real, full: real, part: real)
    requires d > 0.0 && e > 0.0 && full == slope * d && full >= d && part == slope * e
    ensures part >= e && (full > d ==> part > e)
  {
    var over := slope - 1.0;
    var gain, less := over * d, over * e;
    assert gain == full - d && less == part - e;
    assert over < 0.0 ==> gain < 0.0;
    assert over > 0.0 ==> less > 0.0;
  }

  lemma SlopeTimes(a: Pivot, b: Pivot)
    requires a.idx < b.idx
    ensures Slope(a, b) * (b.idx - a.idx) as real == b.level - a.level
  {
  }

  /** A line above the diagonal at its start and at its end is above it in between. */
  lemma AboveDiagonal(a: Pivot, b: Pivot, k: nat)
    requires a.idx < k < b.idx && a.level >= a.idx as real && b.level > b.idx as real && b.level - a.level >= (b.idx - a.idx) as real
    requires a.level > a.idx as real || b.level - a.level > (b.idx - a.idx) as real
    ensures LineValue(a.idx, a.level, Slope(a, b), k) > k as real
  {
    hide Slope;
    SlopeTimes(a, b);
    var slope, d, e := Slope(a, b), (b.idx - a.idx) as real, (k - a.idx) as real;
    var full, part := b.level - a.level, slope * e;
    assert full == slope * d && d > 0.0 && e > 0.0 && full >= d;
    Steeper(slope, d, e, full, part);
    assert e == k as real - a.idx as real;
    assert LineValue(a.idx, a.level, slope, k) == a.level + part;
  }

  lemma OthersMiss(n: nat, p: nat, k: nat)
    requires n >= 1004 && p < 3 && BeatenSwings(n)[p].idx < k < n - 1
    ensures !Touched(BeatenWicks(n), BeatenSwings(n)[p], Slope(BeatenSwings(n)[p], BeatenSwings(n)[3]), 0.0, k)
  {
    var a, b := BeatenSwings(n)[p], BeatenSwings(n)[3];
    hide Slope, LineValue;
    if BeatenWicks(n)[k] == 10.0 * n as real {
      FarFromWicks(n, a, b, k);
    } else {
      assert BeatenWicks(n)[k] == k as real;
      AboveDiagonal(a, b, k);
    }
  }

  /** The other rising lines, all of which end at the last point, touch nothing but their anchors. */
  lemma OthersTouchTwice(n: nat, p: nat)
    requires n >= 1004 && p < 3
    ensures var points := BeatenSwings(n);
      TouchCount(BeatenWicks(n), points[p], Slope(points[p], points[3]), 0.0, n) == 2
  {
    var a, b := BeatenSwings(n)[p], BeatenSwings(n)[3];
    forall k: nat | a.idx < k < b.idx
      ensures !Touched(BeatenWicks(n), a, Slope(a, b), 0.0, k)
    {
      OthersMiss(n, p, k);
    }
    TwoTouches(BeatenWicks(n), a, b, 0.0);
  }

  /** Every candidate of the beaten search other than the three-touch line has two touches. */
  lemma BeatenCandidates(n: nat, lim: Limits, p: nat, q: nat)
    requires n >= 1004 && lim.tol == 0.0 && p < q < 4
    ensures var points := BeatenSwings(n);
      var c := Candidate(Support, BeatenWicks(n), points[p], points[q], lim);
      c.Some? ==> if p == 1 && q == 2 then c.value.touches == 3 else q == 3 && c.value.touches == 2
  {
    var points := BeatenSwings(n);
    SlopeSign(points[p], points[q]);
    if p == 1 && q == 2 {
      ThreeTouches(n);
    } else if q == 3 {
      OthersTouchTwice(n, p);
    }
    hide Slope, TouchCount, LastTouch, BeatenWicks;
  }

  /** On these lows the search settles on a line with two touches although one with three, also
      recent enough, is among its candidates: both score the same. */
  lemma SearchIsBeaten(n: nat, recentBars: int)
    requires n >= 1004 && recentBars > 1000
    ensures var wicks, points, lim := BeatenWicks(n), BeatenSwings(n), Limits(2, 0.0, recentBars);
      OnWicks(wicks, points) && !Unbeaten(Support, wicks, points, lim, BestLine(Support, wicks, points, lim, 4))
  {
    var wicks, points, lim := BeatenWicks(n), BeatenSwings(n), Limits(2, 0.0, recentBars);
    var best := BestLine(Support, wicks, points, lim, 4);
    DetectedIsFirstBest(Support, wicks, points, lim, 4);
    var x, y := Candidate(Support, wicks, points[0], points[3], lim), Candidate(Support, wicks, points[1], points[2], lim);
    BothQualify(n, lim);
    CandidateAnchors(Support, wicks, points[0], points[3], lim);
    CandidateAnchors(Support, wicks, points[1], points[2], lim);
    assert LastSwings(points, 4) == points;
    hide Candidate, BestLine, BeatenWicks;
    assert IsPair(Support, wicks, points, lim, 0, 3, x.value) && IsPair(Support, wicks, points, lim, 1, 2, y.value);
    var p, q :| IsPair(Support, wicks, points, lim, p, q, best.value);
    BeatenCandidates(n, lim, p, q);
    assert Outscores(best.value, x.value) && !Outscores(y.value, x.value);
    assert Better(y.value, best.value);
  }

  lemma BothQualify(n: nat, lim: Limits)
    requires n >= 1004 && lim.recentBars > 1000 && lim.tol == 0.0 && lim.minTouches == 2
    ensures var wicks, points := BeatenWicks(n), BeatenSwings(n);
      var x, y := Candidate(Support, wicks, points[0], points[3], lim), Candidate(Support, wicks, points[1], points[2], lim);
      x.Some? && y.Some? && x.value.touches == 2 && x.value.lastTouch == n - 1
      && y.value.touches == 3 && y.value.lastTouch == n - 1001
  {
    var wicks, points := BeatenWicks(n), BeatenSwings(n);
    ThreeTouches(n);
    OthersTouchTwice(n, 0);
    SlopeSign(points[0], points[3]);
    AnchorsTouch(wicks, points[0], points[3], 0.0);
    AnchorsTouch(wicks, points[1], points[2], 0.0);
    hide Slope, TouchCount, Touched, BeatenWicks;
  }

  /** The instances the search is used on: swings on their wicks and a tolerance that is not
      negative. */
  ghost predicate SearchPicksBest(kind: LineKind, wicks: seq<real>, swings: seq<Pivot>, lim: Limits, maxSwings: nat) {
    OnWicks(wicks, swings) && lim.tol >= 0.0 ==>
      Unbeaten(kind, wicks, LastSwings(swings, maxSwings), lim, BestLine(kind, wicks, swings, lim, maxSwings))
  }

  /** Over all histories of `n` candles the search picks a line that no qualifying line beats in
      touches, then last touch, exactly when there are at most 1003 candles or the recency window is
      at most 1000 bars. */
  lemma SearchIsLexicographicIff(n: nat, recentBars: int)
    ensures (forall kind, wicks, swings, minTouches, tol, maxSwings | |wicks| == n ::
               SearchPicksBest(kind, wicks, swings, Limits(minTouches, tol, recentBars), maxSwings))
            <==> n <= 1003 || recentBars <= 1000
  {
    hide BestLine, Unbeaten;
    if n <= 1003 || recentBars <= 1000 {
      forall kind, wicks, swings, minTouches, tol, maxSwings | |wicks| == n
        ensures SearchPicksBest(kind, wicks, swings, Limits(minTouches, tol, recentBars), maxSwings)
      {
        if OnWicks(wicks, swings) && tol >= 0.0 {
          DetectedIsBest(kind, wicks, swings, Limits(minTouches, tol, recentBars), maxSwings);
        }
      }
    } else {
      SearchIsBeaten(n, recentBars);
      assert LastSwings(BeatenSwings(n), 4) == BeatenSwings(n);
      assert !SearchPicksBest(Support, BeatenWicks(n), BeatenSwings(n), Limits(2, 0.0, recentBars), 4);
    }
  }
}
