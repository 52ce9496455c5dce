/** The safety line of the trendline strategy in terms of its swings
    (services/strategy/trend_confluence.py). */
module SafetyMeaning {
  import opened Prelude
  import opened Structure
  import opened Trendlines
  import opened TrendlineMeaning
  import opened TrendConfluence
  import Indicators
  import IctReplay
  import IctSnapshot
  import MarketStructure

  /** The line joins two neighbouring points and its values are those of the straight line through them. */
  ghost predicate RunsThrough(line: Line, points: seq<Pivot>, p: nat)
    requires p + 1 < |points|
  {
    Joins(line, points, p) && forall k: int :: OnLine(points[p], points[p + 1], k, ValueAt(line, k))
  }

  lemma SegmentRuns(kind: LineKind, wicks: seq<real>, points: seq<Pivot>, tol: real, minTouches: int, p: nat)
    requires InRange(wicks, points) && p + 1 < |points|
    ensures var s := Segment(kind, wicks, points[p], points[p + 1], tol, minTouches);
      |s| <= 1 && (s != [] ==> RunsThrough(s[0], points, p))
  {
    hide Slope, OnLine, TouchCount, LastTouch, Unviolated, Trending, LineValue;
    var a, b := points[p], points[p + 1];
    forall k: int
      ensures OnLine(a, b, k, LineValue(a.idx, a.level, Slope(a, b), k))
    {
      OnlyValue(a, b, k, LineValue(a.idx, a.level, Slope(a, b), k));
    }
  }

  lemma {:induction false} ChainRuns(kind: LineKind, wicks: seq<real>, points: seq<Pivot>, tol: real, minTouches: int, n: nat)
    requires InRange(wicks, points) && n <= |points|
    ensures forall line :: line in ChainBelow(kind, wicks, points, tol, minTouches, n) ==>
              exists p :: 0 <= p < |points| - 1 && RunsThrough(line, points, p)
  {
    hide Segment, RunsThrough;
    if n > 1 {
      ChainRuns(kind, wicks, points, tol, minTouches, n - 1);
      SegmentRuns(kind, wicks, points, tol, minTouches, n - 2);
    }
  }

  lemma SamePlace(line: Line, wicks: seq<real>, points: seq<Pivot>, p: nat, q: nat)
    requires InRange(wicks, points) && p + 1 < |points| && q + 1 < |points| && Joins(line, points, p) && Joins(line, points, q)
    ensures p == q
  {
  }

  /** The newest of the segments that are valid between neighbouring swings, at its value on bar `k`. */
  ghost predicate IsSafety(kind: LineKind, wicks: seq<real>, points: seq<Pivot>, tol: real, minTouches: int, k: int, v: Option<real>)
    requires InRange(wicks, points)
  {
    match v
    case None => forall p :: 0 <= p < |points| - 1 ==> !ValidAt(kind, wicks, points, tol, minTouches, p)
    case Some(x) =>
      exists p :: 0 <= p < |points| - 1 && IsNewestAt(kind, wicks, points, tol, minTouches, p) && OnLine(points[p], points[p + 1], k, x)
  }

  ghost predicate IsNewestAt(kind: LineKind, wicks: seq<real>, points: seq<Pivot>, tol: real, minTouches: int, p: nat)
    requires InRange(wicks, points) && p + 1 < |points|
  {
    && ValidAt(kind, wicks, points, tol, minTouches, p)
    && forall q :: p < q < |points| - 1 ==> !ValidAt(kind, wicks, points, tol, minTouches, q)
  }

  lemma NewestIsSafety(kind: LineKind, wicks: seq<real>, points: seq<Pivot>, tol: real, minTouches: int, line: Option<Line>, k: int)
    requires InRange(wicks, points) && Newest(kind, wicks, points, tol, minTouches, line)
    requires line.Some? ==> exists p :: 0 <= p < |points| - 1 && RunsThrough(line.value, points, p)
    ensures IsSafety(kind, wicks, points, tol, minTouches, k, if line.None? then None else Some(ValueAt(line.value, k)))
  {
    hide ValidAt, OnLine, ValueAt;
    if line.Some? {
      var p :| 0 <= p < |points| - 1 && RunsThrough(line.value, points, p);
      var q :| 0 <= q < |points| - 1 && ValidAt(kind, wicks, points, tol, minTouches, q) && Joins(line.value, points, q);
      SamePlace(line.value, wicks, points, p, q);
      assert IsNewestAt(kind, wicks, points, tol, minTouches, p);
      assert OnLine(points[p], points[p + 1], k, ValueAt(line.value, k));
    }
  }

  lemma {:induction false} LastLineIn(lines: seq<Line>, kind: LineKind)
    ensures LastLine(lines, kind).Some? ==> LastLine(lines, kind).value in lines && LastLine(lines, kind).value.kind == kind
  {
    if lines != [] && lines[|lines| - 1].kind != kind {
      LastLineIn(lines[..|lines| - 1], kind);
    }
  }

  /** The lines found in at least fourteen candles: the last of a kind runs through neighbouring swings. */
  lemma LastRuns(cs: seq<Candle>, cfg: LineConfig, d: Direction)
    requires |cs| >= 14
    ensures LinesOf(cs, cfg).Success? && LinesOf(cs, cfg).value.1 == |cs| - 1
    ensures var line, points := LastLine(LinesOf(cs, cfg).value.0, if d == Long then Support else Resistance), PointsFor(cs, cfg, d);
      line.Some? ==> exists p :: 0 <= p < |points| - 1 && RunsThrough(line.value, points, p)
  {
    hide MarketStructure.PivotsIn, ChainBelow, RunsThrough, TolOf, LastLine;
    IctSnapshot.PivotsInRange(cs, cfg.swingFloorAtr, High);
    IctSnapshot.PivotsInRange(cs, cfg.swingFloorAtr, Low);
    var lows, highs, tol := PointsFor(cs, cfg, Long), PointsFor(cs, cfg, Short), TolOf(cs, cfg);
    ChainKind(Support, Lows(cs), lows, tol, cfg.minTouches, |lows|);
    ChainKind(Resistance, Highs(cs), highs, tol, cfg.minTouches, |highs|);
    ChainRuns(Support, Lows(cs), lows, tol, cfg.minTouches, |lows|);
    ChainRuns(Resistance, Highs(cs), highs, tol, cfg.minTouches, |highs|);
    LastLineIn(LinesOf(cs, cfg).value.0, if d == Long then Support else Resistance);
    assert LinesOf(cs, cfg).value.0 == ChainBelow(Support, Lows(cs), lows, tol, cfg.minTouches, |lows|)
                                       + ChainBelow(Resistance, Highs(cs), highs, tol, cfg.minTouches, |highs|);
  }

  /** The safety value at `t` from the rows that have closed by then: none below eight candles, an
      exception from eight to thirteen, and otherwise the newest valid segment under the swing lows
      (long) or over the swing highs (short), carried on to the last closed bar. */
  lemma SafetyIs(rows: seq<Candle>, cfg: LineConfig, t: int, d: Direction, n: nat, tol: real)
    requires IctReplay.Increasing(rows) && IctReplay.ClosedBy(rows, t, cfg.minutes, n)
    requires ValidCandles(rows) && cfg.toleranceAtr >= 0.0
    requires tol == cfg.toleranceAtr * Indicators.NanMean(Indicators.AtrArray(rows[..n], 14))
    ensures n < 8 ==> Safety(rows, cfg, t, d) == Success(None)
    ensures 8 <= n < 14 ==> Safety(rows, cfg, t, d) == Raised(IndexError)
    ensures n >= 14 ==>
              var cs := rows[..n];
              var wicks := if d == Long then Lows(cs) else Highs(cs);
              var points := MarketStructure.PivotsIn(cs, cfg.swingFloorAtr, if d == Long then Low else High);
              && InRange(wicks, points) && Safety(rows, cfg, t, d).Success?
              && IsSafety(if d == Long then Support else Resistance, wicks, points, tol, cfg.minTouches, n - 1,
                          Safety(rows, cfg, t, d).value)
  {
    hide LinesOf, IsSafety, Newest, ValueAt, LastLine, RunsThrough, MarketStructure.PivotsIn, Indicators.NanMean, Indicators.AtrArray;
    IctReplay.ClosedIs(rows, t, cfg.minutes, n);
    var cs := rows[..n];
    assert ClosedRows(rows, cfg, t) == cs;
    FewRows(cs, cfg);
    if n >= 14 {
      SafetyLineIsNewest(cs, cfg, d);
      LastRuns(cs, cfg, d);
      var found := LinesOf(cs, cfg).value;
      var kind := if d == Long then Support else Resistance;
      var line := LastLine(found.0, kind);
      assert TolOf(cs, cfg) == tol;
      NewestIsSafety(kind, WicksFor(cs, d), PointsFor(cs, cfg, d), tol, cfg.minTouches, line, n - 1);
      NoLines(kind);
    }
  }

  lemma NoLines(kind: LineKind)
    ensures LastLine([], kind).None?
  {
  }

  lemma FewRows(cs: seq<Candle>, cfg: LineConfig)
    ensures |cs| < 8 ==> LinesOf(cs, cfg) == Success(([], -1))
    ensures 8 <= |cs| < 14 ==> LinesOf(cs, cfg) == Raised(IndexError)
  {
  }
}
