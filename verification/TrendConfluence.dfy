/** The safety line of the trendline strategy and its memoised source lines
    (services/strategy/trend_confluence.py). */
module TrendConfluence {
  import opened Prelude
  import opened Structure
  import opened Trendlines
  import Indicators
  import IctReplay
  import IctSnapshot
  import MarketStructure

  /** `minutes` is the duration of the primary timeframe. */
  datatype LineConfig = LineConfig(minutes: nat, swingFloorAtr: real, toleranceAtr: real, minTouches: int)

  /** The lines of a closed prefix and its last index. Below eight candles there are none; from
      eight to thirteen the ATR raises. */
  function LinesOf(cs: seq<Candle>, cfg: LineConfig): Result<(seq<Line>, int)> {
    if |cs| < 8 then Success(([], -1))
    else if |cs| < MarketStructure.ATR_PERIOD then Raised(IndexError)
    else
      var highs := MarketStructure.PivotsIn(cs, cfg.swingFloorAtr, High);
      var lows := MarketStructure.PivotsIn(cs, cfg.swingFloorAtr, Low);
      IctSnapshot.PivotsInRange(cs, cfg.swingFloorAtr, High);
      IctSnapshot.PivotsInRange(cs, cfg.swingFloorAtr, Low);
      Success((Chained(Highs(cs), Lows(cs), highs, lows, TolOf(cs, cfg), cfg.minTouches), |cs| - 1))
  }

  function TolOf(cs: seq<Candle>, cfg: LineConfig): real {
    Tolerance(cfg.toleranceAtr, Indicators.AtrArray(cs, MarketStructure.ATR_PERIOD))
  }

  function ClosedRows(rows: seq<Candle>, cfg: LineConfig, t: int): seq<Candle> {
    rows[..IctReplay.OpenedBy(rows, t - cfg.minutes)]
  }

  function LastLine(lines: seq<Line>, kind: LineKind): Option<Line> {
    if lines == [] then None
    else if lines[|lines| - 1].kind == kind then Some(lines[|lines| - 1])
    else LastLine(lines[..|lines| - 1], kind)
  }

  function KindFor(d: Direction): LineKind {
    if d == Long then Support else Resistance
  }

  function SafetyOf(lines: seq<Line>, lastIdx: int, d: Direction): Option<real> {
    var line := LastLine(lines, KindFor(d));
    if lines == [] || lastIdx < 0 || line.None? then None else Some(ValueAt(line.value, lastIdx))
  }

  /** The safety value from the rows that have closed at `t`, nothing cached. */
  function Safety(rows: seq<Candle>, cfg: LineConfig, t: int, d: Direction): Result<Option<real>> {
    match LinesOf(ClosedRows(rows, cfg, t), cfg)
    case Raised(e) => Raised(e)
    case Success(found) => Success(SafetyOf(found.0, found.1, d))
  }

  // ---------- the line cache ----------

  type LineCache = map<int, (seq<Line>, int)>

  /** The lines handed out for the rows closed at `t`: those cached under the last closed time, if
      there are any, whatever rows they were found in. */
  function MemoLines(cache: LineCache, rows: seq<Candle>, cfg: LineConfig, t: int): Result<(seq<Line>, int)> {
    var closed := ClosedRows(rows, cfg, t);
    if |closed| < 8 then Success(([], -1))
    else if closed[|closed| - 1].time in cache then Success(cache[closed[|closed| - 1].time])
    else LinesOf(closed, cfg)
  }

  /** Found lines are cached for good. */
  function NextLines(cache: LineCache, rows: seq<Candle>, cfg: LineConfig, t: int): LineCache {
    var closed, found := ClosedRows(rows, cfg, t), MemoLines(cache, rows, cfg, t);
    if |closed| >= 8 && found.Success? then cache[closed[|closed| - 1].time := found.value] else cache
  }

  function MemoSafety(cache: LineCache, rows: seq<Candle>, cfg: LineConfig, t: int, d: Direction): Result<Option<real>> {
    match MemoLines(cache, rows, cfg, t)
    case Raised(e) => Raised(e)
    case Success(found) => Success(SafetyOf(found.0, found.1, d))
  }

  class TrendConfluenceStrategy {
    const cfg: LineConfig
    var lineCache: LineCache

    constructor (cfg: LineConfig)
      ensures this.cfg == cfg && lineCache == map[]
    {
      this.cfg := cfg;
      lineCache := map[];
    }

    method LinesAsOf(rows: seq<Candle>, t: int) returns (r: Result<(seq<Line>, int)>)
      requires IctReplay.Increasing(rows)
      modifies this
      ensures r == MemoLines(old(lineCache), rows, cfg, t)
      ensures lineCache == NextLines(old(lineCache), rows, cfg, t)
    {
      hide LinesOf;
      var n := IctReplay.BisectRight(rows, t - cfg.minutes);
      var h1 := rows[..n];
      if |h1| < 8 {
        return Success(([], -1));
      }
      var key := h1[|h1| - 1].time;
      if key in lineCache {
        assert lineCache == lineCache[key := lineCache[key]];
        return Success(lineCache[key]);
      }
      r := ComputeLines(h1);
      if r.Success? {
        lineCache := lineCache[key := r.value];
      }
    }

    method ComputeLines(h1: seq<Candle>) returns (r: Result<(seq<Line>, int)>)
      requires |h1| >= 8
      ensures r == LinesOf(h1, cfg)
    {
      hide Chained;
      var atr := Indicators.Atr(h1, MarketStructure.ATR_PERIOD);
      if atr.Raised? {
        return Raised(atr.error);
      }
      var swings := FractalSwings(Highs(h1), Lows(h1), atr.value, cfg.swingFloorAtr);
      var swingHighs, swingLows := SplitSwings(swings);
      MarketStructure.PivotsAreSplit(h1, cfg.swingFloorAtr);
      IctSnapshot.PivotsInRange(h1, cfg.swingFloorAtr, High);
      IctSnapshot.PivotsInRange(h1, cfg.swingFloorAtr, Low);
      var lines := ChainTrendlines(Highs(h1), Lows(h1), swingHighs, swingLows, atr.value, cfg.toleranceAtr, cfg.minTouches);
      return Success((lines, |h1| - 1));
    }

    method SafetyValue(rows: seq<Candle>, t: int, d: Direction) returns (r: Result<Option<real>>)
      requires IctReplay.Increasing(rows)
      modifies this
      ensures r == MemoSafety(old(lineCache), rows, cfg, t, d)
      ensures lineCache == NextLines(old(lineCache), rows, cfg, t)
    {
      hide MemoLines, NextLines;
      var found := LinesAsOf(rows, t);
      match found {
        case Raised(e) => return Raised(e);
        case Success(v) => return Success(SafetyOf(v.0, v.1, d));
      }
    }
  }

  // ---------- the newest line ----------

  ghost predicate AllOf(lines: seq<Line>, kind: LineKind) {
    forall x :: 0 <= x < |lines| ==> lines[x].kind == kind
  }

  lemma {:induction false} LastSkips(a: seq<Line>, b: seq<Line>, kind: LineKind, other: LineKind)
    requires other != kind && AllOf(b, other)
    ensures LastLine(a + b, kind) == LastLine(a, kind)
  {
    if b == [] {
      assert a + b == a;
    } else {
      assert (a + b)[..|a + b| - 1] == a + b[..|b| - 1];
      LastSkips(a, b[..|b| - 1], kind, other);
    }
  }

  /** Of the chained lines of both kinds, the last of a kind is the last of that kind's chain. */
  lemma LastOfBoth(support: seq<Line>, resistance: seq<Line>)
    requires AllOf(support, Support) && AllOf(resistance, Resistance)
    ensures LastLine(support + resistance, Support) == if support == [] then None else Some(support[|support| - 1])
    ensures LastLine(support + resistance, Resistance) == if resistance == [] then None else Some(resistance[|resistance| - 1])
  {
    LastSkips(support, resistance, Support, Resistance);
    assert support != [] ==> support[|support| - 1].kind == Support;
    if resistance == [] {
      assert support + resistance == support;
      LastSkips([], support, Resistance, Support);
      assert [] + support == support;
    }
  }

  lemma {:induction false} ChainKind(kind: LineKind, wicks: seq<real>, points: seq<Pivot>, tol: real, minTouches: int, n: nat)
    requires InRange(wicks, points) && n <= |points|
    ensures AllOf(ChainBelow(kind, wicks, points, tol, minTouches, n), kind)
  {
    hide Trending, Unviolated, TouchCount, Slope;
    if n > 1 {
      ChainKind(kind, wicks, points, tol, minTouches, n - 1);
    }
  }

  /** `line` is the valid segment of its kind that ends last. */
  ghost predicate Newest(kind: LineKind, wicks: seq<real>, points: seq<Pivot>, tol: real, minTouches: int, line: Option<Line>)
    requires InRange(wicks, points)
  {
    match line
    case None => forall p :: 0 <= p < |points| - 1 ==> !ValidAt(kind, wicks, points, tol, minTouches, p)
    case Some(l) =>
      && SegmentOf(kind, wicks, points, tol, minTouches, |points|, l)
      && forall p :: 0 <= p < |points| - 1 && ValidAt(kind, wicks, points, tol, minTouches, p) ==> points[p].idx <= l.idx1
  }

  lemma LastIsNewest(kind: LineKind, wicks: seq<real>, points: seq<Pivot>, tol: real, minTouches: int, lines: seq<Line>)
    requires InRange(wicks, points) && ChainSpec(kind, wicks, points, tol, minTouches, |points|, lines)
    ensures Newest(kind, wicks, points, tol, minTouches, if lines == [] then None else Some(lines[|lines| - 1]))
  {
    hide ValidAt;
    forall p | 0 <= p < |points| - 1 && ValidAt(kind, wicks, points, tol, minTouches, p)
      ensures lines != [] && points[p].idx <= lines[|lines| - 1].idx1
    {
      assert StartsAt(lines, points[p].idx);
      var x :| 0 <= x < |lines| && lines[x].idx1 == points[p].idx;
      SegmentRises(kind, wicks, points, tol, minTouches, lines[x]);
    }
  }

  lemma SegmentRises(kind: LineKind, wicks: seq<real>, points: seq<Pivot>, tol: real, minTouches: int, line: Line)
    requires InRange(wicks, points) && SegmentOf(kind, wicks, points, tol, minTouches, |points|, line)
    ensures line.idx1 < line.idx2
  {
    hide ValidAt;
    var p :| 0 <= p < |points| - 1 && ValidAt(kind, wicks, points, tol, minTouches, p) && Joins(line, points, p);
  }

  function WicksFor(cs: seq<Candle>, d: Direction): seq<real> {
    if d == Long then Lows(cs) else Highs(cs)
  }

  function PointsFor(cs: seq<Candle>, cfg: LineConfig, d: Direction): seq<Pivot> {
    MarketStructure.PivotsIn(cs, cfg.swingFloorAtr, if d == Long then Low else High)
  }

  /** The stop trails the most recently established valid segment between consecutive swing lows
      (long) or swing highs (short); without one there is no safety line. */
  lemma SafetyLineIsNewest(cs: seq<Candle>, cfg: LineConfig, d: Direction)
    requires ValidCandles(cs) && cfg.toleranceAtr >= 0.0 && |cs| >= MarketStructure.ATR_PERIOD
    ensures LinesOf(cs, cfg).Success?
    ensures InRange(WicksFor(cs, d), PointsFor(cs, cfg, d))
    ensures Newest(KindFor(d), WicksFor(cs, d), PointsFor(cs, cfg, d), TolOf(cs, cfg), cfg.minTouches,
                   LastLine(LinesOf(cs, cfg).value.0, KindFor(d)))
  {
    hide MarketStructure.PivotsIn, ChainSpec, Newest, ChainBelow;
    var tol := TolOf(cs, cfg);
    Indicators.MeanAtrNonNegative(cs, MarketStructure.ATR_PERIOD);
    assert tol >= 0.0;
    hide TolOf;
    IctSnapshot.PivotsInRange(cs, cfg.swingFloorAtr, High);
    IctSnapshot.PivotsInRange(cs, cfg.swingFloorAtr, Low);
    var lows, highs := PointsFor(cs, cfg, Long), PointsFor(cs, cfg, Short);
    var support := ChainBelow(Support, Lows(cs), lows, tol, cfg.minTouches, |lows|);
    var resistance := ChainBelow(Resistance, Highs(cs), highs, tol, cfg.minTouches, |highs|);
    ChainKind(Support, Lows(cs), lows, tol, cfg.minTouches, |lows|);
    ChainKind(Resistance, Highs(cs), highs, tol, cfg.minTouches, |highs|);
    ChainIsExact(Support, Lows(cs), lows, tol, cfg.minTouches, |lows|);
    ChainIsExact(Resistance, Highs(cs), highs, tol, cfg.minTouches, |highs|);
    LastIsNewest(Support, Lows(cs), lows, tol, cfg.minTouches, support);
    LastIsNewest(Resistance, Highs(cs), highs, tol, cfg.minTouches, resistance);
    LastOfBoth(support, resistance);
    assert LinesOf(cs, cfg).value.0 == support + resistance;
  }
}
