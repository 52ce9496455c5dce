/** The trendline cache on a provider that returns the newest rows only: once the oldest row falls
    out, signal building is handed a cached line that outlives the swing it starts from. */
module StaleLines {
  import opened Prelude
  import opened Indicators
  import opened Structure
  import opened MarketStructure
  import opened Trendlines
  import opened TrendConfluence
  import opened LineCacheTransparency
  import IctReplay
  import IctSnapshot

  /** Flat hours but for two lows, the second higher; the first comes with the first ATR. */
  function Row(i: nat): Candle {
    Candle(60 * i, 10.0, 10.0, if i == 13 then 1.0 else if i == 20 then 2.0 else 10.0, 10.0)
  }

  function Rows(from: nat, to: nat): (cs: seq<Candle>)
    requires from <= to
    ensures |cs| == to - from && forall j :: 0 <= j < |cs| ==> cs[j] == Row(from + j)
  {
    seq(to - from, i requires 0 <= i < to - from => Row(from + i))
  }

  /** The twenty-four newest rows before and after row 24 arrives, which has not closed yet. */
  function CallAt(k: nat): Query {
    Query(Rows(k, k + 24), 1440)
  }

  lemma RowsValid(from: nat, to: nat)
    requires from <= to
    ensures ValidCandles(Rows(from, to)) && IctReplay.Increasing(Rows(from, to))
  {
  }

  lemma ClosedRowsOf(k: nat, cfg: LineConfig)
    requires k <= 1 && cfg.minutes == 60
    ensures ClosedAt(CallAt(k), cfg) == Rows(k, 24)
  {
    RowsValid(k, k + 24);
    var rows := Rows(k, k + 24);
    assert rows[24 - k - 1] == Row(23) && (k == 1 ==> rows[23] == Row(24));
    IctReplay.OpenedByIs(rows, 1440 - 60, 24 - k);
  }

  // ---------- the swing lows ----------

  lemma OnlyTwoTroughs(from: nat, i: nat)
    requires from <= 1 && 2 <= i && i + 2 < 24 - from
    ensures Trough(Lows(Rows(from, 24)), i) <==> from + i == 13 || from + i == 20
  {
    var cs := Rows(from, 24);
    assert forall j: nat :: j < 24 - from ==> Lows(cs)[j] == Row(from + j).low;
  }

  lemma RangesBelow(cs: seq<Candle>, i: nat)
    requires cs == Rows(0, 24) && i < 24
    ensures 0.0 <= TrueRange(cs, i) <= 9.0
  {
  }

  lemma AtrOfRows(i: nat)
    requires 13 <= i < 24
    ensures var atr := AtrArray(Rows(0, 24), ATR_PERIOD)[i]; atr.Some? && 0.0 <= atr.value <= 9.0
  {
    var cs := Rows(0, 24);
    forall j | 0 <= j <= i
      ensures 0.0 <= TrueRange(cs, j) <= 9.0
    {
      RangesBelow(cs, j);
    }
    hide TrueRange;
    AtrBounds(cs, ATR_PERIOD, i, 0.0, 9.0);
  }

  lemma LowIsSwing(floorMult: real, i: nat)
    requires floorMult <= 0.5 && (i == 13 || i == 20)
    ensures var cs := Rows(0, 24); IsSwing(Low, Highs(cs), Lows(cs), AtrArray(cs, ATR_PERIOD), floorMult, i)
  {
    var cs := Rows(0, 24);
    OnlyTwoTroughs(0, i);
    AtrOfRows(i);
    var atr := AtrArray(cs, ATR_PERIOD)[i].value;
    var height := WindowMin(Highs(cs), i) - Lows(cs)[i];
    assert WindowMin(Highs(cs), i) == 10.0 && height >= 8.0;
    assert AtrArray(cs, ATR_PERIOD)[i] == Some(atr);
    hide AtrArray, Trough, WindowMin;
    HalfOf(floorMult, atr);
    Tall(height, atr, floorMult);
  }

  lemma Tall(height: real, atr: real, floorMult: real)
    requires height >= 4.5 && floorMult * atr <= 4.5
    ensures TallEnough(height, Some(atr), floorMult)
  {
  }

  lemma HalfOf(floorMult: real, atr: real)
    requires floorMult <= 0.5 && 0.0 <= atr <= 9.0
    ensures floorMult * atr <= 4.5
  {
    var less := 0.5 - floorMult;
    var gap, scaled := less * atr, floorMult * atr;
    assert gap >= 0.0;
    assert scaled == 0.5 * atr - gap;
  }

  /** With all rows the two lows are neighbouring points. */
  lemma TwoPoints(floorMult: real) returns (p: nat)
    requires floorMult <= 0.5
    ensures var points := PivotsIn(Rows(0, 24), floorMult, Low);
      p + 1 < |points| && points[p] == Pivot(13, 1.0) && points[p + 1] == Pivot(20, 2.0)
  {
    var cs := Rows(0, 24);
    var highs, lows, atr, points := Highs(cs), Lows(cs), AtrArray(cs, ATR_PERIOD), PivotsIn(cs, floorMult, Low);
    SwingsArePivots(Low, highs, lows, atr, floorMult, 22);
    LowIsSwing(floorMult, 13);
    LowIsSwing(floorMult, 20);
    hide AtrArray, PivotsIn, IsSwing;
    p :| 0 <= p < |points| && points[p].idx == 13;
    var q :| 0 <= q < |points| && points[q].idx == 20;
    assert p < q;
    assert points[p + 1].idx > 13;
    TroughsOnly(floorMult, points[p + 1].idx);
    assert lows[13] == 1.0 && lows[20] == 2.0;
  }

  lemma TroughsOnly(floorMult: real, i: nat)
    requires 2 <= i < 22
    ensures var cs := Rows(0, 24);
      IsSwing(Low, Highs(cs), Lows(cs), AtrArray(cs, ATR_PERIOD), floorMult, i) ==> i == 13 || i == 20
  {
    OnlyTwoTroughs(0, i);
  }

  /** Without the oldest row the first low comes before the first ATR: no two points are left. */
  lemma OnePoint(floorMult: real)
    ensures |PivotsIn(Rows(1, 24), floorMult, Low)| <= 1
  {
    var cs := Rows(1, 24);
    var highs, lows, atr, points := Highs(cs), Lows(cs), AtrArray(cs, ATR_PERIOD), PivotsIn(cs, floorMult, Low);
    SwingsArePivots(Low, highs, lows, atr, floorMult, 21);
    assert atr[12] == None;
    SecondPoint(points);
    hide AtrArray, PivotsIn;
    forall p | 0 <= p < |points|
      ensures points[p].idx == 19
    {
      OnlyTwoTroughs(1, points[p].idx);
    }
  }

  lemma SecondPoint(points: seq<Pivot>)
    requires Sorted(points)
    ensures |points| > 1 ==> points[0].idx < points[1].idx
  {
  }

  // ---------- the lines ----------

  lemma RisingSegment(tol: real, minTouches: int)
    requires tol >= 0.0 && minTouches <= 2
    ensures ValidSegment(Support, Lows(Rows(0, 24)), Pivot(13, 1.0), Pivot(20, 2.0), tol, minTouches)
  {
    var lows, a, b := Lows(Rows(0, 24)), Pivot(13, 1.0), Pivot(20, 2.0);
    var slope := Slope(a, b);
    assert slope == 1.0 / 7.0;
    AnchorsBothTouch(lows, a, b, tol);
  }

  lemma AnchorsBothTouch(wicks: seq<real>, a: Pivot, b: Pivot, tol: real)
    requires a.idx < b.idx < |wicks| && a.level == wicks[a.idx] && b.level == wicks[b.idx] && tol >= 0.0
    ensures TouchCount(wicks, a, Slope(a, b), tol, b.idx + 1) >= 2
  {
    ValueAtEnd(a, b);
    var slope := Slope(a, b);
    assert Touched(wicks, a, slope, tol, a.idx) && Touched(wicks, a, slope, tol, b.idx);
    hide Touched, Slope;
    TouchCountAtLeastFirst(wicks, a, slope, tol, b.idx);
  }

  /** The full rows carry a support line, the shortened ones none. */
  lemma SupportOfRows(from: nat, cfg: LineConfig)
    requires from <= 1 && cfg.swingFloorAtr <= 0.5 && cfg.toleranceAtr >= 0.0 && cfg.minTouches <= 2
    ensures var found := LinesOf(Rows(from, 24), cfg);
      found.Success? && (LastLine(found.value.0, Support).Some? <==> from == 0)
  {
    hide LinesOf, TolOf, PivotsIn, ValidAt, ValidCandles, IctReplay.Increasing, LastLine;
    var cs := Rows(from, 24);
    RowsValid(from, 24);
    SafetyLineIsNewest(cs, cfg, Long);
    if from == 0 {
      RowsCarryLine(cfg);
    } else {
      OnePoint(cfg.swingFloorAtr);
    }
    hide Rows;
  }

  lemma RowsCarryLine(cfg: LineConfig)
    requires cfg.swingFloorAtr <= 0.5 && cfg.toleranceAtr >= 0.0 && cfg.minTouches <= 2
    ensures var cs, points := Rows(0, 24), PointsFor(Rows(0, 24), cfg, Long);
      && InRange(Lows(cs), points)
      && exists p :: 0 <= p < |points| - 1 && ValidAt(Support, Lows(cs), points, TolOf(cs, cfg), cfg.minTouches, p)
  {
    var cs, tol := Rows(0, 24), TolOf(Rows(0, 24), cfg);
    RowsValid(0, 24);
    var mean := NanMean(AtrArray(cs, ATR_PERIOD));
    MeanAtrNonNegative(cs, ATR_PERIOD);
    assert tol == cfg.toleranceAtr * mean && tol >= 0.0;
    IctSnapshot.PivotsInRange(cs, cfg.swingFloorAtr, Low);
    var p := TwoPoints(cfg.swingFloorAtr);
    RisingSegment(tol, cfg.minTouches);
    hide PivotsIn, TolOf, ValidSegment;
    assert ValidAt(Support, Lows(cs), PointsFor(cs, cfg, Long), tol, cfg.minTouches, p);
  }

  /** The second call is handed the support line of the first, although its own rows have none: newest
      rows only is not consistent. What an object so used trails is that line as well. */
  lemma NewestRowsKeepOldLine(cfg: LineConfig)
    requires cfg.minutes == 60 && cfg.swingFloorAtr <= 0.5 && cfg.toleranceAtr >= 0.0 && cfg.minTouches <= 2
    ensures var calls, q := [CallAt(0), CallAt(1)], CallAt(1);
      var handed, own := MemoLines(LinesBefore(calls, cfg, 1), q.rows, cfg, q.t), LinesOf(ClosedAt(q, cfg), cfg);
      && handed.Success? && LastLine(handed.value.0, Support).Some?
      && own.Success? && LastLine(own.value.0, Support) == None
      && !ConsistentAt(calls, cfg, 1) && !TransparentAt(calls, cfg, 1)
    ensures var calls, q := [CallAt(0), CallAt(1)], CallAt(1);
      var trailed := MemoSafety(LinesBefore(calls, cfg, 1), q.rows, cfg, q.t, Long);
      trailed.Success? && trailed.value.Some? && Safety(q.rows, cfg, q.t, Long) == Success(None)
  {
    var calls, q := [CallAt(0), CallAt(1)], CallAt(1);
    ClosedRowsOf(0, cfg);
    ClosedRowsOf(1, cfg);
    SupportOfRows(0, cfg);
    SupportOfRows(1, cfg);
    assert Rows(0, 24)[23] == Row(23) == Rows(1, 24)[22];
    hide LinesOf, Rows, ClosedRows;
    assert LinesBefore(calls, cfg, 0) == map[];
    assert TransparentAt(calls, cfg, 0);
    CacheHolds(calls, cfg, 1, 1380);
    assert Fills(calls, cfg, LinesBefore(calls, cfg, 1), 1380, 0);
    TransparentAtIff(calls, cfg, 1);
    assert SameKey(calls[0], calls[1], cfg);
  }
}
