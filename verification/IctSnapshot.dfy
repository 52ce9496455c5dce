/** Higher-timeframe snapshots of the ICT strategy (services/strategy/ict.py): pure functions of
    a prefix of closed candles. */
module IctSnapshot {
  import opened Prelude
  import opened Structure
  import Indicators
  import Levels
  import MarketStructure
  import OrderBlocks
  import Trendlines
  import TrendlineSearch

  datatype IctConfig = IctConfig(
    swingFloorAtr: real, eqToleranceAtr: real,
    roundNumberStep: real, roundNumberTol: real, excludeSessionHighLow: bool,
    displacement: OrderBlocks.Params,
    minTouches: int, toleranceAtr: real, maxSwings: nat, recentBars: int,
    maxDistancePoints: real, freshBars: int, lookbackBars: int,
    slBufferAtr: real, minRr: real, maxAttempts: int)
  {
    predicate Valid() {
      displacement.period >= 1
    }
  }

  datatype PoolKind = SwingPool | EqualPool

  datatype Pool = Pool(kind: PoolKind, level: real)

  datatype H1Snapshot = H1Snapshot(
    h1Len: nat, atrMean: real,
    swingHighs: seq<Pivot>, swingLows: seq<Pivot>, bos: seq<Bos>, bias: Option<Direction>,
    buyBlocks: seq<OrderBlocks.Block>, sellBlocks: seq<OrderBlocks.Block>,
    sellLiquidity: seq<Pool>, buyLiquidity: seq<Pool>,
    support: Option<Trendlines.Line>, resistance: Option<Trendlines.Line>)

  datatype H4Snapshot = H4Snapshot(bias: Option<Direction>)

  const MINUTES_PER_DAY := 1440

  function Day(c: Candle): int {
    c.time / MINUTES_PER_DAY
  }

  function NearestMultiple(level: real, step: real): real
    requires step > 0.0
  {
    RoundHalfEven(level / step) as real * step
  }

  /** Levels at the day's own extreme or near a round number are not liquidity. */
  predicate Excluded(level: real, above: bool, cfg: IctConfig, dayHigh: real, dayLow: real) {
    || (cfg.excludeSessionHighLow && above && Abs(level - dayHigh) <= cfg.roundNumberTol)
    || (cfg.excludeSessionHighLow && !above && Abs(level - dayLow) <= cfg.roundNumberTol)
    || (cfg.roundNumberStep > 0.0
        && Abs(level - NearestMultiple(level, cfg.roundNumberStep)) <= cfg.roundNumberTol)
  }

  /** The highest high of the candles of the given day; that of `cs[i]` counts in any case. */
  function DayHigh(cs: seq<Candle>, day: int, start: real): real {
    if cs == [] then start
    else
      var c, rest := cs[|cs| - 1], DayHigh(cs[..|cs| - 1], day, start);
      if Day(c) == day then Max(rest, c.high) else rest
  }

  function DayLow(cs: seq<Candle>, day: int, start: real): real {
    if cs == [] then start
    else
      var c, rest := cs[|cs| - 1], DayLow(cs[..|cs| - 1], day, start);
      if Day(c) == day then Min(rest, c.low) else rest
  }

  ghost predicate OnCandles(cs: seq<Candle>, ps: seq<Pivot>) {
    forall p :: 0 <= p < |ps| ==> ps[p].idx < |cs|
  }

  function SwingPools(cs: seq<Candle>, ps: seq<Pivot>, above: bool, cfg: IctConfig): seq<Pool>
    requires OnCandles(cs, ps)
  {
    if ps == [] then []
    else
      var p := ps[|ps| - 1];
      var c := cs[p.idx];
      var excluded := Excluded(p.level, above, cfg, DayHigh(cs, Day(c), c.high), DayLow(cs, Day(c), c.low));
      SwingPools(cs, ps[..|ps| - 1], above, cfg) + (if excluded then [] else [Pool(SwingPool, p.level)])
  }

  function Sum(xs: seq<real>): real {
    if xs == [] then 0.0 else Sum(xs[..|xs| - 1]) + xs[|xs| - 1]
  }

  function EqualPools(clusters: seq<seq<real>>): seq<Pool> {
    if clusters == [] then []
    else
      var c := clusters[|clusters| - 1];
      EqualPools(clusters[..|clusters| - 1])
      + (if |c| >= 2 then [Pool(EqualPool, Sum(c) / |c| as real)] else [])
  }

  function LiquidityLevels(cs: seq<Candle>, ps: seq<Pivot>, above: bool, tol: real, cfg: IctConfig): seq<Pool>
    requires OnCandles(cs, ps)
  {
    SwingPools(cs, ps, above, cfg)
    + (if |ps| >= 2 then EqualPools(Levels.Clusters(Structure.Levels(ps), tol)) else [])
  }

  function Bias(bos: seq<Bos>): Option<Direction> {
    if bos == [] then None else Some(if bos[|bos| - 1].side == Bull then Long else Short)
  }

  /** The blocks of one side that no later body has closed through. */
  function Standing(blocks: seq<OrderBlocks.Block>, closes: seq<real>, side: Side): seq<OrderBlocks.Block> {
    if blocks == [] then []
    else
      var b := blocks[|blocks| - 1];
      Standing(blocks[..|blocks| - 1], closes, side)
      + (if b.side == side && !OrderBlocks.Mitigated(closes, b, b.idx + 1) then [b] else [])
  }

  lemma PivotsInRange(cs: seq<Candle>, floorMult: real, kind: Kind)
    ensures var ps := MarketStructure.PivotsIn(cs, floorMult, kind);
      OnCandles(cs, ps) && Trendlines.InRange(Highs(cs), ps) && Trendlines.InRange(Lows(cs), ps)
      && (kind == High ==> Trendlines.OnWicks(Highs(cs), ps))
      && (kind == Low ==> Trendlines.OnWicks(Lows(cs), ps))
  {
    hide IsSwing;
    SwingsArePivots(kind, Highs(cs), Lows(cs), Indicators.AtrArray(cs, MarketStructure.ATR_PERIOD), floorMult,
                    if |cs| < 2 then 0 else |cs| - 2);
  }

  function LimitsOf(h1: seq<Candle>, cfg: IctConfig): Trendlines.Limits {
    Trendlines.Limits(cfg.minTouches,
                      Trendlines.Tolerance(cfg.toleranceAtr, Indicators.AtrArray(h1, MarketStructure.ATR_PERIOD)), cfg.recentBars)
  }

  /** How far apart two equal levels may be. */
  function EqualTolerance(cfg: IctConfig, atrMean: real): real {
    cfg.eqToleranceAtr * atrMean
  }

  function BuildH1Snapshot(h1: seq<Candle>, cfg: IctConfig): Option<H1Snapshot>
    requires cfg.Valid()
  {
    if |h1| < 40 then None
    else
      var atr := Indicators.AtrArray(h1, MarketStructure.ATR_PERIOD);
      var atrMean := Indicators.NanMean(atr);
      var highs := MarketStructure.PivotsIn(h1, cfg.swingFloorAtr, High);
      var lows := MarketStructure.PivotsIn(h1, cfg.swingFloorAtr, Low);
      var bos := MarketStructure.BosOf(h1, cfg.swingFloorAtr);
      var bodies := OrderBlocks.Bodies(Opens(h1), Closes(h1), Highs(h1), Lows(h1));
      var blocks := OrderBlocks.BlocksBelow(bodies, cfg.displacement, |h1|);
      var tol := EqualTolerance(cfg, atrMean);
      PivotsInRange(h1, cfg.swingFloorAtr, High);
      PivotsInRange(h1, cfg.swingFloorAtr, Low);
      var lim := LimitsOf(h1, cfg);
      Some(H1Snapshot(
             |h1|, atrMean, highs, lows, bos, Bias(bos),
             Standing(blocks, Closes(h1), Bull), Standing(blocks, Closes(h1), Bear),
             LiquidityLevels(h1, lows, false, tol, cfg), LiquidityLevels(h1, highs, true, tol, cfg),
             Trendlines.BestLine(Trendlines.Support, Lows(h1), lows, lim, cfg.maxSwings),
             Trendlines.BestLine(Trendlines.Resistance, Highs(h1), highs, lim, cfg.maxSwings)))
  }

  function BuildH4Snapshot(h4: seq<Candle>, cfg: IctConfig): Option<H4Snapshot> {
    if |h4| < 20 then None else Some(H4Snapshot(Bias(MarketStructure.BosOf(h4, cfg.swingFloorAtr))))
  }

  /** The H1 trendlines that a snapshot carries are best among the qualifying ones of the prefix: no
      line of their kind has more touches, or as many and a later last one. */
  lemma SnapshotLinesAreBest(h1: seq<Candle>, cfg: IctConfig)
    requires cfg.Valid() && |h1| >= 40
    requires cfg.recentBars <= 1000 || (|h1| <= 1003 && ValidCandles(h1) && cfg.toleranceAtr >= 0.0)
    ensures var snap := BuildH1Snapshot(h1, cfg);
      && snap.Some?
      && LineIsBest(Trendlines.Support, Lows(h1), MarketStructure.PivotsIn(h1, cfg.swingFloorAtr, Low), h1, cfg, snap.value.support)
      && LineIsBest(Trendlines.Resistance, Highs(h1), MarketStructure.PivotsIn(h1, cfg.swingFloorAtr, High), h1, cfg,
                    snap.value.resistance)
  {
    var atr := Indicators.AtrArray(h1, MarketStructure.ATR_PERIOD);
    var lim := LimitsOf(h1, cfg);
    PivotsInRange(h1, cfg.swingFloorAtr, High);
    PivotsInRange(h1, cfg.swingFloorAtr, Low);
    if cfg.recentBars > 1000 {
      Indicators.MeanAtrNonNegative(h1, MarketStructure.ATR_PERIOD);
      var mean := Indicators.NanMean(atr);
      assert mean >= 0.0 && lim.tol == cfg.toleranceAtr * mean;
      assert lim.tol >= 0.0;
    }
    hide Indicators.AtrArray, Indicators.NanMean, MarketStructure.PivotsIn;
    TrendlineSearch.DetectedIsBest(Trendlines.Support, Lows(h1), MarketStructure.PivotsIn(h1, cfg.swingFloorAtr, Low), lim, cfg.maxSwings);
    TrendlineSearch.DetectedIsBest(Trendlines.Resistance, Highs(h1), MarketStructure.PivotsIn(h1, cfg.swingFloorAtr, High), lim,
                                   cfg.maxSwings);
  }

  ghost predicate LineIsBest(kind: Trendlines.LineKind, wicks: seq<real>, swings: seq<Pivot>, h1: seq<Candle>, cfg: IctConfig,
                             line: Option<Trendlines.Line>)
  {
    && Trendlines.InRange(wicks, swings)
    && TrendlineSearch.Unbeaten(kind, wicks, Trendlines.LastSwings(swings, cfg.maxSwings), LimitsOf(h1, cfg), line)
  }
}
