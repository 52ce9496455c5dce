/** What the higher-timeframe snapshots hold (services/strategy/ict.py, `build_h1_snapshot` and
    `build_h4_snapshot`), in terms of the candles they are built from. */
module SnapshotMeaning {
  import opened Prelude
  import opened IctSnapshot
  import opened Structure
  import opened Indicators
  import Levels
  import MarketStructure
  import OrderBlocks
  import IctTargets

  // ---------- liquidity ----------

  ghost predicate IsDayHigh(cs: seq<Candle>, day: int, x: real) {
    && (forall j :: 0 <= j < |cs| && cs[j].time / 1440 == day ==> cs[j].high <= x)
    && (exists j :: 0 <= j < |cs| && cs[j].time / 1440 == day && cs[j].high == x)
  }

  ghost predicate IsDayLow(cs: seq<Candle>, day: int, x: real) {
    && (forall j :: 0 <= j < |cs| && cs[j].time / 1440 == day ==> cs[j].low >= x)
    && (exists j :: 0 <= j < |cs| && cs[j].time / 1440 == day && cs[j].low == x)
  }

  lemma {:induction false} DayHighBounds(cs: seq<Candle>, day: int, start: real)
    ensures var x := DayHigh(cs, day, start);
      && x >= start && (forall j :: 0 <= j < |cs| && cs[j].time / 1440 == day ==> cs[j].high <= x)
      && (x == start || exists j :: 0 <= j < |cs| && cs[j].time / 1440 == day && cs[j].high == x)
  {
    if cs != [] {
      DayHighBounds(cs[..|cs| - 1], day, start);
      var rest := DayHigh(cs[..|cs| - 1], day, start);
      if DayHigh(cs, day, start) == rest && rest != start {
        var j :| 0 <= j < |cs| - 1 && cs[..|cs| - 1][j].time / 1440 == day && cs[..|cs| - 1][j].high == rest;
        assert cs[j].time / 1440 == day && cs[j].high == rest;
      }
      assert forall j :: 0 <= j < |cs| - 1 ==> cs[j] == cs[..|cs| - 1][j];
    }
  }

  lemma {:induction false} DayLowBounds(cs: seq<Candle>, day: int, start: real)
    ensures var x := DayLow(cs, day, start);
      && x <= start && (forall j :: 0 <= j < |cs| && cs[j].time / 1440 == day ==> cs[j].low >= x)
      && (x == start || exists j :: 0 <= j < |cs| && cs[j].time / 1440 == day && cs[j].low == x)
  {
    if cs != [] {
      DayLowBounds(cs[..|cs| - 1], day, start);
      var rest := DayLow(cs[..|cs| - 1], day, start);
      if DayLow(cs, day, start) == rest && rest != start {
        var j :| 0 <= j < |cs| - 1 && cs[..|cs| - 1][j].time / 1440 == day && cs[..|cs| - 1][j].low == rest;
        assert cs[j].time / 1440 == day && cs[j].low == rest;
      }
      assert forall j :: 0 <= j < |cs| - 1 ==> cs[j] == cs[..|cs| - 1][j];
    }
  }

  lemma DayExtremesAre(cs: seq<Candle>, i: nat)
    requires i < |cs|
    ensures IsDayHigh(cs, cs[i].time / 1440, DayHigh(cs, Day(cs[i]), cs[i].high))
    ensures IsDayLow(cs, cs[i].time / 1440, DayLow(cs, Day(cs[i]), cs[i].low))
  {
    DayHighBounds(cs, Day(cs[i]), cs[i].high);
    DayLowBounds(cs, Day(cs[i]), cs[i].low);
  }

  lemma OneDayHigh(cs: seq<Candle>, day: int, x: real, y: real)
    requires IsDayHigh(cs, day, x) && IsDayHigh(cs, day, y)
    ensures x == y
  {
  }

  lemma OneDayLow(cs: seq<Candle>, day: int, x: real, y: real)
    requires IsDayLow(cs, day, x) && IsDayLow(cs, day, y)
    ensures x == y
  {
  }

  /** The level is liquidity, given the extremes of the day of candle `i`. */
  ghost predicate LiquidOn(cs: seq<Candle>, i: nat, level: real, above: bool, cfg: IctConfig)
    requires i < |cs|
  {
    exists high, low :: IsDayHigh(cs, cs[i].time / 1440, high) && IsDayLow(cs, cs[i].time / 1440, low)
                        && IctTargets.Liquid(cfg, level, above, high, low)
  }

  lemma LiquidOnIff(cs: seq<Candle>, i: nat, level: real, above: bool, cfg: IctConfig)
    requires i < |cs|
    ensures LiquidOn(cs, i, level, above, cfg)
       <==> !Excluded(level, above, cfg, DayHigh(cs, Day(cs[i]), cs[i].high), DayLow(cs, Day(cs[i]), cs[i].low))
  {
    hide IsDayHigh, IsDayLow, Excluded, IctTargets.Liquid, DayHigh, DayLow, Day;
    var x, y := DayHigh(cs, Day(cs[i]), cs[i].high), DayLow(cs, Day(cs[i]), cs[i].low);
    DayExtremesAre(cs, i);
    IctTargets.LiquidIff(cfg, level, above, x, y);
    if LiquidOn(cs, i, level, above, cfg) {
      var high, low :| IsDayHigh(cs, cs[i].time / 1440, high) && IsDayLow(cs, cs[i].time / 1440, low)
                       && IctTargets.Liquid(cfg, level, above, high, low);
      OneDayHigh(cs, cs[i].time / 1440, high, x);
      OneDayLow(cs, cs[i].time / 1440, low, y);
    }
  }

  /** A swing level that is liquidity, or the mean of a cluster of at least two swing levels. */
  ghost predicate IsPool(cs: seq<Candle>, ps: seq<Pivot>, above: bool, tol: real, cfg: IctConfig, p: Pool)
    requires OnCandles(cs, ps)
  {
    match p.kind
    case SwingPool => exists i :: 0 <= i < |ps| && ps[i].level == p.level && LiquidOn(cs, ps[i].idx, p.level, above, cfg)
    case EqualPool => |ps| >= 2 && MeanOfCluster(Levels.Clusters(Structure.Levels(ps), tol), p.level)
  }

  ghost predicate MeanOfCluster(clusters: seq<seq<real>>, level: real) {
    exists c :: 0 <= c < |clusters| && IsMeanOfMany(clusters[c], level)
  }

  ghost predicate IsMeanOfMany(xs: seq<real>, level: real) {
    |xs| >= 2 && level * |xs| as real == Total(xs)
  }

  lemma {:induction false} SwingPoolIff(cs: seq<Candle>, ps: seq<Pivot>, above: bool, cfg: IctConfig, p: Pool)
    requires OnCandles(cs, ps)
    ensures p in SwingPools(cs, ps, above, cfg)
       <==> p.kind == SwingPool && exists i :: 0 <= i < |ps| && ps[i].level == p.level && LiquidOn(cs, ps[i].idx, p.level, above, cfg)
  {
    hide LiquidOn, Excluded, DayHigh, DayLow;
    if ps != [] {
      var front, last := ps[..|ps| - 1], ps[|ps| - 1];
      SwingPoolIff(cs, front, above, cfg, p);
      LiquidOnIff(cs, last.idx, last.level, above, cfg);
      assert forall i :: 0 <= i < |front| ==> front[i] == ps[i];
      if i :| 0 <= i < |ps| && ps[i].level == p.level && LiquidOn(cs, ps[i].idx, p.level, above, cfg) {
        assert i < |front| ==> front[i].level == p.level && LiquidOn(cs, front[i].idx, p.level, above, cfg);
      }
    }
  }

  lemma {:induction false} SumIsTotal(xs: seq<real>)
    ensures Sum(xs) == Total(xs)
  {
    hide Total;
    if xs == [] {
      TotalOfNone();
    } else {
      SumIsTotal(xs[..|xs| - 1]);
      TotalSnoc(xs[..|xs| - 1], xs[|xs| - 1]);
      assert xs == xs[..|xs| - 1] + [xs[|xs| - 1]];
    }
  }

  lemma QuotientIff(level: real, sum: real, count: real)
    requires count > 0.0
    ensures level == sum / count <==> level * count == sum
  {
    assert sum / count * count == sum;
    assert (level - sum / count) * count == level * count - sum;
  }

  lemma {:induction false} EqualPoolIff(clusters: seq<seq<real>>, p: Pool)
    ensures p in EqualPools(clusters) <==> p.kind == EqualPool && MeanOfCluster(clusters, p.level)
  {
    hide Sum, IsMeanOfMany;
    if clusters != [] {
      var front, last := clusters[..|clusters| - 1], clusters[|clusters| - 1];
      EqualPoolIff(front, p);
      ManyIff(last, p.level);
      assert forall c :: 0 <= c < |front| ==> front[c] == clusters[c];
      if c :| 0 <= c < |clusters| && IsMeanOfMany(clusters[c], p.level) {
        assert c < |front| ==> IsMeanOfMany(front[c], p.level);
      }
    }
  }

  lemma ManyIff(xs: seq<real>, level: real)
    ensures IsMeanOfMany(xs, level) <==> |xs| >= 2 && level == Sum(xs) / |xs| as real
  {
    hide Sum, Total;
    SumIsTotal(xs);
    if |xs| >= 2 {
      QuotientIff(level, Sum(xs), |xs| as real);
    }
  }

  /** The pools of a side are exactly its liquid swings and the means of its clusters. */
  lemma PoolIff(cs: seq<Candle>, ps: seq<Pivot>, above: bool, tol: real, cfg: IctConfig, p: Pool)
    requires OnCandles(cs, ps)
    ensures p in LiquidityLevels(cs, ps, above, tol, cfg) <==> IsPool(cs, ps, above, tol, cfg, p)
  {
    hide LiquidOn, MeanOfCluster, Levels.Clusters;
    SwingPoolIff(cs, ps, above, cfg, p);
    EqualPoolIff(Levels.Clusters(Structure.Levels(ps), tol), p);
  }

  // ---------- standing blocks ----------

  /** No close after the block's own candle is beyond its far edge. */
  ghost predicate Stands(closes: seq<real>, b: OrderBlocks.Block) {
    forall k :: b.idx < k < |closes| ==> if b.side == Bull then closes[k] >= b.lo else closes[k] <= b.hi
  }

  lemma {:induction false} StandingAre(blocks: seq<OrderBlocks.Block>, closes: seq<real>, side: Side)
    requires OrderBlocks.OnePerDisplacement(blocks)
    ensures var standing := Standing(blocks, closes, side);
      && OrderBlocks.OnePerDisplacement(standing)
      && forall b :: b in standing <==> b in blocks && b.side == side && Stands(closes, b)
  {
    hide Stands, OrderBlocks.Mitigated;
    if blocks != [] {
      var front, last := blocks[..|blocks| - 1], blocks[|blocks| - 1];
      StandingAre(front, closes, side);
      StandsIff(closes, last);
      var rest := Standing(front, closes, side);
      assert blocks == front + [last];
      forall i | 0 <= i < |rest|
        ensures rest[i].dispIdx < last.dispIdx
      {
        assert rest[i] in front;
      }
    }
  }

  lemma StandsIff(closes: seq<real>, b: OrderBlocks.Block)
    ensures Stands(closes, b) <==> !OrderBlocks.Mitigated(closes, b, b.idx + 1)
  {
    OrderBlocks.MitigatedIff(closes, b, b.idx + 1);
  }

  // ---------- the snapshots ----------

  /** The side of the last event, if there is one. */
  ghost predicate SideOfLast(bos: seq<Bos>, bias: Option<Direction>) {
    match bias
    case None => bos == []
    case Some(Long) => bos != [] && bos[|bos| - 1].side == Bull
    case Some(Short) => bos != [] && bos[|bos| - 1].side == Bear
  }

  ghost predicate BlocksAre(h1: seq<Candle>, cfg: IctConfig, side: Side, blocks: seq<OrderBlocks.Block>) {
    && OrderBlocks.OnePerDisplacement(blocks)
    && forall b :: b in blocks
              <==> b.side == side && Stands(Closes(h1), b)
                   && OrderBlocks.Genuine(OrderBlocks.Bodies(Opens(h1), Closes(h1), Highs(h1), Lows(h1)), cfg.displacement, b)
  }

  ghost predicate IsMeanAtr(h1: seq<Candle>, mean: real) {
    var present := Finite(AtrArray(h1, 14));
    if present == [] then mean == 1.0 else mean * |present| as real == Total(present)
  }

  lemma BiasIs(bos: seq<Bos>)
    ensures SideOfLast(bos, Bias(bos))
  {
  }

  lemma StandingBlocksAre(h1: seq<Candle>, cfg: IctConfig, side: Side)
    requires cfg.Valid()
    ensures var bodies := OrderBlocks.Bodies(Opens(h1), Closes(h1), Highs(h1), Lows(h1));
      BlocksAre(h1, cfg, side, Standing(OrderBlocks.BlocksBelow(bodies, cfg.displacement, |h1|), Closes(h1), side))
  {
    hide Standing, Stands, OrderBlocks.BlocksBelow, OrderBlocks.Genuine, Opens, Closes, Highs, Lows;
    var bodies := OrderBlocks.Bodies(Opens(h1), Closes(h1), Highs(h1), Lows(h1));
    var blocks := OrderBlocks.BlocksBelow(bodies, cfg.displacement, |h1|);
    OrderBlocks.BlocksInOrder(bodies, cfg.displacement, |h1|);
    StandingAre(blocks, Closes(h1), side);
    forall b
      ensures b in blocks <==> OrderBlocks.Genuine(bodies, cfg.displacement, b)
    {
      OrderBlocks.BlocksAreGenuine(bodies, cfg.displacement, |h1|, b);
      if OrderBlocks.Genuine(bodies, cfg.displacement, b) {
        DisplacedWithin(bodies, cfg.displacement, b);
      }
    }
  }

  lemma MeanAtrIs(h1: seq<Candle>)
    ensures IsMeanAtr(h1, NanMean(AtrArray(h1, MarketStructure.ATR_PERIOD)))
  {
    hide AtrArray, NanMean, Finite, Total;
    NanMeanIs(AtrArray(h1, 14));
  }

  /** An H1 snapshot takes forty closed candles and holds their length and mean ATR, the side of the
      last break, and the standing blocks of each side in order. */
  lemma H1SnapshotIs(h1: seq<Candle>, cfg: IctConfig)
    requires cfg.Valid()
    ensures BuildH1Snapshot(h1, cfg).Some? <==> |h1| >= 40
    ensures |h1| >= 40 ==>
              var snap := BuildH1Snapshot(h1, cfg).value;
              && snap.h1Len == |h1| && IsMeanAtr(h1, snap.atrMean)
              && snap.bos == MarketStructure.BosOf(h1, cfg.swingFloorAtr) && SideOfLast(snap.bos, snap.bias)
              && BlocksAre(h1, cfg, Bull, snap.buyBlocks) && BlocksAre(h1, cfg, Bear, snap.sellBlocks)
  {
    hide AtrArray, NanMean, IsMeanAtr, Standing, BlocksAre, SideOfLast, Bias, LiquidityLevels, OrderBlocks.BlocksBelow,
         MarketStructure.BosOf, MarketStructure.PivotsIn, LimitsOf, Opens, Closes, Highs, Lows;
    if |h1| >= 40 {
      MeanAtrIs(h1);
      BiasIs(MarketStructure.BosOf(h1, cfg.swingFloorAtr));
      StandingBlocksAre(h1, cfg, Bull);
      StandingBlocksAre(h1, cfg, Bear);
    }
  }

  lemma DisplacedWithin(bodies: OrderBlocks.Bodies, p: OrderBlocks.Params, b: OrderBlocks.Block)
    requires bodies.Valid() && OrderBlocks.Genuine(bodies, p, b)
    ensures b.dispIdx < |bodies.closes|
  {
  }

  ghost predicate PoolsAre(h1: seq<Candle>, ps: seq<Pivot>, above: bool, cfg: IctConfig, tol: real, pools: seq<Pool>)
    requires OnCandles(h1, ps)
  {
    forall p :: p in pools <==> IsPool(h1, ps, above, tol, cfg, p)
  }

  lemma LevelsArePools(h1: seq<Candle>, ps: seq<Pivot>, above: bool, cfg: IctConfig, tol: real)
    requires OnCandles(h1, ps)
    ensures PoolsAre(h1, ps, above, cfg, tol, LiquidityLevels(h1, ps, above, tol, cfg))
  {
    forall p: Pool
      ensures p in LiquidityLevels(h1, ps, above, tol, cfg) <==> IsPool(h1, ps, above, tol, cfg, p)
    {
      PoolIff(h1, ps, above, tol, cfg, p);
    }
  }

  /** Its swings are those of the candles; its lower pools come from the lows and its upper ones from the
      highs, levels being equal within the configured part of the mean ATR. */
  lemma H1PoolsAre(h1: seq<Candle>, cfg: IctConfig, tol: real)
    requires cfg.Valid() && |h1| >= 40 && tol == cfg.eqToleranceAtr * BuildH1Snapshot(h1, cfg).value.atrMean
    ensures var snap := BuildH1Snapshot(h1, cfg).value;
      && snap.swingHighs == MarketStructure.PivotsIn(h1, cfg.swingFloorAtr, High)
      && snap.swingLows == MarketStructure.PivotsIn(h1, cfg.swingFloorAtr, Low)
      && OnCandles(h1, snap.swingHighs) && OnCandles(h1, snap.swingLows)
      && PoolsAre(h1, snap.swingLows, false, cfg, tol, snap.sellLiquidity)
      && PoolsAre(h1, snap.swingHighs, true, cfg, tol, snap.buyLiquidity)
  {
    hide BuildH1Snapshot, LiquidityLevels;
    H1PoolFields(h1, cfg);
    var snap := BuildH1Snapshot(h1, cfg).value;
    assert EqualTolerance(cfg, snap.atrMean) == tol;
    LevelsArePools(h1, snap.swingLows, false, cfg, tol);
    LevelsArePools(h1, snap.swingHighs, true, cfg, tol);
  }

  lemma H1PoolFields(h1: seq<Candle>, cfg: IctConfig)
    requires cfg.Valid() && |h1| >= 40
    ensures BuildH1Snapshot(h1, cfg).Some?
    ensures var snap := BuildH1Snapshot(h1, cfg).value;
      && snap.swingHighs == MarketStructure.PivotsIn(h1, cfg.swingFloorAtr, High)
      && snap.swingLows == MarketStructure.PivotsIn(h1, cfg.swingFloorAtr, Low)
      && OnCandles(h1, snap.swingHighs) && OnCandles(h1, snap.swingLows)
      && snap.sellLiquidity == LiquidityLevels(h1, snap.swingLows, false, EqualTolerance(cfg, snap.atrMean), cfg)
      && snap.buyLiquidity == LiquidityLevels(h1, snap.swingHighs, true, EqualTolerance(cfg, snap.atrMean), cfg)
  {
    hide AtrArray, NanMean, Standing, Bias, SwingPools, EqualPools, OrderBlocks.BlocksBelow, EqualTolerance,
         MarketStructure.BosOf, MarketStructure.PivotsIn, LimitsOf, Opens, Closes, Highs, Lows;
    PivotsInRange(h1, cfg.swingFloorAtr, High);
    PivotsInRange(h1, cfg.swingFloorAtr, Low);
  }

  /** An H4 snapshot takes twenty closed candles and holds the side of their last break. */
  lemma H4SnapshotIs(h4: seq<Candle>, cfg: IctConfig)
    ensures BuildH4Snapshot(h4, cfg).Some? <==> |h4| >= 20
    ensures |h4| >= 20 ==> SideOfLast(MarketStructure.BosOf(h4, cfg.swingFloorAtr), BuildH4Snapshot(h4, cfg).value.bias)
  {
    hide MarketStructure.BosOf;
  }

  /** The swings that everything above starts from are the fractals that stand out by the floor
      multiple of the fourteen-candle ATR. */
  lemma SwingsAre(cs: seq<Candle>, floorMult: real, i: nat)
    ensures var a := AtrArray(cs, 14);
      && (HasPivot(MarketStructure.PivotsIn(cs, floorMult, High), i)
          <==> 2 <= i && i + 2 < |cs| && HighestOfFive(Highs(cs), i) && a[i].Some?
               && StandsAbove(Lows(cs), i, cs[i].high, floorMult * a[i].value))
      && (HasPivot(MarketStructure.PivotsIn(cs, floorMult, Low), i)
          <==> 2 <= i && i + 2 < |cs| && LowestOfFive(Lows(cs), i) && a[i].Some?
               && StandsBelow(Highs(cs), i, cs[i].low, floorMult * a[i].value))
  {
    hide Swings, Pivots, AtrArray;
    assert MarketStructure.SwingsOf(cs, floorMult) == Swings(Highs(cs), Lows(cs), AtrArray(cs, 14), floorMult);
    if 2 <= i && i + 2 < |cs| {
      assert Highs(cs)[i] == cs[i].high && Lows(cs)[i] == cs[i].low;
    }
    assert HasPivot(MarketStructure.PivotsIn(cs, floorMult, High), i)
        == HasPivot(Pivots(Swings(Highs(cs), Lows(cs), AtrArray(cs, 14), floorMult), High), i);
    SwingHighIff(Highs(cs), Lows(cs), AtrArray(cs, 14), floorMult, i);
    SwingLowIff(Highs(cs), Lows(cs), AtrArray(cs, 14), floorMult, i);
  }
}
