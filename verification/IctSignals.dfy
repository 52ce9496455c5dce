/** Where the signals of the ICT strategy come from (services/strategy/ict.py): every signal of a
    run goes back to a recent sweep of a liquidity level that has held ever since, and its stop and
    target are on the right sides of its price. */
module IctSignals {
  import opened Prelude
  import opened IctSnapshot
  import opened IctTracker
  import opened IctAttempts
  import opened IctReplay
  import Sizing
  import Structure
  import OrderBlocks
  import Trendlines

  function ReachOf(cfg: IctConfig): real {
    cfg.maxDistancePoints / 100.0
  }

  /** Evaluation `k` lies in a session and wicks through `level`, the swept pool nearest to its
      close. */
  ghost predicate SweptAt(cfg: IctConfig, ticks: seq<Tick>, k: int, d: Direction, level: real) {
    && 0 <= k < |ticks| && ticks[k].inSession
    && NearestSwept(SweepPools(ticks[k].h1, d), ticks[k].candle, d, ReachOf(cfg), level)
  }

  ghost predicate NearestSwept(pools: seq<Pool>, c: Candle, d: Direction, reach: real, level: real) {
    && WickedThrough(c, d, level, reach)
    && (exists p :: p in pools && p.level == level)
    && (forall p :: p in pools && WickedThrough(c, d, p.level, reach) ==> if d == Long then p.level <= level else p.level >= level)
  }

  /** The wick went through the level and the close came back, no further from it than the reach. */
  ghost predicate WickedThrough(c: Candle, d: Direction, level: real, reach: real) {
    match d
    case Long => c.low < level && level < c.close && c.close - level <= reach
    case Short => c.high > level && level > c.close && level - c.close <= reach
  }

  lemma SweptIs(c: Candle, d: Direction, level: real, reach: real)
    ensures SweptBy(c, d, level, reach) <==> WickedThrough(c, d, level, reach)
  {
  }

  predicate Respects(d: Direction, close: real, level: real) {
    if d == Long then close >= level else close <= level
  }

  /** No evaluation in session from `k` on, up to `n` (excluded), closed through the level. */
  ghost predicate Held(ticks: seq<Tick>, k: int, n: nat, d: Direction, level: real)
    requires n <= |ticks|
  {
    forall j :: 0 <= k <= j < n && ticks[j].inSession ==> Respects(d, ticks[j].candle.close, level)
  }

  /** An active setup was opened by a sweep among the first `m` evaluations and its level held
      through the first `n`. */
  ghost predicate Pending(cfg: IctConfig, ticks: seq<Tick>, d: Direction, s: Setup, m: nat, n: nat)
    requires m <= |ticks| && n <= |ticks|
  {
    && !s.confirmed && s.sweepIdx < m
    && SweptAt(cfg, ticks, s.sweepIdx, d, s.level)
    && s.sweepTime == ticks[s.sweepIdx].candle.time
    && Held(ticks, s.sweepIdx, n, d, s.level)
  }

  ghost predicate Tracked(cfg: IctConfig, ticks: seq<Tick>, t: Tracker, d: Direction, m: nat, n: nat)
    requires m <= |ticks| && n <= |ticks|
  {
    IsActive(SetupOf(t, d)) ==> Pending(cfg, ticks, d, SetupOf(t, d).value, m, n)
  }

  // ---------- what confirms a sweep ----------

  /** The block reaches the level, with the stop buffer and half an ATR to spare on its far side. */
  ghost predicate Reaches(cfg: IctConfig, d: Direction, b: OrderBlocks.Block, level: real, atr: real) {
    match d
    case Long => b.lo - cfg.slBufferAtr * atr - 0.5 * atr <= level && level <= b.hi
    case Short => b.lo <= level && level <= b.hi + cfg.slBufferAtr * atr + 0.5 * atr
  }

  ghost predicate IsFirstReaching(cfg: IctConfig, d: Direction, blocks: seq<OrderBlocks.Block>, level: real, atr: Option<real>,
                                  b: OrderBlocks.Block)
  {
    exists i: nat :: FirstReaching(cfg, d, blocks, level, atr, i) && blocks[i] == b
  }

  /** The first of the blocks that reaches the level is the `i`th. */
  ghost predicate FirstReaching(cfg: IctConfig, d: Direction, blocks: seq<OrderBlocks.Block>, level: real, atr: Option<real>, i: nat) {
    && atr.Some? && i < |blocks| && Reaches(cfg, d, blocks[i], level, atr.value)
    && forall j :: 0 <= j < i ==> !Reaches(cfg, d, blocks[j], level, atr.value)
  }

  ghost predicate NoneReaching(cfg: IctConfig, d: Direction, blocks: seq<OrderBlocks.Block>, level: real, atr: Option<real>) {
    atr.Some? ==> forall j :: 0 <= j < |blocks| ==> !Reaches(cfg, d, blocks[j], level, atr.value)
  }

  /** The line of the snapshot is within one and a half ATRs of the level. */
  ghost predicate LineNear(h1: H1Snapshot, line: Option<Trendlines.Line>, level: real, atr: Option<real>) {
    && atr.Some? && line.Some?
    && var v := Trendlines.ValueAt(line.value, h1.h1Len - 1); v - level <= 1.5 * atr.value && level - v <= 1.5 * atr.value
  }

  ghost predicate IsEdges(d: Direction, b: OrderBlocks.Block, far: real, edge: real) {
    if d == Long then far == b.hi && edge == b.lo else far == b.lo && edge == b.hi
  }

  /** An order block that reaches the level, else a trendline near it, else both biases; `far` is the
      edge that the close has to clear, `edge` the one the stop is put behind. */
  ghost predicate Evidence(cfg: IctConfig, tick: Tick, d: Direction, level: real, kind: PlusOneKind, far: real, edge: real) {
    var blocks := if d == Long then tick.h1.buyBlocks else tick.h1.sellBlocks;
    var line := if d == Long then tick.h1.support else tick.h1.resistance;
    match kind
    case OrderBlock =>
      exists b :: IsFirstReaching(cfg, d, blocks, level, tick.atr, b) && IsEdges(d, b, far, edge)
    case TrendlineBounce =>
      && NoneReaching(cfg, d, blocks, level, tick.atr) && LineNear(tick.h1, line, level, tick.atr)
      && far == edge == Trendlines.ValueAt(line.value, tick.h1.h1Len - 1)
    case HtfAlignment =>
      && NoneReaching(cfg, d, blocks, level, tick.atr) && !LineNear(tick.h1, line, level, tick.atr)
      && tick.h1.bias == Some(d) && tick.h4.bias == Some(d) && far == edge == level
  }

  /** The evidence is there, the H4 bias is not against it and the close has cleared its far edge. */
  ghost predicate ConfirmedBy(cfg: IctConfig, tick: Tick, d: Direction, level: real, kind: PlusOneKind, edge: real) {
    exists far :: Evidence(cfg, tick, d, level, kind, far, edge)
                  && (if d == Long then tick.candle.close > far && tick.h4.bias != Some(Short)
                      else tick.candle.close < far && tick.h4.bias != Some(Long))
  }

  // ---------- what a signal holds ----------

  ghost predicate Ahead(d: Direction, entry: real, level: real) {
    if d == Long then level > entry else level < entry
  }

  /** Target `k` was recorded after the sweep, lies ahead of the entry, and no other such is nearer. */
  ghost predicate NearestTarget(targets: seq<(int, real)>, d: Direction, sweepIdx: int, entry: real, k: nat)
    requires k < |targets|
  {
    && targets[k].0 > sweepIdx && Ahead(d, entry, targets[k].1)
    && forall j :: 0 <= j < |targets| && targets[j].0 > sweepIdx && Ahead(d, entry, targets[j].1) ==>
         if d == Long then targets[k].1 <= targets[j].1 else targets[k].1 >= targets[j].1
  }

  /** The stop behind the edge by the buffer, the nearest target, and the reward as their ratio. */
  ghost predicate Priced(cfg: IctConfig, tick: Tick, d: Direction, sweepIdx: int, edge: real, targets: seq<(int, real)>, g: Signal) {
    exists k: nat, reward :: PricedBy(cfg, tick, d, sweepIdx, edge, targets, g, k, reward)
  }

  function StopOf(cfg: IctConfig, tick: Tick, d: Direction, edge: real): real {
    var buffer := cfg.slBufferAtr * (if tick.atr.Some? then tick.atr.value else 1.0);
    if d == Long then edge - buffer else edge + buffer
  }

  ghost predicate PricedBy(cfg: IctConfig, tick: Tick, d: Direction, sweepIdx: int, edge: real, targets: seq<(int, real)>, g: Signal,
                           k: nat, reward: real)
  {
    var entry, sl := tick.candle.close, StopOf(cfg, tick, d, edge);
    && k < |targets| && NearestTarget(targets, d, sweepIdx, entry, k) && g.tp == Round2(targets[k].1)
    && g.sl == Round2(sl) && (if d == Long then sl < entry && edge < entry else sl > entry && edge > entry)
    && RewardIs(d, entry, sl, targets[k].1, reward) && reward >= cfg.minRr && g.rr == Round2(reward)
  }

  /** The reward times the risk is the distance to the target. */
  ghost predicate RewardIs(d: Direction, entry: real, sl: real, tp: real, reward: real) {
    if d == Long then reward * (entry - sl) == tp - entry else reward * (sl - entry) == entry - tp
  }

  /** The signal of evaluation `n` confirms a setup that the sweep at `k` opened; `t` is the tracker
      after it. */
  ghost predicate ConfirmsSweep(cfg: IctConfig, ticks: seq<Tick>, n: nat, t: Tracker, g: Signal, k: int, level: real)
    requires n < |ticks|
  {
    && SweptAt(cfg, ticks, k, g.direction, level) && k <= n
    && n - k <= cfg.lookbackBars && (k < n ==> n - k <= cfg.freshBars)
    && Held(ticks, k, n, g.direction, level)
    && g.sweepLevel == Round2(level) && g.sweepTime == ticks[k].candle.time
    && exists edge ::
         && ConfirmedBy(cfg, ticks[n], g.direction, level, g.setup, edge) && g.structuralLevel == Round2(edge)
         && Priced(cfg, ticks[n], g.direction, k, edge, if g.direction == Long then t.tpBuy else t.tpSell, g)
  }

  /** Stop and target on the right sides, and the configured reward. */
  predicate Sane(cfg: IctConfig, g: Signal) {
    && (if g.direction == Long then g.sl <= g.price <= g.tp else g.tp <= g.price <= g.sl)
    && g.rr >= Round2(cfg.minRr)
  }

  ghost predicate SignalFrom(cfg: IctConfig, ticks: seq<Tick>, n: nat, t: Tracker, g: Signal) {
    && n < |ticks| && ticks[n].inSession
    && g.candleTime == ticks[n].candle.time && g.price == Round2(ticks[n].candle.close)
    && g.biasH1 == ticks[n].h1.bias && g.biasH4 == ticks[n].h4.bias
    && Sane(cfg, g)
    && exists k, level :: ConfirmsSweep(cfg, ticks, n, t, g, k, level)
  }

  ghost predicate SignalAt(cfg: IctConfig, ticks: seq<Tick>, n: nat, g: Signal) {
    n < |ticks| && SignalFrom(cfg, ticks, n, Run(cfg, ticks[..n + 1]).t, g)
  }

  // ---------- rounding keeps the order ----------

  lemma Round2Monotone(x: real, y: real)
    requires x <= y
    ensures Round2(x) <= Round2(y)
  {
    var a, b := x * 100.0, y * 100.0;
    assert RoundHalfEven(a) <= RoundHalfEven(b);
  }

  // ---------- one evaluation ----------

  lemma {:induction false} SweptMembers(pools: seq<Pool>, c: Candle, d: Direction, reach: real, p: Pool)
    ensures p in Swept(pools, c, d, reach) <==> p in pools && SweptBy(c, d, p.level, reach)
  {
    if pools != [] {
      SweptMembers(pools[..|pools| - 1], c, d, reach, p);
      assert pools == pools[..|pools| - 1] + [pools[|pools| - 1]];
    }
  }

  lemma NearestIsExtreme(pools: seq<Pool>, c: Candle, d: Direction, reach: real)
    requires Swept(pools, c, d, reach) != []
    ensures var side := if d == Long then Structure.Bull else Structure.Bear;
      NearestSwept(pools, c, d, reach, Structure.Extreme(side, PoolLevels(Swept(pools, c, d, reach))))
  {
    var swept := Swept(pools, c, d, reach);
    var levels, side := PoolLevels(swept), if d == Long then Structure.Bull else Structure.Bear;
    var level := Structure.Extreme(side, levels);
    Structure.ExtremeSpec(side, levels);
    var i :| 0 <= i < |levels| && levels[i] == level;
    SweptMembers(pools, c, d, reach, swept[i]);
    SweptIs(c, d, level, reach);
    forall p | p in pools && WickedThrough(c, d, p.level, reach)
      ensures if d == Long then p.level <= level else p.level >= level
    {
      SweptIs(c, d, p.level, reach);
      SweptMembers(pools, c, d, reach, p);
      var j :| 0 <= j < |swept| && swept[j] == p;
      assert levels[j] == p.level;
    }
  }

  lemma {:induction false} TargetMembers(targets: seq<(int, real)>, d: Direction, sweepIdx: int, entry: real, x: real)
    ensures x in Targets(targets, d, sweepIdx, entry)
       <==> exists k :: 0 <= k < |targets| && targets[k] == (targets[k].0, x) && targets[k].0 > sweepIdx && Ahead(d, entry, x)
  {
    if targets != [] {
      TargetMembers(targets[..|targets| - 1], d, sweepIdx, entry, x);
    }
  }

  /** The take-profit is the nearest target recorded since the sweep; there is none only if no such
      target lies ahead. */
  lemma TakeProfitIsNearest(targets: seq<(int, real)>, d: Direction, sweepIdx: int, entry: real)
    ensures match TakeProfit(targets, d, sweepIdx, entry)
      case Some(tp) => exists k :: 0 <= k < |targets| && targets[k].1 == tp && NearestTarget(targets, d, sweepIdx, entry, k)
      case None => forall k :: 0 <= k < |targets| && targets[k].0 > sweepIdx ==> !Ahead(d, entry, targets[k].1)
  {
    var levels, side := Targets(targets, d, sweepIdx, entry), if d == Long then Structure.Bear else Structure.Bull;
    if levels == [] {
      forall k | 0 <= k < |targets| && targets[k].0 > sweepIdx
        ensures !Ahead(d, entry, targets[k].1)
      {
        TargetMembers(targets, d, sweepIdx, entry, targets[k].1);
      }
    } else {
      var tp := Structure.Extreme(side, levels);
      Structure.ExtremeSpec(side, levels);
      TargetMembers(targets, d, sweepIdx, entry, tp);
      var k :| 0 <= k < |targets| && targets[k] == (targets[k].0, tp) && targets[k].0 > sweepIdx && Ahead(d, entry, tp);
      forall j | 0 <= j < |targets| && targets[j].0 > sweepIdx && Ahead(d, entry, targets[j].1)
        ensures if d == Long then targets[k].1 <= targets[j].1 else targets[k].1 >= targets[j].1
      {
        TargetMembers(targets, d, sweepIdx, entry, targets[j].1);
        var x :| 0 <= x < |levels| && levels[x] == targets[j].1;
      }
      assert NearestTarget(targets, d, sweepIdx, entry, k);
    }
  }

  lemma RewardRatioIs(d: Direction, entry: real, sl: real, tp: real)
    requires if d == Long then sl < entry < tp else tp < entry < sl
    ensures RewardIs(d, entry, sl, tp, RewardRatio(entry, sl, tp))
  {
    var risk, gain := Abs(entry - sl), Abs(tp - entry);
    assert gain / risk * risk == gain;
  }

  /** A built signal has its stop behind the edge, the nearest target and at least the configured
      reward; after rounding, stop and target are on the right sides of its price. */
  lemma BuiltIsSane(cfg: IctConfig, d: Direction, s: Setup, kind: PlusOneKind, tick: Tick, targets: seq<(int, real)>, g: Signal)
    requires g in BuildSignal(cfg, d, s, kind, tick, targets)
    ensures Sane(cfg, g) && g.direction == d && g.price == Round2(tick.candle.close) && g.candleTime == tick.candle.time
    ensures g.sweepLevel == Round2(s.level) && g.sweepTime == s.sweepTime && g.setup == kind
    ensures g.biasH1 == tick.h1.bias && g.biasH4 == tick.h4.bias
    ensures s.structural.Some? && g.structuralLevel == Round2(s.structural.value)
    ensures Priced(cfg, tick, d, s.sweepIdx, s.structural.value, targets, g)
  {
    hide Round2, TakeProfit, RewardRatio, RewardIs, NearestTarget;
    var entry, edge := tick.candle.close, s.structural.value;
    var sl := StopOf(cfg, tick, d, edge);
    TakeProfitIsNearest(targets, d, s.sweepIdx, entry);
    var tp := TakeProfit(targets, d, s.sweepIdx, entry).value;
    var k :| 0 <= k < |targets| && targets[k].1 == tp && NearestTarget(targets, d, s.sweepIdx, entry, k);
    IsAhead(targets, d, s.sweepIdx, entry, k);
    var rr := RewardRatio(entry, sl, tp);
    RewardRatioIs(d, entry, sl, tp);
    assert PricedBy(cfg, tick, d, s.sweepIdx, edge, targets, g, k, rr);
    Round2Monotone(cfg.minRr, rr);
    if d == Long {
      Round2Monotone(sl, entry);
      Round2Monotone(entry, tp);
    } else {
      Round2Monotone(entry, sl);
      Round2Monotone(tp, entry);
    }
  }

  lemma IsAhead(targets: seq<(int, real)>, d: Direction, sweepIdx: int, entry: real, k: nat)
    requires k < |targets| && NearestTarget(targets, d, sweepIdx, entry, k)
    ensures Ahead(d, entry, targets[k].1)
  {
  }

  lemma CoversIs(cfg: IctConfig, d: Direction, b: OrderBlocks.Block, level: real, atr: real)
    ensures BlockCovers(cfg, d, b, level, atr) <==> Reaches(cfg, d, b, level, atr)
  {
  }

  lemma {:induction false} FirstCoveringIs(cfg: IctConfig, d: Direction, blocks: seq<OrderBlocks.Block>, level: real, atr: real)
    ensures match FirstCovering(cfg, d, blocks, level, atr)
      case Some(b) => exists i: nat :: FirstReaching(cfg, d, blocks, level, Some(atr), i) && blocks[i] == b
      case None => NoneReaching(cfg, d, blocks, level, Some(atr))
  {
    hide BlockCovers, Reaches;
    if blocks != [] {
      CoversIs(cfg, d, blocks[0], level, atr);
      FirstCoveringIs(cfg, d, blocks[1..], level, atr);
      if BlockCovers(cfg, d, blocks[0], level, atr) {
        assert FirstReaching(cfg, d, blocks, level, Some(atr), 0);
      } else if FirstCovering(cfg, d, blocks[1..], level, atr).Some? {
        var i: nat :| FirstReaching(cfg, d, blocks[1..], level, Some(atr), i)
                     && blocks[1..][i] == FirstCovering(cfg, d, blocks[1..], level, atr).value;
        assert FirstReaching(cfg, d, blocks, level, Some(atr), i + 1);
      }
    }
  }

  lemma BlockIff(cfg: IctConfig, d: Direction, blocks: seq<OrderBlocks.Block>, level: real, atr: Option<real>)
    ensures match CoveringBlock(cfg, d, blocks, level, atr)
      case Some(b) => IsFirstReaching(cfg, d, blocks, level, atr, b) && !NoneReaching(cfg, d, blocks, level, atr)
      case None => NoneReaching(cfg, d, blocks, level, atr)
  {
    hide Reaches, FirstCovering;
    if atr.Some? {
      FirstCoveringIs(cfg, d, blocks, level, atr.value);
    }
  }

  function CoveringBlock(cfg: IctConfig, d: Direction, blocks: seq<OrderBlocks.Block>, level: real, atr: Option<real>):
    Option<OrderBlocks.Block>
  {
    if atr.None? then None else FirstCovering(cfg, d, blocks, level, atr.value)
  }

  lemma OneFirst(cfg: IctConfig, d: Direction, blocks: seq<OrderBlocks.Block>, level: real, atr: Option<real>,
                 b: OrderBlocks.Block, c: OrderBlocks.Block)
    requires IsFirstReaching(cfg, d, blocks, level, atr, b) && IsFirstReaching(cfg, d, blocks, level, atr, c)
    ensures b == c && !NoneReaching(cfg, d, blocks, level, atr)
  {
    hide Reaches;
  }

  lemma NearIs(h1: H1Snapshot, line: Option<Trendlines.Line>, level: real, atr: Option<real>)
    ensures line.Some? && Near(Trendlines.ValueAt(line.value, h1.h1Len - 1), level, 1.5, atr) <==> LineNear(h1, line, level, atr)
  {
    hide Trendlines.ValueAt;
  }

  /** What is selected is the evidence there is, and nothing is selected only if there is none. */
  lemma PlusOneIff(cfg: IctConfig, d: Direction, level: real, tick: Tick, p: PlusOne)
    ensures SelectPlusOne(cfg, d, level, tick.atr, tick.h1, tick.h4) == Some(p)
       <==> Evidence(cfg, tick, d, level, p.kind, p.farEdge, p.structural)
  {
    hide IsFirstReaching, NoneReaching, LineNear, FirstCovering, Near, Trendlines.ValueAt;
    var blocks := if d == Long then tick.h1.buyBlocks else tick.h1.sellBlocks;
    var line := if d == Long then tick.h1.support else tick.h1.resistance;
    NearIs(tick.h1, line, level, tick.atr);
    BlockIff(cfg, d, blocks, level, tick.atr);
    forall b, c | IsFirstReaching(cfg, d, blocks, level, tick.atr, b) && IsFirstReaching(cfg, d, blocks, level, tick.atr, c)
      ensures b == c && !NoneReaching(cfg, d, blocks, level, tick.atr)
    {
      OneFirst(cfg, d, blocks, level, tick.atr, b, c);
    }
    var block := CoveringBlock(cfg, d, blocks, level, tick.atr);
    assert block.Some? ==> IsEdges(d, block.value, if d == Long then block.value.hi else block.value.lo,
                                   if d == Long then block.value.lo else block.value.hi);
  }

  lemma ConfirmationIs(cfg: IctConfig, t: Tracker, d: Direction, tick: Tick)
    requires Confirmation(cfg, t, d, tick).Some?
    ensures IsActive(SetupOf(t, d)) && t.idx - SetupOf(t, d).value.sweepIdx <= cfg.lookbackBars
    ensures var p := Confirmation(cfg, t, d, tick).value;
      ConfirmedBy(cfg, tick, d, SetupOf(t, d).value.level, p.kind, p.structural)
  {
    var p := Confirmation(cfg, t, d, tick).value;
    PlusOneIff(cfg, d, SetupOf(t, d).value.level, tick, p);
    hide SelectPlusOne, Evidence;
  }

  lemma StructureKeepsSetups(cfg: IctConfig, t: Tracker, c: Candle, atr: Option<real>)
    ensures var u := UpdateStructure(cfg, t, c, atr);
      u.idx == t.idx && u.longSetup == t.longSetup && u.shortSetup == t.shortSetup
  {
  }

  predicate SameTargets(t: Tracker, u: Tracker) {
    u.tpBuy == t.tpBuy && u.tpSell == t.tpSell
  }

  /** Where a signal comes from depends on the tracker by its targets alone. */
  lemma SameFrom(cfg: IctConfig, ticks: seq<Tick>, n: nat, t: Tracker, u: Tracker, g: Signal)
    requires SameTargets(t, u) && SignalFrom(cfg, ticks, n, t, g)
    ensures SignalFrom(cfg, ticks, n, u, g)
  {
    hide Sane;
    var k, level :| ConfirmsSweep(cfg, ticks, n, t, g, k, level);
    assert ConfirmsSweep(cfg, ticks, n, u, g, k, level) by {
      hide SweptAt, Held, ConfirmedBy, Priced;
    }
    hide ConfirmsSweep;
  }

  /** Expiry and sweep: an active setup is fresh or was opened just now. */
  lemma SweepTracks(cfg: IctConfig, ticks: seq<Tick>, t: Tracker, d: Direction, n: nat)
    requires n < |ticks| && ticks[n].inSession && t.idx == n && Tracked(cfg, ticks, t, d, n, n)
    requires IsActive(SetupOf(t, d)) ==> n - SetupOf(t, d).value.sweepIdx <= cfg.freshBars
    ensures var u := Sweep(cfg, t, d, ticks[n].candle, ticks[n].h1);
      && u.idx == n && SetupOf(u, Other(d)) == SetupOf(t, Other(d)) && SameTargets(t, u)
      && Tracked(cfg, ticks, u, d, n + 1, n)
      && (IsActive(SetupOf(u, d)) && SetupOf(u, d).value.sweepIdx < n ==> n - SetupOf(u, d).value.sweepIdx <= cfg.freshBars)
  {
    hide NearestSwept, PoolAt;
    var c, h1 := ticks[n].candle, ticks[n].h1;
    if Opened(cfg, t, d, c, h1).Some? {
      NearestIsExtreme(SweepPools(h1, d), c, d, ReachOf(cfg));
      assert SweptAt(cfg, ticks, n, d, Opened(cfg, t, d, c, h1).value.level);
    }
  }

  lemma ConfirmTracks(cfg: IctConfig, ticks: seq<Tick>, t: Tracker, d: Direction, n: nat, g: Signal)
    requires n < |ticks| && ticks[n].inSession && t.idx == n && Tracked(cfg, ticks, t, d, n + 1, n)
    requires IsActive(SetupOf(t, d)) && SetupOf(t, d).value.sweepIdx < n ==> n - SetupOf(t, d).value.sweepIdx <= cfg.freshBars
    ensures var (u, new_) := Confirm(cfg, t, d, ticks[n]);
      && u.idx == n && SetupOf(u, Other(d)) == SetupOf(t, Other(d)) && SameTargets(t, u)
      && Tracked(cfg, ticks, u, d, n + 1, n)
      && (g in new_ ==> SignalFrom(cfg, ticks, n, t, g))
  {
    hide Confirmation, SweptAt, Held, Sane, BuildSignal, ConfirmedBy, Priced;
    var p := Confirmation(cfg, t, d, ticks[n]);
    if p.Some? {
      ConfirmationIs(cfg, t, d, ticks[n]);
      var s := SetupOf(t, d).value;
      var s' := s.(confirmed := true, active := false, structural := Some(p.value.structural));
      var targets := if d == Long then t.tpBuy else t.tpSell;
      if g in BuildSignal(cfg, d, s', p.value.kind, ticks[n], targets) {
        BuiltIsSane(cfg, d, s', p.value.kind, ticks[n], targets, g);
        assert ConfirmsSweep(cfg, ticks, n, t, g, s.sweepIdx, s.level);
      }
    }
  }

  /** A setup that survives invalidation held on this close too. */
  lemma InvalidateTracks(cfg: IctConfig, ticks: seq<Tick>, t: Tracker, d: Direction, n: nat)
    requires n < |ticks| && Tracked(cfg, ticks, t, d, n + 1, n)
    ensures var u := Invalidate(t, d, ticks[n].candle);
      && u.idx == t.idx && SetupOf(u, Other(d)) == SetupOf(t, Other(d)) && SameTargets(t, u)
      && Tracked(cfg, ticks, u, d, n + 1, n + 1)
  {
    hide SweptAt;
  }

  lemma ExpireTracks(cfg: IctConfig, t: Tracker, d: Direction)
    ensures var u := Expire(cfg, t, d);
      && u.idx == t.idx && SetupOf(u, Other(d)) == SetupOf(t, Other(d)) && SameTargets(t, u)
      && (IsActive(SetupOf(u, d)) ==> SetupOf(u, d) == SetupOf(t, d) && t.idx - SetupOf(t, d).value.sweepIdx <= cfg.freshBars)
  {
  }

  lemma AdvanceTracks(cfg: IctConfig, ticks: seq<Tick>, t: Tracker, n: nat, g: Signal)
    requires n < |ticks| && t.idx == n - 1 && Tracked(cfg, ticks, t, Long, n, n) && Tracked(cfg, ticks, t, Short, n, n)
    ensures var (u, new_) := Advance(cfg, t, ticks[n]);
      && u.idx == n && Tracked(cfg, ticks, u, Long, n + 1, n + 1) && Tracked(cfg, ticks, u, Short, n + 1, n + 1)
      && (g in new_ ==> SignalFrom(cfg, ticks, n, u, g))
  {
    hide UpdateStructure, Expire, Sweep, Confirm, Invalidate, SweptAt, SignalFrom;
    var tick := ticks[n];
    var t1 := UpdateStructure(cfg, t.(idx := t.idx + 1), tick.candle, tick.atr);
    StructureKeepsSetups(cfg, t.(idx := t.idx + 1), tick.candle, tick.atr);
    if tick.inSession {
      hide Pending;
      ExpireTracks(cfg, t1, Long);
      ExpireTracks(cfg, Expire(cfg, t1, Long), Short);
      var t2 := Expire(cfg, Expire(cfg, t1, Long), Short);
      SweepTracks(cfg, ticks, t2, Long, n);
      var t3 := Sweep(cfg, t2, Long, tick.candle, tick.h1);
      SweepTracks(cfg, ticks, t3, Short, n);
      var t4 := Sweep(cfg, t3, Short, tick.candle, tick.h1);
      ConfirmTracks(cfg, ticks, t4, Long, n, g);
      var t5 := Confirm(cfg, t4, Long, tick).0;
      ConfirmTracks(cfg, ticks, t5, Short, n, g);
      var t6 := Confirm(cfg, t5, Short, tick).0;
      InvalidateTracks(cfg, ticks, t6, Long, n);
      InvalidateTracks(cfg, ticks, Invalidate(t6, Long, tick.candle), Short, n);
      var u := Invalidate(Invalidate(t6, Long, tick.candle), Short, tick.candle);
      if SignalFrom(cfg, ticks, n, t4, g) {
        SameFrom(cfg, ticks, n, t4, u, g);
      }
      if SignalFrom(cfg, ticks, n, t5, g) {
        SameFrom(cfg, ticks, n, t5, u, g);
      }
    }
  }

  // ---------- whole runs ----------

  lemma {:induction false} RunTracks(cfg: IctConfig, ticks: seq<Tick>, n: nat, g: Signal)
    requires n <= |ticks|
    ensures var a := Run(cfg, ticks[..n]);
      && a.t.idx == n - 1 && Tracked(cfg, ticks, a.t, Long, n, n) && Tracked(cfg, ticks, a.t, Short, n, n)
      && (g in a.signals ==> exists i :: SignalAt(cfg, ticks, i, g))
  {
    hide Advance, Tracked, SignalFrom;
    if n == 0 {
      FreshTracks(cfg, ticks);
    } else {
      RunTracks(cfg, ticks, n - 1, g);
      assert ticks[..n][..n - 1] == ticks[..n - 1];
      AdvanceTracks(cfg, ticks, Run(cfg, ticks[..n - 1]).t, n - 1, g);
      assert SignalFrom(cfg, ticks, n - 1, Run(cfg, ticks[..n]).t, g) ==> SignalAt(cfg, ticks, n - 1, g);
    }
  }

  lemma FreshTracks(cfg: IctConfig, ticks: seq<Tick>)
    ensures Tracked(cfg, ticks, Fresh(), Long, 0, 0) && Tracked(cfg, ticks, Fresh(), Short, 0, 0)
  {
  }

  /** Every signal of a run is given in session, at the close of its candle, for a level that was
      swept at most the lookback and the freshness window earlier and that no candle in session has
      closed through since; its stop and target lie on the right sides and its reward is the
      configured one. */
  lemma SignalsConfirmSweeps(cfg: IctConfig, ticks: seq<Tick>, g: Signal)
    requires g in Run(cfg, ticks).signals
    ensures exists n :: SignalAt(cfg, ticks, n, g)
  {
    RunTracks(cfg, ticks, |ticks|, g);
    assert ticks[..|ticks|] == ticks;
  }

  /** The evaluations of the first `n` M5 candles: those with both higher-timeframe snapshots. */
  function TicksOf(h: History, cfg: IctConfig, sessions: Sessions, n: nat): seq<Tick>
    requires cfg.Valid() && n <= |h.m5|
  {
    if n == 0 then []
    else
      var tick := TickAt(h, cfg, sessions, n - 1);
      TicksOf(h, cfg, sessions, n - 1) + (if tick.Some? then [tick.value] else [])
  }

  /** A replay is a run of the tracker over its evaluations, so what holds over any stream of them
      holds of every replay. */
  lemma {:induction false} ReplayIsRun(h: History, cfg: IctConfig, sessions: Sessions, n: nat)
    requires cfg.Valid() && n <= |h.m5|
    ensures var a := IctAttempts.Run(cfg, TicksOf(h, cfg, sessions, n)); Replay(h, cfg, sessions, n) == (a.t, a.signals)
  {
    hide TickAt, Advance, OpenedIn;
    if n > 0 {
      ReplayIsRun(h, cfg, sessions, n - 1);
      var tick, front := TickAt(h, cfg, sessions, n - 1), TicksOf(h, cfg, sessions, n - 1);
      if tick.Some? {
        assert TicksOf(h, cfg, sessions, n) == front + [tick.value];
        assert (front + [tick.value])[..|front|] == front;
      } else {
        assert TicksOf(h, cfg, sessions, n) == front;
      }
    }
  }

  /** Whatever the strategy generates goes back to a sweep of a level that held, and no level gives
      more signals than it has attempts. */
  lemma GeneratedSignals(h: History, cfg: IctConfig, sessions: Sessions, g: Signal)
    requires cfg.Valid() && g in Generate(h, cfg, sessions)
    ensures exists n :: SignalAt(cfg, TicksOf(h, cfg, sessions, |h.m5|), n, g)
    ensures SignalCount(Generate(h, cfg, sessions), SignalKey(g)) <= cfg.maxAttempts
  {
    hide SignalAt, TicksOf;
    ReplayIsRun(h, cfg, sessions, |h.m5|);
    var ticks := TicksOf(h, cfg, sessions, |h.m5|);
    SignalsConfirmSweeps(cfg, ticks, g);
    SomeSignal(Generate(h, cfg, sessions), g);
    var n :| SignalAt(cfg, ticks, n, g);
    KeyOfSignal(cfg, ticks, n, g);
    var level :| SignalKey(g) == KeyOf(g.direction, level);
    SignalsPerLevelBounded(cfg, ticks, g.direction, level);
  }

  lemma KeyOfSignal(cfg: IctConfig, ticks: seq<Tick>, n: nat, g: Signal)
    requires SignalAt(cfg, ticks, n, g)
    ensures exists level :: SignalKey(g) == KeyOf(g.direction, level)
  {
    hide Priced, ConfirmedBy, SweptAt, Held, Sane;
    var k, level :| ConfirmsSweep(cfg, ticks, n, Run(cfg, ticks[..n + 1]).t, g, k, level);
    assert SignalKey(g) == KeyOf(g.direction, level);
  }

  lemma {:induction false} SomeSignal(signals: seq<Signal>, g: Signal)
    requires g in signals
    ensures SignalCount(signals, SignalKey(g)) >= 1
  {
    if g in signals[..|signals| - 1] {
      SomeSignal(signals[..|signals| - 1], g);
    }
  }

  /** Rounding can bring a signal's stop onto its price; a signal that is given a size at all has its
      stop strictly on the protective side. */
  lemma SizedSignalsAreProtective(h: History, cfg: IctConfig, sessions: Sessions, g: Signal,
                                  c: Sizing.RiskConfig, minLot: real, lotStep: real, equity: Option<real>)
    requires cfg.Valid() && g in Generate(h, cfg, sessions) && lotStep > 0.0
    requires Sizing.PositionSize(c, minLot, lotStep, Some(g.price), Some(g.sl), equity).Sized?
    ensures if g.direction == Long then g.sl < g.price <= g.tp else g.tp <= g.price < g.sl
  {
    GeneratedSignals(h, cfg, sessions, g);
    var ticks := TicksOf(h, cfg, sessions, |h.m5|);
    var n :| SignalAt(cfg, ticks, n, g);
    IsSane(cfg, ticks, n, g);
    hide Generate, SignalAt, TicksOf;
  }

  lemma IsSane(cfg: IctConfig, ticks: seq<Tick>, n: nat, g: Signal)
    requires SignalAt(cfg, ticks, n, g)
    ensures Sane(cfg, g)
  {
    hide ConfirmsSweep, Run;
  }
}
