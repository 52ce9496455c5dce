/** The walk-forward M5 state machine of the ICT strategy (services/strategy/ict.py, `M5Tracker`). */
module IctTracker {
  import opened Prelude
  import opened IctSnapshot
  import Structure
  import OrderBlocks
  import Trendlines

  datatype Setup = Setup(level: real, sweepIdx: int, kind: PoolKind, sweepTime: int,
                         active: bool, confirmed: bool, structural: Option<real>)

  datatype PlusOneKind = OrderBlock | TrendlineBounce | HtfAlignment

  datatype PlusOne = PlusOne(kind: PlusOneKind, farEdge: real, structural: real)

  datatype Signal = Signal(direction: Direction, price: real, sl: real, tp: real, rr: real,
                           candleTime: int, setup: PlusOneKind, sweepLevel: real, sweepTime: int, structuralLevel: real,
                           biasH1: Option<Direction>, biasH4: Option<Direction>)

  /** A direction and a level rounded to cents: what attempts are counted by. */
  type Key = (Direction, real)

  datatype Tracker = Tracker(
    idx: int, window: seq<Candle>, day: Option<int>, dayHigh: real, dayLow: real,
    tpBuy: seq<(int, real)>, tpSell: seq<(int, real)>,
    longSetup: Option<Setup>, shortSetup: Option<Setup>, attempts: map<Key, nat>)

  /** One M5 evaluation: the candle, its ATR and the snapshots closed by then. */
  datatype Tick = Tick(candle: Candle, atr: Option<real>, h1: H1Snapshot, h4: H4Snapshot, inSession: bool)

  function Fresh(): Tracker {
    Tracker(-1, [], None, 0.0, 0.0, [], [], None, None, map[])
  }

  // ---------- structure ----------

  predicate MiddleIsHighest(w: seq<Candle>)
    requires |w| == 5
  {
    w[2].high > Max(Max(Max(w[0].high, w[1].high), w[3].high), w[4].high)
  }

  predicate MiddleIsLowest(w: seq<Candle>)
    requires |w| == 5
  {
    w[2].low < Min(Min(Min(w[0].low, w[1].low), w[3].low), w[4].low)
  }

  /** `abs(a - b) <= tolerance x ATR`, false when the ATR is NaN. */
  predicate Near(a: real, b: real, tolerance: real, atr: Option<real>) {
    atr.Some? && Abs(a - b) <= tolerance * atr.value
  }

  /** Append a target level, and its pool with the previous one when the two are equal. */
  function AddTarget(targets: seq<(int, real)>, idx: int, level: real, above: bool, cfg: IctConfig, atr: Option<real>):
    seq<(int, real)>
  {
    var added := targets + [(idx, level)];
    var n := |added|;
    if n >= 2 && Near(added[n - 1].1, added[n - 2].1, cfg.eqToleranceAtr, atr)
    then added + [(idx, if above then Max(added[n - 1].1, added[n - 2].1) else Min(added[n - 1].1, added[n - 2].1))]
    else added
  }

  /** Today's running extremes and the five-candle window. */
  function Observe(t: Tracker, c: Candle): Tracker {
    var t1 := if Some(Day(c)) != t.day then t.(day := Some(Day(c)), dayHigh := c.high, dayLow := c.low)
              else t.(dayHigh := Max(t.dayHigh, c.high), dayLow := Min(t.dayLow, c.low));
    t1.(window := if |t.window| < 5 then t.window + [c] else t.window[|t.window| - 4..] + [c])
  }

  function Target(cfg: IctConfig, t: Tracker, level: real, above: bool, atr: Option<real>): Tracker {
    if Excluded(level, above, cfg, t.dayHigh, t.dayLow) then t
    else if above then t.(tpBuy := AddTarget(t.tpBuy, t.idx, level, true, cfg, atr))
    else t.(tpSell := AddTarget(t.tpSell, t.idx, level, false, cfg, atr))
  }

  function UpdateStructure(cfg: IctConfig, t: Tracker, c: Candle, atr: Option<real>): Tracker {
    var t1 := Observe(t, c);
    if |t1.window| != 5 then t1
    else
      var mid := t1.window[2];
      var t2 := if MiddleIsHighest(t1.window) then Target(cfg, t1, mid.high, true, atr) else t1;
      if MiddleIsLowest(t2.window) then Target(cfg, t2, mid.low, false, atr) else t2
  }

  // ---------- attempts ----------

  function KeyOf(direction: Direction, level: real): Key {
    (direction, Round2(level))
  }

  function Attempts(attempts: map<Key, nat>, key: Key): nat {
    if key in attempts then attempts[key] else 0
  }

  function SetupOf(t: Tracker, d: Direction): Option<Setup> {
    if d == Long then t.longSetup else t.shortSetup
  }

  function WithSetup(t: Tracker, d: Direction, s: Setup): Tracker {
    if d == Long then t.(longSetup := Some(s)) else t.(shortSetup := Some(s))
  }

  predicate IsActive(s: Option<Setup>) {
    s.Some? && s.value.active
  }

  function Consume(t: Tracker, d: Direction, level: real): Tracker {
    var key := KeyOf(d, level);
    t.(attempts := t.attempts[key := Attempts(t.attempts, key) + 1])
  }

  /** Store a setup that is no longer active and count its attempt. */
  function Retire(t: Tracker, d: Direction, s: Setup): Tracker {
    Consume(WithSetup(t, d, s), d, s.level)
  }

  // ---------- expiry, sweep, confirmation, invalidation ----------

  function Expire(cfg: IctConfig, t: Tracker, d: Direction): Tracker {
    var s := SetupOf(t, d);
    if IsActive(s) && t.idx - s.value.sweepIdx > cfg.freshBars
    then Retire(t, d, s.value.(active := false)) else t
  }

  predicate SweptBy(c: Candle, d: Direction, level: real, maxDistance: real) {
    if d == Long then c.low < level < c.close && level >= c.close - maxDistance
    else c.close < level < c.high && level <= c.close + maxDistance
  }

  function Swept(pools: seq<Pool>, c: Candle, d: Direction, maxDistance: real): seq<Pool> {
    if pools == [] then []
    else
      Swept(pools[..|pools| - 1], c, d, maxDistance)
      + (if SweptBy(c, d, pools[|pools| - 1].level, maxDistance) then [pools[|pools| - 1]] else [])
  }

  function PoolLevels(pools: seq<Pool>): (r: seq<real>)
    ensures |r| == |pools|
  {
    seq(|pools|, i requires 0 <= i < |pools| => pools[i].level)
  }

  function PoolAt(pools: seq<Pool>, level: real): Option<PoolKind> {
    if pools == [] then None
    else if pools[0].level == level then Some(pools[0].kind)
    else PoolAt(pools[1..], level)
  }

  function SweepPools(h1: H1Snapshot, d: Direction): seq<Pool> {
    if d == Long then h1.sellLiquidity else h1.buyLiquidity
  }

  /** The setup that this candle's sweep opens, if any: on the swept pool nearest to the close,
      when no setup of the direction is active and the level still has an attempt. */
  function Opened(cfg: IctConfig, t: Tracker, d: Direction, c: Candle, h1: H1Snapshot): Option<Setup> {
    if IsActive(SetupOf(t, d)) then None
    else
      var swept := Swept(SweepPools(h1, d), c, d, cfg.maxDistancePoints / 100.0);
      if swept == [] then None
      else
        var level := Structure.Extreme(if d == Long then Structure.Bull else Structure.Bear, PoolLevels(swept));
        if Attempts(t.attempts, KeyOf(d, level)) < cfg.maxAttempts then
          var kind := PoolAt(swept, level);
          Some(Setup(level, t.idx, if kind.Some? then kind.value else SwingPool, c.time, true, false, None))
        else None
  }

  function Sweep(cfg: IctConfig, t: Tracker, d: Direction, c: Candle, h1: H1Snapshot): Tracker {
    match Opened(cfg, t, d, c, h1)
    case None => t
    case Some(s) => WithSetup(t, d, s)
  }

  predicate BlockCovers(cfg: IctConfig, d: Direction, b: OrderBlocks.Block, level: real, atr: real) {
    var zone := cfg.slBufferAtr * atr;
    if d == Long then b.lo - zone - 0.5 * atr <= level <= b.hi
    else b.lo <= level <= b.hi + zone + 0.5 * atr
  }

  function FirstCovering(cfg: IctConfig, d: Direction, blocks: seq<OrderBlocks.Block>, level: real, atr: real):
    Option<OrderBlocks.Block>
  {
    if blocks == [] then None
    else if BlockCovers(cfg, d, blocks[0], level, atr) then Some(blocks[0])
    else FirstCovering(cfg, d, blocks[1..], level, atr)
  }

  function SelectPlusOne(cfg: IctConfig, d: Direction, level: real, atr: Option<real>, h1: H1Snapshot, h4: H4Snapshot):
    Option<PlusOne>
  {
    var block := if atr.None? then None
                 else FirstCovering(cfg, d, if d == Long then h1.buyBlocks else h1.sellBlocks, level, atr.value);
    var line := if d == Long then h1.support else h1.resistance;
    if block.Some? then
      var b := block.value;
      Some(if d == Long then PlusOne(OrderBlock, b.hi, b.lo) else PlusOne(OrderBlock, b.lo, b.hi))
    else if line.Some? && Near(Trendlines.ValueAt(line.value, h1.h1Len - 1), level, 1.5, atr) then
      var v := Trendlines.ValueAt(line.value, h1.h1Len - 1);
      Some(PlusOne(TrendlineBounce, v, v))
    else if h1.bias == Some(d) && h4.bias == Some(d) then Some(PlusOne(HtfAlignment, level, level))
    else None
  }

  function Other(d: Direction): Direction {
    if d == Long then Short else Long
  }

  /** What confirms the setup on this candle, if anything. */
  function Confirmation(cfg: IctConfig, t: Tracker, d: Direction, tick: Tick): Option<PlusOne> {
    var s := SetupOf(t, d);
    if !IsActive(s) || s.value.confirmed || t.idx - s.value.sweepIdx > cfg.lookbackBars || tick.h4.bias == Some(Other(d))
    then None
    else
      var p := SelectPlusOne(cfg, d, s.value.level, tick.atr, tick.h1, tick.h4);
      if p.Some? && (if d == Long then tick.candle.close > p.value.farEdge else tick.candle.close < p.value.farEdge)
      then p else None
  }

  function Confirm(cfg: IctConfig, t: Tracker, d: Direction, tick: Tick): (Tracker, seq<Signal>) {
    match Confirmation(cfg, t, d, tick)
    case None => (t, [])
    case Some(p) =>
      var s := SetupOf(t, d).value.(confirmed := true, active := false, structural := Some(p.structural));
      (Retire(t, d, s), BuildSignal(cfg, d, s, p.kind, tick, if d == Long then t.tpBuy else t.tpSell))
  }

  function Targets(targets: seq<(int, real)>, d: Direction, sweepIdx: int, entry: real): seq<real> {
    if targets == [] then []
    else
      var (i, level) := targets[|targets| - 1];
      Targets(targets[..|targets| - 1], d, sweepIdx, entry)
      + (if i > sweepIdx && (if d == Long then level > entry else level < entry) then [level] else [])
  }

  /** The take-profit is the nearest opposing level printed since the sweep. */
  function TakeProfit(targets: seq<(int, real)>, d: Direction, sweepIdx: int, entry: real): Option<real> {
    var levels := Targets(targets, d, sweepIdx, entry);
    if levels == [] then None
    else Some(Structure.Extreme(if d == Long then Structure.Bear else Structure.Bull, levels))
  }

  function RewardRatio(entry: real, sl: real, tp: real): real {
    var risk := Abs(entry - sl);
    if risk > 0.0 then Abs(tp - entry) / risk else 0.0
  }

  function BuildSignal(cfg: IctConfig, d: Direction, s: Setup, kind: PlusOneKind, tick: Tick, targets: seq<(int, real)>):
    seq<Signal>
  {
    var buffer := cfg.slBufferAtr * (if tick.atr.Some? then tick.atr.value else 1.0);
    var entry := tick.candle.close;
    if s.structural.None? then []
    else
      var edge := s.structural.value;
      var sl := if d == Long then edge - buffer else edge + buffer;
      var tp := TakeProfit(targets, d, s.sweepIdx, entry);
      if (if d == Long then entry <= edge || sl >= entry else entry >= edge || sl <= entry) || tp.None?
         || RewardRatio(entry, sl, tp.value) < cfg.minRr
      then []
      else [Signal(d, Round2(entry), Round2(sl), Round2(tp.value), Round2(RewardRatio(entry, sl, tp.value)),
                   tick.candle.time, kind, Round2(s.level), s.sweepTime, Round2(edge),
                   tick.h1.bias, tick.h4.bias)]
  }

  function Invalidate(t: Tracker, d: Direction, c: Candle): Tracker {
    var s := SetupOf(t, d);
    if IsActive(s) && !s.value.confirmed && (if d == Long then c.close < s.value.level else c.close > s.value.level)
    then Retire(t, d, s.value.(active := false)) else t
  }

  /** One candle through the whole machine. */
  function Advance(cfg: IctConfig, t0: Tracker, tick: Tick): (Tracker, seq<Signal>) {
    var t1 := UpdateStructure(cfg, t0.(idx := t0.idx + 1), tick.candle, tick.atr);
    if !tick.inSession then (t1, [])
    else
      var t2 := Expire(cfg, Expire(cfg, t1, Long), Short);
      var t3 := Sweep(cfg, Sweep(cfg, t2, Long, tick.candle, tick.h1), Short, tick.candle, tick.h1);
      var (t4, longs) := Confirm(cfg, t3, Long, tick);
      var (t5, shorts) := Confirm(cfg, t4, Short, tick);
      (Invalidate(Invalidate(t5, Long, tick.candle), Short, tick.candle), longs + shorts)
  }

  // ---------- the tracker object ----------

  class M5Tracker {
    const cfg: IctConfig
    var idx: int
    var window: seq<Candle>
    var day: Option<int>
    var dayHigh: real
    var dayLow: real
    var tpBuy: seq<(int, real)>
    var tpSell: seq<(int, real)>
    var longSetup: Option<Setup>
    var shortSetup: Option<Setup>
    var attempts: map<Key, nat>

    function State(): Tracker
      reads this
    {
      Tracker(idx, window, day, dayHigh, dayLow, tpBuy, tpSell, longSetup, shortSetup, attempts)
    }

    constructor (cfg: IctConfig)
      ensures this.cfg == cfg && State() == Fresh()
    {
      this.cfg := cfg;
      idx, window, day, dayHigh, dayLow := -1, [], None, 0.0, 0.0;
      tpBuy, tpSell, longSetup, shortSetup, attempts := [], [], None, None, map[];
    }

    method AdvanceCandle(tick: Tick) returns (signals: seq<Signal>)
      modifies this
      ensures (State(), signals) == Advance(cfg, old(State()), tick)
    {
      hide Structure.Extreme, SelectPlusOne, Opened, BuildSignal, UpdateStructure;
      idx := idx + 1;
      StructureStep(tick.candle, tick.atr);
      if !tick.inSession {
        return [];
      }
      ExpireStep(Long);
      ExpireStep(Short);
      SweepStep(Long, tick.candle, tick.h1);
      SweepStep(Short, tick.candle, tick.h1);
      var longs := ConfirmStep(Long, tick);
      var shorts := ConfirmStep(Short, tick);
      InvalidateStep(Long, tick.candle);
      InvalidateStep(Short, tick.candle);
      signals := longs + shorts;
    }

    method StructureStep(c: Candle, atr: Option<real>)
      modifies this
      ensures State() == UpdateStructure(cfg, old(State()), c, atr)
    {
      hide Target, Max, Min, MiddleIsHighest, MiddleIsLowest;
      if day != Some(Day(c)) {
        day, dayHigh, dayLow := Some(Day(c)), c.high, c.low;
      } else {
        dayHigh, dayLow := Max(dayHigh, c.high), Min(dayLow, c.low);
      }
      window := if |window| < 5 then window + [c] else window[|window| - 4..] + [c];
      if |window| != 5 {
        return;
      }
      var mid := window[2];
      if MiddleIsHighest(window) {
        TargetStep(mid.high, true, atr);
      }
      if MiddleIsLowest(window) {
        TargetStep(mid.low, false, atr);
      }
    }

    /** Record a fractal as a target unless excluded, and once more when it equals the last one. */
    method TargetStep(level: real, above: bool, atr: Option<real>)
      modifies this`tpBuy, this`tpSell
      ensures State() == Target(cfg, old(State()), level, above, atr)
    {
      hide Excluded, Near, Max, Min;
      if Excluded(level, above, cfg, dayHigh, dayLow) {
        return;
      }
      var targets := (if above then tpBuy else tpSell) + [(idx, level)];
      var n := |targets|;
      if n >= 2 && Near(targets[n - 1].1, targets[n - 2].1, cfg.eqToleranceAtr, atr) {
        var pair := if above then Max(targets[n - 1].1, targets[n - 2].1) else Min(targets[n - 1].1, targets[n - 2].1);
        targets := targets + [(idx, pair)];
      }
      if above {
        tpBuy := targets;
      } else {
        tpSell := targets;
      }
    }

    method ConsumeAttempt(d: Direction, level: real)
      modifies this`attempts
      ensures State() == Consume(old(State()), d, level)
    {
      var key := KeyOf(d, level);
      attempts := attempts[key := (if key in attempts then attempts[key] else 0) + 1];
    }

    method StoreSetup(d: Direction, s: Setup)
      modifies this`longSetup, this`shortSetup
      ensures State() == WithSetup(old(State()), d, s)
    {
      if d == Long {
        longSetup := Some(s);
      } else {
        shortSetup := Some(s);
      }
    }

    method ExpireStep(d: Direction)
      modifies this
      ensures State() == Expire(cfg, old(State()), d)
    {
      var s := if d == Long then longSetup else shortSetup;
      if s.Some? && s.value.active && idx - s.value.sweepIdx > cfg.freshBars {
        StoreSetup(d, s.value.(active := false));
        ConsumeAttempt(d, s.value.level);
      }
    }

    method SweepStep(d: Direction, c: Candle, h1: H1Snapshot)
      modifies this
      ensures State() == Sweep(cfg, old(State()), d, c, h1)
    {
      hide Structure.Extreme, Swept;
      var s := if d == Long then longSetup else shortSetup;
      if s.Some? && s.value.active {
        return;
      }
      var swept := Swept(if d == Long then h1.sellLiquidity else h1.buyLiquidity, c, d, cfg.maxDistancePoints / 100.0);
      if swept != [] {
        var level := Structure.Extreme(if d == Long then Structure.Bull else Structure.Bear, PoolLevels(swept));
        if Attempts(attempts, KeyOf(d, level)) < cfg.maxAttempts {
          var kind := PoolAt(swept, level);
          StoreSetup(d, Setup(level, idx, if kind.Some? then kind.value else SwingPool, c.time, true, false, None));
        }
      }
    }

    method ConfirmStep(d: Direction, tick: Tick) returns (signals: seq<Signal>)
      modifies this
      ensures (State(), signals) == Confirm(cfg, old(State()), d, tick)
    {
      hide SelectPlusOne, BuildSignal;
      signals := [];
      var s := if d == Long then longSetup else shortSetup;
      if s.None? || !s.value.active || s.value.confirmed {
        return;
      }
      if idx - s.value.sweepIdx > cfg.lookbackBars {
        return;
      }
      if tick.h4.bias == Some(Other(d)) {
        return;
      }
      var plusOne := SelectPlusOne(cfg, d, s.value.level, tick.atr, tick.h1, tick.h4);
      if plusOne.None? {
        return;
      }
      var p := plusOne.value;
      if !(if d == Long then tick.candle.close > p.farEdge else tick.candle.close < p.farEdge) {
        return;
      }
      var setup := s.value.(confirmed := true, active := false, structural := Some(p.structural));
      StoreSetup(d, setup);
      ConsumeAttempt(d, setup.level);
      signals := BuildSignal(cfg, d, setup, p.kind, tick, if d == Long then tpBuy else tpSell);
    }

    method InvalidateStep(d: Direction, c: Candle)
      modifies this
      ensures State() == Invalidate(old(State()), d, c)
    {
      var s := if d == Long then longSetup else shortSetup;
      if s.Some? && s.value.active && !s.value.confirmed {
        if if d == Long then c.close < s.value.level else c.close > s.value.level {
          StoreSetup(d, s.value.(active := false));
          ConsumeAttempt(d, s.value.level);
        }
      }
    }
  }
}
