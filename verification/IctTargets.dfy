/** Which levels the ICT tracker records as targets (services/strategy/ict.py, `_update_structure`),
    over any stream of evaluations and in terms of its candles. */
module IctTargets {
  import opened Prelude
  import opened IctSnapshot
  import opened IctTracker
  import opened IctAttempts

  /** The `m`th multiple of the step is within the tolerance of the level. */
  ghost predicate NearMultiple(cfg: IctConfig, level: real, m: int) {
    && level - m as real * cfg.roundNumberStep <= cfg.roundNumberTol
    && m as real * cfg.roundNumberStep - level <= cfg.roundNumberTol
  }

  ghost predicate NearRoundNumber(cfg: IctConfig, level: real) {
    cfg.roundNumberStep > 0.0 && exists m :: NearMultiple(cfg, level, m)
  }

  /** A high is liquidity unless it is the day's own high, within the tolerance, or a round number. */
  ghost predicate Liquid(cfg: IctConfig, level: real, above: bool, dayHigh: real, dayLow: real) {
    var extreme := if above then dayHigh else dayLow;
    && (cfg.excludeSessionHighLow ==> level - extreme > cfg.roundNumberTol || extreme - level > cfg.roundNumberTol)
    && !NearRoundNumber(cfg, level)
  }

  lemma RoundNumberIff(cfg: IctConfig, level: real)
    requires cfg.roundNumberStep > 0.0
    ensures Abs(level - NearestMultiple(level, cfg.roundNumberStep)) <= cfg.roundNumberTol <==> NearRoundNumber(cfg, level)
  {
    var r := RoundHalfEven(level / cfg.roundNumberStep);
    NearIsWithin(cfg, level, r);
    assert NearestMultiple(level, cfg.roundNumberStep) == r as real * cfg.roundNumberStep;
    hide NearMultiple, NearestMultiple, RoundHalfEven, Abs;
    forall m | NearMultiple(cfg, level, m)
      ensures NearMultiple(cfg, level, r)
    {
      NearestIsNear(cfg, level, r, m);
    }
  }

  function Off(level: real, m: int, step: real): real {
    Abs(level - m as real * step)
  }

  lemma NearIsWithin(cfg: IctConfig, level: real, m: int)
    ensures NearMultiple(cfg, level, m) <==> Off(level, m, cfg.roundNumberStep) <= cfg.roundNumberTol
  {
    var y := m as real * cfg.roundNumberStep;
    assert Abs(level - y) <= cfg.roundNumberTol <==> level - y <= cfg.roundNumberTol && y - level <= cfg.roundNumberTol;
  }

  lemma NearestIsNear(cfg: IctConfig, level: real, r: int, m: int)
    requires cfg.roundNumberStep > 0.0 && r == RoundHalfEven(level / cfg.roundNumberStep) && NearMultiple(cfg, level, m)
    ensures NearMultiple(cfg, level, r)
  {
    hide RoundHalfEven, NearMultiple, Abs, Off;
    var step, x := cfg.roundNumberStep, level / cfg.roundNumberStep;
    NearIsWithin(cfg, level, r);
    NearIsWithin(cfg, level, m);
    Scaled(level, r, step);
    Scaled(level, m, step);
    RoundsToNearestEven(x, m);
    var dr, dm := Abs(x - r as real), Abs(x - m as real);
    Larger(dr, dm, step);
  }

  lemma Scaled(level: real, m: int, step: real)
    requires step > 0.0
    ensures Off(level, m, step) == Abs(level / step - m as real) * step
  {
    var x, y := level / step, m as real;
    assert x * step == level;
    assert level - y * step == (x - y) * step;
    if x < y {
      assert (x - y) * step < 0.0;
    } else {
      assert (x - y) * step >= 0.0;
    }
  }

  lemma Larger(x: real, y: real, step: real)
    requires x <= y && step > 0.0
    ensures x * step <= y * step
  {
  }

  lemma LiquidIff(cfg: IctConfig, level: real, above: bool, dayHigh: real, dayLow: real)
    ensures !Excluded(level, above, cfg, dayHigh, dayLow) <==> Liquid(cfg, level, above, dayHigh, dayLow)
  {
    hide NearestMultiple;
    if cfg.roundNumberStep > 0.0 {
      hide NearRoundNumber;
      RoundNumberIff(cfg, level);
    }
  }

  // ---------- what the tracker has seen ----------

  /** Evaluations `k` to `n` are those of the last one's day. */
  ghost predicate SameDaySince(ticks: seq<Tick>, k: nat, n: nat)
    requires k <= n < |ticks|
  {
    && (forall j :: k <= j <= n ==> ticks[j].candle.time / 1440 == ticks[n].candle.time / 1440)
    && (k > 0 ==> ticks[k - 1].candle.time / 1440 != ticks[n].candle.time / 1440)
  }

  ghost predicate IsHighest(ticks: seq<Tick>, k: nat, n: nat, x: real)
    requires k <= n < |ticks|
  {
    && (forall j :: k <= j <= n ==> ticks[j].candle.high <= x) && (exists j :: k <= j <= n && ticks[j].candle.high == x)
  }

  ghost predicate IsLowest(ticks: seq<Tick>, k: nat, n: nat, x: real)
    requires k <= n < |ticks|
  {
    && (forall j :: k <= j <= n ==> ticks[j].candle.low >= x) && (exists j :: k <= j <= n && ticks[j].candle.low == x)
  }

  ghost predicate WindowSeen(ticks: seq<Tick>, n: nat, window: seq<Candle>)
    requires n < |ticks|
  {
    && |window| == (if n < 4 then n + 1 else 5)
    && forall j :: 0 <= j < |window| ==> window[j] == ticks[n + 1 - |window| + j].candle
  }

  /** The last five candles, and the extremes of the day so far. */
  ghost predicate Seen(ticks: seq<Tick>, n: nat, t: Tracker)
    requires n < |ticks|
  {
    && t.idx == n && WindowSeen(ticks, n, t.window) && t.day == Some(ticks[n].candle.time / 1440)
    && exists k: nat :: k <= n && SameDaySince(ticks, k, n) && IsHighest(ticks, k, n, t.dayHigh) && IsLowest(ticks, k, n, t.dayLow)
  }

  lemma ObserveSees(ticks: seq<Tick>, n: nat, t: Tracker)
    requires n < |ticks|
    requires if n == 0 then t == Fresh() else Seen(ticks, n - 1, t)
    ensures Seen(ticks, n, Observe(t.(idx := t.idx + 1), ticks[n].candle))
  {
    hide Observe, WindowSeen, SameDaySince, IsHighest, IsLowest, Max, Min;
    var c, u := ticks[n].candle, Observe(t.(idx := t.idx + 1), ticks[n].candle);
    Observed(t.(idx := t.idx + 1), c);
    WindowShifts(ticks, n, t.window);
    if n == 0 || Some(c.time / 1440) != t.day {
      DayBegins(ticks, n);
      assert SameDaySince(ticks, n, n) && IsHighest(ticks, n, n, u.dayHigh) && IsLowest(ticks, n, n, u.dayLow);
    } else {
      var k: nat :| k <= n - 1 && SameDaySince(ticks, k, n - 1)
                     && IsHighest(ticks, k, n - 1, t.dayHigh) && IsLowest(ticks, k, n - 1, t.dayLow);
      DayGoesOn(ticks, k, n);
      HighestGrows(ticks, k, n, t.dayHigh);
      LowestGrows(ticks, k, n, t.dayLow);
    }
  }

  lemma Observed(t: Tracker, c: Candle)
    ensures var u, newDay := Observe(t, c), Some(c.time / 1440) != t.day;
      && u.idx == t.idx && u.day == Some(c.time / 1440)
      && u.dayHigh == (if newDay then c.high else Max(t.dayHigh, c.high)) && u.dayLow == (if newDay then c.low else Min(t.dayLow, c.low))
      && u.window == (if |t.window| < 5 then t.window + [c] else t.window[|t.window| - 4..] + [c])
  {
    hide Max, Min;
  }

  lemma WindowShifts(ticks: seq<Tick>, n: nat, window: seq<Candle>)
    requires n < |ticks| && if n == 0 then window == [] else WindowSeen(ticks, n - 1, window)
    ensures WindowSeen(ticks, n, (if |window| < 5 then window else window[|window| - 4..]) + [ticks[n].candle])
  {
  }

  lemma DayBegins(ticks: seq<Tick>, n: nat)
    requires n < |ticks| && (n > 0 ==> ticks[n - 1].candle.time / 1440 != ticks[n].candle.time / 1440)
    ensures SameDaySince(ticks, n, n) && IsHighest(ticks, n, n, ticks[n].candle.high) && IsLowest(ticks, n, n, ticks[n].candle.low)
  {
  }

  lemma DayGoesOn(ticks: seq<Tick>, k: nat, n: nat)
    requires k < n < |ticks| && SameDaySince(ticks, k, n - 1) && ticks[n].candle.time / 1440 == ticks[n - 1].candle.time / 1440
    ensures SameDaySince(ticks, k, n)
  {
  }

  lemma HighestGrows(ticks: seq<Tick>, k: nat, n: nat, x: real)
    requires k < n < |ticks| && IsHighest(ticks, k, n - 1, x)
    ensures IsHighest(ticks, k, n, Max(x, ticks[n].candle.high))
  {
    var j :| k <= j <= n - 1 && ticks[j].candle.high == x;
    assert ticks[if x < ticks[n].candle.high then n else j].candle.high == Max(x, ticks[n].candle.high);
  }

  lemma LowestGrows(ticks: seq<Tick>, k: nat, n: nat, x: real)
    requires k < n < |ticks| && IsLowest(ticks, k, n - 1, x)
    ensures IsLowest(ticks, k, n, Min(x, ticks[n].candle.low))
  {
    var j :| k <= j <= n - 1 && ticks[j].candle.low == x;
    assert ticks[if ticks[n].candle.low < x then n else j].candle.low == Min(x, ticks[n].candle.low);
  }

  // ---------- which levels are recorded ----------

  /** The middle one of the last five candles stands out on this side. */
  ghost predicate Fractal(ticks: seq<Tick>, n: nat, above: bool)
    requires n < |ticks|
  {
    n >= 4 && forall j :: n - 4 <= j <= n && j != n - 2 ==>
      if above then ticks[n - 2].candle.high > ticks[j].candle.high else ticks[n - 2].candle.low < ticks[j].candle.low
  }

  function MiddleLevel(ticks: seq<Tick>, n: nat, above: bool): real
    requires 4 <= n < |ticks|
  {
    if above then ticks[n - 2].candle.high else ticks[n - 2].candle.low
  }

  ghost predicate LiquidNow(cfg: IctConfig, ticks: seq<Tick>, n: nat, above: bool)
    requires 4 <= n < |ticks|
  {
    exists k: nat, high, low :: k <= n && SameDaySince(ticks, k, n) && IsHighest(ticks, k, n, high) && IsLowest(ticks, k, n, low)
                                && Liquid(cfg, MiddleLevel(ticks, n, above), above, high, low)
  }

  /** What evaluation `n` adds to the targets of a side: a liquid fractal, and once more the further
      of it and the target before it when the two are equal within the ATR tolerance. */
  ghost predicate Adds(cfg: IctConfig, ticks: seq<Tick>, n: nat, above: bool, before: seq<(int, real)>, after: seq<(int, real)>)
    requires n < |ticks|
  {
    if Fractal(ticks, n, above) && LiquidNow(cfg, ticks, n, above)
    then AddsLevel(cfg, ticks[n].atr, n, MiddleLevel(ticks, n, above), above, before, after)
    else after == before
  }

  ghost predicate AddsLevel(cfg: IctConfig, atr: Option<real>, n: nat, level: real, above: bool,
                            before: seq<(int, real)>, after: seq<(int, real)>)
  {
    if before != [] && EqualWithin(cfg, atr, level, before[|before| - 1].1) then
      exists x :: after == before + [(n, level), (n, x)] && (x == level || x == before[|before| - 1].1)
                  && (if above then x >= level && x >= before[|before| - 1].1 else x <= level && x <= before[|before| - 1].1)
    else after == before + [(n, level)]
  }

  ghost predicate EqualWithin(cfg: IctConfig, atr: Option<real>, x: real, y: real) {
    atr.Some? && x - y <= cfg.eqToleranceAtr * atr.value && y - x <= cfg.eqToleranceAtr * atr.value
  }

  lemma OneDay(ticks: seq<Tick>, n: nat, k: nat, l: nat)
    requires k <= n < |ticks| && l <= n && SameDaySince(ticks, k, n) && SameDaySince(ticks, l, n)
    ensures k == l
  {
  }

  lemma OneHighest(ticks: seq<Tick>, k: nat, n: nat, x: real, y: real)
    requires k <= n < |ticks| && IsHighest(ticks, k, n, x) && IsHighest(ticks, k, n, y)
    ensures x == y
  {
  }

  lemma OneLowest(ticks: seq<Tick>, k: nat, n: nat, x: real, y: real)
    requires k <= n < |ticks| && IsLowest(ticks, k, n, x) && IsLowest(ticks, k, n, y)
    ensures x == y
  {
  }

  lemma LiquidNowIff(cfg: IctConfig, ticks: seq<Tick>, n: nat, above: bool, t: Tracker)
    requires 4 <= n < |ticks| && Seen(ticks, n, t)
    ensures !Excluded(MiddleLevel(ticks, n, above), above, cfg, t.dayHigh, t.dayLow) <==> LiquidNow(cfg, ticks, n, above)
  {
    hide Liquid, Excluded, SameDaySince, IsHighest, IsLowest, MiddleLevel;
    LiquidIff(cfg, MiddleLevel(ticks, n, above), above, t.dayHigh, t.dayLow);
    var k: nat :| k <= n && SameDaySince(ticks, k, n) && IsHighest(ticks, k, n, t.dayHigh) && IsLowest(ticks, k, n, t.dayLow);
    if LiquidNow(cfg, ticks, n, above) {
      var l: nat, high, low :| l <= n && SameDaySince(ticks, l, n) && IsHighest(ticks, l, n, high) && IsLowest(ticks, l, n, low)
                               && Liquid(cfg, MiddleLevel(ticks, n, above), above, high, low);
      OneDay(ticks, n, k, l);
      OneHighest(ticks, k, n, high, t.dayHigh);
      OneLowest(ticks, k, n, low, t.dayLow);
    }
  }

  lemma FractalIff(ticks: seq<Tick>, n: nat, t: Tracker)
    requires n < |ticks| && Seen(ticks, n, t) && n >= 4
    ensures MiddleIsHighest(t.window) <==> Fractal(ticks, n, true)
    ensures MiddleIsLowest(t.window) <==> Fractal(ticks, n, false)
    ensures t.window[2].high == MiddleLevel(ticks, n, true) && t.window[2].low == MiddleLevel(ticks, n, false)
  {
    var w := t.window;
    hide SameDaySince, IsHighest, IsLowest;
    assert w[0] == ticks[n - 4].candle && w[1] == ticks[n - 3].candle && w[2] == ticks[n - 2].candle
        && w[3] == ticks[n - 1].candle && w[4] == ticks[n].candle;
  }

  lemma TargetAdds(cfg: IctConfig, ticks: seq<Tick>, n: nat, above: bool, t: Tracker, u: Tracker)
    requires 4 <= n < |ticks| && Seen(ticks, n, t) && t.idx == n
    requires u == if Fractal(ticks, n, above) then Target(cfg, t, MiddleLevel(ticks, n, above), above, ticks[n].atr) else t
    ensures Adds(cfg, ticks, n, above, if above then t.tpBuy else t.tpSell, if above then u.tpBuy else u.tpSell)
    ensures if above then u == t.(tpBuy := u.tpBuy) else u == t.(tpSell := u.tpSell)
  {
    LiquidNowIff(cfg, ticks, n, above, t);
    hide Seen, Fractal, LiquidNow, Excluded, MiddleLevel, AddTarget, AddsLevel;
    LevelAdded(cfg, ticks[n].atr, n, MiddleLevel(ticks, n, above), above, if above then t.tpBuy else t.tpSell);
  }

  lemma LevelAdded(cfg: IctConfig, atr: Option<real>, n: nat, level: real, above: bool, before: seq<(int, real)>)
    ensures AddsLevel(cfg, atr, n, level, above, before, AddTarget(before, n, level, above, cfg, atr))
  {
    if before != [] {
      var x := if above then Max(level, before[|before| - 1].1) else Min(level, before[|before| - 1].1);
      assert before + [(n, level)] + [(n, x)] == before + [(n, level), (n, x)];
    }
  }

  /** Over any stream: an evaluation adds to the targets of each side the liquid fractal that its
      candle completes, with its equal-level pair, and nothing else. */
  lemma TargetsAre(cfg: IctConfig, ticks: seq<Tick>, n: nat)
    requires n < |ticks|
    ensures var t, u := Run(cfg, ticks[..n]).t, Run(cfg, ticks[..n + 1]).t;
      Adds(cfg, ticks, n, true, t.tpBuy, u.tpBuy) && Adds(cfg, ticks, n, false, t.tpSell, u.tpSell)
  {
    hide Advance, UpdateStructure, Seen, Fractal, LiquidNow, AddsLevel;
    RunSees(cfg, ticks, n);
    var t, tick := Run(cfg, ticks[..n]).t, ticks[n];
    var t1 := t.(idx := t.idx + 1);
    assert ticks[..n + 1][..n] == ticks[..n] && ticks[..n + 1][n] == tick;
    assert Run(cfg, ticks[..n + 1]).t == Advance(cfg, t, tick).0;
    StructureAdds(cfg, ticks, n, t);
    TargetsKept(cfg, t, tick);
  }

  lemma StructureAdds(cfg: IctConfig, ticks: seq<Tick>, n: nat, t: Tracker)
    requires n < |ticks| && if n == 0 then t == Fresh() else Seen(ticks, n - 1, t)
    ensures var u := UpdateStructure(cfg, t.(idx := t.idx + 1), ticks[n].candle, ticks[n].atr);
      && Adds(cfg, ticks, n, true, t.tpBuy, u.tpBuy) && Adds(cfg, ticks, n, false, t.tpSell, u.tpSell)
      && Seen(ticks, n, u)
  {
    var t1 := Observe(t.(idx := t.idx + 1), ticks[n].candle);
    assert t1.tpBuy == t.tpBuy && t1.tpSell == t.tpSell;
    ObserveSees(ticks, n, t);
    if n < 4 {
      hide Observe;
      assert |t1.window| != 5;
      assert !Fractal(ticks, n, true) && !Fractal(ticks, n, false);
    } else {
      FractalIff(ticks, n, t1);
      var t2 := if MiddleIsHighest(t1.window) then Target(cfg, t1, t1.window[2].high, true, ticks[n].atr) else t1;
      TargetAdds(cfg, ticks, n, true, t1, t2);
      SeenTargets(ticks, n, t1, t2);
      var t3 := if MiddleIsLowest(t2.window) then Target(cfg, t2, t2.window[2].low, false, ticks[n].atr) else t2;
      TargetAdds(cfg, ticks, n, false, t2, t3);
      SeenTargets(ticks, n, t2, t3);
      hide Observe, Adds, Seen, Target, Fractal, MiddleIsHighest, MiddleIsLowest;
    }
  }

  lemma SeenTargets(ticks: seq<Tick>, n: nat, t: Tracker, u: Tracker)
    requires n < |ticks| && Seen(ticks, n, t)
    requires SameStructure(t, u.(tpBuy := t.tpBuy, tpSell := t.tpSell))
    ensures Seen(ticks, n, u)
  {
  }

  /** Nothing after the structure step touches targets, window or day. */
  lemma TargetsKept(cfg: IctConfig, t: Tracker, tick: Tick)
    ensures SameStructure(UpdateStructure(cfg, t.(idx := t.idx + 1), tick.candle, tick.atr), Advance(cfg, t, tick).0)
  {
    hide UpdateStructure, Expire, Sweep, Confirm, Invalidate;
    forall d, x: Tracker
      ensures SameStructure(x, Expire(cfg, x, d)) && SameStructure(x, Sweep(cfg, x, d, tick.candle, tick.h1))
      ensures SameStructure(x, Confirm(cfg, x, d, tick).0) && SameStructure(x, Invalidate(x, d, tick.candle))
    {
      StepKeepsStructure(cfg, x, d, tick);
    }
  }

  predicate SameStructure(t: Tracker, u: Tracker) {
    u == t.(longSetup := u.longSetup, shortSetup := u.shortSetup, attempts := u.attempts)
  }

  lemma StepKeepsStructure(cfg: IctConfig, x: Tracker, d: Direction, tick: Tick)
    ensures SameStructure(x, Expire(cfg, x, d)) && SameStructure(x, Sweep(cfg, x, d, tick.candle, tick.h1))
    ensures SameStructure(x, Confirm(cfg, x, d, tick).0) && SameStructure(x, Invalidate(x, d, tick.candle))
  {
    hide Opened, Confirmation, BuildSignal, Round2;
  }

  lemma {:induction false} RunSees(cfg: IctConfig, ticks: seq<Tick>, n: nat)
    requires n <= |ticks|
    ensures var t := Run(cfg, ticks[..n]).t; if n == 0 then t == Fresh() else Seen(ticks, n - 1, t)
  {
    hide Advance, Seen, UpdateStructure;
    if n > 0 {
      RunSees(cfg, ticks, n - 1);
      var t, tick := Run(cfg, ticks[..n - 1]).t, ticks[n - 1];
      assert ticks[..n][..n - 1] == ticks[..n - 1] && ticks[..n][n - 1] == tick;
      StructureAdds(cfg, ticks, n - 1, t);
      TargetsKept(cfg, t, tick);
      SeenTargets(ticks, n - 1, UpdateStructure(cfg, t.(idx := t.idx + 1), tick.candle, tick.atr), Advance(cfg, t, tick).0);
    }
  }
}
